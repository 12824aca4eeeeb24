// Reconciling a Codex rollout: which assistant text of a turn is final, and under
// which turn ID it is kept.
module Transcript {
  import opened Core
  import opened Guard
  import opened Ingest

  // A decoded rollout line. `line` stands for the raw line, whose hash names a text
  // without an ID of its own.
  datatype Event =
    | TaskStarted(turn: string)
    | TaskComplete
    | AssistantText(texts: seq<string>, id: string, line: string)
    | Other
    | Malformed

  // The parts that are not empty.
  function TextParts(texts: seq<string>): seq<string> {
    if texts == [] then []
    else TextParts(texts[..|texts| - 1]) + (if texts[|texts| - 1] != "" then [texts[|texts| - 1]] else [])
  }

  // An event that sets what the turn will end with.
  predicate IsText(e: Event) {
    e.AssistantText? && TextParts(e.texts) != []
  }

  predicate IsBoundary(e: Event) {
    e.TaskStarted? || e.TaskComplete?
  }

  function TextMessage(e: Event): IngestMessage
    requires IsText(e)
  {
    IngestMessage(Assistant, Join(TextParts(e.texts)), "", if e.id != "" then e.id else "transcript-" + e.line, "")
  }

  // ---- what a reader of the rollout would say ----

  // What an event's texts say: each that is not empty, whole and in order, one line
  // break between two.
  function Spoken(texts: seq<string>): string {
    if texts == [] then ""
    else if texts[0] == "" then Spoken(texts[1..])
    else if Spoken(texts[1..]) == "" then texts[0]
    else texts[0] + "\n" + Spoken(texts[1..])
  }

  // One text more is one line more, or nothing when it is empty.
  lemma {:induction false} SpokenMore(texts: seq<string>, text: string)
    ensures Spoken(texts + [text])
            == if text == "" then Spoken(texts) else if Spoken(texts) == "" then text
               else Spoken(texts) + "\n" + text
  {
    if texts == [] {
      assert texts + [text] == [text];
    } else {
      assert (texts + [text])[1..] == texts[1..] + [text];
      SpokenMore(texts[1..], text);
    }
  }

  lemma JoinMore(parts: seq<string>, last: string)
    ensures Join(parts + [last]) == if parts == [] then last else Join(parts) + "\n" + last
  {
    assert (parts + [last])[..|parts|] == parts;
  }

  lemma {:induction false} PartsAreSpoken(texts: seq<string>)
    ensures TextParts(texts) == [] <==> forall i | 0 <= i < |texts| :: texts[i] == ""
    ensures Join(TextParts(texts)) == Spoken(texts)
    ensures TextParts(texts) != [] <==> Spoken(texts) != ""
    decreases |texts|
  {
    if texts != [] {
      var init, last := texts[..|texts| - 1], texts[|texts| - 1];
      assert init + [last] == texts;
      PartsAreSpoken(init);
      OnePartMore(init, last);
    }
  }

  lemma OnePartMore(texts: seq<string>, last: string)
    requires TextParts(texts) == [] <==> forall i | 0 <= i < |texts| :: texts[i] == ""
    requires Join(TextParts(texts)) == Spoken(texts) && (TextParts(texts) != [] <==> Spoken(texts) != "")
    ensures
      var more := texts + [last];
      && (TextParts(more) == [] <==> forall i | 0 <= i < |more| :: more[i] == "")
      && Join(TextParts(more)) == Spoken(more) && (TextParts(more) != [] <==> Spoken(more) != "")
  {
    hide Join, Spoken;
    assert (texts + [last])[..|texts|] == texts;
    SpokenMore(texts, last);
    JoinMore(TextParts(texts), last);
    assert TextParts(texts) + [] == TextParts(texts);
    if forall i | 0 <= i < |texts| :: texts[i] == "" {
      assert forall i | 0 <= i < |texts| :: (texts + [last])[i] == texts[i];
    } else {
      var i :| 0 <= i < |texts| && texts[i] != "";
      assert (texts + [last])[i] != "";
    }
  }

  // The source ID of a text of its own.
  function OwnId(id: string, line: string): string {
    if id != "" then id else "transcript-" + line
  }

  // t is the last text before k, with no start or completion in between.
  predicate IsPendingText(events: seq<Event>, k: nat, t: nat)
    requires k <= |events|
  {
    t < k && IsText(events[t]) && forall i | t < i < k :: !IsText(events[i]) && !IsBoundary(events[i])
  }

  // A message is emitted at a completion, or at the end of the file, when a text is pending.
  predicate Emits(events: seq<Event>, k: nat)
    requires k <= |events|
  {
    && (k < |events| ==> events[k].TaskComplete?)
    && exists t: nat | t < k :: IsPendingText(events, k, t)
  }

  // s is the last start before k, and nothing has been emitted since.
  predicate IsOpenTurn(events: seq<Event>, k: nat, s: nat)
    requires k <= |events|
  {
    && s < k && events[s].TaskStarted?
    && (forall i | s < i < k :: !events[i].TaskStarted?)
    && (forall i | s < i < k :: !Emits(events, i))
  }

  // What an emission at k must look like.
  predicate IsEmission(events: seq<Event>, k: nat, m: IngestMessage)
    requires k <= |events|
  {
    exists t: nat | t < k ::
      && IsPendingText(events, k, t)
      && m.content == Spoken(events[t].texts) && m.role == Assistant && m.raw == "" && m.toolName == ""
      && (forall s: nat | s < k && IsOpenTurn(events, k, s) ::
            m.externalId == if events[s].turn != "" then events[s].turn else OwnId(events[t].id, events[t].line))
      && ((forall s: nat | s < k :: !IsOpenTurn(events, k, s)) ==>
            m.externalId == OwnId(events[t].id, events[t].line))
  }

  // A message emitted under a start carries the start's turn ID, when it has one, and
  // says what the last text since the start says, each of its parts whole.
  lemma EmissionOfTurn(events: seq<Event>, k: nat, s: nat, m: IngestMessage) returns (t: nat)
    requires k <= |events| && IsOpenTurn(events, k, s) && IsEmission(events, k, m)
    ensures s < t < k && IsText(events[t]) && forall u | t < u < k :: !IsText(events[u])
    ensures m.content == Spoken(events[t].texts)
    ensures m.externalId
            == if events[s].turn != "" then events[s].turn else if events[t].id != "" then events[t].id
               else "transcript-" + events[t].line
  {
    t :| t < k && IsPendingText(events, k, t)
      && m.content == Spoken(events[t].texts)
      && (forall s: nat | s < k && IsOpenTurn(events, k, s) ::
            m.externalId == if events[s].turn != "" then events[s].turn else OwnId(events[t].id, events[t].line));
  }

  // Without an open turn it is keyed by the text itself.
  lemma EmissionAlone(events: seq<Event>, k: nat, m: IngestMessage) returns (t: nat)
    requires k <= |events| && IsEmission(events, k, m) && forall s: nat | s < k :: !IsOpenTurn(events, k, s)
    ensures t < k && IsPendingText(events, k, t) && m.content == Spoken(events[t].texts)
    ensures m.externalId == if events[t].id != "" then events[t].id else "transcript-" + events[t].line
  {
    t :| t < k && IsPendingText(events, k, t) && m.content == Spoken(events[t].texts)
      && ((forall s: nat | s < k :: !IsOpenTurn(events, k, s)) ==>
            m.externalId == OwnId(events[t].id, events[t].line));
  }

  // Two emissions never have the same open turn.
  lemma OneMessagePerStart(events: seq<Event>, k: nat, l: nat, s: nat)
    requires k <= |events| && Emits(events, k) && IsOpenTurn(events, k, s)
    requires l <= |events| && Emits(events, l) && IsOpenTurn(events, l, s)
    ensures k == l
  {
  }

  // The turn started at s says something at t, and a completion or the end of the file
  // comes at k, before another start.
  predicate Says(events: seq<Event>, s: nat, t: nat, k: nat) {
    && s < t < k <= |events| && IsText(events[t])
    && (k < |events| ==> events[k].TaskComplete?)
    && forall i | s < i < k :: !events[i].TaskStarted?
  }

  // A start gets its message exactly when its turn says something that is completed,
  // or cut off by the end of the file.
  lemma StartIsAnswered(events: seq<Event>, s: nat)
    requires s < |events| && events[s].TaskStarted?
    ensures (exists k: nat | k <= |events| :: Emits(events, k) && IsOpenTurn(events, k, s))
            <==> exists t, k :: Says(events, s, t, k)
  {
    if exists k: nat | k <= |events| :: Emits(events, k) && IsOpenTurn(events, k, s) {
      var k: nat :| k <= |events| && Emits(events, k) && IsOpenTurn(events, k, s);
      var t: nat :| t < k && IsPendingText(events, k, t);
      assert Says(events, s, t, k);
    }
    if exists t, k :: Says(events, s, t, k) {
      var t, k :| Says(events, s, t, k);
      var end := TextIsEmitted(events, s, t, k);
      var first := FirstEmission(events, s, end);
    }
  }

  // The first boundary after a text, or the end of the file, emits the last text before it.
  lemma TextIsEmitted(events: seq<Event>, s: nat, t: nat, k: nat) returns (end: nat)
    requires Says(events, s, t, k)
    ensures t < end <= k && Emits(events, end)
  {
    end := t + 1;
    var last := t;
    while end < k && !IsBoundary(events[end])
      invariant t < end <= k && t <= last && IsPendingText(events, end, last)
    {
      if IsText(events[end]) {
        last := end;
      }
      end := end + 1;
    }
  }

  // The first emission after a start, with no other start in between, is under it.
  lemma FirstEmission(events: seq<Event>, s: nat, end: nat) returns (first: nat)
    requires s < end <= |events| && events[s].TaskStarted? && Emits(events, end)
    requires forall i | s < i < end :: !events[i].TaskStarted?
    ensures first <= end && Emits(events, first) && IsOpenTurn(events, first, s)
  {
    first := s + 1;
    while !Emits(events, first)
      invariant s < first <= end && forall i | s < i < first :: !Emits(events, i)
      decreases end - first
    {
      first := first + 1;
    }
  }

  // ---- the state machine ----

  function NoMessage(): IngestMessage {
    IngestMessage(Unrecognized(""), "", "", "", "")
  }

  predicate NothingPending(events: seq<Event>, k: nat)
    requires k <= |events|
  {
    forall t: nat | t < k :: !IsPendingText(events, k, t)
  }

  // The two fields after the first k events.
  ghost predicate Tracks(events: seq<Event>, k: nat, turnID: string, pending: IngestMessage)
    requires k <= |events|
  {
    && (pending.content == "" ==> pending == NoMessage() && NothingPending(events, k))
    && (pending.content != "" ==>
          exists t: nat | t < k :: IsPendingText(events, k, t) && pending == TextMessage(events[t]))
    && (turnID == "" ==> forall s: nat | s < k && IsOpenTurn(events, k, s) :: events[s].turn == "")
    && (turnID != "" ==> exists s: nat | s < k :: IsOpenTurn(events, k, s) && events[s].turn == turnID)
  }

  lemma {:induction false} TextIsNotEmpty(texts: seq<string>)
    ensures forall i | 0 <= i < |TextParts(texts)| :: TextParts(texts)[i] != ""
    ensures TextParts(texts) != [] ==> Join(TextParts(texts)) != ""
  {
    if texts != [] {
      TextIsNotEmpty(texts[..|texts| - 1]);
      var parts := TextParts(texts);
      if |parts| > 1 {
        assert Join(parts) == Join(parts[..|parts| - 1]) + "\n" + parts[|parts| - 1];
      }
    }
  }

  lemma PendingStep(events: seq<Event>, k: nat, t: nat)
    requires k < |events| && t <= k
    ensures IsPendingText(events, k + 1, t)
            <==> if t == k then IsText(events[k])
                 else !IsText(events[k]) && !IsBoundary(events[k]) && IsPendingText(events, k, t)
  {
  }

  lemma OpenTurnStep(events: seq<Event>, k: nat, s: nat)
    requires k < |events| && s <= k
    ensures IsOpenTurn(events, k + 1, s)
            <==> if s == k then events[k].TaskStarted?
                 else !events[k].TaskStarted? && !Emits(events, k) && IsOpenTurn(events, k, s)
  {
  }

  lemma OpenTurnUnique(events: seq<Event>, k: nat, r: nat, s: nat)
    requires k <= |events| && IsOpenTurn(events, k, r) && IsOpenTurn(events, k, s)
    ensures r == s
  {
  }

  lemma TracksPending(events: seq<Event>, k: nat, turnID: string, pending: IngestMessage)
    requires k < |events| && Tracks(events, k, turnID, pending)
    ensures
      var e := events[k];
      var after := if IsText(e) then TextMessage(e) else if IsBoundary(e) then NoMessage() else pending;
      && (after.content == "" ==> after == NoMessage() && NothingPending(events, k + 1))
      && (after.content != "" ==>
            exists t: nat | t < k + 1 :: IsPendingText(events, k + 1, t) && after == TextMessage(events[t]))
  {
    var e := events[k];
    if IsText(e) {
      TextIsNotEmpty(e.texts);
      assert IsPendingText(events, k + 1, k);
    } else if !IsBoundary(e) && pending.content != "" {
      var t: nat :| t < k && IsPendingText(events, k, t) && pending == TextMessage(events[t]);
      PendingStep(events, k, t);
    } else {
      var after := k + 1;
      forall t: nat | t < after
        ensures !IsPendingText(events, after, t)
      {
        PendingStep(events, k, t);
      }
      assert NothingPending(events, after);
    }
  }

  lemma TracksTurn(events: seq<Event>, k: nat, turnID: string, pending: IngestMessage)
    requires k < |events| && Tracks(events, k, turnID, pending)
    ensures Emits(events, k) <==> events[k].TaskComplete? && pending.content != ""
    ensures
      var after := if events[k].TaskStarted? then events[k].turn else if Emits(events, k) then "" else turnID;
      && (after == "" ==> forall s: nat | s < k + 1 && IsOpenTurn(events, k + 1, s) :: events[s].turn == "")
      && (after != "" ==> exists s: nat | s < k + 1 :: IsOpenTurn(events, k + 1, s) && events[s].turn == after)
  {
    var e := events[k];
    forall s: nat | s < k + 1
      ensures IsOpenTurn(events, k + 1, s)
              <==> if s == k then e.TaskStarted? else !e.TaskStarted? && !Emits(events, k) && IsOpenTurn(events, k, s)
    {
      OpenTurnStep(events, k, s);
    }
    if e.TaskStarted? {
      assert IsOpenTurn(events, k + 1, k);
    } else if !Emits(events, k) && turnID != "" {
      var s: nat :| s < k && IsOpenTurn(events, k, s) && events[s].turn == turnID;
      assert IsOpenTurn(events, k + 1, s);
    }
  }

  // Finishing on tracked fields emits what the rollout calls for.
  lemma FinishEmits(events: seq<Event>, k: nat, turnID: string, pending: IngestMessage)
    requires k <= |events| && Tracks(events, k, turnID, pending) && pending.content != ""
    requires k < |events| ==> events[k].TaskComplete?
    ensures Emits(events, k)
    ensures IsEmission(events, k, pending.(externalId := if turnID != "" then turnID else pending.externalId))
  {
    hide Spoken, Join, TextParts, IsBoundary;
    var t: nat :| t < k && IsPendingText(events, k, t) && pending == TextMessage(events[t]);
    PartsAreSpoken(events[t].texts);
    if turnID != "" {
      var s: nat :| s < k && IsOpenTurn(events, k, s) && events[s].turn == turnID;
      forall r: nat | r < k && IsOpenTurn(events, k, r)
        ensures r == s
      {
        OpenTurnUnique(events, k, r, s);
      }
    }
  }

  class CodexState {
    var turnID: string
    var pending: IngestMessage

    constructor ()
      ensures turnID == "" && pending == NoMessage()
    {
      turnID, pending := "", NoMessage();
    }

    method Finish() returns (message: IngestMessage, ok: bool)
      modifies this
      ensures ok == (old(pending.content) != "")
      ensures !ok ==> turnID == old(turnID) && pending == old(pending)
      ensures ok ==> turnID == "" && pending == NoMessage()
      ensures ok ==>
        message == old(pending).(externalId := if old(turnID) != "" then old(turnID) else old(pending).externalId)
    {
      if pending.content == "" {
        return NoMessage(), false;
      }
      if turnID != "" {
        pending := pending.(externalId := turnID);
      }
      message, ok := pending, true;
      pending, turnID := NoMessage(), "";
    }

    // Reads one event of a rollout and keeps track of it.
    method Consume(e: Event, ghost events: seq<Event>, ghost k: nat)
      returns (message: IngestMessage, relevant: bool, malformed: bool)
      requires k < |events| && events[k] == e && Tracks(events, k, turnID, pending)
      modifies this
      ensures Tracks(events, k + 1, turnID, pending)
      ensures malformed <==> e.Malformed?
      ensures relevant <==> Emits(events, k)
      ensures relevant ==> IsEmission(events, k, message)
    {
      message, relevant, malformed := NoMessage(), false, false;
      TracksPending(events, k, turnID, pending);
      TracksTurn(events, k, turnID, pending);
      match e {
        case TaskStarted(turn) =>
          turnID, pending := turn, NoMessage();
        case TaskComplete =>
          if pending.content != "" {
            FinishEmits(events, k, turnID, pending);
          }
          message, relevant := Finish();
        case AssistantText(texts, id, line) =>
          if TextParts(texts) != [] {
            pending := TextMessage(e);
          }
        case Other =>
        case Malformed =>
          malformed := true;
      }
    }
  }

  // What backfill relies on: every emitted message is an assistant's, says something,
  // and has a source ID.
  lemma EmissionsAreKeyed(events: seq<Event>, k: nat, m: IngestMessage)
    requires k <= |events| && IsEmission(events, k, m)
    ensures m.role == Assistant && m.content != "" && m.externalId != ""
  {
    hide TextParts, Spoken, Join;
    var t: nat :| t < k && IsPendingText(events, k, t) && m.content == Spoken(events[t].texts)
      && (forall s: nat | s < k && IsOpenTurn(events, k, s) ::
            m.externalId == if events[s].turn != "" then events[s].turn else OwnId(events[t].id, events[t].line))
      && ((forall s: nat | s < k :: !IsOpenTurn(events, k, s)) ==>
            m.externalId == OwnId(events[t].id, events[t].line));
    PartsAreSpoken(events[t].texts);
  }

  datatype Report = Report(lines: nat, malformed: nat, assistant: nat, limitReached: bool)

  // Reads one line and appends what it emits.
  method ReadLine(state: CodexState, e: Event, out: seq<IngestMessage>, ghost events: seq<Event>, ghost k: nat,
                  ghost ends: seq<nat>)
    returns (out': seq<IngestMessage>, malformed: bool, ghost ends': seq<nat>)
    requires k < |events| && events[k] == e && Tracks(events, k, state.turnID, state.pending)
    requires Collected(events, k, out, ends)
    modifies state
    ensures Tracks(events, k + 1, state.turnID, state.pending) && Collected(events, k + 1, out', ends')
    ensures malformed <==> e.Malformed?
  {
    var message, relevant;
    message, relevant, malformed := state.Consume(e, events, k);
    CollectedStep(events, k, out, ends, message);
    out', ends' := out, ends;
    if relevant {
      out', ends' := out + [message], ends + [k];
    }
  }

  // Appends what the end of the file emits.
  method ReadEnd(state: CodexState, out: seq<IngestMessage>, ghost events: seq<Event>, ghost ends: seq<nat>)
    returns (out': seq<IngestMessage>, ghost ends': seq<nat>)
    requires Tracks(events, |events|, state.turnID, state.pending) && Collected(events, |events|, out, ends)
    modifies state
    ensures Collected(events, |events| + 1, out', ends')
  {
    NoneToEmit(events, |events|, state.turnID, state.pending);
    if state.pending.content != "" {
      FinishEmits(events, |events|, state.turnID, state.pending);
    }
    var message, ok := state.Finish();
    CollectedStep(events, |events|, out, ends, message);
    out', ends' := out, ends;
    if ok {
      out', ends' := out + [message], ends + [|events|];
    }
  }

  lemma NoneToEmit(events: seq<Event>, k: nat, turnID: string, pending: IngestMessage)
    requires k <= |events| && Tracks(events, k, turnID, pending)
    ensures pending.content == "" ==> !Emits(events, k)
  {
  }

  // The lines that do not decode.
  function BadLines(events: seq<Event>): set<nat> {
    set k: nat | k < |events| && events[k].Malformed?
  }

  lemma NoBadLines()
    ensures BadLines([]) == {}
  {
  }

  lemma BadLinesOf(events: seq<Event>, n: nat)
    requires n <= |events|
    ensures BadLines(events[..n]) == set k: nat | k < n && events[k].Malformed?
  {
  }

  lemma BadLinesMore(events: seq<Event>, k: nat)
    requires k < |events|
    ensures |BadLines(events[..k + 1])| == |BadLines(events[..k])| + (if events[k].Malformed? then 1 else 0)
  {
    var before, after := events[..k], events[..k + 1];
    forall i: nat
      ensures i in BadLines(after) <==> i in BadLines(before) || (i == k && events[k].Malformed?)
    {
      if i < k {
        assert after[i] == before[i];
      }
    }
    assert BadLines(after) == BadLines(before) + (if events[k].Malformed? then {k} else {});
  }

  // The emissions of a rollout up to the line limit, each once, in order: a message
  // for every completed or unfinished turn that said something, and no other.
  method ReconcileTranscript(events: seq<Event>, maxLines: nat)
    returns (out: seq<IngestMessage>, report: Report, ghost ends: seq<nat>)
    ensures report.lines == Min(|events|, maxLines) && report.limitReached == (|events| > maxLines)
    ensures report.assistant == |out|
    ensures report.malformed == |set k: nat | k < report.lines && events[k].Malformed?|
    ensures Collected(events[..report.lines], report.lines + 1, out, ends)
  {
    hide BadLines;
    out, ends := [], [];
    NoBadLines();
    var state := new CodexState();
    var n: nat, malformed: nat := Min(|events|, maxLines), 0;
    ghost var read := events[..n];
    for k := 0 to n
      invariant Tracks(read, k, state.turnID, state.pending) && Collected(read, k, out, ends)
      invariant malformed == |BadLines(events[..k])|
    {
      BadLinesMore(events, k);
      var bad;
      out, bad, ends := ReadLine(state, events[k], out, read, k, ends);
      if bad {
        malformed := malformed + 1;
      }
    }
    out, ends := ReadEnd(state, out, read, ends);
    BadLinesOf(events, n);
    report := Report(n, malformed, |out|, |events| > maxLines);
  }

  // The emissions before k: `ends` lists where they happen, each once and in order,
  // and `out` what they are.
  ghost predicate Collected(events: seq<Event>, k: nat, out: seq<IngestMessage>, ends: seq<nat>)
    requires k <= |events| + 1
  {
    && |out| == |ends|
    && (forall i, j | 0 <= i < j < |ends| :: ends[i] < ends[j])
    && (forall i: nat | i < k :: i <= |events| && (Emits(events, i) <==> i in ends))
    && (forall j | 0 <= j < |ends| :: ends[j] < k && IsEmission(events, ends[j], out[j]))
  }

  lemma CollectedStep(events: seq<Event>, k: nat, out: seq<IngestMessage>, ends: seq<nat>, message: IngestMessage)
    requires k <= |events| && Collected(events, k, out, ends)
    requires Emits(events, k) ==> IsEmission(events, k, message)
    ensures Emits(events, k) ==> Collected(events, k + 1, out + [message], ends + [k])
    ensures !Emits(events, k) ==> Collected(events, k + 1, out, ends)
  {
    assert k !in ends;
    if Emits(events, k) {
      var more := ends + [k];
      forall i: nat | i < k + 1
        ensures i <= |events| && (Emits(events, i) <==> i in more)
      {
        assert i in more <==> i in ends || i == k;
      }
    }
  }
}
