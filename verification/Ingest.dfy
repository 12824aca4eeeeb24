// Ingestion: one request's messages pass the privacy policy and are appended one
// transaction at a time, while other processes append too.
module Ingest {
  import opened Core
  import opened Tokens
  import opened Dag
  import opened Messages

  datatype Agent = Claude | Codex | OpenCode | UnknownAgent(name: string) {
    predicate Valid() {
      !UnknownAgent?
    }

    function Name(): string {
      match this
      case Claude => "claude-code"
      case Codex => "codex"
      case OpenCode => "opencode"
      case UnknownAgent(name) => name
    }
  }

  datatype IngestMessage = IngestMessage(role: Role, content: string, toolName: string, externalId: string, raw: string)

  datatype Request = Request(agent: Agent, session: string, messages: seq<IngestMessage>)

  // The source hashes the pair; recognized agents have no slash in their names.
  function ConversationId(agent: Agent, session: string): string {
    agent.Name() + "/" + session
  }

  lemma ConversationIdInjective(a: Agent, s: string, b: Agent, t: string)
    requires a.Valid() && b.Valid() && ConversationId(a, s) == ConversationId(b, t)
    ensures a == b && s == t
  {
    var x, y := ConversationId(a, s), ConversationId(b, t);
    assert x[..|a.Name()|] == a.Name() && y[..|b.Name()|] == b.Name();
    assert x[|a.Name()|] == '/' && y[|b.Name()|] == '/';
    assert x[0] == a.Name()[0] && y[0] == b.Name()[0];
    assert x[1] == a.Name()[1] && y[1] == b.Name()[1];
    assert a == b;
    assert x[|a.Name()| + 1..] == s && y[|b.Name()| + 1..] == t;
  }

  // ---- the privacy policy ----

  // Exclusion and redaction as fixed functions; redaction rewrites text only.
  datatype Policy = Policy(
    captures: string -> bool,
    excludes: IngestMessage -> bool,
    redacts: IngestMessage -> Result<(string, string)>)

  datatype Decision = Decision(sessionExcluded: bool, excluded: nat, redacted: nat)

  datatype Filtered = Filtered(kept: seq<IngestMessage>, excluded: nat, redacted: nat)

  function Redacted(m: IngestMessage, text: (string, string)): IngestMessage {
    m.(content := text.0, raw := text.1)
  }

  function Filter(policy: Policy, messages: seq<IngestMessage>): Result<Filtered> {
    if messages == [] then Ok(Filtered([], 0, 0))
    else
      var before :- Filter(policy, messages[..|messages| - 1]);
      var m := messages[|messages| - 1];
      if policy.excludes(m) then Ok(before.(excluded := before.excluded + 1))
      else
        var text :- policy.redacts(m);
        var changed := Redacted(m, text) != m;
        Ok(Filtered(before.kept + [Redacted(m, text)], before.excluded, before.redacted + (if changed then 1 else 0)))
  }

  // What a filtered request is, message by message: `from` lists the messages kept, in
  // order, which are those not excluded; each is kept as it was but for its two texts,
  // which are the redacted ones; and `redacted` counts those whose texts changed.
  ghost predicate Kept(policy: Policy, messages: seq<IngestMessage>, f: Filtered, from: seq<nat>) {
    && |from| == |f.kept| && f.excluded == |messages| - |f.kept|
    && (forall i, j | 0 <= i < j < |from| :: from[i] < from[j])
    && (forall k: nat | k < |messages| :: k in from <==> !policy.excludes(messages[k]))
    && (forall j | 0 <= j < |from| :: from[j] < |messages| && KeptAs(policy, messages[from[j]], f.kept[j]))
    && f.redacted == |RewrittenAt(messages, f.kept, from)|
  }

  function RewrittenAt(messages: seq<IngestMessage>, kept: seq<IngestMessage>, from: seq<nat>): set<nat>
    requires |from| == |kept| && forall j | 0 <= j < |from| :: from[j] < |messages|
  {
    set j: nat | j < |from| && Rewritten(messages[from[j]], kept[j])
  }

  ghost predicate KeptAs(policy: Policy, m: IngestMessage, kept: IngestMessage) {
    && kept.role == m.role && kept.toolName == m.toolName && kept.externalId == m.externalId
    && policy.redacts(m) == Ok((kept.content, kept.raw))
  }

  predicate Rewritten(m: IngestMessage, kept: IngestMessage) {
    kept.content != m.content || kept.raw != m.raw
  }

  lemma {:induction false} FilterKeeps(policy: Policy, messages: seq<IngestMessage>) returns (from: seq<nat>)
    requires Filter(policy, messages).Ok?
    ensures Kept(policy, messages, Filter(policy, messages).value, from)
  {
    hide Kept;
    if messages == [] {
      from := NothingKept(policy);
    } else {
      var init, m := messages[..|messages| - 1], messages[|messages| - 1];
      from := FilterKeeps(policy, init);
      var before := Filter(policy, init).value;
      assert init + [m] == messages;
      if policy.excludes(m) {
        KeptWithout(policy, init, m, before, from);
      } else {
        from := KeptWith(policy, init, m, before, from, Redacted(m, policy.redacts(m).value));
      }
    }
  }

  lemma NothingKept(policy: Policy) returns (from: seq<nat>)
    ensures Kept(policy, [], Filtered([], 0, 0), from)
  {
    from := [];
  }

  lemma KeptWithout(policy: Policy, init: seq<IngestMessage>, m: IngestMessage, f: Filtered, from: seq<nat>)
    requires Kept(policy, init, f, from) && policy.excludes(m)
    ensures Kept(policy, init + [m], f.(excluded := f.excluded + 1), from)
  {
    hide KeptAs, Rewritten;
    assert RewrittenAt(init + [m], f.kept, from) == RewrittenAt(init, f.kept, from);
  }

  lemma KeptWith(policy: Policy, init: seq<IngestMessage>, m: IngestMessage, f: Filtered, from: seq<nat>,
                 now: IngestMessage)
    returns (more: seq<nat>)
    requires Kept(policy, init, f, from) && !policy.excludes(m) && KeptAs(policy, m, now)
    ensures
      Kept(policy, init + [m],
           Filtered(f.kept + [now], f.excluded, f.redacted + (if Rewritten(m, now) then 1 else 0)), more)
  {
    hide KeptAs, Rewritten;
    hide RewrittenAt;
    more := from + [|init|];
    RewrittenWith(init, m, f.kept, from, now);
    forall k: nat | k < |init + [m]|
      ensures k in more <==> !policy.excludes((init + [m])[k])
    {
      assert k in more <==> k in from || k == |init|;
    }
  }

  lemma RewrittenWith(init: seq<IngestMessage>, m: IngestMessage, kept: seq<IngestMessage>, from: seq<nat>,
                      now: IngestMessage)
    requires |from| == |kept| && forall j | 0 <= j < |from| :: from[j] < |init|
    ensures
      var more := from + [|init|];
      |RewrittenAt(init + [m], kept + [now], more)|
      == |RewrittenAt(init, kept, from)| + (if Rewritten(m, now) then 1 else 0)
  {
    hide Rewritten;
    assert RewrittenAt(init + [m], kept + [now], from + [|init|])
           == RewrittenAt(init, kept, from) + (if Rewritten(m, now) then {|from|} else {});
  }

  // A redaction failure is the first one, of a message that is not excluded.
  ghost predicate FailsAt(policy: Policy, messages: seq<IngestMessage>, k: nat, error: string) {
    && k < |messages| && !policy.excludes(messages[k]) && policy.redacts(messages[k]) == Err(error)
    && forall i | 0 <= i < k :: policy.excludes(messages[i]) || policy.redacts(messages[i]).Ok?
  }

  lemma {:induction false} FilterFailsFirst(policy: Policy, messages: seq<IngestMessage>)
    ensures Filter(policy, messages).Err? <==> exists k: nat, e :: FailsAt(policy, messages, k, e)
    ensures Filter(policy, messages).Err? ==>
      exists k: nat :: FailsAt(policy, messages, k, Filter(policy, messages).error)
  {
    if messages != [] {
      var n := |messages| - 1;
      FilterFailsFirst(policy, messages[..n]);
      forall k: nat, e | k < n
        ensures FailsAt(policy, messages[..n], k, e) <==> FailsAt(policy, messages, k, e)
      {
      }
      if Filter(policy, messages[..n]).Ok? && !policy.excludes(messages[n]) && policy.redacts(messages[n]).Err? {
        OkBefore(policy, messages, n);
        assert FailsAt(policy, messages, n, policy.redacts(messages[n]).error);
      }
    }
  }

  lemma {:induction false} OkBefore(policy: Policy, messages: seq<IngestMessage>, n: nat)
    requires n <= |messages| && Filter(policy, messages[..n]).Ok?
    ensures forall i | 0 <= i < n :: policy.excludes(messages[i]) || policy.redacts(messages[i]).Ok?
    decreases n
  {
    if n > 0 {
      assert messages[..n][..n - 1] == messages[..n - 1];
      OkBefore(policy, messages, n - 1);
    }
  }

  // Nothing slips through: each message is kept or counted as excluded.
  lemma {:induction false} FilterCounts(policy: Policy, messages: seq<IngestMessage>)
    ensures Filter(policy, messages).Ok? ==>
      |Filter(policy, messages).value.kept| + Filter(policy, messages).value.excluded == |messages|
  {
    if messages != [] {
      FilterCounts(policy, messages[..|messages| - 1]);
    }
  }

  lemma {:induction false} FilterFails(policy: Policy, messages: seq<IngestMessage>, n: nat)
    requires n <= |messages| && Filter(policy, messages[..n]).Err?
    ensures Filter(policy, messages) == Filter(policy, messages[..n])
    decreases |messages| - n
  {
    if n < |messages| {
      assert messages[..n + 1][..n] == messages[..n];
      FilterFails(policy, messages, n + 1);
    } else {
      assert messages[..n] == messages;
    }
  }

  method Apply(policy: Policy, session: string, messages: seq<IngestMessage>)
    returns (kept: seq<IngestMessage>, decision: Decision, error: Option<string>, ghost from: seq<nat>)
    ensures !policy.captures(session) ==>
      error.None? && decision == Decision(true, |messages|, 0) && kept == messages
    ensures policy.captures(session) ==>
      && (error.Some? <==> Filter(policy, messages).Err?)
      && (error.None? ==>
            !decision.sessionExcluded
            && Filter(policy, messages) == Ok(Filtered(kept, decision.excluded, decision.redacted)))
      && (error.None? ==> Kept(policy, messages, Filtered(kept, decision.excluded, decision.redacted), from))
      && (error.Some? <==> exists k: nat, e :: FailsAt(policy, messages, k, e))
      && (error.Some? ==> exists k: nat :: FailsAt(policy, messages, k, error.value))
  {
    if !policy.captures(session) {
      return messages, Decision(true, |messages|, 0), None, [];
    }
    kept, from := [], [];
    FilterFailsFirst(policy, messages);
    var excluded: nat, redacted: nat := 0, 0;
    for i := 0 to |messages|
      invariant Filter(policy, messages[..i]) == Ok(Filtered(kept, excluded, redacted))
    {
      var m := messages[i];
      assert messages[..i + 1][..i] == messages[..i];
      if policy.excludes(m) {
        excluded := excluded + 1;
        continue;
      }
      var text := policy.redacts(m);
      if text.Err? {
        FilterFails(policy, messages, i + 1);
        return [], Decision(false, excluded, redacted), Some(text.error), [];
      }
      var now := Redacted(m, text.value);
      if now != m {
        redacted := redacted + 1;
      }
      kept := kept + [now];
    }
    assert messages[..|messages|] == messages;
    from := FilterKeeps(policy, messages);
    return kept, Decision(false, excluded, redacted), None, from;
  }

  // ---- ingestion ----

  datatype IngestResult = IngestResult(appended: nat, deduped: nat, tokens: nat, excluded: nat, redacted: nat)

  function InputOf(conversation: string, m: IngestMessage): Input {
    Input(conversation, m.role, m.content, CountSpec(m.content), m.toolName, m.externalId, m.raw)
  }

  function Inputs(conversation: string, messages: seq<IngestMessage>): (inputs: seq<Input>)
    ensures |inputs| == |messages| && forall k | 0 <= k < |inputs| :: inputs[k] == InputOf(conversation, messages[k])
  {
    seq(|messages|, k requires 0 <= k < |messages| => InputOf(conversation, messages[k]))
  }

  // An append carries the message's own parts, and its text's token count.
  predicate SentAs(input: Input, conversation: string, m: IngestMessage) {
    && input.conversation == conversation && input.role == m.role && input.content == m.content
    && input.tokens == CountSpec(m.content) && input.toolName == m.toolName
    && input.externalId == m.externalId && input.raw == m.raw
  }

  predicate AllStored(rows: seq<Message>, inputs: seq<Input>) {
    forall k | 0 <= k < |inputs| :: FindMessage(rows, IdOf(inputs[k])).Some?
  }

  // What a request is filtered to: its messages when there is no policy, none when
  // its session is not captured.
  function Admitted(policy: Option<Policy>, req: Request): Result<seq<IngestMessage>> {
    if policy.None? then Ok(req.messages)
    else if !policy.value.captures(req.session) then Ok([])
    else
      var filtered :- Filter(policy.value, req.messages);
      Ok(filtered.kept)
  }

  // What a successful request reports of its policy.
  predicate Decided(policy: Option<Policy>, req: Request, excluded: nat, redacted: nat) {
    match policy
    case None => excluded == 0 && redacted == 0
    case Some(p) =>
      if !p.captures(req.session) then excluded == |req.messages| && redacted == 0
      else
        match Admitted(policy, req)
        case Err(_) => false
        case Ok(kept) => Filter(p, req.messages) == Ok(Filtered(kept, excluded, redacted))
  }

  // The requests whose messages are sent at all.
  predicate Tried(policy: Option<Policy>, req: Request) {
    req.agent.Valid() && req.session != "" && Admitted(policy, req).Ok?
  }

  // Exactly the requests that end in an error.
  predicate Rejected(policy: Option<Policy>, req: Request) {
    || !Tried(policy, req)
    || exists k | 0 <= k < |Admitted(policy, req).value| :: !Admitted(policy, req).value[k].role.Valid()
  }

  // ---- one process's appends among all of them ----

  // The append at a place of the history found no row with its identity.
  ghost predicate IsNew(history: seq<Input>, at: nat)
    requires at < |history|
  {
    FindMessage(AppendAll(EMPTY, history[..at]).rows, IdOf(history[at])).None?
  }

  // The inputs were appended in order, at these places from `from` on.
  predicate SentAt(history: seq<Input>, from: nat, places: seq<nat>, inputs: seq<Input>) {
    && |places| == |inputs|
    && (forall k | 0 <= k < |places| :: from <= places[k] < |history| && history[places[k]] == inputs[k])
    && (forall j, k | 0 <= j < k < |places| :: places[j] < places[k])
  }

  // How many of the appends at these places found no row, and the tokens they added.
  ghost function NewAmong(history: seq<Input>, places: seq<nat>): (n: nat)
    requires forall k | 0 <= k < |places| :: places[k] < |history|
    ensures n <= |places|
  {
    if places == [] then 0
    else
      var last := places[|places| - 1];
      NewAmong(history, places[..|places| - 1]) + (if IsNew(history, last) then 1 else 0)
  }

  ghost function NewTokens(history: seq<Input>, places: seq<nat>): nat
    requires forall k | 0 <= k < |places| :: places[k] < |history|
  {
    if places == [] then 0
    else
      var last := places[|places| - 1];
      NewTokens(history, places[..|places| - 1]) + (if IsNew(history, last) then history[last].tokens else 0)
  }

  // What a sequence of appends reports is what it did.
  datatype Counts = Counts(appended: nat, deduped: nat, tokens: nat)

  ghost predicate Reports(history: seq<Input>, from: nat, places: seq<nat>, inputs: seq<Input>, r: Counts) {
    && SentAt(history, from, places, inputs)
    && r.appended == NewAmong(history, places) && r.tokens == NewTokens(history, places)
    && r.appended + r.deduped == |inputs|
  }

  class Service {
    const table: MessageTable
    const policy: Option<Policy>

    constructor (table: MessageTable, policy: Option<Policy>)
      ensures this.table == table && this.policy == policy
    {
      this.table, this.policy := table, policy;
    }

    // Appends the messages until one has an invalid role; the ones before it stay.
    method AppendMessages(conversation: string, messages: seq<IngestMessage>)
      returns (invalid: bool, report: Counts, ghost places: seq<nat>)
      requires table.Valid()
      modifies table
      ensures table.Grown(old(table.history))
      ensures |places| <= |messages| && forall k | 0 <= k < |places| :: messages[k].role.Valid()
      ensures if invalid then |places| < |messages| && !messages[|places|].role.Valid() else |places| == |messages|
      ensures
        var inputs := Inputs(conversation, messages)[..|places|];
        && Reports(table.history, |old(table.history)|, places, inputs, report)
        && AllStored(table.rows, inputs)
        && forall k | 0 <= k < |places| :: SentAs(table.history[places[k]], conversation, messages[k])
    {
      hide FindMessage, AppendAll, IsNew, TablesOk;
      report, places := Counts(0, 0, 0), [];
      ghost var inputs := Inputs(conversation, messages);
      for i := 0 to |messages|
        invariant table.Grown(old(table.history)) && |places| == i
        invariant forall k | 0 <= k < i :: messages[k].role.Valid()
        invariant Reports(table.history, |old(table.history)|, places, inputs[..i], report)
      {
        if !messages[i].role.Valid() {
          ReportedStored(table.history, |old(table.history)|, places, inputs[..i], report);
          return true, report, places;
        }
        assert inputs[..i + 1] == inputs[..i] + [inputs[i]];
        report, places :=
          AppendOne(|old(table.history)|, places, inputs[..i], InputOf(conversation, messages[i]), report);
      }
      ReportedStored(table.history, |old(table.history)|, places, inputs[..|messages|], report);
      return false, report, places;
    }

    // One append, with other processes appending before it.
    method AppendOne(ghost from: nat, ghost places: seq<nat>, ghost inputs: seq<Input>, m: Input, report: Counts)
      returns (report': Counts, ghost places': seq<nat>)
      requires table.Valid() && from <= |table.history| && Reports(table.history, from, places, inputs, report)
      modifies table
      ensures table.Grown(old(table.history)) && |places'| == |places| + 1
      ensures Reports(table.history, from, places', inputs + [m], report')
    {
      ghost var start := table.history;
      table.Interference();
      ReportsKept(start, table.history, from, places, inputs, report);
      ghost var before := table.history;
      var row, created := table.AppendMessage(m);
      ReportsMore(before, m, from, places, inputs, report);
      places' := places + [|before|];
      if created {
        report' := report.(appended := report.appended + 1, tokens := report.tokens + row.tokenCount);
      } else {
        report' := report.(deduped := report.deduped + 1);
      }
    }

    // Every message of a successful request is counted once, as appended when its
    // identity had no row, as already there, or as excluded, and every admitted one is
    // stored; before a message of an invalid role everything is sent, and nothing after
    // it. `places` is where its appends are in the history of all processes.
    method Ingest(req: Request) returns (r: Result<IngestResult>, ghost places: seq<nat>)
      requires table.Valid()
      modifies table
      ensures table.Grown(old(table.history))
      ensures r.Err? <==> Rejected(policy, req)
      ensures !Tried(policy, req) ==> places == []
      ensures Tried(policy, req) ==>
        var kept := Admitted(policy, req).value;
        var inputs := Inputs(ConversationId(req.agent, req.session), kept);
        && |places| <= |kept| && (forall k | 0 <= k < |places| :: kept[k].role.Valid())
        && (|places| < |kept| ==> !kept[|places|].role.Valid())
        && SentAt(table.history, |old(table.history)|, places, inputs[..|places|])
        && AllStored(table.rows, inputs[..|places|])
      ensures Tried(policy, req) ==> forall k | 0 <= k < |places| ::
        SentAs(table.history[places[k]], ConversationId(req.agent, req.session), Admitted(policy, req).value[k])
      ensures r.Ok? ==> Decided(policy, req, r.value.excluded, r.value.redacted)
      ensures r.Ok? ==>
        var inputs := Inputs(ConversationId(req.agent, req.session), Admitted(policy, req).value);
        && Reports(table.history, |old(table.history)|, places, inputs,
                   Counts(r.value.appended, r.value.deduped, r.value.tokens))
        && r.value.appended + r.value.deduped + r.value.excluded == |req.messages|
        && AllStored(table.rows, inputs)
    {
      hide Filter, FindMessage, AppendAll, TablesOk, CountSpec;
      places := [];
      if !req.agent.Valid() {
        return Err("ingest: invalid agent"), places;
      }
      if req.session == "" {
        return Err("ingest: empty session id"), places;
      }
      var messages, decision := req.messages, Decision(false, 0, 0);
      if policy.Some? {
        var error;
        ghost var from;
        messages, decision, error, from := Apply(policy.value, req.session, req.messages);
        if error.Some? {
          return Err("ingest: apply privacy policy: " + error.value), places;
        }
        FilterCounts(policy.value, req.messages);
      }
      if decision.sessionExcluded || (|req.messages| > 0 && |messages| == 0) {
        return Ok(IngestResult(0, 0, 0, decision.excluded, decision.redacted)), places;
      }
      var invalid, report;
      invalid, report, places := AppendMessages(ConversationId(req.agent, req.session), messages);
      if invalid {
        return Err("ingest: message has invalid role"), places;
      }
      ghost var inputs := Inputs(ConversationId(req.agent, req.session), messages);
      assert inputs[..|messages|] == inputs;
      return Ok(IngestResult(report.appended, report.deduped, report.tokens, decision.excluded, decision.redacted)),
             places;
    }
  }

  lemma {:induction false} ReportsKept(before: seq<Input>, after: seq<Input>, from: nat, places: seq<nat>,
                                       inputs: seq<Input>, r: Counts)
    requires before <= after && Reports(before, from, places, inputs, r)
    ensures Reports(after, from, places, inputs, r)
  {
    NewKept(before, after, places);
  }

  // What an append found does not depend on what came later.
  lemma {:induction false} NewKept(before: seq<Input>, after: seq<Input>, places: seq<nat>)
    requires before <= after && forall k | 0 <= k < |places| :: places[k] < |before|
    ensures NewAmong(after, places) == NewAmong(before, places) && NewTokens(after, places) == NewTokens(before, places)
  {
    if places != [] {
      var last := places[|places| - 1];
      NewKept(before, after, places[..|places| - 1]);
      assert after[..last] == before[..last];
    }
  }

  lemma ReportsMore(before: seq<Input>, m: Input, from: nat, places: seq<nat>, inputs: seq<Input>, r: Counts)
    requires from <= |before| && Reports(before, from, places, inputs, r)
    ensures
      var created := FindMessage(AppendAll(EMPTY, before).rows, IdOf(m)).None?;
      Reports(before + [m], from, places + [|before|], inputs + [m],
              if created then r.(appended := r.appended + 1, tokens := r.tokens + m.tokens)
              else r.(deduped := r.deduped + 1))
  {
    hide NewAmong, NewTokens, FindMessage, AppendAll, IdOf;
    NewMore(before, m, places);
    SentMore(before, m, from, places, inputs);
  }

  lemma NewMore(before: seq<Input>, m: Input, places: seq<nat>)
    requires forall k | 0 <= k < |places| :: places[k] < |before|
    ensures
      var after, more := before + [m], places + [|before|];
      var created := FindMessage(AppendAll(EMPTY, before).rows, IdOf(m)).None?;
      && NewAmong(after, more) == NewAmong(before, places) + (if created then 1 else 0)
      && NewTokens(after, more) == NewTokens(before, places) + (if created then m.tokens else 0)
  {
    hide FindMessage, AppendAll, IdOf;
    var after, more := before + [m], places + [|before|];
    NewKept(before, after, places);
    assert more[..|places|] == places && after[..|before|] == before;
  }

  lemma SentMore(before: seq<Input>, m: Input, from: nat, places: seq<nat>, inputs: seq<Input>)
    requires from <= |before| && SentAt(before, from, places, inputs)
    ensures SentAt(before + [m], from, places + [|before|], inputs + [m])
  {
  }

  // What was sent is stored.
  lemma ReportedStored(history: seq<Input>, from: nat, places: seq<nat>, inputs: seq<Input>, r: Counts)
    requires Reports(history, from, places, inputs, r)
    ensures AllStored(AppendAll(EMPTY, history).rows, inputs)
  {
    forall k | 0 <= k < |inputs|
      ensures FindMessage(AppendAll(EMPTY, history).rows, IdOf(inputs[k])).Some?
    {
      SentIsStored(EMPTY, history, places[k]);
    }
  }

  // A request whose messages were all stored before it appends nothing.
  lemma {:induction false} ReplayAppendsNothing(history: seq<Input>, from: nat, places: seq<nat>, inputs: seq<Input>)
    requires from <= |history| && SentAt(history, from, places, inputs)
    requires AllStored(AppendAll(EMPTY, history[..from]).rows, inputs)
    ensures NewAmong(history, places) == 0 && NewTokens(history, places) == 0
    decreases |places|
  {
    if places != [] {
      var n := |places| - 1;
      var last := places[n];
      assert history[..last] == history[..from] + history[from..last];
      AppendAllConcat(EMPTY, history[..from], history[from..last]);
      FoundForGood(AppendAll(EMPTY, history[..from]), history[from..last], IdOf(inputs[n]));
      ReplayAppendsNothing(history, from, places[..n], inputs[..n]);
    }
  }
}
