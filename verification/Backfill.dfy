// Reconciling a conversation with its rollouts: which candidates are missing, and
// when one backfill leaves nothing for the next.
module Backfill {
  import opened Core
  import opened Dag
  import opened Messages
  import opened Ingest

  // An assistant message of the conversation has this source ID.
  predicate Captured(log: seq<Message>, externalId: string) {
    exists i | 0 <= i < |log| :: log[i].role == Assistant && log[i].externalId == externalId
  }

  // A candidate is missing when neither the conversation nor an earlier candidate has its ID.
  predicate IsMissing(log: seq<Message>, candidates: seq<IngestMessage>, k: nat)
    requires k < |candidates|
  {
    && !Captured(log, candidates[k].externalId)
    && forall j | 0 <= j < k :: candidates[j].externalId != candidates[k].externalId
  }

  function Missing(log: seq<Message>, candidates: seq<IngestMessage>): seq<IngestMessage> {
    if candidates == [] then []
    else
      var n := |candidates| - 1;
      Missing(log, candidates[..n]) + (if IsMissing(log, candidates, n) then [candidates[n]] else [])
  }

  // The missing ones and no others, in the order of the candidates, from the places listed.
  ghost predicate Picks(log: seq<Message>, candidates: seq<IngestMessage>, missing: seq<IngestMessage>,
                        from: seq<nat>)
  {
    && |from| == |missing| && (forall i, j | 0 <= i < j < |from| :: from[i] < from[j])
    && (forall j | 0 <= j < |from| :: from[j] < |candidates| && missing[j] == candidates[from[j]])
    && (forall k: nat | k < |candidates| ::
          k in from <==>
          && (forall i | 0 <= i < |log| :: log[i].role == Assistant ==> log[i].externalId != candidates[k].externalId)
          && (forall j | 0 <= j < k :: candidates[j].externalId != candidates[k].externalId))
  }

  lemma NothingPicked(log: seq<Message>)
    ensures Missing(log, []) == [] && Picks(log, [], [], [])
  {
  }

  lemma PicksOn(log: seq<Message>, candidates: seq<IngestMessage>, missing: seq<IngestMessage>, from: seq<nat>, k: nat)
    requires k < |candidates| && Picks(log, candidates[..k], missing, from)
    ensures IsMissing(log, candidates, k) ==>
      Picks(log, candidates[..k + 1], missing + [candidates[k]], from + [k])
    ensures !IsMissing(log, candidates, k) ==> Picks(log, candidates[..k + 1], missing, from)
  {
    forall i: nat | i < k
      ensures i in from + [k] <==> i in from
    {
    }
  }

  // The source IDs the conversation's assistant messages carry.
  method CapturedIds(existing: seq<Message>) returns (ids: map<string, bool>)
    ensures forall id :: id in ids <==> Captured(existing, id)
  {
    ids := map[];
    for i := 0 to |existing|
      invariant forall id :: id in ids <==> Captured(existing[..i], id)
    {
      if existing[i].role == Assistant {
        ids := ids[existing[i].externalId := true];
      }
      forall id
        ensures Captured(existing[..i + 1], id)
                <==> Captured(existing[..i], id) || (existing[i].role == Assistant && existing[i].externalId == id)
      {
        CapturedStep(existing, i, id);
      }
    }
    assert existing[..|existing|] == existing;
  }

  method MissingTranscriptMessages(existing: seq<Message>, candidates: seq<IngestMessage>)
    returns (missing: seq<IngestMessage>, ghost from: seq<nat>)
    ensures missing == Missing(existing, candidates)
    ensures Picks(existing, candidates, missing, from)
  {
    hide Picks, Captured;
    var ids := CapturedIds(existing);
    missing, from := [], [];
    NothingPicked(existing);
    for k := 0 to |candidates|
      invariant forall id ::
        id in ids <==> Captured(existing, id) || exists j :: 0 <= j < k && candidates[j].externalId == id
      invariant missing == Missing(existing, candidates[..k])
      invariant Picks(existing, candidates[..k], missing, from)
    {
      var candidate := candidates[k];
      assert candidates[..k + 1][..k] == candidates[..k];
      PicksOn(existing, candidates, missing, from, k);
      assert candidate.externalId !in ids <==> IsMissing(existing, candidates[..k + 1], k);
      if candidate.externalId !in ids {
        ids := ids[candidate.externalId := true];
        missing := missing + [candidate];
        from := from + [k];
      }
    }
    assert candidates[..|candidates|] == candidates;
  }

  lemma CapturedStep(log: seq<Message>, i: nat, id: string)
    requires i < |log|
    ensures Captured(log[..i + 1], id)
            <==> Captured(log[..i], id) || (log[i].role == Assistant && log[i].externalId == id)
  {
    if Captured(log[..i], id) {
      var k :| 0 <= k < i && log[..i][k].role == Assistant && log[..i][k].externalId == id;
      assert log[..i + 1][k].role == Assistant && log[..i + 1][k].externalId == id;
    }
    if log[i].role == Assistant && log[i].externalId == id {
      assert log[..i + 1][i].role == Assistant && log[..i + 1][i].externalId == id;
    }
    if Captured(log[..i + 1], id) {
      var k :| 0 <= k <= i && log[..i + 1][k].role == Assistant && log[..i + 1][k].externalId == id;
      if k < i {
        assert log[..i][k].role == Assistant && log[..i][k].externalId == id;
      }
    }
  }

  // ---- the fixed point ----

  lemma {:induction false} MissingMembers(log: seq<Message>, candidates: seq<IngestMessage>, m: IngestMessage)
    ensures m in Missing(log, candidates)
            <==> exists k :: 0 <= k < |candidates| && candidates[k] == m && IsMissing(log, candidates, k)
  {
    if candidates != [] {
      var n := |candidates| - 1;
      MissingMembers(log, candidates[..n], m);
      forall k | 0 <= k < n
        ensures IsMissing(log, candidates[..n], k) <==> IsMissing(log, candidates, k)
      {
      }
      if m in Missing(log, candidates[..n]) {
        var k :| 0 <= k < n && candidates[..n][k] == m && IsMissing(log, candidates[..n], k);
        assert candidates[k] == m && IsMissing(log, candidates, k);
      }
      if k :| 0 <= k < |candidates| && candidates[k] == m && IsMissing(log, candidates, k) {
        if k < n {
          assert candidates[..n][k] == m && IsMissing(log, candidates[..n], k);
        }
      }
    }
  }

  // Nothing is missing exactly when every candidate's ID is captured.
  lemma {:induction false} NothingMissing(log: seq<Message>, candidates: seq<IngestMessage>)
    ensures Missing(log, candidates) == []
            <==> forall k | 0 <= k < |candidates| :: Captured(log, candidates[k].externalId)
  {
    if Missing(log, candidates) == [] {
      forall k | 0 <= k < |candidates|
        ensures Captured(log, candidates[k].externalId)
      {
        FirstHolder(log, candidates, k);
      }
    } else {
      var m := Missing(log, candidates)[0];
      assert m in Missing(log, candidates);
      MissingMembers(log, candidates, m);
    }
  }

  // A candidate that is not captured shares its ID with one that is missing.
  lemma {:induction false} FirstHolder(log: seq<Message>, candidates: seq<IngestMessage>, k: nat)
    requires k < |candidates|
    ensures Captured(log, candidates[k].externalId)
            || exists m :: m in Missing(log, candidates) && m.externalId == candidates[k].externalId
    decreases k
  {
    if !Captured(log, candidates[k].externalId) {
      if j :| 0 <= j < k && candidates[j].externalId == candidates[k].externalId {
        FirstHolder(log, candidates, j);
      } else {
        assert IsMissing(log, candidates, k);
        MissingMembers(log, candidates, candidates[k]);
      }
    }
  }

  // A message of the conversation that holds the ID without being the assistant's.
  predicate HeldByAnother(log: seq<Message>, externalId: string) {
    exists i | 0 <= i < |log| :: log[i].role != Assistant && log[i].externalId == externalId
  }

  predicate IsCandidate(m: IngestMessage) {
    m.role == Assistant && m.externalId != ""
  }

  // The inputs a backfill sends: the missing candidates, their text perhaps redacted.
  predicate SentFor(inputs: seq<Input>, missing: seq<IngestMessage>, c: string) {
    && |inputs| == |missing|
    && forall k | 0 <= k < |inputs| ::
         && inputs[k].conversation == c && inputs[k].role == missing[k].role
         && inputs[k].externalId == missing[k].externalId
  }

  // In the table, a source ID in a conversation belongs to one message.
  lemma {:induction false} HolderIsFound(t: Tables, c: string, externalId: string)
    requires TablesOk(t) && externalId != ""
    ensures
      var found := FindMessage(t.rows, MessageId(c, ExternalIdentity(externalId)));
      && (Captured(Conversation(t.rows, c), externalId) <==> found.Some? && found.value.role == Assistant)
      && (HeldByAnother(Conversation(t.rows, c), externalId) <==> found.Some? && found.value.role != Assistant)
  {
    var id := MessageId(c, ExternalIdentity(externalId));
    var log := Conversation(t.rows, c);
    FoundIn(t.rows, id);
    forall i | 0 <= i < |log| && log[i].externalId == externalId
      ensures FindMessage(t.rows, id) == Some(log[i])
    {
      InConversation(t.rows, c, log[i]);
      var k :| 0 <= k < |t.rows| && t.rows[k] == log[i];
      assert RowDerived(t.rows[k]) && t.rows[k].id == id;
      var found := FindMessage(t.rows, id).value;
      var j :| 0 <= j < |t.rows| && t.rows[j] == found;
      assert j == k;
    }
    if FindMessage(t.rows, id).Some? {
      var found := FindMessage(t.rows, id).value;
      InConversation(t.rows, c, found);
      var i :| 0 <= i < |log| && log[i] == found;
      var k :| 0 <= k < |t.rows| && t.rows[k] == found;
      assert RowDerived(t.rows[k]);
    }
  }

  lemma {:induction false} SentRole(t: Tables, inputs: seq<Input>, id: MessageId)
    requires FindMessage(t.rows, id).None?
    requires forall k | 0 <= k < |inputs| :: inputs[k].role == Assistant
    ensures
      var found := FindMessage(AppendAll(t, inputs).rows, id);
      found.Some? ==> found.value.role == Assistant
    decreases |inputs|
  {
    if inputs != [] {
      SentRole(t, inputs[..|inputs| - 1], id);
      FindAfterAppend(AppendAll(t, inputs[..|inputs| - 1]), inputs[|inputs| - 1], id);
    }
  }

  // After a backfill a candidate's ID is captured unless another message held it before.
  lemma {:induction false} SentIsCaptured(t: Tables, c: string, inputs: seq<Input>, missing: seq<IngestMessage>, k: nat)
    requires TablesOk(t) && SentFor(inputs, missing, c) && k < |missing|
    requires forall j | 0 <= j < |missing| :: IsCandidate(missing[j])
    ensures Captured(Conversation(AppendAll(t, inputs).rows, c), missing[k].externalId)
            <==> !HeldByAnother(Conversation(t.rows, c), missing[k].externalId)
  {
    var u := AppendAll(t, inputs);
    var externalId := missing[k].externalId;
    var id := MessageId(c, ExternalIdentity(externalId));
    AppendAllKeepsOk(t, inputs);
    HolderIsFound(t, c, externalId);
    HolderIsFound(u, c, externalId);
    assert IsCandidate(missing[k]) && IdOf(inputs[k]) == id;
    SentIsStored(t, inputs, k);
    if FindMessage(t.rows, id).Some? {
      FoundForGood(t, inputs, id);
    } else {
      forall j | 0 <= j < |inputs|
        ensures inputs[j].role == Assistant
      {
        assert IsCandidate(missing[j]);
      }
      SentRole(t, inputs, id);
    }
  }

  lemma {:induction false} CapturedForGood(t: Tables, c: string, inputs: seq<Input>, externalId: string)
    requires TablesOk(t) && externalId != "" && Captured(Conversation(t.rows, c), externalId)
    ensures Captured(Conversation(AppendAll(t, inputs).rows, c), externalId)
  {
    AppendAllKeepsOk(t, inputs);
    HolderIsFound(t, c, externalId);
    HolderIsFound(AppendAll(t, inputs), c, externalId);
    FoundForGood(t, inputs, MessageId(c, ExternalIdentity(externalId)));
  }

  lemma {:induction false} MissingAreCandidates(log: seq<Message>, candidates: seq<IngestMessage>)
    requires forall k | 0 <= k < |candidates| :: IsCandidate(candidates[k])
    ensures forall j | 0 <= j < |Missing(log, candidates)| :: IsCandidate(Missing(log, candidates)[j])
  {
    forall j | 0 <= j < |Missing(log, candidates)|
      ensures IsCandidate(Missing(log, candidates)[j])
    {
      MissingMembers(log, candidates, Missing(log, candidates)[j]);
    }
  }

  // A policy that excludes none of the missing messages makes backfill reach a fixed
  // point in one go, scanning the same rollouts again finding nothing, exactly when
  // no missing candidate's ID is held by a message that is not the assistant's.
  lemma {:induction false} BackfillFixedPoint(t: Tables, c: string, candidates: seq<IngestMessage>, inputs: seq<Input>)
    requires TablesOk(t) && forall k | 0 <= k < |candidates| :: IsCandidate(candidates[k])
    requires SentFor(inputs, Missing(Conversation(t.rows, c), candidates), c)
    ensures
      var log, after := Conversation(t.rows, c), Conversation(AppendAll(t, inputs).rows, c);
      Missing(after, candidates) == []
      <==> forall m | m in Missing(log, candidates) :: !HeldByAnother(log, m.externalId)
  {
    hide AppendAll, Conversation, TablesOk, FindMessage, Missing, Captured, HeldByAnother, IdOf;
    var log, after := Conversation(t.rows, c), Conversation(AppendAll(t, inputs).rows, c);
    var missing := Missing(log, candidates);
    MissingAreCandidates(log, candidates);
    NothingMissing(after, candidates);
    forall m | m in missing
      ensures Captured(after, m.externalId) <==> !HeldByAnother(log, m.externalId)
      ensures exists k :: 0 <= k < |candidates| && candidates[k].externalId == m.externalId
    {
      var j :| 0 <= j < |missing| && missing[j] == m;
      SentIsCaptured(t, c, inputs, missing, j);
      MissingMembers(log, candidates, m);
    }
    forall k | 0 <= k < |candidates|
      ensures Captured(after, candidates[k].externalId)
              || exists m :: m in missing && m.externalId == candidates[k].externalId
    {
      FirstHolder(log, candidates, k);
      assert IsCandidate(candidates[k]);
      if Captured(log, candidates[k].externalId) {
        CapturedForGood(t, c, inputs, candidates[k].externalId);
      }
    }
  }

  // A policy that captures the session and excludes none of its messages.
  predicate Lets(policy: Option<Policy>, req: Request) {
    policy.Some? ==>
      && policy.value.captures(req.session)
      && forall k | 0 <= k < |req.messages| :: !policy.value.excludes(req.messages[k])
  }

  lemma {:induction false} FilterKeepsAll(policy: Policy, messages: seq<IngestMessage>, c: string)
    requires forall k | 0 <= k < |messages| :: !policy.excludes(messages[k])
    requires Filter(policy, messages).Ok?
    ensures SentFor(Inputs(c, Filter(policy, messages).value.kept), messages, c)
  {
    if messages != [] {
      var init := messages[..|messages| - 1];
      FilterKeepsAll(policy, init, c);
      var before, after := Inputs(c, Filter(policy, init).value.kept), Inputs(c, Filter(policy, messages).value.kept);
      assert after[..|before|] == before;
      forall k | 0 <= k < |after|
        ensures after[k].conversation == c && after[k].role == messages[k].role
        ensures after[k].externalId == messages[k].externalId
      {
        if k < |before| {
          assert after[k] == before[k] && init[k] == messages[k];
        }
      }
    }
  }

  // Such a policy sends every missing message under its own role and source ID, which
  // is what the fixed point needs.
  lemma LetThroughIsSent(policy: Option<Policy>, req: Request, c: string)
    requires Lets(policy, req) && Admitted(policy, req).Ok?
    ensures SentFor(Inputs(c, Admitted(policy, req).value), req.messages, c)
  {
    if policy.Some? {
      FilterKeepsAll(policy.value, req.messages, c);
    }
  }

  // ---- the command ----

  datatype BackfillResult = BackfillResult(candidates: nat, missing: nat, appended: nat)

  // The fixed point among other processes: once every missing ID has a row, nothing is
  // missing exactly when none of these rows is another role's.
  lemma FixedPointAmongOthers(t: Tables, c: string, candidates: seq<IngestMessage>, more: seq<Input>)
    requires TablesOk(t) && forall k | 0 <= k < |candidates| :: IsCandidate(candidates[k])
    requires forall m | m in Missing(Conversation(t.rows, c), candidates) ::
      FindMessage(AppendAll(t, more).rows, MessageId(c, ExternalIdentity(m.externalId))).Some?
    ensures
      var missing, after := Missing(Conversation(t.rows, c), candidates), Conversation(AppendAll(t, more).rows, c);
      Missing(after, candidates) == [] <==> forall m | m in missing :: !HeldByAnother(after, m.externalId)
  {
    hide AppendAll, Conversation, TablesOk, FindMessage, Missing, Captured, HeldByAnother, IdOf;
    var log, after := Conversation(t.rows, c), Conversation(AppendAll(t, more).rows, c);
    var missing := Missing(log, candidates);
    MissingAreCandidates(log, candidates);
    NothingMissing(after, candidates);
    AppendAllKeepsOk(t, more);
    forall m | m in missing
      ensures Captured(after, m.externalId) <==> !HeldByAnother(after, m.externalId)
      ensures exists k :: 0 <= k < |candidates| && candidates[k].externalId == m.externalId
    {
      MissingMembers(log, candidates, m);
      HolderIsFound(AppendAll(t, more), c, m.externalId);
    }
    forall k | 0 <= k < |candidates|
      ensures Captured(after, candidates[k].externalId)
              || exists m :: m in missing && m.externalId == candidates[k].externalId
    {
      FirstHolder(log, candidates, k);
      assert IsCandidate(candidates[k]);
      if Captured(log, candidates[k].externalId) {
        CapturedForGood(t, c, more, candidates[k].externalId);
      }
    }
  }

  // A policy that lets the missing messages through makes the run send every missing ID.
  ghost predicate LetsAll(policy: Option<Policy>, session: string, candidates: seq<IngestMessage>,
                          sent: seq<IngestMessage>)
  {
    var req := Request(Codex, session, sent);
    && (forall k | 0 <= k < |candidates| :: IsCandidate(candidates[k]))
    && Lets(policy, req) && Admitted(policy, req).Ok?
  }

  lemma FixedPointReached(policy: Option<Policy>, session: string, candidates: seq<IngestMessage>,
                          sent: seq<IngestMessage>, before: seq<Input>, after: seq<Input>)
    requires before <= after && TablesOk(AppendAll(EMPTY, before))
    requires sent == Missing(Conversation(AppendAll(EMPTY, before).rows, ConversationId(Codex, session)), candidates)
    requires LetsAll(policy, session, candidates, sent)
    requires AllStored(AppendAll(EMPTY, after).rows,
                       Inputs(ConversationId(Codex, session), Admitted(policy, Request(Codex, session, sent)).value))
    ensures
      var log := Conversation(AppendAll(EMPTY, after).rows, ConversationId(Codex, session));
      Missing(log, candidates) == [] <==> forall m | m in sent :: !HeldByAnother(log, m.externalId)
  {
    var c, req := ConversationId(Codex, session), Request(Codex, session, sent);
    var inputs, more := Inputs(c, Admitted(policy, req).value), after[|before|..];
    var t := AppendAll(EMPTY, before);
    LetThroughIsSent(policy, req, c);
    assert before + more == after;
    AppendAllConcat(EMPTY, before, more);
    MissingAreCandidates(Conversation(t.rows, c), candidates);
    forall m | m in sent
      ensures FindMessage(AppendAll(t, more).rows, MessageId(c, ExternalIdentity(m.externalId))).Some?
    {
      var k :| 0 <= k < |sent| && sent[k] == m;
      assert IsCandidate(sent[k]) && IdOf(inputs[k]) == MessageId(c, ExternalIdentity(m.externalId));
    }
    FixedPointAmongOthers(t, c, candidates, more);
  }

  // Nothing else was written: the history holds only what the run sent.
  lemma FixedPointAlone(policy: Option<Policy>, session: string, candidates: seq<IngestMessage>,
                        sent: seq<IngestMessage>, before: seq<Input>, after: seq<Input>)
    requires TablesOk(AppendAll(EMPTY, before))
    requires sent == Missing(Conversation(AppendAll(EMPTY, before).rows, ConversationId(Codex, session)), candidates)
    requires LetsAll(policy, session, candidates, sent)
    requires after == before + Inputs(ConversationId(Codex, session),
                                      Admitted(policy, Request(Codex, session, sent)).value)
    ensures
      var c := ConversationId(Codex, session);
      Missing(Conversation(AppendAll(EMPTY, after).rows, c), candidates) == []
      <==> forall m | m in sent :: !HeldByAnother(Conversation(AppendAll(EMPTY, before).rows, c), m.externalId)
  {
    var c, req := ConversationId(Codex, session), Request(Codex, session, sent);
    var inputs := Inputs(c, Admitted(policy, req).value);
    LetThroughIsSent(policy, req, c);
    AppendAllConcat(EMPTY, before, inputs);
    BackfillFixedPoint(AppendAll(EMPTY, before), c, candidates, inputs);
  }

  // A dry run and a run with nothing missing write nothing. Otherwise the run fails
  // exactly when its request is rejected, reports as appended what had no row, and
  // stores every admitted missing message. When the policy lets the missing messages
  // through, the same rollouts then have nothing missing exactly when no other role
  // holds a missing ID; when nobody else writes meanwhile, exactly when none held one.
  method BackfillConversation(service: Service, session: string, candidates: seq<IngestMessage>, apply: bool)
    returns (r: Result<BackfillResult>, ghost sent: seq<IngestMessage>, ghost places: seq<nat>)
    requires service.table.Valid()
    modifies service.table
    ensures service.table.Grown(old(service.table.history))
    ensures sent == Missing(old(Conversation(service.table.rows, ConversationId(Codex, session))), candidates)
    ensures !apply || sent == [] ==>
      r == Ok(BackfillResult(|candidates|, |sent|, 0)) && service.table.State() == old(service.table.State())
    ensures apply && sent != [] ==> (r.Err? <==> Rejected(service.policy, Request(Codex, session, sent)))
    ensures r.Ok? ==> r.value.candidates == |candidates| && r.value.missing == |sent| && r.value.appended <= |sent|
    ensures apply && sent != [] && r.Ok? ==>
      && Admitted(service.policy, Request(Codex, session, sent)).Ok?
      && var inputs :=
           Inputs(ConversationId(Codex, session), Admitted(service.policy, Request(Codex, session, sent)).value);
      && SentAt(service.table.history, |old(service.table.history)|, places, inputs)
      && r.value.appended == NewAmong(service.table.history, places)
      && AllStored(service.table.rows, inputs)
    ensures apply && r.Ok? && LetsAll(service.policy, session, candidates, sent) ==>
      var log := Conversation(service.table.rows, ConversationId(Codex, session));
      Missing(log, candidates) == [] <==> forall m | m in sent :: !HeldByAnother(log, m.externalId)
    ensures apply && r.Ok? && LetsAll(service.policy, session, candidates, sent)
            && service.table.history
               == old(service.table.history)
                  + Inputs(ConversationId(Codex, session),
                           Admitted(service.policy, Request(Codex, session, sent)).value) ==>
      var c := ConversationId(Codex, session);
      Missing(Conversation(service.table.rows, c), candidates) == []
      <==> forall m | m in sent :: !HeldByAnother(old(Conversation(service.table.rows, c)), m.externalId)
  {
    var messages := service.table.ListMessages(ConversationId(Codex, session));
    ghost var from;
    var missing;
    missing, from := MissingTranscriptMessages(messages, candidates);
    sent, places := missing, [];
    if !apply || |missing| == 0 {
      return Ok(BackfillResult(|candidates|, |missing|, 0)), sent, places;
    }
    ghost var before := service.table.history;
    var ingested;
    ingested, places := service.Ingest(Request(Codex, session, missing));
    if ingested.Err? {
      return Err(ingested.error), sent, places;
    }
    if LetsAll(service.policy, session, candidates, sent) {
      FixedPointReached(service.policy, session, candidates, sent, before, service.table.history);
      if service.table.history
         == before + Inputs(ConversationId(Codex, session),
                            Admitted(service.policy, Request(Codex, session, sent)).value) {
        FixedPointAlone(service.policy, session, candidates, sent, before, service.table.history);
      }
    }
    return Ok(BackfillResult(|candidates|, |missing|, ingested.value.appended)), sent, places;
  }
}
