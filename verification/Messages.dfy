// The message table of all conversations and its search index. One append is one
// immediate transaction; any number of processes append, replay and die between
// appends, so every reachable table is the result of some sequence of appends.
module Messages {
  import opened Core
  import opened Dag
  import Protocol

  datatype Input = Input(
    conversation: string,
    role: Role,
    content: string,
    tokens: nat,
    toolName: string,
    externalId: string,
    raw: string)

  datatype SearchRow = SearchRow(content: string, message: MessageId, role: Role)

  datatype Tables = Tables(rows: seq<Message>, index: seq<SearchRow>)

  const EMPTY := Tables([], [])

  function IdOf(m: Input): MessageId {
    MessageId(m.conversation, IdentityOf(m.externalId, m.role, m.content, m.raw))
  }

  // One conversation's messages in insertion order.
  function Conversation(rows: seq<Message>, c: string): seq<Message> {
    if rows == [] then []
    else
      var last := rows[|rows| - 1];
      Conversation(rows[..|rows| - 1], c) + (if last.id.conversation == c then [last] else [])
  }

  function MaxPosition(rows: seq<Message>, c: string): nat {
    if rows == [] then 0
    else
      var last := rows[|rows| - 1];
      var before := MaxPosition(rows[..|rows| - 1], c);
      if last.id.conversation == c then Max(before, last.position) else before
  }

  function RowOf(m: Input, position: nat): Message {
    Message(IdOf(m), position, m.role, m.content, m.tokens, m.toolName, m.externalId, m.raw)
  }

  function Append(t: Tables, m: Input): Tables {
    if FindMessage(t.rows, IdOf(m)).Some? then t
    else
      Tables(t.rows + [RowOf(m, MaxPosition(t.rows, m.conversation) + 1)],
             t.index + [SearchRow(m.content, IdOf(m), m.role)])
  }

  function AppendAll(t: Tables, inputs: seq<Input>): Tables {
    if inputs == [] then t else Append(AppendAll(t, inputs[..|inputs| - 1]), inputs[|inputs| - 1])
  }

  // ---- the invariant ----

  predicate RowDerived(m: Message) {
    m.id.identity == IdentityOf(m.externalId, m.role, m.content, m.raw)
  }

  // Positions count 1..n in every conversation, no identity is stored twice, and the
  // index has exactly one row per message, saying the same.
  ghost predicate TablesOk(t: Tables) {
    && (forall c :: LogOk(Conversation(t.rows, c)))
    && (forall i, j | 0 <= i < j < |t.rows| :: t.rows[i].id != t.rows[j].id)
    && (forall i | 0 <= i < |t.rows| :: RowDerived(t.rows[i]))
    && |t.index| == |t.rows|
    && (forall i | 0 <= i < |t.rows| :: t.index[i] == SearchRow(t.rows[i].content, t.rows[i].id, t.rows[i].role))
  }

  lemma {:induction false} FoundIn(rows: seq<Message>, id: MessageId)
    ensures FindMessage(rows, id).Some? ==> FindMessage(rows, id).value in rows && FindMessage(rows, id).value.id == id
    ensures FindMessage(rows, id).None? ==> forall i | 0 <= i < |rows| :: rows[i].id != id
  {
    if rows != [] {
      FoundIn(rows[..|rows| - 1], id);
      assert forall i | 0 <= i < |rows| - 1 :: rows[..|rows| - 1][i] == rows[i];
    }
  }

  lemma {:induction false} InConversation(rows: seq<Message>, c: string, m: Message)
    ensures m in Conversation(rows, c) <==> m in rows && m.id.conversation == c
  {
    if rows != [] {
      var init, last := rows[..|rows| - 1], rows[|rows| - 1];
      InConversation(init, c, m);
      assert m in rows <==> m in init || m == last;
    }
  }

  // Where positions count from 1, the highest one is the number of messages.
  lemma {:induction false} MaxIsLength(rows: seq<Message>, c: string)
    requires forall i | 0 <= i < |Conversation(rows, c)| :: Conversation(rows, c)[i].position == i + 1
    ensures MaxPosition(rows, c) == |Conversation(rows, c)|
  {
    if rows != [] {
      var init := Conversation(rows[..|rows| - 1], c);
      assert forall i | 0 <= i < |init| :: init[i] == Conversation(rows, c)[i];
      MaxIsLength(rows[..|rows| - 1], c);
      if rows[|rows| - 1].id.conversation == c {
        assert Conversation(rows, c)[|init|] == rows[|rows| - 1];
      }
    }
  }

  // A new message goes to the end of its own conversation, under the next position
  // and an ID the conversation does not have yet: what the engine's log assumes.
  lemma AppendIsEngineAppend(t: Tables, m: Input, c: string)
    requires TablesOk(t)
    ensures
      var log, after := Conversation(t.rows, c), Conversation(Append(t, m).rows, c);
      if c != m.conversation || FindMessage(t.rows, IdOf(m)).Some? then after == log
      else
        && after == log + [RowOf(m, |log| + 1)]
        && IdOf(m) !in Ids(log)
  {
    hide RowDerived;
    var log := Conversation(t.rows, c);
    assert LogOk(log);
    FoundIn(t.rows, IdOf(m));
    if c == m.conversation && FindMessage(t.rows, IdOf(m)).None? {
      MaxIsLength(t.rows, c);
      forall i | 0 <= i < |log|
        ensures log[i].id != IdOf(m)
      {
        InConversation(t.rows, c, log[i]);
      }
    }
    assert Append(t, m).rows[..|t.rows|] == t.rows;
  }

  // The table's append is the protocol's: a new message is an enabled step of the
  // system over its conversation's log, and the log after it is the step's.
  lemma EngineMayAppend(t: Tables, m: Input, s: Protocol.State)
    requires TablesOk(t) && FindMessage(t.rows, IdOf(m)).None?
    requires s.store.log == Conversation(t.rows, m.conversation)
    ensures
      var a := Protocol.Append(RowOf(m, |s.store.log| + 1));
      && Protocol.Enabled(s, a)
      && Protocol.Do(s, a).store.log == Conversation(Append(t, m).rows, m.conversation)
  {
    AppendIsEngineAppend(t, m, m.conversation);
  }

  lemma AppendKeepsOk(t: Tables, m: Input)
    requires TablesOk(t)
    ensures TablesOk(Append(t, m))
  {
    FoundIn(t.rows, IdOf(m));
    forall c
      ensures LogOk(Conversation(Append(t, m).rows, c))
    {
      AppendIsEngineAppend(t, m, c);
      assert LogOk(Conversation(t.rows, c));
      if IdOf(m) !in Ids(Conversation(t.rows, c)) {
        LogAppended(Conversation(t.rows, c), m);
      }
    }
  }

  lemma LogAppended(log: seq<Message>, m: Input)
    requires LogOk(log) && IdOf(m) !in Ids(log)
    ensures LogOk(log + [RowOf(m, |log| + 1)])
  {
    assert forall i | 0 <= i < |log| :: Ids(log)[i] == log[i].id;
  }

  lemma {:induction false} AppendAllKeepsOk(t: Tables, inputs: seq<Input>)
    requires TablesOk(t)
    ensures TablesOk(AppendAll(t, inputs))
    decreases |inputs|
  {
    if inputs != [] {
      AppendAllKeepsOk(t, inputs[..|inputs| - 1]);
      AppendKeepsOk(AppendAll(t, inputs[..|inputs| - 1]), inputs[|inputs| - 1]);
    }
  }

  lemma {:induction false} AppendAllConcat(t: Tables, a: seq<Input>, b: seq<Input>)
    ensures AppendAll(t, a + b) == AppendAll(AppendAll(t, a), b)
    decreases |b|
  {
    if b == [] {
      assert a + b == a;
    } else {
      assert (a + b)[..|a + b| - 1] == a + b[..|b| - 1];
      AppendAllConcat(t, a, b[..|b| - 1]);
    }
  }

  // ---- the first content wins ----

  function First(inputs: seq<Input>, id: MessageId): Option<Input> {
    if inputs == [] then None
    else
      var earlier := First(inputs[..|inputs| - 1], id);
      var last := inputs[|inputs| - 1];
      if earlier.Some? then earlier else if IdOf(last) == id then Some(last) else None
  }

  // A row says what was sent, under the sender's identity.
  predicate SameMessage(row: Message, m: Input) {
    && row.id.conversation == m.conversation
    && row.id.identity == IdentityOf(m.externalId, m.role, m.content, m.raw)
    && row.role == m.role && row.content == m.content && row.tokenCount == m.tokens
    && row.toolName == m.toolName && row.externalId == m.externalId && row.raw == m.raw
  }

  // Two messages of a conversation are the same exactly when they share their source
  // ID; without one, their raw event, however equal their texts; without either, role and text.
  lemma SameIdentity(a: Input, b: Input)
    ensures IdOf(a) == IdOf(b) <==>
      && a.conversation == b.conversation
      && a.externalId == b.externalId
      && (a.externalId == "" ==> a.raw == b.raw)
      && (a.externalId == "" && a.raw == "" ==> a.role == b.role && a.content == b.content)
  {
  }

  lemma FindInMore(rows: seq<Message>, row: Message, id: MessageId)
    ensures FindMessage(rows + [row], id) == if row.id == id then Some(row) else FindMessage(rows, id)
  {
    assert (rows + [row])[..|rows|] == rows;
  }

  lemma FindAfterAppend(t: Tables, m: Input, id: MessageId)
    ensures FindMessage(t.rows, id).Some? ==> FindMessage(Append(t, m).rows, id) == FindMessage(t.rows, id)
    ensures FindMessage(t.rows, id).None? ==>
      FindMessage(Append(t, m).rows, id)
      == if IdOf(m) == id then Some(RowOf(m, MaxPosition(t.rows, m.conversation) + 1)) else None
  {
    hide MaxPosition, IdentityOf;
    if FindMessage(t.rows, IdOf(m)).None? {
      var row := RowOf(m, MaxPosition(t.rows, m.conversation) + 1);
      FindInMore(t.rows, row, id);
    }
  }

  // Whatever order processes append and replay in, an identity is stored if and only
  // if someone sent it, and with the content it was first sent with.
  lemma {:induction false} FirstContentWins(inputs: seq<Input>, id: MessageId)
    ensures
      var found, first := FindMessage(AppendAll(EMPTY, inputs).rows, id), First(inputs, id);
      && found.Some? == first.Some?
      && (found.Some? ==> SameMessage(found.value, first.value) && found.value.id == id)
    decreases |inputs|
  {
    if inputs != [] {
      FirstContentWins(inputs[..|inputs| - 1], id);
      FindAfterAppend(AppendAll(EMPTY, inputs[..|inputs| - 1]), inputs[|inputs| - 1], id);
    }
  }

  // A row once found stays as it is.
  lemma {:induction false} FoundForGood(t: Tables, inputs: seq<Input>, id: MessageId)
    requires FindMessage(t.rows, id).Some?
    ensures FindMessage(AppendAll(t, inputs).rows, id) == FindMessage(t.rows, id)
    decreases |inputs|
  {
    if inputs != [] {
      FoundForGood(t, inputs[..|inputs| - 1], id);
      FindAfterAppend(AppendAll(t, inputs[..|inputs| - 1]), inputs[|inputs| - 1], id);
    }
  }

  lemma {:induction false} SentIsStored(t: Tables, inputs: seq<Input>, k: nat)
    requires k < |inputs|
    ensures FindMessage(AppendAll(t, inputs).rows, IdOf(inputs[k])).Some?
    decreases |inputs|
  {
    var init := inputs[..|inputs| - 1];
    FindAfterAppend(AppendAll(t, init), inputs[|inputs| - 1], IdOf(inputs[k]));
    if k < |init| {
      SentIsStored(t, init, k);
    }
  }

  // Replaying messages that are stored writes nothing, in whatever order.
  lemma {:induction false} ReplayWritesNothing(t: Tables, replay: seq<Input>)
    requires forall k | 0 <= k < |replay| :: FindMessage(t.rows, IdOf(replay[k])).Some?
    ensures AppendAll(t, replay) == t
    decreases |replay|
  {
    if replay != [] {
      var n := |replay| - 1;
      forall k | 0 <= k < n
        ensures FindMessage(t.rows, IdOf(replay[..n][k])).Some?
      {
        assert replay[..n][k] == replay[k];
      }
      ReplayWritesNothing(t, replay[..n]);
    }
  }

  lemma OneMore(t: Tables, history: seq<Input>, m: Input)
    requires t == AppendAll(EMPTY, history) && TablesOk(t)
    ensures AppendAll(EMPTY, history + [m]) == Append(t, m) && TablesOk(Append(t, m))
  {
    assert (history + [m])[..|history|] == history;
    AppendKeepsOk(t, m);
  }

  // ---- the table as it is updated ----

  class MessageTable {
    var rows: seq<Message>
    var index: seq<SearchRow>
    // Every append so far, by whichever process.
    ghost var history: seq<Input>

    ghost function State(): Tables
      reads this
    {
      Tables(rows, index)
    }

    ghost predicate Valid()
      reads this
    {
      State() == AppendAll(EMPTY, history) && TablesOk(State())
    }

    // Valid, and with every append of an earlier time.
    ghost predicate Grown(before: seq<Input>)
      reads this
    {
      Valid() && before <= history
    }

    constructor ()
      ensures Valid() && history == []
    {
      rows, index, history := [], [], [];
    }

    // Other processes append whatever they like; callers see only the contract.
    method Interference()
      requires Valid()
      modifies this
      ensures Grown(old(history))
    {
    }

    method Probe(id: MessageId) returns (found: Option<Message>)
      ensures found == FindMessage(rows, id)
    {
      var i := |rows|;
      assert rows[..i] == rows;
      while i > 0
        invariant 0 <= i <= |rows| && FindMessage(rows, id) == FindMessage(rows[..i], id)
      {
        assert rows[..i][..i - 1] == rows[..i - 1];
        i := i - 1;
        if rows[i].id == id {
          return Some(rows[i]);
        }
      }
      return None;
    }

    method HighestPosition(c: string) returns (highest: nat)
      ensures highest == MaxPosition(rows, c)
    {
      highest := 0;
      for i := 0 to |rows|
        invariant highest == MaxPosition(rows[..i], c)
      {
        assert rows[..i + 1][..i] == rows[..i];
        if rows[i].id.conversation == c {
          highest := Max(highest, rows[i].position);
        }
      }
      assert rows[..|rows|] == rows;
    }

    method AppendMessage(m: Input) returns (row: Message, created: bool)
      requires Valid()
      modifies this
      ensures Valid() && history == old(history) + [m]
      ensures State() == Append(old(State()), m)
      ensures created <==> FindMessage(old(rows), IdOf(m)).None?
      ensures FindMessage(rows, IdOf(m)) == Some(row)
      ensures created ==> SameMessage(row, m) && row.position == MaxPosition(old(rows), m.conversation) + 1
      ensures created ==> index == old(index) + [SearchRow(m.content, row.id, m.role)]
    {
      OneMore(State(), history, m);
      history := history + [m];
      var existing := Probe(IdOf(m));
      created := existing.None?;
      if created {
        row := Insert(m);
      } else {
        row := existing.value;
      }
    }

    method Insert(m: Input) returns (row: Message)
      requires FindMessage(rows, IdOf(m)).None?
      modifies this`rows, this`index
      ensures State() == Append(old(State()), m)
      ensures FindMessage(rows, IdOf(m)) == Some(row) && SameMessage(row, m)
      ensures row.position == MaxPosition(old(rows), m.conversation) + 1
      ensures index == old(index) + [SearchRow(m.content, row.id, m.role)]
    {
      FindAfterAppend(State(), m, IdOf(m));
      var highest := HighestPosition(m.conversation);
      row := RowOf(m, highest + 1);
      rows := rows + [row];
      index := index + [SearchRow(m.content, IdOf(m), m.role)];
    }

    method ListMessages(c: string) returns (messages: seq<Message>)
      ensures messages == Conversation(rows, c)
    {
      messages := [];
      for i := 0 to |rows|
        invariant messages == Conversation(rows[..i], c)
      {
        assert rows[..i + 1][..i] == rows[..i];
        if rows[i].id.conversation == c {
          messages := messages + [rows[i]];
        }
      }
      assert rows[..|rows|] == rows;
    }
  }
}
