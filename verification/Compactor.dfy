// A compaction pass as the engine runs it: loops over the store, with other
// processes acting between any two of its transactions. The run that accompanies
// the store records that the pass takes exactly the protocol's steps.
module Compact {
  import opened Core
  import opened Config
  import opened Dag
  import opened Window
  import opened Folds
  import opened Guard
  import opened Texts
  import opened Rebuild
  import opened Protocol
  import opened History
  import opened Accounting
  import opened Sqlite

  datatype PassResult = PassResult(beforeTokens: nat, afterTokens: nat, leaves: nat, condensed: nat, compacted: bool)

  // What one iteration did.
  datatype Outcome = ALeaf | ACondensed | Nothing

  // The folds a pass has made.
  datatype Tally = Tally(leaves: nat, condensed: nat) {
    function After(outcome: Outcome): Tally {
      match outcome
      case ALeaf => this.(leaves := leaves + 1)
      case ACondensed => this.(condensed := condensed + 1)
      case Nothing => this
    }
  }

  // One fold as the protocol sees it: the store it met and the action it took.
  datatype FoldStep = FoldStep(before: Store, action: Action)

  function ActionsOf(steps: seq<FoldStep>): (actions: seq<Action>)
    ensures |actions| == |steps| && forall k | 0 <= k < |steps| :: actions[k] == steps[k].action
  {
    seq(|steps|, k requires 0 <= k < |steps| => steps[k].action)
  }

  ghost predicate FoldsInto(p: Pass, step: FoldStep, u: seq<WindowItem>) {
    match step.action
    case FoldLeaf(_, start, end, content, tokens) =>
      && StoreOk(step.before) && WindowOk(step.before, p.phase.w)
      && LeafNext(p, start, end) && start < end <= |p.phase.w| && AllMessages(p.phase.w, start, end)
      && u == LeafWindow(step.before, p.phase.w, start, end, content, tokens)
    case FoldCondensed(_, start, content, tokens) =>
      && StoreOk(step.before) && WindowOk(step.before, p.phase.w)
      && CondensedNext(p, start) && RowsPresent(step.before, p, start)
      && u == CondensedWindow(step.before, p.phase.w, start, start + p.cfg.condenseFanout, content, tokens)
    case _ => false
  }

  // The pass after a fold, one iteration fewer to go.
  function Onward(p: Pass, u: seq<WindowItem>): Pass
    requires p.phase.Folding?
  {
    p.(phase := Folding(u, p.phase.left - 1))
  }

  // Where the pass stands after an iteration.
  function SeatAfter(seat: Seat, r: Result<Outcome>, step: FoldStep, u: seq<WindowItem>): Seat {
    if r.Err? || r.value.Nothing? || seat.pass.None? || !seat.pass.value.phase.Folding? then seat
    else seat.Took(step.action, Some(Onward(seat.pass.value, u)))
  }

  // A fold of the pass at `pid` is an enabled step of the run, and what it does there.
  lemma LeafStep(s: State, pid: nat, p: Pass, start: nat, end: nat, content: string, tokens: nat)
    requires Standing(s, pid) == Some(p) && p.phase.Folding? && LeafNext(p, start, end)
    requires start < end <= |p.phase.w| && AllMessages(p.phase.w, start, end)
    ensures
      var a := FoldLeaf(pid, start, end, content, tokens);
      && Enabled(s, a)
      && Do(s, a).store == LeafStore(s.store, p.phase.w, start, end, content, tokens)
      && Standing(Do(s, a), pid) == Some(Onward(p, LeafWindow(s.store, p.phase.w, start, end, content, tokens)))
  {
    hide LeafStore, LeafWindow, IsMessageBlock;
  }

  lemma CondensedStep(s: State, pid: nat, p: Pass, start: nat, end: nat, content: string, tokens: nat)
    requires Standing(s, pid) == Some(p) && p.phase.Folding? && CondensedNext(p, start)
    requires RowsPresent(s.store, p, start) && end == start + p.cfg.condenseFanout
    requires start < end <= |p.phase.w| && AllSummaries(p.phase.w, start, end)
    requires forall c | c in BlockSummaries(p.phase.w, start, end) :: c in s.store.summaries
    ensures
      var a := FoldCondensed(pid, start, content, tokens);
      && Enabled(s, a)
      && Do(s, a).store == CondensedStore(s.store, p.phase.w, start, end, content, tokens)
      && Standing(Do(s, a), pid) == Some(Onward(p, CondensedWindow(s.store, p.phase.w, start, end, content, tokens)))
  {
    hide CondensedStore, CondensedWindow, NoMessageBlock;
  }

  function PassAt(cfg: Config, soft: int, archiveAll: bool, w: seq<WindowItem>, folds: nat): Pass {
    Pass(cfg, soft, archiveAll, Folding(w, cfg.maxIterations - folds))
  }

  // What one iteration of the loop does to a pass: the protocol's next fold, or a stop.
  ghost predicate Took(p: Pass, folded: Outcome, step: FoldStep, u: seq<WindowItem>) {
    var w := p.phase.w;
    if folded.Nothing? then u == w && Stopped(p)
    else
      && FoldsInto(p, step, u) && Horizon(u) == Horizon(w) && SummaryCount(u) > 0
      && step.action.FoldLeaf? == folded.ALeaf?
      && RawCount(u) == RawCount(w) - (if step.action.FoldLeaf? then step.action.end - step.action.start else 0)
      && SummaryCount(u) == SummaryCount(w) + (if folded.ALeaf? then 1 else 1 - p.cfg.condenseFanout)
  }

  ghost predicate Progress(p: Pass, r: Result<Outcome>, step: FoldStep, u: seq<WindowItem>) {
    match r
    case Err(_) => u == p.phase.w
    case Ok(folded) => Took(p, folded, step, u)
  }

  // The text and size a fold was written with are the guard's answer to the texts it
  // stands for, its next call to the summarizer being number `call`.
  ghost predicate Worded(scribe: Scribe, w: seq<WindowItem>, step: FoldStep, call: nat) {
    match step.action
    case FoldLeaf(_, start, end, content, tokens) =>
      LeafAnswers(scribe, call, step.before, w, start, end, Ok(Guarded(content, tokens)))
    case FoldCondensed(_, start, content, tokens) =>
      && scribe.cfg.condenseFanout >= 2
      && RunAnswers(scribe, call, step.before, w, start, start + scribe.cfg.condenseFanout,
                    Ok(Guarded(content, tokens)))
    case _ => false
  }

  // The row under a summary's ID and the item that stands for it: unless it was there
  // before, the row says what the fold was written with.
  ghost predicate Landed(t: Store, before: Store, id: SummaryId, g: Guarded, sources: nat, item: WindowItem) {
    && id in t.summaries && item.ref == SummaryRef(id) && item.tokens == t.summaries[id].tokenCount
    && (id in before.summaries ==> t.summaries[id] == before.summaries[id])
    && (id !in before.summaries ==> Says(t.summaries[id], g.content, g.tokens, sources))
  }

  // The same for a fold of the pass, which took `w` to `u`.
  ghost predicate StepLanded(t: Store, scribe: Scribe, w: seq<WindowItem>, step: FoldStep, u: seq<WindowItem>) {
    match step.action
    case FoldLeaf(_, start, end, content, tokens) =>
      && start < end <= |w| && AllMessages(w, start, end) && start < |u|
      && Landed(t, step.before, LeafId(step.before.conversation, BlockMessages(w, start, end)),
                Guarded(content, tokens), end - start, u[start])
    case FoldCondensed(_, start, content, tokens) =>
      var end := start + scribe.cfg.condenseFanout;
      && start < end <= |w| && AllSummaries(w, start, end) && start < |u|
      && Landed(t, step.before,
                CondensedId(step.before.conversation, w[start].depth + 1, BlockSummaries(w, start, end)),
                Guarded(content, tokens), end - start, u[start])
    case _ => false
  }

  ghost predicate AllLanded(t: Store, scribe: Scribe, windows: seq<seq<WindowItem>>, steps: seq<FoldStep>) {
    && |windows| == |steps| + 1
    && forall k: nat | k < |steps| :: StepLanded(t, scribe, windows[k], steps[k], windows[k + 1])
  }

  lemma StepLandedKept(s: Store, t: Store, scribe: Scribe, w: seq<WindowItem>, step: FoldStep, u: seq<WindowItem>)
    requires StepLanded(s, scribe, w, step, u) && Extends(s, t)
    ensures StepLanded(t, scribe, w, step, u)
  {
  }

  lemma AllLandedKept(s: Store, t: Store, scribe: Scribe, windows: seq<seq<WindowItem>>, steps: seq<FoldStep>)
    requires AllLanded(s, scribe, windows, steps) && Extends(s, t)
    ensures AllLanded(t, scribe, windows, steps)
  {
    hide StepLanded, Extends;
    forall k: nat | k < |steps|
      ensures StepLanded(t, scribe, windows[k], steps[k], windows[k + 1])
    {
      StepLandedKept(s, t, scribe, windows[k], steps[k], windows[k + 1]);
    }
  }

  lemma AllLandedMore(t: Store, scribe: Scribe, windows: seq<seq<WindowItem>>, steps: seq<FoldStep>, step: FoldStep,
                      u: seq<WindowItem>)
    requires AllLanded(t, scribe, windows, steps) && StepLanded(t, scribe, windows[|steps|], step, u)
    ensures AllLanded(t, scribe, windows + [u], steps + [step])
  {
    hide StepLanded;
  }

  // The fold the protocol would take next failed: a source text did, or the guard.
  ghost predicate Refused(scribe: Scribe, p: Pass, step: FoldStep, call: nat, error: string) {
    match step.action
    case FoldLeaf(_, start, end, _, _) =>
      LeafNext(p, start, end) && LeafAnswers(scribe, call, step.before, p.phase.w, start, end, Err(error))
    case FoldCondensed(_, start, _, _) =>
      && CondensedNext(p, start) && scribe.cfg.condenseFanout >= 2
      && RunAnswers(scribe, call, step.before, p.phase.w, start, start + scribe.cfg.condenseFanout, Err(error))
    case _ => false
  }

  // A fold uses two call numbers, one for each attempt of the guard.
  ghost predicate Wrote(scribe: Scribe, p: Pass, r: Result<Outcome>, step: FoldStep, call: nat, next: nat) {
    match r
    case Err(error) => Refused(scribe, p, step, call, error)
    case Ok(folded) => folded.Nothing? || (Worded(scribe, p.phase.w, step, call) && next == call + 2)
  }

  ghost predicate Stored(t: Store, scribe: Scribe, p: Pass, r: Result<Outcome>, step: FoldStep, u: seq<WindowItem>) {
    match r
    case Err(_) => true
    case Ok(folded) => folded.Nothing? || StepLanded(t, scribe, p.phase.w, step, u)
  }

  ghost predicate AllWorded(scribe: Scribe, windows: seq<seq<WindowItem>>, steps: seq<FoldStep>, call: nat) {
    && |windows| == |steps| + 1
    && forall k: nat | k < |steps| :: Worded(scribe, windows[k], steps[k], call + 2 * k)
  }

  lemma AllWordedMore(scribe: Scribe, windows: seq<seq<WindowItem>>, steps: seq<FoldStep>, call: nat, step: FoldStep,
                      u: seq<WindowItem>)
    requires AllWorded(scribe, windows, steps, call)
    requires Worded(scribe, windows[|steps|], step, call + 2 * |steps|)
    ensures AllWorded(scribe, windows + [u], steps + [step], call)
  {
    hide Worded;
  }

  // The windows of a pass, each the protocol's fold of the one before.
  ghost predicate Replays(cfg: Config, soft: int, archiveAll: bool, windows: seq<seq<WindowItem>>,
                          steps: seq<FoldStep>)
  {
    && |windows| == |steps| + 1
    && forall k: nat | k < |steps| :: StepTaken(cfg, soft, archiveAll, windows, steps, k)
  }

  ghost predicate StepTaken(cfg: Config, soft: int, archiveAll: bool, windows: seq<seq<WindowItem>>,
                            steps: seq<FoldStep>, k: nat)
    requires |windows| == |steps| + 1 && k < |steps|
  {
    FoldsInto(PassAt(cfg, soft, archiveAll, windows[k], k), steps[k], windows[k + 1])
  }

  lemma ReplaysMore(cfg: Config, soft: int, archiveAll: bool, windows: seq<seq<WindowItem>>, steps: seq<FoldStep>,
                    step: FoldStep, u: seq<WindowItem>)
    requires Replays(cfg, soft, archiveAll, windows, steps)
    requires FoldsInto(PassAt(cfg, soft, archiveAll, windows[|steps|], |steps|), step, u)
    ensures Replays(cfg, soft, archiveAll, windows + [u], steps + [step])
  {
    hide FoldsInto, PassAt;
    forall k: nat | k < |steps + [step]|
      ensures StepTaken(cfg, soft, archiveAll, windows + [u], steps + [step], k)
    {
      if k < |steps| {
        assert StepTaken(cfg, soft, archiveAll, windows, steps, k);
      }
    }
  }

  method WindowTotal(w: seq<WindowItem>) returns (total: nat)
    ensures total == WindowTokens(w)
  {
    total := 0;
    for i := 0 to |w|
      invariant total == SpanTokens(w, 0, i)
    {
      total := total + w[i].tokens;
    }
  }

  method AppendMessages(w: seq<WindowItem>, later: seq<Message>) returns (u: seq<WindowItem>)
    ensures u == w + MessageItems(later)
  {
    u := w;
    for i := 0 to |later|
      invariant u == w + MessageItems(later[..i])
    {
      assert MessageItems(later[..i + 1]) == MessageItems(later[..i]) + [MessageItem(later[i])];
      u := u + [MessageItem(later[i])];
    }
    assert later[..|later|] == later;
  }

  // The run the protocol would condense next, or none and the loop may stop.
  method NextRun(w: seq<WindowItem>, cfg: Config, ghost p: Pass) returns (start: nat, end: nat, ok: bool)
    requires p.phase.Folding? && p.phase.w == w && p.cfg == cfg && WantsFold(p) && cfg.condenseFanout >= 2
    requires NoMessageBlock(w, cfg.freshTailMessages, cfg.freshTailTokens)
    ensures !ok ==> Stopped(p)
    ensures ok ==>
      && CondensedNext(p, start) && end == start + cfg.condenseFanout
      && start < end <= |w| && AllSummaries(w, start, end)
      && forall k | start <= k < end :: w[k].depth == w[start].depth
  {
    start, end, ok := CondenseRun(w, cfg.condenseFanout, cfg.maxDepth, cfg.condenseChunkTokens);
    if ok {
      CondensedRunShape(p, start);
    }
  }

  lemma NoItemsYet(w: seq<WindowItem>)
    ensures w[..0] == [] && LastPosition(w[..0]) == 0
  {
  }

  lemma OneMoreItem(w: seq<WindowItem>, i: nat)
    requires i < |w|
    ensures w[..i + 1] == w[..i] + [w[i]]
    ensures LastPosition(w[..i + 1]) == Max(LastPosition(w[..i]), w[i].latest)
  {
    assert w[..i + 1][..i] == w[..i];
  }

  class Compactor {
    const db: Database
    const cfg: Config
    const summarize: Summarizer
    // The text a message contributes, or an error while offloading a large one.
    const sourceText: Message -> Result<string>
    var calls: nat

    constructor (db: Database, cfg: Config, summarize: Summarizer, sourceText: Message -> Result<string>)
      ensures this.db == db && this.cfg == cfg && this.summarize == summarize && this.sourceText == sourceText
    {
      this.db, this.cfg, this.summarize, this.sourceText := db, cfg, summarize, sourceText;
      calls := 0;
    }

    // What this compactor writes with.
    ghost function Hand(): Scribe {
      Scribe(cfg, summarize, sourceText)
    }

    // The row behind a persisted item; in a store that meets its invariant it is there.
    method LoadItem(ref: Ref, ghost expected: WindowItem) returns (r: Result<WindowItem>)
      requires db.Ok() && ItemOk(db.State(), expected) && expected.ref == ref
      ensures r == Ok(expected)
    {
      match ref {
        case MessageRef(id) =>
          FoundMessage(db.log, expected.earliest - 1);
          var m := db.GetMessage(id);
          if m.None? {
            return Err("engine: message not found");
          }
          return Ok(MessageItem(m.value));
        case SummaryRef(id) =>
          var s := db.GetSummary(id);
          if s.None? {
            return Err("engine: summary not found");
          }
          return Ok(SummaryItem(s.value));
        case OtherRef(_, _) =>
          return Err("engine: unknown context item type");
      }
    }

    // One of the persisted items, whatever happened since they were listed.
    method ReadItem(ref: Ref, ghost expected: seq<WindowItem>, ghost i: nat, ghost seat: Seat)
      returns (item: WindowItem)
      requires db.Ready(expected) && db.At(seat) && i < |expected| && expected[i].ref == ref
      modifies db
      ensures db.Kept(old(db.State()), expected) && db.At(seat) && item == expected[i]
    {
      ghost var before := db.State();
      db.OthersAct(seat);
      WindowOkExtends(before, db.State(), expected);
      assert ItemOk(db.State(), expected[i]);
      var loaded := LoadItem(ref, expected[i]);
      if loaded.Err? {
        assert false; // rows are never deleted
      }
      item := loaded.value;
    }

    // Loads the items in order, keeping the highest position.
    method LoadItems(items: seq<Ref>, ghost expected: seq<WindowItem>, ghost seat: Seat)
      returns (w: seq<WindowItem>, lastSeq: nat)
      requires db.Ready(expected) && db.At(seat) && Refs(expected) == items
      modifies db
      ensures db.Kept(old(db.State()), expected) && db.At(seat)
      ensures w == expected && lastSeq == LastPosition(w)
    {
      hide StoreOk, Run, LastPosition, ItemsOf;
      w, lastSeq := [], 0;
      NoItemsYet(expected);
      for i := 0 to |items|
        invariant db.Kept(old(db.State()), expected) && db.At(seat)
        invariant w == expected[..i] && lastSeq == LastPosition(expected[..i])
      {
        ghost var before := db.State();
        var item := ReadItem(items[i], expected, i, seat);
        ExtendsTransitive(old(db.State()), before, db.State());
        OneMoreItem(expected, i);
        w := w + [item];
        lastSeq := Max(lastSeq, item.latest);
      }
      assert expected[..|items|] == expected;
    }

    // Lists the persisted items, where a compacting pass begins, and loads each.
    method ReadItems(ghost seat: Seat, ghost begin: Option<(Config, bool)>)
      returns (r: Result<seq<WindowItem>>, lastSeq: nat)
      requires db.Ok() && db.At(seat) && CanBegin(seat, begin)
      modifies db
      ensures r.Ok? && db.Kept(old(db.State()), r.value)
      ensures r.value == ItemsOf(old(db.State()), old(db.items)).value && lastSeq == LastPosition(r.value)
      ensures db.At(Begun(seat, begin, r.value))
    {
      hide StoreOk, Run, LastPosition, ItemsOf;
      var items := db.items;
      ghost var start := db.State();
      ghost var expected := ItemsOf(start, items).value;
      ItemsOfRefs(start, items);
      if begin.Some? {
        db.Record(seat, Begin(seat.pid, begin.value.0, begin.value.1));
      }
      var w;
      w, lastSeq := LoadItems(items, expected, Begun(seat, begin, expected));
      return Ok(w), lastSeq;
    }

    // The rebuilt window reaches the end of the log as it is when the last query runs.
    method BuildWindow(ghost seat: Seat, ghost begin: Option<(Config, bool)>) returns (r: Result<seq<WindowItem>>)
      requires db.Ok() && db.At(seat) && CanBegin(seat, begin)
      modifies db
      ensures r.Ok? && db.Kept(old(db.State()), r.value) && Horizon(r.value) == |db.log|
      ensures r.value == Extended(db.State(), ItemsOf(old(db.State()), old(db.items)).value)
      ensures db.At(Built(seat, begin, ItemsOf(old(db.State()), old(db.items)).value, r.value))
    {
      var items, lastSeq := ReadItems(seat, begin);
      if items.Err? {
        return items;
      }
      r := ReadLaterMessages(items.value, lastSeq, seat, begin);
    }

    // Appends the messages after the last position read.
    method ReadLaterMessages(w: seq<WindowItem>, lastSeq: nat, ghost seat: Seat, ghost begin: Option<(Config, bool)>)
      returns (r: Result<seq<WindowItem>>)
      requires db.Ready(w) && lastSeq == LastPosition(w) && db.At(Begun(seat, begin, w))
      modifies db
      ensures r.Ok? && db.Kept(old(db.State()), r.value) && Horizon(r.value) == |db.log|
      ensures r.value == Extended(db.State(), w) && db.At(Built(seat, begin, w, r.value))
    {
      ghost var before := db.State();
      db.OthersAct(Begun(seat, begin, w));
      WindowOkExtends(before, db.State(), w);
      var later := db.MessagesAfter(lastSeq);
      ExtendedOk(db.State(), w);
      if begin.Some? {
        db.Record(Begun(seat, begin, w), ReadLater(seat.pid));
      }
      var u := AppendMessages(w, later);
      return Ok(u);
    }

    // Loads one message of the block and renders it for the summarizer.
    method LeafSource(w: seq<WindowItem>, i: nat, ghost seat: Seat) returns (text: Result<string>, id: MessageId)
      requires db.Ready(w) && db.At(seat) && i < |w| && w[i].ref.MessageRef?
      modifies db
      ensures db.Kept(old(db.State()), w) && db.At(seat) && id == w[i].ref.message
      ensures 1 <= w[i].earliest <= |db.log| && text == sourceText(db.log[w[i].earliest - 1])
    {
      ghost var before := db.State();
      db.OthersAct(seat);
      WindowOkExtends(before, db.State(), w);
      assert ItemOk(db.State(), w[i]);
      var m := LoadMessage(w[i]);
      return sourceText(m), m.id;
    }

    method LeafSources(w: seq<WindowItem>, start: nat, end: nat, ghost seat: Seat)
      returns (r: Result<seq<string>>, ids: seq<MessageId>)
      requires db.Ready(w) && db.At(seat) && start < end <= |w| && AllMessages(w, start, end)
      modifies db
      ensures db.Kept(old(db.State()), w) && db.At(seat)
      ensures TextsAre(Hand(), db.log, w, start, end, r)
      ensures r.Ok? ==> ids == BlockMessages(w, start, end)
    {
      hide StoreOk, ItemsOk, Run, WindowOk, TextsAre;
      var sources: seq<string> := [];
      ids := [];
      NoTextsYet(Hand(), db.log, w, start);
      for i := start to end
        invariant db.Kept(old(db.State()), w) && db.At(seat)
        invariant TextsAre(Hand(), db.log, w, start, i, Ok(sources))
        invariant ids == BlockMessages(w, start, end)[..i - start]
      {
        ghost var before := db.State();
        var text, id := LeafSource(w, i, seat);
        ExtendsTransitive(old(db.State()), before, db.State());
        ids := ids + [id];
        TextRead(Hand(), before.log, db.log, w, start, i, sources, text);
        if text.Err? {
          BlockIsLogged(db.State(), w, start, end);
          TextsFail(Hand(), db.log, w, start, i + 1, end, text.error);
          return Err(text.error), [];
        }
        sources := sources + [text.value];
      }
      return Ok(sources), ids;
    }

    method LoadMessage(it: WindowItem) returns (m: Message)
      requires db.Ok() && ItemOk(db.State(), it) && it.ref.MessageRef?
      ensures m == db.log[it.earliest - 1] && m.id == it.ref.message
    {
      FoundMessage(db.log, it.earliest - 1);
      var found := db.GetMessage(it.ref.message);
      if found.None? {
        assert false; // messages are never deleted
      }
      return found.value;
    }

    // The fold's one write is the protocol's: `before` is the store it met.
    method StoreLeaf(w: seq<WindowItem>, start: nat, end: nat, ids: seq<MessageId>, g: Guarded, ghost seat: Seat)
      returns (item: WindowItem, ghost before: Store)
      requires db.Ready(w) && start < end <= |w| && AllMessages(w, start, end) && ids == BlockMessages(w, start, end)
      requires db.At(seat) && LeafSeat(seat, w, start, end)
      modifies db
      ensures StoreOk(before) && WindowOk(before, w) && Extends(old(db.State()), before)
      ensures ReplaceRange(w, start, end, item) == LeafWindow(before, w, start, end, g.content, g.tokens)
      ensures db.Kept(old(db.State()), ReplaceRange(w, start, end, item))
      ensures db.At(LeafSeatAfter(seat, start, end, g, ReplaceRange(w, start, end, item)))
      ensures Landed(db.State(), before, LeafId(before.conversation, ids), g, end - start, item)
    {
      ghost var first := db.State();
      db.OthersAct(seat);
      before := db.State();
      WindowOkExtends(first, before, w);
      item := WriteLeaf(w, start, end, ids, g, seat);
      ExtendsTransitive(first, before, db.State());
    }

    // The transaction itself, and its step of the run.
    method WriteLeaf(w: seq<WindowItem>, start: nat, end: nat, ids: seq<MessageId>, g: Guarded, ghost seat: Seat)
      returns (item: WindowItem)
      requires db.Ready(w) && start < end <= |w| && AllMessages(w, start, end) && ids == BlockMessages(w, start, end)
      requires db.At(seat) && LeafSeat(seat, w, start, end)
      modifies db
      ensures ReplaceRange(w, start, end, item) == LeafWindow(old(db.State()), w, start, end, g.content, g.tokens)
      ensures db.Kept(old(db.State()), ReplaceRange(w, start, end, item))
      ensures db.At(LeafSeatAfter(seat, start, end, g, ReplaceRange(w, start, end, item)))
      ensures Landed(db.State(), old(db.State()), LeafId(db.conversation, ids), g, end - start, item)
    {
      hide StoreOk, ItemsOk, WindowOk, Extends, Run, LeafNext, ItemsOf, Standing, Own, Says;
      ghost var before, a := db.State(), FoldLeaf(seat.pid, start, end, g.content, g.tokens);
      LeafFoldKeepsItems(before, w, start, end, g.content, g.tokens);
      var sum := db.CreateLeafSummary(ids, g.content, g.tokens, w[start].earliest, w[end - 1].latest, end - start);
      RowNamed(db.State(), LeafId(db.conversation, ids));
      LeafStep(db.system, seat.pid, seat.pass.value, start, end, g.content, g.tokens);
      db.Record(seat, a);
      return SummaryItem(sum);
    }

    // Writes a leaf over the block with the guard's answer to the block's source texts; a
    // text that fails, or the guard's failure, is the fold's.
    method MakeLeaf(w: seq<WindowItem>, start: nat, end: nat, ghost seat: Seat)
      returns (r: Result<WindowItem>, ghost before: Store, ghost g: Guarded)
      requires db.Ready(w) && start < end <= |w| && AllMessages(w, start, end)
      requires db.At(seat) && LeafSeat(seat, w, start, end)
      requires cfg.leafTargetTokens > 0 && cfg.truncateTokens > 0
      modifies db, this`calls
      ensures r.Err? ==> db.Kept(old(db.State()), w) && db.At(seat)
      ensures r.Ok? ==> db.Kept(old(db.State()), ReplaceRange(w, start, end, r.value))
      ensures r.Ok? ==> db.At(LeafSeatAfter(seat, start, end, g, ReplaceRange(w, start, end, r.value)))
      ensures r.Ok? ==>
        && StoreOk(before) && WindowOk(before, w)
        && ReplaceRange(w, start, end, r.value) == LeafWindow(before, w, start, end, g.content, g.tokens)
      ensures LeafAnswers(Hand(), old(calls), before, w, start, end, if r.Ok? then Ok(g) else Err(r.error))
      ensures r.Ok? ==>
        Landed(db.State(), before, LeafId(before.conversation, BlockMessages(w, start, end)), g, end - start, r.value)
      ensures r.Ok? ==> calls == old(calls) + 2
    {
      hide StoreOk, ItemsOk, WindowOk, Run, LeafWindow;
      var texts, ids := LeafSources(w, start, end, seat);
      before, g := db.State(), Guarded("", 0);
      if texts.Err? {
        return Err(texts.error), before, g;
      }
      var made := SummarizeWithGuard(summarize, calls, SummaryKind.Leaf, 0, texts.value,
                                     cfg.leafTargetTokens, cfg.truncateTokens);
      calls := calls + 2;
      if made.Err? {
        return Err(made.error), before, g;
      }
      g := made.value;
      ghost var now := db.State();
      var item;
      item, before := StoreLeaf(w, start, end, ids, made.value, seat);
      ExtendsTransitive(old(db.State()), now, db.State());
      LeafAnswersKept(Hand(), old(calls), now, before, w, start, end, Ok(g));
      return Ok(item), before, g;
    }

    // Loads one summary of the run.
    method CondensedSource(w: seq<WindowItem>, i: nat, ghost seat: Seat) returns (s: Summary)
      requires db.Ready(w) && db.At(seat) && i < |w| && w[i].ref.SummaryRef?
      modifies db
      ensures db.Kept(old(db.State()), w) && db.At(seat)
      ensures w[i].ref.summary in db.summaries && s == db.summaries[w[i].ref.summary] && s.id == w[i].ref.summary
    {
      ghost var before := db.State();
      db.OthersAct(seat);
      WindowOkExtends(before, db.State(), w);
      assert ItemOk(db.State(), w[i]);
      s := LoadSummary(w[i]);
    }

    method CondensedSources(w: seq<WindowItem>, start: nat, end: nat, ghost seat: Seat)
      returns (ids: seq<SummaryId>, sources: seq<string>, descendants: nat)
      requires db.Ready(w) && db.At(seat) && start < end <= |w| && AllSummaries(w, start, end)
      modifies db
      ensures db.Kept(old(db.State()), w) && db.At(seat)
      ensures ids == BlockSummaries(w, start, end) && RowTextsAre(db.summaries, ids, sources)
      ensures Counted(db.summaries, ids, descendants)
    {
      hide StoreOk, ItemsOk, Run, WindowOk, RowTextsAre, Counted;
      ids, sources, descendants := [], [], 0;
      NothingRead(db.summaries);
      ghost var block := BlockSummaries(w, start, end);
      for i := start to end
        invariant db.Kept(old(db.State()), w) && db.At(seat)
        invariant ids == block[..i - start]
        invariant Counted(db.summaries, ids, descendants) && RowTextsAre(db.summaries, ids, sources)
      {
        ghost var before := db.State();
        var s := CondensedSource(w, i, seat);
        ExtendsTransitive(old(db.State()), before, db.State());
        CountMore(before.summaries, db.summaries, ids, descendants, s);
        RowTextRead(before.summaries, db.summaries, ids, sources, s);
        ids, sources, descendants := ids + [s.id], sources + [s.content], descendants + s.descendants;
      }
    }

    method LoadSummary(it: WindowItem) returns (s: Summary)
      requires db.Ok() && ItemOk(db.State(), it) && it.ref.SummaryRef?
      ensures it.ref.summary in db.summaries && s == db.summaries[it.ref.summary] && s.id == it.ref.summary
    {
      var found := db.GetSummary(it.ref.summary);
      if found.None? {
        assert false; // summaries are never deleted
      }
      return found.value;
    }

    method StoreCondensed(w: seq<WindowItem>, start: nat, end: nat, ids: seq<SummaryId>, g: Guarded, descendants: nat,
                          ghost seat: Seat)
      returns (item: WindowItem, ghost before: Store)
      requires db.Ready(w) && RunBlock(w, start, end) && ids == BlockSummaries(w, start, end)
      requires Counted(db.summaries, ids, descendants)
      requires db.At(seat) && RunSeat(seat, w, start, end)
      modifies db
      ensures StoreOk(before) && WindowOk(before, w) && Extends(old(db.State()), before)
      ensures forall c | c in BlockSummaries(w, start, end) :: c in before.summaries
      ensures ReplaceRange(w, start, end, item) == CondensedWindow(before, w, start, end, g.content, g.tokens)
      ensures db.Kept(old(db.State()), ReplaceRange(w, start, end, item))
      ensures db.At(RunSeatAfter(seat, start, g, ReplaceRange(w, start, end, item)))
      ensures
        Landed(db.State(), before, CondensedId(before.conversation, w[start].depth + 1, ids), g, end - start, item)
    {
      ghost var first := db.State();
      db.OthersAct(seat);
      before := db.State();
      WindowOkExtends(first, before, w);
      SameDescendants(first.summaries, before.summaries, ids);
      item := WriteCondensed(w, start, end, ids, g, descendants, seat);
      ExtendsTransitive(first, before, db.State());
    }

    method WriteCondensed(w: seq<WindowItem>, start: nat, end: nat, ids: seq<SummaryId>, g: Guarded, descendants: nat,
                          ghost seat: Seat)
      returns (item: WindowItem)
      requires db.Ready(w) && RunBlock(w, start, end) && ids == BlockSummaries(w, start, end)
      requires Counted(db.summaries, ids, descendants)
      requires db.At(seat) && RunSeat(seat, w, start, end)
      modifies db
      ensures forall c | c in BlockSummaries(w, start, end) :: c in old(db.summaries)
      ensures ReplaceRange(w, start, end, item) == CondensedWindow(old(db.State()), w, start, end, g.content, g.tokens)
      ensures db.Kept(old(db.State()), ReplaceRange(w, start, end, item))
      ensures db.At(RunSeatAfter(seat, start, g, ReplaceRange(w, start, end, item)))
      ensures Landed(db.State(), old(db.State()), CondensedId(db.conversation, w[start].depth + 1, ids), g, end - start,
                     item)
    {
      hide StoreOk, ItemsOk, WindowOk, Extends, Run, CondensedNext, ItemsOf, Standing, Own;
      ghost var before, a := db.State(), FoldCondensed(seat.pid, start, g.content, g.tokens);
      CondensedFoldKeepsItems(before, w, start, end, g.content, g.tokens);
      var sum := db.CreateCondensedSummary(w[start].depth + 1, ids, g.content, g.tokens, w[start].earliest,
                                           w[end - 1].latest, descendants);
      RowNamed(db.State(), CondensedId(db.conversation, w[start].depth + 1, ids));
      CondensedStep(db.system, seat.pid, seat.pass.value, start, end, g.content, g.tokens);
      db.Record(seat, a);
      return SummaryItem(sum);
    }

    // The same for a run, written from the contents of its summaries.
    method MakeCondensed(w: seq<WindowItem>, start: nat, end: nat, ghost seat: Seat)
      returns (r: Result<WindowItem>, ghost before: Store, ghost g: Guarded)
      requires db.Ready(w) && RunBlock(w, start, end)
      requires db.At(seat) && RunSeat(seat, w, start, end)
      requires cfg.condensedTargetTokens > 0 && cfg.truncateTokens > 0
      modifies db, this`calls
      ensures r.Err? ==> db.Kept(old(db.State()), w) && db.At(seat)
      ensures r.Ok? ==> db.Kept(old(db.State()), ReplaceRange(w, start, end, r.value))
      ensures r.Ok? ==> db.At(RunSeatAfter(seat, start, g, ReplaceRange(w, start, end, r.value)))
      ensures r.Ok? ==>
        && StoreOk(before) && WindowOk(before, w)
        && (forall c | c in BlockSummaries(w, start, end) :: c in before.summaries)
        && ReplaceRange(w, start, end, r.value) == CondensedWindow(before, w, start, end, g.content, g.tokens)
      ensures RunAnswers(Hand(), old(calls), before, w, start, end, if r.Ok? then Ok(g) else Err(r.error))
      ensures r.Ok? ==>
        Landed(db.State(), before,
               CondensedId(before.conversation, w[start].depth + 1, BlockSummaries(w, start, end)), g, end - start,
               r.value)
      ensures r.Ok? ==> calls == old(calls) + 2
    {
      hide StoreOk, ItemsOk, WindowOk, Run, CondensedWindow;
      var ids, texts, descendants := CondensedSources(w, start, end, seat);
      before, g := db.State(), Guarded("", 0);
      var made := SummarizeWithGuard(summarize, calls, SummaryKind.Condensed, w[start].depth + 1, texts,
                                     cfg.condensedTargetTokens, cfg.truncateTokens);
      calls := calls + 2;
      if made.Err? {
        return Err(made.error), before, g;
      }
      g := made.value;
      ghost var now := db.State();
      var item;
      item, before := StoreCondensed(w, start, end, ids, made.value, descendants, seat);
      ExtendsTransitive(old(db.State()), now, db.State());
      RunAnswersKept(Hand(), old(calls), now, before, w, start, end, Ok(g));
      return Ok(item), before, g;
    }

    // Folds the block the protocol would fold next.
    method FoldBlock(w: seq<WindowItem>, start: nat, end: nat, ghost seat: Seat)
      returns (r: Result<Outcome>, u: seq<WindowItem>, ghost step: FoldStep)
      requires db.Ready(w) && db.At(seat) && LeafSeat(seat, w, start, end)
      requires cfg.leafTargetTokens > 0 && cfg.truncateTokens > 0
      modifies db, this`calls
      ensures db.Kept(old(db.State()), u)
      ensures Progress(seat.pass.value, r, step, u) && db.At(SeatAfter(seat, r, step, u))
      ensures Wrote(Hand(), seat.pass.value, r, step, old(calls), calls)
      ensures Stored(db.State(), Hand(), seat.pass.value, r, step, u)
    {
      hide StoreOk, ItemsOk, Run, NoMessageBlock, WindowOk, LeafWindow, LeafAnswers;
      ghost var p := seat.pass.value;
      LeafBlockShape(p, start, end);
      ghost var before, g;
      var leaf;
      leaf, before, g := MakeLeaf(w, start, end, seat);
      step := FoldStep(before, FoldLeaf(seat.pid, start, end, g.content, g.tokens));
      if leaf.Err? {
        return Err(leaf.error), w, step;
      }
      LeafTook(p, before, seat.pid, start, end, g.content, g.tokens);
      return Ok(ALeaf), ReplaceRange(w, start, end, leaf.value), step;
    }

    // One iteration of the loop: fold the first block, else the first run, else nothing.
    method FoldOnce(w: seq<WindowItem>, ghost seat: Seat)
      returns (r: Result<Outcome>, u: seq<WindowItem>, ghost step: FoldStep)
      requires db.Ready(w) && db.At(seat) && FoldingSeat(seat, w, cfg)
      requires cfg.leafTargetTokens > 0 && cfg.condensedTargetTokens > 0 && cfg.truncateTokens > 0
      requires cfg.condenseFanout >= 2
      modifies db, this`calls
      ensures db.Kept(old(db.State()), u)
      ensures Progress(seat.pass.value, r, step, u) && db.At(SeatAfter(seat, r, step, u))
      ensures Wrote(Hand(), seat.pass.value, r, step, old(calls), calls)
      ensures Stored(db.State(), Hand(), seat.pass.value, r, step, u)
    {
      var protected := ProtectedSet(w, cfg.freshTailMessages, cfg.freshTailTokens);
      var start, end, ok :=
        FindMessageBlock(w, protected, cfg.freshTailMessages, cfg.freshTailTokens, cfg.leafChunkTokens);
      if ok {
        BlockIsNext(seat, w, cfg, start, end);
        r, u, step := FoldBlock(w, start, end, seat);
      } else {
        r, u, step := CondenseOnce(w, seat);
      }
    }

    // With no block left, condenses the first run if there is one.
    method CondenseOnce(w: seq<WindowItem>, ghost seat: Seat)
      returns (r: Result<Outcome>, u: seq<WindowItem>, ghost step: FoldStep)
      requires db.Ready(w) && db.At(seat) && FoldingSeat(seat, w, cfg)
      requires NoMessageBlock(w, cfg.freshTailMessages, cfg.freshTailTokens)
      requires cfg.condensedTargetTokens > 0 && cfg.truncateTokens > 0 && cfg.condenseFanout >= 2
      modifies db, this`calls
      ensures db.Kept(old(db.State()), u)
      ensures Progress(seat.pass.value, r, step, u) && db.At(SeatAfter(seat, r, step, u))
      ensures Wrote(Hand(), seat.pass.value, r, step, old(calls), calls)
      ensures Stored(db.State(), Hand(), seat.pass.value, r, step, u)
    {
      hide StoreOk, ItemsOk, Run, NoMessageBlock, NoCondenseRun, CondensedWindow, WindowOk, RunAnswers;
      u, step := w, FoldStep(db.State(), Die(0));
      var start, end, ok := NextRun(w, cfg, seat.pass.value);
      if !ok {
        r := Ok(Nothing);
        return;
      }
      ghost var before, g;
      var condensed;
      condensed, before, g := MakeCondensed(w, start, end, seat);
      step := FoldStep(before, FoldCondensed(seat.pid, start, g.content, g.tokens));
      if condensed.Err? {
        return Err(condensed.error), w, step;
      }
      CondensedTook(seat.pass.value, before, seat.pid, start, g.content, g.tokens);
      return Ok(ACondensed), ReplaceRange(w, start, end, condensed.value), step;
    }

    method Persist(w: seq<WindowItem>, ghost seat: Seat)
      requires db.Ready(w) && db.At(seat) && StoppedSeat(seat, w)
      modifies db
      ensures db.Kept(old(db.State()), w)
      ensures db.items == Refs(w) && ItemsOf(db.State(), db.items) == Some(w)
      ensures db.At(seat.Took(Protocol.Persist(seat.pid), None))
    {
      hide StoreOk, Stopped, Run;
      ghost var first := db.State();
      db.OthersAct(seat);
      WindowOkExtends(first, db.State(), w);
      var refs: seq<Ref> := [];
      for i := 0 to |w|
        invariant refs == Refs(w)[..i]
      {
        refs := refs + [w[i].ref];
      }
      ghost var before := db.State();
      WriteItems(w, refs, seat);
      ExtendsTransitive(first, before, db.State());
    }

    method WriteItems(w: seq<WindowItem>, refs: seq<Ref>, ghost seat: Seat)
      requires db.Ready(w) && db.At(seat) && StoppedSeat(seat, w) && refs == Refs(w)
      modifies db
      ensures db.Kept(old(db.State()), w)
      ensures db.items == Refs(w) && ItemsOf(db.State(), db.items) == Some(w)
      ensures db.At(seat.Took(Protocol.Persist(seat.pid), None))
    {
      ghost var before := db.State();
      PersistKeepsOk(before, w);
      db.ReplaceContextItems(refs);
      assert db.State() == before.(items := Refs(w));
      WindowOkExtends(before, db.State(), w);
      db.Record(seat, Protocol.Persist(seat.pid));
    }

    // The body of the loop: nothing when the window is small enough, else one fold.
    method Iterate(soft: int, archiveAll: bool, w: seq<WindowItem>, ghost folds: nat, ghost seat: Seat)
      returns (outcome: Result<Outcome>, u: seq<WindowItem>, ghost step: FoldStep)
      requires db.Ready(w) && folds < cfg.maxIterations
      requires db.At(seat) && seat.pass == Some(PassAt(cfg, soft, archiveAll, w, folds))
      requires cfg.leafTargetTokens > 0 && cfg.condensedTargetTokens > 0 && cfg.truncateTokens > 0
      requires cfg.condenseFanout >= 2
      modifies db, this`calls
      ensures db.Kept(old(db.State()), u)
      ensures Progress(seat.pass.value, outcome, step, u) && db.At(SeatAfter(seat, outcome, step, u))
      ensures Wrote(Hand(), seat.pass.value, outcome, step, old(calls), calls)
      ensures Stored(db.State(), Hand(), seat.pass.value, outcome, step, u)
    {
      var total := WindowTotal(w);
      if !archiveAll && total <= soft {
        outcome, u, step := Ok(Nothing), w, FoldStep(db.State(), Die(0));
      } else {
        outcome, u, step := FoldOnce(w, seat);
      }
    }

    // The loop of a pass: every fold is the protocol's next one, and the loop stops
    // where the protocol allows.
    method FoldLoop(first: seq<WindowItem>, soft: int, archiveAll: bool, ghost seat: Seat)
      returns (r: Result<Tally>, w: seq<WindowItem>, ghost windows: seq<seq<WindowItem>>, ghost steps: seq<FoldStep>,
               ghost made: Tally, ghost refused: FoldStep)
      requires db.Ready(first) && db.At(seat) && seat.pass == Some(PassAt(cfg, soft, archiveAll, first, 0))
      requires cfg.leafTargetTokens > 0 && cfg.condensedTargetTokens > 0 && cfg.truncateTokens > 0
      requires cfg.condenseFanout >= 2 && cfg.maxIterations > 0
      modifies db, this`calls
      ensures db.Kept(old(db.State()), w)
      ensures Folded(cfg, soft, archiveAll, first, w, windows, steps, made) && (r.Ok? ==> r.value == made)
      ensures AllWorded(Hand(), windows, steps, old(calls)) && AllLanded(db.State(), Hand(), windows, steps)
      ensures r.Err? ==>
        Refused(Hand(), PassAt(cfg, soft, archiveAll, w, |steps|), refused, old(calls) + 2 * |steps|, r.error)
      ensures r.Ok? ==> Stopped(PassAt(cfg, soft, archiveAll, w, |steps|)) && |steps| <= cfg.maxIterations
      ensures db.At(SeatAt(seat, steps, PassAt(cfg, soft, archiveAll, w, |steps|)))
    {
      hide StoreOk, WindowOk, ItemsOk, Run, ItemsOf, Folded, AllWorded, Refused, Progress, Wrote, Stopped;
      windows, steps, w, refused := [first], [], first, FoldStep(db.State(), Die(0));
      NothingFolded(cfg, soft, archiveAll, first, Hand(), calls, db.State());
      var tally := Tally(0, 0);
      var i := 0;
      while i < cfg.maxIterations
        invariant 0 <= i <= cfg.maxIterations && i == |steps|
        invariant db.Kept(old(db.State()), w)
        invariant Folded(cfg, soft, archiveAll, first, w, windows, steps, tally)
        invariant |windows| == |steps| + 1 && windows[|steps|] == w
        invariant AllWorded(Hand(), windows, steps, old(calls)) && calls == old(calls) + 2 * |steps|
        invariant AllLanded(db.State(), Hand(), windows, steps)
        invariant db.At(SeatAt(seat, steps, PassAt(cfg, soft, archiveAll, w, |steps|)))
      {
        ghost var before := db.State();
        ghost var now := SeatAt(seat, steps, PassAt(cfg, soft, archiveAll, w, |steps|));
        var outcome, u;
        ghost var step;
        outcome, u, step := Iterate(soft, archiveAll, w, |steps|, now);
        ExtendsTransitive(old(db.State()), before, db.State());
        Iterated(cfg, soft, archiveAll, first, w, windows, steps, tally, Hand(), old(calls), outcome, step, u, calls);
        AllLandedKept(before, db.State(), Hand(), windows, steps);
        if outcome.Err? {
          return Err(outcome.error), w, windows, steps, tally, step;
        }
        if outcome.value.Nothing? {
          return Ok(tally), w, windows, steps, tally, refused;
        }
        LandedMore(db.State(), Hand(), windows, steps, PassAt(cfg, soft, archiveAll, w, |steps|), outcome, step, u);
        SeatMore(seat, cfg, soft, archiveAll, w, steps, outcome.value, step, u);
        tally := tally.After(outcome.value);
        w, windows, steps := u, windows + [u], steps + [step];
        i := i + 1;
      }
      OutOfIterations(cfg, soft, archiveAll, w);
      return Ok(tally), w, windows, steps, tally, refused;
    }

    // A whole pass. Its own part of the run is exactly the protocol's: begin, read, the
    // folds, then persist, or death after an error. On success the persisted items are
    // its final window, which covers the whole log as the pass read it, and the counts
    // obey the conservation law. A failed pass leaves only rows behind, and its error is a
    // source text's or the guard's. Either way the folds are written as the guard answered.
    method CompactWindow(archiveAll: bool, ghost pid: nat)
      returns (r: Result<PassResult>, ghost windows: seq<seq<WindowItem>>, ghost steps: seq<FoldStep>,
               ghost refused: FoldStep)
      requires db.Ok() && Standing(db.system, pid) == None
      modifies db, this`calls
      ensures db.Ok() && Extends(old(db.State()), db.State()) && Standing(db.system, pid) == None
      ensures old(db.history) <= db.history
      ensures !cfg.Valid() ==> db.State() == old(db.State()) && db.history == old(db.history)
      ensures !cfg.Valid() ==> cfg.Validate().Some? && r == Err(cfg.Validate().value)
      ensures cfg.Valid() ==>
        Own(db.history, pid)
        == Own(old(db.history), pid)
           + PassActions(pid, cfg, archiveAll, steps, if r.Ok? then Protocol.Persist(pid) else Die(pid))
      ensures cfg.Valid() ==>
        && Replays(cfg, cfg.Soft(), archiveAll, windows, steps)
        && AllWorded(Hand(), windows, steps, old(calls)) && AllLanded(db.State(), Hand(), windows, steps)
        && (r.Err? ==> Refused(Hand(), PassAt(cfg, cfg.Soft(), archiveAll, windows[|steps|], |steps|), refused,
                               old(calls) + 2 * |steps|, r.error))
      ensures r.Ok? ==>
        && cfg.Valid()
        && var first, last := windows[0], windows[|steps|];
        && Horizon(last) == Horizon(first) && |old(db.log)| <= Horizon(first) <= |db.log|
        && WindowOk(db.State(), last) && db.items == Refs(last) && ItemsOf(db.State(), db.items) == Some(last)
        && Stopped(PassAt(cfg, cfg.Soft(), archiveAll, last, |steps|))
        && Finished(cfg, archiveAll, last, |steps|)
        && (forall k: nat | k < |steps| :: Wanted(cfg, archiveAll, windows[k], steps[k]))
        && r.value.beforeTokens == WindowTokens(first) && r.value.afterTokens == WindowTokens(last)
      ensures r.Ok? ==>
        var first, last := windows[0], windows[|steps|];
        var leaves, condensed := r.value.leaves, r.value.condensed;
        && leaves + condensed == |steps| <= cfg.maxIterations
        && r.value.compacted == (steps != [])
        && RawCount(last) + leaves <= RawCount(first)
        && SummaryCount(last) == SummaryCount(first) + leaves - (cfg.condenseFanout - 1) * condensed
        && (condensed > 0 ==> (cfg.condenseFanout - 1) * condensed <= SummaryCount(first) + leaves - 1)
    {
      hide StoreOk, WindowOk, Run, Stopped, ItemsOf, NoMessageBlock, NoCondenseRun, Extended, Refused, AllWorded;
      hide Own, Horizon, RawCount, SummaryCount, WindowTokens, PassActions, StepTaken;
      hide Finished, Wanted, Replays, AllLanded;
      windows, steps, refused := [[]], [], FoldStep(db.State(), Die(0));
      var invalid := cfg.Validate();
      if invalid.Some? {
        return Err(invalid.value), windows, steps, refused;
      }
      ValidLimits(cfg);
      ghost var seat := Seat(pid, db.history, Own(db.history, pid), None);
      ghost var first := ItemsOf(db.State(), db.items).value;
      var built := BuildWindow(seat, Some((cfg, archiveAll)));
      var beforeTokens := WindowTotal(built.value);
      ghost var read := db.State();
      seat := Built(seat, Some((cfg, archiveAll)), first, built.value);
      var folded, w;
      ghost var made;
      folded, w, windows, steps, made, refused := FoldLoop(built.value, cfg.Soft(), archiveAll, seat);
      ExtendsTransitive(old(db.State()), read, db.State());
      seat := SeatAt(seat, steps, PassAt(cfg, cfg.Soft(), archiveAll, w, |steps|));
      PassActionsTaken(Seat(pid, old(db.history), Own(old(db.history), pid), None), cfg, archiveAll, first,
                       built.value, steps, seat.pass.value, if folded.Ok? then Protocol.Persist(pid) else Die(pid));
      if folded.Err? {
        db.Record(seat, Die(pid));
        return Err(folded.error), windows, steps, refused;
      }
      ghost var last := db.State();
      Persist(w, seat);
      ExtendsTransitive(old(db.State()), last, db.State());
      AllLandedKept(last, db.State(), Hand(), windows, steps);
      StoppedFinished(cfg, archiveAll, w, |steps|);
      FoldsWanted(cfg, archiveAll, windows, steps);
      var afterTokens := WindowTotal(w);
      var Tally(leaves, condensed) := folded.value;
      return Ok(PassResult(beforeTokens, afterTokens, leaves, condensed, leaves > 0 || condensed > 0)), windows, steps,
             refused;
    }
  }

  // What a whole pass contributes to the run: begin, read, the folds, and how it ends.
  function PassActions(pid: nat, cfg: Config, archiveAll: bool, steps: seq<FoldStep>, last: Action): seq<Action> {
    [Begin(pid, cfg, archiveAll), ReadLater(pid)] + ActionsOf(steps) + [last]
  }

  lemma PassActionsTaken(seat: Seat, cfg: Config, archiveAll: bool, items: seq<WindowItem>, first: seq<WindowItem>,
                         steps: seq<FoldStep>, p: Pass, last: Action)
    ensures
      var done := SeatAt(Built(seat, Some((cfg, archiveAll)), items, first), steps, p).Took(last, None);
      done.own == seat.own + PassActions(seat.pid, cfg, archiveAll, steps, last)
  {
  }

  // ---- where a pass stands ----

  // A compacting pass begins when it lists the items; a reader never begins.
  ghost predicate CanBegin(seat: Seat, begin: Option<(Config, bool)>) {
    begin.Some? ==> seat.pass.None? && begin.value.0.Valid()
  }

  function Begun(seat: Seat, begin: Option<(Config, bool)>, items: seq<WindowItem>): Seat {
    match begin
    case None => seat
    case Some((cfg, archiveAll)) =>
      seat.Took(Begin(seat.pid, cfg, archiveAll), Some(Pass(cfg, cfg.Soft(), archiveAll, Reading(items))))
  }

  function Built(seat: Seat, begin: Option<(Config, bool)>, items: seq<WindowItem>, w: seq<WindowItem>): Seat {
    match begin
    case None => seat
    case Some((cfg, archiveAll)) =>
      Begun(seat, begin, items).Took(ReadLater(seat.pid), Some(PassAt(cfg, cfg.Soft(), archiveAll, w, 0)))
  }

  function SeatAt(seat: Seat, steps: seq<FoldStep>, p: Pass): Seat {
    seat.(own := seat.own + ActionsOf(steps), pass := Some(p))
  }

  ghost predicate FoldingSeat(seat: Seat, w: seq<WindowItem>, cfg: Config) {
    match seat.pass
    case None => false
    case Some(p) => p.phase.Folding? && p.phase.w == w && p.cfg == cfg && WantsFold(p)
  }

  ghost predicate LeafSeat(seat: Seat, w: seq<WindowItem>, start: nat, end: nat) {
    match seat.pass
    case None => false
    case Some(p) => p.phase.Folding? && p.phase.w == w && LeafNext(p, start, end)
  }

  ghost predicate RunSeat(seat: Seat, w: seq<WindowItem>, start: nat, end: nat) {
    match seat.pass
    case None => false
    case Some(p) =>
      && p.phase.Folding? && p.phase.w == w && CondensedNext(p, start) && end == start + p.cfg.condenseFanout
  }

  ghost predicate StoppedSeat(seat: Seat, w: seq<WindowItem>) {
    match seat.pass
    case None => false
    case Some(p) => p.phase.Folding? && p.phase.w == w && Stopped(p)
  }

  ghost function LeafSeatAfter(seat: Seat, start: nat, end: nat, g: Guarded, u: seq<WindowItem>): Seat
    requires seat.pass.Some? && seat.pass.value.phase.Folding?
  {
    seat.Took(FoldLeaf(seat.pid, start, end, g.content, g.tokens), Some(Onward(seat.pass.value, u)))
  }

  ghost function RunSeatAfter(seat: Seat, start: nat, g: Guarded, u: seq<WindowItem>): Seat
    requires seat.pass.Some? && seat.pass.value.phase.Folding?
  {
    seat.Took(FoldCondensed(seat.pid, start, g.content, g.tokens), Some(Onward(seat.pass.value, u)))
  }

  predicate RunBlock(w: seq<WindowItem>, start: nat, end: nat) {
    && start < end <= |w| && AllSummaries(w, start, end)
    && forall k | start <= k < end :: w[k].depth == w[start].depth
  }

  lemma BlockIsNext(seat: Seat, w: seq<WindowItem>, cfg: Config, start: nat, end: nat)
    requires FoldingSeat(seat, w, cfg)
    requires IsMessageBlock(w, cfg.freshTailMessages, cfg.freshTailTokens, cfg.leafChunkTokens, start, end)
    ensures LeafSeat(seat, w, start, end)
  {
  }

  lemma SeatMore(seat: Seat, cfg: Config, soft: int, archiveAll: bool, w: seq<WindowItem>, steps: seq<FoldStep>,
                 outcome: Outcome, step: FoldStep, u: seq<WindowItem>)
    requires !outcome.Nothing?
    ensures SeatAfter(SeatAt(seat, steps, PassAt(cfg, soft, archiveAll, w, |steps|)), Ok(outcome), step, u)
            == SeatAt(seat, steps + [step], PassAt(cfg, soft, archiveAll, u, |steps| + 1))
  {
    assert ActionsOf(steps + [step]) == ActionsOf(steps) + [step.action];
    assert seat.own + ActionsOf(steps) + [step.action] == seat.own + ActionsOf(steps + [step]);
  }

  // The state of the loop after some folds, with the pass's conservation law: each
  // leaf adds a summary, each condensation nets fanout - 1 away.
  ghost predicate Folded(cfg: Config, soft: int, archiveAll: bool, first: seq<WindowItem>, w: seq<WindowItem>,
                         windows: seq<seq<WindowItem>>, steps: seq<FoldStep>, tally: Tally)
  {
    match tally
    case Tally(leaves, condensed) =>
      && Replays(cfg, soft, archiveAll, windows, steps) && windows[0] == first && windows[|steps|] == w
      && Horizon(w) == Horizon(first)
      && leaves + condensed == |steps|
      && RawCount(w) + leaves <= RawCount(first)
      && SummaryCount(w) == SummaryCount(first) + leaves - (cfg.condenseFanout - 1) * condensed
      && (steps != [] ==> SummaryCount(w) > 0)
  }

  lemma NothingFolded(cfg: Config, soft: int, archiveAll: bool, first: seq<WindowItem>, scribe: Scribe, call: nat,
                      t: Store)
    ensures Folded(cfg, soft, archiveAll, first, first, [first], [], Tally(0, 0))
    ensures AllWorded(scribe, [first], [], call) && AllLanded(t, scribe, [first], [])
  {
  }

  lemma FoldedMore(cfg: Config, soft: int, archiveAll: bool, first: seq<WindowItem>, w: seq<WindowItem>,
                   windows: seq<seq<WindowItem>>, steps: seq<FoldStep>, tally: Tally,
                   outcome: Outcome, step: FoldStep, u: seq<WindowItem>)
    requires Folded(cfg, soft, archiveAll, first, w, windows, steps, tally)
    requires Took(PassAt(cfg, soft, archiveAll, w, |steps|), outcome, step, u) && !outcome.Nothing?
    ensures Folded(cfg, soft, archiveAll, first, u, windows + [u], steps + [step], tally.After(outcome))
  {
    hide RawCount, SummaryCount, Horizon, StepTaken, StoreOk, WindowOk, LeafNext, CondensedNext;
    hide LeafWindow, CondensedWindow;
    ReplaysMore(cfg, soft, archiveAll, windows, steps, step, u);
    OneMoreCondensed(cfg.condenseFanout - 1, tally.condensed);
  }

  // What the loop makes of an iteration: an error, the end, or one fold more.
  lemma Iterated(cfg: Config, soft: int, archiveAll: bool, first: seq<WindowItem>, w: seq<WindowItem>,
                 windows: seq<seq<WindowItem>>, steps: seq<FoldStep>, tally: Tally, scribe: Scribe, call: nat,
                 outcome: Result<Outcome>, step: FoldStep, u: seq<WindowItem>, next: nat)
    requires Folded(cfg, soft, archiveAll, first, w, windows, steps, tally)
    requires AllWorded(scribe, windows, steps, call) && windows[|steps|] == w
    requires Progress(PassAt(cfg, soft, archiveAll, w, |steps|), outcome, step, u)
    requires Wrote(scribe, PassAt(cfg, soft, archiveAll, w, |steps|), outcome, step, call + 2 * |steps|, next)
    ensures outcome.Err? ==>
      u == w && Refused(scribe, PassAt(cfg, soft, archiveAll, w, |steps|), step, call + 2 * |steps|, outcome.error)
    ensures outcome.Ok? && outcome.value.Nothing? ==> u == w && Stopped(PassAt(cfg, soft, archiveAll, w, |steps|))
    ensures outcome.Ok? && !outcome.value.Nothing? ==>
      && Folded(cfg, soft, archiveAll, first, u, windows + [u], steps + [step], tally.After(outcome.value))
      && AllWorded(scribe, windows + [u], steps + [step], call) && next == call + 2 * (|steps| + 1)
  {
    hide Folded, Stopped, Refused, Worded, FoldsInto, RawCount, SummaryCount, Horizon;
    if outcome.Ok? {
      if !outcome.value.Nothing? {
        FoldedMore(cfg, soft, archiveAll, first, w, windows, steps, tally, outcome.value, step, u);
        AllWordedMore(scribe, windows, steps, call, step, u);
      }
    }
  }

  lemma LandedMore(t: Store, scribe: Scribe, windows: seq<seq<WindowItem>>, steps: seq<FoldStep>, p: Pass,
                   outcome: Result<Outcome>, step: FoldStep, u: seq<WindowItem>)
    requires AllLanded(t, scribe, windows, steps) && windows[|steps|] == p.phase.w
    requires Stored(t, scribe, p, outcome, step, u) && outcome.Ok? && !outcome.value.Nothing?
    ensures AllLanded(t, scribe, windows + [u], steps + [step])
  {
    hide StepLanded, AllLanded;
    AllLandedMore(t, scribe, windows, steps, step, u);
  }

  // Why a pass is over: its window fits the budget, it may fold no more, or nothing is
  // left to fold: the raw messages are the tail's, and no run of summaries of one depth
  // below the deepest fits the cap.
  ghost predicate Finished(cfg: Config, archiveAll: bool, w: seq<WindowItem>, folds: nat) {
    || (!archiveAll && WindowTokens(w) <= cfg.Soft())
    || folds >= cfg.maxIterations
    || (&& cfg.condenseFanout >= 2
        && (forall k: nat | k < |w| && w[k].ref.MessageRef? ::
              InTail(WindowEntries(w), k, cfg.freshTailMessages, cfg.freshTailTokens))
        && (forall k: nat | k + cfg.condenseFanout <= |w| && AllSummaries(w, k, k + cfg.condenseFanout)
                            && (forall j | k < j < k + cfg.condenseFanout :: w[j].depth == w[k].depth) ::
              w[k].depth >= cfg.maxDepth || SpanTokens(w, k, k + cfg.condenseFanout) > cfg.condenseChunkTokens))
  }

  lemma StoppedFinished(cfg: Config, archiveAll: bool, w: seq<WindowItem>, folds: nat)
    requires Stopped(PassAt(cfg, cfg.Soft(), archiveAll, w, folds))
    ensures Finished(cfg, archiveAll, w, folds)
  {
    if WantsFold(PassAt(cfg, cfg.Soft(), archiveAll, w, folds)) {
      forall k: nat | k < |w| && w[k].ref.MessageRef?
        ensures InTail(WindowEntries(w), k, cfg.freshTailMessages, cfg.freshTailTokens)
      {
        assert !Foldable(w, k, cfg.freshTailMessages, cfg.freshTailTokens);
      }
      forall k: nat | k + cfg.condenseFanout <= |w| && AllSummaries(w, k, k + cfg.condenseFanout)
                      && (forall j | k < j < k + cfg.condenseFanout :: w[j].depth == w[k].depth)
        ensures w[k].depth >= cfg.maxDepth || SpanTokens(w, k, k + cfg.condenseFanout) > cfg.condenseChunkTokens
      {
        assert !Condensable(w, k, cfg.condenseFanout, cfg.maxDepth, cfg.condenseChunkTokens);
      }
    }
  }

  // A pass folds only while its window is over the budget, or archives all; and a run it
  // condenses is of one depth below the deepest and fits the cap.
  ghost predicate Wanted(cfg: Config, archiveAll: bool, w: seq<WindowItem>, step: FoldStep) {
    && (archiveAll || WindowTokens(w) > cfg.Soft())
    && match step.action
       case FoldCondensed(_, start, _, _) =>
         && cfg.condenseFanout >= 2 && start + cfg.condenseFanout <= |w|
         && (forall j | start <= j < start + cfg.condenseFanout :: w[j].depth == w[start].depth < cfg.maxDepth)
         && SpanTokens(w, start, start + cfg.condenseFanout) <= cfg.condenseChunkTokens
       case _ => true
  }

  lemma FoldWanted(cfg: Config, archiveAll: bool, w: seq<WindowItem>, step: FoldStep, u: seq<WindowItem>, folds: nat)
    requires FoldsInto(PassAt(cfg, cfg.Soft(), archiveAll, w, folds), step, u)
    ensures Wanted(cfg, archiveAll, w, step)
  {
    hide StoreOk, WindowOk, LeafWindow, CondensedWindow, IsMessageBlock, NoMessageBlock;
  }

  lemma FoldsWanted(cfg: Config, archiveAll: bool, windows: seq<seq<WindowItem>>, steps: seq<FoldStep>)
    requires Replays(cfg, cfg.Soft(), archiveAll, windows, steps)
    ensures forall k: nat | k < |steps| :: Wanted(cfg, archiveAll, windows[k], steps[k])
  {
    hide FoldsInto, Wanted;
    forall k: nat | k < |steps|
      ensures Wanted(cfg, archiveAll, windows[k], steps[k])
    {
      assert StepTaken(cfg, cfg.Soft(), archiveAll, windows, steps, k);
      FoldWanted(cfg, archiveAll, windows[k], steps[k], windows[k + 1], k);
    }
  }

  lemma OutOfIterations(cfg: Config, soft: int, archiveAll: bool, w: seq<WindowItem>)
    requires cfg.maxIterations >= 0
    ensures Stopped(PassAt(cfg, soft, archiveAll, w, cfg.maxIterations))
  {
  }

  lemma OneMoreCondensed(net: int, condensed: nat)
    ensures net * (condensed + 1) == net * condensed + net
  {
  }

  lemma RowNamed(store: Store, id: SummaryId)
    requires StoreOk(store) && id in store.summaries
    ensures store.summaries[id].id == id
  {
    assert RowOk(store, id);
  }

  // A fold keeps the persisted items valid too: it leaves them as they are.
  lemma LeafFoldKeepsItems(store: Store, w: seq<WindowItem>, start: nat, end: nat, content: string, tokens: nat)
    requires StoreOk(store) && ItemsOk(store) && WindowOk(store, w)
    requires start < end <= |w| && AllMessages(w, start, end)
    ensures
      var t := LeafStore(store, w, start, end, content, tokens);
      && StoreOk(t) && ItemsOk(t) && Extends(store, t)
      && WindowOk(t, LeafWindow(store, w, start, end, content, tokens))
  {
    hide WindowOk, ItemsOk, LeafWindow, LeafStore;
    LeafFoldKeepsOk(store, w, start, end, content, tokens);
    ItemsOkExtends(store, LeafStore(store, w, start, end, content, tokens));
  }

  lemma CondensedFoldKeepsItems(store: Store, w: seq<WindowItem>, start: nat, end: nat, content: string, tokens: nat)
    requires StoreOk(store) && ItemsOk(store) && WindowOk(store, w) && RunBlock(w, start, end)
    ensures forall c | c in BlockSummaries(w, start, end) :: c in store.summaries
    ensures
      var t := CondensedStore(store, w, start, end, content, tokens);
      && StoreOk(t) && ItemsOk(t) && Extends(store, t)
      && WindowOk(t, CondensedWindow(store, w, start, end, content, tokens))
  {
    hide WindowOk, ItemsOk, CondensedStore, CondensedWindow;
    CondensedFoldKeepsOk(store, w, start, end, content, tokens);
    ItemsOkExtends(store, CondensedStore(store, w, start, end, content, tokens));
  }

  lemma LeafTook(p: Pass, before: Store, pid: nat, start: nat, end: nat, content: string, tokens: nat)
    requires StoreOk(before) && WindowOk(before, p.phase.w) && LeafNext(p, start, end)
    requires start < end <= |p.phase.w| && AllMessages(p.phase.w, start, end)
    ensures
      Progress(p, Ok(ALeaf), FoldStep(before, FoldLeaf(pid, start, end, content, tokens)),
               LeafWindow(before, p.phase.w, start, end, content, tokens))
    ensures WindowOk(LeafStore(before, p.phase.w, start, end, content, tokens),
                     LeafWindow(before, p.phase.w, start, end, content, tokens))
  {
    hide StoreOk, NoMessageBlock, IsMessageBlock, LeafStore;
    LeafFoldKeepsOk(before, p.phase.w, start, end, content, tokens);
    ReplaceCounts(p.phase.w, start, end, LeafWindow(before, p.phase.w, start, end, content, tokens)[start], true);
  }

  lemma CondensedTook(p: Pass, before: Store, pid: nat, start: nat, content: string, tokens: nat)
    requires StoreOk(before) && WindowOk(before, p.phase.w) && p.phase.Folding? && CondensedNext(p, start)
    requires RunBlock(p.phase.w, start, start + p.cfg.condenseFanout)
    ensures RowsPresent(before, p, start)
    ensures
      Progress(p, Ok(ACondensed), FoldStep(before, FoldCondensed(pid, start, content, tokens)),
               CondensedWindow(before, p.phase.w, start, start + p.cfg.condenseFanout, content, tokens))
  {
    hide StoreOk, NoMessageBlock, CondensedStore, WindowOk;
    var w, end := p.phase.w, start + p.cfg.condenseFanout;
    CondensedFoldKeepsOk(before, w, start, end, content, tokens);
    ReplaceCounts(w, start, end, CondensedWindow(before, w, start, end, content, tokens)[start], false);
  }

  lemma ValidLimits(cfg: Config)
    requires cfg.Valid()
    ensures cfg.leafTargetTokens > 0 && cfg.condensedTargetTokens > 0 && cfg.truncateTokens > 0
    ensures cfg.condenseFanout >= 2 && cfg.maxIterations > 0
  {
  }

  // The descendants of the listed rows.
  ghost predicate Counted(summaries: map<SummaryId, Summary>, ids: seq<SummaryId>, descendants: nat) {
    (forall c | c in ids :: c in summaries) && descendants == SumDescendants(summaries, ids)
  }

  lemma NothingRead(summaries: map<SummaryId, Summary>)
    ensures Counted(summaries, [], 0) && RowTextsAre(summaries, [], [])
  {
  }

  lemma CountMore(before: map<SummaryId, Summary>, after: map<SummaryId, Summary>, ids: seq<SummaryId>,
                  descendants: nat, s: Summary)
    requires Counted(before, ids, descendants) && forall c | c in before :: c in after && after[c] == before[c]
    requires s.id in after && after[s.id] == s
    ensures Counted(after, ids + [s.id], descendants + s.descendants)
  {
    SameDescendants(before, after, ids);
    assert (ids + [s.id])[..|ids|] == ids;
  }

  lemma {:induction false} SameDescendants(s: map<SummaryId, Summary>, t: map<SummaryId, Summary>, ids: seq<SummaryId>)
    requires forall c | c in ids :: c in s
    requires forall c | c in s :: c in t && t[c] == s[c]
    ensures forall c | c in ids :: c in t
    ensures SumDescendants(t, ids) == SumDescendants(s, ids)
  {
    if ids != [] {
      SameDescendants(s, t, ids[..|ids| - 1]);
    }
  }
}
