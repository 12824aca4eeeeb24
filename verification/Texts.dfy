// What a fold is written from: the texts of the messages or summaries it stands for,
// and the guard's answer to them.
module Texts {
  import opened Core
  import opened Config
  import opened Dag
  import opened Window
  import opened Folds
  import opened Guard

  // What a compactor writes with. A message's text is its own or stands for an offloaded
  // one; offloading may fail.
  datatype Scribe = Scribe(cfg: Config, summarize: Summarizer, sourceText: Message -> Result<string>)

  // Every item of the stretch is a message of the log.
  predicate Logged(log: seq<Message>, w: seq<WindowItem>, start: nat, end: nat) {
    start <= end <= |w| && forall k | start <= k < end :: 1 <= w[k].earliest <= |log|
  }

  // The texts of the messages from start to end, in order, or the first failure.
  function BlockTexts(scribe: Scribe, log: seq<Message>, w: seq<WindowItem>, start: nat, end: nat): Result<seq<string>>
    requires Logged(log, w, start, end)
    decreases end
  {
    if end == start then Ok([])
    else
      var before :- BlockTexts(scribe, log, w, start, end - 1);
      var text :- scribe.sourceText(log[w[end - 1].earliest - 1]);
      Ok(before + [text])
  }

  ghost predicate TextsAre(scribe: Scribe, log: seq<Message>, w: seq<WindowItem>, start: nat, end: nat,
                           texts: Result<seq<string>>)
  {
    Logged(log, w, start, end) && BlockTexts(scribe, log, w, start, end) == texts
  }

  function RowTexts(summaries: map<SummaryId, Summary>, ids: seq<SummaryId>): (texts: seq<string>)
    requires forall c | c in ids :: c in summaries
    ensures |texts| == |ids| && forall k | 0 <= k < |ids| :: texts[k] == summaries[ids[k]].content
  {
    seq(|ids|, k requires 0 <= k < |ids| => summaries[ids[k]].content)
  }

  ghost predicate RowTextsAre(summaries: map<SummaryId, Summary>, ids: seq<SummaryId>, texts: seq<string>) {
    (forall c | c in ids :: c in summaries) && texts == RowTexts(summaries, ids)
  }

  // ---- the guard's answer ----

  function LeafAnswer(scribe: Scribe, call: nat, texts: Result<seq<string>>): Result<Guarded>
    requires scribe.cfg.truncateTokens >= 0
  {
    var sources :- texts;
    Escalated(scribe.summarize, call, SummaryKind.Leaf, 0, sources, scribe.cfg.leafTargetTokens,
              scribe.cfg.truncateTokens)
  }

  // A leaf over the block is written as this, or fails like this, when the guard's next
  // call to the summarizer is number `call`.
  ghost predicate LeafAnswers(scribe: Scribe, call: nat, store: Store, w: seq<WindowItem>, start: nat, end: nat,
                              answer: Result<Guarded>)
  {
    && scribe.cfg.truncateTokens >= 0 && Logged(store.log, w, start, end)
    && LeafAnswer(scribe, call, BlockTexts(scribe, store.log, w, start, end)) == answer
  }

  function RunAnswer(scribe: Scribe, call: nat, depth: nat, texts: seq<string>): Result<Guarded>
    requires scribe.cfg.truncateTokens >= 0
  {
    Escalated(scribe.summarize, call, SummaryKind.Condensed, depth, texts, scribe.cfg.condensedTargetTokens,
              scribe.cfg.truncateTokens)
  }

  ghost predicate RunAnswers(scribe: Scribe, call: nat, store: Store, w: seq<WindowItem>, start: nat, end: nat,
                             answer: Result<Guarded>)
  {
    && scribe.cfg.truncateTokens >= 0 && start < end <= |w| && AllSummaries(w, start, end)
    && (forall c | c in BlockSummaries(w, start, end) :: c in store.summaries)
    && RunAnswer(scribe, call, w[start].depth + 1, RowTexts(store.summaries, BlockSummaries(w, start, end))) == answer
  }

  // The texts are the messages' own, one for each message and in order; the failure is the
  // first one's.
  lemma {:induction false} BlockTextsAre(scribe: Scribe, log: seq<Message>, w: seq<WindowItem>, start: nat, end: nat)
    requires Logged(log, w, start, end)
    ensures
      match BlockTexts(scribe, log, w, start, end)
      case Ok(texts) =>
        && |texts| == end - start
        && forall k | start <= k < end :: scribe.sourceText(log[w[k].earliest - 1]) == Ok(texts[k - start])
      case Err(error) =>
        exists k: nat | start <= k < end ::
          && scribe.sourceText(log[w[k].earliest - 1]) == Err(error)
          && forall j | start <= j < k :: scribe.sourceText(log[w[j].earliest - 1]).Ok?
    decreases end
  {
    if start < end {
      BlockTextsAre(scribe, log, w, start, end - 1);
    }
  }

  // A leaf is asked for at depth 0 with the leaf target; a condensed summary one level
  // above its run, with the condensed one.
  lemma LeafAnswersEscalate(scribe: Scribe, call: nat, store: Store, w: seq<WindowItem>, start: nat, end: nat,
                            answer: Result<Guarded>)
    requires LeafAnswers(scribe, call, store, w, start, end, answer)
    ensures
      match BlockTexts(scribe, store.log, w, start, end)
      case Err(error) => answer == Err(error)
      case Ok(texts) =>
        Escalates(scribe.summarize, call, SummaryKind.Leaf, 0, texts, scribe.cfg.leafTargetTokens,
                  scribe.cfg.truncateTokens, answer)
  {
    var texts := BlockTexts(scribe, store.log, w, start, end);
    if texts.Ok? {
      EscalatedEscalates(scribe.summarize, call, SummaryKind.Leaf, 0, texts.value, scribe.cfg.leafTargetTokens,
                         scribe.cfg.truncateTokens);
    }
  }

  lemma RunAnswersEscalate(scribe: Scribe, call: nat, store: Store, w: seq<WindowItem>, start: nat, end: nat,
                           answer: Result<Guarded>)
    requires RunAnswers(scribe, call, store, w, start, end, answer)
    ensures
      Escalates(scribe.summarize, call, SummaryKind.Condensed, w[start].depth + 1,
                RowTexts(store.summaries, BlockSummaries(w, start, end)), scribe.cfg.condensedTargetTokens,
                scribe.cfg.truncateTokens, answer)
  {
    EscalatedEscalates(scribe.summarize, call, SummaryKind.Condensed, w[start].depth + 1,
                       RowTexts(store.summaries, BlockSummaries(w, start, end)), scribe.cfg.condensedTargetTokens,
                       scribe.cfg.truncateTokens);
  }

  lemma LeafAnswersSized(scribe: Scribe, call: nat, store: Store, w: seq<WindowItem>, start: nat, end: nat, g: Guarded)
    requires LeafAnswers(scribe, call, store, w, start, end, Ok(g))
    ensures BlockTexts(scribe, store.log, w, start, end).Ok?
    ensures SizedFor(g, BlockTexts(scribe, store.log, w, start, end).value, scribe.cfg.truncateTokens)
  {
    var texts := BlockTexts(scribe, store.log, w, start, end).value;
    EscalatedSized(scribe.summarize, call, SummaryKind.Leaf, 0, texts, scribe.cfg.leafTargetTokens,
                   scribe.cfg.truncateTokens);
  }

  lemma RunAnswersSized(scribe: Scribe, call: nat, store: Store, w: seq<WindowItem>, start: nat, end: nat, g: Guarded)
    requires RunAnswers(scribe, call, store, w, start, end, Ok(g))
    ensures SizedFor(g, RowTexts(store.summaries, BlockSummaries(w, start, end)), scribe.cfg.truncateTokens)
  {
    EscalatedSized(scribe.summarize, call, SummaryKind.Condensed, w[start].depth + 1,
                   RowTexts(store.summaries, BlockSummaries(w, start, end)), scribe.cfg.condensedTargetTokens,
                   scribe.cfg.truncateTokens);
  }

  // ---- reading while the store grows ----

  lemma NoTextsYet(scribe: Scribe, log: seq<Message>, w: seq<WindowItem>, start: nat)
    requires start <= |w|
    ensures TextsAre(scribe, log, w, start, start, Ok([]))
  {
  }

  // Messages never change, so the texts read so far stay what they were.
  lemma {:induction false} TextsKept(scribe: Scribe, s: seq<Message>, t: seq<Message>, w: seq<WindowItem>,
                                     start: nat, end: nat, texts: Result<seq<string>>)
    requires TextsAre(scribe, s, w, start, end, texts) && s <= t
    ensures TextsAre(scribe, t, w, start, end, texts)
    decreases end
  {
    if start < end {
      TextsKept(scribe, s, t, w, start, end - 1, BlockTexts(scribe, s, w, start, end - 1));
    }
  }

  lemma TextRead(scribe: Scribe, s: seq<Message>, t: seq<Message>, w: seq<WindowItem>, start: nat, i: nat,
                 texts: seq<string>, text: Result<string>)
    requires TextsAre(scribe, s, w, start, i, Ok(texts)) && s <= t && i < |w| && 1 <= w[i].earliest <= |t|
    requires text == scribe.sourceText(t[w[i].earliest - 1])
    ensures TextsAre(scribe, t, w, start, i + 1, if text.Ok? then Ok(texts + [text.value]) else Err(text.error))
  {
    TextsKept(scribe, s, t, w, start, i, Ok(texts));
  }

  // A failure ends the reading.
  lemma {:induction false} TextsFail(scribe: Scribe, log: seq<Message>, w: seq<WindowItem>, start: nat, i: nat,
                                     end: nat, error: string)
    requires TextsAre(scribe, log, w, start, i, Err(error)) && i <= end && Logged(log, w, start, end)
    ensures TextsAre(scribe, log, w, start, end, Err(error))
    decreases end
  {
    if i < end {
      TextsFail(scribe, log, w, start, i, end - 1, error);
    }
  }

  lemma LeafAnswersKept(scribe: Scribe, call: nat, s: Store, t: Store, w: seq<WindowItem>, start: nat, end: nat,
                        answer: Result<Guarded>)
    requires LeafAnswers(scribe, call, s, w, start, end, answer) && Extends(s, t)
    ensures LeafAnswers(scribe, call, t, w, start, end, answer)
  {
    TextsKept(scribe, s.log, t.log, w, start, end, BlockTexts(scribe, s.log, w, start, end));
  }

  lemma RowTextRead(s: map<SummaryId, Summary>, t: map<SummaryId, Summary>, ids: seq<SummaryId>, texts: seq<string>,
                    row: Summary)
    requires RowTextsAre(s, ids, texts) && (forall c | c in s :: c in t && t[c] == s[c])
    requires row.id in t && t[row.id] == row
    ensures RowTextsAre(t, ids + [row.id], texts + [row.content])
  {
    RowTextsKept(s, t, ids, texts);
  }

  lemma RowTextsKept(s: map<SummaryId, Summary>, t: map<SummaryId, Summary>, ids: seq<SummaryId>, texts: seq<string>)
    requires RowTextsAre(s, ids, texts) && (forall c | c in s :: c in t && t[c] == s[c])
    ensures RowTextsAre(t, ids, texts)
  {
    assert RowTexts(t, ids) == texts;
  }

  lemma RunAnswersKept(scribe: Scribe, call: nat, s: Store, t: Store, w: seq<WindowItem>, start: nat, end: nat,
                       answer: Result<Guarded>)
    requires RunAnswers(scribe, call, s, w, start, end, answer) && Extends(s, t)
    ensures RunAnswers(scribe, call, t, w, start, end, answer)
  {
    var ids := BlockSummaries(w, start, end);
    RowTextsKept(s.summaries, t.summaries, ids, RowTexts(s.summaries, ids));
  }

  lemma BlockIsLogged(store: Store, w: seq<WindowItem>, start: nat, end: nat)
    requires WindowOk(store, w) && start <= end <= |w| && AllMessages(w, start, end)
    ensures Logged(store.log, w, start, end)
  {
    forall k | start <= k < end
      ensures 1 <= w[k].earliest <= |store.log|
    {
      assert ItemOk(store, w[k]);
    }
  }
}
