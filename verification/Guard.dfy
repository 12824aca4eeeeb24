// The escalating summarizer: a normal attempt, an aggressive attempt, then a
// deterministic truncation, and how large each outcome can be.
module Guard {
  import opened Core
  import opened Tokens

  datatype SummarizeInput = SummarizeInput(kind: SummaryKind, depth: nat, sources: seq<string>, target: int)

  // Any summarizer at all: its answer may depend on the call number, so equal
  // requests may get different texts or errors.
  type Summarizer = (nat, SummarizeInput) -> Result<string>

  datatype Guarded = Guarded(content: string, tokens: nat)

  function SumCounts(sources: seq<string>): nat {
    if sources == [] then 0
    else SumCounts(sources[..|sources| - 1]) + CountSpec(sources[|sources| - 1])
  }

  function Join(sources: seq<string>): string {
    if sources == [] then ""
    else if |sources| == 1 then sources[0]
    else Join(sources[..|sources| - 1]) + "\n" + sources[|sources| - 1]
  }

  function TruncateToTokens(s: string, targetTokens: nat): string {
    if |s| <= targetTokens * 4 then s else s[..targetTokens * 4] + "…"
  }

  function Sized(content: string): Guarded {
    Guarded(content, CountSpec(content))
  }

  // The escalation: the first attempt smaller than the input, else the truncation.
  function Escalated(summarize: Summarizer, call: nat, kind: SummaryKind, depth: nat,
                     sources: seq<string>, target: int, truncateTokens: nat): Result<Guarded>
  {
    match summarize(call, SummarizeInput(kind, depth, sources, target))
    case Err(e) => Err("engine: summarize: " + e)
    case Ok(normal) =>
      if CountSpec(normal) < SumCounts(sources) then Ok(Sized(normal))
      else
        match summarize(call + 1, SummarizeInput(kind, depth, sources, Max(target / 2, truncateTokens)))
        case Err(e) => Err("engine: summarize (aggressive): " + e)
        case Ok(aggressive) =>
          if CountSpec(aggressive) < SumCounts(sources) then Ok(Sized(aggressive))
          else Ok(Sized(TruncateToTokens(Join(sources), truncateTokens)))
  }

  // The escalation as its requests and answers: the full target is asked for first, and a
  // text smaller than the input is final; only otherwise half the target, but no less
  // than the truncation, is asked for; and only when that text is no smaller either, the
  // input itself is returned, cut to size. A request that fails fails the whole.
  ghost predicate Escalates(summarize: Summarizer, call: nat, kind: SummaryKind, depth: nat,
                            sources: seq<string>, target: int, truncateTokens: nat, r: Result<Guarded>)
  {
    var input := SumCounts(sources);
    var first := summarize(call, SummarizeInput(kind, depth, sources, target));
    var half := if target / 2 >= truncateTokens then target / 2 else truncateTokens;
    var second := summarize(call + 1, SummarizeInput(kind, depth, sources, half));
    && (forall e | first == Err(e) :: r == Err("engine: summarize: " + e))
    && (forall t | first == Ok(t) && CountSpec(t) < input :: r == Ok(Guarded(t, CountSpec(t))))
    && (forall t, e | first == Ok(t) && CountSpec(t) >= input && second == Err(e) ::
          r == Err("engine: summarize (aggressive): " + e))
    && (forall t, u | first == Ok(t) && CountSpec(t) >= input && second == Ok(u) && CountSpec(u) < input ::
          r == Ok(Guarded(u, CountSpec(u))))
    && (forall t, u | first == Ok(t) && CountSpec(t) >= input && second == Ok(u) && CountSpec(u) >= input ::
          && r.Ok? && r.value.tokens == CountSpec(r.value.content)
          && CutFrom(Join(sources), truncateTokens, r.value.content))
  }

  // The text itself when it fits, else what fits of it and a mark.
  predicate CutFrom(s: string, targetTokens: nat, cut: string) {
    if |s| <= 4 * targetTokens then cut == s
    else |cut| == 4 * targetTokens + 1 && cut[4 * targetTokens] == '…' && cut[..4 * targetTokens] <= s
  }

  lemma EscalatedEscalates(summarize: Summarizer, call: nat, kind: SummaryKind, depth: nat, sources: seq<string>,
                           target: int, truncateTokens: nat)
    ensures
      Escalates(summarize, call, kind, depth, sources, target, truncateTokens,
                Escalated(summarize, call, kind, depth, sources, target, truncateTokens))
  {
    hide Join, SumCounts, CountSpec;
  }

  method SummarizeWithGuard(summarize: Summarizer, call: nat, kind: SummaryKind, depth: nat,
                            sources: seq<string>, target: int, truncateTokens: nat)
    returns (r: Result<Guarded>)
    ensures r == Escalated(summarize, call, kind, depth, sources, target, truncateTokens)
    ensures Escalates(summarize, call, kind, depth, sources, target, truncateTokens, r)
    ensures r.Ok? ==> SizedFor(r.value, sources, truncateTokens)
  {
    EscalatedEscalates(summarize, call, kind, depth, sources, target, truncateTokens);
    var input := 0;
    for i := 0 to |sources|
      invariant input == SumCounts(sources[..i])
    {
      var t := Count(sources[i]);
      assert sources[..i + 1][..i] == sources[..i];
      input := input + t;
    }
    assert sources[..|sources|] == sources;

    var normal := summarize(call, SummarizeInput(kind, depth, sources, target));
    if normal.Err? {
      return Err("engine: summarize: " + normal.error);
    }
    var tokens := Count(normal.value);
    if tokens < input {
      return Ok(Guarded(normal.value, tokens));
    }
    var aggressive := summarize(call + 1, SummarizeInput(kind, depth, sources, Max(target / 2, truncateTokens)));
    if aggressive.Err? {
      return Err("engine: summarize (aggressive): " + aggressive.error);
    }
    tokens := Count(aggressive.value);
    if tokens < input {
      return Ok(Guarded(aggressive.value, tokens));
    }
    var truncated := TruncateToTokens(Join(sources), truncateTokens);
    tokens := Count(truncated);
    EscalatedSized(summarize, call, kind, depth, sources, target, truncateTokens);
    return Ok(Guarded(truncated, tokens));
  }

  // Joined, the sources follow each other whole, one line break between two.
  lemma {:induction false} JoinedWhole(sources: seq<string>, k: nat)
    requires k < |sources|
    ensures
      Join(sources) == Join(sources[..k]) + (if k == 0 then "" else "\n") + sources[k]
                       + (if k + 1 == |sources| then "" else "\n" + Join(sources[k + 1..]))
    decreases |sources|
  {
    var n := |sources| - 1;
    if k < n {
      JoinedWhole(sources[..n], k);
      assert sources[..n][..k] == sources[..k] && sources[..n][k + 1..] == sources[k + 1..n];
      if k + 1 < n {
        assert sources[k + 1..][..n - k - 1] == sources[k + 1..n];
      } else {
        assert sources[k + 1..] == [sources[n]];
      }
    }
  }

  // A result's size, towards the texts it was written from.
  ghost predicate SizedFor(g: Guarded, sources: seq<string>, truncateTokens: nat) {
    g.tokens == CountSpec(g.content) && (g.tokens < SumCounts(sources) || FallbackSized(g, sources, truncateTokens))
  }

  // Every result is smaller than the input, or sized like the fallback.
  lemma EscalatedSized(summarize: Summarizer, call: nat, kind: SummaryKind, depth: nat, sources: seq<string>,
                       target: int, truncateTokens: nat)
    ensures
      var r := Escalated(summarize, call, kind, depth, sources, target, truncateTokens);
      r.Ok? ==> SizedFor(r.value, sources, truncateTokens)
  {
    TruncationBound(Join(sources), truncateTokens);
    JoinBound(sources);
  }

  // The size promise of the fallback: a bound in the truncation limit alone, and
  // when nothing is cut, at most the separators on top of the input.
  ghost predicate FallbackSized(g: Guarded, sources: seq<string>, truncateTokens: nat) {
    && g.tokens <= (8 * truncateTokens + 6) / 3
    && (|Join(sources)| <= truncateTokens * 4 ==> g.tokens <= SumCounts(sources) + (|sources| + 2) / 4)
  }

  lemma TruncationBound(s: string, targetTokens: nat)
    ensures CountSpec(TruncateToTokens(s, targetTokens)) <= (8 * targetTokens + 6) / 3
  {
    WordsBound(TruncateToTokens(s, targetTokens));
  }

  // Words never merge across a newline, so only the separators' characters cost.
  lemma {:induction false} JoinWords(sources: seq<string>)
    ensures |sources| > 0 ==> |Join(sources)| == SumLengths(sources) + |sources| - 1
    ensures Words(Join(sources)) == SumWords(sources)
    ensures |sources| > 1 ==> Words(Join(sources[..|sources| - 1]) + "\n") == SumWords(sources[..|sources| - 1])
  {
    if |sources| > 1 {
      var init, last := sources[..|sources| - 1], sources[|sources| - 1];
      JoinWords(init);
      var left := Join(init) + "\n";
      assert left[..|left| - 1] == Join(init);
      assert Join(sources) == left + last;
      WordsConcat(left, last);
      if last == "" {
        assert left + last == left;
      }
    } else if |sources| == 1 {
      assert sources[..0] == [];
    }
  }

  function SumLengths(sources: seq<string>): nat {
    if sources == [] then 0
    else SumLengths(sources[..|sources| - 1]) + |sources[|sources| - 1]|
  }

  function SumWords(sources: seq<string>): nat {
    if sources == [] then 0
    else SumWords(sources[..|sources| - 1]) + Words(sources[|sources| - 1])
  }

  lemma {:induction false} SumCountsBelow(sources: seq<string>)
    ensures SumLengths(sources) <= 4 * SumCounts(sources)
    ensures 4 * SumWords(sources) <= 3 * SumCounts(sources)
  {
    if sources != [] {
      SumCountsBelow(sources[..|sources| - 1]);
    }
  }

  lemma JoinBound(sources: seq<string>)
    ensures CountSpec(Join(sources)) <= SumCounts(sources) + (|sources| + 2) / 4
  {
    JoinWords(sources);
    SumCountsBelow(sources);
  }

  // ---- when every result is smaller than the input ----

  ghost predicate AlwaysSmaller(kind: SummaryKind, depth: nat, sources: seq<string>, target: int, truncateTokens: nat) {
    forall summarize: Summarizer, call: nat ::
      var r := Escalated(summarize, call, kind, depth, sources, target, truncateTokens);
      r.Ok? ==> r.value.tokens < SumCounts(sources)
  }

  // Whatever the summarizer answers, every result is smaller than the input exactly
  // when the truncation of the input is.
  lemma AlwaysSmallerExactly(kind: SummaryKind, depth: nat, sources: seq<string>, target: int, truncateTokens: nat)
    ensures AlwaysSmaller(kind, depth, sources, target, truncateTokens)
            <==> CountSpec(TruncateToTokens(Join(sources), truncateTokens)) < SumCounts(sources)
  {
    hide Escalated, CountSpec, SumCounts, TruncateToTokens, Join;
    var long: string := seq(4 * SumCounts(sources), _ => 'a');
    var verbose: Summarizer := (_, _) => Ok(long);
    VerboseFallsBack(verbose, long, kind, depth, sources, target, truncateTokens);
    forall summarize: Summarizer, call: nat {
      SmallerOrTruncated(summarize, call, kind, depth, sources, target, truncateTokens);
    }
  }

  lemma SmallerOrTruncated(summarize: Summarizer, call: nat, kind: SummaryKind, depth: nat, sources: seq<string>,
                           target: int, truncateTokens: nat)
    ensures
      var r := Escalated(summarize, call, kind, depth, sources, target, truncateTokens);
      r.Ok? ==> r.value.tokens < SumCounts(sources)
                || r.value == Sized(TruncateToTokens(Join(sources), truncateTokens))
  {
  }

  // A summarizer that only ever answers with a text as long as the input gets truncated.
  lemma VerboseFallsBack(summarize: Summarizer, long: string, kind: SummaryKind, depth: nat, sources: seq<string>,
                         target: int, truncateTokens: nat)
    requires forall call, input :: summarize(call, input) == Ok(long)
    requires |long| == 4 * SumCounts(sources)
    ensures Escalated(summarize, 0, kind, depth, sources, target, truncateTokens)
            == Ok(Sized(TruncateToTokens(Join(sources), truncateTokens)))
  {
  }

  lemma {:induction false} OneWord(s: string)
    requires s != "" && forall i | 0 <= i < |s| :: !IsSpace(s[i])
    ensures Words(s) == 1
  {
    if |s| > 1 {
      OneWord(s[..|s| - 1]);
    } else {
      assert s[..0] == "";
    }
  }

  // Two short sources: joined they cost a token more than apart.
  lemma FallbackCanGrow()
    ensures
      var sources := ["aaaaaaaa", "aaaaaaaa"];
      SumCounts(sources) == 4 && CountSpec(TruncateToTokens(Join(sources), 512)) == 5
  {
    var sources := ["aaaaaaaa", "aaaaaaaa"];
    assert sources[..1] == ["aaaaaaaa"] && sources[..1][..0] == [] && sources[..0] == [];
    OneWord("aaaaaaaa");
    JoinWords(sources);
  }

  // ---- the truncation bound is attained for every limit ----

  function OneLetterWords(n: nat): string {
    if n == 0 then "" else OneLetterWords(n - 1) + "a "
  }

  lemma {:induction false} OneLetterWordsFacts(n: nat)
    ensures |OneLetterWords(n)| == 2 * n
    ensures Words(OneLetterWords(n)) == n
    ensures n > 0 ==> IsSpace(OneLetterWords(n)[2 * n - 1])
  {
    if n > 0 {
      OneLetterWordsFacts(n - 1);
      WordsConcat(OneLetterWords(n - 1), "a ");
      assert "a "[..1] == "a" && "a"[..0] == "";
      assert Words("a") == 1;
    }
  }

  lemma AtTheBound(n: nat)
    ensures Tokens.Tokens(4 * n + 1, 2 * n + 1) == (8 * n + 6) / 3
  {
  }

  lemma MarkerIsAWord(cut: string)
    requires cut == "" || IsSpace(cut[|cut| - 1])
    ensures CountSpec(cut + "…") == Tokens.Tokens(|cut| + 1, Words(cut) + 1)
  {
    var s := cut + "…";
    assert s[..|s| - 1] == cut && StartsWord(s, |s| - 1);
  }

  lemma CutAtTheLimit(cut: string, n: nat)
    requires |cut| == n * 4
    ensures TruncateToTokens(cut + "a", n) == cut + "…"
  {
    assert (cut + "a")[..n * 4] == cut;
  }

  // One-letter words just past the limit: the fallback costs exactly its bound.
  lemma TruncationBoundAttained(targetTokens: nat)
    ensures CountSpec(TruncateToTokens(OneLetterWords(2 * targetTokens) + "a", targetTokens))
            == (8 * targetTokens + 6) / 3
  {
    OneLetterWordsFacts(2 * targetTokens);
    CutAtTheLimit(OneLetterWords(2 * targetTokens), targetTokens);
    MarkerIsAWord(OneLetterWords(2 * targetTokens));
    AtTheBound(targetTokens);
  }
}
