/**
 * The original command-line scanner the app grew out of. It follows the
 * same gain and condition rules as the analysis engine, with the settings
 * as module constants, but it also records which conditions each symbol met,
 * pauses after every kept symbol, has no guard around the scan, and ranks
 * the results.
 */
module ReferenceOriginal {
  import opened Wrappers
  import opened AnalysisCore

  const MIN_CHANGE_PERCENT: real := 100.0
  const LIQUIDITY_THRESHOLD_USDT: real := 1000000.0
  const MAX_ANALYZE_SYMBOLS: int := 500
  const REQUEST_DELAY: real := 0.15
  const REFERENCE_SETTINGS: AnalyzerSettings :=
    AnalyzerSettings(MIN_CHANGE_PERCENT, LIQUIDITY_THRESHOLD_USDT, MAX_ANALYZE_SYMBOLS, 3600, REQUEST_DELAY)

  /** The script's constants are the analysis engine's defaults. */
  lemma ReferenceSettingsAreDefaults()
    ensures REFERENCE_SETTINGS == DEFAULT_SETTINGS
  {
  }

  /** One ranked row: the gains, the conditions met and how many there are. */
  datatype RankedResult = RankedResult(symbol: string, gains: Gains, conditions: seq<Condition>, conditionsCount: int)

  function ToRanked(item: ResultItem): (r: RankedResult)
  {
    var conditions := CheckConditions(Some(item.gains), MIN_CHANGE_PERCENT);
    RankedResult(item.symbol, item.gains, conditions, |conditions|)
  }

  function ToRankedAll(items: seq<ResultItem>): (r: seq<RankedResult>)
    ensures |r| == |items| && forall i :: 0 <= i < |items| ==> r[i] == ToRanked(items[i])
  {
    seq(|items|, i requires 0 <= i < |items| => ToRanked(items[i]))
  }

  /** The sort key `(conditions_count, gain_3d)`, compared lexicographically. */
  predicate KeyAtMost(a: RankedResult, b: RankedResult)
  {
    a.conditionsCount < b.conditionsCount || (a.conditionsCount == b.conditionsCount && a.gains.gain3d <= b.gains.gain3d)
  }

  /** Descending by the key: more conditions first, then the larger three-day gain. */
  predicate SortedDescending(xs: seq<RankedResult>)
  {
    forall i, j :: 0 <= i < j < |xs| ==> KeyAtMost(xs[j], xs[i])
  }

  /** Place `x` before the first entry whose key it reaches, so it stays ahead of equal keys that came after it. */
  function Insert(x: RankedResult, ys: seq<RankedResult>): (r: seq<RankedResult>)
    ensures multiset(r) == multiset(ys) + multiset{x}
    ensures |r| == |ys| + 1
  {
    if ys == [] || KeyAtMost(ys[0], x) then [x] + ys
    else
      assert ys == [ys[0]] + ys[1..];
      [ys[0]] + Insert(x, ys[1..])
  }

  /**
   * `results.sort(key=(conditions_count, gain_3d), reverse=True)`: each
   * row is inserted ahead of the equal keys that follow it in the input.
   */
  function SortByRank(xs: seq<RankedResult>): (r: seq<RankedResult>)
    ensures multiset(r) == multiset(xs)
    ensures |r| == |xs|
  {
    if xs == [] then []
    else
      assert xs == [xs[0]] + xs[1..];
      Insert(xs[0], SortByRank(xs[1..]))
  }

  lemma {:induction false} InsertSorted(x: RankedResult, ys: seq<RankedResult>)
    requires SortedDescending(ys)
    ensures SortedDescending(Insert(x, ys))
    decreases |ys|
  {
    if ys != [] && !KeyAtMost(ys[0], x) {
      var tail := ys[1..];
      InsertSorted(x, tail);
      InsertMembers(x, tail);
      var r := Insert(x, ys);
      var rest := Insert(x, tail);
      assert r == [ys[0]] + rest;
      forall j | 0 < j < |r| ensures KeyAtMost(r[j], r[0]) {
        assert r[j] == rest[j - 1];
        if r[j] != x {
          var k :| 0 <= k < |tail| && tail[k] == r[j];
          assert ys[k + 1] == r[j];
        }
      }
    }
  }

  /** Inserting adds `x` and nothing else. */
  lemma {:induction false} InsertMembers(x: RankedResult, ys: seq<RankedResult>)
    ensures forall i :: 0 <= i < |Insert(x, ys)| ==>
      Insert(x, ys)[i] == x || exists k :: 0 <= k < |ys| && ys[k] == Insert(x, ys)[i]
    decreases |ys|
  {
    if ys != [] && !KeyAtMost(ys[0], x) {
      InsertMembers(x, ys[1..]);
      var r := Insert(x, ys);
      forall i | 0 < i < |r| ensures r[i] == x || exists k :: 0 <= k < |ys| && ys[k] == r[i] {
        assert r[i] == Insert(x, ys[1..])[i - 1];
        if r[i] != x {
          var k :| 0 <= k < |ys[1..]| && ys[1..][k] == r[i];
          assert ys[k + 1] == r[i];
        }
      }
      assert r[0] == ys[0];
    }
  }

  /** The ranking puts the results in descending key order and neither adds nor drops a row. */
  lemma {:induction false} SortByRankSpec(xs: seq<RankedResult>)
    ensures SortedDescending(SortByRank(xs))
    ensures multiset(SortByRank(xs)) == multiset(xs)
    decreases |xs|
  {
    if xs != [] {
      SortByRankSpec(xs[1..]);
      InsertSorted(xs[0], SortByRank(xs[1..]));
    }
  }

  /** What `analyze_symbols` ends with: ranked rows, or the exception the unguarded scan lets escape. */
  datatype ReferenceOutcome = Ranked(results: seq<RankedResult>) | Raised(message: string)

  /** The candidates the script scans: its liquid list capped at `MAX_ANALYZE_SYMBOLS`. */
  function ReferenceCandidates(liquid: seq<string>): (r: seq<string>)
    ensures |r| <= MAX_ANALYZE_SYMBOLS
    ensures r == liquid[..PrefixLen(|liquid|, MAX_ANALYZE_SYMBOLS)]
  {
    Truncate(liquid, MAX_ANALYZE_SYMBOLS)
  }

  function ReferenceAnalysis(liquid: seq<string>, bars: map<string, seq<BarsAnswer>>): ReferenceOutcome
  {
    if liquid == [] then Ranked([])
    else match Scan(ReferenceCandidates(liquid), bars, MIN_CHANGE_PERCENT)
      case Faulted(m) => Raised(m)
      case Scanned(rs) => Ranked(SortByRank(ToRankedAll(rs)))
  }

  /**
   * The ranked rows are exactly the scanned rows, each with the conditions
   * it met (one to three of them) and their count, in descending key order.
   */
  lemma ReferenceAnalysisSpec(liquid: seq<string>, bars: map<string, seq<BarsAnswer>>)
    requires ReferenceAnalysis(liquid, bars).Ranked?
    ensures var out := ReferenceAnalysis(liquid, bars).results;
      && SortedDescending(out)
      && (liquid != [] ==>
            multiset(out) == multiset(ToRankedAll(Scan(ReferenceCandidates(liquid), bars, MIN_CHANGE_PERCENT).results)))
      && |out| <= MAX_ANALYZE_SYMBOLS
      && forall r :: r in out ==>
           && r.conditions == CheckConditions(Some(r.gains), MIN_CHANGE_PERCENT)
           && r.conditionsCount == |r.conditions|
           && 1 <= r.conditionsCount <= 3
  {
    if liquid != [] {
      var cands := ReferenceCandidates(liquid);
      var rs := Scan(cands, bars, MIN_CHANGE_PERCENT).results;
      var ranked := ToRankedAll(rs);
      ScanSpec(cands, bars, MIN_CHANGE_PERCENT);
      SubsequenceLength(ResultSymbols(rs), cands);
      SortByRankSpec(ranked);
      RankedRowsSpec(rs);
      var out := SortByRank(ranked);
      assert ReferenceAnalysis(liquid, bars).results == out;
      forall r | r in out ensures r in ranked {
        assert r in multiset(out);
      }
    }
  }

  /** Every ranked row carries the conditions its gains meet and their count, which is one to three. */
  lemma RankedRowsSpec(rs: seq<ResultItem>)
    requires forall i :: 0 <= i < |rs| ==> CheckConditions(Some(rs[i].gains), MIN_CHANGE_PERCENT) != []
    ensures forall r :: r in ToRankedAll(rs) ==>
      && r.conditions == CheckConditions(Some(r.gains), MIN_CHANGE_PERCENT)
      && r.conditionsCount == |r.conditions|
      && 1 <= r.conditionsCount <= 3
  {
    forall r | r in ToRankedAll(rs)
      ensures r.conditions == CheckConditions(Some(r.gains), MIN_CHANGE_PERCENT)
      ensures r.conditionsCount == |r.conditions| && 1 <= r.conditionsCount <= 3
    {
      var i :| 0 <= i < |rs| && ToRankedAll(rs)[i] == r;
      ConditionsAtMostThree(rs[i].gains, MIN_CHANGE_PERCENT);
    }
  }

  lemma ConditionsAtMostThree(g: Gains, minChangePercent: real)
    ensures |CheckConditions(Some(g), minChangePercent)| <= 3
  {
  }

  /**
   * The script's scan loop. `delays` counts the `REQUEST_DELAY` pauses: one
   * after each appended row, none for a skipped symbol.
   */
  method AnalyzeSymbols(liquid: seq<string>, bars: map<string, seq<BarsAnswer>>)
    returns (outcome: ReferenceOutcome, delays: nat)
    ensures outcome == ReferenceAnalysis(liquid, bars)
    ensures outcome.Ranked? ==> delays == |outcome.results|
  {
    delays := 0;
    if liquid == [] {
      return Ranked([]), 0;
    }
    var candidates := liquid;
    if |candidates| > MAX_ANALYZE_SYMBOLS {
      candidates := candidates[..MAX_ANALYZE_SYMBOLS];
    }
    assert candidates == ReferenceCandidates(liquid);
    var results: seq<RankedResult> := [];
    ghost var items: seq<ResultItem> := [];
    var i := 0;
    while i < |candidates|
      invariant 0 <= i <= |candidates|
      invariant Scan(candidates[..i], bars, MIN_CHANGE_PERCENT) == Scanned(items)
      invariant results == ToRankedAll(items)
      invariant delays == |items|
    {
      ScanOneMore(candidates, i, bars, MIN_CHANGE_PERCENT);
      var step := ScanOne(candidates[i], BarsAnswersFor(bars, candidates[i]), MIN_CHANGE_PERCENT);
      match step {
        case Raise(m) =>
          ScanFaultPropagates(candidates, i + 1, bars, MIN_CHANGE_PERCENT);
          return Raised(m), delays;
        case Keep(item) =>
          RankedAppend(items, item);
          results := results + [ToRanked(item)];
          items := items + [item];
          delays := delays + 1;
        case Skip =>
      }
      i := i + 1;
    }
    assert candidates[..|candidates|] == candidates;
    outcome := Ranked(SortByRank(results));
  }

  lemma RankedAppend(items: seq<ResultItem>, item: ResultItem)
    ensures ToRankedAll(items + [item]) == ToRankedAll(items) + [ToRanked(item)]
  {
  }

  /**
   * After three failed ticker requests the script falls back to at most
   * `MAX_ANALYZE_SYMBOLS` of the active symbols, all of them when there are fewer.
   */
  lemma FallbackCapped(active: set<string>, answers: seq<Option<seq<Ticker>>>, liquid: seq<string>)
    requires active != {}
    requires LiquidSpec(active, REFERENCE_SETTINGS, answers, liquid)
    requires TickerOutcome(answers).None?
    ensures |liquid| == if |active| < MAX_ANALYZE_SYMBOLS then |active| else MAX_ANALYZE_SYMBOLS
    ensures forall s :: s in liquid ==> s in active
  {
  }
}
