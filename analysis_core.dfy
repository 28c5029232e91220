/**
 * The analysis engine: the cached universe of tradable perpetual contracts,
 * the liquidity filter over a 24-hour ticker snapshot, the multi-day gain
 * rules, and the run that scans every candidate and returns a result bundle.
 * The exchange's HTTP endpoints, the cache file and the clock are inputs.
 */
module AnalysisCore {
  import opened Wrappers
  import opened Sequences

  /** The five analyzer settings. */
  datatype AnalyzerSettings = AnalyzerSettings(
    minChangePercent: real,
    liquidityThreshold: real,
    maxAnalyzeSymbols: int,
    cacheExpiry: int,
    requestDelay: real)

  const DEFAULT_SETTINGS: AnalyzerSettings := AnalyzerSettings(100.0, 1000000.0, 500, 3600, 0.15)

  // ---------------------------------------------------------------------
  // Gain rules
  // ---------------------------------------------------------------------

  /** One daily bar; only the open and close prices enter the computation. */
  datatype Bar = Bar(open: real, close: real)

  /** Fractional returns over one, two and three days (0.5 is +50%). */
  datatype Gains = Gains(gain1d: real, gain2d: real, gain3d: real)

  /** Fewer than three bars gives `None` in the source; a zero open price raises `ZeroDivisionError`. */
  datatype GainsOutcome = TooFewBars | ZeroOpen | Computed(gains: Gains)

  /**
   * The returns of the last three bars, `[day before, yesterday, today]`:
   * each gain is today's close over one of the three opens, minus one.
   */
  function CalculateGains(bars: seq<Bar>): (r: GainsOutcome)
    ensures r.TooFewBars? <==> |bars| < 3
    ensures r.ZeroOpen? <==>
      |bars| >= 3 && (bars[|bars| - 1].open == 0.0 || bars[|bars| - 2].open == 0.0 || bars[|bars| - 3].open == 0.0)
    ensures r.Computed? ==>
      var n := |bars|;
      && (1.0 + r.gains.gain1d) * bars[n - 1].open == bars[n - 1].close
      && (1.0 + r.gains.gain2d) * bars[n - 2].open == bars[n - 1].close
      && (1.0 + r.gains.gain3d) * bars[n - 3].open == bars[n - 1].close
  {
    if |bars| < 3 then TooFewBars
    else
      var today, yesterday, dayBefore := bars[|bars| - 1], bars[|bars| - 2], bars[|bars| - 3];
      if today.open == 0.0 || yesterday.open == 0.0 || dayBefore.open == 0.0 then ZeroOpen
      else Computed(Gains(today.close / today.open - 1.0, today.close / yesterday.open - 1.0,
                          today.close / dayBefore.open - 1.0))
  }

  /** The window of the module test: opens 100, 150, 200 and a last close of 300. */
  lemma TestWindowGains()
    ensures CalculateGains([Bar(100.0, 150.0), Bar(150.0, 200.0), Bar(200.0, 300.0)])
         == Computed(Gains(0.5, 1.0, 2.0))
  {
  }

  datatype Condition = A | B | C

  /** Position of a condition in the order the rules are checked. */
  function Rank(c: Condition): nat
  {
    match c
    case A => 0
    case B => 1
    case C => 2
  }

  /** The gain a condition tests: A the one-day, B the two-day, C the three-day gain. */
  function GainOf(g: Gains, c: Condition): real
  {
    match c
    case A => g.gain1d
    case B => g.gain2d
    case C => g.gain3d
  }

  /**
   * The conditions met: a condition holds when its gain reaches the threshold
   * `minChangePercent / 100`, boundary included; listed in the order A, B, C.
   */
  function CheckConditions(gains: Option<Gains>, minChangePercent: real): (r: seq<Condition>)
    ensures gains.None? ==> r == []
    ensures forall c :: c in r <==> gains.Some? && GainOf(gains.value, c) >= minChangePercent / 100.0
    ensures forall i, j :: 0 <= i < j < |r| ==> Rank(r[i]) < Rank(r[j])
  {
    match gains
    case None => []
    case Some(g) =>
      var threshold := minChangePercent / 100.0;
      (if g.gain1d >= threshold then [A] else [])
      + (if g.gain2d >= threshold then [B] else [])
      + (if g.gain3d >= threshold then [C] else [])
  }

  /** With a 100% threshold the test window meets B (exactly at the boundary) and C, not A. */
  lemma TestWindowConditions()
    ensures CheckConditions(Some(Gains(0.5, 1.0, 2.0)), 100.0) == [B, C]
  {
  }

  // ---------------------------------------------------------------------
  // Instrument cache
  // ---------------------------------------------------------------------

  datatype Instrument = Instrument(symbol: string, status: string, contractType: string)

  predicate IsActivePerpetual(x: Instrument)
  {
    x.status == "TRADING" && x.contractType == "PERPETUAL"
  }

  /** The symbols of the trading perpetual contracts, in listing order. */
  function ActivePerpetuals(xs: seq<Instrument>): seq<string>
    decreases |xs|
  {
    if xs == [] then []
    else ActivePerpetuals(xs[..|xs| - 1]) + (if IsActivePerpetual(xs[|xs| - 1]) then [xs[|xs| - 1].symbol] else [])
  }

  /** A symbol is kept exactly when some listed instrument with that symbol is trading and perpetual. */
  lemma {:induction false} ActivePerpetualsMembers(xs: seq<Instrument>)
    ensures forall s :: s in ActivePerpetuals(xs) <==>
      exists i :: 0 <= i < |xs| && IsActivePerpetual(xs[i]) && xs[i].symbol == s
    decreases |xs|
  {
    if xs != [] {
      var init := xs[..|xs| - 1];
      ActivePerpetualsMembers(init);
      forall s ensures s in ActivePerpetuals(xs) <==>
        exists i :: 0 <= i < |xs| && IsActivePerpetual(xs[i]) && xs[i].symbol == s
      {
        if s in ActivePerpetuals(xs) && s !in ActivePerpetuals(init) {
          assert IsActivePerpetual(xs[|xs| - 1]) && xs[|xs| - 1].symbol == s;
        }
        if exists i :: 0 <= i < |xs| && IsActivePerpetual(xs[i]) && xs[i].symbol == s {
          var i :| 0 <= i < |xs| && IsActivePerpetual(xs[i]) && xs[i].symbol == s;
          if i < |xs| - 1 {
            assert init[i] == xs[i];
          }
        }
      }
    }
  }

  /** The loop over the exchange listing that collects the trading perpetual symbols. */
  method FilterActive(xs: seq<Instrument>) returns (symbols: seq<string>)
    ensures symbols == ActivePerpetuals(xs)
  {
    symbols := [];
    var i := 0;
    while i < |xs|
      invariant 0 <= i <= |xs|
      invariant symbols == ActivePerpetuals(xs[..i])
    {
      assert xs[..i + 1][..i] == xs[..i];
      if IsActivePerpetual(xs[i]) {
        symbols := symbols + [xs[i].symbol];
      }
      i := i + 1;
    }
    assert xs[..|xs|] == xs;
  }

  /**
   * The cache file as `json.load` sees it: absent, not loadable as an
   * object, or an object whose "timestamp" and "symbols" keys may be missing.
   */
  datatype CacheFile = NoCacheFile | UnreadableCache | CacheRecord(timestamp: Option<int>, symbols: Option<seq<string>>)

  /** Usable without refetching: readable, has symbols, and strictly younger than the expiry (missing timestamp = 0). */
  predicate IsFresh(cache: CacheFile, now: int, expiry: int)
  {
    cache.CacheRecord? && cache.symbols.Some? && now - cache.timestamp.GetOr(0) < expiry
  }

  function SetOf(xs: seq<string>): (s: set<string>)
    ensures forall x :: x in s <==> x in xs
  {
    set x | x in xs
  }

  /** The symbols a lookup returns and the cache file it leaves. */
  datatype CacheLookup = CacheLookup(symbols: set<string>, cache: CacheFile)

  /**
   * One `get_active_symbols` call at time `now`; `fetched` is the exchange
   * listing, or `None` when the request or its decoding failed.
   */
  function ActiveSymbols(cache: CacheFile, now: int, expiry: int, fetched: Option<seq<Instrument>>): (r: CacheLookup)
    ensures IsFresh(cache, now, expiry) ==> r == CacheLookup(SetOf(cache.symbols.value), cache)
    ensures !IsFresh(cache, now, expiry) && fetched.Some? ==>
      && r.cache == CacheRecord(Some(now), Some(ActivePerpetuals(fetched.value)))
      && forall s :: s in r.symbols <==> s in ActivePerpetuals(fetched.value)
    ensures !IsFresh(cache, now, expiry) && fetched.None? ==>
      && r.cache == cache
      && r.symbols == if cache.CacheRecord? then SetOf(cache.symbols.GetOr([])) else {}
  {
    if IsFresh(cache, now, expiry) then CacheLookup(SetOf(cache.symbols.value), cache)
    else match fetched
      case Some(listing) =>
        var active := ActivePerpetuals(listing);
        CacheLookup(SetOf(active), CacheRecord(Some(now), Some(active)))
      case None =>
        CacheLookup(if cache.CacheRecord? then SetOf(cache.symbols.GetOr([])) else {}, cache)
  }

  /** After a successful refetch at `now`, the cache it wrote is fresh for every later call strictly within the expiry. */
  lemma RefetchIsFreshWithinExpiry(cache: CacheFile, now: int, expiry: int, listing: seq<Instrument>, later: int)
    requires !IsFresh(cache, now, expiry)
    requires later - now < expiry
    ensures IsFresh(ActiveSymbols(cache, now, expiry, Some(listing)).cache, later, expiry)
  {
  }

  /**
   * Two lookups with nothing refetched in between agree: once a lookup has
   * left a cache that is fresh at the second call, the second call returns
   * the same symbols whatever the exchange would answer, and leaves the cache alone.
   */
  lemma LookupIdempotent(cache: CacheFile, t1: int, t2: int, expiry: int,
                         f1: Option<seq<Instrument>>, f2: Option<seq<Instrument>>)
    requires var first := ActiveSymbols(cache, t1, expiry, f1);
      IsFresh(first.cache, t2, expiry) && (first.cache != cache || IsFresh(cache, t1, expiry))
    ensures ActiveSymbols(ActiveSymbols(cache, t1, expiry, f1).cache, t2, expiry, f2)
         == ActiveSymbols(cache, t1, expiry, f1)
  {
    var first := ActiveSymbols(cache, t1, expiry, f1);
    if !IsFresh(cache, t1, expiry) {
      var active := ActivePerpetuals(f1.value);
      assert first.cache == CacheRecord(Some(t1), Some(active));
      assert SetOf(first.cache.symbols.value) == first.symbols;
    }
  }

  // ---------------------------------------------------------------------
  // Liquidity filter
  // ---------------------------------------------------------------------

  /** One ticker entry: an empty symbol stands for a missing one, `None` for a missing or unparsable quote volume. */
  datatype Ticker = Ticker(symbol: string, quoteVolume: Option<real>)

  predicate IsLiquid(t: Ticker, active: set<string>, threshold: real)
  {
    t.symbol != "" && t.symbol in active && t.quoteVolume.Some? && t.quoteVolume.value >= threshold
  }

  function TickerSymbols(ts: seq<Ticker>): (r: seq<string>)
    ensures |r| == |ts| && forall i :: 0 <= i < |ts| ==> r[i] == ts[i].symbol
  {
    seq(|ts|, i requires 0 <= i < |ts| => ts[i].symbol)
  }

  /** The symbols of the liquid active tickers, in snapshot order. */
  function LiquidOf(ts: seq<Ticker>, active: set<string>, threshold: real): seq<string>
    decreases |ts|
  {
    if ts == [] then []
    else
      LiquidOf(ts[..|ts| - 1], active, threshold)
      + (if IsLiquid(ts[|ts| - 1], active, threshold) then [ts[|ts| - 1].symbol] else [])
  }

  /**
   * The filter keeps exactly the active symbols whose ticker reports a quote
   * volume at or above the threshold, in the snapshot's order.
   */
  lemma {:induction false} LiquidOfSpec(ts: seq<Ticker>, active: set<string>, threshold: real)
    ensures forall s :: s in LiquidOf(ts, active, threshold) ==> s in active
    ensures forall s :: s in LiquidOf(ts, active, threshold) <==>
      exists i :: 0 <= i < |ts| && IsLiquid(ts[i], active, threshold) && ts[i].symbol == s
    ensures IsSubsequence(LiquidOf(ts, active, threshold), TickerSymbols(ts))
    decreases |ts|
  {
    if ts == [] {
      EmptySubsequence(TickerSymbols(ts));
    } else {
      var init := ts[..|ts| - 1];
      var last := ts[|ts| - 1];
      LiquidOfSpec(init, active, threshold);
      assert TickerSymbols(ts) == TickerSymbols(init) + [last.symbol];
      SubsequenceExtend(LiquidOf(init, active, threshold), TickerSymbols(init), last.symbol,
                        IsLiquid(last, active, threshold));
      forall s ensures s in LiquidOf(ts, active, threshold) <==>
        exists i :: 0 <= i < |ts| && IsLiquid(ts[i], active, threshold) && ts[i].symbol == s
      {
        if exists i :: 0 <= i < |ts| && IsLiquid(ts[i], active, threshold) && ts[i].symbol == s {
          var i :| 0 <= i < |ts| && IsLiquid(ts[i], active, threshold) && ts[i].symbol == s;
          if i < |ts| - 1 {
            assert init[i] == ts[i];
          }
        }
      }
    }
  }

  /** The loop over the snapshot that collects the liquid active symbols. */
  method FilterLiquid(ts: seq<Ticker>, active: set<string>, threshold: real) returns (liquid: seq<string>)
    ensures liquid == LiquidOf(ts, active, threshold)
  {
    liquid := [];
    var i := 0;
    while i < |ts|
      invariant 0 <= i <= |ts|
      invariant liquid == LiquidOf(ts[..i], active, threshold)
    {
      assert ts[..i + 1][..i] == ts[..i];
      var t := ts[i];
      if t.symbol != "" && t.symbol in active && t.quoteVolume.Some? {
        if t.quoteVolume.value >= threshold {
          liquid := liquid + [t.symbol];
        }
      }
      i := i + 1;
    }
    assert ts[..|ts|] == ts;
  }

  /** How many times the ticker snapshot is requested at most. */
  const TICKER_ATTEMPTS: nat := 3

  /** The answer to request number `k`; requests past the given answers fail. */
  function AttemptAt<T>(answers: seq<Option<T>>, k: nat): Option<T>
  {
    if k < |answers| then answers[k] else None
  }

  /** The snapshot the retry loop ends with: the first of the three answers that succeeded. */
  function TickerOutcome(answers: seq<Option<seq<Ticker>>>): Option<seq<Ticker>>
  {
    if AttemptAt(answers, 0).Some? then AttemptAt(answers, 0)
    else if AttemptAt(answers, 1).Some? then AttemptAt(answers, 1)
    else AttemptAt(answers, 2)
  }

  /** Answers after the third request never matter, and the loop fails only when all three requests fail. */
  lemma TickerRetryBound(answers: seq<Option<seq<Ticker>>>, later: seq<Option<seq<Ticker>>>)
    requires |answers| >= TICKER_ATTEMPTS
    ensures TickerOutcome(answers + later) == TickerOutcome(answers)
    ensures TickerOutcome(answers).None? <==> forall k :: 0 <= k < TICKER_ATTEMPTS ==> answers[k].None?
  {
    assert forall k :: 0 <= k < TICKER_ATTEMPTS ==> (answers + later)[k] == answers[k];
  }

  /** The retry loop: request the snapshot until one request succeeds, at most three times. */
  method FetchTickers(answers: seq<Option<seq<Ticker>>>) returns (tickers: Option<seq<Ticker>>, tries: nat)
    ensures 1 <= tries <= TICKER_ATTEMPTS
    ensures tickers == TickerOutcome(answers)
    ensures tickers.Some? ==> tickers == AttemptAt(answers, tries - 1)
    ensures forall k :: 0 <= k < tries - 1 ==> AttemptAt(answers, k).None?
    ensures tickers.None? ==> tries == TICKER_ATTEMPTS
  {
    tries := 0;
    tickers := None;
    while tries < TICKER_ATTEMPTS
      invariant 0 <= tries <= TICKER_ATTEMPTS
      invariant tickers.None?
      invariant forall k :: 0 <= k < tries ==> AttemptAt(answers, k).None?
    {
      var answer := AttemptAt(answers, tries);
      tries := tries + 1;
      if answer.Some? {
        tickers := answer;
        return;
      }
    }
  }

  /** Length of the Python slice `xs[:k]` of a list of length `n` (a negative `k` drops from the end). */
  function PrefixLen(n: nat, k: int): (m: nat)
    ensures m <= n
    ensures k >= 0 ==> m == if k < n then k else n
  {
    if k >= 0 then (if k < n then k else n) else if n + k > 0 then n + k else 0
  }

  /**
   * `list(active)[:k]`: the first elements of an enumeration of the set,
   * in an order the set does not determine.
   */
  method TakeFromSet(active: set<string>, k: int) returns (xs: seq<string>)
    ensures |xs| == PrefixLen(|active|, k)
    ensures Distinct(xs)
    ensures forall s :: s in xs ==> s in active
  {
    xs := [];
    var rest := active;
    var want := PrefixLen(|active|, k);
    while |xs| < want
      invariant rest <= active && |xs| + |rest| == |active| && |xs| <= want
      invariant Distinct(xs)
      invariant forall s :: s in xs ==> s in active && s !in rest
      decreases want - |xs|
    {
      var s :| s in rest;
      xs := xs + [s];
      rest := rest - {s};
    }
  }

  /**
   * What `get_liquid_symbols` may return for an active set: nothing when the
   * set is empty; after three failed requests, up to `maxAnalyzeSymbols`
   * distinct active symbols unfiltered; otherwise the liquid filter of the snapshot.
   */
  ghost predicate LiquidSpec(active: set<string>, settings: AnalyzerSettings,
                             answers: seq<Option<seq<Ticker>>>, liquid: seq<string>)
  {
    if active == {} then liquid == []
    else match TickerOutcome(answers)
      case None =>
        && |liquid| == PrefixLen(|active|, settings.maxAnalyzeSymbols)
        && Distinct(liquid)
        && (forall s :: s in liquid ==> s in active)
      case Some(ts) => liquid == LiquidOf(ts, active, settings.liquidityThreshold)
  }

  /** Every outcome of the filter lies in the active set, and the fallback respects the symbol cap. */
  lemma LiquidSpecBounds(active: set<string>, settings: AnalyzerSettings,
                         answers: seq<Option<seq<Ticker>>>, liquid: seq<string>)
    requires LiquidSpec(active, settings, answers, liquid)
    ensures forall s :: s in liquid ==> s in active
    ensures TickerOutcome(answers).None? && settings.maxAnalyzeSymbols >= 0 ==> |liquid| <= settings.maxAnalyzeSymbols
  {
    if active != {} && TickerOutcome(answers).Some? {
      LiquidOfSpec(TickerOutcome(answers).value, active, settings.liquidityThreshold);
    }
  }

  // ---------------------------------------------------------------------
  // Per-symbol scan
  // ---------------------------------------------------------------------

  /** The answer to one daily-bars request. */
  datatype BarsAnswer = NetworkError | OtherError | BarsOk(bars: seq<Bar>)

  /** How many times the bars of one symbol are requested at most. */
  const BARS_ATTEMPTS: nat := 2

  /**
   * `get_klines_data`: the bars of the first successful request; a network
   * error is retried once, any other error gives up at once with no bars.
   */
  function BarsOutcome(answers: seq<BarsAnswer>): seq<Bar>
  {
    var first := if 0 < |answers| then answers[0] else NetworkError;
    var second := if 1 < |answers| then answers[1] else NetworkError;
    match first
    case BarsOk(bars) => bars
    case OtherError => []
    case NetworkError => if second.BarsOk? then second.bars else []
  }

  method GetKlinesData(answers: seq<BarsAnswer>) returns (bars: seq<Bar>)
    ensures bars == BarsOutcome(answers)
  {
    var attempt := 0;
    while attempt < BARS_ATTEMPTS
      invariant 0 <= attempt <= BARS_ATTEMPTS
      invariant forall k :: 0 <= k < attempt ==> k < |answers| ==> answers[k].NetworkError?
      invariant attempt > 0 ==> |answers| == 0 || answers[0].NetworkError?
    {
      var answer := if attempt < |answers| then answers[attempt] else NetworkError;
      match answer {
        case BarsOk(b) =>
          bars := b;
          return;
        case OtherError =>
          bars := [];
          return;
        case NetworkError =>
          attempt := attempt + 1;
      }
    }
    bars := [];
  }

  /** One result row; the source also stores the same gains under "changes". */
  datatype ResultItem = ResultItem(symbol: string, gains: Gains)

  /** What scanning one symbol does: nothing, append a row, or raise. */
  datatype ScanStep = Skip | Keep(item: ResultItem) | Raise(message: string)

  const ZERO_DIVISION_MESSAGE: string := "float division by zero"

  function BarsAnswersFor(feed: map<string, seq<BarsAnswer>>, symbol: string): seq<BarsAnswer>
  {
    if symbol in feed then feed[symbol] else []
  }

  function ScanSymbol(symbol: string, answers: seq<BarsAnswer>, minChangePercent: real): ScanStep
  {
    var bars := BarsOutcome(answers);
    if |bars| < 3 then Skip
    else match CalculateGains(bars)
      case Computed(g) => if CheckConditions(Some(g), minChangePercent) == [] then Skip else Keep(ResultItem(symbol, g))
      case ZeroOpen => Raise(ZERO_DIVISION_MESSAGE)
      case TooFewBars => Skip
  }

  datatype ScanOutcome = Scanned(results: seq<ResultItem>) | Faulted(message: string)

  /** The scan of the candidates, in order; the first raising symbol ends it. */
  function Scan(candidates: seq<string>, feed: map<string, seq<BarsAnswer>>, minChangePercent: real): ScanOutcome
    decreases |candidates|
  {
    if candidates == [] then Scanned([])
    else
      var s := candidates[|candidates| - 1];
      Then(Scan(candidates[..|candidates| - 1], feed, minChangePercent),
           ScanSymbol(s, BarsAnswersFor(feed, s), minChangePercent))
  }

  /** The scan so far followed by one more symbol's step. */
  function Then(so: ScanOutcome, step: ScanStep): ScanOutcome
  {
    match so
    case Faulted(m) => Faulted(m)
    case Scanned(rs) =>
      match step
      case Skip => Scanned(rs)
      case Keep(item) => Scanned(rs + [item])
      case Raise(m) => Faulted(m)
  }

  lemma ScanOneMore(candidates: seq<string>, i: nat, feed: map<string, seq<BarsAnswer>>, minChangePercent: real)
    requires i < |candidates|
    ensures Scan(candidates[..i + 1], feed, minChangePercent)
         == Then(Scan(candidates[..i], feed, minChangePercent),
                 ScanSymbol(candidates[i], BarsAnswersFor(feed, candidates[i]), minChangePercent))
  {
    assert candidates[..i + 1][..i] == candidates[..i];
  }

  function ResultSymbols(rs: seq<ResultItem>): (r: seq<string>)
    ensures |r| == |rs| && forall i :: 0 <= i < |rs| ==> r[i] == rs[i].symbol
  {
    seq(|rs|, i requires 0 <= i < |rs| => rs[i].symbol)
  }

  /**
   * A completed scan lists, in candidate order, the candidates whose bars
   * met at least one condition, each with the gains of its bars.
   */
  lemma {:induction false} ScanSpec(candidates: seq<string>, feed: map<string, seq<BarsAnswer>>, minChangePercent: real)
    requires Scan(candidates, feed, minChangePercent).Scanned?
    ensures var rs := Scan(candidates, feed, minChangePercent).results;
      && IsSubsequence(ResultSymbols(rs), candidates)
      && forall i :: 0 <= i < |rs| ==>
           && CalculateGains(BarsOutcome(BarsAnswersFor(feed, rs[i].symbol))) == Computed(rs[i].gains)
           && CheckConditions(Some(rs[i].gains), minChangePercent) != []
    decreases |candidates|
  {
    if candidates == [] {
      EmptySubsequence(candidates);
    } else {
      var init := candidates[..|candidates| - 1];
      var s := candidates[|candidates| - 1];
      ScanSpec(init, feed, minChangePercent);
      var rs := Scan(init, feed, minChangePercent).results;
      var step := ScanSymbol(s, BarsAnswersFor(feed, s), minChangePercent);
      assert candidates == init + [s];
      SubsequenceExtend(ResultSymbols(rs), init, s, step.Keep?);
      if step.Keep? {
        assert ResultSymbols(rs + [step.item]) == ResultSymbols(rs) + [s];
      } else {
        assert ResultSymbols(rs) + [] == ResultSymbols(rs);
      }
    }
  }

  /** A completed scan lists every candidate whose bars met at least one condition. */
  lemma {:induction false} ScanComplete(candidates: seq<string>, feed: map<string, seq<BarsAnswer>>, minChangePercent: real)
    requires Scan(candidates, feed, minChangePercent).Scanned?
    ensures var rs := Scan(candidates, feed, minChangePercent).results;
      forall i :: 0 <= i < |candidates| && ScanSymbol(candidates[i], BarsAnswersFor(feed, candidates[i]), minChangePercent).Keep? ==>
        candidates[i] in ResultSymbols(rs)
    decreases |candidates|
  {
    if candidates != [] {
      var init := candidates[..|candidates| - 1];
      var s := candidates[|candidates| - 1];
      ScanComplete(init, feed, minChangePercent);
      var rs := Scan(init, feed, minChangePercent).results;
      var step := ScanSymbol(s, BarsAnswersFor(feed, s), minChangePercent);
      var rs' := Scan(candidates, feed, minChangePercent).results;
      assert rs' == if step.Keep? then rs + [step.item] else rs;
      forall x | x in ResultSymbols(rs)
        ensures x in ResultSymbols(rs')
      {
        var j :| 0 <= j < |rs| && ResultSymbols(rs)[j] == x;
        assert ResultSymbols(rs')[j] == x;
      }
      forall i | 0 <= i < |candidates| && ScanSymbol(candidates[i], BarsAnswersFor(feed, candidates[i]), minChangePercent).Keep?
        ensures candidates[i] in ResultSymbols(rs')
      {
        if i < |init| {
          assert candidates[i] == init[i];
        } else {
          assert ResultSymbols(rs')[|rs|] == s;
        }
      }
    }
  }

  /** A scan ends in a fault only through a candidate whose last three bars include a zero open. */
  lemma {:induction false} ScanFaultSpec(candidates: seq<string>, feed: map<string, seq<BarsAnswer>>, minChangePercent: real)
    requires Scan(candidates, feed, minChangePercent).Faulted?
    ensures Scan(candidates, feed, minChangePercent).message == ZERO_DIVISION_MESSAGE
    ensures exists i :: 0 <= i < |candidates| && CalculateGains(BarsOutcome(BarsAnswersFor(feed, candidates[i]))).ZeroOpen?
    decreases |candidates|
  {
    var init := candidates[..|candidates| - 1];
    var s := candidates[|candidates| - 1];
    if Scan(init, feed, minChangePercent).Faulted? {
      ScanFaultSpec(init, feed, minChangePercent);
      var i :| 0 <= i < |init| && CalculateGains(BarsOutcome(BarsAnswersFor(feed, init[i]))).ZeroOpen?;
      assert candidates[i] == init[i];
    } else {
      assert CalculateGains(BarsOutcome(BarsAnswersFor(feed, candidates[|candidates| - 1]))).ZeroOpen?;
    }
  }

  /** The loop over the candidates: fetch bars, compute gains, keep the symbols that meet a condition. */
  method ScanSymbols(candidates: seq<string>, feed: map<string, seq<BarsAnswer>>, minChangePercent: real)
    returns (outcome: ScanOutcome)
    ensures outcome == Scan(candidates, feed, minChangePercent)
  {
    var results: seq<ResultItem> := [];
    var i := 0;
    while i < |candidates|
      invariant 0 <= i <= |candidates|
      invariant Scan(candidates[..i], feed, minChangePercent) == Scanned(results)
    {
      ScanOneMore(candidates, i, feed, minChangePercent);
      var step := ScanOne(candidates[i], BarsAnswersFor(feed, candidates[i]), minChangePercent);
      match step {
        case Raise(m) =>
          outcome := Faulted(m);
          ScanFaultPropagates(candidates, i + 1, feed, minChangePercent);
          return;
        case Keep(item) =>
          results := results + [item];
        case Skip =>
      }
      i := i + 1;
    }
    assert candidates[..|candidates|] == candidates;
    outcome := Scanned(results);
  }

  /**
   * The body of the scan loop for one symbol: fetch its bars, skip it with
   * fewer than three, compute its gains (dividing by a zero open raises)
   * and keep it when some condition holds.
   */
  method ScanOne(symbol: string, answers: seq<BarsAnswer>, minChangePercent: real) returns (step: ScanStep)
    ensures step == ScanSymbol(symbol, answers, minChangePercent)
  {
    var bars := GetKlinesData(answers);
    if |bars| < 3 {
      return Skip;
    }
    var gains := CalculateGains(bars);
    match gains {
      case ZeroOpen =>
        step := Raise(ZERO_DIVISION_MESSAGE);
      case TooFewBars =>
        step := Skip;
      case Computed(g) =>
        var conditions := CheckConditions(Some(g), minChangePercent);
        step := if conditions == [] then Skip else Keep(ResultItem(symbol, g));
    }
  }

  /** Once a prefix of the candidates faults, the whole scan faults with the same message. */
  lemma {:induction false} ScanFaultPropagates(candidates: seq<string>, n: nat, feed: map<string, seq<BarsAnswer>>, minChangePercent: real)
    requires n <= |candidates|
    requires Scan(candidates[..n], feed, minChangePercent).Faulted?
    ensures Scan(candidates, feed, minChangePercent) == Scan(candidates[..n], feed, minChangePercent)
    decreases |candidates| - n
  {
    if n < |candidates| {
      assert candidates[..n + 1][..n] == candidates[..n];
      ScanFaultPropagates(candidates, n + 1, feed, minChangePercent);
    } else {
      assert candidates[..n] == candidates;
    }
  }

  // ---------------------------------------------------------------------
  // The analysis run
  // ---------------------------------------------------------------------

  /** What the exchange and the clock answer during one run. */
  datatype MarketFeed = MarketFeed(
    firstNow: int, firstListing: Option<seq<Instrument>>,    // the lookup at the start of the run
    secondNow: int, secondListing: Option<seq<Instrument>>,  // the lookup inside the liquidity filter
    tickerAnswers: seq<Option<seq<Ticker>>>,
    bars: map<string, seq<BarsAnswer>>)

  /** One run's result; `error` is present only when the run's guard caught a fault. */
  datatype ResultBundle = ResultBundle(
    results: seq<ResultItem>,
    startTime: real,
    endTime: real,
    duration: real,
    error: Option<string>)

  /** `liquid[:max]` when the list is longer than the cap (Python slice semantics). */
  function Truncate(liquid: seq<string>, max: int): (r: seq<string>)
    ensures r == liquid[..PrefixLen(|liquid|, max)]
    ensures max >= 0 ==> |r| <= max
  {
    if |liquid| > max then liquid[..PrefixLen(|liquid|, max)] else liquid
  }

  function EmptyBundle(start: real): ResultBundle
  {
    ResultBundle([], start, start, 0.0, None)
  }

  /** The bundle a run that reached the scan returns, whether the scan completed or raised. */
  function FinishedBundle(scan: ScanOutcome, start: real, end: real): (b: ResultBundle)
    ensures b.error.Some? ==> b.results == []
    ensures b.duration == end - start
  {
    match scan
    case Scanned(rs) => ResultBundle(rs, start, end, end - start, None)
    case Faulted(m) => ResultBundle([], start, end, end - start, Some(m))
  }

  class BinanceAnalyzer {
    const settings: AnalyzerSettings
    /** The exchange-listing cache file. */
    var cacheFile: CacheFile

    constructor (settings: AnalyzerSettings, cacheFile: CacheFile)
      ensures this.settings == settings && this.cacheFile == cacheFile
    {
      this.settings := settings;
      this.cacheFile := cacheFile;
    }

    /** `get_active_symbols`: never raises; may rewrite the cache file. */
    method GetActiveSymbols(now: int, listing: Option<seq<Instrument>>) returns (active: set<string>)
      modifies this`cacheFile
      ensures var lookup := ActiveSymbols(old(cacheFile), now, settings.cacheExpiry, listing);
        active == lookup.symbols && cacheFile == lookup.cache
    {
      if IsFresh(cacheFile, now, settings.cacheExpiry) {
        active := SetOf(cacheFile.symbols.value);
        return;
      }
      match listing {
        case Some(instruments) =>
          var symbols := FilterActive(instruments);
          cacheFile := CacheRecord(Some(now), Some(symbols));
          active := SetOf(symbols);
        case None =>
          active := if cacheFile.CacheRecord? then SetOf(cacheFile.symbols.GetOr([])) else {};
      }
    }

    /** `get_liquid_symbols`: looks the active set up again, then filters it by the ticker snapshot. */
    method GetLiquidSymbols(now: int, listing: Option<seq<Instrument>>, answers: seq<Option<seq<Ticker>>>)
      returns (liquid: seq<string>)
      modifies this`cacheFile
      ensures var lookup := ActiveSymbols(old(cacheFile), now, settings.cacheExpiry, listing);
        cacheFile == lookup.cache && LiquidSpec(lookup.symbols, settings, answers, liquid)
    {
      var active := GetActiveSymbols(now, listing);
      if active == {} {
        return [];
      }
      var tickers, tries := FetchTickers(answers);
      match tickers {
        case None =>
          liquid := TakeFromSet(active, settings.maxAnalyzeSymbols);
        case Some(ts) =>
          if ts == [] {
            return [];
          }
          liquid := FilterLiquid(ts, active, settings.liquidityThreshold);
      }
    }

    /**
     * `analyze`: look the universe up, filter it by liquidity, cap the
     * candidates, scan them. Any fault in the scan becomes a bundle with no
     * results and an `error`; `start` and `end` are the clock's readings.
     */
    method Analyze(feed: MarketFeed, start: real, end: real)
      returns (bundle: ResultBundle, ghost liquid: seq<string>, ghost candidates: seq<string>)
      modifies this`cacheFile
      ensures bundle.startTime == start
      ensures bundle.error.Some? ==> bundle.results == [] && bundle.error == Some(ZERO_DIVISION_MESSAGE)
      ensures var first := ActiveSymbols(old(cacheFile), feed.firstNow, settings.cacheExpiry, feed.firstListing);
        var second := ActiveSymbols(first.cache, feed.secondNow, settings.cacheExpiry, feed.secondListing);
        if first.symbols == {} then
          cacheFile == first.cache && bundle == EmptyBundle(start)
        else
          && cacheFile == second.cache
          && LiquidSpec(second.symbols, settings, feed.tickerAnswers, liquid)
          && (liquid == [] ==> bundle == EmptyBundle(start))
          && (liquid != [] ==>
                && candidates == Truncate(liquid, settings.maxAnalyzeSymbols)
                && bundle == FinishedBundle(Scan(candidates, feed.bars, settings.minChangePercent), start, end))
    {
      liquid, candidates := [], [];
      var active := GetActiveSymbols(feed.firstNow, feed.firstListing);
      if active == {} {
        return EmptyBundle(start), liquid, candidates;
      }
      var found := GetLiquidSymbols(feed.secondNow, feed.secondListing, feed.tickerAnswers);
      liquid := found;
      if found == [] {
        return EmptyBundle(start), liquid, candidates;
      }
      var todo := found;
      if |todo| > settings.maxAnalyzeSymbols {
        todo := todo[..PrefixLen(|todo|, settings.maxAnalyzeSymbols)];
      }
      candidates := todo;
      var scan := ScanSymbols(todo, feed.bars, settings.minChangePercent);
      if scan.Faulted? {
        ScanFaultSpec(todo, feed.bars, settings.minChangePercent);
      }
      bundle := FinishedBundle(scan, start, end);
    }
  }

  /**
   * A run's results are always an order-preserving selection of at most
   * `maxAnalyzeSymbols` active symbols, each meeting a condition.
   */
  lemma RunResultsSpec(settings: AnalyzerSettings, active: set<string>, answers: seq<Option<seq<Ticker>>>,
                       liquid: seq<string>, feed: map<string, seq<BarsAnswer>>, start: real, end: real)
    requires LiquidSpec(active, settings, answers, liquid)
    requires settings.maxAnalyzeSymbols >= 0
    ensures var candidates := Truncate(liquid, settings.maxAnalyzeSymbols);
      var b := FinishedBundle(Scan(candidates, feed, settings.minChangePercent), start, end);
      && |b.results| <= settings.maxAnalyzeSymbols
      && IsSubsequence(ResultSymbols(b.results), candidates)
      && (forall i :: 0 <= i < |b.results| ==> b.results[i].symbol in active)
      && (forall i :: 0 <= i < |b.results| ==> CheckConditions(Some(b.results[i].gains), settings.minChangePercent) != [])
  {
    var candidates := Truncate(liquid, settings.maxAnalyzeSymbols);
    var scan := Scan(candidates, feed, settings.minChangePercent);
    LiquidSpecBounds(active, settings, answers, liquid);
    if scan.Scanned? {
      ScanSpec(candidates, feed, settings.minChangePercent);
      var rs := scan.results;
      var idx: seq<nat> :| Embeds(idx, ResultSymbols(rs), candidates);
      forall i | 0 <= i < |rs| ensures rs[i].symbol in active {
        assert rs[i].symbol == candidates[idx[i]];
        assert candidates[idx[i]] in liquid;
      }
      SubsequenceLength(ResultSymbols(rs), candidates);
    } else {
      EmptySubsequence(candidates);
    }
  }

  lemma SubsequenceLength<T>(xs: seq<T>, ys: seq<T>)
    requires IsSubsequence(xs, ys)
    ensures |xs| <= |ys|
  {
    var idx: seq<nat> :| Embeds(idx, xs, ys);
    if |xs| > 0 {
      IndicesGrow(idx, |ys|);
    }
  }

  /** A strictly increasing sequence of indices below `bound` has its `i`-th entry at least `i`. */
  lemma {:induction false} IndicesGrow(idx: seq<nat>, bound: nat)
    requires forall i, j :: 0 <= i < j < |idx| ==> idx[i] < idx[j]
    requires forall i :: 0 <= i < |idx| ==> idx[i] < bound
    ensures |idx| <= bound
    ensures forall i :: 0 <= i < |idx| ==> idx[i] >= i
    decreases |idx|
  {
    if |idx| > 0 {
      IndicesGrow(idx[..|idx| - 1], bound);
      var n := |idx| - 1;
      if n > 0 {
        assert idx[n - 1] >= n - 1 && idx[n - 1] < idx[n];
      }
    }
  }
}
