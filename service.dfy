/**
 * The background scheduler: a start/stop flag, the loop that runs an
 * analysis every interval (with a heartbeat and a sleep cut into 10-second
 * slices so a stop is noticed), and the decision of which notifications a
 * finished run sends. The analyzer's bundle, the clock and the channel
 * behaviour are inputs; the thread itself is not modelled.
 */
module Service {
  import opened Wrappers
  import opened AnalysisCore
  import Config
  import Database
  import Notifications

  // ---------------------------------------------------------------------
  // What a finished run notifies
  // ---------------------------------------------------------------------

  datatype NotifyKind = NoNotify | ZeroFromNonzero | Normal

  /** Silent when the count stays at zero, a special notice when it drops to zero, a normal one otherwise. */
  function Decide(current: int, last: int): (k: NotifyKind)
    ensures current == 0 && last <= 0 ==> k == NoNotify
    ensures current == 0 && last > 0 ==> k == ZeroFromNonzero
    ensures current != 0 ==> k == Normal
  {
    if current == 0 then (if last > 0 then ZeroFromNonzero else NoNotify) else Normal
  }

  /** The previous run's result count, read before the new run is saved; 0 when the history is empty. */
  function LastCount(latest: Option<Database.Record>): (n: nat)
    ensures latest.None? ==> n == 0
    ensures latest.Some? ==> n == |latest.value.results|
  {
    if latest.Some? then |latest.value.results| else 0
  }

  /** A notification call a run makes. */
  datatype Call =
    | CompleteNotice(count: nat, results: seq<ResultItem>)
    | ZeroNotice(lastCount: nat)
    | ChangeNotice(added: nat, removed: nat)

  /** The completion call: only when the decision asks for one and `notify_on_complete` is on. */
  function CompletionCall(lastCount: nat, results: seq<ResultItem>, notifyOnComplete: bool): (c: Option<Call>)
    ensures c.Some? <==> notifyOnComplete && Decide(|results|, lastCount) != NoNotify
    ensures c.Some? && |results| == 0 ==> c.value == ZeroNotice(lastCount) && lastCount > 0
    ensures c.Some? && |results| > 0 ==> c.value == CompleteNotice(|results|, results)
  {
    match Decide(|results|, lastCount)
    case NoNotify => None
    case ZeroFromNonzero => if notifyOnComplete then Some(ZeroNotice(lastCount)) else None
    case Normal => if notifyOnComplete then Some(CompleteNotice(|results|, results)) else None
  }

  /**
   * The change call: needs a previous run, `notify_on_change`, results in
   * both runs and a difference between their symbol sets; it reports how
   * many symbols were added and removed.
   */
  function ChangeCall(latest: Option<Database.Record>, results: seq<ResultItem>, notifyOnChange: bool): (c: Option<Call>)
    ensures c.Some? <==>
      && latest.Some? && notifyOnChange && |results| > 0 && |latest.value.results| > 0
      && Database.CompareResults(latest.value.results, results).hasChanges
    ensures c.Some? ==>
      var cmp := Database.CompareResults(latest.value.results, results);
      c.value == ChangeNotice(|cmp.added|, |cmp.removed|)
  {
    if latest.Some? && notifyOnChange && |results| > 0 && |latest.value.results| > 0 then
      var cmp := Database.CompareResults(latest.value.results, results);
      if cmp.hasChanges then Some(ChangeNotice(|cmp.added|, |cmp.removed|)) else None
    else None
  }

  /** A change notice is only ever sent when the two runs found different symbols. */
  lemma ChangeNoticeMeansDifferentSymbols(latest: Option<Database.Record>, results: seq<ResultItem>, notifyOnChange: bool)
    requires ChangeCall(latest, results, notifyOnChange).Some?
    ensures Database.SymbolSet(latest.value.results) != Database.SymbolSet(results)
    ensures var c := ChangeCall(latest, results, notifyOnChange).value; c.added + c.removed > 0
  {
    Database.CompareResultsPartition(latest.value.results, results);
    var cmp := Database.CompareResults(latest.value.results, results);
    if cmp.added == {} {
      assert |cmp.removed| > 0;
    }
  }

  /** `str()` of the error the zero notice raises: the notification manager has no `notify_zero_result`. */
  const MISSING_ZERO_NOTICE: string := Notifications.NoAttribute("NotificationManager", "notify_zero_result")

  /** The error a call raises before it sends: the zero notice names a missing method, the completion notice needs a text template. */
  function CallFault(c: Call, notifierConfig: map<string, Config.Value>): Option<string>
  {
    match c
    case ZeroNotice(_) => Some(MISSING_ZERO_NOTICE)
    case CompleteNotice(_, rs) => Notifications.CompleteNoticeFault(notifierConfig, Notifications.Rows(rs))
    case ChangeNotice(_, _) => None
  }

  /** The calls a run makes, in order, and the error that ends it early, if any. */
  datatype RunPlan = RunPlan(calls: seq<Call>, fault: Option<string>)

  function PlanRun(latest: Option<Database.Record>, results: seq<ResultItem>,
                   config: map<string, Config.Value>, notifierConfig: map<string, Config.Value>): (p: RunPlan)
  {
    var completion := CompletionCall(LastCount(latest), results,
      Config.Truthy(Notifications.Lookup(config, "notify_on_complete", Config.VBool(true))));
    var change := ChangeCall(latest, results,
      Config.Truthy(Notifications.Lookup(config, "notify_on_change", Config.VBool(true))));
    if completion.Some? && CallFault(completion.value, notifierConfig).Some? then
      RunPlan([completion.value], CallFault(completion.value, notifierConfig))
    else
      RunPlan((if completion.Some? then [completion.value] else []) + (if change.Some? then [change.value] else []), None)
  }

  /** A run makes at most one completion call, first, and at most one change call, last and only when nothing raised. */
  lemma PlanRunShape(latest: Option<Database.Record>, results: seq<ResultItem>,
                     config: map<string, Config.Value>, notifierConfig: map<string, Config.Value>)
    ensures var p := PlanRun(latest, results, config, notifierConfig);
      && |p.calls| <= 2
      && (forall i :: 0 <= i < |p.calls| && p.calls[i].ChangeNotice? ==> i == |p.calls| - 1 && p.fault.None?)
      && (forall i :: 0 <= i < |p.calls| && !p.calls[i].ChangeNotice? ==> i == 0)
  {
    var completion := CompletionCall(LastCount(latest), results,
      Config.Truthy(Notifications.Lookup(config, "notify_on_complete", Config.VBool(true))));
    var change := ChangeCall(latest, results,
      Config.Truthy(Notifications.Lookup(config, "notify_on_change", Config.VBool(true))));
    assert completion.Some? ==> !completion.value.ChangeNotice?;
    assert change.Some? ==> change.value.ChangeNotice?;
    var p := PlanRun(latest, results, config, notifierConfig);
    if completion.Some? && CallFault(completion.value, notifierConfig).Some? {
      assert p.calls == [completion.value];
    } else {
      assert p.fault.None?;
      assert p.calls == (if completion.Some? then [completion.value] else []) + (if change.Some? then [change.value] else []);
    }
  }

  /**
   * A run whose count dropped to zero, with completion notices on, always
   * ends in the missing-method error; a run that found nothing after a run
   * that found nothing makes no call.
   */
  lemma PlanRunOnZero(latest: Option<Database.Record>, results: seq<ResultItem>,
                      config: map<string, Config.Value>, notifierConfig: map<string, Config.Value>)
    requires |results| == 0
    ensures LastCount(latest) > 0 && Config.Truthy(Notifications.Lookup(config, "notify_on_complete", Config.VBool(true)))
      ==> PlanRun(latest, results, config, notifierConfig) == RunPlan([ZeroNotice(LastCount(latest))], Some(MISSING_ZERO_NOTICE))
    ensures LastCount(latest) == 0 ==> PlanRun(latest, results, config, notifierConfig) == RunPlan([], None)
  {
    assert ChangeCall(latest, results, Config.Truthy(Notifications.Lookup(config, "notify_on_change", Config.VBool(true)))).None?;
  }

  // ---------------------------------------------------------------------
  // The run as written
  // ---------------------------------------------------------------------

  /** `len(results)` where `results` is the bundle: the number of its keys, four, or five with "error". */
  function CountAsWritten(b: ResultBundle): (n: nat)
  {
    if b.error.Some? then 5 else 4
  }

  /** The as-written count is never zero, so the "no notification" and "dropped to zero" branches are dead. */
  lemma CountAsWrittenNeverZero(b: ResultBundle, last: int)
    ensures CountAsWritten(b) > 0
    ensures Decide(CountAsWritten(b), last) == Normal
  {
  }

  /** An empty run after an empty run: the code as written notifies, the intended rule stays silent. */
  lemma EmptyRunStillNotifiedAsWritten()
    ensures var b := ResultBundle([], 0.0, 0.0, 0.0, None);
      Decide(CountAsWritten(b), 0) == Normal && Decide(|b.results|, 0) == NoNotify
  {
  }

  /** `str()` of the error the comparison raises when it indexes one of the bundle's keys, a string, with "symbol". */
  const INDEX_OF_STR: string := "string indices must be integers, not 'str'"
  const GET_ON_STR: string := Notifications.NoAttribute("str", "get")

  /**
   * The error `_run_analysis` raises as written, after the save. The count
   * is never zero, so with `notify_on_complete` on the completion notice is
   * always the normal one and is handed the bundle, which it cannot preview;
   * with it off, the change block compares the previous rows with the
   * bundle's keys.
   */
  function FaultAsWritten(latest: Option<Database.Record>, bundle: ResultBundle, notifyOnComplete: bool, notifyOnChange: bool,
                          notifierConfig: map<string, Config.Value>): Option<string>
  {
    if Decide(CountAsWritten(bundle), LastCount(latest)) != NoNotify && notifyOnComplete then
      Notifications.CompleteNoticeFault(notifierConfig, Notifications.WholeBundle(bundle))
    else if latest.Some? && notifyOnChange && CountAsWritten(bundle) > 0 && LastCount(latest) > 0 then Some(INDEX_OF_STR)
    else None
  }

  /** The outcome of one scheduled run as written, given the previous run and the two settings snapshots. */
  function RunOutcomeAsWritten(latest: Option<Database.Record>, bundle: ResultBundle,
                               config: map<string, Config.Value>, notifierConfig: map<string, Config.Value>): RunOutcome
  {
    var fault := FaultAsWritten(latest, bundle,
      Config.Truthy(Notifications.Lookup(config, "notify_on_complete", Config.VBool(true))),
      Config.Truthy(Notifications.Lookup(config, "notify_on_change", Config.VBool(true))), notifierConfig);
    if fault.Some? then Raised(fault.value) else Completed(bundle.results)
  }

  /**
   * As written, no run with completion notices on finishes: it raises the
   * template error or the slice error, whereas the intended run finishes
   * with the completion notice whenever it has results and the template is
   * text. With completion notices off, a run after a run with results
   * raises in the comparison when change notices are on.
   */
  lemma {:induction false} CompletionNoticeFaultsAsWritten(latest: Option<Database.Record>, bundle: ResultBundle,
                                        config: map<string, Config.Value>, notifierConfig: map<string, Config.Value>)
    ensures var onComplete := Config.Truthy(Notifications.Lookup(config, "notify_on_complete", Config.VBool(true)));
      var onChange := Config.Truthy(Notifications.Lookup(config, "notify_on_change", Config.VBool(true)));
      var textTemplate := Notifications.Lookup(notifierConfig, "serverchan_content", Config.VStr(Notifications.DEFAULT_COMPLETE_TEMPLATE)).VStr?;
      && (onComplete && textTemplate ==> RunOutcomeAsWritten(latest, bundle, config, notifierConfig) == Raised(Notifications.SLICE_OF_DICT))
      && (onComplete ==> RunOutcomeAsWritten(latest, bundle, config, notifierConfig).Raised?)
      && (!onComplete && onChange && LastCount(latest) > 0 ==> RunOutcomeAsWritten(latest, bundle, config, notifierConfig) == Raised(INDEX_OF_STR))
      && (!onComplete && (!onChange || LastCount(latest) == 0) ==> RunOutcomeAsWritten(latest, bundle, config, notifierConfig) == Completed(bundle.results))
      && (onComplete && textTemplate && |bundle.results| > 0 ==>
            && PlanRun(latest, bundle.results, config, notifierConfig).fault.None?
            && CompleteNotice(|bundle.results|, bundle.results) in PlanRun(latest, bundle.results, config, notifierConfig).calls)
  {
    CountAsWrittenNeverZero(bundle, LastCount(latest));
    Notifications.CompleteNoticeFaultCases(notifierConfig, Notifications.WholeBundle(bundle));
    Notifications.CompleteNoticeFaultCases(notifierConfig, Notifications.Rows(bundle.results));
  }

  /**
   * The intended run hands the completion notice its result rows: with
   * completion notices on, a text template and at least one row, the plan
   * raises nothing and sends that notice with the row count and the rows.
   */
  lemma CompletionNoticeSentAsIntended(latest: Option<Database.Record>, results: seq<ResultItem>,
                                       config: map<string, Config.Value>, notifierConfig: map<string, Config.Value>)
    requires Config.Truthy(Notifications.Lookup(config, "notify_on_complete", Config.VBool(true)))
    requires Notifications.Lookup(notifierConfig, "serverchan_content", Config.VStr(Notifications.DEFAULT_COMPLETE_TEMPLATE)).VStr?
    requires |results| > 0
    ensures PlanRun(latest, results, config, notifierConfig).fault.None?
    ensures CompleteNotice(|results|, results) in PlanRun(latest, results, config, notifierConfig).calls
  {
  }

  /**
   * The change block as written, on its own: it calls `.get("symbol")` on
   * each added and each removed symbol, which are strings, so any change
   * raises before the notice is sent (and the notice would be handed lists,
   * not counts). The block is latent: as written, every run that reaches it
   * has already raised at the completion notice or in the comparison.
   */
  function ChangeBlockAsWritten(cmp: Database.Comparison): (fault: Option<string>)
  {
    if cmp.added != {} || cmp.removed != {} then Some(GET_ON_STR) else None
  }

  /** Whenever the intended rule sends a change notice, the change block as written would raise instead. */
  lemma ChangeNoticeNeverSentAsWritten(latest: Option<Database.Record>, results: seq<ResultItem>, notifyOnChange: bool)
    requires ChangeCall(latest, results, notifyOnChange).Some?
    ensures ChangeBlockAsWritten(Database.CompareResults(latest.value.results, results)) == Some(GET_ON_STR)
  {
  }

  // ---------------------------------------------------------------------
  // Heartbeat and sleep
  // ---------------------------------------------------------------------

  const HEARTBEAT_INTERVAL: real := 300.0
  const SLICE: int := 10
  const ERROR_PAUSE: int := 30
  const FAULT_PAUSE: int := 60
  const DEFAULT_INTERVAL: int := 7200

  /** The time of the last heartbeat after the loop has seen the clock readings `nows`, starting from `start`. */
  function LastBeat(start: real, nows: seq<real>): real
    decreases |nows|
  {
    if nows == [] then start
    else
      var before := LastBeat(start, nows[..|nows| - 1]);
      if nows[|nows| - 1] - before >= HEARTBEAT_INTERVAL then nows[|nows| - 1] else before
  }

  /** Whether the cycle at reading `k` logs a heartbeat. */
  predicate BeatAt(start: real, nows: seq<real>, k: nat)
    requires k < |nows|
  {
    nows[k] - LastBeat(start, nows[..k]) >= HEARTBEAT_INTERVAL
  }

  predicate NonDecreasing(xs: seq<real>)
  {
    forall i, j :: 0 <= i <= j < |xs| ==> xs[i] <= xs[j]
  }

  /** With a clock that never goes back, the last heartbeat time never decreases and never passes the last reading. */
  lemma {:induction false} LastBeatBounds(start: real, nows: seq<real>)
    requires NonDecreasing(nows)
    ensures nows != [] ==> LastBeat(start, nows) <= nows[|nows| - 1] || LastBeat(start, nows) == start
    ensures forall k :: 0 <= k < |nows| && BeatAt(start, nows, k) ==> LastBeat(start, nows) >= nows[k]
    decreases |nows|
  {
    if nows != [] {
      var init := nows[..|nows| - 1];
      assert NonDecreasing(init);
      LastBeatBounds(start, init);
      forall k | 0 <= k < |nows| && BeatAt(start, nows, k) ensures LastBeat(start, nows) >= nows[k] {
        if k < |nows| - 1 {
          assert init[..k] == nows[..k];
          assert BeatAt(start, init, k);
        } else {
          assert init == nows[..k];
        }
      }
    }
  }

  /** With a clock that never goes back, two logged heartbeats are at least 300 seconds apart. */
  lemma HeartbeatSpacing(start: real, nows: seq<real>, j: nat, k: nat)
    requires NonDecreasing(nows)
    requires j < k < |nows|
    requires BeatAt(start, nows, j) && BeatAt(start, nows, k)
    ensures nows[k] - nows[j] >= HEARTBEAT_INTERVAL
  {
    var prefix := nows[..k];
    assert NonDecreasing(prefix);
    assert prefix[..j] == nows[..j];
    assert BeatAt(start, prefix, j);
    LastBeatBounds(start, prefix);
  }

  /** The slices `min(10, interval - i)` for `i` in `range(0, interval, 10)`. */
  function Slices(interval: int): (s: seq<int>)
    ensures interval <= 0 ==> s == []
    ensures forall k :: 0 <= k < |s| ==> 1 <= s[k] <= SLICE
    decreases interval
  {
    if interval <= 0 then [] else [if interval < SLICE then interval else SLICE] + Slices(interval - SLICE)
  }

  function Sum(s: seq<int>): int
  {
    if s == [] then 0 else s[0] + Sum(s[1..])
  }

  /** The slices add up to the interval, and there are as many as `range(0, interval, 10)` has steps. */
  lemma {:induction false} SlicesSpec(interval: int)
    ensures interval > 0 ==> Sum(Slices(interval)) == interval
    ensures |Slices(interval)| == if interval <= 0 then 0 else (interval + SLICE - 1) / SLICE
    ensures forall k :: 0 <= k < |Slices(interval)| ==>
      Slices(interval)[k] == if interval - SLICE * k < SLICE then interval - SLICE * k else SLICE
    decreases interval
  {
    if interval > 0 {
      SlicesSpec(interval - SLICE);
      var s := Slices(interval);
      forall k | 1 <= k < |s| ensures s[k] == if interval - SLICE * k < SLICE then interval - SLICE * k else SLICE {
        assert s[k] == Slices(interval - SLICE)[k - 1];
      }
    }
  }

  /** `schedule_interval` as `range` takes it: an int (a bool counts as 0 or 1), anything else raises. */
  function IntervalOf(v: Config.Value): Option<int>
  {
    match v
    case VInt(i) => Some(i)
    case VBool(b) => Some(if b then 1 else 0)
    case _ => None
  }

  /** How a cycle ends: the error pause (no interval sleep), the interval sleep, or the pause after a loop fault. */
  datatype Wait = ErrorPause | IntervalSleep(slices: seq<int>) | FaultPause

  /**
   * What happens in one cycle besides the clock. `stopAt` is when
   * `stop_service` lands, if it does in this cycle's wait: before the
   * interval sleep's slice `k` (at or past the last slice: after the sleep),
   * or anywhere in the error or fault pause.
   */
  datatype CycleInput = CycleInput(
    now: real,
    bundle: ResultBundle,     // what the analyzer returns if a run happens
    clock: real,              // when the run saves (used for a bare result list)
    writeOk: bool,
    platform: Notifications.Platform,
    stopAt: Option<nat>)

  datatype RunOutcome = Completed(results: seq<ResultItem>) | Raised(error: string)

  /** One cycle: whether it logged a heartbeat, the run if one happened, the text of the error notice if one was sent, and the wait. */
  datatype CycleReport = CycleReport(heartbeat: bool, run: Option<RunOutcome>, errorNotice: Option<string>, wait: Wait)

  /** The slices the chunked sleep takes when the stop lands before slice `stopAt`. */
  function SleptSlices(interval: int, stopAt: Option<nat>): seq<int>
  {
    if stopAt.Some? && stopAt.value < |Slices(interval)| then Slices(interval)[..stopAt.value] else Slices(interval)
  }

  predicate ScheduleEnabled(config: map<string, Config.Value>)
  {
    Config.Truthy(Notifications.Lookup(config, "schedule_enabled", Config.VBool(false)))
  }

  predicate CompleteNoticesOn(config: map<string, Config.Value>)
  {
    Config.Truthy(Notifications.Lookup(config, "notify_on_complete", Config.VBool(true)))
  }

  /** Scheduling and completion notices both on. */
  predicate ScheduledWithNotices(config: map<string, Config.Value>)
  {
    ScheduleEnabled(config) && CompleteNoticesOn(config)
  }

  /** The run of a cycle, when `schedule_enabled` is on, given the previous run in the store. */
  function RunFor(input: CycleInput, latest: Option<Database.Record>,
                  config: map<string, Config.Value>, notifierConfig: map<string, Config.Value>): Option<RunOutcome>
  {
    if ScheduleEnabled(config) then Some(RunOutcomeAsWritten(latest, input.bundle, config, notifierConfig)) else None
  }

  /** The error notice after a run that raised, when `notify_on_complete` is on. */
  function NoticeFor(run: Option<RunOutcome>, config: map<string, Config.Value>): Option<string>
  {
    if run.Some? && run.value.Raised? && CompleteNoticesOn(config) then Some(Notifications.ErrorText(run.value.error)) else None
  }

  /**
   * The wait after the run: the error pause after a run that raised;
   * otherwise the chunked interval sleep, or the fault pause when the
   * interval is not something `range` takes.
   */
  function WaitFor(run: Option<RunOutcome>, input: CycleInput, config: map<string, Config.Value>): Wait
  {
    if run.Some? && run.value.Raised? then ErrorPause
    else
      match IntervalOf(Notifications.Lookup(config, "schedule_interval", Config.VInt(DEFAULT_INTERVAL)))
      case None => FaultPause
      case Some(interval) => IntervalSleep(SleptSlices(interval, input.stopAt))
  }

  /** One cycle of `_service_loop` as written, given the previous run in the store. */
  function CycleReportFor(beat: bool, input: CycleInput, latest: Option<Database.Record>,
                          config: map<string, Config.Value>, notifierConfig: map<string, Config.Value>): CycleReport
  {
    var run := RunFor(input, latest, config, notifierConfig);
    CycleReport(beat, run, NoticeFor(run, config), WaitFor(run, input, config))
  }

  /**
   * The waits of a cycle: a run that raised takes the 30-second error pause
   * and skips the interval sleep; a bad interval value is a loop fault and
   * takes the 60-second pause; otherwise the sleep takes the interval's
   * slices in order, all of them (adding up to the interval) unless a stop
   * cuts it short. An error notice carries at most 100 characters of the
   * error and is sent only after a run that raised.
   */
  lemma CycleWaitRules(beat: bool, input: CycleInput, latest: Option<Database.Record>,
                       config: map<string, Config.Value>, notifierConfig: map<string, Config.Value>)
    ensures var r := CycleReportFor(beat, input, latest, config, notifierConfig);
      var interval := IntervalOf(Notifications.Lookup(config, "schedule_interval", Config.VInt(DEFAULT_INTERVAL)));
      && (r.run.Some? <==> Config.Truthy(Notifications.Lookup(config, "schedule_enabled", Config.VBool(false))))
      && (r.wait.ErrorPause? <==> r.run.Some? && r.run.value.Raised?)
      && (r.wait.FaultPause? <==> !r.wait.ErrorPause? && interval.None?)
      && (r.wait.IntervalSleep? ==> interval.Some? && r.wait.slices <= Slices(interval.value))
      && (r.wait.IntervalSleep? && input.stopAt.None? && interval.value > 0 ==> Sum(r.wait.slices) == interval.value)
      && (r.errorNotice.Some? ==>
            r.wait.ErrorPause? && |r.errorNotice.value| <= Notifications.ERROR_TEXT_LIMIT && r.errorNotice.value <= r.run.value.error)
      && (r.wait.ErrorPause? ==>
            (r.errorNotice.Some? <==> Config.Truthy(Notifications.Lookup(config, "notify_on_complete", Config.VBool(true)))))
  {
    var interval := IntervalOf(Notifications.Lookup(config, "schedule_interval", Config.VInt(DEFAULT_INTERVAL)));
    if interval.Some? {
      SlicesSpec(interval.value);
    }
  }

  /**
   * As written, with scheduling and completion notices on, every cycle's
   * run raises, sends the error notice and takes the error pause: the
   * interval sleep is never reached.
   */
  lemma ScheduledCyclesFaultAsWritten(beat: bool, input: CycleInput, latest: Option<Database.Record>,
                                      config: map<string, Config.Value>, notifierConfig: map<string, Config.Value>)
    requires Config.Truthy(Notifications.Lookup(config, "schedule_enabled", Config.VBool(false)))
    requires Config.Truthy(Notifications.Lookup(config, "notify_on_complete", Config.VBool(true)))
    ensures var r := CycleReportFor(beat, input, latest, config, notifierConfig);
      r.run.Some? && r.run.value.Raised? && r.errorNotice.Some? && r.wait == ErrorPause
  {
    CompletionNoticeFaultsAsWritten(latest, input.bundle, config, notifierConfig);
  }

  /** The table after the scheduled runs of `inputs`: each run appends its row when its write succeeds. */
  function RowsAfter(records: seq<Database.Record>, nextId: nat, inputs: seq<CycleInput>,
                     analyzerConfig: map<string, Config.Value>): (r: (seq<Database.Record>, nat))
    decreases |inputs|
  {
    if inputs == [] then (records, nextId)
    else
      var (rows, id) := RowsAfter(records, nextId, inputs[..|inputs| - 1], analyzerConfig);
      var x := inputs[|inputs| - 1];
      if x.writeOk then (rows + [Database.NewRecord(id, Database.BundleData(x.bundle), Some(analyzerConfig), x.clock)], id + 1)
      else (rows, id)
  }

  /** The runs of one more cycle extend the table the earlier cycles left. */
  lemma RowsAfterStep(records: seq<Database.Record>, nextId: nat, inputs: seq<CycleInput>, i: nat,
                      analyzerConfig: map<string, Config.Value>)
    requires i < |inputs|
    ensures var (rows, id) := RowsAfter(records, nextId, inputs[..i], analyzerConfig);
      RowsAfter(records, nextId, inputs[..i + 1], analyzerConfig) == RowsAfter(rows, id, [inputs[i]], analyzerConfig)
  {
    assert inputs[..i + 1][..i] == inputs[..i];
    var (rows, id) := RowsAfter(records, nextId, inputs[..i], analyzerConfig);
    assert [inputs[i]][..0] == [];
    assert RowsAfter(rows, id, [], analyzerConfig) == (rows, id);
  }

  /** One cycle's run appends its row when its write succeeds. */
  lemma RowsAfterOne(records: seq<Database.Record>, nextId: nat, x: CycleInput, analyzerConfig: map<string, Config.Value>)
    ensures RowsAfter(records, nextId, [x], analyzerConfig)
         == if x.writeOk then (records + [Database.NewRecord(nextId, Database.BundleData(x.bundle), Some(analyzerConfig), x.clock)], nextId + 1)
            else (records, nextId)
  {
    assert [x][..0] == [];
  }

  /** The table and next id after the cycles of `inputs`: unchanged unless scheduling is on. */
  function StoreAfter(records: seq<Database.Record>, nextId: nat, inputs: seq<CycleInput>,
                      config: map<string, Config.Value>, analyzerConfig: map<string, Config.Value>): (seq<Database.Record>, nat)
  {
    if ScheduleEnabled(config) then RowsAfter(records, nextId, inputs, analyzerConfig) else (records, nextId)
  }

  /** The newest row of a table kept in id order. */
  function LastRow(rows: seq<Database.Record>): Option<Database.Record>
  {
    if rows == [] then None else Some(rows[|rows| - 1])
  }

  /** The state the loop changes: the run flag, the table and next id, and the notifier's channel flag. */
  datatype LoopState = LoopState(running: bool, rows: seq<Database.Record>, nextId: nat, created: bool)

  /** The report the loop gives for cycle `k` of `inputs`, against the table the cycles before it left. */
  function ReportAt(start: real, inputs: seq<CycleInput>, k: nat, s0: LoopState, cfg: map<string, Config.Value>,
                    acfg: map<string, Config.Value>, ncfg: map<string, Config.Value>): CycleReport
    requires k < |inputs|
  {
    CycleReportFor(BeatAt(start, Nows(inputs), k), inputs[k], LastRow(StoreAfter(s0.rows, s0.nextId, inputs[..k], cfg, acfg).0), cfg, ncfg)
  }

  /** Whether some cycle before `i` sent an error notice on a platform that sets the channel up. */
  predicate NoticeSetUpChannel(inputs: seq<CycleInput>, reports: seq<CycleReport>, i: nat)
    requires i <= |inputs| && i <= |reports|
  {
    exists k :: 0 <= k < i && reports[k].errorNotice.Some? && Notifications.SetsChannelUp(inputs[k].platform)
  }

  /**
   * What the loop has done to its state after `i` cycles of `inputs` from
   * state `s0`, with settings `cfg` and analyzer settings `acfg`: the run
   * flag cleared by the first stop, the heartbeat time, the table those
   * cycles leave, and the channel set up by any error notice among
   * `reports` on a platform that sets it up.
   */
  ghost predicate TraceState(start: real, inputs: seq<CycleInput>, i: nat, reports: seq<CycleReport>, lastHeartbeat: real,
                             s0: LoopState, cfg: map<string, Config.Value>, acfg: map<string, Config.Value>, s: LoopState)
  {
    && i <= |inputs| && |reports| == i
    && (s0.running ==> forall k :: 0 <= k < i - 1 ==> inputs[k].stopAt.None?)
    && (s.running <==> s0.running && (i == 0 || inputs[i - 1].stopAt.None?))
    && lastHeartbeat == LastBeat(start, Nows(inputs)[..i])
    && (s.rows, s.nextId) == StoreAfter(s0.rows, s0.nextId, inputs[..i], cfg, acfg)
    && (s.created <==> s0.created || NoticeSetUpChannel(inputs, reports, i))
  }

  /** Each of the first `i` reports is the loop's report for its cycle (notifier settings `ncfg`). */
  ghost predicate TraceReports(start: real, inputs: seq<CycleInput>, i: nat, reports: seq<CycleReport>,
                               s0: LoopState, cfg: map<string, Config.Value>, acfg: map<string, Config.Value>,
                               ncfg: map<string, Config.Value>)
  {
    i <= |inputs| && |reports| == i && forall k :: 0 <= k < i ==> reports[k] == ReportAt(start, inputs, k, s0, cfg, acfg, ncfg)
  }

  /** The report of one more cycle, as `Cycle` states it, is the loop's report for it. */
  lemma ReportStep(start: real, inputs: seq<CycleInput>, i: nat, lastHeartbeat: real, s0: LoopState,
                   cfg: map<string, Config.Value>, acfg: map<string, Config.Value>, ncfg: map<string, Config.Value>,
                   rows: seq<Database.Record>, nextId: nat)
    requires i < |inputs|
    requires lastHeartbeat == LastBeat(start, Nows(inputs)[..i])
    requires (rows, nextId) == StoreAfter(s0.rows, s0.nextId, inputs[..i], cfg, acfg)
    ensures ReportAt(start, inputs, i, s0, cfg, acfg, ncfg)
         == CycleReportFor(inputs[i].now - lastHeartbeat >= HEARTBEAT_INTERVAL, inputs[i], LastRow(rows), cfg, ncfg)
  {
  }

  /** Appending the loop's report for cycle `i` keeps every report the loop's own. */
  lemma ReportsStep(start: real, inputs: seq<CycleInput>, i: nat, reports: seq<CycleReport>, report: CycleReport, s0: LoopState,
                    cfg: map<string, Config.Value>, acfg: map<string, Config.Value>, ncfg: map<string, Config.Value>)
    requires i < |inputs|
    requires TraceReports(start, inputs, i, reports, s0, cfg, acfg, ncfg)
    requires report == ReportAt(start, inputs, i, s0, cfg, acfg, ncfg)
    ensures TraceReports(start, inputs, i + 1, reports + [report], s0, cfg, acfg, ncfg)
  {
  }

  /** One more cycle's error notice extends the channel rule. */
  lemma ChannelStep(inputs: seq<CycleInput>, reports: seq<CycleReport>, i: nat, report: CycleReport, created0: bool,
                    created: bool, created': bool)
    requires i < |inputs| && |reports| == i
    requires created <==> created0 || NoticeSetUpChannel(inputs, reports, i)
    requires created' == if report.errorNotice.Some? then Notifications.CreatedAfter(created, inputs[i].platform) else created
    ensures created' <==> created0 || NoticeSetUpChannel(inputs, reports + [report], i + 1)
  {
    var reports' := reports + [report];
    if created' && !created0 && !created {
      assert reports'[i].errorNotice.Some? && Notifications.SetsChannelUp(inputs[i].platform);
    }
    if NoticeSetUpChannel(inputs, reports, i) {
      var k :| 0 <= k < i && reports[k].errorNotice.Some? && Notifications.SetsChannelUp(inputs[k].platform);
      assert reports'[k] == reports[k];
    }
  }

  /** One more cycle, as `Cycle` states its effect on the state, extends the state's trace. */
  lemma StateStep(start: real, inputs: seq<CycleInput>, i: nat, reports: seq<CycleReport>, lastHeartbeat: real,
                  s0: LoopState, cfg: map<string, Config.Value>, acfg: map<string, Config.Value>,
                  s: LoopState, report: CycleReport, s': LoopState)
    requires i < |inputs| && s.running
    requires TraceState(start, inputs, i, reports, lastHeartbeat, s0, cfg, acfg, s)
    requires ScheduleEnabled(cfg) && inputs[i].writeOk ==>
      s'.rows == s.rows + [Database.NewRecord(s.nextId, Database.BundleData(inputs[i].bundle), Some(acfg), inputs[i].clock)]
      && s'.nextId == s.nextId + 1
    requires !(ScheduleEnabled(cfg) && inputs[i].writeOk) ==> s'.rows == s.rows && s'.nextId == s.nextId
    requires s'.created == if report.errorNotice.Some? then Notifications.CreatedAfter(s.created, inputs[i].platform) else s.created
    requires s'.running == (s.running && inputs[i].stopAt.None?)
    ensures TraceState(start, inputs, i + 1, reports + [report],
                       if inputs[i].now - lastHeartbeat >= HEARTBEAT_INTERVAL then inputs[i].now else lastHeartbeat,
                       s0, cfg, acfg, s')
  {
    assert Nows(inputs)[..i + 1] == Nows(inputs)[..i] + [inputs[i].now];
    assert Nows(inputs)[..i + 1][..i] == Nows(inputs)[..i];
    RowsAfterStep(s0.rows, s0.nextId, inputs, i, acfg);
    RowsAfterOne(s.rows, s.nextId, inputs[i], acfg);
    ChannelStep(inputs, reports, i, report, s0.created, s.created, s'.created);
  }

  /**
   * When the loop ends (the run flag cleared, or every cycle done), its
   * trace gives what `ServiceLoop` promises: the cycles it ran, each report,
   * the table and the channel flag; and with scheduling and completion
   * notices on, every cycle's run raised.
   */
  lemma TraceEnd(start: real, inputs: seq<CycleInput>, i: nat, reports: seq<CycleReport>, lastHeartbeat: real, s0: LoopState,
                 cfg: map<string, Config.Value>, acfg: map<string, Config.Value>, ncfg: map<string, Config.Value>, s: LoopState)
    requires TraceReports(start, inputs, i, reports, s0, cfg, acfg, ncfg)
    requires TraceState(start, inputs, i, reports, lastHeartbeat, s0, cfg, acfg, s)
    requires !s.running || i == |inputs|
    requires !s0.running ==> i == 0
    ensures |reports| <= |inputs|
    ensures !s0.running ==> reports == [] && !s.running
    ensures s0.running ==> forall k :: 0 <= k < |reports| - 1 ==> inputs[k].stopAt.None?
    ensures s0.running && |reports| < |inputs| ==> |reports| > 0 && inputs[|reports| - 1].stopAt.Some?
    ensures s.running <==> s0.running && (|reports| == 0 || inputs[|reports| - 1].stopAt.None?)
    ensures forall k :: 0 <= k < |reports| ==>
      reports[k] == CycleReportFor(BeatAt(start, Nows(inputs), k), inputs[k],
                                   LastRow(StoreAfter(s0.rows, s0.nextId, inputs[..k], cfg, acfg).0), cfg, ncfg)
    ensures (s.rows, s.nextId) == StoreAfter(s0.rows, s0.nextId, inputs[..|reports|], cfg, acfg)
    ensures s.created <==>
      || s0.created
      || exists k :: 0 <= k < |reports| && reports[k].errorNotice.Some? && Notifications.SetsChannelUp(inputs[k].platform)
    ensures ScheduledWithNotices(cfg) ==>
      forall k :: 0 <= k < |reports| ==>
        reports[k].run.Some? && reports[k].run.value.Raised? && reports[k].errorNotice.Some? && reports[k].wait == ErrorPause
  {
    if ScheduledWithNotices(cfg) {
      forall k | 0 <= k < |reports|
        ensures reports[k].run.Some? && reports[k].run.value.Raised? && reports[k].errorNotice.Some? && reports[k].wait == ErrorPause
      {
        ScheduledCyclesFaultAsWritten(BeatAt(start, Nows(inputs), k), inputs[k],
          LastRow(StoreAfter(s0.rows, s0.nextId, inputs[..k], cfg, acfg).0), cfg, ncfg);
      }
    }
  }

  class AnalysisService {
    var isRunning: bool
    /** How many loop threads have been started. */
    var threadStarts: nat
    const config: Config.ConfigManager
    const store: Database.HistoryStore
    const notifier: Notifications.NotificationManager

    ghost predicate Valid()
      reads this, config, store, notifier
    {
      config.Valid() && store.Valid() && notifier.Valid()
    }

    constructor (config: Config.ConfigManager, store: Database.HistoryStore, notifier: Notifications.NotificationManager)
      requires config.Valid() && store.Valid() && notifier.Valid()
      ensures Valid() && !isRunning && threadStarts == 0
      ensures this.config == config && this.store == store && this.notifier == notifier
    {
      this.config := config;
      this.store := store;
      this.notifier := notifier;
      isRunning := false;
      threadStarts := 0;
    }

    /** `start_service`: refuses when already running; otherwise sets the flag and starts one loop thread. */
    method StartService() returns (started: bool)
      modifies this`isRunning, this`threadStarts
      ensures old(isRunning) ==> !started && isRunning && threadStarts == old(threadStarts)
      ensures !old(isRunning) ==> started && isRunning && threadStarts == old(threadStarts) + 1
    {
      if isRunning {
        return false;
      }
      isRunning := true;
      threadStarts := threadStarts + 1;
      started := true;
    }

    /** `stop_service`: refuses when not running; otherwise clears the flag. */
    method StopService() returns (stopped: bool)
      modifies this`isRunning
      ensures stopped == old(isRunning)
      ensures !isRunning
    {
      if !isRunning {
        return false;
      }
      isRunning := false;
      stopped := true;
    }

    /**
     * `_run_analysis` as written, given the analyzer's bundle: count the
     * bundle's keys, read the previous run, save this run with the analyzer
     * settings, then notify. As written nothing is ever sent: every call it
     * reaches raises first.
     */
    method RunAnalysis(bundle: ResultBundle, clock: real, writeOk: bool, p: Notifications.Platform)
      returns (outcome: RunOutcome)
      requires Valid()
      modifies store, notifier
      ensures Valid()
      ensures outcome == RunOutcomeAsWritten(old(store.Latest()), bundle, config.config, notifier.config)
      ensures writeOk ==>
        && store.records == old(store.records)
             + [Database.NewRecord(old(store.nextId), Database.BundleData(bundle), Some(config.AnalyzerConfig()), clock)]
        && store.nextId == old(store.nextId) + 1
      ensures !writeOk ==> store.records == old(store.records) && store.nextId == old(store.nextId)
      ensures notifier.channelCreated == old(notifier.channelCreated)
      ensures notifier.channelRegistrations == old(notifier.channelRegistrations)
    {
      var analyzerConfig := config.AnalyzerConfig();
      var latest := store.Latest();
      var _ := store.SaveAnalysis(Database.BundleData(bundle), Some(analyzerConfig), clock, writeOk);
      outcome := NotifyAsWritten(latest, bundle, p);
    }

    /** The notification part of `_run_analysis` as written, given the previous run read before the save. */
    method NotifyAsWritten(latest: Option<Database.Record>, bundle: ResultBundle, p: Notifications.Platform)
      returns (outcome: RunOutcome)
      requires notifier.Valid()
      modifies notifier
      ensures notifier.Valid()
      ensures outcome == RunOutcomeAsWritten(latest, bundle, config.config, notifier.config)
      ensures notifier.channelCreated == old(notifier.channelCreated)
      ensures notifier.channelRegistrations == old(notifier.channelRegistrations)
    {
      var currentCount := CountAsWritten(bundle);
      var lastCount := LastCount(latest);
      var onComplete := config.Get("notify_on_complete", Config.VBool(true));
      var kind := Decide(currentCount, lastCount);
      if kind != NoNotify && Config.Truthy(onComplete) {
        if kind == ZeroFromNonzero {
          return Raised(MISSING_ZERO_NOTICE);
        }
        var sent := notifier.NotifyAnalysisComplete(currentCount, Notifications.WholeBundle(bundle), p);
        if sent.Raised? {
          return Raised(sent.error);
        }
      }
      var onChange := config.Get("notify_on_change", Config.VBool(true));
      if latest.Some? && Config.Truthy(onChange) && currentCount > 0 && lastCount > 0 {
        return Raised(INDEX_OF_STR);   // compare_results over the bundle's keys
      }
      outcome := Completed(bundle.results);
    }

    /**
     * The notification step of `_run_analysis` as intended: the counts are
     * those of the result rows, and the completion notice is handed the
     * rows. It makes the calls of `PlanRun` until one raises.
     */
    method NotifyRun(latest: Option<Database.Record>, results: seq<ResultItem>, p: Notifications.Platform)
      returns (outcome: RunOutcome, calls: seq<Call>)
      requires notifier.Valid()
      modifies notifier
      ensures notifier.Valid()
      ensures var plan := PlanRun(latest, results, config.config, notifier.config);
        && calls == plan.calls
        && outcome == (if plan.fault.Some? then Raised(plan.fault.value) else Completed(results))
        && notifier.channelCreated
           == (if plan.fault.None? && plan.calls != [] then Notifications.CreatedAfter(old(notifier.channelCreated), p)
               else old(notifier.channelCreated))
    {
      var onComplete := config.Get("notify_on_complete", Config.VBool(true));
      var onChange := config.Get("notify_on_change", Config.VBool(true));
      var completion := CompletionCall(LastCount(latest), results, Config.Truthy(onComplete));
      var change := ChangeCall(latest, results, Config.Truthy(onChange));
      var fault;
      fault, calls := MakeCalls(completion, change, p);
      outcome := if fault.Some? then Raised(fault.value) else Completed(results);
    }

    /**
     * Make the completion call, if any, then the change call, if any; an
     * error in the first ends the run before the second. Every call that
     * does not raise sends, and sending sets the Android channel up.
     */
    method MakeCalls(completion: Option<Call>, change: Option<Call>, p: Notifications.Platform)
      returns (fault: Option<string>, calls: seq<Call>)
      requires notifier.Valid()
      requires completion.Some? ==> !completion.value.ChangeNotice?
      requires change.Some? ==> change.value.ChangeNotice?
      modifies notifier
      ensures notifier.Valid()
      ensures completion.Some? && CallFault(completion.value, notifier.config).Some? ==>
        fault == CallFault(completion.value, notifier.config) && calls == [completion.value]
      ensures !(completion.Some? && CallFault(completion.value, notifier.config).Some?) ==>
        fault.None? && calls == (if completion.Some? then [completion.value] else []) + (if change.Some? then [change.value] else [])
      ensures notifier.channelCreated
        == (if fault.None? && calls != [] then Notifications.CreatedAfter(old(notifier.channelCreated), p)
            else old(notifier.channelCreated))
    {
      calls := [];
      if completion.Some? {
        calls := [completion.value];
        match completion.value {
          case ZeroNotice(_) =>
            return Some(MISSING_ZERO_NOTICE), calls;
          case CompleteNotice(count, rs) =>
            var sent := notifier.NotifyAnalysisComplete(count, Notifications.Rows(rs), p);
            if sent.Raised? {
              return Some(sent.error), calls;
            }
        }
      }
      if change.Some? {
        var _ := notifier.NotifyChangesDetected(change.value.added, change.value.removed, p);
        calls := calls + [change.value];
      }
      fault := None;
    }

    /**
     * `_service_loop` over the given cycles, while the flag stays set: a
     * heartbeat every 300 seconds, then each cycle as `CycleReportFor` says,
     * against the table the earlier cycles left. It runs until the first
     * cycle in which a stop lands.
     */
    method ServiceLoop(start: real, inputs: seq<CycleInput>) returns (reports: seq<CycleReport>)
      requires Valid()
      modifies this`isRunning, store, notifier
      ensures Valid()
      ensures |reports| <= |inputs|
      ensures !old(isRunning) ==> reports == [] && !isRunning
      ensures old(isRunning) ==> forall k :: 0 <= k < |reports| - 1 ==> inputs[k].stopAt.None?
      ensures old(isRunning) && |reports| < |inputs| ==> |reports| > 0 && inputs[|reports| - 1].stopAt.Some?
      ensures isRunning <==> old(isRunning) && (|reports| == 0 || inputs[|reports| - 1].stopAt.None?)
      ensures forall k :: 0 <= k < |reports| ==>
        reports[k] == CycleReportFor(BeatAt(start, Nows(inputs), k), inputs[k],
                                     LastRow(StoreAfter(old(store.records), old(store.nextId), inputs[..k], config.config, config.AnalyzerConfig()).0),
                                     config.config, notifier.config)
      ensures (store.records, store.nextId)
           == StoreAfter(old(store.records), old(store.nextId), inputs[..|reports|], config.config, config.AnalyzerConfig())
      ensures notifier.channelCreated <==>
        || old(notifier.channelCreated)
        || exists k :: 0 <= k < |reports| && reports[k].errorNotice.Some? && Notifications.SetsChannelUp(inputs[k].platform)
      ensures ScheduledWithNotices(config.config) ==>
        forall k :: 0 <= k < |reports| ==>
          reports[k].run.Some? && reports[k].run.value.Raised? && reports[k].errorNotice.Some? && reports[k].wait == ErrorPause
    {
      ghost var s0 := LoopState(isRunning, store.records, store.nextId, notifier.channelCreated);
      ghost var cfg, acfg, ncfg := config.config, config.AnalyzerConfig(), notifier.config;
      reports := [];
      var lastHeartbeat := start;
      var i := 0;
      while isRunning && i < |inputs|
        invariant Progress(start, inputs, i, reports, lastHeartbeat, s0, cfg, acfg, ncfg)
        invariant !s0.running ==> i == 0
        decreases |inputs| - i
      {
        reports, lastHeartbeat := Step(start, inputs, i, reports, lastHeartbeat, s0, cfg, acfg, ncfg);
        i := i + 1;
      }
      TraceEnd(start, inputs, i, reports, lastHeartbeat, s0, cfg, acfg, ncfg,
               LoopState(isRunning, store.records, store.nextId, notifier.channelCreated));
    }

    /** The loop's trace against the current state, with the settings it started from unchanged. */
    ghost predicate Progress(start: real, inputs: seq<CycleInput>, i: nat, reports: seq<CycleReport>, lastHeartbeat: real,
                             s0: LoopState, cfg: map<string, Config.Value>, acfg: map<string, Config.Value>,
                             ncfg: map<string, Config.Value>)
      reads this, config, store, notifier
    {
      && Valid()
      && config.config == cfg && config.AnalyzerConfig() == acfg && notifier.config == ncfg
      && TraceReports(start, inputs, i, reports, s0, cfg, acfg, ncfg)
      && TraceState(start, inputs, i, reports, lastHeartbeat, s0, cfg, acfg,
                    LoopState(isRunning, store.records, store.nextId, notifier.channelCreated))
    }

    /** Cycle `i` of the loop: the heartbeat check, then the cycle against the table the cycles before it left. */
    method Step(start: real, inputs: seq<CycleInput>, i: nat, reports: seq<CycleReport>, lastHeartbeat: real,
                ghost s0: LoopState, ghost cfg: map<string, Config.Value>, ghost acfg: map<string, Config.Value>,
                ghost ncfg: map<string, Config.Value>)
      returns (reports': seq<CycleReport>, lastHeartbeat': real)
      requires i < |inputs| && isRunning
      requires Progress(start, inputs, i, reports, lastHeartbeat, s0, cfg, acfg, ncfg)
      modifies this`isRunning, store, notifier
      ensures Progress(start, inputs, i + 1, reports', lastHeartbeat', s0, cfg, acfg, ncfg)
    {
      ghost var s := LoopState(isRunning, store.records, store.nextId, notifier.channelCreated);
      var beat := inputs[i].now - lastHeartbeat >= HEARTBEAT_INTERVAL;
      var report := Cycle(inputs[i], beat);
      ReportStep(start, inputs, i, lastHeartbeat, s0, cfg, acfg, ncfg, s.rows, s.nextId);
      ReportsStep(start, inputs, i, reports, report, s0, cfg, acfg, ncfg);
      StateStep(start, inputs, i, reports, lastHeartbeat, s0, cfg, acfg, s, report,
                LoopState(isRunning, store.records, store.nextId, notifier.channelCreated));
      lastHeartbeat' := if beat then inputs[i].now else lastHeartbeat;
      reports' := reports + [report];
    }

    /** One cycle after the heartbeat check. */
    method Cycle(input: CycleInput, beat: bool) returns (report: CycleReport)
      requires Valid()
      modifies this`isRunning, store, notifier
      ensures Valid()
      ensures report == CycleReportFor(beat, input, old(store.Latest()), config.config, notifier.config)
      ensures ScheduleEnabled(config.config) && input.writeOk ==>
        && store.records == old(store.records)
             + [Database.NewRecord(old(store.nextId), Database.BundleData(input.bundle), Some(config.AnalyzerConfig()), input.clock)]
        && store.nextId == old(store.nextId) + 1
      ensures !(ScheduleEnabled(config.config) && input.writeOk) ==>
        store.records == old(store.records) && store.nextId == old(store.nextId)
      ensures notifier.channelCreated
        == (if report.errorNotice.Some? then Notifications.CreatedAfter(old(notifier.channelCreated), input.platform)
            else old(notifier.channelCreated))
      ensures isRunning == (old(isRunning) && input.stopAt.None?)
    {
      var run, notice := RunIfEnabled(input);
      var wait := WaitAfterRun(run, input);
      report := CycleReport(beat, run, notice, wait);
    }

    /** The wait after the run; a stop that lands in it clears the run flag. */
    method WaitAfterRun(run: Option<RunOutcome>, input: CycleInput) returns (wait: Wait)
      modifies this`isRunning
      ensures wait == WaitFor(run, input, config.config)
      ensures isRunning == (old(isRunning) && input.stopAt.None?)
    {
      if run.Some? && run.value.Raised? {
        if input.stopAt.Some? {
          isRunning := false;   // the stop lands during the error pause
        }
        return ErrorPause;
      }
      var intervalValue := config.Get("schedule_interval", Config.VInt(DEFAULT_INTERVAL));
      var interval := IntervalOf(intervalValue);
      if interval.None? {
        if input.stopAt.Some? {
          isRunning := false;   // the stop lands during the fault pause
        }
        return FaultPause;
      }
      var slept := SleepInterval(interval.value, input.stopAt);
      if input.stopAt.Some? {
        isRunning := false;     // a stop after the last slice is seen at the loop's head
      }
      wait := IntervalSleep(slept);
    }

    /** The run, when `schedule_enabled` is on; a run that raised is reported by an error notice when completion notices are on. */
    method RunIfEnabled(input: CycleInput) returns (run: Option<RunOutcome>, errorNotice: Option<string>)
      requires Valid()
      modifies store, notifier
      ensures Valid()
      ensures run == RunFor(input, old(store.Latest()), config.config, notifier.config)
      ensures errorNotice == NoticeFor(run, config.config)
      ensures ScheduleEnabled(config.config) && input.writeOk ==>
        && store.records == old(store.records)
             + [Database.NewRecord(old(store.nextId), Database.BundleData(input.bundle), Some(config.AnalyzerConfig()), input.clock)]
        && store.nextId == old(store.nextId) + 1
      ensures !(ScheduleEnabled(config.config) && input.writeOk) ==>
        store.records == old(store.records) && store.nextId == old(store.nextId)
      ensures notifier.channelCreated
        == (if errorNotice.Some? then Notifications.CreatedAfter(old(notifier.channelCreated), input.platform)
            else old(notifier.channelCreated))
    {
      var enabledValue := config.Get("schedule_enabled", Config.VBool(false));
      run := None;
      errorNotice := None;
      if Config.Truthy(enabledValue) {
        var outcome := RunAnalysis(input.bundle, input.clock, input.writeOk, input.platform);
        run := Some(outcome);
        if outcome.Raised? {
          var notifyOnComplete := config.Get("notify_on_complete", Config.VBool(true));
          if Config.Truthy(notifyOnComplete) {
            var sent := notifier.NotifyError(outcome.error, input.platform);
            errorNotice := Some(sent.message.text);
          }
        }
      }
    }

    /**
     * The chunked sleep: before each 10-second slice, check the flag; a stop
     * that lands before slice `stopAt` ends the sleep there.
     */
    method SleepInterval(interval: int, stopAt: Option<nat>) returns (slept: seq<int>)
      modifies this`isRunning
      ensures slept == SleptSlices(interval, stopAt)
      ensures isRunning == (old(isRunning) && !(stopAt.Some? && stopAt.value < |Slices(interval)|))
      ensures slept <= Slices(interval)
    {
      SlicesSpec(interval);
      slept := [];
      var i := 0;
      var k := 0;
      while i < interval
        invariant 0 <= k <= |Slices(interval)|
        invariant i == SLICE * k
        invariant (i < interval) <==> k < |Slices(interval)|
        invariant slept == Slices(interval)[..k]
        invariant isRunning == old(isRunning)
        invariant stopAt.Some? ==> k <= stopAt.value
        decreases interval - i
      {
        if stopAt == Some(k) {
          isRunning := false;   // the stop request from the other thread
          return;
        }
        assert Slices(interval)[..k + 1] == slept + [if interval - i < SLICE then interval - i else SLICE];
        slept := slept + [if interval - i < SLICE then interval - i else SLICE];
        i := i + SLICE;
        k := k + 1;
      }
      assert slept == Slices(interval);
    }
  }

  function Nows(inputs: seq<CycleInput>): (r: seq<real>)
    ensures |r| == |inputs| && forall k :: 0 <= k < |inputs| ==> r[k] == inputs[k].now
  {
    seq(|inputs|, k requires 0 <= k < |inputs| => inputs[k].now)
  }
}
