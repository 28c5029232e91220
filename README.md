# binance-analyzer, modelled in Dafny

binance-analyzer is a mobile app that scans Binance USDT-margined perpetual
futures for contracts whose price rose sharply over the last one, two or three
daily bars. This project models its analysis core and proves properties of
the model:

- **The analysis engine** (`analysis_core.dfy`, module `AnalysisCore`):
  - the cached list of trading perpetual contracts;
  - the liquidity filter over the 24-hour ticker snapshot, with its three-try
    retry and its unfiltered fallback;
  - the two-try daily-bars fetch;
  - the gain computation and the three conditions A, B and C;
  - the `analyze` run, which caps the candidates, scans them and returns a
    result bundle. Any fault in the scan turns into an `error` entry.
- **The original command-line script** (`reference_original.dfy`,
  `ReferenceOriginal`). It applies the same rules with fixed constants, but
  its scan has no guard, it pauses after every kept row, and it ranks the
  rows by condition count, then by three-day gain.
- **The analysis history** (`database.dfy`, `Database`):
  - an auto-incremented table of runs;
  - the latest row, the newest-first history list, lookup by id and pruning;
  - the symbol comparison between two runs.
- **The settings store** (`config_manager.dfy`, `Config`). Built-in defaults
  are overlaid by the settings file, and each change is written back.
- **Notifications** (`notification_manager.dfy`, `Notifications`):
  - the completion, change and error messages;
  - the fan-out over the Android notification service, the desktop notifier
    and the ServerChan push service. It tries every channel and succeeds if
    any one delivers.
- **The background service** (`service.dfy`, `Service`):
  - the start/stop flag;
  - the loop, with its 300-second heartbeat and its sleep cut into 10-second
    slices;
  - the run and its notification step as the code has them, and, beside
    them, the rule that decides which notifications a finished run is meant
    to send.
- **The screens' settings arithmetic** (`main_screens.dfy`, `Screens`): the
  minutes/seconds interval fields, the next-run label, the settings save loop
  and the notice sent after a manual run.

Helper modules:
- `Text` models the parts of Python's `str`, `int()` and `float()` that
  these files use: strip, decimal parsing and printing, `replace` and `join`.
- `Sequences` holds subsequence facts.
- `Wrappers` holds `Option`.

The network, the files, sqlite, the clock and threads do not appear as such.
What they answer is a parameter:
- a listing or `None`;
- ticker answers per attempt;
- bar answers per request;
- `writeOk` for a write;
- a `Platform` value for how each notification channel behaves;
- clock readings for the loop.

Integers and reals are Dafny's unbounded ones. The source uses Python ints,
which are unbounded too, and Python floats. Float rounding is not modelled.

In four places the code and its evident intent part ways; see "## Findings".
For each, one member models the code as written and a lemma shows the
discrepancy, and a second member states the intended behaviour with its
property proved. The service's run, cycle and loop (`RunAnalysis`, `Cycle`,
`ServiceLoop`) are modelled as written. So with scheduling and completion
notices on, every scheduled run raises and the loop takes the error pause.
The intended notification step is `PlanRun` and `NotifyRun`, which the loop
does not call.

## Model

| member | source | states |
|---|---|---|
| AnalysisCore.CalculateGains | analysis_core.py:131-153 | Fewer than three bars gives no gains. A zero open among the last three bars raises. Otherwise each gain `g` satisfies `(1 + g) * open == today's close`, for today's, yesterday's and the day before's open. |
| AnalysisCore.TestWindowGains | analysis_core.py:131-153 | Opens 100, 150, 200 with a last close of 300 give gains 0.5, 1.0, 2.0. |
| AnalysisCore.CheckConditions | analysis_core.py:155-172 | No gains, no conditions. A condition is listed exactly when its gain reaches `minChangePercent / 100`, boundary included. Conditions are listed in the order A, B, C. |
| AnalysisCore.TestWindowConditions | analysis_core.py:155-172 | At a 100% threshold, gains 0.5/1.0/2.0 meet B (at the boundary) and C, not A. |
| AnalysisCore.ActivePerpetualsMembers | analysis_core.py:64-67 | A symbol is collected exactly when some listed instrument with that symbol is TRADING and PERPETUAL. |
| AnalysisCore.FilterActive | analysis_core.py:64-67 | The listing loop collects the trading perpetual symbols in listing order. |
| AnalysisCore.ActiveSymbols | analysis_core.py:42-89 | A fresh cache (readable, with symbols, younger than the expiry, missing timestamp = 0) is returned untouched. Otherwise a successful fetch rewrites the cache with `now` and the trading perpetuals and returns them. A failed fetch returns the old cache's symbols (none if it is unreadable) and leaves the file alone. |
| AnalysisCore.RefetchIsFreshWithinExpiry | analysis_core.py:51-77 | After a refetch at `now`, the cache it wrote is fresh for any later call less than the expiry after `now`. |
| AnalysisCore.LookupIdempotent | analysis_core.py:47-53 | A second lookup that finds the first lookup's cache still fresh returns the same symbols and cache, whatever the exchange would answer. |
| AnalysisCore.BinanceAnalyzer.GetActiveSymbols | analysis_core.py:42-89 | The method returns the symbols of `ActiveSymbols` and leaves the cache file `ActiveSymbols` describes. |
| AnalysisCore.LiquidOfSpec | analysis_core.py:205-220 | The liquid list holds exactly the active symbols whose ticker has a non-empty symbol and a quote volume at or above the threshold. It keeps the snapshot's order (a subsequence of the ticker symbols). |
| AnalysisCore.FilterLiquid | analysis_core.py:205-220 | The ticker loop computes the liquid list. |
| AnalysisCore.TickerRetryBound | analysis_core.py:183-199 | Only the first three answers matter. The retry fails exactly when all three fail. |
| AnalysisCore.FetchTickers | analysis_core.py:183-199 | One to three tries. The result is the first success, and every try before it failed. Three tries when all fail. |
| AnalysisCore.PrefixLen | analysis_core.py:199 | The length of the Python slice `xs[:k]`: at most `n`, and `min(k, n)` for a non-negative `k`. |
| AnalysisCore.TakeFromSet | analysis_core.py:199 | `list(active)[:k]` has `PrefixLen(|active|, k)` distinct elements, all of them active. |
| AnalysisCore.LiquidSpecBounds | analysis_core.py:174-220 | Every symbol the liquidity filter returns is active. The no-ticker fallback returns at most `MAX_ANALYZE_SYMBOLS` symbols. |
| AnalysisCore.BinanceAnalyzer.GetLiquidSymbols | analysis_core.py:174-220 | It looks the active set up again. An empty active set, or an empty ticker snapshot, gives `[]`. Three failed tries give the capped unfiltered fallback. Otherwise it returns the liquid filter of the snapshot. |
| AnalysisCore.GetKlinesData | analysis_core.py:91-129 | A network error is retried once. Any other error gives `[]` at once. Otherwise it returns the bars of the first success. |
| AnalysisCore.ScanOne | analysis_core.py:273-295 | Per symbol: skip it below three bars; raise on a zero open; keep it with its gains exactly when a condition holds. |
| AnalysisCore.ScanOneMore | analysis_core.py:258-295 | Scanning one more candidate appends exactly that candidate's step to the scan so far. |
| AnalysisCore.ScanSpec | analysis_core.py:258-295 | A completed scan lists, in candidate order, only candidates whose bars give computed gains. Each row carries those gains, and they meet at least one condition. |
| AnalysisCore.ScanComplete | analysis_core.py:258-295 | A completed scan lists every candidate whose bars give gains meeting a condition. |
| AnalysisCore.ScanFaultSpec | analysis_core.py:278-325 | A scan faults only with the division-by-zero message, and only through a candidate whose last three bars include a zero open. |
| AnalysisCore.ScanFaultPropagates | analysis_core.py:258-295 | Once a prefix of the candidates faults, the whole scan ends with that fault. |
| AnalysisCore.ScanSymbols | analysis_core.py:258-295 | The scan loop computes `Scan` of the candidates. |
| AnalysisCore.Truncate | analysis_core.py:247-250 | The capped candidates are the Python slice `liquid[:max]`, of length at most `max`. |
| AnalysisCore.FinishedBundle | analysis_core.py:298-325 | A bundle with an error has no results. The duration is end minus start. |
| AnalysisCore.BinanceAnalyzer.Analyze | analysis_core.py:222-325 | No active symbols, or no liquid symbols, give an empty bundle stamped with the start time. Otherwise it returns the scan of the capped liquid list, made after a second lookup. A fault becomes an empty bundle whose error is the division-by-zero message. |
| AnalysisCore.RunResultsSpec | analysis_core.py:222-311 | A run's results are an order-preserving selection of at most `MAX_ANALYZE_SYMBOLS` active symbols, each meeting a condition. |
| AnalysisCore.SubsequenceLength | analysis_core.py:258-295 | A subsequence is no longer than the sequence it is drawn from, so the results never outnumber the candidates. |
| ReferenceOriginal.ReferenceSettingsAreDefaults | reference_original.py:112-173 | The script's fixed constants equal the analysis engine's default settings. |
| ReferenceOriginal.Insert | reference_original.py:303 | Insertion adds exactly the one row (multiset). |
| ReferenceOriginal.InsertMembers | reference_original.py:303 | Every row after insertion is the inserted row or one that was already there. |
| ReferenceOriginal.InsertSorted | reference_original.py:303 | Inserting into a list in descending `(conditions_count, gain_3d)` order keeps it in that order. |
| ReferenceOriginal.SortByRank | reference_original.py:303 | The sort is a permutation of its input. |
| ReferenceOriginal.SortByRankSpec | reference_original.py:300-303 | The sort orders rows by descending `(conditions_count, gain_3d)` and neither adds nor drops a row. |
| ReferenceOriginal.ReferenceCandidates | reference_original.py:238-240 | The script scans at most 500 symbols: the first 500 of the liquid list. |
| ReferenceOriginal.ReferenceAnalysisSpec | reference_original.py:230-305 | The script's ranked output is sorted and is a permutation of the scanned rows. It has at most 500 rows. Each row carries the conditions its gains meet and their count, which is 1 to 3. |
| ReferenceOriginal.RankedRowsSpec | reference_original.py:280-292 | Every ranked row carries the conditions its gains meet, and their count is between 1 and 3. |
| ReferenceOriginal.ConditionsAtMostThree | reference_original.py:154-173 | At most three conditions hold. |
| ReferenceOriginal.AnalyzeSymbols | reference_original.py:230-305 | The script's loop computes the ranked analysis, or lets the division-by-zero error escape. It pauses `REQUEST_DELAY` exactly once per kept row. |
| ReferenceOriginal.RankedAppend | reference_original.py:293 | Ranking distributes over appending a row. |
| ReferenceOriginal.FallbackCapped | reference_original.py:196-203 | After three failed ticker requests the script returns `min(|active|, 500)` active symbols. |
| Database.NewRecord | database.py:41-77 | The stored row takes its results and times from the bundle. A bare list is stamped `now` with duration 0. `symbol_count` is the number of results. An empty or absent config is stored as NULL. |
| Database.HistoryStore.SaveAnalysis | database.py:41-77 | A successful insert appends the row with the next id and returns that id. A failed write returns `None` and leaves the table as it was. |
| Database.SaveThenLatest | database.py:41-135 | Appending a row with an id above every stored id keeps ids increasing. The row becomes the latest, and a lookup by its id finds it. |
| Database.HistoryStore.Latest | database.py:79-135 | `None` exactly for an empty table; otherwise a stored row whose id is the largest. |
| Database.LimitCount | database.py:148-153 | `LIMIT limit` passes `min(n, limit)` rows for a non-negative limit, and all `n` rows for a negative one. |
| Database.HistoryStore.HistoryList | database.py:137-188 | It returns the newest `LIMIT` rows as id, end time, count and duration, in strictly decreasing id order. Every row left out is older than every row listed. |
| Database.NewestFirst | database.py:148-165 | The newest `LIMIT` rows, last first, in strictly decreasing id order. |
| Database.NewestFirstSpec | database.py:148-165 | Lines taken from the end of an id-increasing table come out in decreasing id order. They are newer than every line left out. |
| Database.HistoryStore.ById | database.py:190-244 | It finds a row exactly when one has that id, and the row found has that id. |
| Database.FindId | database.py:201-205 | It finds a row exactly when one with that id is stored. |
| Database.ByIdUnique | database.py:201-205 | In an id-increasing table the lookup finds the only row with that id. |
| Database.CompareResults | database.py:246-259 | Added = current minus previous symbols, removed = previous minus current, common = both. `has_changes` holds exactly when something was added or removed. |
| Database.CompareResultsPartition | database.py:246-259 | The three parts are disjoint and cover both runs' symbols. A change is reported exactly when the symbol sets differ. |
| Database.KeepNewest | database.py:266-273 | It keeps `LimitCount(total, keep)` rows. |
| Database.KeepNewestSpec | database.py:261-282 | The rows kept are stored rows, in increasing id order, and every deleted row is older than every kept one. |
| Database.HistoryStore.DeleteOldRecords | database.py:261-282 | It keeps the newest `keep` rows and returns how many went. A failed write deletes nothing and returns 0. |
| Config.LoadConfig | config_manager.py:32-43 | The defaults, overlaid key by key by a loadable file. A missing or unloadable file gives the defaults. |
| Config.DefaultThresholds | config_manager.py:10-29 | The default threshold is 100.0, the liquidity threshold 1000000 and the interval 7200. |
| Config.SaveLoadRoundTrip | config_manager.py:32-52 | Loading what `save_config` wrote gives back the same settings. |
| Config.ConfigManager.constructor | config_manager.py:8-30 | A new store holds `load_config()` of the file. |
| Config.ConfigManager.SaveConfig | config_manager.py:45-52 | It returns whether the write succeeded, and the file then holds the settings. |
| Config.ConfigManager.Get | config_manager.py:54-55 | It returns the stored value, or the default when the key is absent. |
| Config.ConfigManager.Set | config_manager.py:57-61 | One key changes, the rest keep their values, and it saves only when `auto_save`. |
| Config.ConfigManager.ResetToDefault | config_manager.py:63-65 | The settings become the defaults, then it saves. |
| Config.Overlay | config_manager.py:69-70 | The assignment loop yields `base + updates` whatever order the keys are visited in. |
| Config.ConfigManager.SetBatch | config_manager.py:67-71 | Every update is applied, other keys are unchanged, and it saves once. |
| Config.ConfigManager.AnalyzerConfig | config_manager.py:73-80 | Exactly the five analyzer keys, with their current values. |
| Notifications.ServerChanGate | notification_manager.py:113-146 | ServerChan never delivers when disabled or without a key, and delivers only on HTTP 200 with code 0. |
| Notifications.ChannelsTried | notification_manager.py:148-171 | On Android it tries the native service, then the desktop notifier, then ServerChan; elsewhere the notifier, then ServerChan. Each channel is tried once, the native one only on Android, and ServerChan always, last. |
| Notifications.CountDelivered | notification_manager.py:155-172 | The success count is positive exactly when some tried channel delivered. |
| Notifications.NotificationManager.CreateNotificationChannel | notification_manager.py:21-53 | It registers the channel at most once. After a success it answers true without registering again, and a failed setup answers false. |
| Notifications.NotificationManager.SendNotification | notification_manager.py:148-178 | It tries every applicable channel with no early return, counts the successes, and reports success exactly when some channel delivered. The Android channel is set up by the first successful setup and registered once. |
| Notifications.BuildPreview | notification_manager.py:186-193 | The preview covers `results[:3]`, numbered from 1, with each gain in percent. |
| Notifications.NotificationManager.NotifyAnalysisComplete | notification_manager.py:180-195 | A template that is not text raises "'<type>' object has no attribute 'replace'". Handed the whole bundle, it raises at the `results[:3]` slice. A raise leaves the channel state alone. Otherwise it sends the configured title and the template with every `{count}` replaced, plus the preview of the first three rows, and the channel state follows the send. |
| Notifications.CompleteNoticeFaultCases | notification_manager.py:180-188 | The completion notice raises for every bundle. Given rows, or none, it raises exactly when the template is not text. With a text template, a bundle gets the dict-slice error. |
| Notifications.DefaultTemplateFilled | notification_manager.py:182-183 | The default template with `{count}` filled reads "找到 n 个符合条件的交易对". |
| Notifications.FillOnce | notification_manager.py:183 | A template with one `{count}` and no other `{` gets the number in its place. |
| Notifications.PlaceholderFirst | notification_manager.py:183 | Replacing in a text that starts with `{count}` puts the number first. |
| Notifications.TemplateWithoutPlaceholder | notification_manager.py:183 | A template without `{count}` is sent unchanged. |
| Notifications.ChangeText | notification_manager.py:197-205 | The "added" part only when something was added, then the "removed" part only when something was removed, joined by "、". |
| Notifications.NotificationManager.NotifyChangesDetected | notification_manager.py:197-205 | Title "检测到变化" and the change text; the channel state follows the send. |
| Notifications.ErrorText | notification_manager.py:209 | At most the first 100 characters of the error. |
| Notifications.NotificationManager.NotifyError | notification_manager.py:207-209 | Title "分析出错" and the truncated error text; the channel state follows the send. |
| Service.AnalysisService.StartService | service.py:19-28 | It refuses when already running. Otherwise it sets the flag and starts exactly one loop thread. |
| Service.AnalysisService.StopService | service.py:30-38 | It answers whether the service was running, and the flag is clear afterwards. |
| Service.Decide | service.py:125-141 | Silent when the count stays at zero, a zero notice when it drops to zero, a normal notice otherwise. |
| Service.CompletionCall | service.py:143-152 | A completion call is made exactly when `notify_on_complete` is on and the decision asks for one. A drop to zero makes the zero notice; otherwise the count and the results. |
| Service.ChangeCall | service.py:156-188 | A change call is made exactly when there is a previous run, `notify_on_change` is on, both runs have results and the symbol sets differ. It carries the added and removed counts. |
| Service.ChangeNoticeMeansDifferentSymbols | service.py:156-188 | A change notice implies the two runs' symbol sets differ and something was added or removed. |
| Service.PlanRunShape | service.py:143-188 | A run makes at most one completion call, first, and at most one change call, last and only when nothing raised. |
| Service.PlanRunOnZero | service.py:128-149 | An empty run after an empty run makes no call. A drop to zero with completion notices on ends in the missing-method error. |
| Service.AnalysisService.RunAnalysis | service.py:105-190 | As written: it reads the previous run and saves this one with the analyzer settings (the row with the next id, when the write succeeds). The outcome is `RunOutcomeAsWritten`: nothing is sent, and the channel state is unchanged. |
| Service.AnalysisService.NotifyAsWritten | service.py:110-188 | The notification step as written, given the previous run: the outcome is `RunOutcomeAsWritten`, and the channel state is unchanged. |
| Service.AnalysisService.NotifyRun | service.py:143-188 | The intended notification step: its calls and outcome are exactly the plan of `PlanRun`. When nothing raised and a call was made, the channel flag follows the sends; otherwise it is unchanged. |
| Service.AnalysisService.MakeCalls | service.py:143-188 | It makes the completion call, then the change call. An error in the first stops the run before the second. The channel flag follows the sends when nothing raised. |
| Service.CountAsWrittenNeverZero | service.py:110 | `len()` of the bundle is never 0, so the decision is always a normal notice. |
| Service.EmptyRunStillNotifiedAsWritten | service.py:110-141 | An empty run after an empty run is notified as written, and silent under the intended rule. |
| Service.CompletionNoticeFaultsAsWritten | service.py:105-188 | As written, a run with completion notices on always raises; with a text template the error is the dict-slice error. With them off, after a previous run with results, it raises at `compare_results`. Otherwise it completes. The intended plan completes and sends the completion notice. |
| Service.CompletionNoticeSentAsIntended | service.py:143-152 | As intended, with completion notices on, a text template and some result rows, the run raises nothing and sends the completion notice with the row count and the rows. |
| Service.ChangeNoticeNeverSentAsWritten | service.py:172-188 | The change block taken by itself raises on `.get` whenever the intended rule would send a change notice. In the code as written the block is latent: line 152, or line 159 with completion notices off, raises first. |
| Service.LastBeatBounds | service.py:44-53 | With a clock that never goes back, the last heartbeat time covers every heartbeat logged so far. |
| Service.HeartbeatSpacing | service.py:44-53 | With a clock that never goes back, two logged heartbeats are at least 300 seconds apart. |
| Service.Slices | service.py:81-85 | Every sleep slice is 1 to 10 seconds, and there are none for a non-positive interval. |
| Service.SlicesSpec | service.py:81-85 | The slices sum to the interval. There is one per step of `range(0, interval, 10)`, each `min(10, interval - i)`. |
| Service.CycleWaitRules | service.py:55-92 | A run happens exactly when scheduling is on. A run that raised takes the error pause and skips the interval sleep. Otherwise a non-integer interval takes the fault pause. Otherwise the sleep takes the interval's slices in order. For a positive interval with no stop, they are all of them and sum to the interval. An error notice holds at most the first 100 characters of the error, and follows a raised run exactly when completion notices are on. |
| Service.ScheduledCyclesFaultAsWritten | service.py:55-76 | As written, with scheduling and completion notices on, every cycle's run raises, sends an error notice and takes the error pause; the interval sleep is never reached. |
| Service.AnalysisService.SleepInterval | service.py:80-85 | The sleep takes the slices in order, up to the slice where the stop lands. The check before that slice clears the flag. |
| Service.AnalysisService.RunIfEnabled | service.py:55-76 | The run as written happens exactly when `schedule_enabled` is on, and the table gains its row when the write succeeds. The error notice, the run's error truncated, is sent exactly when the run raised and `notify_on_complete` is on. The channel flag follows that send. |
| Service.AnalysisService.Cycle | service.py:55-92 | One cycle as written: the report is `CycleReportFor` against the latest stored run. The table follows the run, the channel flag follows the error notice, and a stop in this cycle clears the run flag. |
| Service.AnalysisService.ServiceLoop | service.py:40-94 | Nothing happens when the service is stopped. Cycles run until the first one in which a stop lands. Each report is `CycleReportFor` against the table the earlier cycles left, with a heartbeat exactly when 300 s have passed since the last. The table holds the rows of the runs that wrote. The channel flag is set exactly when some error notice went out on a platform that sets it up. With scheduling and completion notices on, every cycle raised, sent an error notice and took the error pause. |
| Screens.SplitInterval | main.py:287-289 | `interval // 60` and `interval % 60`: seconds in 0..59, and they recombine to the interval. |
| Screens.SplitUndoesTotal | main.py:352-356 | Splitting `minutes * 60 + seconds` gives back the fields when the seconds are below 60. |
| Screens.NextRunText | main.py:344-350 | "Not enabled" exactly when scheduling is off. Otherwise the interval split into minutes and seconds; no text only when the interval is not an integer. |
| Screens.ScheduleScreen.SaveInterval | main.py:352-368 | Text that is not an integer, and totals below 10 seconds, leave the settings and the file alone and show an error. Otherwise it stores the total, writes the file when the write succeeds, and shows the total. |
| Screens.ShownFieldsSaveBack | main.py:287-364 | Saving the fields shown for a stored interval of at least 10 seconds stores the same interval. |
| Screens.ParseField | main.py:556-563 | `REQUEST_DELAY` and `MIN_CHANGE_PERCENT` are `float()` of the stripped text, the other fields `int()` of it. A field parses exactly when that conversion succeeds, and the value is the converted number. |
| Screens.FirstNone | main.py:554-570 | The longest prefix that parses, and the first failure after it. |
| Screens.ParsedPrefix | main.py:554-570 | How many fields parse before the first that does not. |
| Screens.AssignSpec | main.py:556-564 | Setting distinct keys in turn stores each value, adds exactly those keys and touches nothing else. |
| Screens.SettingsScreen.SaveSettings | main.py:554-570 | The fields before the first bad one are stored. The file holds the settings after a successful write, unless no field was set. Then it shows "saved" or "input error". |
| Screens.SetFields | main.py:556-564 | The loop sets each key until a text does not parse. Each set writes the file, so after a successful write the file holds the settings whenever a field was set. |
| Screens.SettingsFieldsDistinct | main.py:556 | The settings fields are distinct keys. |
| Screens.ManualNoticeText | main.py:133-134 | The intended notice: with the default template it announces the number of symbols found. |
| Screens.ManualNoticeMiscounts | main.py:133-134 | An empty manual run is announced as "找到 4 个…" as written, and as "找到 0 个…" as intended. |
| Text.DigitsOfNat | main.py:344-364 | Reading back the printed digits of `n` gives `n`. |
| Text.IntToString | main.py:344-364 | `str(n)` is non-empty, starts with "-" exactly for negatives, and is all digits otherwise. |
| Text.StripSpec | main.py:557 | `strip()` leaves no leading or trailing whitespace and returns a contiguous piece of its input. |
| Text.StripLeftSpec | main.py:557 | Left stripping removes only leading whitespace. |
| Text.StripRightSpec | main.py:557 | Right stripping removes only trailing whitespace. |
| Text.ParseIntOfIntToString | main.py:354-355 | `int(str(n)) == n`. |
| Text.ParseIntOfDigits | main.py:563 | `int()` of a digit string is its value. |
| Text.ParseFloatOfIntToString | main.py:559-561 | `float(str(n)) == n`. |
| Text.ParseFloatOfDigits | main.py:559-561 | `float()` of a digit string is its value. |
| Text.ReplaceAllAbsent | notification_manager.py:183 | Replacing an absent pattern changes nothing. |
| Text.ReplaceAllBySelf | notification_manager.py:183 | Replacing a pattern by itself changes nothing. |
| Text.ReplaceAllSkipsPrefix | notification_manager.py:183 | A prefix that cannot start the pattern passes through unchanged. |

## Left out

- HTTP requests, JSON decoding, sqlite and file reads and writes are not
  modelled as such. Their answers are parameters (`Option` listings, ticker
  and bar answers per try, `writeOk`, the `Platform` of each channel).
- Failure to write the instrument cache (analysis_core.py:70-74) is not
  modelled. The source then falls back to the old cache.
- Database query failures other than a failed write are not modelled. Neither
  is the old-schema branch of each query (database.py:110-131 and the like):
  the model has one table layout.
- Database.CompareResults: returns sets, where the source returns lists in
  `set` iteration order, which the source does not fix.
- Threads, `join(timeout=5)` and the exact interleaving of `stop_service` with
  the loop are not modelled. A stop is modelled as arriving before one chosen
  sleep slice (`stopAt`).
- Float formatting (`:+.2f`, `strftime`) and float rounding are not modelled.
  Gains are exact reals.
- Text.ParseFloat: covers the forms `[-+]digits`, `[-+]digits.[digits]` and
  `[-+].digits`. Exponents, `inf`/`nan` and underscores are not accepted.
  `ParseInt` does not accept underscores either. Both accept only ASCII
  digits.
- AnalysisCore.TakeFromSet: the order of `list(set)` is not fixed by Python.
  The model proves the size, distinctness and membership of the result, not
  its order.
- The sleeps of the data fetches are not modelled: 0.5 s before a bars retry,
  5 s between ticker tries. The script's `REQUEST_DELAY` pause is counted,
  not timed (`delays` in `ReferenceOriginal.AnalyzeSymbols`). The app's
  engine never sleeps `REQUEST_DELAY`, although the setting exists.
- `analyze` looks the active set up twice: once itself, once inside
  `get_liquid_symbols`. The model keeps both lookups, with a clock reading
  and a listing for each (`MarketFeed`).
- Logging, the progress callback, the ETA text and `show_results` are not
  modelled. `show_results` reads a "conditions" key that the engine's rows do
  not carry (main.py:240). The engine's rows keep the gains once; their
  duplicate under "changes" is not modelled.
- Android and plyer internals (`_send_android_native`, `_send_plyer`) are not
  modelled. Whether each channel delivers is an input.
- Notifications.NotificationManager: the settings are a snapshot taken when
  the manager is made. The source's manager has its own settings store read
  from the same file, so edits made by other components are not seen.
- The settings-to-analyzer conversion in `BinanceAnalyzer.__init__` is not
  modelled. The service receives the analyzer's bundle as an input.
- Service.PlanRun: the zero notice calls `notify_zero_result`, which the
  notification manager does not define (service.py:149). The model keeps
  this as written: the call raises AttributeError. The source does not say
  what the notice should contain, so no corrected version is modelled.
- The script's KeyboardInterrupt branch, `format_results` and `main`
  (reference_original.py:204-206, 308 onwards) are not modelled.
- Screens.NextRunText: a stored interval that is not an integer gives `None`.
  The source would format whatever was stored (a float) or raise (text).
- AnalysisCore.BinanceAnalyzer.Analyze, AnalysisCore.BinanceAnalyzer.GetLiquidSymbols,
  AnalysisCore.FilterLiquid, AnalysisCore.IsLiquid and AnalysisCore.LiquidOfSpec:
  a JSON `null` quote volume in the ticker snapshot is modelled like a
  missing one (`quoteVolume` is `None`), and the symbol is skipped.
  In the source, `float(None)` raises TypeError, which the
  `except (ValueError, KeyError)` at analysis_core.py:210-214 does not catch.
  The run then ends in the error bundle with that message
  (analysis_core.py:313-325).
- Exception messages follow Python 3.11. Other versions word some of them
  differently; from 3.12 on, slicing a dict raises KeyError rather than
  "unhashable type: 'slice'".
- ReferenceOriginal.SortByRank: the order among rows with equal keys is built
  into `Insert` as Python's stable sort leaves it, but no lemma states it.
- Service.AnalysisService.RunIfEnabled: an exception raised by the error
  notice itself is not modelled. The source swallows it with a bare
  `except` (service.py:68-72). In the model, channel failures are outcomes,
  not exceptions.

## Findings

| source | as written | input that shows it | evidently intended | confidence | as-written member | corrected member |
|---|---|---|---|---|---|---|
| service.py:110 | `current_count = len(results)` where `results` is the bundle dict, so the count is its number of keys (4, or 5 with "error") | two runs in a row that both find nothing: the second is still notified as "found 4" | the number of result rows, `len(results["results"])` | not executed | Service.EmptyRunStillNotifiedAsWritten | Service.PlanRunOnZero |
| service.py:152 | the bundle dict is handed to `notify_analysis_complete`, which slices it (notification_manager.py:186-188) with `results[:3]` | any run with `notify_on_complete` on: slicing a dict raises "unhashable type: 'slice'" (a KeyError on Python 3.12+), so the run ends in the error path | pass the result rows, so the notice carries the top three rows | not executed | Service.CompletionNoticeFaultsAsWritten | Service.CompletionNoticeSentAsIntended |
| service.py:172-188 | `.get("symbol")` is called on the symbols in `comparison["new"]` and `comparison["removed"]`, which are strings, and lists are passed where counts are expected | latent as written, since line 152 or 159 raises first; taken by itself, two runs with results whose symbol sets differ | send the added and removed counts | not executed | Service.ChangeNoticeNeverSentAsWritten | Service.ChangeNoticeMeansDifferentSymbols |
| main.py:134 | `notify_analysis_complete(len(results))` on the bundle dict | a manual run that finds nothing: announced as "找到 4 个符合条件的交易对" | the number of result rows, "找到 0 个…" | not executed | Screens.ManualNoticeMiscounts | Screens.ManualNoticeText |
