/**
 * The settings arithmetic of the app's screens: the schedule screen's
 * minutes/seconds fields and next-run label, the settings screen's save
 * loop, and the count the home screen's manual run reports. Widgets,
 * colours and threads are not modelled.
 */
module Screens {
  import opened Wrappers
  import opened Text
  import opened AnalysisCore
  import Config
  import Notifications
  import Service
  import opened Sequences

  const MIN_INTERVAL: int := 10

  /** The interval the two fields describe, in seconds. */
  function IntervalTotal(minutes: int, seconds: int): (t: int)
  {
    minutes * 60 + seconds
  }

  /** The fields the schedule screen shows for an interval: `interval // 60` and `interval % 60`. */
  function SplitInterval(interval: int): (ms: (int, int))
    ensures 0 <= ms.1 < 60
    ensures IntervalTotal(ms.0, ms.1) == interval
  {
    (interval / 60, interval % 60)
  }

  /** Splitting undoes the total whenever the seconds field is below a minute. */
  lemma SplitUndoesTotal(minutes: int, seconds: int)
    requires 0 <= seconds < 60
    ensures SplitInterval(IntervalTotal(minutes, seconds)) == (minutes, seconds)
  {
    var t := IntervalTotal(minutes, seconds);
    var q, r := t / 60, t % 60;
    assert t == q * 60 + r && 0 <= r < 60;
    assert (q - minutes) * 60 == seconds - r;
  }

  /** A field's text as `int(text or "0")` reads it: an empty field counts as zero. */
  function FieldValue(text: string): (v: Option<int>)
    ensures text == "" ==> v == Some(0)
    ensures text != "" ==> v == ParseInt(text)
  {
    if text == "" then Some(0) else ParseInt(text)
  }

  const NOT_ENABLED_TEXT: string := "下次运行: 未启用"
  const TOO_SHORT_TEXT: string := "错误: 间隔不能少于10秒"
  const NOT_A_NUMBER_TEXT: string := "错误: 请输入有效数字"

  function MinutesSecondsText(minutes: int, seconds: int): string
  {
    IntToString(minutes) + "分" + IntToString(seconds) + "秒"
  }

  /**
   * `_get_next_run_text`: "not enabled" exactly when scheduling is off;
   * otherwise the interval split into minutes and seconds. An interval that
   * is not an integer is not modelled (`None`), and only that case.
   */
  function NextRunText(config: map<string, Config.Value>): (r: Option<string>)
    ensures !Config.Truthy(Notifications.Lookup(config, "schedule_enabled", Config.VBool(false))) <==> r == Some(NOT_ENABLED_TEXT)
    ensures r.None? <==>
      && Config.Truthy(Notifications.Lookup(config, "schedule_enabled", Config.VBool(false)))
      && Service.IntervalOf(Notifications.Lookup(config, "schedule_interval", Config.VInt(Service.DEFAULT_INTERVAL))).None?
    ensures r.Some? && r != Some(NOT_ENABLED_TEXT) ==>
      var interval := Service.IntervalOf(Notifications.Lookup(config, "schedule_interval", Config.VInt(Service.DEFAULT_INTERVAL)));
      && interval.Some?
      && r.value == "下次运行: 已启用 (间隔 " + MinutesSecondsText(SplitInterval(interval.value).0, SplitInterval(interval.value).1) + ")"
  {
    if !Config.Truthy(Notifications.Lookup(config, "schedule_enabled", Config.VBool(false))) then Some(NOT_ENABLED_TEXT)
    else match Service.IntervalOf(Notifications.Lookup(config, "schedule_interval", Config.VInt(Service.DEFAULT_INTERVAL)))
      case None => None
      case Some(interval) =>
        var text := "下次运行: 已启用 (间隔 " + MinutesSecondsText(interval / 60, interval % 60) + ")";
        assert text[6] == '已' && NOT_ENABLED_TEXT[6] == '未';
        Some(text)
  }

  class ScheduleScreen {
    const config: Config.ConfigManager
    /** The next-run label's text. */
    var nextRunLabel: string

    constructor (config: Config.ConfigManager)
      ensures this.config == config && nextRunLabel == ""
    {
      this.config := config;
      nextRunLabel := "";
    }

    /**
     * `save_interval`: read both fields (empty as 0), reject text that is
     * not an integer and totals below 10 seconds without touching the
     * settings, otherwise store the total under "schedule_interval".
     */
    method SaveInterval(minutesText: string, secondsText: string, writeOk: bool)
      requires config.Valid()
      modifies config, this`nextRunLabel
      ensures config.Valid()
      ensures FieldValue(minutesText).None? || FieldValue(secondsText).None? ==>
        nextRunLabel == NOT_A_NUMBER_TEXT && config.config == old(config.config) && config.file == old(config.file)
      ensures FieldValue(minutesText).Some? && FieldValue(secondsText).Some? ==>
        var m, s := FieldValue(minutesText).value, FieldValue(secondsText).value;
        if IntervalTotal(m, s) < MIN_INTERVAL then
          nextRunLabel == TOO_SHORT_TEXT && config.config == old(config.config) && config.file == old(config.file)
        else
          && config.config == old(config.config)["schedule_interval" := Config.VInt(IntervalTotal(m, s))]
          && config.file == (if writeOk then Config.Loaded(config.config) else old(config.file))
          && nextRunLabel == "已保存: 间隔 " + MinutesSecondsText(m, s)
    {
      var minutes := FieldValue(minutesText);
      var seconds := FieldValue(secondsText);
      if minutes.None? || seconds.None? {
        nextRunLabel := NOT_A_NUMBER_TEXT;
        return;
      }
      var total := IntervalTotal(minutes.value, seconds.value);
      if total < MIN_INTERVAL {
        nextRunLabel := TOO_SHORT_TEXT;
        return;
      }
      var _ := config.Set("schedule_interval", Config.VInt(total), true, writeOk);
      nextRunLabel := "已保存: 间隔 " + MinutesSecondsText(minutes.value, seconds.value);
    }
  }

  /** Saving the fields the screen shows for a stored interval of at least 10 seconds stores that interval again. */
  lemma ShownFieldsSaveBack(interval: int)
    requires interval >= MIN_INTERVAL
    ensures var (m, s) := SplitInterval(interval);
      && FieldValue(IntToString(m)) == Some(m)
      && FieldValue(IntToString(s)) == Some(s)
      && IntervalTotal(m, s) == interval
  {
    var (m, s) := SplitInterval(interval);
    ParseIntOfIntToString(m);
    ParseIntOfIntToString(s);
  }

  /** The settings screen's fields, in the order the screen lists them and the save loop visits them. */
  const SETTINGS_FIELDS: seq<string> := Config.ANALYZER_KEYS

  /** `REQUEST_DELAY` and `MIN_CHANGE_PERCENT` are read with `float()`, the others with `int()`. */
  function ParseField(key: string, text: string): (v: Option<Config.Value>)
    ensures v.Some? && (key == "REQUEST_DELAY" || key == "MIN_CHANGE_PERCENT") ==> v.value.VReal?
    ensures v.Some? && key != "REQUEST_DELAY" && key != "MIN_CHANGE_PERCENT" ==> v.value.VInt?
    ensures key == "REQUEST_DELAY" || key == "MIN_CHANGE_PERCENT" ==>
      && (v.Some? <==> ParseFloat(Strip(text)).Some?)
      && (v.Some? ==> v.value.r == ParseFloat(Strip(text)).value)
    ensures key != "REQUEST_DELAY" && key != "MIN_CHANGE_PERCENT" ==>
      && (v.Some? <==> ParseInt(Strip(text)).Some?)
      && (v.Some? ==> v.value.i == ParseInt(Strip(text)).value)
  {
    var t := Strip(text);
    if key == "REQUEST_DELAY" || key == "MIN_CHANGE_PERCENT" then
      match ParseFloat(t) case Some(r) => Some(Config.VReal(r)) case None => None
    else
      match ParseInt(t) case Some(i) => Some(Config.VInt(i)) case None => None
  }

  /** Each field's text parsed as its key demands. */
  function ParsedFields(keys: seq<string>, texts: seq<string>): (vs: seq<Option<Config.Value>>)
    requires |texts| == |keys|
    ensures |vs| == |keys| && forall j :: 0 <= j < |keys| ==> vs[j] == ParseField(keys[j], texts[j])
  {
    seq(|keys|, j requires 0 <= j < |keys| => ParseField(keys[j], texts[j]))
  }

  /** The length of the longest prefix without a `None`. */
  function FirstNone<T>(xs: seq<Option<T>>): (n: nat)
    ensures n <= |xs|
    ensures forall j :: 0 <= j < n ==> xs[j].Some?
    ensures n < |xs| ==> xs[n].None?
  {
    if xs == [] || xs[0].None? then 0
    else
      var rest := FirstNone(xs[1..]);
      assert forall j :: 1 <= j < rest + 1 ==> xs[j] == xs[1..][j - 1];
      1 + rest
  }

  /** How many fields, from the first, parse before the first one that does not. */
  function ParsedPrefix(keys: seq<string>, texts: seq<string>): (n: nat)
    requires |texts| == |keys|
    ensures n <= |texts|
    ensures forall j :: 0 <= j < n ==> ParseField(keys[j], texts[j]).Some?
    ensures n < |texts| ==> ParseField(keys[n], texts[n]).None?
  {
    FirstNone(ParsedFields(keys, texts))
  }

  /** `m` with `keys[j]` set to the value in `vals[j]`, one key after another. */
  function Assign(m: map<string, Config.Value>, keys: seq<string>, vals: seq<Option<Config.Value>>): map<string, Config.Value>
    requires |vals| == |keys| && forall j :: 0 <= j < |vals| ==> vals[j].Some?
  {
    if keys == [] then m
    else
      var last := |keys| - 1;
      Assign(m, keys[..last], vals[..last])[keys[last] := vals[last].value]
  }

  /** Assigning distinct keys stores each one's value, adds exactly those keys and touches nothing else. */
  lemma {:induction false} AssignSpec(m: map<string, Config.Value>, keys: seq<string>, vals: seq<Option<Config.Value>>)
    requires |vals| == |keys| && forall j :: 0 <= j < |vals| ==> vals[j].Some?
    requires Distinct(keys)
    ensures Assign(m, keys, vals).Keys == m.Keys + set j | 0 <= j < |keys| :: keys[j]
    ensures forall j :: 0 <= j < |keys| ==> Assign(m, keys, vals)[keys[j]] == vals[j].value
    ensures forall k :: k in m && k !in keys ==> Assign(m, keys, vals)[k] == m[k]
  {
    if keys != [] {
      var last := |keys| - 1;
      AssignSpec(m, keys[..last], vals[..last]);
      var r := Assign(m, keys[..last], vals[..last]);
      assert (set j | 0 <= j < |keys| :: keys[j]) == (set j | 0 <= j < last :: keys[..last][j]) + {keys[last]};
      forall j | 0 <= j < last
        ensures Assign(m, keys, vals)[keys[j]] == vals[j].value
      {
        assert keys[j] != keys[last];
        assert keys[..last][j] == keys[j];
      }
    }
  }

  const SAVED_TEXT: string := "✓ 设置已保存"
  const BAD_INPUT_TEXT: string := "输入格式错误"

  class SettingsScreen {
    const config: Config.ConfigManager
    var status: string

    constructor (config: Config.ConfigManager)
      ensures this.config == config && status == ""
    {
      this.config := config;
      status := "";
    }

    /**
     * `save_settings`: set each field in order, saving after each; the first
     * field that does not parse stops the loop with the fields before it
     * already stored.
     */
    method SaveSettings(texts: seq<string>, writeOk: bool)
      requires |texts| == |SETTINGS_FIELDS|
      requires config.Valid()
      modifies config, this`status
      ensures config.Valid()
      ensures var n := ParsedPrefix(SETTINGS_FIELDS, texts);
        var vs := ParsedFields(SETTINGS_FIELDS, texts);
        && config.config == Assign(old(config.config), SETTINGS_FIELDS[..n], vs[..n])
        && config.file == (if n > 0 && writeOk then Config.Loaded(config.config) else old(config.file))
        && status == (if n == |texts| then SAVED_TEXT else BAD_INPUT_TEXT)
    {
      var complete := SetFields(config, SETTINGS_FIELDS, texts, writeOk);
      status := if complete then SAVED_TEXT else BAD_INPUT_TEXT;
    }
  }

  /** Below the parsed prefix, field `j` parses exactly when the prefix reaches past it. */
  lemma PrefixStep(keys: seq<string>, texts: seq<string>, j: nat)
    requires |texts| == |keys| && j < |keys| && j <= ParsedPrefix(keys, texts)
    ensures ParseField(keys[j], texts[j]).Some? <==> j < ParsedPrefix(keys, texts)
    ensures ParseField(keys[j], texts[j]).Some? ==> ParsedFields(keys, texts)[j] == ParseField(keys[j], texts[j])
  {
  }

  /** The loop of `save_settings`: set `keys[j]` from `texts[j]` until a text does not parse. */
  method SetFields(config: Config.ConfigManager, keys: seq<string>, texts: seq<string>, writeOk: bool) returns (complete: bool)
    requires |texts| == |keys|
    requires config.Valid()
    modifies config
    ensures config.Valid()
    ensures var n := ParsedPrefix(keys, texts);
      && config.config == Assign(old(config.config), keys[..n], ParsedFields(keys, texts)[..n])
      && config.file == (if n > 0 && writeOk then Config.Loaded(config.config) else old(config.file))
      && complete == (n == |keys|)
  {
    ghost var vs := ParsedFields(keys, texts);
    ghost var n := ParsedPrefix(keys, texts);
    var j := 0;
    while j < |keys| && ParseField(keys[j], texts[j]).Some?
      invariant 0 <= j <= n
      invariant config.Valid()
      invariant config.config == Assign(old(config.config), keys[..j], vs[..j])
      invariant config.file == if j > 0 && writeOk then Config.Loaded(config.config) else old(config.file)
    {
      PrefixStep(keys, texts, j);
      var value := ParseField(keys[j], texts[j]);
      assert keys[..j + 1][..j] == keys[..j];
      assert vs[..j + 1][..j] == vs[..j];
      var _ := config.Set(keys[j], value.value, true, writeOk);
      j := j + 1;
    }
    if j < |keys| {
      PrefixStep(keys, texts, j);   // the first field that does not parse ends the loop at the prefix
    }
    complete := j == |keys|;
  }

  lemma SettingsFieldsDistinct()
    ensures Distinct(SETTINGS_FIELDS)
  {
  }

  /** The count the home screen's manual run puts in its notice, as written: `len()` of the bundle, i.e. its number of keys. */
  function ManualNoticeCountAsWritten(b: ResultBundle): (n: nat)
  {
    Service.CountAsWritten(b)
  }

  /** The manual run's completion text as written: `template` filled with `len()` of the bundle. */
  function ManualNoticeTextAsWritten(template: string, b: ResultBundle): string
  {
    ReplaceAll(template, Notifications.COUNT_PLACEHOLDER, IntToString(ManualNoticeCountAsWritten(b)))
  }

  /**
   * The manual run's completion text as intended: `template` filled with the
   * number of symbols found; with the default template it announces that
   * number.
   */
  function ManualNoticeText(template: string, b: ResultBundle): (t: string)
    ensures template == Notifications.DEFAULT_COMPLETE_TEMPLATE ==>
      t == "找到 " + IntToString(|b.results|) + " 个符合条件的交易对"
  {
    Notifications.DefaultTemplateFilled(|b.results|);
    ReplaceAll(template, Notifications.COUNT_PLACEHOLDER, IntToString(|b.results|))
  }

  /**
   * A manual run that found nothing is announced with the default template
   * as "找到 4 个…"; the intended count gives "找到 0 个…".
   */
  lemma ManualNoticeMiscounts()
    ensures var b := ResultBundle([], 0.0, 0.0, 0.0, None);
      var template := Notifications.DEFAULT_COMPLETE_TEMPLATE;
      && ManualNoticeTextAsWritten(template, b) == "找到 " + IntToString(4) + " 个符合条件的交易对"
      && ManualNoticeText(template, b) == "找到 " + IntToString(0) + " 个符合条件的交易对"
  {
    Notifications.DefaultTemplateFilled(4);
  }
}
