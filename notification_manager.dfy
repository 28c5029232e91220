/**
 * Notifications: the three messages the app sends (run complete, symbols
 * changed, run failed) and the fan-out over the delivery channels (the
 * Android notification service, the desktop notifier, and the ServerChan
 * push service). What each channel does with a message is an input.
 */
module Notifications {
  import opened Wrappers
  import opened Text
  import opened AnalysisCore
  import Config

  /** `dict.get(key, default)` on the settings snapshot. */
  function Lookup(config: map<string, Config.Value>, key: string, default: Config.Value): (v: Config.Value)
    ensures key in config ==> v == config[key]
    ensures key !in config ==> v == default
  {
    if key in config then config[key] else default
  }

  /** The reply of the ServerChan endpoint: none (the request raised), or an HTTP status and the body's "code" if it had one. */
  datatype PushReply = NoReply | Reply(status: int, code: Option<int>)

  /** How every channel behaves for one send. */
  datatype Platform = Platform(
    isAndroid: bool,
    channelSetupOk: bool,   // creating the Android notification channel succeeds
    nativeOk: bool,         // posting through the Android notification service succeeds
    plyerAvailable: bool,   // the desktop notifier could be imported
    plyerOk: bool,          // and its call succeeds
    push: PushReply)

  /** `_send_serverchan`: off unless enabled and given a non-empty key; then it needs HTTP 200 and code 0. */
  predicate ServerChanDelivers(config: map<string, Config.Value>, push: PushReply)
  {
    && Config.Truthy(Lookup(config, "serverchan_enabled", Config.VBool(true)))
    && Config.Truthy(Lookup(config, "serverchan_key", Config.VStr("")))
    && push.Reply? && push.status == 200 && push.code == Some(0)
  }

  lemma ServerChanGate(config: map<string, Config.Value>, push: PushReply)
    ensures "serverchan_enabled" in config && !Config.Truthy(config["serverchan_enabled"]) ==> !ServerChanDelivers(config, push)
    ensures Lookup(config, "serverchan_key", Config.VStr("")) == Config.VStr("") ==> !ServerChanDelivers(config, push)
    ensures ServerChanDelivers(config, push) ==> push == Reply(200, Some(0))
  {
  }

  datatype Channel = Native | Plyer | ServerChan

  /** The channels `send_notification` tries, in order: on Android the native service then the notifier, elsewhere the notifier; ServerChan always. */
  function ChannelsTried(p: Platform): (cs: seq<Channel>)
    ensures |cs| == if p.isAndroid then 3 else 2
    ensures forall i, j :: 0 <= i < j < |cs| ==> cs[i] != cs[j]
    ensures ServerChan in cs && cs[|cs| - 1] == ServerChan
    ensures Native in cs <==> p.isAndroid
    ensures p.isAndroid ==> cs[0] == Native && cs[1] == Plyer
    ensures !p.isAndroid ==> cs[0] == Plyer
  {
    if p.isAndroid then [Native, Plyer, ServerChan] else [Plyer, ServerChan]
  }

  predicate Delivers(c: Channel, p: Platform, config: map<string, Config.Value>)
  {
    match c
    case Native => p.nativeOk
    case Plyer => p.plyerAvailable && p.plyerOk
    case ServerChan => ServerChanDelivers(config, p.push)
  }

  function CountDelivered(cs: seq<Channel>, p: Platform, config: map<string, Config.Value>): (n: nat)
    ensures n <= |cs|
    ensures n > 0 <==> exists i :: 0 <= i < |cs| && Delivers(cs[i], p, config)
  {
    if cs == [] then 0
    else
      var rest := CountDelivered(cs[1..], p, config);
      assert forall i :: 1 <= i < |cs| ==> cs[1..][i - 1] == cs[i];
      (if Delivers(cs[0], p, config) then 1 else 0) + rest
  }

  /** One preview line: rank, symbol and the three gains in percent. */
  datatype PreviewEntry = PreviewEntry(rank: nat, symbol: string, gain1dPct: real, gain2dPct: real, gain3dPct: real)

  function PreviewOf(rank: nat, r: ResultItem): PreviewEntry
  {
    PreviewEntry(rank, r.symbol, r.gains.gain1d * 100.0, r.gains.gain2d * 100.0, r.gains.gain3d * 100.0)
  }

  /**
   * A message as sent: the text, then (when `preview` is non-empty) the
   * "【前3名币种】" heading and one two-line block per preview entry. The
   * fixed-point rendering of the percentages is not modelled.
   */
  datatype Message = Message(text: string, preview: seq<PreviewEntry>)

  const DEFAULT_COMPLETE_TITLE: string := "分析完成"
  const DEFAULT_COMPLETE_TEMPLATE: string := "找到 {count} 个符合条件的交易对"
  const COUNT_PLACEHOLDER: string := "{count}"
  const CHANGES_TITLE: string := "检测到变化"
  const ERROR_TITLE: string := "分析出错"
  const ERROR_TEXT_LIMIT: nat := 100
  const PREVIEW_SIZE: nat := 3

  /** The preview loop over `results[:3]`, numbering from 1. */
  method BuildPreview(results: seq<ResultItem>) returns (preview: seq<PreviewEntry>)
    ensures |preview| == if |results| < PREVIEW_SIZE then |results| else PREVIEW_SIZE
    ensures forall i :: 0 <= i < |preview| ==> preview[i] == PreviewOf(i + 1, results[i])
  {
    preview := [];
    var top := if |results| < PREVIEW_SIZE then results else results[..PREVIEW_SIZE];
    var i := 0;
    while i < |top|
      invariant 0 <= i <= |top|
      invariant |preview| == i
      invariant forall j :: 0 <= j < i ==> preview[j] == PreviewOf(j + 1, results[j])
    {
      preview := preview + [PreviewOf(i + 1, top[i])];
      i := i + 1;
    }
  }

  /** The default template with `{count}` filled is the sentence with the number in it. */
  lemma DefaultTemplateFilled(n: int)
    ensures ReplaceAll(DEFAULT_COMPLETE_TEMPLATE, COUNT_PLACEHOLDER, IntToString(n))
         == "找到 " + IntToString(n) + " 个符合条件的交易对"
  {
    var head, tail := "找到 ", " 个符合条件的交易对";
    assert DEFAULT_COMPLETE_TEMPLATE == head + COUNT_PLACEHOLDER + tail;
    FillOnce(head, tail, IntToString(n));
  }

  /** A template with one placeholder, and no '{' elsewhere, gets the replacement in its place. */
  lemma FillOnce(head: string, tail: string, rep: string)
    requires forall i :: 0 <= i < |head| ==> head[i] != '{'
    requires forall i :: 0 <= i < |tail| ==> tail[i] != '{'
    ensures ReplaceAll(head + COUNT_PLACEHOLDER + tail, COUNT_PLACEHOLDER, rep) == head + rep + tail
  {
    assert COUNT_PLACEHOLDER[0] == '{';
    assert head + COUNT_PLACEHOLDER + tail == head + (COUNT_PLACEHOLDER + tail);
    ReplaceAllSkipsPrefix(head, COUNT_PLACEHOLDER + tail, COUNT_PLACEHOLDER, rep);
    PlaceholderFirst(tail, rep);
    ReplaceAllSkipsPrefix(tail, [], COUNT_PLACEHOLDER, rep);
    assert tail + [] == tail;
    assert ReplaceAll([], COUNT_PLACEHOLDER, rep) == [];
  }

  lemma PlaceholderFirst(tail: string, rep: string)
    ensures ReplaceAll(COUNT_PLACEHOLDER + tail, COUNT_PLACEHOLDER, rep) == rep + ReplaceAll(tail, COUNT_PLACEHOLDER, rep)
  {
    var s := COUNT_PLACEHOLDER + tail;
    assert s[..|COUNT_PLACEHOLDER|] == COUNT_PLACEHOLDER;
    assert s[|COUNT_PLACEHOLDER|..] == tail;
  }

  /** A template without the placeholder is sent as it is, whatever the count. */
  lemma TemplateWithoutPlaceholder(template: string, n: int)
    requires forall i: nat :: !OccursAt(template, COUNT_PLACEHOLDER, i)
    ensures ReplaceAll(template, COUNT_PLACEHOLDER, IntToString(n)) == template
  {
    ReplaceAllAbsent(template, COUNT_PLACEHOLDER, IntToString(n));
  }

  /** `notify_changes_detected`'s text: the "added" part when something was added, the "removed" part when something was removed, in that order, joined by "、". */
  function ChangeText(newCount: int, removedCount: int): (r: string)
    ensures newCount > 0 && removedCount > 0 ==>
      r == "新增 " + IntToString(newCount) + " 个币种" + "、" + "移除 " + IntToString(removedCount) + " 个币种"
    ensures newCount > 0 && removedCount <= 0 ==> r == "新增 " + IntToString(newCount) + " 个币种"
    ensures newCount <= 0 && removedCount > 0 ==> r == "移除 " + IntToString(removedCount) + " 个币种"
    ensures newCount <= 0 && removedCount <= 0 ==> r == ""
  {
    var parts := (if newCount > 0 then ["新增 " + IntToString(newCount) + " 个币种"] else [])
               + (if removedCount > 0 then ["移除 " + IntToString(removedCount) + " 个币种"] else []);
    Join(parts, "、")
  }

  /** `notify_error`'s text: the first 100 characters of the error. */
  function ErrorText(error: string): (r: string)
    ensures |r| <= ERROR_TEXT_LIMIT
    ensures r <= error
    ensures |error| <= ERROR_TEXT_LIMIT ==> r == error
  {
    if |error| <= ERROR_TEXT_LIMIT then error else error[..ERROR_TEXT_LIMIT]
  }

  /** The message of Python's `AttributeError` for an attribute an object does not have. */
  function NoAttribute(typeName: string, name: string): string
  {
    "'" + typeName + "' object has no attribute '" + name + "'"
  }

  /** The message of slicing a dict: a slice is not a valid key. */
  const SLICE_OF_DICT: string := "unhashable type: 'slice'"

  /**
   * What `notify_analysis_complete` is handed as `results`: nothing (the
   * home screen's call), the result rows, or the whole result bundle (the
   * scheduler's call, service.py:152).
   */
  datatype ResultsArg = NoResults | Rows(rows: seq<ResultItem>) | WholeBundle(bundle: ResultBundle)

  /**
   * The error `notify_analysis_complete` raises before it sends anything:
   * `.replace` on a template that is not text, then `results[:3]` on a
   * bundle, which is a non-empty dict and so passes the `if results` test.
   */
  function CompleteNoticeFault(config: map<string, Config.Value>, results: ResultsArg): Option<string>
  {
    var template := Lookup(config, "serverchan_content", Config.VStr(DEFAULT_COMPLETE_TEMPLATE));
    if !template.VStr? then Some(NoAttribute(Config.TypeName(template), "replace"))
    else if results.WholeBundle? then Some(SLICE_OF_DICT)
    else None
  }

  /** The completion notice raises for every bundle, and for rows or nothing exactly when the template is not text. */
  lemma CompleteNoticeFaultCases(config: map<string, Config.Value>, results: ResultsArg)
    ensures results.WholeBundle? ==> CompleteNoticeFault(config, results).Some?
    ensures !results.WholeBundle? ==>
      (CompleteNoticeFault(config, results).Some? <==> !Lookup(config, "serverchan_content", Config.VStr(DEFAULT_COMPLETE_TEMPLATE)).VStr?)
    ensures CompleteNoticeFault(config, results).Some? && Lookup(config, "serverchan_content", Config.VStr(DEFAULT_COMPLETE_TEMPLATE)).VStr? ==>
      CompleteNoticeFault(config, results) == Some(SLICE_OF_DICT)
  {
  }

  /** The rows the preview is built from: none when `results` is `None`. */
  function PreviewRows(results: ResultsArg): seq<ResultItem>
  {
    match results
    case Rows(rs) => rs
    case _ => []
  }

  /** A send on `p` sets the Android notification channel up. */
  predicate SetsChannelUp(p: Platform)
  {
    p.isAndroid && p.channelSetupOk
  }

  /** The Android channel flag after a send on `p`: the first successful setup sets it, and nothing clears it. */
  function CreatedAfter(created: bool, p: Platform): bool
  {
    created || SetsChannelUp(p)
  }

  /** What a notify call did: sent a message (and whether any channel delivered it), or raised. */
  datatype SendOutcome = Sent(title: Config.Value, message: Message, delivered: bool) | Raised(error: string)

  class NotificationManager {
    /** The settings as read when the manager was made; later edits by other components are not seen. */
    const config: map<string, Config.Value>
    var channelCreated: bool
    /** How many times the Android notification channel was registered. */
    var channelRegistrations: nat

    ghost predicate Valid()
      reads this
    {
      && channelRegistrations <= 1
      && (channelCreated <==> channelRegistrations == 1)
    }

    constructor (config: map<string, Config.Value>)
      ensures Valid() && this.config == config && !channelCreated && channelRegistrations == 0
    {
      this.config := config;
      channelCreated := false;
      channelRegistrations := 0;
    }

    /** `_create_notification_channel`: registers the channel once; after success it answers true without registering again. */
    method CreateNotificationChannel(setupOk: bool) returns (ok: bool)
      requires Valid()
      modifies this
      ensures Valid()
      ensures old(channelCreated) ==> ok && channelCreated && channelRegistrations == old(channelRegistrations)
      ensures !old(channelCreated) ==>
        ok == setupOk && channelCreated == setupOk && channelRegistrations == old(channelRegistrations) + (if setupOk then 1 else 0)
    {
      if channelCreated {
        return true;
      }
      if !setupOk {
        return false;
      }
      channelRegistrations := channelRegistrations + 1;
      channelCreated := true;
      ok := true;
    }

    /**
     * `send_notification`: tries every applicable channel without stopping
     * at the first success, and reports whether any delivered.
     */
    method SendNotification(p: Platform) returns (delivered: bool, successCount: nat)
      requires Valid()
      modifies this
      ensures Valid()
      ensures successCount == CountDelivered(ChannelsTried(p), p, config)
      ensures delivered <==> exists c :: c in ChannelsTried(p) && Delivers(c, p, config)
      ensures channelCreated == CreatedAfter(old(channelCreated), p)
      ensures channelRegistrations == old(channelRegistrations) + (if channelCreated && !old(channelCreated) then 1 else 0)
    {
      successCount := 0;
      if p.isAndroid {
        var _ := CreateNotificationChannel(p.channelSetupOk);
        if p.nativeOk {
          successCount := successCount + 1;
        }
        if p.plyerAvailable && p.plyerOk {
          successCount := successCount + 1;
        }
      } else {
        if p.plyerAvailable && p.plyerOk {
          successCount := successCount + 1;
        }
      }
      if ServerChanDelivers(config, p.push) {
        successCount := successCount + 1;
      }
      delivered := successCount > 0;
      assert ChannelsTried(p)[|ChannelsTried(p)| - 1] == ServerChan;
    }

    /**
     * `notify_analysis_complete`: the configured title and template with
     * every `{count}` replaced by the count, plus a preview of the first
     * three result rows. It raises, sending nothing, as `CompleteNoticeFault`
     * says.
     */
    method NotifyAnalysisComplete(symbolCount: int, results: ResultsArg, p: Platform) returns (outcome: SendOutcome)
      requires Valid()
      modifies this
      ensures Valid()
      ensures outcome.Raised? <==> CompleteNoticeFault(config, results).Some?
      ensures outcome.Raised? ==>
        && outcome.error == CompleteNoticeFault(config, results).value
        && channelCreated == old(channelCreated) && channelRegistrations == old(channelRegistrations)
      ensures outcome.Sent? ==>
        && outcome.title == Lookup(config, "serverchan_title", Config.VStr(DEFAULT_COMPLETE_TITLE))
        && outcome.message.text
           == ReplaceAll(Lookup(config, "serverchan_content", Config.VStr(DEFAULT_COMPLETE_TEMPLATE)).s,
                         COUNT_PLACEHOLDER, IntToString(symbolCount))
        && (var rows := PreviewRows(results);
            && |outcome.message.preview| == (if |rows| < PREVIEW_SIZE then |rows| else PREVIEW_SIZE)
            && (forall i :: 0 <= i < |outcome.message.preview| ==> outcome.message.preview[i] == PreviewOf(i + 1, rows[i])))
        && (outcome.delivered <==> exists c :: c in ChannelsTried(p) && Delivers(c, p, config))
        && channelCreated == CreatedAfter(old(channelCreated), p)
        && channelRegistrations == old(channelRegistrations) + (if channelCreated && !old(channelCreated) then 1 else 0)
    {
      var title := Lookup(config, "serverchan_title", Config.VStr(DEFAULT_COMPLETE_TITLE));
      var template := Lookup(config, "serverchan_content", Config.VStr(DEFAULT_COMPLETE_TEMPLATE));
      if !template.VStr? {
        return Raised(NoAttribute(Config.TypeName(template), "replace"));
      }
      var text := ReplaceAll(template.s, COUNT_PLACEHOLDER, IntToString(symbolCount));
      var preview := [];
      match results {
        case WholeBundle(_) =>
          return Raised(SLICE_OF_DICT);
        case Rows(rs) =>
          preview := BuildPreview(rs);
        case NoResults =>
      }
      var delivered, _ := SendNotification(p);
      outcome := Sent(title, Message(text, preview), delivered);
    }

    /** `notify_changes_detected`: title "检测到变化" and the change text. */
    method NotifyChangesDetected(newCount: int, removedCount: int, p: Platform) returns (outcome: SendOutcome)
      requires Valid()
      modifies this
      ensures Valid()
      ensures outcome == Sent(Config.VStr(CHANGES_TITLE), Message(ChangeText(newCount, removedCount), []),
                              exists c :: c in ChannelsTried(p) && Delivers(c, p, config))
      ensures channelCreated == CreatedAfter(old(channelCreated), p)
      ensures channelRegistrations == old(channelRegistrations) + (if channelCreated && !old(channelCreated) then 1 else 0)
    {
      var delivered, _ := SendNotification(p);
      outcome := Sent(Config.VStr(CHANGES_TITLE), Message(ChangeText(newCount, removedCount), []), delivered);
    }

    /** `notify_error`: title "分析出错" and at most the first 100 characters of the error. */
    method NotifyError(error: string, p: Platform) returns (outcome: SendOutcome)
      requires Valid()
      modifies this
      ensures Valid()
      ensures outcome == Sent(Config.VStr(ERROR_TITLE), Message(ErrorText(error), []),
                              exists c :: c in ChannelsTried(p) && Delivers(c, p, config))
      ensures channelCreated == CreatedAfter(old(channelCreated), p)
      ensures channelRegistrations == old(channelRegistrations) + (if channelCreated && !old(channelCreated) then 1 else 0)
    {
      var delivered, _ := SendNotification(p);
      outcome := Sent(Config.VStr(ERROR_TITLE), Message(ErrorText(error), []), delivered);
    }
  }
}
