/** Channel health decisions of `service/channel.go`: whether an upstream
    error should auto-disable a channel, whether a successful probe should
    re-enable it, and the status change plus root-user notification that
    follows either decision. */
module ChannelHealth {

  import opened Wrappers
  import opened Text
  import opened ChannelTypes

  /** The signal fields of an upstream error (`*types.NewAPIError`):
      `isChannelError` and `isLocalError` are what `types.IsChannelError`
      and `types.IsLocalError` report, `openAiCode`/`openAiType` come from
      `ToOpenAIError()`, and `message` is `Error()`. */
  datatype NewApiError = NewApiError(
    isChannelError: bool,
    isLocalError: bool,
    statusCode: int,
    openAiCode: string,
    openAiType: string,
    message: string
  )

  /** The keyword matcher `AcSearch(text, keywords, true)`: whether some
      configured keyword occurs in `text`. */
  type KeywordSearch = (string, seq<string>) -> bool

  const HttpUnauthorized: int := 401
  const HttpForbidden: int := 403

  /** Provider error codes that always mean the credential is unusable. */
  const DisablingCodes: set<string> :=
    {"invalid_api_key", "account_deactivated", "billing_not_active", "pre_consume_token_quota_failed"}

  /** Provider error types that always mean the credential is unusable. */
  const DisablingTypes: set<string> :=
    {"insufficient_quota", "insufficient_user_quota", "authentication_error", "permission_error", "forbidden"}

  /** Some structural rule (status, code or type) condemns the credential,
      independently of the keyword list. */
  predicate StructuralDisable(channelType: int, e: NewApiError) {
    || e.statusCode == HttpUnauthorized
    || (e.statusCode == HttpForbidden && channelType == ChannelTypeGemini)
    || e.openAiCode in DisablingCodes
    || e.openAiType in DisablingTypes
  }

  /** `ShouldDisableChannel`: an ordered decision table, first match wins.
      `autoDisable` is the process-wide auto-disable switch and `keywords`
      the configured disable keywords. */
  function ShouldDisableChannel(autoDisable: bool, keywords: seq<string>, search: KeywordSearch,
                                channelType: int, err: Option<NewApiError>): (r: bool)
    ensures !autoDisable || err.None? ==> !r
    ensures autoDisable && err.Some? && err.value.isChannelError ==> r
    ensures err.Some? && !err.value.isChannelError && err.value.isLocalError ==> !r
    ensures autoDisable && err.Some? && !err.value.isChannelError && !err.value.isLocalError ==>
              (r <==> StructuralDisable(channelType, err.value)
                      || search(ToLowerAscii(err.value.message), keywords))
  {
    if !autoDisable then false
    else if err.None? then false
    else
      var e := err.value;
      if e.isChannelError then true
      else if e.isLocalError then false
      else if e.statusCode == HttpUnauthorized then true
      else if e.statusCode == HttpForbidden && channelType == ChannelTypeGemini then true
      else if e.openAiCode == "invalid_api_key" || e.openAiCode == "account_deactivated"
              || e.openAiCode == "billing_not_active" || e.openAiCode == "pre_consume_token_quota_failed"
      then true
      else if e.openAiType == "insufficient_quota" || e.openAiType == "insufficient_user_quota"
              || e.openAiType == "authentication_error" || e.openAiType == "permission_error"
              || e.openAiType == "forbidden"
      then true
      else search(ToLowerAscii(e.message), keywords)
  }

  /** A local failure never disables a channel, whatever its message says
      and whatever keywords are configured. */
  lemma LocalErrorNeverDisables(autoDisable: bool, keywords: seq<string>, search: KeywordSearch,
                                channelType: int, e: NewApiError)
    requires e.isLocalError && !e.isChannelError
    requires search(ToLowerAscii(e.message), keywords)
    ensures !ShouldDisableChannel(autoDisable, keywords, search, channelType, Some(e))
  {
  }

  /** 401 disables every provider kind; 403 only disables Gemini. */
  lemma StatusRules(keywords: seq<string>, search: KeywordSearch, channelType: int, e: NewApiError)
    requires !e.isLocalError
    requires !search(ToLowerAscii(e.message), keywords)
    requires e.openAiCode !in DisablingCodes && e.openAiType !in DisablingTypes
    ensures e.statusCode == 401 ==> ShouldDisableChannel(true, keywords, search, channelType, Some(e))
    ensures e.statusCode == 403 && !e.isChannelError ==>
              (ShouldDisableChannel(true, keywords, search, channelType, Some(e)) <==> channelType == ChannelTypeGemini)
  {
  }

  /** The keyword search is consulted last: once a structural rule or the
      channel-error flag decides, any matcher gives the same answer. */
  lemma KeywordSearchOnlyDecidesLast(autoDisable: bool, keywords: seq<string>,
                                     s1: KeywordSearch, s2: KeywordSearch, channelType: int, e: NewApiError)
    requires e.isChannelError || e.isLocalError || StructuralDisable(channelType, e)
    ensures ShouldDisableChannel(autoDisable, keywords, s1, channelType, Some(e))
         == ShouldDisableChannel(autoDisable, keywords, s2, channelType, Some(e))
  {
  }

  /** `ShouldEnableChannel`: only an auto-disabled channel whose probe came
      back without error is re-enabled, and only with auto-enable on. */
  function ShouldEnableChannel(autoEnable: bool, err: Option<NewApiError>, status: int): (r: bool)
    ensures r <==> autoEnable && err.None? && status == ChannelStatusAutoDisabled
  {
    if !autoEnable then false
    else if err.Some? then false
    else if status != ChannelStatusAutoDisabled then false
    else true
  }

  /** A manually disabled or an enabled channel is never re-enabled. */
  lemma ManualDisableIsSticky(autoEnable: bool, err: Option<NewApiError>)
    ensures !ShouldEnableChannel(autoEnable, err, ChannelStatusManuallyDisabled)
    ensures !ShouldEnableChannel(autoEnable, err, ChannelStatusEnabled)
  {
  }

  // ---------------------------------------------------------------------
  // Status changes and notifications

  const NotifyTypeChannelUpdate: string := "channel_update"

  /** `formatNotifyType`: the notification dedup key
      `channel_update_<channelId>_<status>`. */
  function FormatNotifyType(channelId: int, status: int): (r: string)
    ensures ParseNotifyType(r) == Some((channelId, status))
  {
    var a := IntToDecimal(channelId);
    var b := IntToDecimal(status);
    var rest := a + "_" + b;
    var r := NotifyTypeChannelUpdate + "_" + rest;
    NoUnderscoreInDecimal(channelId);
    NoUnderscoreInDecimal(status);
    assert JoinWith([a, b], '_') == rest;
    SplitJoin([a, b], '_');
    assert r[|NotifyTypeChannelUpdate + "_"|..] == rest;
    DecimalRoundTrip(channelId);
    DecimalRoundTrip(status);
    r
  }

  /** Reads a dedup key back into its channel id and status. */
  function ParseNotifyType(s: string): Option<(int, int)> {
    var prefix := NotifyTypeChannelUpdate + "_";
    if !HasPrefix(s, prefix) then None
    else
      var parts := SplitOn(s[|prefix|..], '_');
      if |parts| != 2 then None
      else
        match (ParseDecimal(parts[0]), ParseDecimal(parts[1]))
        case (Some(id), Some(status)) => Some((id, status))
        case _ => None
  }

  lemma NoUnderscoreInDecimal(n: int)
    ensures '_' !in IntToDecimal(n)
  {
    var d := NatToDecimal(if n < 0 then -n else n);
    assert forall i :: 0 <= i < |d| ==> d[i] != '_';
  }

  /** Distinct (channel, status) transitions never share a dedup key. */
  lemma NotifyTypeInjective(id1: int, st1: int, id2: int, st2: int)
    requires FormatNotifyType(id1, st1) == FormatNotifyType(id2, st2)
    ensures id1 == id2 && st1 == st2
  {
    assert ParseNotifyType(FormatNotifyType(id1, st1)) == Some((id1, st1));
  }

  /** The failed call that triggers a disable: channel, name and the key in use. */
  datatype ChannelError = ChannelError(channelId: int, channelName: string, usingKey: string)

  /** A request to `model.UpdateChannelStatus`. */
  datatype StatusUpdate = StatusUpdate(channelId: int, usingKey: string, status: int, reason: string)

  /** `model.UpdateChannelStatus`: whether the store reports the change as applied. */
  type StatusStore = StatusUpdate -> bool

  /** A call to `NotifyRootUser`. */
  datatype Notification = Notification(notifyType: string, subject: string, content: string)

  /** The observable effect of a disable or enable: the status update asked
      of the store and the notifications sent afterwards, in order. */
  datatype Transition = Transition(request: StatusUpdate, notifications: seq<Notification>)

  function ChannelLabel(name: string, id: int): string {
    "通道「" + name + "」（#" + IntToDecimal(id) + "）"
  }

  /** `DisableChannel`: ask the store to auto-disable; notify exactly once,
      and only if the store applied the change. */
  function DisableChannel(store: StatusStore, chErr: ChannelError, reason: string): (t: Transition)
    ensures t.request == StatusUpdate(chErr.channelId, chErr.usingKey, ChannelStatusAutoDisabled, reason)
    ensures |t.notifications| == (if store(t.request) then 1 else 0)
    ensures forall n :: n in t.notifications ==>
              ParseNotifyType(n.notifyType) == Some((chErr.channelId, ChannelStatusAutoDisabled))
  {
    var request := StatusUpdate(chErr.channelId, chErr.usingKey, ChannelStatusAutoDisabled, reason);
    if store(request) then
      var who := ChannelLabel(chErr.channelName, chErr.channelId);
      Transition(request, [Notification(FormatNotifyType(chErr.channelId, ChannelStatusAutoDisabled),
                                        who + "已被禁用", who + "已被禁用，原因：" + reason)])
    else
      Transition(request, [])
  }

  /** `EnableChannel`: ask the store to enable; notify exactly once, and
      only if the store applied the change. */
  function EnableChannel(store: StatusStore, channelId: int, usingKey: string, channelName: string): (t: Transition)
    ensures t.request == StatusUpdate(channelId, usingKey, ChannelStatusEnabled, "")
    ensures |t.notifications| == (if store(t.request) then 1 else 0)
    ensures forall n :: n in t.notifications ==>
              ParseNotifyType(n.notifyType) == Some((channelId, ChannelStatusEnabled))
  {
    var request := StatusUpdate(channelId, usingKey, ChannelStatusEnabled, "");
    if store(request) then
      var who := ChannelLabel(channelName, channelId);
      Transition(request, [Notification(FormatNotifyType(channelId, ChannelStatusEnabled),
                                        who + "已被启用", who + "已被启用")])
    else
      Transition(request, [])
  }

  /** Repeated disables of one channel carry one dedup key, whatever key,
      name or reason each reports; a disable and an enable never share one. */
  lemma DedupKeyDependsOnTransitionOnly(store: StatusStore, e1: ChannelError, r1: string,
                                        e2: ChannelError, r2: string, enableKey: string, enableName: string)
    requires e1.channelId == e2.channelId
    requires store(StatusUpdate(e1.channelId, e1.usingKey, ChannelStatusAutoDisabled, r1))
    requires store(StatusUpdate(e2.channelId, e2.usingKey, ChannelStatusAutoDisabled, r2))
    ensures DisableChannel(store, e1, r1).notifications[0].notifyType
         == DisableChannel(store, e2, r2).notifications[0].notifyType
    ensures forall n :: n in EnableChannel(store, e1.channelId, enableKey, enableName).notifications ==>
              n.notifyType != DisableChannel(store, e1, r1).notifications[0].notifyType
  {
  }
}
