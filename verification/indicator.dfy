/** The key-health summary of the channel table
    (`KeyStatusIndicator.js`, `getStatusInfo`): it classifies a key-view
    response into one of five display states. */
module KeyIndicator {

  import opened Wrappers
  import opened ChannelTypes
  import opened KeyCodec
  import opened KeyView

  datatype Color = Grey | Red | Orange | Green

  /** The tooltip: an i18n template and the numbers filled into it. */
  datatype Tooltip =
    | NotConfigured                                  // 该渠道未配置密钥
    | AllUnavailable(total: int)                     // {{total}}个密钥全部不可用
    | SomeUnavailable(active: nat, disabled: nat)    // {{active}}个可用，{{disabled}}个失效
    | OneHealthy                                     // 1个密钥正常
    | AllHealthy(count: int)                         // {{count}}个密钥全部正常

  datatype StatusInfo = StatusInfo(color: Color, text: string, tooltip: Tooltip)

  const TextNotConfigured: string := "未配置"
  const TextAllFailed: string := "全部失效"
  const TextPartlyFailed: string := "部分失效"
  const TextHealthy: string := "正常"
  const TextAllHealthy: string := "全部正常"

  /** Some row of `keys` carries exactly the wire status `status`. */
  predicate HasStatus(keys: seq<ChannelKeyInfo>, status: string) {
    exists i :: 0 <= i < |keys| && keys[i].status == status
  }

  /** `keys.filter(key => key.status === status).length`. */
  function CountStatus(keys: seq<ChannelKeyInfo>, status: string): (n: nat)
    ensures n <= |keys|
    ensures n == 0 <==> !HasStatus(keys, status)
    ensures n == |keys| <==> forall i :: 0 <= i < |keys| ==> keys[i].status == status
  {
    if keys == [] then 0
    else
      var rest := CountStatus(keys[1..], status);
      assert forall i :: 1 <= i < |keys| ==> keys[i] == keys[1..][i - 1];
      assert HasStatus(keys[1..], status) ==> HasStatus(keys, status) by {
        if HasStatus(keys[1..], status) {
          var j :| 0 <= j < |keys[1..]| && keys[1..][j].status == status;
          assert keys[j + 1].status == status;
        }
      }
      (if keys[0].status == status then 1 else 0) + rest
  }

  /** Rows whose status is neither value are counted as neither. */
  lemma {:induction false} ActiveAndDisabledAreDisjoint(keys: seq<ChannelKeyInfo>)
    ensures CountStatus(keys, StatusActive) + CountStatus(keys, StatusDisabled) <= |keys|
    ensures (forall i :: 0 <= i < |keys| ==> keys[i].status == StatusActive || keys[i].status == StatusDisabled)
            ==> CountStatus(keys, StatusActive) + CountStatus(keys, StatusDisabled) == |keys|
  {
    if keys != [] {
      ActiveAndDisabledAreDisjoint(keys[1..]);
    }
  }

  /** `getStatusInfo`: `None` is a null response (the fetch failed). The
      checks run in source order: unconfigured, all failed, partly failed,
      then healthy. */
  function GetStatusInfo(keyStatus: Option<ChannelKeyViewResponse>): (info: StatusInfo)
    ensures info.color == Grey <==> keyStatus.None? || keyStatus.value.keyCount == 0
    ensures info.color == Grey ==> info.text == TextNotConfigured && info.tooltip == NotConfigured
    ensures info.color == Red <==>
              keyStatus.Some? && keyStatus.value.keyCount != 0 && |keyStatus.value.keys| > 0
              && !HasStatus(keyStatus.value.keys, StatusActive)
    ensures info.color == Red ==>
              info.text == TextAllFailed && info.tooltip == AllUnavailable(keyStatus.value.keyCount)
    ensures info.color == Orange <==>
              keyStatus.Some? && keyStatus.value.keyCount != 0
              && HasStatus(keyStatus.value.keys, StatusActive) && HasStatus(keyStatus.value.keys, StatusDisabled)
    ensures info.color == Orange ==>
              info.text == TextPartlyFailed
              && info.tooltip == SomeUnavailable(CountStatus(keyStatus.value.keys, StatusActive),
                                                 CountStatus(keyStatus.value.keys, StatusDisabled))
    ensures info.color == Green ==>
              (info.text == TextHealthy <==> keyStatus.value.keyCount == 1)
              && (keyStatus.value.keyCount == 1 ==> info.tooltip == OneHealthy)
              && (keyStatus.value.keyCount != 1 ==>
                    info.text == TextAllHealthy && info.tooltip == AllHealthy(keyStatus.value.keyCount))
  {
    if keyStatus.None? || keyStatus.value.keyCount == 0 then
      StatusInfo(Grey, TextNotConfigured, NotConfigured)
    else
      var v := keyStatus.value;
      var active := CountStatus(v.keys, StatusActive);
      var disabled := CountStatus(v.keys, StatusDisabled);
      if |v.keys| > 0 && active == 0 then
        StatusInfo(Red, TextAllFailed, AllUnavailable(v.keyCount))
      else if |v.keys| > 0 && disabled > 0 then
        StatusInfo(Orange, TextPartlyFailed, SomeUnavailable(active, disabled))
      else if v.keyCount == 1 then
        StatusInfo(Green, TextHealthy, OneHealthy)
      else
        StatusInfo(Green, TextAllHealthy, AllHealthy(v.keyCount))
  }

  /** The "(count)" suffix after the label: shown only for more than one key. */
  function CountSuffix(keyStatus: Option<ChannelKeyViewResponse>): (r: Option<int>)
    ensures r.Some? <==> keyStatus.Some? && keyStatus.value.keyCount > 1
    ensures r.Some? ==> r.value == keyStatus.value.keyCount
  {
    if keyStatus.Some? && keyStatus.value.keyCount > 1 then Some(keyStatus.value.keyCount) else None
  }

  /** An empty key list skips both failure branches: any non-zero count is
      shown green. */
  lemma EmptyKeyListIsGreen(v: ChannelKeyViewResponse)
    requires v.keys == [] && v.keyCount != 0
    ensures GetStatusInfo(Some(v)).color == Green
  {
  }

  /** The response data the component keeps: the view on success, null on
      an error reply. */
  function Fetched(reply: Result<ChannelKeyViewResponse, string>): Option<ChannelKeyViewResponse> {
    if reply.Success? then Some(reply.value) else None
  }

  /** The indicator as written: it requests the count-only view. That view
      never carries rows, so only grey or green can ever be shown: the
      failure branches are dead. */
  function IndicatorAsWritten(channel: Option<Channel>, json: JsonDecoder, formatTime: int -> string): (info: StatusInfo)
    ensures info.color == Grey || info.color == Green
    ensures info.color == Grey <==> channel.None? || ParseKeys(json, channel.value.key) == []
  {
    GetStatusInfo(Fetched(GetChannelKeyView(channel, ViewModeCount, json, formatTime)))
  }

  /** Counterexample: a single-key channel that has been auto-disabled,
      whose one key the masked view lists as disabled, is shown green. */
  lemma AsWrittenShowsDisabledKeyAsHealthy(ch: Channel, json: JsonDecoder, formatTime: int -> string)
    requires !ch.info.isMultiKey && ch.status == ChannelStatusAutoDisabled
    requires ch.key != [] && Text.NoEdgeSpace(ch.key) && '\n' !in ch.key && ch.key[0] != '['
    ensures ParseKeys(json, ch.key) == [ch.key]
    ensures GetChannelKeyView(Some(ch), "masked", json, formatTime).value.keys[0].status == StatusDisabled
    ensures IndicatorAsWritten(Some(ch), json, formatTime) == StatusInfo(Green, TextHealthy, OneHealthy)
  {
    BareValueIsOneKey(json, ch.key);
  }

  /** The indicator as evidently intended: it requests the masked view, the
      one the key modal uses, so each row carries the key's status and the
      colour agrees with the channel's keys. */
  function Indicator(channel: Option<Channel>, json: JsonDecoder, formatTime: int -> string): (info: StatusInfo)
    ensures channel.None? ==> info == StatusInfo(Grey, TextNotConfigured, NotConfigured)
    ensures channel.Some? ==> AgreesWithKeys(channel.value, |ParseKeys(json, channel.value.key)|, info)
  {
    var reply := GetChannelKeyView(channel, ViewModeMasked, json, formatTime);
    if channel.None? then
      GetStatusInfo(Fetched(reply))
    else
      MaskedViewRows(channel.value, json, formatTime);
      RowsMirrorKeys(channel.value, reply.value);
      GetStatusInfo(Fetched(reply))
  }

  const ViewModeMasked: string := "masked"

  /** Every one of the channel's first `n` keys has the given status. */
  predicate AllKeysAre(ch: Channel, n: nat, status: string) {
    forall i :: 0 <= i < n ==> GetChannelKeyStatus(ch, i) == status
  }

  /** Every row carries the given status. */
  predicate AllRowsAre(keys: seq<ChannelKeyInfo>, status: string) {
    forall i :: 0 <= i < |keys| ==> keys[i].status == status
  }

  /** For a response whose rows are each active or disabled and match the
      count, the colour reflects the rows exactly. */
  lemma ClassifyTwoValuedRows(v: ChannelKeyViewResponse)
    requires v.keyCount == |v.keys|
    requires forall i :: 0 <= i < |v.keys| ==> v.keys[i].status == StatusActive || v.keys[i].status == StatusDisabled
    ensures var info := GetStatusInfo(Some(v));
            && (info.color == Grey <==> v.keyCount == 0)
            && (info.color == Red <==> v.keyCount > 0 && AllRowsAre(v.keys, StatusDisabled))
            && (info.color == Green <==> v.keyCount > 0 && AllRowsAre(v.keys, StatusActive))
            && (info.color == Orange <==> v.keyCount > 0 && !AllRowsAre(v.keys, StatusDisabled)
                                                          && !AllRowsAre(v.keys, StatusActive))
  {
    assert AllRowsAre(v.keys, StatusDisabled) <==> !HasStatus(v.keys, StatusActive);
    assert AllRowsAre(v.keys, StatusActive) <==> !HasStatus(v.keys, StatusDisabled);
  }

  /** The colour agrees with the statuses of the channel's `n` keys: red iff
      every key is disabled, green iff every key is active, orange iff both
      kinds occur, grey iff there is no key. */
  predicate AgreesWithKeys(ch: Channel, n: nat, info: StatusInfo) {
    && (info.color == Grey <==> n == 0)
    && (info.color == Red <==> n > 0 && AllKeysAre(ch, n, StatusDisabled))
    && (info.color == Green <==> n > 0 && AllKeysAre(ch, n, StatusActive))
    && (info.color == Orange <==> n > 0 && !AllKeysAre(ch, n, StatusDisabled) && !AllKeysAre(ch, n, StatusActive))
  }

  /** Rows that carry the channel's key statuses classify like the keys. */
  lemma RowsMirrorKeys(ch: Channel, v: ChannelKeyViewResponse)
    requires v.keyCount == |v.keys|
    requires forall i :: 0 <= i < |v.keys| ==> v.keys[i].status == GetChannelKeyStatus(ch, i)
    ensures AgreesWithKeys(ch, |v.keys|, GetStatusInfo(Some(v)))
  {
    var n := |v.keys|;
    ClassifyTwoValuedRows(v);
    assert AllKeysAre(ch, n, StatusDisabled) <==> AllRowsAre(v.keys, StatusDisabled);
    assert AllKeysAre(ch, n, StatusActive) <==> AllRowsAre(v.keys, StatusActive);
  }

  /** The masked view of a present channel: one row per parsed key, each
      carrying that key's status. */
  lemma MaskedViewRows(ch: Channel, json: JsonDecoder, formatTime: int -> string)
    ensures var r := GetChannelKeyView(Some(ch), ViewModeMasked, json, formatTime);
            && r.Success?
            && r.value.keyCount == |r.value.keys| == |ParseKeys(json, ch.key)|
            && forall i :: 0 <= i < |r.value.keys| ==> r.value.keys[i].status == GetChannelKeyStatus(ch, i)
  {
    var v := GetChannelKeyView(Some(ch), ViewModeMasked, json, formatTime).value;
    var keys := ParseKeys(json, ch.key);
    assert forall i :: 0 <= i < |v.keys| ==> IsKeyRow(ch, keys, formatTime(ch.testTime), i, v.keys[i]);
  }
}
