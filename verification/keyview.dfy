/** The per-key status and the redacted key view of `service/channel.go`,
    served to the admin UI. */
module KeyView {

  import opened Wrappers
  import opened Text
  import opened ChannelTypes
  import opened KeyCodec

  /** The status the view reports for key `keyIndex`: a single-key channel
      follows the channel status; a multi-key channel follows its status
      list, where a missing entry (or a nil list) counts as active. */
  function GetChannelKeyStatus(channel: Channel, keyIndex: int): (r: string)
    ensures r == StatusActive || r == StatusDisabled
    ensures !channel.info.isMultiKey ==> (r == StatusActive <==> channel.status == ChannelStatusEnabled)
    ensures channel.info.isMultiKey ==>
              (r == StatusDisabled <==>
                 channel.info.statusList.Some? && keyIndex in channel.info.statusList.value
                 && channel.info.statusList.value[keyIndex] != ChannelStatusEnabled)
  {
    if !channel.info.isMultiKey then
      if channel.status == ChannelStatusEnabled then StatusActive else StatusDisabled
    else if channel.info.statusList.Some? && keyIndex in channel.info.statusList.value then
      if channel.info.statusList.value[keyIndex] == ChannelStatusEnabled then StatusActive else StatusDisabled
    else
      StatusActive
  }

  /** A nil status list and an empty one give the same status for every key. */
  lemma NilStatusListIsEmptyList(channel: Channel, keyIndex: int)
    requires channel.info.statusList == None
    ensures GetChannelKeyStatus(channel, keyIndex)
         == GetChannelKeyStatus(channel.(info := channel.info.(statusList := Some(map[]))), keyIndex)
    ensures channel.info.isMultiKey ==> GetChannelKeyStatus(channel, keyIndex) == StatusActive
  {
  }

  const ViewModeCount: string := "count"
  const ChannelMissing: string := "渠道不存在"
  const ChannelDisabledMessage: string := "渠道已禁用"

  /** One row of the masked view, as the loop of `GetChannelKeyView` builds it. */
  predicate IsKeyRow(channel: Channel, keys: seq<string>, lastUsed: string, i: int, row: ChannelKeyInfo)
    requires 0 <= i < |keys|
  {
    && row.index == i
    && row.maskedKey == MaskKey(TrimSpace(keys[i]))
    && row.status == GetChannelKeyStatus(channel, i)
    && row.lastUsed == lastUsed
    && (row.errorMessage.Some? <==> channel.status != ChannelStatusEnabled)
    && (row.errorMessage.Some? ==> row.errorMessage.value == ChannelDisabledMessage)
  }

  /** The rows of the masked view, one per parsed key, in parse order. */
  function KeyRows(channel: Channel, keys: seq<string>, lastUsed: string): (rows: seq<ChannelKeyInfo>)
    ensures |rows| == |keys|
    ensures forall i :: 0 <= i < |keys| ==> IsKeyRow(channel, keys, lastUsed, i, rows[i])
  {
    var errorMessage := if channel.status != ChannelStatusEnabled then Some(ChannelDisabledMessage) else None;
    seq(|keys|, i requires 0 <= i < |keys| =>
      ChannelKeyInfo(i, MaskKey(TrimSpace(keys[i])), GetChannelKeyStatus(channel, i), lastUsed, errorMessage))
  }

  /** `GetChannelKeyView`: a nil channel is an error; otherwise the response
      counts the parsed keys and, unless the mode is "count", lists one
      masked row per key in parse order. `formatTime` renders the channel's
      last probe time. */
  function GetChannelKeyView(channel: Option<Channel>, viewMode: string, json: JsonDecoder,
                             formatTime: int -> string): (r: Result<ChannelKeyViewResponse, string>)
    ensures channel.None? <==> r.Failure?
    ensures r.Failure? ==> r.error == ChannelMissing
    ensures r.Success? ==>
              var ch := channel.value;
              var keys := ParseKeys(json, ch.key);
              var v := r.value;
              && v.channelId == ch.id
              && v.keyType == DetectKeyType(json, ch.key)
              && v.keyCount == |keys|
              && v.multiKeyMode == ch.info.multiKeyMode
              && v.isMultiKey == ch.info.isMultiKey
              && (viewMode == ViewModeCount ==> v.keys == [])
              && (viewMode != ViewModeCount ==>
                    |v.keys| == v.keyCount
                    && forall i :: 0 <= i < |v.keys| ==> IsKeyRow(ch, keys, formatTime(ch.testTime), i, v.keys[i]))
  {
    if channel.None? then Failure(ChannelMissing)
    else
      var ch := channel.value;
      var keys := ParseKeys(json, ch.key);
      var keyType := DetectKeyType(json, ch.key);
      var rows := if viewMode == ViewModeCount then [] else KeyRows(ch, keys, formatTime(ch.testTime));
      Success(ChannelKeyViewResponse(ch.id, keyType, |keys|, rows, ch.info.multiKeyMode, ch.info.isMultiKey))
  }

  /** With a decoder that, like Go's, lists `[1e400,2]` as two raw elements
      but cannot decode it into `interface{}` (the number overflows a
      float64), the view reports a `single` key type with two keys. */
  lemma OverflowingArrayView(ch: Channel, json: JsonDecoder, formatTime: int -> string)
    requires ch.key == "[1e400,2]"
    requires json.decodeArray(ch.key) == Some(["1e400", "2"]) && !json.decodesAsValue(ch.key)
    ensures var v := GetChannelKeyView(Some(ch), ViewModeCount, json, formatTime).value;
            v.keyType == Single && v.keyCount == 2
  {
    DisagreeingDecodes(json, ch.key);
  }
}
