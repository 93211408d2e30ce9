/** The records and enumerations the channel core works on: the channel row
    with its embedded multi-key settings, the key-view response returned to
    the admin UI, and the status constants shared by both. */
module ChannelTypes {

  import opened Wrappers

  /** Channel status codes stored on a channel row and, per key, in the
      multi-key status list. */
  const ChannelStatusEnabled: int := 1
  const ChannelStatusManuallyDisabled: int := 2
  const ChannelStatusAutoDisabled: int := 3

  /** The provider kind whose 403 responses mean exhausted credentials. */
  const ChannelTypeGemini: int := 24

  /** Legacy key-rotation mode of a multi-key channel. `ModeUnset` is the
      empty string a channel carries before the mode was ever written. */
  datatype MultiKeyMode = ModeUnset | ModeRandom | ModePolling | ModeSequential {
    function Label(): string {
      match this
      case ModeUnset => ""
      case ModeRandom => "random"
      case ModePolling => "polling"
      case ModeSequential => "sequential"
    }
  }

  /** The newer key strategy; `StrategyUnset` is the empty string of a channel
      that predates the setting. */
  datatype KeyStrategy = StrategyUnset | StrategyRandom | StrategySequential {
    function Label(): string {
      match this
      case StrategyUnset => ""
      case StrategyRandom => "random"
      case StrategySequential => "sequential"
    }
  }

  /** The multi-key settings embedded in a channel row. `statusList` maps a
      key index to a channel status code; `None` is the nil map. */
  datatype ChannelInfo = ChannelInfo(
    isMultiKey: bool,
    statusList: Option<map<int, int>>,
    pollingIndex: int,
    multiKeyMode: MultiKeyMode,
    pollingEnabled: bool,
    pollingStrategy: KeyStrategy,
    sequentialIndex: int
  )

  /** The channel row fields the core reads: `key` is the raw key blob and
      `testTime` the Unix second of the last health probe. */
  datatype Channel = Channel(
    id: int,
    key: string,
    status: int,
    testTime: int,
    info: ChannelInfo
  )

  /** How the raw key blob is encoded. */
  datatype KeyType = Single | MultiLine | MultiJson {
    function Label(): string {
      match this
      case Single => "single"
      case MultiLine => "multi_line"
      case MultiJson => "multi_json"
    }
  }

  /** One row of the key view. `status` is the wire string ("active",
      "disabled"; the UI also accepts others). */
  datatype ChannelKeyInfo = ChannelKeyInfo(
    index: int,
    maskedKey: string,
    status: string,
    lastUsed: string,
    errorMessage: Option<string>
  )

  /** The key-view response. An absent `keys` list in JSON and an empty one
      behave alike for every reader, so both are the empty sequence. */
  datatype ChannelKeyViewResponse = ChannelKeyViewResponse(
    channelId: int,
    keyType: KeyType,
    keyCount: int,
    keys: seq<ChannelKeyInfo>,
    multiKeyMode: MultiKeyMode,
    isMultiKey: bool
  )

  const StatusActive: string := "active"
  const StatusDisabled: string := "disabled"
}
