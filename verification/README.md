# new-api channel core in Dafny

This project models the channel core of the new-api gateway. It covers five pieces:

- **Key codec**: how a channel's raw key blob becomes an ordered key list (a JSON array or one key per line), and how it is labelled `single`, `multi_line` or `multi_json`.
- **Key masking and the key view**: how one key is redacted for display, and the per-key status and redacted key list served to the admin UI.
- **Channel health**: the ordered rule table that auto-disables a channel after an upstream error, the rule that re-enables it after a clean probe, and the status change and root-user notification that follow, with their dedup key.
- **Key-status indicator**: the colour the admin UI shows for a channel's keys, both as the component is written and as evidently intended.
- **Database bootstrap rules**: SQL identifier quoting per backend, the backend choice from a DSN, the MySQL `parseTime` normalisation, the error result of the parallel table migration, and the polling-strategy backfill of multi-key channels.

Strings are `seq<char>`. Keys, DSNs and error messages are treated as one `char` per Go byte, and only their ASCII range carries meaning. The Chinese message and label literals (`KeyView.ChannelMissing`, `ChannelHealth.ChannelLabel`, the indicator texts) are written one `char` per character instead; they are only compared and concatenated, never measured or sliced. Everything outside the core is a function-typed parameter:

- The two `json.Unmarshal` calls of the key codec are the two functions of `KeyCodec.JsonDecoder`. `decodesAsValue` is the decode into `interface{}` that `DetectKeyType` uses (service/channel.go:124-125). `decodeArray` is the decode into `[]json.RawMessage` that `ParseKeys` uses (:148-149). They are separate because Go's two targets can disagree on one text.
- The keyword matcher `AcSearch` is `ChannelHealth.KeywordSearch`.
- `model.UpdateChannelStatus` is `ChannelHealth.StatusStore`.
- The time formatter is `formatTime`.
- The ORM's query and save results are `query` and `save`.

Files, one module each:

- `wrappers.dfy`: `Option` and `Result`.
- `text.dfy`: the `strings` and `fmt` behaviour the core relies on (`TrimSpace`, `Trim`, `Split`, `Contains`, `%d`).
- `types.dfy`: the channel row, the multi-key settings and the key-view response.
- `keycodec.dfy`, `keyview.dfy`, `health.dfy`: `service/channel.go`.
- `indicator.dfy`: `KeyStatusIndicator.js`.
- `database.dfy`: the pure rules of `model/main.go`.

## Model

| member | source | states |
|---|---|---|
| Text.SplitOn | service/channel.go:159 | `strings.Split` on one separator: at least one piece, no piece contains the separator, and joining the pieces with the separator gives back the input |
| Text.SplitJoin | service/channel.go:159 | splitting inverts joining whenever no piece contains the separator |
| Text.TrimSpace | service/channel.go:144 | the trimmed text has no whitespace at either end; it is empty exactly when the input is all whitespace; an already-trimmed input is returned unchanged |
| Text.TrimSpaceIsCut | service/channel.go:144 | the trimmed text is an infix of the input with only whitespace before and after it; together with no whitespace at its ends, this determines `strings.TrimSpace` |
| Text.TrimChar | service/channel.go:159 | `strings.Trim(key, "\n")` leaves no newline at either end of the result |
| Text.TrimCharIsCut | service/channel.go:159 | `strings.Trim(key, "\n")` is an infix of the key with only newlines before and after it: nothing but edge newlines is removed |
| Text.IntToDecimal | service/channel.go:18 | `%d` writes a minus sign exactly for negative numbers, then decimal digits with no leading zero except for zero itself |
| Text.ToLowerAscii | service/channel.go:87 | the ASCII path of `strings.ToLower`: keeps the length, maps each upper-case ASCII letter to its lower-case letter and leaves every other byte unchanged |
| Text.ToLowerIdempotent | service/channel.go:87 | lower-casing twice is the same as lower-casing once |
| Text.DecimalRoundTrip | service/channel.go:18 | the `%d` rendering of any integer parses back to that integer |
| KeyCodec.MaskKey | service/channel.go:106-112 | a key of at most 7 bytes becomes exactly `***`; a longer key becomes its first 3 bytes, `***` and its last 4 bytes (10 bytes in all) |
| KeyCodec.MaskHidesInterior | service/channel.go:106-112 | two long keys that agree on their first 3 and last 4 bytes mask identically, so the mask reveals nothing of the interior |
| KeyCodec.LineKeys | service/channel.go:158-168 | every key the line path emits is non-empty, trimmed and free of newlines |
| KeyCodec.CleanLines | service/channel.go:160-166 | dropping blank trimmed lines never adds entries; every kept entry is non-empty and trimmed |
| KeyCodec.CleanLinesConcat | service/channel.go:160-166 | the per-line cleaning distributes over concatenation, so it keeps input order |
| KeyCodec.LineKeysIgnoreOuterNewlines | service/channel.go:159 | trimming newlines from both ends before splitting changes no key list |
| KeyCodec.LineKeysConcat | service/channel.go:158-168 | the keys of `a + "\n" + b` are the keys of `a` followed by the keys of `b` |
| KeyCodec.LineKeysOneLine | service/channel.go:158-168 | a blob without a newline yields its trimmed text as its only key, or nothing when that text is blank |
| KeyCodec.BlankLineIgnored | service/channel.go:163-165 | a leading blank line contributes no key |
| KeyCodec.ParseKeys | service/channel.go:139-169 | the empty blob has no keys; a trimmed blob that starts with `[` and decodes as an array yields each element's raw JSON text, in order; every other non-empty blob, including a `[`-prefixed one that does not decode as an array, yields exactly the line path's keys, which are non-empty, trimmed single lines |
| KeyCodec.DetectKeyType | service/channel.go:115-136 | the label is `multi_json` exactly when the trimmed blob starts with `[` or `{` and decodes into `interface{}`; otherwise it is `multi_line` exactly when the raw blob contains a newline, and `single` for the empty blob |
| KeyCodec.JsonKeysAreLabelledJson | service/channel.go:115-156 | when the key list comes from a JSON array, the keys are the array's elements, and the blob is labelled `multi_json` exactly when the `interface{}` decode also accepts it |
| KeyCodec.DisagreeingDecodes | service/channel.go:115-156 | a one-line array blob that the `[]json.RawMessage` decode accepts and the `interface{}` decode rejects, such as `[1e400,2]`, is labelled `single` yet lists the array's elements |
| KeyCodec.SingleBlobHasAtMostOneKey | service/channel.go:115-168 | a blob labelled `single` that is not a decodable array holds at most one key, its trimmed text; one that is a decodable array is one the `interface{}` decode rejects, and it lists the array's elements |
| KeyCodec.LinePathWhenNotArray | service/channel.go:146-168 | a blob that is not a decodable JSON array, whether or not its trimmed text starts with `[`, is read line by line |
| KeyCodec.BareValueIsOneKey | service/channel.go:139-168 | a trimmed one-line key that does not start with `[` parses to exactly itself |
| KeyCodec.OneLineKey | service/channel.go:158-168 | a non-empty, trimmed single line is its own only key |
| KeyCodec.ThreeLines | service/channel.go:158-168 | three one-key lines, with a blank line before the last, give those three keys in order |
| KeyCodec.ParseKeysLinesExample | service/channel.go:139-168 | `"a\nb\n\nc"` parses to `["a","b","c"]` for any three non-space one-byte keys, the first of which is not `[` |
| KeyCodec.ParseKeysBareExample | service/channel.go:139-168 | `"abc"` parses to `["abc"]` and the empty blob to `[]` |
| KeyCodec.ParseKeysJsonExample | service/channel.go:146-155 | the array blob `["a","b"]` parses to the raw element texts `"a"` and `"b"`, quotes included, and, since both decodes accept it, is labelled `multi_json` |
| KeyCodec.JsonBlob | service/channel.go:123-155 | a trimmed blob that opens with `[` and decodes as an array yields its elements, and is labelled `multi_json` exactly when the `interface{}` decode accepts it too |
| ChannelHealth.ShouldDisableChannel | service/channel.go:40-90 | never disables with auto-disable off or without an error; always disables a channel-scoped error; never disables a local failure that is not channel-scoped; otherwise disables exactly when the structural rule holds (401; 403 on Gemini; a listed provider code or type) or the lower-cased message matches a keyword |
| ChannelHealth.LocalErrorNeverDisables | service/channel.go:47-52 | a local failure is never disabled, even when its message matches a disable keyword |
| ChannelHealth.StatusRules | service/channel.go:53-61 | 401 disables every provider kind; 403 disables exactly Gemini channels |
| ChannelHealth.KeywordSearchOnlyDecidesLast | service/channel.go:47-89 | once the channel-error flag, the local flag or a structural rule decides, the keyword matcher cannot change the answer |
| ChannelHealth.ShouldEnableChannel | service/channel.go:92-103 | re-enable exactly when auto-enable is on, the probe returned no error and the channel is auto-disabled |
| ChannelHealth.ManualDisableIsSticky | service/channel.go:99-101 | a manually disabled or an enabled channel is never re-enabled |
| ChannelHealth.FormatNotifyType | service/channel.go:17-19 | the dedup key `channel_update_<id>_<status>` parses back to its channel id and status |
| ChannelHealth.NotifyTypeInjective | service/channel.go:17-19 | distinct (channel, status) pairs never share a dedup key |
| ChannelHealth.DisableChannel | service/channel.go:22-29 | the store is asked to auto-disable the channel with the failing key and reason; one notification is sent if the store applied the change and none otherwise; its dedup key names the channel and the auto-disabled status |
| ChannelHealth.EnableChannel | service/channel.go:31-38 | the store is asked to enable the channel; one notification is sent if the store applied the change and none otherwise; its dedup key names the channel and the enabled status |
| ChannelHealth.DedupKeyDependsOnTransitionOnly | service/channel.go:17-38 | repeated disables of one channel carry one dedup key, whatever key, name or reason each reports; an enable never shares a disable's key |
| KeyView.GetChannelKeyStatus | service/channel.go:172-193 | the status is `active` or `disabled`; a single-key channel is active exactly when the channel is enabled; a multi-key key is disabled exactly when its status-list entry exists and is not enabled |
| KeyView.NilStatusListIsEmptyList | service/channel.go:182-192 | a nil status list behaves like an empty one, and every key of a multi-key channel without one is active |
| KeyView.KeyRows | service/channel.go:216-233 | one row per parsed key in parse order; each row holds its index, the mask of the trimmed key, that key's status and the last probe time; the error message `渠道已禁用` is present exactly when the channel is not enabled |
| KeyView.GetChannelKeyView | service/channel.go:196-243 | a missing channel is the error `渠道不存在`; otherwise the response has the channel's id, key label, multi-key mode and flag, and the number of parsed keys; `count` mode lists no rows; any other mode lists one row per key. The label and the keys come from separate decodes, so a `single` label with several keys is representable, as in Go |
| KeyView.OverflowingArrayView | service/channel.go:196-214 | for the key `[1e400,2]`, which Go lists as two raw elements but cannot decode into `interface{}`, the view is labelled `single` and counts two keys |
| KeyIndicator.CountStatus | web/src/components/common/KeyStatusIndicator.js:71-72 | the number of rows with a status is zero exactly when no row has it, and equals the number of rows exactly when every row has it |
| KeyIndicator.ActiveAndDisabledAreDisjoint | web/src/components/common/KeyStatusIndicator.js:71-72 | the active and disabled counts together never exceed the number of rows, and equal it when every row is one of the two |
| KeyIndicator.GetStatusInfo | web/src/components/common/KeyStatusIndicator.js:50-112 | grey with "not configured" for no data or a zero count; red when rows exist and none is active; orange when rows exist, some are active and some disabled; otherwise green, worded for one key or many |
| KeyIndicator.CountSuffix | web/src/components/common/KeyStatusIndicator.js:139-143 | the "(n)" suffix appears exactly when there is data with more than one key, and shows that count |
| KeyIndicator.EmptyKeyListIsGreen | web/src/components/common/KeyStatusIndicator.js:69-111 | a response with a non-zero count but no rows is shown green |
| KeyIndicator.IndicatorAsWritten | web/src/components/common/KeyStatusIndicator.js:35-112 | with the count-only view it requests, the indicator is only ever grey or green, and grey exactly when there is no channel or no key |
| KeyIndicator.AsWrittenShowsDisabledKeyAsHealthy | web/src/components/common/KeyStatusIndicator.js:35-111 | an auto-disabled single-key channel, whose key the masked view lists as disabled, is shown green "healthy" |
| KeyIndicator.ClassifyTwoValuedRows | web/src/components/common/KeyStatusIndicator.js:60-111 | for rows that are each active or disabled and match the count: grey iff there are none, red iff all are disabled, green iff all are active, orange iff both occur |
| KeyIndicator.Indicator | web/src/components/common/KeyStatusIndicator.js:50-112 | with the masked view, a missing channel is grey "not configured"; for a present channel the colour is red iff every key is disabled, green iff every key is active, orange iff both occur, and grey iff there is no key |
| KeyIndicator.MaskedViewRows | service/channel.go:216-242 | the masked view of a present channel succeeds and has one row per parsed key, each carrying that key's status |
| KeyIndicator.RowsMirrorKeys | web/src/components/common/KeyStatusIndicator.js:60-111 | rows that carry the channel's key statuses give the colour the keys themselves call for |
| DbBootstrap.InitCol | model/main.go:27-61 | PostgreSQL gets double-quoted `group`/`key` and `true`/`false`; the other backends get backticks and `1`/`0`; the log columns follow the log backend when `LOG_SQL_DSN` is set and the main one otherwise |
| DbBootstrap.NormalizeMySqlDsn | model/main.go:152-158 | the result always mentions `parseTime` and extends the input; an input that mentions it already is unchanged; otherwise `parseTime=true` is appended after `&` when the DSN has a `?` and after `?` when it has none |
| DbBootstrap.NormalizeIdempotent | model/main.go:152-158 | normalising twice is normalising once |
| DbBootstrap.ChooseDB | model/main.go:117-174 | a `postgres://` or `postgresql://` DSN opens PostgreSQL; a `local…` DSN opens SQLite; any other non-empty DSN opens MySQL with the normalised DSN; an empty DSN opens SQLite and sets only the SQLite flag; the main database sets its backend flag and the log database sets only the log type; the columns are those `initCol` derives from the new flags |
| DbBootstrap.LocalPrefixWinsOverMySql | model/main.go:138-148 | any DSN beginning `local` opens SQLite, whatever follows |
| DbBootstrap.BackfillInfo | model/main.go:337-344 | a channel with polling enabled or a strategy set is left alone; any other channel gets polling off, the random strategy and sequential index 0, and no other setting changes; afterwards the channel is always configured |
| DbBootstrap.BackfillIdempotent | model/main.go:337-344 | backfilling a channel's settings twice is backfilling them once |
| DbBootstrap.UpdatedBelowStep | model/main.go:353 | looking at one more channel raises the update count exactly when that channel is written |
| DbBootstrap.MigrateChannelPollingStrategy | model/main.go:324-363 | a failed query is the only error and carries the query error after a fixed prefix; otherwise each row is stored backfilled exactly when it lacked a configuration and its save succeeded, and unchanged otherwise; the count equals the number of successful writes |
| DbBootstrap.SecondPassChangesNothing | model/main.go:334-354 | after a pass in which every save succeeded, a second pass writes nothing and every stored row is already backfilled |
| DbBootstrap.FirstFailure | model/main.go:299-303 | the position of the first failed table outcome: every earlier outcome succeeded and that one failed, or the length when none failed |
| DbBootstrap.MigrateDbFast | model/main.go:261-313 | no error exactly when every table migrated; otherwise the error names the first failure reported; the backfill runs exactly when there was no error, and its own failure is not returned |

## Left out

- Key rotation, meaning choosing the next enabled key under the random, polling or sequential strategy, lives in `model/channel.go`. That file is not part of this model, so no rotation or cursor property is stated here.
- The HTTP controllers behind `/api/channel/:id/key` are left out. So are the key-mode and strategy update handlers.
- `KeyView.GetChannelKeyView` takes `view_mode` directly; the controller between the request and the service is taken to pass it through unchanged.
- `json.Unmarshal`, `AcSearch`, `model.UpdateChannelStatus`, `NotifyRootUser`'s delivery and dedup store, and the time formatter are parameters, not models.
- Dedup of repeated notifications is `NotifyRootUser`'s concern. The model proves only that the key it receives identifies the transition.
- Text.TrimSpace: trims ASCII whitespace only, as a chosen simplification. Go's `strings.TrimSpace` also trims Unicode spaces, which arrive as UTF-8 byte sequences (NBSP is 0xC2 0xA0, U+3000 is 0xE3 0x80 0x80). A key or line that begins or ends with such a space is trimmed differently from Go.
- Text.ToLowerAscii: models only the ASCII path of `strings.ToLower`. For a string with a non-ASCII byte, Go maps `unicode.ToLower` over its runes: it folds non-ASCII capitals ("Ä" becomes "ä"), and it replaces each invalid UTF-8 byte with U+FFFD (three bytes), which changes the length.
- ChannelHealth.ShouldDisableChannel: lower-cases ASCII letters only. Go's `strings.ToLower` also folds non-ASCII letters before the keyword search.
- `ChannelTypes.KeyStrategy` holds only the empty, `random` and `sequential` values. Any other string stored in a row is not representable.
- `ChannelTypes.MultiKeyMode` likewise holds only the empty, `random`, `polling` and `sequential` values.
- `KeyCodec.JsonDecoder` leaves both decodes unconstrained. The model does not state which texts Go's decoder accepts, nor how the two targets relate. In Go they agree except on texts such as a number literal outside the float64 range, which the `interface{}` decode rejects and the `[]json.RawMessage` decode accepts. `KeyCodec.DisagreeingDecodes` states what follows from such a text.
- Five constants come from files outside this model: `common.ChannelStatus*` (1 enabled, 2 manually disabled, 3 auto-disabled), `constant.ChannelTypeGemini` (24) and `dto.NotifyTypeChannelUpdate` (`channel_update`). The values used are the upstream ones.
- Opening connections is left out: `gorm.Open`, pool settings, `InitDB`/`InitLogDB`, `migrateDB`, `migrateLOGDB`, `closeDB`/`CloseDB`, `PingDB`, `CheckSetup` and `createRootAccountIfNeed`. `AutoMigrate` appears only as each table's outcome.
- The goroutine fan-out of `migrateDBFast` is modelled by an input sequence of outcomes. Only failing workers send on the error channel, so the failures appear in the order they reached it. Successes may sit anywhere in the sequence, because `DbBootstrap.FirstFailure` skips them.
- Logging (`SysLog`, `SysError`) is left out. It has no effect on results.
- The `JSON_EXTRACT` filter of the backfill query is part of the `query` input.
- Integers are unbounded. Channel ids and counts fit Go's `int`, so no wrap-around is modelled.
- React rendering, icons, i18n and the loading state of the indicator are left out. `KeyIndicator.GetStatusInfo` models the colour, label and tooltip data.
- `ChannelHealth.LocalErrorNeverDisables` requires the error not to be channel-scoped, because service/channel.go:47 returns true for a channel-scoped error before the local-error check at :50 is reached.
- `KeyCodec.ParseKeys` takes the JSON path only for a trimmed blob starting with `[` (service/channel.go:147), while `KeyCodec.DetectKeyType` also accepts `{` (:123). A `{…}` blob is labelled `multi_json` but read line by line, so `multi_json` does not imply JSON keys. The converse holds only when the two decodes agree, as `KeyCodec.JsonKeysAreLabelledJson` states.

## Findings

| source | as written | input that shows it | evidently intended | confidence | as-written member | corrected member |
|---|---|---|---|---|---|---|
| web/src/components/common/KeyStatusIndicator.js:35 | the indicator requests `view_mode=count`. That view always has an empty key list (service/channel.go:205-214), so the red and orange branches (lines 70-94) can never fire | a single-key channel with status 3 (auto-disabled) and key `sk-abcdefgh`: the masked view lists the key as `disabled`, but the indicator shows green "正常" (KeyIndicator.AsWrittenShowsDisabledKeyAsHealthy) | request the masked view, as the key modal does (KeyViewModal.js:44), so the colour reflects the key statuses | medium, not executed | KeyIndicator.IndicatorAsWritten | KeyIndicator.Indicator |
