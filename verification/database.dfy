/** The pure rules inside the database bootstrap of `model/main.go`: SQL
    identifier quoting per backend, backend choice from a DSN, the MySQL
    `parseTime` normalisation, the polling-strategy backfill of multi-key
    channels and the error result of the parallel table migration. Opening
    connections and running migrations belong to the ORM and are inputs. */
module DbBootstrap {

  import opened Wrappers
  import opened Text
  import opened ChannelTypes

  datatype DatabaseType = MySQL | PostgreSQL | SQLite

  /** The SQL fragments `initCol` fixes for the rest of the program. */
  datatype Columns = Columns(
    groupCol: string,
    keyCol: string,
    trueVal: string,
    falseVal: string,
    logGroupCol: string,
    logKeyCol: string
  )

  const QuotedGroup: string := "\"group\""
  const QuotedKey: string := "\"key\""
  const BacktickGroup: string := "`group`"
  const BacktickKey: string := "`key`"

  /** `initCol`: PostgreSQL gets double-quoted identifiers and boolean
      literals; the other backends get backticks and 1/0. Log columns follow
      the log database when `LOG_SQL_DSN` is set, the main one otherwise. */
  function InitCol(usingPostgreSQL: bool, logDsnSet: bool, logSqlType: DatabaseType): (c: Columns)
    ensures usingPostgreSQL ==>
              c.groupCol == QuotedGroup && c.keyCol == QuotedKey && c.trueVal == "true" && c.falseVal == "false"
    ensures !usingPostgreSQL ==>
              c.groupCol == BacktickGroup && c.keyCol == BacktickKey && c.trueVal == "1" && c.falseVal == "0"
    ensures logDsnSet && logSqlType == PostgreSQL ==> c.logGroupCol == QuotedGroup && c.logKeyCol == QuotedKey
    ensures logDsnSet && logSqlType != PostgreSQL ==> c.logGroupCol == c.groupCol && c.logKeyCol == c.keyCol
    ensures !logDsnSet ==> c.logGroupCol == c.groupCol && c.logKeyCol == c.keyCol
  {
    var groupCol := if usingPostgreSQL then QuotedGroup else BacktickGroup;
    var keyCol := if usingPostgreSQL then QuotedKey else BacktickKey;
    var trueVal := if usingPostgreSQL then "true" else "1";
    var falseVal := if usingPostgreSQL then "false" else "0";
    var logCols :=
      if logDsnSet then
        if logSqlType == PostgreSQL then (QuotedGroup, QuotedKey) else (groupCol, keyCol)
      else
        if usingPostgreSQL then (QuotedGroup, QuotedKey) else (groupCol, keyCol);
    Columns(groupCol, keyCol, trueVal, falseVal, logCols.0, logCols.1)
  }

  /** The process-wide database flags `chooseDB` writes. */
  datatype DbGlobals = DbGlobals(usingPostgreSQL: bool, usingSQLite: bool, usingMySQL: bool, logSqlType: DatabaseType)

  /** What `chooseDB` opens: a PostgreSQL or MySQL DSN, or the SQLite file
      at the configured path. */
  datatype Connection = PostgresConn(dsn: string) | SqliteConn | MySqlConn(dsn: string) {
    function Backend(): DatabaseType {
      match this
      case PostgresConn(_) => PostgreSQL
      case SqliteConn => SQLite
      case MySqlConn(_) => MySQL
    }
  }

  /** The outcome of `chooseDB`: the connection, the flags afterwards, and the
      columns its deferred `initCol` computes from those flags. */
  datatype DbChoice = DbChoice(conn: Connection, globals: DbGlobals, cols: Columns)

  const ParseTime: string := "parseTime"

  /** The MySQL DSN rule: a DSN without `parseTime` gets `parseTime=true`
      appended as a further query parameter, or as the first one. */
  function NormalizeMySqlDsn(dsn: string): (r: string)
    ensures Contains(r, ParseTime)
    ensures |dsn| <= |r| && r[..|dsn|] == dsn
    ensures Contains(dsn, ParseTime) ==> r == dsn
    ensures !Contains(dsn, ParseTime) && '?' in dsn ==> r == dsn + "&parseTime=true"
    ensures !Contains(dsn, ParseTime) && '?' !in dsn ==> r == dsn + "?parseTime=true"
  {
    if Contains(dsn, ParseTime) then dsn
    else
      var sep := if '?' in dsn then "&" else "?";
      var r := dsn + sep + ParseTime + "=true";
      ContainsInfix(dsn + sep, ParseTime, "=true");
      r
  }

  /** Normalising twice is normalising once. */
  lemma NormalizeIdempotent(dsn: string)
    ensures NormalizeMySqlDsn(NormalizeMySqlDsn(dsn)) == NormalizeMySqlDsn(dsn)
  {
  }

  predicate IsPostgresDsn(dsn: string) {
    HasPrefix(dsn, "postgres://") || HasPrefix(dsn, "postgresql://")
  }

  /** `chooseDB` for the DSN read from the environment (`dsn`, empty when
      unset). `isLog` selects the log database; `logDsnSet` is whether
      `LOG_SQL_DSN` is set, which the deferred `initCol` reads. */
  function ChooseDB(g: DbGlobals, dsn: string, isLog: bool, logDsnSet: bool): (c: DbChoice)
    ensures dsn != "" && IsPostgresDsn(dsn) ==> c.conn == PostgresConn(dsn)
    ensures dsn != "" && !IsPostgresDsn(dsn) && HasPrefix(dsn, "local") ==> c.conn == SqliteConn
    ensures dsn != "" && !IsPostgresDsn(dsn) && !HasPrefix(dsn, "local") ==>
              c.conn == MySqlConn(NormalizeMySqlDsn(dsn))
    ensures dsn == "" ==> c.conn == SqliteConn && c.globals == g.(usingSQLite := true)
    ensures dsn != "" && !isLog ==>
              c.globals.logSqlType == g.logSqlType
              && (c.globals.usingPostgreSQL == (g.usingPostgreSQL || c.conn.Backend() == PostgreSQL))
              && (c.globals.usingSQLite == (g.usingSQLite || c.conn.Backend() == SQLite))
              && (c.globals.usingMySQL == (g.usingMySQL || c.conn.Backend() == MySQL))
    ensures dsn != "" && isLog ==> c.globals == g.(logSqlType := c.conn.Backend())
    ensures c.cols == InitCol(c.globals.usingPostgreSQL, logDsnSet, c.globals.logSqlType)
  {
    var (conn, g') :=
      if dsn != "" then
        if IsPostgresDsn(dsn) then
          (PostgresConn(dsn), if !isLog then g.(usingPostgreSQL := true) else g.(logSqlType := PostgreSQL))
        else if HasPrefix(dsn, "local") then
          (SqliteConn, if !isLog then g.(usingSQLite := true) else g.(logSqlType := SQLite))
        else
          (MySqlConn(NormalizeMySqlDsn(dsn)), if !isLog then g.(usingMySQL := true) else g.(logSqlType := MySQL))
      else
        (SqliteConn, g.(usingSQLite := true));
    DbChoice(conn, g', InitCol(g'.usingPostgreSQL, logDsnSet, g'.logSqlType))
  }

  /** Any DSN beginning `local` opens SQLite. */
  lemma LocalPrefixWinsOverMySql(rest: string, g: DbGlobals, isLog: bool, logDsnSet: bool)
    ensures ChooseDB(g, "local" + rest, isLog, logDsnSet).conn == SqliteConn
  {
    var dsn := "local" + rest;
    assert HasPrefix(dsn, "local");
    assert dsn[0] == 'l';
  }

  // ---------------------------------------------------------------------
  // Polling-strategy backfill

  /** The channel already carries a polling configuration. */
  predicate HasPollingConfig(info: ChannelInfo) {
    info.pollingEnabled || info.pollingStrategy != StrategyUnset
  }

  /** The per-channel default rule: a configured channel is left alone; any
      other gets polling off, the random strategy and sequential index 0,
      and nothing else changes. */
  function BackfillInfo(info: ChannelInfo): (r: ChannelInfo)
    ensures HasPollingConfig(r)
    ensures HasPollingConfig(info) ==> r == info
    ensures !HasPollingConfig(info) ==>
              !r.pollingEnabled && r.pollingStrategy == StrategyRandom && r.sequentialIndex == 0
    ensures r.isMultiKey == info.isMultiKey && r.statusList == info.statusList
            && r.pollingIndex == info.pollingIndex && r.multiKeyMode == info.multiKeyMode
  {
    if HasPollingConfig(info) then info
    else info.(pollingEnabled := false, pollingStrategy := StrategyRandom, sequentialIndex := 0)
  }

  /** Backfilling is idempotent. */
  lemma BackfillIdempotent(info: ChannelInfo)
    ensures BackfillInfo(BackfillInfo(info)) == BackfillInfo(info)
  {
  }

  /** The channel as the backfill would save it. */
  function Backfilled(ch: Channel): Channel {
    ch.(info := BackfillInfo(ch.info))
  }

  /** The backfill writes this channel and the store accepts the write.
      `save` is the store's verdict on writing the updated channel. */
  predicate IsUpdated(ch: Channel, save: Channel -> bool) {
    !HasPollingConfig(ch.info) && save(Backfilled(ch))
  }

  /** A channel's row once the backfill has passed over it. */
  function RowAfter(ch: Channel, save: Channel -> bool): Channel {
    if IsUpdated(ch, save) then Backfilled(ch) else ch
  }

  /** Positions below `n` of the channels the backfill writes successfully. */
  function UpdatedBelow(channels: seq<Channel>, save: Channel -> bool, n: int): set<int> {
    set i | 0 <= i < n && i < |channels| && IsUpdated(channels[i], save)
  }

  /** Positions of the channels the backfill writes successfully. */
  function UpdatedPositions(channels: seq<Channel>, save: Channel -> bool): set<int> {
    UpdatedBelow(channels, save, |channels|)
  }

  /** Looking at one more channel adds it to the count exactly when it is written. */
  lemma UpdatedBelowStep(channels: seq<Channel>, save: Channel -> bool, i: nat)
    requires i < |channels|
    ensures |UpdatedBelow(channels, save, i + 1)|
         == |UpdatedBelow(channels, save, i)| + (if IsUpdated(channels[i], save) then 1 else 0)
  {
    var before := UpdatedBelow(channels, save, i);
    var after := UpdatedBelow(channels, save, i + 1);
    var here := if IsUpdated(channels[i], save) then {i} else {};
    forall j ensures j in after <==> j in before + here {
    }
    assert after == before + here;
    assert i !in before;
  }

  /** The stored channels after the backfill and the number it updated. */
  datatype BackfillReport = BackfillReport(stored: seq<Channel>, updatedCount: nat)

  const QueryFailurePrefix: string := "failed to query multi-key channels: "

  /** `migrateChannelPollingStrategy`: `query` is the result of selecting
      the multi-key channels. A failed query is the only error; a failed
      save skips that channel and is not counted. */
  method MigrateChannelPollingStrategy(query: Result<seq<Channel>, string>, save: Channel -> bool)
    returns (r: Result<BackfillReport, string>)
    ensures query.Failure? <==> r.Failure?
    ensures r.Failure? ==> r.error == QueryFailurePrefix + query.error
    ensures r.Success? ==>
              var channels := query.value;
              && |r.value.stored| == |channels|
              && (forall i :: 0 <= i < |channels| ==> r.value.stored[i] == RowAfter(channels[i], save))
              && r.value.updatedCount == |UpdatedPositions(channels, save)|
  {
    if query.Failure? {
      return Failure(QueryFailurePrefix + query.error);
    }
    var channels := query.value;
    var stored: seq<Channel> := [];
    var updatedCount: nat := 0;
    var i := 0;
    while i < |channels|
      invariant 0 <= i <= |channels|
      invariant |stored| == i
      invariant forall j :: 0 <= j < i ==> stored[j] == RowAfter(channels[j], save)
      invariant updatedCount == |UpdatedBelow(channels, save, i)|
    {
      var ch := channels[i];
      UpdatedBelowStep(channels, save, i);
      if HasPollingConfig(ch.info) {
        stored := stored + [ch];
      } else {
        var updated := Backfilled(ch);
        if save(updated) {
          stored := stored + [updated];
          updatedCount := updatedCount + 1;
        } else {
          stored := stored + [ch];
        }
      }
      i := i + 1;
    }
    return Success(BackfillReport(stored, updatedCount));
  }

  /** After a pass in which every save succeeded, a second pass finds every
      channel configured: it writes nothing and leaves every row as it is. */
  lemma SecondPassChangesNothing(channels: seq<Channel>, save: Channel -> bool, save2: Channel -> bool)
    requires forall i :: 0 <= i < |channels| ==> HasPollingConfig(channels[i].info) || save(Backfilled(channels[i]))
    ensures var stored := seq(|channels|, i requires 0 <= i < |channels| => RowAfter(channels[i], save));
            && UpdatedPositions(stored, save2) == {}
            && forall i :: 0 <= i < |stored| ==> Backfilled(stored[i]) == stored[i]
  {
    var stored := seq(|channels|, i requires 0 <= i < |channels| => RowAfter(channels[i], save));
    assert forall i :: 0 <= i < |stored| ==> HasPollingConfig(stored[i].info);
    assert UpdatedPositions(stored, save2) == {};
  }

  // ---------------------------------------------------------------------
  // Table migration result

  /** One table's `AutoMigrate` result as its worker reports it. */
  datatype TableOutcome = TableOutcome(name: string, err: Option<string>)

  /** The result of `migrateDBFast`: the error it returns, and whether it
      went on to the polling-strategy backfill. */
  datatype FastMigration = FastMigration(err: Option<string>, backfillRan: bool)

  /** Position of the first failed outcome, `|outcomes|` if none failed. */
  function FirstFailure(outcomes: seq<TableOutcome>): (k: nat)
    ensures k <= |outcomes|
    ensures forall j :: 0 <= j < k ==> outcomes[j].err.None?
    ensures k < |outcomes| ==> outcomes[k].err.Some?
  {
    if outcomes == [] then 0
    else if outcomes[0].err.Some? then 0
    else 1 + FirstFailure(outcomes[1..])
  }

  function MigrationError(o: TableOutcome): string
    requires o.err.Some?
  {
    "failed to migrate " + o.name + ": " + o.err.value
  }

  /** `migrateDBFast`'s result: `outcomes` are the workers' results, the
      failures in the order they reached the error channel (only failing
      workers send on it) and the successes anywhere among them, since
      `FirstFailure` skips them. The first failure is returned;
      with none, the backfill runs and its own failure is only logged, so
      the result is no error. */
  function MigrateDbFast(outcomes: seq<TableOutcome>): (r: FastMigration)
    ensures r.err.None? <==> forall j :: 0 <= j < |outcomes| ==> outcomes[j].err.None?
    ensures r.backfillRan <==> r.err.None?
    ensures r.err.Some? ==>
              exists k :: 0 <= k < |outcomes| && outcomes[k].err.Some?
                && (forall j :: 0 <= j < k ==> outcomes[j].err.None?)
                && r.err.value == MigrationError(outcomes[k])
  {
    var k := FirstFailure(outcomes);
    if k < |outcomes| then FastMigration(Some(MigrationError(outcomes[k])), false)
    else FastMigration(None, true)
  }
}
