/** The data context: a data-source wrapper that opens one connection and one ad-hoc
    statement lazily, tracks every result set and prepared statement it creates, memoises
    full-table scan seeds per (schema, table), and closes everything it tracks in one go.

    The context is modelled as an immutable value. Each operation maps a `World` (the
    context, the driver's fresh-id supply and the driver's event trace) to a new `World`
    and the operation's outcome. */
module DataContext {
  import opened Wrappers
  import opened Jdbc
  import opened SchemaTableEntries

  /** What `ResultSet.getMetaData()` returns for the scan result set: only the column
      count is observed. */
  datatype ResultSetMetaData = ResultSetMetaData(resultSet: nat, columnCount: int32)

  /** The vector `[result-set metadata column-ordinals]` used to read every row of a table. */
  datatype Seed = Seed(resultSet: nat, metadata: ResultSetMetaData, columnOrdinals: seq<int>)

  /** The fields of a data context. Handles are kept as ids; the registries are in
      creation order. */
  datatype Context = Context(
    source: nat,
    connection: Option<nat>,
    statement: Option<nat>,
    resultSets: seq<nat>,
    seeds: map<SchemaTableEntry, Seed>,
    preparedStatements: seq<nat>)

  /** A context together with the driver's fresh-id supply and the driver's event trace. */
  datatype World = World(ctx: Context, nextId: nat, trace: seq<Event>)

  /** The state after an operation, and what the operation returned or threw. */
  datatype Step<+T> = Step(world: World, result: Outcome<T>)

  // ---------------------------------------------------------------------------
  // Views of a context
  // ---------------------------------------------------------------------------

  /** A context as the constructor leaves it: nothing opened, nothing tracked, nothing cached. */
  predicate Pristine(ctx: Context) {
    && ctx.connection.None?
    && ctx.statement.None?
    && ctx.resultSets == []
    && ctx.seeds == map[]
    && ctx.preparedStatements == []
  }

  /** Every handle the context would close. */
  function Tracked(ctx: Context): set<Handle> {
    (set i | i in ctx.resultSets :: Handle(ResultSet, i))
    + (set i | i in ctx.preparedStatements :: Handle(PreparedStatement, i))
    + (if ctx.statement.Some? then {Handle(Statement, ctx.statement.value)} else {})
    + (if ctx.connection.Some? then {Handle(Connection, ctx.connection.value)} else {})
  }

  /** Clojure's `(range 1 (+ count 1))`, where `count + 1` is Java `int` arithmetic. */
  function ColumnOrdinals(columnCount: int32): seq<int> {
    Range(1, AddInt32(columnCount, 1) as int)
  }

  /** `ensureConnection` has to ask the data source for a connection, and that call throws. */
  predicate ConnectionFails(ctx: Context, fault: Fault) {
    ctx.connection.None? && Throws(fault, DataSourceGetConnection)
  }

  /** `ensureStatement` has to create the statement, and that call throws. */
  predicate StatementFails(ctx: Context, fault: Fault) {
    ctx.statement.None? && Throws(fault, ConnectionCreateStatement)
  }

  /** The driver calls the catalog half of `columnsPKeysMetadata` makes. */
  const CatalogCalls: set<Call> :=
    {ConnectionGetMetaData, ConnectionGetCatalog, MetaDataGetColumns, MetaDataGetPrimaryKeys}

  /** The calls the query half of a `singletonSeed` miss makes. */
  const QueryCalls: set<Call> :=
    {EnquoteSchema, EnquoteTable, StatementExecuteQuery, ResultSetGetMetaData, MetaDataGetColumnCount}

  /** An error thrown after the scan query ran and its result set was registered. */
  predicate AfterQuery(e: Error) {
    e == SqlFailure(ResultSetGetMetaData) || e == SqlFailure(MetaDataGetColumnCount)
  }

  // ---------------------------------------------------------------------------
  // Primitive steps: each records what the driver did and what the context tracked
  // ---------------------------------------------------------------------------

  /** The driver receives a call that opens nothing. */
  function Record(w: World, e: Event): World {
    w.(trace := w.trace + [e])
  }

  /** The driver hands out a new handle of `kind`, with id `w.nextId`; the context does
      not (yet) track it. */
  function Create(w: World, kind: Kind): World {
    w.(nextId := w.nextId + 1, trace := w.trace + [Opened(Handle(kind, w.nextId))])
  }

  /** `source.getConnection()` succeeds and the context keeps the connection. */
  function OpenConnection(w: World): World
    requires w.ctx.connection.None?
  {
    w.(ctx := w.ctx.(connection := Some(w.nextId)),
       nextId := w.nextId + 1,
       trace := w.trace + [Opened(Handle(Connection, w.nextId))])
  }

  /** `connection.createStatement()` succeeds and the context keeps the statement. */
  function OpenStatement(w: World): World
    requires w.ctx.connection.Some? && w.ctx.statement.None?
  {
    w.(ctx := w.ctx.(statement := Some(w.nextId)),
       nextId := w.nextId + 1,
       trace := w.trace + [Opened(Handle(Statement, w.nextId))])
  }

  /** A result set is opened and appended to the registry. */
  function TrackResultSet(w: World): World {
    var w1 := Create(w, ResultSet);
    w1.(ctx := w1.ctx.(resultSets := w1.ctx.resultSets + [w.nextId]))
  }

  /** A prepared statement is opened and appended to the registry. */
  function TrackPreparedStatement(w: World): World {
    var w1 := Create(w, PreparedStatement);
    w1.(ctx := w1.ctx.(preparedStatements := w1.ctx.preparedStatements + [w.nextId]))
  }

  /** `seed` is cached under `entry`, replacing nothing else. */
  function CacheSeed(w: World, entry: SchemaTableEntry, seed: Seed): World {
    w.(ctx := w.ctx.(seeds := w.ctx.seeds[entry := seed]))
  }

  function Fail<T>(w: World, call: Call): Step<T> {
    Step(w, Failure(SqlFailure(call)))
  }

  // ---------------------------------------------------------------------------
  // Operations
  // ---------------------------------------------------------------------------

  /** The constructor: a null data source is rejected. */
  function New(source: Option<nat>): (r: Outcome<Context>)
    ensures source.None? <==> r == Failure(NullPointer)
    ensures r.Success? ==> Pristine(r.value) && r.value.source == source.value
  {
    if source.None? then Failure(NullPointer)
    else Success(Context(source.value, None, None, [], map[], []))
  }

  /** The events of acquiring the connection and the statement that `after` holds and
      `before` did not, connection first. */
  function Acquisitions(before: Context, after: Context): seq<Event> {
    (if before.connection.None? && after.connection.Some?
     then [Opened(Handle(Connection, after.connection.value))] else [])
    + (if before.statement.None? && after.statement.Some?
       then [Opened(Handle(Statement, after.statement.value))] else [])
  }

  /** `after` differs from `before` at most by holding a connection or a statement that
      `before` did not; one `before` holds is kept. */
  predicate Acquires(before: Context, after: Context) {
    && KeepsHandles(before, after)
    && after.source == before.source
    && after.resultSets == before.resultSets
    && after.seeds == before.seeds
    && after.preparedStatements == before.preparedStatements
  }

  /** A connection or statement `before` holds is still held by `after`. */
  predicate KeepsHandles(before: Context, after: Context) {
    && (before.connection.Some? ==> after.connection == before.connection)
    && (before.statement.Some? ==> after.statement == before.statement)
  }

  /** `ensureConnection`: asks the data source for a connection only if none is held. */
  function EnsureConnection(w: World, fault: Fault): (r: Step<nat>)
    // it throws exactly when it has to ask and `getConnection` throws
    ensures r.result.Failure? <==> ConnectionFails(w.ctx, fault)
    ensures w.ctx.connection.Some? ==> r == Step(w, Success(w.ctx.connection.value))
    ensures w.ctx.connection.None? && r.result.Success? ==> r.world == OpenConnection(w)
    ensures r.result.Success? ==>
              && r.world.ctx == w.ctx.(connection := Some(r.result.value))
              && r.world.trace == w.trace + Acquisitions(w.ctx, r.world.ctx)
              && w.nextId <= r.world.nextId
    ensures r.result.Failure? ==>
              r.world == w && r.result.error == SqlFailure(DataSourceGetConnection)
  {
    if w.ctx.connection.Some? then Step(w, Success(w.ctx.connection.value))
    else if Throws(fault, DataSourceGetConnection) then Fail(w, DataSourceGetConnection)
    else Step(OpenConnection(w), Success(w.nextId))
  }

  /** `ensureStatement`: creates the ad-hoc statement only if none is held. Every caller
      has just ensured the connection. */
  function EnsureStatement(w: World, fault: Fault): (r: Step<nat>)
    requires w.ctx.connection.Some?
    // it throws exactly when it has to create and `createStatement` throws
    ensures r.result.Failure? <==> StatementFails(w.ctx, fault)
    ensures w.ctx.statement.Some? ==> r == Step(w, Success(w.ctx.statement.value))
    ensures w.ctx.statement.None? && r.result.Success? ==> r.world == OpenStatement(w)
    ensures r.result.Success? ==>
              && r.world.ctx == w.ctx.(statement := Some(r.result.value))
              && r.world.trace == w.trace + Acquisitions(w.ctx, r.world.ctx)
              && w.nextId <= r.world.nextId
    ensures r.result.Failure? ==>
              r.world == w && r.result.error == SqlFailure(ConnectionCreateStatement)
  {
    if w.ctx.statement.Some? then Step(w, Success(w.ctx.statement.value))
    else if Throws(fault, ConnectionCreateStatement) then Fail(w, ConnectionCreateStatement)
    else Step(OpenStatement(w), Success(w.nextId))
  }

  /** `columnsPKeysMetadata`: opens a columns result set and then a primary-keys result set,
      registers both and returns them in that order. Nothing is cached: every call opens
      two new result sets. */
  function ColumnsPKeysMetadata(w: World, schema: Option<string>, table: Option<string>, fault: Fault)
    : (r: Step<(nat, nat)>)
    // null arguments are rejected before the driver is touched
    ensures schema.None? || table.None? ==> r == Step(w, Failure(NullPointer))
    // it throws exactly when a name is null, `getConnection` is needed and throws, or a
    // catalog call throws; a driver exception is the one the throwing call raised
    ensures r.result.Failure? <==>
              || schema.None? || table.None?
              || ConnectionFails(w.ctx, fault)
              || ThrowsOneOf(fault, CatalogCalls)
    ensures r.result.Failure? && schema.Some? && table.Some? ==> r.result.error == SqlFailure(fault.value)
    // on success: two new result sets, columns first, each asked for by the given names,
    // opened and appended to the registry
    ensures r.result.Success? ==>
              && w.nextId <= r.result.value.0 < r.result.value.1 < r.world.nextId
              && r.world.ctx.resultSets == w.ctx.resultSets + [r.result.value.0, r.result.value.1]
              && r.world.trace == w.trace + Acquisitions(w.ctx, r.world.ctx)
                                + [CatalogQuery(MetaDataGetColumns, schema.value, table.value),
                                   Opened(Handle(ResultSet, r.result.value.0)),
                                   CatalogQuery(MetaDataGetPrimaryKeys, schema.value, table.value),
                                   Opened(Handle(ResultSet, r.result.value.1))]
              && r.world.ctx.connection.Some?
    // a failure registers nothing; a failing `getPrimaryKeys` leaves the columns result set
    // handed out all the same
    ensures r.result.Failure? ==> r.world.ctx.resultSets == w.ctx.resultSets
    // a throwing `getConnection` changes nothing; a connection acquired before a catalog
    // call throws stays held, and its acquisition stays in the trace
    ensures schema.Some? && table.Some? && ConnectionFails(w.ctx, fault) ==> r.world == w
    ensures schema.Some? && table.Some? && !ConnectionFails(w.ctx, fault) ==>
              && r.world.ctx.connection.Some?
              && w.trace + Acquisitions(w.ctx, r.world.ctx) <= r.world.trace
    ensures schema.Some? && table.Some? && Throws(fault, MetaDataGetPrimaryKeys) ==>
              && w.nextId < r.world.nextId
              && Opened(Handle(ResultSet, r.world.nextId - 1)) in r.world.trace
    // the connection, once held, is reused
    ensures w.ctx.connection.Some? ==> r.world.ctx.connection == w.ctx.connection
    // nothing else changes
    ensures && r.world.ctx.seeds == w.ctx.seeds
            && r.world.ctx.preparedStatements == w.ctx.preparedStatements
            && r.world.ctx.statement == w.ctx.statement
            && r.world.ctx.source == w.ctx.source
    ensures w.trace <= r.world.trace && w.nextId <= r.world.nextId
  {
    if schema.None? || table.None? then Step(w, Failure(NullPointer))
    else
      var c := EnsureConnection(w, fault);
      if c.result.Failure? then Step(c.world, Failure(c.result.error))
      else MetadataQueries(c.world, schema.value, table.value, fault)
  }

  /** The catalog half of `columnsPKeysMetadata`, once the connection exists: read the
      metadata and the catalog, ask for the columns and then the primary keys of
      `schema.table`, and register both result sets at the end. */
  function MetadataQueries(w: World, schema: string, table: string, fault: Fault): (r: Step<(nat, nat)>)
    // it throws exactly when one of its four driver calls throws, with that call's exception
    ensures r.result.Failure? <==> ThrowsOneOf(fault, CatalogCalls)
    ensures r.result.Failure? ==> r.result.error == SqlFailure(fault.value)
    // the context itself only changes on success, and then only by the two registrations
    ensures r.result.Failure? ==> r.world.ctx == w.ctx
    ensures r.result.Success? ==>
              var (columns, keys) := r.result.value;
              && w.nextId == columns && keys == columns + 1 && r.world.nextId == keys + 1
              && r.world.ctx == w.ctx.(resultSets := w.ctx.resultSets + [columns, keys])
              && r.world.trace == w.trace + [CatalogQuery(MetaDataGetColumns, schema, table),
                                             Opened(Handle(ResultSet, columns)),
                                             CatalogQuery(MetaDataGetPrimaryKeys, schema, table),
                                             Opened(Handle(ResultSet, keys))]
    // when `getPrimaryKeys` throws, the columns result set is open but not registered
    ensures Throws(fault, MetaDataGetPrimaryKeys) ==>
              && r.world.nextId == w.nextId + 1
              && r.world.trace == w.trace + [CatalogQuery(MetaDataGetColumns, schema, table),
                                             Opened(Handle(ResultSet, w.nextId)),
                                             CatalogQuery(MetaDataGetPrimaryKeys, schema, table)]
    // any other failure hands out nothing
    ensures r.result.Failure? && !Throws(fault, MetaDataGetPrimaryKeys) ==>
              && r.world.nextId == w.nextId
              && (|| r.world.trace == w.trace
                  || r.world.trace == w.trace + [CatalogQuery(MetaDataGetColumns, schema, table)])
  {
    if Throws(fault, ConnectionGetMetaData) then Fail(w, ConnectionGetMetaData)
    else if Throws(fault, ConnectionGetCatalog) then Fail(w, ConnectionGetCatalog)
    else
      var w1 := Record(w, CatalogQuery(MetaDataGetColumns, schema, table));
      if Throws(fault, MetaDataGetColumns) then Fail(w1, MetaDataGetColumns)
      else
        // the columns result set is open from here on, but only registered at the end
        var w2 := Record(Create(w1, ResultSet), CatalogQuery(MetaDataGetPrimaryKeys, schema, table));
        if Throws(fault, MetaDataGetPrimaryKeys) then Fail(w2, MetaDataGetPrimaryKeys)
        else
          var w3 := Create(w2, ResultSet);
          Step(w3.(ctx := w3.ctx.(resultSets := w3.ctx.resultSets + [w.nextId, w.nextId + 1])),
               Success((w.nextId, w.nextId + 1)))
  }

  /** The SQL text that reads every row of `schema.table`, with both names quoted. */
  function SelectAll(quote: string -> string, schema: string, table: string): string {
    "select * from " + quote(schema) + "." + quote(table)
  }

  /** The seed a full-table query builds from its result set `rs`. */
  function NewSeed(rs: nat, columnCount: int32): (seed: Seed)
    ensures seed.resultSet == rs && seed.metadata == ResultSetMetaData(rs, columnCount)
    ensures 0 <= columnCount as int < INT32_MAX ==>
              && |seed.columnOrdinals| == columnCount as int
              && forall i :: 0 <= i < |seed.columnOrdinals| ==> seed.columnOrdinals[i] == i + 1
  {
    Seed(rs, ResultSetMetaData(rs, columnCount), ColumnOrdinals(columnCount))
  }

  /** The query half of a `singletonSeed` miss, once the statement exists: quote both
      names, run the query, register its result set, read the column count, cache. */
  function SeedQuery(w: World, entry: SchemaTableEntry, quote: string -> string, fault: Fault, columnCount: int32)
    : (r: Step<Seed>)
    // it throws exactly when one of its calls throws, with that call's exception
    ensures r.result.Failure? <==> ThrowsOneOf(fault, QueryCalls)
    ensures r.result.Failure? ==> r.result.error == SqlFailure(fault.value)
    ensures r.result.Success? ==>
              && r.result.value == NewSeed(w.nextId, columnCount)
              && r.world.ctx == w.ctx.(resultSets := w.ctx.resultSets + [w.nextId],
                                       seeds := w.ctx.seeds[entry := r.result.value])
              && r.world.nextId == w.nextId + 1
              && r.world.trace == w.trace + [Sent(SelectAll(quote, entry.schema, entry.table)),
                                             Opened(Handle(ResultSet, w.nextId))]
    // quoting throws before the driver sees any text
    ensures Throws(fault, EnquoteSchema) || Throws(fault, EnquoteTable) ==> r.world == w
    // a throwing `executeQuery` has received the text but opened nothing
    ensures Throws(fault, StatementExecuteQuery) ==>
              r.world == w.(trace := w.trace + [Sent(SelectAll(quote, entry.schema, entry.table))])
    // once the query has run, its result set stays registered even if reading its
    // metadata throws; nothing is cached
    ensures r.result.Failure? && AfterQuery(r.result.error) ==>
              && r.world.ctx == w.ctx.(resultSets := w.ctx.resultSets + [w.nextId])
              && r.world.nextId == w.nextId + 1
              && r.world.trace == w.trace + [Sent(SelectAll(quote, entry.schema, entry.table)),
                                             Opened(Handle(ResultSet, w.nextId))]
  {
    if Throws(fault, EnquoteSchema) then Fail(w, EnquoteSchema)
    else if Throws(fault, EnquoteTable) then Fail(w, EnquoteTable)
    else
      var w1 := Record(w, Sent(SelectAll(quote, entry.schema, entry.table)));
      if Throws(fault, StatementExecuteQuery) then Fail(w1, StatementExecuteQuery)
      else
        var w2 := TrackResultSet(w1);
        if Throws(fault, ResultSetGetMetaData) then Fail(w2, ResultSetGetMetaData)
        else if Throws(fault, MetaDataGetColumnCount) then Fail(w2, MetaDataGetColumnCount)
        else
          var seed := NewSeed(w1.nextId, columnCount);
          Step(CacheSeed(w2, entry, seed), Success(seed))
  }

  /** The miss path of `singletonSeed`: ensure the connection, then the statement (the
      two calls `singletonStatement` makes), then query. */
  function SeedMiss(w: World, entry: SchemaTableEntry, quote: string -> string, fault: Fault, columnCount: int32)
    : (r: Step<Seed>)
    ensures SeedMissSpec(w, entry, quote, fault, columnCount, r)
  {
    var s := SingletonStatement(w, fault);
    if s.result.Failure? then Step(s.world, Failure(s.result.error))
    else
      var q := SeedQuery(s.world, entry, quote, fault, columnCount);
      SeedMissComposes(w, s, q, entry, quote, fault, columnCount);
      q
  }

  /** What a `singletonSeed` miss does, whether it succeeds or throws. */
  ghost predicate SeedMissSpec(
    w: World, entry: SchemaTableEntry, quote: string -> string, fault: Fault, columnCount: int32, r: Step<Seed>)
  {
    && (r.result.Failure? <==>
          ConnectionFails(w.ctx, fault) || StatementFails(w.ctx, fault) || ThrowsOneOf(fault, QueryCalls))
    && (r.result.Failure? ==> fault.Some? && r.result.error == SqlFailure(fault.value))
    && (r.result.Success? ==>
          var rs := r.result.value.resultSet;
          && r.result.value == NewSeed(rs, columnCount)
          && w.nextId <= rs && r.world.nextId == rs + 1
          && r.world.ctx.resultSets == w.ctx.resultSets + [rs]
          && r.world.ctx.seeds == w.ctx.seeds[entry := r.result.value]
          && r.world.ctx.connection.Some? && r.world.ctx.statement.Some?
          && r.world.trace == w.trace + Acquisitions(w.ctx, r.world.ctx)
                            + [Sent(SelectAll(quote, entry.schema, entry.table)), Opened(Handle(ResultSet, rs))])
    && (r.result.Failure? ==>
          && r.world.ctx.seeds == w.ctx.seeds
          && (AfterQuery(r.result.error) ==>
                w.nextId < r.world.nextId && r.world.ctx.resultSets == w.ctx.resultSets + [r.world.nextId - 1])
          && (!AfterQuery(r.result.error) ==> r.world.ctx.resultSets == w.ctx.resultSets))
    // a handle acquired before a later call throws stays held, and its acquisition stays
    // in the trace
    && (!ConnectionFails(w.ctx, fault) ==> r.world.ctx.connection.Some?)
    && (!ConnectionFails(w.ctx, fault) && !StatementFails(w.ctx, fault) ==> r.world.ctx.statement.Some?)
    && w.trace + Acquisitions(w.ctx, r.world.ctx) <= r.world.trace
    && KeepsHandles(w.ctx, r.world.ctx)
    && r.world.ctx.preparedStatements == w.ctx.preparedStatements
    && r.world.ctx.source == w.ctx.source
    && w.trace <= r.world.trace && w.nextId <= r.world.nextId
  }

  /** Acquiring the statement and then querying meets `SeedMissSpec`. */
  lemma SeedMissComposes(
    w: World, s: Step<nat>, q: Step<Seed>,
    entry: SchemaTableEntry, quote: string -> string, fault: Fault, columnCount: int32)
    requires s == SingletonStatement(w, fault) && s.result.Success?
    requires q == SeedQuery(s.world, entry, quote, fault, columnCount)
    ensures SeedMissSpec(w, entry, quote, fault, columnCount, q)
  {
  }

  /** `singletonSeed`: returns the cached seed of `(schema, table)`, or runs the full-table
      query once, registers its result set and caches the new seed. */
  function SingletonSeed(
    w: World, schema: Option<string>, table: Option<string>,
    quote: string -> string, fault: Fault, columnCount: int32)
    : (r: Step<Seed>)
    // null arguments are rejected before the driver is touched
    ensures schema.None? || table.None? ==> r == Step(w, Failure(NullPointer))
    // a cache hit, by value equality of the entry, returns the cached seed and changes nothing
    ensures schema.Some? && table.Some? && SchemaTableEntry(schema.value, table.value) in w.ctx.seeds ==>
              r == Step(w, Success(w.ctx.seeds[SchemaTableEntry(schema.value, table.value)]))
    // it throws exactly when a name is null, or on a miss when acquiring the connection or
    // the statement throws or a call of the query throws; a driver exception is the one
    // the throwing call raised
    ensures r.result.Failure? <==>
              || schema.None? || table.None?
              || (&& SchemaTableEntry(schema.value, table.value) !in w.ctx.seeds
                  && (|| ConnectionFails(w.ctx, fault) || StatementFails(w.ctx, fault)
                      || ThrowsOneOf(fault, QueryCalls)))
    ensures r.result.Failure? && schema.Some? && table.Some? ==>
              fault.Some? && r.result.error == SqlFailure(fault.value)
    // a miss that succeeds: one query of the quoted names, one new result set, one new seed
    ensures schema.Some? && table.Some? && SchemaTableEntry(schema.value, table.value) !in w.ctx.seeds
            && r.result.Success? ==>
              var seed := r.result.value;
              && w.nextId <= seed.resultSet < r.world.nextId
              && r.world.ctx.resultSets == w.ctx.resultSets + [seed.resultSet]
              && r.world.ctx.seeds == w.ctx.seeds[SchemaTableEntry(schema.value, table.value) := seed]
              && seed.metadata == ResultSetMetaData(seed.resultSet, columnCount)
              && (0 <= columnCount as int < INT32_MAX ==>
                    && |seed.columnOrdinals| == columnCount as int
                    && forall i :: 0 <= i < |seed.columnOrdinals| ==> seed.columnOrdinals[i] == i + 1)
              && r.world.trace == w.trace + Acquisitions(w.ctx, r.world.ctx)
                                + [Sent(SelectAll(quote, schema.value, table.value)),
                                   Opened(Handle(ResultSet, seed.resultSet))]
              && r.world.ctx.connection.Some? && r.world.ctx.statement.Some?
    // a failure caches nothing; it registers the one result set the query opened exactly
    // when reading that result set's metadata or column count threw
    ensures r.result.Failure? ==> r.world.ctx.seeds == w.ctx.seeds
    ensures r.result.Failure? && AfterQuery(r.result.error) ==>
              && w.nextId < r.world.nextId
              && r.world.ctx.resultSets == w.ctx.resultSets + [r.world.nextId - 1]
    ensures r.result.Failure? && !AfterQuery(r.result.error) ==> r.world.ctx.resultSets == w.ctx.resultSets
    // on a miss, a connection or statement acquired before a later call throws stays held;
    // every acquisition stays in the trace
    ensures schema.Some? && table.Some? && SchemaTableEntry(schema.value, table.value) !in w.ctx.seeds ==>
              && (!ConnectionFails(w.ctx, fault) ==> r.world.ctx.connection.Some?)
              && (!ConnectionFails(w.ctx, fault) && !StatementFails(w.ctx, fault) ==> r.world.ctx.statement.Some?)
    ensures w.trace + Acquisitions(w.ctx, r.world.ctx) <= r.world.trace
    // the connection and statement, once held, are reused
    ensures w.ctx.connection.Some? ==> r.world.ctx.connection == w.ctx.connection
    ensures w.ctx.statement.Some? ==> r.world.ctx.statement == w.ctx.statement
    // nothing else changes, and no cached seed is lost or replaced
    ensures && r.world.ctx.preparedStatements == w.ctx.preparedStatements
            && r.world.ctx.source == w.ctx.source
            && w.ctx.seeds.Keys <= r.world.ctx.seeds.Keys
            && (forall e :: e in w.ctx.seeds ==> r.world.ctx.seeds[e] == w.ctx.seeds[e])
    ensures w.trace <= r.world.trace && w.nextId <= r.world.nextId
  {
    if schema.None? || table.None? then Step(w, Failure(NullPointer))
    else
      var entry := SchemaTableEntry(schema.value, table.value);
      if entry in w.ctx.seeds then Step(w, Success(w.ctx.seeds[entry]))
      else
        var m := SeedMiss(w, entry, quote, fault, columnCount);
        MissKeepsCache(w, entry, quote, fault, columnCount, m);
        m
  }

  /** A miss only adds `entry` to the cache, and the seed it adds counts columns from one. */
  lemma MissKeepsCache(
    w: World, entry: SchemaTableEntry, quote: string -> string, fault: Fault, columnCount: int32, m: Step<Seed>)
    requires entry !in w.ctx.seeds
    requires SeedMissSpec(w, entry, quote, fault, columnCount, m)
    ensures m.result.Success? ==>
              var seed := m.result.value;
              && seed.metadata == ResultSetMetaData(seed.resultSet, columnCount)
              && (0 <= columnCount as int < INT32_MAX ==>
                    && |seed.columnOrdinals| == columnCount as int
                    && forall i :: 0 <= i < |seed.columnOrdinals| ==> seed.columnOrdinals[i] == i + 1)
    ensures w.ctx.seeds.Keys <= m.world.ctx.seeds.Keys <= w.ctx.seeds.Keys + {entry}
    ensures forall e :: e in w.ctx.seeds ==> m.world.ctx.seeds[e] == w.ctx.seeds[e]
  {
  }

  /** For every column count Java can represent without overflowing `count + 1`, the
      ordinals are exactly 1, 2, ..., count; at `Integer.MAX_VALUE` the sum wraps and
      the ordinals are empty. */
  lemma OrdinalsCountFromOne(columnCount: int32)
    ensures 0 <= columnCount as int < INT32_MAX ==>
              && |ColumnOrdinals(columnCount)| == columnCount as int
              && forall i :: 0 <= i < columnCount as int ==> ColumnOrdinals(columnCount)[i] == i + 1
    ensures columnCount as int == INT32_MAX ==> ColumnOrdinals(columnCount) == []
    ensures columnCount as int < 0 ==> ColumnOrdinals(columnCount) == []
  {
  }

  /** `singletonStatement`: the one ad-hoc statement of the context, created on first use. */
  function SingletonStatement(w: World, fault: Fault): (r: Step<nat>)
    // it throws exactly when acquiring the connection or the statement throws
    ensures r.result.Failure? <==> ConnectionFails(w.ctx, fault) || StatementFails(w.ctx, fault)
    ensures r.result.Failure? ==> fault.Some? && r.result.error == SqlFailure(fault.value)
    // once created, every call returns the same statement and changes nothing
    ensures w.ctx.connection.Some? && w.ctx.statement.Some? ==> r == Step(w, Success(w.ctx.statement.value))
    ensures r.result.Success? ==>
              r.world.ctx.statement == Some(r.result.value) && r.world.ctx.connection.Some?
    // whether or not it throws, the trace records exactly the handles acquired, which stay
    // held: a connection acquired before `createStatement` throws is kept
    ensures !ConnectionFails(w.ctx, fault) ==> r.world.ctx.connection.Some?
    ensures r.result.Failure? ==> r.world.ctx.statement == w.ctx.statement
    ensures r.world.trace == w.trace + Acquisitions(w.ctx, r.world.ctx)
    ensures r.world.nextId == w.nextId + |Acquisitions(w.ctx, r.world.ctx)|
    // nothing but the connection and the statement changes, and those only from absent to held
    ensures Acquires(w.ctx, r.world.ctx)
    ensures w.trace <= r.world.trace && w.nextId <= r.world.nextId
  {
    var c := EnsureConnection(w, fault);
    if c.result.Failure? then c
    else
      var s := EnsureStatement(c.world, fault);
      assert s.result.Success? ==>
        Acquisitions(w.ctx, c.world.ctx) + Acquisitions(c.world.ctx, s.world.ctx)
        == Acquisitions(w.ctx, s.world.ctx);
      s
  }

  /** `prepareStatement`: a new prepared statement on every call, registered in order. */
  function PrepareStatement(w: World, sql: Option<string>, fault: Fault): (r: Step<nat>)
    // a null text is rejected before the driver is touched
    ensures sql.None? ==> r == Step(w, Failure(NullPointer))
    // it throws exactly when the text is null, `getConnection` is needed and throws, or
    // `prepareStatement` throws; a driver exception is the one the throwing call raised
    ensures r.result.Failure? <==>
              sql.None? || ConnectionFails(w.ctx, fault) || Throws(fault, ConnectionPrepareStatement)
    ensures r.result.Failure? && sql.Some? ==> fault.Some? && r.result.error == SqlFailure(fault.value)
    // on success: one new prepared statement for exactly this text, appended to the registry
    ensures r.result.Success? ==>
              && w.nextId <= r.result.value < r.world.nextId
              && r.world.ctx.preparedStatements == w.ctx.preparedStatements + [r.result.value]
              && r.world.trace == w.trace + Acquisitions(w.ctx, r.world.ctx)
                                + [Sent(sql.value), Opened(Handle(PreparedStatement, r.result.value))]
              && r.world.ctx.connection.Some?
    ensures r.result.Failure? ==> r.world.ctx.preparedStatements == w.ctx.preparedStatements
    // a throwing `getConnection` changes nothing; a connection acquired before
    // `prepareStatement` throws stays held, and the text has reached the driver
    ensures sql.Some? && ConnectionFails(w.ctx, fault) ==> r.world == w
    ensures sql.Some? && !ConnectionFails(w.ctx, fault) ==>
              && r.world.ctx.connection.Some?
              && w.trace + Acquisitions(w.ctx, r.world.ctx) + [Sent(sql.value)] <= r.world.trace
    ensures w.ctx.connection.Some? ==> r.world.ctx.connection == w.ctx.connection
    // nothing else changes
    ensures && r.world.ctx.statement == w.ctx.statement
            && r.world.ctx.resultSets == w.ctx.resultSets
            && r.world.ctx.seeds == w.ctx.seeds
            && r.world.ctx.source == w.ctx.source
    ensures w.trace <= r.world.trace && w.nextId <= r.world.nextId
  {
    if sql.None? then Step(w, Failure(NullPointer))
    else
      var c := EnsureConnection(w, fault);
      if c.result.Failure? then c
      else PrepareOnConnection(c.world, sql.value, fault)
  }

  /** The driver half of `prepareStatement`, once the connection exists. */
  function PrepareOnConnection(w: World, sql: string, fault: Fault): (r: Step<nat>)
    // it throws exactly when the driver's `prepareStatement` throws
    ensures r.result.Failure? <==> Throws(fault, ConnectionPrepareStatement)
    ensures r.result.Failure? ==> r.result.error == SqlFailure(ConnectionPrepareStatement)
    // the text reaches the driver whether or not preparing it throws
    ensures |w.trace| < |r.world.trace| && r.world.trace[..|w.trace| + 1] == w.trace + [Sent(sql)]
    // on success: one new statement, for this text, registered last
    ensures r.result.Success? ==>
              && w.nextId <= r.result.value < r.world.nextId
              && r.world.ctx == w.ctx.(preparedStatements := w.ctx.preparedStatements + [r.result.value])
              && r.world.trace == w.trace + [Sent(sql), Opened(Handle(PreparedStatement, r.result.value))]
    // on failure nothing is handed out or registered
    ensures r.result.Failure? ==> r.world.ctx == w.ctx && r.world.nextId == w.nextId
  {
    var w1 := Record(w, Sent(sql));
    if Throws(fault, ConnectionPrepareStatement) then Fail(w1, ConnectionPrepareStatement)
    else Step(TrackPreparedStatement(w1), Success(w1.nextId))
  }

  // ---------------------------------------------------------------------------
  // close
  // ---------------------------------------------------------------------------

  /** The order `close` visits the tracked handles in: every result set, then every
      prepared statement, each in creation order, then the statement, then the connection. */
  function CloseOrder(ctx: Context): seq<Handle> {
    Handles(ResultSet, ctx.resultSets)
    + Handles(PreparedStatement, ctx.preparedStatements)
    + (if ctx.statement.Some? then [Handle(Statement, ctx.statement.value)] else [])
    + (if ctx.connection.Some? then [Handle(Connection, ctx.connection.value)] else [])
  }

  function Handles(kind: Kind, ids: seq<nat>): seq<Handle> {
    seq(|ids|, i requires 0 <= i < |ids| => Handle(kind, ids[i]))
  }

  /** One `Closed` event per handle, in order. */
  function Closes(hs: seq<Handle>): seq<Event> {
    seq(|hs|, i requires 0 <= i < |hs| => Closed(hs[i]))
  }

  /** The index of the first handle whose `close()` throws, or `|hs|` if none does. */
  function FirstFailure(hs: seq<Handle>, failing: set<Handle>): (k: nat)
    ensures k <= |hs|
    ensures forall i :: 0 <= i < k ==> hs[i] !in failing
    ensures k < |hs| ==> hs[k] in failing
  {
    if |hs| == 0 || hs[0] in failing then 0 else 1 + FirstFailure(hs[1..], failing)
  }

  /** Closes `hs` one after another; the first `close()` that throws ends the loop, and
      nothing after it is closed. Returns the events and the handle that threw, if any. */
  function CloseAll(hs: seq<Handle>, failing: set<Handle>): (r: (seq<Event>, Option<Handle>))
    ensures var k := FirstFailure(hs, failing);
            && r.0 == Closes(hs[..k]) + (if k < |hs| then [CloseFailed(hs[k])] else [])
            && r.1 == (if k < |hs| then Some(hs[k]) else None)
  {
    if |hs| == 0 then ([], None)
    else if hs[0] in failing then ([CloseFailed(hs[0])], Some(hs[0]))
    else
      var rest := CloseAll(hs[1..], failing);
      var k := FirstFailure(hs[1..], failing);
      assert [Closed(hs[0])] + Closes(hs[1..][..k]) == Closes(hs[..k + 1]);
      ([Closed(hs[0])] + rest.0, rest.1)
  }

  /** `close`: closes every tracked handle in `CloseOrder`. The first `close()` that throws
      is propagated and the remaining handles stay open. The fields are not reset. */
  function Close(w: World, failing: set<Handle>): (r: Step<()>)
    ensures r.world.ctx == w.ctx && r.world.nextId == w.nextId
    ensures w.trace <= r.world.trace
    ensures var order := CloseOrder(w.ctx);
            var k := FirstFailure(order, failing);
            && r.world.trace[|w.trace|..] == Closes(order[..k]) + (if k < |order| then [CloseFailed(order[k])] else [])
            && (r.result.Success? <==> k == |order|)
            && (r.result.Failure? ==> r.result.error == CloseFailure(order[k]))
  {
    var (events, failed) := CloseAll(CloseOrder(w.ctx), failing);
    Step(w.(trace := w.trace + events), if failed.Some? then Failure(CloseFailure(failed.value)) else Success(()))
  }
}
