/** A session: a data context driven by any sequence of calls of its public methods, and
    what holds across the whole sequence. */
module Sessions {
  import opened Wrappers
  import opened Jdbc
  import opened SchemaTableEntries
  import opened DataContext
  import opened Invariants
  import opened Closing

  /** One call of a public method of the context, with the driver call that throws
      during it, if any, fixed in advance. */
  datatype Op =
    | ColumnsPKeysMetadataCall(schema: Option<string>, table: Option<string>, fault: Fault)
    | SingletonSeedCall(schema: Option<string>, table: Option<string>, fault: Fault, columnCount: int32)
    | SingletonStatementCall(fault: Fault)
    | PrepareStatementCall(sql: Option<string>, fault: Fault)
    | CloseCall(failing: set<Handle>)

  /** The one call that can leave a handle open and untracked: `columnsPKeysMetadata`
      when `getPrimaryKeys` throws. */
  predicate MayLeak(op: Op) {
    op.ColumnsPKeysMetadataCall? && Throws(op.fault, MetaDataGetPrimaryKeys)
  }

  /** No cached seed is lost or replaced. */
  predicate KeepsSeeds(before: Context, after: Context) {
    forall e :: e in before.seeds ==> e in after.seeds && after.seeds[e] == before.seeds[e]
  }

  /** The world after one call, whether the call returned or threw. */
  function Apply(w: World, op: Op, quote: string -> string): (r: World)
    ensures w.nextId <= r.nextId && w.trace <= r.trace
    ensures KeepsHandles(w.ctx, r.ctx) && KeepsSeeds(w.ctx, r.ctx)
  {
    match op
    case ColumnsPKeysMetadataCall(schema, table, fault) =>
      ColumnsPKeysMetadata(w, schema, table, fault).world
    case SingletonSeedCall(schema, table, fault, columnCount) =>
      SingletonSeed(w, schema, table, quote, fault, columnCount).world
    case SingletonStatementCall(fault) =>
      SingletonStatement(w, fault).world
    case PrepareStatementCall(sql, fault) =>
      PrepareStatement(w, sql, fault).world
    case CloseCall(failing) =>
      Close(w, failing).world
  }

  /** The world after a sequence of calls, each made on the world the previous one left. */
  function Run(w: World, ops: seq<Op>, quote: string -> string): (r: World)
    ensures w.nextId <= r.nextId && w.trace <= r.trace
    ensures KeepsHandles(w.ctx, r.ctx) && KeepsSeeds(w.ctx, r.ctx)
    decreases |ops|
  {
    if |ops| == 0 then w else Run(Apply(w, ops[0], quote), ops[1..], quote)
  }

  lemma ApplyPreserves(w: World, op: Op, quote: string -> string)
    ensures Valid(w) ==> Valid(Apply(w, op, quote))
    ensures TracksOnlyNew(w, Apply(w, op, quote))
    ensures !MayLeak(op) ==> Preserves(w, Apply(w, op, quote))
  {
    match op
    case ColumnsPKeysMetadataCall(schema, table, fault) =>
      ColumnsPKeysMetadataPreserves(w, schema, table, fault);
    case SingletonSeedCall(schema, table, fault, columnCount) =>
      SingletonSeedPreserves(w, schema, table, quote, fault, columnCount);
    case SingletonStatementCall(fault) =>
      SingletonStatementPreserves(w, fault);
    case PrepareStatementCall(sql, fault) =>
      PrepareStatementPreserves(w, sql, fault);
    case CloseCall(failing) =>
      ClosePreserves(w, failing);
  }

  /** Every call keeps the invariant, and a context only ever starts tracking handles
      handed out during the session. */
  lemma {:induction false} RunPreserves(w: World, ops: seq<Op>, quote: string -> string)
    ensures Valid(w) ==> Valid(Run(w, ops, quote))
    ensures TracksOnlyNew(w, Run(w, ops, quote))
    decreases |ops|
  {
    if |ops| > 0 {
      var w1 := Apply(w, ops[0], quote);
      ApplyPreserves(w, ops[0], quote);
      RunPreserves(w1, ops[1..], quote);
    }
  }

  /** Unless some `getPrimaryKeys` throws, every handle the driver hands out during the
      session is one the context will close. */
  lemma {:induction false} RunHasNoLeaks(w: World, ops: seq<Op>, quote: string -> string)
    requires NoLeaks(w)
    requires forall i :: 0 <= i < |ops| ==> !MayLeak(ops[i])
    ensures NoLeaks(Run(w, ops, quote))
    decreases |ops|
  {
    if |ops| > 0 {
      ApplyPreserves(w, ops[0], quote);
      RunHasNoLeaks(Apply(w, ops[0], quote), ops[1..], quote);
    }
  }

  /** A session of a new context. */
  function Session(source: nat, nextId: nat, ops: seq<Op>, quote: string -> string): World {
    Run(World(Context(source, None, None, [], map[], []), nextId, []), ops, quote)
  }

  /** Whatever the calls and whatever throws, the driver hands out at most one connection
      and at most one statement, the connection first, and these are the connection and
      statement the context holds. A `getConnection` or `createStatement` that throws hands
      out nothing. */
  lemma SessionOpensOneConnection(source: nat, nextId: nat, ops: seq<Op>, quote: string -> string)
    ensures var r := Session(source, nextId, ops, quote);
            var acquired := Lifecycle(r.trace);
            && |acquired| <= 2
            && (r.ctx.connection.Some? <==> |acquired| >= 1)
            && (r.ctx.statement.Some? <==> |acquired| == 2)
            && (r.ctx.connection.Some? ==> acquired[0] == Handle(Connection, r.ctx.connection.value))
            && (r.ctx.statement.Some? ==> acquired[1] == Handle(Statement, r.ctx.statement.value))
  {
    var w := World(Context(source, None, None, [], map[], []), nextId, []);
    NewWorldIsValid(w.ctx, nextId);
    RunPreserves(w, ops, quote);
  }

  /** Every handle the context would close was handed out by the driver during the
      session; unless some `getPrimaryKeys` throws, the converse holds too. */
  lemma SessionTracksExactlyWhatItOpened(source: nat, nextId: nat, ops: seq<Op>, quote: string -> string)
    ensures var r := Session(source, nextId, ops, quote);
            Tracked(r.ctx) <= OpenedSet(r.trace)
    ensures (forall i :: 0 <= i < |ops| ==> !MayLeak(ops[i])) ==>
              var r := Session(source, nextId, ops, quote);
              Tracked(r.ctx) == OpenedSet(r.trace)
  {
    var w := World(Context(source, None, None, [], map[], []), nextId, []);
    NewWorldIsValid(w.ctx, nextId);
    RunPreserves(w, ops, quote);
    if forall i :: 0 <= i < |ops| ==> !MayLeak(ops[i]) {
      RunHasNoLeaks(w, ops, quote);
    }
  }

  /** When `getPrimaryKeys` throws, the columns result set has already been handed out but
      is never registered: it is open, and the context does not track it, so its `close`
      will not visit it. With `UntrackedStaysUntracked`, no later call tracks it and no
      later `close` visits it. */
  lemma PrimaryKeysFailureLeaksColumns(w: World, schema: string, table: string)
    requires Valid(w)
    ensures var m := ColumnsPKeysMetadata(w, Some(schema), Some(table), Some(MetaDataGetPrimaryKeys));
            var leaked := Handle(ResultSet, m.world.nextId - 1);
            && m.result == Failure(SqlFailure(MetaDataGetPrimaryKeys))
            && m.world.nextId > w.nextId
            && leaked in OpenedSet(m.world.trace)
            && leaked !in Tracked(m.world.ctx)
            && !NoLeaks(m.world)
  {
    var m := ColumnsPKeysMetadata(w, Some(schema), Some(table), Some(MetaDataGetPrimaryKeys));
    PrimaryKeysFailureShape(w, schema, table);
    LeftOpenUntracked(w, m.world);
  }

  /** A throwing `getPrimaryKeys` registers no result set but has handed one out last. */
  lemma PrimaryKeysFailureShape(w: World, schema: string, table: string)
    ensures var m := ColumnsPKeysMetadata(w, Some(schema), Some(table), Some(MetaDataGetPrimaryKeys));
            && m.result == Failure(SqlFailure(MetaDataGetPrimaryKeys))
            && m.world.ctx.resultSets == w.ctx.resultSets
            && w.nextId < m.world.nextId
            && Opened(Handle(ResultSet, m.world.nextId - 1)) in m.world.trace
  {
  }

  /** A result set handed out after `w`, by a call that registered no result set, is
      open and not tracked. */
  lemma LeftOpenUntracked(w: World, r: World)
    requires Valid(w) && r.ctx.resultSets == w.ctx.resultSets && w.nextId < r.nextId
    requires Opened(Handle(ResultSet, r.nextId - 1)) in r.trace
    ensures Handle(ResultSet, r.nextId - 1) in OpenedSet(r.trace)
    ensures Handle(ResultSet, r.nextId - 1) !in Tracked(r.ctx)
    ensures !NoLeaks(r)
  {
    BelowNextId(w);
    OpenedInTrace(r.trace, Handle(ResultSet, r.nextId - 1));
  }

  /** A handle handed out before a run and not tracked at its start is never tracked
      during it, so no `close` in or after the run visits it. */
  lemma UntrackedStaysUntracked(w: World, h: Handle, ops: seq<Op>, quote: string -> string)
    requires h !in Tracked(w.ctx) && h.id < w.nextId
    ensures h !in Tracked(Run(w, ops, quote).ctx)
    ensures h !in CloseOrder(Run(w, ops, quote).ctx)
  {
    RunPreserves(w, ops, quote);
    CloseOrderIsTracked(Run(w, ops, quote).ctx);
  }

  lemma TrackedBelowNextId(w: World)
    requires Valid(w)
    ensures forall h :: h in Tracked(w.ctx) ==> h.id < w.nextId
  {
  }

  // ---------------------------------------------------------------------------
  // Memoisation
  // ---------------------------------------------------------------------------

  /** Once a seed is cached, any later `singletonSeed` of the same names returns it,
      makes no driver call whatever would throw, and changes nothing. */
  lemma SeedIsMemoised(
    w: World, schema: string, table: string, quote: string -> string, fault: Fault, columnCount: int32,
    ops: seq<Op>, laterFault: Fault, laterColumnCount: int32)
    requires SingletonSeed(w, Some(schema), Some(table), quote, fault, columnCount).result.Success?
    ensures var first := SingletonSeed(w, Some(schema), Some(table), quote, fault, columnCount);
            var u := Run(first.world, ops, quote);
            SingletonSeed(u, Some(schema), Some(table), quote, laterFault, laterColumnCount)
              == Step(u, Success(first.result.value))
  {
  }

  /** Once created, every later `singletonStatement` returns the same statement and
      changes nothing, whatever would throw. */
  lemma StatementIsSingleton(w: World, fault: Fault, ops: seq<Op>, laterFault: Fault, quote: string -> string)
    requires SingletonStatement(w, fault).result.Success?
    ensures var first := SingletonStatement(w, fault);
            var u := Run(first.world, ops, quote);
            SingletonStatement(u, laterFault) == Step(u, Success(first.result.value))
  {
  }

  /** `columnsPKeysMetadata` is not memoised: two calls with the same names return four
      distinct result sets, all registered. */
  lemma ColumnsAreNotMemoised(w: World, schema: string, table: string, fault1: Fault, fault2: Fault)
    requires ColumnsPKeysMetadata(w, Some(schema), Some(table), fault1).result.Success?
    requires var first := ColumnsPKeysMetadata(w, Some(schema), Some(table), fault1);
             ColumnsPKeysMetadata(first.world, Some(schema), Some(table), fault2).result.Success?
    ensures var first := ColumnsPKeysMetadata(w, Some(schema), Some(table), fault1);
            var second := ColumnsPKeysMetadata(first.world, Some(schema), Some(table), fault2);
            var (a, b) := first.result.value;
            var (c, d) := second.result.value;
            && a < b < c < d
            && second.world.ctx.resultSets == w.ctx.resultSets + [a, b, c, d]
  {
  }

  /** `prepareStatement` is not memoised: two calls with the same text return two
      distinct prepared statements, both registered. */
  lemma PreparedStatementsAreNotMemoised(w: World, sql: string, fault1: Fault, fault2: Fault)
    requires PrepareStatement(w, Some(sql), fault1).result.Success?
    requires PrepareStatement(PrepareStatement(w, Some(sql), fault1).world, Some(sql), fault2).result.Success?
    ensures var first := PrepareStatement(w, Some(sql), fault1);
            var second := PrepareStatement(first.world, Some(sql), fault2);
            && first.result.value < second.result.value
            && second.world.ctx.preparedStatements
               == w.ctx.preparedStatements + [first.result.value, second.result.value]
  {
  }
}
