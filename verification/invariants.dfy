/** The invariant every reachable world satisfies, and one lemma per operation showing
    that the operation keeps it: the context only tracks handles the driver handed out,
    and, unless a primary-keys query throws, tracks every handle the driver handed out. */
module Invariants {
  import opened Wrappers
  import opened Jdbc
  import opened SchemaTableEntries
  import opened DataContext

  /** The connection and statement the context holds, connection first. */
  function Acquired(ctx: Context): seq<Handle> {
    (if ctx.connection.Some? then [Handle(Connection, ctx.connection.value)] else [])
    + (if ctx.statement.Some? then [Handle(Statement, ctx.statement.value)] else [])
  }

  /** Every handle the driver handed out in `trace`. */
  function OpenedSet(trace: seq<Event>): set<Handle> {
    if |trace| == 0 then {}
    else
      var e := trace[|trace| - 1];
      OpenedSet(trace[..|trace| - 1]) + (if e.Opened? then {e.h} else {})
  }

  predicate IsLifecycle(e: Event) {
    e.Opened? && (e.h.kind == Connection || e.h.kind == Statement)
  }

  /** The connections and statements the driver handed out in `trace`, in order. */
  function Lifecycle(trace: seq<Event>): seq<Handle> {
    if |trace| == 0 then []
    else
      var e := trace[|trace| - 1];
      Lifecycle(trace[..|trace| - 1]) + (if IsLifecycle(e) then [e.h] else [])
  }

  /** A registry in creation order: ids strictly increase. */
  predicate Increasing(s: seq<nat>) {
    forall i, j :: 0 <= i < j < |s| ==> s[i] < s[j]
  }

  /** A seed as the miss path of `singletonSeed` builds it. */
  predicate WellFormedSeed(s: Seed) {
    && s.metadata.resultSet == s.resultSet
    && s.columnOrdinals == ColumnOrdinals(s.metadata.columnCount)
  }

  /** The invariant every reachable world satisfies: a statement only on a connection,
      ids below the fresh-id supply, every tracked handle really handed out, registries in
      creation order, every seed's result set registered, and the connection and
      statement handed out exactly once each, connection first. */
  ghost predicate Valid(w: World) {
    && (w.ctx.statement.Some? ==> w.ctx.connection.Some?)
    && (forall h :: h in OpenedSet(w.trace) ==> h.id < w.nextId)
    && Tracked(w.ctx) <= OpenedSet(w.trace)
    && Increasing(w.ctx.resultSets)
    && Increasing(w.ctx.preparedStatements)
    && (forall e :: e in w.ctx.seeds ==> w.ctx.seeds[e].resultSet in w.ctx.resultSets)
    && (forall e :: e in w.ctx.seeds ==> WellFormedSeed(w.ctx.seeds[e]))
    && Lifecycle(w.trace) == Acquired(w.ctx)
  }

  /** Every handle the driver ever handed out is one the context will close. */
  ghost predicate NoLeaks(w: World) {
    OpenedSet(w.trace) == Tracked(w.ctx)
  }

  /** Every handle `r` tracks and `w` did not was handed out after `w`. */
  ghost predicate TracksOnlyNew(w: World, r: World) {
    forall h :: h in Tracked(r.ctx) ==> h in Tracked(w.ctx) || w.nextId <= h.id
  }

  lemma BelowNextId(w: World)
    ensures Valid(w) ==> forall i :: i in w.ctx.resultSets ==> i < w.nextId
    ensures Valid(w) ==> forall i :: i in w.ctx.preparedStatements ==> i < w.nextId
    ensures Valid(w) ==> Increasing(w.ctx.resultSets + [w.nextId])
    ensures Valid(w) ==> Increasing(w.ctx.preparedStatements + [w.nextId])
  {
    if Valid(w) {
      forall i | i in w.ctx.resultSets ensures i < w.nextId {
        assert Handle(ResultSet, i) in Tracked(w.ctx);
      }
      forall i | i in w.ctx.preparedStatements ensures i < w.nextId {
        assert Handle(PreparedStatement, i) in Tracked(w.ctx);
      }
      AppendKeepsIncreasing(w.ctx.resultSets, w.nextId);
      AppendKeepsIncreasing(w.ctx.preparedStatements, w.nextId);
    }
  }

  lemma AppendKeepsIncreasing(s: seq<nat>, x: nat)
    requires Increasing(s)
    requires forall i :: i in s ==> i < x
    ensures Increasing(s + [x])
  {
    forall i, j | 0 <= i < j < |s + [x]| ensures (s + [x])[i] < (s + [x])[j] {
      if j == |s| {
        assert s[i] in s;
      }
    }
  }

  lemma SnocViews(t: seq<Event>, e: Event)
    ensures OpenedSet(t + [e]) == OpenedSet(t) + (if e.Opened? then {e.h} else {})
    ensures Lifecycle(t + [e]) == Lifecycle(t) + (if IsLifecycle(e) then [e.h] else [])
  {
  }

  /** Every handle an `Opened` event of the trace names is in its opened set. */
  lemma OpenedInTrace(t: seq<Event>, h: Handle)
    requires Opened(h) in t
    ensures h in OpenedSet(t)
    decreases |t|
  {
    if t[|t| - 1] != Opened(h) {
      var i :| 0 <= i < |t| && t[i] == Opened(h);
      assert t[..|t| - 1][i] == Opened(h);
      OpenedInTrace(t[..|t| - 1], h);
    }
  }

  /** `r` keeps the invariant and the no-leak property of `w`, and tracks nothing old
      that `w` did not. */
  ghost predicate Preserves(w: World, r: World) {
    && (Valid(w) ==> Valid(r))
    && (NoLeaks(w) ==> NoLeaks(r))
    && TracksOnlyNew(w, r)
  }

  lemma PreservesTransitive(a: World, b: World, c: World)
    requires Preserves(a, b) && Preserves(b, c) && a.nextId <= b.nextId
    ensures Preserves(a, c)
  {
  }

  /** A new context in a world where the driver has not been asked for anything. */
  lemma NewWorldIsValid(ctx: Context, nextId: nat)
    requires Pristine(ctx)
    ensures Valid(World(ctx, nextId, []))
    ensures NoLeaks(World(ctx, nextId, []))
  {
  }

  // ---------------------------------------------------------------------------
  // Primitive steps
  // ---------------------------------------------------------------------------

  /** A call that opens nothing keeps everything. */
  lemma RecordPreserves(w: World, e: Event)
    requires !e.Opened?
    ensures Preserves(w, Record(w, e))
  {
    SnocViews(w.trace, e);
  }

  /** Handing out a result set or a prepared statement without tracking it keeps the
      invariant, but not the no-leak property. */
  lemma CreateViews(w: World, kind: Kind)
    ensures OpenedSet(Create(w, kind).trace) == OpenedSet(w.trace) + {Handle(kind, w.nextId)}
    ensures kind == ResultSet || kind == PreparedStatement ==> Lifecycle(Create(w, kind).trace) == Lifecycle(w.trace)
    ensures (kind == ResultSet || kind == PreparedStatement) && Valid(w) ==> Valid(Create(w, kind))
  {
  }

  lemma OpenConnectionPreserves(w: World)
    requires w.ctx.connection.None?
    ensures Preserves(w, OpenConnection(w))
  {
  }

  lemma OpenStatementPreserves(w: World)
    requires w.ctx.connection.Some? && w.ctx.statement.None?
    ensures Preserves(w, OpenStatement(w))
  {
  }

  lemma TrackResultSetPreserves(w: World)
    ensures Preserves(w, TrackResultSet(w))
  {
    BelowNextId(w);
    CreateViews(w, ResultSet);
  }

  lemma TrackPreparedStatementPreserves(w: World)
    ensures Preserves(w, TrackPreparedStatement(w))
  {
    BelowNextId(w);
    CreateViews(w, PreparedStatement);
  }

  lemma CacheSeedPreserves(w: World, entry: SchemaTableEntry, seed: Seed)
    requires seed.resultSet in w.ctx.resultSets && WellFormedSeed(seed)
    ensures Preserves(w, CacheSeed(w, entry, seed))
  {
  }

  /** Two handles opened between two calls that open nothing, in terms of the views. */
  lemma CatalogTraceViews(t: seq<Event>, e1: Event, e2: Event, a: Handle, b: Handle)
    requires !e1.Opened? && !e2.Opened? && a.kind == ResultSet && b.kind == ResultSet
    ensures OpenedSet(t + [e1, Opened(a), e2, Opened(b)]) == OpenedSet(t) + {a, b}
    ensures Lifecycle(t + [e1, Opened(a), e2, Opened(b)]) == Lifecycle(t)
  {
    SnocViews(t, e1);
    SnocViews(t + [e1], Opened(a));
    SnocViews(t + [e1] + [Opened(a)], e2);
    SnocViews(t + [e1] + [Opened(a)] + [e2], Opened(b));
    assert t + [e1, Opened(a), e2, Opened(b)] == t + [e1] + [Opened(a)] + [e2] + [Opened(b)];
  }

  // ---------------------------------------------------------------------------
  // Operations
  // ---------------------------------------------------------------------------

  lemma EnsureConnectionPreserves(w: World, fault: Fault)
    ensures Preserves(w, EnsureConnection(w, fault).world)
  {
  }

  lemma EnsureStatementPreserves(w: World, fault: Fault)
    requires w.ctx.connection.Some?
    ensures Preserves(w, EnsureStatement(w, fault).world)
  {
    if w.ctx.statement.None? && !Throws(fault, ConnectionCreateStatement) {
      OpenStatementPreserves(w);
    }
  }

  /** The catalog queries keep the invariant; they keep the no-leak property unless
      `getPrimaryKeys` throws, which leaves the columns result set open and untracked. */
  lemma MetadataQueriesPreserves(w: World, schema: string, table: string, fault: Fault)
    ensures Valid(w) ==> Valid(MetadataQueries(w, schema, table, fault).world)
    ensures TracksOnlyNew(w, MetadataQueries(w, schema, table, fault).world)
    ensures !Throws(fault, MetaDataGetPrimaryKeys) ==> Preserves(w, MetadataQueries(w, schema, table, fault).world)
  {
    var r := MetadataQueries(w, schema, table, fault);
    var e1 := CatalogQuery(MetaDataGetColumns, schema, table);
    var e2 := CatalogQuery(MetaDataGetPrimaryKeys, schema, table);
    if r.result.Success? {
      assert r.world.ctx == w.ctx.(resultSets := w.ctx.resultSets + [w.nextId, w.nextId + 1]);
      assert r.world.trace == w.trace + [e1, Opened(Handle(ResultSet, w.nextId)), e2, Opened(Handle(ResultSet, w.nextId + 1))];
      CatalogPairPreserves(w, r.world, e1, e2);
    } else if Throws(fault, MetaDataGetPrimaryKeys) {
      assert r.world == Record(Create(Record(w, e1), ResultSet), e2);
      RecordPreserves(w, e1);
      CreateViews(Record(w, e1), ResultSet);
      RecordPreserves(Create(Record(w, e1), ResultSet), e2);
    } else if Throws(fault, MetaDataGetColumns) {
      assert r.world == Record(w, e1);
      RecordPreserves(w, e1);
    } else {
      assert r.world == w;
    }
  }

  /** Two result sets handed out between calls that open nothing, then both registered. */
  lemma CatalogPairPreserves(w: World, r: World, e1: Event, e2: Event)
    requires !e1.Opened? && !e2.Opened?
    requires r.ctx == w.ctx.(resultSets := w.ctx.resultSets + [w.nextId, w.nextId + 1])
    requires r.nextId == w.nextId + 2
    requires r.trace == w.trace + [e1, Opened(Handle(ResultSet, w.nextId)), e2, Opened(Handle(ResultSet, w.nextId + 1))]
    ensures Preserves(w, r)
  {
    var a, b := Handle(ResultSet, w.nextId), Handle(ResultSet, w.nextId + 1);
    CatalogTraceViews(w.trace, e1, e2, a, b);
    assert Tracked(r.ctx) == Tracked(w.ctx) + {a, b};
    if Valid(w) {
      RegisterPairValid(w, r);
    }
  }

  /** Registering the two result sets just handed out keeps the invariant: the result is
      the world of two `TrackResultSet` steps, up to events that open nothing. */
  lemma RegisterPairValid(w: World, r: World)
    requires Valid(w)
    requires r.ctx == w.ctx.(resultSets := w.ctx.resultSets + [w.nextId, w.nextId + 1])
    requires r.nextId == w.nextId + 2
    requires OpenedSet(r.trace) == OpenedSet(w.trace) + {Handle(ResultSet, w.nextId), Handle(ResultSet, w.nextId + 1)}
    requires Lifecycle(r.trace) == Lifecycle(w.trace)
    ensures Valid(r)
  {
    var v1 := TrackResultSet(w);
    var v2 := TrackResultSet(v1);
    assert Valid(v2) by {
      TrackResultSetPreserves(w);
      TrackResultSetPreserves(v1);
    }
    assert OpenedSet(r.trace) == OpenedSet(v2.trace) && Lifecycle(r.trace) == Lifecycle(v2.trace) by {
      CreateViews(w, ResultSet);
      CreateViews(v1, ResultSet);
    }
    assert v2.ctx == r.ctx by {
      assert v2.ctx.resultSets == w.ctx.resultSets + [w.nextId] + [w.nextId + 1];
    }
    SameViewsSameValidity(v2, r);
  }

  /** Validity depends on the trace only through the opened set and the lifecycle. */
  lemma SameViewsSameValidity(v: World, r: World)
    requires Valid(v)
    requires r.ctx == v.ctx && r.nextId == v.nextId
    requires OpenedSet(r.trace) == OpenedSet(v.trace) && Lifecycle(r.trace) == Lifecycle(v.trace)
    ensures Valid(r)
  {
  }

  lemma ColumnsPKeysMetadataPreserves(w: World, schema: Option<string>, table: Option<string>, fault: Fault)
    ensures Valid(w) ==> Valid(ColumnsPKeysMetadata(w, schema, table, fault).world)
    ensures TracksOnlyNew(w, ColumnsPKeysMetadata(w, schema, table, fault).world)
    ensures !Throws(fault, MetaDataGetPrimaryKeys) ==> Preserves(w, ColumnsPKeysMetadata(w, schema, table, fault).world)
  {
    var r := ColumnsPKeysMetadata(w, schema, table, fault);
    if schema.Some? && table.Some? {
      var c := EnsureConnection(w, fault);
      EnsureConnectionPreserves(w, fault);
      if c.result.Success? {
        var m := MetadataQueries(c.world, schema.value, table.value, fault);
        assert r == m;
        MetadataQueriesPreserves(c.world, schema.value, table.value, fault);
        assert TracksOnlyNew(w, m.world);
        if !Throws(fault, MetaDataGetPrimaryKeys) {
          PreservesTransitive(w, c.world, m.world);
        }
      } else {
        assert r.world == c.world;
      }
    } else {
      assert r.world == w;
    }
  }

  lemma SeedQueryPreserves(w: World, entry: SchemaTableEntry, quote: string -> string, fault: Fault, columnCount: int32)
    ensures Preserves(w, SeedQuery(w, entry, quote, fault, columnCount).world)
  {
    if !Throws(fault, EnquoteSchema) && !Throws(fault, EnquoteTable) {
      var w1 := Record(w, Sent(SelectAll(quote, entry.schema, entry.table)));
      RecordPreserves(w, Sent(SelectAll(quote, entry.schema, entry.table)));
      if !Throws(fault, StatementExecuteQuery) {
        var w2 := TrackResultSet(w1);
        TrackResultSetPreserves(w1);
        PreservesTransitive(w, w1, w2);
        if !Throws(fault, ResultSetGetMetaData) && !Throws(fault, MetaDataGetColumnCount) {
          var seed := NewSeed(w1.nextId, columnCount);
          CacheSeedPreserves(w2, entry, seed);
          PreservesTransitive(w, w2, CacheSeed(w2, entry, seed));
        }
      }
    }
  }

  lemma SingletonStatementPreserves(w: World, fault: Fault)
    ensures Preserves(w, SingletonStatement(w, fault).world)
  {
    var c := EnsureConnection(w, fault);
    EnsureConnectionPreserves(w, fault);
    if c.result.Success? {
      EnsureStatementPreserves(c.world, fault);
      PreservesTransitive(w, c.world, EnsureStatement(c.world, fault).world);
    }
  }

  lemma SingletonSeedPreserves(
    w: World, schema: Option<string>, table: Option<string>,
    quote: string -> string, fault: Fault, columnCount: int32)
    ensures Preserves(w, SingletonSeed(w, schema, table, quote, fault, columnCount).world)
  {
    var r := SingletonSeed(w, schema, table, quote, fault, columnCount);
    if schema.Some? && table.Some? && SchemaTableEntry(schema.value, table.value) !in w.ctx.seeds {
      var entry := SchemaTableEntry(schema.value, table.value);
      assert r == SeedMiss(w, entry, quote, fault, columnCount);
      var s := SingletonStatement(w, fault);
      SingletonStatementPreserves(w, fault);
      if s.result.Success? {
        var q := SeedQuery(s.world, entry, quote, fault, columnCount);
        assert r == q;
        SeedQueryPreserves(s.world, entry, quote, fault, columnCount);
        PreservesTransitive(w, s.world, q.world);
      } else {
        assert r.world == s.world;
      }
    } else {
      assert r.world == w;
    }
  }

  lemma PrepareStatementPreserves(w: World, sql: Option<string>, fault: Fault)
    ensures Preserves(w, PrepareStatement(w, sql, fault).world)
  {
    if sql.Some? {
      var c := EnsureConnection(w, fault);
      EnsureConnectionPreserves(w, fault);
      if c.result.Success? {
        var w1 := Record(c.world, Sent(sql.value));
        RecordPreserves(c.world, Sent(sql.value));
        PreservesTransitive(w, c.world, w1);
        if !Throws(fault, ConnectionPrepareStatement) {
          TrackPreparedStatementPreserves(w1);
          PreservesTransitive(w, w1, TrackPreparedStatement(w1));
        }
      }
    }
  }

  /** Closing opens nothing and untracks nothing. */
  lemma ClosePreserves(w: World, failing: set<Handle>)
    ensures Preserves(w, Close(w, failing).world)
  {
    var order := CloseOrder(w.ctx);
    var k := FirstFailure(order, failing);
    var events := Closes(order[..k]) + (if k < |order| then [CloseFailed(order[k])] else []);
    var r := Close(w, failing);
    assert r.world.trace == w.trace + events;
    NoOpeningsInClose(w.trace, events);
  }

  /** Events that open nothing leave the opened set and the lifecycle untouched. */
  lemma {:induction false} NoOpeningsInClose(t: seq<Event>, u: seq<Event>)
    requires forall i :: 0 <= i < |u| ==> !u[i].Opened?
    ensures OpenedSet(t + u) == OpenedSet(t)
    ensures Lifecycle(t + u) == Lifecycle(t)
    decreases |u|
  {
    if |u| == 0 {
      assert t + u == t;
    } else {
      var e := u[0];
      assert !e.Opened?;
      SnocViews(t, e);
      assert t + u == (t + [e]) + u[1..];
      NoOpeningsInClose(t + [e], u[1..]);
    }
  }
}
