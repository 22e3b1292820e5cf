# postgure DataContext, modelled in Dafny

postgure's `DataContext` wraps a JDBC `DataSource` and keeps track of the auto-closeable
objects it creates for the ORM, so that one `close` can release them. It keeps track of
every such object except the columns result set of any `columnsPKeysMetadata` call whose
`getPrimaryKeys` throws (see below). It holds:

- at most one connection, opened on first use;
- at most one ad-hoc statement, created on first use once the connection exists;
- a registry of result sets;
- a registry of prepared statements;
- a memo table from a `SchemaTableEntry(schema, table)` to a table-scan "seed" (a result
  set, its metadata and the column ordinals `1..n`).

`close` closes the registered result sets, then the registered prepared statements, then
the statement, then the connection.

The model is a functional state machine.

- A `World` holds three things: the immutable `Context` (the fields of the class), the
  driver's fresh-id supply, and an event trace of what the driver was asked to do.
  - The trace records each handle handed out, each SQL text sent, each catalog query
    (`getColumns` or `getPrimaryKeys`) with its schema and table, and each `close()` with
    its outcome.
- Every public method is a pure function from a `World` to a `Step`: the new world plus
  the value returned or the exception thrown.
- Every driver call can throw. Each operation takes a `Fault` that names the one call
  that throws during it, if any.
- A null argument is `None`.
- `Sessions.Run` applies any sequence of calls. The lemmas hold for every such sequence.

Files:

- `wrappers.dfy`: `Option` (a possibly null reference) and `Result` (a value or an
  exception).
- `jdbc.dfy`: the abstract JDBC vocabulary. It covers handles, events, errors, Java
  `int` arithmetic and Clojure `range`.
- `schema_table_entry.dfy`: the cache key record.
- `data_context.dfy`: the context, its primitive steps and its operations.
- `invariants.dfy`: the invariant every reachable world keeps, with one preservation
  lemma per operation.
- `closing.dfy`: the order in which `close` visits handles.
- `sessions.dfy`: properties of arbitrary call sequences, namely at most one
  connection, memoisation and leaks.

The Javadoc of `close` (DataContext.java:161) says it closes all the auto-closeable
objects the instance produced. The code keeps that promise only partly, and the model
follows the code:

- **`close` stops at the first failure.** The loops at lines 167-178 have no try/finally:
  the first `close()` that throws ends the method, and every handle after it stays open.
- **A failing `getPrimaryKeys` leaks a result set.** The columns result set of line 78 is
  registered only at line 81, after `getPrimaryKeys` (line 79) has returned. When that
  call throws, the columns result set is open and `close` never visits it.

Two more facts of the code:

- **`columnsPKeysMetadata` caches nothing.** Every call opens two new result sets.
- **`close` resets nothing.** The fields keep their handles, so a second `close` calls
  `close()` on each of them again.

## Model

| member | source | states |
|---|---|---|
| `DataContext.New` | src/com/github/alexisc183/postgure/DataContext.java:44-46 | A null data source is rejected, and only a null one. A new context holds no connection or statement, an empty registry of each kind and an empty seed map. |
| `Invariants.NewWorldIsValid` | src/com/github/alexisc183/postgure/DataContext.java:32-46 | A new context satisfies the invariant and tracks exactly what the driver has handed out, which is nothing. |
| `DataContext.EnsureConnection` | src/com/github/alexisc183/postgure/DataContext.java:48-52 | A held connection is returned without a driver call. Otherwise `getConnection` is called once and its connection kept. It throws exactly when it has to call `getConnection` and that call throws; then the exception is `getConnection`'s and nothing changes. |
| `DataContext.EnsureStatement` | src/com/github/alexisc183/postgure/DataContext.java:54-58 | A held statement is returned without a driver call. Otherwise `createStatement` is called once and its statement kept. It throws exactly when it has to call `createStatement` and that call throws; then the exception is `createStatement`'s and nothing changes. |
| `DataContext.ColumnsPKeysMetadata` | src/com/github/alexisc183/postgure/DataContext.java:70-85 | Null names are rejected and the world is unchanged. It throws exactly when a name is null, when it must call `getConnection` and that throws, or when one of `getMetaData`, `getCatalog`, `getColumns` and `getPrimaryKeys` throws; a driver exception is the throwing call's own. A success asks for the columns and then the primary keys of the given schema and table, and returns the two new result sets in that order, both appended to the registry. A failure registers nothing; a failing `getPrimaryKeys` still leaves a new result set handed out. Seeds, prepared statements and statement are untouched, and a held connection is reused. A throwing `getConnection` changes nothing. A connection acquired before a catalog call throws stays held, and its acquisition stays in the trace. |
| `DataContext.MetadataQueries` | src/com/github/alexisc183/postgure/DataContext.java:76-82 | With the connection held, it throws exactly when one of its four driver calls throws, and then the context is unchanged. A failing `getPrimaryKeys` has already handed out the columns result set, which stays unregistered. Any other failure hands out nothing. A success registers the columns result set and then the keys result set, both asked for by the given names. |
| `Invariants.MetadataQueriesPreserves` | src/com/github/alexisc183/postgure/DataContext.java:76-82 | The catalog queries keep the invariant. They keep every handed-out handle tracked, except when `getPrimaryKeys` throws. |
| `Invariants.ColumnsPKeysMetadataPreserves` | src/com/github/alexisc183/postgure/DataContext.java:70-85 | `columnsPKeysMetadata` keeps the invariant. It starts tracking only new handles. It keeps every handed-out handle tracked unless `getPrimaryKeys` throws. |
| `Sessions.PrimaryKeysFailureLeaksColumns` | src/com/github/alexisc183/postgure/DataContext.java:78-81 | When `getPrimaryKeys` throws, the columns result set has been handed out but is not registered: it is open and untracked, so the context's `close` will not visit it. |
| `Sessions.UntrackedStaysUntracked` | src/com/github/alexisc183/postgure/DataContext.java:81-82 | A handle handed out earlier and not tracked now is never tracked by any later sequence of calls, so no `close` visits it. |
| `Sessions.ColumnsAreNotMemoised` | src/com/github/alexisc183/postgure/DataContext.java:74-84 | Two successful calls with the same names return four distinct result sets, each pair in creation order, all four appended to the registry. |
| `DataContext.SeedQuery` | src/com/github/alexisc183/postgure/DataContext.java:110-119 | It throws exactly when quoting, `executeQuery`, `getMetaData` or `getColumnCount` throws, with that call's exception. A success sends exactly `select * from Q(schema).Q(table)`, registers the one new result set, and caches a seed built from it. A quoting failure changes nothing. A failing `executeQuery` has received the text and opened nothing. A failure reading the metadata or the column count leaves the new result set registered and caches nothing. |
| `DataContext.SeedMiss` | src/com/github/alexisc183/postgure/DataContext.java:107-121 | A cache miss first acquires any missing connection and statement, connection first, then runs the query. It throws exactly when acquiring a missing handle throws or a call of the query throws, with that call's exception. A failure caches nothing, and it registers the new result set exactly when reading its metadata or column count threw. Held handles are kept, and prepared statements and the source are untouched. A connection or statement acquired before a later call throws stays held, and every acquisition stays in the trace. |
| `DataContext.SeedMissComposes` | src/com/github/alexisc183/postgure/DataContext.java:107-111 | A successful `singletonStatement` followed by the seed query meets everything the miss path promises. This includes the failure conditions and the trace "acquisitions, then the query text, then the new result set". |
| `DataContext.SingletonSeed` | src/com/github/alexisc183/postgure/DataContext.java:97-122 | Null names are rejected and the world is unchanged. A hit by value equality returns the cached seed: no driver call is made, even one that would throw, and nothing changes. A successful miss adds one result set and one seed with ordinals `1..n`, and its trace is the acquisitions, then the query text, then the result set. It throws exactly when a name is null, or on a miss when acquiring a missing handle or a call of the query throws. A failure caches nothing, and it registers the new result set exactly when reading its metadata or column count threw. Earlier seeds are never lost or replaced. On a miss, a connection or statement acquired before a later call throws stays held, and every acquisition stays in the trace. |
| `DataContext.MissKeepsCache` | src/com/github/alexisc183/postgure/DataContext.java:116-119 | A miss adds no key but its own entry and keeps every earlier entry unchanged. The seed it adds carries the result set's metadata and, for a representable count, the ordinals `1..count`. |
| `DataContext.NewSeed` | src/com/github/alexisc183/postgure/DataContext.java:115-117 | The seed vector holds the result set, that result set's metadata, and the ordinals `1..count` whenever `count + 1` does not overflow. |
| `DataContext.OrdinalsCountFromOne` | src/com/github/alexisc183/postgure/DataContext.java:116 | `(range 1 (+ count 1))` yields exactly `1..count` for `0 <= count < Integer.MAX_VALUE`. At `Integer.MAX_VALUE` the Java `int` sum wraps and the range is empty; a negative count also gives an empty range. |
| `Invariants.SeedQueryPreserves` | src/com/github/alexisc183/postgure/DataContext.java:110-119 | The seed query keeps the invariant and tracks every handle it hands out, including on failure. |
| `Invariants.SingletonSeedPreserves` | src/com/github/alexisc183/postgure/DataContext.java:97-122 | `singletonSeed` keeps the invariant, tracks every handle it hands out, and starts tracking only new handles. |
| `Sessions.SeedIsMemoised` | src/com/github/alexisc183/postgure/DataContext.java:101-105 | After a successful `singletonSeed`, any sequence of calls followed by the same names returns the same seed. No driver call is made, whatever would throw, and nothing changes. |
| `DataContext.SingletonStatement` | src/com/github/alexisc183/postgure/DataContext.java:132-137 | When both handles are held, it returns the statement and changes nothing. Otherwise it acquires only what is missing, connection first. Whether or not it throws, the trace records exactly the acquisitions made, the id supply advances by their number, and they stay held: a connection acquired before `createStatement` throws is kept. It throws exactly when `getConnection` or `createStatement` is needed and throws, with that call's exception. |
| `Invariants.SingletonStatementPreserves` | src/com/github/alexisc183/postgure/DataContext.java:132-137 | `singletonStatement` keeps the invariant and tracks every handle it hands out. |
| `Sessions.StatementIsSingleton` | src/com/github/alexisc183/postgure/DataContext.java:132-137 | Once created, the statement is returned unchanged by every later `singletonStatement`, after any sequence of calls. |
| `DataContext.PrepareStatement` | src/com/github/alexisc183/postgure/DataContext.java:148-158 | A null text is rejected and the world is unchanged. It throws exactly when the text is null, when it must call `getConnection` and that throws, or when `prepareStatement` throws, with that call's exception. A success sends that text, opens one new prepared statement and appends it to the registry. A failure registers nothing. The statement, result sets and seeds are untouched, and a held connection is reused. A throwing `getConnection` changes nothing. A connection acquired before `prepareStatement` throws stays held, and its acquisition and the text stay in the trace. |
| `DataContext.PrepareOnConnection` | src/com/github/alexisc183/postgure/DataContext.java:153-155 | With the connection held, the text reaches the driver whether or not preparing it throws. It throws exactly when `prepareStatement` throws, and then nothing is handed out or registered. A success hands out one new prepared statement and registers it last. |
| `Invariants.PrepareStatementPreserves` | src/com/github/alexisc183/postgure/DataContext.java:148-158 | `prepareStatement` keeps the invariant and tracks every handle it hands out. |
| `Sessions.PreparedStatementsAreNotMemoised` | src/com/github/alexisc183/postgure/DataContext.java:153-155 | Two successful calls with the same text return two distinct prepared statements, both registered in order. |
| `DataContext.Close` | src/com/github/alexisc183/postgure/DataContext.java:166-179 | The fields and the id supply are unchanged. The trace gains one `Closed` per handle in close order up to the first failing one, then that failure. It returns exactly when no handle's `close()` throws; otherwise it throws for that handle. |
| `DataContext.FirstFailure` | src/com/github/alexisc183/postgure/DataContext.java:167-178 | The result is the position of the first handle whose `close()` throws, or the length of the order when none does. |
| `DataContext.CloseAll` | src/com/github/alexisc183/postgure/DataContext.java:167-178 | The loop closes the handles before the first failure, then records the failure and stops. |
| `Invariants.ClosePreserves` | src/com/github/alexisc183/postgure/DataContext.java:166-179 | `close` opens nothing and untracks nothing, so it keeps the invariant and the no-leak property. |
| `Closing.CloseOrderIsTracked` | src/com/github/alexisc183/postgure/DataContext.java:166-179 | `close` visits exactly the tracked handles. |
| `Closing.CloseOrderIsSorted` | src/com/github/alexisc183/postgure/DataContext.java:167-178 | The visit order is result sets, then prepared statements, each in creation order, then the statement, then the connection. It is strictly sorted, so no handle is visited twice. |
| `Closing.CloseVisitsInOrder` | src/com/github/alexisc183/postgure/DataContext.java:166-179 | When `close` returns, every tracked handle was closed. When handle `h` throws, exactly the tracked handles ordered before `h` were closed, and the failure is the last event. No untracked or failing handle is ever closed. |
| `Closing.ClosedIffInPrefix` | src/com/github/alexisc183/postgure/DataContext.java:167-178 | A loop stopped at position `k` has closed a handle exactly when the handle comes before `k`. |
| `Closing.PrefixIsBefore` | src/com/github/alexisc183/postgure/DataContext.java:167-178 | In the sorted close order, the handles before the failing one are exactly those ordered before it. |
| `Closing.CloseResetsNothing` | src/com/github/alexisc183/postgure/DataContext.java:166-179 | `close` clears no field. Closing twice without failures closes every tracked handle a second time, in the same order. |
| `Sessions.Apply` | src/com/github/alexisc183/postgure/DataContext.java:70-179 | A call never loses a held connection or statement and never loses or replaces a cached seed. The trace and id supply only grow. |
| `Sessions.Run` | src/com/github/alexisc183/postgure/DataContext.java:33-37 | Over any sequence of calls, a connection or statement once held stays the same, every key keeps locating its seed, and the trace only grows. |
| `Sessions.ApplyPreserves` | src/com/github/alexisc183/postgure/DataContext.java:70-179 | Every public method keeps the invariant and starts tracking only new handles. Unless `getPrimaryKeys` throws, it keeps every handed-out handle tracked. |
| `Sessions.RunPreserves` | src/com/github/alexisc183/postgure/DataContext.java:33-37 | Any sequence of calls keeps the invariant, and the context starts tracking only handles handed out during the sequence. |
| `Sessions.RunHasNoLeaks` | src/com/github/alexisc183/postgure/DataContext.java:74-155 | If no `getPrimaryKeys` throws, every handle the driver hands out during the sequence is one `close` will visit. |
| `Sessions.SessionOpensOneConnection` | src/com/github/alexisc183/postgure/DataContext.java:48-58 | From a new context, under any calls and failures, the driver hands out at most one connection and at most one statement, the connection first. These are exactly the connection and statement the context holds. |
| `Sessions.SessionTracksExactlyWhatItOpened` | src/com/github/alexisc183/postgure/DataContext.java:35-37 | From a new context, every tracked handle was handed out by the driver. Unless some `getPrimaryKeys` throws, every handed-out handle is tracked. |
| `Sessions.TrackedBelowNextId` | src/com/github/alexisc183/postgure/DataContext.java:33-37 | Every tracked handle was handed out before the current point of the fresh-id supply. |
| `SchemaTableEntries.KeyIsPairNotQualifiedName` | src/com/github/alexisc183/postgure/SchemaTableEntry.java:13 | `("a.b", "c")` and `("a", "b.c")` are different keys, although both read `a.b.c` as a qualified name. |
| `SchemaTableEntries.EqualIffComponentsEqual` | src/com/github/alexisc183/postgure/SchemaTableEntry.java:4-13 | Two entries are equal exactly when their schemas and their tables are equal. |
| `SchemaTableEntries.AccessorsReturnComponents` | src/com/github/alexisc183/postgure/SchemaTableEntry.java:13 | `schema()` and `table()` return the constructor's arguments. |
| `Jdbc.AddInt32` | src/com/github/alexisc183/postgure/DataContext.java:116 | Java `int` addition: the exact sum when it fits, otherwise the sum wrapped by 2^32. |
| `Jdbc.Range` | src/com/github/alexisc183/postgure/DataContext.java:116 | Clojure `(range start end)` holds `end - start` elements, the `i`-th being `start + i`, and is empty when `end <= start`. |

## Left out

- What the driver returns, beyond fresh handles, is not modelled. That covers connections, catalogs, metadata result-set contents and query results. The column count is an input.
- `enquoteIdentifier`'s escaping rules are driver-defined. Quoting is a parameter `quote`, the same function for schema and table.
- Exceptions are reduced to three outcomes: a null argument, a named driver call that threw, and a handle whose `close()` threw. A failure in a call the method does not make cannot happen.
- Each operation allows at most one failing driver call. An exception ends the Java method at once, so a second fault could never be observed.
- Clojure's `vector` is a Dafny tuple or datatype, and `range` is a `seq<int>`.
- Thread safety is out of scope: the class has no locking and is used from one thread.
- A driver call that throws hands out nothing: a `getConnection`, `createStatement`, `executeQuery`, `getColumns`, `getPrimaryKeys` or `prepareStatement` that throws leaves no `Opened` event. A driver that opens a handle and then throws is not modelled. The trace also records no attempt for a throwing `getConnection` or `createStatement`, so `Sessions.SessionOpensOneConnection` bounds the handles handed out, not the requests made: after a throwing `getConnection` the field stays null and the next call asks the data source again, which the model does but states no lemma about.
- `DataContext.MetadataQueries`: the catalog string passed to `getColumns` and `getPrimaryKeys` and the column pattern `"%"` are not recorded. The catalog is a driver return value; the event keeps the call, the schema and the table.
- `getConnection` or `createStatement` returning null is not modelled. A JDBC driver does not do that, and the next call would throw a `NullPointerException` that the model does not follow.
- The Clojure statement synthesizer, parameter binder and row materializer are not part of this model.
