/** The slice of JDBC a data context talks to, modelled abstractly.

    Handles are opaque ids drawn from one fresh-id supply; every driver call the context
    makes may throw; and what the driver was asked to do is recorded as a trace of events.
    Nothing about the contents of result sets is modelled. */
module Jdbc {
  import opened Wrappers

  /** The four kinds of auto-closeable objects a data context can own. */
  datatype Kind = Connection | Statement | ResultSet | PreparedStatement

  /** An object handed out by the driver. Ids come from one fresh-id supply, so two
      handles created at different moments never share an id. */
  datatype Handle = Handle(kind: Kind, id: nat)

  /** The driver calls a data context makes that can throw an SQLException. */
  datatype Call =
    | DataSourceGetConnection
    | ConnectionCreateStatement
    | ConnectionGetMetaData
    | ConnectionGetCatalog
    | MetaDataGetColumns
    | MetaDataGetPrimaryKeys
    | EnquoteSchema
    | EnquoteTable
    | StatementExecuteQuery
    | ResultSetGetMetaData
    | MetaDataGetColumnCount
    | ConnectionPrepareStatement

  /** The driver call that throws during one operation, if any. A call the operation
      does not make cannot throw, so naming it leaves the operation unaffected. */
  type Fault = Option<Call>

  predicate Throws(fault: Fault, call: Call) {
    fault == Some(call)
  }

  /** The call that throws is one of `calls`. */
  predicate ThrowsOneOf(fault: Fault, calls: set<Call>) {
    fault.Some? && fault.value in calls
  }

  /** What the driver observed: a handle handed out, SQL text handed to
      `executeQuery` or `prepareStatement`, a catalog query (`getColumns` or
      `getPrimaryKeys`) about one schema and table, and the outcome of each `close()`.
      A call is recorded when the driver receives it, whether or not it then throws. */
  datatype Event =
    | Opened(h: Handle)
    | Sent(sql: string)
    | CatalogQuery(call: Call, schema: string, table: string)
    | Closed(h: Handle)
    | CloseFailed(h: Handle)

  /** The exceptions a data context lets escape. */
  datatype Error =
    | NullPointer             // Objects.requireNonNull rejected an argument
    | SqlFailure(call: Call)  // a driver call threw while an operation ran
    | CloseFailure(h: Handle) // h.close() threw while the context was closing

  /** What an operation of a data context returns, or the exception it throws. */
  type Outcome<+T> = Result<T, Error>

  const INT32_MIN: int := -0x8000_0000
  const INT32_MAX: int := 0x7fff_ffff

  /** Java's `int`. */
  newtype int32 = x: int | -0x8000_0000 <= x < 0x8000_0000

  /** Java's `a + b` on two `int`s: two's-complement addition that wraps around. */
  function AddInt32(a: int32, b: int32): (r: int32)
    ensures INT32_MIN <= a as int + b as int <= INT32_MAX ==> r as int == a as int + b as int
    ensures a as int + b as int > INT32_MAX ==> r as int == a as int + b as int - 0x1_0000_0000
    ensures a as int + b as int < INT32_MIN ==> r as int == a as int + b as int + 0x1_0000_0000
  {
    ((a as int + b as int + 0x8000_0000) % 0x1_0000_0000 - 0x8000_0000) as int32
  }

  /** Clojure's `(range start end)`: the integers from `start` up to, not including, `end`. */
  function Range(start: int, end: int): (r: seq<int>)
    decreases end - start
    ensures |r| == if end <= start then 0 else end - start
    ensures forall i :: 0 <= i < |r| ==> r[i] == start + i
  {
    if end <= start then [] else [start] + Range(start + 1, end)
  }
}
