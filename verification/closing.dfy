/** What `close` does to the handles a context tracks: it visits each exactly once, in
    a fixed order, and stops at the first one whose `close()` throws. */
module Closing {
  import opened Wrappers
  import opened Jdbc
  import opened DataContext
  import opened Invariants

  /** The position of a kind in the close order. */
  function Rank(kind: Kind): nat {
    match kind
    case ResultSet => 0
    case PreparedStatement => 1
    case Statement => 2
    case Connection => 3
  }

  /** `close` visits `a` before `b`: result sets, then prepared statements, each in
      creation order, then the statement, then the connection. */
  predicate Before(a: Handle, b: Handle) {
    Rank(a.kind) < Rank(b.kind) || (a.kind == b.kind && a.id < b.id)
  }

  /** Close visits exactly the tracked handles. */
  lemma CloseOrderIsTracked(ctx: Context)
    ensures forall h :: h in CloseOrder(ctx) <==> h in Tracked(ctx)
  {
    forall h ensures h in CloseOrder(ctx) <==> h in Tracked(ctx) {
      InHandles(ResultSet, ctx.resultSets, h);
      InHandles(PreparedStatement, ctx.preparedStatements, h);
    }
  }

  /** A handle is listed by `Handles(kind, ids)` exactly when it has that kind and a
      listed id. */
  lemma InHandles(kind: Kind, ids: seq<nat>, h: Handle)
    ensures h in Handles(kind, ids) <==> h.kind == kind && h.id in ids
  {
    if h.kind == kind && h.id in ids {
      var i :| 0 <= i < |ids| && ids[i] == h.id;
      assert Handles(kind, ids)[i] == h;
    }
  }

  /** `Closes(hs)` records a `Closed` event for a handle exactly when it is in `hs`. */
  lemma InCloses(hs: seq<Handle>, t: Handle)
    ensures Closed(t) in Closes(hs) <==> t in hs
  {
    if t in hs {
      var i :| 0 <= i < |hs| && hs[i] == t;
      assert Closes(hs)[i] == Closed(t);
    }
  }

  /** With the registries in creation order, the close order is strictly sorted by
      `Before`; in particular no handle is visited twice. */
  lemma CloseOrderIsSorted(ctx: Context)
    requires Increasing(ctx.resultSets) && Increasing(ctx.preparedStatements)
    ensures forall i, j :: 0 <= i < j < |CloseOrder(ctx)| ==> Before(CloseOrder(ctx)[i], CloseOrder(ctx)[j])
  {
  }

  /** `close` on a valid world: when it returns, every tracked handle was closed; when
      the handle `h` throws, exactly the tracked handles `Before` it were closed, the
      failure is the last event, and nothing after `h` is closed. Nothing untracked is
      ever closed, and no handle is closed whose `close()` would throw. */
  lemma CloseVisitsInOrder(w: World, failing: set<Handle>)
    requires Valid(w)
    ensures var r := Close(w, failing);
            var added := r.world.trace[|w.trace|..];
            && (forall t :: Closed(t) in added ==> t in Tracked(w.ctx) && t !in failing)
            && (r.result.Success? ==> forall t :: t in Tracked(w.ctx) ==> Closed(t) in added)
            && (r.result.Failure? ==>
                  && r.result.error.CloseFailure?
                  && r.result.error.h in Tracked(w.ctx) && r.result.error.h in failing
                  && |added| > 0 && added[|added| - 1] == CloseFailed(r.result.error.h)
                  && forall t :: t in Tracked(w.ctx) ==> (Closed(t) in added <==> Before(t, r.result.error.h)))
  {
    var r := Close(w, failing);
    var order := CloseOrder(w.ctx);
    var k := FirstFailure(order, failing);
    var added := r.world.trace[|w.trace|..];
    assert added == Closes(order[..k]) + (if k < |order| then [CloseFailed(order[k])] else []);
    CloseOrderIsTracked(w.ctx);
    CloseOrderIsSorted(w.ctx);
    forall t ensures Closed(t) in added <==> t in order[..k] {
      ClosedIffInPrefix(order, k, t);
    }
    if k < |order| {
      forall t | t in order ensures t in order[..k] <==> Before(t, order[k]) {
        PrefixIsBefore(order, k, t);
      }
    } else {
      assert order[..k] == order;
    }
  }

  /** Closing a prefix closes exactly the handles in it. */
  lemma ClosedIffInPrefix(order: seq<Handle>, k: nat, t: Handle)
    requires k <= |order|
    ensures var tail := if k < |order| then [CloseFailed(order[k])] else [];
            Closed(t) in Closes(order[..k]) + tail <==> t in order[..k]
  {
    InCloses(order[..k], t);
  }

  /** In a strictly sorted order, the handles before position `k` are exactly those
      `Before` the handle at `k`. */
  lemma PrefixIsBefore(order: seq<Handle>, k: nat, t: Handle)
    requires k < |order| && t in order
    requires forall i, j :: 0 <= i < j < |order| ==> Before(order[i], order[j])
    ensures t in order[..k] <==> Before(t, order[k])
  {
  }

  /** `close` resets nothing: closing a context a second time closes every handle again. */
  lemma CloseResetsNothing(w: World)
    ensures var once := Close(w, {});
            var twice := Close(once.world, {});
            && once.world.ctx == w.ctx
            && twice.result.Success?
            && twice.world.trace[|once.world.trace|..] == once.world.trace[|w.trace|..]
            && twice.world.trace[|once.world.trace|..] == Closes(CloseOrder(w.ctx))
  {
  }
}
