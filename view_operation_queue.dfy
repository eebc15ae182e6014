/**
 * The per-view operation queue: a bounded FIFO of work for the engine
 * thread, a counter that mirrors its length, and an in-flight flag that lets
 * at most one operation per view be out at a time.
 *
 * `ProcessNextOperation` hands the front operation to the engine thread;
 * here that hand-off is its result, and `ExecuteDispatched` is the engine
 * thread later running it. The flag is claimed by compare-and-swap in the
 * plugin; calls here are sequential, so the swap is a test and a set.
 */
module ViewOperationQueue {
  import opened Types
  import opened CoreState

  /** The record of a view after only its queue fields changed. */
  predicate QueueFieldsOnly(before: PrismaView, after: PrismaView) {
    after == before.(pendingOperations := after.pendingOperations,
                     queuedOperationsCount := after.queuedOperationsCount,
                     isProcessingOperation := after.isProcessingOperation)
  }

  /**
   * `EnqueueOperation`: a null operation, an unknown view and a full queue
   * are refused and change nothing; otherwise the operation goes to the
   * back of the view's queue and the counter goes up by one.
   */
  method EnqueueOperation(r: Registry, viewId: ViewId, operation: Option<Operation>) returns (ok: bool)
    requires r.Valid()
    modifies r`views
    ensures r.Valid()
    ensures ok <==> operation.Some? && viewId in old(r.views) &&
                    |old(r.views)[viewId].pendingOperations| < MAX_OPERATIONS_PER_VIEW
    ensures !ok ==> r.views == old(r.views)
    ensures ok ==> var v := old(r.views)[viewId];
      r.views == old(r.views)[viewId := v.(pendingOperations := v.pendingOperations + [operation.value],
                                          queuedOperationsCount := v.queuedOperationsCount + 1)]
  {
    if operation.None? {
      return false;
    }
    if viewId !in r.views {
      return false;
    }
    var v := r.views[viewId];
    if |v.pendingOperations| >= MAX_OPERATIONS_PER_VIEW {
      return false;
    }
    r.views := r.views[viewId := v.(pendingOperations := v.pendingOperations + [operation.value],
                                    queuedOperationsCount := v.queuedOperationsCount + 1)];
    return true;
  }

  /**
   * What `ProcessNextOperation` does to one view record, and the operation
   * it dispatches: nothing while an operation is in flight; with an empty
   * queue the flag it claimed is given back; otherwise the front operation
   * leaves the queue and the flag stays set until it has run.
   */
  function NextOperation(v: PrismaView): (r: (PrismaView, Option<Operation>))
    ensures QueueFieldsOnly(v, r.0)
    ensures r.1.Some? <==> !v.isProcessingOperation && v.pendingOperations != []
    ensures r.1.None? ==> r.0 == v
    ensures r.1.Some? ==>
      r.1.value == v.pendingOperations[0] &&
      v.pendingOperations == [r.1.value] + r.0.pendingOperations &&
      r.0.isProcessingOperation &&
      (v.queuedOperationsCount > 0 ==> r.0.queuedOperationsCount + 1 == v.queuedOperationsCount)
    ensures ViewOk(v.id, v) ==> ViewOk(v.id, r.0)
  {
    if v.isProcessingOperation then (v, None)
    else if v.pendingOperations == [] then (v, None)
    else
      (v.(pendingOperations := v.pendingOperations[1..],
          queuedOperationsCount := if v.queuedOperationsCount > 0 then v.queuedOperationsCount - 1 else 0,
          isProcessingOperation := true),
       Some(v.pendingOperations[0]))
  }

  /**
   * `ProcessNextOperation`: an unknown view is ignored; a known one goes
   * through `NextOperation`, in place.
   */
  method ProcessNextOperation(r: Registry, viewId: ViewId) returns (dispatched: Option<Operation>)
    requires r.Valid()
    modifies r`views
    ensures r.Valid()
    ensures viewId !in old(r.views) ==> r.views == old(r.views) && dispatched.None?
    ensures viewId in old(r.views) ==>
      r.views == old(r.views)[viewId := NextOperation(old(r.views)[viewId]).0] &&
      dispatched == NextOperation(old(r.views)[viewId]).1
  {
    if viewId !in r.views {
      return None;
    }
    var v := r.views[viewId];
    if v.isProcessingOperation {
      return None;
    }
    // claim the in-flight flag
    v := v.(isProcessingOperation := true);
    if v.pendingOperations == [] {
      return None;
    }
    var operation := v.pendingOperations[0];
    v := v.(pendingOperations := v.pendingOperations[1..], queuedOperationsCount := v.queuedOperationsCount - 1);
    r.views := r.views[viewId := v];
    return Some(operation);
  }

  /**
   * The engine thread running a dispatched operation: when the view has
   * been removed meanwhile nothing runs and nothing changes; otherwise the
   * operation runs (an exception it throws is swallowed) and the view's
   * in-flight flag is cleared either way.
   */
  method ExecuteDispatched(r: Registry, viewId: ViewId, operation: Operation) returns (ran: bool)
    requires r.Valid()
    modifies r`views
    ensures r.Valid()
    ensures ran <==> viewId in old(r.views)
    ensures !ran ==> r.views == old(r.views)
    ensures ran ==> r.views == old(r.views)[viewId := old(r.views)[viewId].(isProcessingOperation := false)]
  {
    if viewId !in r.views {
      return false;
    }
    // the operation runs here; `operation.throws` only decides which log line follows
    r.views := r.views[viewId := r.views[viewId].(isProcessingOperation := false)];
    return true;
  }

  /** Every registered view after one `ProcessNextOperation` each. */
  function AllNext(views: map<ViewId, PrismaView>): (r: map<ViewId, PrismaView>)
    ensures r.Keys == views.Keys
    ensures forall id :: id in views ==> r[id] == NextOperation(views[id]).0
  {
    map id | id in views :: NextOperation(views[id]).0
  }

  /** The operations one pass over the registry dispatches, by view. */
  function AllDispatched(views: map<ViewId, PrismaView>): (r: map<ViewId, Operation>)
    ensures forall id :: id in r <==> id in views && NextOperation(views[id]).1.Some?
    ensures forall id :: id in r ==> id in views && views[id].pendingOperations != [] && r[id] == views[id].pendingOperations[0]
  {
    map id | id in views && NextOperation(views[id]).1.Some? :: NextOperation(views[id]).1.value
  }

  /** The registry part-way through a pass: the ids in `remaining` not yet processed. */
  ghost function PartlyNext(views: map<ViewId, PrismaView>, remaining: set<ViewId>): map<ViewId, PrismaView> {
    map id | id in views :: if id in remaining then views[id] else NextOperation(views[id]).0
  }

  /** The operations dispatched part-way through a pass. */
  ghost function PartlyDispatched(views: map<ViewId, PrismaView>, remaining: set<ViewId>): map<ViewId, Operation> {
    map id | id in views && id !in remaining && NextOperation(views[id]).1.Some? :: NextOperation(views[id]).1.value
  }

  /** Processing one more id of a pass. */
  lemma PassStep(views: map<ViewId, PrismaView>, remaining: set<ViewId>, id: ViewId)
    requires id in remaining && id in views
    ensures PartlyNext(views, remaining - {id}) == PartlyNext(views, remaining)[id := NextOperation(views[id]).0]
    ensures NextOperation(views[id]).1.None? ==>
      PartlyDispatched(views, remaining - {id}) == PartlyDispatched(views, remaining)
    ensures NextOperation(views[id]).1.Some? ==>
      PartlyDispatched(views, remaining - {id}) == PartlyDispatched(views, remaining)[id := NextOperation(views[id]).1.value]
  {
    var before := PartlyDispatched(views, remaining);
    var after := PartlyDispatched(views, remaining - {id});
    if NextOperation(views[id]).1.None? {
      assert after.Keys == before.Keys;
    } else {
      assert after.Keys == before.Keys + {id};
    }
  }

  /**
   * `ProcessAllViewOperations`: `ProcessNextOperation` once for every id in
   * a snapshot of the registry's keys.
   */
  method ProcessAllViewOperations(r: Registry) returns (dispatched: map<ViewId, Operation>)
    requires r.Valid()
    modifies r`views
    ensures r.Valid()
    ensures r.views == AllNext(old(r.views))
    ensures dispatched == AllDispatched(old(r.views))
  {
    ghost var start := r.views;
    var remaining := r.views.Keys;
    dispatched := map[];
    assert r.views == PartlyNext(start, remaining);
    while remaining != {}
      invariant r.Valid()
      invariant remaining <= start.Keys
      invariant r.views == PartlyNext(start, remaining)
      invariant dispatched == PartlyDispatched(start, remaining)
      decreases remaining
    {
      var id :| id in remaining;
      var d := ProcessNextOperation(r, id);
      if d.Some? {
        dispatched := dispatched[id := d.value];
      }
      PassStep(start, remaining, id);
      remaining := remaining - {id};
    }
    assert r.views == AllNext(start);
    assert dispatched == AllDispatched(start);
  }

  /** `ClearOperations`: a registered view's queue is emptied and its counter set to 0; nothing else changes. */
  method ClearOperations(r: Registry, viewId: ViewId)
    requires r.Valid()
    modifies r`views
    ensures r.Valid()
    ensures viewId !in old(r.views) ==> r.views == old(r.views)
    ensures viewId in old(r.views) ==>
      r.views == old(r.views)[viewId := old(r.views)[viewId].(pendingOperations := [], queuedOperationsCount := 0)]
  {
    if viewId !in r.views {
      return;
    }
    var v := r.views[viewId];
    var queue := v.pendingOperations;
    while queue != []
      decreases |queue|
    {
      queue := queue[1..];
    }
    r.views := r.views[viewId := v.(pendingOperations := queue, queuedOperationsCount := 0)];
  }

  /** `GetQueueSize`: the queue length of a registered view, 0 for an unknown id. */
  method GetQueueSize(r: Registry, viewId: ViewId) returns (size: nat)
    requires r.Valid()
    ensures viewId !in r.views ==> size == 0
    ensures viewId in r.views ==> size == |r.views[viewId].pendingOperations| == r.views[viewId].queuedOperationsCount
    ensures size <= MAX_OPERATIONS_PER_VIEW
  {
    if viewId !in r.views {
      return 0;
    }
    return |r.views[viewId].pendingOperations|;
  }

  /** `IsProcessing`: the in-flight flag of a registered view, false for an unknown id. */
  method IsProcessing(r: Registry, viewId: ViewId) returns (busy: bool)
    ensures busy <==> viewId in r.views && r.views[viewId].isProcessingOperation
  {
    if viewId !in r.views {
      return false;
    }
    return r.views[viewId].isProcessingOperation;
  }

  // ----- properties across calls -----

  /** While one operation of a view is in flight, a further `ProcessNextOperation` dispatches nothing. */
  lemma AtMostOneInFlight(v: PrismaView)
    requires NextOperation(v).1.Some?
    ensures NextOperation(NextOperation(v).0).1.None?
    ensures NextOperation(NextOperation(v).0).0 == NextOperation(v).0
  {
  }

  /** One dispatch-and-run cycle on a record that stays registered: the operation dispatched, and the record after it ran. */
  function Cycle(v: PrismaView): (r: (PrismaView, Option<Operation>))
    ensures r.1 == NextOperation(v).1
    ensures r.1.Some? ==> r.0 == NextOperation(v).0.(isProcessingOperation := false)
    ensures r.1.None? ==> r.0 == v
  {
    var (w, d) := NextOperation(v);
    if d.Some? then (w.(isProcessingOperation := false), d) else (w, d)
  }

  /** The operations `k` cycles dispatch, in order. */
  function Dispatches(v: PrismaView, k: nat): seq<Operation>
    decreases k
  {
    if k == 0 then []
    else
      var (w, d) := Cycle(v);
      (if d.Some? then [d.value] else []) + Dispatches(w, k - 1)
  }

  /**
   * FIFO: on an idle view whose every operation runs to completion before
   * the next pass, the first `k` passes dispatch exactly the first `k`
   * queued operations, in the order they were enqueued.
   */
  lemma {:induction false} DispatchesInOrder(v: PrismaView, k: nat)
    requires !v.isProcessingOperation && k <= |v.pendingOperations|
    ensures Dispatches(v, k) == v.pendingOperations[..k]
    decreases k
  {
    if k > 0 {
      var (w, d) := Cycle(v);
      assert d == Some(v.pendingOperations[0]);
      assert w.pendingOperations == v.pendingOperations[1..];
      DispatchesInOrder(w, k - 1);
      assert v.pendingOperations[..k] == [v.pendingOperations[0]] + v.pendingOperations[1..][..k - 1];
    }
  }

  /** An operation enqueued on an idle, empty queue is the next one dispatched. */
  lemma EnqueuedFirstIsDispatchedNext(v: PrismaView, op: Operation)
    requires !v.isProcessingOperation && v.pendingOperations == []
    ensures NextOperation(v.(pendingOperations := [op], queuedOperationsCount := 1)).1 == Some(op)
    ensures NextOperation(v.(pendingOperations := [op], queuedOperationsCount := 1)).0.pendingOperations == []
  {
  }
}
