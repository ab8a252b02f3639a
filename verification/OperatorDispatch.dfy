/** Operators with their descriptors: the recorder takes them from its pool for the fence value
    of its next submission. */
module OperatorDispatch {
  import opened Device
  import opened ExecutionContext
  import opened DescriptorPools

  /** The descriptors of a dispatch: a range of a heap, and the event it waits for, which covers the dispatch. */
  datatype Binding = Binding(promise: Promise, heap: DmlDescriptorHeap, index: nat)

  class DmlOperatorContext {
    const context: DmlExecutionContext
    const pool: DescriptorPool
    ghost var bindings: seq<Binding>  // one for every dispatch, in program order

    ghost predicate Linked(b: Binding)
      reads context, pool, pool.heaps
    {
      && b.promise in context.promises && b.heap in pool.heaps && b.index < |b.heap.ranges|
      && b.heap.ranges[b.index].fence == b.promise.fence <= pool.lastEvent
    }

    predicate InOrder(a: Binding, b: Binding) {
      a.promise.fence <= b.promise.fence && (a.heap == b.heap ==> a.index < b.index)
    }

    ghost predicate Bound()
      reads this, context, pool, pool.heaps
    {
      && (forall i :: 0 <= i < |bindings| ==> Linked(bindings[i]))
      && forall i, j :: 0 <= i < j < |bindings| ==> InOrder(bindings[i], bindings[j])
    }

    ghost predicate Valid()
      reads this, context, context.queue, context.queue.gpu, context.dmlRecorder, context.dmlRecorder.ring, pool,
        pool.heaps
    {
      && context.Valid() && pool.gpu == context.queue.gpu && pool.Valid()
      && pool.lastEvent <= context.queue.lastFenceValue + 1 && Bound()
    }

    constructor (initialCapacity: nat, shaderVisible: int)
      ensures Valid() && bindings == [] && context.recorded == []
    {
      var c := new DmlExecutionContext();
      c.Facts();
      var p := new DescriptorPool(c.queue.gpu, initialCapacity, shaderVisible);
      context, pool, bindings := c, p, [];
      new;
      assert Bound();
    }

    /** Whatever else the context does leaves the bindings as they are. */
    twostate lemma Undisturbed()
      requires old(Valid()) && unchanged(this, pool) && (forall h :: h in pool.heaps ==> unchanged(h))
      requires context.Valid() && old(context.promises) <= context.promises
      requires context.queue.lastFenceValue >= old(context.queue.lastFenceValue)
        && context.queue.gpu.completed >= old(context.queue.gpu.completed)
      ensures Valid()
    {
      context.Facts();
      pool.Undisturbed();
      forall i | 0 <= i < |bindings| ensures Linked(bindings[i]) {
        assert old(Linked(bindings[i]));
      }
    }

    /** The descriptors of a dispatch are handed out again only after the dispatch has been executed: a later dispatch
        whose range overlaps in the same heap finds everything up to the earlier one executed. */
    lemma ReusedAfterExecution(i: nat, j: nat)
      requires Valid() && i < j < |bindings| && bindings[i].heap == bindings[j].heap
      ensures bindings[i].index < |bindings[i].heap.ranges| && bindings[j].index < |bindings[i].heap.ranges|
      ensures Disjoint(bindings[i].heap.ranges[bindings[i].index], bindings[i].heap.ranges[bindings[j].index])
        || (bindings[i].promise.count <= |context.recorded|
          && context.recorded[..bindings[i].promise.count] <= context.queue.Executed())
    {
      var a, b := bindings[i], bindings[j];
      assert Linked(a) && Linked(b) && InOrder(a, b);
      if a.promise.fence <= context.queue.gpu.completed {
        var k :| 0 <= k < |context.promises| && context.promises[k] == a.promise;
        context.EventSound(k);
      } else {
        HeapReady(a.heap);
        a.heap.LiveApart(context.queue.gpu.completed, a.index, b.index);
      }
    }

    lemma HeapReady(heap: DmlDescriptorHeap)
      requires pool.Valid() && heap in pool.heaps
      ensures heap.Valid(pool.gpu.completed)
    {
      var i :| 0 <= i < |pool.heaps| && pool.heaps[i] == heap;
      assert Ready(pool.heaps[i], pool.gpu.completed, pool.lastEvent);
    }

    /** Taking descriptors leaves all earlier ranges where they are. */
    twostate lemma StillLinked(new heap: DmlDescriptorHeap)
      requires old(Bound()) && unchanged(this, context) && pool.lastEvent >= old(pool.lastEvent)
      requires old(pool.heaps) <= pool.heaps && forall h :: h in old(pool.heaps) ==> old(h.ranges) <= h.ranges
      ensures Bound()
      ensures forall i :: 0 <= i < |bindings| ==> bindings[i].promise.fence <= old(pool.lastEvent)
      ensures forall i :: 0 <= i < |bindings| && bindings[i].heap == heap ==>
        heap in old(pool.heaps) && bindings[i].index < |old(heap.ranges)|
    {
      forall i | 0 <= i < |bindings| ensures Linked(bindings[i]) {
        assert old(Linked(bindings[i]));
      }
    }

    /** Everything but the newest range of `heap` is bound. */
    ghost predicate Taken(heap: DmlDescriptorHeap, range: Range)
      reads this, context, context.queue, context.queue.gpu, context.dmlRecorder, context.dmlRecorder.ring, pool,
        pool.heaps
    {
      && Valid() && heap in pool.heaps && heap.ranges != [] && heap.ranges[|heap.ranges| - 1] == range
      && range.fence == pool.lastEvent == context.queue.lastFenceValue + 1
      && forall i :: 0 <= i < |bindings| && bindings[i].heap == heap ==> bindings[i].index < |heap.ranges| - 1
    }

    /** Descriptors from the pool, for the next submission; that the event is not earlier than the pool's last one is
        what the pool asks for. */
    method TakeDescriptors(count: nat, flags: int) returns (heap: DmlDescriptorHeap, start: nat, place: nat)
      requires Valid()
      modifies context.queue.gpu`completed, pool`heaps, pool`lastEvent, pool.heaps
      ensures Taken(heap, Range(start, count, context.queue.lastFenceValue + 1)) && heap.flags == flags
        && start + count <= heap.capacity
      ensures context.queue.gpu.completed >= old(context.queue.gpu.completed) && place < |pool.heaps|
        && pool.heaps[place] == heap
    {
      hide context.Valid, Linked, InOrder, Stacked, AllSignaled;
      context.Facts();
      heap, start := pool.AllocDescriptors(count, context.queue.GetNextCompletionEvent(), flags);
      context.Undisturbed();
      StillLinked(heap);
      place :| place < |pool.heaps| && pool.heaps[place] == heap;
    }

    /** Records the dispatch and binds its range. */
    method RecordDispatch(dispatch: int, heap: DmlDescriptorHeap, place: nat, ghost range: Range, barrier: Option<int>)
      requires Taken(heap, range)
      modifies this`bindings, context, context.dmlRecorder, context.dmlRecorder.ring, context.queue, context.queue.gpu
      ensures Valid() && context.queue.gpu.completed >= old(context.queue.gpu.completed)
        && context.dmlRecorder.boundHeap == Some(place)
      ensures context.recorded == old(context.recorded) + [dispatch] + (if barrier.Some? then [barrier.value] else [])
      ensures Newest(heap, range) && |bindings| == |old(bindings)| + 1 && bindings[..|old(bindings)|] == old(bindings)
      ensures context.queue.lastFenceValue == old(context.queue.lastFenceValue)
        && context.queue.submitted == old(context.queue.submitted)
      ensures context.given == old(context.given)
        && context.queue.queuedReferences == old(context.queue.queuedReferences)
    {
      TakenIs(heap, range);
      ValidIs();
      context.InitializeOperator(dispatch, place, barrier);
      Undisturbed();
      Bind(heap, range);
    }

    /** InitializeOperator and ExecuteOperator: the dispatch finds the heap of its own range bound, and the range waits
        for an event that covers the dispatch. */
    method ExecuteOperator(dispatch: int, count: nat, flags: int, barrier: Option<int>)
        returns (heap: DmlDescriptorHeap, start: nat, place: nat)
      requires Valid()
      modifies this`bindings, context, context.dmlRecorder, context.dmlRecorder.ring, context.queue, context.queue.gpu,
        pool`heaps, pool`lastEvent, pool.heaps
      ensures Valid() && context.queue.gpu.completed >= old(context.queue.gpu.completed)
      ensures context.recorded == old(context.recorded) + [dispatch] + (if barrier.Some? then [barrier.value] else [])
      ensures |bindings| == |old(bindings)| + 1 && bindings[..|old(bindings)|] == old(bindings)
      ensures Newest(heap, Range(start, count, context.queue.lastFenceValue + 1)) && heap.flags == flags
        && start + count <= heap.capacity
      ensures place < |pool.heaps| && pool.heaps[place] == heap && context.dmlRecorder.boundHeap == Some(place)
      ensures context.given == old(context.given) && context.queue.submitted == old(context.queue.submitted)
        && context.queue.queuedReferences == old(context.queue.queuedReferences)
    {
      hide *;
      ValidIs();
      context.SetCommandRecorder();
      Undisturbed();
      heap, start, place := TakeDescriptors(count, flags);
      RecordDispatch(dispatch, heap, place, Range(start, count, context.queue.lastFenceValue + 1), barrier);
    }

    lemma ValidIs()
      requires Valid()
      ensures context.Valid() && pool.gpu == context.queue.gpu && pool.Valid() && Bound()
    {
    }

    lemma TakenIs(heap: DmlDescriptorHeap, range: Range)
      requires Taken(heap, range)
      ensures Valid() && heap in pool.heaps
    {
    }

    /** The newest binding is of this range, and its event covers everything recorded so far. */
    ghost predicate Newest(heap: DmlDescriptorHeap, range: Range)
      reads this, context, heap
    {
      && bindings != []
      && var b := bindings[|bindings| - 1];
         && b.heap == heap && b.index < |heap.ranges| && heap.ranges[b.index] == range
         && b.promise == Promise(range.fence, |context.recorded|)
    }

    ghost method Bind(heap: DmlDescriptorHeap, range: Range)
      requires Taken(heap, range)
      modifies this`bindings, context`promises
      ensures Valid() && Newest(heap, range) && |bindings| == |old(bindings)| + 1
        && bindings[..|old(bindings)|] == old(bindings)
    {
      hide Kept, AllKept, Done, Stacked, AllSignaled, pool.Valid;
      var promise := Promise(range.fence, |context.recorded|);
      PromiseKept(context.promises, context.queue.submitted, promise.fence, promise.count);
      context.promises := context.promises + [promise];
      bindings := bindings + [Binding(promise, heap, |heap.ranges| - 1)];
    }

    /** Submitting what is recorded keeps all this. */
    method Flush()
      requires Valid()
      modifies context`recording, context.dmlRecorder, context.dmlRecorder.ring, context.queue, context.queue.gpu
      ensures Valid() && context.queue.gpu.completed >= old(context.queue.gpu.completed) && bindings == old(bindings)
    {
      context.Flush();
      Undisturbed();
    }

    method ExecuteCommandList(commandList: seq<int>) returns (completionValue: nat)
      requires Valid()
      modifies context, context.dmlRecorder, context.dmlRecorder.ring, context.queue, context.queue.gpu
      ensures Valid() && context.recorded == old(context.recorded) + commandList && bindings == old(bindings)
      ensures completionValue == context.queue.lastFenceValue == old(context.queue.lastFenceValue) + 1
        && context.given == old(context.given)
        && context.queue.queuedReferences == old(context.queue.queuedReferences)
    {
      completionValue := context.ExecuteCommandList(commandList);
      Undisturbed();
    }
  }
}
