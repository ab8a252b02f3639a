/** The execution context: operations reach the queue in program order, and events cover what
    was recorded before them. */
module ExecutionContext {
  import opened Device
  import opened CommandQueue
  import opened CommandRecorder

  /** An event handed out: once its fence is signaled, the first `count` operations of the program are complete. */
  datatype Promise = Promise(fence: nat, count: nat)

  /** The number of operations complete when the fence has reached k. */
  ghost function Done(submitted: seq<seq<int>>, k: nat): nat
    requires k <= |submitted|
  {
    |Concat(submitted[..k])|
  }

  ghost predicate Kept(promise: Promise, submitted: seq<seq<int>>, total: nat) {
    && promise.count <= total && promise.fence <= |submitted| + 1
    && (promise.fence <= |submitted| ==> promise.count <= Done(submitted, promise.fence))
  }

  ghost predicate AllKept(promises: seq<Promise>, submitted: seq<seq<int>>, total: nat) {
    forall i :: 0 <= i < |promises| ==> Kept(promises[i], submitted, total)
  }

  /** A submission that contains everything recorded keeps every promise. */
  lemma SubmitKeeps(promises: seq<Promise>, submitted: seq<seq<int>>, batch: seq<int>, total: nat)
    requires AllKept(promises, submitted, total) && total <= |Concat(submitted)| + |batch|
    ensures AllKept(promises, submitted + [batch], |Concat(submitted)| + |batch|)
  {
    var now := submitted + [batch];
    ConcatMore(submitted, batch);
    assert now[..|submitted|] == submitted && now[..|now|] == now;
    forall i | 0 <= i < |promises| ensures Kept(promises[i], now, |Concat(submitted)| + |batch|) {
      assert Kept(promises[i], submitted, total);
      if promises[i].fence <= |submitted| {
        assert now[..promises[i].fence] == submitted[..promises[i].fence];
      }
    }
  }

  lemma RecordKeeps(promises: seq<Promise>, submitted: seq<seq<int>>, total: nat, more: nat)
    requires AllKept(promises, submitted, total) && total <= more
    ensures AllKept(promises, submitted, more)
  {
    forall i | 0 <= i < |promises| ensures Kept(promises[i], submitted, more) {
      assert Kept(promises[i], submitted, total);
    }
  }

  /** An event for everything recorded: of the last submission when that is all, of the next one in any case. */
  lemma PromiseKept(promises: seq<Promise>, submitted: seq<seq<int>>, fence: nat, total: nat)
    requires AllKept(promises, submitted, total)
    requires fence == |submitted| + 1 || (fence == |submitted| && total <= |Concat(submitted)|)
    ensures AllKept(promises + [Promise(fence, total)], submitted, total)
  {
    assert submitted[..|submitted|] == submitted;
  }

  lemma {:induction false} DoneMonotone(submitted: seq<seq<int>>, j: nat, k: nat)
    requires j <= k <= |submitted|
    ensures Done(submitted, j) <= Done(submitted, k)
  {
    ConcatPrefix(submitted[..k], j);
    assert submitted[..k][..j] == submitted[..j];
  }

  /** An object given to be kept: until the fence, when the first `count` operations of the program are complete. */
  datatype Given = Given(reference: int, fence: nat, count: nat)

  /** What the queue holds of the objects given: all but the first ones, whose fences have been reached. */
  predicate Holding(given: seq<Given>, held: seq<QueuedReference>, completed: nat) {
    && |held| <= |given|
    && (forall i :: 0 <= i < |given| - |held| ==> given[i].fence <= completed)
    && forall i :: |given| - |held| <= i < |given| ==>
      held[i - (|given| - |held|)] == QueuedReference(given[i].fence, given[i].reference)
  }

  predicate Promised(given: seq<Given>, promises: seq<Promise>) {
    forall i :: 0 <= i < |given| ==> Promise(given[i].fence, given[i].count) in promises
  }

  lemma HoldingLater(given: seq<Given>, held: seq<QueuedReference>, before: nat, after: nat)
    requires Holding(given, held, before) && before <= after
    ensures Holding(given, held, after)
  {
  }

  lemma HoldingLess(given: seq<Given>, held: seq<QueuedReference>, n: nat, before: nat, after: nat)
    requires Holding(given, held, before) && before <= after && n <= |held|
    requires forall i :: 0 <= i < n ==> held[i].fence <= after
    ensures Holding(given, held[n..], after)
  {
    var gone := |given| - |held|;
    forall i | 0 <= i < gone + n ensures given[i].fence <= after {
      assert i >= gone ==> held[i - gone].fence == given[i].fence;
    }
  }

  lemma HoldingMore(given: seq<Given>, held: seq<QueuedReference>, completed: nat, x: Given)
    requires Holding(given, held, completed)
    ensures Holding(given + [x], held + [QueuedReference(x.fence, x.reference)], completed)
  {
  }

  lemma PromisedMore(given: seq<Given>, promises: seq<Promise>, more: Promise)
    requires Promised(given, promises)
    ensures Promised(given, promises + [more])
  {
  }

  class DmlExecutionContext {
    const queue: DmlCommandQueue
    const dmlRecorder: DmlCommandRecorder
    var recording: bool  // current_recorder_ is dml_recorder_ rather than null
    var closed: bool
    ghost var recorded: seq<int>        // every operation given to the context, in program order
    ghost var promises: seq<Promise>    // every event handed out
    ghost var given: seq<Given>         // every object to be kept

    /** Program order: what was submitted, then what is recorded in the current list, is what was given. */
    ghost predicate Valid()
      reads this, queue, queue.gpu, dmlRecorder, dmlRecorder.ring
    {
      && dmlRecorder.queue == queue && dmlRecorder.ring.gpu == queue.gpu && dmlRecorder.Valid()
      && !closed && recording == dmlRecorder.currentCommandList
      && recorded == Concat(queue.submitted) + dmlRecorder.pending
      && AllKept(promises, queue.submitted, |recorded|)
      && Holding(given, queue.queuedReferences, queue.gpu.completed) && Promised(given, promises)
      && forall i :: 0 <= i < |queue.queuedReferences| ==>
        queue.queuedReferences[i].fence <= queue.lastFenceValue + if recording then 1 else 0
    }

    constructor ()
      ensures Valid() && fresh(queue) && fresh(queue.gpu) && fresh(dmlRecorder) && fresh(dmlRecorder.ring)
        && recorded == [] && promises == [] && given == []
    {
      var q := new DmlCommandQueue();
      var recorder := new DmlCommandRecorder(q);
      queue, dmlRecorder, recording, closed, recorded, promises, given := q, recorder, false, false, [], [], [];
    }

    /** The device's progress does not disturb the context. */
    twostate lemma Undisturbed()
      requires old(Valid()) && unchanged(this, queue, dmlRecorder, dmlRecorder.ring)
      requires queue.gpu.Valid() && queue.gpu.signaled == old(queue.gpu.signaled)
        && queue.gpu.completed >= old(queue.gpu.completed)
      ensures Valid()
    {
      HoldingLater(given, queue.queuedReferences, old(queue.gpu.completed), queue.gpu.completed);
    }

    lemma Facts()
      requires Valid()
      ensures queue.Valid() && queue.gpu.Valid() && queue.gpu.signaled == queue.lastFenceValue
      ensures recorded == Concat(queue.submitted) + dmlRecorder.pending
    {
    }

    /** Everything flushed and waited for has been executed. */
    lemma AllExecuted()
      requires Valid() && dmlRecorder.pending == [] && queue.gpu.completed >= queue.lastFenceValue
      ensures queue.Executed() == recorded
    {
      assert queue.submitted[..|queue.submitted|] == queue.submitted;
    }

    /** What the device has executed is a prefix of the program. */
    lemma ProgramOrder()
      requires Valid()
      ensures queue.Executed() <= recorded
    {
      ConcatPrefix(queue.submitted, queue.gpu.completed);
    }

    /** An event that is signaled covers every operation recorded before it was handed out. */
    lemma EventSound(i: nat)
      requires Valid() && i < |promises| && promises[i].fence <= queue.gpu.completed
      ensures promises[i].count <= |recorded| && recorded[..promises[i].count] <= queue.Executed()
    {
      ProgramOrder();
      assert Kept(promises[i], queue.submitted, |recorded|);
      DoneMonotone(queue.submitted, promises[i].fence, queue.gpu.completed);
      assert queue.Executed() == recorded[..|queue.Executed()|];
    }

    /** An object given to be kept is still queued, unless everything given to the context before it has been
        executed. */
    lemma ReferenceKept(i: nat)
      requires Valid() && i < |given|
      ensures given[i].count <= |recorded|
      ensures QueuedReference(given[i].fence, given[i].reference) in queue.queuedReferences
        || recorded[..given[i].count] <= queue.Executed()
    {
      hide Concat, Done, Kept;
      var gone := |given| - |queue.queuedReferences|;
      var k :| 0 <= k < |promises| && promises[k] == Promise(given[i].fence, given[i].count);
      assert Kept(promises[k], queue.submitted, |recorded|);
      KeptCount(promises[k], queue.submitted, |recorded|);
      if i < gone {
        EventSound(k);
      } else {
        assert queue.queuedReferences[i - gone] == QueuedReference(given[i].fence, given[i].reference);
      }
    }

    lemma KeptCount(promise: Promise, submitted: seq<seq<int>>, total: nat)
      requires Kept(promise, submitted, total)
      ensures promise.count <= total
    {
    }

    /** Makes the recorder current; there is only one, so it is flushed only when it is not current. */
    method SetCommandRecorder()
      requires Valid()
      modifies this`recording, dmlRecorder, dmlRecorder.ring, queue`lastFenceValue, queue`submitted,
        queue`queuedReferences, queue.gpu
      ensures Valid() && recording && queue.submitted == old(queue.submitted)
        && queue.gpu.completed >= old(queue.gpu.completed)
      ensures dmlRecorder.pending == old(dmlRecorder.pending)
        && dmlRecorder.operationsRecorded == old(dmlRecorder.operationsRecorded)
      ensures queue.queuedReferences == old(queue.queuedReferences) && queue.lastFenceValue == old(queue.lastFenceValue)
      decreases if recording then 0 else 1
    {
      hide Concat, AllKept, Kept, Done, Holding, Promised;
      if !recording {
        Flush();
        recording := true;
        ghost var before := queue.gpu.completed;
        dmlRecorder.Open();
        HoldingLater(given, queue.queuedReferences, before, queue.gpu.completed);
      }
    }

    /** Submits what is recorded, if anything, and opens the next list. */
    method Flush()
      requires Valid()
      modifies this`recording, dmlRecorder, dmlRecorder.ring, queue`lastFenceValue, queue`submitted,
        queue`queuedReferences, queue.gpu
      ensures Valid() && queue.gpu.completed >= old(queue.gpu.completed)
      ensures !dmlRecorder.operationsRecorded && dmlRecorder.pending == []
      ensures queue.lastFenceValue == old(queue.lastFenceValue) + if old(dmlRecorder.operationsRecorded) then 1 else 0
      ensures old(dmlRecorder.operationsRecorded) ==>
        recording && queue.submitted == old(queue.submitted) + [old(dmlRecorder.pending)]
      ensures !old(dmlRecorder.operationsRecorded) ==>
        && recording == old(recording) && queue.submitted == old(queue.submitted)
        && queue.queuedReferences == old(queue.queuedReferences)
      ensures var gone := |old(queue.queuedReferences)| - |queue.queuedReferences|;
        && gone >= 0 && queue.queuedReferences == old(queue.queuedReferences)[gone..]
        && (forall i :: 0 <= i < gone ==> old(queue.queuedReferences)[i].fence <= queue.gpu.completed)
        && (old(dmlRecorder.operationsRecorded) ==>
          forall i :: gone <= i < |old(queue.queuedReferences)| ==>
            old(queue.queuedReferences)[i].fence > old(queue.gpu.completed))
      decreases if recording then 2 else 0
    {
      hide Concat, AllKept, Kept, Done, Holding, Promised;
      if !recording || !dmlRecorder.operationsRecorded {
        return;
      }
      SubmitKeeps(promises, queue.submitted, dmlRecorder.pending, |recorded|);
      ConcatMore(queue.submitted, dmlRecorder.pending);
      ghost var batch := dmlRecorder.pending;
      assert batch + [] == batch;
      ghost var held, start := queue.queuedReferences, queue.gpu.completed;
      dmlRecorder.CloseAndExecute(None);
      queue.ReleaseCompletedReferences();
      HoldingLess(given, held, |held| - |queue.queuedReferences|, start, queue.gpu.completed);
      recording := false;
      SetCommandRecorder();
    }

    /** One operation into the current list. */
    method Record(operation: int)
      requires Valid() && recording
      modifies this`recorded, dmlRecorder`pending, dmlRecorder`operationsRecorded
      ensures Valid() && recorded == old(recorded) + [operation] && dmlRecorder.operationsRecorded
    {
      RecordKeeps(promises, queue.submitted, |recorded|, |recorded| + 1);
      dmlRecorder.Record(operation);
      recorded := recorded + [operation];
    }

    /** AddUAVBarrier and ResourceBarrier. */
    method ResourceBarrier(barrier: int)
      requires Valid()
      modifies this`recording, this`recorded, dmlRecorder, dmlRecorder.ring, queue`lastFenceValue, queue`submitted,
        queue`queuedReferences, queue.gpu
      ensures Valid() && recorded == old(recorded) + [barrier] && queue.gpu.completed >= old(queue.gpu.completed)
      ensures recording && dmlRecorder.operationsRecorded && queue.lastFenceValue == old(queue.lastFenceValue)
        && queue.queuedReferences == old(queue.queuedReferences) && queue.submitted == old(queue.submitted)
    {
      SetCommandRecorder();
      Record(barrier);
    }

    /** A copy, between its barriers when the resources are in other states. */
    method CopyBufferRegion(copy: int, barriers: Option<(int, int)>)
      requires Valid()
      modifies this`recording, this`recorded, dmlRecorder, dmlRecorder.ring, queue`lastFenceValue, queue`submitted,
        queue`queuedReferences, queue.gpu
      ensures Valid() && queue.gpu.completed >= old(queue.gpu.completed)
      ensures recorded == old(recorded)
        + (if barriers.Some? then [barriers.value.0, copy, barriers.value.1] else [copy])
      ensures recording && dmlRecorder.operationsRecorded && queue.lastFenceValue == old(queue.lastFenceValue)
        && queue.queuedReferences == old(queue.queuedReferences) && queue.submitted == old(queue.submitted)
    {
      SetCommandRecorder();
      if barriers.Some? {
        Record(barriers.value.0);
      }
      Record(copy);
      if barriers.Some? {
        Record(barriers.value.1);
      }
    }

    method InitializeOperator(dispatch: int, descriptorHeap: int, barrier: Option<int>)
      requires Valid()
      modifies this`recording, this`recorded, dmlRecorder, dmlRecorder.ring, queue`lastFenceValue, queue`submitted,
        queue`queuedReferences, queue.gpu
      ensures Valid() && queue.gpu.completed >= old(queue.gpu.completed)
      ensures recorded == old(recorded) + [dispatch] + (if barrier.Some? then [barrier.value] else [])
      ensures dmlRecorder.boundHeap == Some(descriptorHeap) && queue.lastFenceValue == old(queue.lastFenceValue)
        && queue.queuedReferences == old(queue.queuedReferences) && queue.submitted == old(queue.submitted)
    {
      SetCommandRecorder();
      ghost var more := [dispatch] + (if barrier.Some? then [barrier.value] else []);
      RecordKeeps(promises, queue.submitted, |recorded|, |recorded| + |more|);
      dmlRecorder.Dispatch(dispatch, descriptorHeap, barrier);
      recorded := recorded + more;
    }

    /** A list the caller has recorded, in order with everything else; the event that covers it. */
    method ExecuteCommandList(commandList: seq<int>) returns (completionValue: nat)
      requires Valid()
      modifies this`recording, this`recorded, this`promises, dmlRecorder, dmlRecorder.ring, queue`lastFenceValue,
        queue`submitted, queue`queuedReferences, queue.gpu
      ensures Valid() && queue.gpu.completed >= old(queue.gpu.completed)
      ensures recorded == old(recorded) + commandList
        && promises == old(promises) + [Promise(completionValue, |recorded|)]
      ensures completionValue == queue.lastFenceValue == old(queue.lastFenceValue) + 1
        && queue.queuedReferences == old(queue.queuedReferences)
      ensures queue.submitted == old(queue.submitted) + [old(dmlRecorder.pending) + commandList] && recording
    {
      hide Concat, Kept, AllKept, Holding, Promised;
      SetCommandRecorder();
      SubmitKeeps(promises, queue.submitted, dmlRecorder.pending + commandList, |recorded|);
      ConcatMore(queue.submitted, dmlRecorder.pending + commandList);
      ghost var before := queue.gpu.completed;
      completionValue := dmlRecorder.ExecuteCommandList(commandList);
      HoldingLater(given, queue.queuedReferences, before, queue.gpu.completed);
      recorded := recorded + commandList;
      PromiseKept(promises, queue.submitted, completionValue, |recorded|);
      PromisedMore(given, promises, Promise(completionValue, |recorded|));
      promises := promises + [Promise(completionValue, |recorded|)];
    }

    /** The list itself, for a caller to record in; the recorder forgets its descriptor heap. */
    method GetCommandListForRecordingAndInvalidateState()
      requires Valid()
      modifies this`recording, dmlRecorder, dmlRecorder.ring, queue`lastFenceValue, queue`submitted,
        queue`queuedReferences, queue.gpu
      ensures Valid() && dmlRecorder.shared && dmlRecorder.operationsRecorded
        && dmlRecorder.currentDescriptorHeap == None
      ensures dmlRecorder.pending == old(dmlRecorder.pending) && queue.submitted == old(queue.submitted)
        && queue.queuedReferences == old(queue.queuedReferences)
      ensures queue.gpu.completed >= old(queue.gpu.completed)
    {
      SetCommandRecorder();
      dmlRecorder.InvalidateDescriptorHeap();
      dmlRecorder.GetCommandList();
    }

    /** What the caller records in it, then or later, takes its place in program order. While the recorder remembers a
        descriptor heap again, the caller has to leave that one bound. */
    method HolderRecords(operations: seq<int>, ghost heap: Option<int>)
      requires Valid() && dmlRecorder.shared
        && (dmlRecorder.currentDescriptorHeap.None? || heap == dmlRecorder.currentDescriptorHeap)
      modifies this`recorded, dmlRecorder`pending, dmlRecorder`boundHeap
      ensures Valid() && recorded == old(recorded) + operations && dmlRecorder.boundHeap == heap
    {
      RecordKeeps(promises, queue.submitted, |recorded|, |recorded| + |operations|);
      dmlRecorder.HolderRecords(operations, heap);
      recorded := recorded + operations;
    }

    /** The event for everything given so far, flushed or not. */
    method GetCurrentCompletionEvent() returns (fence: nat)
      requires Valid()
      modifies this`promises
      ensures Valid() && promises == old(promises) + [Promise(fence, |recorded|)]
      ensures fence == queue.lastFenceValue + if recording && dmlRecorder.operationsRecorded then 1 else 0
    {
      fence := queue.GetCurrentCompletionEvent();
      if recording && dmlRecorder.operationsRecorded {
        fence := fence + 1;
      }
      PromiseKept(promises, queue.submitted, fence, |recorded|);
      PromisedMore(given, promises, Promise(fence, |recorded|));
      promises := promises + [Promise(fence, |recorded|)];
    }

    /** Keeps an object until everything given so far is complete. */
    method QueueReference(reference: int)
      requires Valid()
      modifies this`promises, this`given, queue`queuedReferences
      ensures Valid() && |queue.queuedReferences| == |old(queue.queuedReferences)| + 1
      ensures queue.queuedReferences[..|old(queue.queuedReferences)|] == old(queue.queuedReferences)
      ensures var last := queue.queuedReferences[|old(queue.queuedReferences)|];
        && last.reference == reference && last.fence == queue.lastFenceValue + (if recording then 1 else 0)
        && promises == old(promises) + [Promise(last.fence, |recorded|)]
        && given == old(given) + [Given(reference, last.fence, |recorded|)]
    {
      hide Concat, Kept, AllKept, Done, Holding;
      ghost var fence, held := queue.lastFenceValue + (if recording then 1 else 0), queue.queuedReferences;
      FencesMatch();
      queue.QueueReference(reference, recording);
      PromiseKept(promises, queue.submitted, fence, |recorded|);
      HoldingMore(given, held, queue.gpu.completed, Given(reference, fence, |recorded|));
      promises := promises + [Promise(fence, |recorded|)];
      given := given + [Given(reference, fence, |recorded|)];
    }

    lemma FencesMatch()
      requires Valid()
      ensures queue.lastFenceValue == |queue.submitted|
      ensures !recording ==> |recorded| <= |Concat(queue.submitted)|
    {
      hide Kept, AllKept, Holding, Promised;
    }

    method ReleaseCompletedReferences()
      requires Valid()
      modifies queue`queuedReferences, queue.gpu
      ensures Valid() && queue.gpu.completed >= old(queue.gpu.completed)
        && |queue.queuedReferences| <= |old(queue.queuedReferences)|
      ensures queue.queuedReferences
        == old(queue.queuedReferences)[|old(queue.queuedReferences)| - |queue.queuedReferences|..]
      ensures forall i :: 0 <= i < |old(queue.queuedReferences)| ==>
        (old(queue.queuedReferences)[i].fence <= queue.gpu.completed <==>
          i < |old(queue.queuedReferences)| - |queue.queuedReferences|)
    {
      hide Concat, AllKept, Kept, Done, Holding, Promised;
      ghost var held, start := queue.queuedReferences, queue.gpu.completed;
      queue.ReleaseCompletedReferences();
      HoldingLess(given, held, |held| - |queue.queuedReferences|, start, queue.gpu.completed);
    }

    /** Waits for flushed work; what is not flushed is discarded. */
    method Close()
      requires Valid()
      modifies this`recording, this`closed, queue`queuedReferences, queue.gpu
      ensures closed && queue.Valid() && queue.queuedReferences == []
      ensures queue.Executed() == Concat(queue.submitted)
    {
      queue.Close();
      recording := false;
      closed := true;
      assert queue.submitted[..|queue.submitted|] == queue.submitted;
    }
  }
}
