/** The command recorder: batches operations into one list, which it submits before any list handed to it. */
module CommandRecorder {
  import opened Device
  import opened CommandQueue
  import opened AllocatorRing

  class DmlCommandRecorder {
    const queue: DmlCommandQueue
    const ring: DmlCommandAllocatorRing
    var currentCommandList: bool  // there is one, open for recording
    var cachedCommandList: bool
    var operationsRecorded: bool
    var currentDescriptorHeap: Option<int>
    var pending: seq<int>  // the operations in the current list
    ghost var boundHeap: Option<int>    // the descriptor heap bound in the current list
    ghost var shared: bool              // the current list was handed out, and its holder may record in it

    ghost predicate Ordered()
      reads this, queue, queue.gpu, ring, ring.gpu
    {
      && queue.Valid() && ring.Valid() && ring.gpu == queue.gpu
      && ring.recording == currentCommandList
      && (if currentCommandList then ring.completionEvents[ring.current] == queue.lastFenceValue + 1
          else (ring.completionEvents[ring.current] <= queue.lastFenceValue + 1 && pending == [] && !operationsRecorded
                && currentDescriptorHeap.None?))
      && (pending != [] ==> operationsRecorded) && (shared ==> currentCommandList && operationsRecorded)
    }

    /** In order, and the descriptor heap it remembers is the one bound in the list. */
    ghost predicate Valid()
      reads this, queue, queue.gpu, ring, ring.gpu
    {
      Ordered() && (currentDescriptorHeap.Some? ==> boundHeap == currentDescriptorHeap)
    }

    constructor (queue: DmlCommandQueue)
      requires queue.Valid()
      ensures Valid() && this.queue == queue && fresh(ring) && !currentCommandList && pending == []
    {
      this.queue := queue;
      ring := new DmlCommandAllocatorRing(queue.gpu, queue.GetCurrentCompletionEvent());
      currentCommandList, cachedCommandList, operationsRecorded := false, false, false;
      currentDescriptorHeap, pending, boundHeap, shared := None, [], None, false;
    }

    /** Starts a list, on an allocator whose event is that of the next submission. */
    method Open()
      requires Valid() && !currentCommandList
      modifies this`currentCommandList, this`cachedCommandList, this`boundHeap,
        ring`completionEvents, ring`current, ring`recording, queue.gpu`completed
      ensures Valid() && currentCommandList && pending == [] && !operationsRecorded
      ensures currentDescriptorHeap == None && queue.gpu.completed >= old(queue.gpu.completed)
      ensures ring.current != old(ring.current) ==> old(ring.lastUses)[ring.current] <= queue.gpu.completed
    {
      assert currentDescriptorHeap.None?;  // asserted by Open
      var allocator := ring.GetNextAllocator(queue.GetNextCompletionEvent());
      currentCommandList := true;
      cachedCommandList := false;
      boundHeap := None;
    }

    /** CopyBufferRegion, ResourceBarrier and AddUAVBarrier. */
    method Record(operation: int)
      requires Valid() && currentCommandList
      modifies this`pending, this`operationsRecorded
      ensures Valid() && pending == old(pending) + [operation] && operationsRecorded
    {
      pending := pending + [operation];
      operationsRecorded := true;
    }

    method SetDescriptorHeap(descriptorHeap: Option<int>)
      requires Valid() && currentCommandList
      modifies this`currentDescriptorHeap, this`boundHeap
      ensures Valid() && (descriptorHeap.Some? ==>
        boundHeap == descriptorHeap && currentDescriptorHeap == descriptorHeap)
      ensures descriptorHeap.None? ==>
        currentDescriptorHeap == old(currentDescriptorHeap) && boundHeap == old(boundHeap)
    {
      if descriptorHeap.Some? && descriptorHeap != currentDescriptorHeap {
        currentDescriptorHeap := descriptorHeap;
        boundHeap := descriptorHeap;
      }
    }

    /** InitializeOperator and ExecuteOperator: a dispatch that finds its own descriptor heap bound, then a barrier. */
    method Dispatch(operation: int, descriptorHeap: int, barrier: Option<int>)
      requires Valid() && currentCommandList
      modifies this`currentDescriptorHeap, this`boundHeap, this`pending, this`operationsRecorded
      ensures Valid() && operationsRecorded && boundHeap == Some(descriptorHeap)
      ensures pending == old(pending) + [operation] + (if barrier.Some? then [barrier.value] else [])
    {
      SetDescriptorHeap(Some(descriptorHeap));
      pending := pending + [operation];
      operationsRecorded := true;
      if barrier.Some? {
        pending := pending + [barrier.value];
      }
    }

    method InvalidateDescriptorHeap()
      requires Valid()
      modifies this`currentDescriptorHeap
      ensures Valid() && currentDescriptorHeap == None
    {
      currentDescriptorHeap := None;
    }

    /** Hands the list out: from now on it counts as recorded, and its holder may record in it. */
    method GetCommandList()
      requires Valid() && currentCommandList
      modifies this`operationsRecorded, this`shared
      ensures Valid() && operationsRecorded && shared
    {
      operationsRecorded := true;
      shared := true;
    }

    /** At any time until the list is closed its holder records in it and leaves `heap` bound: what the recorder
        remembers stays true exactly when it remembers nothing or that is the heap it remembers. */
    method HolderRecords(operations: seq<int>, ghost heap: Option<int>)
      requires Valid() && shared
      modifies this`pending, this`boundHeap
      ensures Ordered() && pending == old(pending) + operations && boundHeap == heap
      ensures Valid() <==> currentDescriptorHeap.None? || heap == currentDescriptorHeap
    {
      pending := pending + operations;
      boundHeap := heap;
    }

    /** Submits the current list, if anything is recorded in it, and in the same batch after it the list
        that was handed in. */
    method CloseAndExecute(commandList: Option<seq<int>>)
      requires Valid() && currentCommandList
      modifies this`currentCommandList, this`cachedCommandList, this`operationsRecorded, this`currentDescriptorHeap,
        this`pending, this`shared,
        ring`lastUses, ring`recording, queue`lastFenceValue, queue`submitted, queue.gpu`signaled
      ensures Valid() && !currentCommandList && pending == [] && !operationsRecorded
      ensures queue.lastFenceValue == old(queue.lastFenceValue) + if old(operationsRecorded) || commandList.Some?
        then 1 else 0
      ensures queue.submitted == old(queue.submitted) +
        if old(operationsRecorded) || commandList.Some?
          then [old(pending) + (if commandList.Some? then commandList.value else [])] else []
    {
      hide *;
      Parts();
      var lists: seq<seq<int>> := [];
      if operationsRecorded {
        lists := lists + [pending];
      }
      if commandList.Some? {
        lists := lists + [commandList.value];
      }
      ListsAre(operationsRecorded, pending, commandList, lists);
      if lists != [] {
        queue.ExecuteCommandLists(lists);
      }
      ring.Undisturbed();
      ring.ListClosed(if operationsRecorded then Some(queue.lastFenceValue) else None);
      cachedCommandList := true;
      currentCommandList := false;
      operationsRecorded := false;
      pending := [];
      currentDescriptorHeap := None;
      shared := false;
      MakeClosed();
    }

    lemma Parts()
      requires Valid() && currentCommandList
      ensures queue.Valid() && ring.Valid() && ring.gpu == queue.gpu && ring.recording
      ensures ring.current < |ring.completionEvents| && ring.completionEvents[ring.current] == queue.lastFenceValue + 1
      ensures pending != [] ==> operationsRecorded
    {
    }

    lemma MakeClosed()
      requires queue.Valid() && ring.Valid() && ring.gpu == queue.gpu && !ring.recording
      requires ring.completionEvents[ring.current] <= queue.lastFenceValue + 1
      requires !currentCommandList && pending == [] && !operationsRecorded && currentDescriptorHeap.None? && !shared
      ensures Valid()
    {
    }

    lemma ListsAre(recorded: bool, first: seq<int>, second: Option<seq<int>>, lists: seq<seq<int>>)
      requires first != [] ==> recorded
      requires lists == (if recorded then [first] else []) + (if second.Some? then [second.value] else [])
      ensures Concat(lists) == first + (if second.Some? then second.value else [])
      ensures lists == [] <==> !recorded && second.None?
    {
      if recorded {
        ConcatTwo(first, second);
      } else if second.Some? {
        assert lists == [second.value];
        ConcatTwo(second.value, None);
      }
    }

    lemma ConcatTwo(first: seq<int>, second: Option<seq<int>>)
      ensures Concat([first] + (if second.Some? then [second.value] else []))
        == first + (if second.Some? then second.value else [])
    {
      assert [first][..0] == [] && Concat([first]) == first;
      if second.Some? {
        ConcatMore([first], second.value);
      }
    }

    /** Executes a finished list: alone when nothing is recorded, otherwise after what is recorded. The value is the
        fence at which it is complete. */
    method ExecuteCommandList(commandList: seq<int>) returns (completionValue: nat)
      requires Valid() && currentCommandList
      modifies this, ring, queue`lastFenceValue, queue`submitted, queue.gpu
      ensures Valid() && currentCommandList && pending == [] && !operationsRecorded
      ensures queue.gpu.completed >= old(queue.gpu.completed)
      ensures completionValue == queue.lastFenceValue == old(queue.lastFenceValue) + 1
      ensures queue.submitted == old(queue.submitted) + [old(pending) + commandList]
      ensures currentDescriptorHeap == old(currentDescriptorHeap)
    {
      if !operationsRecorded {
        completionValue := queue.GetNextCompletionEvent();
        queue.ExecuteCommandLists([commandList]);
        ConcatTwo(commandList, None);
        ring.UpdateCurrentAllocatorCompletionEvent(queue.GetNextCompletionEvent());
        return;
      }
      var heap := currentDescriptorHeap;
      CloseAndExecute(Some(commandList));
      Open();
      SetDescriptorHeap(heap);
      completionValue := queue.GetCurrentCompletionEvent();
    }
  }
}
