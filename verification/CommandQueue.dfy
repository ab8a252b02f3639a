/** The command queue: batches of operations, one fence value for each. */
module CommandQueue {
  import opened Device

  /** The operations of some batches, in order. */
  function Concat(batches: seq<seq<int>>): seq<int> {
    if batches == [] then [] else Concat(batches[..|batches| - 1]) + batches[|batches| - 1]
  }

  lemma ConcatMore(batches: seq<seq<int>>, batch: seq<int>)
    ensures Concat(batches + [batch]) == Concat(batches) + batch
  {
    assert (batches + [batch])[..|batches|] == batches;
  }

  /** Earlier batches come first. */
  lemma {:induction false} ConcatPrefix(batches: seq<seq<int>>, k: nat)
    requires k <= |batches|
    ensures Concat(batches[..k]) <= Concat(batches)
  {
    if k < |batches| {
      ConcatPrefix(batches[..|batches| - 1], k);
      assert batches[..|batches| - 1][..k] == batches[..k];
    } else {
      assert batches[..k] == batches;
    }
  }

  datatype QueuedReference = QueuedReference(fence: nat, reference: int)

  predicate Sorted(references: seq<QueuedReference>) {
    forall i, j :: 0 <= i < j < |references| ==> references[i].fence <= references[j].fence
  }

  lemma SortedCut(all: seq<QueuedReference>, n: nat, value: nat)
    requires Sorted(all) && n <= |all| && (forall i :: 0 <= i < n ==> all[i].fence <= value)
    requires n < |all| ==> all[n..][0].fence > value
    ensures forall i :: 0 <= i < |all| ==> (all[i].fence <= value <==> i < n)
  {
  }

  class DmlCommandQueue {
    const gpu: Gpu
    var lastFenceValue: nat
    var queuedReferences: seq<QueuedReference>
    ghost var submitted: seq<seq<int>>  // batch k is complete when the fence reaches k + 1

    ghost predicate Valid()
      reads this, gpu
    {
      gpu.Valid() && gpu.signaled == lastFenceValue == |submitted| && Sorted(queuedReferences)
    }

    constructor ()
      ensures Valid() && fresh(gpu) && lastFenceValue == 0 && submitted == [] && queuedReferences == []
    {
      gpu := new Gpu();
      lastFenceValue, queuedReferences, submitted := 0, [], [];
    }

    method ExecuteCommandLists(lists: seq<seq<int>>)
      requires Valid()
      modifies this`lastFenceValue, this`submitted, gpu`signaled
      ensures Valid() && lastFenceValue == old(lastFenceValue) + 1 && submitted == old(submitted) + [Concat(lists)]
    {
      submitted := submitted + [Concat(lists)];
      lastFenceValue := lastFenceValue + 1;
      gpu.Signal(lastFenceValue);
    }

    /** Everything executed so far, in order. */
    ghost function Executed(): seq<int>
      reads this, gpu
      requires Valid()
    {
      Concat(submitted[..gpu.completed])
    }

    function GetCurrentCompletionEvent(): nat
      reads this
    {
      lastFenceValue
    }

    function GetNextCompletionEvent(): nat
      reads this
    {
      lastFenceValue + 1
    }

    method QueueReference(reference: int, waitForUnsubmittedWork: bool)
      requires Valid() && forall i :: 0 <= i < |queuedReferences| ==>
        queuedReferences[i].fence <= lastFenceValue + if waitForUnsubmittedWork then 1 else 0
      modifies this`queuedReferences
      ensures Valid()
      ensures queuedReferences
        == old(queuedReferences)
        + [QueuedReference(lastFenceValue + (if waitForUnsubmittedWork then 1 else 0), reference)]
    {
      queuedReferences := queuedReferences
        + [QueuedReference(if waitForUnsubmittedWork then lastFenceValue + 1 else lastFenceValue, reference)];
    }

    /** Drops exactly the references whose fence value has been reached. */
    method ReleaseCompletedReferences()
      requires Valid()
      modifies this`queuedReferences, gpu`completed
      ensures Valid() && gpu.completed >= old(gpu.completed) && |queuedReferences| <= |old(queuedReferences)|
      ensures queuedReferences == old(queuedReferences)[|old(queuedReferences)| - |queuedReferences|..]
      ensures forall i :: 0 <= i < |old(queuedReferences)| ==>
        (old(queuedReferences)[i].fence <= gpu.completed <==> i < |old(queuedReferences)| - |queuedReferences|)
    {
      var completedValue := gpu.Poll();
      ghost var all := queuedReferences;
      Pop(completedValue);
      SortedCut(all, |all| - |queuedReferences|, completedValue);
    }

    method Pop(completedValue: nat)
      requires Sorted(queuedReferences)
      modifies this`queuedReferences
      ensures Sorted(queuedReferences) && |queuedReferences| <= |old(queuedReferences)|
      ensures queuedReferences == old(queuedReferences)[|old(queuedReferences)| - |queuedReferences|..]
      ensures forall i :: 0 <= i < |old(queuedReferences)| - |queuedReferences| ==>
        old(queuedReferences)[i].fence <= completedValue
      ensures queuedReferences != [] ==> queuedReferences[0].fence > completedValue
    {
      ghost var all := queuedReferences;
      while queuedReferences != [] && queuedReferences[0].fence <= completedValue
        invariant |queuedReferences| <= |all| && queuedReferences == all[|all| - |queuedReferences|..]
        invariant forall i :: 0 <= i < |all| - |queuedReferences| ==> all[i].fence <= completedValue
        decreases |queuedReferences|
        modifies this`queuedReferences
      {
        queuedReferences := queuedReferences[1..];
      }
    }

    /** Waits for all submitted work and drops all references. */
    method Close()
      requires Valid()
      modifies this`queuedReferences, gpu`completed
      ensures Valid() && queuedReferences == [] && gpu.completed == lastFenceValue
    {
      gpu.WaitForSignal(GetCurrentCompletionEvent());
      queuedReferences := [];
    }
  }
}
