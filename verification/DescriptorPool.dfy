/** The descriptor pool: heaps that are filled from the front and start over once their newest event is signaled. */
module DescriptorPools {
  import opened Device

  /** Descriptors handed out: [start, start + count), in use until the fence reaches its value. */
  datatype Range = Range(start: nat, count: nat, fence: nat)

  predicate Disjoint(a: Range, b: Range) {
    a.start + a.count <= b.start || b.start + b.count <= a.start
  }

  /** One after the other, below `size`. */
  predicate Stacked(ranges: seq<Range>, size: nat) {
    && (forall i :: 0 <= i < |ranges| ==> ranges[i].start + ranges[i].count <= size)
    && (forall i, j :: 0 <= i < j < |ranges| ==> ranges[i].start + ranges[i].count <= ranges[j].start)
  }

  predicate AllSignaled(ranges: seq<Range>, completed: nat) {
    forall i :: 0 <= i < |ranges| ==> ranges[i].fence <= completed
  }

  class DmlDescriptorHeap {
    const capacity: nat
    const flags: int
    var size: nat
    var head: nat
    var completionEvent: Option<nat>
    ghost var ranges: seq<Range>  // every range ever handed out
    ghost var generation: nat     // the first one since the heap last started over

    ghost predicate Valid(completed: nat)
      reads this
    {
      && head == size <= capacity
      && generation <= |ranges| && AllSignaled(ranges[..generation], completed) && Stacked(ranges[generation..], size)
      && (completionEvent.None? ==> ranges == [])
      && (completionEvent.Some? ==> AllSignaled(ranges, completionEvent.value))
    }

    constructor (capacity: nat, flags: int)
      ensures Valid(0) && this.capacity == capacity && this.flags == flags && size == 0 && completionEvent == None
        && ranges == []
    {
      this.capacity, this.flags, size, head, completionEvent, ranges, generation := capacity, flags, 0, 0, None, [], 0;
    }

    lemma ValidLater(before: nat, after: nat)
      requires Valid(before) && before <= after
      ensures Valid(after)
    {
    }

    /** Ranges whose events are both unsignaled never overlap, and lie within the heap. */
    lemma LiveApart(completed: nat, i: nat, j: nat)
      requires Valid(completed) && i < j < |ranges| && ranges[i].fence > completed && ranges[j].fence > completed
      ensures Disjoint(ranges[i], ranges[j])
      ensures ranges[i].start + ranges[i].count <= capacity && ranges[j].start + ranges[j].count <= capacity
    {
      assert i >= generation;
      assert ranges[generation..][i - generation] == ranges[i] && ranges[generation..][j - generation] == ranges[j];
    }

    method TryAllocDescriptors(gpu: Gpu, count: nat, event: nat, flags: int) returns (start: Option<nat>)
      requires gpu.Valid() && Valid(gpu.completed) && (completionEvent.Some? ==> completionEvent.value <= event)
      modifies this, gpu`completed
      ensures gpu.Valid() && Valid(gpu.completed) && gpu.completed >= old(gpu.completed)
      ensures start.Some? ==>
        flags == this.flags && ranges == old(ranges) + [Range(start.value, count, event)]
        && completionEvent == Some(event)
      ensures start.Some? ==> start.value + count == size <= capacity
      ensures (if start.Some? then start.value else size) == old(size)
        || ((if start.Some? then start.value else size) == 0
            && old(completionEvent.Some?) && old(completionEvent).value <= gpu.completed)
      ensures start.None? ==> ranges == old(ranges) && completionEvent == old(completionEvent)
      ensures start.None? ==> flags != this.flags || size + count > capacity
      ensures old(completionEvent.None? || completionEvent.value <= gpu.completed) ==>
        (start.Some?
        <==> flags == this.flags && (if old(completionEvent.None?) then old(size) else 0) + count <= capacity)
    {
      hide *;
      Parts(gpu.completed);
      if this.flags != flags {
        return None;
      }
      if completionEvent.Some? {
        var value := gpu.Poll();
        ValidLater(old(gpu.completed), value);
        if completionEvent.value <= value {
          size, head, generation := 0, 0, |ranges|;
          StartedOver(value);
        }
      }
      Parts(gpu.completed);
      var spaceRemaining := capacity - size;
      if spaceRemaining < count {
        return None;
      }
      start := Some(head);
      EventLater(event);
      ghost var was, x := ranges, Range(head, count, event);
      ranges := ranges + [x];
      size := size + count;
      completionEvent := Some(event);
      head := head + count;
      OneMoreValid(was, x, gpu.completed);
    }

    lemma EventLater(event: nat)
      requires completionEvent.None? ==> ranges == []
      requires completionEvent.Some? ==> completionEvent.value <= event && AllSignaled(ranges, completionEvent.value)
      ensures AllSignaled(ranges, event)
    {
    }

    lemma Parts(completed: nat)
      requires Valid(completed)
      ensures head == size <= capacity && generation <= |ranges|
      ensures AllSignaled(ranges[..generation], completed) && Stacked(ranges[generation..], size)
      ensures completionEvent.None? ==> ranges == []
      ensures completionEvent.Some? ==> AllSignaled(ranges, completionEvent.value)
    {
    }

    /** The newest event is signaled, so nothing of the heap is in use any more. */
    lemma StartedOver(completed: nat)
      requires head == size == 0 && generation == |ranges| && completionEvent.Some?
        && completionEvent.value <= completed && AllSignaled(ranges, completionEvent.value)
      ensures Valid(completed)
    {
      assert ranges[..|ranges|] == ranges && ranges[|ranges|..] == [];
    }

    lemma OneMoreValid(was: seq<Range>, x: Range, completed: nat)
      requires head == size == x.start + x.count <= capacity && ranges == was + [x] && completionEvent == Some(x.fence)
      requires generation <= |was| && AllSignaled(was[..generation], completed) && Stacked(was[generation..], x.start)
      requires AllSignaled(was, x.fence)
      ensures Valid(completed)
    {
      hide AllSignaled, Stacked;
      Regroup(was, x);
      StackMore(was[generation..], x.start, x);
      SignaledMore(was, x);
    }

    lemma Regroup(was: seq<Range>, x: Range)
      requires generation <= |was|
      ensures (was + [x])[..generation] == was[..generation] && (was + [x])[generation..] == was[generation..] + [x]
    {
    }
  }

  lemma SignaledMore(ranges: seq<Range>, x: Range)
    requires AllSignaled(ranges, x.fence)
    ensures AllSignaled(ranges + [x], x.fence)
  {
  }

  lemma StackMore(ranges: seq<Range>, size: nat, x: Range)
    requires Stacked(ranges, size) && x.start == size
    ensures Stacked(ranges + [x], size + x.count)
  {
  }

  /** A heap in order, whose newest event is no later than `lastEvent`. */
  ghost predicate Ready(heap: DmlDescriptorHeap, completed: nat, lastEvent: nat)
    reads heap
  {
    heap.Valid(completed) && (heap.completionEvent.Some? ==> heap.completionEvent.value <= lastEvent)
  }

  ghost predicate AllReady(heaps: seq<DmlDescriptorHeap>, completed: nat, lastEvent: nat)
    reads heaps
  {
    forall i :: 0 <= i < |heaps| ==> Ready(heaps[i], completed, lastEvent)
  }

  lemma AllReadyLater(heaps: seq<DmlDescriptorHeap>, before: nat, after: nat, event: nat, later: nat)
    requires AllReady(heaps, before, event) && before <= after && event <= later
    ensures AllReady(heaps, after, later)
  {
    forall i | 0 <= i < |heaps| ensures Ready(heaps[i], after, later) {
      heaps[i].ValidLater(before, after);
    }
  }

  /** The heap cannot serve a request: other flags, or too little room left. */
  ghost predicate Unfit(heap: DmlDescriptorHeap, count: nat, flags: int)
    reads heap
  {
    heap.flags != flags || heap.size + count > heap.capacity
  }

  predicate Distinct(heaps: seq<DmlDescriptorHeap>) {
    forall i, j :: 0 <= i < j < |heaps| ==> heaps[i] != heaps[j]
  }

  /** Some of the elements, in their order. */
  ghost predicate Subsequence<T>(some: seq<T>, all: seq<T>) {
    some == [] || (all != [] && var (a, b) := (some[..|some| - 1], all[..|all| - 1]);
                   Subsequence(some, b) || (some[|some| - 1] == all[|all| - 1] && Subsequence(a, b)))
  }

  lemma SubsequenceMore<T>(some: seq<T>, all: seq<T>, i: nat)
    requires i < |all| && Subsequence(some, all[..i])
    ensures Subsequence(some, all[..i + 1]) && Subsequence(some + [all[i]], all[..i + 1])
  {
    assert all[..i + 1][..i] == all[..i];
    assert (some + [all[i]])[..|some|] == some;
  }

  lemma SubsequenceNone<T>(all: seq<T>)
    ensures Subsequence([], all) && all[..|all|] == all
  {
  }

  class DescriptorPool {
    const gpu: Gpu
    const initialHeapCapacity: nat
    var heaps: seq<DmlDescriptorHeap>
    ghost var lastEvent: nat

    ghost predicate Valid()
      reads this, gpu, heaps
    {
      gpu.Valid() && Distinct(heaps) && AllReady(heaps, gpu.completed, lastEvent)
    }

    /** The device's progress does not disturb the pool. */
    twostate lemma Undisturbed()
      requires old(Valid()) && unchanged(this) && gpu.Valid() && gpu.completed >= old(gpu.completed)
      requires forall h :: h in heaps ==> unchanged(h)
      ensures Valid()
    {
      forall i | 0 <= i < |heaps| ensures Ready(heaps[i], gpu.completed, lastEvent) {
        assert heaps[i] in heaps && unchanged(heaps[i]);
        assert old(Ready(heaps[i], gpu.completed, lastEvent));
        heaps[i].ValidLater(old(gpu.completed), gpu.completed);
      }
    }

    constructor (gpu: Gpu, initialCapacity: nat, shaderVisible: int)
      requires gpu.Valid()
      ensures Valid() && this.gpu == gpu && initialHeapCapacity == initialCapacity && lastEvent == 0
      ensures |heaps| == 1 && fresh(heaps[0]) && heaps[0].capacity == initialCapacity && heaps[0].flags == shaderVisible
    {
      var heap := new DmlDescriptorHeap(initialCapacity, shaderVisible);
      this.gpu, initialHeapCapacity, heaps, lastEvent := gpu, initialCapacity, [heap], 0;
      new;
      heap.ValidLater(0, gpu.completed);
    }

    /** One attempt of the loop below, which leaves the other heaps alone. */
    method TryHeap(i: nat, count: nat, event: nat, flags: int) returns (start: Option<nat>)
      requires gpu.Valid() && i < |heaps| && Distinct(heaps) && AllReady(heaps, gpu.completed, event)
      modifies heaps[i], gpu`completed
      ensures gpu.Valid() && gpu.completed >= old(gpu.completed) && AllReady(heaps, gpu.completed, event)
      ensures heaps[i].ranges == if start.Some? then old(heaps[i].ranges) + [Range(start.value, count, event)]
        else old(heaps[i].ranges)
      ensures start.Some? ==> heaps[i].flags == flags && start.value + count <= heaps[i].capacity
      ensures start.None? ==> Unfit(heaps[i], count, flags)
      ensures old(heaps[i].completionEvent.None?) && !old(Unfit(heaps[i], count, flags)) ==> start.Some?
    {
      hide heaps[i].Valid;
      ReadyIs(heaps[i], gpu.completed, event);
      AllReadyLater(heaps, gpu.completed, gpu.completed, event, event);
      ghost var before := gpu.completed;
      start := heaps[i].TryAllocDescriptors(gpu, count, event, flags);
      forall k | 0 <= k < |heaps| ensures Ready(heaps[k], gpu.completed, event) {
        if k != i {
          heaps[k].ValidLater(before, gpu.completed);
        }
      }
    }

    lemma ReadyIs(heap: DmlDescriptorHeap, completed: nat, event: nat)
      requires Ready(heap, completed, event)
      ensures heap.Valid(completed) && (heap.completionEvent.Some? ==> heap.completionEvent.value <= event)
    {
    }

    /** From the first heap with room, or from a new one made large enough: it always succeeds. */
    method AllocDescriptors(count: nat, event: nat, flags: int) returns (heap: DmlDescriptorHeap, start: nat)
      requires Valid() && event >= lastEvent
      modifies this`heaps, this`lastEvent, heaps, gpu`completed
      ensures Valid() && gpu.completed >= old(gpu.completed) && lastEvent == event
      ensures old(heaps) <= heaps && heap in heaps && heap.flags == flags && start + count <= heap.capacity
      ensures heap in old(heaps) ==>
        heaps == old(heaps) && heap.ranges == old(heap.ranges) + [Range(start, count, event)]
      ensures heap !in old(heaps) ==>
        fresh(heap) && heaps == old(heaps) + [heap] && heap.ranges == [Range(start, count, event)]
      ensures forall h :: h in old(heaps) && h != heap ==> h.ranges == old(h.ranges)
      ensures forall k :: 0 <= k < |old(heaps)| && heap !in old(heaps)[..k + 1] ==> Unfit(old(heaps)[k], count, flags)
      ensures heap !in old(heaps) ==>
        heap.capacity == if count > initialHeapCapacity then count else initialHeapCapacity
    {
      hide Distinct, AllReady, Unfit;
      AllReadyLater(heaps, gpu.completed, gpu.completed, lastEvent, event);
      lastEvent := event;
      for i := 0 to |heaps|
        invariant gpu.Valid() && heaps == old(heaps) && gpu.completed >= old(gpu.completed)
          && AllReady(heaps, gpu.completed, event)
        invariant forall h :: h in heaps ==> h.ranges == old(h.ranges)
        invariant forall k :: 0 <= k < i ==> Unfit(heaps[k], count, flags)
        modifies heaps, gpu`completed
      {
        var found := TryHeap(i, count, event, flags);
        if found.Some? {
          return heaps[i], found.value;
        }
      }
      heap := CreateHeap(if count > initialHeapCapacity then count else initialHeapCapacity, flags);
      NewFits(heap, count, flags);
      var found := TryHeap(|heaps| - 1, count, event, flags);
      start := found.value;
    }

    lemma NewFits(heap: DmlDescriptorHeap, count: nat, flags: int)
      requires heap.size == 0 && heap.flags == flags && count <= heap.capacity
      ensures !Unfit(heap, count, flags)
    {
    }

    method CreateHeap(capacity: nat, flags: int) returns (heap: DmlDescriptorHeap)
      requires Distinct(heaps) && AllReady(heaps, gpu.completed, lastEvent)
      modifies this`heaps
      ensures fresh(heap) && heaps == old(heaps) + [heap] && Distinct(heaps)
        && AllReady(heaps, gpu.completed, lastEvent)
      ensures heap.capacity == capacity && heap.flags == flags && heap.size == 0 && heap.completionEvent == None
        && heap.ranges == []
    {
      hide heap.Valid;
      heap := new DmlDescriptorHeap(capacity, flags);
      heap.ValidLater(0, gpu.completed);
      heaps := heaps + [heap];
    }

    /** The heaps of the first i that wait for the device. */
    ghost predicate Waiting(kept: seq<DmlDescriptorHeap>, i: nat, start: nat)
      reads heaps, this
    {
      i <= |heaps| && forall k :: 0 <= k < |kept| ==>
        kept[k] in heaps[..i] && kept[k].completionEvent.Some? && kept[k].completionEvent.value > start
    }

    /** The others of the first i are no longer in use. */
    ghost predicate Released(kept: seq<DmlDescriptorHeap>, i: nat, completed: nat)
      reads heaps, this
    {
      i <= |heaps| && forall k :: 0 <= k < i && heaps[k] !in kept ==> AllSignaled(heaps[k].ranges, completed)
    }

    /** The removal test; it reads the fence. */
    method IsPending(heap: DmlDescriptorHeap) returns (pending: bool)
      requires gpu.Valid() && heap.Valid(gpu.completed)
      modifies gpu`completed
      ensures gpu.Valid() && gpu.completed >= old(gpu.completed)
      ensures pending ==> heap.completionEvent.Some? && heap.completionEvent.value > old(gpu.completed)
      ensures !pending ==> AllSignaled(heap.ranges, gpu.completed)
    {
      if heap.completionEvent.None? {
        return false;
      }
      var value := gpu.Poll();
      pending := heap.completionEvent.value > value;
    }

    lemma Progress(kept: seq<DmlDescriptorHeap>, i: nat, start: nat, before: nat, after: nat, pending: bool)
      requires i < |heaps| && Waiting(kept, i, start) && Released(kept, i, before) && Distinct(heaps) && Distinct(kept)
        && before <= after
      requires if pending then heaps[i].completionEvent.Some? && heaps[i].completionEvent.value > start
        else AllSignaled(heaps[i].ranges, after)
      ensures var now := if pending then kept + [heaps[i]] else kept;
        Waiting(now, i + 1, start) && Released(now, i + 1, after) && Distinct(now)
    {
      var now := if pending then kept + [heaps[i]] else kept;
      forall k | 0 <= k < |kept| ensures kept[k] in heaps[..i + 1] && kept[k] != heaps[i] {
        assert kept[k] in heaps[..i];
        var j :| 0 <= j < i && heaps[..i][j] == kept[k];
        assert heaps[..i + 1][j] == kept[k];
      }
      assert heaps[..i + 1][i] == heaps[i];
      forall k | 0 <= k < i + 1 && heaps[k] !in now ensures AllSignaled(heaps[k].ranges, after) {
        assert k < i ==> heaps[k] !in kept;
      }
    }

    /** Removes the heaps that are not pending execution. */
    method Trim()
      requires Valid()
      modifies this`heaps, gpu`completed
      ensures Valid() && gpu.completed >= old(gpu.completed)
      ensures forall h :: h in heaps ==>
        h in old(heaps) && h.completionEvent.Some? && h.completionEvent.value > old(gpu.completed)
      ensures forall h :: h in old(heaps) && h !in heaps ==> AllSignaled(h.ranges, gpu.completed)
      ensures Subsequence(heaps, old(heaps))
    {
      hide *;
      ValidIs();
      var kept: seq<DmlDescriptorHeap> := [];
      ghost var start := gpu.completed;
      NoneKept(start);
      SubsequenceNone(heaps[..0]);
      for i := 0 to |heaps|
        invariant gpu.Valid() && gpu.completed >= start && AllReady(heaps, gpu.completed, lastEvent)
        invariant Waiting(kept, i, start) && Released(kept, i, gpu.completed) && Distinct(kept)
        invariant Subsequence(kept, heaps[..i])
        modifies gpu`completed
      {
        ghost var before := gpu.completed;
        HeapReady(i, gpu.completed);
        var pending := IsPending(heaps[i]);
        AllReadyLater(heaps, before, gpu.completed, lastEvent, lastEvent);
        Progress(kept, i, start, before, gpu.completed, pending);
        SubsequenceMore(kept, heaps, i);
        if pending {
          kept := kept + [heaps[i]];
        }
      }
      KeptReady(kept, start, gpu.completed);
      SubsequenceNone(heaps);
      heaps := kept;
      ValidIs();
    }

    lemma ValidIs()
      ensures Valid() <==> gpu.Valid() && Distinct(heaps) && AllReady(heaps, gpu.completed, lastEvent)
    {
    }

    lemma NoneKept(start: nat)
      ensures Waiting([], 0, start) && Released([], 0, start) && Distinct([])
    {
    }

    lemma HeapReady(i: nat, completed: nat)
      requires i < |heaps| && AllReady(heaps, completed, lastEvent)
      ensures heaps[i].Valid(completed)
    {
    }

    lemma KeptReady(kept: seq<DmlDescriptorHeap>, start: nat, completed: nat)
      requires Waiting(kept, |heaps|, start) && Released(kept, |heaps|, completed)
        && AllReady(heaps, completed, lastEvent)
      ensures AllReady(kept, completed, lastEvent)
      ensures forall h :: h in kept ==> h in heaps && h.completionEvent.Some? && h.completionEvent.value > start
      ensures forall h :: h in heaps && h !in kept ==> AllSignaled(h.ranges, completed)
    {
      assert heaps[..|heaps|] == heaps;
      forall k | 0 <= k < |kept| ensures Ready(kept[k], completed, lastEvent) {
        assert kept[k] in heaps[..|heaps|] && kept[k] in heaps;
        var j :| 0 <= j < |heaps| && heaps[j] == kept[k];
        assert Ready(heaps[j], completed, lastEvent);
      }
    }
  }
}
