/** The pooled upload heap: chunks used as ring buffers, reclaimed by fence. */
module UploadHeap {
  import opened Device
  import opened ExecutionContext

  datatype Allocation = Allocation(size: nat, offset: nat, fence: nat)

  datatype Chunk = Chunk(capacity: nat, resource: nat, allocations: seq<Allocation>)

  const WORD: nat := 0x1_0000_0000_0000_0000  // size_t arithmetic is modulo 2^64
  const ALIGNMENT: nat := 512
  const MIN_CHUNK_SIZE: nat := 1024 * 1024
  const LIMIT: nat := WORD - ALIGNMENT

  function End(a: Allocation): nat { a.offset + a.size }

  // ----- alignment -----

  /** The next multiple of 512, computed on machine words. */
  function Align(offset: nat): (r: nat)
    ensures Aligned(r)
  {
    var sum := (offset + ALIGNMENT - 1) % WORD;
    sum - sum % ALIGNMENT
  }

  /** Align rounds up to the least multiple exactly when rounding stays inside the machine word. */
  lemma AlignRoundsUpIff(offset: nat)
    requires offset < WORD
    ensures Align(offset) % 512 == 0
    ensures (offset <= Align(offset) < offset + 512) <==> offset <= 0x1_0000_0000_0000_0000 - 512
    ensures offset > 0x1_0000_0000_0000_0000 - 512 ==> Align(offset) == 0
  {
  }

  lemma AlignIsLeast(offset: nat, other: nat)
    requires offset <= LIMIT && Aligned(other) && offset <= other
    ensures Align(offset) <= other
  {
    AlignRoundsUpIff(offset);
    assert Align(offset) / ALIGNMENT <= other / ALIGNMENT;
  }

  // ----- rings -----

  /** Each allocation ends before the next begins. */
  predicate Ascending(a: seq<Allocation>) {
    forall i, j :: 0 <= i < j < |a| ==> End(a[i]) <= a[j].offset
  }

  /** Two ascending runs in order of age: from place k on the ring has wrapped and lies below the older run. */
  predicate TwoRuns(a: seq<Allocation>, k: int) {
    && 0 <= k <= |a| && Ascending(a[..k]) && Ascending(a[k..])
    && forall i, j :: 0 <= i < k <= j < |a| ==> End(a[j]) <= a[i].offset
  }

  predicate Aligned(offset: nat) { offset % ALIGNMENT == 0 }

  predicate Placed(a: Allocation, capacity: nat) {
    a.size > 0 && Aligned(a.offset) && End(a) <= capacity
  }

  ghost predicate Ring(a: seq<Allocation>, capacity: nat) {
    && (forall i :: 0 <= i < |a| ==> Placed(a[i], capacity))
    && exists k :: TwoRuns(a, k)
  }

  predicate Oldest(a: seq<Allocation>) {
    forall i, j :: 0 <= i < j < |a| ==> a[i].fence <= a[j].fence
  }

  predicate Apart(a: Allocation, b: Allocation) {
    End(a) <= b.offset || End(b) <= a.offset
  }

  /** The allocations of a ring never overlap. */
  lemma RingApart(a: seq<Allocation>, capacity: nat, i: nat, j: nat)
    requires Ring(a, capacity) && i < j < |a|
    ensures Apart(a[i], a[j])
  {
    var k :| TwoRuns(a, k);
    if j < k {
      assert a[..k][i] == a[i] && a[..k][j] == a[j];
    } else if i >= k {
      assert a[k..][i - k] == a[i] && a[k..][j - k] == a[j];
    }
  }

  lemma SuffixRing(a: seq<Allocation>, capacity: nat, n: nat)
    requires Ring(a, capacity) && n <= |a|
    ensures Ring(a[n..], capacity)
  {
    var k :| TwoRuns(a, k);
    if k <= n {
      assert a[n..][..0] == [] && a[n..][0..] == a[k..][n - k..];
      assert TwoRuns(a[n..], 0);
    } else {
      assert a[n..][..k - n] == a[..k][n..] && a[n..][k - n..] == a[k..];
      assert TwoRuns(a[n..], k - n);
    }
  }

  // ----- finding room -----

  /** FindOffsetForAllocation, on machine words. */
  function FindOffsetForAllocation(chunk: Chunk, size: nat): (r: Option<nat>)
    requires size > 0
  {
    var a := chunk.allocations;
    if chunk.capacity < size then None
    else if a == [] then Some(0)
    else
      var (first, last) := (a[0], a[|a| - 1]);
      var begin := Align(End(last) % WORD);
      if (begin + size) % WORD < begin then None
      else if first.offset <= last.offset then
        if (begin + size) % WORD <= chunk.capacity then Some(begin)
        else if size % WORD <= first.offset then Some(0)
        else None
      else if (begin + size) % WORD <= first.offset then Some(begin)
      else None
  }

  predicate AllPlaced(a: seq<Allocation>, capacity: nat) {
    forall i :: 0 <= i < |a| ==> Placed(a[i], capacity)
  }

  /** A ring whose oldest allocation is not above its newest has not wrapped; otherwise it has. */
  lemma WrappedIff(a: seq<Allocation>, capacity: nat, k: int)
    requires AllPlaced(a, capacity) && TwoRuns(a, k) && a != []
    ensures a[0].offset <= a[|a| - 1].offset ==> Ascending(a)
    ensures a[0].offset > a[|a| - 1].offset ==> 0 < k < |a|
  {
    assert a[..|a|] == a && a[0..] == a;
    assert 0 < k < |a| ==> End(a[|a| - 1]) <= a[0].offset;
  }

  lemma AscendingMore(a: seq<Allocation>, x: Allocation)
    requires Ascending(a) && a != [] && End(a[|a| - 1]) <= x.offset
    ensures Ascending(a + [x])
  {
    forall i, j | 0 <= i < j < |a| + 1 ensures End((a + [x])[i]) <= (a + [x])[j].offset {
      if j == |a| {
        assert i < |a| - 1 ==> End(a[i]) <= a[|a| - 1].offset;
      }
    }
  }

  lemma BelowAll(a: seq<Allocation>, x: Allocation)
    requires Ascending(a) && a != [] && End(x) <= a[0].offset
    ensures forall i :: 0 <= i < |a| ==> End(x) <= a[i].offset
  {
    forall i | 0 <= i < |a| ensures End(x) <= a[i].offset {
      assert i > 0 ==> End(a[0]) <= a[i].offset;
    }
  }

  /** Room for one more: above the newest, and below the oldest once the ring has wrapped or is to wrap now. */
  predicate Room(a: seq<Allocation>, x: Allocation)
    requires a != []
  {
    var (first, last) := (a[0], a[|a| - 1]);
    if first.offset <= last.offset then End(last) <= x.offset || End(x) <= first.offset
    else End(last) <= x.offset && End(x) <= first.offset
  }

  lemma RoomMakesRing(a: seq<Allocation>, capacity: nat, x: Allocation)
    requires Ring(a, capacity) && a != [] && Placed(x, capacity) && Room(a, x)
    ensures Ring(a + [x], capacity)
  {
    hide Aligned;
    var k :| TwoRuns(a, k);
    WrappedIff(a, capacity, k);
    if a[0].offset <= a[|a| - 1].offset {
      RoomInOneRun(a, x);
    } else {
      RoomInTwoRuns(a, x, k);
    }
  }

  lemma RoomInOneRun(a: seq<Allocation>, x: Allocation)
    requires Ascending(a) && a != [] && (End(a[|a| - 1]) <= x.offset || End(x) <= a[0].offset)
    ensures exists k :: TwoRuns(a + [x], k)
  {
    var b := a + [x];
    assert b[..|a|] == a && b[|a|..] == [x] && b[..|b|] == b && b[|b|..] == [];
    if End(a[|a| - 1]) <= x.offset {
      AscendingMore(a, x);
      assert TwoRuns(b, |b|);
    } else {
      BelowAll(a, x);
      assert TwoRuns(b, |a|);
    }
  }

  lemma RoomInTwoRuns(a: seq<Allocation>, x: Allocation, k: int)
    requires TwoRuns(a, k) && 0 < k < |a| && End(a[|a| - 1]) <= x.offset && End(x) <= a[0].offset
    ensures TwoRuns(a + [x], k)
  {
    var b := a + [x];
    AscendingMore(a[k..], x);
    BelowAll(a[..k], x);
    assert b[..k] == a[..k] && b[k..] == a[k..] + [x];
    forall i, j | 0 <= i < k <= j < |b| ensures End(b[j]) <= b[i].offset {
      assert a[..k][i] == a[i];
    }
  }

  lemma RingLeavesRoom(a: seq<Allocation>, capacity: nat, x: Allocation)
    requires Ring(a, capacity) && a != [] && Ring(a + [x], capacity)
    ensures Placed(x, capacity) && Room(a, x)
  {
    hide Aligned;
    assert (a + [x])[|a|] == x;
    assert forall i :: 0 <= i < |a| ==> (a + [x])[i] == a[i];
    var m :| TwoRuns(a + [x], m);
    if m == 0 || m == |a| + 1 {
      RoomAfter(a, x, m);
    } else if m == |a| {
      RoomBelow(a, x);
    } else {
      RoomBetween(a, x, m);
    }
  }

  lemma RoomAfter(a: seq<Allocation>, x: Allocation, m: int)
    requires a != [] && TwoRuns(a + [x], m) && (m == 0 || m == |a| + 1)
    ensures a[0].offset <= a[|a| - 1].offset && End(a[|a| - 1]) <= x.offset
  {
    var b := a + [x];
    assert b[..|b|] == b && b[0..] == b && Ascending(b);
    assert b[|a|] == x && b[0] == a[0] && b[|a| - 1] == a[|a| - 1];
    assert End(b[|a| - 1]) <= b[|a|].offset;
    assert |a| > 1 ==> End(b[0]) <= b[|a| - 1].offset;
  }

  lemma RoomBelow(a: seq<Allocation>, x: Allocation)
    requires a != [] && TwoRuns(a + [x], |a|)
    ensures a[0].offset <= a[|a| - 1].offset && End(x) <= a[0].offset
  {
    var b := a + [x];
    assert b[..|a|] == a && b[|a|] == x && b[0] == a[0];
    assert |a| > 1 ==> End(a[0]) <= a[|a| - 1].offset;
    assert End(b[|a|]) <= b[0].offset;
  }

  lemma RoomBetween(a: seq<Allocation>, x: Allocation, m: int)
    requires 0 < m < |a| && TwoRuns(a + [x], m)
    ensures End(a[|a| - 1]) <= x.offset && End(x) <= a[0].offset && End(a[|a| - 1]) <= a[0].offset
  {
    var b := a + [x];
    assert b[|a|] == x && b[0] == a[0] && b[|a| - 1] == a[|a| - 1];
    assert b[m..][|a| - 1 - m] == b[|a| - 1] && b[m..][|a| - m] == b[|a|];
    assert End(b[|a| - 1]) <= b[0].offset && End(b[|a|]) <= b[0].offset;
  }

  /** A chunk's allocations are a ring, oldest first. */
  ghost predicate Sound(c: Chunk) {
    Ring(c.allocations, c.capacity) && Oldest(c.allocations) && c.capacity <= LIMIT
  }

  lemma AlignInside(offset: nat)
    requires offset <= LIMIT
    ensures offset <= Align(offset) <= LIMIT
  {
    AlignRoundsUpIff(offset);
    AlignIsLeast(offset, LIMIT);
  }

  /** Whatever FindOffsetForAllocation returns is a place where the ring can grow. */
  lemma FoundFits(c: Chunk, size: nat, fence: nat)
    requires Sound(c) && 0 < size < WORD && FindOffsetForAllocation(c, size).Some?
    ensures Placed(Allocation(size, FindOffsetForAllocation(c, size).value, fence), c.capacity)
    ensures FindOffsetForAllocation(c, size).value % 512 == 0
      && FindOffsetForAllocation(c, size).value + size <= c.capacity
    ensures Ring(c.allocations + [Allocation(size, FindOffsetForAllocation(c, size).value, fence)], c.capacity)
  {
    var a, x := c.allocations, Allocation(size, FindOffsetForAllocation(c, size).value, fence);
    if a == [] {
      assert a + [x] == [x] && [x][..1] == [x] && [x][1..] == [];
      assert TwoRuns([x], 1);
    } else {
      assert Placed(a[0], c.capacity) && Placed(a[|a| - 1], c.capacity);
      FoundHasRoom(c, size, fence);
      RoomMakesRing(a, c.capacity, x);
    }
  }

  lemma FoundHasRoom(c: Chunk, size: nat, fence: nat)
    requires c.allocations != [] && 0 < size < WORD && c.capacity <= LIMIT && FindOffsetForAllocation(c, size).Some?
    requires Placed(c.allocations[0], c.capacity) && Placed(c.allocations[|c.allocations| - 1], c.capacity)
    ensures var x := Allocation(size, FindOffsetForAllocation(c, size).value, fence);
      Placed(x, c.capacity) && Room(c.allocations, x)
  {
    hide Align;
    AlignInside(End(c.allocations[|c.allocations| - 1]));
    WordSum(Align(End(c.allocations[|c.allocations| - 1])), size);
  }

  /** The place is the first aligned one behind the newest allocation, or the start of the chunk where no aligned place
      behind the newest has room. */
  lemma FoundIsNext(c: Chunk, size: nat)
    requires Sound(c) && c.allocations != [] && 0 < size < WORD && FindOffsetForAllocation(c, size).Some?
    ensures var r, first, last := FindOffsetForAllocation(c, size).value, c.allocations[0],
        c.allocations[|c.allocations| - 1];
      || (r % 512 == 0 && last.offset + last.size <= r < last.offset + last.size + 512)
      || (r == 0 && first.offset <= last.offset
          && forall x: nat :: x % 512 == 0 && x >= last.offset + last.size ==> x + size > c.capacity)
  {
    hide Align;
    var end := End(c.allocations[|c.allocations| - 1]);
    AlignInside(end);
    AlignRoundsUpIff(end);
    WordSum(Align(end), size);
    forall x: nat | x % 512 == 0 && x >= end && x + size <= c.capacity ensures Align(end) <= x {
      AlignIsLeast(end, x);
    }
  }

  /** A sum of two words has wrapped exactly when it is below either. */
  lemma WordSum(a: nat, b: nat)
    requires a < WORD && b < WORD
    ensures (a + b) % WORD == if a + b < WORD then a + b else a + b - WORD
    ensures (a + b) % WORD < a <==> a + b >= WORD
    ensures a % WORD == a && b % WORD == b && 0 % ALIGNMENT == 0
  {
  }

  /** Some place in the chunk would leave the ring a ring. */
  ghost predicate HasRoom(c: Chunk, size: nat) {
    exists x: Allocation :: x.size == size && Ring(c.allocations + [x], c.capacity)
  }

  /** The overflow test fires on the space behind the newest allocation, although the front of the chunk is free. */
  predicate GivesUpEarly(c: Chunk, size: nat) {
    && c.allocations != [] && c.allocations[0].offset <= c.allocations[|c.allocations| - 1].offset
    && size <= c.allocations[0].offset && Align(End(c.allocations[|c.allocations| - 1])) + size >= WORD
  }

  /** A place is found exactly when there is one, unless the overflow test gives up early. */
  lemma FoundIffRoom(c: Chunk, size: nat)
    requires Sound(c) && 0 < size < WORD
    ensures FindOffsetForAllocation(c, size).Some? <==> HasRoom(c, size) && !GivesUpEarly(c, size)
  {
    hide FindOffsetForAllocation, Ring, Align, GivesUpEarly;
    if GivesUpEarly(c, size) {
      GivesUpFindsNothing(c, size);
    } else if FindOffsetForAllocation(c, size).Some? {
      FoundFits(c, size, 0);
      var x := Allocation(size, FindOffsetForAllocation(c, size).value, 0);
      assert x.size == size && Ring(c.allocations + [x], c.capacity);
    } else if HasRoom(c, size) {
      var x: Allocation :| x.size == size && Ring(c.allocations + [x], c.capacity);
      RoomIsFound(c, size, x);
    }
  }

  lemma GivesUpFindsNothing(c: Chunk, size: nat)
    requires Sound(c) && 0 < size < WORD && GivesUpEarly(c, size)
    ensures FindOffsetForAllocation(c, size).None? && HasRoom(c, size)
  {
    hide Align;
    var a := c.allocations;
    var last := a[|a| - 1];
    assert Placed(a[0], c.capacity) && Placed(last, c.capacity);
    AlignInside(End(last));
    WordSum(Align(End(last)), size);
    var x := Allocation(size, 0, 0);
    RoomMakesRing(a, c.capacity, x);
    assert x.size == size;
  }

  lemma RoomIsFound(c: Chunk, size: nat, x: Allocation)
    requires Sound(c) && 0 < size < WORD && x.size == size && Ring(c.allocations + [x], c.capacity)
      && !GivesUpEarly(c, size)
    ensures FindOffsetForAllocation(c, size).Some?
  {
    hide Align, Ring;
    var a := c.allocations;
    if a == [] {
      FirstPlaced(a, c.capacity, x);
    } else {
      RingLeavesRoom(a, c.capacity, x);
      EndsPlaced(a, c.capacity);
      PlaceIsFound(c, size, x);
    }
  }

  lemma FirstPlaced(a: seq<Allocation>, capacity: nat, x: Allocation)
    requires Ring(a + [x], capacity)
    ensures Placed(x, capacity)
  {
    assert (a + [x])[|a|] == x;
  }

  lemma EndsPlaced(a: seq<Allocation>, capacity: nat)
    requires Ring(a, capacity) && a != []
    ensures Placed(a[0], capacity) && Placed(a[|a| - 1], capacity)
  {
  }

  lemma PlaceIsFound(c: Chunk, size: nat, x: Allocation)
    requires c.allocations != [] && c.capacity <= LIMIT && 0 < size < WORD && x.size == size && !GivesUpEarly(c, size)
    requires Placed(c.allocations[0], c.capacity) && Placed(c.allocations[|c.allocations| - 1], c.capacity)
    requires Placed(x, c.capacity) && Room(c.allocations, x)
    ensures FindOffsetForAllocation(c, size).Some?
  {
    hide Align;
    var last := c.allocations[|c.allocations| - 1];
    AlignInside(End(last));
    WordSum(Align(End(last)), size);
    if End(last) <= x.offset {
      AlignIsLeast(End(last), x.offset);
    }
  }

  /** The search misses no room in any chunk of this capacity. */
  ghost predicate Complete(capacity: nat) {
    forall c: Chunk, size: nat ::
      Sound(c) && c.capacity == capacity && 0 < size < WORD && HasRoom(c, size) ==>
        FindOffsetForAllocation(c, size).Some?
  }

  /** "Nothing returned means no room" holds of exactly the chunks of at most 2^63 bytes. */
  lemma CompleteIff(capacity: nat)
    requires capacity <= LIMIT
    ensures Complete(capacity) <==> capacity <= 0x8000_0000_0000_0000
  {
    hide FindOffsetForAllocation, Ring, Align, GivesUpEarly, Sound;
    if capacity <= WORD / 2 {
      forall c: Chunk, size: nat | Sound(c) && c.capacity == capacity && 0 < size < WORD && HasRoom(c, size)
        ensures FindOffsetForAllocation(c, size).Some?
      {
        FoundIffRoom(c, size);
        SmallNeverGivesUp(c, size);
      }
    } else {
      var c := OneByteInTheMiddle(capacity);
      MiddleGivesUp(capacity);
      FoundIffRoom(c, WORD / 2);
      GivesUpFindsNothing(c, WORD / 2);
    }
  }

  lemma SmallNeverGivesUp(c: Chunk, size: nat)
    requires Sound(c) && c.capacity <= WORD / 2
    ensures !GivesUpEarly(c, size)
  {
    hide Align;
    var a := c.allocations;
    if a != [] {
      assert Placed(a[0], c.capacity) && Placed(a[|a| - 1], c.capacity);
      AlignIsLeast(End(a[|a| - 1]), WORD / 2);
    }
  }

  /** In a chunk of more than 2^63 bytes, one byte at 2^63 hides the free front from a request for 2^63 bytes. */
  function OneByteInTheMiddle(capacity: nat): Chunk {
    Chunk(capacity, 0, [Allocation(1, WORD / 2, 0)])
  }

  lemma MiddleGivesUp(capacity: nat)
    requires WORD / 2 < capacity <= LIMIT
    ensures Sound(OneByteInTheMiddle(capacity)) && GivesUpEarly(OneByteInTheMiddle(capacity), WORD / 2)
  {
    hide Align;
    var a := OneByteInTheMiddle(capacity).allocations;
    assert a[..1] == a && a[1..] == [] && TwoRuns(a, 1);
    AlignInside(WORD / 2 + 1);
  }

  // ----- the pool -----

  function Sum(chunks: seq<Chunk>): nat {
    if chunks == [] then 0 else Sum(chunks[..|chunks| - 1]) + chunks[|chunks| - 1].capacity
  }

  lemma {:induction false} SumBounds(chunks: seq<Chunk>, i: nat)
    requires i < |chunks|
    ensures chunks[i].capacity <= Sum(chunks)
  {
    if i < |chunks| - 1 {
      SumBounds(chunks[..|chunks| - 1], i);
    }
  }

  lemma SumMore(chunks: seq<Chunk>, c: Chunk)
    ensures Sum(chunks + [c]) == Sum(chunks) + c.capacity
  {
    assert (chunks + [c])[..|chunks|] == chunks;
  }

  /** Only capacities matter for the sum. */
  lemma {:induction false} SumSame(a: seq<Chunk>, b: seq<Chunk>)
    requires |a| == |b| && forall i :: 0 <= i < |a| ==> a[i].capacity == b[i].capacity
    ensures Sum(a) == Sum(b)
  {
    if a != [] {
      SumSame(a[..|a| - 1], b[..|b| - 1]);
    }
  }

  /** Ascending by capacity. */
  predicate Sorted(chunks: seq<Chunk>) {
    forall i, j :: 0 <= i < j < |chunks| ==> chunks[i].capacity <= chunks[j].capacity
  }

  predicate Distinct(chunks: seq<Chunk>) {
    forall i, j :: 0 <= i < j < |chunks| ==> chunks[i].resource != chunks[j].resource
  }

  ghost predicate AllSound(chunks: seq<Chunk>) {
    forall i :: 0 <= i < |chunks| ==> Sound(chunks[i])
  }

  /** What is left of a history in a chunk: everything but a prefix the device has finished with. */
  predicate Held(history: seq<Allocation>, held: seq<Allocation>, completed: nat) {
    && |held| <= |history| && held == history[|history| - |held|..]
    && forall i :: 0 <= i < |history| - |held| ==> history[i].fence <= completed
  }

  /** Every allocation ever made from a resource is still in its chunk, unless the device has finished with it. */
  ghost predicate Tracked(history: map<nat, seq<Allocation>>, chunks: seq<Chunk>, completed: nat) {
    && (forall i :: 0 <= i < |chunks| ==>
      chunks[i].resource in history && Held(history[chunks[i].resource], chunks[i].allocations, completed))
    && (forall r :: r in history ==> Owned(chunks, r) || Held(history[r], [], completed))
  }

  ghost predicate Owned(chunks: seq<Chunk>, resource: nat) {
    exists i :: 0 <= i < |chunks| && chunks[i].resource == resource
  }

  /** One chunk after a reclaim: the front of its list is gone as far as the device has finished with it. */
  predicate Reclaimed(c: Chunk, d: Chunk, before: nat, after: nat) {
    && d.capacity == c.capacity && d.resource == c.resource && Held(c.allocations, d.allocations, after)
    && (d.allocations == [] || d.allocations[0].fence > before)
  }

  lemma ReclaimedSound(c: Chunk, d: Chunk, before: nat, after: nat)
    requires Sound(c) && Reclaimed(c, d, before, after)
    ensures Sound(d)
  {
    SuffixRing(c.allocations, c.capacity, |c.allocations| - |d.allocations|);
  }

  lemma HeldLess(history: seq<Allocation>, held: seq<Allocation>, less: seq<Allocation>, before: nat, after: nat)
    requires Held(history, held, before) && Held(held, less, after) && before <= after
    ensures Held(history, less, after)
  {
    var n, m := |history| - |held|, |held| - |less|;
    forall i | 0 <= i < n + m ensures history[i].fence <= after {
      assert i >= n ==> history[i] == held[i - n];
    }
  }

  predicate Before(c: Chunk, lastFence: nat) {
    forall k :: 0 <= k < |c.allocations| ==> c.allocations[k].fence <= lastFence
  }

  predicate AllBefore(chunks: seq<Chunk>, lastFence: nat) {
    forall i :: 0 <= i < |chunks| ==> Before(chunks[i], lastFence)
  }

  /** The pool's invariants: every chunk a ring of ascending fences, chunks ascending by capacity,
      the total their sum. */
  ghost predicate Pooled(chunks: seq<Chunk>, totalCapacity: nat, lastFence: nat) {
    AllSound(chunks) && Sorted(chunks) && Distinct(chunks) && totalCapacity == Sum(chunks) <= LIMIT
      && AllBefore(chunks, lastFence)
  }

  predicate AllReclaimed(was: seq<Chunk>, now: seq<Chunk>, before: nat, after: nat) {
    |now| == |was| && forall i :: 0 <= i < |was| ==> Reclaimed(was[i], now[i], before, after)
  }

  lemma ReclaimKeepsPool(was: seq<Chunk>, now: seq<Chunk>, totalCapacity: nat, lastFence: nat, before: nat, after: nat)
    requires Pooled(was, totalCapacity, lastFence) && AllReclaimed(was, now, before, after)
    ensures Pooled(now, totalCapacity, lastFence)
  {
    hide Sound, Held, Before;
    SumSame(was, now);
    forall i | 0 <= i < |was| ensures Sound(now[i]) && Before(now[i], lastFence) {
      ReclaimedSound(was[i], now[i], before, after);
      ReclaimedBefore(was[i], now[i], lastFence, before, after);
    }
  }

  /** Once the device has finished with every allocation, reclaiming empties every chunk. */
  lemma FinishedReclaimed(was: seq<Chunk>, now: seq<Chunk>, before: nat, after: nat)
    requires AllBefore(was, before) && AllReclaimed(was, now, before, after)
    ensures AllEmpty(now)
  {
    hide AllBefore;
    forall i | 0 <= i < |now| ensures now[i].allocations == [] {
      FinishedChunk(was, before, i);
      NothingHeld(was[i], now[i], before, after);
    }
  }

  lemma NothingHeld(c: Chunk, d: Chunk, before: nat, after: nat)
    requires Before(c, before) && Reclaimed(c, d, before, after)
    ensures d.allocations == []
  {
  }

  lemma FinishedChunk(chunks: seq<Chunk>, fence: nat, i: nat)
    requires AllBefore(chunks, fence) && i < |chunks|
    ensures Before(chunks[i], fence)
  {
  }

  predicate AllEmpty(chunks: seq<Chunk>) {
    forall i :: 0 <= i < |chunks| ==> chunks[i].allocations == []
  }

  lemma EmptyIsBefore(chunks: seq<Chunk>, fence: nat)
    requires AllEmpty(chunks)
    ensures AllBefore(chunks, fence)
  {
  }

  /** The device's progress finishes no less. */
  lemma FinishedLaterOn(chunks: seq<Chunk>, before: nat, after: nat)
    requires AllBefore(chunks, before) && before <= after
    ensures AllBefore(chunks, after)
  {
  }

  /** In an empty chunk the search is complete, whatever the capacity. */
  lemma EmptyFitsIff(c: Chunk, size: nat)
    requires c.allocations == [] && size > 0
    ensures FindOffsetForAllocation(c, size) == if size <= c.capacity then Some(0) else None
  {
  }

  /** The first chunk of at least this capacity, or the end of the list. */
  predicate FirstOfCapacity(chunks: seq<Chunk>, size: nat, c: nat) {
    && c <= |chunks| && (forall k :: 0 <= k < c ==> chunks[k].capacity < size)
    && (c < |chunks| ==> chunks[c].capacity >= size)
  }

  /** An upload that found every earlier one finished: at the start of the first chunk that is large enough, or of a new
      one behind them, and the only allocation of the pool. */
  predicate UploadedAlone(was: seq<Chunk>, now: seq<Chunk>, place: (nat, nat), size: nat, fence: nat) {
    && FirstOfCapacity(was, size, place.0) && place.1 == 0
    && |now| == (if place.0 < |was| then |was| else |was| + 1)
    && forall k :: 0 <= k < |now| ==> now[k].allocations == if k == place.0 then [Allocation(size, 0, fence)] else []
  }

  /** Where Reserve finds room when every chunk is empty. */
  lemma ReservedInEmpty(was: seq<Chunk>, reclaimed: seq<Chunk>, reserved: seq<Chunk>, before: nat, after: nat,
      size: nat, place: (nat, nat))
    requires size > 0 && AllReclaimed(was, reclaimed, before, after) && AllEmpty(reclaimed)
    requires forall k :: 0 <= k < place.0 && k < |reclaimed| ==> FindOffsetForAllocation(reclaimed[k], size).None?
    requires place.0 < |reclaimed| ==>
      reserved == reclaimed && FindOffsetForAllocation(reclaimed[place.0], size) == Some(place.1)
    requires place.0 >= |reclaimed| ==>
      place == (|reclaimed|, 0) && |reserved| == |reclaimed| + 1 && reserved[..|reclaimed|] == reclaimed
      && reserved[|reclaimed|].allocations == []
    ensures FirstOfCapacity(was, size, place.0) && place.1 == 0 && AllEmpty(reserved)
    ensures |reserved| == if place.0 < |was| then |was| else |was| + 1
  {
    hide FindOffsetForAllocation, Held;
    forall k | 0 <= k < |reclaimed|
      ensures was[k].capacity == reclaimed[k].capacity
      ensures FindOffsetForAllocation(reclaimed[k], size) == if size <= reclaimed[k].capacity then Some(0) else None
    {
      assert Reclaimed(was[k], reclaimed[k], before, after);
      EmptyFitsIff(reclaimed[k], size);
    }
    forall k | 0 <= k < |reserved| ensures reserved[k].allocations == [] {
      assert k < |reclaimed| ==> reserved[k] == reserved[..|reclaimed|][k];
    }
  }

  lemma GrownAlone(was: seq<Chunk>, reserved: seq<Chunk>, place: (nat, nat), size: nat, fence: nat, completed: nat)
    requires FirstOfCapacity(was, size, place.0) && place.1 == 0 && AllEmpty(reserved) && place.0 < |reserved|
    requires |reserved| == (if place.0 < |was| then |was| else |was| + 1) && fence <= completed
    ensures UploadedAlone(was, Grown(reserved, place.0, Allocation(size, place.1, fence)), place, size, fence)
    ensures AllBefore(Grown(reserved, place.0, Allocation(size, place.1, fence)), completed)
  {
  }

  lemma {:induction false} NoneInUse(chunks: seq<Chunk>)
    requires AllEmpty(chunks)
    ensures InUse(chunks) == []
  {
    if chunks != [] {
      NoneInUse(chunks[..|chunks| - 1]);
    }
  }

  lemma ReclaimedBefore(c: Chunk, d: Chunk, lastFence: nat, before: nat, after: nat)
    requires Before(c, lastFence) && Reclaimed(c, d, before, after)
    ensures Before(d, lastFence)
  {
  }

  lemma ReclaimKeepsTrack(history: map<nat, seq<Allocation>>, was: seq<Chunk>, now: seq<Chunk>, before: nat, after: nat)
    requires Tracked(history, was, before) && AllReclaimed(was, now, before, after) && before <= after
    ensures Tracked(history, now, after)
  {
    hide Held;
    forall i | 0 <= i < |now| ensures now[i].resource in history
      && Held(history[now[i].resource], now[i].allocations, after) {
      ReclaimedHeld(history[was[i].resource], was[i], now[i], before, after);
    }
    forall r | r in history ensures Owned(now, r) || Held(history[r], [], after) {
      if Owned(was, r) {
        var i :| 0 <= i < |was| && was[i].resource == r;
        assert now[i].resource == r;
      } else {
        FinishedLater(history[r], before, after);
      }
    }
  }

  lemma ReclaimedHeld(history: seq<Allocation>, c: Chunk, d: Chunk, before: nat, after: nat)
    requires Held(history, c.allocations, before) && Reclaimed(c, d, before, after) && before <= after
    ensures Held(history, d.allocations, after)
  {
    HeldLess(history, c.allocations, d.allocations, before, after);
  }

  lemma FinishedLater(history: seq<Allocation>, before: nat, after: nat)
    requires Held(history, [], before) && before <= after
    ensures Held(history, [], after)
  {
  }

  /** Two allocations the device has not finished with are both still in the chunk. */
  lemma HeldBoth(history: seq<Allocation>, held: seq<Allocation>, completed: nat, i: nat, j: nat)
    requires Held(history, held, completed) && i < j < |history| && history[i].fence > completed
      && history[j].fence > completed
    ensures |history| - |held| <= i && held[i - (|history| - |held|)] == history[i]
      && held[j - (|history| - |held|)] == history[j]
  {
  }

  /** What the pool's invariants mean for the device: allocations it may still read never overlap, and lie
      inside their resource's chunk. */
  lemma LiveApart(history: map<nat, seq<Allocation>>, chunks: seq<Chunk>, totalCapacity: nat, lastFence: nat,
      completed: nat, resource: nat, i: nat, j: nat) returns (c: nat)
    requires Pooled(chunks, totalCapacity, lastFence) && Tracked(history, chunks, completed)
    requires resource in history && i < j < |history[resource]|
    requires history[resource][i].fence > completed && history[resource][j].fence > completed
    ensures Apart(history[resource][i], history[resource][j])
    ensures c < |chunks| && chunks[c].resource == resource
    ensures Placed(history[resource][i], chunks[c].capacity) && Placed(history[resource][j], chunks[c].capacity)
  {
    hide *;
    var h := history[resource];
    c := Owner(history, chunks, completed, resource, i);
    PooledAt(chunks, totalCapacity, lastFence, c);
    var a := chunks[c].allocations;
    HeldBoth(h, a, completed, i, j);
    RingApart(a, chunks[c].capacity, i - (|h| - |a|), j - (|h| - |a|));
    RingPlaced(a, chunks[c].capacity, i - (|h| - |a|));
    RingPlaced(a, chunks[c].capacity, j - (|h| - |a|));
  }

  lemma Owner(history: map<nat, seq<Allocation>>, chunks: seq<Chunk>, completed: nat, resource: nat, i: nat)
      returns (c: nat)
    requires Tracked(history, chunks, completed) && resource in history && i < |history[resource]|
      && history[resource][i].fence > completed
    ensures c < |chunks| && chunks[c].resource == resource && Held(history[resource], chunks[c].allocations, completed)
  {
    assert !Held(history[resource], [], completed);
    c :| 0 <= c < |chunks| && chunks[c].resource == resource;
  }

  lemma PooledAt(chunks: seq<Chunk>, totalCapacity: nat, lastFence: nat, c: nat)
    requires Pooled(chunks, totalCapacity, lastFence) && c < |chunks|
    ensures Sound(chunks[c]) && Ring(chunks[c].allocations, chunks[c].capacity) && Before(chunks[c], lastFence)
  {
  }

  lemma RingPlaced(a: seq<Allocation>, capacity: nat, i: nat)
    requires Ring(a, capacity) && i < |a|
    ensures Placed(a[i], capacity)
  {
  }

  // ----- growing -----

  lemma NewChunkKeepsPool(chunks: seq<Chunk>, totalCapacity: nat, lastFence: nat, c: Chunk)
    requires Pooled(chunks, totalCapacity, lastFence) && c.allocations == [] && c.capacity >= totalCapacity
    requires totalCapacity + c.capacity <= LIMIT && forall i :: 0 <= i < |chunks| ==> chunks[i].resource != c.resource
    ensures Pooled(chunks + [c], totalCapacity + c.capacity, lastFence)
  {
    hide Sound, Sum;
    SumMore(chunks, c);
    EmptySound(c);
    forall i | 0 <= i < |chunks| ensures chunks[i].capacity <= c.capacity { SumBounds(chunks, i); }
  }

  lemma EmptySound(c: Chunk)
    requires c.allocations == [] && c.capacity <= LIMIT
    ensures Sound(c)
  {
    assert TwoRuns([], 0);
  }

  lemma NewChunkKeepsTrack(history: map<nat, seq<Allocation>>, chunks: seq<Chunk>, completed: nat, c: Chunk)
    requires Tracked(history, chunks, completed) && c.allocations == [] && c.resource !in history
    ensures Tracked(history[c.resource := []], chunks + [c], completed)
  {
    var now := chunks + [c];
    forall r | r in history[c.resource := []] ensures Owned(now, r)
      || Held(history[c.resource := []][r], [], completed) {
      if r == c.resource {
        assert now[|chunks|].resource == r;
      } else if Owned(chunks, r) {
        var i :| 0 <= i < |chunks| && chunks[i].resource == r;
        assert now[i].resource == r;
      }
    }
  }

  lemma Alone(x: Allocation)
    ensures exists k :: TwoRuns([x], k)
  {
    assert [x][..1] == [x] && [x][1..] == [];
    assert TwoRuns([x], 1);
  }

  /** A new allocation at the end of chunk c's list. */
  function Grown(chunks: seq<Chunk>, c: nat, x: Allocation): seq<Chunk>
    requires c < |chunks|
  {
    chunks[c := chunks[c].(allocations := chunks[c].allocations + [x])]
  }

  lemma PushKeepsPool(chunks: seq<Chunk>, totalCapacity: nat, lastFence: nat, c: nat, x: Allocation)
    requires Pooled(chunks, totalCapacity, lastFence) && c < |chunks|
      && Ring(chunks[c].allocations + [x], chunks[c].capacity) && x.fence >= lastFence
    ensures Pooled(Grown(chunks, c, x), totalCapacity, x.fence)
  {
    hide Ring;
    var now := Grown(chunks, c, x);
    SumSame(chunks, now);
    forall i | 0 <= i < |now| ensures Sound(now[i]) && Before(now[i], x.fence) {
      PooledAt(chunks, totalCapacity, lastFence, i);
    }
  }

  lemma PushKeepsTrack(history: map<nat, seq<Allocation>>, chunks: seq<Chunk>, completed: nat, c: nat, x: Allocation)
    requires Tracked(history, chunks, completed) && Distinct(chunks) && c < |chunks|
    ensures chunks[c].resource in history
    ensures Tracked(history[chunks[c].resource := history[chunks[c].resource] + [x]], Grown(chunks, c, x), completed)
  {
    hide Held;
    var now, r := Grown(chunks, c, x), chunks[c].resource;
    var later := history[r := history[r] + [x]];
    forall i | 0 <= i < |now| ensures now[i].resource in later
      && Held(later[now[i].resource], now[i].allocations, completed) {
      if i == c {
        HeldMore(history[r], chunks[c].allocations, completed, x);
      }
    }
    forall q | q in later ensures Owned(now, q) || Held(later[q], [], completed) {
      if q == r {
        assert now[c].resource == r;
      } else if Owned(chunks, q) {
        var i :| 0 <= i < |chunks| && chunks[i].resource == q;
        assert now[i].resource == q;
      }
    }
  }

  lemma HeldMore(history: seq<Allocation>, held: seq<Allocation>, completed: nat, x: Allocation)
    requires Held(history, held, completed)
    ensures Held(history + [x], held + [x], completed)
  {
  }

  lemma TrackLater(history: map<nat, seq<Allocation>>, chunks: seq<Chunk>, before: nat, after: nat)
    requires Tracked(history, chunks, before) && before <= after
    ensures Tracked(history, chunks, after)
  {
  }

  /** No allocation the device may still read touches this one. */
  predicate CopySafe(history: seq<Allocation>, completed: nat, x: Allocation) {
    forall i :: 0 <= i < |history| && history[i].fence > completed ==> Apart(history[i], x)
  }

  lemma PlaceIsFree(history: map<nat, seq<Allocation>>, chunks: seq<Chunk>, completed: nat, c: nat, x: Allocation)
    requires Tracked(history, chunks, completed) && c < |chunks|
      && Ring(chunks[c].allocations + [x], chunks[c].capacity)
    ensures chunks[c].resource in history && CopySafe(history[chunks[c].resource], completed, x)
  {
    hide Ring, Apart;
    var h, a := history[chunks[c].resource], chunks[c].allocations;
    var n := |h| - |a|;
    forall i | 0 <= i < |h| && h[i].fence > completed ensures Apart(h[i], x) {
      assert i >= n && h[i] == a[i - n] == (a + [x])[i - n];
      RingApart(a + [x], chunks[c].capacity, i - n, |a|);
    }
  }

  // ----- trimming -----

  function InUse(chunks: seq<Chunk>): (r: seq<Chunk>) {
    if chunks == [] then []
    else if Last(chunks).allocations == [] then InUse(chunks[..|chunks| - 1])
    else InUse(chunks[..|chunks| - 1]) + [Last(chunks)]
  }

  lemma {:induction false} InUseIs(chunks: seq<Chunk>, c: Chunk)
    ensures c in InUse(chunks) <==> c in chunks && c.allocations != []
  {
    if chunks != [] {
      InUseIs(chunks[..|chunks| - 1], c);
      assert chunks == chunks[..|chunks| - 1] + [Last(chunks)];
    }
  }

  lemma {:induction false} InUseSum(chunks: seq<Chunk>)
    ensures Sum(InUse(chunks)) <= Sum(chunks)
  {
    if chunks != [] {
      InUseSum(chunks[..|chunks| - 1]);
      SumMore(InUse(chunks[..|chunks| - 1]), Last(chunks));
    }
  }

  lemma {:induction false} InUseOrder(chunks: seq<Chunk>)
    ensures Sorted(chunks) ==> Sorted(InUse(chunks))
    ensures Distinct(chunks) ==> Distinct(InUse(chunks))
  {
    if chunks != [] {
      var less := chunks[..|chunks| - 1];
      InUseOrder(less);
      forall c | c in InUse(less) ensures c in less { InUseIs(less, c); }
      LastIn(chunks, InUse(less));
      OrderLess(chunks);
    }
  }

  lemma OrderLess(chunks: seq<Chunk>)
    requires chunks != []
    ensures Sorted(chunks) ==> Sorted(chunks[..|chunks| - 1])
    ensures Distinct(chunks) ==> Distinct(chunks[..|chunks| - 1])
  {
  }

  lemma LastIn(chunks: seq<Chunk>, kept: seq<Chunk>)
    requires chunks != [] && forall c :: c in kept ==> c in chunks[..|chunks| - 1]
    ensures Sorted(chunks) && Sorted(kept) ==> Sorted(kept + [chunks[|chunks| - 1]])
    ensures Distinct(chunks) && Distinct(kept) ==> Distinct(kept + [chunks[|chunks| - 1]])
  {
    forall i | 0 <= i < |kept|
      ensures Sorted(chunks) ==> kept[i].capacity <= chunks[|chunks| - 1].capacity
      ensures Distinct(chunks) ==> kept[i].resource != chunks[|chunks| - 1].resource
    {
      assert kept[i] in kept;
      var k :| 0 <= k < |chunks| - 1 && chunks[..|chunks| - 1][k] == kept[i];
    }
  }

  lemma TrimKeepsPool(chunks: seq<Chunk>, totalCapacity: nat, lastFence: nat)
    requires Pooled(chunks, totalCapacity, lastFence)
    ensures Pooled(InUse(chunks), Sum(InUse(chunks)), lastFence)
  {
    hide Sound, Before, InUse;
    InUseSum(chunks);
    InUseOrder(chunks);
    var kept := InUse(chunks);
    forall i | 0 <= i < |kept| ensures Sound(kept[i]) && Before(kept[i], lastFence) {
      InUseIs(chunks, kept[i]);
      var k :| 0 <= k < |chunks| && chunks[k] == kept[i];
      PooledAt(chunks, totalCapacity, lastFence, k);
    }
  }

  lemma TrimKeepsTrack(history: map<nat, seq<Allocation>>, chunks: seq<Chunk>, completed: nat)
    requires Tracked(history, chunks, completed)
    ensures Tracked(history, InUse(chunks), completed)
  {
    hide Held, InUse;
    var kept := InUse(chunks);
    forall i | 0 <= i < |kept| ensures kept[i].resource in history
      && Held(history[kept[i].resource], kept[i].allocations, completed) {
      InUseIs(chunks, kept[i]);
      var k :| 0 <= k < |chunks| && chunks[k] == kept[i];
    }
    forall r | r in history ensures Owned(kept, r) || Held(history[r], [], completed) {
      if Owned(chunks, r) {
        var i :| 0 <= i < |chunks| && chunks[i].resource == r;
        if chunks[i].allocations != [] {
          InUseIs(chunks, chunks[i]);
          var k :| 0 <= k < |kept| && kept[k] == chunks[i];
          assert kept[k].resource == r;
        }
      }
    }
  }

  class DmlPooledUploadHeap {
    const context: DmlExecutionContext
    const gpu: Gpu  // the context's
    var chunks: seq<Chunk>
    var totalCapacity: nat
    var created: nat  // names the resources
    ghost var history: map<nat, seq<Allocation>>  // every allocation ever made from a resource
    ghost var lastFence: nat

    ghost predicate Valid()
      reads this, gpu
    {
      && Pooled(chunks, totalCapacity, lastFence) && Tracked(history, chunks, gpu.completed)
      && gpu.Valid() && lastFence <= gpu.signaled
      && forall r :: r in history ==> r < created
    }

    /** The device has finished with every allocation of the pool. */
    ghost predicate Settled()
      reads this, gpu
    {
      AllBefore(chunks, gpu.completed)
    }

    lemma SettledIs()
      ensures Settled() <==> AllBefore(chunks, gpu.completed)
    {
    }

    constructor (context: DmlExecutionContext)
      requires context.Valid()
      ensures Settled()
      ensures Valid() && this.context == context && gpu == context.queue.gpu && chunks == [] && history == map[]
    {
      this.context, gpu, chunks, totalCapacity, created, history, lastFence :=
        context, context.queue.gpu, [], 0, 0, map[], 0;
    }

    /** The inner loop of ReclaimAllocations: pop the front while the device has finished with it. */
    method Drain(a: seq<Allocation>) returns (rest: seq<Allocation>)
      requires gpu.Valid()
      modifies gpu`completed
      ensures gpu.Valid() && gpu.completed >= old(gpu.completed) && Held(a, rest, gpu.completed)
      ensures rest == [] || rest[0].fence > old(gpu.completed)
    {
      rest := a;
      while rest != []
        invariant gpu.Valid() && gpu.completed >= old(gpu.completed) && Held(a, rest, gpu.completed)
      {
        var value := gpu.Poll();
        if rest[0].fence > value {
          break;
        }
        rest := rest[1..];
      }
    }

    method ReclaimAllocations()
      requires Valid()
      modifies this`chunks, gpu`completed
      ensures Valid() && gpu.completed >= old(gpu.completed)
        && AllReclaimed(old(chunks), chunks, old(gpu.completed), gpu.completed)
      ensures old(Settled()) ==> Settled() && AllEmpty(chunks)
    {
      hide Pooled, Tracked, Reclaimed, Held, Settled, AllBefore, AllEmpty;
      SettledIs();
      ghost var settled := Settled();
      ghost var was, start := chunks, gpu.completed;
      for i := 0 to |chunks|
        invariant gpu.Valid() && |chunks| == |was| && gpu.completed >= start && chunks[i..] == was[i..]
        invariant forall k :: 0 <= k < i ==> Reclaimed(was[k], chunks[k], start, gpu.completed)
      {
        ghost var before := gpu.completed;
        assert chunks[i] == was[i] by { assert chunks[i] == chunks[i..][0] && was[i] == was[i..][0]; }
        var rest := Drain(chunks[i].allocations);
        forall k | 0 <= k < i ensures Reclaimed(was[k], chunks[k], start, gpu.completed) {
          ReclaimedLater(was[k], chunks[k], start, before, gpu.completed);
        }
        MakeReclaimed(was[i], rest, start, before, gpu.completed);
        chunks := chunks[i := chunks[i].(allocations := rest)];
      }
      ReclaimKeepsPool(was, chunks, totalCapacity, lastFence, start, gpu.completed);
      ReclaimKeepsTrack(history, was, chunks, start, gpu.completed);
      if settled {
        FinishedReclaimed(was, chunks, start, gpu.completed);
        EmptyIsBefore(chunks, gpu.completed);
      }
      SettledIs();
    }

    lemma ReclaimedLater(c: Chunk, d: Chunk, before: nat, after: nat, later: nat)
      requires Reclaimed(c, d, before, after) && after <= later
      ensures Reclaimed(c, d, before, later)
    {
    }

    lemma MakeReclaimed(c: Chunk, rest: seq<Allocation>, start: nat, before: nat, after: nat)
      requires Held(c.allocations, rest, after) && (rest == [] || rest[0].fence > before) && start <= before
      ensures Reclaimed(c, c.(allocations := rest), start, after)
    {
    }

    lemma Parts()
      requires Valid()
      ensures Pooled(chunks, totalCapacity, lastFence) && Tracked(history, chunks, gpu.completed) && Distinct(chunks)
      ensures totalCapacity <= LIMIT && (forall r :: r in history ==> r < created) && gpu.Valid()
        && lastFence <= gpu.signaled
      ensures forall i :: 0 <= i < |chunks| ==> chunks[i].resource in history && Sound(chunks[i])
    {
    }

    lemma MakeValid()
      requires Pooled(chunks, totalCapacity, lastFence) && Tracked(history, chunks, gpu.completed)
        && forall r :: r in history ==> r < created
      requires gpu.Valid() && lastFence <= gpu.signaled
      ensures Valid()
    {
    }

    /** The capacity of a chunk made for an allocation. */
    function NewCapacity(size: nat): (r: nat)
      reads this`totalCapacity
      ensures r >= totalCapacity && r >= MIN_CHUNK_SIZE && r >= size
    {
      if totalCapacity >= MIN_CHUNK_SIZE && totalCapacity >= size then totalCapacity
      else if MIN_CHUNK_SIZE >= size then MIN_CHUNK_SIZE
      else size
    }

    lemma NewCapacityIs(size: nat)
      ensures NewCapacity(size) >= totalCapacity && NewCapacity(size) >= 1024 * 1024 && NewCapacity(size) >= size
      ensures NewCapacity(size) == totalCapacity || NewCapacity(size) == 1024 * 1024 || NewCapacity(size) == size
    {
    }

    /** The first chunk with room, or a new one that at least doubles the pool; an error when the device refuses it. */
    method Reserve(size: nat, refused: bool) returns (place: Option<(nat, nat)>)
      requires Valid() && 0 < size < WORD
      requires !refused ==>  // what a device can hold
        && totalCapacity + totalCapacity <= LIMIT && totalCapacity + 1024 * 1024 <= LIMIT
        && totalCapacity + size <= LIMIT
      modifies this`chunks, this`totalCapacity, this`created, this`history
      ensures Valid() && lastFence == old(lastFence)
      ensures forall r :: r in old(history) ==> r in history && history[r] == old(history)[r]
      ensures place.None? ==> refused && chunks == old(chunks) && history == old(history)
      ensures place.Some? ==> place.value.0 < |chunks| && Aligned(place.value.1) && place.value.1 % 512 == 0
      ensures place.Some? ==>
        forall fence: nat ::
          Ring(chunks[place.value.0].allocations + [Allocation(size, place.value.1, fence)],
            chunks[place.value.0].capacity)
      ensures place.Some? ==>
        forall k :: 0 <= k < place.value.0 && k < |old(chunks)| ==> FindOffsetForAllocation(old(chunks)[k], size).None?
      ensures place.Some? && place.value.0 < |old(chunks)| ==>
        chunks == old(chunks)
        && FindOffsetForAllocation(old(chunks)[place.value.0], size) == Some(place.value.1)
      ensures place.Some? && place.value.0 >= |old(chunks)| ==>
        && place.value == (|old(chunks)|, 0) && |chunks| == |old(chunks)| + 1
        && chunks == old(chunks) + [Chunk(chunks[|old(chunks)|].capacity, old(created), [])]
        && totalCapacity == old(totalCapacity) + chunks[|old(chunks)|].capacity
        && var capacity := chunks[|old(chunks)|].capacity;
           && capacity >= old(totalCapacity) && capacity >= 1024 * 1024 && capacity >= size
           && (capacity == old(totalCapacity) || capacity == 1024 * 1024 || capacity == size)
    {
      hide *;
      Parts();
      var i := 0;
      while i < |chunks|
        invariant 0 <= i <= |chunks| && forall k :: 0 <= k < i ==> FindOffsetForAllocation(chunks[k], size).None?
      {
        var offset := FindOffsetForAllocation(chunks[i], size);
        if offset.Some? {
          forall fence: nat ensures Ring(chunks[i].allocations + [Allocation(size, offset.value, fence)],
            chunks[i].capacity) {
            FoundFits(chunks[i], size, fence);
          }
          FoundFits(chunks[i], size, 0);
          PlacedIs(Allocation(size, offset.value, 0), chunks[i].capacity);
          return Some((i, offset.value));
        }
        i := i + 1;
      }
      if refused {
        return None;
      }
      NewCapacityIs(size);
      CreateChunk(NewCapacity(size));
      forall fence: nat ensures Ring(chunks[|chunks| - 1].allocations + [Allocation(size, 0, fence)],
        chunks[|chunks| - 1].capacity) {
        OnlyFits(chunks[|chunks| - 1], size, fence);
      }
      place := Some((|chunks| - 1, 0));
      PlacedIs(Allocation(size, 0, 0), chunks[|chunks| - 1].capacity) by {
        RingPlaced(chunks[|chunks| - 1].allocations + [Allocation(size, 0, 0)], chunks[|chunks| - 1].capacity, 0);
      }
    }

    lemma PlacedIs(x: Allocation, capacity: nat)
      requires Placed(x, capacity)
      ensures Aligned(x.offset) && x.offset % 512 == 0
    {
    }

    lemma OnlyFits(c: Chunk, size: nat, fence: nat)
      requires c.allocations == [] && 0 < size <= c.capacity
      ensures Ring(c.allocations + [Allocation(size, 0, fence)], c.capacity)
    {
      Alone(Allocation(size, 0, fence));
      assert c.allocations + [Allocation(size, 0, fence)] == [Allocation(size, 0, fence)];
      assert Aligned(0);
    }

    method CreateChunk(capacity: nat)
      requires Valid() && capacity >= totalCapacity && totalCapacity + capacity <= LIMIT
      modifies this`chunks, this`totalCapacity, this`created, this`history
      ensures forall r :: r in old(history) ==> r in history && history[r] == old(history)[r]
      ensures Valid() && chunks == old(chunks) + [Chunk(capacity, old(created), [])]
        && totalCapacity == old(totalCapacity) + capacity
    {
      hide *;
      Parts();
      ghost var c := Chunk(capacity, created, []);
      NewChunkKeepsPool(chunks, totalCapacity, lastFence, c);
      NewChunkKeepsTrack(history, chunks, gpu.completed, c);
      chunks := chunks + [Chunk(capacity, created, [])];
      totalCapacity := totalCapacity + capacity;
      history := history[created := []];
      created := created + 1;
      MakeValid();
    }

    /** Records an allocation at a place where it fits; its event comes no earlier than any before it. */
    method Push(c: nat, size: nat, offset: nat, fence: nat)
      requires Valid() && c < |chunks| && lastFence <= fence <= gpu.signaled
      requires Ring(chunks[c].allocations + [Allocation(size, offset, fence)], chunks[c].capacity)
      modifies this`chunks, this`history, this`lastFence
      ensures Valid() && lastFence == fence && chunks == Grown(old(chunks), c, Allocation(size, offset, fence))
      ensures chunks[c].resource in old(history)
      ensures history == old(history)[chunks[c].resource :=
        old(history)[chunks[c].resource] + [Allocation(size, offset, fence)]]
    {
      hide *;
      Parts();
      ghost var x := Allocation(size, offset, fence);
      PushKeepsPool(chunks, totalCapacity, lastFence, c, x);
      PushKeepsTrack(history, chunks, gpu.completed, c, x);
      history := history[chunks[c].resource := history[chunks[c].resource] + [x]];
      chunks := chunks[c := chunks[c].(allocations := chunks[c].allocations + [Allocation(size, offset, fence)])];
      lastFence := fence;
      GrownIs(old(chunks), c, x);
      MakeValid();
    }

    lemma GrownIs(was: seq<Chunk>, c: nat, x: Allocation)
      requires c < |was|
      ensures Grown(was, c, x) == was[c := was[c].(allocations := was[c].allocations + [x])]
    {
    }

    /** Reclaim, reserve, copy, flush, wait, record. When it returns, the copy has been executed. */
    method BeginUploadToGpu(size: nat, copy: int, barriers: Option<(int, int)>, refused: bool)
        returns (place: Option<(nat, nat)>, doneEvent: nat)
      requires Valid() && context.Valid() && context.queue.gpu == gpu && 0 < size < WORD
      requires !refused ==>
        && totalCapacity + totalCapacity <= LIMIT && totalCapacity + 1024 * 1024 <= LIMIT
        && totalCapacity + size <= LIMIT
      modifies this, gpu, context, context.dmlRecorder, context.dmlRecorder.ring, context.queue
      ensures Valid() && context.Valid() && gpu.completed >= old(gpu.completed)
      ensures forall r :: r in old(history) ==> r in history && old(history)[r] <= history[r]
      ensures place.None? ==> refused && history == old(history) && context.recorded == old(context.recorded)
      ensures place.Some? ==>
        && place.value.0 < |chunks| && chunks[place.value.0].allocations != []
        && Last(chunks[place.value.0].allocations) == Allocation(size, place.value.1, doneEvent)
      ensures place.Some? ==>
        context.recorded == old(context.recorded)
          + (if barriers.Some? then [barriers.value.0, copy, barriers.value.1] else [copy])
      ensures place.Some? ==>
        doneEvent <= gpu.completed && context.queue.Valid() && context.queue.Executed() == context.recorded
      ensures old(Settled()) ==>
        Settled() && (place.Some? ==> UploadedAlone(old(chunks), chunks, place.value, size, doneEvent))
    {
      hide *;
      doneEvent := 0;
      ghost var settled := Settled();
      ReclaimAllocations();
      ghost var reclaimed, after := chunks, gpu.completed;
      Parts();
      context.Undisturbed();
      place := Reserve(size, refused);
      if place.None? {
        KeptSettled(reclaimed, settled);
        return;
      }
      Parts();
      ghost var reserved := chunks;
      ghost var c, before := place.value.0, gpu.completed;
      PlaceIsFree(history, chunks, before, c,
        Allocation(size, place.value.1, 0));  // the copy overwrites nothing that the device may still read
      assert CopySafe(history[chunks[c].resource], before, Allocation(size, place.value.1, 0));
      doneEvent := Copy(copy, barriers);
      TrackLater(history, chunks, before, gpu.completed);
      MakeValid();
      LastGrown(chunks, c, Allocation(size, place.value.1, doneEvent));
      Push(place.value.0, size, place.value.1, doneEvent);
      if settled {
        ReservedInEmpty(old(chunks), reclaimed, reserved, old(gpu.completed), after, size, place.value);
        GrownAlone(old(chunks), reserved, place.value, size, doneEvent, gpu.completed);
      }
      SettledIs();
    }

    lemma KeptSettled(reclaimed: seq<Chunk>, settled: bool)
      requires chunks == reclaimed && (settled ==> AllEmpty(reclaimed))
      ensures settled ==> Settled()
    {
    }

    /** The copy on the device: recorded, flushed and waited for. */
    method Copy(copy: int, barriers: Option<(int, int)>) returns (doneEvent: nat)
      requires context.Valid() && context.queue.gpu == gpu && gpu.Valid()
      modifies gpu, context, context.dmlRecorder, context.dmlRecorder.ring, context.queue
      ensures context.Valid() && gpu.Valid() && gpu.completed >= old(gpu.completed)
      ensures context.recorded
        == old(context.recorded) + (if barriers.Some? then [barriers.value.0, copy, barriers.value.1] else [copy])
      ensures old(gpu.signaled) <= doneEvent <= gpu.completed <= gpu.signaled && context.queue.Valid()
        && context.queue.Executed() == context.recorded
    {
      hide *;
      context.Facts();
      context.CopyBufferRegion(copy, barriers);
      doneEvent := context.GetCurrentCompletionEvent();
      context.Flush();
      context.Facts();
      label Flushed:
      gpu.WaitForSignal(doneEvent);
      context.Undisturbed@Flushed();
      context.Facts();
      context.AllExecuted();
      Reached();
    }

    lemma Reached()
      requires gpu.Valid()
      ensures gpu.completed <= gpu.signaled
    {
    }

    lemma LastGrown(was: seq<Chunk>, c: nat, x: Allocation)
      requires c < |was|
      ensures |Grown(was, c, x)| == |was| && Grown(was, c, x)[c].allocations != []
        && Last(Grown(was, c, x)[c].allocations) == x
      ensures Grown(was, c, x)[c].resource == was[c].resource
    {
    }

    lemma NothingLeft()
      ensures chunks == [] ==> Settled()
    {
    }

    /** Drops the chunks without allocations. */
    method Trim()
      requires Valid()
      modifies this`chunks, this`totalCapacity, gpu`completed
      ensures Valid() && gpu.completed >= old(gpu.completed)
      ensures exists reclaimed ::
        AllReclaimed(old(chunks), reclaimed, old(gpu.completed), gpu.completed) && chunks == InUse(reclaimed)
      ensures old(Settled()) ==> Settled() && chunks == []
    {
      hide *;
      ghost var settled := Settled();
      ReclaimAllocations();
      Parts();
      ghost var reclaimed := chunks;
      if settled {
        NoneInUse(reclaimed);
      }
      TrimKeepsPool(chunks, totalCapacity, lastFence);
      TrimKeepsTrack(history, chunks, gpu.completed);
      chunks := InUse(chunks);
      totalCapacity := Total(chunks);
      MakeValid();
      NothingLeft();
      assert AllReclaimed(old(chunks), reclaimed, old(gpu.completed), gpu.completed) && chunks == InUse(reclaimed);
    }
  }

  /** The loop that adds up the capacities. */
  method Total(chunks: seq<Chunk>) returns (total: nat)
    ensures total == Sum(chunks)
  {
    total := 0;
    for i := 0 to |chunks|
      invariant total == Sum(chunks[..i])
    {
      SumMore(chunks[..i], chunks[i]);
      assert chunks[..i + 1] == chunks[..i] + [chunks[i]];
      total := total + chunks[i].capacity;
    }
    assert chunks[..|chunks|] == chunks;
  }

  function Last<T>(s: seq<T>): T
    requires s != []
  {
    s[|s| - 1]
  }
}
