/** The device's attention mask: a kernel tiled over all elements, run once per generated token. */
module UpdateMaskKernel {
  import opened FlatRows
  import opened TokenSequences
  import opened PositionTensors
  import opened Device

  const WORD: nat := 0x1_0000_0000  // the shader's integers are 32 bits wide
  const THREADS: nat := 256
  const MAX_GROUPS: nat := 65535

  // ----- tiling -----

  datatype Tile = Tile(start: nat, groups: nat)

  /** GetNextDispatchSize: how many thread groups to dispatch, and how many elements are left. */
  function GetNextDispatchSize(elementCount: nat, threads: nat): (r: (nat, nat))
    requires 0 < threads <= 1024
    ensures elementCount > 0 ==> r.1 < elementCount && r.0 > 0
    ensures r.1 == if elementCount > threads * 65535 then elementCount - threads * 65535 else 0
  {
    var most := threads * MAX_GROUPS;
    var available := if elementCount < most then elementCount else most;
    var groups := (available + threads - 1) / threads;
    GroupsCover(available, threads, elementCount);
    (groups, if groups * threads < elementCount then elementCount - groups * threads else 0)
  }

  /** Rounding up to whole groups covers the elements, and is exact when the dispatch is full. */
  lemma GroupsCover(available: nat, threads: nat, elementCount: nat)
    requires 0 < threads && available <= elementCount
      && (available == elementCount || available == threads * MAX_GROUPS)
    ensures var groups := (available + threads - 1) / threads;
      available <= groups * threads < available + threads
        && (available == threads * MAX_GROUPS ==> groups == MAX_GROUPS)
  {
    var groups := (available + threads - 1) / threads;
    assert groups * threads + (available + threads - 1) % threads == available + threads - 1;
    assert (MAX_GROUPS + 1) * threads == MAX_GROUPS * threads + threads;
    assert (MAX_GROUPS - 1) * threads == MAX_GROUPS * threads - threads;
    if available == threads * MAX_GROUPS {
      if groups > MAX_GROUPS {
        Monotone(MAX_GROUPS + 1, groups, threads);
      } else if groups < MAX_GROUPS {
        Monotone(groups, MAX_GROUPS - 1, threads);
      }
    }
  }

  /** The dispatches issued for the last `pending` of `total` elements. */
  function Plan(total: nat, pending: nat): (r: seq<Tile>)
    requires pending <= total
    decreases pending
  {
    if pending == 0 then []
    else
      var (groups, left) := GetNextDispatchSize(pending, THREADS);
      [Tile(total - pending, groups)] + Plan(total, left)
  }

  predicate InTile(tile: Tile, index: nat) {
    tile.start <= index < tile.start + tile.groups * 256
  }

  /** How many threads of the plan work on an element. */
  function Visits(plan: seq<Tile>, index: nat): nat {
    if plan == [] then 0 else (if InTile(plan[0], index) then 1 else 0) + Visits(plan[1..], index)
  }

  lemma TileEnds(total: nat, pending: nat)
    requires 0 < pending <= total
    ensures var (groups, left) := GetNextDispatchSize(pending, THREADS);
      && (left > 0 ==> total - pending + groups * THREADS == total - left)
      && (left == 0 ==> total <= total - pending + groups * THREADS < total + THREADS)
      && (left > 0 ==> groups == MAX_GROUPS)
  {
    var most := THREADS * MAX_GROUPS;
    var available := if pending < most then pending else most;
    GroupsCover(available, THREADS, pending);
  }

  /** Every element is worked on by exactly one thread. */
  lemma {:induction false} PlanCoversOnce(total: nat, pending: nat, index: nat)
    requires pending <= total && index < total
    ensures Visits(Plan(total, pending), index) == if index >= total - pending then 1 else 0
    decreases pending
  {
    if pending > 0 {
      var (groups, left) := GetNextDispatchSize(pending, THREADS);
      TileEnds(total, pending);
      PlanCoversOnce(total, left, index);
      assert Plan(total, pending)[1..] == Plan(total, left);
    }
  }

  /** No thread's element number wraps around, for any 32-bit element count. */
  lemma {:induction false} PlanNeverWraps(total: nat, pending: nat, tile: Tile, thread: nat)
    requires pending <= total < 0x1_0000_0000 && (total - pending) % 256 == 0
    requires tile in Plan(total, pending) && thread < tile.groups * 256
    ensures tile.start + thread < 0x1_0000_0000
    decreases pending
  {
    var (groups, left) := GetNextDispatchSize(pending, THREADS);
    TileEnds(total, pending);
    if tile == Tile(total - pending, groups) {
      WholeGroups(total - pending, groups, total);
    } else {
      assert tile in Plan(total, left);
      assert (total - left) % THREADS == 0 by { WholeGroups(total - pending, groups, total); }
      PlanNeverWraps(total, left, tile, thread);
    }
  }

  lemma WholeGroups(start: nat, groups: nat, total: nat)
    requires start % THREADS == 0 && total < WORD
    ensures (start + groups * THREADS) % THREADS == 0
    ensures start + groups * THREADS < total + THREADS ==> start + groups * THREADS <= WORD
  {
    assert (start + groups * THREADS) % THREADS == (start + groups * 256) % 256 == 0;
  }

  // ----- the kernel -----

  /** What one thread stores for its element; `mask` is read as if there were only one row. */
  function Element(maxLength: nat, length: nat, mask: seq<int>, index: nat): int
    requires 0 < maxLength <= |mask|
  {
    var position := index % maxLength;
    if length > 1 then (if position < length then 1 else 0)
    else if position == 0 || mask[position] == 1 || mask[position - 1] == 1 then 1
    else 0
  }

  /** One run over all elements. */
  function Applied(maxLength: nat, length: nat, mask: seq<int>): (r: seq<int>)
    requires 0 < maxLength <= |mask|
    ensures |r| == |mask|
  {
    seq(|mask|, i requires 0 <= i < |mask| => Element(maxLength, length, mask, i))
  }

  /** One dispatch: every thread whose element number is inside the buffer stores its element. */
  method Dispatch(tile: Tile, maxLength: nat, length: nat, mask: array<int>, next: array<int>)
    requires mask != next && 0 < maxLength <= mask.Length == next.Length && tile.start <= next.Length
    modifies next
    ensures forall i :: 0 <= i < next.Length ==>
      next[i] == (if InTile(tile, i) then Element(maxLength, length, mask[..], i) else old(next[..])[i])
  {
    for thread := 0 to tile.groups * THREADS
      invariant forall i :: 0 <= i < next.Length ==>
        next[i] == (if tile.start <= i < tile.start + thread then Element(maxLength, length, mask[..], i)
          else old(next[..])[i])
      modifies next
    {
      var index := tile.start + thread;
      if index < next.Length {
        next[index] := Element(maxLength, length, mask[..], index);
      }
    }
  }

  /** The recorded command list: dispatches until no element is pending, then the copy back. */
  method Execute(maxLength: nat, length: nat, mask: array<int>, next: array<int>)
    requires mask != next && 0 < maxLength <= mask.Length == next.Length
    modifies mask, next
    ensures mask[..] == Applied(maxLength, length, old(mask[..])) && next[..] == mask[..]
  {
    var total := mask.Length;
    var pending := total;
    ghost var was := mask[..];
    while pending > 0
      invariant 0 <= pending <= total && mask[..] == was
      invariant forall i :: 0 <= i < total - pending ==> next[i] == Element(maxLength, length, was, i)
      modifies next
    {
      TileEnds(total, pending);
      var (groups, left) := GetNextDispatchSize(pending, THREADS);
      Dispatch(Tile(total - pending, groups), maxLength, length, mask, next);
      pending := left;
    }
    assert next[..] == Applied(maxLength, length, was);
    CopySpan(next, 0, mask, 0, total);
    assert mask[..] == next[..];
  }

  // ----- what it computes -----

  /** Ones on the first n positions. */
  function PrefixRow(maxLength: nat, n: nat): (r: seq<int>)
    ensures |r| == maxLength
  {
    seq(maxLength, i => if i < n then 1 else 0)
  }

  ghost predicate AllPrefix(mask: seq<int>, batchSize: nat, maxLength: nat, n: nat) {
    |mask| == batchSize * maxLength && forall b :: 0 <= b < batchSize ==>
      Rows(mask, maxLength, maxLength, batchSize)[b] == PrefixRow(maxLength, n)
  }

  lemma RowElements(maxLength: nat, length: nat, mask: seq<int>, batchSize: nat, b: nat)
    requires 0 < maxLength && |mask| == batchSize * maxLength && b < batchSize
    ensures maxLength <= |mask|
    ensures Rows(Applied(maxLength, length, mask), maxLength, maxLength, batchSize)[b]
         == seq(maxLength, j requires 0 <= j < maxLength => Element(maxLength, length, mask, j))
  {
    RowInside(b, batchSize, maxLength);
    RowInside(0, batchSize, maxLength);
    forall j | 0 <= j < maxLength ensures Element(maxLength, length, mask, b * maxLength + j)
      == Element(maxLength, length, mask, j) {
      RowOf(b, j, maxLength);
      RowOf(0, j, maxLength);
    }
  }

  /** The first update writes the prefix outright. */
  lemma FirstUpdateIsPrefix(mask: seq<int>, batchSize: nat, maxLength: nat, length: nat)
    requires batchSize > 0 && |mask| == batchSize * maxLength && 1 < length <= maxLength
    ensures maxLength <= |mask| && AllPrefix(Applied(maxLength, length, mask), batchSize, maxLength, length)
  {
    hide Applied, Rows;
    RowInside(0, batchSize, maxLength);
    FirstElements(mask, maxLength, length);
    forall b | 0 <= b < batchSize
      ensures Rows(Applied(maxLength, length, mask), maxLength, maxLength, batchSize)[b] == PrefixRow(maxLength, length)
    {
      RowElements(maxLength, length, mask, batchSize, b);
    }
  }

  lemma FirstElements(mask: seq<int>, maxLength: nat, length: nat)
    requires 1 < length <= maxLength <= |mask|
    ensures forall j :: 0 <= j < maxLength ==> Element(maxLength, length, mask, j) == PrefixRow(maxLength, length)[j]
  {
    forall j | 0 <= j < maxLength ensures Element(maxLength, length, mask, j) == PrefixRow(maxLength, length)[j] {
      RowOf(0, j, maxLength);
    }
  }

  /** A later update extends every row by one, judging by the first row alone. */
  lemma LaterUpdateExtends(mask: seq<int>, batchSize: nat, maxLength: nat, n: nat)
    requires batchSize > 0 && 0 < maxLength && |mask| == batchSize * maxLength && n < maxLength
    requires maxLength <= |mask| ==> mask[..maxLength] == PrefixRow(maxLength, n)
    ensures maxLength <= |mask| && AllPrefix(Applied(maxLength, 1, mask), batchSize, maxLength, n + 1)
  {
    RowInside(0, batchSize, maxLength);
    forall j | 0 <= j < maxLength ensures Element(maxLength, 1, mask, j) == PrefixRow(maxLength, n + 1)[j] {
      RowOf(0, j, maxLength);
      assert mask[..maxLength][j] == mask[j];
      assert j > 0 ==> mask[..maxLength][j - 1] == mask[j - 1];
    }
    forall b | 0 <= b < batchSize
      ensures Rows(Applied(maxLength, 1, mask), maxLength, maxLength, batchSize)[b] == PrefixRow(maxLength, n + 1)
    {
      RowElements(maxLength, 1, mask, batchSize, b);
    }
  }

  /** The device's mask for a generation: one kernel for the first update, another for all later ones. */
  class DeviceMask {
    const batchSize: nat
    const maxLength: nat
    const mask: array<int>
    const next: array<int>
    var isFirstUpdate: bool
    var isSecondUpdate: bool
    var kernelLength: nat  // the length the cached kernel was made with
    ghost var length: nat

    ghost predicate Valid()
      reads this, mask
    {
      && mask != next && mask.Length == next.Length == batchSize * maxLength && 0 < maxLength && 0 < batchSize
      && length <= maxLength
      && (!isFirstUpdate ==> AllPrefix(mask[..], batchSize, maxLength, length) && (isSecondUpdate || kernelLength == 1))
    }

    constructor (batchSize: nat, maxLength: nat)
      requires 0 < batchSize && 0 < maxLength
      ensures Valid() && isFirstUpdate && this.batchSize == batchSize && this.maxLength == maxLength && fresh(mask)
        && fresh(next)
    {
      this.batchSize, this.maxLength := batchSize, maxLength;
      mask, next := new int[batchSize * maxLength], new int[batchSize * maxLength];
      isFirstUpdate, isSecondUpdate, kernelLength, length := true, false, 0, 0;
    }

    /** After the update every row has ones up to the current length and zeros after it. */
    method Update(currentLength: nat)
      requires Valid() && currentLength <= maxLength
      requires if isFirstUpdate then currentLength > 1 else currentLength == length + 1
      modifies this, mask, next
      ensures Valid() && !isFirstUpdate && length == currentLength
      ensures AllPrefix(mask[..], batchSize, maxLength, currentLength)
    {
      RowInside(0, batchSize, maxLength);
      if isFirstUpdate {
        kernelLength := currentLength;
        isSecondUpdate := true;
        FirstUpdateIsPrefix(mask[..], batchSize, maxLength, currentLength);
      } else {
        if isSecondUpdate {
          kernelLength := 1;
          isSecondUpdate := false;
        }
        assert Rows(mask[..], maxLength, maxLength, batchSize)[0] == mask[..][..maxLength];
        LaterUpdateExtends(mask[..], batchSize, maxLength, length);
      }
      Execute(maxLength, kernelLength, mask, next);
      isFirstUpdate := false;
      length := currentLength;
    }
  }

  // ----- without static buffers -----

  /** A recorded command list: its constants, and the buffers it was recorded for. */
  datatype Kernel = Kernel(maxLength: nat, length: nat, mask: array<int>, next: array<int>)

  /** What the new buffer must hold by chance for an update after the first to leave ones everywhere: the second one
      runs the kernel on it, the later ones run the cached kernel on older buffers. */
  predicate HoldsOnes(held: seq<int>, currentLength: nat, isSecondUpdate: bool)
    requires currentLength <= |held|
  {
    if isSecondUpdate then forall j :: 0 < j < currentLength ==> held[j] == 1 || held[j - 1] == 1
    else forall i :: 0 <= i < |held| ==> held[i] == 1
  }

  lemma AllPrefixIsOnes(mask: seq<int>, batchSize: nat, maxLength: nat)
    requires |mask| == batchSize * maxLength
    ensures AllPrefix(mask, batchSize, maxLength, maxLength) <==> forall i :: 0 <= i < |mask| ==> mask[i] == 1
  {
    hide *;
    RowsArePrefix(mask, batchSize, maxLength);
    if AllPrefix(mask, batchSize, maxLength, maxLength) {
      forall i | 0 <= i < |mask| ensures mask[i] == 1 {
        var b, j := BatchAndPlace(i, batchSize, maxLength);
        CellIs(mask, batchSize, maxLength, b, j);
        PrefixCell(maxLength, j);
      }
    }
    if forall i :: 0 <= i < |mask| ==> mask[i] == 1 {
      forall b | 0 <= b < batchSize
        ensures Rows(mask, maxLength, maxLength, batchSize)[b] == PrefixRow(maxLength, maxLength)
      {
        OnesRow(mask, batchSize, maxLength, b);
      }
    }
  }

  lemma BatchAndPlace(i: nat, batchSize: nat, maxLength: nat) returns (b: nat, j: nat)
    requires i < batchSize * maxLength
    ensures i == b * maxLength + j && b < batchSize && j < maxLength
  {
    BatchOf(i, batchSize, maxLength);
    b, j := i / maxLength, i % maxLength;
  }

  lemma CellIs(mask: seq<int>, batchSize: nat, maxLength: nat, b: nat, j: nat)
    requires |mask| == batchSize * maxLength && b < batchSize && j < maxLength
    ensures 0 <= b * maxLength + j < |mask| && |Rows(mask, maxLength, maxLength, batchSize)[b]| == maxLength
    ensures Rows(mask, maxLength, maxLength, batchSize)[b][j] == mask[b * maxLength + j]
  {
    RowInside(b, batchSize, maxLength);
  }

  lemma PrefixCell(maxLength: nat, j: nat)
    requires j < maxLength
    ensures PrefixRow(maxLength, maxLength)[j] == 1
  {
  }

  lemma OnesRow(mask: seq<int>, batchSize: nat, maxLength: nat, b: nat)
    requires |mask| == batchSize * maxLength && b < batchSize && forall i :: 0 <= i < |mask| ==> mask[i] == 1
    ensures Rows(mask, maxLength, maxLength, batchSize)[b] == PrefixRow(maxLength, maxLength)
  {
    hide *;
    var row := Rows(mask, maxLength, maxLength, batchSize)[b];
    RowLength(mask, batchSize, maxLength, b);
    forall j | 0 <= j < maxLength ensures row[j] == PrefixRow(maxLength, maxLength)[j] {
      CellIs(mask, batchSize, maxLength, b, j);
      PrefixCell(maxLength, j);
    }
  }

  lemma RowLength(mask: seq<int>, batchSize: nat, maxLength: nat, b: nat)
    requires |mask| == batchSize * maxLength && b < batchSize
    ensures |Rows(mask, maxLength, maxLength, batchSize)[b]| == maxLength
  {
  }

  lemma RowsArePrefix(mask: seq<int>, batchSize: nat, maxLength: nat)
    requires |mask| == batchSize * maxLength
    ensures AllPrefix(mask, batchSize, maxLength, maxLength) <==>
      forall b :: 0 <= b < batchSize ==>
        Rows(mask, maxLength, maxLength, batchSize)[b] == PrefixRow(maxLength, maxLength)
  {
  }

  lemma StoredIff(held: seq<int>, maxLength: nat, i: nat)
    requires 0 < maxLength <= |held| && i < |held|
    ensures i % maxLength < |held|
    ensures Applied(maxLength, 1, held)[i] == 1 <==>
      i % maxLength == 0 || held[i % maxLength] == 1 || held[i % maxLength - 1] == 1
  {
  }

  lemma SecondUpdateIff(held: seq<int>, batchSize: nat, maxLength: nat)
    requires |held| == batchSize * maxLength && 0 < maxLength <= |held|
    ensures AllPrefix(Applied(maxLength, 1, held), batchSize, maxLength, maxLength)
      <==> HoldsOnes(held, maxLength, true)
  {
    hide *;
    var after := Applied(maxLength, 1, held);
    AllPrefixIsOnes(after, batchSize, maxLength);
    HoldsOnesIs(held, maxLength);
    forall i | 0 <= i < |held| ensures HoldsOnes(held, maxLength, true) ==> after[i] == 1 {
      StoredIff(held, maxLength, i);
      RowOf(i / maxLength, i % maxLength, maxLength);
    }
    forall j | 0 < j < maxLength ensures after[j] == 1 ==> held[j] == 1 || held[j - 1] == 1 {
      StoredIff(held, maxLength, j);
      RowOf(0, j, maxLength);
    }
  }

  lemma HoldsOnesIs(held: seq<int>, maxLength: nat)
    requires maxLength <= |held|
    ensures HoldsOnes(held, maxLength, true) <==> forall j :: 0 < j < maxLength ==> held[j] == 1 || held[j - 1] == 1
  {
  }

  lemma LaterUpdateIff(held: seq<int>, batchSize: nat, maxLength: nat)
    requires |held| == batchSize * maxLength && maxLength <= |held|
    ensures AllPrefix(held, batchSize, maxLength, maxLength) <==> HoldsOnes(held, maxLength, false)
  {
    hide AllPrefix;
    AllPrefixIsOnes(held, batchSize, maxLength);
  }

  /** The device's mask when both tensors are allocated anew, one token wider, at every update. */
  class ReallocatedMask {
    const batchSize: nat
    var width: nat
    var mask: array<int>
    var next: array<int>
    var isFirstUpdate: bool
    var isSecondUpdate: bool
    var kernel: Option<Kernel>

    ghost predicate Valid()
      reads this
    {
      0 < batchSize && 0 < width && if kernel.None? then isFirstUpdate else Recorded()
    }

    /** The cached command list. */
    ghost predicate Recorded()
      reads this
    {
      && kernel.Some? && !isFirstUpdate && kernel.value.mask != kernel.value.next
      && 0 < kernel.value.maxLength <= kernel.value.mask.Length == kernel.value.next.Length
    }

    constructor (batchSize: nat, sequenceLength: nat)
      requires 0 < batchSize && 0 < sequenceLength
      ensures Valid() && isFirstUpdate && this.batchSize == batchSize && width == sequenceLength
    {
      this.batchSize, width, isFirstUpdate, isSecondUpdate, kernel := batchSize, sequenceLength, true, false, None;
      mask, next := new int[batchSize * sequenceLength], new int[batchSize * sequenceLength];
    }

    /** Only the first update leaves ones up to the current length whatever the new buffers hold. */
    method Update(currentLength: nat, maskHolds: seq<int>, nextHolds: seq<int>)
      requires Valid() && currentLength == width + 1  // asserted: growing by 1
      requires |maskHolds| == |nextHolds| == batchSize * currentLength
      modifies this, if kernel.Some? then {kernel.value.mask, kernel.value.next} else {}
      ensures Valid() && width == currentLength && !isFirstUpdate && isSecondUpdate == old(isFirstUpdate)
      ensures fresh(mask) && currentLength <= |maskHolds|
      ensures AllPrefix(mask[..], batchSize, currentLength, currentLength)
        <==> old(isFirstUpdate) || HoldsOnes(maskHolds, currentLength, old(isSecondUpdate))
    {
      hide *;
      ValidIs();
      RowInside(0, batchSize, currentLength);
      width := currentLength;
      mask := new int[|maskHolds|](i requires 0 <= i < |maskHolds| => maskHolds[i]);
      next := new int[|nextHolds|](i requires 0 <= i < |nextHolds| => nextHolds[i]);
      assert mask[..] == maskHolds;
      if isFirstUpdate {
        kernel := Some(Kernel(currentLength, currentLength, mask, next));
        isSecondUpdate := true;
        FirstUpdateIsPrefix(maskHolds, batchSize, currentLength, currentLength);
      } else if isSecondUpdate {
        kernel := Some(Kernel(currentLength, 1, mask, next));
        isSecondUpdate := false;
        SecondUpdateIff(maskHolds, batchSize, currentLength);
      } else {
        LaterUpdateIff(maskHolds, batchSize, currentLength);
      }
      isFirstUpdate := false;
      Execute(kernel.value.maxLength, kernel.value.length, kernel.value.mask, kernel.value.next);
      ValidIs();
    }

    lemma ValidIs()
      ensures Valid() <==> 0 < batchSize && 0 < width && (if kernel.None? then isFirstUpdate else Recorded())
      ensures Recorded() <==>
        kernel.Some? && !isFirstUpdate && kernel.value.mask != kernel.value.next
        && 0 < kernel.value.maxLength <= kernel.value.mask.Length == kernel.value.next.Length
    {
    }
  }

  /** The device's row and the row kept on the CPU agree exactly when the prompt has no padding. */
  lemma DeviceRowIsCpuRowIff(prompt: seq<int>, padToken: int, maxLength: nat, steps: nat)
    requires |prompt| + steps <= maxLength
    ensures PrefixRow(maxLength, |prompt| + steps)[..|prompt| + steps] == MaskOf(prompt, padToken) + seq(steps, _ => 1)
       <==> padToken !in prompt
  {
    var device := PrefixRow(maxLength, |prompt| + steps)[..|prompt| + steps];
    var cpu := MaskOf(prompt, padToken) + seq(steps, _ => 1);
    if padToken in prompt {
      var i :| 0 <= i < |prompt| && prompt[i] == padToken;
      assert device[i] == 1 && cpu[i] == 0;
    } else {
      assert device == cpu;
    }
  }
}
