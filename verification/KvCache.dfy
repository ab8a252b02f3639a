/** The key/value caches: flat tensors whose beam rows are reordered by the beam search's parent indices. */
module KvCaches {
  import opened FlatRows
  import opened TokenSequences

  // ----- the row-major layouts -----

  /** Flat position of element [plane][beam][head][time][dim]; the 4-D layout is the case of one plane. */
  function Offset(beams: nat, heads: nat, time: nat, size: nat, c: nat, b: nat, h: nat, t: nat, d: nat): nat {
    (((c * beams + b) * heads + h) * time + t) * size + d
  }

  /** The same position inside its beam's block. */
  function Inner(time: nat, size: nat, h: nat, t: nat, d: nat): nat {
    (h * time + t) * size + d
  }

  lemma InnerInside(heads: nat, time: nat, size: nat, h: nat, t: nat, d: nat)
    requires h < heads && t < time && d < size
    ensures Inner(time, size, h, t, d) < heads * time * size
  {
    RowInside(h, heads, time);
    RowInside(h * time + t, heads * time, size);
  }

  lemma OffsetIsInner(beams: nat, heads: nat, time: nat, size: nat, c: nat, b: nat, h: nat, t: nat, d: nat)
    ensures Offset(beams, heads, time, size, c, b, h, t, d)
      == (c * beams + b) * (heads * time * size) + Inner(time, size, h, t, d)
  {
    var r := c * beams + b;
    Distribute(r * heads, h, time);
    Distribute(r * heads * time, h * time + t, size);
    Associate(r, heads, time);
    Associate(r, heads * time, size);
  }

  lemma Distribute(a: nat, b: nat, x: nat)
    ensures (a + b) * x == a * x + b * x
  {
  }

  lemma Associate(a: nat, b: nat, c: nat)
    ensures a * b * c == a * (b * c)
  {
  }

  /** Every cell of a tensor belongs to some beam's block. */
  lemma CellHasRow(cell: nat, rows: nat, block: nat)
    requires cell < rows * block
    ensures block > 0 && cell / block < rows && cell == (cell / block) * block + cell % block
  {
    BatchOf(cell, rows, block);
  }

  // ----- gathering -----

  /** Rows of `present` picked for all planes: plane c of beam j comes from plane c of beam indices[j]. */
  function PlaneIndices(planes: nat, beams: nat, indices: seq<nat>): (r: seq<nat>)
    ensures |r| == planes * |indices|
  {
    if planes == 0 then []
    else
      assert planes * |indices| == (planes - 1) * |indices| + |indices|;
      PlaneIndices(planes - 1, beams, indices) + Shifted((planes - 1) * beams, indices)
  }

  function Shifted(base: nat, indices: seq<nat>): (r: seq<nat>)
    ensures |r| == |indices|
  {
    seq(|indices|, j requires 0 <= j < |indices| => base + indices[j])
  }

  lemma {:induction false} PlaneIndexAt(planes: nat, beams: nat, indices: seq<nat>, c: nat, j: nat)
    requires c < planes && j < |indices|
    ensures c * |indices| + j < planes * |indices|
    ensures PlaneIndices(planes, beams, indices)[c * |indices| + j] == c * beams + indices[j]
  {
    RowInside(c, planes, |indices|);
    if c < planes - 1 {
      PlaneIndexAt(planes - 1, beams, indices, c, j);
    }
  }

  /** The 4-D layout is the case of one plane. */
  lemma OnePlane(beams: nat, indices: seq<nat>)
    ensures PlaneIndices(1, beams, indices) == indices
  {
    assert PlaneIndices(1, beams, indices) == PlaneIndices(0, beams, indices) + Shifted(0, indices);
  }

  /** The block copies permute the beams of every plane and nothing else: for all shapes, in both layouts. */
  lemma GatherIsPermutation<T>(present: seq<T>, past: seq<T>, planes: nat, beams: nat, heads: nat, time: nat,
      size: nat, indices: seq<nat>, c: nat, j: nat, h: nat, t: nat, d: nat)
    requires |present| == |past| == planes * beams * (heads * time * size) && |indices| == beams
      && InRange(indices, beams)
    requires InRange(PlaneIndices(planes, beams, indices), planes * beams)
    requires Rows(past, heads * time * size, heads * time * size, planes * beams)
          == Gather(Rows(present, heads * time * size, heads * time * size, planes * beams),
            PlaneIndices(planes, beams, indices))
    requires c < planes && j < beams && h < heads && t < time && d < size
    ensures Offset(beams, heads, time, size, c, j, h, t, d) < |past|
    ensures Offset(beams, heads, time, size, c, indices[j], h, t, d) < |present|
    ensures past[Offset(beams, heads, time, size, c, j, h, t, d)]
      == present[Offset(beams, heads, time, size, c, indices[j], h, t, d)]
  {
    hide *;
    var block := heads * time * size;
    InnerInside(heads, time, size, h, t, d);
    OffsetIsInner(beams, heads, time, size, c, j, h, t, d);
    OffsetIsInner(beams, heads, time, size, c, indices[j], h, t, d);
    PlaneIndexAt(planes, beams, indices, c, j);
    RowInside(c, planes, beams);
    NonNegative(c, beams);
    GatheredCell(present, past, planes * beams, block, PlaneIndices(planes, beams, indices), c * beams + j,
      Inner(time, size, h, t, d));
  }

  lemma GatheredCell<T>(present: seq<T>, past: seq<T>, rows: nat, block: nat, picks: seq<nat>, r: nat, inner: nat)
    requires |present| == |past| == rows * block && |picks| == rows && InRange(picks, rows) && r < rows && inner < block
    requires Rows(past, block, block, rows) == Gather(Rows(present, block, block, rows), picks)
    ensures picks[r] < rows && 0 <= r * block + inner < |past| && 0 <= picks[r] * block + inner < |present|
    ensures past[r * block + inner] == present[picks[r] * block + inner]
  {
    hide *;
    GatherAt(Rows(present, block, block, rows), picks);
    PickInRange(picks, rows, r);
    CellOfRow(past, rows, block, r, inner);
    CellOfRow(present, rows, block, picks[r], inner);
  }

  lemma NonNegative(a: nat, b: nat)
    ensures 0 <= a * b
  {
  }

  lemma CellOfRow<T>(data: seq<T>, rows: nat, block: nat, r: nat, inner: nat)
    requires |data| == rows * block && r < rows && inner < block
    ensures 0 <= r * block + inner < |data|
    ensures Rows(data, block, block, rows)[r][inner] == data[r * block + inner]
  {
    RowInside(r, rows, block);
  }

  /** PickPastState of KV_Cache. */
  method PickPastState<T(0)>(present: array<T>, beams: nat, block: nat, beamIndices: seq<nat>) returns (past: array<T>)
    requires present.Length == beams * block && |beamIndices| == beams && InRange(beamIndices, beams)
    ensures fresh(past) && past.Length == present.Length
    ensures Rows(past[..], block, block, beams) == Gather(Rows(present[..], block, block, beams), beamIndices)
  {
    hide Rows, Gather;
    past := new T[beams * block];
    ghost var picked := Gather(Rows(present[..], block, block, beams), beamIndices);
    GatherAt(Rows(present[..], block, block, beams), beamIndices);
    for j := 0 to beams
      invariant Rows(past[..], block, block, beams)[..j] == picked[..j]
      modifies past
    {
      CopyRow(present, past, beams, block, beamIndices[j], j);
      assert picked[..j + 1] == picked[..j] + [picked[j]];
    }
    assert picked[..beams] == picked;
  }

  lemma GatherAt<T>(rows: seq<T>, indices: seq<nat>)
    requires InRange(indices, |rows|)
    ensures forall j :: 0 <= j < |indices| ==> Gather(rows, indices)[j] == rows[indices[j]]
  {
  }

  method CopyRow<T>(source: array<T>, target: array<T>, rows: nat, block: nat, from: nat, to: nat)
    requires source != target && source.Length == target.Length == rows * block && from < rows && to < rows
    modifies target
    ensures Rows(target[..], block, block, rows)
      == old(Rows(target[..], block, block, rows))[to := Rows(source[..], block, block, rows)[from]]
  {
    hide *;
    RowSlice(source[..], rows, block, from);
    RowSlice(target[..], rows, block, to);
    SpliceRows(target[..], block, to, rows, Rows(source[..], block, block, rows)[from]);
    CopySpan(source, from * block, target, to * block, block);
  }

  lemma RowSlice<T>(data: seq<T>, rows: nat, block: nat, i: nat)
    requires |data| == rows * block && i < rows
    ensures 0 <= i * block && i * block + block <= |data| && |Rows(data, block, block, rows)[i]| == block
    ensures Rows(data, block, block, rows)[i] == data[i * block..i * block + block]
  {
    RowInside(i, rows, block);
  }

  /** PickPastState of KV_Cache_Combined: the key plane and the value plane of each beam in turn. */
  method PickPastStateCombined<T(0)>(present: array<T>, beams: nat, block: nat, beamIndices: seq<nat>)
      returns (past: array<T>)
    requires present.Length == 2 * beams * block && |beamIndices| == beams && InRange(beamIndices, beams)
    ensures fresh(past) && past.Length == present.Length
    ensures InRange(PlaneIndices(2, beams, beamIndices), 2 * beams)
    ensures Rows(past[..], block, block, 2 * beams)
      == Gather(Rows(present[..], block, block, 2 * beams), PlaneIndices(2, beams, beamIndices))
  {
    hide *;
    past := new T[2 * beams * block];
    TwoPlanes(beams, beamIndices);
    ghost var rows := Rows(present[..], block, block, 2 * beams);
    ghost var picked := Gather(rows, PlaneIndices(2, beams, beamIndices));
    GatherPlanes(rows, beams, beamIndices);
    for j := 0 to beams
      invariant Rows(past[..], block, block, 2 * beams)[..j] == picked[..j]
      invariant Rows(past[..], block, block, 2 * beams)[beams..beams + j] == picked[beams..beams + j]
      modifies past
    {
      ghost var before := Rows(past[..], block, block, 2 * beams);
      PickInRange(beamIndices, beams, j);
      CopyRow(present, past, 2 * beams, block, beamIndices[j], j);
      CopyRow(present, past, 2 * beams, block, beams + beamIndices[j], beams + j);
      TwoWrites(before, picked, beams, j);
    }
    TwoHalves(Rows(past[..], block, block, 2 * beams), picked, beams);
  }

  lemma PickInRange(indices: seq<nat>, beams: nat, j: nat)
    requires InRange(indices, beams) && j < |indices|
    ensures indices[j] < beams
  {
  }

  lemma GatherPlanes<T>(rows: seq<seq<T>>, beams: nat, indices: seq<nat>)
    requires |rows| == 2 * beams && |indices| == beams && InRange(indices, beams)
    requires |PlaneIndices(2, beams, indices)| == 2 * beams && InRange(PlaneIndices(2, beams, indices), 2 * beams)
    ensures |Gather(rows, PlaneIndices(2, beams, indices))| == 2 * beams
    ensures forall j :: 0 <= j < beams ==>
      Gather(rows, PlaneIndices(2, beams, indices))[j] == rows[indices[j]]
      && Gather(rows, PlaneIndices(2, beams, indices))[beams + j] == rows[beams + indices[j]]
  {
    hide PlaneIndices;
    TwoPlanes(beams, indices);
    forall j | 0 <= j < beams ensures indices[j] < beams { }
  }

  lemma TwoWrites<T>(before: seq<T>, picked: seq<T>, beams: nat, j: nat)
    requires |before| == |picked| == 2 * beams && j < beams
    requires before[..j] == picked[..j] && before[beams..beams + j] == picked[beams..beams + j]
    ensures var after := before[j := picked[j]][beams + j := picked[beams + j]];
      after[..j + 1] == picked[..j + 1] && after[beams..beams + (j + 1)] == picked[beams..beams + (j + 1)]
  {
    var after := before[j := picked[j]][beams + j := picked[beams + j]];
    assert after[..j] == before[..j] && after[beams..beams + j] == before[beams..beams + j];
    assert after[..j + 1] == after[..j] + [picked[j]] && picked[..j + 1] == picked[..j] + [picked[j]];
    assert after[beams..beams + (j + 1)] == after[beams..beams + j] + [picked[beams + j]];
    assert picked[beams..beams + (j + 1)] == picked[beams..beams + j] + [picked[beams + j]];
  }

  lemma TwoHalves<T>(a: seq<T>, b: seq<T>, half: nat)
    requires |a| == |b| == 2 * half && a[..half] == b[..half] && a[half..half + half] == b[half..half + half]
    ensures a == b
  {
    assert a == a[..half] + a[half..half + half] && b == b[..half] + b[half..half + half];
  }

  lemma TwoPlanes(beams: nat, indices: seq<nat>)
    requires |indices| == beams && InRange(indices, beams)
    ensures |PlaneIndices(2, beams, indices)| == 2 * beams && InRange(PlaneIndices(2, beams, indices), 2 * beams)
    ensures forall j :: 0 <= j < beams ==> PlaneIndices(2, beams, indices)[j] == indices[j]
    ensures forall j :: 0 <= j < beams ==> PlaneIndices(2, beams, indices)[beams + j] == beams + indices[j]
  {
    var second := Shifted(1 * beams, indices);
    assert PlaneIndices(1, beams, indices) == PlaneIndices(0, beams, indices) + Shifted(0 * beams, indices);
    var all := PlaneIndices(2, beams, indices);
    assert all == PlaneIndices(1, beams, indices) + second;
    forall j | 0 <= j < 2 * beams ensures all[j] < 2 * beams {
      if j >= beams {
        assert all[j] == second[j - beams];
      }
    }
    forall j | 0 <= j < beams ensures all[beams + j] == beams + indices[j] {
      assert all[beams + j] == second[j];
    }
  }

  // ----- the cache -----

  /** Every beam's block of a tensor. */
  ghost function Blocks<T>(tensor: array<T>, beams: nat, block: nat): (r: seq<seq<T>>)
    reads tensor
    requires tensor.Length == beams * block
    ensures |r| == beams
  {
    Rows(tensor[..], block, block, beams)
  }

  predicate Distinct<T>(tensors: seq<array<T>>) {
    forall i, j :: 0 <= i < j < |tensors| ==> tensors[i] != tensors[j]
  }

  predicate Separate<T>(tensors: seq<array<T>>, others: seq<array<T>>) {
    forall i, j :: 0 <= i < |tensors| && 0 <= j < |others| ==> tensors[i] != others[j]
  }

  lemma SeparateIs<T>(tensors: seq<array<T>>, others: seq<array<T>>)
    ensures Separate(tensors, others)
      <==> forall i, j :: 0 <= i < |tensors| && 0 <= j < |others| ==> tensors[i] != others[j]
  {
  }

  class KvCache<T(0)> {
    const count: nat  // keys and values of every layer
    const beams: nat
    const heads: nat
    const size: nat
    var time: nat  // shape_[2], the time axis of the presents
    var pasts: seq<array<T>>
    var presents: seq<array<T>>

    ghost predicate Valid() reads this {
      && |pasts| == |presents| == count && Distinct(presents) && Separate(presents, pasts)
      && forall i :: 0 <= i < count ==> presents[i].Length == beams * (heads * time * size)
    }

    constructor (count: nat, beams: nat, heads: nat, size: nat, sequenceLength: nat)
      ensures Valid() && time == sequenceLength && this.count == count && this.beams == beams && this.heads == heads
        && this.size == size
      ensures forall i :: 0 <= i < count ==> fresh(presents[i])
      ensures forall i :: 0 <= i < count ==> fresh(pasts[i]) && pasts[i].Length == 0
    {
      var empty := new T[0];
      var tensors := CreateTensors<T>(count, beams * (heads * sequenceLength * size));
      this.count, this.beams, this.heads, this.size, time := count, beams, heads, size, sequenceLength;
      pasts := seq(count, _ => empty);
      presents := tensors;
    }

    /** The model's outputs become its next inputs, reordered when beam indices are given; new outputs are allocated. */
    method Update(beamIndices: seq<nat>, currentLength: nat)
      requires Valid() && (beamIndices == [] || (|beamIndices| == beams && InRange(beamIndices, beams)))
      modifies this
      ensures Valid() && time == currentLength
      ensures forall i :: 0 <= i < count ==> fresh(presents[i]) && (pasts[i] == old(presents[i]) || fresh(pasts[i]))
      ensures forall i :: 0 <= i < count ==> Next(pasts[i], old(presents[i]), heads * old(time) * size, beamIndices)
    {
      hide *;
      ValidParts();
      ghost var block := heads * time * size;
      ghost var outputs := presents;
      var i := 0;
      while i < count
        invariant i <= count && |pasts| == |presents| == count && presents == outputs && time == old(time)
        invariant forall k :: 0 <= k < i ==>
          Next(pasts[k], outputs[k], block, beamIndices) && (pasts[k] == outputs[k] || fresh(pasts[k]))
        modifies this`pasts
      {
        PastOf(i, beamIndices);
        i := i + 1;
      }
      time := currentLength;
      presents := CreateTensors<T>(count, beams * (heads * time * size));
      SeparateIs(presents, pasts);
      PartsValid();
    }

    /** A past holds the beams of an earlier output, in the order the beam indices give. */
    ghost predicate Next(past: array<T>, present: array<T>, block: nat, beamIndices: seq<nat>)
      requires beamIndices == [] || (|beamIndices| == beams && InRange(beamIndices, beams))
      reads past, present
    {
      && present.Length == past.Length == beams * block
      && Blocks(past, beams, block)
        == (if beamIndices == [] then Blocks(present, beams, block)
        else Gather(Blocks(present, beams, block), beamIndices))
    }

    method PastOf(i: nat, beamIndices: seq<nat>)
      requires i < count && |pasts| == |presents| == count
      requires presents[i].Length == beams * (heads * time * size)
      requires beamIndices == [] || (|beamIndices| == beams && InRange(beamIndices, beams))
      modifies this`pasts
      ensures |pasts| == count
      ensures forall k :: 0 <= k < count && k != i ==> pasts[k] == old(pasts)[k]
      ensures Next(pasts[i], presents[i], heads * time * size, beamIndices)
        && (pasts[i] == presents[i] || fresh(pasts[i]))
    {
      hide Rows, Gather, InRange;
      if beamIndices == [] {
        pasts := pasts[i := presents[i]];
      } else {
        var past := PickPastState(presents[i], beams, heads * time * size, beamIndices);
        pasts := pasts[i := past];
      }
    }

    lemma ValidParts()
      requires Valid()
      ensures |pasts| == |presents| == count
      ensures forall i :: 0 <= i < count ==> presents[i].Length == beams * (heads * time * size)
    {
    }

    lemma PartsValid()
      requires |pasts| == |presents| == count && Distinct(presents) && Separate(presents, pasts)
      requires forall i :: 0 <= i < count ==> presents[i].Length == beams * (heads * time * size)
      ensures Valid()
    {
    }
  }

  /** KV_Cache_Combined: keys and values of a layer in the two planes of one tensor. */
  class KvCacheCombined<T(0)> {
    const layers: nat
    const beams: nat
    const heads: nat
    const size: nat
    var time: nat  // shape_[3]
    var pasts: seq<array<T>>
    var presents: seq<array<T>>

    ghost predicate Valid() reads this {
      && |pasts| == |presents| == layers && Distinct(presents) && Separate(presents, pasts)
      && forall i :: 0 <= i < layers ==> presents[i].Length == TensorLength(time)
    }

    /** Both planes of every beam. */
    function TensorLength(time: nat): nat {
      2 * beams * (heads * time * size)
    }

    constructor (layers: nat, beams: nat, heads: nat, size: nat, sequenceLength: nat)
      ensures Valid() && time == sequenceLength && this.layers == layers && this.beams == beams && this.heads == heads
        && this.size == size
      ensures forall i :: 0 <= i < layers ==> fresh(presents[i])
      ensures forall i :: 0 <= i < layers ==> fresh(pasts[i]) && pasts[i].Length == 0
    {
      var empty := new T[0];
      var tensors := CreateTensors<T>(layers, 2 * beams * (heads * sequenceLength * size));
      this.layers, this.beams, this.heads, this.size, time := layers, beams, heads, size, sequenceLength;
      pasts := seq(layers, _ => empty);
      presents := tensors;
    }

    /** As for the separate tensors, with both planes reordered by the same indices. */
    method Update(beamIndices: seq<nat>, currentLength: nat)
      requires Valid() && (beamIndices == [] || (|beamIndices| == beams && InRange(beamIndices, beams)))
      modifies this
      ensures Valid() && time == currentLength
      ensures forall i :: 0 <= i < layers ==> fresh(presents[i])
      ensures forall i :: 0 <= i < layers ==> Next(pasts[i], old(presents[i]), heads * old(time) * size, beamIndices)
    {
      hide *;
      ValidParts();
      ghost var block := heads * time * size;
      ghost var outputs := presents;
      var i := 0;
      while i < layers
        invariant i <= layers && |pasts| == |presents| == layers && presents == outputs && time == old(time)
        invariant forall k :: 0 <= k < i ==> Next(pasts[k], outputs[k], block, beamIndices)
        modifies this`pasts
      {
        PastOf(i, beamIndices);
        i := i + 1;
      }
      time := currentLength;
      presents := CreateTensors<T>(layers, TensorLength(time));
      SeparateIs(presents, pasts);
      PartsValid();
    }

    /** Plane c of beam j holds plane c of beam beamIndices[j]. */
    ghost predicate Next(past: array<T>, present: array<T>, block: nat, beamIndices: seq<nat>)
      requires beamIndices == [] || (|beamIndices| == beams && InRange(beamIndices, beams))
      reads past, present
    {
      && present.Length == past.Length == 2 * beams * block
      && if beamIndices == [] then Blocks(past, 2 * beams, block) == Blocks(present, 2 * beams, block)
         else InRange(PlaneIndices(2, beams, beamIndices), 2 * beams)
              && Blocks(past, 2 * beams, block)
                == Gather(Blocks(present, 2 * beams, block), PlaneIndices(2, beams, beamIndices))
    }

    method PastOf(i: nat, beamIndices: seq<nat>)
      requires i < layers && |pasts| == |presents| == layers
      requires presents[i].Length == TensorLength(time)
      requires beamIndices == [] || (|beamIndices| == beams && InRange(beamIndices, beams))
      modifies this`pasts
      ensures |pasts| == layers
      ensures forall k :: 0 <= k < layers && k != i ==> pasts[k] == old(pasts)[k]
      ensures Next(pasts[i], presents[i], heads * time * size, beamIndices)
    {
      hide Rows, Gather, InRange, PlaneIndices;
      if beamIndices == [] {
        pasts := pasts[i := presents[i]];
      } else {
        var past := PickPastStateCombined(presents[i], beams, heads * time * size, beamIndices);
        pasts := pasts[i := past];
      }
    }

    lemma ValidParts()
      requires Valid()
      ensures |pasts| == |presents| == layers
      ensures forall i :: 0 <= i < layers ==> presents[i].Length == TensorLength(time)
    {
    }

    lemma PartsValid()
      requires |pasts| == |presents| == layers && Distinct(presents) && Separate(presents, pasts)
      requires forall i :: 0 <= i < layers ==> presents[i].Length == TensorLength(time)
      ensures Valid()
    {
    }
  }

  method CreateTensors<T(0)>(count: nat, elements: nat) returns (tensors: seq<array<T>>)
    ensures |tensors| == count && Distinct(tensors)
    ensures forall i :: 0 <= i < count ==> fresh(tensors[i]) && tensors[i].Length == elements
  {
    tensors := [];
    for i := 0 to count
      invariant |tensors| == i && Distinct(tensors)
      invariant forall k :: 0 <= k < i ==> fresh(tensors[k]) && tensors[k].Length == elements
    {
      var tensor := new T[elements];
      tensors := tensors + [tensor];
    }
  }
}
