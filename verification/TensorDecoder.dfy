/** The decoder over flat cache tensors: read as columns, they are at every step the rows of `DecoderState`. */
module TensorDecoding {
  import opened FlatRows
  import opened TokenSequences
  import opened KvCaches
  import opened Generation
  import opened Decoder

  // ----- reading tensors as columns -----

  /** One token's keys and values: for each tensor the numbers of all heads. */
  type Column<T> = seq<seq<T>>

  predicate HasShape<T>(column: Column<T>, count: nat, width: nat) {
    |column| == count && forall i :: 0 <= i < count ==> |column[i]| == width
  }

  predicate RowHasShape<T>(row: seq<Column<T>>, count: nat, width: nat) {
    forall t :: 0 <= t < |row| ==> HasShape(row[t], count, width)
  }

  ghost predicate RowsHaveShape<T>(rows: seq<seq<Column<T>>>, count: nat, width: nat) {
    forall r :: 0 <= r < |rows| ==> RowHasShape(rows[r], count, width)
  }

  /** The numbers of one token in a beam's block of one tensor: [head][time][dim] at that time. */
  function Part<T>(block: seq<T>, heads: nat, time: nat, size: nat, t: nat): (r: seq<T>)
    requires |block| == heads * time * size && t < time
    ensures |r| == heads * size
  {
    seq(heads * size, x requires 0 <= x < heads * size =>
      (PartInside(heads, time, size, t, x); block[Inner(time, size, x / size, t, x % size)]))
  }

  lemma PartInside(heads: nat, time: nat, size: nat, t: nat, x: nat)
    requires t < time && x < heads * size
    ensures size > 0 && x / size < heads && x % size < size
      && Inner(time, size, x / size, t, x % size) < heads * time * size
  {
    BatchOf(x, heads, size);
    InnerInside(heads, time, size, x / size, t, x % size);
  }

  predicate BlocksFit<T>(blocks: seq<seq<T>>, block: nat) {
    forall i :: 0 <= i < |blocks| ==> |blocks[i]| == block
  }

  /** A beam's row: its block of every tensor, token by token. */
  function ColumnsOf<T>(blocks: seq<seq<T>>, heads: nat, time: nat, size: nat): (r: seq<Column<T>>)
    requires BlocksFit(blocks, heads * time * size)
    ensures |r| == time
  {
    seq(time, t requires 0 <= t < time => ColumnOf(blocks, heads, time, size, t))
  }

  function ColumnOf<T>(blocks: seq<seq<T>>, heads: nat, time: nat, size: nat, t: nat): (r: Column<T>)
    requires BlocksFit(blocks, heads * time * size) && t < time
    ensures |r| == |blocks|
  {
    seq(|blocks|, i requires 0 <= i < |blocks| => Part(blocks[i], heads, time, size, t))
  }

  /** Every tensor cut into the blocks of its beams. */
  ghost predicate TensorsFit<T>(tensors: seq<seq<seq<T>>>, beams: nat, block: nat) {
    forall i :: 0 <= i < |tensors| ==> |tensors[i]| == beams && BlocksFit(tensors[i], block)
  }

  ghost function BlocksOfBeam<T>(tensors: seq<seq<seq<T>>>, beams: nat, block: nat, r: nat): (b: seq<seq<T>>)
    requires TensorsFit(tensors, beams, block) && r < beams
    ensures |b| == |tensors| && BlocksFit(b, block)
  {
    seq(|tensors|, i requires 0 <= i < |tensors| => tensors[i][r])
  }

  ghost function TensorRows<T>(tensors: seq<seq<seq<T>>>, beams: nat, heads: nat, time: nat,
      size: nat): (rows: seq<seq<Column<T>>>)
    requires TensorsFit(tensors, beams, heads * time * size)
    ensures |rows| == beams
  {
    seq(beams, r requires 0 <= r < beams =>
      ColumnsOf(BlocksOfBeam(tensors, beams, heads * time * size, r), heads, time, size))
  }

  // ----- reordering -----

  /** Reordering the blocks of every tensor reorders the rows of columns. */
  lemma GatherMovesRows<T>(before: seq<seq<seq<T>>>, after: seq<seq<seq<T>>>, beams: nat, heads: nat, time: nat,
      size: nat, m: Move)
    requires TensorsFit(before, beams, heads * time * size) && TensorsFit(after, beams, heads * time * size)
      && |before| == |after| && Proper(m, beams)
    requires forall i :: 0 <= i < |before| ==> after[i] == Reordered(before[i], m)
    ensures TensorRows(after, beams, heads, time, size) == Reordered(TensorRows(before, beams, heads, time, size), m)
  {
    hide Reordered, ColumnsOf;
    forall r | 0 <= r < beams
      ensures TensorRows(after, beams, heads, time, size)[r]
        == TensorRows(before, beams, heads, time, size)[Parent(m, beams, r)]
    {
      assert BlocksOfBeam(after, beams, heads * time * size, r)
        == BlocksOfBeam(before, beams, heads * time * size, Parent(m, beams, r));
    }
  }

  /** The key planes and the value planes of combined tensors, each as a tensor of its own. */
  function Planes<T>(combined: seq<seq<seq<T>>>, beams: nat): (r: seq<seq<seq<T>>>)
    requires forall i :: 0 <= i < |combined| ==> |combined[i]| == 2 * beams
    ensures |r| == 2 * |combined|
    ensures forall k :: 0 <= k < |r| ==> |r[k]| == beams
  {
    seq(|combined|, i requires 0 <= i < |combined| => combined[i][..beams])
      + seq(|combined|, i requires 0 <= i < |combined| => combined[i][beams..])
  }

  lemma PlanesFit<T>(combined: seq<seq<seq<T>>>, beams: nat, block: nat)
    requires TensorsFit(combined, 2 * beams, block)
    ensures TensorsFit(Planes(combined, beams), beams, block)
  {
    var planes := Planes(combined, beams);
    forall k | 0 <= k < |planes| ensures BlocksFit(planes[k], block) {
      var whole := combined[if k < |combined| then k else k - |combined|];
      assert BlocksFit(whole, block);
      assert planes[k] == if k < |combined| then whole[..beams] else whole[beams..];
    }
  }

  /** The blocks of a combined tensor, both planes reordered. */
  ghost predicate BothMoved<T>(before: seq<seq<T>>, after: seq<seq<T>>, beams: nat, m: Move) {
    && (m.indices == [] ==> after == before)
    && (m.indices != [] ==> InRange(PlaneIndices(2, beams, m.indices), |before|))
    && (m.indices != [] ==> after == Gather(before, PlaneIndices(2, beams, m.indices)))
  }

  /** That is each plane reordered. */
  lemma PlaneMoves<T>(before: seq<seq<T>>, after: seq<seq<T>>, beams: nat, m: Move)
    requires |before| == 2 * beams && Proper(m, beams) && BothMoved(before, after, beams, m)
    ensures |after| == 2 * beams && after[..beams] == Reordered(before[..beams], m)
    ensures after[beams..] == Reordered(before[beams..], m)
  {
    if m.indices != [] {
      hide PlaneIndices;
      TwoPlanes(beams, m.indices);
      GatherPlanes(before, beams, m.indices);
    }
  }

  /** The combined layout moves the same rows of columns. */
  lemma CombinedMovesRows<T>(before: seq<seq<seq<T>>>, after: seq<seq<seq<T>>>, beams: nat, heads: nat, time: nat,
      size: nat, m: Move)
    requires TensorsFit(before, 2 * beams, heads * time * size) && TensorsFit(after, 2 * beams, heads * time * size)
      && |before| == |after| && Proper(m, beams)
    requires forall i :: 0 <= i < |before| ==> BothMoved(before[i], after[i], beams, m)
    ensures TensorsFit(Planes(before, beams), beams, heads * time * size)
      && TensorsFit(Planes(after, beams), beams, heads * time * size)
    ensures TensorRows(Planes(after, beams), beams, heads, time, size)
      == Reordered(TensorRows(Planes(before, beams), beams, heads, time, size), m)
  {
    hide BlocksFit, Reordered, BothMoved, TensorRows;
    PlanesFit(before, beams, heads * time * size);
    PlanesFit(after, beams, heads * time * size);
    forall k | 0 <= k < 2 * |before| ensures Planes(after, beams)[k] == Reordered(Planes(before, beams)[k], m) {
      var i := if k < |before| then k else k - |before|;
      PlaneMoves(before[i], after[i], beams, m);
    }
    GatherMovesRows(Planes(before, beams), Planes(after, beams), beams, heads, time, size, m);
  }

  // ----- writing -----

  /** The block that holds these columns. */
  function BlockFor<T>(row: seq<Column<T>>, count: nat, heads: nat, size: nat, i: nat): (r: seq<T>)
    requires RowHasShape(row, count, heads * size) && i < count
    ensures |r| == heads * |row| * size
  {
    seq(heads * |row| * size, y requires 0 <= y < heads * |row| * size => CellFor(row, count, heads, size, i, y))
  }

  function CellFor<T>(row: seq<Column<T>>, count: nat, heads: nat, size: nat, i: nat, y: nat): T
    requires RowHasShape(row, count, heads * size) && i < count && y < heads * |row| * size
  {
    CellInside(heads, |row|, size, y);
    row[y / size % |row|][i][y / size / |row| * size + y % size]
  }

  lemma CellInside(heads: nat, time: nat, size: nat, y: nat)
    requires y < heads * time * size
    ensures size > 0 && time > 0 && y / size / time < heads && y % size < size && y / size % time < time
    ensures 0 <= y / size / time * size + y % size < heads * size
  {
    BatchOf(y, heads * time, size);
    BatchOf(y / size, heads, time);
    RowInside(y / size / time, heads, size);
    NonNegative(y / size / time, size);
  }

  /** Reading a written block gives the columns back. */
  lemma BlockReads<T>(row: seq<Column<T>>, count: nat, heads: nat, size: nat, i: nat, t: nat)
    requires RowHasShape(row, count, heads * size) && i < count && t < |row|
    ensures Part(BlockFor(row, count, heads, size, i), heads, |row|, size, t) == row[t][i]
  {
    var time, part := |row|, Part(BlockFor(row, count, heads, size, i), heads, |row|, size, t);
    assert |part| == |row[t][i]|;
    forall x | 0 <= x < heads * size ensures part[x] == row[t][i][x] {
      PartInside(heads, time, size, t, x);
      InnerBack(heads, time, size, x / size, t, x % size);
      assert x == x / size * size + x % size;
    }
  }

  lemma InnerBack(heads: nat, time: nat, size: nat, h: nat, t: nat, d: nat)
    requires t < time && d < size
    ensures var y := Inner(time, size, h, t, d);
      y % size == d && y / size % time == t && y / size / time == h
  {
    NonNegative(h, time);
    RowOf(h * time + t, d, size);
    RowOf(h, t, time);
  }

  /** Tensors whose blocks were written from rows of columns read back as these rows. */
  lemma WrittenRows<T>(tensors: seq<seq<seq<T>>>, rows: seq<seq<Column<T>>>, count: nat, heads: nat, time: nat,
      size: nat)
    requires |tensors| == count && RowsHaveShape(rows, count, heads * size) && forall r :: 0 <= r < |rows| ==>
      |rows[r]| == time
    requires forall i :: 0 <= i < count ==> |tensors[i]| == |rows|
    requires forall i, r :: 0 <= i < count && 0 <= r < |rows| ==>
      tensors[i][r] == BlockFor(rows[r], count, heads, size, i)
    ensures TensorsFit(tensors, |rows|, heads * time * size) && TensorRows(tensors, |rows|, heads, time, size) == rows
  {
    WrittenFit(tensors, rows, count, heads, time, size);
    forall r | 0 <= r < |rows| ensures TensorRows(tensors, |rows|, heads, time, size)[r] == rows[r] {
      WrittenRow(BlocksOfBeam(tensors, |rows|, heads * time * size, r), rows[r], count, heads, size);
    }
  }

  /** All beams' blocks of tensor i. */
  function WrittenBlocks<T>(rows: seq<seq<Column<T>>>, count: nat, heads: nat, size: nat, i: nat): (r: seq<seq<T>>)
    requires RowsHaveShape(rows, count, heads * size) && i < count
    ensures |r| == |rows|
    ensures forall k :: 0 <= k < |rows| ==> r[k] == BlockFor(rows[k], count, heads, size, i)
  {
    seq(|rows|, k requires 0 <= k < |rows|
      && RowHasShape(rows[k], count, heads * size) => BlockFor(rows[k], count, heads, size, i))
  }

  lemma WrittenFit<T>(tensors: seq<seq<seq<T>>>, rows: seq<seq<Column<T>>>, count: nat, heads: nat, time: nat,
      size: nat)
    requires |tensors| == count && RowsHaveShape(rows, count, heads * size) && forall r :: 0 <= r < |rows| ==>
      |rows[r]| == time
    requires forall i :: 0 <= i < count ==> |tensors[i]| == |rows|
    requires forall i, r :: 0 <= i < count && 0 <= r < |rows| ==>
      tensors[i][r] == BlockFor(rows[r], count, heads, size, i)
    ensures TensorsFit(tensors, |rows|, heads * time * size)
  {
    hide HasShape, CellFor;
    forall i, r | 0 <= i < count && 0 <= r < |rows| ensures |tensors[i][r]| == heads * time * size {
      assert |rows[r]| == time && tensors[i][r] == BlockFor(rows[r], count, heads, size, i);
    }
  }

  lemma WrittenRow<T>(blocks: seq<seq<T>>, row: seq<Column<T>>, count: nat, heads: nat, size: nat)
    requires |blocks| == count && RowHasShape(row, count, heads * size) && BlocksFit(blocks, heads * |row| * size)
    requires forall i :: 0 <= i < count ==> blocks[i] == BlockFor(row, count, heads, size, i)
    ensures ColumnsOf(blocks, heads, |row|, size) == row
  {
    hide BlockFor, Part;
    forall t | 0 <= t < |row| ensures ColumnsOf(blocks, heads, |row|, size)[t] == row[t] {
      forall i | 0 <= i < count ensures ColumnOf(blocks, heads, |row|, size, t)[i] == row[t][i] {
        BlockReads(row, count, heads, size, i, t);
      }
      assert HasShape(row[t], count, heads * size);
    }
  }

  lemma EvenLengths<KV>(c: Cache<KV>, width: nat)
    requires Level(c) && Even(c.inputs.masks, width)
    ensures forall r :: 0 <= r < |c.presents| ==> |c.presents[r]| == width
  {
  }

  /** The model's columns have the shape that its cell gives them. */
  lemma {:induction false} ExtendHasShape<T(!new)>(cell: (seq<Column<T>>, Fed) -> Column<T>, past: seq<Column<T>>,
      ids: seq<int>, mask: seq<int>, positions: seq<int>, count: nat, width: nat)
    requires |mask| == |past| + |ids| && |positions| == |ids| && RowHasShape(past, count, width)
    requires forall before, fed :: HasShape(cell(before, fed), count, width)
    ensures RowHasShape(Extend(cell, past, ids, mask, positions), count, width)
    decreases |ids|
  {
    hide HasShape;
    if ids != [] {
      var n := |ids| - 1;
      ExtendHasShape(cell, past, ids[..n], mask[..|mask| - 1], positions[..n], count, width);
    }
  }

  lemma ModelHasShape<T(!new)>(cell: (seq<Column<T>>, Fed) -> Column<T>, inputs: Inputs, pasts: seq<seq<Column<T>>>,
      count: nat, width: nat)
    requires Fit(inputs, pasts) && RowsHaveShape(pasts, count, width)
    requires forall before, fed :: HasShape(cell(before, fed), count, width)
    ensures RowsHaveShape(Model(cell, inputs, pasts), count, width)
  {
    hide RowHasShape, HasShape, Extend;
    forall r | 0 <= r < |pasts| ensures RowHasShape(Model(cell, inputs, pasts)[r], count, width) {
      ExtendHasShape(cell, pasts[r], inputs.ids[r], inputs.masks[r], inputs.positions[r], count, width);
    }
  }

  // ----- the tensors -----

  method StoreSpan<T>(target: array<T>, to: nat, data: seq<T>)
    requires to + |data| <= target.Length
    modifies target
    ensures target[..] == Splice(old(target[..]), to, data)
  {
    hide *;
    ghost var before := target[..];
    SpliceNone(before, to);
    assert data[..0] == [];
    for k := 0 to |data|
      invariant target[..] == Splice(before, to, data[..k])
    {
      SpliceMore(before, to, data[..k], data[k]);
      assert data[..k + 1] == data[..k] + [data[k]];
      ghost var was := target[..];
      target[to + k] := data[k];
      assert target[..] == was[to + k := data[k]];
    }
    assert data[..|data|] == data;
  }

  /** Writes the blocks of all beams. */
  method WriteTensor<T>(tensor: array<T>, block: nat, blocks: seq<seq<T>>)
    requires tensor.Length == |blocks| * block && BlocksFit(blocks, block)
    modifies tensor
    ensures Blocks(tensor, |blocks|, block) == blocks
  {
    hide *;
    for r := 0 to |blocks|
      invariant Blocks(tensor, |blocks|, block)[..r] == blocks[..r]
    {
      BlockFits(blocks, block, r);
      SpliceRows(tensor[..], block, r, |blocks|, blocks[r]);
      ghost var before := Blocks(tensor, |blocks|, block);
      BlocksAre(tensor, |blocks|, block);
      NonNegative(r, block);
      StoreSpan(tensor, r * block, blocks[r]);
      BlocksAre(tensor, |blocks|, block);
      assert Blocks(tensor, |blocks|, block) == before[r := blocks[r]];
      assert before[r := blocks[r]][..r + 1] == before[..r] + [blocks[r]];
      assert blocks[..r + 1] == blocks[..r] + [blocks[r]];
    }
    assert Blocks(tensor, |blocks|, block)[..|blocks|] == Blocks(tensor, |blocks|, block)
      && blocks[..|blocks|] == blocks;
  }

  lemma BlockFits<T>(blocks: seq<seq<T>>, block: nat, r: nat)
    requires BlocksFit(blocks, block) && r < |blocks|
    ensures |blocks[r]| == block && r * block + block <= |blocks| * block
  {
    RowInside(r, |blocks|, block);
  }

  lemma BlocksAre<T>(tensor: array<T>, beams: nat, block: nat)
    requires tensor.Length == beams * block
    ensures Blocks(tensor, beams, block) == Rows(tensor[..], block, block, beams)
  {
  }

  ghost predicate LengthsFit<T>(tensors: seq<array<T>>, beams: nat, block: nat) {
    forall i :: 0 <= i < |tensors| ==> tensors[i].Length == beams * block
  }

  ghost function AllBlocks<T>(tensors: seq<array<T>>, beams: nat, block: nat): (r: seq<seq<seq<T>>>)
    reads tensors
    requires LengthsFit(tensors, beams, block)
    ensures |r| == |tensors| && TensorsFit(r, beams, block)
    ensures forall i :: 0 <= i < |r| ==> r[i] == Blocks(tensors[i], beams, block)
  {
    seq(|tensors|, i requires 0 <= i < |tensors|
      && LengthsFit(tensors, beams, block) reads tensors => Blocks(tensors[i], beams, block))
  }

  /** These tensors, read as columns, are these rows. */
  ghost predicate Holds<T>(tensors: seq<array<T>>, beams: nat, heads: nat, time: nat, size: nat,
      rows: seq<seq<Column<T>>>)
    reads tensors
  {
    LengthsFit(tensors, beams, heads * time * size)
    && TensorRows(AllBlocks(tensors, beams, heads * time * size), beams, heads, time, size) == rows
  }

  /** These combined tensors, read as columns of keys and values, are these rows. */
  ghost predicate HoldsCombined<T>(tensors: seq<array<T>>, beams: nat, heads: nat, time: nat, size: nat,
      rows: seq<seq<Column<T>>>)
    reads tensors
  {
    LengthsFit(tensors, 2 * beams, heads * time * size)
    && var planes := Planes(AllBlocks(tensors, 2 * beams, heads * time * size), beams);
       TensorsFit(planes, beams, heads * time * size) && TensorRows(planes, beams, heads, time, size) == rows
  }

  /** KV_Cache_Combined::Update reorders the rows that the combined tensors hold. */
  method UpdateCombined<T(0)>(cache: KvCacheCombined<T>, ghost rows: seq<seq<Column<T>>>, m: Move, currentLength: nat)
    requires cache.Valid() && Proper(m, cache.beams) && |rows| == cache.beams
    requires HoldsCombined(cache.presents, cache.beams, cache.heads, cache.time, cache.size, rows)
    modifies cache
    ensures cache.Valid() && cache.time == currentLength
    ensures HoldsCombined(cache.pasts, cache.beams, cache.heads, old(cache.time), cache.size, Reordered(rows, m))
  {
    hide *;
    ghost var block := cache.heads * cache.time * cache.size;
    HoldsCombinedIs(cache.presents, cache.beams, cache.heads, cache.time, cache.size, rows);
    ghost var before := AllBlocks(cache.presents, 2 * cache.beams, block);
    cache.ValidParts();
    ProperIs(m, cache.beams);
    cache.Update(m.indices, currentLength);
    cache.ValidParts();
    NextCombined(cache, before, old(cache.presents), block, m);
    CombinedMovesRows(before, AllBlocks(cache.pasts, 2 * cache.beams, block), cache.beams, cache.heads,
      old(cache.time), cache.size, m);
    MakeHoldsCombined(cache.pasts, cache.beams, cache.heads, old(cache.time), cache.size, Reordered(rows, m));
  }

  lemma ProperIs(m: Move, rows: nat)
    requires Proper(m, rows)
    ensures m.indices == [] || (|m.indices| == rows && InRange(m.indices, rows))
  {
  }

  lemma HoldsCombinedIs<T>(tensors: seq<array<T>>, beams: nat, heads: nat, time: nat, size: nat,
      rows: seq<seq<Column<T>>>)
    requires HoldsCombined(tensors, beams, heads, time, size, rows)
    ensures LengthsFit(tensors, 2 * beams, heads * time * size)
    ensures var planes := Planes(AllBlocks(tensors, 2 * beams, heads * time * size), beams);
      TensorsFit(planes, beams, heads * time * size) && TensorRows(planes, beams, heads, time, size) == rows
  {
  }

  lemma MakeHoldsCombined<T>(tensors: seq<array<T>>, beams: nat, heads: nat, time: nat, size: nat,
      rows: seq<seq<Column<T>>>)
    requires LengthsFit(tensors, 2 * beams, heads * time * size)
    requires var planes := Planes(AllBlocks(tensors, 2 * beams, heads * time * size), beams);
      TensorsFit(planes, beams, heads * time * size) && TensorRows(planes, beams, heads, time, size) == rows
    ensures HoldsCombined(tensors, beams, heads, time, size, rows)
  {
  }

  lemma NextCombined<T(0)>(cache: KvCacheCombined<T>, before: seq<seq<seq<T>>>, presents: seq<array<T>>, block: nat,
      m: Move)
    requires Proper(m, cache.beams) && |before| == |presents| == |cache.pasts|
      && TensorsFit(before, 2 * cache.beams, block)
    requires LengthsFit(presents, 2 * cache.beams, block) && forall i :: 0 <= i < |before| ==>
      before[i] == Blocks(presents[i], 2 * cache.beams, block)
    requires forall i :: 0 <= i < |presents| ==> cache.Next(cache.pasts[i], presents[i], block, m.indices)
    ensures LengthsFit(cache.pasts, 2 * cache.beams, block)
    ensures forall i :: 0 <= i < |before| ==>
      BothMoved(before[i], AllBlocks(cache.pasts, 2 * cache.beams, block)[i], cache.beams, m)
  {
    hide Blocks, PlaneIndices, Gather;
  }

  // ----- the decoder -----

  class TensorDecoder<T(!new, 0)> {
    const state: DecoderState<Column<T>>
    const cache: KvCache<T>

    ghost predicate Outside(tensor: array<T>)
      reads state.inputIds, state.positionInputs
    {
      && tensor as object != state.inputIds.value && tensor as object != state.positionInputs.attentionMask
      && tensor as object != state.positionInputs.positionIds
      && tensor as object != state.positionInputs.positionIdsNext
    }

    /** The caches' tensors are none of the other inputs. */
    ghost predicate Apart()
      reads cache, state.inputIds, state.positionInputs
    {
      (forall i :: 0 <= i < |cache.presents| ==> Outside(cache.presents[i])) && forall i :: 0 <= i < |cache.pasts| ==>
        Outside(cache.pasts[i])
    }

    /** The model computes columns of the caches' shape. */
    ghost predicate CellFits() {
      forall before, fed :: HasShape(state.cell(before, fed), cache.count, cache.heads * cache.size)
    }

    /** The presents have room for exactly the tokens under the mask, and hold the rows the decoder is said to hold. */
    ghost predicate Valid()
      reads state, state.inputIds, state.inputIds.value, state.positionInputs, state.positionInputs.attentionMask,
        state.positionInputs.positionIds, state.positionInputs.positionIdsNext, cache, cache.presents
    {
      && state.Valid() && cache.Valid() && CellFits() && Apart()
      && cache.beams == state.inputIds.rows && cache.time == state.positionInputs.maskWidth
      && (!state.firstRun ==>
            && RowsHaveShape(state.presents, cache.count, cache.heads * cache.size)
            && Holds(cache.presents, cache.beams, cache.heads, cache.time, cache.size, state.presents))
    }

    constructor (cell: (seq<Column<T>>, Fed) -> Column<T>, tokens: seq<int>, batchSize: nat, length: nat,
        padToken: int, numBeams: nat, count: nat, heads: nat, size: nat)
      requires numBeams > 0 && |tokens| == batchSize * length
      requires forall before, fed :: HasShape(cell(before, fed), count, heads * size)
      ensures Valid() && state.firstRun && state.cell == cell && cache.time == length
      ensures state.positionInputs.maskWidth == length && state.inputIds.rows == batchSize * numBeams
      ensures state.Current() == FirstInputs(Expanded(Rows(tokens, length, length, batchSize), numBeams), padToken)
    {
      hide *;
      var s := new DecoderState(cell, tokens, batchSize, length, padToken, numBeams);
      var c := new KvCache(count, batchSize * numBeams, heads, size, length);
      state, cache := s, c;
      new;
      cache.ValidParts();
      forall i | 0 <= i < count ensures Outside(cache.presents[i]) && Outside(cache.pasts[i]) {
        OutsideIs(cache.presents[i]);
        OutsideIs(cache.pasts[i]);
      }
      ApartIs();
      StartValid();
    }

    lemma OutsideIs(tensor: array<T>)
      ensures Outside(tensor) <==>
        tensor as object != state.inputIds.value && tensor as object != state.positionInputs.attentionMask
        && tensor as object != state.positionInputs.positionIds
        && tensor as object != state.positionInputs.positionIdsNext
    {
    }

    lemma ApartIs()
      ensures Apart() <==>
        (forall i :: 0 <= i < |cache.presents| ==> Outside(cache.presents[i]))
          && forall i :: 0 <= i < |cache.pasts| ==> Outside(cache.pasts[i])
    {
    }

    lemma StartValid()
      requires state.Valid() && state.firstRun && cache.Valid() && cache.beams == state.inputIds.rows
        && cache.time == state.positionInputs.maskWidth
      requires Apart() && forall before, fed :: HasShape(state.cell(before, fed), cache.count, cache.heads * cache.size)
      ensures Valid()
    {
    }

    lemma Parts()
      requires Valid()
      ensures state.Valid() && cache.Valid() && CellFits() && Apart()
      ensures cache.beams == state.inputIds.rows && cache.time == state.positionInputs.maskWidth
      ensures |cache.presents| == |cache.pasts| == cache.count
      ensures !state.firstRun ==> RowsHaveShape(state.presents, cache.count, cache.heads * cache.size)
      ensures !state.firstRun ==>
        Holds(cache.presents, cache.beams, cache.heads, cache.time, cache.size, state.presents)
    {
    }

    /** KV_Cache::Update reorders the rows that the tensors hold. */
    method UpdateCache(rows: seq<seq<Column<T>>>, m: Move, currentLength: nat)
      requires cache.Valid() && Proper(m, cache.beams) && |rows| == cache.beams
      requires Holds(cache.presents, cache.beams, cache.heads, cache.time, cache.size, rows)
      modifies cache
      ensures cache.Valid() && cache.time == currentLength
      ensures Proper(m, |rows|)
        && Holds(cache.pasts, cache.beams, cache.heads, old(cache.time), cache.size, Reordered(rows, m))
      ensures |cache.presents| == |cache.pasts| == cache.count == |old(cache.presents)|
      ensures forall i :: 0 <= i < cache.count ==>
        fresh(cache.presents[i]) && (cache.pasts[i] == old(cache.presents[i]) || fresh(cache.pasts[i]))
    {
      hide Rows, TensorRows, Blocks, Distinct, Separate;
      ghost var block := cache.heads * cache.time * cache.size;
      ghost var before := AllBlocks(cache.presents, cache.beams, block);
      cache.Update(m.indices, currentLength);
      NextMoves(before, old(cache.presents), block, m);
      GatherMovesRows(before, AllBlocks(cache.pasts, cache.beams, block), cache.beams, cache.heads, old(cache.time),
        cache.size, m);
    }

    lemma NextMoves(before: seq<seq<seq<T>>>, presents: seq<array<T>>, block: nat, m: Move)
      requires Proper(m, cache.beams) && |before| == |presents| == |cache.pasts|
        && TensorsFit(before, cache.beams, block)
      requires LengthsFit(presents, cache.beams, block) && forall i :: 0 <= i < |before| ==>
        before[i] == Blocks(presents[i], cache.beams, block)
      requires forall i :: 0 <= i < |presents| ==> cache.Next(cache.pasts[i], presents[i], block, m.indices)
      ensures LengthsFit(cache.pasts, cache.beams, block)
      ensures forall i :: 0 <= i < |before| ==> AllBlocks(cache.pasts, cache.beams, block)[i] == Reordered(before[i], m)
    {
      hide Blocks;
    }

    /** The session leaves its outputs in the presents. */
    method WriteOutputs()
      requires cache.Valid() && |state.presents| == cache.beams
        && RowsHaveShape(state.presents, cache.count, cache.heads * cache.size)
      requires forall r :: 0 <= r < |state.presents| ==> |state.presents[r]| == cache.time
      modifies cache.presents
      ensures Holds(cache.presents, cache.beams, cache.heads, cache.time, cache.size, state.presents)
    {
      ghost var block := cache.heads * cache.time * cache.size;
      for i := 0 to cache.count
        invariant forall k :: 0 <= k < i ==>
          Blocks(cache.presents[k], cache.beams, block)
          == WrittenBlocks(state.presents, cache.count, cache.heads, cache.size, k)
        modifies cache.presents
      {
        WriteTensor(cache.presents[i], cache.heads * cache.time * cache.size,
          WrittenBlocks(state.presents, cache.count, cache.heads, cache.size, i));
      }
      WrittenRows(AllBlocks(cache.presents, cache.beams, block), state.presents, cache.count, cache.heads, cache.time,
        cache.size);
    }

    /** The tensors stay apart from the inputs, whatever the inputs' update allocates. */
    lemma PresentsOutside(value: array<int>, mask: array<int>, ids: array<int>, next: array<int>)
      requires Apart() && value == state.inputIds.value && mask == state.positionInputs.attentionMask
      requires ids == state.positionInputs.positionIds && next == state.positionInputs.positionIdsNext
      ensures forall i :: 0 <= i < |cache.presents| ==>
        cache.presents[i] as object != value && cache.presents[i] as object != mask
          && cache.presents[i] as object != ids && cache.presents[i] as object != next
      ensures forall i :: 0 <= i < |cache.pasts| ==>
        cache.pasts[i] as object != value && cache.pasts[i] as object != mask && cache.pasts[i] as object != ids
          && cache.pasts[i] as object != next
    {
    }

    lemma LengthsAre()
      requires state.Valid() && !state.firstRun
      ensures |state.presents| == state.inputIds.rows && forall r :: 0 <= r < |state.presents| ==>
        |state.presents[r]| == state.positionInputs.maskWidth
    {
      hide *;
      state.Parts();
      state.MasksEven();
      state.ViewIs();
      EvenLengths(state.View(), state.positionInputs.maskWidth);
    }

    lemma FirstShape()
      requires state.inputIds.Valid() && state.positionInputs.Valid() && CellFits()
      requires Fit(state.Current(), state.pasts) && state.pasts == Empties(state.inputIds.rows)
        && state.presents == Model(state.cell, state.Current(), state.pasts)
      ensures RowsHaveShape(state.presents, cache.count, cache.heads * cache.size)
    {
      ModelHasShape(state.cell, state.Current(), state.pasts, cache.count, cache.heads * cache.size);
    }

    lemma LaterShape(c: Cache<Column<T>>, m: Move, currentLength: nat, d: Cache<Column<T>>)
      requires CellFits() && state.Follow(c, m, currentLength, d)
        && RowsHaveShape(c.presents, cache.count, cache.heads * cache.size)
      ensures Proper(m, |c.presents|) && d.pasts == Reordered(c.presents, m)
      ensures RowsHaveShape(d.presents, cache.count, cache.heads * cache.size)
      ensures Fit(d.inputs, d.pasts) && d.presents == Model(state.cell, d.inputs, d.pasts)
    {
      hide RowHasShape, HasShape, Reordered, Model, NextInputs;
      state.NextFit(c, m, currentLength - 1);
      ModelHasShape(state.cell, NextInputs(c.inputs, m), Reordered(c.presents, m), cache.count,
        cache.heads * cache.size);
    }

    lemma MakeValid()
      requires state.Valid() && cache.Valid() && CellFits() && Apart() && !state.firstRun
      requires cache.beams == state.inputIds.rows && cache.time == state.positionInputs.maskWidth
      requires RowsHaveShape(state.presents, cache.count, cache.heads * cache.size)
      requires Holds(cache.presents, cache.beams, cache.heads, cache.time, cache.size, state.presents)
      ensures Valid()
    {
    }

    /** The first run leaves the inputs as they are. */
    method FirstRun(currentLength: nat, nextTokens: seq<int>, nextIndices: seq<nat>)
      requires Valid() && state.firstRun
      modifies cache.presents, state, state.inputIds, state.inputIds.value, state.positionInputs,
        state.positionInputs.positionIds
      ensures Valid() && !state.firstRun && state.positionInputs.maskWidth == old(state.positionInputs.maskWidth)
      ensures (state.inputIds.value == old(state.inputIds.value) || fresh(state.inputIds.value))
        && state.positionInputs.positionIdsNext == old(state.positionInputs.positionIdsNext)
      ensures state.positionInputs.attentionMask == old(state.positionInputs.attentionMask)
        || fresh(state.positionInputs.attentionMask)
      ensures state.positionInputs.positionIds in {old(state.positionInputs.positionIds),
        old(state.positionInputs.positionIdsNext)}
      ensures state.Current() == old(state.Current()) && state.pasts == Empties(state.inputIds.rows)
      ensures Fit(state.Current(), state.pasts) && state.presents == Model(state.cell, state.Current(), state.pasts)
    {
      hide *;
      Parts();
      PresentsOutside(state.inputIds.value, state.positionInputs.attentionMask, state.positionInputs.positionIds,
        state.positionInputs.positionIdsNext);
      state.Parts();
      state.Run(currentLength, nextTokens, nextIndices);
      forall i | 0 <= i < |cache.presents| ensures Outside(cache.presents[i]) { OutsideIs(cache.presents[i]); }
      forall i | 0 <= i < |cache.pasts| ensures Outside(cache.pasts[i]) { OutsideIs(cache.pasts[i]); }
      ApartIs();
      state.Parts();
      FirstShape();
      LengthsAre();
      WriteOutputs();
      MakeValid();
    }

    /** Every later run moves inputs, tensors and rows by one step together. */
    method LaterRun(currentLength: nat, nextTokens: seq<int>, nextIndices: seq<nat>)
      requires Valid() && !state.firstRun
      requires currentLength == state.positionInputs.maskWidth + 1
        && Proper(Move(nextIndices, nextTokens), state.inputIds.rows)
      modifies cache, state, state.inputIds, state.inputIds.value, state.positionInputs,
        state.positionInputs.positionIds
      ensures Valid() && !state.firstRun && cache.time == state.positionInputs.maskWidth == currentLength
      ensures (state.inputIds.value == old(state.inputIds.value) || fresh(state.inputIds.value))
        && state.positionInputs.positionIdsNext == old(state.positionInputs.positionIdsNext)
      ensures state.positionInputs.attentionMask == old(state.positionInputs.attentionMask)
        || fresh(state.positionInputs.attentionMask)
      ensures state.positionInputs.positionIds in {old(state.positionInputs.positionIds),
        old(state.positionInputs.positionIdsNext)}
      ensures Holds(cache.pasts, cache.beams, cache.heads, old(cache.time), cache.size, state.pasts)
      ensures state.Follow(old(state.View()), Move(nextIndices, nextTokens), currentLength, state.View())
      ensures Proper(Move(nextIndices, nextTokens), |old(state.presents)|)
      ensures state.pasts == Reordered(old(state.presents), Move(nextIndices, nextTokens))
      ensures Fit(state.Current(), state.pasts) && state.presents == Model(state.cell, state.Current(), state.pasts)
    {
      hide *;
      Advance(currentLength, nextTokens, nextIndices);
      state.Parts();
      PresentsOutside(state.inputIds.value, state.positionInputs.attentionMask, state.positionInputs.positionIds,
        state.positionInputs.positionIdsNext);
      KeepsPasts();
      WriteOutputs();
      MakeValid();
    }

    /** UpdateInputsOutputs and the session's run, before the outputs are in the tensors. */
    method Advance(currentLength: nat, nextTokens: seq<int>, nextIndices: seq<nat>)
      requires Valid() && !state.firstRun
      requires currentLength == state.positionInputs.maskWidth + 1
        && Proper(Move(nextIndices, nextTokens), state.inputIds.rows)
      modifies cache, state, state.inputIds, state.inputIds.value, state.positionInputs,
        state.positionInputs.positionIds
      ensures state.Valid() && !state.firstRun && cache.Valid() && CellFits() && Apart()
      ensures cache.beams == state.inputIds.rows && cache.time == state.positionInputs.maskWidth == currentLength
      ensures |cache.presents| == cache.count && forall i :: 0 <= i < cache.count ==> fresh(cache.presents[i])
      ensures RowsHaveShape(state.presents, cache.count, cache.heads * cache.size)
      ensures |state.presents| == cache.beams && forall r :: 0 <= r < |state.presents| ==>
        |state.presents[r]| == cache.time
      ensures (state.inputIds.value == old(state.inputIds.value) || fresh(state.inputIds.value))
        && state.positionInputs.positionIdsNext == old(state.positionInputs.positionIdsNext)
      ensures state.positionInputs.attentionMask == old(state.positionInputs.attentionMask)
        || fresh(state.positionInputs.attentionMask)
      ensures state.positionInputs.positionIds in {old(state.positionInputs.positionIds),
        old(state.positionInputs.positionIdsNext)}
      ensures Holds(cache.pasts, cache.beams, cache.heads, old(cache.time), cache.size, state.pasts)
      ensures state.Follow(old(state.View()), Move(nextIndices, nextTokens), currentLength, state.View())
      ensures Proper(Move(nextIndices, nextTokens), |old(state.presents)|)
      ensures state.pasts == Reordered(old(state.presents), Move(nextIndices, nextTokens))
      ensures Fit(state.Current(), state.pasts) && state.presents == Model(state.cell, state.Current(), state.pasts)
    {
      hide *;
      Parts();
      ghost var m, c := Move(nextIndices, nextTokens), state.View();
      PresentsOutside(state.inputIds.value, state.positionInputs.attentionMask, state.positionInputs.positionIds,
        state.positionInputs.positionIdsNext);
      LengthsAre();
      state.Parts();
      state.ViewIs();
      UpdateCache(state.presents, Move(nextIndices, nextTokens), currentLength);
      state.Run(currentLength, nextTokens, nextIndices);
      state.Parts();
      state.ViewIs();
      forall i | 0 <= i < |cache.presents| ensures Outside(cache.presents[i]) { OutsideIs(cache.presents[i]); }
      forall i | 0 <= i < |cache.pasts| ensures Outside(cache.pasts[i]) { OutsideIs(cache.pasts[i]); }
      ApartIs();
      LaterShape(c, m, currentLength, state.View());
      LengthsAre();
    }

    lemma KeepsPasts()
      requires cache.Valid()
      ensures forall i, j :: 0 <= i < |cache.presents| && 0 <= j < |cache.pasts| ==> cache.presents[i] != cache.pasts[j]
    {
    }

    /** What the session reads from the past tensors. */
    ghost function ReadPasts(time: nat): seq<seq<Column<T>>>
      reads cache, cache.pasts
      requires LengthsFit(cache.pasts, cache.beams, cache.heads * time * cache.size)
    {
      TensorRows(AllBlocks(cache.pasts, cache.beams, cache.heads * time * cache.size), cache.beams, cache.heads, time,
        cache.size)
    }

    lemma ReadPastsIs(time: nat, rows: seq<seq<Column<T>>>)
      requires Holds(cache.pasts, cache.beams, cache.heads, time, cache.size, rows)
      ensures LengthsFit(cache.pasts, cache.beams, cache.heads * time * cache.size) && ReadPasts(time) == rows
    {
    }

    /** The first run: the inputs as they were, nothing in the caches. */
    ghost predicate FirstOutputs(was: Inputs)
      reads state, state.inputIds, state.inputIds.value, state.positionInputs, state.positionInputs.attentionMask,
        state.positionInputs.positionIds
    {
      && state.inputIds.Valid() && state.positionInputs.Valid() && state.Current() == was
      && state.pasts == Empties(state.inputIds.rows) && Fit(was, state.pasts)
      && state.presents == Model(state.cell, was, state.pasts)
    }

    /** A later run: the past tensors hold the reordered rows, and the outputs are the model's for what
        is read from them. */
    ghost predicate LaterOutputs(time: nat, m: Move, before: seq<seq<Column<T>>>)
      reads state, state.inputIds, state.inputIds.value, state.positionInputs, state.positionInputs.attentionMask,
        state.positionInputs.positionIds, cache, cache.pasts
    {
      && state.inputIds.Valid() && state.positionInputs.Valid() && Proper(m, |before|)
      && LengthsFit(cache.pasts, cache.beams, cache.heads * time * cache.size)
      && ReadPasts(time) == Reordered(before, m) && Fit(state.Current(), ReadPasts(time))
      && state.presents == Model(state.cell, state.Current(), ReadPasts(time))
    }

    /** State::Run with flat caches, by the contract of `DecoderState.Run`: afterwards the presents hold exactly the
        rows of the row-level decoder, with room for one column for each token under the mask. On a later run the
        outputs are the model's for the inputs and what is read from the past tensors, which is the reordered rows. */
    method Run(currentLength: nat, nextTokens: seq<int>, nextIndices: seq<nat>)
      requires Valid()
      requires !state.firstRun ==>
        currentLength == state.positionInputs.maskWidth + 1
        && Proper(Move(nextIndices, nextTokens), state.inputIds.rows)
      modifies cache, cache.presents, state, state.inputIds, state.inputIds.value, state.positionInputs,
        state.positionInputs.positionIds
      ensures Valid() && !state.firstRun
      ensures state.positionInputs.maskWidth
        == if old(state.firstRun) then old(state.positionInputs.maskWidth) else currentLength
      ensures (state.inputIds.value == old(state.inputIds.value) || fresh(state.inputIds.value))
        && state.positionInputs.positionIdsNext == old(state.positionInputs.positionIdsNext)
      ensures state.positionInputs.attentionMask == old(state.positionInputs.attentionMask)
        || fresh(state.positionInputs.attentionMask)
      ensures state.positionInputs.positionIds in {old(state.positionInputs.positionIds),
        old(state.positionInputs.positionIdsNext)}
      ensures old(state.firstRun) ==> FirstOutputs(old(state.Current()))
      ensures !old(state.firstRun) ==>
        && LaterOutputs(old(cache.time), Move(nextIndices, nextTokens), old(state.presents))
        && state.Follow(old(state.View()), Move(nextIndices, nextTokens), currentLength, state.View())
    {
      hide *;
      Parts();
      state.Parts();
      if state.firstRun {
        FirstRun(currentLength, nextTokens, nextIndices);
        Parts();
        state.Parts();
        MakeFirstOutputs(old(state.Current()));
      } else {
        LaterRun(currentLength, nextTokens, nextIndices);
        Parts();
        state.Parts();
        MakeLaterOutputs(old(cache.time), Move(nextIndices, nextTokens), old(state.presents));
      }
    }

    lemma MakeFirstOutputs(was: Inputs)
      requires state.inputIds.Valid() && state.positionInputs.Valid() && state.Current() == was
        && state.pasts == Empties(state.inputIds.rows)
      requires Fit(state.Current(), state.pasts) && state.presents == Model(state.cell, state.Current(), state.pasts)
      ensures FirstOutputs(was)
    {
    }

    lemma MakeLaterOutputs(time: nat, m: Move, before: seq<seq<Column<T>>>)
      requires state.inputIds.Valid() && state.positionInputs.Valid() && Proper(m, |before|)
      requires Holds(cache.pasts, cache.beams, cache.heads, time, cache.size, state.pasts)
        && state.pasts == Reordered(before, m)
      requires Fit(state.Current(), state.pasts) && state.presents == Model(state.cell, state.Current(), state.pasts)
      ensures LaterOutputs(time, m, before)
    {
      hide Fit, Model, Reordered;
      ReadPastsIs(time, state.pasts);
    }
  }
}
