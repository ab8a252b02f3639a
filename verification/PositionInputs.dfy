/** The attention mask and the position ids of all rows, grown in step with the sequences. */
module PositionTensors {
  import opened FlatRows
  import opened TokenSequences

  /** The number of tokens a mask row lets through. */
  function Ones(bits: seq<int>): (n: nat)
    ensures n <= |bits|
  {
    if bits == [] then 0
    else Ones(bits[..|bits| - 1]) + if bits[|bits| - 1] == 1 then 1 else 0
  }

  function MaskOf(tokens: seq<int>, padToken: int): (r: seq<int>)
    ensures |r| == |tokens|
  {
    seq(|tokens|, j requires 0 <= j < |tokens| => if tokens[j] == padToken then 0 else 1)
  }

  /** A token's position is the number of unmasked tokens before it; a masked token's is 0. */
  function PositionsOf(mask: seq<int>): (r: seq<int>)
    ensures |r| == |mask|
  {
    seq(|mask|, j requires 0 <= j < |mask| => if mask[j] == 1 then Ones(mask[..j]) else 0)
  }

  lemma OnesMore(bits: seq<int>, bit: int)
    ensures Ones(bits + [bit]) == Ones(bits) + if bit == 1 then 1 else 0
  {
    assert (bits + [bit])[..|bits|] == bits;
  }

  lemma PositionsMore(mask: seq<int>, bit: int)
    ensures PositionsOf(mask + [bit]) == PositionsOf(mask) + [if bit == 1 then Ones(mask) else 0]
  {
    var longer := mask + [bit];
    assert longer[..|mask|] == mask;
    forall j | 0 <= j < |mask| ensures PositionsOf(longer)[j] == PositionsOf(mask)[j] {
      assert longer[..j] == mask[..j];
    }
  }

  lemma MaskMore(tokens: seq<int>, token: int, padToken: int)
    ensures MaskOf(tokens + [token], padToken) == MaskOf(tokens, padToken) + [if token == padToken then 0 else 1]
  {
  }

  ghost function RealBefore(tokens: seq<int>, padToken: int, j: nat): set<nat>
    requires j <= |tokens|
  {
    set i: nat | i < j && tokens[i] != padToken
  }

  lemma RealMore(tokens: seq<int>, padToken: int, j: nat)
    requires j < |tokens|
    ensures |RealBefore(tokens, padToken, j + 1)|
      == |RealBefore(tokens, padToken, j)| + if tokens[j] == padToken then 0 else 1
  {
    var before := RealBefore(tokens, padToken, j);
    assert RealBefore(tokens, padToken, j + 1) == if tokens[j] == padToken then before else before + {j};
  }

  lemma {:induction false} OnesIsCount(tokens: seq<int>, padToken: int, j: nat)
    requires j <= |tokens|
    ensures Ones(MaskOf(tokens, padToken)[..j]) == |RealBefore(tokens, padToken, j)|
  {
    hide RealBefore, Ones;
    var mask := MaskOf(tokens, padToken);
    if j == 0 {
      NothingBefore(tokens, padToken);
      assert mask[..0] == [];
    } else {
      OnesIsCount(tokens, padToken, j - 1);
      RealMore(tokens, padToken, j - 1);
      assert mask[..j] == mask[..j - 1] + [mask[j - 1]];
      OnesMore(mask[..j - 1], mask[j - 1]);
    }
  }

  lemma NothingBefore(tokens: seq<int>, padToken: int)
    ensures RealBefore(tokens, padToken, 0) == {} && Ones([]) == 0
  {
  }

  /** The mask of a prompt tells padding from tokens, and a token's position is how many tokens there are before it. */
  lemma PositionIsCount(tokens: seq<int>, padToken: int, j: nat)
    requires j < |tokens|
    ensures MaskOf(tokens, padToken)[j] == if tokens[j] == padToken then 0 else 1
    ensures PositionsOf(MaskOf(tokens, padToken))[j]
      == if tokens[j] == padToken then 0 else |RealBefore(tokens, padToken, j)|
  {
    OnesIsCount(tokens, padToken, j);
  }

  /** One step of all rows: every row gains a 1. */
  function Grown(masks: seq<seq<int>>): (r: seq<seq<int>>)
    ensures |r| == |masks|
  {
    seq(|masks|, i requires 0 <= i < |masks| => masks[i] + [1])
  }

  // ----- the prompt -----

  /** The inner loop of InitializeTensors: one prompt's mask and positions, and how many tokens it has. */
  method InitializeRow(tokens: seq<int>, padToken: int, start: nat, mask: array<int>, position: array<int>)
      returns (absPosition: nat)
    requires mask != position && mask.Length == position.Length && start + |tokens| <= mask.Length
    modifies mask, position
    ensures absPosition == Ones(MaskOf(tokens, padToken))
    ensures mask[..] == Splice(old(mask[..]), start, MaskOf(tokens, padToken))
    ensures position[..] == Splice(old(position[..]), start, PositionsOf(MaskOf(tokens, padToken)))
  {
    absPosition := 0;
    for j := 0 to |tokens|
      invariant absPosition == Ones(MaskOf(tokens[..j], padToken))
      invariant mask[..] == Splice(old(mask[..]), start, MaskOf(tokens[..j], padToken))
      invariant position[..] == Splice(old(position[..]), start, PositionsOf(MaskOf(tokens[..j], padToken)))
    {
      RowStep(tokens, padToken, j, old(mask[..]), old(position[..]), start);
      if tokens[j] == padToken {
        mask[start + j], position[start + j] := 0, 0;
      } else {
        mask[start + j], position[start + j] := 1, absPosition;
        absPosition := absPosition + 1;
      }
    }
    assert tokens[..|tokens|] == tokens;
  }

  lemma RowStep(tokens: seq<int>, padToken: int, j: nat, mask: seq<int>, position: seq<int>, start: nat)
    requires j < |tokens| && start + |tokens| <= |mask| == |position|
    ensures var (seen, bit) := (MaskOf(tokens[..j], padToken), if tokens[j] == padToken then 0 else 1);
      && Ones(MaskOf(tokens[..j + 1], padToken)) == Ones(seen) + bit
      && Splice(mask, start, MaskOf(tokens[..j + 1], padToken)) == Splice(mask, start, seen)[start + j := bit]
      && Splice(position, start, PositionsOf(MaskOf(tokens[..j + 1], padToken)))
      == Splice(position, start, PositionsOf(seen))[start + j := if bit == 1 then Ones(seen) else 0]
  {
    hide Splice, PositionsOf, MaskOf, Ones;
    var seen, bit := MaskOf(tokens[..j], padToken), if tokens[j] == padToken then 0 else 1;
    assert tokens[..j + 1] == tokens[..j] + [tokens[j]];
    MaskMore(tokens[..j], tokens[j], padToken);
    OnesMore(seen, bit);
    PositionsMore(seen, bit);
    SpliceMore(mask, start, seen, bit);
    SpliceMore(position, start, PositionsOf(seen), if bit == 1 then Ones(seen) else 0);
  }

  /** Every prompt's mask, positions and next position. */
  ghost function MasksOf(prompts: seq<seq<int>>, padToken: int): (r: seq<seq<int>>)
    ensures |r| == |prompts|
  {
    seq(|prompts|, i requires 0 <= i < |prompts| => MaskOf(prompts[i], padToken))
  }

  ghost function AllPositions(masks: seq<seq<int>>): (r: seq<seq<int>>)
    ensures |r| == |masks|
  {
    seq(|masks|, i requires 0 <= i < |masks| => PositionsOf(masks[i]))
  }

  ghost function Counts(masks: seq<seq<int>>): (r: seq<int>)
    ensures |r| == |masks|
  {
    seq(|masks|, i requires 0 <= i < |masks| => Ones(masks[i]))
  }

  method InitializeTensors(inputIds: seq<int>, batchSize: nat, length: nat, padToken: int)
      returns (mask: array<int>, position: array<int>, positionNext: array<int>)
    requires |inputIds| == batchSize * length
    ensures fresh(mask) && fresh(position) && fresh(positionNext) && mask != position && mask != positionNext
    ensures mask.Length == position.Length == batchSize * length && positionNext.Length == batchSize
    ensures Rows(mask[..], length, length, batchSize) == MasksOf(Rows(inputIds, length, length, batchSize), padToken)
    ensures Rows(position[..], length, length, batchSize)
      == AllPositions(MasksOf(Rows(inputIds, length, length, batchSize), padToken))
    ensures positionNext[..] == Counts(MasksOf(Rows(inputIds, length, length, batchSize), padToken))
  {
    hide Splice, PositionsOf, MaskOf, Ones, Rows, MasksOf, AllPositions, Counts;
    mask, position, positionNext := new int[batchSize * length], new int[batchSize * length], new int[batchSize];
    ghost var masks := MasksOf(Rows(inputIds, length, length, batchSize), padToken);
    for i := 0 to batchSize
      invariant mask.Length == position.Length == batchSize * length
      invariant Rows(mask[..], length, length, batchSize)[..i] == masks[..i]
      invariant Rows(position[..], length, length, batchSize)[..i] == AllPositions(masks)[..i]
      invariant positionNext[..i] == Counts(masks)[..i]
    {
      ghost var masksBefore, positionsBefore :=
        Rows(mask[..], length, length, batchSize), Rows(position[..], length, length, batchSize);
      RowInside(i, batchSize, length);
      SpliceRows(mask[..], length, i, batchSize, MaskOf(inputIds[i * length..i * length + length], padToken));
      SpliceRows(position[..], length, i, batchSize,
        PositionsOf(MaskOf(inputIds[i * length..i * length + length], padToken)));
      PromptAt(inputIds, batchSize, length, padToken, i);
      var absPosition := InitializeRow(inputIds[i * length..i * length + length], padToken, i * length, mask, position);
      positionNext[i] := absPosition;
      NextPrefix(masksBefore, masks, i);
      NextPrefix(positionsBefore, AllPositions(masks), i);
    }
  }

  lemma NextPrefix<T>(before: seq<T>, result: seq<T>, i: nat)
    requires i < |before| == |result| && before[..i] == result[..i]
    ensures before[i := result[i]][..i + 1] == result[..i + 1]
  {
  }

  lemma PromptAt(inputIds: seq<int>, batchSize: nat, length: nat, padToken: int, i: nat)
    requires |inputIds| == batchSize * length && i < batchSize
    ensures i * length + length <= |inputIds|
    ensures var masks := MasksOf(Rows(inputIds, length, length, batchSize), padToken);
      && masks[i] == MaskOf(inputIds[i * length..i * length + length], padToken)
      && AllPositions(masks)[i] == PositionsOf(masks[i]) && Counts(masks)[i] == Ones(masks[i])
  {
    RowInside(i, batchSize, length);
  }

  /** ExpandInputs: every row of a tensor, once for each beam. */
  method ExpandInputs(input: array<int>, batchSize: nat, width: nat, numBeams: nat) returns (expanded: array<int>)
    requires numBeams > 0 && input.Length == batchSize * width
    ensures expanded == input || fresh(expanded)
    ensures expanded.Length == batchSize * numBeams * width
    ensures Rows(expanded[..], width, width, batchSize * numBeams)
      == Expanded(Rows(input[..], width, width, batchSize), numBeams)
  {
    hide Rows, Expanded;
    if numBeams == 1 {
      ExpandOne(Rows(input[..], width, width, batchSize));
      return input;
    }
    expanded := new int[batchSize * numBeams * width];
    ghost var result := Expanded(Rows(input[..], width, width, batchSize), numBeams);
    var target := 0;
    for i := 0 to batchSize
      invariant target == i * numBeams <= batchSize * numBeams
      invariant Rows(expanded[..], width, width, batchSize * numBeams)[..target] == result[..target]
    {
      RowInside(i, batchSize, numBeams);
      for j := 0 to numBeams
        invariant target == i * numBeams + j && i * numBeams + numBeams <= batchSize * numBeams
        invariant Rows(expanded[..], width, width, batchSize * numBeams)[..target] == result[..target]
      {
        ghost var before := Rows(expanded[..], width, width, batchSize * numBeams);
        ExpandedIs(Rows(input[..], width, width, batchSize), numBeams, i, j);
        WriteRow(expanded, batchSize * numBeams, width, target, input, i, batchSize);
        NextPrefix(before, result, target);
        target := target + 1;
      }
      NextBlock(i, numBeams);
    }
  }

  lemma NextBlock(i: nat, width: nat)
    ensures (i + 1) * width == i * width + width
  {
  }

  lemma ExpandOne(rows: seq<seq<int>>)
    ensures Expanded(rows, 1) == rows
  {
  }

  lemma ExpandedIs(rows: seq<seq<int>>, numBeams: nat, i: nat, j: nat)
    requires i < |rows| && j < numBeams
    ensures i * numBeams + j < |rows| * numBeams && Expanded(rows, numBeams)[i * numBeams + j] == rows[i]
  {
    RowInside(i, |rows|, numBeams);
    RowOf(i, j, numBeams);
  }

  /** One memcpy of a row. */
  method WriteRow(target: array<int>, rows: nat, width: nat, to: nat, source: array<int>, from: nat, sourceRows: nat)
    requires source != target && target.Length == rows * width && source.Length == sourceRows * width && to < rows
      && from < sourceRows
    modifies target
    ensures Rows(target[..], width, width, rows)
      == old(Rows(target[..], width, width, rows))[to := Rows(source[..], width, width, sourceRows)[from]]
  {
    hide Splice;
    RowInside(from, sourceRows, width);
    RowInside(to, rows, width);
    ghost var row := source[from * width..from * width + width];
    SpliceRows(target[..], width, to, rows, row);
    CopySpan(source, from * width, target, to * width, width);
    assert row == Rows(source[..], width, width, sourceRows)[from];
  }

  // ----- growth -----

  /** The position of each row's newest token: the ones in its mask, less one. */
  ghost function Newest(masks: seq<seq<int>>): (r: seq<int>)
    ensures |r| == |masks|
  {
    seq(|masks|, i requires 0 <= i < |masks| => Ones(masks[i]) - 1)
  }

  lemma NewestIs(masks: seq<seq<int>>)
    ensures Newest(Grown(masks)) == Counts(masks)
    ensures forall i :: 0 <= i < |masks| ==> Newest(Grown(masks))[i] == Newest(masks)[i] + 1
  {
    forall i | 0 <= i < |masks| ensures Newest(Grown(masks))[i] == Ones(masks[i]) { OnesMore(masks[i], 1); }
  }

  lemma SingleColumn(flat: seq<int>, rows: nat)
    requires |flat| == rows
    ensures |Rows(flat, 1, 1, rows)| == rows && forall i :: 0 <= i < rows ==> Rows(flat, 1, 1, rows)[i] == [flat[i]]
  {
  }

  lemma ExpandedColumn(flat: seq<int>, wide: seq<int>, batchSize: nat, numBeams: nat)
    requires numBeams > 0 && |flat| == batchSize && |wide| == batchSize * numBeams
    requires Rows(wide, 1, 1, batchSize * numBeams) == Expanded(Rows(flat, 1, 1, batchSize), numBeams)
    ensures forall i :: 0 <= i < batchSize * numBeams ==> i / numBeams < batchSize && wide[i] == flat[i / numBeams]
  {
    forall i | 0 <= i < batchSize * numBeams ensures i / numBeams < batchSize && wide[i] == flat[i / numBeams] {
      BatchOf(i, batchSize, numBeams);
      SingleColumn(wide, batchSize * numBeams);
      SingleColumn(flat, batchSize);
      assert Rows(wide, 1, 1, batchSize * numBeams)[i] == Rows(flat, 1, 1, batchSize)[i / numBeams];
    }
  }

  lemma ExpandedPrompts(prompts: seq<seq<int>>, numBeams: nat, padToken: int)
    requires numBeams > 0
    ensures Expanded(MasksOf(prompts, padToken), numBeams) == MasksOf(Expanded(prompts, numBeams), padToken)
    ensures Expanded(AllPositions(MasksOf(prompts, padToken)), numBeams)
      == AllPositions(MasksOf(Expanded(prompts, numBeams), padToken))
  {
    forall i | 0 <= i < |prompts| * numBeams
      ensures Expanded(MasksOf(prompts, padToken), numBeams)[i] == MasksOf(Expanded(prompts, numBeams), padToken)[i]
      ensures Expanded(AllPositions(MasksOf(prompts, padToken)), numBeams)[i]
        == AllPositions(MasksOf(Expanded(prompts, numBeams), padToken))[i]
    {
      BatchOf(i, |prompts|, numBeams);
    }
  }

  lemma ExpandedCounts(masks: seq<seq<int>>, next: seq<int>, wide: seq<int>, numBeams: nat)
    requires numBeams > 0 && next == Counts(masks) && |wide| == |masks| * numBeams
    requires Rows(wide, 1, 1, |masks| * numBeams) == Expanded(Rows(next, 1, 1, |masks|), numBeams)
    ensures wide == Counts(Expanded(masks, numBeams))
  {
    ExpandedColumn(next, wide, |masks|, numBeams);
    forall i | 0 <= i < |wide| ensures wide[i] == Counts(Expanded(masks, numBeams))[i] {
      BatchOf(i, |masks|, numBeams);
    }
  }

  class PositionInputs {
    const rows: nat
    var positionIds: array<int>
    var positionIdsNext: array<int>
    var attentionMask: array<int>
    var positionWidth: nat
    var maskWidth: nat
    var isFirstUpdate: bool

    ghost predicate Valid() reads this {
      && attentionMask.Length == rows * maskWidth && positionIds.Length == rows * positionWidth
      && attentionMask != positionIds && attentionMask != positionIdsNext
      && (isFirstUpdate ==> positionIdsNext.Length == rows)
      && (!isFirstUpdate ==> positionWidth == 1)
    }

    ghost function Masks(): (r: seq<seq<int>>)
      reads this, attentionMask
      requires Valid()
      ensures |r| == rows
    {
      Rows(attentionMask[..], maskWidth, maskWidth, rows)
    }

    ghost function Positions(): (r: seq<seq<int>>)
      reads this, positionIds
      requires Valid()
      ensures |r| == rows
    {
      Rows(positionIds[..], positionWidth, positionWidth, rows)
    }

    /** The positions agree with the mask: of the whole prompt at first, of the newest token afterwards. */
    ghost predicate Agree()
      reads this, attentionMask, positionIds, positionIdsNext
      requires Valid()
    {
      if isFirstUpdate then Positions() == AllPositions(Masks()) && positionIdsNext[..] == Counts(Masks())
      else positionIds.Length == rows && positionIds[..] == Newest(Masks())
    }

    constructor (inputIds: seq<int>, batchSize: nat, length: nat, padToken: int, numBeams: nat)
      requires numBeams > 0 && |inputIds| == batchSize * length
      ensures Valid() && Agree() && isFirstUpdate && maskWidth == positionWidth == length
        && rows == batchSize * numBeams
      ensures fresh(positionIds) && fresh(positionIdsNext) && fresh(attentionMask)
      ensures Masks() == MasksOf(Expanded(Rows(inputIds, length, length, batchSize), numBeams), padToken)
    {
      hide *;
      ghost var prompts := Rows(inputIds, length, length, batchSize);
      ghost var masks := MasksOf(prompts, padToken);
      var mask, position, next := InitializeTensors(inputIds, batchSize, length, padToken);
      ghost var nextWas := next[..];
      var positionIds := ExpandInputs(position, batchSize, length, numBeams);
      var positionIdsNext := ExpandInputs(next, batchSize, 1, numBeams);
      var attentionMask := ExpandInputs(mask, batchSize, length, numBeams);
      ExpandedPrompts(prompts, numBeams, padToken);
      ExpandedCounts(masks, nextWas, positionIdsNext[..], numBeams);
      this.positionIds, this.positionIdsNext, this.attentionMask := positionIds, positionIdsNext, attentionMask;
      rows, positionWidth, maskWidth, isFirstUpdate := batchSize * numBeams, length, length, true;
      new;
      StartAgrees(MasksOf(Expanded(prompts, numBeams), padToken));
    }

    lemma StartAgrees(masks: seq<seq<int>>)
      requires attentionMask != positionIds && attentionMask != positionIdsNext
      requires isFirstUpdate && attentionMask.Length == positionIds.Length == rows * maskWidth
        && positionWidth == maskWidth
      requires positionIdsNext.Length == rows && |masks| == rows
      requires Rows(attentionMask[..], maskWidth, maskWidth, rows) == masks && positionIdsNext[..] == Counts(masks)
      requires Rows(positionIds[..], maskWidth, maskWidth, rows) == AllPositions(masks)
      ensures Valid() && Agree() && Masks() == masks
    {
      hide Rows, Counts, AllPositions;
    }

    /** One step: every mask row keeps its bits and gains a 1, every position is that of the new token. */
    method Update(currentLength: nat)
      requires Valid() && Agree() && currentLength == maskWidth + 1
      modifies this, positionIds
      ensures Valid() && Agree() && !isFirstUpdate && maskWidth == currentLength && positionWidth == 1
      ensures Masks() == Grown(old(Masks()))
      ensures positionIds.Length == rows && positionIds[..] == Newest(Masks())
      ensures positionIdsNext == old(positionIdsNext) && fresh(attentionMask)
        && (positionIds == old(positionIds) || positionIds == old(positionIdsNext))
    {
      hide Rows, Grown, Newest, Counts, AllPositions, Agree;
      ghost var masks := Masks();
      AgreeIs();
      NewestIs(masks);
      UpdatePositionIds(masks);
      assert Masks() == masks;
      UpdateAttentionMask(currentLength);
      AgreeIs();
    }

    lemma AgreeIs()
      requires Valid()
      ensures !isFirstUpdate ==> (Agree() <==> positionIds.Length == rows && positionIds[..] == Newest(Masks()))
      ensures isFirstUpdate ==>
        (Agree() <==> Positions() == AllPositions(Masks()) && positionIdsNext[..] == Counts(Masks()))
    {
    }

    method UpdatePositionIds(ghost masks: seq<seq<int>>)
      requires Valid() && |masks| == rows
      requires if isFirstUpdate then positionIdsNext[..] == Counts(masks)
        else positionIds.Length == rows && positionIds[..] == Newest(masks)
      modifies this`positionIds, this`positionWidth, this`isFirstUpdate, positionIds
      ensures Valid() && !isFirstUpdate && positionWidth == 1 && positionIds.Length == rows
        && positionIds[..] == Newest(Grown(masks))
      ensures positionIds == if old(isFirstUpdate) then old(positionIdsNext) else old(positionIds)
    {
      hide Newest, Counts, Grown;
      NewestIs(masks);
      if isFirstUpdate {
        positionWidth := 1;
        positionIds := positionIdsNext;
        isFirstUpdate := false;
      } else {
        for i := 0 to rows
          invariant positionIds[..i] == Newest(Grown(masks))[..i]
          invariant positionIds[i..] == Newest(masks)[i..]
          modifies positionIds
        {
          assert positionIds[i] == positionIds[i..][0] == Newest(masks)[i..][0];
          positionIds[i] := positionIds[i] + 1;
        }
      }
    }

    method UpdateAttentionMask(currentLength: nat)
      requires Valid() && currentLength == maskWidth + 1
      modifies this`attentionMask, this`maskWidth
      ensures Valid() && maskWidth == currentLength && fresh(attentionMask)
      ensures Masks() == Grown(old(Masks()))
    {
      hide Rows, Grown;
      var next := new int[rows * currentLength];
      ghost var result := Grown(Masks());
      for i := 0 to rows
        invariant next.Length == rows * currentLength
          && Rows(next[..], currentLength, currentLength, rows)[..i] == result[..i]
        modifies next
      {
        ghost var before := Rows(next[..], currentLength, currentLength, rows);
        GrowRow(next, i, currentLength);
        NextPrefix(before, result, i);
      }
      attentionMask, maskWidth := next, currentLength;
    }

    lemma GrownRow(i: nat)
      requires Valid() && i < rows
      ensures 0 <= i * maskWidth && i * maskWidth + maskWidth <= attentionMask.Length
      ensures Grown(Masks())[i] == attentionMask[i * maskWidth..i * maskWidth + maskWidth] + [1]
    {
      hide Rows;
      RowIs(attentionMask[..], maskWidth, rows, i);
    }

    /** The body of UpdateAttentionMaskImpl's outer loop. */
    method GrowRow(data: array<int>, i: nat, currentLength: nat)
      requires Valid() && currentLength == maskWidth + 1 && i < rows && data != attentionMask
        && data.Length == rows * currentLength
      modifies data
      ensures Rows(data[..], currentLength, currentLength, rows)
        == old(Rows(data[..], currentLength, currentLength, rows))[i := Grown(Masks())[i]]
    {
      hide *;
      GrownRow(i);
      RowInside(i, rows, currentLength);
      ghost var was := data[..];
      var start, from := i * currentLength, i * maskWidth;
      CopySpan(attentionMask, from, data, start, currentLength - 1);
      ghost var bits := attentionMask[from..from + maskWidth];
      SpliceMore(was, start, bits, 1);
      ghost var copied := data[..];
      data[start + currentLength - 1] := 1;
      assert data[..] == copied[start + |bits| := 1];
      SpliceRows(was, currentLength, i, rows, bits + [1]);
    }
  }

  lemma RowIs(flat: seq<int>, width: nat, rows: nat, i: nat)
    requires i < rows && rows * width <= |flat|
    ensures i * width + width <= |flat| && Rows(flat, width, width, rows)[i] == flat[i * width..i * width + width]
  {
    RowInside(i, rows, width);
  }
}
