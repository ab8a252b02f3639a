/** The decoder's state: input ids, positions, mask and caches, updated in order before every model run. */
module Decoder {
  import opened FlatRows
  import opened TokenSequences
  import opened PositionTensors
  import opened Generation

  class InputIds {
    const rows: nat
    var width: nat
    var value: array<int>

    ghost predicate Valid() reads this {
      value.Length == rows * width
    }

    ghost function Ids(): (r: seq<seq<int>>)
      reads this, value
      requires Valid()
      ensures |r| == rows
    {
      Rows(value[..], width, width, rows)
    }

    constructor (inputIds: seq<int>, batchSize: nat, length: nat, numBeams: nat)
      requires numBeams > 0 && |inputIds| == batchSize * length
      ensures Valid() && fresh(value) && rows == batchSize * numBeams && width == length
      ensures Ids() == Expanded(Rows(inputIds, length, length, batchSize), numBeams)
    {
      var converted := new int[|inputIds|];
      for i := 0 to |inputIds|
        invariant converted[..i] == inputIds[..i]
        modifies converted
      {
        converted[i] := inputIds[i];
      }
      assert converted[..] == inputIds;
      var expanded := ExpandInputs(converted, batchSize, length, numBeams);
      value, rows, width := expanded, batchSize * numBeams, length;
    }

    /** One token per row. */
    method Update(nextTokens: seq<int>)
      requires Valid() && |nextTokens| == rows
      modifies this, value
      ensures Valid() && width == 1 && Ids() == Columns(nextTokens)
      ensures value == old(value) || fresh(value)
    {
      hide Rows;
      if width != 1 {
        width := 1;
        value := new int[rows];
      }
      for i := 0 to rows
        invariant value[..i] == nextTokens[..i]
        modifies value
      {
        value[i] := nextTokens[i];
      }
      assert value[..] == nextTokens;
      SingleColumn(nextTokens, rows);
    }
  }

  class DecoderState<KV> {
    const cell: (seq<KV>, Fed) -> KV  // the model's computation of one token's keys and values
    const inputIds: InputIds
    const positionInputs: PositionInputs
    var pasts: seq<seq<KV>>
    var presents: seq<seq<KV>>
    var firstRun: bool

    /** The tensors are separate. */
    ghost predicate Apart()
      reads inputIds, positionInputs
    {
      inputIds.value != positionInputs.positionIds && inputIds.value != positionInputs.positionIdsNext
        && inputIds.value != positionInputs.attentionMask
    }

    ghost predicate Valid()
      reads this, inputIds, inputIds.value, positionInputs, positionInputs.attentionMask, positionInputs.positionIds,
        positionInputs.positionIdsNext
    {
      && inputIds.Valid() && positionInputs.Valid() && positionInputs.Agree() && Apart()
      && inputIds.rows == positionInputs.rows == |pasts|
      && (firstRun ==> Fit(Current(), pasts) && pasts == Empties(inputIds.rows))
      && (!firstRun ==> |presents| == inputIds.rows && Level(View()))
    }

    /** What the model will read. */
    ghost function Current(): Inputs
      reads inputIds, inputIds.value, positionInputs, positionInputs.attentionMask, positionInputs.positionIds
      requires inputIds.Valid() && positionInputs.Valid()
    {
      Inputs(inputIds.Ids(), positionInputs.Masks(), positionInputs.Positions())
    }

    ghost function View(): Cache<KV>
      reads this, inputIds, inputIds.value, positionInputs, positionInputs.attentionMask, positionInputs.positionIds
      requires inputIds.Valid() && positionInputs.Valid()
    {
      Cache(Current(), pasts, presents)
    }

    constructor (cell: (seq<KV>, Fed) -> KV, tokens: seq<int>, batchSize: nat, length: nat, padToken: int,
        numBeams: nat)
      requires numBeams > 0 && |tokens| == batchSize * length
      ensures Valid() && firstRun && positionInputs.maskWidth == length && inputIds.rows == batchSize * numBeams
      ensures Current() == FirstInputs(Expanded(Rows(tokens, length, length, batchSize), numBeams), padToken)
      ensures this.cell == cell && fresh(inputIds) && fresh(inputIds.value) && fresh(positionInputs)
      ensures fresh(positionInputs.positionIds) && fresh(positionInputs.positionIdsNext)
        && fresh(positionInputs.attentionMask)
    {
      hide *;
      var ids := new InputIds(tokens, batchSize, length, numBeams);
      var positions := new PositionInputs(tokens, batchSize, length, padToken, numBeams);
      inputIds, positionInputs, pasts, presents, firstRun := ids, positions, Empties(batchSize * numBeams), [], true;
      this.cell := cell;
      new;
      ApartIs();
      StartValid(Expanded(Rows(tokens, length, length, batchSize), numBeams), padToken);
    }

    lemma StartValid(prompts: seq<seq<int>>, padToken: int)
      requires inputIds.Valid() && positionInputs.Valid() && positionInputs.Agree() && Apart()
      requires inputIds.rows == positionInputs.rows == |prompts| && pasts == Empties(|prompts|)
      requires firstRun && positionInputs.isFirstUpdate && inputIds.Ids() == prompts
        && positionInputs.Masks() == MasksOf(prompts, padToken)
      ensures Valid() && Current() == FirstInputs(prompts, padToken)
    {
      hide Ones;
      forall r | 0 <= r < |prompts|
        ensures FitRow(pasts[r], Current().ids[r], Current().masks[r], Current().positions[r])
      {
      }
    }

    /** Every input but the first run's is updated, then the model runs on all rows. */
    method Run(currentLength: nat, nextTokens: seq<int>, nextIndices: seq<nat>)
      requires Valid()
      requires !firstRun ==>
        currentLength == positionInputs.maskWidth + 1 && Proper(Move(nextIndices, nextTokens), inputIds.rows)
      modifies this, inputIds, inputIds.value, positionInputs, positionInputs.positionIds
      ensures Valid() && !firstRun
      ensures old(firstRun) ==>
        && Current() == old(Current()) && pasts == Empties(inputIds.rows)
        && Fit(Current(), pasts) && presents == Model(cell, Current(), pasts)
      ensures positionInputs.maskWidth == if old(firstRun) then old(positionInputs.maskWidth) else currentLength
      ensures (inputIds.value == old(inputIds.value) || fresh(inputIds.value))
        && positionInputs.positionIdsNext == old(positionInputs.positionIdsNext)
      ensures positionInputs.attentionMask == old(positionInputs.attentionMask) || fresh(positionInputs.attentionMask)
      ensures positionInputs.positionIds in {old(positionInputs.positionIds), old(positionInputs.positionIdsNext)}
      ensures !old(firstRun) ==> Follow(old(View()), Move(nextIndices, nextTokens), currentLength, View())
    {
      hide *;
      Parts();
      ViewIs();
      if !firstRun {
        UpdateInputsOutputs(nextTokens, nextIndices, currentLength);
      }
      RunSession();
      ViewIs();
      if old(firstRun) {
        FirstRunValid();
      } else {
        LaterRunValid(old(View()), Move(nextIndices, nextTokens), currentLength);
      }
    }

    /** One later run of the loop. */
    ghost predicate Follow(c: Cache<KV>, m: Move, currentLength: nat, d: Cache<KV>) {
      currentLength > 0 && Level(c) && Even(c.inputs.masks, currentLength - 1) && Proper(m, |c.presents|)
        && d == Later(cell, c, m, currentLength - 1)
    }

    lemma MasksEven()
      requires positionInputs.Valid()
      ensures Even(positionInputs.Masks(), positionInputs.maskWidth)
    {
    }

    lemma ViewIs()
      requires inputIds.Valid() && positionInputs.Valid()
      ensures View().inputs == Current() && View().pasts == pasts && View().presents == presents
      ensures Current() == Inputs(inputIds.Ids(), positionInputs.Masks(), positionInputs.Positions())
    {
    }

    lemma Parts()
      requires Valid()
      ensures inputIds.Valid() && positionInputs.Valid() && positionInputs.Agree() && Apart()
        && inputIds.rows == positionInputs.rows == |pasts|
      ensures firstRun ==> Fit(Current(), pasts) && pasts == Empties(inputIds.rows)
      ensures !firstRun ==> |presents| == inputIds.rows && Level(View())
    {
    }

    method UpdateInputsOutputs(nextTokens: seq<int>, nextIndices: seq<nat>, currentLength: nat)
      requires inputIds.Valid() && positionInputs.Valid() && positionInputs.Agree() && Apart()
      requires inputIds.rows == positionInputs.rows == |presents| && Level(View())
      requires currentLength == positionInputs.maskWidth + 1 && Proper(Move(nextIndices, nextTokens), inputIds.rows)
      modifies this`pasts, inputIds, inputIds.value, positionInputs, positionInputs.positionIds
      ensures inputIds.Valid() && positionInputs.Valid() && positionInputs.Agree() && Apart()
      ensures positionInputs.maskWidth == currentLength
      ensures (inputIds.value == old(inputIds.value) || fresh(inputIds.value))
        && positionInputs.positionIdsNext == old(positionInputs.positionIdsNext)
      ensures positionInputs.attentionMask == old(positionInputs.attentionMask) || fresh(positionInputs.attentionMask)
      ensures positionInputs.positionIds in {old(positionInputs.positionIds), old(positionInputs.positionIdsNext)}
      ensures Proper(Move(nextIndices, nextTokens), |presents|)
        && pasts == Reordered(presents, Move(nextIndices, nextTokens))
      ensures Current() == NextInputs(old(Current()), Move(nextIndices, nextTokens)) && Fit(Current(), pasts)
    {
      hide *;
      ghost var c := View();
      ViewIs();
      MasksEven();
      ApartIs();
      ProperIs(Move(nextIndices, nextTokens), inputIds.rows);
      inputIds.Update(nextTokens);
      positionInputs.Update(currentLength);
      ApartIs();
      UpdateCaches(nextIndices, nextTokens);
      InputsAre(c, Move(nextIndices, nextTokens), currentLength - 1);
    }

    lemma ApartIs()
      ensures Apart() <==>
        inputIds.value != positionInputs.positionIds && inputIds.value != positionInputs.positionIdsNext
        && inputIds.value != positionInputs.attentionMask
    {
    }

    lemma ProperIs(m: Move, rows: nat)
      requires Proper(m, rows)
      ensures |m.tokens| == rows
    {
    }

    lemma InputsAre(c: Cache<KV>, m: Move, width: nat)
      requires Even(c.inputs.masks, width)
      requires inputIds.Valid() && positionInputs.Valid() && inputIds.rows == positionInputs.rows == |c.inputs.masks|
        && Level(c) && Proper(m, |c.presents|)
      requires inputIds.Ids() == Columns(m.tokens) && positionInputs.Masks() == Grown(c.inputs.masks)
        && positionInputs.positionWidth == 1
      requires positionInputs.positionIds.Length == positionInputs.rows
        && positionInputs.positionIds[..] == Newest(positionInputs.Masks())
      requires pasts == Reordered(c.presents, m)
      ensures Current() == NextInputs(c.inputs, m) && Fit(Current(), pasts)
    {
      hide *;
      ViewIs();
      PositionsAre();
      NextFit(c, m, width);
    }

    lemma PositionsAre()
      requires positionInputs.Valid() && positionInputs.positionWidth == 1
      requires positionInputs.positionIds.Length == positionInputs.rows
        && positionInputs.positionIds[..] == Newest(positionInputs.Masks())
      ensures positionInputs.Positions() == Columns(Newest(positionInputs.Masks()))
    {
      hide Rows, Newest;
      SingleColumn(positionInputs.positionIds[..], positionInputs.rows);
    }

    lemma NextFit(c: Cache<KV>, m: Move, width: nat)
      requires Level(c) && Even(c.inputs.masks, width) && Proper(m, |c.presents|)
      ensures NextInputs(c.inputs, m)
        == Inputs(Columns(m.tokens), Grown(c.inputs.masks), Columns(Newest(Grown(c.inputs.masks))))
      ensures Fit(NextInputs(c.inputs, m), Reordered(c.presents, m))
    {
      hide Ones;
      var inputs, pasts := NextInputs(c.inputs, m), Reordered(c.presents, m);
      forall r | 0 <= r < |pasts| ensures FitRow(pasts[r], inputs.ids[r], inputs.masks[r], inputs.positions[r]) {
        assert |c.inputs.masks[r]| == width
          && |c.presents[Parent(m, |c.presents|, r)]| == |c.inputs.masks[Parent(m, |c.presents|, r)]|
          && |pasts[r]| == |c.presents[Parent(m, |c.presents|, r)]|;
      }
    }

    /** KV_Cache::Update on rows: the presents become the pasts, reordered when the search gives indices. */
    method UpdateCaches(beamIndices: seq<nat>, ghost tokens: seq<int>)
      requires Proper(Move(beamIndices, tokens), |presents|)
      modifies this`pasts
      ensures Proper(Move(beamIndices, tokens), |presents|) && pasts == Reordered(presents, Move(beamIndices, tokens))
    {
      if beamIndices == [] {
        pasts := presents;
      } else {
        pasts := Gather(presents, beamIndices);
      }
    }

    /** State::Run. */
    method RunSession()
      requires inputIds.Valid() && positionInputs.Valid() && Fit(Current(), pasts)
      modifies this`firstRun, this`presents
      ensures !firstRun && presents == Model(cell, Current(), pasts)
    {
      ghost var inputs := Current();
      firstRun := false;
      presents := Infer(inputIds.value[..], inputIds.width, positionInputs.attentionMask[..], positionInputs.maskWidth,
        positionInputs.positionIds[..], positionInputs.positionWidth);
    }

    /** The session's outputs, from its flat inputs. */
    function Infer(ids: seq<int>, width: nat, mask: seq<int>, maskWidth: nat, positions: seq<int>,
        positionWidth: nat): seq<seq<KV>>
      reads this
      requires |ids| == inputIds.rows * width && |mask| == positionInputs.rows * maskWidth
        && |positions| == positionInputs.rows * positionWidth
      requires Fit(Inputs(Rows(ids, width, width, inputIds.rows), Rows(mask, maskWidth, maskWidth, positionInputs.rows),
        Rows(positions, positionWidth, positionWidth, positionInputs.rows)), pasts)
    {
      Model(cell, Inputs(Rows(ids, width, width, inputIds.rows), Rows(mask, maskWidth, maskWidth, positionInputs.rows),
        Rows(positions, positionWidth, positionWidth, positionInputs.rows)), pasts)
    }

    lemma FirstRunValid()
      requires inputIds.Valid() && positionInputs.Valid() && positionInputs.Agree() && Apart()
        && inputIds.rows == positionInputs.rows == |pasts|
      requires !firstRun && Fit(Current(), pasts) && presents == Model(cell, Current(), pasts)
      ensures Valid()
    {
    }

    lemma LaterRunValid(c: Cache<KV>, m: Move, currentLength: nat)
      requires inputIds.Valid() && positionInputs.Valid() && positionInputs.Agree() && Apart()
        && inputIds.rows == positionInputs.rows
      requires !firstRun && |c.presents| == inputIds.rows && Level(c) && Proper(m, |c.presents|)
      requires currentLength > 0 && positionInputs.maskWidth == currentLength
      requires pasts == Reordered(c.presents, m) && Current() == NextInputs(c.inputs, m) && Fit(Current(), pasts)
        && presents == Model(cell, Current(), pasts)
      ensures Valid() && Follow(c, m, currentLength, View())
    {
      hide Newest;
      forall r | 0 <= r < |c.inputs.masks| ensures |c.inputs.masks[r]| == currentLength - 1 {
        assert Current().masks[r] == c.inputs.masks[r] + [1];
        assert |positionInputs.Masks()[r]| == currentLength;
      }
    }
  }
}
