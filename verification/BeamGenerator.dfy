/** The generator of a beam search: model runs and beam steps in turn, in lockstep and coherent. */
module BeamGeneration {
  import opened FlatRows
  import opened TokenSequences
  import opened Hypotheses
  import opened BeamScoring
  import opened Scorer
  import opened BeamRun
  import opened BeamInvariants
  import opened BeamSearchCpu
  import opened PositionTensors
  import opened Generation
  import opened CacheCoherence
  import opened Decoder
  import GreedyGeneration

  /** A run and one more legal step. */
  lemma RunMore(p: Params, init: State, s: nat, norm: (real, nat) -> real, inputs: seq<Input>, states: seq<State>,
      inp: Input, next: State)
    requires Run(p, init, s, norm, inputs, states)
    requires Shaped(p, states[|inputs|]) && Legal(p, states[|inputs|], inp)
      && next == Step(p, states[|inputs|], inp, s + |inputs|, norm)
    ensures Run(p, init, s, norm, inputs + [inp], states + [next])
  {
    hide Shaped, Legal, Step;
  }

  lemma MovesPrefix(p: Params, states: seq<State>, next: State, t: nat)
    requires t < |states|
    ensures BeamMoves(p, states + [next], t) == BeamMoves(p, states, t)
  {
    hide BeamMove;
  }

  lemma CacheMore<KV>(cell: (seq<KV>, Fed) -> KV, rows: seq<seq<int>>, width: nat, padToken: int, was: seq<Move>,
      m: Move)
    requires AllProper(was, |rows|) && Proper(m, |rows|) && Even(rows, width)
    ensures AllProper(was + [m], |rows|)
    ensures Level(CacheAfter(cell, rows, width, padToken, was))
      && Even(CacheAfter(cell, rows, width, padToken, was).inputs.masks, width + |was|)
    ensures |CacheAfter(cell, rows, width, padToken, was).presents| == |rows|
    ensures CacheAfter(cell, rows, width, padToken, was + [m])
      == Later(cell, CacheAfter(cell, rows, width, padToken, was), m, width + |was|)
  {
    hide Later, Level, Even, Proper, First;
    assert (was + [m])[..|was|] == was;
    AllProperMore(was, m, |rows|);
  }

  lemma AllProperMore(was: seq<Move>, m: Move, rows: nat)
    requires AllProper(was, rows) && Proper(m, rows)
    ensures AllProper(was + [m], rows)
  {
  }

  lemma ParamsAre(p: Params)
    requires p.Valid()
    ensures p.batchSize > 0 && p.numBeams > 1 && p.vocabSize > 0
  {
  }

  class BeamGenerator<KV(!new)> {
    const search: BeamSearch
    const state: DecoderState<KV>
    const head: seq<KV> -> seq<real>
    var computedLogits: bool
    ghost const prompts: seq<seq<int>>
    ghost const width: nat
    ghost const init: State
    ghost var inputs: seq<Input>   // the run so far
    ghost var states: seq<State>

    /** A tensor of the model is none of the search's buffers. */
    ghost predicate Outside(tensor: array<int>)
      reads search, search.sequences
    {
      && tensor != search.sequences.sequences && tensor != search.sequences.sequencesNext
      && tensor != search.scorer.hypothesisBuffer && tensor != search.scorer.nextBeamTokens
      && tensor as object != search.scorer.nextBeamIndices && tensor as object != search.scorer.nextBeamScores
      && tensor as object != search.nextTokenScores && tensor !in search.scorer.hyps
    }

    /** The search's and the model's objects are separate. */
    ghost predicate Separate()
      reads search, search.sequences, state, state.inputIds, state.positionInputs
    {
      && Outside(state.inputIds.value) && Outside(state.positionInputs.attentionMask)
      && Outside(state.positionInputs.positionIds) && Outside(state.positionInputs.positionIdsNext)
      && state !in search.scorer.hyps && state.inputIds !in search.scorer.hyps
      && state.positionInputs !in search.scorer.hyps
      && this !in search.scorer.hyps
    }

    /** The search is where a run of the beam-search machine has got to. */
    ghost predicate Linked()
      reads this, search, search.sequences, search.sequences.sequences, search.scorer, search.scorer.hyps,
        search.scorer.hypothesisBuffer,
        search.scorer.nextBeamScores, search.scorer.nextBeamTokens, search.scorer.nextBeamIndices,
        state, state.inputIds, state.inputIds.value, state.positionInputs, state.positionInputs.attentionMask,
          state.positionInputs.positionIds, state.positionInputs.positionIdsNext
    {
      && search.Valid() && state.Valid() && Separate()
      && Initial(search.p, prompts, width, init) && Run(search.p, init, width, search.norm, inputs, states)
      && search.Current() == states[|inputs|] && search.sequences.currentLength == width + |inputs|
      && state.inputIds.rows == |init.rows| && forall k: seq<KV> :: |head(k)| == search.p.vocabSize
    }

    /** The logits of all rows. */
    function Outputs(presents: seq<seq<KV>>): (r: seq<real>)
      requires forall k: seq<KV> :: |head(k)| == search.p.vocabSize
      ensures |r| == |presents| * search.p.vocabSize
    {
      GreedyGeneration.Flatten(seq(|presents|, i requires 0 <= i < |presents| => head(presents[i])), search.p.vocabSize)
    }

    ghost predicate InSync()
      reads this, search, search.nextTokenScores, search.sequences, state, state.inputIds, state.inputIds.value,
        state.positionInputs, state.positionInputs.attentionMask, state.positionInputs.positionIds,
          state.positionInputs.positionIdsNext
      requires state.Valid() && forall k: seq<KV> :: |head(k)| == search.p.vocabSize
    {
      if state.firstRun then
        !computedLogits && inputs == [] && state.Current() == FirstInputs(init.rows, search.p.padToken)
          && state.positionInputs.maskWidth == width
      else
        var steps := if computedLogits then |inputs| else |inputs| - 1;
        && 0 <= steps < |states| && state.positionInputs.maskWidth == width + steps && Even(init.rows, width)
        && AllProper(BeamMoves(search.p, states, steps), |init.rows|)
        && state.View() == CacheAfter(state.cell, init.rows, width, search.p.padToken,
          BeamMoves(search.p, states, steps))
        && (computedLogits ==>
              && search.nextTokenScores[..] == Outputs(state.presents)
              && search.nextTokenScores !in search.scorer.hyps
              && search.nextTokenScores != search.scorer.nextBeamScores)
    }

    constructor (p: Params, inputIds: seq<int>, norm: (real, nat) -> real, cell: (seq<KV>, Fed) -> KV,
        head: seq<KV> -> seq<real>)
      requires p.Valid() && |inputIds| / p.batchSize * p.batchSize == |inputIds|
        && |inputIds| / p.batchSize <= p.maxLength
      requires forall k: seq<KV> :: |head(k)| == p.vocabSize
      ensures Linked() && InSync() && !computedLogits && search.p == p && search.norm == norm && state.cell == cell
        && this.head == head
      ensures width == |inputIds| / p.batchSize && p.batchSize * width == |inputIds|
        && prompts == Rows(inputIds, width, width, p.batchSize)
      ensures inputs == [] && search.Current() == init
    {
      hide *;
      ParamsAre(p);
      var search := new BeamSearch(p, inputIds, norm);
      var state := new DecoderState(cell, inputIds, p.batchSize, |inputIds| / p.batchSize, p.padToken, p.numBeams);
      this.search, this.state, this.head, computedLogits := search, state, head, false;
      width := |inputIds| / p.batchSize;
      prompts := Rows(inputIds, |inputIds| / p.batchSize, |inputIds| / p.batchSize, p.batchSize);
      init, inputs, states := search.Current(), [], [search.Current()];
      new;
      OutsideIs(state.inputIds.value);
      OutsideIs(state.positionInputs.attentionMask);
      OutsideIs(state.positionInputs.positionIds);
      OutsideIs(state.positionInputs.positionIdsNext);
      StartSynced();
    }

    lemma StartSynced()
      requires search.Valid() && state.Valid() && Initial(search.p, prompts, width, search.Current())
        && search.sequences.currentLength == width
      requires init == search.Current() && inputs == [] && states == [init] && !computedLogits && state.firstRun
      requires Outside(state.inputIds.value) && Outside(state.positionInputs.attentionMask)
      requires Outside(state.positionInputs.positionIds) && Outside(state.positionInputs.positionIdsNext)
      requires state !in search.scorer.hyps && state.inputIds !in search.scorer.hyps
        && state.positionInputs !in search.scorer.hyps
      requires this !in search.scorer.hyps
      requires state.inputIds.rows == search.p.batchSize * search.p.numBeams && search.p.numBeams > 0
        && state.positionInputs.maskWidth == width
      requires state.Current() == FirstInputs(Expanded(prompts, search.p.numBeams), search.p.padToken)
      requires forall k: seq<KV> :: |head(k)| == search.p.vocabSize
      ensures Linked() && InSync()
    {
      hide FirstInputs, Expanded, search.Valid, state.Valid;
      InitialRows(search.p, prompts, width, init);
      SeparateIs();
    }

    lemma SeparateIs()
      ensures Separate() <==>
              Outside(state.inputIds.value) && Outside(state.positionInputs.attentionMask)
              && Outside(state.positionInputs.positionIds) && Outside(state.positionInputs.positionIdsNext)
              && state !in search.scorer.hyps && state.inputIds !in search.scorer.hyps
              && state.positionInputs !in search.scorer.hyps
              && this !in search.scorer.hyps
    {
    }

    lemma OutsideIs(tensor: array<int>)
      ensures Outside(tensor) <==>
              tensor != search.sequences.sequences && tensor != search.sequences.sequencesNext
              && tensor != search.scorer.hypothesisBuffer && tensor != search.scorer.nextBeamTokens
              && tensor as object != search.scorer.nextBeamIndices && tensor as object != search.scorer.nextBeamScores
              && tensor as object != search.nextTokenScores && tensor !in search.scorer.hyps
    {
    }

    lemma LinkedParts()
      requires Linked()
      ensures search.Valid() && state.Valid() && state.inputIds.Valid() && state.positionInputs.Valid() && Separate()
      ensures Initial(search.p, prompts, width, init) && Run(search.p, init, width, search.norm, inputs, states)
      ensures |states| == |inputs| + 1 && search.Current() == states[|inputs|]
        && search.sequences.currentLength == width + |inputs|
      ensures state.inputIds.rows == |init.rows| && forall k: seq<KV> :: |head(k)| == search.p.vocabSize
    {
    }

    lemma MakeLinked()
      requires search.Valid() && state.Valid() && Separate()
      requires Initial(search.p, prompts, width, init) && Run(search.p, init, width, search.norm, inputs, states)
        && |states| == |inputs| + 1
      requires search.Current() == states[|inputs|] && search.sequences.currentLength == width + |inputs|
      requires state.inputIds.rows == |init.rows| && forall k: seq<KV> :: |head(k)| == search.p.vocabSize
      ensures Linked()
    {
    }

    lemma SyncBefore()
      requires Linked() && InSync() && !computedLogits
      ensures state.firstRun ==>
        inputs == [] && state.Current() == FirstInputs(init.rows, search.p.padToken)
        && state.positionInputs.maskWidth == width
      ensures !state.firstRun ==>
        |inputs| > 0 && |inputs| - 1 < |states| && state.positionInputs.maskWidth == width + |inputs| - 1
        && Even(init.rows, width)
      ensures !state.firstRun ==> AllProper(BeamMoves(search.p, states, |inputs| - 1), |init.rows|)
      ensures !state.firstRun ==>
        state.View() == CacheAfter(state.cell, init.rows, width, search.p.padToken,
        BeamMoves(search.p, states, |inputs| - 1))
    {
    }

    lemma SyncAfter()
      requires Linked() && computedLogits && !state.firstRun && |inputs| < |states| && Even(init.rows, width)
      requires state.positionInputs.maskWidth == width + |inputs|
        && AllProper(BeamMoves(search.p, states, |inputs|), |init.rows|)
      requires state.View()
        == CacheAfter(state.cell, init.rows, width, search.p.padToken, BeamMoves(search.p, states, |inputs|))
      requires search.nextTokenScores[..] == Outputs(state.presents)
      requires search.nextTokenScores !in search.scorer.hyps && search.nextTokenScores != search.scorer.nextBeamScores
      ensures InSync()
    {
    }

    /** The buffers the search hands over are the last step's move. */
    lemma MoveIs()
      requires Linked() && |inputs| > 0
      ensures |states| == |inputs| + 1
      ensures Move(search.scorer.nextBeamIndices[..], search.scorer.nextBeamTokens[..])
        == BeamMove(search.p, states[|inputs|].lanes)
      ensures Proper(BeamMove(search.p, states[|inputs|].lanes), |init.rows|)
    {
      hide *;
      LinkedParts();
      search.CurrentFacts();
      search.Buffers();
      RunAt(search.p, init, width, search.norm, inputs, states, |inputs|);
      var k := |inputs| - 1;
      StepMoves(search.p, states[k], inputs[k], width + k, search.norm);
      ShapedParts(search.p, states[k]);
      InitialRows(search.p, prompts, width, init);
      BeamMoveIs(search.scorer.Lanes());
    }

    lemma BeamMoveIs(lanes: seq<Lane>)
      requires search.p.Valid() && Fits(search.p, lanes)
      ensures BeamMove(search.p, lanes) == Move(Parents(search.p, lanes), NextTokens(search.p, lanes))
    {
    }

    lemma FirstMade()
      requires Even(init.rows, width) && state.inputIds.Valid() && state.positionInputs.Valid()
        && state.Current() == FirstInputs(init.rows, search.p.padToken)
      requires state.pasts == Empties(|init.rows|) && Fit(state.Current(), state.pasts)
        && state.presents == Model(state.cell, state.Current(), state.pasts)
      ensures AllProper([], |init.rows|)
        && state.View() == CacheAfter(state.cell, init.rows, width, search.p.padToken, [])
    {
    }

    /** The model's view after the run is that of all moves so far. */
    ghost predicate Fresh()
      reads this, search, search.sequences, state, state.inputIds, state.inputIds.value,
        state.positionInputs, state.positionInputs.attentionMask, state.positionInputs.positionIds,
          state.positionInputs.positionIdsNext
    {
      && state.Valid() && !state.firstRun && state.inputIds.rows == |init.rows| && Separate()
      && |inputs| < |states| && Even(init.rows, width) && state.positionInputs.maskWidth == width + |inputs|
      && AllProper(BeamMoves(search.p, states, |inputs|), |init.rows|)
      && state.View() == CacheAfter(state.cell, init.rows, width, search.p.padToken,
        BeamMoves(search.p, states, |inputs|))
    }

    lemma FreshIs()
      requires state.Valid() && !state.firstRun && state.inputIds.rows == |init.rows| && Separate()
      requires |inputs| < |states| && Even(init.rows, width) && state.positionInputs.maskWidth == width + |inputs|
      requires AllProper(BeamMoves(search.p, states, |inputs|), |init.rows|)
      requires state.View()
        == CacheAfter(state.cell, init.rows, width, search.p.padToken, BeamMoves(search.p, states, |inputs|))
      ensures Fresh()
    {
    }

    /** State::Run with what the search hands over. */
    method RunModel()
      requires Linked() && InSync() && !computedLogits
      modifies state, state.inputIds, state.inputIds.value, state.positionInputs, state.positionInputs.positionIds
      ensures Fresh() && search.Valid() && search.Current() == old(search.Current())
    {
      hide *;
      LinkedParts();
      SyncBefore();
      SeparateIs();
      OutsideIs(state.inputIds.value);
      OutsideIs(state.positionInputs.attentionMask);
      OutsideIs(state.positionInputs.positionIds);
      OutsideIs(state.positionInputs.positionIdsNext);
      InitialRows(search.p, prompts, width, init);
      MovesUnfold(search.p, states, |inputs|);
      ghost var c, m := state.View(), Move(search.scorer.nextBeamIndices[..], search.scorer.nextBeamTokens[..]);
      if !state.firstRun {
        MoveIs();
      }
      state.Run(search.sequences.currentLength, search.scorer.nextBeamTokens[..], search.scorer.nextBeamIndices[..]);
      state.Parts();
      if old(state.firstRun) {
        FirstMade();
      } else {
        FollowIs(c, m, search.sequences.currentLength, state.View());
        CacheMore(state.cell, init.rows, width, search.p.padToken, BeamMoves(search.p, states, |inputs| - 1), m);
      }
      OutsideIs(state.inputIds.value);
      OutsideIs(state.positionInputs.attentionMask);
      OutsideIs(state.positionInputs.positionIds);
      OutsideIs(state.positionInputs.positionIdsNext);
      SeparateIs();
      FreshIs();
    }

    lemma FreshParts()
      requires Fresh()
      ensures state.Valid() && !state.firstRun && state.inputIds.rows == |init.rows| && Separate()
      ensures |inputs| < |states| && Even(init.rows, width) && state.positionInputs.maskWidth == width + |inputs|
      ensures AllProper(BeamMoves(search.p, states, |inputs|), |init.rows|)
      ensures state.View()
        == CacheAfter(state.cell, init.rows, width, search.p.padToken, BeamMoves(search.p, states, |inputs|))
    {
    }

    /** The model run; an error when the last logits have not been used yet. */
    method ComputeLogits() returns (ok: bool)
      requires Linked() && InSync()
      modifies this`computedLogits, search`nextTokenScores, state, state.inputIds, state.inputIds.value,
        state.positionInputs, state.positionInputs.positionIds
      ensures ok <==> !old(computedLogits)
      ensures Linked() && InSync() && computedLogits && search.Current() == old(search.Current())
    {
      hide *;
      LinkedParts();
      if computedLogits {
        return false;
      }
      RunModel();
      HandOver();
      FreshParts();
      computedLogits := true;
      ok := true;
      MakeLinked();
      SyncAfter();
    }

    /** The model's outputs become the search's scores. */
    method HandOver()
      requires Fresh() && search.Valid() && forall k: seq<KV> :: |head(k)| == search.p.vocabSize
      modifies search`nextTokenScores
      ensures Fresh() && search.Valid() && search.Current() == old(search.Current())
      ensures search.nextTokenScores[..] == Outputs(state.presents)
      ensures search.nextTokenScores !in search.scorer.hyps && search.nextTokenScores != search.scorer.nextBeamScores
    {
      hide *;
      FreshParts();
      SeparateIs();
      OutsideIs(state.inputIds.value);
      OutsideIs(state.positionInputs.attentionMask);
      OutsideIs(state.positionInputs.positionIds);
      OutsideIs(state.positionInputs.positionIdsNext);
      var outputs := Outputs(state.presents);
      var logits := new real[|outputs|](i requires 0 <= i < |outputs| => outputs[i]);
      assert logits[..] == outputs;
      search.SetLogits(logits);
      OutsideIs(state.inputIds.value);
      OutsideIs(state.positionInputs.attentionMask);
      OutsideIs(state.positionInputs.positionIds);
      OutsideIs(state.positionInputs.positionIdsNext);
      SeparateIs();
      FreshIs();
    }

    lemma FollowIs(c: Cache<KV>, m: Move, currentLength: nat, d: Cache<KV>)
      requires state.Follow(c, m, currentLength, d)
      ensures currentLength > 0 && Level(c) && Even(c.inputs.masks, currentLength - 1) && Proper(m, |c.presents|)
        && d == Later(state.cell, c, m, currentLength - 1)
    {
    }

    lemma SyncComputed()
      requires Linked() && InSync() && computedLogits
      ensures !state.firstRun && |inputs| < |states| && Even(init.rows, width)
        && state.positionInputs.maskWidth == width + |inputs|
      ensures AllProper(BeamMoves(search.p, states, |inputs|), |init.rows|)
      ensures state.View()
        == CacheAfter(state.cell, init.rows, width, search.p.padToken, BeamMoves(search.p, states, |inputs|))
      ensures |state.presents| == |init.rows| && search.nextTokenScores[..] == Outputs(state.presents)
      ensures search.nextTokenScores !in search.scorer.hyps && search.nextTokenScores != search.scorer.nextBeamScores
    {
      state.ViewIs();
    }

    /** The scores of row r are what the model says of `row` without any cache. */
    ghost predicate SeesUncached(r: nat, prompt: seq<int>, row: seq<int>)
      reads search, search.nextTokenScores
    {
      && 0 <= r * search.p.vocabSize && r * search.p.vocabSize + search.p.vocabSize <= search.nextTokenScores.Length
      && |prompt| <= |row|
      && search.nextTokenScores[..][r * search.p.vocabSize..r * search.p.vocabSize + search.p.vocabSize]
      == GreedyGeneration.Uncached(state.cell, head, prompt, search.p.padToken, row)
    }

    /** What the search sees for a row of an unfinished batch entry is what the model says of the
        row without any cache. */
    lemma ScoresAreUncached(b: nat, j: nat)
      requires Linked() && InSync() && computedLogits && b < search.p.batchSize && j < search.p.numBeams
      requires |states| == |inputs| + 1 && b < |states[|inputs|].lanes| && !states[|inputs|].lanes[b].done
      ensures b < |prompts| && 0 <= b * search.p.numBeams + j < |search.sequences.Content()|
      ensures SeesUncached(b * search.p.numBeams + j, prompts[b], search.sequences.Content()[b * search.p.numBeams + j])
    {
      hide *;
      LinkedParts();
      SyncComputed();
      ColumnsAreScratch(b, j);
      SeesIs(b * search.p.numBeams + j, prompts[b], search.sequences.Content()[b * search.p.numBeams + j]);
    }

    /** The columns of the row are those of running the model once on it. */
    lemma ColumnsAreScratch(b: nat, j: nat)
      requires Linked() && InSync() && computedLogits && b < search.p.batchSize && j < search.p.numBeams
      requires |states| == |inputs| + 1 && b < |states[|inputs|].lanes| && !states[|inputs|].lanes[b].done
      ensures search.sequences.Valid() && b < |prompts|
      ensures var r := b * search.p.numBeams + j;
        && 0 <= r < |state.presents| == |search.sequences.Content()|
        && |search.sequences.Content()[r]| == |MaskOf(prompts[b], search.p.padToken)| + |inputs|
        && state.presents[r] == FromScratch(state.cell, search.sequences.Content()[r],
          MaskOf(prompts[b], search.p.padToken) + seq(|inputs|, _ => 1))
    {
      hide *;
      LinkedParts();
      SyncComputed();
      state.ViewIs();
      search.CurrentFacts();
      BeamIncrementalIsFromScratch(state.cell, search.p, prompts, init, width, search.norm, inputs, states, |inputs|,
        b, j);
    }

    lemma SeesIs(r: nat, prompt: seq<int>, row: seq<int>)
      requires (forall k: seq<KV> :: |head(k)| == search.p.vocabSize) && r < |state.presents|
        && search.nextTokenScores[..] == Outputs(state.presents)
      requires |row| == |MaskOf(prompt, search.p.padToken)| + |inputs|
      requires state.presents[r]
        == FromScratch(state.cell, row, MaskOf(prompt, search.p.padToken) + seq(|inputs|, _ => 1))
      ensures SeesUncached(r, prompt, row)
    {
      hide Outputs, FromScratch;
      RowAt(state.presents, r);
      UncachedIs(prompt, row, |inputs|);
    }

    lemma RowAt(presents: seq<seq<KV>>, r: nat)
      requires (forall k: seq<KV> :: |head(k)| == search.p.vocabSize) && r < |presents|
      ensures 0 <= r * search.p.vocabSize && r * search.p.vocabSize + search.p.vocabSize <= |Outputs(presents)|
      ensures Outputs(presents)[r * search.p.vocabSize..r * search.p.vocabSize + search.p.vocabSize]
        == head(presents[r])
    {
      hide GreedyGeneration.Flatten;
      var outputs := seq(|presents|, i requires 0 <= i < |presents| => head(presents[i]));
      assert Outputs(presents) == GreedyGeneration.Flatten(outputs, search.p.vocabSize);
      GreedyGeneration.FlattenAt(outputs, search.p.vocabSize, r);
    }

    lemma UncachedIs(prompt: seq<int>, row: seq<int>, steps: nat)
      requires |row| == |MaskOf(prompt, search.p.padToken)| + steps
      ensures |prompt| <= |row|
      ensures GreedyGeneration.Uncached(state.cell, head, prompt, search.p.padToken, row)
           == head(FromScratch(state.cell, row, MaskOf(prompt, search.p.padToken) + seq(steps, _ => 1)))
    {
      assert |row| - |prompt| == steps;
      assert seq(|row| - |prompt|, _ => 1) == seq(steps, _ => 1);
    }

    lemma LogitsSized()
      requires Linked() && InSync() && computedLogits
      ensures search.nextTokenScores.Length == search.p.batchSize * (search.p.numBeams * search.p.vocabSize)
    {
      hide *;
      LinkedParts();
      SyncComputed();
      InitialRows(search.p, prompts, width, init);
      assert |search.nextTokenScores[..]| == |init.rows| * search.p.vocabSize;
      Associate3(search.p.batchSize, search.p.numBeams, search.p.vocabSize);
    }

    lemma Associate3(a: nat, b: nat, c: nat)
      ensures a * b * c == a * (b * c)
    {
    }

    lemma SyncGenerated()
      requires Linked() && !state.firstRun && !computedLogits && 0 < |inputs| <= |states| && Even(init.rows, width)
      requires state.positionInputs.maskWidth == width + |inputs| - 1
        && AllProper(BeamMoves(search.p, states, |inputs| - 1), |init.rows|)
      requires state.View()
        == CacheAfter(state.cell, init.rows, width, search.p.padToken, BeamMoves(search.p, states, |inputs| - 1))
      ensures InSync()
    {
    }

    /** SelectTop, and the run one step longer. */
    method AdvanceSearch() returns (ghost picks: seq<seq<nat>>)
      requires search.Valid() && Separate() && Run(search.p, init, width, search.norm, inputs, states)
        && |states| == |inputs| + 1
      requires search.Current() == states[|inputs|] && search.sequences.currentLength == width + |inputs|
        && search.sequences.currentLength < search.p.maxLength
      requires search.nextTokenScores.Length == search.p.batchSize * (search.p.numBeams * search.p.vocabSize)
      requires search.nextTokenScores !in search.scorer.hyps && search.nextTokenScores != search.scorer.nextBeamScores
      modifies this`inputs, this`states, search`done, search.nextTokenScores, search.sequences,
        search.sequences.sequencesNext, search.scorer,
        search.scorer.hyps, search.scorer.hypothesisBuffer, search.scorer.nextBeamScores, search.scorer.nextBeamTokens,
          search.scorer.nextBeamIndices
      ensures search.Valid() && Separate() && search.sequences.currentLength == width + |inputs|
      ensures inputs == old(inputs) + [Input(old(search.nextTokenScores[..]), picks)]
        && states == old(states) + [search.Current()]
      ensures Run(search.p, init, width, search.norm, inputs, states)
        && BeamMoves(search.p, states, |inputs| - 1) == BeamMoves(search.p, old(states), |inputs| - 1)
    {
      hide *;
      SeparateIs();
      OutsideIs(state.inputIds.value);
      OutsideIs(state.positionInputs.attentionMask);
      OutsideIs(state.positionInputs.positionIds);
      OutsideIs(state.positionInputs.positionIdsNext);
      ghost var st, logits, length := search.Current(), search.nextTokenScores[..], search.sequences.currentLength;
      picks := search.SelectTop();
      ghost var inp := Input(logits, picks);
      search.AdvancedIs(st, inp, search.Current(), length);
      RunMore(search.p, init, width, search.norm, inputs, states, inp, search.Current());
      MovesPrefix(search.p, states, search.Current(), |inputs|);
      inputs := inputs + [inp];
      states := states + [search.Current()];
      OutsideIs(state.inputIds.value);
      OutsideIs(state.positionInputs.attentionMask);
      OutsideIs(state.positionInputs.positionIds);
      OutsideIs(state.positionInputs.positionIdsNext);
      SeparateIs();
    }

    /** One beam step; an error without logits, or when the options ask for sampling. */
    method GenerateNextToken(o: GreedyGeneration.Options) returns (ok: bool, ghost picks: seq<seq<nat>>)
      requires Linked() && InSync() && search.sequences.currentLength < search.p.maxLength
      modifies this`computedLogits, this`inputs, this`states, search`done, search.nextTokenScores, search.sequences,
        search.sequences.sequencesNext, search.scorer,
        search.scorer.hyps, search.scorer.hypothesisBuffer, search.scorer.nextBeamScores, search.scorer.nextBeamTokens,
          search.scorer.nextBeamIndices
      ensures !computedLogits && (ok <==> old(computedLogits) && (!o.doSample || o.topK == 1))
      ensures !ok ==> search.Valid() && search.Current() == old(search.Current())
      ensures ok ==> Linked() && InSync() && inputs == old(inputs) + [Input(old(search.nextTokenScores[..]), picks)]
    {
      hide *;
      GreedyGeneration.ChooseIff(o);
      picks := [];
      LinkedParts();
      if !computedLogits {
        return false, [];
      }
      SyncComputed();
      LogitsSized();
      if !GreedyGeneration.Choose(o).SelectTop? {
        computedLogits := false;
        return false, [];
      }
      SeparateIs();
      OutsideIs(state.inputIds.value);
      OutsideIs(state.positionInputs.attentionMask);
      OutsideIs(state.positionInputs.positionIds);
      OutsideIs(state.positionInputs.positionIdsNext);
      picks := AdvanceSearch();
      computedLogits := false;
      ok := true;
      MakeLinked();
      SyncGenerated();
    }

    /** The result: for each batch entry its best final hypotheses in order, padded to the full
        width, and their scores. */
    method Finalize(numReturnSequences: nat, output: array<int>, sequenceScores: array<real>)
      requires Linked() && numReturnSequences <= search.p.numBeams
      requires output.Length == Repeat(search.p.batchSize, numReturnSequences) * search.p.maxLength
      requires sequenceScores.Length == 0 || sequenceScores.Length == Repeat(search.p.batchSize, numReturnSequences)
      requires output !in search.scorer.hyps && sequenceScores !in search.scorer.hyps
        && output != search.sequences.sequences && output != search.scorer.hypothesisBuffer
      modifies search.scorer.hyps, output, sequenceScores
      ensures forall b, i :: 0 <= b < search.p.batchSize && 0 <= i < numReturnSequences ==>
        ResultAt(output[..], sequenceScores[..], numReturnSequences, b, i)
    {
      hide *;
      LinkedParts();
      search.CurrentFacts();
      RunInv(search.p, prompts, init, width, search.norm, inputs, states, |inputs|);
      InvDoneIsFull(search.p, prompts, search.Current(), width + |inputs|);
      ghost var st, length := search.Current(), search.sequences.currentLength;
      search.scorer.Finalize(search.sequences, numReturnSequences, output, sequenceScores);
      ghost var finals := Finals(search.p, st.lanes, st.rows, search.norm);
      ghost var best := Returned(finals, numReturnSequences, search.p.batchSize);
      forall b, i | 0 <= b < search.p.batchSize && 0 <= i < numReturnSequences
        ensures ResultAt(output[..], sequenceScores[..], numReturnSequences, b, i)
      {
        FinalsAreOwn(search.p, prompts, st, length, search.norm, b);
        ReturnedAt(finals, numReturnSequences, search.p.batchSize, b, i);
        MakeResult(st, best, output[..], sequenceScores[..], numReturnSequences, b, i, length);
      }
    }

    lemma MakeResult(st: State, best: seq<Hypothesis>, output: seq<int>, scores: seq<real>, count: nat, b: nat, i: nat,
        length: nat)
      requires Shaped(search.p, st) && b < search.p.batchSize && b < |prompts| && |states| == |inputs| + 1
        && states[|inputs|] == st
      requires |best| == Repeat(search.p.batchSize, count) && |output| == |best| * search.p.maxLength
      requires (scores == [] || scores == ScoresOf(best)) && Narrow(best, search.p.maxLength)
        && length == width + |inputs|
      requires forall r :: 0 <= r < |best| ==>
        Rows(output, search.p.maxLength, search.p.maxLength, |best|)[r]
        == Padded(best[r].item, search.p.padToken, search.p.maxLength)
      requires var f := Finals(search.p, st.lanes, st.rows, search.norm)[b];
        && Repeat(b, count) + i < |best| && i < |f| && best[Repeat(b, count) + i] == f[i]
        && Descending(f) && prompts[b] <= f[i].item && |f[i].item| <= length
      ensures ResultAt(output, scores, count, b, i)
    {
      hide Repeat, Rows, Finals, Shaped;
    }

    /** Row i of batch entry b: the entry's i-th best hypothesis, which continues the entry's own prompt, padded, and
        its score if scores are asked for. */
    ghost predicate ResultAt(output: seq<int>, scores: seq<real>, count: nat, b: nat, i: nat)
      reads this`states, this`inputs
    {
      && |states| == |inputs| + 1 && Shaped(search.p, states[|inputs|]) && b < search.p.batchSize && b < |prompts|
      && var f := Finals(search.p, states[|inputs|].lanes, states[|inputs|].rows, search.norm)[b];
         var r, total := Repeat(b, count) + i, Repeat(search.p.batchSize, count);
         && i < |f| && r < total && |output| == total * search.p.maxLength
         && prompts[b] <= f[i].item && |f[i].item| <= width + |inputs| && |f[i].item| <= search.p.maxLength
         && Descending(f)
         && f[i].item <= Rows(output, search.p.maxLength, search.p.maxLength, total)[r]
         && (forall k :: |f[i].item| <= k < search.p.maxLength ==>
           Rows(output, search.p.maxLength, search.p.maxLength, total)[r][k] == search.p.padToken)
         && (scores != [] ==> r < |scores| && scores[r] == f[i].score)
    }
  }

  lemma InvDoneIsFull(p: Params, prompts: seq<seq<int>>, st: State, length: nat)
    requires Inv(p, prompts, st, length)
    ensures DoneIsFull(p, st.lanes)
  {
    hide HypsOk, Block;
  }

  /** Where the i-th hypothesis of entry b comes in the result. */
  lemma {:induction false} ReturnedAt(finals: seq<seq<Hypothesis>>, count: nat, k: nat, b: nat, i: nat)
    requires b < k <= |finals| && i < count && forall j :: 0 <= j < |finals| ==> count <= |finals[j]|
    ensures Repeat(b, count) + i < Repeat(k, count) == |Returned(finals, count, k)|
    ensures Returned(finals, count, k)[Repeat(b, count) + i] == finals[b][i]
  {
    if b < k - 1 {
      ReturnedAt(finals, count, k - 1, b, i);
    }
  }
}
