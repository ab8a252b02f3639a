/** The generator: model runs and token choices in turn, and what greedy generation returns. */
module GreedyGeneration {
  import opened FlatRows
  import opened TokenSequences
  import opened PositionTensors
  import opened Generation
  import opened Decoder
  import G = Greedy
  import opened GreedySearchCpu
  import opened UnpaddedRuns

  // ----- the model's output -----

  /** The scores of all rows, one after the other. */
  function Flatten(outputs: seq<seq<real>>, width: nat): (r: seq<real>)
    requires forall i :: 0 <= i < |outputs| ==> |outputs[i]| == width
    ensures |r| == |outputs| * width
  {
    if outputs == [] then []
    else
      var n := |outputs| - 1;
      assert |outputs| * width == n * width + width;
      Flatten(outputs[..n], width) + outputs[n]
  }

  lemma {:induction false} FlattenAt(outputs: seq<seq<real>>, width: nat, i: nat)
    requires (forall k :: 0 <= k < |outputs| ==> |outputs[k]| == width) && i < |outputs|
    ensures i * width + width <= |outputs| * width
    ensures Flatten(outputs, width)[i * width..i * width + width] == outputs[i]
  {
    RowInside(i, |outputs|, width);
    var n := |outputs| - 1;
    if i < n {
      FlattenAt(outputs[..n], width, i);
    }
  }

  // ----- greedy moves -----

  ghost predicate Greedily(moves: seq<Move>) {
    forall t :: 0 <= t < |moves| ==> moves[t].indices == []
  }

  lemma {:induction false} GreedyKin(prompts: seq<seq<int>>, padToken: int, moves: seq<Move>, r: nat)
    requires AllProper(moves, |prompts|) && r < |prompts| && Greedily(moves)
    ensures Kin(prompts, padToken, moves, r)
  {
    if moves != [] {
      GreedyKin(prompts, padToken, moves[..|moves| - 1], r);
    }
  }

  lemma {:induction false} GreedyRowGrows(prompts: seq<seq<int>>, moves: seq<Move>, r: nat)
    requires AllProper(moves, |prompts|) && r < |prompts| && Greedily(moves)
    ensures prompts[r] <= RowsAfter(prompts, moves)[r] && |RowsAfter(prompts, moves)[r]| == |prompts[r]| + |moves|
  {
    if moves != [] {
      GreedyRowGrows(prompts, moves[..|moves| - 1], r);
    }
  }

  // ----- the reference -----

  /** The model's scores for a row without any cache: mask of the prompt, ones for what was generated. */
  function Uncached<KV>(cell: (seq<KV>, Fed) -> KV, head: seq<KV> -> seq<real>, prompt: seq<int>, padToken: int,
      row: seq<int>): seq<real>
    requires |prompt| <= |row|
  {
    head(FromScratch(cell, row, MaskOf(prompt, padToken) + seq(|row| - |prompt|, _ => 1)))
  }

  /** Greedy decoding without a cache: until EOS every token is the arg-max of the uncached model, then padding. */
  ghost predicate IsGreedy<KV>(cell: (seq<KV>, Fed) -> KV, head: seq<KV> -> seq<real>, prompt: seq<int>, p: G.Params,
      row: seq<int>) {
    && prompt <= row
    && forall i :: |prompt| <= i < |row| ==> NextIsGreedy(cell, head, prompt, p, row[..i], row[i])
  }

  ghost predicate NextIsGreedy<KV>(cell: (seq<KV>, Fed) -> KV, head: seq<KV> -> seq<real>, prompt: seq<int>,
      p: G.Params, row: seq<int>, token: int) {
    && |prompt| <= |row|
    && if p.eosToken in row[|prompt|..] then token == p.padToken
      else IsArgMax(Uncached(cell, head, prompt, p.padToken, row), token)
  }

  lemma IsGreedyMore<KV>(cell: (seq<KV>, Fed) -> KV, head: seq<KV> -> seq<real>, prompt: seq<int>, p: G.Params,
      row: seq<int>, token: int)
    requires IsGreedy(cell, head, prompt, p, row) && NextIsGreedy(cell, head, prompt, p, row, token)
    ensures IsGreedy(cell, head, prompt, p, row + [token])
  {
    hide NextIsGreedy;
    forall i | |prompt| <= i < |row|
      + 1 ensures NextIsGreedy(cell, head, prompt, p, (row + [token])[..i], (row + [token])[i]) {
      assert (row + [token])[..i] == row[..i];
      assert i == |row| ==> row[..i] == row;
    }
  }

  /** The search options GenerateNextToken dispatches on. */
  datatype Options = Options(doSample: bool, topK: int, topP: real, temperature: real)

  datatype Sampler = SelectTop | SampleTopKTopP | SampleTopK | SampleTopP | Rejected

  /** Which sampler the options select. */
  function Choose(o: Options): Sampler {
    if !o.doSample || o.topK == 1 then SelectTop
    else if o.topP < 0.0 || o.topP > 1.0 || o.topK < 0 then Rejected
    else if 0.0 < o.topP < 1.0 && o.topK > 1 then SampleTopKTopP
    else if o.topK > 1 then SampleTopK
    else SampleTopP
  }

  /** The samplers by the options alone. */
  lemma ChooseIff(o: Options)
    ensures Choose(o).SelectTop? <==> !o.doSample || o.topK == 1
    ensures Choose(o).Rejected? <==> o.doSample && o.topK != 1 && (o.topP < 0.0 || o.topP > 1.0 || o.topK < 0)
    ensures Choose(o).SampleTopKTopP? <==> o.doSample && o.topK > 1 && 0.0 < o.topP < 1.0
    ensures Choose(o).SampleTopK? <==> o.doSample && o.topK > 1 && (o.topP == 0.0 || o.topP == 1.0)
    ensures Choose(o).SampleTopP? <==> o.doSample && o.topK == 0 && 0.0 <= o.topP <= 1.0
  {
  }

  /** What chance may add to a sampler's work. */
  ghost predicate Drawable(o: Options, exp: real -> real, draws: seq<Draw>, batchSize: nat, vocabSize: nat) {
    o.doSample && o.topK >= 0 && o.topK != 1 && 0.0 <= o.topP <= 1.0 ==>
      && |draws| == batchSize && o.temperature != 0.0 && IsExp(exp)
      && forall b :: 0 <= b < batchSize ==> DrawFits(o, draws[b], vocabSize)
  }

  ghost predicate DrawFits(o: Options, d: Draw, vocabSize: nat) {
    && (o.topK > 1 ==> Sorts(d, vocabSize, o.topK))
    && (o.topK == 0 ==> Sorts(d, vocabSize, vocabSize))
    && (if o.topK > 1 && (o.topP == 0.0 || o.topP == 1.0) then d.position < o.topK else 0.0 <= d.threshold <= o.topP)
  }

  /** How the token of a row was sampled from the row's scores. */
  ghost predicate Sampled(o: Options, exp: real -> real, d: Draw, row: seq<real>, token: int) {
    if o.topK > 1 && 0.0 < o.topP < 1.0 then PickedTopKTopP(exp, o.temperature, row, d, o.topK, o.topP, token)
    else if o.topK > 1 then PickedTopK(exp, o.temperature, row, d, o.topK, token)
    else o.topK == 0 && PickedTopP(exp, o.temperature, row, d, o.topP, token)
  }

  /** Top-k goes on drawing for entries that have EOS. */
  predicate Redraws(o: Options) {
    o.topK > 1 && (o.topP == 0.0 || o.topP == 1.0)
  }

  /** Sampled decoding without a cache: every token is drawn from the uncached model's scores by the round's draw for
      entry b; after EOS there is only padding, except with top-k, which goes on drawing. */
  ghost predicate IsDrawn<KV>(cell: (seq<KV>, Fed) -> KV, head: seq<KV> -> seq<real>, o: Options, exp: real -> real,
      draws: nat -> seq<Draw>, b: nat, prompt: seq<int>, p: G.Params, row: seq<int>)
  {
    && prompt <= row
    && forall i :: |prompt| <= i < |row| ==>
      NextIsDrawn(cell, head, o, exp, draws(i - |prompt|), b, prompt, p, row[..i], row[i])
  }

  ghost predicate NextIsDrawn<KV>(cell: (seq<KV>, Fed) -> KV, head: seq<KV> -> seq<real>, o: Options,
      exp: real -> real, draws: seq<Draw>, b: nat, prompt: seq<int>, p: G.Params, row: seq<int>, token: int)
  {
    && |prompt| <= |row| && b < |draws|
    && if p.eosToken in row[|prompt|..] && !Redraws(o) then token == p.padToken
      else Sampled(o, exp, draws[b], Uncached(cell, head, prompt, p.padToken, row), token)
  }

  lemma IsDrawnMore<KV>(cell: (seq<KV>, Fed) -> KV, head: seq<KV> -> seq<real>, o: Options, exp: real -> real,
      draws: nat -> seq<Draw>, b: nat, prompt: seq<int>, p: G.Params, row: seq<int>, token: int)
    requires IsDrawn(cell, head, o, exp, draws, b, prompt, p, row)
    requires |prompt| <= |row| && NextIsDrawn(cell, head, o, exp, draws(|row| - |prompt|), b, prompt, p, row, token)
    ensures IsDrawn(cell, head, o, exp, draws, b, prompt, p, row + [token])
  {
    hide NextIsDrawn;
    var more := row + [token];
    forall i | |prompt| <= i < |more|
      ensures NextIsDrawn(cell, head, o, exp, draws(i - |prompt|), b, prompt, p, more[..i], more[i])
    {
      assert more[..i] == row[..i];
      assert i == |row| ==> row[..i] == row;
    }
  }

  class Generator<KV(!new)> {
    const search: GreedySearch
    const state: DecoderState<KV>
    const head: seq<KV> -> seq<real>
    var computedLogits: bool
    ghost const prompts: seq<seq<int>>
    ghost const width: nat
    ghost var moves: seq<Move>

    /** The search's and the model's buffers are separate. */
    ghost predicate Separate()
      reads state, state.inputIds, state.positionInputs, search.sequences
    {
      && {search.sequences.sequences, search.nextTokens} !! {state.inputIds.value, state.positionInputs.positionIds,
        state.positionInputs.positionIdsNext, state.positionInputs.attentionMask}
    }

    /** The parts fit together. */
    ghost predicate Linked()
      reads this, search, search.sequences, state, state.inputIds, state.inputIds.value,
        state.positionInputs, state.positionInputs.attentionMask, state.positionInputs.positionIds,
          state.positionInputs.positionIdsNext
    {
      && search.Valid() && state.Valid() && Separate()
      && |prompts| == search.p.batchSize == state.inputIds.rows && Even(prompts, width) && search.p.vocabSize > 0
      && (forall k: seq<KV> :: |head(k)| == search.p.vocabSize)
      && AllProper(moves, |prompts|) && Greedily(moves)
    }

    /** The sequences, the caches and the masks are at the same token: the mask width is the sequence length once the
        logits are computed, and one less before that. */
    ghost predicate InSync()
      reads this, search, search.sequences, search.sequences.sequences, search.nextTokens, search.eosSeen, state,
        state.inputIds, state.inputIds.value,
        state.positionInputs, state.positionInputs.attentionMask, state.positionInputs.positionIds,
          state.positionInputs.positionIdsNext
      requires Linked()
    {
      if state.firstRun then
        && !computedLogits && moves == [] && search.sequences.Content() == prompts
        && state.Current() == FirstInputs(prompts, search.p.padToken)
        && search.sequences.currentLength == state.positionInputs.maskWidth == width
      else
        && state.View() == CacheAfter(state.cell, prompts, width, search.p.padToken, moves)
        && state.positionInputs.maskWidth == width + |moves|
        && (if computedLogits then
              && search.sequences.Content() == RowsAfter(prompts, moves)
              && search.sequences.currentLength == width + |moves|
              && search.nextTokenScores == Outputs(state.presents)
            else
              && search.sequences.currentLength == width + |moves| + 1
              && search.sequences.Content() == Moved(RowsAfter(prompts, moves), Move([], search.nextTokens[..])))
    }

    /** The logits of all rows. */
    function Outputs(presents: seq<seq<KV>>): seq<real>
      requires forall k: seq<KV> :: |head(k)| == search.p.vocabSize
    {
      Flatten(seq(|presents|, i requires 0 <= i < |presents| => head(presents[i])), search.p.vocabSize)
    }

    constructor (p: G.Params, inputIds: seq<int>, cell: (seq<KV>, Fed) -> KV, head: seq<KV> -> seq<real>)
      requires p.batchSize > 0 && p.vocabSize > 0 && |inputIds| / p.batchSize * p.batchSize == |inputIds|
        && |inputIds| / p.batchSize < p.maxLength
      requires forall k: seq<KV> :: |head(k)| == p.vocabSize
      ensures Linked() && InSync() && !computedLogits && search.p == p && state.cell == cell && this.head == head
      ensures width == |inputIds| / p.batchSize && p.batchSize * width == |inputIds|
        && prompts == Rows(inputIds, width, width, p.batchSize)
      ensures G.Initial(p, prompts, width, search.Current()) && search.sequences.currentLength == width && !search.done
      ensures fresh(search) && fresh(search.nextTokens) && fresh(search.eosSeen) && fresh(search.sequences)
        && fresh(search.sequences.sequences)
      ensures fresh(state) && fresh(state.inputIds) && fresh(state.inputIds.value) && fresh(state.positionInputs)
      ensures fresh(state.positionInputs.positionIds) && fresh(state.positionInputs.positionIdsNext)
        && fresh(state.positionInputs.attentionMask)
    {
      hide *;
      var search := new GreedySearch(p, inputIds);
      var state := new DecoderState(cell, inputIds, p.batchSize, |inputIds| / p.batchSize, p.padToken, 1);
      this.search, this.state, this.head, computedLogits := search, state, head, false;
      width := |inputIds| / p.batchSize;
      prompts := Rows(inputIds, |inputIds| / p.batchSize, |inputIds| / p.batchSize, p.batchSize);
      moves := [];
      new;
      StartSynced();
    }

    lemma StartSynced()
      requires search.Valid() && state.Valid() && G.Initial(search.p, prompts, width, search.Current())
        && search.p.vocabSize > 0
      requires {search.sequences.sequences, search.nextTokens} !! {state.inputIds.value,
        state.positionInputs.positionIds, state.positionInputs.positionIdsNext, state.positionInputs.attentionMask}
      requires (forall k: seq<KV> :: |head(k)| == search.p.vocabSize) && moves == [] && !computedLogits
      requires state.firstRun && state.inputIds.rows == search.p.batchSize * 1
        && search.sequences.currentLength == state.positionInputs.maskWidth == width
      requires state.Current() == FirstInputs(Expanded(prompts, 1), search.p.padToken)
      ensures Linked() && InSync()
    {
      assert Expanded(prompts, 1) == prompts;
    }

    lemma LinkedParts()
      requires Linked()
      ensures search.Valid() && state.Valid() && state.inputIds.Valid() && state.positionInputs.Valid() && Separate()
      ensures |prompts| == search.p.batchSize == state.inputIds.rows == search.nextTokens.Length && Even(prompts, width)
      ensures search.sequences.Valid() && search.sequences.batchBeamSize == search.p.batchSize
        && search.sequences.maxLength == search.p.maxLength
      ensures forall k: seq<KV> :: |head(k)| == search.p.vocabSize
      ensures AllProper(moves, |prompts|) && Greedily(moves) && search.p.vocabSize > 0
    {
    }

    lemma Apart()
      requires Separate()
      ensures {search.sequences.sequences, search.nextTokens} !! {state.inputIds.value,
        state.positionInputs.positionIds, state.positionInputs.positionIdsNext, state.positionInputs.attentionMask}
    {
    }

    lemma MakeLinked()
      requires search.Valid() && state.Valid() && |prompts| == search.p.batchSize == state.inputIds.rows
        && Even(prompts, width) && search.p.vocabSize > 0
      requires {search.sequences.sequences, search.nextTokens} !! {state.inputIds.value,
        state.positionInputs.positionIds, state.positionInputs.positionIdsNext, state.positionInputs.attentionMask}
      requires (forall k: seq<KV> :: |head(k)| == search.p.vocabSize) && AllProper(moves, |prompts|) && Greedily(moves)
      ensures Linked()
    {
    }

    lemma SyncBefore()
      requires Linked() && InSync() && !computedLogits && search.nextTokens.Length == |prompts|
      ensures state.firstRun ==>
        && moves == [] && search.sequences.Content() == prompts
        && state.Current() == FirstInputs(prompts, search.p.padToken)
        && search.sequences.currentLength == state.positionInputs.maskWidth == width
      ensures !state.firstRun ==>
        && state.View() == CacheAfter(state.cell, prompts, width, search.p.padToken, moves)
        && state.positionInputs.maskWidth == width + |moves|
        && search.sequences.currentLength == width + |moves| + 1
        && Proper(Move([], search.nextTokens[..]), |prompts|)
        && search.sequences.Content() == Moved(RowsAfter(prompts, moves), Move([], search.nextTokens[..]))
    {
    }

    lemma SyncAfter()
      requires Linked() && !state.firstRun && computedLogits
      requires state.View() == CacheAfter(state.cell, prompts, width, search.p.padToken, moves)
        && state.positionInputs.maskWidth == width + |moves|
      requires search.sequences.Content() == RowsAfter(prompts, moves)
        && search.sequences.currentLength == width + |moves|
      requires search.nextTokenScores == Outputs(state.presents)
      ensures InSync()
    {
    }

    lemma MoveMade(tokens: seq<int>)
      requires AllProper(moves, |prompts|) && Greedily(moves) && Even(prompts, width) && |tokens| == |prompts|
      ensures var (m, now) := (Move([], tokens), moves + [Move([], tokens)]);
        && Proper(m, |prompts|) && AllProper(now, |prompts|) && Greedily(now)
        && RowsAfter(prompts, now) == Moved(RowsAfter(prompts, moves), m)
        && var c := CacheAfter(state.cell, prompts, width, search.p.padToken, moves);
           && Level(c) && Even(c.inputs.masks, width + |moves|) && Proper(m, |c.presents|)
           && CacheAfter(state.cell, prompts, width, search.p.padToken, now) == Later(state.cell, c, m, width + |moves|)
    {
      hide Later, Moved;
      assert (moves + [Move([], tokens)])[..|moves|] == moves;
    }

    lemma FirstMade()
      requires Even(prompts, width) && state.inputIds.Valid() && state.positionInputs.Valid()
        && state.Current() == FirstInputs(prompts, search.p.padToken)
      requires state.pasts == Empties(|prompts|) && Fit(state.Current(), state.pasts)
        && state.presents == Model(state.cell, state.Current(), state.pasts)
      ensures AllProper([], |prompts|) && RowsAfter(prompts, []) == prompts
      ensures state.View() == CacheAfter(state.cell, prompts, width, search.p.padToken, [])
    {
    }

    lemma FollowIs(c: Cache<KV>, m: Move, currentLength: nat, d: Cache<KV>)
      requires state.Follow(c, m, currentLength, d)
      ensures currentLength > 0 && Level(c) && Even(c.inputs.masks, currentLength - 1) && Proper(m, |c.presents|)
        && d == Later(state.cell, c, m, currentLength - 1)
    {
    }

    /** The model run; an error when the last logits have not been used yet. */
    method ComputeLogits() returns (ok: bool)
      requires Linked() && InSync()
      modifies this`computedLogits, this`moves, search`nextTokenScores, state, state.inputIds, state.inputIds.value,
        state.positionInputs, state.positionInputs.positionIds
      ensures ok <==> !old(computedLogits)
      ensures Linked() && InSync() && computedLogits && search.Current() == old(search.Current())
      ensures state.inputIds.value == old(state.inputIds.value) || fresh(state.inputIds.value)
      ensures state.positionInputs.positionIds in {old(state.positionInputs.positionIds),
        old(state.positionInputs.positionIdsNext)}
      ensures state.positionInputs.positionIdsNext == old(state.positionInputs.positionIdsNext)
    {
      hide *;
      LinkedParts();
      if computedLogits {
        return false;
      }
      Apart();
      RunModel();
      search.SetLogits(Outputs(state.presents));
      computedLogits := true;
      ok := true;
      MakeLinked();
      SyncAfter();
    }

    /** state_->Run with the search's length and next tokens. */
    method RunModel()
      requires Linked() && InSync() && !computedLogits
      modifies this`moves, state, state.inputIds, state.inputIds.value, state.positionInputs,
        state.positionInputs.positionIds
      ensures state.Valid() && !state.firstRun && |prompts| == state.inputIds.rows
        && AllProper(moves, |prompts|) && Greedily(moves) && search.sequences.Valid()
      ensures state.View() == CacheAfter(state.cell, prompts, width, search.p.padToken, moves)
        && state.positionInputs.maskWidth == width + |moves|
      ensures search.sequences.Content() == RowsAfter(prompts, moves)
        && search.sequences.currentLength == width + |moves|
      ensures state.inputIds.value == old(state.inputIds.value) || fresh(state.inputIds.value)
      ensures state.positionInputs.attentionMask == old(state.positionInputs.attentionMask)
        || fresh(state.positionInputs.attentionMask)
      ensures state.positionInputs.positionIds in {old(state.positionInputs.positionIds),
        old(state.positionInputs.positionIdsNext)}
      ensures state.positionInputs.positionIdsNext == old(state.positionInputs.positionIdsNext)
    {
      hide *;
      LinkedParts();
      TokensApart();
      SyncBefore();
      ghost var c, tokens, first := state.View(), search.nextTokens[..], state.firstRun;
      state.Run(search.sequences.currentLength, search.nextTokens[..], []);
      state.Parts();
      if first {
        FirstMade();
      } else {
        LaterMade(c, tokens, state.View());
        moves := moves + [Move([], tokens)];
      }
    }

    lemma TokensApart()
      requires Separate()
      ensures search.sequences.sequences != state.inputIds.value
        && search.sequences.sequences != state.positionInputs.positionIds
    {
    }

    lemma LaterMade(c: Cache<KV>, tokens: seq<int>, d: Cache<KV>)
      requires AllProper(moves, |prompts|) && Greedily(moves) && Even(prompts, width) && |tokens| == |prompts|
      requires c == CacheAfter(state.cell, prompts, width, search.p.padToken, moves)
        && state.Follow(c, Move([], tokens), width + |moves| + 1, d)
      ensures var (m, now) := (Move([], tokens), moves + [Move([], tokens)]);
        && Proper(m, |prompts|) && AllProper(now, |prompts|) && Greedily(now)
        && RowsAfter(prompts, now) == Moved(RowsAfter(prompts, moves), m)
        && d == CacheAfter(state.cell, prompts, width, search.p.padToken, now)
    {
      hide *;
      FollowIs(c, Move([], tokens), width + |moves| + 1, d);
      MoveMade(tokens);
    }

    lemma SyncComputed()
      requires Linked() && InSync() && computedLogits
      ensures !state.firstRun && state.View() == CacheAfter(state.cell, prompts, width, search.p.padToken, moves)
      ensures search.sequences.Content() == RowsAfter(prompts, moves)
        && search.sequences.currentLength == width + |moves|
      ensures state.positionInputs.maskWidth == width + |moves| && search.nextTokenScores == Outputs(state.presents)
    {
    }

    /** What the search sees for a row is what the model says of the row without any cache. */
    lemma ScoresAreUncached(r: nat)
      requires Linked() && InSync() && computedLogits && r < |prompts|
      ensures r < search.p.batchSize && |search.nextTokenScores| == search.p.batchSize * search.p.vocabSize
      ensures |prompts[r]| <= |search.sequences.Content()[r]|
      ensures search.ScoresOf(r)
        == Uncached(state.cell, head, prompts[r], search.p.padToken, search.sequences.Content()[r])
    {
      hide *;
      LinkedParts();
      SyncComputed();
      state.ViewIs();
      GreedyKin(prompts, search.p.padToken, moves, r);
      GreedyRowGrows(prompts, moves, r);
      IncrementalIsFromScratch(state.cell, prompts, width, search.p.padToken, moves, r);
      MaskRow(prompts, search.p.padToken, |moves|, r);
      OutputAt(r);
      UncachedIs(prompts[r], RowsAfter(prompts, moves)[r], MasksAfter(prompts, search.p.padToken, |moves|)[r]);
    }

    lemma OutputAt(r: nat)
      requires forall k: seq<KV> :: |head(k)| == search.p.vocabSize
      requires r < search.p.batchSize == |state.presents| && search.nextTokenScores == Outputs(state.presents)
      ensures |search.nextTokenScores| == search.p.batchSize * search.p.vocabSize
      ensures search.ScoresOf(r) == head(state.presents[r])
    {
      var presents := state.presents;
      FlattenAt(seq(|presents|, i requires 0 <= i < |presents| => head(presents[i])), search.p.vocabSize, r);
    }

    lemma UncachedIs(prompt: seq<int>, row: seq<int>, mask: seq<int>)
      requires |prompt| <= |row| == |mask| && mask == MaskOf(prompt, search.p.padToken) + seq(|row| - |prompt|, _ => 1)
      ensures Uncached(state.cell, head, prompt, search.p.padToken, row) == head(FromScratch(state.cell, row, mask))
    {
    }

    /** Each token is the arg-max of the uncached model for its row, unless the row has EOS. */
    ghost predicate Followed(st: G.State, tokens: seq<int>) {
      && |tokens| == |prompts| == |st.rows| == |st.cells.eosSeen|
      && forall b :: 0 <= b < |prompts| && !st.cells.eosSeen[b] ==> BestAt(b, st.rows[b], tokens[b])
    }

    ghost predicate BestAt(b: nat, row: seq<int>, token: int) {
      b < |prompts| && |prompts[b]| <= |row|
        && IsArgMax(Uncached(state.cell, head, prompts[b], search.p.padToken, row), token)
    }

    /** Each token was sampled from the uncached model's scores for its row, unless the row has EOS
        and the sampler pads. */
    ghost predicate Drawn(o: Options, exp: real -> real, draws: seq<Draw>, st: G.State, tokens: seq<int>) {
      && |tokens| == |draws| == |prompts| == |st.rows| == |st.cells.eosSeen|
      && forall b :: 0 <= b < |prompts| && (!st.cells.eosSeen[b] || Redraws(o)) ==>
        DrawnAt(o, exp, draws[b], b, st.rows[b], tokens[b])
    }

    ghost predicate DrawnAt(o: Options, exp: real -> real, d: Draw, b: nat, row: seq<int>, token: int) {
      && b < |prompts| && |prompts[b]| <= |row|
      && Sampled(o, exp, d, Uncached(state.cell, head, prompts[b], search.p.padToken, row), token)
    }

    /** The dispatch on the options. */
    method Sample(o: Options, exp: real -> real, draws: seq<Draw>) returns (ghost tokens: seq<int>)
      requires search.Valid() && search.sequences.currentLength < search.p.maxLength
        && Drawable(o, exp, draws, search.p.batchSize, search.p.vocabSize)
      requires !Choose(o).Rejected? && search.p.vocabSize > 0
        && |search.nextTokenScores| == search.p.batchSize * search.p.vocabSize
      modifies search`notDoneCount, search`done, search.nextTokens, search.eosSeen, search.sequences`currentLength,
        search.sequences.sequences
      ensures search.Valid() && |tokens| == search.p.batchSize
        && search.sequences.currentLength == old(search.sequences.currentLength) + 1
      ensures search.Current()
        == G.Step(search.p, old(search.Current()), tokens, !Choose(o).SampleTopK?, old(search.sequences.currentLength))
      ensures Choose(o).SelectTop? ==>
        forall b :: 0 <= b < search.p.batchSize && !old(search.eosSeen[b]) ==> IsArgMax(search.ScoresOf(b), tokens[b])
      ensures !Choose(o).SelectTop? ==> |draws| == search.p.batchSize
      ensures !Choose(o).SelectTop? ==>
        forall b :: 0 <= b < search.p.batchSize && (!old(search.eosSeen[b]) || Redraws(o)) ==>
          Sampled(o, exp, draws[b], search.ScoresOf(b), tokens[b])
    {
      hide IsArgMax, PickedTopKTopP, PickedTopK, PickedTopP, Sorts, IsExp, Choose;
      ChooseIff(o);
      match Choose(o)
      case SelectTop => tokens := search.SelectTop();
      case SampleTopKTopP => tokens := search.SampleTopKTopP(o.topK, o.topP, o.temperature, exp, draws);
      case SampleTopK => tokens := search.SampleTopK(o.topK, o.temperature, exp, draws);
      case SampleTopP => tokens := search.SampleTopP(o.topP, o.temperature, exp, draws);
    }

    lemma SyncGenerated(st: G.State, tokens: seq<int>, pads: bool, length: nat)
      requires Linked() && !state.firstRun && !computedLogits
      requires state.View() == CacheAfter(state.cell, prompts, width, search.p.padToken, moves)
        && state.positionInputs.maskWidth == width + |moves|
      requires search.sequences.currentLength == width + |moves| + 1
      requires G.Fits(search.p, st) && |tokens| == search.p.batchSize && st.rows == RowsAfter(prompts, moves)
      requires search.Current() == G.Step(search.p, st, tokens, pads, length)
      ensures InSync()
    {
      assert search.sequences.Content() == search.Current().rows;
      assert search.Current().cells.nextTokens == search.nextTokens[..];
      assert search.sequences.Content() == Appended(st.rows, search.nextTokens[..]);
    }

    lemma CurrentIs()
      requires search.Valid()
      ensures G.Fits(search.p, search.Current()) && search.Current().rows == search.sequences.Content()
      ensures |search.Current().rows| == search.p.batchSize == |search.Current().cells.eosSeen| == search.eosSeen.Length
      ensures search.Current().cells.done == search.done
      ensures forall b :: 0 <= b < search.p.batchSize ==> search.Current().cells.eosSeen[b] == search.eosSeen[b]
    {
    }

    lemma FollowedIs(st: G.State, tokens: seq<int>)
      requires |tokens| == |prompts| == |st.rows| == |st.cells.eosSeen|
      requires forall b :: 0 <= b < |prompts| && !st.cells.eosSeen[b] ==> BestAt(b, st.rows[b], tokens[b])
      ensures Followed(st, tokens)
    {
    }

    lemma DrawnIs(o: Options, exp: real -> real, draws: seq<Draw>, st: G.State, tokens: seq<int>)
      requires |tokens| == |draws| == |prompts| == |st.rows| == |st.cells.eosSeen|
      requires forall b :: 0 <= b < |prompts| && (!st.cells.eosSeen[b] || Redraws(o)) ==>
        DrawnAt(o, exp, draws[b], b, st.rows[b], tokens[b])
      ensures Drawn(o, exp, draws, st, tokens)
    {
    }

    lemma DrawnAtIs(o: Options, exp: real -> real, d: Draw, b: nat, row: seq<int>, token: int)
      requires b < |prompts| && |prompts[b]| <= |row|
      ensures DrawnAt(o, exp, d, b, row, token)
        <==> Sampled(o, exp, d, Uncached(state.cell, head, prompts[b], search.p.padToken, row), token)
    {
    }

    lemma BestIs(b: nat, row: seq<int>, token: int)
      requires b < |prompts| && |prompts[b]| <= |row|
      ensures BestAt(b, row, token) <==> IsArgMax(Uncached(state.cell, head, prompts[b], search.p.padToken, row), token)
    {
    }

    /** One token for every row, by the sampler the options select; an error without logits
        or for unsupported options. */
    method GenerateNextToken(o: Options, exp: real -> real, draws: seq<Draw>) returns (ok: bool, ghost tokens: seq<int>)
      requires Linked() && InSync() && search.sequences.currentLength < search.p.maxLength
        && Drawable(o, exp, draws, search.p.batchSize, search.p.vocabSize)
      modifies this`computedLogits, search`notDoneCount, search`done, search.nextTokens, search.eosSeen,
        search.sequences`currentLength, search.sequences.sequences
      ensures !computedLogits
      ensures ok <==>
        && old(computedLogits)
        && (!o.doSample || o.topK == 1 || (o.topK >= 0 && 0.0 <= o.topP <= 1.0))
      ensures search.Valid() && (!ok ==> search.Current() == old(search.Current()))
      ensures ok ==>
        Linked() && InSync() && |tokens| == search.p.batchSize
        && search.sequences.currentLength == old(search.sequences.currentLength) + 1
      ensures ok ==>
        search.Current() == G.Step(search.p, old(search.Current()), tokens,
          !(o.doSample && o.topK > 1 && (o.topP == 0.0 || o.topP == 1.0)), old(search.sequences.currentLength))
      ensures ok && (!o.doSample || o.topK == 1) ==> Followed(old(search.Current()), tokens)
      ensures ok && o.doSample && o.topK != 1 ==> Drawn(o, exp, draws, old(search.Current()), tokens)
    {
      hide *;
      ChooseIff(o);
      tokens := [];
      LinkedParts();
      if !computedLogits {
        return false, [];
      }
      SyncComputed();
      Apart();
      CurrentIs();
      ghost var st, length := search.Current(), search.sequences.currentLength;
      forall b | 0 <= b < search.p.batchSize
        ensures |search.nextTokenScores| == search.p.batchSize * search.p.vocabSize
        ensures |prompts[b]| <= |st.rows[b]|
          && search.ScoresOf(b) == Uncached(state.cell, head, prompts[b], search.p.padToken, st.rows[b])
      {
        ScoresAreUncached(b);
      }
      ScoresSized();
      computedLogits := false;
      if Choose(o).Rejected? {
        return false, [];
      }
      tokens := Sample(o, exp, draws);
      MakeLinked();
      SyncGenerated(st, tokens, !Choose(o).SampleTopK?, length);
      if Choose(o).SelectTop? {
        forall b | 0 <= b < |prompts| && !st.cells.eosSeen[b] ensures BestAt(b, st.rows[b], tokens[b]) {
          BestIs(b, st.rows[b], tokens[b]);
        }
        FollowedIs(st, tokens);
      } else {
        forall b | 0 <= b < |prompts| && (!st.cells.eosSeen[b] || Redraws(o))
          ensures DrawnAt(o, exp, draws[b], b, st.rows[b], tokens[b])
        {
          DrawnAtIs(o, exp, draws[b], b, st.rows[b], tokens[b]);
        }
        DrawnIs(o, exp, draws, st, tokens);
      }
      ok := true;
    }

    /** One round of the loop. */
    method Round(o: Options, exp: real -> real, draws: seq<Draw>) returns (ok: bool, ghost tokens: seq<int>)
      requires Linked() && InSync() && !computedLogits && search.sequences.currentLength < search.p.maxLength
        && Drawable(o, exp, draws, search.p.batchSize, search.p.vocabSize)
      modifies this`computedLogits, this`moves, search`nextTokenScores, state, state.inputIds, state.inputIds.value,
        state.positionInputs, state.positionInputs.positionIds,
        search`notDoneCount, search`done, search.nextTokens, search.eosSeen, search.sequences`currentLength,
          search.sequences.sequences
      ensures !computedLogits && search.Valid()
        && (ok <==> !o.doSample || o.topK == 1 || (o.topK >= 0 && 0.0 <= o.topP <= 1.0))
      ensures state.inputIds.value == old(state.inputIds.value) || fresh(state.inputIds.value)
      ensures state.positionInputs.positionIds in {old(state.positionInputs.positionIds),
        old(state.positionInputs.positionIdsNext)}
      ensures state.positionInputs.positionIdsNext == old(state.positionInputs.positionIdsNext)
      ensures ok ==>
        Linked() && InSync() && |tokens| == search.p.batchSize
        && search.sequences.currentLength == old(search.sequences.currentLength) + 1
      ensures ok ==>
        search.Current() == G.Step(search.p, old(search.Current()), tokens,
          !(o.doSample && o.topK > 1 && (o.topP == 0.0 || o.topP == 1.0)), old(search.sequences.currentLength))
      ensures ok && (!o.doSample || o.topK == 1) ==> Followed(old(search.Current()), tokens)
      ensures ok && o.doSample && o.topK != 1 ==> Drawn(o, exp, draws, old(search.Current()), tokens)
    {
      hide *;
      LinkedParts();
      var computed := ComputeLogits();
      ok, tokens := GenerateNextToken(o, exp, draws);
    }

    lemma ScoresSized()
      requires Linked() && InSync() && computedLogits
      ensures |search.nextTokenScores| == search.p.batchSize * search.p.vocabSize
    {
    }
  }

  // ----- the generation loop -----

  datatype Outcome = Failure | Success(sequences: seq<seq<int>>)

  /** The generator's own checks of its parameters. */
  predicate Accepted(p: G.Params, contextLength: nat, sequenceLength: nat) {
    p.maxLength != 0 && p.maxLength <= contextLength && p.batchSize >= 1 && p.vocabSize >= 1
      && sequenceLength < p.maxLength
  }

  /** What a run with a sampler that pads returns: rows of one length between s and maxLength; after EOS only padding;
      shorter than maxLength only when every row has EOS; and not all rows had EOS one token earlier. */
  ghost predicate StoppedRight(p: G.Params, prompts: seq<seq<int>>, rows: seq<seq<int>>, s: nat, length: nat) {
    && |rows| == |prompts| == p.batchSize && s < length <= p.maxLength
    && (forall b :: 0 <= b < p.batchSize ==>
      |prompts[b]| == s && |rows[b]| == length && prompts[b] <= rows[b] && G.EosThenPad(p, rows[b][s..]))
    && (length == p.maxLength || forall b :: 0 <= b < p.batchSize ==> p.eosToken in rows[b][s..])
    && (exists b :: 0 <= b < p.batchSize && p.eosToken !in rows[b][s..length - 1])
  }

  ghost predicate AllGreedy<KV>(cell: (seq<KV>, Fed) -> KV, head: seq<KV> -> seq<real>, prompts: seq<seq<int>>,
      p: G.Params, rows: seq<seq<int>>) {
    |rows| == |prompts| && forall b :: 0 <= b < |prompts| ==> IsGreedy(cell, head, prompts[b], p, rows[b])
  }

  /** One step of arg-max choices extends greedy rows to greedy rows. */
  lemma GreedyStep<KV(!new)>(g: Generator<KV>, st: G.State, tokens: seq<int>, length: nat)
    requires G.Inv(g.search.p, g.prompts, st, length) && |tokens| == g.search.p.batchSize && g.Followed(st, tokens)
    requires AllGreedy(g.state.cell, g.head, g.prompts, g.search.p, st.rows)
    ensures G.Fits(g.search.p, st)
    ensures AllGreedy(g.state.cell, g.head, g.prompts, g.search.p, G.Step(g.search.p, st, tokens, true, length).rows)
  {
    hide IsGreedy, Uncached, IsArgMax, G.Turns, G.EosThenPad;
    var p := g.search.p;
    forall b | 0 <= b < p.batchSize
      ensures IsGreedy(g.state.cell, g.head, g.prompts[b], p, G.Step(p, st, tokens, true, length).rows[b])
    {
      G.StepParts(p, st, tokens, true, length, b);
      assert G.EntryOk(p, g.prompts[b], st.rows[b], st.cells.eosSeen[b]);
      var token := if st.cells.eosSeen[b] then p.padToken else tokens[b];
      assert !st.cells.eosSeen[b] ==> g.BestAt(b, st.rows[b], tokens[b]);
      IsGreedyMore(g.state.cell, g.head, g.prompts[b], p, st.rows[b], token);
    }
  }

  ghost predicate AllDrawn<KV>(cell: (seq<KV>, Fed) -> KV, head: seq<KV> -> seq<real>, o: Options, exp: real -> real,
      draws: nat -> seq<Draw>, prompts: seq<seq<int>>, p: G.Params, rows: seq<seq<int>>)
  {
    |rows| == |prompts| && forall b :: 0 <= b < |prompts| ==>
      IsDrawn(cell, head, o, exp, draws, b, prompts[b], p, rows[b])
  }

  /** One step of draws extends drawn rows to drawn rows. */
  lemma DrawnStep<KV(!new)>(g: Generator<KV>, o: Options, exp: real -> real, draws: nat -> seq<Draw>, st: G.State,
      tokens: seq<int>, length: nat)
    requires G.Fits(g.search.p, st) && |tokens| == |g.prompts| == g.search.p.batchSize && g.width <= length
    requires forall b :: 0 <= b < |g.prompts| ==> |g.prompts[b]| == g.width && |st.rows[b]| == length
    requires !Redraws(o) ==>
      forall b :: 0 <= b < |g.prompts| ==> (st.cells.eosSeen[b] <==> g.search.p.eosToken in st.rows[b][g.width..])
    requires g.Drawn(o, exp, draws(length - g.width), st, tokens)
    requires AllDrawn(g.state.cell, g.head, o, exp, draws, g.prompts, g.search.p, st.rows)
    ensures AllDrawn(g.state.cell, g.head, o, exp, draws, g.prompts, g.search.p,
      G.Step(g.search.p, st, tokens, !Redraws(o), length).rows)
  {
    hide IsDrawn, Uncached, Sampled, G.Step, Redraws;
    var p := g.search.p;
    forall b | 0 <= b < p.batchSize
      ensures IsDrawn(g.state.cell, g.head, o, exp, draws, b, g.prompts[b], p,
        G.Step(p, st, tokens, !Redraws(o), length).rows[b])
    {
      G.StepParts(p, st, tokens, !Redraws(o), length, b);
      var seen := st.cells.eosSeen[b];
      var token := if !Redraws(o) && seen then p.padToken else tokens[b];
      assert !seen || Redraws(o) ==> g.DrawnAt(o, exp, draws(length - g.width)[b], b, st.rows[b], tokens[b]);
      IsDrawnMore(g.state.cell, g.head, o, exp, draws, b, g.prompts[b], p, st.rows[b], token);
    }
  }

  lemma NoneDrawn<KV>(cell: (seq<KV>, Fed) -> KV, head: seq<KV> -> seq<real>, o: Options, exp: real -> real,
      draws: nat -> seq<Draw>, prompts: seq<seq<int>>, p: G.Params)
    ensures AllDrawn(cell, head, o, exp, draws, prompts, p, prompts)
  {
  }

  /** Not every row had EOS one token ago. */
  ghost predicate WasOpen(p: G.Params, rows: seq<seq<int>>, s: nat, length: nat) {
    exists b :: 0 <= b < |rows| && s <= length - 1 <= |rows[b]| && p.eosToken !in rows[b][s..length - 1]
  }

  lemma OpenBefore(p: G.Params, prompts: seq<seq<int>>, st: G.State, tokens: seq<int>, pads: bool, s: nat, length: nat)
    requires G.Inv(p, prompts, st, length) && |tokens| == p.batchSize && !st.cells.done
    requires forall b :: 0 <= b < |prompts| ==> |prompts[b]| == s
    ensures WasOpen(p, G.Step(p, st, tokens, pads, length).rows, s, length + 1)
  {
    hide G.EosThenPad, G.Turns;
    var b :| 0 <= b < p.batchSize && !st.cells.eosSeen[b];
    assert G.EntryOk(p, prompts[b], st.rows[b], st.cells.eosSeen[b]);
    G.StepParts(p, st, tokens, pads, length, b);
    var row := G.Step(p, st, tokens, pads, length).rows[b];
    assert row[s..length] == st.rows[b][s..];
  }

  lemma StopIsRight(p: G.Params, prompts: seq<seq<int>>, st: G.State, s: nat, length: nat)
    requires G.Inv(p, prompts, st, length) && st.cells.done && s < length <= p.maxLength
      && WasOpen(p, st.rows, s, length)
    requires forall b :: 0 <= b < |prompts| ==> |prompts[b]| == s
    ensures StoppedRight(p, prompts, st.rows, s, length)
  {
    forall b | 0 <= b < p.batchSize
      ensures |st.rows[b]| == length && prompts[b] <= st.rows[b] && G.EosThenPad(p, st.rows[b][s..])
      ensures length < p.maxLength ==> p.eosToken in st.rows[b][s..]
    {
      assert G.EntryOk(p, prompts[b], st.rows[b], st.cells.eosSeen[b]);
    }
  }

  /** What is known between the rounds of a run. */
  ghost predicate Underway<KV(!new)>(o: Options, exp: real -> real, draws: nat -> seq<Draw>, g: Generator<KV>,
      st: G.State, length: nat)
  {
    && (!Choose(o).SampleTopK? ==>
      G.Inv(g.search.p, g.prompts, st, length) && (length > g.width ==> WasOpen(g.search.p, st.rows, g.width, length)))
    && (Choose(o).SampleTopK? ==>
      CountInv(g.search.p, g.prompts, st, g.width, length)
      && (length > g.width ==> CountedBelow(g.search.p, Shorter(st.rows), g.width)))
    && (if Choose(o).SelectTop? then AllGreedy(g.state.cell, g.head, g.prompts, g.search.p, st.rows)
        else AllDrawn(g.state.cell, g.head, o, exp, draws, g.prompts, g.search.p, st.rows))
    && (length == g.search.p.maxLength ==> st.cells.done)
  }

  lemma StartUnderway<KV(!new)>(o: Options, exp: real -> real, draws: nat -> seq<Draw>, g: Generator<KV>, st: G.State)
    requires G.Initial(g.search.p, g.prompts, g.width, st)
    ensures Underway(o, exp, draws, g, st, g.width)
  {
    hide G.Inv, CountInv;
    G.InitialInv(g.search.p, g.prompts, g.width, st);
    InitialCount(g.search.p, g.prompts, g.width, st);
    NoneDrawn(g.state.cell, g.head, o, exp, draws, g.prompts, g.search.p);
  }

  lemma RedrawsIff(o: Options)
    requires !Choose(o).SelectTop? && !Choose(o).Rejected?
    ensures Choose(o).SampleTopK? <==> Redraws(o)
  {
  }

  /** A round of a sampler that draws. */
  lemma DrawnRound<KV(!new)>(o: Options, exp: real -> real, draws: nat -> seq<Draw>, g: Generator<KV>, st: G.State,
      tokens: seq<int>, length: nat)
    requires Underway(o, exp, draws, g, st, length) && G.Fits(g.search.p, st) && |tokens| == g.search.p.batchSize
    requires !Choose(o).SelectTop? && !Choose(o).Rejected? && g.width <= length
    requires (forall b :: 0 <= b < |g.prompts| ==> |g.prompts[b]| == g.width)
      && g.Drawn(o, exp, draws(length - g.width), st, tokens)
    ensures AllDrawn(g.state.cell, g.head, o, exp, draws, g.prompts, g.search.p,
      G.Step(g.search.p, st, tokens, !Choose(o).SampleTopK?, length).rows)
  {
    hide WasOpen, AllDrawn, Choose, Redraws, CountedBelow, G.EosThenPad, G.Step, g.Drawn;
    RedrawsIff(o);
    if !Choose(o).SampleTopK? {
      forall b | 0 <= b < |g.prompts|
        ensures |st.rows[b]| == length && (st.cells.eosSeen[b] <==> g.search.p.eosToken in st.rows[b][g.width..])
      {
        assert G.EntryOk(g.search.p, g.prompts[b], st.rows[b], st.cells.eosSeen[b]);
      }
    }
    DrawnStep(g, o, exp, draws, st, tokens, length);
  }

  lemma RoundUnderway<KV(!new)>(o: Options, exp: real -> real, draws: nat -> seq<Draw>, g: Generator<KV>, st: G.State,
      tokens: seq<int>, length: nat)
    requires Underway(o, exp, draws, g, st, length) && !st.cells.done && G.Fits(g.search.p, st)
      && |tokens| == g.search.p.batchSize && g.width <= length && !Choose(o).Rejected?
    requires Even(g.prompts, g.width) && (Choose(o).SelectTop? ==> g.Followed(st, tokens))
    requires !Choose(o).SelectTop? ==> g.Drawn(o, exp, draws(length - g.width), st, tokens)
    ensures Underway(o, exp, draws, g, G.Step(g.search.p, st, tokens, !Choose(o).SampleTopK?, length), length + 1)
  {
    hide G.Inv, WasOpen, AllGreedy, AllDrawn, g.Followed, g.Drawn, Even, G.Turns, CountInv, CountedBelow, Shorter,
      Choose;
    EvenIs(g.prompts, g.width);
    if Choose(o).SampleTopK? {
      UnpaddedStepCounts(g.search.p, g.prompts, st, tokens, g.width, length);
      BelowBefore(g.search.p, g.prompts, st, tokens, g.width, length);
    } else {
      G.PaddingStepKeepsInv(g.search.p, g.prompts, st, tokens, length);
      OpenBefore(g.search.p, g.prompts, st, tokens, true, g.width, length);
    }
    if Choose(o).SelectTop? {
      GreedyStep(g, st, tokens, length);
    } else {
      DrawnRound(o, exp, draws, g, st, tokens, length);
    }
  }

  lemma EvenIs(rows: seq<seq<int>>, width: nat)
    requires Even(rows, width)
    ensures forall b :: 0 <= b < |rows| ==> |rows[b]| == width
  {
  }

  lemma UnderwayOpen<KV(!new)>(o: Options, exp: real -> real, draws: nat -> seq<Draw>, g: Generator<KV>, st: G.State,
      length: nat)
    requires Underway(o, exp, draws, g, st, length)
    ensures length == g.search.p.maxLength ==> st.cells.done
  {
  }

  /** A finished run's rows. */
  lemma Finished<KV(!new)>(o: Options, exp: real -> real, draws: nat -> seq<Draw>, g: Generator<KV>, st: G.State,
      length: nat)
    requires Underway(o, exp, draws, g, st, length) && st.cells.done && g.width < length <= g.search.p.maxLength
      && Even(g.prompts, g.width)
    ensures !Choose(o).SampleTopK? ==> StoppedRight(g.search.p, g.prompts, st.rows, g.width, length)
    ensures Choose(o).SampleTopK? ==> StoppedByCount(g.search.p, g.prompts, st.rows, g.width, length)
    ensures if Choose(o).SelectTop? then AllGreedy(g.state.cell, g.head, g.prompts, g.search.p, st.rows)
      else AllDrawn(g.state.cell, g.head, o, exp, draws, g.prompts, g.search.p, st.rows)
  {
    hide G.Inv, WasOpen, StoppedRight, CountInv, CountedBelow, StoppedByCount, AllGreedy, AllDrawn, Choose;
    EvenIs(g.prompts, g.width);
    if Choose(o).SampleTopK? {
      CountStops(g.search.p, g.prompts, st, g.width, length);
    } else {
      StopIsRight(g.search.p, g.prompts, st, g.width, length);
    }
  }

  /** The generation loop: model run and token choice until the search is done. */
  method Generate<KV(!new)>(p: G.Params, contextLength: nat, inputIds: seq<int>, sequenceLength: nat,
      cell: (seq<KV>, Fed) -> KV, head: seq<KV> -> seq<real>, o: Options, exp: real -> real, draws: nat -> seq<Draw>)
      returns (r: Outcome, ghost length: nat)
    requires |inputIds| == p.batchSize * sequenceLength
    requires (forall k: seq<KV> :: |head(k)| == p.vocabSize)
      && (forall t :: Drawable(o, exp, draws(t), p.batchSize, p.vocabSize))
    ensures r.Failure? <==>
      || p.maxLength == 0 || p.maxLength > contextLength || p.batchSize < 1 || p.vocabSize < 1
      || sequenceLength >= p.maxLength
      || (o.doSample && o.topK != 1 && (o.topK < 0 || o.topP < 0.0 || o.topP > 1.0))
    ensures r.Success? && !(o.doSample && o.topK > 1 && (o.topP == 0.0 || o.topP == 1.0)) ==>
      StoppedRight(p, Rows(inputIds, sequenceLength, sequenceLength, p.batchSize), r.sequences, sequenceLength, length)
    ensures r.Success? && (!o.doSample || o.topK == 1) ==>
      AllGreedy(cell, head, Rows(inputIds, sequenceLength, sequenceLength, p.batchSize), p, r.sequences)
    ensures r.Success? && o.doSample && o.topK > 1 && (o.topP == 0.0 || o.topP == 1.0) ==>
      StoppedByCount(p, Rows(inputIds, sequenceLength, sequenceLength, p.batchSize), r.sequences, sequenceLength,
        length)
    ensures r.Success? && o.doSample && o.topK != 1 ==>
      AllDrawn(cell, head, o, exp, draws, Rows(inputIds, sequenceLength, sequenceLength, p.batchSize), p, r.sequences)
  {
    hide *;
    ChooseIff(o);
    length := 0;
    AcceptedIs(p, contextLength, sequenceLength);
    if !Accepted(p, contextLength, sequenceLength) {
      return Failure, 0;
    }
    Divides(p.batchSize, sequenceLength);
    var g := new Generator(p, inputIds, cell, head);
    g.LinkedParts();
    g.CurrentIs();
    StartUnderway(o, exp, draws, g, g.search.Current());
    MakeWaiting(o, exp, draws, g, 0);
    var t := 0;
    while !g.search.done
      invariant Waiting(o, exp, draws, g, t) && g.width + t <= p.maxLength && (t == 0 ==> !g.search.done)
      invariant t > 0 ==> !Choose(o).Rejected?
      invariant fresh(g.search.sequences.sequences) && fresh(g.state.inputIds.value)
        && fresh(g.state.positionInputs.positionIds) && fresh(g.state.positionInputs.positionIdsNext)
      decreases p.maxLength - t
    {
      var ok := NextRound(o, exp, draws, g, t);
      if !ok {
        return Failure, 0;
      }
      t := t + 1;
    }
    WaitingIs(o, exp, draws, g, t);
    g.LinkedParts();
    g.CurrentIs();
    length := g.search.sequences.currentLength;
    Finished(o, exp, draws, g, g.search.Current(), length);
    var rows := CollectSequences(g.search.sequences, p.batchSize);
    r := Success(rows);
  }

  /** The generator t rounds into a run. */
  ghost predicate Waiting<KV(!new)>(o: Options, exp: real -> real, draws: nat -> seq<Draw>, g: Generator<KV>, t: nat)
    reads g, g.search, g.search.sequences, g.search.sequences.sequences, g.search.nextTokens, g.search.eosSeen, g.state,
      g.state.inputIds, g.state.inputIds.value, g.state.positionInputs, g.state.positionInputs.attentionMask,
      g.state.positionInputs.positionIds, g.state.positionInputs.positionIdsNext
  {
    && g.Linked() && g.InSync() && !g.computedLogits && g.search.sequences.currentLength == g.width + t
    && g.search.Valid() && Underway(o, exp, draws, g, g.search.Current(), g.width + t)
  }

  lemma WaitingIs<KV(!new)>(o: Options, exp: real -> real, draws: nat -> seq<Draw>, g: Generator<KV>, t: nat)
    requires Waiting(o, exp, draws, g, t)
    ensures g.Linked() && g.InSync() && !g.computedLogits && g.search.sequences.currentLength == g.width + t
    ensures g.search.Valid() && Underway(o, exp, draws, g, g.search.Current(), g.width + t)
  {
    hide g.Linked, g.InSync, g.search.Valid, Underway;
  }

  lemma MakeWaiting<KV(!new)>(o: Options, exp: real -> real, draws: nat -> seq<Draw>, g: Generator<KV>, t: nat)
    requires g.Linked() && g.InSync() && !g.computedLogits && g.search.sequences.currentLength == g.width + t
    requires g.search.Valid() && Underway(o, exp, draws, g, g.search.Current(), g.width + t)
    ensures Waiting(o, exp, draws, g, t)
  {
    hide g.Linked, g.InSync, g.search.Valid, Underway;
  }

  /** The body of the loop. */
  method NextRound<KV(!new)>(o: Options, exp: real -> real, draws: nat -> seq<Draw>, g: Generator<KV>, t: nat)
      returns (ok: bool)
    requires Waiting(o, exp, draws, g, t) && !g.search.done && g.width + t <= g.search.p.maxLength
      && Drawable(o, exp, draws(t), g.search.p.batchSize, g.search.p.vocabSize)
    modifies g`computedLogits, g`moves, g.search`nextTokenScores, g.state, g.state.inputIds, g.state.inputIds.value,
      g.state.positionInputs, g.state.positionInputs.positionIds, g.search`notDoneCount, g.search`done,
      g.search.nextTokens, g.search.eosSeen, g.search.sequences`currentLength, g.search.sequences.sequences
    ensures ok <==> !Choose(o).Rejected?
    ensures ok ==> Waiting(o, exp, draws, g, t + 1) && g.width + t + 1 <= g.search.p.maxLength
    ensures g.state.inputIds.value == old(g.state.inputIds.value) || fresh(g.state.inputIds.value)
    ensures g.state.positionInputs.positionIds in {old(g.state.positionInputs.positionIds),
      old(g.state.positionInputs.positionIdsNext)}
    ensures g.state.positionInputs.positionIdsNext == old(g.state.positionInputs.positionIdsNext)
  {
    hide *;
    ChooseIff(o);
    WaitingIs(o, exp, draws, g, t);
    g.LinkedParts();
    g.CurrentIs();
    UnderwayOpen(o, exp, draws, g, g.search.Current(), g.width + t);
    ghost var st := g.search.Current();
    ghost var tokens;
    ok, tokens := g.Round(o, exp, draws(t));
    if ok {
      RoundUnderway(o, exp, draws, g, st, tokens, g.width + t);
      g.LinkedParts();
      MakeWaiting(o, exp, draws, g, t + 1);
    }
  }

  lemma AcceptedIs(p: G.Params, contextLength: nat, sequenceLength: nat)
    ensures Accepted(p, contextLength, sequenceLength) <==>
            p.maxLength != 0 && p.maxLength <= contextLength && p.batchSize >= 1 && p.vocabSize >= 1
              && sequenceLength < p.maxLength
  {
  }

  lemma Divides(a: nat, b: nat)
    requires a > 0
    ensures a * b / a == b && a * b / a * a == a * b
  {
    var q, r := a * b / a, a * b % a;
    assert q * a + r == b * a;
    if q < b { RowsApart(q, b, a); }
    if b < q { RowsApart(b, q, a); }
  }

  /** The rows as the caller gets them. */
  method CollectSequences(sequences: Sequences, batchSize: nat) returns (result: seq<seq<int>>)
    requires sequences.Valid() && sequences.batchBeamSize == batchSize
    ensures result == sequences.Content()
  {
    hide Rows;
    result := [];
    for i := 0 to batchSize
      invariant result == sequences.Content()[..i]
    {
      var sequence := sequences.GetSequence(i);
      result := result + [sequence];
    }
  }
}
