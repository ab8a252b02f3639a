/** The key/value cache under beam search: coherent with the token rows in every reachable state. */
module CacheCoherence {
  import opened FlatRows
  import opened TokenSequences
  import opened BeamScoring
  import opened Scorer
  import opened BeamRun
  import opened BeamInvariants
  import opened PositionTensors
  import opened Generation

  /** What a beam search hands to the next model run. */
  ghost function BeamMove(p: Params, lanes: seq<Lane>): (m: Move) {
    if p.Valid() && Fits(p, lanes) then Move(Parents(p, lanes), NextTokens(p, lanes)) else Move([], [])
  }

  /** The moves of the first t steps of a run. */
  ghost function BeamMoves(p: Params, states: seq<State>, t: nat): (r: seq<Move>)
    requires t < |states|
    ensures |r| == t
  {
    seq(t, k requires 0 <= k < t => BeamMove(p, states[k + 1].lanes))
  }

  lemma InitialRows(p: Params, prompts: seq<seq<int>>, s: nat, init: State)
    requires Initial(p, prompts, s, init)
    ensures p.Valid() && |init.rows| == p.batchSize * p.numBeams && Even(init.rows, s) && |prompts| == p.batchSize
    ensures init.rows == Expanded(prompts, p.numBeams)
  {
    ExpandedLengths(prompts, p.numBeams, s);
  }

  lemma ShapedParts(p: Params, st: State)
    requires Shaped(p, st)
    ensures p.Valid() && Fits(p, st.lanes) && |st.lanes| == p.batchSize && |st.rows| == p.batchSize * p.numBeams
  {
  }

  /** One step's move turns the old token rows into the new ones. */
  lemma StepMoves(p: Params, st: State, inp: Input, length: nat, norm: (real, nat) -> real)
    requires Shaped(p, st) && Legal(p, st, inp)
    ensures var next := Step(p, st, inp, length, norm);
      && Proper(BeamMove(p, next.lanes), |st.rows|)
      && next.rows == Moved(st.rows, BeamMove(p, next.lanes))
  {
    hide NextLanes, Legal, SlotOf;
    ParentsInRange(p, st, inp, length, norm);
    var m := BeamMove(p, NextLanes(p, st, inp, length, norm));
    if m.indices == [] {
      assert Moved(st.rows, m) == [] && Extended(st.rows, m.indices, m.tokens) == [];
    }
  }

  lemma {:induction false} MovesGiveRows(p: Params, prompts: seq<seq<int>>, init: State, s: nat,
      norm: (real, nat) -> real, inputs: seq<Input>, states: seq<State>, t: nat)
    requires Initial(p, prompts, s, init) && Run(p, init, s, norm, inputs, states) && t < |states|
    ensures AllProper(BeamMoves(p, states, t), |init.rows|)
    ensures RowsAfter(init.rows, BeamMoves(p, states, t)) == states[t].rows
  {
    hide *;
    RunAt(p, init, s, norm, inputs, states, t);
    MovesUnfold(p, states, t);
    if t == 0 {
      NoMoves(init.rows);
    } else {
      MovesGiveRows(p, prompts, init, s, norm, inputs, states, t - 1);
      StepMoves(p, states[t - 1], inputs[t - 1], s + (t - 1), norm);
      ShapedParts(p, states[t - 1]);
      InitialRows(p, prompts, s, init);
      OneMore(init.rows, BeamMoves(p, states, t - 1), BeamMove(p, states[t].lanes));
    }
  }

  lemma NoMoves(rows: seq<seq<int>>)
    ensures AllProper([], |rows|) && RowsAfter(rows, []) == rows
  {
  }

  lemma OneMore(rows: seq<seq<int>>, was: seq<Move>, m: Move)
    requires AllProper(was, |rows|) && Proper(m, |rows|)
    ensures AllProper(was + [m], |rows|) && RowsAfter(rows, was + [m]) == Moved(RowsAfter(rows, was), m)
  {
    assert (was + [m])[..|was|] == was;
  }

  lemma MovesUnfold(p: Params, states: seq<State>, t: nat)
    requires t < |states|
    ensures t == 0 ==> BeamMoves(p, states, t) == []
    ensures t > 0 ==> BeamMoves(p, states, t) == BeamMoves(p, states, t - 1) + [BeamMove(p, states[t].lanes)]
  {
    hide BeamMove, Fits;
  }

  /** Cache coherence over every run, for every row, finished batch entries included: the columns of row r are those of
      a history whose tokens are the row's; before the run they are those of all tokens but the last. */
  lemma BeamCoherence<KV>(cell: (seq<KV>, Fed) -> KV, p: Params, prompts: seq<seq<int>>, init: State, s: nat,
      norm: (real, nat) -> real, inputs: seq<Input>, states: seq<State>, t: nat, r: nat)
    requires Initial(p, prompts, s, init) && Run(p, init, s, norm, inputs, states) && t < |states| && r < |init.rows|
    ensures Even(init.rows, s) && AllProper(BeamMoves(p, states, t), |init.rows|) && |states[t].rows| == |init.rows|
    ensures var c := CacheAfter(cell, init.rows, s, p.padToken, BeamMoves(p, states, t));
      var history, row := Histories(init.rows, s, p.padToken, BeamMoves(p, states, t))[r], states[t].rows[r];
      && c.presents[r] == Fold(cell, history) && TokensOf(history) == row && |row| == s + t
      && (t > 0 ==> c.pasts[r] == Fold(cell, history[..|row| - 1]) && c.inputs.ids[r] == [row[|row| - 1]])
  {
    hide *;
    InitialRows(p, prompts, s, init);
    MovesGiveRows(p, prompts, init, s, norm, inputs, states, t);
    Coherent(cell, init.rows, s, p.padToken, BeamMoves(p, states, t), r);
    Lockstep(cell, init.rows, s, p.padToken, BeamMoves(p, states, t), r);
    if t > 0 {
      PastIsAllButLast(cell, init.rows, s, p.padToken, BeamMoves(p, states, t), r);
    }
  }

  /** The rows of an unfinished batch entry descend from its own rows only. */
  lemma {:induction false} UnfinishedKin(p: Params, prompts: seq<seq<int>>, init: State, s: nat,
      norm: (real, nat) -> real, inputs: seq<Input>, states: seq<State>, t: nat, b: nat, j: nat)
    requires Initial(p, prompts, s, init) && Run(p, init, s, norm, inputs, states) && t < |states|
    requires b < p.batchSize && j < p.numBeams && b < |states[t].lanes| && !states[t].lanes[b].done
    ensures AllProper(BeamMoves(p, states, t), |init.rows|) && b * p.numBeams + j < |init.rows|
    ensures Kin(init.rows, p.padToken, BeamMoves(p, states, t), b * p.numBeams + j)
  {
    hide *;
    InitialRows(p, prompts, s, init);
    RowInside(b, p.batchSize, p.numBeams);
    MovesGiveRows(p, prompts, init, s, norm, inputs, states, t);
    MovesUnfold(p, states, t);
    RunAt(p, init, s, norm, inputs, states, t);
    if t == 0 {
      NoKin(init.rows, p.padToken, b * p.numBeams + j);
    } else {
      var st, inp, length := states[t - 1], inputs[t - 1], s + (t - 1);
      ShapedParts(p, st);
      RunInv(p, prompts, init, s, norm, inputs, states, t - 1);
      StepKeepsInv(p, prompts, st, inp, length, norm);
      var parent := OwnParentBeam(p, st, inp, length, norm, b, j);
      UnfinishedKin(p, prompts, init, s, norm, inputs, states, t - 1, b, parent);
      SamePrompt(p, prompts, s, init, b, j, parent);
      MoreKin(init.rows, p.padToken, BeamMoves(p, states, t - 1), BeamMove(p, states[t].lanes), b * p.numBeams + j,
        b * p.numBeams + parent);
    }
  }

  lemma NoKin(rows: seq<seq<int>>, padToken: int, r: nat)
    requires r < |rows|
    ensures AllProper([], |rows|) && Kin(rows, padToken, [], r)
  {
  }

  lemma MoreKin(rows: seq<seq<int>>, padToken: int, was: seq<Move>, m: Move, r: nat, parent: nat)
    requires AllProper(was, |rows|) && Proper(m, |rows|) && r < |rows| && parent < |rows|
      && parent == Parent(m, |rows|, r)
    requires MaskOf(rows[parent], padToken) == MaskOf(rows[r], padToken) && Kin(rows, padToken, was, parent)
    ensures AllProper(was + [m], |rows|) && Kin(rows, padToken, was + [m], r)
  {
    hide MaskOf, Parent;
    assert (was + [m])[..|was|] == was;
  }

  lemma SamePrompt(p: Params, prompts: seq<seq<int>>, s: nat, init: State, b: nat, j: nat, k: nat)
    requires Initial(p, prompts, s, init) && b < p.batchSize && j < p.numBeams && k < p.numBeams
    ensures b < |prompts| && b * p.numBeams + j < |init.rows| && b * p.numBeams + k < |init.rows|
    ensures init.rows[b * p.numBeams + j] == init.rows[b * p.numBeams + k] == prompts[b]
  {
    ExpandedAt(prompts, p.numBeams, b, j);
    ExpandedAt(prompts, p.numBeams, b, k);
  }

  lemma OwnParentBeam(p: Params, st: State, inp: Input, length: nat, norm: (real, nat) -> real, b: nat, j: nat)
      returns (k: nat)
    requires Shaped(p, st) && Legal(p, st, inp) && b < p.batchSize && j < p.numBeams && b < |st.lanes|
      && !st.lanes[b].done
    ensures k < p.numBeams
    ensures Proper(BeamMove(p, Step(p, st, inp, length, norm).lanes), |st.rows|) && b * p.numBeams + j < |st.rows|
    ensures Parent(BeamMove(p, Step(p, st, inp, length, norm).lanes), |st.rows|, b * p.numBeams + j)
      == b * p.numBeams + k
  {
    hide NextLanes, Legal, SlotOf, Parents, NextTokens;
    StepMoves(p, st, inp, length, norm);
    var lanes := NextLanes(p, st, inp, length, norm);
    NextCell(p, st, inp, length, norm, b, j);
    CellOf(p, lanes, b, j);
    k := lanes[b].slots[j].parent - b * p.numBeams;
  }

  /** Incremental decoding equals recomputing: in every reachable state, the columns of an unfinished batch entry's row
      are those of running the model once on the row, under the prompt's mask followed by ones. */
  lemma BeamIncrementalIsFromScratch<KV>(cell: (seq<KV>, Fed) -> KV, p: Params, prompts: seq<seq<int>>, init: State,
      s: nat, norm: (real, nat) -> real, inputs: seq<Input>, states: seq<State>, t: nat, b: nat, j: nat)
    requires Initial(p, prompts, s, init) && Run(p, init, s, norm, inputs, states) && t < |states|
    requires b < p.batchSize && j < p.numBeams && b < |states[t].lanes| && !states[t].lanes[b].done
    ensures Even(init.rows, s) && AllProper(BeamMoves(p, states, t), |init.rows|) && b < |prompts|
    ensures b * p.numBeams + j < |init.rows| == |states[t].rows|
      && |states[t].rows[b * p.numBeams + j]| == |MaskOf(prompts[b], p.padToken)| + t
    ensures CacheAfter(cell, init.rows, s, p.padToken, BeamMoves(p, states, t)).presents[b * p.numBeams + j]
         == FromScratch(cell, states[t].rows[b * p.numBeams + j], MaskOf(prompts[b], p.padToken) + seq(t, _ => 1))
  {
    hide *;
    InitialRows(p, prompts, s, init);
    SamePrompt(p, prompts, s, init, b, j, j);
    MovesGiveRows(p, prompts, init, s, norm, inputs, states, t);
    UnfinishedKin(p, prompts, init, s, norm, inputs, states, t, b, j);
    IncrementalIsFromScratch(cell, init.rows, s, p.padToken, BeamMoves(p, states, t), b * p.numBeams + j);
    MaskRow(init.rows, p.padToken, t, b * p.numBeams + j);
  }
}
