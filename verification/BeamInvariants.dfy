/** Safety over whole beam-search runs. */
module BeamInvariants {
  import opened FlatRows
  import opened TokenSequences
  import opened Hypotheses
  import opened BeamScoring
  import opened Scorer
  import opened BeamRun

  /** Stored hypotheses: in order, and each starts with its own batch entry's prompt. */
  ghost predicate HypsOk(prompt: seq<int>, hyps: seq<Hypothesis>, length: nat) {
    Descending(hyps) && forall h :: h in hyps ==> prompt <= h.item && |h.item| <= length
  }

  /** The rows of an unfinished batch entry continue its own prompt. */
  ghost predicate LaneOk(p: Params, prompt: seq<int>, lane: Lane, rows: seq<seq<int>>, length: nat) {
    && HypsOk(prompt, lane.hyps, length)
    && (lane.done ==> |lane.hyps| == p.numBeams)
    && (!lane.done ==> forall j :: 0 <= j < |rows| ==> prompt <= rows[j])
  }

  ghost function Block(p: Params, st: State, b: nat): (r: seq<seq<int>>)
    requires Shaped(p, st) && b < p.batchSize
    ensures |r| == p.numBeams
  {
    RowInside(b, p.batchSize, p.numBeams);
    st.rows[b * p.numBeams..b * p.numBeams + p.numBeams]
  }

  ghost predicate Inv(p: Params, prompts: seq<seq<int>>, st: State, length: nat) {
    && Shaped(p, st) && |prompts| == p.batchSize
    && (forall i :: 0 <= i < |st.rows| ==> |st.rows[i]| == length)
    && forall b :: 0 <= b < p.batchSize ==> LaneOk(p, prompts[b], st.lanes[b], Block(p, st, b), length)
  }

  lemma {:induction false} AddAllKeepsHyps(n: nat, prompt: seq<int>, hyps: seq<Hypothesis>, more: seq<Hypothesis>,
      length: nat)
    requires HypsOk(prompt, hyps, length)
    requires forall i :: 0 <= i < |more| ==> prompt <= more[i].item && |more[i].item| <= length
    ensures HypsOk(prompt, AddAll(n, hyps, more), length)
  {
    AddAllDescending(n, hyps, more);
    forall h | h in AddAll(n, hyps, more) ensures prompt <= h.item && |h.item| <= length {
      if h in more { var i :| 0 <= i < |more| && more[i] == h; }
    }
  }

  /** A step of one batch entry keeps its hypotheses on its own prompt. */
  lemma NextLaneOk(p: Params, prompt: seq<int>, lane: Lane, own: seq<Candidate>, tested: seq<real>,
      rows: seq<seq<int>>, base: nat, length: nat, norm: (real, nat) -> real)
    requires |rows| == p.numBeams && tested != [] && (!lane.done ==> GoodCandidates(p, own))
      && |lane.hyps| <= p.numBeams
    requires LaneOk(p, prompt, lane, rows, length) && forall j :: 0 <= j < |rows| ==> |rows[j]| == length
    ensures var r := NextLane(p, lane, own, tested, rows, base, length, norm);
      HypsOk(prompt, r.hyps, length) && (r.done ==> |r.hyps| == p.numBeams) && (lane.done ==> r.done)
  {
    if !lane.done {
      forall c | c in own ensures 0 + c.beam < |rows| { }
      AddAllKeepsHyps(p.numBeams, prompt, lane.hyps, Completed(own, Finished(p, own), rows, 0, norm), length);
    }
  }

  /** A row after a step: its parent's tokens and the cell's token. */
  lemma StepRow(p: Params, st: State, inp: Input, length: nat, norm: (real, nat) -> real, b: nat, j: nat)
    requires Shaped(p, st) && Legal(p, st, inp) && b < p.batchSize && j < p.numBeams
    ensures Shaped(p, Step(p, st, inp, length, norm))
      && Step(p, st, inp, length, norm).lanes == NextLanes(p, st, inp, length, norm)
    ensures |NextLanes(p, st, inp, length, norm)| == |st.lanes| == p.batchSize
      && |NextLanes(p, st, inp, length, norm)[b].slots| == p.numBeams
    ensures var slot := NextLanes(p, st, inp, length, norm)[b].slots[j];
      && slot.parent < |st.rows| && OwnParent(p, st.lanes[b].done, b, slot)
      && Block(p, Step(p, st, inp, length, norm), b)[j] == st.rows[slot.parent] + [slot.token]
  {
    hide NextLanes, Legal;
    var lanes := NextLanes(p, st, inp, length, norm);
    NextCell(p, st, inp, length, norm, b, j);
    CellOf(p, lanes, b, j);
    ParentsInRange(p, st, inp, length, norm);
    RowInside(b, p.batchSize, p.numBeams);
  }

  /** The parent of an unfinished batch entry's row is one of its own rows. */
  lemma ParentInBlock(p: Params, st: State, b: nat, slot: Slot)
    requires Shaped(p, st) && b < p.batchSize && OwnParent(p, false, b, slot)
    ensures 0 <= slot.parent - b * p.numBeams < p.numBeams && slot.parent < |st.rows|
    ensures Block(p, st, b)[slot.parent - b * p.numBeams] == st.rows[slot.parent]
  {
    RowInside(b, p.batchSize, p.numBeams);
  }

  /** The rows of an unfinished batch entry stay on its prompt. */
  lemma NextRowOk(p: Params, prompt: seq<int>, st: State, inp: Input, length: nat, norm: (real, nat) -> real, b: nat,
      j: nat)
    requires Shaped(p, st) && Legal(p, st, inp) && b < p.batchSize && j < p.numBeams && |st.lanes| == p.batchSize
      && !st.lanes[b].done
    requires forall k :: 0 <= k < p.numBeams ==> prompt <= Block(p, st, b)[k]
    ensures prompt <= Block(p, Step(p, st, inp, length, norm), b)[j]
  {
    hide *;
    StepRow(p, st, inp, length, norm, b, j);
    ParentInBlock(p, st, b, NextLanes(p, st, inp, length, norm)[b].slots[j]);
  }

  lemma InvAt(p: Params, prompts: seq<seq<int>>, st: State, length: nat, b: nat)
    requires Inv(p, prompts, st, length) && b < p.batchSize
    ensures p.Valid() && Shaped(p, st) && |prompts| == |st.lanes| == p.batchSize && |st.lanes[b].hyps| <= p.numBeams
    ensures LaneOk(p, prompts[b], st.lanes[b], Block(p, st, b), length)
    ensures !st.lanes[b].done ==> forall j :: 0 <= j < p.numBeams ==> prompts[b] <= Block(p, st, b)[j]
    ensures forall j :: 0 <= j < p.numBeams ==> |Block(p, st, b)[j]| == length
    ensures b * p.numBeams + p.numBeams <= |st.rows|
      && Block(p, st, b) == st.rows[b * p.numBeams..b * p.numBeams + p.numBeams]
  {
    RowInside(b, p.batchSize, p.numBeams);
  }

  lemma HypsOkLonger(prompt: seq<int>, hyps: seq<Hypothesis>, length: nat)
    requires HypsOk(prompt, hyps, length)
    ensures HypsOk(prompt, hyps, length + 1)
  {
  }

  lemma MakeLaneOk(p: Params, prompt: seq<int>, lane: Lane, rows: seq<seq<int>>, length: nat)
    requires HypsOk(prompt, lane.hyps, length) && (lane.done ==> |lane.hyps| == p.numBeams)
    requires lane.done || forall j :: 0 <= j < |rows| ==> prompt <= rows[j]
    ensures LaneOk(p, prompt, lane, rows, length)
  {
  }

  lemma LaneStepOk(p: Params, prompts: seq<seq<int>>, st: State, inp: Input, length: nat, norm: (real, nat) -> real,
      b: nat)
    requires Inv(p, prompts, st, length) && Legal(p, st, inp) && b < p.batchSize
    ensures |prompts| == |st.lanes| == p.batchSize && Shaped(p, st) && Shaped(p, Step(p, st, inp, length, norm))
    ensures LaneOk(p, prompts[b], Step(p, st, inp, length, norm).lanes[b], Block(p, Step(p, st, inp, length, norm), b),
      length + 1)
    ensures st.lanes[b].done ==> Step(p, st, inp, length, norm).lanes[b].done
  {
    hide *;
    InvAt(p, prompts, st, length, b);
    NextIs(p, st, inp, length, norm, b);
    NextLaneOk(p, prompts[b], st.lanes[b], CandidatesAt(p, st, inp, b),
      TestedScores(p, Flat(p, st, inp, p.batchSize), b), Block(p, st, b), b * p.numBeams, length, norm);
    forall j | 0 <= j < p.numBeams
      && !st.lanes[b].done ensures prompts[b] <= Block(p, Step(p, st, inp, length, norm), b)[j] {
      NextRowOk(p, prompts[b], st, inp, length, norm, b, j);
    }
    StepRow(p, st, inp, length, norm, b, 0);
    HypsOkLonger(prompts[b], NextLanes(p, st, inp, length, norm)[b].hyps, length);
    MakeLaneOk(p, prompts[b], NextLanes(p, st, inp, length, norm)[b], Block(p, Step(p, st, inp, length, norm), b),
      length + 1);
  }

  /** Every step keeps the invariant, and finished batch entries stay finished. */
  lemma StepKeepsInv(p: Params, prompts: seq<seq<int>>, st: State, inp: Input, length: nat, norm: (real, nat) -> real)
    requires Inv(p, prompts, st, length) && Legal(p, st, inp)
    ensures Inv(p, prompts, Step(p, st, inp, length, norm), length + 1)
    ensures forall b :: 0 <= b < p.batchSize && st.lanes[b].done ==> Step(p, st, inp, length, norm).lanes[b].done
  {
    hide NextLanes, Legal, LaneOk;
    var next := Step(p, st, inp, length, norm);
    forall b | 0 <= b < p.batchSize
      ensures LaneOk(p, prompts[b], next.lanes[b], Block(p, next, b), length + 1)
      ensures st.lanes[b].done ==> next.lanes[b].done
    {
      LaneStepOk(p, prompts, st, inp, length, norm, b);
    }
    ParentsInRange(p, st, inp, length, norm);
  }

  // ----- runs -----

  /** The state before the first step. */
  ghost predicate Initial(p: Params, prompts: seq<seq<int>>, s: nat, st: State) {
    && p.Valid() && |prompts| == p.batchSize == |st.lanes|
    && (forall b :: 0 <= b < p.batchSize ==> |prompts[b]| == s && InitialLane(p, st.lanes[b]))
    && st.rows == Expanded(prompts, p.numBeams)
  }

  lemma InitialInv(p: Params, prompts: seq<seq<int>>, s: nat, st: State)
    requires Initial(p, prompts, s, st)
    ensures Inv(p, prompts, st, s)
  {
    forall b | 0 <= b < p.batchSize ensures LaneOk(p, prompts[b], st.lanes[b], Block(p, st, b), s) {
      InitialLaneOk(p, prompts, s, st, b);
    }
    ExpandedLengths(prompts, p.numBeams, s);
  }

  lemma InitialLaneOk(p: Params, prompts: seq<seq<int>>, s: nat, st: State, b: nat)
    requires Initial(p, prompts, s, st) && b < p.batchSize
    ensures Shaped(p, st) && LaneOk(p, prompts[b], st.lanes[b], Block(p, st, b), s)
  {
    hide Expanded;
    BlockIs(p, st, b);
    forall j | 0 <= j < p.numBeams ensures prompts[b] <= Block(p, st, b)[j] {
      ExpandedAt(prompts, p.numBeams, b, j);
    }
  }

  lemma ExpandedLengths(prompts: seq<seq<int>>, beams: nat, s: nat)
    requires beams > 0 && forall b :: 0 <= b < |prompts| ==> |prompts[b]| == s
    ensures forall i :: 0 <= i < |prompts| * beams ==> |Expanded(prompts, beams)[i]| == s
  {
    forall i | 0 <= i < |prompts| * beams ensures |Expanded(prompts, beams)[i]| == s { BatchOf(i, |prompts|, beams); }
  }

  lemma ExpandedAt(prompts: seq<seq<int>>, beams: nat, b: nat, j: nat)
    requires b < |prompts| && j < beams
    ensures b * beams + j < |prompts| * beams && Expanded(prompts, beams)[b * beams + j] == prompts[b]
  {
    RowInside(b, |prompts|, beams);
    RowOf(b, j, beams);
  }

  /** A run: a state reached from the initial one by legal steps. */
  ghost predicate Run(p: Params, init: State, s: nat, norm: (real, nat) -> real, inputs: seq<Input>,
      states: seq<State>) {
    && |states| == |inputs| + 1 && states[0] == init
    && forall t :: 0 <= t < |inputs| ==>
         Shaped(p, states[t]) && Legal(p, states[t], inputs[t])
           && states[t + 1] == Step(p, states[t], inputs[t], s + t, norm)
  }

  lemma {:induction false} RunInv(p: Params, prompts: seq<seq<int>>, init: State, s: nat, norm: (real, nat) -> real,
      inputs: seq<Input>, states: seq<State>, t: nat)
    requires Initial(p, prompts, s, init) && Run(p, init, s, norm, inputs, states) && t < |states|
    ensures Inv(p, prompts, states[t], s + t)
  {
    hide Legal, Step, Inv;
    if t == 0 {
      InitialInv(p, prompts, s, init);
    } else {
      RunInv(p, prompts, init, s, norm, inputs, states, t - 1);
      StepKeepsInv(p, prompts, states[t - 1], inputs[t - 1], s + (t - 1), norm);
    }
  }

  /** Batch isolation, in every reachable state: rows of unfinished batch entries and all stored hypotheses continue the
      batch entry's own prompt, and a finished batch entry has numBeams hypotheses. */
  lemma BatchIsolation(p: Params, prompts: seq<seq<int>>, init: State, s: nat, norm: (real, nat) -> real,
      inputs: seq<Input>, states: seq<State>, t: nat, b: nat)
    requires Initial(p, prompts, s, init) && Run(p, init, s, norm, inputs, states) && t < |states| && b < p.batchSize
    ensures Shaped(p, states[t]) && |states[t].lanes| == |prompts| == p.batchSize
    ensures var lane := states[t].lanes[b];
      && (!lane.done ==> forall j :: 0 <= j < p.numBeams ==> prompts[b] <= Block(p, states[t], b)[j])
      && (forall h :: h in lane.hyps ==> prompts[b] <= h.item && |h.item| <= s + t)
      && (lane.done ==> |lane.hyps| == p.numBeams)
      && Descending(lane.hyps)
  {
    RunInv(p, prompts, init, s, norm, inputs, states, t);
    InvAt(p, prompts, states[t], s + t, b);
  }

  // ----- what is returned -----

  lemma FinalsAt(p: Params, st: State, norm: (real, nat) -> real, b: nat)
    requires Shaped(p, st) && b < p.batchSize
    ensures Finals(p, st.lanes, st.rows, norm)[b] == FinalHypotheses(p, st.lanes[b], Block(p, st, b), norm)
  {
    var r := BlockIn(b, p);
  }

  /** Each batch entry returns numBeams hypotheses that continue its own prompt, best first. */
  lemma FinalsAreOwn(p: Params, prompts: seq<seq<int>>, st: State, length: nat, norm: (real, nat) -> real, b: nat)
    requires Inv(p, prompts, st, length) && b < p.batchSize
    ensures Shaped(p, st) && b < |prompts|
    ensures var f := Finals(p, st.lanes, st.rows, norm)[b];
      && |f| == p.numBeams && Descending(f)
      && forall i :: 0 <= i < |f| ==> prompts[b] <= f[i].item && |f[i].item| <= length
  {
    InvAt(p, prompts, st, length, b);
    FinalsAt(p, st, norm, b);
    var lane, rows := st.lanes[b], Block(p, st, b);
    if !lane.done {
      AddAllKeepsHyps(p.numBeams, prompts[b], lane.hyps, LiveHypotheses(p.numBeams, lane.slots, rows, 0, norm), length);
    }
    var f := Finals(p, st.lanes, st.rows, norm)[b];
    forall i | 0 <= i < |f| ensures prompts[b] <= f[i].item && |f[i].item| <= length { assert f[i] in f; }
  }

  /** Rows of finished batch entries are never read: changing them changes nothing that is returned. */
  lemma FinishedRowsUnread(p: Params, st: State, other: State, norm: (real, nat) -> real)
    requires Shaped(p, st) && Shaped(p, other) && st.lanes == other.lanes
    requires forall b :: 0 <= b < p.batchSize && !st.lanes[b].done ==> Block(p, st, b) == Block(p, other, b)
    ensures Finals(p, st.lanes, st.rows, norm) == Finals(p, other.lanes, other.rows, norm)
  {
    forall b | 0 <= b < p.batchSize
      ensures Finals(p, st.lanes, st.rows, norm)[b] == Finals(p, other.lanes, other.rows, norm)[b]
    {
      FinalsAt(p, st, norm, b);
      FinalsAt(p, other, norm, b);
    }
  }

  /** Stored hypotheses were cloned from rows of earlier steps, so they are shorter than the rows now. */
  lemma StoredAreShorter(p: Params, prompts: seq<seq<int>>, init: State, s: nat, norm: (real, nat) -> real,
      inputs: seq<Input>, states: seq<State>, t: nat, b: nat)
    requires Initial(p, prompts, s, init) && Run(p, init, s, norm, inputs, states) && t < |states| && b < p.batchSize
    ensures b < |states[t].lanes| && forall h :: h in states[t].lanes[b].hyps ==> |h.item| < s + t
  {
    hide *;
    RunAt(p, init, s, norm, inputs, states, t);
    RunInv(p, prompts, init, s, norm, inputs, states, t);
    InvAt(p, prompts, states[t], s + t, b);
    if t == 0 {
      NothingStored(p, prompts, s, init, b);
    } else {
      var st, inp, length := states[t - 1], inputs[t - 1], s + (t - 1);
      RunInv(p, prompts, init, s, norm, inputs, states, t - 1);
      InvAt(p, prompts, st, length, b);
      NextIs(p, st, inp, length, norm, b);
      NextLaneOk(p, prompts[b], st.lanes[b], CandidatesAt(p, st, inp, b),
        TestedScores(p, Flat(p, st, inp, p.batchSize), b), Block(p, st, b), b * p.numBeams, length, norm);
      StepRow(p, st, inp, length, norm, b, 0);
      HypsOkLengths(prompts[b], states[t].lanes[b].hyps, length);
    }
  }

  lemma NothingStored(p: Params, prompts: seq<seq<int>>, s: nat, init: State, b: nat)
    requires Initial(p, prompts, s, init) && b < p.batchSize
    ensures b < |init.lanes| && init.lanes[b].hyps == []
  {
  }

  lemma HypsOkLengths(prompt: seq<int>, hyps: seq<Hypothesis>, length: nat)
    requires HypsOk(prompt, hyps, length)
    ensures forall h :: h in hyps ==> |h.item| <= length
  {
  }

  /** The copy of a returned hypothesis into its output row has two sides of equal size exactly when the hypothesis is a
      row that was still alive in a full search, and not a stored one. */
  lemma CopyFitsIff(p: Params, prompts: seq<seq<int>>, init: State, s: nat, norm: (real, nat) -> real,
      inputs: seq<Input>, states: seq<State>, t: nat, b: nat, i: nat)
    requires Initial(p, prompts, s, init) && Run(p, init, s, norm, inputs, states) && t < |states| && b < p.batchSize
      && i < p.numBeams
    requires s + t <= p.maxLength
    ensures Shaped(p, states[t]) && |Finals(p, states[t].lanes, states[t].rows, norm)[b]| == p.numBeams
    ensures |Finals(p, states[t].lanes, states[t].rows, norm)[b][i].item| == p.maxLength
      <==> s + t == p.maxLength && Finals(p, states[t].lanes, states[t].rows, norm)[b][i] !in states[t].lanes[b].hyps
  {
    hide *;
    RunInv(p, prompts, init, s, norm, inputs, states, t);
    StoredAreShorter(p, prompts, init, s, norm, inputs, states, t, b);
    InvAt(p, prompts, states[t], s + t, b);
    FinalsAreOwn(p, prompts, states[t], s + t, norm, b);
    FinalsAt(p, states[t], norm, b);
    BatchIsolation(p, prompts, init, s, norm, inputs, states, t, b);
    SlotsAre(p, states[t], b);
    FinalIsStoredOrLive(p, states[t].lanes[b], Block(p, states[t], b), norm, s + t, i);
  }

  lemma SlotsAre(p: Params, st: State, b: nat)
    requires Shaped(p, st) && b < p.batchSize
    ensures b < |st.lanes| && |st.lanes[b].slots| == p.numBeams
  {
  }

  lemma FinalIsStoredOrLive(p: Params, lane: Lane, rows: seq<seq<int>>, norm: (real, nat) -> real, length: nat, i: nat)
    requires |rows| == |lane.slots| == p.numBeams && Descending(lane.hyps) && forall j :: 0 <= j < |rows| ==>
      |rows[j]| == length
    requires i < |FinalHypotheses(p, lane, rows, norm)|
    ensures FinalHypotheses(p, lane, rows, norm)[i] in lane.hyps
      || |FinalHypotheses(p, lane, rows, norm)[i].item| == length
  {
    var f := FinalHypotheses(p, lane, rows, norm);
    assert f[i] in f;
    if !lane.done {
      AddAllDescending(p.numBeams, lane.hyps, LiveHypotheses(p.numBeams, lane.slots, rows, 0, norm));
    }
  }

  // ----- the rows that Generate hands out -----

  /** Every row starts with its own entry's prompt or, once the entry has finished and its cells point at row 0,
      with the first entry's. */
  lemma {:induction false} RowStarts(p: Params, prompts: seq<seq<int>>, init: State, s: nat, norm: (real, nat) -> real,
      inputs: seq<Input>, states: seq<State>, t: nat, b: nat, j: nat)
    requires Initial(p, prompts, s, init) && Run(p, init, s, norm, inputs, states) && t < |states| && b < p.batchSize
      && j < p.numBeams
    ensures Shaped(p, states[t]) && b < |prompts| && |prompts[b]| == |prompts[0]| == s
    ensures prompts[b] <= Block(p, states[t], b)[j] || prompts[0] <= Block(p, states[t], b)[j]
  {
    hide *;
    RunAt(p, init, s, norm, inputs, states, t);
    InitialPrompts(p, prompts, s, init, b);
    RunInv(p, prompts, init, s, norm, inputs, states, t);
    InvAt(p, prompts, states[t], s + t, b);
    if t == 0 {
      PathStart(p, prompts, s, init, inputs, b, j);
    } else {
      var st, inp, length := states[t - 1], inputs[t - 1], s + (t - 1);
      StepRow(p, st, inp, length, norm, b, j);
      var slot := NextLanes(p, st, inp, length, norm)[b].slots[j];
      if st.lanes[b].done {
        RowStarts(p, prompts, init, s, norm, inputs, states, t - 1, 0, 0);
        RowZero(p, st, b, slot);
      } else {
        ParentInBlock(p, st, b, slot);
        RowStarts(p, prompts, init, s, norm, inputs, states, t - 1, b, slot.parent - b * p.numBeams);
      }
    }
  }

  lemma InitialPrompts(p: Params, prompts: seq<seq<int>>, s: nat, init: State, b: nat)
    requires Initial(p, prompts, s, init) && b < p.batchSize
    ensures p.Valid() && p.numBeams > 1 && p.batchSize > 0 && |prompts| == p.batchSize
      && |prompts[b]| == |prompts[0]| == s
  {
  }

  lemma RowZero(p: Params, st: State, b: nat, slot: Slot)
    requires Shaped(p, st) && p.batchSize > 0 && p.numBeams > 0 && OwnParent(p, true, b, slot)
    ensures slot.parent == 0 < |st.rows| && Block(p, st, 0)[0] == st.rows[0]
  {
    BlockIs(p, st, 0);
    assert 0 * p.numBeams == 0;
  }

  /** Generate returns row i as the result of batch entry i, but rows are numbered by beams: with different prompts it
      continues that entry's prompt for entry 0 and for no other. */
  lemma GeneratedRowIsOwnIff(p: Params, prompts: seq<seq<int>>, init: State, s: nat, norm: (real, nat) -> real,
      inputs: seq<Input>, states: seq<State>, t: nat, i: nat)
    requires Initial(p, prompts, s, init) && Run(p, init, s, norm, inputs, states) && t < |states| && i < p.batchSize
    requires forall c, d :: 0 <= c < d < |prompts| ==> prompts[c] != prompts[d]
    ensures i < |prompts| && i < |states[t].rows|
    ensures prompts[i] <= states[t].rows[i] <==> i == 0
  {
    hide *;
    InitialPrompts(p, prompts, s, init, i);
    var b, j := BeamOf(p, i);
    RowStarts(p, prompts, init, s, norm, inputs, states, t, b, j);
    BlockIs(p, states[t], b);
    InitialPrompts(p, prompts, s, init, b);
    var row := states[t].rows[i];
    assert row == Block(p, states[t], b)[j];
    StartsOne(prompts, b, i, row);
    StartsOne(prompts, 0, i, row);
  }

  /** Which batch entry's beam a row below the number of batch entries is. */
  lemma BeamOf(p: Params, i: nat) returns (b: nat, j: nat)
    requires i < p.batchSize && p.numBeams > 1
    ensures i == b * p.numBeams + j && b <= i && j < p.numBeams && (b == i <==> i == 0)
  {
    b, j := i / p.numBeams, i % p.numBeams;
    SmallerBatch(i, p.numBeams);
  }

  /** A row that starts with one of several different prompts of one length starts with no other. */
  lemma StartsOne(prompts: seq<seq<int>>, a: nat, b: nat, row: seq<int>)
    requires a < |prompts| && b < |prompts| && |prompts[a]| == |prompts[b]|
    requires forall c, d :: 0 <= c < d < |prompts| ==> prompts[c] != prompts[d]
    ensures prompts[a] <= row ==> (prompts[b] <= row <==> a == b)
  {
    if prompts[a] <= row && prompts[b] <= row {
      assert prompts[a] == row[..|prompts[a]|] == prompts[b];
    }
  }

  lemma SmallerBatch(i: nat, beams: nat)
    requires beams > 1
    ensures i / beams == i <==> i == 0
    ensures i / beams <= i
  {
    var q := i / beams;
    assert i == q * beams + i % beams;
    Monotone(2, beams, q);
  }

  // ----- scores -----

  /** After a step, the beams of a batch entry that was unfinished are in non-increasing score order. */
  lemma BeamScoresDescend(p: Params, st: State, inp: Input, length: nat, norm: (real, nat) -> real, b: nat, i: nat,
      j: nat)
    requires Shaped(p, st) && Legal(p, st, inp) && b < p.batchSize && !st.lanes[b].done && i <= j < p.numBeams
    ensures var slots := NextLanes(p, st, inp, length, norm)[b].slots;
      |slots| == p.numBeams && slots[i].score >= slots[j].score
  {
    hide *;
    var own, tested := CandidatesAt(p, st, inp, b), TestedScores(p, Flat(p, st, inp, p.batchSize), b);
    ShapedIs(p, st, inp, b);
    NextIs(p, st, inp, length, norm, b);
    CandidatesAtIs(p, st, inp, b);
    BlockIs(p, st, b);
    SurvivorsAreBest(p, StepScores(p, st.lanes[b], OwnLogits(p, inp.logits, b)), inp.picks[b]);
    NextSlotIs(p, st.lanes[b], own, tested, Block(p, st, b), b * p.numBeams, length, norm, i);
    NextSlotIs(p, st.lanes[b], own, tested, Block(p, st, b), b * p.numBeams, length, norm, j);
  }

  /** The model's scores along a path of beams: beam path[i] extended by tokens[i] at step i. */
  ghost function PathSum(p: Params, inputs: seq<Input>, b: nat, path: seq<nat>, tokens: seq<int>): real
    requires p.Valid() && b < p.batchSize && |tokens| < |path| && |tokens| <= |inputs|
    requires OnPath(p, inputs, path, tokens)
  {
    if tokens == [] then 0.0
    else
      var t := |tokens| - 1;
      PathSum(p, inputs, b, path[..|path| - 1], tokens[..t])
        + OwnLogits(p, inputs[t].logits, b)[path[t] * p.vocabSize + tokens[t]]
  }

  ghost predicate OnPath(p: Params, inputs: seq<Input>, path: seq<nat>, tokens: seq<int>) {
    && |tokens| < |path| && |tokens| <= |inputs|
    && forall i :: 0 <= i < |tokens| ==>
         && |inputs[i].logits| == p.batchSize * (p.numBeams * p.vocabSize)
         && 0 <= tokens[i] && path[i] * p.vocabSize + tokens[i] < p.numBeams * p.vocabSize
  }

  /** The cell of a beam holds this parent row and this token. */
  ghost predicate CellIs(p: Params, st: State, b: nat, beam: nat, parent: int, token: int) {
    && b < |st.lanes| && beam < |st.lanes[b].slots|
    && st.lanes[b].slots[beam].parent == parent && st.lanes[b].slots[beam].token == token
  }

  /** Every beam on the path is the recorded parent of the next one, and the tokens are those recorded with them. */
  ghost predicate Descends(p: Params, states: seq<State>, b: nat, path: seq<nat>, tokens: seq<int>) {
    && |path| == |tokens| + 1 <= |states|
    && forall i :: 0 < i < |path| ==> CellIs(p, states[i], b, path[i], b * p.numBeams + path[i - 1], tokens[i - 1])
  }

  lemma DescendsMore(p: Params, states: seq<State>, b: nat, path: seq<nat>, tokens: seq<int>, j: nat, token: int)
    requires Descends(p, states, b, path, tokens) && |path| < |states|
    requires CellIs(p, states[|path|], b, j, b * p.numBeams + path[|path| - 1], token)
    ensures Descends(p, states, b, path + [j], tokens + [token])
  {
    hide CellIs;
    var path', tokens' := path + [j], tokens + [token];
    forall i | 0 < i < |path'| ensures CellIs(p, states[i], b, path'[i], b * p.numBeams + path'[i - 1],
      tokens'[i - 1]) {
      assert path'[i - 1] == path[i - 1];
      if i < |path| { assert path'[i] == path[i] && tokens'[i - 1] == tokens[i - 1]; }
    }
  }

  lemma DescendsStart(p: Params, states: seq<State>, b: nat, j: nat)
    requires states != []
    ensures Descends(p, states, b, [j], [])
  {
  }

  lemma MakeCell(p: Params, st: State, b: nat, j: nat)
    requires b < |st.lanes| && j < |st.lanes[b].slots|
    ensures CellIs(p, st, b, j, st.lanes[b].slots[j].parent, st.lanes[b].slots[j].token)
  {
  }

  /** One step back along a path. */
  lemma CellComesFrom(p: Params, st: State, inp: Input, length: nat, norm: (real, nat) -> real, b: nat, j: nat)
      returns (beam: nat, token: nat)
    requires Shaped(p, st) && Legal(p, st, inp) && b < p.batchSize && j < p.numBeams && !st.lanes[b].done
    ensures beam < p.numBeams && token < p.vocabSize
      && 0 <= beam * p.vocabSize + token < |OwnLogits(p, inp.logits, b)| == p.numBeams * p.vocabSize
    ensures Step(p, st, inp, length, norm).lanes[b].slots[j].score
         == OwnLogits(p, inp.logits, b)[beam * p.vocabSize + token] + st.lanes[b].slots[beam].score
    ensures CellIs(p, Step(p, st, inp, length, norm), b, j, b * p.numBeams + beam, token)
    ensures Block(p, Step(p, st, inp, length, norm), b)[j] == Block(p, st, b)[beam] + [token]
  {
    hide *;
    ShapedIs(p, st, inp, b);
    beam, token := SlotComesFrom(p, st, inp, length, norm, b, j);
    StepRow(p, st, inp, length, norm, b, j);
    ParentInBlock(p, st, b, NextLanes(p, st, inp, length, norm)[b].slots[j]);
    MakeCell(p, Step(p, st, inp, length, norm), b, j);
  }

  lemma SlotComesFrom(p: Params, st: State, inp: Input, length: nat, norm: (real, nat) -> real, b: nat, j: nat)
      returns (beam: nat, token: nat)
    requires Shaped(p, st) && Legal(p, st, inp) && b < p.batchSize == |st.lanes| && j < p.numBeams && !st.lanes[b].done
    ensures |inp.logits| == p.batchSize * (p.numBeams * p.vocabSize)
      && j < |NextLanes(p, st, inp, length, norm)[b].slots|
    ensures beam < p.numBeams == |st.lanes[b].slots| && token < p.vocabSize
    ensures 0 <= beam * p.vocabSize + token < |OwnLogits(p, inp.logits, b)| && 0 <= b * p.numBeams + beam
    ensures NextLanes(p, st, inp, length, norm)[b].slots[j]
         == Slot(OwnLogits(p, inp.logits, b)[beam * p.vocabSize + token] + st.lanes[b].slots[beam].score, token,
           b * p.numBeams + beam)
  {
    hide *;
    ShapedIs(p, st, inp, b);
    NextIs(p, st, inp, length, norm, b);
    CandidatesAtIs(p, st, inp, b);
    SurvivorIs(p, st.lanes[b], OwnLogits(p, inp.logits, b), inp.picks[b], j);
    NextSlotIs(p, st.lanes[b], CandidatesAt(p, st, inp, b), TestedScores(p, Flat(p, st, inp, p.batchSize), b),
      Block(p, st, b), b * p.numBeams, length, norm, j);
    BlockIs(p, st, b);
    StepRow(p, st, inp, length, norm, b, j);
    var c := CandidatesAt(p, st, inp, b)[Survivors(p, CandidatesAt(p, st, inp, b))[j]];
    FromBeamIs(p, st.lanes[b], OwnLogits(p, inp.logits, b), c);
    beam, token := c.beam, c.token;
  }

  lemma CandidatesAtIs(p: Params, st: State, inp: Input, b: nat)
    requires Shaped(p, st) && Legal(p, st, inp) && b < p.batchSize
    ensures TopPicks(StepScores(p, st.lanes[b], OwnLogits(p, inp.logits, b)), inp.picks[b], 2 * p.numBeams)
    ensures CandidatesAt(p, st, inp, b)
      == CandidatesOf(p.vocabSize, StepScores(p, st.lanes[b], OwnLogits(p, inp.logits, b)), inp.picks[b])
    ensures |inp.logits| == p.batchSize * (p.numBeams * p.vocabSize) && |inp.picks| == p.batchSize
  {
    assert LegalAt(p, st, inp, b);
  }

  lemma NextSlotIs(p: Params, lane: Lane, own: seq<Candidate>, tested: seq<real>, rows: seq<seq<int>>, base: nat,
      length: nat, norm: (real, nat) -> real, j: nat)
    requires |rows| == p.numBeams && tested != [] && GoodCandidates(p, own) && !lane.done && j < p.numBeams
    ensures |Survivors(p, own)| == p.numBeams
    ensures var c := own[Survivors(p, own)[j]];
      NextLane(p, lane, own, tested, rows, base, length, norm).slots[j] == Slot(c.score, c.token, base + c.beam)
  {
  }

  lemma BlockIs(p: Params, st: State, b: nat)
    requires Shaped(p, st) && b < p.batchSize
    ensures b * p.numBeams + p.numBeams <= |st.rows|
      && Block(p, st, b) == st.rows[b * p.numBeams..b * p.numBeams + p.numBeams]
  {
    RowInside(b, p.batchSize, p.numBeams);
  }

  /** In every reachable state, the score of an unfinished batch entry's beam is its ancestor's initial
      score plus the model's scores of the generated tokens along its recorded ancestors, and its row is the
      prompt and those tokens. */
  lemma {:induction false} PathScore(p: Params, prompts: seq<seq<int>>, init: State, s: nat, norm: (real, nat) -> real,
      inputs: seq<Input>, states: seq<State>, t: nat, b: nat, j: nat)
    returns (path: seq<nat>, tokens: seq<int>)
    requires Initial(p, prompts, s, init) && Run(p, init, s, norm, inputs, states) && t < |states|
    requires b < p.batchSize && j < p.numBeams && Shaped(p, states[t]) && !states[t].lanes[b].done
    ensures |path| == t + 1 && path[t] == j && path[0] < p.numBeams && |tokens| == t && OnPath(p, inputs, path, tokens)
    ensures Descends(p, states, b, path, tokens)
    ensures Block(p, states[t], b)[j] == prompts[b] + tokens
    ensures states[t].lanes[b].slots[j].score
      == (if path[0] == 0 then 0.0 else -1000000000.0) + PathSum(p, inputs, b, path, tokens)
  {
    hide *;
    RunAt(p, init, s, norm, inputs, states, t);
    if t == 0 {
      path, tokens := [j], [];
      DescendsStart(p, states, b, j);
      PathStart(p, prompts, s, init, inputs, b, j);
    } else {
      var st, inp, length := states[t - 1], inputs[t - 1], s + (t - 1);
      RunInv(p, prompts, init, s, norm, inputs, states, t - 1);
      InvAt(p, prompts, st, length, b);
      StepKeepsInv(p, prompts, st, inp, length, norm);
      var beam, token := CellComesFrom(p, st, inp, length, norm, b, j);
      var path', tokens' := PathScore(p, prompts, init, s, norm, inputs, states, t - 1, b, beam);
      path, tokens := path' + [j], tokens' + [token];
      CandidatesAtIs(p, st, inp, b);
      PathMore(p, inputs, b, path', tokens', j, token);
      DescendsMore(p, states, b, path', tokens', j, token);
      assert prompts[b] + tokens == prompts[b] + tokens' + [token];
    }
  }

  lemma RunAt(p: Params, init: State, s: nat, norm: (real, nat) -> real, inputs: seq<Input>, states: seq<State>, t: nat)
    requires Run(p, init, s, norm, inputs, states) && t < |states|
    ensures |states| == |inputs| + 1 && states[0] == init
    ensures t > 0 ==>
      && Shaped(p, states[t - 1]) && Legal(p, states[t - 1], inputs[t - 1])
      && states[t] == Step(p, states[t - 1], inputs[t - 1], s + (t - 1), norm)
  {
  }

  lemma PathStart(p: Params, prompts: seq<seq<int>>, s: nat, init: State, inputs: seq<Input>, b: nat, j: nat)
    requires Initial(p, prompts, s, init) && b < p.batchSize && j < p.numBeams
    ensures Shaped(p, init) && OnPath(p, inputs, [j], []) && Block(p, init, b)[j] == prompts[b] + []
    ensures |init.lanes| == p.batchSize && |init.lanes[b].slots| == p.numBeams
    ensures init.lanes[b].slots[j].score == (if j == 0 then 0.0 else -1000000000.0) + PathSum(p, inputs, b, [j], [])
  {
    hide Expanded;
    BlockIs(p, init, b);
    ExpandedAt(prompts, p.numBeams, b, j);
  }

  lemma PathMore(p: Params, inputs: seq<Input>, b: nat, path: seq<nat>, tokens: seq<int>, j: nat, token: nat)
    requires p.Valid() && b < p.batchSize && OnPath(p, inputs, path, tokens) && |path| == |tokens| + 1
      && |tokens| < |inputs|
    requires |inputs[|tokens|].logits| == p.batchSize * (p.numBeams * p.vocabSize)
    requires path[|tokens|] * p.vocabSize + token < p.numBeams * p.vocabSize
    ensures OnPath(p, inputs, path + [j], tokens + [token])
    ensures PathSum(p, inputs, b, path + [j], tokens + [token])
         == PathSum(p, inputs, b, path, tokens)
           + OwnLogits(p, inputs[|tokens|].logits, b)[path[|tokens|] * p.vocabSize + token]
  {
    var path', tokens' := path + [j], tokens + [token];
    assert path'[..|path|] == path && tokens'[..|tokens|] == tokens;
    forall i | 0 <= i < |tokens'|
      ensures |inputs[i].logits| == p.batchSize * (p.numBeams * p.vocabSize) && 0 <= tokens'[i]
        && path'[i] * p.vocabSize + tokens'[i] < p.numBeams * p.vocabSize
    {
      assert path'[i] == path[i];
      if i < |tokens| { assert tokens'[i] == tokens[i]; }
    }
  }
}
