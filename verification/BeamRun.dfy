/** Beam search as a state machine over its steps, and what holds in every reachable state. */
module BeamRun {
  import opened FlatRows
  import opened TokenSequences
  import opened BeamScoring
  import opened Scorer

  /** All token rows, and every batch entry's hypotheses and beam cells. */
  datatype State = State(rows: seq<seq<int>>, lanes: seq<Lane>)

  /** One step's input: the model's scores, and how the heap broke its ties. */
  datatype Input = Input(logits: seq<real>, picks: seq<seq<nat>>)

  ghost predicate Shaped(p: Params, st: State) {
    p.Valid() && Fits(p, st.lanes) && |st.rows| == p.batchSize * p.numBeams
  }

  /** The cell of row `batch * numBeams + beam`. */
  function SlotOf(p: Params, lanes: seq<Lane>, row: nat): Slot
    requires p.Valid() && |lanes| == p.batchSize && row < p.batchSize * p.numBeams
    requires forall b :: 0 <= b < p.batchSize ==> |lanes[b].slots| == p.numBeams
  {
    BatchOf(row, p.batchSize, p.numBeams);
    lanes[row / p.numBeams].slots[row % p.numBeams]
  }

  /** The next_beam_indices_ buffer. */
  ghost function Parents(p: Params, lanes: seq<Lane>): (r: seq<nat>)
    requires p.Valid() && Fits(p, lanes)
    ensures |r| == p.batchSize * p.numBeams
  {
    seq(p.batchSize * p.numBeams, i requires 0 <= i < p.batchSize * p.numBeams => SlotOf(p, lanes, i).parent)
  }

  /** The next_beam_tokens_ buffer. */
  ghost function NextTokens(p: Params, lanes: seq<Lane>): (r: seq<int>)
    requires p.Valid() && Fits(p, lanes)
    ensures |r| == p.batchSize * p.numBeams
  {
    seq(p.batchSize * p.numBeams, i requires 0 <= i < p.batchSize * p.numBeams => SlotOf(p, lanes, i).token)
  }

  lemma ParentAt(p: Params, lanes: seq<Lane>, i: nat)
    requires p.Valid() && Fits(p, lanes) && i < p.batchSize * p.numBeams
    ensures i / p.numBeams < p.batchSize == |lanes| && i % p.numBeams < p.numBeams == |lanes[i / p.numBeams].slots|
    ensures Parents(p, lanes)[i] == lanes[i / p.numBeams].slots[i % p.numBeams].parent
    ensures NextTokens(p, lanes)[i] == lanes[i / p.numBeams].slots[i % p.numBeams].token
  {
    BatchOf(i, p.batchSize, p.numBeams);
  }

  lemma CellOf(p: Params, lanes: seq<Lane>, b: nat, j: nat)
    requires p.Valid() && Fits(p, lanes) && b < p.batchSize && j < p.numBeams
    ensures b * p.numBeams + j < p.batchSize * p.numBeams
    ensures SlotOf(p, lanes, b * p.numBeams + j) == lanes[b].slots[j]
    ensures Parents(p, lanes)[b * p.numBeams + j] == lanes[b].slots[j].parent
    ensures NextTokens(p, lanes)[b * p.numBeams + j] == lanes[b].slots[j].token
  {
    RowInside(b, p.batchSize, p.numBeams);
    RowOf(b, j, p.numBeams);
  }

  /** SelectTop's first loop, for one batch entry: every extension's score, on top of its beam's. */
  function StepScores(p: Params, lane: Lane, logits: seq<real>): (r: seq<real>)
    requires p.Valid() && |lane.slots| == p.numBeams && |logits| == p.numBeams * p.vocabSize
    ensures |r| == p.numBeams * p.vocabSize
  {
    seq(p.numBeams * p.vocabSize, x requires 0 <= x < p.numBeams * p.vocabSize =>
      BatchOf(x, p.numBeams, p.vocabSize);
      logits[x] + lane.slots[x / p.vocabSize].score)
  }

  /** The scores of one batch entry's rows. */
  function OwnLogits(p: Params, logits: seq<real>, b: nat): (r: seq<real>)
    requires b < p.batchSize && |logits| == p.batchSize * (p.numBeams * p.vocabSize)
    ensures |r| == p.numBeams * p.vocabSize
  {
    RowInside(b, p.batchSize, p.numBeams * p.vocabSize);
    Row(logits, p.numBeams * p.vocabSize, p.numBeams * p.vocabSize, b)
  }

  ghost predicate LegalAt(p: Params, st: State, inp: Input, b: nat)
    requires Shaped(p, st) && b < p.batchSize
    requires |inp.logits| == p.batchSize * (p.numBeams * p.vocabSize) && |inp.picks| == p.batchSize
  {
    TopPicks(StepScores(p, st.lanes[b], OwnLogits(p, inp.logits, b)), inp.picks[b], 2 * p.numBeams)
  }

  /** The heap delivered some order of the best 2*numBeams extensions of each batch entry. */
  ghost predicate Legal(p: Params, st: State, inp: Input)
    requires Shaped(p, st)
  {
    && |inp.logits| == p.batchSize * (p.numBeams * p.vocabSize) && |inp.picks| == p.batchSize
    && forall b :: 0 <= b < p.batchSize ==> LegalAt(p, st, inp, b)
  }

  ghost function CandidatesAt(p: Params, st: State, inp: Input, b: nat): (r: seq<Candidate>)
    requires Shaped(p, st) && Legal(p, st, inp) && b < p.batchSize
    ensures |r| == 2 * p.numBeams
  {
    assert LegalAt(p, st, inp, b);
    CandidatesOf(p.vocabSize, StepScores(p, st.lanes[b], OwnLogits(p, inp.logits, b)), inp.picks[b])
  }

  /** The flat next_scores / next_tokens / next_indices buffers. */
  ghost function Flat(p: Params, st: State, inp: Input, k: nat): (r: seq<Candidate>)
    requires Shaped(p, st) && Legal(p, st, inp) && k <= p.batchSize
    ensures |r| == k * (2 * p.numBeams)
  {
    if k == 0 then []
    else
      assert k * (2 * p.numBeams) == (k - 1) * (2 * p.numBeams) + 2 * p.numBeams;
      Flat(p, st, inp, k - 1) + CandidatesAt(p, st, inp, k - 1)
  }

  lemma {:induction false} FlatOwn(p: Params, st: State, inp: Input, k: nat, b: nat)
    requires Shaped(p, st) && Legal(p, st, inp) && b < k <= p.batchSize
    ensures b * (2 * p.numBeams) + 2 * p.numBeams <= k * (2 * p.numBeams)
    ensures Flat(p, st, inp, k)[b * (2 * p.numBeams)..b * (2 * p.numBeams) + 2 * p.numBeams]
      == CandidatesAt(p, st, inp, b)
  {
    hide *;
    var w := 2 * p.numBeams;
    RowInside(b, k, w);
    FlatIs(p, st, inp, k);
    if b < k - 1 {
      FlatOwn(p, st, inp, k - 1, b);
      WindowInFront(Flat(p, st, inp, k - 1), CandidatesAt(p, st, inp, k - 1), b * w, w);
    } else {
      WindowBehind(Flat(p, st, inp, k - 1), CandidatesAt(p, st, inp, k - 1));
    }
  }

  lemma FlatIs(p: Params, st: State, inp: Input, k: nat)
    requires Shaped(p, st) && Legal(p, st, inp) && 0 < k <= p.batchSize
    ensures Flat(p, st, inp, k) == Flat(p, st, inp, k - 1) + CandidatesAt(p, st, inp, k - 1)
  {
    hide Shaped, Legal, CandidatesAt;
  }

  lemma WindowInFront<T>(front: seq<T>, back: seq<T>, start: nat, w: nat)
    requires start + w <= |front|
    ensures (front + back)[start..start + w] == front[start..start + w]
  {
  }

  lemma WindowBehind<T>(front: seq<T>, back: seq<T>)
    ensures (front + back)[|front|..|front| + |back|] == back
  {
  }

  lemma FlatAcceptable(p: Params, st: State, inp: Input)
    requires Shaped(p, st) && Legal(p, st, inp)
    ensures Acceptable(p, st.lanes, Flat(p, st, inp, p.batchSize))
    ensures forall b :: 0 <= b < p.batchSize ==>
      Own(p, Flat(p, st, inp, p.batchSize), b) == CandidatesAt(p, st, inp, b)
        && GoodCandidates(p, CandidatesAt(p, st, inp, b))
  {
    forall b | 0 <= b < p.batchSize
      ensures Own(p, Flat(p, st, inp, p.batchSize), b) == CandidatesAt(p, st, inp, b)
        && GoodCandidates(p, CandidatesAt(p, st, inp, b))
    {
      FlatOwn(p, st, inp, p.batchSize, b);
      assert LegalAt(p, st, inp, b);
      PicksAreGood(p, StepScores(p, st.lanes[b], OwnLogits(p, inp.logits, b)), inp.picks[b]);
    }
  }

  ghost function NextLanes(p: Params, st: State, inp: Input, length: nat, norm: (real, nat) -> real): (r: seq<Lane>)
    requires Shaped(p, st) && Legal(p, st, inp)
    ensures Fits(p, r)
  {
    FlatAcceptable(p, st, inp);
    Next(p, st.lanes, Flat(p, st, inp, p.batchSize), st.rows, length, norm)
  }

  /** What the batch entry's own part of a step is. */
  lemma NextIs(p: Params, st: State, inp: Input, length: nat, norm: (real, nat) -> real, b: nat)
    requires Shaped(p, st) && Legal(p, st, inp) && b < p.batchSize
    ensures LegalAt(p, st, inp, b) && GoodCandidates(p, CandidatesAt(p, st, inp, b))
    ensures b * p.numBeams + p.numBeams <= |st.rows|
    ensures NextLanes(p, st, inp, length, norm)[b]
      == NextLane(p, st.lanes[b], CandidatesAt(p, st, inp, b), TestedScores(p, Flat(p, st, inp, p.batchSize), b),
                  st.rows[b * p.numBeams..b * p.numBeams + p.numBeams], b * p.numBeams, length, norm)
  {
    hide *;
    FlatAcceptable(p, st, inp);
    NextLanesIs(p, st, inp, length, norm);
    NextIsAt(p, st.lanes, Flat(p, st, inp, p.batchSize), st.rows, length, norm, b);
    ShapedIs(p, st, inp, b);
  }

  lemma NextLanesIs(p: Params, st: State, inp: Input, length: nat, norm: (real, nat) -> real)
    requires Shaped(p, st) && Legal(p, st, inp)
    ensures p.Valid() && Fits(p, st.lanes) && Acceptable(p, st.lanes, Flat(p, st, inp, p.batchSize))
      && |st.rows| == p.batchSize * p.numBeams
    ensures NextLanes(p, st, inp, length, norm)
      == Next(p, st.lanes, Flat(p, st, inp, p.batchSize), st.rows, length, norm)
  {
    FlatAcceptable(p, st, inp);
  }

  lemma ShapedIs(p: Params, st: State, inp: Input, b: nat)
    requires Shaped(p, st) && Legal(p, st, inp) && b < p.batchSize
    ensures p.Valid() && Fits(p, st.lanes) && LegalAt(p, st, inp, b) && |st.lanes| == p.batchSize
      && |st.lanes[b].slots| == p.numBeams
  {
  }

  /** The candidate extends one of the entry's own beams: that beam's score and the model's score of the token. */
  predicate FromBeam(p: Params, lane: Lane, logits: seq<real>, c: Candidate) {
    && c.beam < |lane.slots| == p.numBeams && 0 <= c.token < p.vocabSize
    && 0 <= c.beam * p.vocabSize + c.token < |logits|
    && c.score == logits[c.beam * p.vocabSize + c.token] + lane.slots[c.beam].score
  }

  lemma FromBeamIs(p: Params, lane: Lane, logits: seq<real>, c: Candidate)
    requires FromBeam(p, lane, logits, c)
    ensures c.beam < |lane.slots| == p.numBeams && 0 <= c.token < p.vocabSize
    ensures 0 <= c.beam * p.vocabSize + c.token < |logits|
      && c.score == logits[c.beam * p.vocabSize + c.token] + lane.slots[c.beam].score
  {
  }

  lemma StepScoreAt(p: Params, lane: Lane, logits: seq<real>, x: nat, j: nat)
    requires p.Valid() && |lane.slots| == p.numBeams && |logits| == p.numBeams * p.vocabSize && x < |logits|
    requires j == x / p.vocabSize
    ensures j < |lane.slots| && StepScores(p, lane, logits)[x] == logits[x] + lane.slots[j].score
  {
    BatchOf(x, p.numBeams, p.vocabSize);
  }

  /** A survivor: its own beam's score added to the model's score of the token. */
  lemma SurvivorIs(p: Params, lane: Lane, logits: seq<real>, picks: seq<nat>, j: nat)
    requires p.Valid() && |lane.slots| == p.numBeams && |logits| == p.numBeams * p.vocabSize && j < p.numBeams
    requires TopPicks(StepScores(p, lane, logits), picks, 2 * p.numBeams)
    ensures var own := CandidatesOf(p.vocabSize, StepScores(p, lane, logits), picks);
      && |Survivors(p, own)| == p.numBeams
      && var c := own[Survivors(p, own)[j]];
         FromBeam(p, lane, logits, c) && !IsEos(p.eosToken, c)
  {
    hide FromBeam, Survivors;
    var own := CandidatesOf(p.vocabSize, StepScores(p, lane, logits), picks);
    PicksAreGood(p, StepScores(p, lane, logits), picks);
    CandidateIs(p, lane, logits, picks[Survivors(p, own)[j]]);
  }

  lemma CandidateIs(p: Params, lane: Lane, logits: seq<real>, x: nat)
    requires p.Valid() && |lane.slots| == p.numBeams && |logits| == p.numBeams * p.vocabSize && x < |logits|
    ensures FromBeam(p, lane, logits, CandidateAt(p.vocabSize, StepScores(p, lane, logits), x))
  {
    hide StepScores;
    var j := x / p.vocabSize;
    StepScoreAt(p, lane, logits, x, j);
    assert j * p.vocabSize + x % p.vocabSize == x;
  }

  /** A cell of the next step's beams points at one of the batch entry's own rows, or pads. */
  predicate OwnParent(p: Params, wasDone: bool, b: nat, slot: Slot) {
    if wasDone then slot == Slot(0.0, p.padToken, 0)
    else b * p.numBeams <= slot.parent < b * p.numBeams + p.numBeams
  }

  lemma NextCell(p: Params, st: State, inp: Input, length: nat, norm: (real, nat) -> real, b: nat, j: nat)
    requires Shaped(p, st) && Legal(p, st, inp) && b < p.batchSize && j < p.numBeams
    ensures OwnParent(p, st.lanes[b].done, b, NextLanes(p, st, inp, length, norm)[b].slots[j])
  {
    NextIs(p, st, inp, length, norm, b);
    if !st.lanes[b].done {
      SurvivorIs(p, st.lanes[b], OwnLogits(p, inp.logits, b), inp.picks[b], j);
    }
  }

  /** The parents a step emits are rows. */
  lemma ParentsInRange(p: Params, st: State, inp: Input, length: nat, norm: (real, nat) -> real)
    requires Shaped(p, st) && Legal(p, st, inp)
    ensures InRange(Parents(p, NextLanes(p, st, inp, length, norm)), |st.rows|)
  {
    forall i | 0 <= i < |st.rows| ensures Parents(p, NextLanes(p, st, inp, length, norm))[i] < |st.rows| {
      ParentInRange(p, st, inp, length, norm, i);
    }
  }

  lemma ParentInRange(p: Params, st: State, inp: Input, length: nat, norm: (real, nat) -> real, i: nat)
    requires Shaped(p, st) && Legal(p, st, inp) && i < |st.rows|
    ensures Parents(p, NextLanes(p, st, inp, length, norm))[i] < |st.rows|
  {
    hide NextLanes, Legal, NextLane;
    BatchOf(i, p.batchSize, p.numBeams);
    NextCell(p, st, inp, length, norm, i / p.numBeams, i % p.numBeams);
    OwnParentInRange(p, st.lanes[i / p.numBeams].done, i / p.numBeams,
      SlotOf(p, NextLanes(p, st, inp, length, norm), i));
  }

  lemma OwnParentInRange(p: Params, wasDone: bool, b: nat, slot: Slot)
    requires p.Valid() && b < p.batchSize && OwnParent(p, wasDone, b, slot)
    ensures slot.parent < p.batchSize * p.numBeams
  {
    RowInside(b, p.batchSize, p.numBeams);
  }

  ghost function Step(p: Params, st: State, inp: Input, length: nat, norm: (real, nat) -> real): (r: State)
    requires Shaped(p, st) && Legal(p, st, inp)
    ensures Shaped(p, r)
  {
    ParentsInRange(p, st, inp, length, norm);
    var lanes := NextLanes(p, st, inp, length, norm);
    State(Extended(st.rows, Parents(p, lanes), NextTokens(p, lanes)), lanes)
  }
}
