/** The end-of-entry test of a beam step looks at a window of candidate scores that is misplaced for every batch entry
    but the first. Exactly when does the decision still come out right, over all steps a search can take? */
module BeamWindow {
  import opened FlatRows
  import opened TokenSequences
  import opened Ranking
  import opened Hypotheses
  import opened BeamScoring
  import opened Scorer
  import opened BeamRun
  import opened BeamInvariants

  // ----- the decision, over every step of every run -----

  /** A state that some search reaches in t steps from prompts of s tokens. */
  ghost predicate Reached(p: Params, s: nat, norm: (real, nat) -> real, st: State, t: nat) {
    exists prompts, init, inputs, states ::
      Initial(p, prompts, s, init) && Run(p, init, s, norm, inputs, states) && |inputs| == t && states[t] == st
  }

  /** A higher sum of log probabilities never makes a lower score, as with any division by a power of the length. */
  ghost predicate Rising(norm: (real, nat) -> real) {
    forall x, y, length: nat :: x <= y ==> norm(x, length) <= norm(y, length)
  }

  /** A step that a search can take while it is not full, with batch entry b unfinished. */
  ghost predicate CanTake(p: Params, s: nat, norm: (real, nat) -> real, st: State, t: nat, inp: Input, b: nat) {
    && 0 < s && s + t < p.maxLength && Rising(norm) && Reached(p, s, norm, st, t)
    && Shaped(p, st) && Legal(p, st, inp) && b < p.batchSize && !st.lanes[b].done
  }

  /** The test: the list is full and, unless stopping is early, none of these scores would displace a stored one. */
  predicate EndsBy(p: Params, hyps: seq<Hypothesis>, scores: seq<real>, length: nat, norm: (real, nat) -> real)
    requires scores != []
  {
    |hyps| == p.numBeams && (p.earlyStopping || !Improvable(hyps, scores, length, norm))
  }

  ghost function Cands(p: Params, st: State, inp: Input): (r: seq<Candidate>)
    requires Shaped(p, st) && Legal(p, st, inp)
    ensures |r| == p.batchSize * (2 * p.numBeams)
  {
    Flat(p, st, inp, p.batchSize)
  }

  ghost function HypsAfter(p: Params, st: State, inp: Input, length: nat, norm: (real, nat) -> real,
      b: nat): seq<Hypothesis>
    requires Shaped(p, st) && Legal(p, st, inp) && b < p.batchSize
  {
    NextLanes(p, st, inp, length, norm)[b].hyps
  }

  /** What the step decides. */
  ghost predicate Ends(p: Params, st: State, inp: Input, length: nat, norm: (real, nat) -> real, b: nat)
    requires Shaped(p, st) && Legal(p, st, inp) && b < p.batchSize
  {
    NextLanes(p, st, inp, length, norm)[b].done
  }

  /** What the entry's own candidates call for. */
  ghost predicate ShouldEnd(p: Params, st: State, inp: Input, length: nat, norm: (real, nat) -> real, b: nat)
    requires Shaped(p, st) && Legal(p, st, inp) && b < p.batchSize
  {
    EndsBy(p, HypsAfter(p, st, inp, length, norm, b), OwnScores(p, Cands(p, st, inp), b), length, norm)
  }

  ghost predicate NeverEndsLate(p: Params, b: nat) {
    forall s: nat, norm, st, t: nat, inp :: CanTake(p, s, norm, st, t, inp, b) ==>
      (ShouldEnd(p, st, inp, s + t, norm, b) ==> Ends(p, st, inp, s + t, norm, b))
  }

  ghost predicate NeverEndsEarly(p: Params, b: nat) {
    forall s: nat, norm, st, t: nat, inp :: CanTake(p, s, norm, st, t, inp, b) ==>
      (Ends(p, st, inp, s + t, norm, b) ==> ShouldEnd(p, st, inp, s + t, norm, b))
  }

  /** No step is ever taken, or none ever sees an end-of-sentence token. */
  predicate NothingToDecide(p: Params) {
    p.maxLength < 2 || p.eosToken < 0 || p.eosToken >= p.vocabSize
  }

  /** A batch entry is never kept beyond its end if and only if stopping is early, or it is the first one, or there
      is nothing to decide. */
  lemma EndsLateIff(p: Params, b: nat)
    requires p.Valid() && b < p.batchSize
    ensures NeverEndsLate(p, b) <==> p.earlyStopping || b == 0 || NothingToDecide(p)
  {
    hide Ends, ShouldEnd, Legal, Shaped, Reached, Rising;
    if p.earlyStopping || b == 0 || NothingToDecide(p) {
      forall s: nat, norm, st, t: nat, inp | CanTake(p, s, norm, st, t, inp, b)
        ensures ShouldEnd(p, st, inp, s + t, norm, b) ==> Ends(p, st, inp, s + t, norm, b)
      {
        DecisionsAgree(p, s, norm, st, t, inp, b);
      }
    } else {
      var e := Plan(b, 0.0, 0.0, -1.0, 1.0);
      FirstCanBeTaken(p, e);
      EndsLate(p, e);
    }
  }

  /** It never ends too early if and only if, besides, it is one of the first two: their windows hold their own best. */
  lemma EndsEarlyIff(p: Params, b: nat)
    requires p.Valid() && b < p.batchSize
    ensures NeverEndsEarly(p, b) <==> p.earlyStopping || b <= 1 || NothingToDecide(p)
  {
    hide Ends, ShouldEnd, Legal, Shaped, Reached, Rising;
    if p.earlyStopping || b <= 1 || NothingToDecide(p) {
      forall s: nat, norm, st, t: nat, inp | CanTake(p, s, norm, st, t, inp, b)
        ensures Ends(p, st, inp, s + t, norm, b) ==> ShouldEnd(p, st, inp, s + t, norm, b)
      {
        if p.earlyStopping || b == 0 || NothingToDecide(p) {
          DecisionsAgree(p, s, norm, st, t, inp, b);
        } else {
          SecondWindowHasBest(p, s, norm, st, t, inp);
        }
      }
    } else {
      var e := Plan(b, 0.0, -1.0, -2.0, -2.0);
      FirstCanBeTaken(p, e);
      EndsEarly(p, e);
    }
  }

  /** So the decision is the entry's own in every step exactly when it never comes late. */
  lemma DoneDecisionIsOwnIff(p: Params, b: nat)
    requires p.Valid() && b < p.batchSize
    ensures NeverEndsLate(p, b) && NeverEndsEarly(p, b) <==> p.earlyStopping || b == 0 || NothingToDecide(p)
  {
    EndsLateIff(p, b);
    EndsEarlyIff(p, b);
  }

  // ----- where the decisions agree -----

  /** The step tests the window. */
  lemma EndsIs(p: Params, st: State, inp: Input, length: nat, norm: (real, nat) -> real, b: nat)
    requires Shaped(p, st) && Legal(p, st, inp) && b < p.batchSize && !st.lanes[b].done
    ensures p.Valid()
    ensures Ends(p, st, inp, length, norm, b)
      <==> EndsBy(p, HypsAfter(p, st, inp, length, norm, b), TestedScores(p, Cands(p, st, inp), b), length, norm)
  {
    hide NextLanes, Legal, Flat, Improvable, TestedScores, CandidatesAt, GoodCandidates, AddAll, Completed, LegalAt;
    NextIs(p, st, inp, length, norm, b);
  }

  lemma DecisionsAgree(p: Params, s: nat, norm: (real, nat) -> real, st: State, t: nat, inp: Input, b: nat)
    requires CanTake(p, s, norm, st, t, inp, b) && (p.earlyStopping || b == 0 || NothingToDecide(p))
    ensures Ends(p, st, inp, s + t, norm, b) <==> ShouldEnd(p, st, inp, s + t, norm, b)
  {
    hide Legal, HypsAfter, OwnScores, TestedScores, Improvable, Reached, Cands, Ends, Rising;
    EndsIs(p, st, inp, s + t, norm, b);
    if !p.earlyStopping {
      if b == 0 {
        FirstWindowIsOwn(p, Cands(p, st, inp));
      } else {
        NoEosNoHyps(p, s, norm, st, t, b);
        NoEosStep(p, st, inp, s + t, norm, b);
      }
    }
  }

  /** Without an end-of-sentence token nothing is ever stored. */
  lemma NoEosStep(p: Params, st: State, inp: Input, length: nat, norm: (real, nat) -> real, b: nat)
    requires Shaped(p, st) && Legal(p, st, inp) && b < p.batchSize && !st.lanes[b].done && st.lanes[b].hyps == []
    requires p.eosToken < 0 || p.eosToken >= p.vocabSize
    ensures HypsAfter(p, st, inp, length, norm, b) == [] && !Ends(p, st, inp, length, norm, b)
  {
    hide NextLanes, Legal, Flat, Improvable, TestedScores, GoodCandidates, LegalAt, SlotsAt, Survivors, Finished;
    NextIs(p, st, inp, length, norm, b);
    NothingFinished(p, st, inp, b);
  }

  lemma NothingFinished(p: Params, st: State, inp: Input, b: nat)
    requires Shaped(p, st) && Legal(p, st, inp) && b < p.batchSize && (p.eosToken < 0 || p.eosToken >= p.vocabSize)
    ensures Finished(p, CandidatesAt(p, st, inp, b)) == []
  {
    hide *;
    ValidHere(p, st);
    CandidatesAtIs(p, st, inp, b);
    TokensInVocabulary(p, StepScores(p, st.lanes[b], OwnLogits(p, inp.logits, b)), inp.picks[b]);
    NoEosFinished(p, CandidatesAt(p, st, inp, b));
  }

  predicate NoEos(p: Params, cands: seq<Candidate>) {
    forall i :: 0 <= i < |cands| ==> !IsEos(p.eosToken, cands[i])
  }

  lemma TokensInVocabulary(p: Params, scores: seq<real>, picks: seq<nat>)
    requires p.Valid() && TopPicks(scores, picks, 2 * p.numBeams) && (p.eosToken < 0 || p.eosToken >= p.vocabSize)
    ensures NoEos(p, CandidatesOf(p.vocabSize, scores, picks))
  {
    var own := CandidatesOf(p.vocabSize, scores, picks);
    forall i | 0 <= i < |own| ensures !IsEos(p.eosToken, own[i]) {
      assert own[i].token == picks[i] % p.vocabSize;
    }
  }

  lemma NoEosFinished(p: Params, own: seq<Candidate>)
    requires NoEos(p, own)
    ensures Finished(p, own) == []
  {
    NoEosPositions(p, Keep(p.numBeams, own));
  }

  lemma {:induction false} NoEosPositions(p: Params, cands: seq<Candidate>)
    requires NoEos(p, cands)
    ensures Positions(p.eosToken, true, cands) == []
  {
    if cands != [] {
      NoEosPositions(p, cands[..|cands| - 1]);
    }
  }

  lemma NoEosNoHyps(p: Params, s: nat, norm: (real, nat) -> real, st: State, t: nat, b: nat)
    requires Reached(p, s, norm, st, t) && Shaped(p, st) && b < p.batchSize
      && (p.eosToken < 0 || p.eosToken >= p.vocabSize)
    ensures st.lanes[b].hyps == [] && !st.lanes[b].done
  {
    hide Initial, Legal, Step;
    var prompts, init, inputs, states :|
      Initial(p, prompts, s, init) && Run(p, init, s, norm, inputs, states) && |inputs| == t && states[t] == st;
    RunNoEos(p, prompts, init, s, norm, inputs, states, t, b);
  }

  lemma {:induction false} RunNoEos(p: Params, prompts: seq<seq<int>>, init: State, s: nat, norm: (real, nat) -> real,
      inputs: seq<Input>, states: seq<State>, t: nat, b: nat)
    requires Initial(p, prompts, s, init) && Run(p, init, s, norm, inputs, states) && t < |states|
    requires b < p.batchSize && (p.eosToken < 0 || p.eosToken >= p.vocabSize)
    ensures b < |states[t].lanes| && states[t].lanes[b].hyps == [] && !states[t].lanes[b].done
  {
    hide Run, Legal, Step, HypsAfter, Ends;
    RunAt(p, init, s, norm, inputs, states, t);
    if t > 0 {
      RunNoEos(p, prompts, init, s, norm, inputs, states, t - 1, b);
      NoEosStep(p, states[t - 1], inputs[t - 1], s + (t - 1), norm, b);
      StepLane(p, states[t - 1], inputs[t - 1], s + (t - 1), norm, b);
    }
  }

  lemma StepLane(p: Params, st: State, inp: Input, length: nat, norm: (real, nat) -> real, b: nat)
    requires Shaped(p, st) && Legal(p, st, inp) && b < p.batchSize
    ensures b < |Step(p, st, inp, length, norm).lanes|
    ensures Step(p, st, inp, length, norm).lanes[b].hyps == HypsAfter(p, st, inp, length, norm, b)
    ensures Step(p, st, inp, length, norm).lanes[b].done == Ends(p, st, inp, length, norm, b)
  {
    hide Legal, NextLanes;
    ShapedIs(p, st, inp, b);
    StepRow(p, st, inp, length, norm, b, 0);
  }

  /** The second entry's window reaches into its own block, which starts with its best candidate. */
  lemma SecondWindowHasBest(p: Params, s: nat, norm: (real, nat) -> real, st: State, t: nat, inp: Input)
    requires CanTake(p, s, norm, st, t, inp, 1)
    ensures Ends(p, st, inp, s + t, norm, 1) ==> ShouldEnd(p, st, inp, s + t, norm, 1)
  {
    hide Legal, HypsAfter, OwnScores, TestedScores, Reached, Cands, Ends, Max;
    EndsIs(p, st, inp, s + t, norm, 1);
    BestInWindow(p, st, inp);
    var own, tested := Max(OwnScores(p, Cands(p, st, inp), 1)), Max(TestedScores(p, Cands(p, st, inp), 1));
    assert norm(own, s + t) <= norm(tested, s + t);
  }

  lemma BestInWindow(p: Params, st: State, inp: Input)
    requires Shaped(p, st) && Legal(p, st, inp) && 1 < p.batchSize
    ensures Max(OwnScores(p, Cands(p, st, inp), 1)) <= Max(TestedScores(p, Cands(p, st, inp), 1))
  {
    hide *;
    var cands := Cands(p, st, inp);
    ValidHere(p, st);
    WindowReaches(p, cands);
    OwnDescends(p, st, inp, 1);
    var tested := TestedScores(p, cands, 1);
    assert tested[p.numBeams] <= Max(tested);
  }

  lemma ValidHere(p: Params, st: State)
    requires Shaped(p, st)
    ensures p.Valid() && p.numBeams > 1 && |st.lanes| == p.batchSize
    ensures forall b :: 0 <= b < p.batchSize ==> |st.lanes[b].slots| == p.numBeams
  {
  }

  lemma WindowReaches(p: Params, cands: seq<Candidate>)
    requires p.Valid() && 1 < p.batchSize && |cands| == p.batchSize * (2 * p.numBeams)
    ensures TestedScores(p, cands, 1)[p.numBeams] == OwnScores(p, cands, 1)[0]
  {
    var n := p.numBeams;
    WindowInside(p, 1);
    assert 1 * n == n && 1 * (2 * n) == 2 * n;
    RowInside(1, p.batchSize, 2 * n);
    assert Own(p, cands, 1)[0] == cands[2 * n];
  }

  /** The candidates of an entry come best first. */
  lemma OwnDescends(p: Params, st: State, inp: Input, b: nat)
    requires Shaped(p, st) && Legal(p, st, inp) && b < p.batchSize
    ensures Max(OwnScores(p, Cands(p, st, inp), b)) == OwnScores(p, Cands(p, st, inp), b)[0]
  {
    hide Legal, Flat;
    FlatOwn(p, st, inp, p.batchSize, b);
    CandidatesAtIs(p, st, inp, b);
    var own := OwnScores(p, Cands(p, st, inp), b);
    assert forall i :: 0 <= i < |own| ==> own[i] == CandidatesAt(p, st, inp, b)[i].score;
    assert forall i :: 0 < i < |own| ==> own[i] <= own[0];
  }

  // ----- where they do not: the first step, with every beam of the entry ending its sentence -----

  /** Total scores of the first step: in entry b, u for the first beam's end of sentence, v for the other beams' and w
      for every other token; z for everything in all other entries. */
  datatype Plan = Plan(b: nat, u: real, v: real, w: real, z: real)

  function Total(p: Params, e: Plan, c: nat, x: nat): real
    requires p.Valid()
  {
    if c != e.b then e.z else if x % p.vocabSize != p.eosToken then e.w else if x / p.vocabSize == 0 then e.u else e.v
  }

  function Totals(p: Params, e: Plan, c: nat): (r: seq<real>)
    requires p.Valid()
    ensures |r| == p.numBeams * p.vocabSize
  {
    seq(p.numBeams * p.vocabSize, x requires 0 <= x => Total(p, e, c, x))
  }

  /** The scores a model has to give in one entry for these totals. */
  function BlockLogits(p: Params, e: Plan, c: nat): (r: seq<real>)
    requires p.Valid()
    ensures |r| == p.numBeams * p.vocabSize
  {
    seq(p.numBeams * p.vocabSize, x requires 0 <= x => Total(p, e, c, x) - InitialScore(x / p.vocabSize))
  }

  /** The first k of these blocks of one size, one after the other. */
  function Stacked(size: nat, blocks: seq<seq<real>>, k: nat): (r: seq<real>)
    requires k <= |blocks| && forall c :: 0 <= c < |blocks| ==> |blocks[c]| == size
    ensures |r| == k * size
  {
    if k == 0 then [] else assert k * size == (k - 1) * size + size; Stacked(size, blocks, k - 1) + blocks[k - 1]
  }

  lemma {:induction false} StackedAt(size: nat, blocks: seq<seq<real>>, k: nat, c: nat)
    requires c < k <= |blocks| && forall i :: 0 <= i < |blocks| ==> |blocks[i]| == size
    ensures c * size + size <= |Stacked(size, blocks, k)|
      && Stacked(size, blocks, k)[c * size..c * size + size] == blocks[c]
  {
    RowInside(c, k, size);
    var before := Stacked(size, blocks, k - 1);
    if c < k - 1 {
      StackedAt(size, blocks, k - 1, c);
      assert (before + blocks[k - 1])[c * size..c * size + size] == before[c * size..c * size + size];
    } else {
      assert (before + blocks[c])[|before|..|before| + size] == blocks[c];
    }
  }

  function Blocks(p: Params, e: Plan): (r: seq<seq<real>>)
    requires p.Valid()
    ensures |r| == p.batchSize && forall c :: 0 <= c < |r| ==>
      |r[c]| == p.numBeams * p.vocabSize && r[c] == BlockLogits(p, e, c)
  {
    seq(p.batchSize, c requires 0 <= c => BlockLogits(p, e, c))
  }

  function Logits(p: Params, e: Plan): (r: seq<real>)
    requires p.Valid()
    ensures |r| == p.batchSize * (p.numBeams * p.vocabSize)
  {
    Stacked(p.numBeams * p.vocabSize, Blocks(p, e), p.batchSize)
  }

  lemma Positive(p: Params)
    requires p.Valid()
    ensures p.numBeams * p.vocabSize >= 2 * p.numBeams > 0
  {
  }

  /** The ends of sentence of all beams, then as many extensions by another token. */
  function Pick(p: Params, e: Plan, c: nat, i: nat): nat
    requires 0 <= p.eosToken < p.vocabSize
  {
    if c == e.b then PickBeam(p, i) * p.vocabSize + PickToken(p, i) else i
  }

  function PickBeam(p: Params, i: nat): nat {
    if i < p.numBeams then i else i - p.numBeams
  }

  function PickToken(p: Params, i: nat): nat
    requires 0 <= p.eosToken
  {
    if i < p.numBeams then p.eosToken else if p.eosToken == 0 then 1 else 0
  }

  function Picks(p: Params, e: Plan, c: nat): (r: seq<nat>)
    requires 0 <= p.eosToken < p.vocabSize
    ensures |r| == 2 * p.numBeams
  {
    seq(2 * p.numBeams, i requires 0 <= i => Pick(p, e, c, i))
  }

  predicate Works(p: Params, e: Plan) {
    p.Valid() && 0 <= p.eosToken < p.vocabSize && e.b < p.batchSize && e.u >= e.v > e.w
  }

  /** The score of the candidate of rank i. */
  function PlanScore(p: Params, e: Plan, c: nat, i: nat): real {
    if c != e.b then e.z else if i == 0 then e.u else if i < p.numBeams then e.v else e.w
  }

  lemma PickIs(p: Params, e: Plan, c: nat, i: nat)
    requires Works(p, e) && i < 2 * p.numBeams
    ensures Pick(p, e, c, i) < p.numBeams * p.vocabSize
    ensures c == e.b ==>
      Pick(p, e, c, i) / p.vocabSize == PickBeam(p, i) && Pick(p, e, c, i) % p.vocabSize == PickToken(p, i)
    ensures PickToken(p, i) == p.eosToken <==> i < p.numBeams
  {
    Positive(p);
    if c == e.b {
      RowInside(PickBeam(p, i), p.numBeams, p.vocabSize);
      RowOf(PickBeam(p, i), PickToken(p, i), p.vocabSize);
    }
  }

  /** What the plan's totals are at the plan's picks. */
  lemma PickTotal(p: Params, e: Plan, c: nat, i: nat)
    requires Works(p, e) && i < 2 * p.numBeams
    ensures Total(p, e, c, Pick(p, e, c, i))
         == PlanScore(p, e, c, i)
  {
    hide Pick;
    PickIs(p, e, c, i);
  }

  lemma PicksDiffer(p: Params, e: Plan, c: nat, i: nat, j: nat)
    requires Works(p, e) && i < j < 2 * p.numBeams
    ensures Pick(p, e, c, i) != Pick(p, e, c, j)
  {
    if c == e.b {
      hide Pick;
      PickIs(p, e, c, i);
      PickIs(p, e, c, j);
    }
  }

  /** Every end of sentence of the entry is picked. */
  lemma EosPicked(p: Params, e: Plan, x: nat)
    requires Works(p, e) && x < p.numBeams * p.vocabSize && x % p.vocabSize == p.eosToken
    ensures x in Picks(p, e, e.b)
  {
    BatchOf(x, p.numBeams, p.vocabSize);
    var i := x / p.vocabSize;
    assert x == i * p.vocabSize + p.eosToken;
    assert Picks(p, e, e.b)[i] == Pick(p, e, e.b, i);
  }

  lemma UnpickedIsLow(p: Params, e: Plan, c: nat, x: nat, i: nat)
    requires Works(p, e) && x < p.numBeams * p.vocabSize && x !in Picks(p, e, c) && i < 2 * p.numBeams
    ensures Totals(p, e, c)[x] <= Total(p, e, c, Pick(p, e, c, i))
  {
    hide Picks, Pick;
    PickTotal(p, e, c, i);
    if c == e.b && x % p.vocabSize == p.eosToken {
      EosPicked(p, e, x);
    }
  }

  lemma PlanIsTop(p: Params, e: Plan, c: nat)
    requires Works(p, e)
    ensures TopPicks(Totals(p, e, c), Picks(p, e, c), 2 * p.numBeams)
  {
    hide Pick, Total;
    var scores, picks := Totals(p, e, c), Picks(p, e, c);
    forall i | 0 <= i < 2 * p.numBeams
      ensures picks[i] < |scores| && scores[picks[i]] == Total(p, e, c, Pick(p, e, c, i))
    {
      PickIs(p, e, c, i);
    }
    forall i, j | 0 <= i < j < 2 * p.numBeams
      ensures picks[i] != picks[j] && scores[picks[i]] >= scores[picks[j]]
    {
      PicksDiffer(p, e, c, i, j);
      PickTotal(p, e, c, i);
      PickTotal(p, e, c, j);
    }
    forall x, i | 0 <= x < |scores| && x !in picks && 0 <= i < 2 * p.numBeams
      ensures scores[x] <= scores[picks[i]]
    {
      UnpickedIsLow(p, e, c, x, i);
    }
  }

  // ----- the step -----

  function StartLane(p: Params): (r: Lane)
    ensures |r.slots| == p.numBeams
  {
    Lane([], false, seq(p.numBeams, j requires 0 <= j => Slot(InitialScore(j), 0, 0)))
  }

  function StartPrompts(p: Params): seq<seq<int>> {
    seq(p.batchSize, _ => [0])
  }

  function Start(p: Params): State
    requires p.Valid()
  {
    State(Expanded(StartPrompts(p), p.numBeams), seq(p.batchSize, _ => StartLane(p)))
  }

  lemma StartIsInitial(p: Params)
    requires p.Valid()
    ensures Initial(p, StartPrompts(p), 1, Start(p)) && Shaped(p, Start(p))
    ensures forall c :: 0 <= c < p.batchSize ==> Start(p).lanes[c] == StartLane(p)
  {
    hide Expanded;
  }

  function Identity(): (real, nat) -> real {
    (x, _) => x
  }

  lemma StartIsReached(p: Params)
    requires p.Valid()
    ensures Reached(p, 1, Identity(), Start(p), 0)
  {
    StartIsInitial(p);
    hide Initial, Start;
    assert Run(p, Start(p), 1, Identity(), [], [Start(p)]);
  }

  function FirstInput(p: Params, e: Plan): Input
    requires p.Valid() && 0 <= p.eosToken < p.vocabSize
  {
    Input(Logits(p, e), seq(p.batchSize, c requires 0 <= c => Picks(p, e, c)))
  }

  lemma StartScores(p: Params, e: Plan, c: nat)
    requires p.Valid() && c < p.batchSize
    ensures StepScores(p, StartLane(p), OwnLogits(p, Logits(p, e), c)) == Totals(p, e, c)
  {
    hide Total, InitialScore, Stacked, Blocks, BlockLogits, StepScores, StartLane;
    StackedAt(p.numBeams * p.vocabSize, Blocks(p, e), p.batchSize, c);
    BlockScores(p, e, c);
  }

  lemma BlockScores(p: Params, e: Plan, c: nat)
    requires p.Valid()
    ensures StepScores(p, StartLane(p), BlockLogits(p, e, c)) == Totals(p, e, c)
  {
    hide Total, InitialScore, StartLane, StepScores, BlockLogits;
    var lane, logits := StartLane(p), BlockLogits(p, e, c);
    forall x | 0 <= x < p.numBeams * p.vocabSize ensures StepScores(p, lane, logits)[x] == Totals(p, e, c)[x] {
      StepScoreAt(p, lane, logits, x, x / p.vocabSize);
      BlockLogitAt(p, e, c, x);
      StartSlotAt(p, x / p.vocabSize);
    }
  }

  lemma BlockLogitAt(p: Params, e: Plan, c: nat, x: nat)
    requires p.Valid() && x < p.numBeams * p.vocabSize
    ensures BlockLogits(p, e, c)[x] == Total(p, e, c, x) - InitialScore(x / p.vocabSize)
  {
    hide Total, InitialScore;
  }

  lemma StartSlotAt(p: Params, j: nat)
    requires j < p.numBeams
    ensures j < |StartLane(p).slots| && StartLane(p).slots[j].score == InitialScore(j)
  {
    hide InitialScore;
  }

  lemma FirstIsLegal(p: Params, e: Plan)
    requires Works(p, e)
    ensures Shaped(p, Start(p)) && Legal(p, Start(p), FirstInput(p, e))
  {
    hide Logits, Picks, Totals, StepScores, OwnLogits, StartLane, TopPicks, Start, Shaped;
    StartIsInitial(p);
    forall c | 0 <= c < p.batchSize ensures |Start(p).lanes| == p.batchSize
      && LegalAt(p, Start(p), FirstInput(p, e), c) {
      ShapedLanes(p, Start(p));
      StartScores(p, e, c);
      PlanIsTop(p, e, c);
    }
  }

  lemma ShapedLanes(p: Params, st: State)
    requires Shaped(p, st)
    ensures |st.lanes| == p.batchSize
  {
  }

  lemma FirstCandidates(p: Params, e: Plan, c: nat)
    requires Works(p, e) && c < p.batchSize
    ensures Shaped(p, Start(p)) && Legal(p, Start(p), FirstInput(p, e)) && p.Valid()
    ensures TopPicks(Totals(p, e, c), Picks(p, e, c), 2 * p.numBeams)
    ensures CandidatesAt(p, Start(p), FirstInput(p, e), c) == CandidatesOf(p.vocabSize, Totals(p, e, c), Picks(p, e, c))
  {
    hide Logits, StepScores, OwnLogits, StartLane, TopPicks, Start, Shaped, Legal, Pick, Totals, Picks;
    StartIsInitial(p);
    FirstIsLegal(p, e);
    ShapedLanes(p, Start(p));
    CandidatesAtIs(p, Start(p), FirstInput(p, e), c);
    StartScores(p, e, c);
    PlanIsTop(p, e, c);
  }

  /** The candidates of an entry in that step. */
  ghost function FirstOwn(p: Params, e: Plan, c: nat): (r: seq<Candidate>)
    requires Works(p, e) && c < p.batchSize
    ensures |r| == 2 * p.numBeams
  {
    FirstIsLegal(p, e);
    CandidatesAt(p, Start(p), FirstInput(p, e), c)
  }

  lemma FirstOwnAt(p: Params, e: Plan, c: nat, i: nat)
    requires Works(p, e) && c < p.batchSize && i < 2 * p.numBeams
    ensures FirstOwn(p, e, c)[i].score == PlanScore(p, e, c, i)
    ensures c == e.b ==> (FirstOwn(p, e, c)[i].token == p.eosToken <==> i < p.numBeams)
  {
    hide Pick, Total, CandidatesAt, FirstInput, Start, Legal, Shaped, PickToken;
    FirstCandidates(p, e, c);
    PickIs(p, e, c, i);
    PickTotal(p, e, c, i);
    assert FirstOwn(p, e, c)[i] == CandidateAt(p.vocabSize, Totals(p, e, c), Pick(p, e, c, i));
  }

  // ----- what the step makes of them -----

  lemma AddToKeeps<T>(n: nat, s: seq<Scored<T>>, h: Scored<T>)
    requires |s| < n
    ensures multiset(AddTo(n, s, h)) == multiset(s) + multiset{h}
  {
    PlaceMembers(s, h);
  }

  /** Storing no more hypotheses than there is room for loses none. */
  lemma {:induction false} AddAllKeeps<T>(n: nat, hs: seq<Scored<T>>)
    requires |hs| <= n
    ensures multiset(AddAll(n, [], hs)) == multiset(hs)
  {
    hide AddTo;
    if hs != [] {
      var m := |hs| - 1;
      AddAllKeeps(n, hs[..m]);
      AddToKeeps(n, AddAll(n, [], hs[..m]), hs[m]);
      assert hs == hs[..m] + [hs[m]];
    }
  }

  /** The first numBeams candidates all end the sentence, and the others do not. */
  predicate EosFirst(p: Params, own: seq<Candidate>) {
    |own| == 2 * p.numBeams && forall i :: 0 <= i < |own| ==> (IsEos(p.eosToken, own[i]) <==> i < p.numBeams)
  }

  lemma EosFirstFinished(p: Params, own: seq<Candidate>)
    requires EosFirst(p, own)
    ensures |Finished(p, own)| == p.numBeams && forall i :: 0 <= i < p.numBeams ==> Finished(p, own)[i] == i
  {
    var cands := Keep(p.numBeams, own);
    AllWanted(p.eosToken, cands);
  }

  lemma {:induction false} AllWanted(eos: int, cands: seq<Candidate>)
    requires forall i :: 0 <= i < |cands| ==> IsEos(eos, cands[i])
    ensures |Positions(eos, true, cands)| == |cands|
    ensures forall i :: 0 <= i < |cands| ==> Positions(eos, true, cands)[i] == i
  {
    if cands != [] {
      AllWanted(eos, cands[..|cands| - 1]);
    }
  }

  /** A full list with these scores: the best once, all others the same. */
  predicate OneBest(n: nat, hyps: seq<Hypothesis>, u: real, v: real) {
    && |hyps| == n && (forall i :: 0 <= i < n ==> hyps[i].score == u || hyps[i].score == v)
    && exists i :: 0 <= i < n && hyps[i].score == v
  }

  lemma FirstHyps(p: Params, e: Plan, own: seq<Candidate>, rows: seq<seq<int>>)
    requires Works(p, e) && EosFirst(p, own) && forall c :: c in own ==> c.beam < |rows|
    requires forall i :: 0 <= i < 2 * p.numBeams ==> own[i].score == PlanScore(p, e, e.b, i)
    ensures OneBest(p.numBeams, AddAll(p.numBeams, [], Completed(own, Finished(p, own), rows, 0, Identity())), e.u, e.v)
  {
    hide Finished, EosFirst;
    EosFirstFinished(p, own);
    forall c | c in own ensures 0 + c.beam < |rows| { }
    var hs := Completed(own, Finished(p, own), rows, 0, Identity());
    assert forall i :: 0 <= i < p.numBeams ==> hs[i].score == own[i].score;
    var hyps := AddAll(p.numBeams, [], hs);
    AddAllKeeps(p.numBeams, hs);
    forall i | 0 <= i < p.numBeams ensures hyps[i].score == e.u || hyps[i].score == e.v {
      assert hyps[i] in multiset(hyps);
    }
    assert hs[1] in multiset(hs);
    assert hs[1] in hyps;
  }

  /** Such a list is improved by exactly the scores above its worst. */
  lemma OneBestImproves(n: nat, hyps: seq<Hypothesis>, u: real, v: real, scores: seq<real>, length: nat)
    requires OneBest(n, hyps, u, v) && u >= v && scores != []
    ensures Improvable(hyps, scores, length, Identity()) <==> v < Max(scores)
  {
    hide Max;
    assert Identity()(Max(scores), length) == Max(scores);
  }

  /** The entry's list after the step. */
  lemma FirstStep(p: Params, e: Plan)
    requires Works(p, e)
    ensures Shaped(p, Start(p)) && Legal(p, Start(p), FirstInput(p, e)) && e.b < |Start(p).lanes|
      && !Start(p).lanes[e.b].done
    ensures OneBest(p.numBeams, HypsAfter(p, Start(p), FirstInput(p, e), 1, Identity(), e.b), e.u, e.v)
  {
    hide *;
    WorksIs(p, e);
    StartIsInitial(p);
    StartLaneIs(p);
    FirstIsLegal(p, e);
    var st, inp, b := Start(p), FirstInput(p, e), e.b;
    var own := FirstOwn(p, e, b);
    ValidHere(p, st);
    NextIs(p, st, inp, 1, Identity(), b);
    FirstOwnIs(p, e);
    var rows := st.rows[b * p.numBeams..b * p.numBeams + p.numBeams];
    LaneHyps(p, st.lanes[b], own, TestedScores(p, Flat(p, st, inp, p.batchSize), b), rows, b * p.numBeams, 1,
      Identity());
    FirstHyps(p, e, own, rows);
    HypsAfterIs(p, st, inp, 1, Identity(), b);
  }

  lemma WorksIs(p: Params, e: Plan)
    requires Works(p, e)
    ensures p.Valid() && 0 <= p.eosToken < p.vocabSize && e.b < p.batchSize && p.numBeams > 1 && e.u >= e.v > e.w
  {
  }

  lemma StartLaneIs(p: Params)
    ensures StartLane(p).hyps == [] && !StartLane(p).done
  {
  }

  lemma HypsAfterIs(p: Params, st: State, inp: Input, length: nat, norm: (real, nat) -> real, b: nat)
    requires Shaped(p, st) && Legal(p, st, inp) && b < p.batchSize
    ensures b < |NextLanes(p, st, inp, length, norm)|
    ensures HypsAfter(p, st, inp, length, norm, b) == NextLanes(p, st, inp, length, norm)[b].hyps
  {
    hide Legal, NextLanes;
    ValidHere(p, st);
  }

  lemma LaneHyps(p: Params, lane: Lane, own: seq<Candidate>, tested: seq<real>, rows: seq<seq<int>>, base: nat,
      length: nat, norm: (real, nat) -> real)
    requires |rows| == p.numBeams && tested != [] && GoodCandidates(p, own) && !lane.done && lane.hyps == []
    ensures forall c :: c in own ==> c.beam < |rows|
    ensures NextLane(p, lane, own, tested, rows, base, length, norm).hyps
         == AddAll(p.numBeams, [], Completed(own, Finished(p, own), rows, 0, norm))
  {
  }

  lemma FirstOwnIs(p: Params, e: Plan)
    requires Works(p, e)
    ensures EosFirst(p, FirstOwn(p, e, e.b))
    ensures forall i :: 0 <= i < 2 * p.numBeams ==> FirstOwn(p, e, e.b)[i].score == PlanScore(p, e, e.b, i)
    ensures Shaped(p, Start(p)) && Legal(p, Start(p), FirstInput(p, e))
    ensures FirstOwn(p, e, e.b) == CandidatesAt(p, Start(p), FirstInput(p, e), e.b)
  {
    hide FirstInput, Start, Legal, Shaped, PlanScore, CandidatesAt;
    FirstIsLegal(p, e);
    forall i | 0 <= i < 2 * p.numBeams
      ensures FirstOwn(p, e, e.b)[i].score == PlanScore(p, e, e.b, i)
      ensures IsEos(p.eosToken, FirstOwn(p, e, e.b)[i]) <==> i < p.numBeams
    {
      FirstOwnAt(p, e, e.b, i);
    }
  }

  /** The entry's own best score is u. */
  lemma FirstOwnBest(p: Params, e: Plan)
    requires Works(p, e) && Shaped(p, Start(p)) && Legal(p, Start(p), FirstInput(p, e))
    ensures Max(OwnScores(p, Cands(p, Start(p), FirstInput(p, e)), e.b)) == e.u
  {
    hide *;
    WorksIs(p, e);
    var cands := Cands(p, Start(p), FirstInput(p, e));
    OwnDescends(p, Start(p), FirstInput(p, e), e.b);
    FlatHere(p, e, e.b);
    OwnScoreIs(p, cands, e.b);
    FirstOwnAt(p, e, e.b, 0);
    PlanScoreIs(p, e, 0);
  }

  lemma FlatHere(p: Params, e: Plan, c: nat)
    requires Works(p, e) && c < p.batchSize && Shaped(p, Start(p)) && Legal(p, Start(p), FirstInput(p, e))
    ensures Own(p, Cands(p, Start(p), FirstInput(p, e)), c) == FirstOwn(p, e, c)
  {
    hide FirstInput, Start, Legal, Shaped, Flat, CandidatesAt;
    ValidHere(p, Start(p));
    FlatOwn(p, Start(p), FirstInput(p, e), p.batchSize, c);
  }

  lemma OwnScoreIs(p: Params, cands: seq<Candidate>, b: nat)
    requires b < p.batchSize && |cands| == p.batchSize * (2 * p.numBeams) && p.numBeams > 0
    ensures OwnScores(p, cands, b)[0] == Own(p, cands, b)[0].score
  {
  }

  lemma PlanScoreIs(p: Params, e: Plan, i: nat)
    requires p.Valid()
    ensures i == 0 ==> PlanScore(p, e, e.b, i) == e.u
    ensures forall c :: c != e.b ==> PlanScore(p, e, c, i) == e.z
  {
  }

  /** A place of the window in front of the entry's own block holds another entry's score. */
  lemma WindowBefore(p: Params, e: Plan, i: nat)
    requires Works(p, e) && Shaped(p, Start(p)) && Legal(p, Start(p), FirstInput(p, e)) && i < 2 * p.numBeams
    requires e.b * p.numBeams + i < e.b * (2 * p.numBeams)
    ensures TestedScores(p, Cands(p, Start(p), FirstInput(p, e)), e.b)[i] == e.z
  {
    hide *;
    WorksIs(p, e);
    var cands, flat, block := Cands(p, Start(p), FirstInput(p, e)), e.b * p.numBeams + i, 2 * p.numBeams;
    BatchOf(flat, e.b, block);
    var c, r := flat / block, flat % block;
    assert flat == c * block + r;
    FlatHere(p, e, c);
    FirstOwnAt(p, e, c, r);
    PlanScoreIs(p, e, r);
    WindowAt(p, cands, e.b, i, c, r);
  }

  lemma WindowAt(p: Params, cands: seq<Candidate>, b: nat, i: nat, c: nat, r: nat)
    requires p.Valid() && b < p.batchSize && c < p.batchSize && |cands| == p.batchSize * (2 * p.numBeams)
    requires i < 2 * p.numBeams && r < 2 * p.numBeams && b * p.numBeams + i == c * (2 * p.numBeams) + r
    ensures TestedScores(p, cands, b)[i] == Own(p, cands, c)[r].score
  {
    WindowInside(p, b);
    RowInside(c, p.batchSize, 2 * p.numBeams);
  }

  lemma FirstCanBeTaken(p: Params, e: Plan)
    requires Works(p, e) && p.maxLength >= 2
    ensures CanTake(p, 1, Identity(), Start(p), 0, FirstInput(p, e), e.b)
  {
    hide Works, Reached, Shaped, Legal, Start, FirstInput;
    WorksIs(p, e);
    StartIsReached(p);
    FirstStep(p, e);
  }

  /** All other entries' candidates score above the ends of sentence, which tie: the entry should end and does not. */
  lemma EndsLate(p: Params, e: Plan)
    requires Works(p, e) && e.b > 0 && !p.earlyStopping && e.u == e.v < e.z
    ensures Shaped(p, Start(p)) && Legal(p, Start(p), FirstInput(p, e))
    ensures ShouldEnd(p, Start(p), FirstInput(p, e), 1, Identity(), e.b)
      && !Ends(p, Start(p), FirstInput(p, e), 1, Identity(), e.b)
  {
    hide Works, Legal, Shaped, Start, FirstInput, HypsAfter, OneBest, OwnScores, TestedScores, Cands, Improvable, Max,
      Ends;
    WorksIs(p, e);
    FirstStep(p, e);
    var cands, hyps := Cands(p, Start(p), FirstInput(p, e)),
      HypsAfter(p, Start(p), FirstInput(p, e), 1, Identity(), e.b);
    EndsIs(p, Start(p), FirstInput(p, e), 1, Identity(), e.b);
    RowsApart(0, e.b, p.numBeams);
    assert e.b * (2 * p.numBeams) == e.b * p.numBeams + e.b * p.numBeams;
    WindowBefore(p, e, 0);
    FirstOwnBest(p, e);
    OneBestImproves(p.numBeams, hyps, e.u, e.v, OwnScores(p, cands, e.b), 1);
    OneBestImproves(p.numBeams, hyps, e.u, e.v, TestedScores(p, cands, e.b), 1);
    OneBestIsFull(p.numBeams, hyps, e.u, e.v);
    assert TestedScores(p, cands, e.b)[0] <= Max(TestedScores(p, cands, e.b));
  }

  lemma OneBestIsFull(n: nat, hyps: seq<Hypothesis>, u: real, v: real)
    requires OneBest(n, hyps, u, v)
    ensures |hyps| == n
  {
  }

  /** All other entries' candidates score below the worst end of sentence, though the best one could be improved on: the
      entry ends and should not. Its whole window lies before its own block. */
  lemma EndsEarly(p: Params, e: Plan)
    requires Works(p, e) && e.b > 1 && !p.earlyStopping && e.z < e.v < e.u
    ensures Shaped(p, Start(p)) && Legal(p, Start(p), FirstInput(p, e))
    ensures !ShouldEnd(p, Start(p), FirstInput(p, e), 1, Identity(), e.b)
      && Ends(p, Start(p), FirstInput(p, e), 1, Identity(), e.b)
  {
    hide Works, Legal, Shaped, Start, FirstInput, HypsAfter, OneBest, OwnScores, TestedScores, Cands, Improvable, Max,
      Ends;
    WorksIs(p, e);
    FirstStep(p, e);
    var cands, hyps := Cands(p, Start(p), FirstInput(p, e)),
      HypsAfter(p, Start(p), FirstInput(p, e), 1, Identity(), e.b);
    EndsIs(p, Start(p), FirstInput(p, e), 1, Identity(), e.b);
    RowsApart(1, e.b, p.numBeams);
    assert e.b * (2 * p.numBeams) == e.b * p.numBeams + e.b * p.numBeams;
    var tested := TestedScores(p, cands, e.b);
    forall i | 0 <= i < |tested| ensures tested[i] == e.z {
      WindowBefore(p, e, i);
    }
    FirstOwnBest(p, e);
    OneBestImproves(p.numBeams, hyps, e.u, e.v, OwnScores(p, cands, e.b), 1);
    OneBestImproves(p.numBeams, hyps, e.u, e.v, tested, 1);
    OneBestIsFull(p.numBeams, hyps, e.u, e.v);
  }
}
