/** What a beam search returns: the best of everything that ended. */
module BeamResults {
  import opened FlatRows
  import opened TokenSequences
  import opened Ranking
  import opened Hypotheses
  import opened BeamScoring
  import opened Scorer
  import opened BeamRun
  import opened BeamInvariants

  // ----- one step -----

  ghost predicate Scorable(p: Params, lane: Lane, logits: seq<real>, rows: seq<seq<int>>) {
    p.Valid() && |lane.slots| == |rows| == p.numBeams && |logits| == p.numBeams * p.vocabSize
  }

  /** A beam that ends: its row without the EOS token, scored with it. */
  ghost function Ending(p: Params, norm: (real, nat) -> real, lane: Lane, logits: seq<real>, rows: seq<seq<int>>,
      flat: nat): Hypothesis
    requires Scorable(p, lane, logits, rows) && flat < |logits|
  {
    BatchOf(flat, p.numBeams, p.vocabSize);
    var beam := flat / p.vocabSize;
    Scored(rows[beam], norm(logits[flat] + lane.slots[beam].score, |rows[beam]|))
  }

  /** The beams that end with one of the first k picks, in the order of the picks. */
  ghost function Endings(p: Params, norm: (real, nat) -> real, lane: Lane, logits: seq<real>, rows: seq<seq<int>>,
      picks: seq<nat>, k: nat): seq<Hypothesis>
    requires Scorable(p, lane, logits, rows) && k <= |picks| && forall i :: 0 <= i < |picks| ==> picks[i] < |logits|
  {
    if k == 0 then []
    else
      Endings(p, norm, lane, logits, rows, picks, k - 1)
      + if picks[k - 1] % p.vocabSize == p.eosToken then [Ending(p, norm, lane, logits, rows, picks[k - 1])] else []
  }

  lemma CandidateEnds(p: Params, norm: (real, nat) -> real, lane: Lane, logits: seq<real>, rows: seq<seq<int>>,
      flat: nat)
    requires Scorable(p, lane, logits, rows) && flat < |logits|
    ensures var c := CandidateAt(p.vocabSize, StepScores(p, lane, logits), flat);
      && (IsEos(p.eosToken, c) <==> flat % p.vocabSize == p.eosToken) && c.beam < |rows|
      && Scored(rows[c.beam], norm(c.score, |rows[c.beam]|)) == Ending(p, norm, lane, logits, rows, flat)
  {
    hide StepScores;
    BatchOf(flat, p.numBeams, p.vocabSize);
    StepScoreAt(p, lane, logits, flat, flat / p.vocabSize);
  }

  /** What the scorer stores from the first k candidates. */
  lemma {:induction false} CompletedAre(p: Params, norm: (real, nat) -> real, lane: Lane, logits: seq<real>,
      rows: seq<seq<int>>, picks: seq<nat>, k: nat)
    requires Scorable(p, lane, logits, rows) && k <= |picks| && forall i :: 0 <= i < |picks| ==> picks[i] < |logits|
    ensures var own := CandidatesOf(p.vocabSize, StepScores(p, lane, logits), picks);
      && (forall c :: c in own ==> 0 + c.beam < |rows|)
      && Completed(own, Positions(p.eosToken, true, own[..k]), rows, 0, norm)
        == Endings(p, norm, lane, logits, rows, picks, k)
  {
    hide StepScores, IsEos, Ending, CandidateAt;
    var own := CandidatesOf(p.vocabSize, StepScores(p, lane, logits), picks);
    forall i | 0 <= i < |own| ensures own[i].beam < |rows| {
      CandidateEnds(p, norm, lane, logits, rows, picks[i]);
    }
    if k > 0 {
      CompletedAre(p, norm, lane, logits, rows, picks, k - 1);
      CandidateEnds(p, norm, lane, logits, rows, picks[k - 1]);
      assert own[..k][..k - 1] == own[..k - 1];
    }
  }

  /** The beams of one entry that end in a step. */
  ghost function EndingsAt(p: Params, norm: (real, nat) -> real, st: State, inp: Input, b: nat): seq<Hypothesis>
    requires Shaped(p, st) && Legal(p, st, inp) && b < p.batchSize
  {
    assert LegalAt(p, st, inp, b);
    Endings(p, norm, st.lanes[b], OwnLogits(p, inp.logits, b), Block(p, st, b), inp.picks[b], p.numBeams)
  }

  lemma EndingsAtIs(p: Params, norm: (real, nat) -> real, st: State, inp: Input, b: nat)
    requires Shaped(p, st) && Legal(p, st, inp) && b < p.batchSize
    ensures |st.lanes| == p.batchSize && |inp.picks| == p.batchSize && p.numBeams <= |inp.picks[b]| == 2 * p.numBeams
    ensures |inp.logits| == p.batchSize * (p.numBeams * p.vocabSize)
    ensures Scorable(p, st.lanes[b], OwnLogits(p, inp.logits, b), Block(p, st, b))
    ensures forall i :: 0 <= i < |inp.picks[b]| ==> inp.picks[b][i] < |OwnLogits(p, inp.logits, b)|
    ensures EndingsAt(p, norm, st, inp, b)
      == Endings(p, norm, st.lanes[b], OwnLogits(p, inp.logits, b), Block(p, st, b), inp.picks[b], p.numBeams)
  {
    assert LegalAt(p, st, inp, b);
  }

  lemma NextHyps(p: Params, lane: Lane, own: seq<Candidate>, tested: seq<real>, rows: seq<seq<int>>, base: nat,
      length: nat, norm: (real, nat) -> real)
    requires |rows| == p.numBeams && tested != [] && (!lane.done ==> GoodCandidates(p, own))
    ensures lane.done ==> NextLane(p, lane, own, tested, rows, base, length, norm).hyps == lane.hyps
    ensures !lane.done ==> p.numBeams <= |own| && forall c :: c in own ==> 0 + c.beam < |rows|
    ensures !lane.done ==>
      NextLane(p, lane, own, tested, rows, base, length, norm).hyps
      == AddAll(p.numBeams, lane.hyps, Completed(own, Positions(p.eosToken, true, own[..p.numBeams]), rows, 0, norm))
  {
    if !lane.done {
      assert Keep(p.numBeams, own) == own[..p.numBeams];
    }
  }

  /** A step adds the endings of an entry that is not done, and nothing else. */
  lemma StepAddsEndings(p: Params, st: State, inp: Input, length: nat, norm: (real, nat) -> real, b: nat)
    requires Shaped(p, st) && Legal(p, st, inp) && b < p.batchSize
    ensures |st.lanes| == p.batchSize == |Step(p, st, inp, length, norm).lanes|
    ensures Step(p, st, inp, length, norm).lanes[b].hyps
      == if st.lanes[b].done then st.lanes[b].hyps
        else AddAll(p.numBeams, st.lanes[b].hyps, EndingsAt(p, norm, st, inp, b))
  {
    hide *;
    ShapedIs(p, st, inp, b);
    NextIs(p, st, inp, length, norm, b);
    StepRow(p, st, inp, length, norm, b, 0);
    BlockIs(p, st, b);
    CandidatesAtIs(p, st, inp, b);
    EndingsAtIs(p, norm, st, inp, b);
    NextHyps(p, st.lanes[b], CandidatesAt(p, st, inp, b), TestedScores(p, Flat(p, st, inp, p.batchSize), b),
      Block(p, st, b), b * p.numBeams, length, norm);
    CompletedAre(p, norm, st.lanes[b], OwnLogits(p, inp.logits, b), Block(p, st, b), inp.picks[b], p.numBeams);
  }

  // ----- a run -----

  /** Everything of an entry that ended in the first t steps, up to the one that closed it, in order. */
  ghost function Ended(p: Params, init: State, s: nat, norm: (real, nat) -> real, inputs: seq<Input>,
      states: seq<State>, b: nat, t: nat): seq<Hypothesis>
    requires Run(p, init, s, norm, inputs, states) && t <= |inputs| && b < p.batchSize
  {
    if t == 0 then []
    else
      Ended(p, init, s, norm, inputs, states, b, t - 1)
      + if states[t - 1].lanes[b].done then [] else EndingsAt(p, norm, states[t - 1], inputs[t - 1], b)
  }

  lemma RunLength(p: Params, init: State, s: nat, norm: (real, nat) -> real, inputs: seq<Input>, states: seq<State>)
    requires Run(p, init, s, norm, inputs, states)
    ensures |states| == |inputs| + 1
  {
  }

  lemma EndedStep(p: Params, init: State, s: nat, norm: (real, nat) -> real, inputs: seq<Input>, states: seq<State>,
      b: nat, t: nat)
    requires Run(p, init, s, norm, inputs, states) && 0 < t <= |inputs| && b < p.batchSize
    ensures Shaped(p, states[t - 1]) && Legal(p, states[t - 1], inputs[t - 1]) && b < |states[t - 1].lanes|
    ensures Ended(p, init, s, norm, inputs, states, b, t) == Ended(p, init, s, norm, inputs, states, b, t - 1)
      + if states[t - 1].lanes[b].done then [] else EndingsAt(p, norm, states[t - 1], inputs[t - 1], b)
  {
    hide EndingsAt, Step, Legal;
  }

  lemma EndedNone(p: Params, init: State, s: nat, norm: (real, nat) -> real, inputs: seq<Input>, states: seq<State>,
      b: nat)
    requires Run(p, init, s, norm, inputs, states) && b < p.batchSize
    ensures Ended(p, init, s, norm, inputs, states, b, 0) == []
  {
    hide Run;
  }

  lemma {:induction false} AddAllTwice<T>(n: nat, s: seq<Scored<T>>, a: seq<Scored<T>>, b: seq<Scored<T>>)
    ensures AddAll(n, AddAll(n, s, a), b) == AddAll(n, s, a + b)
  {
    if b == [] {
      assert a + b == a;
    } else {
      AddAllTwice(n, s, a, b[..|b| - 1]);
      assert (a + b)[..|a + b| - 1] == a + b[..|b| - 1];
    }
  }

  lemma AddAllNone<T>(n: nat, s: seq<Scored<T>>)
    ensures AddAll(n, s, []) == s
  {
  }

  /** The stored hypotheses are what adding everything that ended leaves. */
  lemma {:induction false} StoredAre(p: Params, prompts: seq<seq<int>>, init: State, s: nat, norm: (real, nat) -> real,
      inputs: seq<Input>, states: seq<State>, b: nat, t: nat)
    requires Initial(p, prompts, s, init) && Run(p, init, s, norm, inputs, states) && t <= |inputs| && b < p.batchSize
    ensures b < |states[t].lanes|
    ensures states[t].lanes[b].hyps == AddAll(p.numBeams, [], Ended(p, init, s, norm, inputs, states, b, t))
  {
    hide *;
    RunLength(p, init, s, norm, inputs, states);
    RunAt(p, init, s, norm, inputs, states, t);
    if t == 0 {
      NothingStored(p, prompts, s, init, b);
      EndedNone(p, init, s, norm, inputs, states, b);
      AddAllNone<seq<int>>(p.numBeams, []);
    } else {
      StoredAre(p, prompts, init, s, norm, inputs, states, b, t - 1);
      EndedStep(p, init, s, norm, inputs, states, b, t);
      StepAddsEndings(p, states[t - 1], inputs[t - 1], s + (t - 1), norm, b);
      var before := Ended(p, init, s, norm, inputs, states, b, t - 1);
      if states[t - 1].lanes[b].done {
        assert before + [] == before;
      } else {
        AddAllTwice(p.numBeams, [], before, EndingsAt(p, norm, states[t - 1], inputs[t - 1], b));
      }
    }
  }

  /** The rows of an entry that is still open, with their normalised beam scores. */
  ghost predicate AreLive(p: Params, norm: (real, nat) -> real, st: State, b: nat, live: seq<Hypothesis>)
    requires Shaped(p, st) && b < p.batchSize
  {
    && |live| == p.numBeams
    && forall k :: 0 <= k < p.numBeams ==>
      live[k].item == Block(p, st, b)[k]
        && live[k].score == norm(st.lanes[b].slots[k].score, |Block(p, st, b)[k]|)
  }

  lemma FinalsAddLive(p: Params, st: State, norm: (real, nat) -> real, b: nat) returns (live: seq<Hypothesis>)
    requires Shaped(p, st) && b < p.batchSize
    ensures if st.lanes[b].done then live == [] else AreLive(p, norm, st, b, live)
    ensures Finals(p, st.lanes, st.rows, norm)[b] == AddAll(p.numBeams, st.lanes[b].hyps, live)
  {
    hide AddAll, Finals;
    FinalsAt(p, st, norm, b);
    AddAllNone(p.numBeams, st.lanes[b].hyps);
    live := if st.lanes[b].done then []
      else LiveHypotheses(p.numBeams, st.lanes[b].slots, Block(p, st, b), 0, norm);
  }

  /** After any run, an entry returns the best numBeams by normalised score, the earlier first among equals, of all its
      beams that ended while it was open and, if it still is, of its rows. */
  lemma FinalsAreBestOfRun(p: Params, prompts: seq<seq<int>>, init: State, s: nat, norm: (real, nat) -> real,
      inputs: seq<Input>, states: seq<State>, b: nat) returns (live: seq<Hypothesis>, order: seq<Entry>)
    requires Initial(p, prompts, s, init) && Run(p, init, s, norm, inputs, states) && b < p.batchSize
    ensures Shaped(p, states[|inputs|])
    ensures if states[|inputs|].lanes[b].done then live == [] else AreLive(p, norm, states[|inputs|], b, live)
    ensures var all := Ended(p, init, s, norm, inputs, states, b, |inputs|) + live;
      && IsBest(p.numBeams, order, multiset(Arrivals(all))) && AllArrived(all, order)
      && Finals(p, states[|inputs|].lanes, states[|inputs|].rows, norm)[b] == Pick(all, order)
  {
    hide *;
    RunLength(p, init, s, norm, inputs, states);
    RunAt(p, init, s, norm, inputs, states, |inputs|);
    RunInv(p, prompts, init, s, norm, inputs, states, |inputs|);
    InvAt(p, prompts, states[|inputs|], s + |inputs|, b);
    StoredAre(p, prompts, init, s, norm, inputs, states, b, |inputs|);
    live := FinalsAddLive(p, states[|inputs|], norm, b);
    var ended := Ended(p, init, s, norm, inputs, states, b, |inputs|);
    AddAllTwice(p.numBeams, [], ended, live);
    order := AddAllIsStableBest(p.numBeams, ended + live);
  }

  // ----- the score of a hypothesis -----

  /** The hypothesis is the prompt and the tokens along the path but the last, which is EOS and only counts in the
      score: the path's initial score and the model's scores of its tokens, normalised by the row's length. */
  ghost predicate EndsPath(p: Params, prompt: seq<int>, norm: (real, nat) -> real, inputs: seq<Input>,
      states: seq<State>, b: nat, h: Hypothesis, path: seq<nat>, tokens: seq<int>)
  {
    && p.Valid() && b < p.batchSize && tokens != [] && |path| == |tokens| + 1 && OnPath(p, inputs, path, tokens)
    && tokens[|tokens| - 1] == p.eosToken && path[0] < p.numBeams
    && Descends(p, states, b, path[..|path| - 1], tokens[..|tokens| - 1])
    && h.item == prompt + tokens[..|tokens| - 1]
    && h.score
      == norm((if path[0] == 0 then 0.0 else -1000000000.0) + PathSum(p, inputs, b, path, tokens), |h.item|)
  }

  /** The hypothesis is the beam's row, scored with the EOS token behind it. */
  ghost predicate EndsBeam(p: Params, norm: (real, nat) -> real, lane: Lane, logits: seq<real>, rows: seq<seq<int>>,
      beam: nat, h: Hypothesis)
  {
    && Scorable(p, lane, logits, rows) && beam < p.numBeams && 0 <= p.eosToken < p.vocabSize
    && 0 <= beam * p.vocabSize + p.eosToken < |logits| && h.item == rows[beam]
    && h.score == norm(logits[beam * p.vocabSize + p.eosToken] + lane.slots[beam].score, |rows[beam]|)
  }

  lemma EndingIs(p: Params, norm: (real, nat) -> real, lane: Lane, logits: seq<real>, rows: seq<seq<int>>, flat: nat)
    returns (beam: nat)
    requires Scorable(p, lane, logits, rows) && flat < |logits| && flat % p.vocabSize == p.eosToken
    ensures EndsBeam(p, norm, lane, logits, rows, beam, Ending(p, norm, lane, logits, rows, flat))
  {
    BatchOf(flat, p.numBeams, p.vocabSize);
    beam := flat / p.vocabSize;
    assert beam * p.vocabSize + flat % p.vocabSize == flat;
  }

  lemma {:induction false} EndingOf(p: Params, norm: (real, nat) -> real, lane: Lane, logits: seq<real>,
      rows: seq<seq<int>>, picks: seq<nat>, k: nat, h: Hypothesis) returns (beam: nat)
    requires Scorable(p, lane, logits, rows) && k <= |picks| && forall i :: 0 <= i < |picks| ==> picks[i] < |logits|
    requires h in Endings(p, norm, lane, logits, rows, picks, k)
    ensures EndsBeam(p, norm, lane, logits, rows, beam, h)
  {
    hide Ending, EndsBeam;
    if h in Endings(p, norm, lane, logits, rows, picks, k - 1) {
      beam := EndingOf(p, norm, lane, logits, rows, picks, k - 1, h);
    } else {
      beam := EndingIs(p, norm, lane, logits, rows, picks[k - 1]);
    }
  }

  lemma EndsBeamIs(p: Params, norm: (real, nat) -> real, lane: Lane, logits: seq<real>, rows: seq<seq<int>>,
      beam: nat, h: Hypothesis)
    requires EndsBeam(p, norm, lane, logits, rows, beam, h)
    ensures |lane.slots| == |rows| == p.numBeams && |logits| == p.numBeams * p.vocabSize
    ensures beam < p.numBeams && 0 <= p.eosToken && 0 <= beam * p.vocabSize + p.eosToken < |logits|
    ensures h.item == rows[beam]
    ensures h.score == norm(logits[beam * p.vocabSize + p.eosToken] + lane.slots[beam].score, |rows[beam]|)
  {
  }

  lemma EndsPathMore(p: Params, prompt: seq<int>, norm: (real, nat) -> real, inputs: seq<Input>, states: seq<State>,
      b: nat, h: Hypothesis, path: seq<nat>, tokens: seq<int>, score: real)
    requires p.Valid() && b < p.batchSize && 0 <= p.eosToken && OnPath(p, inputs, path, tokens)
      && |path| == |tokens| + 1 && |tokens| < |inputs| && path[0] < p.numBeams
    requires |inputs[|tokens|].logits| == p.batchSize * (p.numBeams * p.vocabSize)
    requires 0 <= path[|tokens|] * p.vocabSize + p.eosToken < p.numBeams * p.vocabSize
    requires Descends(p, states, b, path, tokens) && h.item == prompt + tokens
    requires score == (if path[0] == 0 then 0.0 else -1000000000.0) + PathSum(p, inputs, b, path, tokens)
    requires h.score == norm(
      OwnLogits(p, inputs[|tokens|].logits, b)[path[|tokens|] * p.vocabSize + p.eosToken] + score, |h.item|)
    ensures EndsPath(p, prompt, norm, inputs, states, b, h, path + [0], tokens + [p.eosToken])
  {
    hide OnPath, PathSum, Descends, OwnLogits;
    PathMore(p, inputs, b, path, tokens, 0, p.eosToken);
    assert (path + [0])[..|path|] == path && (tokens + [p.eosToken])[..|tokens|] == tokens;
  }

  /** Every hypothesis that ended in a run scores the model's scores along one path of its beams. */
  lemma {:induction false} EndedScore(p: Params, prompts: seq<seq<int>>, init: State, s: nat,
      norm: (real, nat) -> real, inputs: seq<Input>, states: seq<State>, b: nat, t: nat, h: Hypothesis)
      returns (path: seq<nat>, tokens: seq<int>)
    requires Initial(p, prompts, s, init) && Run(p, init, s, norm, inputs, states) && t <= |inputs| && b < p.batchSize
    requires h in Ended(p, init, s, norm, inputs, states, b, t)
    ensures b < |prompts| && EndsPath(p, prompts[b], norm, inputs, states, b, h, path, tokens)
  {
    hide *;
    RunLength(p, init, s, norm, inputs, states);
    if t == 0 {
      EndedNone(p, init, s, norm, inputs, states, b);
    }
    EndedStep(p, init, s, norm, inputs, states, b, t);
    if h in Ended(p, init, s, norm, inputs, states, b, t - 1) {
      path, tokens := EndedScore(p, prompts, init, s, norm, inputs, states, b, t - 1, h);
    } else {
      var st, inp := states[t - 1], inputs[t - 1];
      RunAt(p, init, s, norm, inputs, states, t);
      RunInv(p, prompts, init, s, norm, inputs, states, t - 1);
      InvAt(p, prompts, st, s + (t - 1), b);
      ShapedIs(p, st, inp, b);
      EndingsAtIs(p, norm, st, inp, b);
      var beam := EndingOf(p, norm, st.lanes[b], OwnLogits(p, inp.logits, b), Block(p, st, b), inp.picks[b],
        p.numBeams, h);
      EndsBeamIs(p, norm, st.lanes[b], OwnLogits(p, inp.logits, b), Block(p, st, b), beam, h);
      var front, made := PathScore(p, prompts, init, s, norm, inputs, states, t - 1, b, beam);
      EndsPathMore(p, prompts[b], norm, inputs, states, b, h, front, made, st.lanes[b].slots[beam].score);
      path, tokens := front + [0], made + [p.eosToken];
    }
  }
}
