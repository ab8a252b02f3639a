/** What one step of the beam search means, batch entry by batch entry. */
module BeamScoring {
  import opened FlatRows
  import opened TokenSequences
  import opened Ranking
  import opened Hypotheses

  datatype Params = Params(batchSize: nat, numBeams: nat, vocabSize: nat, maxLength: nat, padToken: int, eosToken: int,
      earlyStopping: bool) {
    predicate Valid() { batchSize > 0 && numBeams > 1 && vocabSize > 1 }
  }

  /** One of the 2*numBeams best extensions of a batch entry; `beam` counts within the entry. */
  datatype Candidate = Candidate(score: real, token: int, beam: nat)

  /** One cell of the next_beam_* arrays; `parent` counts over all rows. */
  datatype Slot = Slot(score: real, token: int, parent: nat)

  type Hypothesis = Scored<seq<int>>

  /** All the scorer keeps for one batch entry: its finished hypotheses and its cells of the next_beam_* arrays. */
  datatype Lane = Lane(hyps: seq<Hypothesis>, done: bool, slots: seq<Slot>)

  predicate IsEos(eos: int, c: Candidate) { eos >= 0 && c.token == eos }

  /** Positions of the candidates that are, or are not, the end-of-sentence token, in rank order. */
  function Positions(eos: int, wanted: bool, cands: seq<Candidate>): (r: seq<nat>)
    ensures |r| <= |cands|
    ensures forall i :: 0 <= i < |r| ==> r[i] < |cands| && IsEos(eos, cands[r[i]]) == wanted
    ensures forall i, j :: 0 <= i < j < |r| ==> r[i] < r[j]
  {
    if cands == [] then []
    else
      var m := |cands| - 1;
      Positions(eos, wanted, cands[..m]) + if IsEos(eos, cands[m]) == wanted then [m] else []
  }

  /** The candidates that fill the next step's beams: the best numBeams that do not end the sentence. */
  function Survivors(p: Params, cands: seq<Candidate>): (r: seq<nat>)
    ensures |r| <= p.numBeams
    ensures forall i :: 0 <= i < |r| ==> r[i] < |cands| && !IsEos(p.eosToken, cands[r[i]])
    ensures forall i, j :: 0 <= i < j < |r| ==> r[i] < r[j]
  {
    Keep(p.numBeams, Positions(p.eosToken, false, cands))
  }

  /** The candidates that end a sentence and rank among the first numBeams. */
  function Finished(p: Params, cands: seq<Candidate>): (r: seq<nat>)
    ensures |r| <= p.numBeams
    ensures forall i :: 0 <= i < |r| ==> r[i] < |cands| && r[i] < p.numBeams && IsEos(p.eosToken, cands[r[i]])
  {
    Positions(p.eosToken, true, Keep(p.numBeams, cands))
  }

  lemma {:induction false} PositionsComplete(eos: int, wanted: bool, cands: seq<Candidate>, j: nat)
    requires j < |cands| && IsEos(eos, cands[j]) == wanted
    ensures j in Positions(eos, wanted, cands)
  {
    var m := |cands| - 1;
    if j < m {
      PositionsComplete(eos, wanted, cands[..m], j);
    }
  }

  lemma {:induction false} PositionsPrefix(eos: int, wanted: bool, cands: seq<Candidate>, m: nat)
    requires m <= |cands|
    ensures Positions(eos, wanted, cands[..m]) <= Positions(eos, wanted, cands)
  {
    if m < |cands| {
      PositionsPrefix(eos, wanted, cands[..|cands| - 1], m);
      assert cands[..|cands| - 1][..m] == cands[..m];
    } else {
      assert cands[..m] == cands;
    }
  }

  lemma {:induction false} PositionsSplit(eos: int, cands: seq<Candidate>)
    ensures |Positions(eos, true, cands)| + |Positions(eos, false, cands)| == |cands|
  {
    if cands != [] {
      PositionsSplit(eos, cands[..|cands| - 1]);
    }
  }

  /** Length-penalised hypotheses of the finished candidates. */
  function Completed(cands: seq<Candidate>, at: seq<nat>, rows: seq<seq<int>>, base: nat,
      norm: (real, nat) -> real): (r: seq<Hypothesis>)
    requires forall i :: 0 <= i < |at| ==> at[i] < |cands|
    requires forall c :: c in cands ==> base + c.beam < |rows|
    ensures |r| == |at|
  {
    seq(|at|, i requires 0 <= i < |at| =>
      var c := cands[at[i]];
      Scored(rows[base + c.beam], norm(c.score, |rows[base + c.beam]|)))
  }

  function Max(s: seq<real>): (m: real)
    requires s != []
    ensures forall i :: 0 <= i < |s| ==> s[i] <= m
    ensures exists i :: 0 <= i < |s| && s[i] == m
  {
    if |s| == 1 then assert s[0] == s[0]; s[0]
    else
      var m := Max(s[1..]);
      assert forall i :: 0 < i < |s| ==> s[i] == s[1..][i - 1];
      assert exists i :: 0 < i < |s| && s[i] == m by {
        var i :| 0 <= i < |s[1..]| && s[1..][i] == m;
        assert s[i + 1] == m;
      }
      if s[0] > m then s[0] else m
  }

  /** The candidates of one batch entry. */
  function Own(p: Params, cands: seq<Candidate>, batch: nat): (r: seq<Candidate>)
    requires batch < p.batchSize && |cands| == p.batchSize * (2 * p.numBeams)
    ensures |r| == 2 * p.numBeams
  {
    RowInside(batch, p.batchSize, 2 * p.numBeams);
    cands[batch * (2 * p.numBeams)..batch * (2 * p.numBeams) + 2 * p.numBeams]
  }

  /** The scores the improvement test looks at: a window that starts at batch * numBeams. */
  function TestedScores(p: Params, cands: seq<Candidate>, batch: nat): (r: seq<real>)
    requires batch < p.batchSize && |cands| == p.batchSize * (2 * p.numBeams)
    ensures |r| == 2 * p.numBeams
  {
    WindowInside(p, batch);
    seq(2 * p.numBeams, i requires 0 <= i < 2 * p.numBeams => cands[batch * p.numBeams + i].score)
  }

  lemma WindowInside(p: Params, batch: nat)
    requires batch < p.batchSize
    ensures batch * p.numBeams + 2 * p.numBeams <= p.batchSize * (2 * p.numBeams)
  {
    RowInside(batch, p.batchSize, 2 * p.numBeams);
    assert batch * (2 * p.numBeams) == batch * p.numBeams + batch * p.numBeams;
  }

  /** What a step asks of the candidates of one unfinished batch entry. */
  predicate GoodCandidates(p: Params, own: seq<Candidate>) {
    && |own| == 2 * p.numBeams
    && (forall c :: c in own ==> c.beam < p.numBeams)
    && |Survivors(p, own)| == p.numBeams
  }

  /** Would the best of these scores displace a stored hypothesis? */
  predicate Improvable<T>(hyps: seq<Scored<T>>, scores: seq<real>, length: nat, norm: (real, nat) -> real)
    requires scores != []
  {
    exists i :: 0 <= i < |hyps| && hyps[i].score < norm(Max(scores), length)
  }

  /** One batch entry after a step; `rows` are its own sequences and `base` the number of its first row. */
  function NextLane(p: Params, lane: Lane, own: seq<Candidate>, tested: seq<real>, rows: seq<seq<int>>, base: nat,
      length: nat, norm: (real, nat) -> real): (r: Lane)
    requires |rows| == p.numBeams && tested != []
    requires !lane.done ==> GoodCandidates(p, own)
    ensures |r.slots| == p.numBeams && (|lane.hyps| <= p.numBeams ==> |r.hyps| <= p.numBeams)
  {
    if lane.done then
      lane.(slots := seq(p.numBeams, _ => Slot(0.0, p.padToken, 0)))
    else
      var hyps := AddAll(p.numBeams, lane.hyps, Completed(own, Finished(p, own), rows, 0, norm));
      Lane(hyps,
           |hyps| == p.numBeams && (p.earlyStopping || !Improvable(hyps, tested, length, norm)),
           SlotsAt(own, Survivors(p, own), base))
  }

  /** The cells the chosen positions produce. */
  function SlotsAt(own: seq<Candidate>, at: seq<nat>, base: nat): (r: seq<Slot>)
    requires forall i :: 0 <= i < |at| ==> at[i] < |own|
    ensures |r| == |at|
  {
    seq(|at|, i requires 0 <= i < |at| => Slot(own[at[i]].score, own[at[i]].token, base + own[at[i]].beam))
  }

  // ----- choosing the candidates -----

  /** The k best positions of `scores`, best first, ties broken either way: what k pops of a max-heap deliver. */
  ghost predicate TopPicks(scores: seq<real>, picks: seq<nat>, k: nat) {
    && |picks| == k
    && (forall i :: 0 <= i < k ==> picks[i] < |scores|)
    && (forall i, j :: 0 <= i < j < k ==> picks[i] != picks[j])
    && (forall i, j :: 0 <= i < j < k ==> scores[picks[i]] >= scores[picks[j]])
    && (forall x, i :: 0 <= x < |scores| && x !in picks && 0 <= i < k ==> scores[x] <= scores[picks[i]])
  }

  /** A flat (beam, token) position read as a candidate. */
  function CandidateAt(vocab: nat, scores: seq<real>, flat: nat): Candidate
    requires vocab > 0 && flat < |scores|
  {
    Candidate(scores[flat], flat % vocab, flat / vocab)
  }

  function CandidatesOf(vocab: nat, scores: seq<real>, picks: seq<nat>): (r: seq<Candidate>)
    requires vocab > 0 && forall i :: 0 <= i < |picks| ==> picks[i] < |scores|
    ensures |r| == |picks|
  {
    seq(|picks|, i requires 0 <= i < |picks| => CandidateAt(vocab, scores, picks[i]))
  }

  /** Distinct numbers below n: there are at most n of them. */
  lemma Pigeonhole(s: seq<nat>, n: nat)
    requires forall i :: 0 <= i < |s| ==> s[i] < n
    requires forall i, j :: 0 <= i < j < |s| ==> s[i] != s[j]
    ensures |s| <= n
  {
    var mine := set i | 0 <= i < |s| :: s[i];
    SeqSize(s);
    assert mine <= Below(n);
    SubsetSize(mine, Below(n));
  }

  function Below(n: nat): (r: set<nat>)
    ensures |r| == n && forall x: nat :: x in r <==> x < n
  {
    if n == 0 then {} else Below(n - 1) + {n - 1}
  }

  lemma {:induction false} SeqSize(s: seq<nat>)
    requires forall i, j :: 0 <= i < j < |s| ==> s[i] != s[j]
    ensures |(set i | 0 <= i < |s| :: s[i])| == |s|
  {
    if s != [] {
      var t := s[..|s| - 1];
      SeqSize(t);
      assert (set i | 0 <= i < |s| :: s[i]) == (set i | 0 <= i < |t| :: t[i]) + {s[|s| - 1]};
    }
  }

  lemma SubsetSize<T>(a: set<T>, b: set<T>)
    requires a <= b
    ensures |a| <= |b|
  {
    assert b == a + (b - a);
  }

  lemma SameBeamSameToken(a: nat, b: nat, v: nat)
    requires v > 0 && a % v == b % v && a / v == b / v
    ensures a == b
  {
    assert a == v * (a / v) + a % v && b == v * (b / v) + b % v;
  }

  lemma EosBeamsDiffer(p: Params, scores: seq<real>, picks: seq<nat>, i: nat, j: nat)
    requires p.vocabSize > 0 && TopPicks(scores, picks, |picks|) && i < j < |picks|
    requires IsEos(p.eosToken, CandidateAt(p.vocabSize, scores, picks[i]))
      && IsEos(p.eosToken, CandidateAt(p.vocabSize, scores, picks[j]))
    ensures picks[i] / p.vocabSize != picks[j] / p.vocabSize
  {
    if picks[i] / p.vocabSize == picks[j] / p.vocabSize {
      SameBeamSameToken(picks[i], picks[j], p.vocabSize);
    }
  }

  /** Each beam has one end-of-sentence extension, so at most numBeams candidates end the sentence. */
  lemma AtMostOneEosPerBeam(p: Params, scores: seq<real>, picks: seq<nat>)
    requires p.Valid() && |scores| == p.numBeams * p.vocabSize && TopPicks(scores, picks, 2 * p.numBeams)
    ensures |Positions(p.eosToken, true, CandidatesOf(p.vocabSize, scores, picks))| <= p.numBeams
  {
    var cands := CandidatesOf(p.vocabSize, scores, picks);
    var at := Positions(p.eosToken, true, cands);
    var beams := seq(|at|, i requires 0 <= i < |at| => picks[at[i]] / p.vocabSize);
    forall i | 0 <= i < |at| ensures beams[i] < p.numBeams {
      BatchOf(picks[at[i]], p.numBeams, p.vocabSize);
    }
    forall i, j | 0 <= i < j < |at| ensures beams[i] != beams[j] {
      EosBeamsDiffer(p, scores, picks, at[i], at[j]);
    }
    Pigeonhole(beams, p.numBeams);
  }

  /** Every step on an unfinished batch entry fills exactly numBeams slots, each from one of its own beams. */
  lemma PicksAreGood(p: Params, scores: seq<real>, picks: seq<nat>)
    requires p.Valid() && |scores| == p.numBeams * p.vocabSize && TopPicks(scores, picks, 2 * p.numBeams)
    ensures GoodCandidates(p, CandidatesOf(p.vocabSize, scores, picks))
  {
    var own := CandidatesOf(p.vocabSize, scores, picks);
    forall c | c in own ensures c.beam < p.numBeams {
      var i :| 0 <= i < |own| && own[i] == c;
      BatchOf(picks[i], p.numBeams, p.vocabSize);
    }
    AtMostOneEosPerBeam(p, scores, picks);
    PositionsSplit(p.eosToken, own);
  }

  /** The survivors are the best numBeams sentence-continuing extensions among all numBeams*vocabSize of them,
      in non-increasing score order. */
  lemma SurvivorsAreBest(p: Params, scores: seq<real>, picks: seq<nat>)
    requires p.Valid() && |scores| == p.numBeams * p.vocabSize && TopPicks(scores, picks, 2 * p.numBeams)
    ensures var own := CandidatesOf(p.vocabSize, scores, picks);
      var s := Survivors(p, own);
      && |s| == p.numBeams
      && (forall i, j :: 0 <= i < j < |s| ==> picks[s[i]] != picks[s[j]] && own[s[i]].score >= own[s[j]].score)
      && (forall x, i :: 0 <= x < |scores| && 0 <= i < |s| && !IsEos(p.eosToken, CandidateAt(p.vocabSize, scores, x))
            && (forall j :: 0 <= j < |s| ==> picks[s[j]] != x)
            ==> scores[x] <= own[s[i]].score)
  {
    PicksAreGood(p, scores, picks);
    var own := CandidatesOf(p.vocabSize, scores, picks);
    var s := Survivors(p, own);
    var all := Positions(p.eosToken, false, own);
    assert forall j :: 0 <= j < |s| ==> s[j] == all[j];
    forall x, i | 0 <= x < |scores| && 0 <= i < |s| && !IsEos(p.eosToken, CandidateAt(p.vocabSize, scores, x))
        && (forall j :: 0 <= j < |s| ==> picks[s[j]] != x)
      ensures scores[x] <= own[s[i]].score
    {
      if x in picks {
        var k :| 0 <= k < |picks| && picks[k] == x;
        assert own[k] == CandidateAt(p.vocabSize, scores, x);
        PositionsComplete(p.eosToken, false, own, k);
        var j :| 0 <= j < |all| && all[j] == k;
        assert j >= |s|;
        assert all[i] < all[j];
        assert scores[picks[all[j]]] <= scores[picks[all[i]]];
      }
    }
  }

  // ----- the scores the end-of-entry test should look at -----

  function OwnScores(p: Params, cands: seq<Candidate>, batch: nat): (r: seq<real>)
    requires batch < p.batchSize && |cands| == p.batchSize * (2 * p.numBeams)
    ensures |r| == 2 * p.numBeams
  {
    var own := Own(p, cands, batch);
    seq(|own|, i requires 0 <= i < |own| => own[i].score)
  }

  /** The first batch entry's window is its own block. */
  lemma FirstWindowIsOwn(p: Params, cands: seq<Candidate>)
    requires p.Valid() && |cands| == p.batchSize * (2 * p.numBeams)
    ensures TestedScores(p, cands, 0) == OwnScores(p, cands, 0)
  {
    var n := p.numBeams;
    WindowInside(p, 0);
    var a, b := TestedScores(p, cands, 0), OwnScores(p, cands, 0);
    assert 0 * n == 0 && 0 * (2 * n) == 0;
    assert Own(p, cands, 0) == cands[..2 * n];
    forall i | 0 <= i < 2 * n ensures a[i] == b[i] {
      assert a[i] == cands[0 * n + i].score;
      assert b[i] == cands[..2 * n][i].score;
    }
  }
}
