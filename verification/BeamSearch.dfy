/** The CPU beam search: SelectTop ranks all extensions and advances scorer and sequences together. */
module BeamSearchCpu {
  import opened FlatRows
  import opened TokenSequences
  import opened BeamScoring
  import opened Scorer
  import opened BeamRun
  import opened BeamInvariants

  // ----- the priority queue -----

  /** v is in the queue and nothing in it scores higher. */
  predicate IsTop(scores: seq<real>, queue: set<nat>, v: nat)
    requires forall x :: x in queue ==> x < |scores|
  {
    v in queue && forall x :: x in queue ==> scores[x] <= scores[v]
  }

  lemma {:induction false} TopExists(scores: seq<real>, queue: set<nat>)
    requires queue != {} && forall x :: x in queue ==> x < |scores|
    ensures exists v :: v in queue && IsTop(scores, queue, v)
  {
    var v :| v in queue;
    var rest := queue - {v};
    assert queue == rest + {v};
    if rest == {} {
      assert IsTop(scores, queue, v);
    } else {
      TopExists(scores, rest);
      var w :| w in rest && IsTop(scores, rest, w);
      assert IsTop(scores, queue, if scores[v] >= scores[w] then v else w);
    }
  }

  /** All positions are pushed, then the k best are popped; among equal scores any may come first. */
  method PopTop(scores: seq<real>, k: nat) returns (picks: seq<nat>)
    requires k <= |scores|
    ensures TopPicks(scores, picks, k)
  {
    hide *;
    var queue: set<nat> := Below(|scores|);
    picks := [];
    NonePopped(scores, queue);
    for i := 0 to k
      invariant |picks| == i && |queue| == |scores| - i
      invariant forall x :: x in queue ==> x < |scores|
      invariant Queued(scores, queue, picks) && TopPicks(scores, picks, i)
    {
      TopExists(scores, queue);
      var v: nat :| v in queue && IsTop(scores, queue, v);
      OnePopped(scores, queue, picks, v);
      queue := queue - {v};
      picks := picks + [v];
    }
  }

  /** The queue holds what has not been picked. */
  ghost predicate Queued(scores: seq<real>, queue: set<nat>, picks: seq<nat>) {
    forall x: nat :: x < |scores| ==> (x in queue <==> x !in picks)
  }

  lemma NonePopped(scores: seq<real>, queue: set<nat>)
    requires forall x: nat :: x in queue <==> x < |scores|
    ensures Queued(scores, queue, []) && TopPicks(scores, [], 0)
  {
  }

  lemma OnePopped(scores: seq<real>, queue: set<nat>, picks: seq<nat>, v: nat)
    requires forall x :: x in queue ==> x < |scores|
    requires Queued(scores, queue, picks) && TopPicks(scores, picks, |picks|) && IsTop(scores, queue, v)
    ensures Queued(scores, queue - {v}, picks + [v]) && TopPicks(scores, picks + [v], |picks| + 1)
  {
  }

  /** The candidates the picks stand for, as the three parallel buffers hold them. */
  method Split(scores: seq<real>, picks: seq<nat>, vocab: nat)
      returns (nextScores: seq<real>, nextTokens: seq<int>, nextIndices: seq<nat>)
    requires vocab > 0 && forall i :: 0 <= i < |picks| ==> picks[i] < |scores|
    ensures |nextScores| == |nextTokens| == |nextIndices| == |picks|
    ensures Zip(nextScores, nextTokens, nextIndices) == CandidatesOf(vocab, scores, picks)
  {
    nextScores, nextTokens, nextIndices := [], [], [];
    for i := 0 to |picks|
      invariant |nextScores| == |nextTokens| == |nextIndices| == i
      invariant Zip(nextScores, nextTokens, nextIndices) == CandidatesOf(vocab, scores, picks[..i])
    {
      ghost var zipped := Zip(nextScores, nextTokens, nextIndices);
      nextIndices := nextIndices + [picks[i] / vocab];
      nextTokens := nextTokens + [picks[i] % vocab];
      nextScores := nextScores + [scores[picks[i]]];
      assert Zip(nextScores, nextTokens, nextIndices) == zipped + [CandidateAt(vocab, scores, picks[i])];
      assert CandidatesOf(vocab, scores, picks[..i + 1])
        == CandidatesOf(vocab, scores, picks[..i]) + [CandidateAt(vocab, scores, picks[i])];
    }
    assert picks[..|picks|] == picks;
  }

  // ----- adding the beam scores -----

  function Raised(row: seq<real>, amount: real): (r: seq<real>)
    ensures |r| == |row|
  {
    seq(|row|, k requires 0 <= k < |row| => row[k] + amount)
  }

  method AddToRow(scores: array<real>, start: nat, count: nat, beamScore: real)
    requires start + count <= scores.Length
    modifies scores
    ensures scores[..] == Splice(old(scores[..]), start, Raised(old(scores[start..start + count]), beamScore))
  {
    for k := 0 to count
      invariant forall i :: start <= i < start + k ==> scores[i] == old(scores[i]) + beamScore
      invariant forall i :: 0 <= i < scores.Length && !(start <= i < start + k) ==> scores[i] == old(scores[i])
    {
      scores[start + k] := scores[start + k] + beamScore;
    }
  }

  lemma StepScoresRow(p: Params, lane: Lane, logits: seq<real>, j: nat)
    requires p.Valid() && |lane.slots| == p.numBeams && |logits| == p.numBeams * p.vocabSize && j < p.numBeams
    ensures j * p.vocabSize + p.vocabSize <= |logits| && (j + 1) * p.vocabSize == j * p.vocabSize + p.vocabSize
    ensures StepScores(p, lane, logits)[..(j + 1) * p.vocabSize]
         == StepScores(p, lane, logits)[..j * p.vocabSize]
           + Raised(logits[j * p.vocabSize..j * p.vocabSize + p.vocabSize], lane.slots[j].score)
  {
    RowInside(j, p.numBeams, p.vocabSize);
    var a, b := StepScores(p, lane, logits)[..(j + 1) * p.vocabSize],
      Raised(logits[j * p.vocabSize..j * p.vocabSize + p.vocabSize], lane.slots[j].score);
    forall k | 0 <= k < p.vocabSize ensures a[j * p.vocabSize + k] == b[k] {
      RowOf(j, k, p.vocabSize);
    }
  }

  /** The first j rows of a batch entry's block, raised by their beams' scores. */
  function RaisedRows(p: Params, lane: Lane, logits: seq<real>, j: nat): (r: seq<real>)
    requires j <= |lane.slots|
  {
    if j == 0 then []
    else
      var done := RaisedRows(p, lane, logits, j - 1);
      if |done| + p.vocabSize <= |logits|
        then done + Raised(logits[|done|..|done| + p.vocabSize], lane.slots[j - 1].score) else []
  }

  lemma {:induction false} RaisedRowsAre(p: Params, lane: Lane, logits: seq<real>, j: nat)
    requires p.Valid() && |lane.slots| == p.numBeams && |logits| == p.numBeams * p.vocabSize && j <= p.numBeams
    ensures |RaisedRows(p, lane, logits, j)| == j * p.vocabSize <= |logits|
    ensures j < p.numBeams ==> |RaisedRows(p, lane, logits, j)| + p.vocabSize <= |logits|
    ensures RaisedRows(p, lane, logits, j) == StepScores(p, lane, logits)[..j * p.vocabSize]
  {
    hide *;
    Monotone(j, p.numBeams, p.vocabSize);
    if j < p.numBeams { RowInside(j, p.numBeams, p.vocabSize); }
    if j == 0 {
      RowsNone(p, lane, logits);
    } else {
      RaisedRowsAre(p, lane, logits, j - 1);
      RaisedRowsStep(p, lane, logits, j - 1);
      StepScoresRow(p, lane, logits, j - 1);
    }
  }

  /** The two inner loops of SelectTop's first loop. */
  method AddBeamScores(p: Params, scores: array<real>, beamScores: array<real>, base: nat, start: nat,
      ghost block: nat, ghost lane: Lane)
    requires p.Valid() && scores != beamScores && |lane.slots| == p.numBeams && block == p.numBeams * p.vocabSize
    requires base + p.numBeams <= beamScores.Length && start + block <= scores.Length
    requires beamScores[base..base + p.numBeams] == SlotScores(lane.slots)
    modifies scores
    ensures scores[..] == Splice(old(scores[..]), start, StepScores(p, lane, old(scores[start..start + block])))
  {
    hide *;
    ghost var before, own := scores[..], scores[start..start + block];
    var offset := start;
    SpliceNone(before, start);
    RowsNone(p, lane, own);
    for j := 0 to p.numBeams
      invariant offset == start + |RaisedRows(p, lane, own, j)| <= |before|
      invariant scores[..] == Splice(before, start, RaisedRows(p, lane, own, j))
    {
      RaisedRowsAre(p, lane, own, j);
      RowsMore(p, lane, before, start, block, j);
      SlotScoreAt(lane.slots, j);
      assert beamScores[base + j] == beamScores[base..base + p.numBeams][j];
      AddOneBeam(scores, before, start, RaisedRows(p, lane, own, j), offset, p.vocabSize, beamScores[base + j]);
      offset := offset + p.vocabSize;
    }
    RaisedRowsAre(p, lane, own, p.numBeams);
    assert StepScores(p, lane, own)[..block] == StepScores(p, lane, own);
  }

  lemma SlotScoreAt(slots: seq<Slot>, j: nat)
    requires j < |slots|
    ensures SlotScores(slots)[j] == slots[j].score
  {
  }

  lemma RowsNone(p: Params, lane: Lane, logits: seq<real>)
    ensures RaisedRows(p, lane, logits, 0) == []
  {
  }

  lemma RowsMore(p: Params, lane: Lane, before: seq<real>, start: nat, block: nat, j: nat)
    requires start + block <= |before| && j < |lane.slots|
    requires |RaisedRows(p, lane, before[start..start + block], j)| + p.vocabSize <= block
    ensures var finished := RaisedRows(p, lane, before[start..start + block], j);
      && RaisedRows(p, lane, before[start..start + block], j + 1)
         == finished + Raised(before[start + |finished|..start + |finished| + p.vocabSize], lane.slots[j].score)
      && |RaisedRows(p, lane, before[start..start + block], j + 1)| == |finished| + p.vocabSize
  {
    hide *;
    var own := before[start..start + block];
    var m := |RaisedRows(p, lane, own, j)|;
    RaisedRowsStep(p, lane, own, j);
    SliceOfSlice(before, start, block, m, p.vocabSize);
  }

  lemma SliceOfSlice<T>(flat: seq<T>, start: nat, size: nat, from: nat, count: nat)
    requires start + size <= |flat| && from + count <= size
    ensures flat[start..start + size][from..from + count] == flat[start + from..start + from + count]
  {
    var a, b := flat[start..start + size][from..from + count], flat[start + from..start + from + count];
    forall i | 0 <= i < count ensures a[i] == b[i] { }
  }

  lemma RaisedRowsStep(p: Params, lane: Lane, logits: seq<real>, j: nat)
    requires j < |lane.slots| && |RaisedRows(p, lane, logits, j)| + p.vocabSize <= |logits|
    ensures var m := |RaisedRows(p, lane, logits, j)|;
      RaisedRows(p, lane, logits, j + 1)
        == RaisedRows(p, lane, logits, j) + Raised(logits[m..m + p.vocabSize], lane.slots[j].score)
  {
    hide Raised;
  }

  /** One beam's row, behind the rows already done. */
  method AddOneBeam(scores: array<real>, ghost before: seq<real>, ghost start: nat, ghost finished: seq<real>,
      offset: nat, count: nat, beamScore: real)
    requires |before| == scores.Length && start + |finished| == offset && offset + count <= scores.Length
    requires scores[..] == Splice(before, start, finished)
    modifies scores
    ensures scores[..] == Splice(before, start, finished + Raised(before[offset..offset + count], beamScore))
  {
    SpliceTail(before, start, finished, offset, count);
    SpliceTwice(before, start, finished, Raised(before[offset..offset + count], beamScore));
    AddToRow(scores, offset, count, beamScore);
  }

  lemma SpliceTail<T>(flat: seq<T>, pos: nat, data: seq<T>, from: nat, count: nat)
    requires pos + |data| <= from && from + count <= |flat|
    ensures Splice(flat, pos, data)[from..from + count] == flat[from..from + count]
  {
  }

  /** SelectTop's first loop: each batch entry's block becomes its extensions' scores. */
  method AddAllBeamScores(p: Params, scores: array<real>, beamScores: array<real>, ghost lanes: seq<Lane>)
    requires p.Valid() && Fits(p, lanes) && scores != beamScores
    requires scores.Length == p.batchSize * (p.numBeams * p.vocabSize) && beamScores.Length == p.batchSize * p.numBeams
    requires BeamScoresAre(p, beamScores[..], lanes)
    modifies scores
    ensures forall b :: 0 <= b < p.batchSize ==>
      OwnLogits(p, scores[..], b) == StepScores(p, lanes[b], OwnLogits(p, old(scores[..]), b))
  {
    hide StepScores;
    for i := 0 to p.batchSize
      invariant forall b :: 0 <= b < i ==>
        OwnLogits(p, scores[..], b) == StepScores(p, lanes[b], OwnLogits(p, old(scores[..]), b))
      invariant forall b :: i <= b < p.batchSize ==> OwnLogits(p, scores[..], b) == OwnLogits(p, old(scores[..]), b)
    {
      AddBatch(p, scores, beamScores, i, lanes);
    }
  }

  ghost predicate BeamScoresAre(p: Params, beamScores: seq<real>, lanes: seq<Lane>)
    requires Fits(p, lanes) && |beamScores| == p.batchSize * p.numBeams
  {
    forall b :: 0 <= b < p.batchSize ==>
      Row(beamScores, p.numBeams, p.numBeams, BlockIn(b, p)) == SlotScores(lanes[b].slots)
  }

  lemma RowIs(flat: seq<real>, width: nat, i: nat)
    requires i * width + width <= |flat|
    ensures Row(flat, width, width, i) == flat[i * width..i * width + width]
  {
  }

  lemma BeamScoresMade(p: Params, beamScores: seq<real>, lanes: seq<Lane>)
    requires Fits(p, lanes) && |beamScores| == p.batchSize * p.numBeams
    requires forall b :: 0 <= b < p.batchSize ==>
      Row(beamScores, p.numBeams, p.numBeams, BlockIn(b, p)) == SlotScores(lanes[b].slots)
    ensures BeamScoresAre(p, beamScores, lanes)
  {
    hide Row, SlotScores, BlockIn, Fits;
  }

  method AddBatch(p: Params, scores: array<real>, beamScores: array<real>, i: nat, ghost lanes: seq<Lane>)
    requires p.Valid() && Fits(p, lanes) && scores != beamScores && i < p.batchSize
    requires scores.Length == p.batchSize * (p.numBeams * p.vocabSize) && beamScores.Length == p.batchSize * p.numBeams
    requires BeamScoresAre(p, beamScores[..], lanes)
    modifies scores
    ensures OwnLogits(p, scores[..], i) == StepScores(p, lanes[i], OwnLogits(p, old(scores[..]), i))
    ensures forall b :: 0 <= b < p.batchSize && b != i ==>
      OwnLogits(p, scores[..], b) == OwnLogits(p, old(scores[..]), b)
  {
    hide *;
    ghost var before := scores[..];
    var base := BlockIn(i, p) * p.numBeams;
    var block := p.numBeams * p.vocabSize;
    ScoresOfBatch(p, beamScores[..], lanes, i);
    OwnLogitsIs(p, before, i);
    AddBeamScores(p, scores, beamScores, base, i * block, block, lanes[i]);
    OwnLogitsSplice(p, before, i, StepScores(p, lanes[i], OwnLogits(p, before, i)));
  }

  lemma ScoresOfBatch(p: Params, beamScores: seq<real>, lanes: seq<Lane>, i: nat)
    requires Fits(p, lanes) && |beamScores| == p.batchSize * p.numBeams && i < p.batchSize
      && BeamScoresAre(p, beamScores, lanes)
    ensures i * p.numBeams + p.numBeams <= |beamScores| && |lanes| == p.batchSize && |lanes[i].slots| == p.numBeams
    ensures beamScores[i * p.numBeams..i * p.numBeams + p.numBeams] == SlotScores(lanes[i].slots)
  {
    hide SlotScores;
    var r := BlockIn(i, p);
  }

  lemma OwnLogitsIs(p: Params, scores: seq<real>, b: nat)
    requires b < p.batchSize && |scores| == p.batchSize * (p.numBeams * p.vocabSize)
    ensures var block := p.numBeams * p.vocabSize;
      b * block + block <= |scores| && OwnLogits(p, scores, b) == scores[b * block..b * block + block]
  {
    RowInside(b, p.batchSize, p.numBeams * p.vocabSize);
  }

  lemma OwnLogitsSplice(p: Params, before: seq<real>, i: nat, data: seq<real>)
    requires i < p.batchSize && |before| == p.batchSize * (p.numBeams * p.vocabSize)
      && |data| == p.numBeams * p.vocabSize
    ensures i * |data| + |data| <= |before|
    ensures var after := Splice(before, i * |data|, data);
      OwnLogits(p, after, i) == data && forall b :: 0 <= b < p.batchSize && b != i ==>
        OwnLogits(p, after, b) == OwnLogits(p, before, b)
  {
    hide Splice, Row;
    var block := p.numBeams * p.vocabSize;
    RowInside(i, p.batchSize, block);
    SpliceRow(before, block, i, p.batchSize, data);
    forall b | 0 <= b < p.batchSize
      && b != i ensures OwnLogits(p, Splice(before, i * |data|, data), b) == OwnLogits(p, before, b) {
      RowInside(b, p.batchSize, block);
      assert Row(Splice(before, i * block, data), block, block, b) == Row(before, block, block, b);
    }
  }

  ghost function Concat<T>(xs: seq<seq<T>>): seq<T> {
    if xs == [] then [] else Concat(xs[..|xs| - 1]) + xs[|xs| - 1]
  }

  lemma {:induction false} FlatIsConcat(p: Params, st: State, inp: Input, cs: seq<seq<Candidate>>, k: nat)
    requires Shaped(p, st) && Legal(p, st, inp) && k == |cs| <= p.batchSize
    requires forall b :: 0 <= b < k ==> cs[b] == CandidatesAt(p, st, inp, b)
    ensures Flat(p, st, inp, k) == Concat(cs)
  {
    hide Legal, CandidatesAt;
    if k > 0 {
      FlatIsConcat(p, st, inp, cs[..k - 1], k - 1);
    }
  }

  lemma ZipAppend(a: seq<real>, b: seq<int>, c: seq<nat>, x: seq<real>, y: seq<int>, z: seq<nat>)
    requires |a| == |b| == |c| && |x| == |y| == |z|
    ensures Zip(a + x, b + y, c + z) == Zip(a, b, c) + Zip(x, y, z)
  {
  }

  /** Batch entry b's picks, and the candidates they stand for. */
  ghost predicate RankedAt(p: Params, scores: seq<real>, b: nat, picks: seq<nat>, c: seq<Candidate>) {
    && p.Valid() && b < p.batchSize && |scores| == p.batchSize * (p.numBeams * p.vocabSize)
    && TopPicks(OwnLogits(p, scores, b), picks, 2 * p.numBeams)
    && c == CandidatesOf(p.vocabSize, OwnLogits(p, scores, b), picks)
  }

  /** SelectTop's second loop: the best 2*numBeams extensions of every batch entry. */
  method RankAll(p: Params, scores: array<real>)
    returns (ghost picks: seq<seq<nat>>, ghost cs: seq<seq<Candidate>>, nextScores: seq<real>, nextTokens: seq<int>,
      nextIndices: seq<nat>)
    requires p.Valid() && scores.Length == p.batchSize * (p.numBeams * p.vocabSize)
    ensures |picks| == |cs| == p.batchSize && |nextScores| == |nextTokens| == |nextIndices|
    ensures forall b :: 0 <= b < p.batchSize ==> RankedAt(p, scores[..], b, picks[b], cs[b])
    ensures Zip(nextScores, nextTokens, nextIndices) == Concat(cs)
  {
    hide *;
    picks, cs, nextScores, nextTokens, nextIndices := [], [], [], [], [];
    ZipNone();
    for b := 0 to p.batchSize
      invariant |picks| == |cs| == b && |nextScores| == |nextTokens| == |nextIndices|
      invariant forall a :: 0 <= a < b ==> RankedAt(p, scores[..], a, picks[a], cs[a])
      invariant Zip(nextScores, nextTokens, nextIndices) == Concat(cs)
    {
      var top, s, t, i := RankBatch(p, scores, b);
      ZipAppend(nextScores, nextTokens, nextIndices, s, t, i);
      nextScores, nextTokens, nextIndices := nextScores + s, nextTokens + t, nextIndices + i;
      ghost var c := Zip(s, t, i);
      ConcatMore(cs, c);
      picks, cs := picks + [top], cs + [c];
    }
  }

  lemma ConcatMore<T>(xs: seq<seq<T>>, x: seq<T>)
    ensures Concat(xs + [x]) == Concat(xs) + x
  {
    assert (xs + [x])[..|xs|] == xs;
  }

  lemma ZipNone()
    ensures Zip([], [], []) == Concat([])
  {
  }

  method RankBatch(p: Params, scores: array<real>, b: nat)
      returns (picks: seq<nat>, nextScores: seq<real>, nextTokens: seq<int>, nextIndices: seq<nat>)
    requires p.Valid() && b < p.batchSize && scores.Length == p.batchSize * (p.numBeams * p.vocabSize)
    ensures |nextScores| == |nextTokens| == |nextIndices|
    ensures RankedAt(p, scores[..], b, picks, Zip(nextScores, nextTokens, nextIndices))
  {
    var block := p.numBeams * p.vocabSize;
    Monotone(2, p.vocabSize, p.numBeams);
    RowInside(b, p.batchSize, block);
    var sub := scores[b * block..b * block + block];
    assert sub == OwnLogits(p, scores[..], b);
    picks := PopTop(sub, 2 * p.numBeams);
    nextScores, nextTokens, nextIndices := Split(sub, picks, p.vocabSize);
  }

  lemma {:induction false} RepeatAdds(k: nat, x: nat, y: nat)
    ensures Repeat(k, x) + Repeat(k, y) == Repeat(k, x + y)
  {
    if k > 0 { RepeatAdds(k - 1, x, y); }
  }

  lemma {:induction false} RepeatMonotone(k: nat, x: nat, y: nat)
    requires x <= y
    ensures Repeat(k, x) <= Repeat(k, y)
  {
    if k > 0 { RepeatMonotone(k - 1, x, y); }
  }

  /** Room for every clone: what earlier steps may have used and what one more step may use fit the buffer. */
  lemma TokensStep(s: nat, length: nat)
    requires s <= length
    ensures Tokens(s, length + 1) == Tokens(s, length) + length
  {
  }

  lemma RoomForStep(p: Params, s: nat, length: nat)
    requires s <= length <= p.maxLength
    ensures Repeat(p.batchSize, Repeat(p.numBeams, Tokens(s, length))) + Repeat(p.batchSize, Repeat(p.numBeams, length))
         == Repeat(p.batchSize, Repeat(p.numBeams, Tokens(s, length + 1)))
    ensures Repeat(p.batchSize, Repeat(p.numBeams, Tokens(s, length + 1))) <= Capacity(p, s)
  {
    hide *;
    CapacityIs(p, s);
    TokensStep(s, length);
    RepeatAdds(p.numBeams, Tokens(s, length), length);
    RepeatAdds(p.batchSize, Repeat(p.numBeams, Tokens(s, length)), Repeat(p.numBeams, length));
    TokensGrow(s, length + 1, p.maxLength + 1);
    RepeatMonotone(p.numBeams, Tokens(s, length + 1), Tokens(s, p.maxLength + 1));
    RepeatMonotone(p.batchSize, Repeat(p.numBeams, Tokens(s, length + 1)),
      Repeat(p.numBeams, Tokens(s, p.maxLength + 1)));
  }

  lemma RankedLegal(p: Params, st: State, inp: Input, raised: seq<real>, cs: seq<seq<Candidate>>)
    requires Shaped(p, st) && |inp.logits| == |raised| == p.batchSize * (p.numBeams * p.vocabSize)
      && |inp.picks| == |cs| == p.batchSize
    requires forall b :: 0 <= b < p.batchSize ==>
      OwnLogits(p, raised, b) == StepScores(p, st.lanes[b], OwnLogits(p, inp.logits, b))
    requires forall b :: 0 <= b < p.batchSize ==> RankedAt(p, raised, b, inp.picks[b], cs[b])
    ensures Legal(p, st, inp) && Flat(p, st, inp, p.batchSize) == Concat(cs)
  {
    hide StepScores, TopPicks;
    forall b | 0 <= b < p.batchSize ensures LegalAt(p, st, inp, b) {
      assert RankedAt(p, raised, b, inp.picks[b], cs[b]);
    }
    forall b | 0 <= b < p.batchSize ensures cs[b] == CandidatesAt(p, st, inp, b) {
      assert RankedAt(p, raised, b, inp.picks[b], cs[b]);
    }
    FlatIsConcat(p, st, inp, cs, p.batchSize);
  }

  class BeamSearch {
    const p: Params
    const norm: (real, nat) -> real
    const promptLength: nat
    const scorer: BeamSearchScorer
    const sequences: Sequences
    var nextTokenScores: array<real>
    var done: bool

    /** Constant relations between the parts. */
    ghost predicate Linked()
      reads sequences
    {
      && p.Valid() && scorer.Shape() && scorer.p == p && scorer.norm == norm
      && scorer.hypothesisBuffer.Length == Capacity(p, promptLength)
      && sequences.Valid() && sequences.Doubled() && sequences.batchBeamSize == p.batchSize * p.numBeams
      && sequences.maxLength == p.maxLength && promptLength <= sequences.currentLength
      && scorer.Apart(sequences.sequences) && scorer.Apart(sequences.sequencesNext) && sequences !in scorer.hyps
      && scorer !in scorer.hyps && this !in scorer.hyps
    }

    /** How much of the hypothesis buffer a run may have used by now. */
    ghost function Room(): nat
      reads sequences
    {
      Repeat(p.batchSize, Repeat(p.numBeams, Tokens(promptLength, sequences.currentLength)))
    }

    ghost predicate Valid()
      reads sequences, scorer, scorer.hyps, scorer.hypothesisBuffer
    {
      && Linked() && scorer.Lists() && scorer.notDoneCount == Unfinished(scorer.Batches())
      && scorer.hypothesisBufferUsed <= Room()
    }

    ghost function Current(): State
      reads sequences, sequences.sequences, scorer, scorer.hyps, scorer.hypothesisBuffer,
        scorer.nextBeamScores, scorer.nextBeamTokens, scorer.nextBeamIndices
      requires Valid()
    {
      State(sequences.Content(), scorer.Lanes())
    }

    constructor (p: Params, inputIds: seq<int>, norm: (real, nat) -> real)
      requires p.Valid() && p.batchSize > 0 && p.numBeams > 1
      requires |inputIds| / p.batchSize * p.batchSize == |inputIds| && |inputIds| / p.batchSize <= p.maxLength
      ensures Valid() && !done && this.p == p && this.norm == norm && promptLength == |inputIds| / p.batchSize
      ensures p.batchSize * promptLength == |inputIds|
        && Initial(p, Rows(inputIds, promptLength, promptLength, p.batchSize), promptLength, Current())
      ensures sequences.currentLength == promptLength && fresh(sequences) && fresh(sequences.sequences)
        && fresh(sequences.sequencesNext)
      ensures fresh(scorer) && fresh(scorer.hyps) && fresh(scorer.hypothesisBuffer)
      ensures fresh(scorer.nextBeamScores) && fresh(scorer.nextBeamTokens) && fresh(scorer.nextBeamIndices)
    {
      hide *;
      this.p, this.norm, promptLength := p, norm, |inputIds| / p.batchSize;
      sequences := new Sequences(inputIds, p.batchSize, p.numBeams, p.maxLength);
      scorer := new BeamSearchScorer(p, norm, |inputIds| / p.batchSize);
      nextTokenScores := new real[0];
      done := false;
      new;
      LinkedAtStart();
      StartIsInitial(inputIds);
    }

    /** The model's output for every row and token. */
    method SetLogits(logits: array<real>)
      requires Valid()
      modifies this`nextTokenScores
      ensures Valid() && nextTokenScores == logits && Current() == old(Current())
    {
      hide *;
      Outside();
      nextTokenScores := logits;
    }

    lemma Outside()
      requires Valid()
      ensures this !in scorer.hyps
    {
    }

    lemma LinkedAtStart()
      requires p.Valid() && scorer.Shape() && scorer.p == p && scorer.norm == norm && promptLength <= p.maxLength
      requires scorer.hypothesisBuffer.Length == Capacity(p, promptLength)
      requires sequences.Valid() && sequences.Doubled() && sequences.batchBeamSize == p.batchSize * p.numBeams
      requires sequences.maxLength == p.maxLength && promptLength == sequences.currentLength
      requires sequences.sequences !in scorer.hyps && sequences.sequencesNext !in scorer.hyps
        && sequences !in scorer.hyps
      requires this !in scorer.hyps
      requires {sequences.sequences, sequences.sequencesNext} !! {scorer.hypothesisBuffer, scorer.nextBeamTokens}
      requires sequences.sequences as object != scorer.nextBeamIndices
        && sequences.sequencesNext as object != scorer.nextBeamIndices
      ensures Linked()
    {
    }

    lemma StartIsInitial(inputIds: seq<int>)
      requires Linked() && scorer.Lists() && scorer.notDoneCount == Unfinished(scorer.Batches())
        && scorer.hypothesisBufferUsed == 0
      requires forall b :: 0 <= b < p.batchSize ==> InitialLane(p, scorer.Lanes()[b])
      requires p.batchSize * promptLength == |inputIds|
      requires sequences.Content() == Expanded(Rows(inputIds, promptLength, promptLength, p.batchSize), p.numBeams)
      ensures Valid() && Initial(p, Rows(inputIds, promptLength, promptLength, p.batchSize), promptLength, Current())
    {
    }

    lemma CurrentFacts()
      requires Valid()
      ensures p.Valid() && Shaped(p, Current()) && Fits(p, Current().lanes) && Current().lanes == scorer.Lanes()
        && Current().rows == sequences.Content()
      ensures scorer.Shape() && scorer.Lists() && scorer.notDoneCount == Unfinished(scorer.Batches()) && scorer.p == p
        && scorer.norm == norm
      ensures scorer.nextBeamScores.Length == p.batchSize * p.numBeams
      ensures sequences.Valid() && sequences.Doubled() && scorer.Apart(sequences.sequences)
        && scorer.Apart(sequences.sequencesNext) && sequences !in scorer.hyps
      ensures sequences.batchBeamSize == p.batchSize * p.numBeams && sequences.maxLength == p.maxLength
        && sequences.currentLength <= p.maxLength
      ensures scorer !in scorer.hyps && Linked() && scorer.hypothesisBufferUsed <= Room()
    {
      scorer.LanesFit();
    }

    lemma Separate()
      requires Linked()
      ensures this !in scorer.hyps && scorer !in scorer.hyps && sequences !in scorer.hyps
      ensures sequences.sequences !in scorer.hyps && sequences.sequencesNext !in scorer.hyps
        && sequences.sequences != sequences.sequencesNext
      ensures {sequences.sequences, sequences.sequencesNext} !! {scorer.hypothesisBuffer, scorer.nextBeamTokens}
      ensures sequences.sequences as object != scorer.nextBeamIndices
        && sequences.sequencesNext as object != scorer.nextBeamIndices
      ensures scorer.nextBeamScores !in scorer.hyps && scorer.nextBeamTokens !in scorer.hyps
        && scorer.nextBeamIndices !in scorer.hyps && scorer.hypothesisBuffer !in scorer.hyps
    {
    }

    lemma BeamScores()
      requires Valid()
      ensures Fits(p, scorer.Lanes()) && scorer.nextBeamScores.Length == p.batchSize * p.numBeams
      ensures BeamScoresAre(p, scorer.nextBeamScores[..], scorer.Lanes())
    {
      hide *;
      CurrentFacts();
      forall b | 0 <= b < p.batchSize
        ensures Row(scorer.nextBeamScores[..], p.numBeams, p.numBeams, BlockIn(b, p))
          == SlotScores(scorer.Lanes()[b].slots)
      {
        RowIs(scorer.nextBeamScores[..], p.numBeams, BlockIn(b, p));
        scorer.LaneScores(b);
      }
      BeamScoresMade(p, scorer.nextBeamScores[..], scorer.Lanes());
    }

    lemma BufferRoom()
      requires Valid()
      ensures scorer.hypothesisBufferUsed
        + Repeat(p.batchSize, Repeat(p.numBeams, sequences.currentLength)) <= scorer.hypothesisBuffer.Length
    {
      RoomForStep(p, promptLength, sequences.currentLength);
    }

    /** Rank every extension, let the scorer pick the beams, and append their tokens to their parents' rows. */
    method SelectTop() returns (ghost picks: seq<seq<nat>>)
      requires Valid() && sequences.currentLength < p.maxLength
      requires nextTokenScores.Length == p.batchSize * (p.numBeams * p.vocabSize)
      requires nextTokenScores !in scorer.hyps && nextTokenScores != scorer.nextBeamScores
      modifies this`done, nextTokenScores, sequences, sequences.sequencesNext, scorer, scorer.hyps,
        scorer.hypothesisBuffer,
        scorer.nextBeamScores, scorer.nextBeamTokens, scorer.nextBeamIndices
      ensures Valid() && sequences.currentLength == old(sequences.currentLength) + 1
      ensures done == (old(done) || sequences.currentLength == p.maxLength)
      ensures {sequences.sequences, sequences.sequencesNext} == old({sequences.sequences, sequences.sequencesNext})
      ensures Advanced(old(Current()), Input(old(nextTokenScores[..]), picks), Current(), old(sequences.currentLength))
    {
      hide *;
      ghost var st, length := Current(), sequences.currentLength;
      CurrentFacts();
      Separate();
      picks := RankAndProcess();
      AppendNextTokensToSequences(st, Input(old(nextTokenScores[..]), picks), length);
    }

    /** One legal step of the state machine. */
    ghost predicate Advanced(st: State, inp: Input, next: State, length: nat) {
      Shaped(p, st) && Legal(p, st, inp) && next == Step(p, st, inp, length, norm)
    }

    /** SelectTop up to the call of the scorer. */
    method RankAndProcess() returns (ghost picks: seq<seq<nat>>)
      requires Valid() && sequences.currentLength < p.maxLength
      requires nextTokenScores.Length == p.batchSize * (p.numBeams * p.vocabSize)
      requires nextTokenScores !in scorer.hyps && nextTokenScores != scorer.nextBeamScores
      modifies nextTokenScores, scorer, scorer.hyps, scorer.hypothesisBuffer,
        scorer.nextBeamScores, scorer.nextBeamTokens, scorer.nextBeamIndices
      ensures Linked() && scorer.Lists() && scorer.notDoneCount == Unfinished(scorer.Batches())
      ensures scorer.hypothesisBufferUsed <= Room() + Repeat(p.batchSize, Repeat(p.numBeams, sequences.currentLength))
      ensures sequences.Content() == old(sequences.Content())
      ensures Ranked(old(Current()), Input(old(nextTokenScores[..]), picks), scorer.Lanes(), sequences.currentLength)
    {
      hide *;
      ghost var st, length, logits := Current(), sequences.currentLength, nextTokenScores[..];
      CurrentFacts();
      Separate();
      BeamScores();
      BufferRoom();
      AddAllBeamScores(p, nextTokenScores, scorer.nextBeamScores, st.lanes);
      assert scorer.Lanes() == st.lanes && sequences.Content() == st.rows;
      ghost var cs;
      var nextScores, nextTokens, nextIndices;
      picks, cs, nextScores, nextTokens, nextIndices := RankAll(p, nextTokenScores);
      ghost var inp := Input(logits, picks);
      RankedLegal(p, st, inp, nextTokenScores[..], cs);
      FlatAcceptable(p, st, inp);
      scorer.Process(sequences, nextScores, nextTokens, nextIndices);
      MakeRanked(st, inp, scorer.Lanes(), length);
    }

    ghost predicate Ranked(st: State, inp: Input, lanes: seq<Lane>, length: nat) {
      Shaped(p, st) && Legal(p, st, inp) && lanes == NextLanes(p, st, inp, length, norm)
    }

    lemma MakeRanked(st: State, inp: Input, lanes: seq<Lane>, length: nat)
      requires Shaped(p, st) && Legal(p, st, inp) && Acceptable(p, st.lanes, Flat(p, st, inp, p.batchSize))
      requires lanes == Next(p, st.lanes, Flat(p, st, inp, p.batchSize), st.rows, length, norm)
      ensures Ranked(st, inp, lanes, length)
    {
      hide *;
      NextLanesIs(p, st, inp, length, norm);
      RankedIs(st, inp, lanes, length);
    }

    lemma RankedIs(st: State, inp: Input, lanes: seq<Lane>, length: nat)
      ensures Ranked(st, inp, lanes, length)
        <==> Shaped(p, st) && Legal(p, st, inp) && lanes == NextLanes(p, st, inp, length, norm)
    {
    }

    /** Reorder and extend the token rows by the scorer's indices and tokens. */
    method AppendNextTokensToSequences(ghost st: State, ghost inp: Input, ghost length: nat)
      requires Linked() && scorer.Lists() && scorer.notDoneCount == Unfinished(scorer.Batches())
      requires sequences.currentLength < p.maxLength && length == sequences.currentLength
      requires scorer.hypothesisBufferUsed <= Room() + Repeat(p.batchSize, Repeat(p.numBeams, sequences.currentLength))
      requires Ranked(st, inp, scorer.Lanes(), length) && sequences.Content() == st.rows
      modifies this`done, sequences, sequences.sequencesNext
      ensures Valid() && sequences.currentLength == length + 1
      ensures done == (old(done) || sequences.currentLength == p.maxLength)
      ensures {sequences.sequences, sequences.sequencesNext} == old({sequences.sequences, sequences.sequencesNext})
      ensures Advanced(st, inp, Current(), length)
    {
      hide *;
      Separate();
      LinkedFacts();
      RankedIs(st, inp, scorer.Lanes(), length);
      ParentsInRange(p, st, inp, length, norm);
      RoomIs();
      ghost var lanes := scorer.Lanes();
      Buffers();
      assert InRange(scorer.nextBeamIndices[..], sequences.batchBeamSize);
      sequences.AppendNextTokenToSequences(scorer.nextBeamIndices[..], scorer.nextBeamTokens[..]);
      assert scorer.Lists() && scorer.Lanes() == lanes;
      if sequences.currentLength == p.maxLength {
        done := true;
      }
      StillValid(length);
      StepIs(st, inp, length);
      AdvancedIs(st, inp, Current(), length);
    }

    lemma LinkedFacts()
      requires Linked()
      ensures p.Valid() && scorer.Shape() && scorer.p == p && scorer.norm == norm
      ensures sequences.Valid() && sequences.Doubled() && sequences.batchBeamSize == p.batchSize * p.numBeams
        && sequences.maxLength == p.maxLength
      ensures scorer.nextBeamTokens.Length == scorer.nextBeamIndices.Length == p.batchSize * p.numBeams
      ensures promptLength <= sequences.currentLength && scorer.hypothesisBuffer.Length == Capacity(p, promptLength)
    {
    }

    /** The token and parent buffers are the cells' tokens and parents. */
    lemma Buffers()
      requires Linked() && scorer.Lists()
      ensures Fits(p, scorer.Lanes()) && p.Valid()
      ensures scorer.nextBeamIndices[..] == Parents(p, scorer.Lanes())
        && scorer.nextBeamTokens[..] == NextTokens(p, scorer.Lanes())
    {
      hide *;
      LinkedFacts();
      scorer.LanesFit();
      forall i | 0 <= i < p.batchSize * p.numBeams
        ensures scorer.nextBeamIndices[i] == Parents(p, scorer.Lanes())[i]
          && scorer.nextBeamTokens[i] == NextTokens(p, scorer.Lanes())[i]
      {
        BatchOf(i, p.batchSize, p.numBeams);
        scorer.LaneCell(i, i / p.numBeams, i % p.numBeams);
        ParentAt(p, scorer.Lanes(), i);
      }
    }

    lemma RoomIs()
      ensures Room() == Repeat(p.batchSize, Repeat(p.numBeams, Tokens(promptLength, sequences.currentLength)))
    {
    }

    lemma StillValid(length: nat)
      requires p.Valid() && scorer.Shape() && scorer.p == p && scorer.norm == norm
        && scorer.hypothesisBuffer.Length == Capacity(p, promptLength)
      requires sequences.Valid() && sequences.Doubled() && sequences.batchBeamSize == p.batchSize * p.numBeams
        && sequences.maxLength == p.maxLength
      requires this !in scorer.hyps && scorer !in scorer.hyps && sequences !in scorer.hyps
      requires sequences.sequences !in scorer.hyps && sequences.sequencesNext !in scorer.hyps
      requires {sequences.sequences, sequences.sequencesNext} !! {scorer.hypothesisBuffer, scorer.nextBeamTokens}
      requires sequences.sequences as object != scorer.nextBeamIndices
        && sequences.sequencesNext as object != scorer.nextBeamIndices
      requires scorer.Lists() && scorer.notDoneCount == Unfinished(scorer.Batches())
      requires promptLength <= length && sequences.currentLength == length + 1
      requires scorer.hypothesisBufferUsed <= Repeat(p.batchSize, Repeat(p.numBeams, Tokens(promptLength, length)))
        + Repeat(p.batchSize, Repeat(p.numBeams, length))
      ensures Valid()
    {
      RoomForStep(p, promptLength, length);
    }

    lemma StepIs(st: State, inp: Input, length: nat)
      requires Valid() && Shaped(p, st) && Legal(p, st, inp) && scorer.Lanes() == NextLanes(p, st, inp, length, norm)
      requires InRange(Parents(p, scorer.Lanes()), |st.rows|)
      requires sequences.Content() == Extended(st.rows, Parents(p, scorer.Lanes()), NextTokens(p, scorer.Lanes()))
      ensures Current() == Step(p, st, inp, length, norm)
    {
      hide NextLanes, Extended, Parents, NextTokens, Legal;
    }

    lemma AdvancedIs(st: State, inp: Input, next: State, length: nat)
      ensures Advanced(st, inp, next, length)
        <==> Shaped(p, st) && Legal(p, st, inp) && next == Step(p, st, inp, length, norm)
    {
    }
  }
}
