/** The scorer: consumes ranked candidates, stores finished hypotheses, and emits the next step's beams. */
module Scorer {
  import opened FlatRows
  import opened TokenSequences
  import opened Ranking
  import opened Hypotheses
  import opened BeamScoring

  // ----- the step of all batch entries -----

  ghost predicate Fits(p: Params, lanes: seq<Lane>) {
    && |lanes| == p.batchSize
    && forall b :: 0 <= b < p.batchSize ==> |lanes[b].hyps| <= p.numBeams && |lanes[b].slots| == p.numBeams
  }

  /** What Process asks of the candidates it is handed. */
  ghost predicate Acceptable(p: Params, lanes: seq<Lane>, cands: seq<Candidate>)
    requires |lanes| == p.batchSize
  {
    && |cands| == p.batchSize * (2 * p.numBeams)
    && forall b :: 0 <= b < p.batchSize && !lanes[b].done ==> GoodCandidates(p, Own(p, cands, b))
  }

  ghost function Next(p: Params, lanes: seq<Lane>, cands: seq<Candidate>, rows: seq<seq<int>>, length: nat,
      norm: (real, nat) -> real): (r: seq<Lane>)
    requires p.Valid() && Fits(p, lanes) && Acceptable(p, lanes, cands) && |rows| == p.batchSize * p.numBeams
    ensures Fits(p, r)
  {
    seq(p.batchSize, b requires 0 <= b < p.batchSize => NextAt(p, lanes[b], cands, rows, length, norm, b))
  }

  function NextAt(p: Params, lane: Lane, cands: seq<Candidate>, rows: seq<seq<int>>, length: nat,
      norm: (real, nat) -> real, b: nat): (r: Lane)
    requires p.Valid() && b < p.batchSize && |cands| == p.batchSize * (2 * p.numBeams)
      && |rows| == p.batchSize * p.numBeams
    requires !lane.done ==> GoodCandidates(p, Own(p, cands, b))
    requires |lane.hyps| <= p.numBeams
    ensures |r.slots| == p.numBeams && |r.hyps| <= p.numBeams
  {
    NextLane(p, lane, Own(p, cands, b), TestedScores(p, cands, b), Row(rows, p.numBeams, p.numBeams, BlockIn(b, p)),
      b * p.numBeams, length, norm)
  }

  lemma NextIsAt(p: Params, lanes: seq<Lane>, cands: seq<Candidate>, rows: seq<seq<int>>, length: nat,
      norm: (real, nat) -> real, b: nat)
    requires p.Valid() && Fits(p, lanes) && Acceptable(p, lanes, cands) && |rows| == p.batchSize * p.numBeams
      && b < p.batchSize
    ensures b * p.numBeams + p.numBeams <= |rows|
    ensures Next(p, lanes, cands, rows, length, norm)[b]
         == NextLane(p, lanes[b], Own(p, cands, b), TestedScores(p, cands, b),
           rows[b * p.numBeams..b * p.numBeams + p.numBeams], b * p.numBeams, length, norm)
  {
    var r := BlockIn(b, p);
  }

  /** Batch b's rows lie inside the buffers. */
  function BlockIn(b: nat, p: Params): (r: nat)
    requires b < p.batchSize
    ensures r == b && b * p.numBeams + p.numBeams <= p.batchSize * p.numBeams
  {
    RowInside(b, p.batchSize, p.numBeams);
    b
  }

  // ----- the same state as the arrays hold it -----

  datatype BatchState = BatchState(hyps: seq<Hypothesis>, done: bool)

  datatype FlatState = FlatState(batches: seq<BatchState>, slots: seq<Slot>, used: nat)

  ghost function LanesOf(n: nat, batches: seq<BatchState>, slots: seq<Slot>): (r: seq<Lane>)
    requires |batches| * n <= |slots|
    ensures |r| == |batches|
  {
    seq(|batches|, b requires 0 <= b < |batches| =>
      Lane(batches[b].hyps, batches[b].done, Rows(slots, n, n, |batches|)[b]))
  }

  lemma LanesSplice(n: nat, batches: seq<BatchState>, slots: seq<Slot>, b: nat, st: BatchState, data: seq<Slot>)
    requires |batches| * n <= |slots| && b < |batches| && |data| == n
    ensures b * n + n <= |slots|
    ensures LanesOf(n, batches[b := st], Splice(slots, b * n, data))
      == LanesOf(n, batches, slots)[b := Lane(st.hyps, st.done, data)]
  {
    SpliceRows(slots, n, b, |batches|, data);
  }

  function Unfinished(batches: seq<BatchState>): (r: nat)
    ensures r <= |batches|
  {
    if batches == [] then 0 else (if batches[0].done then 0 else 1) + Unfinished(batches[1..])
  }

  lemma {:induction false} UnfinishedUpdate(batches: seq<BatchState>, b: nat, st: BatchState)
    requires b < |batches|
    ensures Unfinished(batches[b := st])
         == Unfinished(batches) - (if batches[b].done then 0 else 1) + (if st.done then 0 else 1)
  {
    if b > 0 {
      assert batches[b := st][1..] == batches[1..][b - 1 := st];
      UnfinishedUpdate(batches[1..], b - 1, st);
    } else {
      assert batches[b := st][1..] == batches[1..];
    }
  }

  // ----- the hypothesis buffer -----

  /** s + (s+1) + ... + (length - 1): the room one beam needs until `length` is reached. */
  function Tokens(s: nat, length: nat): nat {
    if length <= s then 0 else Tokens(s, length - 1) + (length - 1)
  }

  function PerBeam(s: nat, maxLength: nat): int {
    (maxLength * (maxLength + 1) - (s - 1) * s) / 2
  }

  /** The constructor's closed form is the room for every length from s to maxLength. */
  lemma {:induction false} PerBeamIsSum(s: nat, maxLength: nat)
    requires s <= maxLength + 1
    ensures PerBeam(s, maxLength) == Tokens(s, maxLength + 1)
  {
    if s == maxLength + 1 {
      assert maxLength * (maxLength + 1) - (s - 1) * s == 0;
    } else if maxLength > 0 {
      PerBeamIsSum(s, maxLength - 1);
      assert maxLength * (maxLength + 1) - (s - 1) * s == ((maxLength - 1) * maxLength - (s - 1) * s) + 2 * maxLength;
    }
  }

  lemma {:induction false} TokensGrow(s: nat, a: nat, b: nat)
    requires a <= b
    ensures Tokens(s, a) <= Tokens(s, b)
  {
    if a < b { TokensGrow(s, a, b - 1); }
  }

  /** x added up k times. */
  function Repeat(k: nat, x: nat): nat {
    if k == 0 then 0 else Repeat(k - 1, x) + x
  }

  lemma {:induction false} RepeatGrows(k: nat, n: nat, x: nat)
    requires k <= n
    ensures Repeat(k, x) <= Repeat(n, x) && (k < n ==> Repeat(k + 1, x) == Repeat(k, x) + x <= Repeat(n, x))
  {
    if k + 1 < n { RepeatGrows(k, n - 1, x); }
  }

  lemma {:induction false} RepeatIsProduct(k: nat, x: nat)
    ensures Repeat(k, x) == k * x
  {
    if k > 0 {
      RepeatIsProduct(k - 1, x);
      assert k * x == (k - 1) * x + x;
    }
  }

  /** The buffer's size, as the room of every beam of every batch entry for every length from s to maxLength. */
  function Capacity(p: Params, s: nat): nat {
    Repeat(p.batchSize, Repeat(p.numBeams, Tokens(s, p.maxLength + 1)))
  }

  lemma CapacityIsProduct(p: Params, s: nat)
    requires s <= p.maxLength + 1
    ensures PerBeam(s, p.maxLength) >= 0 && Capacity(p, s) == p.batchSize * p.numBeams * PerBeam(s, p.maxLength)
  {
    hide *;
    PerBeamIsSum(s, p.maxLength);
    var x: nat := PerBeam(s, p.maxLength);
    CapacityIs(p, s);
    RepeatIsProduct(p.numBeams, x);
    RepeatIsProduct(p.batchSize, p.numBeams * x);
    Associate(p.batchSize, p.numBeams, x);
  }

  lemma CapacityIs(p: Params, s: nat)
    ensures Capacity(p, s) == Repeat(p.batchSize, Repeat(p.numBeams, Tokens(s, p.maxLength + 1)))
  {
  }

  lemma Associate(a: nat, b: nat, c: nat)
    ensures a * (b * c) == a * b * c
  {
  }

  lemma {:induction false} NoneDone(batches: seq<BatchState>)
    requires forall b :: 0 <= b < |batches| ==> !batches[b].done
    ensures Unfinished(batches) == |batches|
  {
    if batches != [] { NoneDone(batches[1..]); }
  }

  function InitialScore(beam: nat): real {
    if beam == 0 then 0.0 else -1000000000.0
  }

  function InitialScores(n: nat): (r: seq<real>)
    ensures |r| == n
  {
    seq(n, j requires 0 <= j => InitialScore(j))
  }

  /** Nothing stored, nothing finished; the tokens and parents are not set yet. */
  ghost predicate InitialLane(p: Params, lane: Lane) {
    && lane.hyps == [] && !lane.done && |lane.slots| == p.numBeams
    && forall j :: 0 <= j < p.numBeams ==> lane.slots[j].score == if j == 0 then 0.0 else -1000000000.0
  }

  function SlotScores(slots: seq<Slot>): (r: seq<real>)
    ensures |r| == |slots|
  {
    seq(|slots|, j requires 0 <= j < |slots| => slots[j].score)
  }

  // ----- stored clones -----

  ghost predicate Stored(spans: seq<Scored<Span>>, used: nat, maxLength: nat) {
    forall s :: s in spans ==> !s.item.live && s.item.offset + s.item.length <= used && s.item.length <= maxLength
  }

  /** Writing behind the used part leaves every stored clone as it is. */
  lemma StoredUntouched(spans: seq<Scored<Span>>, used: nat, maxLength: nat, buffer: seq<int>, data: seq<int>)
    requires Stored(spans, used, maxLength) && used + |data| <= |buffer|
    ensures Mapped(Reader(Splice(buffer, used, data), []), spans) == Mapped(Reader(buffer, []), spans)
  {
    forall i | 0 <= i < |spans|
      ensures Read(spans[i].item, Splice(buffer, used, data), []) == Read(spans[i].item, buffer, [])
    {
      assert spans[i] in spans;
    }
  }

  lemma StoredMore(n: nat, spans: seq<Scored<Span>>, h: Scored<Span>, used: nat, maxLength: nat)
    requires Stored(spans, used, maxLength)
    requires !h.item.live && h.item.offset + h.item.length <= used && h.item.length <= maxLength
    ensures Stored(AddTo(n, spans, h), used, maxLength)
  {
    AddToMembers(n, spans, h);
  }

  function Zip(scores: seq<real>, tokens: seq<int>, indices: seq<nat>): (r: seq<Candidate>)
    requires |scores| == |tokens| == |indices|
    ensures |r| == |scores|
  {
    seq(|scores|, i requires 0 <= i < |scores| => Candidate(scores[i], tokens[i], indices[i]))
  }

  lemma ZipAt(scores: seq<real>, tokens: seq<int>, indices: seq<nat>, k: nat)
    requires k < |scores| == |tokens| == |indices|
    ensures Zip(scores, tokens, indices)[k] == Candidate(scores[k], tokens[k], indices[k])
  {
  }

  lemma PositionsStep(eos: int, wanted: bool, cands: seq<Candidate>, j: nat)
    requires j < |cands|
    ensures Positions(eos, wanted, cands[..j + 1])
         == Positions(eos, wanted, cands[..j]) + if IsEos(eos, cands[j]) == wanted then [j] else []
  {
    assert cands[..j + 1][..j] == cands[..j];
  }

  /** The candidates of one batch entry, and the state they are applied to. */
  ghost predicate Ready(n: nat, own: seq<Candidate>, batch: nat, base: nat, st: FlatState, rows: seq<seq<int>>) {
    && batch < |st.batches| && base + n <= |st.slots| && |st.batches[batch].hyps| <= n
    && forall c :: c in own ==> base + c.beam < |rows|
  }

  ghost predicate Within(at: seq<nat>, own: seq<Candidate>) {
    forall i :: 0 <= i < |at| ==> at[i] < |own|
  }

  /** The state once the candidates at `sur` have taken beams and those at `fin` have been stored. */
  ghost function Taken(n: nat, own: seq<Candidate>, batch: nat, base: nat, st: FlatState, rows: seq<seq<int>>,
      length: nat, norm: (real, nat) -> real, sur: seq<nat>, fin: seq<nat>): (r: FlatState)
    requires Ready(n, own, batch, base, st, rows) && Within(sur, own) && Within(fin, own) && |sur| <= n
    ensures |r.batches| == |st.batches| && |r.slots| == |st.slots|
  {
    FlatState(
      st.batches[batch := st.batches[batch].(hyps :=
        AddAll(n, st.batches[batch].hyps, Completed(own, fin, rows, base, norm)))],
      Splice(st.slots, base, SlotsAt(own, sur, base)),
      st.used + Repeat(|fin|, length))
  }

  lemma TakenNone(n: nat, own: seq<Candidate>, batch: nat, base: nat, st: FlatState, rows: seq<seq<int>>, length: nat,
      norm: (real, nat) -> real)
    requires Ready(n, own, batch, base, st, rows)
    ensures Taken(n, own, batch, base, st, rows, length, norm, [], []) == st
  {
    assert Splice(st.slots, base, []) == st.slots;
  }

  lemma TakenSlot(n: nat, own: seq<Candidate>, batch: nat, base: nat, st: FlatState, rows: seq<seq<int>>, length: nat,
      norm: (real, nat) -> real, sur: seq<nat>, fin: seq<nat>, j: nat)
    requires Ready(n, own, batch, base, st, rows) && Within(sur, own) && Within(fin, own) && |sur| < n && j < |own|
    ensures var now, c := Taken(n, own, batch, base, st, rows, length, norm, sur, fin), own[j];
      Taken(n, own, batch, base, st, rows, length, norm, sur + [j], fin)
      == now.(slots := now.slots[base + |sur| := Slot(c.score, c.token, base + c.beam)])
  {
    assert SlotsAt(own, sur + [j], base)
      == SlotsAt(own, sur, base) + [Slot(own[j].score, own[j].token, base + own[j].beam)];
    SpliceMore(st.slots, base, SlotsAt(own, sur, base), Slot(own[j].score, own[j].token, base + own[j].beam));
  }

  lemma TakenHypothesis(n: nat, own: seq<Candidate>, batch: nat, base: nat, st: FlatState, rows: seq<seq<int>>,
      length: nat, norm: (real, nat) -> real, sur: seq<nat>, fin: seq<nat>, j: nat)
    requires Ready(n, own, batch, base, st, rows) && Within(sur, own) && Within(fin, own) && |sur| <= n && j < |own|
    ensures base + own[j].beam < |rows|
    ensures var now, c := Taken(n, own, batch, base, st, rows, length, norm, sur, fin), own[j];
      var row := rows[base + c.beam];
      Taken(n, own, batch, base, st, rows, length, norm, sur, fin + [j])
      == now.(used := now.used + length,
              batches := now.batches[batch :=
                now.batches[batch].(hyps := AddTo(n, now.batches[batch].hyps, Scored(row, norm(c.score, |row|))))])
  {
    assert own[j] in own;
    var row := rows[base + own[j].beam];
    var a, b := Completed(own, fin, rows, base, norm), Completed(own, fin + [j], rows, base, norm);
    assert b == a + [Scored(row, norm(own[j].score, |row|))];
    AddAllMore(n, st.batches[batch].hyps, a, Scored(row, norm(own[j].score, |row|)));
  }

  lemma AddAllMore<T>(n: nat, s: seq<Scored<T>>, hs: seq<Scored<T>>, h: Scored<T>)
    ensures AddAll(n, s, hs + [h]) == AddTo(n, AddAll(n, s, hs), h)
  {
    assert (hs + [h])[..|hs|] == hs;
  }

  lemma TakenUsed(n: nat, own: seq<Candidate>, batch: nat, base: nat, st: FlatState, rows: seq<seq<int>>, length: nat,
      norm: (real, nat) -> real, sur: seq<nat>, fin: seq<nat>)
    requires Ready(n, own, batch, base, st, rows) && Within(sur, own) && Within(fin, own) && |sur| <= n
    ensures Taken(n, own, batch, base, st, rows, length, norm, sur, fin).used == st.used + Repeat(|fin|, length)
  {
  }

  lemma WithinMore(at: seq<nat>, own: seq<Candidate>, j: nat)
    requires Within(at, own) && j < |own|
    ensures Within(at + [j], own)
  {
  }

  lemma EosIs(eos: int, c: Candidate)
    ensures IsEos(eos, c) <==> eos >= 0 && c.token == eos
  {
  }

  /** The positions that have taken beams, and those stored, after j candidates. */
  function TakenAt(p: Params, own: seq<Candidate>, j: nat): (r: seq<nat>)
    requires j <= |own|
    ensures Within(r, own) && |r| <= j
  {
    Positions(p.eosToken, false, own[..j])
  }

  function StoredAt(p: Params, own: seq<Candidate>, j: nat): (r: seq<nat>)
    requires j <= |own|
    ensures Within(r, own) && |r| <= j && |r| <= p.numBeams
  {
    Positions(p.eosToken, true, Keep(p.numBeams, own[..j]))
  }

  lemma CollectedNone(p: Params, own: seq<Candidate>)
    ensures TakenAt(p, own, 0) == [] && StoredAt(p, own, 0) == []
  {
    assert own[..0] == [];
  }

  lemma CollectedStep(p: Params, own: seq<Candidate>, j: nat)
    requires j < |own|
    ensures TakenAt(p, own, j + 1) == TakenAt(p, own, j) + (if IsEos(p.eosToken, own[j]) then [] else [j])
    ensures StoredAt(p, own, j + 1)
      == StoredAt(p, own, j) + (if IsEos(p.eosToken, own[j]) && j < p.numBeams then [j] else [])
  {
    PositionsStep(p.eosToken, false, own, j);
    if j < p.numBeams {
      PositionsStep(p.eosToken, true, own, j);
    } else {
      assert Keep(p.numBeams, own[..j]) == own[..p.numBeams] == Keep(p.numBeams, own[..j + 1]);
    }
  }

  /** When the beams are full, or the candidates used up, what was collected is what the step means. */
  lemma ScanComplete(p: Params, own: seq<Candidate>, j: nat)
    requires j <= |own| && |own| == 2 * p.numBeams && |Survivors(p, own)| == p.numBeams
    requires |TakenAt(p, own, j)| <= p.numBeams && (j == |own| || |TakenAt(p, own, j)| == p.numBeams)
    ensures TakenAt(p, own, j) == Survivors(p, own) && StoredAt(p, own, j) == Finished(p, own)
  {
    PositionsPrefix(p.eosToken, false, own, j);
    assert own[..|own|] == own;
    assert j >= p.numBeams;
    assert Keep(p.numBeams, own[..j]) == Keep(p.numBeams, own);
  }

  /** Reading the parents' rows from the batch entry's block or from the whole buffer. */
  lemma CompletedBlock(n: nat, own: seq<Candidate>, at: seq<nat>, rows: seq<seq<int>>, base: nat,
      norm: (real, nat) -> real)
    requires Within(at, own) && base + n <= |rows| && forall c :: c in own ==> c.beam < n
    ensures Completed(own, at, rows[base..base + n], 0, norm) == Completed(own, at, rows, base, norm)
  {
    forall i | 0 <= i < |at| ensures own[at[i]].beam < n { assert own[at[i]] in own; }
  }

  lemma ImprovableMapped<S,
      T>(f: S -> T, spans: seq<Scored<S>>, window: seq<real>, length: nat, norm: (real, nat) -> real)
    requires window != []
    ensures Improvable(Mapped(f, spans), window, length, norm)
      <==> exists i :: 0 <= i < |spans| && spans[i].score < norm(Max(window), length)
  {
    var hyps := Mapped(f, spans);
    forall i | 0 <= i < |spans| ensures hyps[i].score == spans[i].score { }
  }

  /** The abstract step in terms of what the candidate loop collects. */
  lemma NextLaneParts(p: Params, hyps: seq<Hypothesis>, own: seq<Candidate>, tested: seq<real>, rows: seq<seq<int>>,
      base: nat, length: nat, norm: (real, nat) -> real)
    requires tested != [] && GoodCandidates(p, own) && base + p.numBeams <= |rows|
    requires forall c :: c in own ==> base + c.beam < |rows|
    ensures var r := NextLane(p, Lane(hyps, false, []), own, tested, rows[base..base + p.numBeams], base, length, norm);
      && r.hyps == AddAll(p.numBeams, hyps, Completed(own, Finished(p, own), rows, base, norm))
      && r.done == (|r.hyps| == p.numBeams && (p.earlyStopping || !Improvable(r.hyps, tested, length, norm)))
      && r.slots == SlotsAt(own, Survivors(p, own), base)
  {
    CompletedBlock(p.numBeams, own, Finished(p, own), rows, base, norm);
  }

  /** What the candidate loop collects is the abstract step, but for the decision. */
  lemma TakenIsNext(p: Params, own: seq<Candidate>, batch: nat, base: nat, st: FlatState, rows: seq<seq<int>>,
      tested: seq<real>, length: nat, norm: (real, nat) -> real)
    requires tested != [] && GoodCandidates(p, own) && Ready(p.numBeams, own, batch, base, st, rows)
    requires base + p.numBeams <= |rows|
    ensures Within(Survivors(p, own), own) && Within(Finished(p, own), own)
    ensures var t := Taken(p.numBeams, own, batch, base, st, rows, length, norm, Survivors(p, own), Finished(p, own));
      var r := NextLane(p, Lane(st.batches[batch].hyps, false, []), own, tested, rows[base..base + p.numBeams], base,
        length, norm);
      && t == FlatState(st.batches[batch := st.batches[batch].(hyps := r.hyps)], Splice(st.slots, base, r.slots),
        st.used + Repeat(|Finished(p, own)|, length))
      && r.done == (|r.hyps| == p.numBeams && (p.earlyStopping || !Improvable(r.hyps, tested, length, norm)))
  {
    hide NextLane, Completed, AddAll, SlotsAt, Splice, Improvable, Survivors, Finished, Repeat, GoodCandidates;
    NextLaneParts(p, st.batches[batch].hyps, own, tested, rows, base, length, norm);
  }

  /** A round written back into the flat arrays is the batch entry's step. */
  lemma RoundOfDone(p: Params, batches: seq<BatchState>, slots: seq<Slot>, cands: seq<Candidate>, rows: seq<seq<int>>,
      length: nat, norm: (real, nat) -> real, b: nat)
    requires p.Valid() && b < p.batchSize == |batches| && |cands| == p.batchSize * (2 * p.numBeams)
    requires |slots| == |rows| == p.batchSize * p.numBeams && batches[b].done && |batches[b].hyps| <= p.numBeams
    ensures b * p.numBeams + p.numBeams <= |slots|
    ensures var lanes := LanesOf(p.numBeams, batches, slots);
      LanesOf(p.numBeams, batches, Splice(slots, b * p.numBeams, seq(p.numBeams, _ => Slot(0.0, p.padToken, 0))))
      == lanes[b := NextAt(p, lanes[b], cands, rows, length, norm, b)]
  {
    LanesSplice(p.numBeams, batches, slots, b, batches[b], seq(p.numBeams, _ => Slot(0.0, p.padToken, 0)));
    assert batches[b := batches[b]] == batches;
  }

  lemma RoundOfUnfinished(p: Params, batches: seq<BatchState>, slots: seq<Slot>, cands: seq<Candidate>,
      rows: seq<seq<int>>, length: nat, norm: (real, nat) -> real, b: nat)
    requires p.Valid() && b < p.batchSize == |batches| && |cands| == p.batchSize * (2 * p.numBeams)
    requires |slots| == |rows| == p.batchSize * p.numBeams && !batches[b].done && |batches[b].hyps| <= p.numBeams
    requires GoodCandidates(p, Own(p, cands, b))
    ensures b * p.numBeams + p.numBeams <= |slots|
    ensures var base := b * p.numBeams;
      var lanes := LanesOf(p.numBeams, batches, slots);
      var r := NextLane(p, Lane(batches[b].hyps, false, []), Own(p, cands, b), TestedScores(p, cands, b),
        rows[base..base + p.numBeams], base, length, norm);
      LanesOf(p.numBeams, batches[b := BatchState(r.hyps, r.done)], Splice(slots, base, r.slots))
      == lanes[b := NextAt(p, lanes[b], cands, rows, length, norm, b)]
  {
    hide NextLane, NextAt, Own, TestedScores, Splice, GoodCandidates;
    var lanes := LanesOf(p.numBeams, batches, slots);
    NextAtIs(p, lanes[b], cands, rows, length, norm, b);
    SlotsUnread(p, lanes[b], Own(p, cands, b), TestedScores(p, cands, b),
      rows[b * p.numBeams..b * p.numBeams + p.numBeams], b * p.numBeams, length, norm);
    var r := NextAt(p, lanes[b], cands, rows, length, norm, b);
    LanesSplice(p.numBeams, batches, slots, b, BatchState(r.hyps, r.done), r.slots);
  }

  lemma StepFacts(p: Params, lanes: seq<Lane>, cands: seq<Candidate>, rows: seq<seq<int>>, length: nat,
      norm: (real, nat) -> real, room: nat)
    requires p.Valid() && Fits(p, lanes) && Acceptable(p, lanes, cands) && |rows| == p.batchSize * p.numBeams
    ensures var result := Next(p, lanes, cands, rows, length, norm);
      && |lanes| == |result| == p.batchSize && |cands| == p.batchSize * (2 * p.numBeams)
      && lanes == result[..0] + lanes[0..] && Repeat(0, room) == 0
      && result[..p.batchSize] + lanes[p.batchSize..] == result
      && (forall b :: 0 <= b < p.batchSize ==> result[b] == NextAt(p, lanes[b], cands, rows, length, norm, b))
      && (forall b :: 0 <= b < p.batchSize ==>
        |lanes[b].hyps| <= p.numBeams && (!lanes[b].done ==> GoodCandidates(p, Own(p, cands, b))))
  {
  }

  lemma Advance<T>(done: seq<T>, todo: seq<T>, b: nat)
    requires |done| == |todo| && b < |done|
    ensures (done[..b] + todo[b..])[b := done[b]] == done[..b + 1] + todo[b + 1..]
  {
  }

  /** The parts of the flat candidate buffers a batch entry's round looks at. */
  lemma Windows(p: Params, scores: seq<real>, tokens: seq<int>, indices: seq<nat>, batch: nat)
    requires batch < p.batchSize && |scores| == |tokens| == |indices| == p.batchSize * (2 * p.numBeams)
    ensures var (base, start, n2) := (batch * p.numBeams, batch * (2 * p.numBeams), 2 * p.numBeams);
      && start + n2 <= |scores| && base + n2 <= |scores|
      && Own(p, Zip(scores, tokens, indices), batch) == Zip(scores, tokens, indices)[start..start + n2]
      && TestedScores(p, Zip(scores, tokens, indices), batch) == scores[base..base + n2]
  {
    RowInside(batch, p.batchSize, 2 * p.numBeams);
    WindowInside(p, batch);
  }

  lemma NextAtIs(p: Params, lane: Lane, cands: seq<Candidate>, rows: seq<seq<int>>, length: nat,
      norm: (real, nat) -> real, b: nat)
    requires p.Valid() && b < p.batchSize && |cands| == p.batchSize * (2 * p.numBeams)
      && |rows| == p.batchSize * p.numBeams
    requires !lane.done && GoodCandidates(p, Own(p, cands, b)) && |lane.hyps| <= p.numBeams
    ensures 0 <= b * p.numBeams && b * p.numBeams + p.numBeams <= |rows| && TestedScores(p, cands, b) != []
    ensures NextAt(p, lane, cands, rows, length, norm, b)
      == NextLane(p, lane, Own(p, cands, b), TestedScores(p, cands, b),
        rows[b * p.numBeams..b * p.numBeams + p.numBeams], b * p.numBeams, length, norm)
  {
    hide NextLane;
    var r := BlockIn(b, p);
  }

  /** An unfinished batch entry's step does not depend on its old cells. */
  lemma SlotsUnread(p: Params, lane: Lane, own: seq<Candidate>, tested: seq<real>, rows: seq<seq<int>>, base: nat,
      length: nat, norm: (real, nat) -> real)
    requires |rows| == p.numBeams && tested != [] && !lane.done && GoodCandidates(p, own)
    ensures NextLane(p, lane, own, tested, rows, base, length, norm)
      == NextLane(p, Lane(lane.hyps, false, []), own, tested, rows, base, length, norm)
  {
    hide Completed, SlotsAt, AddAll, Improvable, Survivors, Finished;
  }

  // ----- finalizing -----

  /** The hypotheses an open batch entry gains: its live rows, with their beam scores. */
  function LiveHypotheses(n: nat, slots: seq<Slot>, rows: seq<seq<int>>, base: nat,
      norm: (real, nat) -> real): (r: seq<Hypothesis>)
    requires base + n <= |slots| && base + n <= |rows|
    ensures |r| == n
  {
    seq(n, k requires 0 <= k < n => Scored(rows[base + k], norm(slots[base + k].score, |rows[base + k]|)))
  }

  /** What a batch entry returns: a finished one its list, an open one its list with its live rows added. */
  function FinalHypotheses(p: Params, lane: Lane, rows: seq<seq<int>>, norm: (real, nat) -> real): (r: seq<Hypothesis>)
    requires |lane.slots| == |rows| == p.numBeams
  {
    if lane.done then lane.hyps
    else AddAll(p.numBeams, lane.hyps, LiveHypotheses(p.numBeams, lane.slots, rows, 0, norm))
  }

  /** A finished batch entry has all its hypotheses. */
  ghost predicate DoneIsFull(p: Params, lanes: seq<Lane>) {
    forall b :: 0 <= b < |lanes| && lanes[b].done ==> |lanes[b].hyps| == p.numBeams
  }

  /** The final hypotheses of every batch entry. */
  ghost function Finals(p: Params, lanes: seq<Lane>, rows: seq<seq<int>>,
      norm: (real, nat) -> real): (r: seq<seq<Hypothesis>>)
    requires Fits(p, lanes) && |rows| == p.batchSize * p.numBeams
    ensures |r| == p.batchSize
  {
    seq(p.batchSize, b requires 0 <= b < p.batchSize =>
      FinalHypotheses(p, lanes[b], Row(rows, p.numBeams, p.numBeams, BlockIn(b, p)), norm))
  }

  /** The best `count` of each of the first k batch entries, one after the other. */
  ghost function Returned(finals: seq<seq<Hypothesis>>, count: nat, k: nat): (r: seq<Hypothesis>)
    requires k <= |finals| && forall b :: 0 <= b < |finals| ==> count <= |finals[b]|
    ensures |r| == Repeat(k, count)
  {
    if k == 0 then [] else Returned(finals, count, k - 1) + finals[k - 1][..count]
  }

  lemma FinalsFull(p: Params, lanes: seq<Lane>, rows: seq<seq<int>>, norm: (real, nat) -> real)
    requires Fits(p, lanes) && DoneIsFull(p, lanes) && |rows| == p.batchSize * p.numBeams
    ensures forall b :: 0 <= b < p.batchSize ==> |Finals(p, lanes, rows, norm)[b]| == p.numBeams
  {
  }

  lemma FinalOfOpen(p: Params, batches: seq<BatchState>, slots: seq<Slot>, rows: seq<seq<int>>,
      norm: (real, nat) -> real, b: nat)
    requires |batches| == p.batchSize && |slots| == |rows| == p.batchSize * p.numBeams && b < p.batchSize
    requires Fits(p, LanesOf(p.numBeams, batches, slots))
    ensures b * p.numBeams + p.numBeams <= |slots|
    ensures Finals(p, LanesOf(p.numBeams, batches, slots), rows, norm)[b]
      == if batches[b].done then batches[b].hyps
        else AddAll(p.numBeams, batches[b].hyps, LiveHypotheses(p.numBeams, slots, rows, b * p.numBeams, norm))
  {
    var base := BlockIn(b, p) * p.numBeams;
    var lane := LanesOf(p.numBeams, batches, slots)[b];
    var block := Row(rows, p.numBeams, p.numBeams, b);
    assert LiveHypotheses(p.numBeams, lane.slots, block, 0, norm)
      == LiveHypotheses(p.numBeams, slots, rows, base, norm);
  }

  /** A hypothesis followed by padding. */
  function Padded(item: seq<int>, padToken: int, width: nat): (r: seq<int>)
    requires |item| <= width
    ensures |r| == width
  {
    item + seq(width - |item|, _ => padToken)
  }

  lemma ReturnedNone(finals: seq<seq<Hypothesis>>, count: nat, rows: seq<seq<int>>, width: nat, scores: seq<real>)
    requires (forall b :: 0 <= b < |finals| ==> count <= |finals[b]|)
      && (forall i :: 0 <= i < |rows| ==> |rows[i]| == width)
    ensures Returned(finals, count, 0) == [] && Repeat(0, count) == 0 && Narrow([], width)
    ensures WithRows(rows, 0, [], width) == rows
    ensures Splice(scores, 0, ScoresOf<seq<int>>([])) == scores
  {
  }

  lemma ReturnedStep(finals: seq<seq<Hypothesis>>, count: nat, k: nat, rows: seq<seq<int>>, width: nat,
      scores: seq<real>)
    requires k < |finals| && (forall b :: 0 <= b < |finals| ==> count <= |finals[b]| && Narrow(finals[b], width))
    requires forall i :: 0 <= i < |rows| ==> |rows[i]| == width
    requires Narrow(Returned(finals, count, k), width) && Repeat(k, count) + count <= |rows|
    ensures var a, b := Returned(finals, count, k), Returned(finals, count, k + 1);
      && Narrow(b, width) && |a| == Repeat(k, count) && |b| == Repeat(k, count) + count && |finals[k][..count]| == count
      && Narrow(finals[k][..count], width)
      && (forall i :: 0 <= i < |rows| ==> |WithRows(rows, 0, a, width)[i]| == width)
      && WithRows(WithRows(rows, 0, a, width), Repeat(k, count), finals[k][..count], width)
        == WithRows(rows, 0, b, width)
      && (|b| <= |scores| ==>
        Splice(Splice(scores, 0, ScoresOf(a)), Repeat(k, count), ScoresOf(finals[k][..count]))
        == Splice(scores, 0, ScoresOf(b)))
  {
    WithRowsAppend(rows, Returned(finals, count, k), finals[k][..count], width);
    if |Returned(finals, count, k + 1)| <= |scores| {
      ScoresAppend(scores, Returned(finals, count, k), finals[k][..count]);
    }
  }

  ghost predicate Blank(rows: seq<seq<int>>, padToken: int, width: nat) {
    forall i :: 0 <= i < |rows| ==> |rows[i]| == width && forall k :: 0 <= k < width ==> rows[i][k] == padToken
  }

  lemma BlankRows(flat: seq<int>, width: nat, rows: nat, padToken: int)
    requires |flat| == rows * width && forall i :: 0 <= i < |flat| ==> flat[i] == padToken
    ensures Blank(Rows(flat, width, width, rows), padToken, width)
  {
  }

  lemma AllPadded(rows: seq<seq<int>>, best: seq<Hypothesis>, padToken: int, width: nat)
    requires |rows| == |best| && Narrow(best, width)
    requires Blank(rows, padToken, width)
    ensures forall i :: 0 <= i < |rows| ==> WithRows(rows, 0, best, width)[i] == Padded(best[i].item, padToken, width)
  {
  }

  lemma AllScores(scores: seq<real>, best: seq<Hypothesis>)
    ensures |scores| == |best| ==> Splice(scores, 0, ScoresOf(best)) == ScoresOf(best)
  {
  }

  lemma LiveNone(n: nat, was: seq<Hypothesis>, live: seq<Hypothesis>)
    ensures AddAll(n, was, live[..0]) == was
  {
  }

  lemma ReadableMore(n: nat, spans: seq<Scored<Span>>, h: Scored<Span>, clones: nat, live: nat, maxLength: nat)
    requires Readable(spans, clones, live, maxLength)
    requires h.item.offset + h.item.length <= (if h.item.live then live else clones) && h.item.length <= maxLength
    ensures Readable(AddTo(n, spans, h), clones, live, maxLength)
  {
    AddToMembers(n, spans, h);
  }

  /** std::max_element. */
  method MaxElement(s: seq<real>) returns (m: real)
    requires s != []
    ensures m == Max(s) && m in s && forall k :: 0 <= k < |s| ==> s[k] <= m
  {
    var i := |s| - 1;
    m := s[i];
    assert s[i..] == [s[i]];
    while i > 0
      invariant 0 <= i < |s|
      invariant m == Max(s[i..])
    {
      i := i - 1;
      assert s[i..][1..] == s[i + 1..];
      if !(s[i] < m) { m := s[i]; }
    }
    assert s[0..] == s;
  }

  class BeamSearchScorer {
    const p: Params
    const norm: (real, nat) -> real
    const beamHyps: seq<BeamHypotheses>
    ghost const hyps: set<object>  // beam_hyps_ and the arrays they hold
    const nextBeamScores: array<real>
    const nextBeamTokens: array<int>
    const nextBeamIndices: array<nat>
    const hypothesisBuffer: array<int>
    var hypothesisBufferUsed: nat
    var notDoneCount: int

    constructor (p: Params, norm: (real, nat) -> real, sequenceLength: nat)
      requires p.Valid() && sequenceLength <= p.maxLength
      ensures this.p == p && this.norm == norm && Shape() && Lists()
      ensures hypothesisBufferUsed == 0 && hypothesisBuffer.Length == Capacity(p, sequenceLength)
      ensures notDoneCount == Unfinished(Batches())
      ensures forall b :: 0 <= b < p.batchSize ==> InitialLane(p, Lanes()[b])
      ensures fresh(hyps) && fresh(nextBeamScores) && fresh(nextBeamTokens) && fresh(nextBeamIndices)
        && fresh(hypothesisBuffer)
    {
      hide Lists, Batches, Lanes, Slots, Capacity, Unfinished, InitialLane, InitialScores, Rows,
        BeamHypotheses.Valid, BeamHypotheses.Contents;
      this.p, this.norm := p, norm;
      var hs, owned := CreateHypotheses(p.batchSize, p.numBeams, norm);
      beamHyps, hyps := hs, owned;
      var batchBeamSize := p.batchSize * p.numBeams;
      var scores := new real[batchBeamSize];
      SetInitialScores(p, scores);
      nextBeamScores := scores;
      nextBeamTokens := new int[batchBeamSize];
      nextBeamIndices := new nat[batchBeamSize];
      var size := BufferSize(p, sequenceLength);
      hypothesisBuffer := new int[size];
      hypothesisBufferUsed, notDoneCount := 0, p.batchSize;
      new;
      StartingLanes();
    }

    lemma StartingLanes()
      requires hypothesisBufferUsed <= hypothesisBuffer.Length
      requires Shape() && forall b :: 0 <= b < p.batchSize ==>
        beamHyps[b].Valid() && beamHyps[b].Contents() == [] && !beamHyps[b].done
      requires forall b :: 0 <= b < p.batchSize ==>
        Rows(nextBeamScores[..], p.numBeams, p.numBeams, p.batchSize)[b] == InitialScores(p.numBeams)
      ensures Lists() && Unfinished(Batches()) == p.batchSize
      ensures forall b :: 0 <= b < p.batchSize ==> InitialLane(p, Lanes()[b])
    {
      hide *;
      EmptyLists();
      NoneDone(Batches());
      forall b | 0 <= b < p.batchSize ensures InitialLane(p, Lanes()[b]) {
        StartingLane(b);
      }
    }

    lemma EmptyLists()
      requires hypothesisBufferUsed <= hypothesisBuffer.Length
      requires Shape() && forall b :: 0 <= b < p.batchSize ==>
        beamHyps[b].Valid() && beamHyps[b].Contents() == [] && !beamHyps[b].done
      ensures Lists() && |Batches()| == p.batchSize
      ensures forall b :: 0 <= b < p.batchSize ==> Batches()[b].hyps == [] && !Batches()[b].done
    {
      hide BeamHypotheses.Valid, BeamHypotheses.Contents;
      assert Lists();
      forall b | 0 <= b < p.batchSize ensures Batches()[b].hyps == [] && !Batches()[b].done {
        assert Batches()[b] == Batch(b);
      }
    }

    lemma StartingLane(b: nat)
      requires Shape() && Lists() && b < p.batchSize && Batches()[b].hyps == [] && !Batches()[b].done
      requires Rows(nextBeamScores[..], p.numBeams, p.numBeams, p.batchSize)[b] == InitialScores(p.numBeams)
      ensures InitialLane(p, Lanes()[b])
    {
      hide Lists, Batches, Slots, Rows;
      LaneScores(b);
      RowScores(b);
      forall j | 0 <= j < p.numBeams ensures Lanes()[b].slots[j].score == InitialScore(j) {
        assert SlotScores(Lanes()[b].slots)[j] == InitialScores(p.numBeams)[j];
      }
    }

    lemma RowScores(b: nat)
      requires Shape() && b < p.batchSize
      ensures b * p.numBeams + p.numBeams <= nextBeamScores.Length
      ensures Rows(nextBeamScores[..], p.numBeams, p.numBeams, p.batchSize)[b]
        == nextBeamScores[b * p.numBeams..b * p.numBeams + p.numBeams]
    {
      var base := BlockIn(b, p) * p.numBeams;
    }

    static method BufferSize(p: Params, sequenceLength: nat) returns (size: nat)
      requires sequenceLength <= p.maxLength
      ensures size == Capacity(p, sequenceLength)
    {
      CapacityIsProduct(p, sequenceLength);
      var batchBeamSize := p.batchSize * p.numBeams;
      var perBeam := (p.maxLength * (p.maxLength + 1) - (sequenceLength - 1) * sequenceLength) / 2;
      size := batchBeamSize * perBeam;
    }

    static method CreateHypotheses(batchSize: nat, numBeams: nat, norm: (real, nat) -> real)
        returns (hs: seq<BeamHypotheses>, ghost owned: set<object>)
      requires numBeams > 0
      ensures |hs| == batchSize && fresh(owned)
      ensures forall b :: 0 <= b < batchSize ==> hs[b] in owned && hs[b].beams in owned
      ensures forall b :: 0 <= b < batchSize ==>
        hs[b].Valid() && hs[b].Contents() == [] && !hs[b].done && hs[b].beams.Length == numBeams && hs[b].norm == norm
      ensures forall b, c :: 0 <= b < c < batchSize ==> hs[b] != hs[c] && hs[b].beams != hs[c].beams
    {
      hs, owned := [], {};
      for i := 0 to batchSize
        invariant |hs| == i && fresh(owned)
        invariant forall b :: 0 <= b < i ==> hs[b] in owned && hs[b].beams in owned
        invariant forall b :: 0 <= b < i ==>
          hs[b].Valid() && hs[b].Contents() == [] && !hs[b].done && hs[b].beams.Length == numBeams && hs[b].norm == norm
        invariant forall b, c :: 0 <= b < c < i ==> hs[b] != hs[c] && hs[b].beams != hs[c].beams
      {
        var h := new BeamHypotheses(norm, numBeams);
        hs, owned := hs + [h], owned + {h, h.beams};
      }
    }

    /** Every beam but the first of a batch entry starts far behind, so the beams diverge. */
    static method SetInitialScores(p: Params, scores: array<real>)
      requires scores.Length == p.batchSize * p.numBeams && p.Valid()
      modifies scores
      ensures forall b :: 0 <= b < p.batchSize ==>
        Rows(scores[..], p.numBeams, p.numBeams, p.batchSize)[b] == InitialScores(p.numBeams)
    {
      for i := 0 to p.batchSize
        invariant forall b :: 0 <= b < i ==>
          Rows(scores[..], p.numBeams, p.numBeams, p.batchSize)[b] == InitialScores(p.numBeams)
      {
        SpliceRows(scores[..], p.numBeams, i, p.batchSize, InitialScores(p.numBeams));
        SetInitialRow(p, scores, BlockIn(i, p) * p.numBeams);
      }
    }

    static lemma NumBeamsPositive(p: Params)
      requires p.Valid()
      ensures p.numBeams > 0
    {
    }

    static lemma OneMoreInitial(j: nat)
      ensures InitialScores(0) == []
      ensures InitialScores(j + 1) == InitialScores(j) + [if j == 0 then 0.0 else -1000000000.0]
    {
    }

    /** memset to zero, then the inner loop, for one batch entry. */
    static method SetInitialRow(p: Params, scores: array<real>, base: nat)
      requires p.Valid() && base + p.numBeams <= scores.Length
      modifies scores
      ensures scores[..] == Splice(old(scores[..]), base, InitialScores(p.numBeams))
    {
      hide *;
      NumBeamsPositive(p);
      ghost var before := scores[..];
      SpliceNone(before, base);
      OneMoreInitial(0);
      SpliceMore(before, base, InitialScores(0), 0.0);
      scores[base] := 0.0;
      assert scores[..] == before[base := 0.0];
      for j := 1 to p.numBeams
        invariant scores[..] == Splice(before, base, InitialScores(j))
      {
        OneMoreInitial(j);
        SpliceMore(before, base, InitialScores(j), -1000000000.0);
        ghost var was := scores[..];
        scores[base + j] := -1000000000.0;
        assert scores[..] == was[base + j := -1000000000.0];
      }
    }

    /** The token buffers are none of the scorer's arrays. */
    ghost predicate Apart(tokens: array<int>) {
      tokens != hypothesisBuffer && tokens != nextBeamTokens && tokens as object != nextBeamIndices && tokens !in hyps
    }

    ghost predicate Shape() {
      && p.Valid() && |beamHyps| == p.batchSize
      && nextBeamScores.Length == nextBeamTokens.Length == nextBeamIndices.Length == p.batchSize * p.numBeams
      && nextBeamTokens != hypothesisBuffer && nextBeamIndices as object != nextBeamTokens
      && nextBeamIndices as object != hypothesisBuffer
      && (forall b :: 0 <= b < p.batchSize ==> beamHyps[b].beams.Length == p.numBeams && beamHyps[b].norm == norm)
      && (forall b :: 0 <= b < p.batchSize ==> beamHyps[b] in hyps && beamHyps[b].beams in hyps)
      && this !in hyps && nextBeamScores !in hyps && nextBeamTokens !in hyps && nextBeamIndices !in hyps
      && hypothesisBuffer !in hyps
      && (forall b, c :: 0 <= b < c < p.batchSize ==>
        beamHyps[b] != beamHyps[c] && beamHyps[b].beams != beamHyps[c].beams)
    }

    /** The lists are in order and hold clones from the used part of the buffer. */
    ghost predicate Lists()
      reads this, hyps
      requires Shape()
    {
      && hypothesisBufferUsed <= hypothesisBuffer.Length
      && forall b :: 0 <= b < p.batchSize ==>
        beamHyps[b].Valid() && Stored(beamHyps[b].Contents(), hypothesisBufferUsed, p.maxLength)
    }

    ghost function Batch(b: nat): BatchState
      reads beamHyps[b], beamHyps[b].beams, hypothesisBuffer
      requires b < |beamHyps| && beamHyps[b].Valid()
    {
      BatchState(Mapped(Reader(hypothesisBuffer[..], []), beamHyps[b].Contents()), beamHyps[b].done)
    }

    ghost function Batches(): (r: seq<BatchState>)
      reads this, hyps, hypothesisBuffer
      requires Shape() && Lists()
      ensures |r| == p.batchSize
    {
      seq(p.batchSize, b requires 0 <= b < p.batchSize reads this, hyps, hypothesisBuffer requires Shape()
        && Lists() => Batch(b))
    }

    ghost function Slots(): (r: seq<Slot>)
      reads nextBeamScores, nextBeamTokens, nextBeamIndices
      requires Shape()
      ensures |r| == p.batchSize * p.numBeams
    {
      seq(p.batchSize * p.numBeams, i requires 0 <= i < p.batchSize * p.numBeams
        && Shape() reads nextBeamScores, nextBeamTokens, nextBeamIndices =>
        Slot(nextBeamScores[i], nextBeamTokens[i], nextBeamIndices[i]))
    }

    /** Clone a finished sequence behind the used part of the buffer: no stored hypothesis changes. */
    method Clone(sequences: Sequences, batchBeamIdx: nat) returns (clone: Span)
      requires Shape() && Lists()
      requires sequences.Valid() && Apart(sequences.sequences)
      requires batchBeamIdx < sequences.batchBeamSize
      requires hypothesisBufferUsed + sequences.currentLength <= hypothesisBuffer.Length
      modifies this`hypothesisBufferUsed, hypothesisBuffer
      ensures Lists() && Batches() == old(Batches())
      ensures hypothesisBufferUsed == old(hypothesisBufferUsed) + sequences.currentLength
      ensures !clone.live && clone.length == sequences.currentLength
        && clone.offset + clone.length == hypothesisBufferUsed
      ensures Read(clone, hypothesisBuffer[..], []) == sequences.Content()[batchBeamIdx]
    {
      ghost var before, was, row := hypothesisBuffer[..], Batches(), sequences.Content()[batchBeamIdx];
      var used, length := hypothesisBufferUsed, sequences.currentLength;
      RowInside(batchBeamIdx, sequences.batchBeamSize, sequences.maxLength);
      CopySpan(sequences.sequences, batchBeamIdx * sequences.maxLength, hypothesisBuffer, used, length);
      hypothesisBufferUsed := used + length;
      clone := Span(false, used, length);
      assert hypothesisBuffer[..] == Splice(before, used, row);
      forall b | 0 <= b < p.batchSize ensures Batch(b) == was[b] {
        StoredUntouched(beamHyps[b].Contents(), used, p.maxLength, before, row);
      }
    }

    /** Add a clone to the batch entry's list. */
    method Record(batch: nat, beamHyp: BeamHypotheses, clone: Span, score: real)
      requires Shape() && Lists() && batch < p.batchSize && beamHyp == beamHyps[batch]
      requires !clone.live && clone.offset + clone.length <= hypothesisBufferUsed && clone.length <= p.maxLength
      modifies beamHyp`beamsUsed, beamHyp.beams
      ensures Lists()
      ensures var st, h :=
        old(Batches())[batch], Scored(Read(clone, hypothesisBuffer[..], []), norm(score, clone.length));
        Batches() == old(Batches())[batch := st.(hyps := AddTo(p.numBeams, st.hyps, h))]
    {
      hide AddTo, Place, Read, Stored;
      ghost var spans, was := beamHyp.Contents(), Batches();
      beamHyp.Add(clone, score);
      ghost var h := Scored(clone, norm(score, clone.length));
      AddToDescending(p.numBeams, spans, h);
      StoredMore(p.numBeams, spans, h, hypothesisBufferUsed, p.maxLength);
      MappedAdd(Reader(hypothesisBuffer[..], []), p.numBeams, spans, h);
      forall b | 0 <= b < p.batchSize && b != batch ensures Batch(b) == was[b] { }
    }

    /** Store a finished sequence. */
    method StoreHypothesis(batch: nat, beamHyp: BeamHypotheses, sequences: Sequences, batchBeamIdx: nat, score: real)
      requires Shape() && Lists() && batch < p.batchSize && beamHyp == beamHyps[batch]
      requires sequences.Valid() && Apart(sequences.sequences)
      requires batchBeamIdx < sequences.batchBeamSize && sequences.currentLength <= p.maxLength
      requires hypothesisBufferUsed + sequences.currentLength <= hypothesisBuffer.Length
      modifies this`hypothesisBufferUsed, hypothesisBuffer, beamHyp`beamsUsed, beamHyp.beams
      ensures Lists() && Slots() == old(Slots())
      ensures hypothesisBufferUsed == old(hypothesisBufferUsed) + sequences.currentLength
      ensures var st, row := old(Batches())[batch], sequences.Content()[batchBeamIdx];
        Batches() == old(Batches())[batch := st.(hyps := AddTo(p.numBeams, st.hyps, Scored(row, norm(score, |row|))))]
    {
      var clone := Clone(sequences, batchBeamIdx);
      Record(batch, beamHyp, clone, score);
    }

    lemma Separation(tokens: array<int>)
      requires Shape() && Apart(tokens)
      ensures tokens != hypothesisBuffer && tokens != nextBeamTokens && tokens as object != nextBeamIndices
        && tokens !in hyps
      ensures p.Valid() && p.numBeams > 1 && |beamHyps| == p.batchSize && this !in hyps
      ensures nextBeamScores !in hyps && nextBeamTokens !in hyps && nextBeamIndices !in hyps
        && hypothesisBuffer !in hyps
      ensures nextBeamTokens != hypothesisBuffer && nextBeamIndices as object != hypothesisBuffer
      ensures forall b :: 0 <= b < p.batchSize ==> beamHyps[b] in hyps && beamHyps[b].beams in hyps
    {
    }

    lemma Used()
      requires Shape() && Lists()
      ensures State().used == hypothesisBufferUsed
    {
    }

    lemma LaneIs(b: nat)
      requires Shape() && Lists() && b < p.batchSize
      ensures beamHyps[b].done == Lanes()[b].done == Batches()[b].done && |Batches()[b].hyps| <= p.numBeams
      ensures Lanes() == LanesOf(p.numBeams, Batches(), Slots())
    {
    }

    lemma LanesFit()
      requires Shape() && Lists()
      ensures Fits(p, Lanes())
    {
      forall b | 0 <= b < p.batchSize ensures |Lanes()[b].hyps| <= p.numBeams { LaneIs(b); }
    }

    /** Cell i of the flat arrays. */
    lemma LaneCell(i: nat, b: nat, j: nat)
      requires Shape() && Lists() && b < p.batchSize && j < p.numBeams && i == b * p.numBeams + j
      ensures i < nextBeamScores.Length
        && Lanes()[b].slots[j] == Slot(nextBeamScores[i], nextBeamTokens[i], nextBeamIndices[i])
    {
      var base := BlockIn(b, p) * p.numBeams;
      assert Lanes()[b].slots == Slots()[base..base + p.numBeams];
    }

    lemma LaneScores(b: nat)
      requires Shape() && Lists() && b < p.batchSize
      ensures b * p.numBeams + p.numBeams <= nextBeamScores.Length
      ensures nextBeamScores[b * p.numBeams..b * p.numBeams + p.numBeams] == SlotScores(Lanes()[b].slots)
    {
      var base := BlockIn(b, p) * p.numBeams;
      assert Lanes()[b].slots == Slots()[base..base + p.numBeams];
    }

    /** One more cell of the next_beam_* arrays. */
    method Emit(at: nat, score: real, token: int, parent: nat)
      requires Shape() && at < p.batchSize * p.numBeams
      modifies nextBeamScores, nextBeamTokens, nextBeamIndices
      ensures Slots() == old(Slots())[at := Slot(score, token, parent)]
    {
      nextBeamScores[at] := score;
      nextBeamTokens[at] := token;
      nextBeamIndices[at] := parent;
    }

    /** A finished batch entry only pads. */
    method PadBatch(base: nat)
      requires Shape() && base + p.numBeams <= p.batchSize * p.numBeams
      modifies nextBeamScores, nextBeamTokens, nextBeamIndices
      ensures Slots() == Splice(old(Slots()), base, seq(p.numBeams, _ => Slot(0.0, p.padToken, 0)))
    {
      for j := 0 to p.numBeams
        invariant Slots() == Splice(old(Slots()), base, seq(j, _ => Slot(0.0, p.padToken, 0)))
      {
        Emit(base + j, 0.0, p.padToken, 0);
      }
    }

    ghost function State(): FlatState
      reads this, hyps, hypothesisBuffer, nextBeamScores, nextBeamTokens, nextBeamIndices
      requires Shape() && Lists()
    {
      FlatState(Batches(), Slots(), hypothesisBufferUsed)
    }

    lemma StateIs()
      requires Shape() && Lists()
      ensures State() == FlatState(Batches(), Slots(), hypothesisBufferUsed)
    {
    }

    /** A finished sentence within the first numBeams candidates. */
    method TakeFinished(batch: nat, base: nat, beamHyp: BeamHypotheses, sequences: Sequences,
        ghost own: seq<Candidate>, ghost st: FlatState, ghost sur: seq<nat>, ghost fin: seq<nat>, ghost j: nat,
        nextScore: real, nextIndex: nat)
      requires Shape() && Lists() && batch < p.batchSize && beamHyp == beamHyps[batch]
      requires sequences.Valid() && Apart(sequences.sequences)
      requires sequences.batchBeamSize == p.batchSize * p.numBeams && sequences.currentLength <= p.maxLength
      requires Ready(p.numBeams, own, batch, base, st, sequences.Content())
      requires j < |own| && own[j].score == nextScore && own[j].beam == nextIndex
      requires Within(sur, own) && Within(fin, own) && |sur| <= p.numBeams
      requires State() == Taken(p.numBeams, own, batch, base, st, sequences.Content(), sequences.currentLength, norm,
        sur, fin)
      requires hypothesisBufferUsed + sequences.currentLength <= hypothesisBuffer.Length
      modifies this`hypothesisBufferUsed, hypothesisBuffer, beamHyp`beamsUsed, beamHyp.beams
      ensures Lists()
      ensures State() == Taken(p.numBeams, own, batch, base, st, sequences.Content(), sequences.currentLength, norm,
        sur, fin + [j])
    {
      hide *;
      Separation(sequences.sequences);
      StateIs();
      TakenHypothesis(p.numBeams, own, batch, base, st, sequences.Content(), sequences.currentLength, norm, sur, fin,
        j);
      WithinMore(fin, own, j);
      StoreHypothesis(batch, beamHyp, sequences, base + nextIndex, nextScore);
      StateIs();
    }

    /** A candidate that goes on: the next free beam. */
    method TakeSurvivor(batch: nat, base: nat, ghost rows: seq<seq<int>>, ghost length: nat, ghost own: seq<Candidate>,
        ghost st: FlatState, ghost sur: seq<nat>, ghost fin: seq<nat>, ghost j: nat, beamIdx: nat, nextScore: real,
        nextToken: int, nextIndex: nat)
      requires Shape() && Lists() && batch < p.batchSize
      requires Ready(p.numBeams, own, batch, base, st, rows)
      requires j < |own| && own[j] == Candidate(nextScore, nextToken, nextIndex)
      requires Within(sur, own) && Within(fin, own) && beamIdx == |sur| < p.numBeams
      requires State() == Taken(p.numBeams, own, batch, base, st, rows, length, norm, sur, fin)
      modifies nextBeamScores, nextBeamTokens, nextBeamIndices
      ensures Lists()
      ensures State() == Taken(p.numBeams, own, batch, base, st, rows, length, norm, sur + [j], fin)
    {
      hide *;
      OwnApart();
      StateIs();
      SlotInside(own, batch, base, st, rows, beamIdx);
      TakenSlot(p.numBeams, own, batch, base, st, rows, length, norm, sur, fin, j);
      WithinMore(sur, own, j);
      Emit(base + beamIdx, nextScore, nextToken, base + nextIndex);
      StateIs();
    }

    /** The scorer's own arrays hold none of the lists' cells. */
    lemma OwnApart()
      requires Shape()
      ensures nextBeamScores !in hyps && nextBeamTokens !in hyps && nextBeamIndices !in hyps && this !in hyps
      ensures nextBeamTokens != hypothesisBuffer && nextBeamIndices as object != hypothesisBuffer
    {
    }

    lemma SlotInside(own: seq<Candidate>, batch: nat, base: nat, st: FlatState, rows: seq<seq<int>>, beamIdx: nat)
      requires Shape() && Ready(p.numBeams, own, batch, base, st, rows) && beamIdx < p.numBeams
      requires |st.slots| == p.batchSize * p.numBeams
      ensures base + beamIdx < p.batchSize * p.numBeams
    {
    }

    /** One candidate: store its hypothesis, pass it over, or give it the next free beam. */
    method TakeCandidate(batch: nat, base: nat, beamHyp: BeamHypotheses, sequences: Sequences,
        ghost own: seq<Candidate>, ghost st: FlatState, ghost sur: seq<nat>, ghost fin: seq<nat>, j: nat, beamIdx: nat,
        nextScore: real, nextToken: int, nextIndex: nat)
      returns (beamIdx': nat, ghost sur': seq<nat>, ghost fin': seq<nat>)
      requires Shape() && Lists() && batch < p.batchSize && beamHyp == beamHyps[batch]
      requires sequences.Valid() && Apart(sequences.sequences)
      requires sequences.batchBeamSize == p.batchSize * p.numBeams && sequences.currentLength <= p.maxLength
      requires Ready(p.numBeams, own, batch, base, st, sequences.Content())
      requires j < |own| && own[j] == Candidate(nextScore, nextToken, nextIndex)
      requires Within(sur, own) && Within(fin, own) && beamIdx == |sur| < p.numBeams && |fin| <= j
      requires State() == Taken(p.numBeams, own, batch, base, st, sequences.Content(), sequences.currentLength, norm,
        sur, fin)
      requires st.used + Repeat(p.numBeams, sequences.currentLength) <= hypothesisBuffer.Length
      modifies this`hypothesisBufferUsed, hypothesisBuffer, beamHyp`beamsUsed, beamHyp.beams,
        nextBeamScores, nextBeamTokens, nextBeamIndices
      ensures Lists()
      ensures sur' == sur + (if IsEos(p.eosToken, own[j]) then [] else [j]) && beamIdx' == |sur'|
      ensures fin' == fin + (if IsEos(p.eosToken, own[j]) && j < p.numBeams then [j] else [])
      ensures Within(sur', own) && Within(fin', own)
      ensures State() == Taken(p.numBeams, own, batch, base, st, sequences.Content(), sequences.currentLength, norm,
        sur', fin')
    {
      hide *;
      Separation(sequences.sequences);
      StateIs();
      EosIs(p.eosToken, own[j]);
      TakenUsed(p.numBeams, own, batch, base, st, sequences.Content(), sequences.currentLength, norm, sur, fin);
      beamIdx', sur', fin' := beamIdx, sur, fin;
      if p.eosToken >= 0 && nextToken == p.eosToken {
        var isBeamTokenWorseThanTopNumBeams := j >= p.numBeams;
        if isBeamTokenWorseThanTopNumBeams {
          return;
        }
        RepeatGrows(|fin|, p.numBeams, sequences.currentLength);
        TakeFinished(batch, base, beamHyp, sequences, own, st, sur, fin, j, nextScore, nextIndex);
        WithinMore(fin, own, j);
        fin' := fin + [j];
      } else {
        TakeSurvivor(batch, base, sequences.Content(), sequences.currentLength, own, st, sur, fin, j, beamIdx,
          nextScore, nextToken, nextIndex);
        WithinMore(sur, own, j);
        beamIdx', sur' := beamIdx + 1, sur + [j];
      }
    }

    /** The candidate loop of an unfinished batch entry. */
    method ScanCandidates(batch: nat, base: nat, start: nat, beamHyp: BeamHypotheses, sequences: Sequences,
        ghost own: seq<Candidate>, nextScores: seq<real>, nextTokens: seq<int>, nextIndices: seq<nat>)
      requires Shape() && Lists() && batch < p.batchSize && beamHyp == beamHyps[batch]
      requires |nextScores| == |nextTokens| == |nextIndices| && start + 2 * p.numBeams <= |nextScores|
      requires own == Zip(nextScores, nextTokens, nextIndices)[start..start + 2 * p.numBeams]
      requires |Survivors(p, own)| == p.numBeams
      requires sequences.Valid() && Apart(sequences.sequences)
      requires sequences.batchBeamSize == p.batchSize * p.numBeams && sequences.currentLength <= p.maxLength
      requires Ready(p.numBeams, own, batch, base, State(), sequences.Content())
      requires hypothesisBufferUsed + Repeat(p.numBeams, sequences.currentLength) <= hypothesisBuffer.Length
      modifies this`hypothesisBufferUsed, hypothesisBuffer, beamHyp`beamsUsed, beamHyp.beams,
        nextBeamScores, nextBeamTokens, nextBeamIndices
      ensures Lists()
      ensures State() == Taken(p.numBeams, own, batch, base, old(State()), sequences.Content(),
        sequences.currentLength, norm, Survivors(p, own), Finished(p, own))
    {
      hide *;
      Separation(sequences.sequences);
      Used();
      ghost var st, rows, length := State(), sequences.Content(), sequences.currentLength;
      var beamIdx, j, topK := 0, 0, 2 * p.numBeams;
      TakenNone(p.numBeams, own, batch, base, st, rows, length, norm);
      ghost var sur: seq<nat>, fin: seq<nat> := [], [];
      CollectedNone(p, own);
      while j < topK && beamIdx < p.numBeams
        invariant j <= topK && Lists()
        invariant sur == TakenAt(p, own, j) && fin == StoredAt(p, own, j)
        invariant beamIdx == |sur| <= p.numBeams
        invariant State() == Taken(p.numBeams, own, batch, base, st, rows, length, norm, sur, fin)
        modifies this`hypothesisBufferUsed, hypothesisBuffer, beamHyp`beamsUsed, beamHyp.beams,
          nextBeamScores, nextBeamTokens, nextBeamIndices
      {
        CollectedStep(p, own, j);
        ZipAt(nextScores, nextTokens, nextIndices, start + j);
        beamIdx, sur, fin := TakeCandidate(batch, base, beamHyp, sequences, own, st, sur, fin, j, beamIdx,
          nextScores[start + j], nextTokens[start + j], nextIndices[start + j]);
        j := j + 1;
      }
      ScanComplete(p, own, j);
    }

    ghost function Lanes(): (r: seq<Lane>)
      reads this, hyps, hypothesisBuffer, nextBeamScores, nextBeamTokens, nextBeamIndices
      requires Shape() && Lists()
      ensures |r| == p.batchSize
    {
      LanesOf(p.numBeams, Batches(), Slots())
    }

    lemma CanScan(own: seq<Candidate>, batch: nat, base: nat, st: FlatState, rows: seq<seq<int>>)
      requires Shape() && GoodCandidates(p, own) && base + p.numBeams <= p.batchSize * p.numBeams == |rows|
      requires |st.batches| == p.batchSize && |st.slots| == p.batchSize * p.numBeams && batch < p.batchSize
      requires |st.batches[batch].hyps| <= p.numBeams
      ensures Ready(p.numBeams, own, batch, base, st, rows) && |Survivors(p, own)| == p.numBeams
    {
      hide Survivors;
    }

    /** One round of Process's loop, for an unfinished batch entry. */
    method ProcessUnfinished(batch: nat, base: nat, start: nat, beamHyp: BeamHypotheses, sequences: Sequences,
        ghost own: seq<Candidate>, nextScores: seq<real>, nextTokens: seq<int>, nextIndices: seq<nat>)
      requires Shape() && Lists() && batch < p.batchSize && beamHyp == beamHyps[batch] && !beamHyp.done
      requires |nextScores| == |nextTokens| == |nextIndices| && start + 2 * p.numBeams <= |nextScores|
        && base + 2 * p.numBeams <= |nextScores|
      requires own == Zip(nextScores, nextTokens, nextIndices)[start..start + 2 * p.numBeams] && GoodCandidates(p, own)
      requires base + p.numBeams <= p.batchSize * p.numBeams
      requires sequences.Valid() && Apart(sequences.sequences)
      requires sequences.batchBeamSize == p.batchSize * p.numBeams && sequences.currentLength <= p.maxLength
      requires hypothesisBufferUsed + Repeat(p.numBeams, sequences.currentLength) <= hypothesisBuffer.Length
      requires notDoneCount == Unfinished(Batches()) && |Batches()[batch].hyps| <= p.numBeams
      modifies this`hypothesisBufferUsed, this`notDoneCount, hypothesisBuffer, beamHyp, beamHyp.beams,
        nextBeamScores, nextBeamTokens, nextBeamIndices
      ensures Lists() && notDoneCount == Unfinished(Batches())
      ensures hypothesisBufferUsed <= old(hypothesisBufferUsed) + Repeat(p.numBeams, sequences.currentLength)
      ensures var st, tested := old(Batches())[batch], nextScores[base..base + 2 * p.numBeams];
        var r := NextLane(p, Lane(st.hyps, false, []), own, tested, sequences.Content()[base..base + p.numBeams], base,
          sequences.currentLength, norm);
        && Batches() == old(Batches())[batch := BatchState(r.hyps, r.done)]
        && Slots() == Splice(old(Slots()), base, r.slots)
    {
      hide *;
      Separation(sequences.sequences);
      StateIs();
      LaneIs(batch);
      ghost var was, rows, st := Batches(), sequences.Content(), State();
      CanScan(own, batch, base, st, rows);
      TakenIsNext(p, own, batch, base, st, rows, nextScores[base..base + 2 * p.numBeams], sequences.currentLength,
        norm);
      RepeatGrows(|Finished(p, own)|, p.numBeams, sequences.currentLength);
      ScanCandidates(batch, base, start, beamHyp, sequences, own, nextScores, nextTokens, nextIndices);
      StateIs();
      UnfinishedUpdate(was, batch, Batches()[batch]);
      assert was[batch := Batches()[batch]] == Batches();
      CheckDone(batch, beamHyp, sequences.currentLength, nextScores[base..base + 2 * p.numBeams]);
    }

    /** One round of Process's loop. */
    method ProcessBatch(batch: nat, sequences: Sequences, nextScores: seq<real>, nextTokens: seq<int>,
        nextIndices: seq<nat>)
      requires Shape() && Lists() && batch < p.batchSize
      requires |nextScores| == |nextTokens| == |nextIndices| == p.batchSize * (2 * p.numBeams)
      requires !Lanes()[batch].done ==> GoodCandidates(p, Own(p, Zip(nextScores, nextTokens, nextIndices), batch))
      requires sequences.Valid() && Apart(sequences.sequences) && sequences !in hyps
      requires sequences.batchBeamSize == p.batchSize * p.numBeams && sequences.currentLength <= p.maxLength
      requires hypothesisBufferUsed + Repeat(p.numBeams, sequences.currentLength) <= hypothesisBuffer.Length
      requires notDoneCount == Unfinished(Batches())
      modifies this`hypothesisBufferUsed, this`notDoneCount, hypothesisBuffer, hyps,
        nextBeamScores, nextBeamTokens, nextBeamIndices
      ensures Lists() && notDoneCount == Unfinished(Batches())
      ensures hypothesisBufferUsed <= old(hypothesisBufferUsed) + Repeat(p.numBeams, sequences.currentLength)
      ensures Lanes() == old(Lanes())[batch :=
        NextAt(p, old(Lanes())[batch], Zip(nextScores, nextTokens, nextIndices), sequences.Content(),
        sequences.currentLength, norm, batch)]
    {
      hide *;
      Separation(sequences.sequences);
      LaneIs(batch);
      var beamHyp := beamHyps[batch];
      ghost var batches, slots, rows, cands :=
        Batches(), Slots(), sequences.Content(), Zip(nextScores, nextTokens, nextIndices);
      var base := BlockIn(batch, p) * p.numBeams;
      if beamHyp.done {
        RoundOfDone(p, batches, slots, cands, rows, sequences.currentLength, norm, batch);
        PadBatch(base);
        assert Batches() == batches;
      } else {
        RoundOfUnfinished(p, batches, slots, cands, rows, sequences.currentLength, norm, batch);
        Windows(p, nextScores, nextTokens, nextIndices, batch);
        ProcessUnfinished(batch, base, batch * (2 * p.numBeams), beamHyp, sequences, Own(p, cands, batch), nextScores,
          nextTokens, nextIndices);
      }
      LaneIs(batch);
    }

    /** Is the batch entry finished after this round? */
    method IsFinished(batch: nat, beamHyp: BeamHypotheses, length: nat, window: seq<real>) returns (finished: bool)
      requires Shape() && Lists() && batch < p.batchSize && beamHyp == beamHyps[batch] && window != []
      ensures var hyps := Batches()[batch].hyps;
        finished <==> |hyps| == p.numBeams && (p.earlyStopping || !Improvable(hyps, window, length, norm))
    {
      ghost var spans, f := beamHyp.Contents(), Reader(hypothesisBuffer[..], []);
      assert Batches()[batch].hyps == Mapped(f, spans);
      if beamHyp.beamsUsed < p.numBeams {
        return false;
      }
      if !p.earlyStopping {
        var bestSumLogprobs := MaxElement(window);
        var improvable := beamHyp.CanImprove(bestSumLogprobs, length);
        ImprovableMapped(f, spans, window, length, norm);
        if improvable {
          return false;
        }
      }
      return true;
    }

    method MarkDone(batch: nat, beamHyp: BeamHypotheses)
      requires Shape() && Lists() && batch < p.batchSize && beamHyp == beamHyps[batch] && !beamHyp.done
      requires notDoneCount == Unfinished(Batches())
      modifies this`notDoneCount, beamHyp`done
      ensures Lists() && notDoneCount == Unfinished(Batches())
      ensures Batches() == old(Batches())[batch := old(Batches())[batch].(done := true)]
    {
      ghost var was := Batches();
      beamHyp.done := true;
      notDoneCount := notDoneCount - 1;
      UnfinishedUpdate(was, batch, was[batch].(done := true));
      forall b | 0 <= b < p.batchSize && b != batch ensures Batch(b) == was[b] { }
      assert Batches() == was[batch := was[batch].(done := true)];
    }

    /** The end of the round. */
    method CheckDone(batch: nat, beamHyp: BeamHypotheses, length: nat, window: seq<real>)
      requires Shape() && Lists() && batch < p.batchSize && beamHyp == beamHyps[batch] && !beamHyp.done && window != []
      requires notDoneCount == Unfinished(Batches())
      modifies this`notDoneCount, beamHyp`done
      ensures Lists() && notDoneCount == Unfinished(Batches())
      ensures var st := old(Batches())[batch];
        Batches() == old(Batches())[batch :=
          BatchState(st.hyps, |st.hyps| == p.numBeams
          && (p.earlyStopping || !Improvable(st.hyps, window, length, norm)))]
    {
      ghost var was := Batches();
      var finished := IsFinished(batch, beamHyp, length, window);
      assert Batches() == was;
      assert was[batch := BatchState(was[batch].hyps, false)] == was;
      if finished {
        MarkDone(batch, beamHyp);
      }
    }

    /** One step for every batch entry. */
    method Process(sequences: Sequences, nextScores: seq<real>, nextTokens: seq<int>, nextIndices: seq<nat>)
      requires Shape() && Lists() && notDoneCount == Unfinished(Batches())
      requires |nextScores| == |nextTokens| == |nextIndices| && Fits(p, Lanes())
      requires Acceptable(p, Lanes(), Zip(nextScores, nextTokens, nextIndices))
      requires sequences.Valid() && Apart(sequences.sequences) && sequences !in hyps
      requires sequences.batchBeamSize == p.batchSize * p.numBeams && sequences.currentLength <= p.maxLength
      requires hypothesisBufferUsed
        + Repeat(p.batchSize, Repeat(p.numBeams, sequences.currentLength)) <= hypothesisBuffer.Length
      modifies this`hypothesisBufferUsed, this`notDoneCount, hypothesisBuffer, hyps,
        nextBeamScores, nextBeamTokens, nextBeamIndices
      ensures Lists() && notDoneCount == Unfinished(Batches())
      ensures hypothesisBufferUsed <= old(hypothesisBufferUsed)
        + Repeat(p.batchSize, Repeat(p.numBeams, sequences.currentLength))
      ensures Lanes() == Next(p, old(Lanes()), Zip(nextScores, nextTokens, nextIndices), sequences.Content(),
        sequences.currentLength, norm)
    {
      hide *;
      Separation(sequences.sequences);
      ghost var cands, lanes := Zip(nextScores, nextTokens, nextIndices), Lanes();
      ghost var result := Next(p, lanes, cands, sequences.Content(), sequences.currentLength, norm);
      ghost var room := Repeat(p.numBeams, sequences.currentLength);
      StepFacts(p, lanes, cands, sequences.Content(), sequences.currentLength, norm, room);
      for batch := 0 to p.batchSize
        invariant Lists() && notDoneCount == Unfinished(Batches())
        invariant hypothesisBufferUsed <= old(hypothesisBufferUsed) + Repeat(batch, room)
        invariant Lanes() == result[..batch] + lanes[batch..]
        modifies this`hypothesisBufferUsed, this`notDoneCount, hypothesisBuffer, hyps,
          nextBeamScores, nextBeamTokens, nextBeamIndices
      {
        assert Lanes()[batch] == lanes[batch]
          && result[batch] == NextAt(p, lanes[batch], cands, sequences.Content(), sequences.currentLength, norm, batch);
        RepeatGrows(batch, p.batchSize, room);
        Advance(result, lanes, batch);
        ProcessBatch(batch, sequences, nextScores, nextTokens, nextIndices);
      }
    }

    /** Finalize's first loop body: the live rows of an open batch entry join its list. */
    method AddOpen(batch: nat, base: nat, beamHyp: BeamHypotheses, sequences: Sequences)
      requires Shape() && batch < p.batchSize && beamHyp == beamHyps[batch]
        && base + p.numBeams <= p.batchSize * p.numBeams
      requires sequences.Valid() && Apart(sequences.sequences) && sequences.batchBeamSize == p.batchSize * p.numBeams
      requires beamHyp.Valid()
        && Readable(beamHyp.Contents(), hypothesisBuffer.Length, sequences.sequences.Length, sequences.maxLength)
      modifies beamHyp`beamsUsed, beamHyp.beams
      ensures beamHyp.Valid()
        && Readable(beamHyp.Contents(), hypothesisBuffer.Length, sequences.sequences.Length, sequences.maxLength)
      ensures var f := Reader(hypothesisBuffer[..], sequences.sequences[..]);
        Mapped(f, beamHyp.Contents())
          == AddAll(p.numBeams, old(Mapped(f, beamHyp.Contents())),
          LiveHypotheses(p.numBeams, Slots(), sequences.Content(), base, norm))
    {
      hide *;
      Separation(sequences.sequences);
      ghost var f, rows := Reader(hypothesisBuffer[..], sequences.sequences[..]), sequences.Content();
      ghost var was, live := Mapped(f, beamHyp.Contents()), LiveHypotheses(p.numBeams, Slots(), rows, base, norm);
      LiveNone(p.numBeams, was, live);
      for beamIndex := 0 to p.numBeams
        invariant beamHyp.Valid()
          && Readable(beamHyp.Contents(), hypothesisBuffer.Length, sequences.sequences.Length, sequences.maxLength)
        invariant Mapped(f, beamHyp.Contents()) == AddAll(p.numBeams, was, live[..beamIndex])
        modifies beamHyp`beamsUsed, beamHyp.beams
      {
        LiveAt(sequences, base, beamIndex);
        var batchBeamIndex := base + beamIndex;
        ghost var spans := beamHyp.Contents();
        var span := Span(true, batchBeamIndex * sequences.maxLength, sequences.currentLength);
        var finalScore := nextBeamScores[batchBeamIndex];
        beamHyp.Add(span, finalScore);
        ReadableMore(p.numBeams, spans, Scored(span, norm(finalScore, span.length)), hypothesisBuffer.Length,
          sequences.sequences.Length, sequences.maxLength);
        MappedAdd(f, p.numBeams, spans, Scored(span, norm(finalScore, span.length)));
        assert live[..beamIndex + 1] == live[..beamIndex] + [live[beamIndex]];
        AddAllMore(p.numBeams, was, live[..beamIndex], live[beamIndex]);
      }
      assert live[..p.numBeams] == live;
    }

    lemma LiveAt(sequences: Sequences, base: nat, k: nat)
      requires Shape() && k < p.numBeams && base + p.numBeams <= p.batchSize * p.numBeams
      requires sequences.Valid() && sequences.batchBeamSize == p.batchSize * p.numBeams
      ensures base + k < nextBeamScores.Length && beamHyps != []
      ensures forall b :: 0 <= b < |beamHyps| ==> beamHyps[b].beams.Length == p.numBeams && beamHyps[b].norm == norm
      ensures var span := Span(true, (base + k) * sequences.maxLength, sequences.currentLength);
        && span.offset + span.length <= sequences.sequences.Length && span.length <= sequences.maxLength
        && Read(span, hypothesisBuffer[..], sequences.sequences[..]) == sequences.Content()[base + k]
        && |LiveHypotheses(p.numBeams, Slots(), sequences.Content(), base, norm)| == p.numBeams
        && LiveHypotheses(p.numBeams, Slots(), sequences.Content(), base, norm)[k]
           == Scored(sequences.Content()[base + k], norm(nextBeamScores[base + k], sequences.currentLength))
        && Reader(hypothesisBuffer[..], sequences.sequences[..])(span)
          == Read(span, hypothesisBuffer[..], sequences.sequences[..])
    {
      RowInside(base + k, sequences.batchBeamSize, sequences.maxLength);
    }

    ghost predicate FinalOk(b: nat, sequences: Sequences)
      reads beamHyps[b], beamHyps[b].beams, sequences
      requires b < |beamHyps|
    {
      && beamHyps[b].Valid()
      && Readable(beamHyps[b].Contents(), hypothesisBuffer.Length, sequences.sequences.Length, sequences.maxLength)
    }

    /** A batch entry's hypotheses, read from the clone buffer and the sequence buffer. */
    ghost function FinalAt(b: nat, sequences: Sequences): seq<Hypothesis>
      reads beamHyps[b], beamHyps[b].beams, hypothesisBuffer, sequences, sequences.sequences
      requires b < |beamHyps| && FinalOk(b, sequences)
    {
      Mapped(Reader(hypothesisBuffer[..], sequences.sequences[..]), beamHyps[b].Contents())
    }

    /** What an untouched batch entry will end with, given its first row. */
    ghost predicate EndsAt(b: nat, base: nat, sequences: Sequences, result: seq<Hypothesis>)
      reads beamHyps[b], beamHyps[b].beams, hypothesisBuffer, sequences, sequences.sequences, nextBeamScores,
        nextBeamTokens, nextBeamIndices
      requires b < |beamHyps| && FinalOk(b, sequences)
    {
      && Shape() && sequences.Valid() && base + p.numBeams <= |Slots()| == |sequences.Content()|
      && result == if beamHyps[b].done then FinalAt(b, sequences)
        else AddAll(p.numBeams, FinalAt(b, sequences),
          LiveHypotheses(p.numBeams, Slots(), sequences.Content(), base, norm))
    }

    ghost predicate Ends(b: nat, sequences: Sequences, result: seq<Hypothesis>)
      reads beamHyps[b], beamHyps[b].beams, hypothesisBuffer, sequences, sequences.sequences, nextBeamScores,
        nextBeamTokens, nextBeamIndices
      requires b < |beamHyps| && FinalOk(b, sequences)
    {
      0 <= b * p.numBeams && EndsAt(b, b * p.numBeams, sequences, result)
    }

    lemma EndsAtIs(b: nat, base: nat, sequences: Sequences, result: seq<Hypothesis>)
      requires b < |beamHyps| && FinalOk(b, sequences) && EndsAt(b, base, sequences, result)
      ensures Shape() && sequences.Valid() && base + p.numBeams <= |Slots()| == |sequences.Content()|
      ensures result == if beamHyps[b].done then FinalAt(b, sequences)
        else AddAll(p.numBeams, FinalAt(b, sequences),
          LiveHypotheses(p.numBeams, Slots(), sequences.Content(), base, norm))
    {
    }

    /** The batch entry with its final hypotheses. */
    method FinalizeBatch(batch: nat, base: nat, sequences: Sequences, ghost result: seq<Hypothesis>)
      requires Shape() && batch < p.batchSize && FinalOk(batch, sequences) && EndsAt(batch, base, sequences, result)
      requires sequences.Valid() && Apart(sequences.sequences) && sequences.batchBeamSize == p.batchSize * p.numBeams
      modifies beamHyps[batch], beamHyps[batch].beams
      ensures FinalOk(batch, sequences) && FinalAt(batch, sequences) == result
    {
      hide *;
      Separation(sequences.sequences);
      EndsAtIs(batch, base, sequences, result);
      FinalParts(batch, sequences);
      var beamHyp := beamHyps[batch];
      if !beamHyp.done {
        AddOpen(batch, base, beamHyp, sequences);
        MakeFinal(batch, sequences);
      }
    }

    lemma EndsIs(b: nat, sequences: Sequences, result: seq<Hypothesis>)
      requires b < |beamHyps| && FinalOk(b, sequences) && Ends(b, sequences, result)
      ensures 0 <= b * p.numBeams && EndsAt(b, b * p.numBeams, sequences, result)
    {
    }

    lemma FinalParts(b: nat, sequences: Sequences)
      requires b < |beamHyps| && FinalOk(b, sequences)
      ensures beamHyps[b].Valid()
        && Readable(beamHyps[b].Contents(), hypothesisBuffer.Length, sequences.sequences.Length, sequences.maxLength)
      ensures FinalAt(b, sequences)
        == Mapped(Reader(hypothesisBuffer[..], sequences.sequences[..]), beamHyps[b].Contents())
    {
    }

    lemma MakeFinal(b: nat, sequences: Sequences)
      requires b < |beamHyps| && beamHyps[b].Valid()
      requires Readable(beamHyps[b].Contents(), hypothesisBuffer.Length, sequences.sequences.Length,
        sequences.maxLength)
      ensures FinalOk(b, sequences)
      ensures FinalAt(b, sequences)
        == Mapped(Reader(hypothesisBuffer[..], sequences.sequences[..]), beamHyps[b].Contents())
    {
    }

    /** Finalize's first loop. */
    method FinalizeBatches(sequences: Sequences)
      requires Shape() && Lists() && Fits(p, Lanes())
      requires sequences.Valid() && Apart(sequences.sequences) && sequences !in hyps
        && sequences.batchBeamSize == p.batchSize * p.numBeams
      requires sequences.maxLength == p.maxLength
      modifies hyps
      ensures forall b :: 0 <= b < p.batchSize ==>
        FinalOk(b, sequences) && FinalAt(b, sequences) == Finals(p, old(Lanes()), sequences.Content(), norm)[b]
    {
      hide *;
      Separation(sequences.sequences);
      ghost var finals := Finals(p, Lanes(), sequences.Content(), norm);
      forall b | 0 <= b < p.batchSize ensures FinalOk(b, sequences) && Ends(b, sequences, finals[b]) {
        FinalStart(b, sequences);
      }
      for batch := 0 to p.batchSize
        invariant forall b :: 0 <= b < p.batchSize ==> FinalOk(b, sequences)
        invariant forall b :: 0 <= b < batch ==> FinalAt(b, sequences) == finals[b]
        invariant forall b :: batch <= b < p.batchSize ==> Ends(b, sequences, finals[b])
        modifies hyps
      {
        Distinct(batch);
        EndsIs(batch, sequences, finals[batch]);
        FinalizeBatch(batch, BlockIn(batch, p) * p.numBeams, sequences, finals[batch]);
      }
    }

    lemma Distinct(b: nat)
      requires Shape() && b < p.batchSize
      ensures beamHyps[b] in hyps && beamHyps[b].beams in hyps
      ensures forall c :: 0 <= c < p.batchSize && c != b ==>
        beamHyps[b] != beamHyps[c] && beamHyps[b].beams != beamHyps[c].beams
      ensures forall c, d :: 0 <= c < p.batchSize && 0 <= d < p.batchSize ==> beamHyps[c] as object != beamHyps[d].beams
    {
    }

    /** Before finalizing, every list holds clones only. */
    lemma FinalStart(b: nat, sequences: Sequences)
      requires Shape() && Lists() && b < p.batchSize && Fits(p, Lanes())
      requires sequences.Valid() && sequences.batchBeamSize == p.batchSize * p.numBeams
        && sequences.maxLength == p.maxLength
      ensures FinalOk(b, sequences) && FinalAt(b, sequences) == Batches()[b].hyps
      ensures Ends(b, sequences, Finals(p, Lanes(), sequences.Content(), norm)[b])
    {
      hide *;
      LaneIs(b);
      FinalAtStart(b, sequences);
      FinalOfOpen(p, Batches(), Slots(), sequences.Content(), norm, b);
      MakeEnds(b, b * p.numBeams, sequences, Finals(p, Lanes(), sequences.Content(), norm)[b]);
    }

    lemma FinalAtStart(b: nat, sequences: Sequences)
      requires Shape() && Lists() && b < p.batchSize && sequences.Valid() && sequences.maxLength == p.maxLength
      ensures b < |beamHyps| && FinalOk(b, sequences) && FinalAt(b, sequences) == Batches()[b].hyps
    {
      var spans := beamHyps[b].Contents();
      forall i | 0 <= i < |spans|
        ensures Read(spans[i].item, hypothesisBuffer[..], sequences.sequences[..])
          == Read(spans[i].item, hypothesisBuffer[..], [])
      {
        assert spans[i] in spans;
      }
    }

    lemma MakeEnds(b: nat, base: nat, sequences: Sequences, result: seq<Hypothesis>)
      requires b < |beamHyps| && FinalOk(b, sequences) && base == b * p.numBeams
      requires Shape() && sequences.Valid() && base + p.numBeams <= |Slots()| == |sequences.Content()|
      requires result == if beamHyps[b].done then FinalAt(b, sequences)
        else AddAll(p.numBeams, FinalAt(b, sequences),
          LiveHypotheses(p.numBeams, Slots(), sequences.Content(), base, norm))
      ensures Ends(b, sequences, result)
    {
      hide Shape, FinalOk;
    }

    /** Add the live rows of open batch entries, fill with padding, write the best hypotheses of each batch entry. */
    method Finalize(sequences: Sequences, numReturnSequences: nat, output: array<int>, sequenceScores: array<real>)
      requires Shape() && Lists() && Fits(p, Lanes()) && DoneIsFull(p, Lanes())
      requires sequences.Valid() && Apart(sequences.sequences) && sequences !in hyps
        && sequences.batchBeamSize == p.batchSize * p.numBeams
      requires sequences.maxLength == p.maxLength && numReturnSequences <= p.numBeams
      requires output.Length == Repeat(p.batchSize, numReturnSequences) * p.maxLength
      requires sequenceScores.Length == 0 || sequenceScores.Length == Repeat(p.batchSize, numReturnSequences)
      requires output !in hyps && sequenceScores !in hyps && output != sequences.sequences && output != hypothesisBuffer
      modifies hyps, output, sequenceScores
      ensures var finals, total :=
        Finals(p, old(Lanes()), sequences.Content(), norm), Repeat(p.batchSize, numReturnSequences);
        && (forall b :: 0 <= b < p.batchSize ==> |finals[b]| == p.numBeams && Narrow(finals[b], p.maxLength))
        && var best := Returned(finals, numReturnSequences, p.batchSize);
           && Narrow(best, p.maxLength)
           && (forall r :: 0 <= r < total ==>
             Rows(output[..], p.maxLength, p.maxLength, total)[r] == Padded(best[r].item, p.padToken, p.maxLength))
           && (sequenceScores.Length != 0 ==> sequenceScores[..] == ScoresOf(best))
    {
      hide *;
      Separation(sequences.sequences);
      ghost var finals, total := Finals(p, Lanes(), sequences.Content(), norm), Repeat(p.batchSize, numReturnSequences);
      FinalsFull(p, Lanes(), sequences.Content(), norm);
      FinalizeBatches(sequences);
      forall b | 0 <= b < p.batchSize ensures Narrow(finals[b], p.maxLength) { FinalNarrow(b, sequences); }
      FillPad(output);
      ghost var blank, oldScores := Rows(output[..], p.maxLength, p.maxLength, total), sequenceScores[..];
      RowsWide(output[..], p.maxLength, total);
      BlankRows(output[..], p.maxLength, total, p.padToken);
      ReturnedNone(finals, numReturnSequences, blank, p.maxLength, oldScores);
      for batch := 0 to p.batchSize
        invariant forall b :: 0 <= b < p.batchSize ==> FinalOk(b, sequences) && FinalAt(b, sequences) == finals[b]
        invariant Narrow(Returned(finals, numReturnSequences, batch), p.maxLength)
          && Repeat(batch, numReturnSequences) <= total
        invariant Rows(output[..], p.maxLength, p.maxLength, total)
          == WithRows(blank, 0, Returned(finals, numReturnSequences, batch), p.maxLength)
        invariant sequenceScores.Length != 0 ==>
          sequenceScores[..] == Splice(oldScores, 0, ScoresOf(Returned(finals, numReturnSequences, batch)))
        modifies output, sequenceScores
      {
        RepeatGrows(batch, p.batchSize, numReturnSequences);
        RepeatIsProduct(batch, numReturnSequences);
        ReturnedStep(finals, numReturnSequences, batch, blank, p.maxLength, oldScores);
        FinalIs(batch, sequences);
        beamHyps[batch].Output(numReturnSequences, p.maxLength, hypothesisBuffer, sequences.sequences,
          output, batch * numReturnSequences, total, sequenceScores);
      }
      AllPadded(blank, Returned(finals, numReturnSequences, p.batchSize), p.padToken, p.maxLength);
      AllScores(oldScores, Returned(finals, numReturnSequences, p.batchSize));
    }

    lemma FinalNarrow(b: nat, sequences: Sequences)
      requires b < |beamHyps| && FinalOk(b, sequences) && sequences.maxLength == p.maxLength
      ensures Narrow(FinalAt(b, sequences), p.maxLength)
    {
      ReadableHyps(beamHyps[b].Contents(), hypothesisBuffer[..], sequences.sequences[..], p.maxLength);
    }

    lemma FinalIs(b: nat, sequences: Sequences)
      requires b < |beamHyps| && FinalOk(b, sequences)
      ensures var h := beamHyps[b];
        && h.Valid() && Readable(h.Contents(), hypothesisBuffer.Length, sequences.sequences.Length, sequences.maxLength)
        && FinalAt(b, sequences) == Mapped(Reader(hypothesisBuffer[..], sequences.sequences[..]), h.Contents())
        && |FinalAt(b, sequences)| == |h.Contents()| == h.beamsUsed
      ensures forall k :: 0 <= k <= |FinalAt(b, sequences)| ==>
        ScoresOf(beamHyps[b].Contents()[..k]) == ScoresOf(FinalAt(b, sequences)[..k])
    {
    }

    /** std::fill_n with the pad token. */
    method FillPad(output: array<int>)
      modifies output
      ensures forall i :: 0 <= i < output.Length ==> output[i] == p.padToken
    {
      for i := 0 to output.Length
        invariant forall k :: 0 <= k < i ==> output[k] == p.padToken
      {
        output[i] := p.padToken;
      }
    }
  }
}
