/** The generation loop's model inputs and key/value rows, and why incremental decoding equals recomputing. */
module Generation {
  import opened FlatRows
  import opened TokenSequences
  import opened PositionTensors

  // ----- the model, row by row -----

  /** What a causal model sees of one token: the token, the mask up to it, and its position. */
  datatype Fed = Fed(token: int, mask: seq<int>, position: int)

  /** One model run on one row: every input token gets a key/value column computed from the columns before it. */
  function Extend<KV>(cell: (seq<KV>, Fed) -> KV, past: seq<KV>, ids: seq<int>, mask: seq<int>,
      positions: seq<int>): (r: seq<KV>)
    requires |mask| == |past| + |ids| && |positions| == |ids|
    ensures |r| == |mask|
    decreases |ids|
  {
    if ids == [] then past
    else
      var n := |ids| - 1;
      var before := Extend(cell, past, ids[..n], mask[..|mask| - 1], positions[..n]);
      before + [cell(before, Fed(ids[n], mask, positions[n]))]
  }

  /** The columns of a whole history. */
  function Fold<KV>(cell: (seq<KV>, Fed) -> KV, history: seq<Fed>): (r: seq<KV>)
    ensures |r| == |history|
  {
    if history == [] then []
    else
      var before := Fold(cell, history[..|history| - 1]);
      before + [cell(before, history[|history| - 1])]
  }

  /** The history of a row fed in one go. */
  function History(ids: seq<int>, mask: seq<int>, positions: seq<int>): (r: seq<Fed>)
    requires |ids| == |mask| == |positions|
    ensures |r| == |ids|
  {
    seq(|ids|, i requires 0 <= i < |ids| => Fed(ids[i], mask[..i + 1], positions[i]))
  }

  /** A row recomputed from scratch under a mask. */
  function FromScratch<KV>(cell: (seq<KV>, Fed) -> KV, ids: seq<int>, mask: seq<int>): (r: seq<KV>)
    requires |ids| == |mask|
  {
    Extend(cell, [], ids, mask, PositionsOf(mask))
  }

  lemma {:induction false} ScratchIsFold<KV>(cell: (seq<KV>, Fed) -> KV, ids: seq<int>, mask: seq<int>,
      positions: seq<int>)
    requires |ids| == |mask| == |positions|
    ensures Extend(cell, [], ids, mask, positions) == Fold(cell, History(ids, mask, positions))
  {
    if ids != [] {
      var n := |ids| - 1;
      ScratchIsFold(cell, ids[..n], mask[..n], positions[..n]);
      HistoryLess(ids, mask, positions);
    }
  }

  lemma HistoryLess(ids: seq<int>, mask: seq<int>, positions: seq<int>)
    requires |ids| == |mask| == |positions| > 0
    ensures var (n, h) := (|ids| - 1, History(ids, mask, positions));
      h[..n] == History(ids[..n], mask[..n], positions[..n]) && h[n] == Fed(ids[n], mask, positions[n])
  {
    var n := |ids| - 1;
    assert mask[..n + 1] == mask;
    forall i | 0 <= i < n ensures History(ids[..n], mask[..n], positions[..n])[i] == History(ids, mask, positions)[i] {
      assert mask[..n][..i + 1] == mask[..i + 1];
    }
  }

  lemma FoldMore<KV>(cell: (seq<KV>, Fed) -> KV, history: seq<Fed>, fed: Fed)
    ensures Fold(cell, history + [fed]) == Fold(cell, history) + [cell(Fold(cell, history), fed)]
  {
    assert (history + [fed])[..|history|] == history;
  }

  lemma ExtendOne<KV>(cell: (seq<KV>, Fed) -> KV, past: seq<KV>, token: int, mask: seq<int>, position: int)
    requires |mask| == |past| + 1
    ensures Extend(cell, past, [token], mask, [position]) == past + [cell(past, Fed(token, mask, position))]
  {
  }

  // ----- the inputs of all rows -----

  datatype Inputs = Inputs(ids: seq<seq<int>>, masks: seq<seq<int>>, positions: seq<seq<int>>)

  datatype Cache<KV> = Cache(inputs: Inputs, pasts: seq<seq<KV>>, presents: seq<seq<KV>>)

  predicate Fit<KV>(inputs: Inputs, pasts: seq<seq<KV>>) {
    && |inputs.ids| == |inputs.masks| == |inputs.positions| == |pasts|
    && forall r :: 0 <= r < |pasts| ==> FitRow(pasts[r], inputs.ids[r], inputs.masks[r], inputs.positions[r])
  }

  predicate FitRow<KV>(past: seq<KV>, ids: seq<int>, mask: seq<int>, positions: seq<int>) {
    |mask| == |past| + |ids| && |positions| == |ids|
  }

  /** State::Run: the model on every row. */
  function Model<KV>(cell: (seq<KV>, Fed) -> KV, inputs: Inputs, pasts: seq<seq<KV>>): (r: seq<seq<KV>>)
    requires Fit(inputs, pasts)
    ensures |r| == |pasts| && forall i :: 0 <= i < |r| ==> |r[i]| == |inputs.masks[i]|
  {
    seq(|pasts|, i requires 0 <= i < |pasts| =>
      Extend(cell, pasts[i], inputs.ids[i], inputs.masks[i], inputs.positions[i]))
  }

  function Columns(values: seq<int>): (r: seq<seq<int>>)
    ensures |r| == |values|
  {
    seq(|values|, i requires 0 <= i < |values| => [values[i]])
  }

  /** What the search hands to the next run: parent rows (none for a greedy search) and tokens. */
  datatype Move = Move(indices: seq<nat>, tokens: seq<int>)

  predicate Proper(m: Move, rows: nat) {
    |m.tokens| == rows && (m.indices == [] || (|m.indices| == rows && InRange(m.indices, rows)))
  }

  /** The row that row i continues. */
  function Parent(m: Move, rows: nat, i: nat): (r: nat)
    requires Proper(m, rows) && i < rows
    ensures r < rows
  {
    if m.indices == [] then i else m.indices[i]
  }

  /** KV_Cache::Update. */
  function Reordered<T>(rows: seq<T>, m: Move): (r: seq<T>)
    requires Proper(m, |rows|)
    ensures |r| == |rows| && forall i :: 0 <= i < |rows| ==> r[i] == rows[Parent(m, |rows|, i)]
  {
    if m.indices == [] then rows else Gather(rows, m.indices)
  }

  /** The token rows after a move. */
  function Moved(rows: seq<seq<int>>, m: Move): (r: seq<seq<int>>)
    requires Proper(m, |rows|)
    ensures |r| == |rows| && forall i :: 0 <= i < |rows| ==> r[i] == rows[Parent(m, |rows|, i)] + [m.tokens[i]]
  {
    if m.indices == [] then Appended(rows, m.tokens) else Extended(rows, m.indices, m.tokens)
  }

  /** The first run, on the prompts. */
  ghost function FirstInputs(prompts: seq<seq<int>>, padToken: int): Inputs {
    Inputs(prompts, MasksOf(prompts, padToken), AllPositions(MasksOf(prompts, padToken)))
  }

  function Empties<KV>(rows: nat): (r: seq<seq<KV>>)
    ensures |r| == rows && forall i :: 0 <= i < rows ==> r[i] == []
  {
    seq(rows, _ => [])
  }

  ghost function First<KV>(cell: (seq<KV>, Fed) -> KV, prompts: seq<seq<int>>, padToken: int): (r: Cache<KV>)
  {
    Cache(FirstInputs(prompts, padToken), Empties(|prompts|),
      Model(cell, FirstInputs(prompts, padToken), Empties(|prompts|)))
  }

  /** Every present is as long as its mask. */
  ghost predicate Level<KV>(c: Cache<KV>) {
    && |c.presents| == |c.inputs.masks|
    && forall r :: 0 <= r < |c.presents| ==> |c.presents[r]| == |c.inputs.masks[r]|
  }

  /** All masks have the same width. */
  ghost predicate Even(masks: seq<seq<int>>, width: nat) {
    forall r :: 0 <= r < |masks| ==> |masks[r]| == width
  }

  /** A later run: inputs, positions and mask, then the caches, then the model. */
  ghost function NextInputs(inputs: Inputs, m: Move): Inputs {
    Inputs(Columns(m.tokens), Grown(inputs.masks), Columns(Newest(Grown(inputs.masks))))
  }

  ghost function Later<KV>(cell: (seq<KV>, Fed) -> KV, c: Cache<KV>, m: Move, width: nat): (r: Cache<KV>)
    requires Level(c) && Even(c.inputs.masks, width) && Proper(m, |c.presents|)
    ensures Level(r) && Even(r.inputs.masks, width + 1) && |r.presents| == |r.pasts| == |c.presents|
  {
    var pasts := Reordered(c.presents, m);
    var inputs := NextInputs(c.inputs, m);
    assert Fit(inputs, pasts);
    Cache(inputs, pasts, Model(cell, inputs, pasts))
  }

  // ----- whole runs -----

  ghost predicate AllProper(moves: seq<Move>, rows: nat) {
    forall t :: 0 <= t < |moves| ==> Proper(moves[t], rows)
  }

  /** The token rows after some moves. */
  ghost function RowsAfter(prompts: seq<seq<int>>, moves: seq<Move>): (r: seq<seq<int>>)
    requires AllProper(moves, |prompts|)
    ensures |r| == |prompts|
  {
    if moves == [] then prompts
    else Moved(RowsAfter(prompts, moves[..|moves| - 1]), moves[|moves| - 1])
  }

  /** The cache after the run that follows some moves. */
  ghost function CacheAfter<KV>(cell: (seq<KV>, Fed) -> KV, prompts: seq<seq<int>>, width: nat, padToken: int,
      moves: seq<Move>): (r: Cache<KV>)
    requires AllProper(moves, |prompts|) && Even(prompts, width)
    ensures Level(r) && Even(r.inputs.masks, width + |moves|)
      && |r.presents| == |r.pasts| == |r.inputs.ids| == |prompts|
  {
    if moves == [] then First(cell, prompts, padToken)
    else Later(cell, CacheAfter(cell, prompts, width, padToken, moves[..|moves| - 1]), moves[|moves| - 1],
      width + |moves| - 1)
  }

  /** What the columns of every row were computed from. */
  ghost function Histories(prompts: seq<seq<int>>, width: nat, padToken: int, moves: seq<Move>): (r: seq<seq<Fed>>)
    requires AllProper(moves, |prompts|) && Even(prompts, width)
    ensures |r| == |prompts|
  {
    if moves == [] then
      seq(|prompts|, i requires 0 <= i < |prompts| =>
        History(prompts[i], MaskOf(prompts[i], padToken), PositionsOf(MaskOf(prompts[i], padToken))))
    else
      Fedded(Histories(prompts, width, padToken, moves[..|moves| - 1]), moves[|moves| - 1],
        MasksAfter(prompts, padToken, |moves|))
  }

  /** Histories reordered like the cache, each with its row's new token. */
  ghost function Fedded(before: seq<seq<Fed>>, m: Move, masks: seq<seq<int>>): (r: seq<seq<Fed>>)
    requires Proper(m, |before|) && |masks| == |before|
    ensures |r| == |before|
    ensures forall i :: 0 <= i < |r| ==> r[i] == before[Parent(m, |before|, i)] + [FedBy(m, masks, i)]
  {
    seq(|before|, i requires 0 <= i < |before| => before[Parent(m, |before|, i)] + [FedBy(m, masks, i)])
  }

  /** The masks only grow: they are never reordered. */
  ghost function MasksAfter(prompts: seq<seq<int>>, padToken: int, steps: nat): (r: seq<seq<int>>)
    ensures |r| == |prompts|
  {
    if steps == 0 then MasksOf(prompts, padToken) else Grown(MasksAfter(prompts, padToken, steps - 1))
  }

  function TokensOf(history: seq<Fed>): (r: seq<int>)
    ensures |r| == |history|
  {
    seq(|history|, i requires 0 <= i < |history| => history[i].token)
  }

  lemma {:induction false} MasksAre<KV>(cell: (seq<KV>, Fed) -> KV, prompts: seq<seq<int>>, width: nat, padToken: int,
      moves: seq<Move>)
    requires AllProper(moves, |prompts|) && Even(prompts, width)
    ensures CacheAfter(cell, prompts, width, padToken, moves).inputs.masks == MasksAfter(prompts, padToken, |moves|)
  {
    hide Model, Reordered, Grown;
    if moves != [] {
      MasksAre(cell, prompts, width, padToken, moves[..|moves| - 1]);
    }
  }

  /** Coherence: after every move, each row's columns are those of a history whose tokens are exactly the row's. */
  lemma {:induction false} Coherent<KV>(cell: (seq<KV>, Fed) -> KV, prompts: seq<seq<int>>, width: nat, padToken: int,
      moves: seq<Move>, r: nat)
    requires AllProper(moves, |prompts|) && Even(prompts, width) && r < |prompts|
    ensures CacheAfter(cell, prompts, width, padToken, moves).presents[r]
      == Fold(cell, Histories(prompts, width, padToken, moves)[r])
    ensures TokensOf(Histories(prompts, width, padToken, moves)[r]) == RowsAfter(prompts, moves)[r]
  {
    hide *;
    if moves == [] {
      CoherentStart(cell, prompts, width, padToken, r);
    } else {
      var was := moves[..|moves| - 1];
      AllProperIs(moves, |prompts|);
      Coherent(cell, prompts, width, padToken, was, Parent(moves[|moves| - 1], |prompts|, r));
      LaterAt(cell, prompts, width, padToken, moves, r);
      FollowsIs(cell, CacheAfter(cell, prompts, width, padToken, was),
        CacheAfter(cell, prompts, width, padToken, moves),
                NewFed(prompts, padToken, moves, r), Parent(moves[|moves| - 1], |prompts|, r), r);
      RowUnfolds(prompts, width, padToken, moves, r);
      var history, fed := Histories(prompts, width, padToken, was)[Parent(moves[|moves| - 1], |prompts|, r)],
        NewFed(prompts, padToken, moves, r);
      FoldMore(cell, history, fed);
      TokensMore(history, fed);
    }
  }

  /** What row r is fed by a move. */
  function FedBy(m: Move, masks: seq<seq<int>>, r: nat): Fed
    requires r < |m.tokens| == |masks|
  {
    Fed(m.tokens[r], masks[r], Ones(masks[r]) - 1)
  }

  /** What row r is fed by the last move. */
  ghost function NewFed(prompts: seq<seq<int>>, padToken: int, moves: seq<Move>, r: nat): Fed
    requires AllProper(moves, |prompts|) && r < |prompts| && moves != []
  {
    FedBy(moves[|moves| - 1], MasksAfter(prompts, padToken, |moves|), r)
  }

  lemma NewFedIs(prompts: seq<seq<int>>, padToken: int, moves: seq<Move>, r: nat)
    requires AllProper(moves, |prompts|) && r < |prompts| && moves != []
    ensures |moves[|moves| - 1].tokens| == |prompts|
    ensures NewFed(prompts, padToken, moves, r) == FedBy(moves[|moves| - 1], MasksAfter(prompts, padToken, |moves|), r)
  {
  }

  lemma CoherentStart<KV>(cell: (seq<KV>, Fed) -> KV, prompts: seq<seq<int>>, width: nat, padToken: int, r: nat)
    requires AllProper([], |prompts|) && Even(prompts, width) && r < |prompts|
    ensures CacheAfter(cell, prompts, width, padToken, []).presents[r]
      == Fold(cell, Histories(prompts, width, padToken, [])[r])
    ensures TokensOf(Histories(prompts, width, padToken, [])[r]) == RowsAfter(prompts, [])[r]
  {
    hide Extend, Fold, Ones;
    var mask := MaskOf(prompts[r], padToken);
    ScratchIsFold(cell, prompts[r], mask, PositionsOf(mask));
  }

  lemma AllProperIs(moves: seq<Move>, rows: nat)
    requires AllProper(moves, rows) && moves != []
    ensures AllProper(moves[..|moves| - 1], rows) && Proper(moves[|moves| - 1], rows)
      && |moves[|moves| - 1].tokens| == rows
  {
  }

  lemma TokensMore(history: seq<Fed>, fed: Fed)
    ensures TokensOf(history + [fed]) == TokensOf(history) + [fed.token]
  {
  }

  /** Row r of a later run continues row `parent` of the run before it with one token. */
  ghost predicate Follows<KV>(cell: (seq<KV>, Fed) -> KV, c: Cache<KV>, d: Cache<KV>, fed: Fed, parent: nat, r: nat) {
    && parent < |c.presents| && r < |d.presents| == |d.pasts| == |d.inputs.ids| == |d.inputs.positions|
    && d.pasts[r] == c.presents[parent] && d.inputs.ids[r] == [fed.token] && d.inputs.positions[r] == [fed.position]
    && d.presents[r] == c.presents[parent] + [cell(c.presents[parent], fed)]
  }

  lemma LaterAt<KV>(cell: (seq<KV>, Fed) -> KV, prompts: seq<seq<int>>, width: nat, padToken: int, moves: seq<Move>,
      r: nat)
    requires AllProper(moves, |prompts|) && Even(prompts, width) && r < |prompts| && moves != []
    ensures AllProper(moves[..|moves| - 1], |prompts|) && Proper(moves[|moves| - 1], |prompts|)
    ensures Follows(cell, CacheAfter(cell, prompts, width, padToken, moves[..|moves| - 1]),
      CacheAfter(cell, prompts, width, padToken, moves),
      NewFed(prompts, padToken, moves, r), Parent(moves[|moves| - 1], |prompts|, r), r)
  {
    hide *;
    AllProperIs(moves, |prompts|);
    CacheUnfolds(cell, prompts, width, padToken, moves);
    MasksAre(cell, prompts, width, padToken, moves);
    NewFedIs(prompts, padToken, moves, r);
    LaterRow(cell, CacheAfter(cell, prompts, width, padToken, moves[..|moves| - 1]), moves[|moves| - 1],
      width + |moves| - 1, r);
  }

  lemma FollowsIs<KV>(cell: (seq<KV>, Fed) -> KV, c: Cache<KV>, d: Cache<KV>, fed: Fed, parent: nat, r: nat)
    requires Follows(cell, c, d, fed, parent, r)
    ensures parent < |c.presents| && r < |d.presents| == |d.pasts| == |d.inputs.ids| == |d.inputs.positions|
    ensures d.pasts[r] == c.presents[parent] && d.inputs.ids[r] == [fed.token]
      && d.inputs.positions[r] == [fed.position]
    ensures d.presents[r] == c.presents[parent] + [cell(c.presents[parent], fed)]
  {
  }

  lemma CacheUnfolds<KV>(cell: (seq<KV>, Fed) -> KV, prompts: seq<seq<int>>, width: nat, padToken: int,
      moves: seq<Move>)
    requires AllProper(moves, |prompts|) && Even(prompts, width) && moves != []
    ensures AllProper(moves[..|moves| - 1], |prompts|) && Proper(moves[|moves| - 1], |prompts|)
    ensures var c := CacheAfter(cell, prompts, width, padToken, moves[..|moves| - 1]);
      && |c.presents| == |prompts| && Level(c) && Even(c.inputs.masks, width + |moves| - 1)
      && CacheAfter(cell, prompts, width, padToken, moves) == Later(cell, c, moves[|moves| - 1], width + |moves| - 1)
  {
    hide Later, Level, Proper, Even;
  }

  lemma RowUnfolds(prompts: seq<seq<int>>, width: nat, padToken: int, moves: seq<Move>, r: nat)
    requires AllProper(moves, |prompts|) && Even(prompts, width) && r < |prompts| && moves != []
    ensures AllProper(moves[..|moves| - 1], |prompts|) && Proper(moves[|moves| - 1], |prompts|)
    ensures var (was, parent) := (moves[..|moves| - 1], Parent(moves[|moves| - 1], |prompts|, r));
      && Histories(prompts, width, padToken, moves)[r]
        == Histories(prompts, width, padToken, was)[parent] + [NewFed(prompts, padToken, moves, r)]
      && RowsAfter(prompts, moves)[r] == RowsAfter(prompts, was)[parent] + [NewFed(prompts, padToken, moves, r).token]
  {
    hide Ones, Parent, MasksAfter, Fedded, Moved;
  }

  /** One row of a later run. */
  lemma LaterRow<KV>(cell: (seq<KV>, Fed) -> KV, c: Cache<KV>, m: Move, width: nat, r: nat)
    requires Level(c) && Even(c.inputs.masks, width) && Proper(m, |c.presents|) && r < |c.presents|
    ensures |m.tokens| == |c.presents| == |Later(cell, c, m, width).inputs.masks|
    ensures Follows(cell, c, Later(cell, c, m, width),
      FedBy(m, Later(cell, c, m, width).inputs.masks, r), Parent(m, |c.presents|, r), r)
  {
    hide Ones, Parent, Reordered;
    var mask := NextInputs(c.inputs, m).masks[r];
    ExtendOne(cell, c.presents[Parent(m, |c.presents|, r)], m.tokens[r], mask, Ones(mask) - 1);
  }

  /** At every run after the first: the past row is the history of all tokens but the last, and the
      last is the input. */
  lemma PastIsAllButLast<KV>(cell: (seq<KV>, Fed) -> KV, prompts: seq<seq<int>>, width: nat, padToken: int,
      moves: seq<Move>, r: nat)
    requires AllProper(moves, |prompts|) && Even(prompts, width) && r < |prompts| && moves != []
    ensures RowsAfter(prompts, moves)[r] != []
    ensures var (c, row) := (CacheAfter(cell, prompts, width, padToken, moves), RowsAfter(prompts, moves)[r]);
      var history := Histories(prompts, width, padToken, moves)[r];
      && |history| == |row| && c.pasts[r] == Fold(cell, history[..|row| - 1])
      && TokensOf(history[..|row| - 1]) == row[..|row| - 1]
      && c.inputs.ids[r] == [row[|row| - 1]]
  {
    hide *;
    var was := moves[..|moves| - 1];
    AllProperIs(moves, |prompts|);
    var parent := Parent(moves[|moves| - 1], |prompts|, r);
    Coherent(cell, prompts, width, padToken, was, parent);
    LaterAt(cell, prompts, width, padToken, moves, r);
    FollowsIs(cell, CacheAfter(cell, prompts, width, padToken, was), CacheAfter(cell, prompts, width, padToken, moves),
              NewFed(prompts, padToken, moves, r), parent, r);
    RowUnfolds(prompts, width, padToken, moves, r);
    var before, row := Histories(prompts, width, padToken, was)[parent], RowsAfter(prompts, was)[parent];
    assert (before + [NewFed(prompts, padToken, moves, r)])[..|before|] == before;
    assert (row + [NewFed(prompts, padToken, moves, r).token])[..|row|] == row;
  }

  /** Lockstep: the presents, the masks and the token rows are equally long; the pasts are one token behind. */
  lemma {:induction false} Lockstep<KV>(cell: (seq<KV>, Fed) -> KV, prompts: seq<seq<int>>, width: nat, padToken: int,
      moves: seq<Move>, r: nat)
    requires AllProper(moves, |prompts|) && Even(prompts, width) && r < |prompts|
    ensures var c := CacheAfter(cell, prompts, width, padToken, moves);
      && |c.inputs.masks| == |prompts|
      && |RowsAfter(prompts, moves)[r]| == |c.inputs.masks[r]| == |c.presents[r]| == width + |moves|
      && (moves != [] ==> |c.pasts[r]| == width + |moves| - 1)
  {
    hide Model, NextInputs, Histories, First, Later;
    MasksAre(cell, prompts, width, padToken, moves);
    Coherent(cell, prompts, width, padToken, moves, r);
    if moves != [] {
      PastIsAllButLast(cell, prompts, width, padToken, moves, r);
    }
  }

  // ----- rows that keep their own mask -----

  lemma {:induction false} MaskRow(prompts: seq<seq<int>>, padToken: int, steps: nat, r: nat)
    requires r < |prompts|
    ensures MasksAfter(prompts, padToken, steps)[r] == MaskOf(prompts[r], padToken) + seq(steps, _ => 1)
  {
    if steps > 0 {
      MaskRow(prompts, padToken, steps - 1, r);
      assert seq(steps, _ => 1) == seq(steps - 1, _ => 1) + [1];
    }
  }

  /** Every ancestor of row r had a prompt with r's own mask. */
  ghost predicate Kin(prompts: seq<seq<int>>, padToken: int, moves: seq<Move>, r: nat)
    requires AllProper(moves, |prompts|) && r < |prompts|
  {
    moves == [] ||
    var parent := Parent(moves[|moves| - 1], |prompts|, r);
    MaskOf(prompts[parent], padToken) == MaskOf(prompts[r], padToken)
      && Kin(prompts, padToken, moves[..|moves| - 1], parent)
  }

  lemma AppendCut<T>(a: seq<T>, x: T)
    ensures (a + [x])[..|a|] == a && (a + [x])[|a|] == x
  {
  }

  lemma HistoryMore(ids: seq<int>, mask: seq<int>, token: int)
    requires |ids| == |mask|
    ensures History(ids + [token], mask + [1], PositionsOf(mask + [1]))
         == History(ids, mask, PositionsOf(mask)) + [Fed(token, mask + [1], Ones(mask + [1]) - 1)]
  {
    hide *;
    PositionsMore(mask, 1);
    OnesMore(mask, 1);
    HistoryLess(ids + [token], mask + [1], PositionsOf(mask + [1]));
    AppendCut(ids, token);
    AppendCut(mask, 1);
    AppendCut(PositionsOf(mask), Ones(mask + [1]) - 1);
    var h := History(ids + [token], mask + [1], PositionsOf(mask + [1]));
    assert h == h[..|ids|] + [h[|ids|]];
  }

  /** Incremental decoding equals recomputing: the cached columns of such a row are those of running the model once on
      the row's tokens, under the row's own mask and with the positions that mask gives. */
  lemma IncrementalIsFromScratch<KV>(cell: (seq<KV>, Fed) -> KV, prompts: seq<seq<int>>, width: nat, padToken: int,
      moves: seq<Move>, r: nat)
    requires AllProper(moves, |prompts|) && Even(prompts, width) && r < |prompts| && Kin(prompts, padToken, moves, r)
    ensures |RowsAfter(prompts, moves)[r]| == |MasksAfter(prompts, padToken, |moves|)[r]|
    ensures CacheAfter(cell, prompts, width, padToken, moves).presents[r]
         == FromScratch(cell, RowsAfter(prompts, moves)[r], MasksAfter(prompts, padToken, |moves|)[r])
  {
    hide *;
    Coherent(cell, prompts, width, padToken, moves, r);
    HistoryIsOwn(prompts, width, padToken, moves, r);
    ScratchUnfolds(cell, RowsAfter(prompts, moves)[r], MasksAfter(prompts, padToken, |moves|)[r]);
  }

  lemma ScratchUnfolds<KV>(cell: (seq<KV>, Fed) -> KV, ids: seq<int>, mask: seq<int>)
    requires |ids| == |mask|
    ensures FromScratch(cell, ids, mask) == Fold(cell, History(ids, mask, PositionsOf(mask)))
  {
    ScratchIsFold(cell, ids, mask, PositionsOf(mask));
  }

  lemma {:induction false} HistoryIsOwn(prompts: seq<seq<int>>, width: nat, padToken: int, moves: seq<Move>, r: nat)
    requires AllProper(moves, |prompts|) && Even(prompts, width) && r < |prompts| && Kin(prompts, padToken, moves, r)
    ensures var (row, mask) := (RowsAfter(prompts, moves)[r], MasksAfter(prompts, padToken, |moves|)[r]);
      |row| == |mask| && Histories(prompts, width, padToken, moves)[r] == History(row, mask, PositionsOf(mask))
  {
    hide *;
    if moves == [] {
      HistoryStart(prompts, width, padToken, r);
    } else {
      AllProperIs(moves, |prompts|);
      var was, parent := moves[..|moves| - 1], Parent(moves[|moves| - 1], |prompts|, r);
      KinIs(prompts, padToken, moves, r);
      HistoryIsOwn(prompts, width, padToken, was, parent);
      RowUnfolds(prompts, width, padToken, moves, r);
      MaskUnfolds(prompts, padToken, |moves|, parent, r);
      var mask := MasksAfter(prompts, padToken, |was|)[parent];
      HistoryMore(RowsAfter(prompts, was)[parent], mask, NewFed(prompts, padToken, moves, r).token);
      NewFedIs(prompts, padToken, moves, r);
      FedByIs(moves[|moves| - 1], MasksAfter(prompts, padToken, |moves|), r);
    }
  }

  lemma HistoryStart(prompts: seq<seq<int>>, width: nat, padToken: int, r: nat)
    requires AllProper([], |prompts|) && Even(prompts, width) && r < |prompts|
    ensures var (row, mask) := (RowsAfter(prompts, [])[r], MasksAfter(prompts, padToken, 0)[r]);
      |row| == |mask| && Histories(prompts, width, padToken, [])[r] == History(row, mask, PositionsOf(mask))
  {
  }

  lemma KinIs(prompts: seq<seq<int>>, padToken: int, moves: seq<Move>, r: nat)
    requires AllProper(moves, |prompts|) && r < |prompts| && moves != []
    ensures AllProper(moves[..|moves| - 1], |prompts|) && Proper(moves[|moves| - 1], |prompts|)
    ensures Kin(prompts, padToken, moves, r) <==>
            MaskOf(prompts[Parent(moves[|moves| - 1], |prompts|, r)], padToken) == MaskOf(prompts[r], padToken)
            && Kin(prompts, padToken, moves[..|moves| - 1], Parent(moves[|moves| - 1], |prompts|, r))
  {
    hide MaskOf, Parent;
  }

  lemma MaskUnfolds(prompts: seq<seq<int>>, padToken: int, steps: nat, parent: nat, r: nat)
    requires steps > 0 && r < |prompts| && parent < |prompts|
      && MaskOf(prompts[parent], padToken) == MaskOf(prompts[r], padToken)
    ensures MasksAfter(prompts, padToken, steps)[r] == MasksAfter(prompts, padToken, steps - 1)[parent] + [1]
  {
    hide MaskOf;
    MaskRow(prompts, padToken, steps - 1, parent);
    MaskRow(prompts, padToken, steps - 1, r);
  }

  lemma FedByIs(m: Move, masks: seq<seq<int>>, r: nat)
    requires r < |m.tokens| == |masks|
    ensures FedBy(m, masks, r) == Fed(m.tokens[r], masks[r], Ones(masks[r]) - 1)
  {
  }
}
