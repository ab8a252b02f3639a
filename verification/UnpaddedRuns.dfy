/** Runs of the top-k sampler, which does not pad: they count every EOS drawn, and so may stop before
    every entry has one. */
module UnpaddedRuns {
  import opened TokenSequences
  import opened Greedy

  ghost predicate AllReach(rows: seq<seq<int>>, s: nat) {
    forall b :: 0 <= b < |rows| ==> s <= |rows[b]|
  }

  /** How many of the tokens behind the prompts are EOS, in all rows together. */
  ghost function EosCount(eosToken: int, rows: seq<seq<int>>, s: nat): nat
    requires AllReach(rows, s)
  {
    if rows == [] then 0
    else EosCount(eosToken, rows[..|rows| - 1], s) + multiset(rows[|rows| - 1][s..])[eosToken]
  }

  lemma {:induction false} CountMore(eosToken: int, rows: seq<seq<int>>, tokens: seq<int>, s: nat)
    requires AllReach(rows, s) && |tokens| == |rows|
    ensures AllReach(Appended(rows, tokens), s)
    ensures EosCount(eosToken, Appended(rows, tokens), s) == EosCount(eosToken, rows, s) + multiset(tokens)[eosToken]
  {
    if rows != [] {
      var n, now := |rows| - 1, Appended(rows, tokens);
      CountMore(eosToken, rows[..n], tokens[..n], s);
      assert now[..n] == Appended(rows[..n], tokens[..n]);
      CountOne(eosToken, rows[n], tokens[n], s);
      CountOne(eosToken, tokens[..n], tokens[n], 0);
      assert tokens == tokens[..n] + [tokens[n]];
    }
  }

  lemma CountOne(eosToken: int, row: seq<int>, token: int, s: nat)
    requires s <= |row|
    ensures multiset((row + [token])[s..])[eosToken]
      == multiset(row[s..])[eosToken] + if token == eosToken then 1 else 0
    ensures row[0..] == row && (row + [token])[0..] == row + [token]
  {
    assert (row + [token])[s..] == row[s..] + [token];
  }

  lemma {:induction false} NoneCounted(eosToken: int, rows: seq<seq<int>>, s: nat)
    requires forall b :: 0 <= b < |rows| ==> |rows[b]| == s
    ensures EosCount(eosToken, rows, s) == 0
  {
    if rows != [] {
      NoneCounted(eosToken, rows[..|rows| - 1], s);
      assert rows[|rows| - 1][s..] == [];
    }
  }

  /** Every EOS counts down, and done is set as the counter reaches 0. */
  lemma {:induction false} TurnsCountAll(p: Params, c: Cells, tokens: seq<int>, k: nat)
    requires Shaped(p, c) && |tokens| == p.batchSize && k <= p.batchSize
    ensures var r := Turns(p, c, tokens, false, k);
      && r.notDoneCount == c.notDoneCount - multiset(tokens[..k])[p.eosToken]
      && r.done == (c.done || (c.notDoneCount > 0 && r.notDoneCount <= 0))
  {
    if k > 0 {
      TurnsCountAll(p, c, tokens, k - 1);
      assert tokens[..k] == tokens[..k - 1] + [tokens[k - 1]];
    }
  }

  /** The counter is the batch size less the EOS tokens drawn, and the run is done once there are as many of those as
      entries, whichever entries they belong to, or the rows are full. */
  ghost predicate CountInv(p: Params, prompts: seq<seq<int>>, st: State, s: nat, length: nat) {
    && Fits(p, st) && |prompts| == p.batchSize > 0 && s <= length
    && (forall b :: 0 <= b < p.batchSize ==>
      |prompts[b]| == s && |st.rows[b]| == length && prompts[b] <= st.rows[b])
    && st.cells.notDoneCount == p.batchSize - EosCount(p.eosToken, st.rows, s)
    && (st.cells.done <==> EosCount(p.eosToken, st.rows, s) >= p.batchSize || length == p.maxLength)
  }

  lemma InitialCount(p: Params, prompts: seq<seq<int>>, s: nat, st: State)
    requires Initial(p, prompts, s, st)
    ensures CountInv(p, prompts, st, s, s)
  {
    NoneCounted(p.eosToken, prompts, s);
  }

  lemma UnpaddedStepIs(p: Params, st: State, tokens: seq<int>, length: nat)
    requires Fits(p, st) && |tokens| == p.batchSize
    ensures var r, before := Step(p, st, tokens, false, length), st.cells.notDoneCount;
      && r.rows == Appended(st.rows, tokens)
      && r.cells.notDoneCount == before - multiset(tokens)[p.eosToken]
      && r.cells.done == (st.cells.done || (before > 0 && r.cells.notDoneCount <= 0) || length + 1 == p.maxLength)
  {
    hide Turns, Appended;
    TurnsAre(p, st.cells, tokens, false, p.batchSize);
    TurnsCountAll(p, st.cells, tokens, p.batchSize);
    assert tokens[..p.batchSize] == tokens;
    assert Turns(p, st.cells, tokens, false, p.batchSize).nextTokens == tokens;
  }

  /** Every step of the top-k sampler keeps this, whatever it draws. */
  lemma UnpaddedStepCounts(p: Params, prompts: seq<seq<int>>, st: State, tokens: seq<int>, s: nat, length: nat)
    requires CountInv(p, prompts, st, s, length) && |tokens| == p.batchSize && !st.cells.done
    ensures CountInv(p, prompts, Step(p, st, tokens, false, length), s, length + 1)
    ensures Step(p, st, tokens, false, length).rows == Appended(st.rows, tokens)
  {
    hide EosCount, Step;
    UnpaddedStepIs(p, st, tokens, length);
    CountMore(p.eosToken, st.rows, tokens, s);
  }

  /** The rows one token earlier. */
  ghost function Shorter(rows: seq<seq<int>>): (r: seq<seq<int>>)
    ensures |r| == |rows|
  {
    seq(|rows|, b requires 0 <= b < |rows| => if rows[b] == [] then [] else rows[b][..|rows[b]| - 1])
  }

  ghost predicate CountedBelow(p: Params, rows: seq<seq<int>>, s: nat) {
    AllReach(rows, s) && EosCount(p.eosToken, rows, s) < p.batchSize
  }

  lemma BelowBefore(p: Params, prompts: seq<seq<int>>, st: State, tokens: seq<int>, s: nat, length: nat)
    requires CountInv(p, prompts, st, s, length) && |tokens| == p.batchSize && !st.cells.done
    ensures CountedBelow(p, Shorter(Step(p, st, tokens, false, length).rows), s)
  {
    hide EosCount, Step;
    UnpaddedStepCounts(p, prompts, st, tokens, s, length);
    assert Shorter(Appended(st.rows, tokens)) == st.rows;
  }

  /** What such a run returns: rows of one length that continue the prompts, with as many EOS tokens as entries or of
      full length, and fewer one token earlier. */
  ghost predicate StoppedByCount(p: Params, prompts: seq<seq<int>>, rows: seq<seq<int>>, s: nat, length: nat) {
    && |rows| == |prompts| == p.batchSize && s < length <= p.maxLength
    && (forall b :: 0 <= b < p.batchSize ==>
      |prompts[b]| == s && |rows[b]| == length && prompts[b] <= rows[b])
    && (length == p.maxLength || EosCount(p.eosToken, rows, s) >= p.batchSize)
    && CountedBelow(p, Shorter(rows), s)
  }

  lemma CountStops(p: Params, prompts: seq<seq<int>>, st: State, s: nat, length: nat)
    requires CountInv(p, prompts, st, s, length) && st.cells.done && s < length <= p.maxLength
      && CountedBelow(p, Shorter(st.rows), s)
    ensures StoppedByCount(p, prompts, st.rows, s, length)
  {
    hide EosCount;
  }
}
