/** Greedy and sampled search: end-of-sequence bookkeeping over whole runs. */
module Greedy {
  import opened TokenSequences

  datatype Params = Params(batchSize: nat, vocabSize: nat, maxLength: nat, eosToken: int, padToken: int)

  /** The per-entry cells and the counters. */
  datatype Cells = Cells(eosSeen: seq<bool>, nextTokens: seq<int>, notDoneCount: int, done: bool)

  datatype State = State(rows: seq<seq<int>>, cells: Cells)

  predicate Shaped(p: Params, c: Cells) {
    |c.eosSeen| == |c.nextTokens| == p.batchSize
  }

  // ----- one step -----

  /** SetNextToken. */
  function SetNext(p: Params, c: Cells, b: nat, token: int): (r: Cells)
    requires Shaped(p, c) && b < p.batchSize
    ensures Shaped(p, r)
  {
    if token == p.eosToken then
      Cells(c.eosSeen[b := true], c.nextTokens[b := token], c.notDoneCount - 1, c.done || c.notDoneCount - 1 == 0)
    else c.(nextTokens := c.nextTokens[b := token])
  }

  /** One entry's turn: a sampler that pads writes the pad token once the entry has seen EOS. */
  function Turn(p: Params, c: Cells, b: nat, token: int, pads: bool): (r: Cells)
    requires Shaped(p, c) && b < p.batchSize
    ensures Shaped(p, r)
  {
    if pads && c.eosSeen[b] then c.(nextTokens := c.nextTokens[b := p.padToken]) else SetNext(p, c, b, token)
  }

  /** The first k turns, given the token each entry would pick. */
  function Turns(p: Params, c: Cells, tokens: seq<int>, pads: bool, k: nat): (r: Cells)
    requires Shaped(p, c) && |tokens| == p.batchSize && k <= p.batchSize
    ensures Shaped(p, r)
  {
    if k == 0 then c else Turn(p, Turns(p, c, tokens, pads, k - 1), k - 1, tokens[k - 1], pads)
  }

  ghost predicate Fits(p: Params, st: State) {
    |st.rows| == p.batchSize && Shaped(p, st.cells)
  }

  /** A whole step; `length` is the length of the rows before it. */
  ghost function Step(p: Params, st: State, tokens: seq<int>, pads: bool, length: nat): (r: State)
    requires Fits(p, st) && |tokens| == p.batchSize
    ensures Fits(p, r)
  {
    var c := Turns(p, st.cells, tokens, pads, p.batchSize);
    State(Appended(st.rows, c.nextTokens), c.(done := c.done || length + 1 == p.maxLength))
  }

  // ----- what the turns amount to -----

  function Unfinished(eosSeen: seq<bool>): (n: nat)
    ensures n <= |eosSeen|
    ensures n == 0 <==> forall b :: 0 <= b < |eosSeen| ==> eosSeen[b]
  {
    if eosSeen == [] then 0
    else
      assert forall b :: 0 <= b < |eosSeen| - 1 ==> eosSeen[..|eosSeen| - 1][b] == eosSeen[b];
      Unfinished(eosSeen[..|eosSeen| - 1]) + if eosSeen[|eosSeen| - 1] then 0 else 1
  }

  lemma {:induction false} UnfinishedUpdate(eosSeen: seq<bool>, b: nat)
    requires b < |eosSeen|
    ensures Unfinished(eosSeen[b := true]) == Unfinished(eosSeen) - if eosSeen[b] then 0 else 1
  {
    var n := |eosSeen| - 1;
    if b < n {
      UnfinishedUpdate(eosSeen[..n], b);
      assert eosSeen[b := true][..n] == eosSeen[..n][b := true];
    } else {
      assert eosSeen[b := true][..n] == eosSeen[..n];
    }
  }

  /** How often a sampler that does not pad draws EOS again for an entry that has it. */
  function Redrawn(p: Params, eosSeen: seq<bool>, tokens: seq<int>, pads: bool, k: nat): (n: nat)
    requires |eosSeen| == |tokens| == p.batchSize && k <= p.batchSize
    ensures n == 0 <==> pads || forall b :: 0 <= b < k ==> !(eosSeen[b] && tokens[b] == p.eosToken)
  {
    if k == 0 then 0
    else Redrawn(p, eosSeen, tokens, pads, k - 1) + if !pads && eosSeen[k - 1] && tokens[k - 1] == p.eosToken then 1
      else 0
  }

  /** A turn touches its own entry only. */
  lemma TurnAt(p: Params, c: Cells, b: nat, token: int, pads: bool)
    requires Shaped(p, c) && b < p.batchSize
    ensures var r := Turn(p, c, b, token, pads);
      && r.eosSeen == c.eosSeen[b := c.eosSeen[b] || (token == p.eosToken && !(pads && c.eosSeen[b]))]
      && r.nextTokens == c.nextTokens[b := if pads && c.eosSeen[b] then p.padToken else token]
  {
    assert c.eosSeen[b := c.eosSeen[b]] == c.eosSeen;
  }

  /** The k-th turn touches entry k only. */
  lemma {:induction false} TurnsAre(p: Params, c: Cells, tokens: seq<int>, pads: bool, k: nat)
    requires Shaped(p, c) && |tokens| == p.batchSize && k <= p.batchSize
    ensures var r := Turns(p, c, tokens, pads, k);
      && (forall b :: k <= b < p.batchSize ==> r.eosSeen[b] == c.eosSeen[b] && r.nextTokens[b] == c.nextTokens[b])
      && (forall b :: 0 <= b < k ==> r.eosSeen[b] == (c.eosSeen[b] || tokens[b] == p.eosToken))
      && (forall b :: 0 <= b < k ==> r.nextTokens[b] == if pads && c.eosSeen[b] then p.padToken else tokens[b])
  {
    hide Turn;
    if k > 0 {
      TurnsAre(p, c, tokens, pads, k - 1);
      TurnAt(p, Turns(p, c, tokens, pads, k - 1), k - 1, tokens[k - 1], pads);
    }
  }

  lemma {:induction false} TurnsCount(p: Params, c: Cells, tokens: seq<int>, pads: bool, k: nat)
    requires Shaped(p, c) && |tokens| == p.batchSize && k <= p.batchSize
    ensures var r := Turns(p, c, tokens, pads, k);
      r.notDoneCount - Unfinished(r.eosSeen)
        == c.notDoneCount - Unfinished(c.eosSeen) - Redrawn(p, c.eosSeen, tokens, pads, k)
  {
    hide Unfinished, Turn;
    if k > 0 {
      TurnsCount(p, c, tokens, pads, k - 1);
      TurnsAre(p, c, tokens, pads, k - 1);
      TurnCount(p, Turns(p, c, tokens, pads, k - 1), k - 1, tokens[k - 1], pads);
    }
  }

  lemma TurnCount(p: Params, c: Cells, b: nat, token: int, pads: bool)
    requires Shaped(p, c) && b < p.batchSize
    ensures var r := Turn(p, c, b, token, pads);
      r.notDoneCount - Unfinished(r.eosSeen)
      == c.notDoneCount - Unfinished(c.eosSeen) - if !pads && c.eosSeen[b] && token == p.eosToken then 1 else 0
  {
    hide Unfinished;
    UnfinishedUpdate(c.eosSeen, b);
  }

  /** While the counter is right, done is set exactly when the last entry sees EOS. */
  lemma {:induction false} TurnsDone(p: Params, c: Cells, tokens: seq<int>, pads: bool, k: nat)
    requires Shaped(p, c) && |tokens| == p.batchSize && k <= p.batchSize
    requires c.notDoneCount == Unfinished(c.eosSeen) && Redrawn(p, c.eosSeen, tokens, pads, k) == 0
    ensures var r := Turns(p, c, tokens, pads, k);
      && r.done == (c.done || (Unfinished(r.eosSeen) == 0 && Unfinished(c.eosSeen) > 0))
      && Unfinished(r.eosSeen) <= Unfinished(c.eosSeen)
  {
    hide Unfinished, Turn;
    if k > 0 {
      var before := Turns(p, c, tokens, pads, k - 1);
      TurnsDone(p, c, tokens, pads, k - 1);
      TurnsCount(p, c, tokens, pads, k - 1);
      TurnsAre(p, c, tokens, pads, k - 1);
      TurnDone(p, before, k - 1, tokens[k - 1], pads);
    }
  }

  lemma TurnDone(p: Params, c: Cells, b: nat, token: int, pads: bool)
    requires Shaped(p, c) && b < p.batchSize && c.notDoneCount == Unfinished(c.eosSeen)
    requires pads || !(c.eosSeen[b] && token == p.eosToken)
    ensures var r := Turn(p, c, b, token, pads);
      && r.done == (c.done || (Unfinished(r.eosSeen) == 0 && Unfinished(c.eosSeen) > 0))
      && Unfinished(r.eosSeen) <= Unfinished(c.eosSeen)
  {
    hide Unfinished;
    UnfinishedUpdate(c.eosSeen, b);
  }

  // ----- the invariant of a run -----

  /** Once an entry has generated EOS, it generates only pad tokens. */
  predicate EosThenPad(p: Params, generated: seq<int>) {
    forall i, j :: 0 <= i < j < |generated| && generated[i] == p.eosToken ==> generated[j] == p.padToken
  }

  /** One entry: its row continues its prompt, EOS is followed by padding, and eos_seen_ tells whether it has EOS. */
  ghost predicate EntryOk(p: Params, prompt: seq<int>, row: seq<int>, eosSeen: bool) {
    && prompt <= row && EosThenPad(p, row[|prompt|..])
    && (eosSeen <==> p.eosToken in row[|prompt|..])
  }

  ghost predicate Inv(p: Params, prompts: seq<seq<int>>, st: State, length: nat) {
    && Fits(p, st) && |prompts| == p.batchSize && p.batchSize > 0
    && (forall b :: 0 <= b < p.batchSize ==>
      |st.rows[b]| == length && EntryOk(p, prompts[b], st.rows[b], st.cells.eosSeen[b]))
    && st.cells.notDoneCount == Unfinished(st.cells.eosSeen)
    && st.cells.done == (Unfinished(st.cells.eosSeen) == 0 || length == p.maxLength)
  }

  /** The next token an entry may get without breaking what has been said so far. */
  predicate Allowed(p: Params, eosSeen: bool, token: int) {
    eosSeen ==> token == p.padToken
  }

  lemma EntryStep(p: Params, prompt: seq<int>, row: seq<int>, eosSeen: bool, token: int)
    requires EntryOk(p, prompt, row, eosSeen)
    ensures EntryOk(p, prompt, row + [token], eosSeen || token == p.eosToken) <==> Allowed(p, eosSeen, token)
  {
    var g := row[|prompt|..];
    assert (row + [token])[|prompt|..] == g + [token];
    if eosSeen {
      var i :| 0 <= i < |g| && g[i] == p.eosToken;
      assert (g + [token])[i] == p.eosToken && (g + [token])[|g|] == token;
    }
    if Allowed(p, eosSeen, token) {
      forall i, j | 0 <= i < j < |g + [token]|
        && (g + [token])[i] == p.eosToken ensures (g + [token])[j] == p.padToken {
        assert i < |g| && g[i] in g;
      }
      if eosSeen || token == p.eosToken { assert p.eosToken in g + [token]; }
    }
  }

  /** The states of a run, until it is done. */
  lemma StepParts(p: Params, st: State, tokens: seq<int>, pads: bool, length: nat, b: nat)
    requires Fits(p, st) && |tokens| == p.batchSize && b < p.batchSize
    ensures var (r, seen) := (Step(p, st, tokens, pads, length), st.cells.eosSeen[b]);
      var token := if pads && seen then p.padToken else tokens[b];
      r.rows[b] == st.rows[b] + [token] && r.cells.eosSeen[b] == (seen || tokens[b] == p.eosToken)
  {
    TurnsAre(p, st.cells, tokens, pads, p.batchSize);
  }

  /** A step of an unfinished run with a sampler that pads keeps the invariant. */
  lemma PaddingStepKeepsInv(p: Params, prompts: seq<seq<int>>, st: State, tokens: seq<int>, length: nat)
    requires Inv(p, prompts, st, length) && |tokens| == p.batchSize && !st.cells.done
    ensures Inv(p, prompts, Step(p, st, tokens, true, length), length + 1)
  {
    var r := Step(p, st, tokens, true, length);
    forall b | 0 <= b < p.batchSize
      ensures |r.rows[b]| == length + 1 && EntryOk(p, prompts[b], r.rows[b], r.cells.eosSeen[b])
    {
      PaddingEntry(p, prompts, st, tokens, length, b);
    }
    Counters(p, st, tokens, true, length);
  }

  lemma PaddingEntry(p: Params, prompts: seq<seq<int>>, st: State, tokens: seq<int>, length: nat, b: nat)
    requires Inv(p, prompts, st, length) && |tokens| == p.batchSize && b < p.batchSize
    ensures var r := Step(p, st, tokens, true, length);
      |r.rows[b]| == length + 1 && EntryOk(p, prompts[b], r.rows[b], r.cells.eosSeen[b])
  {
    hide Step;
    StepParts(p, st, tokens, true, length, b);
    var seen := st.cells.eosSeen[b];
    var token := if seen then p.padToken else tokens[b];
    EntryStep(p, prompts[b], st.rows[b], seen, token);
  }

  lemma Counters(p: Params, st: State, tokens: seq<int>, pads: bool, length: nat)
    requires Fits(p, st) && |tokens| == p.batchSize && st.cells.notDoneCount == Unfinished(st.cells.eosSeen)
    ensures var r := Step(p, st, tokens, pads, length);
      && r.cells.notDoneCount == Unfinished(r.cells.eosSeen) - Redrawn(p, st.cells.eosSeen, tokens, pads, p.batchSize)
      && ((Redrawn(p, st.cells.eosSeen, tokens, pads, p.batchSize) == 0 && !st.cells.done
           && Unfinished(st.cells.eosSeen) > 0) ==>
            r.cells.done == (Unfinished(r.cells.eosSeen) == 0 || length + 1 == p.maxLength))
  {
    TurnsCount(p, st.cells, tokens, pads, p.batchSize);
    if Redrawn(p, st.cells.eosSeen, tokens, pads, p.batchSize) == 0 {
      TurnsDone(p, st.cells, tokens, pads, p.batchSize);
    }
  }

  /** The top-k sampler does not pad, so its step keeps the invariant exactly when every entry that has EOS happens to
      draw the pad token, and the pad token is not EOS itself. */
  lemma UnpaddedStepKeepsInvIff(p: Params, prompts: seq<seq<int>>, st: State, tokens: seq<int>, length: nat)
    requires Inv(p, prompts, st, length) && |tokens| == p.batchSize && !st.cells.done
    ensures Inv(p, prompts, Step(p, st, tokens, false, length), length + 1)
       <==> forall b :: 0 <= b < p.batchSize && st.cells.eosSeen[b] ==> tokens[b] == p.padToken != p.eosToken
  {
    var r := Step(p, st, tokens, false, length);
    Counters(p, st, tokens, false, length);
    forall b | 0 <= b < p.batchSize
      ensures |r.rows[b]| == length + 1
      ensures EntryOk(p, prompts[b], r.rows[b], r.cells.eosSeen[b]) <==> Allowed(p, st.cells.eosSeen[b], tokens[b])
    {
      StepParts(p, st, tokens, false, length, b);
      EntryStep(p, prompts[b], st.rows[b], st.cells.eosSeen[b], tokens[b]);
    }
  }

  ghost predicate DrawKeepsInv(p: Params, prompts: seq<seq<int>>, st: State, tokens: seq<int>, length: nat) {
    Fits(p, st) && |tokens| == p.batchSize && Inv(p, prompts, Step(p, st, tokens, false, length), length + 1)
  }

  /** So it is safe against every draw exactly as long as no entry has seen EOS. */
  lemma UnpaddedStepSafeIff(p: Params, prompts: seq<seq<int>>, st: State, length: nat)
    requires Inv(p, prompts, st, length) && !st.cells.done
    ensures |st.cells.eosSeen| == p.batchSize
    ensures (forall tokens: seq<int> :: |tokens| == p.batchSize ==> DrawKeepsInv(p, prompts, st, tokens, length))
       <==> true !in st.cells.eosSeen
  {
    hide *;
    Shapes(p, prompts, st, length);
    if true in st.cells.eosSeen {
      var b :| 0 <= b < p.batchSize && st.cells.eosSeen[b];
      var again := seq(p.batchSize, _ => p.eosToken);
      DrawKeepsInvIff(p, prompts, st, again, length);
      assert again[b] == p.eosToken;
      assert !DrawKeepsInv(p, prompts, st, again, length);
    } else {
      forall tokens: seq<int> | |tokens| == p.batchSize ensures DrawKeepsInv(p, prompts, st, tokens, length) {
        DrawKeepsInvIff(p, prompts, st, tokens, length);
      }
    }
  }

  lemma DrawKeepsInvIff(p: Params, prompts: seq<seq<int>>, st: State, tokens: seq<int>, length: nat)
    requires Inv(p, prompts, st, length) && |tokens| == p.batchSize == |st.cells.eosSeen| && !st.cells.done
    ensures DrawKeepsInv(p, prompts, st, tokens, length)
       <==> forall b :: 0 <= b < p.batchSize && st.cells.eosSeen[b] ==> tokens[b] == p.padToken != p.eosToken
  {
    hide Step, EntryOk;
    UnpaddedStepKeepsInvIff(p, prompts, st, tokens, length);
  }

  lemma Shapes(p: Params, prompts: seq<seq<int>>, st: State, length: nat)
    requires Inv(p, prompts, st, length)
    ensures Fits(p, st) && |st.cells.eosSeen| == p.batchSize
  {
  }

  /** Two entries, the first has seen EOS and draws it again: the run is declared done with the second unfinished. */
  lemma UnpaddedStepStopsEarly(p: Params, prompts: seq<seq<int>>, st: State, tokens: seq<int>, length: nat)
    requires p.batchSize == 2 && Inv(p, prompts, st, length) && length + 1 < p.maxLength
    requires st.cells.eosSeen == [true, false] && tokens == [p.eosToken, p.eosToken + 1]
    ensures var r := Step(p, st, tokens, false, length);
      r.cells.done && r.cells.notDoneCount == 0 && !r.cells.eosSeen[1]
  {
    assert st.cells.eosSeen[..1] == [true] && [true][..0] == [];
    assert Unfinished([true]) == 0 && Unfinished(st.cells.eosSeen) == 1;
    var one := Turns(p, st.cells, tokens, false, 1);
    assert one == SetNext(p, Turns(p, st.cells, tokens, false, 0), 0, tokens[0]);
    assert Turns(p, st.cells, tokens, false, 2) == SetNext(p, one, 1, tokens[1]);
  }

  /** The state before the first step. */
  ghost predicate Initial(p: Params, prompts: seq<seq<int>>, s: nat, st: State) {
    && p.batchSize > 0 && |prompts| == p.batchSize && s < p.maxLength
    && (forall b :: 0 <= b < p.batchSize ==> |prompts[b]| == s)
    && st == State(prompts, Cells(seq(p.batchSize, _ => false), seq(p.batchSize, _ => 0), p.batchSize, false))
  }

  lemma InitialInv(p: Params, prompts: seq<seq<int>>, s: nat, st: State)
    requires Initial(p, prompts, s, st)
    ensures Inv(p, prompts, st, s)
  {
    NoneSeen(p.batchSize);
    forall b | 0 <= b < p.batchSize ensures EntryOk(p, prompts[b], st.rows[b], st.cells.eosSeen[b]) {
      assert prompts[b][|prompts[b]|..] == [];
    }
  }

  lemma {:induction false} NoneSeen(n: nat)
    ensures Unfinished(seq(n, _ => false)) == n
  {
    if n > 0 {
      NoneSeen(n - 1);
      assert seq(n, _ => false)[..n - 1] == seq(n - 1, _ => false);
    }
  }

  /** A run of a sampler that pads, stopped as soon as it is done. */
  ghost predicate Run(p: Params, init: State, s: nat, tokens: seq<seq<int>>, states: seq<State>) {
    && |states| == |tokens| + 1 && states[0] == init
    && forall t :: 0 <= t < |tokens| ==>
         Fits(p, states[t]) && |tokens[t]| == p.batchSize && !states[t].cells.done
           && states[t + 1] == Step(p, states[t], tokens[t], true, s + t)
  }

  /** In every reachable state: EOS is followed by padding only, the counter is the number of entries without EOS, the
      run is done exactly when every entry has EOS or the rows are full, and it takes at most maxLength - s steps. */
  lemma {:induction false} RunInv(p: Params, prompts: seq<seq<int>>, init: State, s: nat, tokens: seq<seq<int>>,
      states: seq<State>, t: nat)
    requires Initial(p, prompts, s, init) && Run(p, init, s, tokens, states) && t < |states|
    ensures Inv(p, prompts, states[t], s + t) && s + t <= p.maxLength
  {
    if t == 0 {
      InitialInv(p, prompts, s, init);
    } else {
      RunInv(p, prompts, init, s, tokens, states, t - 1);
      PaddingStepKeepsInv(p, prompts, states[t - 1], tokens[t - 1], s + (t - 1));
    }
  }
}

/** GreedySearch_Cpu: arg-max and the three samplers, with the flags kept in place. */
module GreedySearchCpu {
  import opened FlatRows
  import opened TokenSequences
  import opened Greedy

  // ----- picking a token -----

  /** The first of the largest scores. */
  ghost predicate IsArgMax(scores: seq<real>, i: int) {
    && 0 <= i < |scores|
    && (forall k :: 0 <= k < |scores| ==> scores[k] <= scores[i])
    && (forall k :: 0 <= k < i ==> scores[k] < scores[i])
  }

  method MaxElement(scores: seq<real>) returns (token: nat)
    requires scores != []
    ensures IsArgMax(scores, token)
  {
    token := 0;
    for k := 1 to |scores|
      invariant token < k && IsArgMax(scores[..k], token)
    {
      if scores[token] < scores[k] {
        token := k;
      }
    }
    assert scores[..|scores|] == scores;
  }

  // ----- probabilities -----

  /** All that is used of the exponential function. */
  ghost predicate IsExp(exp: real -> real) {
    (forall x :: exp(x) > 0.0) && forall x, y :: x < y ==> exp(x) < exp(y)
  }

  function Largest(scores: seq<real>): (m: real)
    requires scores != []
    ensures forall i :: 0 <= i < |scores| ==> scores[i] <= m
    ensures m in scores
  {
    if |scores| == 1 then scores[0]
    else
      var m := Largest(scores[..|scores| - 1]);
      if scores[|scores| - 1] > m then scores[|scores| - 1] else m
  }

  function Sum(s: seq<real>): real {
    if s == [] then 0.0 else Sum(s[..|s| - 1]) + s[|s| - 1]
  }

  /** SoftMax's first pass. */
  function Scaled(exp: real -> real, scores: seq<real>, temperature: real): (r: seq<real>)
    requires scores != [] && temperature != 0.0
    ensures |r| == |scores|
  {
    var top := Largest(scores);
    seq(|scores|, i requires 0 <= i < |scores| => exp((scores[i] - top) / temperature))
  }

  ghost predicate AllPositive(s: seq<real>) {
    forall i :: 0 <= i < |s| ==> s[i] > 0.0
  }

  lemma {:induction false} SumPositive(s: seq<real>)
    requires AllPositive(s)
    ensures s != [] ==> Sum(s) > 0.0
  {
    if s != [] {
      SumPositive(s[..|s| - 1]);
    }
  }

  /** SoftMax: the scaled scores divided by their sum. */
  function SoftMax(exp: real -> real, scores: seq<real>, temperature: real): (r: seq<real>)
    requires scores != [] && temperature != 0.0 && IsExp(exp)
    ensures |r| == |scores|
  {
    var scaled := Scaled(exp, scores, temperature);
    SumPositive(scaled);
    Shares(scaled, Sum(scaled))
  }

  function Shares(s: seq<real>, total: real): (r: seq<real>)
    requires total > 0.0
    ensures |r| == |s|
  {
    seq(|s|, i requires 0 <= i < |s| => s[i] / total)
  }

  lemma {:induction false} SharesSum(s: seq<real>, total: real)
    requires total > 0.0
    ensures Sum(Shares(s, total)) == Sum(s) / total
  {
    if s != [] {
      var front := s[..|s| - 1];
      SharesSum(front, total);
      assert Shares(s, total)[..|s| - 1] == Shares(front, total);
      assert (Sum(front) + s[|s| - 1]) / total == Sum(front) / total + s[|s| - 1] / total;
    }
  }

  lemma SharesPositive(s: seq<real>, total: real)
    requires total > 0.0 && AllPositive(s)
    ensures AllPositive(Shares(s, total))
  {
    forall i | 0 <= i < |s| ensures Shares(s, total)[i] > 0.0 {
      QuotientPositive(s[i], total);
    }
  }

  lemma QuotientSelf(a: real)
    requires a != 0.0
    ensures a / a == 1.0
  {
  }

  /** A probability distribution. */
  lemma SoftMaxIsDistribution(exp: real -> real, scores: seq<real>, temperature: real)
    requires scores != [] && temperature != 0.0 && IsExp(exp)
    ensures AllPositive(SoftMax(exp, scores, temperature)) && Sum(SoftMax(exp, scores, temperature)) == 1.0
  {
    hide Sum, Shares;
    var scaled := Scaled(exp, scores, temperature);
    SumPositive(scaled);
    SharesSum(scaled, Sum(scaled));
    SharesPositive(scaled, Sum(scaled));
    QuotientSelf(Sum(scaled));
  }

  /** Which distribution: for any two tokens, and m the largest score, the shares are as exp((score - m) / T). */
  lemma SoftMaxRatio(exp: real -> real, scores: seq<real>, temperature: real, m: real, i: nat, j: nat)
    requires temperature != 0.0 && IsExp(exp) && i < |scores| && j < |scores|
    requires m in scores && forall k :: 0 <= k < |scores| ==> scores[k] <= m
    ensures SoftMax(exp, scores, temperature)[i] * exp((scores[j] - m) / temperature)
      == SoftMax(exp, scores, temperature)[j] * exp((scores[i] - m) / temperature)
  {
    hide *;
    var scaled := Scaled(exp, scores, temperature);
    ScaledAt(exp, scores, temperature, m, i);
    ScaledAt(exp, scores, temperature, m, j);
    SoftMaxAt(exp, scores, temperature, i);
    SoftMaxAt(exp, scores, temperature, j);
    SwapShares(scaled[i], scaled[j], Sum(scaled));
  }

  lemma ScaledAt(exp: real -> real, scores: seq<real>, temperature: real, m: real, i: nat)
    requires temperature != 0.0 && i < |scores|
    requires m in scores && forall k :: 0 <= k < |scores| ==> scores[k] <= m
    ensures Scaled(exp, scores, temperature)[i] == exp((scores[i] - m) / temperature)
  {
    hide Largest;
    var top := Largest(scores);
    assert m <= top && top <= m;
  }

  lemma SwapShares(a: real, b: real, total: real)
    requires total > 0.0
    ensures a / total * b == b / total * a
  {
    var x, y := a / total, b / total;
    assert x * total == a && y * total == b;
    assert x * b == x * (y * total) == y * (x * total) == y * a;
  }

  lemma QuotientPositive(a: real, b: real)
    requires a > 0.0 && b > 0.0
    ensures a / b > 0.0
  {
  }

  lemma QuotientOrder(a: real, b: real, c: real)
    requires c > 0.0
    ensures a / c < b / c <==> a < b
  {
    assert a == a / c * c && b == b / c * c;
  }

  /** Above temperature 0 the more likely token is the one with the higher score. */
  lemma SoftMaxOrder(exp: real -> real, scores: seq<real>, temperature: real, i: nat, j: nat)
    requires scores != [] && temperature > 0.0 && IsExp(exp) && i < |scores| && j < |scores|
    ensures SoftMax(exp, scores, temperature)[i] < SoftMax(exp, scores, temperature)[j] <==> scores[i] < scores[j]
  {
    hide *;
    var scaled := Scaled(exp, scores, temperature);
    SoftMaxAt(exp, scores, temperature, i);
    SoftMaxAt(exp, scores, temperature, j);
    ScaledOrder(exp, scores, temperature, i, j);
    QuotientOrder(scaled[i], scaled[j], Sum(scaled));
  }

  lemma SoftMaxAt(exp: real -> real, scores: seq<real>, temperature: real, i: nat)
    requires scores != [] && temperature != 0.0 && IsExp(exp) && i < |scores|
    ensures Sum(Scaled(exp, scores, temperature)) > 0.0
    ensures SoftMax(exp, scores, temperature)[i]
      == Scaled(exp, scores, temperature)[i] / Sum(Scaled(exp, scores, temperature))
  {
    hide Sum, Largest;
    SumPositive(Scaled(exp, scores, temperature));
  }

  lemma ScaledOrder(exp: real -> real, scores: seq<real>, temperature: real, i: nat, j: nat)
    requires scores != [] && temperature > 0.0 && IsExp(exp) && i < |scores| && j < |scores|
    ensures Scaled(exp, scores, temperature)[i] < Scaled(exp, scores, temperature)[j] <==> scores[i] < scores[j]
  {
    hide Largest;
    var top := Largest(scores);
    var x, y := (scores[i] - top) / temperature, (scores[j] - top) / temperature;
    QuotientOrder(scores[i] - top, scores[j] - top, temperature);
    QuotientOrder(scores[j] - top, scores[i] - top, temperature);
    assert x < y ==> exp(x) < exp(y);
    assert y < x ==> exp(y) < exp(x);
  }

  // ----- samplers -----

  /** What chance adds for one entry: how the sort orders what it may, and the random numbers. */
  datatype Draw = Draw(order: seq<real> -> seq<nat>, threshold: real, position: nat)

  /** Probabilities, an order of the tokens, and the random numbers. */
  datatype Sampling = Sampling(scores: seq<real>, indices: seq<nat>, threshold: real, position: nat)

  /** What a sampler works with for a row of scores. */
  function SamplingOf(exp: real -> real, temperature: real, row: seq<real>, d: Draw): (r: Sampling)
    requires row != [] && temperature != 0.0 && IsExp(exp)
    ensures r.scores == SoftMax(exp, row, temperature) && r.indices == d.order(r.scores)
    ensures r.threshold == d.threshold && r.position == d.position
  {
    var scores := SoftMax(exp, row, temperature);
    Sampling(scores, d.order(scores), d.threshold, d.position)
  }

  /** The sort puts the k most likely of any n tokens first. */
  ghost predicate Sorts(d: Draw, n: nat, k: nat) {
    forall scores :: |scores| == n ==> RankedTo(Sampling(scores, d.order(scores), d.threshold, d.position), k)
  }

  /** The first k places of the order hold the k most likely tokens, best first. */
  ghost predicate RankedTo(d: Sampling, k: nat) {
    && |d.indices| == |d.scores| && k <= |d.scores|
    && (forall i :: 0 <= i < |d.indices| ==> d.indices[i] < |d.scores|)
    && (forall t: nat :: t < |d.scores| ==> t in d.indices)
    && (forall i, j :: 0 <= i < j < |d.indices| && i < k ==> d.scores[d.indices[i]] >= d.scores[d.indices[j]])
  }

  /** Places of a row, best first. */
  ghost predicate BestFirst(scores: seq<real>, places: seq<nat>) {
    && (forall i :: 0 <= i < |places| ==> places[i] < |scores|)
    && (forall i, j :: 0 <= i < j < |places| ==> scores[places[i]] >= scores[places[j]])
  }

  function PutIn(scores: seq<real>, places: seq<nat>, t: nat): (r: seq<nat>)
    requires t < |scores| && forall i :: 0 <= i < |places| ==> places[i] < |scores|
    ensures |r| == |places| + 1 && forall x :: x in r <==> x == t || x in places
  {
    if places == [] then [t]
    else if scores[t] > scores[places[0]] then [t] + places
    else
      var r := [places[0]] + PutIn(scores, places[1..], t);
      assert places == [places[0]] + places[1..];
      r
  }

  lemma {:induction false} PutInBestFirst(scores: seq<real>, places: seq<nat>, t: nat)
    requires t < |scores| && BestFirst(scores, places)
    ensures BestFirst(scores, PutIn(scores, places, t))
  {
    if places != [] && scores[t] <= scores[places[0]] {
      var rest := PutIn(scores, places[1..], t);
      PutInBestFirst(scores, places[1..], t);
      forall i | 0 <= i < |rest| ensures scores[places[0]] >= scores[rest[i]] {
        assert rest[i] == t || rest[i] in places[1..];
      }
    }
  }

  /** An insertion sort of the first n places. */
  function Ordering(scores: seq<real>, n: nat): (r: seq<nat>)
    requires n <= |scores|
    ensures |r| == n && forall t: nat :: t in r <==> t < n
  {
    if n == 0 then []
    else
      var front := Ordering(scores, n - 1);
      assert forall i :: 0 <= i < |front| ==> front[i] in front;
      PutIn(scores, front, n - 1)
  }

  lemma {:induction false} OrderingBestFirst(scores: seq<real>, n: nat)
    requires n <= |scores|
    ensures BestFirst(scores, Ordering(scores, n))
  {
    if n > 0 {
      OrderingBestFirst(scores, n - 1);
      PutInBestFirst(scores, Ordering(scores, n - 1), n - 1);
    }
  }

  /** The samplers ask for such a sort, and nothing compares top_k with the vocabulary: it can be had exactly when there
      are k tokens to rank. */
  lemma SortsExistIff(n: nat, k: nat)
    ensures (exists d: Draw :: Sorts(d, n, k)) <==> k <= n
  {
    if k <= n {
      var d := Draw((scores: seq<real>) => Ordering(scores, |scores|), 0.0, 0);
      forall scores: seq<real> | |scores| == n
        ensures RankedTo(Sampling(scores, d.order(scores), d.threshold, d.position), k)
      {
        OrderingBestFirst(scores, n);
      }
      assert Sorts(d, n, k);
    } else {
      var flat := seq(n, _ => 0.0);
      forall d: Draw ensures !Sorts(d, n, k) {
        assert !RankedTo(Sampling(flat, d.order(flat), d.threshold, d.position), k);
      }
    }
  }

  /** The probability of the first n tokens of the order. */
  ghost function Mass(d: Sampling, n: nat): real
    requires n <= |d.indices| && forall i :: 0 <= i < |d.indices| ==> d.indices[i] < |d.scores|
  {
    if n == 0 then 0.0 else Mass(d, n - 1) + d.scores[d.indices[n - 1]]
  }

  /** The samplers' loop: the first token at which the cumulative probability reaches the threshold. */
  method FirstToReach(d: Sampling, k: nat, fallback: int) returns (token: int)
    requires k <= |d.indices| && forall i :: 0 <= i < |d.indices| ==> d.indices[i] < |d.scores|
    ensures (exists i ::
              0 <= i < k && token == d.indices[i] && Mass(d, i + 1) >= d.threshold
              && (i == 0 || Mass(d, i) < d.threshold))
            || (token == fallback && (k == 0 || Mass(d, k) < d.threshold))
  {
    token := fallback;
    var threshold := d.threshold;
    for i := 0 to k
      invariant threshold == d.threshold - Mass(d, i) && token == fallback && (i == 0 || threshold > 0.0)
    {
      threshold := threshold - d.scores[d.indices[i]];
      if threshold > 0.0 {
        continue;
      }
      token := d.indices[i];
      assert Mass(d, i + 1) >= d.threshold;
      break;
    }
  }

  /** A token of the nucleus: the tokens ranked before it have less than probability pr between them. */
  ghost predicate InNucleus(d: Sampling, k: nat, pr: real, token: int)
    requires |d.indices| == |d.scores| && forall i :: 0 <= i < |d.indices| ==> d.indices[i] < |d.scores|
  {
    exists i :: 0 <= i < k && i < |d.indices| && token == d.indices[i] && (i == 0 || Mass(d, i) < pr)
  }

  // ----- the turns of a step -----

  /** Turns look only at the tokens of the entries they serve. */
  lemma {:induction false} TurnsPrefix(p: Params, c: Cells, a: seq<int>, b: seq<int>, pads: bool, k: nat)
    requires Shaped(p, c) && |a| == |b| == p.batchSize && k <= p.batchSize && a[..k] == b[..k]
    ensures Turns(p, c, a, pads, k) == Turns(p, c, b, pads, k)
  {
    if k > 0 {
      assert a[..k][..k - 1] == a[..k - 1] && b[..k][..k - 1] == b[..k - 1] && a[..k][k - 1] == b[..k][k - 1];
      TurnsPrefix(p, c, a, b, pads, k - 1);
    }
  }

  lemma TurnsMore(p: Params, c: Cells, tokens: seq<int>, pads: bool, k: nat, token: int)
    requires Shaped(p, c) && |tokens| == p.batchSize && k < p.batchSize
    ensures Turns(p, c, tokens[k := token], pads, k + 1) == Turn(p, Turns(p, c, tokens, pads, k), k, token, pads)
  {
    hide Turn;
    TurnsPrefix(p, c, tokens, tokens[k := token], pads, k);
  }

  /** Entry b's flag is untouched before its turn. */
  lemma FlagAt(p: Params, c: Cells, tokens: seq<int>, pads: bool, b: nat)
    requires Shaped(p, c) && |tokens| == p.batchSize && b < p.batchSize
    ensures Turns(p, c, tokens, pads, b).eosSeen[b] == c.eosSeen[b]
  {
    TurnsAre(p, c, tokens, pads, b);
  }

  class GreedySearch {
    const p: Params
    const sequences: Sequences
    const nextTokens: array<int>
    const eosSeen: array<bool>
    var nextTokenScores: seq<real>
    var notDoneCount: int
    var done: bool

    ghost predicate Valid()
      reads this, sequences
    {
      && sequences.Valid() && sequences.batchBeamSize == p.batchSize && sequences.maxLength == p.maxLength
      && nextTokens.Length == eosSeen.Length == p.batchSize
      && sequences.sequences != nextTokens
    }

    ghost function Now(): (r: Cells)
      reads this, nextTokens, eosSeen
    {
      Cells(eosSeen[..], nextTokens[..], notDoneCount, done)
    }

    ghost function Current(): (r: State)
      reads this, nextTokens, eosSeen, sequences, sequences.sequences
      requires Valid()
      ensures Fits(p, r)
    {
      State(sequences.Content(), Now())
    }

    constructor (p: Params, inputIds: seq<int>)
      requires p.batchSize > 0 && |inputIds| / p.batchSize * p.batchSize == |inputIds|
        && |inputIds| / p.batchSize < p.maxLength
      ensures Valid() && this.p == p && sequences.currentLength == |inputIds| / p.batchSize && !done
      ensures fresh(sequences) && fresh(sequences.sequences) && fresh(nextTokens) && fresh(eosSeen)
      ensures p.batchSize * sequences.currentLength == |inputIds|
      ensures Initial(p, Rows(inputIds, sequences.currentLength, sequences.currentLength, p.batchSize),
        sequences.currentLength, Current())
    {
      this.p := p;
      sequences := new Sequences(inputIds, p.batchSize, 1, p.maxLength);
      nextTokens := new int[p.batchSize](_ => 0);
      eosSeen := new bool[p.batchSize](_ => false);
      nextTokenScores, notDoneCount, done := [], p.batchSize, false;
      new;
      StartIs(inputIds);
    }

    lemma StartIs(inputIds: seq<int>)
      requires Valid() && p.batchSize > 0 && p.batchSize * sequences.currentLength == |inputIds|
        && sequences.currentLength < p.maxLength
      requires sequences.Content()
        == Expanded(Rows(inputIds, sequences.currentLength, sequences.currentLength, p.batchSize), 1)
      requires notDoneCount == p.batchSize && !done
      requires forall i :: 0 <= i < p.batchSize ==> nextTokens[i] == 0 && !eosSeen[i]
      ensures Initial(p, Rows(inputIds, sequences.currentLength, sequences.currentLength, p.batchSize),
        sequences.currentLength, Current())
    {
      var prompts := Rows(inputIds, sequences.currentLength, sequences.currentLength, p.batchSize);
      assert Expanded(prompts, 1) == prompts;
      assert eosSeen[..] == seq(p.batchSize, _ => false) && nextTokens[..] == seq(p.batchSize, _ => 0);
    }

    /** The model's output for every row. */
    method SetLogits(logits: seq<real>)
      requires Valid()
      modifies this`nextTokenScores
      ensures Valid() && nextTokenScores == logits && Current() == old(Current())
    {
      nextTokenScores := logits;
    }

    method PadIfAlreadyEOS(b: nat) returns (padded: bool)
      requires Valid() && b < p.batchSize
      modifies nextTokens
      ensures padded == eosSeen[b]
      ensures Now() == if padded then Turn(p, old(Now()), b, 0, true) else old(Now())
    {
      if !eosSeen[b] {
        return false;
      }
      nextTokens[b] := p.padToken;
      padded := true;
    }

    method SetNextToken(b: nat, token: int)
      requires Valid() && b < p.batchSize
      modifies this`notDoneCount, this`done, nextTokens, eosSeen
      ensures Valid() && Now() == SetNext(p, old(Now()), b, token)
    {
      nextTokens[b] := token;
      if token == p.eosToken {
        eosSeen[b] := true;
        notDoneCount := notDoneCount - 1;
        if notDoneCount == 0 {
          done := true;
        }
      }
    }

    method AppendNextTokensToSequences(ghost st: State, ghost tokens: seq<int>, ghost pads: bool)
      requires Valid() && sequences.currentLength < p.maxLength
      requires Fits(p, st) && |tokens| == p.batchSize && sequences.Content() == st.rows
        && Now() == Turns(p, st.cells, tokens, pads, p.batchSize)
      modifies this`done, sequences`currentLength, sequences.sequences
      ensures Valid() && sequences.currentLength == old(sequences.currentLength) + 1
      ensures Current() == Step(p, st, tokens, pads, old(sequences.currentLength))
    {
      hide Turns, Appended;
      ghost var c := Now();
      sequences.AppendNextTokens(nextTokens[..]);
      assert Now() == c;
      if sequences.currentLength == p.maxLength {
        done := true;
      }
    }

    /** The entry's own scores. */
    ghost function ScoresOf(b: nat): (r: seq<real>)
      reads this`nextTokenScores
      requires b < p.batchSize && |nextTokenScores| == p.batchSize * p.vocabSize
      ensures |r| == p.vocabSize
    {
      RowInside(b, p.batchSize, p.vocabSize);
      nextTokenScores[b * p.vocabSize..b * p.vocabSize + p.vocabSize]
    }

    lemma ScoresAre(b: nat)
      requires b < p.batchSize && |nextTokenScores| == p.batchSize * p.vocabSize
      ensures b * p.vocabSize + p.vocabSize <= |nextTokenScores|
        && ScoresOf(b) == nextTokenScores[b * p.vocabSize..b * p.vocabSize + p.vocabSize]
    {
      RowInside(b, p.batchSize, p.vocabSize);
    }

    lemma Parts()
      requires Valid()
      ensures sequences.Valid() && Current() == State(sequences.Content(), Now()) && sequences.sequences != nextTokens
      ensures Shaped(p, Now()) && |Now().eosSeen| == eosSeen.Length == p.batchSize && Now().eosSeen == eosSeen[..]
    {
    }

    /** Arg-max for every entry without EOS, the pad token for the others. */
    method SelectTop() returns (ghost tokens: seq<int>)
      requires Valid() && sequences.currentLength < p.maxLength && p.vocabSize > 0
        && |nextTokenScores| == p.batchSize * p.vocabSize
      modifies this`notDoneCount, this`done, nextTokens, eosSeen, sequences`currentLength, sequences.sequences
      ensures Valid() && |tokens| == p.batchSize && sequences.currentLength == old(sequences.currentLength) + 1
      ensures Current() == Step(p, old(Current()), tokens, true, old(sequences.currentLength))
      ensures forall b :: 0 <= b < p.batchSize && !old(eosSeen[b]) ==> IsArgMax(ScoresOf(b), tokens[b])
    {
      hide *;
      Parts();
      ghost var st := Current();
      tokens := seq(p.batchSize, _ => 0);
      NoTurns(st.cells, tokens, true);
      for b := 0 to p.batchSize
        invariant Valid() && |tokens| == p.batchSize && sequences.Valid() && sequences.Content() == st.rows
        invariant Now() == Turns(p, st.cells, tokens, true, b)
        invariant forall k :: 0 <= k < b && !st.cells.eosSeen[k] ==> IsArgMax(ScoresOf(k), tokens[k])
        modifies this`notDoneCount, this`done, nextTokens, eosSeen
      {
        FlagAt(p, st.cells, tokens, true, b);
        Parts();
        var padded := PadIfAlreadyEOS(b);
        Parts();
        if padded {
          TurnsMore(p, st.cells, tokens, true, b, 0);
          tokens := tokens[b := 0];
          continue;
        }
        ScoresAre(b);
        var token := MaxElement(nextTokenScores[b * p.vocabSize..b * p.vocabSize + p.vocabSize]);
        TurnIsSet(Now(), b, token, true);
        SetNextToken(b, token);
        TurnsMore(p, st.cells, tokens, true, b, token);
        tokens := tokens[b := token];
      }
      AppendNextTokensToSequences(st, tokens, true);
    }

    lemma NoTurns(c: Cells, tokens: seq<int>, pads: bool)
      requires Shaped(p, c) && |tokens| == p.batchSize
      ensures Turns(p, c, tokens, pads, 0) == c
    {
    }

    lemma TurnIsSet(c: Cells, b: nat, token: int, pads: bool)
      requires Shaped(p, c) && b < p.batchSize && !(pads && c.eosSeen[b])
      ensures Turn(p, c, b, token, pads) == SetNext(p, c, b, token)
    {
    }

    /** Top-p: a token of the nucleus for every entry without EOS, the pad token for the others. */
    method SampleTopP(pr: real, temperature: real, exp: real -> real, draws: seq<Draw>) returns (ghost tokens: seq<int>)
      requires Valid() && sequences.currentLength < p.maxLength && p.vocabSize > 0
        && |nextTokenScores| == p.batchSize * p.vocabSize
      requires pr <= 1.0 && temperature != 0.0 && IsExp(exp) && |draws| == p.batchSize
      requires forall b :: 0 <= b < p.batchSize ==>
        Sorts(draws[b], p.vocabSize, p.vocabSize) && 0.0 <= draws[b].threshold <= pr
      modifies this`notDoneCount, this`done, nextTokens, eosSeen, sequences`currentLength, sequences.sequences
      ensures Valid() && |tokens| == p.batchSize && sequences.currentLength == old(sequences.currentLength) + 1
      ensures Current() == Step(p, old(Current()), tokens, true, old(sequences.currentLength))
      ensures forall b :: 0 <= b < p.batchSize && !old(eosSeen[b]) ==>
        PickedTopP(exp, temperature, ScoresOf(b), draws[b], pr, tokens[b])
    {
      hide *;
      Parts();
      ghost var st := Current();
      tokens := seq(p.batchSize, _ => 0);
      NoTurns(st.cells, tokens, true);
      for b := 0 to p.batchSize
        invariant Valid() && |tokens| == p.batchSize && sequences.Valid() && sequences.Content() == st.rows
        invariant Now() == Turns(p, st.cells, tokens, true, b)
        invariant forall k :: 0 <= k < b && !st.cells.eosSeen[k] ==>
          PickedTopP(exp, temperature, ScoresOf(k), draws[k], pr, tokens[k])
        modifies this`notDoneCount, this`done, nextTokens, eosSeen
      {
        FlagAt(p, st.cells, tokens, true, b);
        Parts();
        var padded := PadIfAlreadyEOS(b);
        Parts();
        if padded {
          TurnsMore(p, st.cells, tokens, true, b, 0);
          tokens := tokens[b := 0];
          continue;
        }
        ScoresAre(b);
        var token := PickTopP(exp, temperature, nextTokenScores[b * p.vocabSize..b * p.vocabSize + p.vocabSize],
          draws[b], pr);
        TurnIsSet(Now(), b, token, true);
        SetNextToken(b, token);
        TurnsMore(p, st.cells, tokens, true, b, token);
        tokens := tokens[b := token];
      }
      AppendNextTokensToSequences(st, tokens, true);
    }

    /** Top-k and top-p: a token of the nucleus among the k most likely, or the k-th when they fall short. */
    method SampleTopKTopP(k: nat, pr: real, temperature: real, exp: real -> real, draws: seq<Draw>)
        returns (ghost tokens: seq<int>)
      requires Valid() && sequences.currentLength < p.maxLength && p.vocabSize > 0
        && |nextTokenScores| == p.batchSize * p.vocabSize
      requires k > 0 && temperature != 0.0 && IsExp(exp) && |draws| == p.batchSize
      requires forall b :: 0 <= b < p.batchSize ==> Sorts(draws[b], p.vocabSize, k) && 0.0 <= draws[b].threshold <= pr
      modifies this`notDoneCount, this`done, nextTokens, eosSeen, sequences`currentLength, sequences.sequences
      ensures Valid() && |tokens| == p.batchSize && sequences.currentLength == old(sequences.currentLength) + 1
      ensures Current() == Step(p, old(Current()), tokens, true, old(sequences.currentLength))
      ensures forall b :: 0 <= b < p.batchSize && !old(eosSeen[b]) ==>
        PickedTopKTopP(exp, temperature, ScoresOf(b), draws[b], k, pr, tokens[b])
    {
      hide *;
      Parts();
      ghost var st := Current();
      tokens := seq(p.batchSize, _ => 0);
      NoTurns(st.cells, tokens, true);
      for b := 0 to p.batchSize
        invariant Valid() && |tokens| == p.batchSize && sequences.Valid() && sequences.Content() == st.rows
        invariant Now() == Turns(p, st.cells, tokens, true, b)
        invariant forall i :: 0 <= i < b && !st.cells.eosSeen[i] ==>
          PickedTopKTopP(exp, temperature, ScoresOf(i), draws[i], k, pr, tokens[i])
        modifies this`notDoneCount, this`done, nextTokens, eosSeen
      {
        FlagAt(p, st.cells, tokens, true, b);
        Parts();
        var padded := PadIfAlreadyEOS(b);
        Parts();
        if padded {
          TurnsMore(p, st.cells, tokens, true, b, 0);
          tokens := tokens[b := 0];
          continue;
        }
        ScoresAre(b);
        var token := PickTopKTopP(exp, temperature, nextTokenScores[b * p.vocabSize..b * p.vocabSize + p.vocabSize],
          draws[b], k, pr);
        TurnIsSet(Now(), b, token, true);
        SetNextToken(b, token);
        TurnsMore(p, st.cells, tokens, true, b, token);
        tokens := tokens[b := token];
      }
      AppendNextTokensToSequences(st, tokens, true);
    }

    /** Top-k: one of the k most likely tokens, also for entries that have EOS. */
    method SampleTopK(k: nat, temperature: real, exp: real -> real, draws: seq<Draw>) returns (ghost tokens: seq<int>)
      requires Valid() && sequences.currentLength < p.maxLength && p.vocabSize > 0
        && |nextTokenScores| == p.batchSize * p.vocabSize
      requires temperature != 0.0 && IsExp(exp) && |draws| == p.batchSize
      requires forall b :: 0 <= b < p.batchSize ==> Sorts(draws[b], p.vocabSize, k) && draws[b].position < k
      modifies this`notDoneCount, this`done, nextTokens, eosSeen, sequences`currentLength, sequences.sequences
      ensures Valid() && |tokens| == p.batchSize && sequences.currentLength == old(sequences.currentLength) + 1
      ensures Current() == Step(p, old(Current()), tokens, false, old(sequences.currentLength))
      ensures forall b :: 0 <= b < p.batchSize ==> PickedTopK(exp, temperature, ScoresOf(b), draws[b], k, tokens[b])
    {
      hide *;
      Parts();
      ghost var st := Current();
      tokens := seq(p.batchSize, _ => 0);
      NoTurns(st.cells, tokens, false);
      for b := 0 to p.batchSize
        invariant Valid() && |tokens| == p.batchSize && sequences.Valid() && sequences.Content() == st.rows
        invariant Now() == Turns(p, st.cells, tokens, false, b)
        invariant forall i :: 0 <= i < b ==> PickedTopK(exp, temperature, ScoresOf(i), draws[i], k, tokens[i])
        modifies this`notDoneCount, this`done, nextTokens, eosSeen
      {
        ScoresAre(b);
        var token := PickTopK(exp, temperature, nextTokenScores[b * p.vocabSize..b * p.vocabSize + p.vocabSize],
          draws[b], k);
        Parts();
        TurnIsSet(Now(), b, token, false);
        SetNextToken(b, token);
        TurnsMore(p, st.cells, tokens, false, b, token);
        tokens := tokens[b := token];
      }
      AppendNextTokensToSequences(st, tokens, false);
    }
  }

  /** One of k tokens at least as likely as all the others. */
  ghost predicate AmongTop(d: Sampling, k: nat, token: int) {
    && k <= |d.indices| && 0 <= token < |d.scores| && token in d.indices[..k]
    && forall t: nat :: t < |d.scores| && t !in d.indices[..k] ==> d.scores[t] <= d.scores[token]
  }

  lemma TopPlace(d: Sampling, k: nat, place: nat)
    requires RankedTo(d, k) && place < k
    ensures AmongTop(d, k, d.indices[place])
  {
    assert d.indices[..k][place] == d.indices[place];
    forall t: nat | t < |d.scores| && t !in d.indices[..k] ensures d.scores[t] <= d.scores[d.indices[place]] {
      assert t in d.indices;
      var i :| 0 <= i < |d.indices| && d.indices[i] == t;
    }
  }

  /** The tokens that score higher. */
  ghost function Higher(scores: seq<real>, token: nat): set<nat>
    requires token < |scores|
  {
    set t: nat | t < |scores| && scores[t] > scores[token]
  }

  /** One of the k largest: fewer than k tokens score higher. */
  ghost predicate AmongLargest(row: seq<real>, k: nat, token: int) {
    0 <= token < |row| && |Higher(row, token)| < k
  }

  function Members(s: seq<nat>): (r: set<nat>)
    ensures |r| <= |s| && forall t :: t in r <==> t in s
  {
    if s == [] then {} else
      assert s == s[..|s| - 1] + [s[|s| - 1]];
      Members(s[..|s| - 1]) + {s[|s| - 1]}
  }

  function Below(n: nat): (r: set<nat>)
    ensures |r| == n && forall t: nat :: t in r <==> t < n
  {
    if n == 0 then {} else Below(n - 1) + {n - 1}
  }

  lemma SmallerSet<T>(a: set<T>, b: set<T>)
    requires a <= b
    ensures |a| <= |b|
  {
    assert b == a + (b - a);
  }

  /** Above temperature 0, one of the k most likely tokens is one of the k with the largest scores. */
  lemma TopIsLargest(exp: real -> real, temperature: real, row: seq<real>, d: Draw, k: nat, token: int)
    requires row != [] && temperature > 0.0 && IsExp(exp) && AmongTop(SamplingOf(exp, temperature, row, d), k, token)
    ensures AmongLargest(row, k, token)
  {
    hide SoftMax;
    var s := SamplingOf(exp, temperature, row, d);
    var top := s.indices[..k];
    forall t | t in Higher(row, token) ensures t in top && t != token {
      SoftMaxOrder(exp, row, temperature, token, t);
    }
    SmallerSet(Higher(row, token) + {token as nat}, Members(top));
  }

  /** One of the k most likely tokens; above temperature 0, one of the k with the largest scores. */
  ghost predicate IsTopK(exp: real -> real, temperature: real, row: seq<real>, d: Draw, k: nat, token: int) {
    && row != [] && temperature != 0.0 && IsExp(exp)
    && AmongTop(SamplingOf(exp, temperature, row, d), k, token) && (temperature > 0.0 ==> AmongLargest(row, k, token))
  }

  /** The pick of top-k: the token at the drawn place of the order. */
  ghost predicate PickedTopK(exp: real -> real, temperature: real, row: seq<real>, d: Draw, k: nat, token: int) {
    && IsTopK(exp, temperature, row, d, k, token)
    && var order := SamplingOf(exp, temperature, row, d).indices;
       d.position < k <= |order| && token == order[d.position]
  }

  method PickTopK(exp: real -> real, temperature: real, row: seq<real>, d: Draw, k: nat) returns (token: int)
    requires row != [] && temperature != 0.0 && IsExp(exp) && Sorts(d, |row|, k) && d.position < k
    ensures PickedTopK(exp, temperature, row, d, k, token)
  {
    hide AmongTop, SoftMax, IsExp, AmongLargest;
    var s := SamplingOf(exp, temperature, row, d);
    TopPlace(s, k, s.position);
    token := s.indices[s.position];
    if temperature > 0.0 {
      TopIsLargest(exp, temperature, row, d, k, token);
    }
  }

  // ----- a nucleus is always reached -----

  function MassOf(scores: seq<real>, indices: seq<nat>): real
    requires forall i :: 0 <= i < |indices| ==> indices[i] < |scores|
  {
    if indices == [] then 0.0 else MassOf(scores, indices[..|indices| - 1]) + scores[indices[|indices| - 1]]
  }

  lemma {:induction false} MassIsOf(s: Sampling, n: nat)
    requires n <= |s.indices| && forall i :: 0 <= i < |s.indices| ==> s.indices[i] < |s.scores|
    ensures Mass(s, n) == MassOf(s.scores, s.indices[..n])
  {
    if n > 0 {
      MassIsOf(s, n - 1);
      assert s.indices[..n][..n - 1] == s.indices[..n - 1];
    }
  }

  function Without(s: seq<nat>, q: nat): seq<nat>
    requires q < |s|
  {
    s[..q] + s[q + 1..]
  }

  lemma {:induction false} MassWithout(scores: seq<real>, indices: seq<nat>, q: nat)
    requires q < |indices| && forall i :: 0 <= i < |indices| ==> indices[i] < |scores|
    ensures MassOf(scores, indices) == MassOf(scores, Without(indices, q)) + scores[indices[q]]
  {
    var n := |indices| - 1;
    if q == n {
      assert Without(indices, q) == indices[..n];
    } else {
      MassWithout(scores, indices[..n], q);
      var rest := Without(indices, q);
      assert rest[..n - 1] == Without(indices[..n], q) && rest[n - 1] == indices[n];
    }
  }

  lemma {:induction false} MassOfPrefix(scores: seq<real>, indices: seq<nat>, n: nat)
    requires n <= |scores| && forall i :: 0 <= i < |indices| ==> indices[i] < n
    ensures MassOf(scores, indices) == MassOf(scores[..n], indices)
  {
    if indices != [] {
      MassOfPrefix(scores, indices[..|indices| - 1], n);
    }
  }

  /** Every number below n. */
  ghost predicate Covers(indices: seq<nat>, n: nat) {
    forall t: nat :: t < n ==> t in indices
  }

  /** As many places as tokens, and every token: none is there twice. */
  lemma OnlyOnce(indices: seq<nat>, n: nat, a: nat, b: nat)
    requires |indices| == n && Covers(indices, n) && a < b < n
    ensures indices[a] != indices[b]
  {
    if indices[a] == indices[b] {
      var rest := Without(indices, b);
      forall t: nat | t < n ensures t in rest {
        assert t in indices;
        var i :| 0 <= i < n && indices[i] == t;
        assert rest[if i < b then i else if i == b then a else i - 1] == t;
      }
      SmallerSet(Below(n), Members(rest));
    }
  }

  /** Without the last token the other places hold the other tokens. */
  lemma OthersRemain(indices: seq<nat>, n: nat, q: nat)
    requires |indices| == n + 1 && Covers(indices, n + 1) && q <= n && indices[q] == n
    requires forall i :: 0 <= i <= n ==> indices[i] <= n
    ensures (forall i :: 0 <= i < n ==> Without(indices, q)[i] < n) && Covers(Without(indices, q), n)
  {
    var rest := Without(indices, q);
    forall t: nat | t < n ensures t in rest {
      assert t in indices;
      var i :| 0 <= i <= n && indices[i] == t;
      assert rest[if i < q then i else i - 1] == t;
    }
    forall i | 0 <= i < n ensures rest[i] < n {
      var at := if i < q then i else i + 1;
      assert rest[i] == indices[at];
      OnlyOnce(indices, n + 1, if at < q then at else q, if at < q then q else at);
    }
  }

  /** Adding up the probabilities in any order of the tokens. */
  lemma {:induction false} MassOfAll(scores: seq<real>, indices: seq<nat>)
    requires |indices| == |scores| && forall i :: 0 <= i < |indices| ==> indices[i] < |scores|
    requires Covers(indices, |scores|)
    ensures MassOf(scores, indices) == Sum(scores)
    decreases |scores|
  {
    if scores != [] {
      var n := |scores| - 1;
      assert n in indices;
      var q :| 0 <= q < |indices| && indices[q] == n;
      OthersRemain(indices, n, q);
      MassWithout(scores, indices, q);
      MassOfPrefix(scores, Without(indices, q), n);
      MassOfAll(scores[..n], Without(indices, q));
    }
  }

  lemma RankedMass(s: Sampling, k: nat)
    requires RankedTo(s, k)
    ensures Mass(s, |s.indices|) == Sum(s.scores)
  {
    hide Mass, MassOf, Sum;
    MassIsOf(s, |s.indices|);
    assert s.indices[..|s.indices|] == s.indices;
    MassOfAll(s.scores, s.indices);
  }

  lemma WholeMass(exp: real -> real, temperature: real, row: seq<real>, d: Draw)
    requires row != [] && temperature != 0.0 && IsExp(exp) && RankedTo(SamplingOf(exp, temperature, row, d), |row|)
    ensures Mass(SamplingOf(exp, temperature, row, d), |row|) == 1.0
  {
    hide SoftMax, IsExp, Mass, Sum;
    RankedMass(SamplingOf(exp, temperature, row, d), |row|);
    SoftMaxIsDistribution(exp, row, temperature);
  }

  /** The token at which the cumulative probability reaches the threshold, among the first k of the order. */
  ghost predicate Reaches(s: Sampling, k: nat, threshold: real, token: int)
    requires k <= |s.indices| && forall i :: 0 <= i < |s.indices| ==> s.indices[i] < |s.scores|
  {
    exists i :: 0 <= i < k && token == s.indices[i] && Mass(s, i + 1) >= threshold
      && (i == 0 || Mass(s, i) < threshold)
  }

  /** The pick of top-p: the token at which the cumulative probability reaches the drawn threshold. It is in the
      nucleus: for probabilities that add up to 1 the loop always finds it. */
  ghost predicate PickedTopP(exp: real -> real, temperature: real, row: seq<real>, d: Draw, pr: real, token: int) {
    && row != [] && temperature != 0.0 && IsExp(exp)
    && RankedTo(SamplingOf(exp, temperature, row, d), |row|)
    && Reaches(SamplingOf(exp, temperature, row, d), |row|, d.threshold, token)
    && InNucleus(SamplingOf(exp, temperature, row, d), |row|, pr, token)
  }

  method PickTopP(exp: real -> real, temperature: real, row: seq<real>, d: Draw, pr: real) returns (token: int)
    requires row != [] && temperature != 0.0 && IsExp(exp) && Sorts(d, |row|, |row|) && d.threshold <= pr <= 1.0
    ensures PickedTopP(exp, temperature, row, d, pr, token)
  {
    hide SoftMax, IsExp, Mass;
    var s := SamplingOf(exp, temperature, row, d);
    assert RankedTo(s, |row|);
    WholeMass(exp, temperature, row, d);
    token := FirstToReach(s, |s.indices|, 0);
  }

  ghost predicate PickedTopKTopP(exp: real -> real, temperature: real, row: seq<real>, d: Draw, k: nat, pr: real,
      token: int) {
    && row != [] && k > 0 && temperature != 0.0 && IsExp(exp) && IsTopK(exp, temperature, row, d, k, token)
    && var s := SamplingOf(exp, temperature, row, d);
       && RankedTo(s, k)
       && (Reaches(s, k, d.threshold, token) || (token == s.indices[k - 1] && Mass(s, k) < d.threshold))
       && (InNucleus(s, k, pr, token) || (token == s.indices[k - 1] && Mass(s, k) < d.threshold))
  }

  method PickTopKTopP(exp: real -> real, temperature: real, row: seq<real>, d: Draw, k: nat, pr: real)
      returns (token: int)
    requires row != [] && k > 0 && temperature != 0.0 && IsExp(exp) && Sorts(d, |row|, k) && d.threshold <= pr
    ensures PickedTopKTopP(exp, temperature, row, d, k, pr, token)
  {
    hide AmongTop, SoftMax, IsExp, Mass, AmongLargest;
    var s := SamplingOf(exp, temperature, row, d);
    assert RankedTo(s, k);
    token := FirstToReach(s, k, s.indices[k - 1]);
    forall place | 0 <= place < k ensures IsTopK(exp, temperature, row, d, k, s.indices[place]) {
      TopPlace(s, k, place);
      if temperature > 0.0 {
        TopIsLargest(exp, temperature, row, d, k, s.indices[place]);
      }
    }
  }

  // ----- the weights of top-k -----

  /** The first k tokens are already the k most likely ones, best first. */
  ghost predicate FirstAreBest(scores: seq<real>, k: nat) {
    forall i, j :: 0 <= i < j < |scores| && i < k ==> scores[i] >= scores[j]
  }

  /** A token more likely than the one at place i has one of the places before it. */
  lemma PlacedBefore(s: Sampling, k: nat, i: nat, t: nat)
    requires RankedTo(s, k) && i < k && t < |s.scores| && s.scores[t] > s.scores[s.indices[i]]
    ensures t in s.indices[..i]
  {
    assert t in s.indices;
    var q :| 0 <= q < |s.indices| && s.indices[q] == t;
    assert s.indices[..i][q] == t;
  }

  lemma NotAbove(s: Sampling, k: nat, i: nat)
    requires RankedTo(s, k) && FirstAreBest(s.scores, k) && i < k
    ensures s.scores[i] <= s.scores[s.indices[i]]
  {
    hide RankedTo;
    RankedIs(s, k, i);
    if s.scores[i] > s.scores[s.indices[i]] {
      forall t: nat | t <= i ensures t in s.indices[..i] {
        PlacedBefore(s, k, i, t);
      }
      SmallerSet(Below(i + 1), Members(s.indices[..i]));
    }
  }

  lemma NotBelow(s: Sampling, k: nat, i: nat)
    requires RankedTo(s, k) && FirstAreBest(s.scores, k) && i < k
    ensures s.scores[i] >= s.scores[s.indices[i]]
  {
    hide *;
    RankedIs(s, k, i);
    if s.scores[i] < s.scores[s.indices[i]] {
      var top := s.indices[..i + 1];
      forall q | 0 <= q < |top| ensures top[q] < i {
        RankedIs(s, k, q);
        RankedPair(s, k, q, i);
        AboveIsBefore(s.scores, k, i, top[q]);
      }
      assert Members(top) <= Below(i);
      DistinctMembers(s.indices, |s.indices|, i + 1);
      SmallerSet(Members(top), Below(i));
    }
  }

  lemma AboveIsBefore(scores: seq<real>, k: nat, i: nat, t: nat)
    requires FirstAreBest(scores, k) && i < k && i < |scores| && t < |scores| && scores[t] > scores[i]
    ensures t < i
  {
  }

  lemma RankedPair(s: Sampling, k: nat, i: nat, j: nat)
    requires RankedTo(s, k) && i < k && i <= j < |s.indices|
    ensures s.indices[i] < |s.scores| && s.indices[j] < |s.scores| && s.scores[s.indices[i]] >= s.scores[s.indices[j]]
  {
  }

  lemma RankedIs(s: Sampling, k: nat, i: nat)
    requires RankedTo(s, k) && i < k
    ensures i < |s.indices| == |s.scores| && s.indices[i] < |s.scores| && Covers(s.indices, |s.indices|)
  {
  }

  lemma {:induction false} DistinctMembers(indices: seq<nat>, n: nat, m: nat)
    requires |indices| == n && Covers(indices, n) && m <= n
    ensures |Members(indices[..m])| == m
  {
    hide *;
    if m == 0 {
      NoMembers();
    } else {
      DistinctMembers(indices, n, m - 1);
      NewPlace(indices, n, m - 1);
      assert indices[..m] == indices[..m - 1] + [indices[m - 1]];
      OneMoreMember(indices[..m - 1], indices[m - 1]);
    }
  }

  lemma NoMembers()
    ensures Members([]) == {}
  {
  }

  lemma OneMoreMember(s: seq<nat>, x: nat)
    ensures Members(s + [x]) == Members(s) + {x}
  {
    assert (s + [x])[..|s|] == s;
  }

  lemma NewPlace(indices: seq<nat>, n: nat, m: nat)
    requires |indices| == n && Covers(indices, n) && m < n
    ensures indices[m] !in indices[..m]
  {
    hide Covers;
    forall a | 0 <= a < m ensures indices[..m][a] != indices[m] {
      OnlyOnce(indices, n, a, m);
    }
  }

  /** Every place below k has the weight of its token. */
  ghost predicate OwnWeights(s: Sampling, k: nat)
    requires RankedTo(s, k)
  {
    forall i :: 0 <= i < k ==> s.scores[i] == s.scores[s.indices[i]]
  }

  /** The first place with the probability of place i. */
  lemma FirstEqual(s: Sampling, k: nat, i: nat) returns (c: nat)
    requires RankedTo(s, k) && OwnWeights(s, k) && i < k
    ensures c <= i && s.scores[c] == s.scores[i] && forall t :: 0 <= t < c ==> s.scores[t] > s.scores[i]
  {
    c := i;
    while c > 0 && s.scores[c - 1] == s.scores[i]
      invariant c <= i && s.scores[c] == s.scores[i]
    {
      c := c - 1;
    }
    forall t | 0 <= t < c ensures s.scores[t] > s.scores[i] {
      RankedPair(s, k, t, c - 1);
      RankedPair(s, k, c - 1, i);
    }
  }

  lemma OwnWeightsAreBestFirst(s: Sampling, k: nat, i: nat, j: nat)
    requires RankedTo(s, k) && OwnWeights(s, k) && i < k && i < j < |s.scores|
    ensures s.scores[i] >= s.scores[j]
  {
    hide RankedTo;
    RankedIs(s, k, i);
    if j < k {
      RankedPair(s, k, i, j);
    } else if s.scores[i] < s.scores[j] {
      var c := FirstEqual(s, k, i);
      forall t: nat | t < c || t == j ensures t in s.indices[..c] {
        PlacedBefore(s, k, c, t);
      }
      SmallerSet(Below(c) + {j}, Members(s.indices[..c]));
    }
  }

  /** SampleTopK draws a place of the order with the probabilities of the first k tokens, not of the tokens at
      those places: the weight of every place is its token's own exactly when the first k tokens are the k
      most likely, in order. */
  lemma WeightsAreOwnIff(s: Sampling, k: nat)
    requires RankedTo(s, k)
    ensures OwnWeights(s, k) <==> FirstAreBest(s.scores, k)
  {
    if FirstAreBest(s.scores, k) {
      forall i | 0 <= i < k ensures s.scores[i] == s.scores[s.indices[i]] {
        NotAbove(s, k, i);
        NotBelow(s, k, i);
      }
    }
    if OwnWeights(s, k) {
      forall i, j | 0 <= i < j < |s.scores| && i < k ensures s.scores[i] >= s.scores[j] {
        OwnWeightsAreBestFirst(s, k, i, j);
      }
    }
  }

  /** Above temperature 0 that can be read off the scores themselves. */
  lemma BestFirstByScore(exp: real -> real, temperature: real, row: seq<real>, k: nat)
    requires row != [] && temperature > 0.0 && IsExp(exp)
    ensures FirstAreBest(SoftMax(exp, row, temperature), k) <==> FirstAreBest(row, k)
  {
    hide SoftMax, IsExp;
    var scores := SoftMax(exp, row, temperature);
    forall i, j | 0 <= i < j < |row| && i < k ensures scores[i] >= scores[j] <==> row[i] >= row[j] {
      SoftMaxOrder(exp, row, temperature, i, j);
    }
  }
}
