/** The bounded list of finished hypotheses of one batch entry. */
module Hypotheses {
  import opened FlatRows
  import opened Ranking

  datatype Scored<T> = Scored(item: T, score: real)

  ghost predicate Descending<T>(s: seq<Scored<T>>) {
    forall i, j :: 0 <= i < j < |s| ==> s[i].score >= s[j].score
  }

  /** Behind every element that scores at least as high. */
  function Place<T>(s: seq<Scored<T>>, h: Scored<T>): (r: seq<Scored<T>>)
    ensures |r| == |s| + 1
  {
    if s == [] then [h]
    else if h.score > s[0].score then [h] + s
    else [s[0]] + Place(s[1..], h)
  }

  function AddTo<T>(n: nat, s: seq<Scored<T>>, h: Scored<T>): (r: seq<Scored<T>>)
    ensures |r| == if |s| < n then |s| + 1 else n
  {
    Keep(n, Place(s, h))
  }

  function AddAll<T>(n: nat, s: seq<Scored<T>>, hs: seq<Scored<T>>): (r: seq<Scored<T>>)
    ensures |s| <= n ==> |r| == if |s| + |hs| <= n then |s| + |hs| else n
  {
    if hs == [] then s else AddTo(n, AddAll(n, s, hs[..|hs| - 1]), hs[|hs| - 1])
  }

  lemma {:induction false} PlaceBetween<T>(a: seq<Scored<T>>, h: Scored<T>, b: seq<Scored<T>>)
    requires forall i :: 0 <= i < |a| ==> a[i].score >= h.score
    requires b != [] ==> b[0].score < h.score
    ensures Place(a + b, h) == a + [h] + b
  {
    if a == [] {
      assert a + b == b;
    } else {
      assert (a + b)[1..] == a[1..] + b;
      PlaceBetween(a[1..], h, b);
      assert [a[0]] + (a[1..] + [h] + b) == a + [h] + b;
    }
  }

  lemma PlaceAt<T>(s: seq<Scored<T>>, h: Scored<T>, index: nat)
    requires Descending(s) && index <= |s|
    requires index > 0 ==> s[index - 1].score >= h.score
    requires index < |s| ==> s[index].score < h.score
    ensures Place(s, h) == s[..index] + [h] + s[index..]
  {
    forall i | 0 <= i < index ensures s[i].score >= h.score {
      assert i == index - 1 || s[i].score >= s[index - 1].score;
    }
    hide *;
    assert s == s[..index] + s[index..];
    PlaceBetween(s[..index], h, s[index..]);
  }

  lemma {:induction false} PlaceMembers<T>(s: seq<Scored<T>>, h: Scored<T>)
    ensures multiset(Place(s, h)) == multiset(s) + multiset{h}
  {
    if s != [] {
      PlaceMembers(s[1..], h);
      assert s == [s[0]] + s[1..];
    }
  }

  lemma AddToMembers<T>(n: nat, s: seq<Scored<T>>, h: Scored<T>)
    ensures forall x :: x in AddTo(n, s, h) ==> x == h || x in s
  {
    PlaceMembers(s, h);
    forall x | x in AddTo(n, s, h) ensures x == h || x in s {
      assert x in Place(s, h);
      assert x in multiset(Place(s, h));
    }
  }

  /** Adding keeps the list sorted and invents nothing. */
  lemma AddToDescending<T>(n: nat, s: seq<Scored<T>>, h: Scored<T>)
    requires Descending(s)
    ensures Descending(AddTo(n, s, h))
    ensures forall x :: x in AddTo(n, s, h) ==> x == h || x in s
  {
    var index := 0;
    while index < |s| && s[index].score >= h.score
      invariant index <= |s|
      invariant index > 0 ==> s[index - 1].score >= h.score
    {
      index := index + 1;
    }
    PlaceAt(s, h, index);
    PlacedDescending(s, h, index);
    AddToMembers(n, s, h);
  }

  lemma PlacedDescending<T>(s: seq<Scored<T>>, h: Scored<T>, index: nat)
    requires Descending(s) && index <= |s|
    requires index > 0 ==> s[index - 1].score >= h.score
    requires index < |s| ==> s[index].score < h.score
    ensures Descending(s[..index] + [h] + s[index..])
  {
    var r := s[..index] + [h] + s[index..];
    forall i, j | 0 <= i < j < |r| ensures r[i].score >= r[j].score {
      if j < index {
      } else if i > index {
        assert r[i] == s[i - 1] && r[j] == s[j - 1];
      } else {
        assert i < index ==> r[i] == s[i] && s[i].score >= h.score;
        assert j > index ==> r[j] == s[j - 1] && s[j - 1].score <= h.score;
      }
    }
  }

  lemma {:induction false} AddAllDescending<T>(n: nat, s: seq<Scored<T>>, hs: seq<Scored<T>>)
    requires Descending(s)
    ensures Descending(AddAll(n, s, hs))
    ensures forall x :: x in AddAll(n, s, hs) ==> x in hs || x in s
  {
    if hs != [] {
      AddAllDescending(n, s, hs[..|hs| - 1]);
      AddToDescending(n, AddAll(n, s, hs[..|hs| - 1]), hs[|hs| - 1]);
    }
  }

  // ----- "append, sort stably by descending score, keep the first n" -----

  /** Each call's score, with its arrival number as the tie-breaking key. */
  function Arrivals<T>(hs: seq<Scored<T>>): (r: seq<Entry>)
    ensures |r| == |hs|
  {
    seq(|hs|, i requires 0 <= i < |hs| => Entry(Fin(hs[i].score), i))
  }

  ghost predicate Arrived<T>(hs: seq<Scored<T>>, e: Entry) {
    0 <= e.key < |hs| && e.score == Fin(hs[e.key].score)
  }

  ghost predicate AllArrived<T>(hs: seq<Scored<T>>, order: seq<Entry>) {
    forall i :: 0 <= i < |order| ==> Arrived(hs, order[i])
  }

  ghost function Pick<T>(hs: seq<Scored<T>>, order: seq<Entry>): (r: seq<Scored<T>>)
    requires AllArrived(hs, order)
    ensures |r| == |order|
  {
    seq(|order|, i requires 0 <= i < |order| => assert Arrived(hs, order[i]); hs[order[i].key])
  }

  lemma {:induction false} PlaceIsRankedInsert<T>(hs: seq<Scored<T>>, order: seq<Entry>, e: Entry)
    requires AllArrived(hs, order) && Arrived(hs, e)
    requires forall i :: 0 <= i < |order| ==> order[i].key < e.key
    ensures AllArrived(hs, Insert(order, e))
    ensures Place(Pick(hs, order), hs[e.key]) == Pick(hs, Insert(order, e))
  {
    if order != [] {
      PlaceIsRankedInsert(hs, order[1..], e);
      assert Pick(hs, order)[1..] == Pick(hs, order[1..]);
      assert Pick(hs, order)[0] == hs[order[0].key];
      if Before(e, order[0]) {
        assert Pick(hs, [e] + order) == [hs[e.key]] + Pick(hs, order);
      } else {
        assert Pick(hs, [order[0]] + Insert(order[1..], e)) == [hs[order[0].key]] + Pick(hs, Insert(order[1..], e));
      }
    }
  }

  lemma PickMore<T>(hs: seq<Scored<T>>, order: seq<Entry>)
    requires hs != [] && AllArrived(hs[..|hs| - 1], order)
    ensures AllArrived(hs, order) && Pick(hs, order) == Pick(hs[..|hs| - 1], order)
    ensures forall i :: 0 <= i < |order| ==> order[i].key < |hs| - 1
  {
    forall i | 0 <= i < |order| ensures Arrived(hs, order[i]) && order[i].key < |hs| - 1 {
      assert Arrived(hs[..|hs| - 1], order[i]);
    }
  }

  lemma KeepPick<T>(n: nat, hs: seq<Scored<T>>, order: seq<Entry>)
    requires AllArrived(hs, order)
    ensures AllArrived(hs, Keep(n, order)) && Keep(n, Pick(hs, order)) == Pick(hs, Keep(n, order))
  {
  }

  /** Any sequence of Add calls leaves the n best by descending score, earlier arrivals first among equals. */
  lemma {:induction false} AddAllIsStableBest<T>(n: nat, hs: seq<Scored<T>>) returns (order: seq<Entry>)
    ensures IsBest(n, order, multiset(Arrivals(hs)))
    ensures AllArrived(hs, order)
    ensures AddAll(n, [], hs) == Pick(hs, order)
  {
    if hs == [] {
      order := [];
      assert Arrivals(hs) == [];
    } else {
      var m := |hs| - 1;
      var front, e := hs[..m], Entry(Fin(hs[m].score), m);
      var o := AddAllIsStableBest(n, front);
      PickMore(hs, o);
      PlaceIsRankedInsert(hs, o, e);
      order := Keep(n, Insert(o, e));
      ArrivalsMore(n, hs, o);
      KeepPick(n, hs, Insert(o, e));
    }
  }

  lemma ArrivalsMore<T>(n: nat, hs: seq<Scored<T>>, o: seq<Entry>)
    requires hs != [] && IsBest(n, o, multiset(Arrivals(hs[..|hs| - 1])))
    ensures IsBest(n, Keep(n, Insert(o, Entry(Fin(hs[|hs| - 1].score), |hs| - 1))), multiset(Arrivals(hs)))
  {
    hide *;
    var m := |hs| - 1;
    ArrivalsFront(hs);
    InsertKeepsBestOf(n, o, Entry(Fin(hs[m].score), m), Arrivals(hs[..m]));
  }

  lemma ArrivalsFront<T>(hs: seq<Scored<T>>)
    requires hs != []
    ensures Arrivals(hs) == Arrivals(hs[..|hs| - 1]) + [Entry(Fin(hs[|hs| - 1].score), |hs| - 1)]
  {
  }

  /** Replacing each item by its content commutes with adding: only scores are compared. */
  function Mapped<S, T>(f: S -> T, s: seq<Scored<S>>): (r: seq<Scored<T>>)
    ensures |r| == |s|
  {
    seq(|s|, i requires 0 <= i < |s| => Scored(f(s[i].item), s[i].score))
  }

  lemma {:induction false} MappedPlace<S, T>(f: S -> T, s: seq<Scored<S>>, h: Scored<S>)
    ensures Mapped(f, Place(s, h)) == Place(Mapped(f, s), Scored(f(h.item), h.score))
  {
    if s != [] {
      MappedPlace(f, s[1..], h);
      assert Mapped(f, s)[1..] == Mapped(f, s[1..]);
      if h.score > s[0].score {
        assert Mapped(f, [h] + s) == [Scored(f(h.item), h.score)] + Mapped(f, s);
      } else {
        assert Mapped(f, [s[0]] + Place(s[1..], h)) == [Mapped(f, s)[0]] + Mapped(f, Place(s[1..], h));
      }
    } else {
      assert Mapped(f, [h]) == [Scored(f(h.item), h.score)];
    }
  }

  lemma MappedAdd<S, T>(f: S -> T, n: nat, s: seq<Scored<S>>, h: Scored<S>)
    ensures Mapped(f, AddTo(n, s, h)) == AddTo(n, Mapped(f, s), Scored(f(h.item), h.score))
  {
    MappedPlace(f, s, h);
    assert Mapped(f, Keep(n, Place(s, h))) == Keep(n, Mapped(f, Place(s, h)));
  }

  // ----- the struct -----

  /** A span of tokens: a clone in the hypothesis buffer, or a live row of the sequence buffer. */
  datatype Span = Span(live: bool, offset: nat, length: nat)

  function Read(span: Span, clones: seq<int>, live: seq<int>): seq<int> {
    var buffer := if span.live then live else clones;
    if span.offset + span.length <= |buffer| then buffer[span.offset..span.offset + span.length] else []
  }

  function Reader(clones: seq<int>, live: seq<int>): Span -> seq<int> {
    s => Read(s, clones, live)
  }

  /** Every span lies inside its buffer and is no longer than a row. */
  ghost predicate Readable(spans: seq<Scored<Span>>, clones: nat, live: nat, maxLength: nat) {
    forall s :: s in spans ==>
      s.item.offset + s.item.length <= (if s.item.live then live else clones) && s.item.length <= maxLength
  }

  /** Writing from the start of a row leaves the row's tail. */
  function Overwritten(row: seq<int>, item: seq<int>): (r: seq<int>)
    requires |item| <= |row|
    ensures |r| == |row|
  {
    item + row[|item|..]
  }

  lemma SpliceInRow(flat: seq<int>, width: nat, i: nat, rows: nat, item: seq<int>)
    requires i < rows && |item| <= width && rows * width <= |flat|
    ensures i * width + width <= rows * width
    ensures Rows(Splice(flat, i * width, item), width, width, rows)
         == Rows(flat, width, width, rows)[i := Overwritten(Rows(flat, width, width, rows)[i], item)]
  {
    RowInside(i, rows, width);
    var row := Row(flat, width, width, i);
    var all := Overwritten(row, item);
    assert Splice(flat, i * width, item) == Splice(flat, i * width, all);
    SpliceRows(flat, width, i, rows, all);
  }

  /** The array after the rotation and the store, read as a list. */
  lemma ShiftedIn<T>(n: nat, was: seq<Scored<T>>, h: Scored<T>, index: nat, now: seq<Scored<T>>)
    requires Descending(was) && |was| <= n && |now| == (if |was| < n then |was| + 1 else n)
    requires index < |now|
    requires index > 0 ==> was[index - 1].score >= h.score
    requires index < |was| ==> was[index].score < h.score
    requires forall j :: 0 <= j < index ==> now[j] == was[j]
    requires forall j :: index < j < |now| ==> now[j] == was[j - 1]
    requires now[index] == h
    ensures now == AddTo(n, was, h) && Descending(now)
  {
    PlaceAt(was, h, index);
    AddToDescending(n, was, h);
  }

  ghost predicate Narrow(hyps: seq<Scored<seq<int>>>, width: nat) {
    forall i :: 0 <= i < |hyps| ==> |hyps[i].item| <= width
  }

  ghost function ScoresOf<T>(s: seq<Scored<T>>): (r: seq<real>)
    ensures |r| == |s|
  {
    seq(|s|, i requires 0 <= i < |s| => s[i].score)
  }

  /** The rows from `first` on with the hypotheses written over them. */
  ghost function WithRows(rows: seq<seq<int>>, first: nat, hyps: seq<Scored<seq<int>>>, width: nat): (r: seq<seq<int>>)
    requires first + |hyps| <= |rows|
    requires (forall i :: 0 <= i < |rows| ==> |rows[i]| == width) && Narrow(hyps, width)
    ensures |r| == |rows|
  {
    seq(|rows|, i requires 0 <= i < |rows| => if first <= i < first + |hyps|
      then Overwritten(rows[i], hyps[i - first].item) else rows[i])
  }

  lemma ReadableHyps(spans: seq<Scored<Span>>, clones: seq<int>, live: seq<int>, maxLength: nat)
    requires Readable(spans, |clones|, |live|, maxLength)
    ensures Narrow(Mapped(Reader(clones, live), spans), maxLength)
  {
    forall i | 0 <= i < |spans| ensures |Read(spans[i].item, clones, live)| <= maxLength { assert spans[i] in spans; }
  }

  lemma RowsWide<T>(flat: seq<T>, width: nat, rows: nat)
    requires rows * width <= |flat|
    ensures forall i :: 0 <= i < rows ==> |Rows(flat, width, width, rows)[i]| == width
  {
  }

  lemma WithNone(rows: seq<seq<int>>, first: nat, hyps: seq<Scored<seq<int>>>, width: nat, scores: seq<real>,
      spans: seq<Scored<Span>>)
    requires first <= |rows| && (forall i :: 0 <= i < |rows| ==> |rows[i]| == width)
    ensures Narrow(hyps[..0], width) && WithRows(rows, first, hyps[..0], width) == rows
    ensures first <= |scores| ==> Splice(scores, first, ScoresOf(spans[..0])) == scores
  {
    assert ScoresOf(spans[..0]) == [];
  }

  lemma WithOneMore(rows: seq<seq<int>>, first: nat, hyps: seq<Scored<seq<int>>>, k: nat, width: nat,
      scores: seq<real>, spans: seq<Scored<Span>>)
    requires k < |hyps| == |spans| && first + k < |rows|
    requires (forall i :: 0 <= i < |rows| ==> |rows[i]| == width) && Narrow(hyps, width)
    ensures Narrow(hyps[..k], width) && Narrow(hyps[..k + 1], width)
    ensures var r := WithRows(rows, first, hyps[..k], width);
      |r| == |rows| && r[first + k] == rows[first + k]
      && WithRows(rows, first, hyps[..k + 1], width) == r[first + k := Overwritten(r[first + k], hyps[k].item)]
    ensures first + k < |scores| ==>
      Splice(scores, first, ScoresOf(spans[..k + 1]))
        == Splice(scores, first, ScoresOf(spans[..k]))[first + k := spans[k].score]
  {
    assert ScoresOf(spans[..k + 1]) == ScoresOf(spans[..k]) + [spans[k].score];
  }

  lemma WithRowsAppend(rows: seq<seq<int>>, a: seq<Scored<seq<int>>>, b: seq<Scored<seq<int>>>, width: nat)
    requires |a| + |b| <= |rows| && (forall i :: 0 <= i < |rows| ==> |rows[i]| == width)
    requires Narrow(a, width) && Narrow(b, width)
    ensures forall i :: 0 <= i < |rows| ==> |WithRows(rows, 0, a, width)[i]| == width
    ensures Narrow(a + b, width)
    ensures WithRows(WithRows(rows, 0, a, width), |a|, b, width) == WithRows(rows, 0, a + b, width)
  {
  }

  lemma ScoresAppend<T>(scores: seq<real>, a: seq<Scored<T>>, b: seq<Scored<T>>)
    requires |a| + |b| <= |scores|
    ensures Splice(Splice(scores, 0, ScoresOf(a)), |a|, ScoresOf(b)) == Splice(scores, 0, ScoresOf(a + b))
  {
    assert ScoresOf(a + b) == ScoresOf(a) + ScoresOf(b);
  }

  /** `copy` into the start of one output row. */
  method WriteRow(sequences: array<int>, row: nat, ghost total: nat, maxLength: nat, source: array<int>, offset: nat,
      length: nat)
    requires sequences != source && sequences.Length == total * maxLength && row < total
    requires offset + length <= source.Length && length <= maxLength
    modifies sequences
    ensures var before := old(Rows(sequences[..], maxLength, maxLength, total));
      Rows(sequences[..], maxLength, maxLength, total)
        == before[row := Overwritten(before[row], source[offset..offset + length])]
  {
    SpliceInRow(sequences[..], maxLength, row, total, source[offset..offset + length]);
    CopySpan(source, offset, sequences, row * maxLength, length);
  }

  class BeamHypotheses {
    const beams: array<Scored<Span>>
    const norm: (real, nat) -> real  // sum / pow(length, length_penalty)
    var beamsUsed: nat
    var done: bool

    ghost predicate Valid() reads this, beams {
      0 < beams.Length && beamsUsed <= beams.Length && Descending(beams[..beamsUsed])
    }

    ghost function Contents(): (s: seq<Scored<Span>>)
      reads this, beams
      requires Valid()
    {
      beams[..beamsUsed]
    }

    /** Allocation and Init. */
    constructor (norm: (real, nat) -> real, numBeams: nat)
      requires numBeams > 0
      ensures Valid() && fresh(beams) && beams.Length == numBeams && this.norm == norm
      ensures Contents() == [] && !done
    {
      this.norm := norm;
      beams := new Scored<Span>[numBeams](_ => Scored(Span(false, 0, 0), 0.0));
      beamsUsed := 0;
      done := false;
    }

    method Add(hypothesis: Span, sumLogprobs: real)
      requires Valid()
      modifies this`beamsUsed, beams
      ensures Valid()
      ensures Contents() == AddTo(beams.Length, old(Contents()),
        Scored(hypothesis, norm(sumLogprobs, hypothesis.length)))
    {
      var score := norm(sumLogprobs, hypothesis.length);
      ghost var was := Contents();
      var index := beamsUsed;
      if index == beams.Length {
        index := index - 1;
        if score <= beams[index].score {
          PlaceAt(was, Scored(hypothesis, score), |was|);
          return;
        }
      } else {
        beamsUsed := beamsUsed + 1;
      }
      index := Rotate(index, score);
      beams[index] := Scored(hypothesis, score);
      ShiftedIn(beams.Length, was, Scored(hypothesis, score), index, beams[..beamsUsed]);
    }

    /** The rotation loop: elements that score less move one place back. */
    method Rotate(start: nat, score: real) returns (index: nat)
      requires start < beamsUsed <= beams.Length
      modifies beams
      ensures index <= start
      ensures index > 0 ==> old(beams[index - 1]).score >= score
      ensures index < start ==> old(beams[index]).score < score
      ensures forall j :: 0 <= j < index ==> beams[j] == old(beams[j])
      ensures forall j :: index < j <= start ==> beams[j] == old(beams[j - 1])
      ensures forall j :: start < j < beams.Length ==> beams[j] == old(beams[j])
    {
      index := start;
      while index > 0 && score > beams[index - 1].score
        invariant index <= start
        invariant index < start ==> old(beams[index]).score < score
        invariant forall j :: 0 <= j < index ==> beams[j] == old(beams[j])
        invariant forall j :: index < j <= start ==> beams[j] == old(beams[j - 1])
        invariant forall j :: start < j < beams.Length ==> beams[j] == old(beams[j])
      {
        beams[index] := beams[index - 1];
        index := index - 1;
      }
    }

    /** Whether the best continuation would displace a stored hypothesis: only the last one is compared. */
    method CanImprove(bestSumLogprobs: real, currentLength: nat) returns (r: bool)
      requires Valid() && beamsUsed == beams.Length
      ensures r <==> exists i :: 0 <= i < |Contents()| && Contents()[i].score < norm(bestSumLogprobs, currentLength)
    {
      var currentScore := norm(bestSumLogprobs, currentLength);
      r := beams[beams.Length - 1].score < currentScore;
      assert Contents()[beams.Length - 1] == beams[beams.Length - 1];
    }

    /** Copies the best topK hypotheses over the first cells of `topK` rows of the output. */
    method Output(topK: nat, maxLength: nat, clones: array<int>, live: array<int>, sequences: array<int>, first: nat,
        ghost total: nat, sequencesScores: array<real>)
      requires Valid() && topK <= beamsUsed
      requires Readable(Contents(), clones.Length, live.Length, maxLength)
      requires sequences != clones && sequences != live && sequences.Length == total * maxLength
        && first + topK <= total
      requires sequencesScores.Length != 0 ==> first + topK <= sequencesScores.Length
      modifies sequences, sequencesScores
      ensures var hyps, before :=
        Mapped(Reader(clones[..], live[..]), Contents()), old(Rows(sequences[..], maxLength, maxLength, total));
        && Narrow(hyps, maxLength) && Narrow(hyps[..topK], maxLength)
        && Rows(sequences[..], maxLength, maxLength, total) == WithRows(before, first, hyps[..topK], maxLength)
      ensures sequencesScores.Length != 0 ==>
        sequencesScores[..] == Splice(old(sequencesScores[..]), first, ScoresOf(Contents()[..topK]))
    {
      hide *;
      ghost var f, spans := Reader(clones[..], live[..]), Contents();
      ghost var hyps, before := Mapped(f, spans), Rows(sequences[..], maxLength, maxLength, total);
      ReadableHyps(spans, clones[..], live[..], maxLength);
      RowsWide(sequences[..], maxLength, total);
      ContentsLength();
      WithNone(before, first, hyps, maxLength, sequencesScores[..], spans);
      for index := 0 to topK
        invariant Narrow(hyps[..index], maxLength)
        invariant Rows(sequences[..], maxLength, maxLength, total) == WithRows(before, first, hyps[..index], maxLength)
        invariant sequencesScores.Length != 0 ==>
          sequencesScores[..] == Splice(old(sequencesScores[..]), first, ScoresOf(spans[..index]))
        modifies sequences, sequencesScores
      {
        ItemAt(index, clones[..], live[..], maxLength);
        WithOneMore(before, first, hyps, index, maxLength, old(sequencesScores[..]), spans);
        var item := beams[index].item;
        WriteRow(sequences, first + index, total, maxLength, if item.live then live
          else clones, item.offset, item.length);
        if sequencesScores.Length != 0 {
          sequencesScores[first + index] := beams[index].score;
        }
      }
    }

    lemma ContentsLength()
      requires Valid()
      ensures |Contents()| == beamsUsed <= beams.Length
    {
    }

    lemma ItemAt(index: nat, clones: seq<int>, live: seq<int>, maxLength: nat)
      requires Valid() && index < beamsUsed && Readable(Contents(), |clones|, |live|, maxLength)
      ensures |Contents()| == beamsUsed <= beams.Length && beams[index] == Contents()[index]
      ensures var item := beams[index].item;
        && item.offset + item.length <= (if item.live then |live| else |clones|)
        && Mapped(Reader(clones, live), Contents())[index].item
          == (if item.live then live else clones)[item.offset..item.offset + item.length]
    {
      assert Contents()[index] in Contents();
    }
  }
}
