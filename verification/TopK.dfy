/** The mergeable top-k table of the device beam search: fixed arrays of keys and values, one bubbling pass per
    insertion, and a reduction that inserts one table into another. */
module TopKTable {
  import opened Ranking

  const EMPTY := Entry(NegInf, -1)

  /** An item a kernel inserts: keys are vocabulary indices. */
  predicate Proper(e: Entry) { e.key >= 0 }

  /** The comparison both branches of Insert make; a slot with key -1 loses to anything. */
  predicate Displaces(e: Entry, slot: Entry) {
    e.score.Above(slot.score) || slot.key == -1 || (e.score == slot.score && e.key < slot.key)
  }

  /** The bubbling pass, last pair first. */
  function Bubble(s: seq<Entry>): (r: seq<Entry>)
    ensures |r| == |s|
  {
    if |s| <= 1 then s
    else
      var t := Bubble(s[1..]);
      if Displaces(t[0], s[0]) then [t[0], s[0]] + t[1..] else [s[0]] + t
  }

  function InsertSlots(s: seq<Entry>, e: Entry): (r: seq<Entry>)
    requires s != []
    ensures |r| == |s|
  {
    Bubble(if Displaces(e, s[|s| - 1]) then s[..|s| - 1] + [e] else s)
  }

  function InsertAll(s: seq<Entry>, items: seq<Entry>): (r: seq<Entry>)
    requires s != []
    ensures |r| == |s|
  {
    if items == [] then s
    else InsertSlots(InsertAll(s, items[..|items| - 1]), items[|items| - 1])
  }

  function Empties(n: nat): (r: seq<Entry>) { seq(n, _ => EMPTY) }

  /** A table of k slots holding `s`, unused slots last. */
  function Table(k: nat, s: seq<Entry>): (r: seq<Entry>)
    requires |s| <= k
    ensures |r| == k
  {
    s + Empties(k - |s|)
  }

  class TopK {
    const key: array<int>
    const value: array<Score>

    ghost predicate Valid() reads this { key.Length == value.Length > 0 && key as object != value }

    ghost function Slots(): (s: seq<Entry>)
      reads this, key, value
      requires Valid()
      ensures |s| == key.Length
    {
      seq(key.Length, i requires 0 <= i < key.Length reads this, key, value requires Valid() => Entry(value[i], key[i]))
    }

    /** Allocation and Init: every slot is the empty one. */
    constructor (maxK: nat)
      requires maxK > 0
      ensures Valid() && fresh(key) && fresh(value)
      ensures Slots() == Table(maxK, []) && key.Length == value.Length == maxK
      ensures forall i :: 0 <= i < maxK ==> key[i] == -1 && value[i] == NegInf
    {
      key := new int[maxK](_ => -1);
      value := new Score[maxK](_ => NegInf);
    }

    method Insert(elem: Score, elemId: int)
      requires Valid()
      modifies key, value
      ensures Slots() == InsertSlots(old(Slots()), Entry(elem, elemId))
    {
      hide *;
      SlotsLength();
      ghost var was := Slots();
      ReplaceLast(elem, elemId);
      ghost var start := Slots();
      var maxK := key.Length;
      BubbleOne(start);
      var k := maxK - 2;
      while k >= 0
        invariant -1 <= k <= maxK - 2 && Slots() == BubbledFrom(start, k + 1)
      {
        ghost var before := Slots();
        OrderPair(k);
        BubbleStep(start, before, Slots(), k);
        k := k - 1;
      }
      InsertSlotsIs(was, Entry(elem, elemId));
      BubbledAll(start);
    }

    lemma SlotsLength()
      requires Valid()
      ensures |Slots()| == key.Length > 0
    {
    }

    lemma SlotIs(i: nat)
      requires Valid() && i < key.Length
      ensures i < value.Length && Slots()[i] == Entry(value[i], key[i])
    {
    }

    /** The first part of Insert: the last slot takes the new item if the item displaces it. */
    method ReplaceLast(elem: Score, elemId: int)
      requires Valid()
      modifies key, value
      ensures var before, e := old(Slots()), Entry(elem, elemId);
        Slots() == if Displaces(e, before[|before| - 1]) then before[..|before| - 1] + [e] else before
    {
      var maxK := key.Length;
      var v := value[maxK - 1];
      if elem.Above(v) || key[maxK - 1] == -1 || (elem == value[maxK - 1] && elemId < key[maxK - 1]) {
        value[maxK - 1] := elem;
        key[maxK - 1] := elemId;
      }
    }

    /** The loop body: swap slots k and k+1 if the second displaces the first. */
    method OrderPair(k: nat)
      requires Valid() && k + 1 < key.Length
      modifies key, value
      ensures var before := old(Slots());
        Slots() == if Displaces(before[k + 1], before[k]) then before[k := before[k + 1]][k + 1 := before[k]]
          else before
    {
      if value[k + 1].Above(value[k]) || key[k] == -1 || (value[k + 1] == value[k] && key[k + 1] < key[k]) {
        var u2, p2 := value[k], key[k];
        value[k] := value[k + 1];
        key[k] := key[k + 1];
        value[k + 1] := u2;
        key[k + 1] := p2;
      }
    }
  }

  /** The table after the pass has come down to slot k. */
  function BubbledFrom(start: seq<Entry>, k: nat): (r: seq<Entry>)
    requires k <= |start|
    ensures |r| == |start|
  {
    start[..k] + Bubble(start[k..])
  }

  lemma BubbleOne(s: seq<Entry>)
    requires s != []
    ensures s == BubbledFrom(s, |s| - 1)
  {
  }

  lemma BubbledAll(s: seq<Entry>)
    ensures BubbledFrom(s, 0) == Bubble(s)
  {
    assert s[0..] == s;
  }

  lemma InsertSlotsIs(s: seq<Entry>, e: Entry)
    requires s != []
    ensures InsertSlots(s, e) == Bubble(if Displaces(e, s[|s| - 1]) then s[..|s| - 1] + [e] else s)
  {
  }

  lemma BubbleStep(start: seq<Entry>, before: seq<Entry>, after: seq<Entry>, k: nat)
    requires |start| == |before| && k + 1 < |start| && before == BubbledFrom(start, k + 1)
    requires after == if Displaces(before[k + 1], before[k]) then before[k := before[k + 1]][k + 1 := before[k]]
      else before
    ensures after == BubbledFrom(start, k)
  {
    hide Displaces;
    var t := Bubble(start[k + 1..]);
    assert start[k..][1..] == start[k + 1..];
    assert before[k + 1] == t[0] && before[k] == start[k];
    assert start[..k + 1] == start[..k] + [start[k]];
    assert t == [t[0]] + t[1..];
  }

  /** reduce_topk_op: a copy of a, with b's slots inserted in order. */
  method Reduce(a: TopK, b: TopK) returns (res: TopK)
    requires a.Valid() && b.Valid() && a.key.Length == b.key.Length
    ensures fresh(res) && res.Valid()
    ensures res.Slots() == InsertAll(a.Slots(), b.Slots())
  {
    hide *;
    ghost var left, right := a.Slots(), b.Slots();
    a.SlotsLength();
    b.SlotsLength();
    var maxK := a.key.Length;
    res := Copy(a);
    InsertNone(left);
    assert right[..0] == [];
    for i := 0 to maxK
      invariant fresh(res) && res.Valid() && fresh(res.key) && fresh(res.value)
      invariant b.Valid() && b.Slots() == right
      invariant res.Slots() == InsertAll(left, right[..i])
    {
      b.SlotIs(i);
      assert right[..i + 1] == right[..i] + [right[i]];
      InsertOneMore(left, right[..i], right[i]);
      res.Insert(b.value[i], b.key[i]);
    }
    assert right[..maxK] == right;
  }

  /** The copy constructor: res = a. */
  method Copy(a: TopK) returns (res: TopK)
    requires a.Valid()
    ensures fresh(res) && res.Valid() && fresh(res.key) && fresh(res.value)
    ensures res.Slots() == a.Slots()
  {
    var maxK := a.key.Length;
    res := new TopK(maxK);
    forall i | 0 <= i < maxK { res.key[i] := a.key[i]; }
    forall i | 0 <= i < maxK { res.value[i] := a.value[i]; }
  }

  // ----- one insertion -----

  ghost predicate AllProper(s: seq<Entry>) { forall e :: e in s ==> Proper(e) }

  ghost predicate AllFinite(s: seq<Entry>) { forall e :: e in s ==> e.score.Fin? }

  lemma BubbleCons(x: Entry, s: seq<Entry>)
    requires s != []
    ensures Bubble([x] + s) == (var t := Bubble(s); if Displaces(t[0], x) then [t[0], x] + t[1..] else [x] + t)
  {
    assert ([x] + s)[1..] == s;
  }

  lemma {:induction false} BubbleOverEmpties(m: nat, e: Entry)
    requires Proper(e)
    ensures Bubble(Empties(m) + [e]) == [e] + Empties(m)
  {
    if m == 0 {
      assert Empties(0) + [e] == [e];
    } else {
      assert Empties(m) + [e] == [EMPTY] + (Empties(m - 1) + [e]);
      BubbleOverEmpties(m - 1, e);
      BubbleCons(EMPTY, Empties(m - 1) + [e]);
      assert ([e] + Empties(m - 1))[1..] == Empties(m - 1);
      assert [e, EMPTY] + Empties(m - 1) == [e] + Empties(m);
    }
  }

  lemma HeadGivesWay(s: seq<Entry>, e: Entry)
    requires Sorted(s) && s != [] && Proper(e) && Before(e, s[0])
    ensures Insert(s[1..], e) == [e] + s[1..] && Insert(s, e) == [e] + s && Displaces(e, s[0])
  {
    if |s| > 1 { assert !Before(s[1], s[0]); }
  }

  lemma HeadStays(s: seq<Entry>, e: Entry)
    requires Sorted(s) && s != [] && AllProper(s) && !Before(e, s[0])
    ensures Insert(s, e) == [s[0]] + Insert(s[1..], e) && !Displaces(Insert(s[1..], e)[0], s[0])
  {
    assert Proper(s[0]);
    if |s| > 1 { assert !Before(s[1], s[0]); }
  }

  lemma {:induction false} BubbleLifts(s: seq<Entry>, m: nat, e: Entry)
    requires Sorted(s) && AllProper(s) && Proper(e)
    ensures Bubble(s + (Empties(m) + [e])) == Insert(s, e) + Empties(m)
  {
    var tail := Empties(m) + [e];
    if s == [] {
      assert s + tail == tail;
      BubbleOverEmpties(m, e);
    } else {
      BubbleLifts(s[1..], m, e);
      if Before(e, s[0]) { HeadGivesWay(s, e); } else { HeadStays(s, e); }
      hide *;
      BubbleCons(s[0], s[1..] + tail);
      assert s == [s[0]] + s[1..] && s + tail == [s[0]] + (s[1..] + tail);
      var t := Insert(s[1..], e);
      if Before(e, s[0]) {
        assert (t + Empties(m))[1..] == s[1..] + Empties(m);
        assert [e, s[0]] + (s[1..] + Empties(m)) == [e] + s + Empties(m);
      } else {
        assert [s[0]] + (t + Empties(m)) == [s[0]] + t + Empties(m);
      }
    }
  }

  lemma {:induction false} BubbleKeepsSorted(s: seq<Entry>)
    requires Sorted(s) && AllProper(s)
    ensures Bubble(s) == s
  {
    if |s| > 1 {
      BubbleKeepsSorted(s[1..]);
      assert !Before(s[1], s[0]) && Proper(s[0]);
      assert s[1..][0] == s[1];
      assert s == [s[0]] + s[1..];
    }
  }

  /** Inserting an item keeps the table the sorted best k of everything inserted. */
  lemma InsertIsBoundedInsert(k: nat, s: seq<Entry>, e: Entry)
    requires 0 < k && |s| <= k && Sorted(s) && AllProper(s) && Proper(e)
    ensures InsertSlots(Table(k, s), e) == Table(k, Keep(k, Insert(s, e)))
  {
    if |s| < k {
      InsertWithRoom(k, s, e);
    } else {
      InsertWhenFull(k, s, e);
    }
  }

  lemma InsertWhenFull(k: nat, s: seq<Entry>, e: Entry)
    requires 0 < k == |s| && Sorted(s) && AllProper(s) && Proper(e)
    ensures InsertSlots(Table(k, s), e) == Table(k, Keep(k, Insert(s, e)))
  {
    hide Bubble, Insert, Sorted;
    var front, last := s[..k - 1], s[k - 1];
    assert s == front + [last] && Table(k, s) == s;
    assert Proper(last);
    SortedFront(front, last);
    InsertAtEnd(front, last, e);
    if Before(e, last) {
      BubbleLifts(front, 0, e);
      assert Empties(0) + [e] == [e];
      assert Insert(front, e) + Empties(0) == Insert(front, e);
    } else {
      BubbleKeepsSorted(s);
    }
  }

  lemma SortedFront(front: seq<Entry>, last: Entry)
    requires Sorted(front + [last])
    ensures Sorted(front)
  {
    forall i, j | 0 <= i < j < |front| ensures !Before(front[j], front[i]) {
      assert (front + [last])[i] == front[i] && (front + [last])[j] == front[j];
    }
  }

  lemma InsertWithRoom(k: nat, s: seq<Entry>, e: Entry)
    requires |s| < k && Sorted(s) && AllProper(s) && Proper(e)
    ensures InsertSlots(Table(k, s), e) == Table(k, Insert(s, e))
  {
    var m := k - 1 - |s|;
    assert Table(k, s)[k - 1] == EMPTY;
    assert Table(k, s)[..k - 1] + [e] == s + (Empties(m) + [e]);
    BubbleLifts(s, m, e);
  }

  lemma {:induction false} InsertAtEnd(front: seq<Entry>, last: Entry, e: Entry)
    requires Sorted(front + [last])
    ensures Insert(front + [last], e) == if Before(e, last) then Insert(front, e) + [last] else front + [last, e]
  {
    var s := front + [last];
    if front != [] {
      assert s[1..] == front[1..] + [last];
      assert s[0] == front[0];
      assert !Before(last, s[0]) by { assert s[|s| - 1] == last; }
      InsertAtEnd(front[1..], last, e);
      if Before(e, s[0]) {
        assert Before(e, last);
        assert [e] + front + [last] == [e] + s;
      } else if Before(e, last) {
        assert [front[0]] + (Insert(front[1..], e) + [last]) == [front[0]] + Insert(front[1..], e) + [last];
      } else {
        assert [front[0]] + (front[1..] + [last, e]) == front + [last, e];
      }
    }
  }

  // ----- inserting the empty slots of the other table -----

  /** Empty slots and minus-infinity items. */
  ghost predicate AllVoid(s: seq<Entry>) { forall i :: 0 <= i < |s| ==> s[i].score.NegInf? && s[i].key >= -1 }

  /** How many leading entries are finite. */
  function FiniteCount(s: seq<Entry>): (f: nat)
    ensures f <= |s|
    ensures f < |s| ==> s[f].score.NegInf?
    ensures forall i :: 0 <= i < f ==> s[i].score.Fin?
  {
    if s == [] || s[0].score.NegInf? then 0 else 1 + FiniteCount(s[1..])
  }

  lemma FiniteFirst(s: seq<Entry>)
    requires Sorted(s)
    ensures forall i :: FiniteCount(s) <= i < |s| ==> s[i].score.NegInf?
  {
    forall i | FiniteCount(s) <= i < |s| ensures s[i].score.NegInf? {
      if i > FiniteCount(s) {
        assert !Before(s[i], s[FiniteCount(s)]);
      }
    }
  }

  lemma {:induction false} BubbleRaisesEmpty(s: seq<Entry>)
    requires s != [] && s[|s| - 1] == EMPTY
    requires AllVoid(s)
    ensures Bubble(s) == [EMPTY] + s[..|s| - 1]
  {
    if |s| > 1 {
      var t := s[1..];
      BubbleRaisesEmpty(t);
      assert ([EMPTY] + t[..|t| - 1])[1..] == t[..|t| - 1];
      assert [EMPTY, s[0]] + t[..|t| - 1] == [EMPTY] + s[..|s| - 1];
    }
  }

  lemma {:induction false} BubbleKeepsFront(s: seq<Entry>, t: seq<Entry>)
    requires Sorted(s) && AllProper(s) && AllFinite(s)
    requires forall i :: 0 <= i < |t| ==> t[i].score.NegInf?
    requires |Bubble(t)| > 0 ==> Bubble(t)[0].score.NegInf?
    ensures Bubble(s + t) == s + Bubble(t)
  {
    if s == [] {
      assert s + t == t;
    } else if |s + t| == 1 {
      assert s + t == s && t == [] && s + Bubble(t) == s;
    } else {
      hide *;
      RestFacts(s);
      BubbleKeepsFront(s[1..], t);
      StaysInFront(s, Bubble(t));
      assert s + t == [s[0]] + (s[1..] + t);
      assert [s[0]] + (s[1..] + Bubble(t)) == s + Bubble(t);
      BubbleCons(s[0], s[1..] + t);
    }
  }

  lemma RestFacts(s: seq<Entry>)
    requires Sorted(s) && AllProper(s) && AllFinite(s) && s != []
    ensures Sorted(s[1..]) && AllProper(s[1..]) && AllFinite(s[1..])
  {
    hide Before;
    forall e | e in s[1..] ensures e in s {
    }
  }

  /** The first of a sorted list of finite entries is not displaced by what comes after it. */
  lemma StaysInFront(s: seq<Entry>, after: seq<Entry>)
    requires Sorted(s) && AllProper(s) && AllFinite(s) && s != [] && |s| + |after| > 1
    requires after != [] ==> after[0].score.NegInf?
    ensures !Displaces((s[1..] + after)[0], s[0])
  {
    assert Proper(s[0]);
    if |s| > 1 {
      assert !Before(s[1], s[0]);
    }
  }

  /** What an empty slot does to a table: it climbs over every minus-infinity entry. */
  lemma InsertEmpty(front: seq<Entry>, rest: seq<Entry>)
    requires Sorted(front) && AllProper(front) && AllFinite(front) && |front| + |rest| > 0
    requires AllVoid(rest)
    ensures InsertSlots(front + rest, EMPTY) == if rest == [] then front else front + [EMPTY] + rest[..|rest| - 1]
  {
    var table := front + rest;
    if rest == [] {
      assert table == front;
      assert Proper(front[|front| - 1]);
      BubbleKeepsSorted(front);
    } else {
      var t := rest[..|rest| - 1] + [EMPTY];
      assert table[..|table| - 1] + [EMPTY] == front + t;
      assert Displaces(EMPTY, rest[|rest| - 1]);
      BubbleRaisesEmpty(t);
      assert t[..|t| - 1] == rest[..|rest| - 1];
      BubbleKeepsFront(front, t);
    }
  }

  /** What m empty slots do: they settle between the finite entries and the rest, pushing the last ones out. */
  lemma {:induction false} InsertEmpties(front: seq<Entry>, rest: seq<Entry>, m: nat)
    requires Sorted(front) && AllProper(front) && AllFinite(front) && front + rest != []
    requires AllVoid(rest)
    ensures InsertAll(front + rest, Empties(m)) == front + Keep(|rest|, Empties(m) + rest)
  {
    hide *;
    if m == 0 {
      InsertNone(front + rest);
      KeepNoEmpty(rest);
    } else {
      InsertEmpties(front, rest, m - 1);
      OneMoreEmpty(m);
      InsertOneMore(front + rest, Empties(m - 1), EMPTY);
      KeepOneMoreEmpty(rest, m);
      PushEmpty(front, Keep(|rest|, Empties(m - 1) + rest), Keep(|rest|, Empties(m) + rest));
    }
  }

  lemma PushEmpty(front: seq<Entry>, r: seq<Entry>, pushed: seq<Entry>)
    requires Sorted(front) && AllProper(front) && AllFinite(front) && front + r != []
    requires AllVoid(r) && pushed == if r == [] then [] else [EMPTY] + r[..|r| - 1]
    ensures InsertSlots(front + r, EMPTY) == front + pushed
  {
    hide *;
    InsertEmpty(front, r);
    if r == [] {
      assert front + [] == front;
    } else {
      assert front + [EMPTY] + r[..|r| - 1] == front + pushed;
    }
  }

  lemma InsertNone(s: seq<Entry>)
    requires s != []
    ensures InsertAll(s, []) == s && Empties(0) == []
  {
  }

  lemma KeepNoEmpty(rest: seq<Entry>)
    ensures Keep(|rest|, Empties(0) + rest) == rest
  {
    assert Empties(0) + rest == rest;
  }

  lemma OneMoreEmpty(m: nat)
    requires m > 0
    ensures Empties(m) == Empties(m - 1) + [EMPTY]
  {
  }

  lemma InsertOneMore(s: seq<Entry>, items: seq<Entry>, e: Entry)
    requires s != []
    ensures InsertAll(s, items + [e]) == InsertSlots(InsertAll(s, items), e)
  {
    assert (items + [e])[..|items|] == items;
  }

  lemma KeepOneMoreEmpty(rest: seq<Entry>, m: nat)
    requires m > 0 && AllVoid(rest)
    ensures var r := Keep(|rest|, Empties(m - 1) + rest);
      AllVoid(r) && |r| == |rest| && Keep(|rest|, Empties(m) + rest) == if r == [] then [] else [EMPTY] + r[..|r| - 1]
  {
    assert Empties(m) + rest == [EMPTY] + (Empties(m - 1) + rest);
  }

  // ----- runs of insertions, and merging two tables -----

  lemma {:induction false} InsertAllIsBest(k: nat, s: seq<Entry>, items: multiset<Entry>, more: seq<Entry>)
      returns (best: seq<Entry>)
    requires 0 < k && IsBest(k, s, items) && AllProper(s) && AllProper(more)
    ensures IsBest(k, best, items + multiset(more)) && AllProper(best)
    ensures InsertAll(Table(k, s), more) == Table(k, best)
  {
    hide *;
    BestFacts(k, s, items);
    if more == [] {
      best := s;
      InsertNone(Table(k, s));
      assert items + multiset(more) == items;
    } else {
      var n := |more| - 1;
      var front, e := more[..n], more[n];
      ProperParts(front, e, more);
      var b := InsertAllIsBest(k, s, items, front);
      best := Keep(k, Insert(b, e));
      BestFacts(k, b, items + multiset(front));
      InsertKeepsBest(k, b, e, items + multiset(front));
      InsertIsBoundedInsert(k, b, e);
      InsertOneMore(Table(k, s), front, e);
      assert items + multiset(front) + multiset{e} == items + multiset(more);
      InsertKeepsProper(k, b, e);
    }
  }

  lemma ProperParts(front: seq<Entry>, e: Entry, more: seq<Entry>)
    requires more != [] && front == more[..|more| - 1] && e == more[|more| - 1] && AllProper(more)
    ensures AllProper(front) && Proper(e)
    ensures more == front + [e]
  {
  }

  lemma InsertKeepsProper(k: nat, s: seq<Entry>, e: Entry)
    requires Sorted(s) && AllProper(s) && Proper(e)
    ensures AllProper(Keep(k, Insert(s, e)))
  {
    hide Sorted, Proper, Insert;
    InsertIsSortedPermutation(s, e);
    forall x | x in Keep(k, Insert(s, e)) ensures Proper(x) {
      assert x in multiset(Insert(s, e));
      assert x == e || x in s;
    }
  }

  lemma {:induction false} InsertAllSplits(s: seq<Entry>, a: seq<Entry>, b: seq<Entry>)
    requires s != []
    ensures InsertAll(s, a + b) == InsertAll(InsertAll(s, a), b)
  {
    if b == [] {
      assert a + b == a;
    } else {
      assert (a + b)[..|a + b| - 1] == a + b[..|b| - 1];
      InsertAllSplits(s, a, b[..|b| - 1]);
    }
  }

  /** A table filled by insertions alone is the best k of what was inserted. */
  lemma FillIsBest(k: nat, more: seq<Entry>) returns (best: seq<Entry>)
    requires 0 < k && AllProper(more)
    ensures IsBest(k, best, multiset(more)) && AllProper(best)
    ensures InsertAll(Table(k, []), more) == Table(k, best)
  {
    best := InsertAllIsBest(k, [], multiset{}, more);
    assert multiset{} + multiset(more) == multiset(more);
  }

  /** Inserting the other table's items, without its empty slots, yields the best of the union. */
  lemma MergeOfItems(k: nat, a: seq<Entry>, itemsA: multiset<Entry>, b: seq<Entry>, itemsB: multiset<Entry>)
      returns (best: seq<Entry>)
    requires 0 < k && IsBest(k, a, itemsA) && IsBest(k, b, itemsB) && AllProper(a) && AllProper(b)
    ensures IsBest(k, best, itemsA + itemsB) && AllProper(best)
    ensures InsertAll(Table(k, a), b) == Table(k, best)
  {
    best := InsertAllIsBest(k, a, itemsA, b);
    BestOfBest(k, itemsA, b, itemsB, best);
  }

  /** Merging two tables yields the table of the union exactly when the second table is full or the finite entries of
      both fill the result: otherwise the empty slots of the second table climb over minus-infinity entries. */
  lemma MergeIsBestIff(k: nat, a: seq<Entry>, itemsA: multiset<Entry>, b: seq<Entry>, itemsB: multiset<Entry>,
      best: seq<Entry>)
    requires 0 < k && IsBest(k, a, itemsA) && IsBest(k, b, itemsB) && AllProper(a) && AllProper(b)
    requires IsBest(k, best, itemsA + itemsB)
    ensures InsertAll(Table(k, a), Table(k, b)) == Table(k, best)
      <==> |b| == k || FiniteCount(a) + FiniteCount(b) >= Min(k, |a| + |b|)
  {
    hide *;
    MergeIsBestIfFinite(k, a, itemsA, b, itemsB, best);
    BestFacts(k, a, itemsA);
    BestFacts(k, b, itemsB);
    BestOfSummaries(k, a, itemsA, b, itemsB, best);
    BestIsFiniteIff(k, best, a, b);
  }

  function Min(m: nat, n: nat): nat {
    if m < n then m else n
  }

  /** The step in terms of the result. */
  lemma MergeIsBestIfFinite(k: nat, a: seq<Entry>, itemsA: multiset<Entry>, b: seq<Entry>, itemsB: multiset<Entry>,
      best: seq<Entry>)
    requires 0 < k && IsBest(k, a, itemsA) && IsBest(k, b, itemsB) && AllProper(a) && AllProper(b)
    requires IsBest(k, best, itemsA + itemsB)
    ensures InsertAll(Table(k, a), Table(k, b)) == Table(k, best) <==> |b| == k || AllFinite(best)
  {
    hide *;
    BestFacts(k, a, itemsA);
    BestFacts(k, b, itemsB);
    BestFacts(k, best, itemsA + itemsB);
    TableIs(k, b);
    var r := MergeOfItems(k, a, itemsA, b, itemsB);
    BestIsUnique(k, r, best, itemsA + itemsB);
    InsertAllSplits(Table(k, a), b, Empties(k - |b|));
    EmptiesChangeTableIff(k, best, k - |b|);
  }

  /** The best of the union is the best of the two summaries. */
  lemma BestOfSummaries(k: nat, a: seq<Entry>, itemsA: multiset<Entry>, b: seq<Entry>, itemsB: multiset<Entry>,
      best: seq<Entry>)
    requires 0 < k && IsBest(k, a, itemsA) && IsBest(k, b, itemsB) && AllProper(a) && AllProper(b)
    requires IsBest(k, best, itemsA + itemsB)
    ensures IsBest(k, best, multiset(a) + multiset(b))
  {
    hide *;
    SelfBest(k, a, itemsA);
    SelfBest(k, b, itemsB);
    var r := MergeOfItems(k, a, multiset(a), b, multiset(b));
    BestOfBest(k, multiset(a), b, itemsB, r);
    assert multiset(a) + itemsB == itemsB + multiset(a);
    BestOfBest(k, itemsB, a, itemsA, r);
    assert itemsB + itemsA == itemsA + itemsB;
    BestIsUnique(k, r, best, itemsA + itemsB);
  }

  lemma SelfBest(k: nat, a: seq<Entry>, items: multiset<Entry>)
    requires IsBest(k, a, items)
    ensures IsBest(k, a, multiset(a))
  {
    assert multiset(a) - multiset(a) == multiset{};
  }

  function FiniteItems(s: seq<Entry>): (r: seq<Entry>) {
    if s == [] then [] else FiniteItems(s[..|s| - 1]) + if s[|s| - 1].score.Fin? then [s[|s| - 1]] else []
  }

  lemma {:induction false} FiniteItemsOf(s: seq<Entry>, x: Entry)
    ensures multiset(FiniteItems(s))[x] == if x.score.Fin? then multiset(s)[x] else 0
  {
    if s != [] {
      FiniteItemsOf(s[..|s| - 1], x);
      assert s == s[..|s| - 1] + [s[|s| - 1]];
    }
  }

  /** In a sorted list the finite entries are the first ones. */
  lemma {:induction false} FiniteItemsFirst(s: seq<Entry>)
    requires Sorted(s)
    ensures |FiniteItems(s)| == FiniteCount(s)
  {
    if s != [] {
      var t := s[..|s| - 1];
      FiniteItemsFirst(t);
      FiniteFirst(s);
      FiniteFirst(t);
      assert FiniteCount(t) < |t| ==> s[FiniteCount(t)] == t[FiniteCount(t)];
      assert FiniteCount(s) < |t| ==> s[FiniteCount(s)] == t[FiniteCount(s)];
    }
  }

  /** The best of two lists are all finite exactly when both together have that many finite entries. */
  lemma BestIsFiniteIff(k: nat, best: seq<Entry>, a: seq<Entry>, b: seq<Entry>)
    requires Sorted(a) && Sorted(b) && IsBest(k, best, multiset(a) + multiset(b))
    ensures AllFinite(best) <==> FiniteCount(a) + FiniteCount(b) >= Min(k, |a| + |b|)
  {
    var finite := multiset(FiniteItems(a)) + multiset(FiniteItems(b));
    FiniteItemsFirst(a);
    FiniteItemsFirst(b);
    assert |multiset(a) + multiset(b)| == |a| + |b| && |best| == Min(k, |a| + |b|);
    forall x ensures finite[x] == if x.score.Fin? then multiset(a)[x] + multiset(b)[x] else 0 {
      FiniteItemsOf(a, x);
      FiniteItemsOf(b, x);
    }
    if AllFinite(best) {
      AllFiniteFit(best, multiset(a) + multiset(b), finite);
    } else {
      var y :| y in best && y.score.NegInf?;
      FiniteInBest(k, best, multiset(a) + multiset(b), finite, y);
    }
  }

  lemma AllFiniteFit(best: seq<Entry>, items: multiset<Entry>, finite: multiset<Entry>)
    requires AllFinite(best) && multiset(best) <= items
    requires forall x :: finite[x] == if x.score.Fin? then items[x] else 0
    ensures |best| <= |finite|
  {
    forall x | x in multiset(best) ensures multiset(best)[x] <= finite[x] {
      assert x in best;
    }
    SubmultisetSize(multiset(best), finite);
  }

  /** Once a minus-infinity entry is among the best, every finite one is, so they are fewer. */
  lemma FiniteInBest(k: nat, best: seq<Entry>, items: multiset<Entry>, finite: multiset<Entry>, y: Entry)
    requires IsBest(k, best, items) && y in best && y.score.NegInf?
    requires forall x :: finite[x] == if x.score.Fin? then items[x] else 0
    ensures |finite| < |best|
  {
    forall x | x in finite ensures finite[x] <= (multiset(best) - multiset{y})[x] {
      if multiset(best)[x] < items[x] {
        assert x in items - multiset(best) && Before(x, y);
      }
    }
    assert y in multiset(best);
    SubmultisetSize(finite, multiset(best) - multiset{y});
  }

  lemma BestFacts(k: nat, best: seq<Entry>, items: multiset<Entry>)
    requires IsBest(k, best, items)
    ensures |best| <= k && Sorted(best)
  {
  }

  lemma TableIs(k: nat, s: seq<Entry>)
    requires |s| <= k
    ensures Table(k, s) == s + Empties(k - |s|)
  {
  }

  /** m empty slots leave a table alone exactly when there are none of them or every entry is finite. */
  lemma EmptiesChangeTableIff(k: nat, best: seq<Entry>, m: nat)
    requires 0 < k && |best| <= k && Sorted(best) && AllProper(best)
    ensures InsertAll(Table(k, best), Empties(m)) == Table(k, best) <==> m == 0 || AllFinite(best)
  {
    var f := FiniteCount(best);
    FiniteFirst(best);
    var front, rest := best[..f], best[f..] + Empties(k - |best|);
    assert Table(k, best) == front + rest;
    assert AllVoid(rest) by {
      forall i | 0 <= i < |best[f..]| ensures Proper(best[f..][i]) {
        assert best[f + i] in best;
      }
    }
    InsertEmpties(front, rest, m);
    var out := front + Keep(|rest|, Empties(m) + rest);
    if f == |best| {
      forall e | e in best ensures e.score.Fin? {
        var i :| 0 <= i < |best| && best[i] == e;
      }
      assert rest == Empties(k - f);
      assert Keep(|rest|, Empties(m) + rest) == rest;
    } else {
      assert best[f] in best;
      if m > 0 {
        assert out[f] == EMPTY && Table(k, best)[f] == best[f];
      } else {
        assert Empties(0) + rest == rest;
      }
    }
  }

  /** Two slots, one minus-infinity item on each side of the merge: the left one is lost from its place. */
  lemma MergeLosesMinusInfinity()
    ensures var a := [Entry(NegInf, 5)];
      InsertAll(Table(2, a), Table(2, [])) == Table(2, []) != Table(2, a)
  {
    var a := [Entry(NegInf, 5)];
    assert Table(2, a) == [] + [Entry(NegInf, 5), EMPTY];
    assert Table(2, []) == Empties(2);
    InsertEmpties([], [Entry(NegInf, 5), EMPTY], 2);
    var all := Empties(2) + [Entry(NegInf, 5), EMPTY];
    assert all[..2] == Empties(2);
    assert [] + Keep(2, all) == Empties(2);
  }

  // ----- reduction trees -----

  datatype Tree = Leaf(items: seq<Entry>) | Node(left: Tree, right: Tree)

  function Reduced(k: nat, t: Tree): (r: seq<Entry>)
    requires k > 0
    ensures |r| == k
  {
    match t
    case Leaf(items) => InsertAll(Table(k, []), items)
    case Node(l, r) => InsertAll(Reduced(k, l), Reduced(k, r))
  }

  ghost function Items(t: Tree): multiset<Entry> {
    match t
    case Leaf(items) => multiset(items)
    case Node(l, r) => Items(l) + Items(r)
  }

  /** Any reduction tree over any partition of finite-valued items computes the table of their best k. */
  lemma {:induction false} ReductionIsBest(k: nat, t: Tree) returns (best: seq<Entry>)
    requires 0 < k
    requires forall e :: e in Items(t) ==> Proper(e) && e.score.Fin?
    ensures IsBest(k, best, Items(t)) && AllProper(best)
    ensures Reduced(k, t) == Table(k, best)
  {
    match t
    case Leaf(items) =>
      best := FillIsBest(k, items);
    case Node(l, r) =>
      var a := ReductionIsBest(k, l);
      var b := ReductionIsBest(k, r);
      best := MergeOfItems(k, a, Items(l), b, Items(r));
      forall e | e in best ensures e.score.Fin? {
        assert e in multiset(best);
      }
      MergeIsBestIfFinite(k, a, Items(l), b, Items(r), best);
  }

  /** So the shape of the reduction does not matter. */
  lemma ReductionShapeIrrelevant(k: nat, t: Tree, u: Tree)
    requires 0 < k && Items(t) == Items(u)
    requires forall e :: e in Items(t) ==> Proper(e) && e.score.Fin?
    ensures Reduced(k, t) == Reduced(k, u)
  {
    var a := ReductionIsBest(k, t);
    var b := ReductionIsBest(k, u);
    BestIsUnique(k, a, b, Items(t));
  }
}
