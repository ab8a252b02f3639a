/** The order both bounded lists of the beam search keep: higher score first, smaller key on ties. `IsBest` says,
    without reference to any algorithm, what "the best k of a collection" means. */
module Ranking {

  /** A score, or the minus infinity an unused slot carries. */
  datatype Score = NegInf | Fin(value: real) {
    predicate Above(that: Score) {
      Fin? && (that.NegInf? || value > that.value)
    }
  }

  datatype Entry = Entry(score: Score, key: int)

  predicate Before(a: Entry, b: Entry) {
    || (a.score.Fin? && (b.score.NegInf? || a.score.value > b.score.value))
    || (a.score == b.score && a.key < b.key)
  }

  ghost predicate Sorted(s: seq<Entry>) {
    forall i, j :: 0 <= i < j < |s| ==> !Before(s[j], s[i])
  }

  /** `best` lists the k best of `items`, best first; all of them when there are fewer than k. */
  ghost predicate IsBest(k: nat, best: seq<Entry>, items: multiset<Entry>) {
    && Sorted(best)
    && |best| == (if |items| < k then |items| else k)
    && multiset(best) <= items
    && forall x, y :: x in items - multiset(best) && y in best ==> !Before(x, y)
  }

  /** Puts e in front of the first element it comes before. */
  function Insert(s: seq<Entry>, e: Entry): (r: seq<Entry>)
    ensures |r| == |s| + 1
  {
    if s == [] then [e]
    else if Before(e, s[0]) then [e] + s
    else [s[0]] + Insert(s[1..], e)
  }

  function Keep<T>(k: nat, s: seq<T>): (r: seq<T>)
    ensures |r| == if |s| < k then |s| else k
  {
    if |s| <= k then s else s[..k]
  }

  lemma StaysBehind(e: Entry, a: Entry, b: Entry)
    requires Before(e, a) && (b == a || !Before(b, a))
    ensures !Before(b, e)
  {
  }

  lemma InFront(x: Entry, t: seq<Entry>)
    requires Sorted(t) && forall y :: y in t ==> !Before(y, x)
    ensures Sorted([x] + t)
  {
  }

  lemma {:induction false} InsertIsSortedPermutation(s: seq<Entry>, e: Entry)
    requires Sorted(s)
    ensures Sorted(Insert(s, e))
    ensures multiset(Insert(s, e)) == multiset(s) + multiset{e}
  {
    hide Before;
    if s == [] {
    } else if Before(e, s[0]) {
      forall y | y in s ensures !Before(y, e) {
        StaysBehind(e, s[0], y);
      }
      InFront(e, s);
    } else {
      var t := Insert(s[1..], e);
      InsertIsSortedPermutation(s[1..], e);
      assert s == [s[0]] + s[1..];
      forall y | y in t ensures !Before(y, s[0]) {
        assert y in multiset(t);
      }
      InFront(s[0], t);
    }
  }

  /** Dropping the tail of a sorted list leaves the best of what was in it. */
  lemma KeepIsBest(k: nat, s: seq<Entry>)
    requires Sorted(s)
    ensures IsBest(k, Keep(k, s), multiset(s))
  {
    if |s| > k {
      assert s == s[..k] + s[k..];
      assert multiset(s) - multiset(s[..k]) == multiset(s[k..]);
    } else {
      assert multiset(s) - multiset(s) == multiset{};
    }
  }

  /** What is best of the kept part and some more is best of the whole and some more. */
  lemma BestOfBest(k: nat, a: multiset<Entry>, b: seq<Entry>, items: multiset<Entry>, best: seq<Entry>)
    requires IsBest(k, b, items)
    requires IsBest(k, best, a + multiset(b))
    ensures IsBest(k, best, a + items)
  {
    var kept, all := a + multiset(b), a + items;
    if |b| < k {
      assert multiset(b) == items by { FullSubmultiset(multiset(b), items); }
    } else {
      assert multiset(best) <= all;
      forall x, y | x in all - multiset(best) && y in best ensures !Before(x, y) {
        if x !in kept - multiset(best) && Before(x, y) {
          assert x in items - multiset(b);
          assert multiset(b) + multiset{y} <= multiset(best) by {
            assert y !in b;
            forall z | z in b ensures multiset(b)[z] <= multiset(best)[z] {
              assert !Before(x, z);
              assert Before(z, y);
              assert z !in kept - multiset(best);
            }
          }
          assert |multiset(b) + multiset{y}| <= |multiset(best)| by { SubmultisetSize(multiset(b) + multiset{y},
            multiset(best)); }
          assert false;
        }
      }
    }
  }

  lemma SubmultisetSize<T>(a: multiset<T>, b: multiset<T>)
    requires a <= b
    ensures |a| <= |b|
  {
    assert b == a + (b - a);
  }

  lemma FullSubmultiset<T>(a: multiset<T>, b: multiset<T>)
    requires a <= b && |a| == |b|
    ensures a == b
  {
    assert b == a + (b - a);
    assert |b - a| == 0;
  }

  /** One bounded insertion keeps the best of everything inserted so far. */
  lemma InsertKeepsBest(k: nat, s: seq<Entry>, e: Entry, items: multiset<Entry>)
    requires IsBest(k, s, items)
    ensures IsBest(k, Keep(k, Insert(s, e)), items + multiset{e})
  {
    var t := Insert(s, e);
    InsertIsSortedPermutation(s, e);
    KeepIsBest(k, t);
    assert multiset(t) == multiset{e} + multiset(s);
    BestOfBest(k, multiset{e}, s, items, Keep(k, t));
    assert multiset{e} + items == items + multiset{e};
  }

  lemma InsertKeepsBestOf(k: nat, s: seq<Entry>, e: Entry, items: seq<Entry>)
    requires IsBest(k, s, multiset(items))
    ensures IsBest(k, Keep(k, Insert(s, e)), multiset(items + [e]))
  {
    InsertKeepsBest(k, s, e, multiset(items));
    assert multiset(items + [e]) == multiset(items) + multiset{e};
  }

  /** There is only one best list. */
  lemma {:induction false} BestIsUnique(k: nat, s: seq<Entry>, t: seq<Entry>, items: multiset<Entry>)
    requires IsBest(k, s, items) && IsBest(k, t, items)
    ensures s == t
    decreases k
  {
    hide *;
    SameSize(k, s, t, items);
    if s != [] {
      SameFirst(k, s, t, items);
      RestIsBest(k, s, items);
      RestIsBest(k, t, items);
      BestIsUnique(k - 1, s[1..], t[1..], items - multiset{s[0]});
      assert s == [s[0]] + s[1..] && t == [t[0]] + t[1..];
    }
  }

  lemma SameSize(k: nat, s: seq<Entry>, t: seq<Entry>, items: multiset<Entry>)
    requires IsBest(k, s, items) && IsBest(k, t, items)
    ensures |s| == |t| <= k
  {
    hide Sorted, Before;
  }

  lemma SameFirst(k: nat, s: seq<Entry>, t: seq<Entry>, items: multiset<Entry>)
    requires IsBest(k, s, items) && IsBest(k, t, items) && s != []
    ensures t != [] && s[0] == t[0]
  {
    hide *;
    SameSize(k, s, t, items);
    FirstIsLeast(k, s, items);
    FirstIsLeast(k, t, items);
    Total(s[0], t[0]);
  }

  lemma Total(a: Entry, b: Entry)
    requires !Before(a, b) && !Before(b, a)
    ensures a == b
  {
  }

  lemma FirstIsLeast(k: nat, s: seq<Entry>, items: multiset<Entry>)
    requires IsBest(k, s, items) && s != []
    ensures s[0] in items && forall x :: x in items ==> !Before(x, s[0])
  {
    assert s[0] in multiset(s);
    forall x | x in items ensures !Before(x, s[0]) {
      if x !in items - multiset(s) {
        assert x in multiset(s);
      }
    }
  }

  lemma RestIsBest(k: nat, s: seq<Entry>, items: multiset<Entry>)
    requires IsBest(k, s, items) && s != []
    ensures IsBest(k - 1, s[1..], items - multiset{s[0]})
  {
    assert s == [s[0]] + s[1..];
    assert s[0] in multiset(s);
    assert items - multiset{s[0]} - multiset(s[1..]) == items - multiset(s);
  }
}
