/** Which documents the parser takes, and with which callbacks: those with a reading, and what the reading says. */
module JsonAccepted {
  import opened JsonGrammar
  import opened JsonTrees
  import opened JsonReading

  /** The tree is all of the text up to the rest. */
  ghost predicate IsReading(j: Json, s: string, name: string, rest: string, calls: seq<Event>) {
    s == Print(j) + rest && Reads(j, rest) && calls == Walk(j, name)
  }

  lemma ReadingIs(j: Json, s: string, name: string, rest: string, calls: seq<Event>)
    ensures IsReading(j, s, name, rest, calls) <==> s == Print(j) + rest && Reads(j, rest) && calls == Walk(j, name)
  {
    hide Print, Reads, Walk;
  }

  // ----- tokens -----

  lemma {:induction false} SpaceTaken(s: string) returns (space: string)
    ensures AllSpace(space) && s == space + SkipSpace(s)
    ensures SkipSpace(s) != "" ==> !AllSpace(SkipSpace(s)[..1])
  {
    if s != "" && IsSpace(s[0]) {
      var more := SpaceTaken(s[1..]);
      space := [s[0]] + more;
    } else {
      space := "";
      if s != "" {
        assert s[..1] == [s[0]];
        SpaceIs(s[0]);
      }
    }
  }

  lemma {:induction false} TextTaken(s: string) returns (q: Quoted)
    requires ParseString(s).ok
    ensures ReadText(q) && s == PrintText(q) + ParseString(s).rest && Chars(q) == ParseString(s).value
    decreases |s|
  {
    if s[0] == '\0' || s[0] == '\"' {
      q := Quoted([], s[0]);
    } else if s[0] != '\\' {
      var more := TextTaken(s[1..]);
      q := PieceTaken(Piece(s[0], false), more, s);
    } else {
      var more := TextTaken(s[2..]);
      q := PieceTaken(Piece(s[1], true), more, s);
    }
  }

  lemma PieceTaken(p: Piece, more: Quoted, s: string) returns (q: Quoted)
    requires ReadPiece(p) && ReadText(more) && PrintPiece(p) <= s
    ensures ReadText(q) && Chars(q) == [Meaning(p)] + Chars(more)
    ensures forall rest :: s[|PrintPiece(p)|..] == PrintText(more) + rest ==> s == PrintText(q) + rest
  {
    hide Meaning, PrintPiece, ReadPiece;
    q := Quoted([p] + more.pieces, more.end);
    CharsFirst(q);
    assert q.pieces[1..] == more.pieces;
    forall rest | s[|PrintPiece(p)|..] == PrintText(more) + rest ensures s == PrintText(q) + rest {
      assert s == PrintPiece(p) + s[|PrintPiece(p)|..];
    }
  }

  // ----- values -----

  lemma {:induction false} ValueTaken(accepts: Element, before: seq<Event>, s: string, name: string) returns (j: Json)
    requires Value(accepts, before, s, name).ok
    ensures var out := Value(accepts, before, s, name);
      IsReading(j, s, name, out.rest, out.trace)
    decreases |s|, 3
  {
    hide Bare, PrintNode, WalkNode, ReadsNode, AllSpace;
    var text := SkipSpace(s);
    var bare := Bare(accepts, before, text, name);
    var space := SpaceTaken(s);
    var node := BareTaken(accepts, before, text, name);
    var after := SpaceTaken(bare.rest);
    j := Json(space, node, after);
  }

  lemma {:induction false} BareTaken(accepts: Element, before: seq<Event>, s: string, name: string) returns (n: Node)
    requires s != "" && Bare(accepts, before, s, name).ok && !AllSpace(s[..1])
    ensures var out := Bare(accepts, before, s, name);
      s == PrintNode(n) + out.rest && ReadsNode(n, out.rest) && out.trace == WalkNode(n, name)
    decreases |s|, 2
  {
    hide Object, Array, NumberLength, ParseString, PrintText, PrintMembers, PrintItems, WalkMembers, WalkItems,
      ReadsMembers, ReadsItems, ReadText, Chars, Longest, Follows, StartsNothing;
    assert s == [s[0]] + s[1..];
    match s[0]
    case '{' =>
      var m := ObjectTaken(accepts, before + [OnObject(name)], s[1..]);
      n := JObject(m);
    case '[' =>
      var i := ArrayTaken(accepts, before + [OnArray(name)], s[1..]);
      n := JArray(i);
    case '\"' =>
      var q := TextTaken(s[1..]);
      n := JString(q);
    case 't' => n := WordTaken(s, "rue", JTrue);
    case 'f' => n := WordTaken(s, "alse", JFalse);
    case 'n' => n := WordTaken(s, "ull", JNull);
    case c =>
      if IsDigit(c) || c == '-' {
        n := NumberTaken(s);
      } else {
        n := JSkipped(c);
        NothingStarts(s);
      }
  }

  /** A word with something behind it, or its first letter alone. */
  lemma WordTaken(s: string, word: string, literal: Node) returns (n: Node)
    requires s != "" && PrintNode(literal) == [s[0]] + word && !AllSpace(s[..1])
    requires (literal == JTrue && word == "rue") || (literal == JFalse && word == "alse")
      || (literal == JNull && word == "ull")
    ensures n == if Follows(s[1..], word) then literal else JSkipped(s[0])
    ensures Follows(s[1..], word) ==>
      s == PrintNode(literal) + s[1..][|word|..] && ReadsNode(literal, s[1..][|word|..])
    ensures !Follows(s[1..], word) ==> ReadsNode(JSkipped(s[0]), s[1..])
  {
    assert s == [s[0]] + s[1..];
    assert s[..1] == [s[0]];
    FollowsIs(s[1..], word);
    assert PrintNode(literal)[0] == s[0];
    n := if Follows(s[1..], word) then literal else JSkipped(s[0]);
  }

  lemma NumberTaken(s: string) returns (n: Node)
    requires s != "" && (IsDigit(s[0]) || s[0] == '-') && NumberLength(s) > 0
    ensures n == JNumber(s[..NumberLength(s)])
    ensures s == PrintNode(n) + s[NumberLength(s)..] && ReadsNode(n, s[NumberLength(s)..])
  {
    hide Longest, NumberLength;
    LongestIs(s);
    n := JNumber(s[..NumberLength(s)]);
    assert s == s[..NumberLength(s)] + s[NumberLength(s)..];
  }

  lemma NothingStarts(s: string)
    requires s != "" && !AllSpace(s[..1]) && !IsDigit(s[0])
    requires s[0] != '{' && s[0] != '[' && s[0] != '\"' && s[0] != '-' && s[0] != 't' && s[0] != 'f' && s[0] != 'n'
    ensures StartsNothing(s[0], s[1..])
  {
    assert s[..1] == [s[0]];
  }

  // ----- objects -----

  lemma {:induction false} ObjectTaken(accepts: Element, before: seq<Event>, s: string) returns (m: MemberList)
    requires Object(accepts, before, s).ok
    ensures var out := Object(accepts, before, s);
      s == PrintMembers(m) + out.rest && ReadsMembers(m, out.rest) && out.trace == WalkMembers(m)
    decreases |s|, 3
  {
    hide Members, ReadsPair, Walk, PrintPair, AllSpace;
    var text := SkipSpace(s);
    var space := SpaceTaken(s);
    if text != "" && text[0] == '}' {
      m := NoMembers(space);
      assert text == "}" + text[1..];
    } else {
      m := MembersTaken(accepts, before, space, text);
    }
  }

  /** The members with the white space before the first of them. */
  lemma {:induction false} MembersTaken(accepts: Element, before: seq<Event>, space: string, s: string)
    returns (m: MemberList)
    requires AllSpace(space) && Members(accepts, before, s).ok
    ensures var out := Members(accepts, before, s);
      !m.NoMembers? && space + s == PrintMembers(m) + out.rest && ReadsMembers(m, out.rest)
      && out.trace == WalkMembers(m)
    decreases |s|, 2
  {
    hide Member, Members, Walk, ReadsPair, PrintPair, AllSpace, SkipSpace;
    var first := Member(accepts, before, s);
    MembersIs(accepts, before, s);
    var p := PairTaken(accepts, before, space, s);
    var tail := first.rest[1..];
    if first.rest[0] == ',' {
      var between := SpaceTaken(tail);
      var more := MembersTaken(accepts, before + first.trace, between, SkipSpace(tail));
      m := MoreMembers(p, more);
      assert first.rest == "," + tail == "," + PrintMembers(more) + Members(accepts, before, s).rest;
    } else {
      m := OneMember(p);
      assert first.rest == "}" + tail;
    }
  }

  lemma {:induction false} PairTaken(accepts: Element, before: seq<Event>, space: string, s: string) returns (p: Pair)
    requires AllSpace(space) && Member(accepts, before, s).ok
    ensures var out := Member(accepts, before, s);
      space + s == PrintPair(p) + out.rest && ReadsPair(p, out.rest) && out.trace == Walk(p.value, Chars(p.name))
    decreases |s|, 1
  {
    hide Value, ParseString, PrintText, Print, Walk, Reads, ReadText, AllSpace, SkipSpace, Chars;
    var name := ParseString(s[1..]);
    var text := SkipSpace(name.rest);
    var q := TextTaken(s[1..]);
    var between := SpaceTaken(name.rest);
    var value := ValueTaken(accepts, before, text[1..], name.value);
    p := Pair(space, q, between, value);
    assert s == "\"" + s[1..];
    assert text == ":" + text[1..];
  }

  // ----- arrays -----

  lemma {:induction false} ArrayTaken(accepts: Element, before: seq<Event>, s: string) returns (i: ItemList)
    requires Array(accepts, before, s).ok
    ensures var out := Array(accepts, before, s);
      s == PrintItems(i) + out.rest && ReadsItems(i, out.rest) && out.trace == WalkItems(i)
    ensures !i.NoItems? ==> i.value.node != JSkipped(']')
    decreases |s|, 5
  {
    hide Items, Reads, Walk, Print, AllSpace, SkipSpace;
    var text := SkipSpace(s);
    var space := SpaceTaken(s);
    if text != "" && text[0] == ']' {
      i := NoItems(space);
      assert text == "]" + text[1..];
    } else {
      ItemsSkip(accepts, before, s);
      i := ItemsTaken(accepts, before, s);
      FirstItem(i, s, Items(accepts, before, s).rest);
    }
  }

  /** An array that starts with a bracket behind its white space is empty. */
  lemma FirstItem(i: ItemList, s: string, post: string)
    requires ReadsItems(i, post) && !i.NoItems? && s == PrintItems(i) + post
    requires SkipSpace(s) == "" || SkipSpace(s)[0] != ']'
    ensures i.value.node != JSkipped(']')
  {
    hide *;
    var more := if i.OneItem? then "]" + post else "," + (PrintItems(i.rest) + post);
    ItemsAre(i, post);
    ReadsIs(i.value, more);
    PrintIs(i.value, more);
    var text := PrintNode(i.value.node) + (i.value.after + more);
    SkipsSpace(i.value.before, text);
    NodeStarts(i.value.node, i.value.after + more);
    NoSpace(text);
    BracketIs(i.value.node);
  }

  lemma BracketIs(n: Node)
    ensures n == JSkipped(']') ==> PrintNode(n) == "]"
  {
  }

  lemma MoreItemsFit(j: Json, more: ItemList, s: string, tail: string, post: string)
    requires s == Print(j) + ("," + tail) && Reads(j, "," + tail)
    requires tail == PrintItems(more) + post && !more.NoItems? && ReadsItems(more, post)
    ensures s == PrintItems(MoreItems(j, more)) + post && ReadsItems(MoreItems(j, more), post)
    ensures WalkItems(MoreItems(j, more)) == Walk(j, "") + WalkItems(more)
  {
    hide Walk, Reads, Print;
    assert "," + tail == "," + PrintItems(more) + post;
  }

  lemma OneItemFits(j: Json, s: string, post: string)
    requires s == Print(j) + ("]" + post) && Reads(j, "]" + post)
    ensures s == PrintItems(OneItem(j)) + post && ReadsItems(OneItem(j), post)
    ensures WalkItems(OneItem(j)) == Walk(j, "") + [OnComplete(false)]
  {
    hide Walk, Reads, Print;
  }

  lemma {:induction false} ItemsTaken(accepts: Element, before: seq<Event>, s: string) returns (i: ItemList)
    requires Items(accepts, before, s).ok
    ensures var out := Items(accepts, before, s);
      !i.NoItems? && s == PrintItems(i) + out.rest && ReadsItems(i, out.rest) && out.trace == WalkItems(i)
    decreases |s|, 4
  {
    hide *;
    var first := Value(accepts, before, s, "");
    ItemsIs(accepts, before, s);
    var j := ValueTaken(accepts, before, s, "");
    ReadingIs(j, s, "", first.rest, first.trace);
    var tail := first.rest[1..];
    AfterTaken(first.trace, Items(accepts, before + first.trace, tail));
    AfterTaken(first.trace, Emit(accepts, before + first.trace, OnComplete(false), tail));
    if first.rest[0] == ',' {
      var more := ItemsTaken(accepts, before + first.trace, tail);
      i := MoreItems(j, more);
      assert first.rest == "," + tail;
      MoreItemsFit(j, more, s, tail, Items(accepts, before + first.trace, tail).rest);
    } else {
      i := OneItem(j);
      assert first.rest == "]" + tail;
      EmitIs(accepts, before + first.trace, OnComplete(false), tail);
      OneItemFits(j, s, tail);
    }
  }

  lemma EmitIs(accepts: Element, before: seq<Event>, event: Event, rest: string)
    ensures Emit(accepts, before, event, rest) == Out(accepts(before + [event]), rest, [event])
  {
  }

  // ----- exactly the readings -----

  /** The parser takes a text, up to the rest and with these callbacks, exactly if it has a reading that says so and the
      elements take the callbacks. */
  lemma AcceptedIff(accepts: Element, before: seq<Event>, s: string, name: string, rest: string, calls: seq<Event>)
    ensures Value(accepts, before, s, name) == Out(true, rest, calls)
      <==> Takes(accepts, before, calls) && exists j :: IsReading(j, s, name, rest, calls)
  {
    hide *;
    var out := Value(accepts, before, s, name);
    if out == Out(true, rest, calls) {
      ValueStops(accepts, before, s, name);
      StoppedParts(accepts, before, out);
      var j := ValueTaken(accepts, before, s, name);
    }
    if Takes(accepts, before, calls) && exists j :: IsReading(j, s, name, rest, calls) {
      var j :| IsReading(j, s, name, rest, calls);
      ReadingIs(j, s, name, rest, calls);
      ValueReads(accepts, before, j, name, rest);
    }
  }

  /** So no document has two readings with different callbacks, or of different length. */
  lemma ReadingsAgree(j: Json, k: Json, s: string, name: string, jRest: string, jCalls: seq<Event>, kRest: string,
      kCalls: seq<Event>)
    requires IsReading(j, s, name, jRest, jCalls) && IsReading(k, s, name, kRest, kCalls)
    ensures jRest == kRest && jCalls == kCalls
  {
    hide *;
    TakesAll(jCalls);
    TakesAll(kCalls);
    AcceptedIff(_ => true, [], s, name, jRest, jCalls);
    AcceptedIff(_ => true, [], s, name, kRest, kCalls);
  }

  lemma TakesAll(calls: seq<Event>)
    ensures Takes(_ => true, [], calls)
  {
  }
}
