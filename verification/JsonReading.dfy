/** Every tree in front of a text reads back as the walk of the tree. */
module JsonReading {
  import opened JsonGrammar
  import opened JsonTrees

  // ----- strings -----

  lemma CharsFirst(q: Quoted)
    requires q.pieces != []
    ensures Chars(q) == [Meaning(q.pieces[0])] + Chars(Quoted(q.pieces[1..], q.end))
  {
  }

  lemma PieceReads(p: Piece, post: string)
    requires ReadPiece(p)
    ensures ParseString(PrintPiece(p) + post) == Prepend(Meaning(p), ParseString(post))
  {
    if p.escaped {
      assert (PrintPiece(p) + post)[2..] == post;
    } else {
      assert (PrintPiece(p) + post)[1..] == post;
    }
  }

  lemma TextEnds(q: Quoted, post: string)
    requires ReadText(q) && q.pieces == []
    ensures ParseString(PrintText(q) + post) == JsonGrammar.Text(true, Chars(q), post)
  {
    var s := PrintText(q) + post;
    assert s[0] == q.end && s[1..] == post;
  }

  /** The first piece and the others. */
  lemma TextParts(q: Quoted, post: string)
    requires ReadText(q) && q.pieces != []
    ensures var more := Quoted(q.pieces[1..], q.end);
      ReadPiece(q.pieces[0]) && ReadText(more)
      && PrintText(q) + post == PrintPiece(q.pieces[0]) + (PrintText(more) + post)
  {
    hide PrintPiece, ReadPiece;
    assert ReadPiece(q.pieces[0]);
  }

  lemma PrependIs(c: char, value: string, rest: string)
    ensures Prepend(c, JsonGrammar.Text(true, value, rest)) == JsonGrammar.Text(true, [c] + value, rest)
  {
  }

  lemma {:induction false} TextReads(q: Quoted, post: string)
    requires ReadText(q)
    ensures ParseString(PrintText(q) + post) == JsonGrammar.Text(true, Chars(q), post)
    decreases |q.pieces|
  {
    hide *;
    if q.pieces == [] {
      TextEnds(q, post);
    } else {
      var more := Quoted(q.pieces[1..], q.end);
      TextParts(q, post);
      TextReads(more, post);
      PieceReads(q.pieces[0], PrintText(more) + post);
      PrependIs(Meaning(q.pieces[0]), Chars(more), post);
      CharsFirst(q);
    }
  }

  // ----- callbacks -----

  /** Taking one list of callbacks and then another. */
  lemma TakesSplit(accepts: Element, before: seq<Event>, a: seq<Event>, b: seq<Event>)
    requires Takes(accepts, before, a + b)
    ensures Takes(accepts, before, a) && Takes(accepts, before + a, b)
  {
    forall i | 0 < i <= |a| ensures accepts(before + a[..i]) {
      assert (a + b)[..i] == a[..i];
    }
    forall i | 0 < i <= |b| ensures accepts(before + a + b[..i]) {
      assert before + (a + b)[..|a| + i] == before + a + b[..i];
    }
  }

  lemma TakesLast(accepts: Element, before: seq<Event>, event: Event)
    requires Takes(accepts, before, [event])
    ensures accepts(before + [event])
  {
    assert [event][..1] == [event];
  }

  lemma EmitTaken(accepts: Element, before: seq<Event>, event: Event, rest: string)
    requires accepts(before + [event])
    ensures Emit(accepts, before, event, rest) == Out(true, rest, [event])
  {
  }

  lemma AfterTaken(calls: seq<Event>, out: Out)
    ensures After(calls, out) == Out(out.ok, out.rest, calls + out.trace)
  {
  }

  // ----- values -----

  lemma ValueIs(accepts: Element, before: seq<Event>, s: string, name: string)
    requires SkipSpace(s) != ""
    ensures Value(accepts, before, s, name) ==
      var bare := Bare(accepts, before, SkipSpace(s), name);
      if bare.ok then Out(true, SkipSpace(bare.rest), bare.trace) else bare
  {
  }

  lemma ReadsIs(j: Json, post: string)
    requires Reads(j, post)
    ensures AllSpace(j.before) && AllSpace(j.after) && ReadsNode(j.node, j.after + post)
    ensures SkipSpace(post) == post
    ensures forall name :: Walk(j, name) == WalkNode(j.node, name)
  {
    hide ReadsNode, WalkNode;
    NoSpaceAt(post);
  }

  lemma PrintIs(j: Json, post: string)
    ensures Print(j) + post == j.before + (PrintNode(j.node) + (j.after + post))
  {
  }

  /** What a value's own text starts with. */
  lemma NodeStarts(n: Node, post: string)
    requires ReadsNode(n, post)
    ensures PrintNode(n) != "" && (PrintNode(n) + post)[0] == PrintNode(n)[0] && !IsSpace(PrintNode(n)[0])
    ensures PrintNode(n)[0] == ']' ==> n == JSkipped(']')
  {
    hide PrintMembers, PrintItems, PrintText, ReadsMembers, ReadsItems, ReadText, Longest;
    match n
    case JObject(members) => assert PrintNode(n)[0] == '{';
    case JArray(items) => assert PrintNode(n)[0] == '[';
    case JString(text) => assert PrintNode(n)[0] == '\"';
    case JNumber(lexeme) => assert PrintNode(n)[0] == lexeme[0];
    case JTrue => assert PrintNode(n)[0] == 't';
    case JFalse => assert PrintNode(n)[0] == 'f';
    case JNull => assert PrintNode(n)[0] == 'n';
    case JSkipped(c) =>
      SpaceIs(c);
      assert PrintNode(n)[0] == c;
  }

  /** A value with its white space reads back as the walk of its tree. */
  lemma {:induction false} ValueReads(accepts: Element, before: seq<Event>, j: Json, name: string, post: string)
    requires Reads(j, post) && Takes(accepts, before, Walk(j, name))
    ensures Value(accepts, before, Print(j) + post, name) == Out(true, post, Walk(j, name))
    decreases j, 1
  {
    hide *;
    ReadsIs(j, post);
    var text := PrintNode(j.node) + (j.after + post);
    PrintIs(j, post);
    SkipsSpace(j.before, text);
    NodeStarts(j.node, j.after + post);
    NoSpace(text);
    BareReads(accepts, before, j.node, name, j.after + post);
    SkipsSpace(j.after, post);
    ValueIs(accepts, before, j.before + text, name);
  }

  lemma {:induction false} BareReads(accepts: Element, before: seq<Event>, n: Node, name: string, post: string)
    requires ReadsNode(n, post) && Takes(accepts, before, WalkNode(n, name))
    ensures PrintNode(n) != "" && Bare(accepts, before, PrintNode(n) + post, name) == Out(true, post, WalkNode(n, name))
    decreases n, 0
  {
    hide *;
    NodeParts(n, name, post);
    match n
    case JObject(members) =>
      TakesSplit(accepts, before, [OnObject(name)], WalkMembers(members));
      ObjectReads(accepts, before + [OnObject(name)], members, post);
      BareObject(accepts, before, members, name, post);
    case JArray(items) =>
      TakesSplit(accepts, before, [OnArray(name)], WalkItems(items));
      ArrayReads(accepts, before + [OnArray(name)], items, post);
      BareArray(accepts, before, items, name, post);
    case JString(text) => BareString(accepts, before, text, name, post);
    case JNumber(lexeme) => BareNumber(accepts, before, lexeme, name, post);
    case JTrue => BareTrue(accepts, before, name, post);
    case JFalse => BareFalse(accepts, before, name, post);
    case JNull => BareNull(accepts, before, name, post);
    case JSkipped(c) => BareSkipped(accepts, before, c, name, post);
  }

  lemma NodeParts(n: Node, name: string, post: string)
    requires ReadsNode(n, post)
    ensures n.JObject? ==>
      ReadsMembers(n.members, post) && WalkNode(n, name) == [OnObject(name)] + WalkMembers(n.members)
    ensures n.JArray? ==> ReadsItems(n.items, post) && WalkNode(n, name) == [OnArray(name)] + WalkItems(n.items)
    ensures n.JArray? && !n.items.NoItems? ==> n.items.value.node != JSkipped(']')
    ensures n.JString? ==> ReadText(n.text)
    ensures n.JTrue? || n.JFalse? || n.JNull? ==> post != ""
    ensures n.JSkipped? ==> StartsNothing(n.c, post)
  {
  }

  lemma BareObject(accepts: Element, before: seq<Event>, members: MemberList, name: string, post: string)
    requires Object(accepts, before + [OnObject(name)], PrintMembers(members) + post)
      == Out(true, post, WalkMembers(members))
    requires Takes(accepts, before, [OnObject(name)])
    ensures PrintNode(JObject(members)) != ""
    ensures Bare(accepts, before, PrintNode(JObject(members)) + post, name)
      == Out(true, post, WalkNode(JObject(members), name))
  {
    hide Object, Array, PrintMembers, WalkMembers, Takes;
    TakesLast(accepts, before, OnObject(name));
    assert (PrintNode(JObject(members)) + post)[1..] == PrintMembers(members) + post;
  }

  lemma BareArray(accepts: Element, before: seq<Event>, items: ItemList, name: string, post: string)
    requires Array(accepts, before + [OnArray(name)], PrintItems(items) + post) == Out(true, post, WalkItems(items))
    requires Takes(accepts, before, [OnArray(name)])
    ensures PrintNode(JArray(items)) != ""
    ensures Bare(accepts, before, PrintNode(JArray(items)) + post, name)
      == Out(true, post, WalkNode(JArray(items), name))
  {
    hide Object, Array, PrintItems, WalkItems, Takes;
    TakesLast(accepts, before, OnArray(name));
    assert (PrintNode(JArray(items)) + post)[1..] == PrintItems(items) + post;
  }

  lemma BareString(accepts: Element, before: seq<Event>, text: Quoted, name: string, post: string)
    requires ReadText(text) && Takes(accepts, before, WalkNode(JString(text), name))
    ensures PrintNode(JString(text)) != ""
    ensures Bare(accepts, before, PrintNode(JString(text)) + post, name)
      == Out(true, post, WalkNode(JString(text), name))
  {
    hide Object, Array, ParseString, PrintText, ReadText, Takes;
    TakesLast(accepts, before, OnString(name, Chars(text)));
    TextReads(text, post);
    assert (PrintNode(JString(text)) + post)[1..] == PrintText(text) + post;
  }

  lemma BareNumber(accepts: Element, before: seq<Event>, lexeme: string, name: string, post: string)
    requires ReadsNode(JNumber(lexeme), post) && Takes(accepts, before, WalkNode(JNumber(lexeme), name))
    ensures PrintNode(JNumber(lexeme)) != ""
    ensures Bare(accepts, before, PrintNode(JNumber(lexeme)) + post, name)
      == Out(true, post, WalkNode(JNumber(lexeme), name))
  {
    hide Object, Array, NumberLength, Longest, Takes;
    TakesLast(accepts, before, OnNumber(name, lexeme));
    LexemeIsScan(lexeme + post, lexeme);
    assert (lexeme + post)[0] == lexeme[0];
    assert (lexeme + post)[|lexeme|..] == post;
  }

  lemma BareTrue(accepts: Element, before: seq<Event>, name: string, post: string)
    requires post != "" && Takes(accepts, before, WalkNode(JTrue, name))
    ensures Bare(accepts, before, PrintNode(JTrue) + post, name) == Out(true, post, WalkNode(JTrue, name))
    ensures PrintNode(JTrue) != ""
  {
    hide Object, Array, Takes;
    TakesLast(accepts, before, OnBool(name, true));
    assert ("true" + post)[1..] == "rue" + post && ("rue" + post)[..3] == "rue" && ("rue" + post)[3..] == post;
  }

  lemma BareFalse(accepts: Element, before: seq<Event>, name: string, post: string)
    requires post != "" && Takes(accepts, before, WalkNode(JFalse, name))
    ensures Bare(accepts, before, PrintNode(JFalse) + post, name) == Out(true, post, WalkNode(JFalse, name))
    ensures PrintNode(JFalse) != ""
  {
    hide Object, Array, Takes;
    TakesLast(accepts, before, OnBool(name, false));
    assert ("false" + post)[1..] == "alse" + post && ("alse" + post)[..4] == "alse" && ("alse" + post)[4..] == post;
  }

  lemma BareNull(accepts: Element, before: seq<Event>, name: string, post: string)
    requires post != "" && Takes(accepts, before, WalkNode(JNull, name))
    ensures Bare(accepts, before, PrintNode(JNull) + post, name) == Out(true, post, WalkNode(JNull, name))
    ensures PrintNode(JNull) != ""
  {
    hide Object, Array, Takes;
    TakesLast(accepts, before, OnNull(name));
    assert ("null" + post)[1..] == "ull" + post && ("ull" + post)[..3] == "ull" && ("ull" + post)[3..] == post;
  }

  /** A word is skipped exactly where the text goes on with it and then with something more. */
  lemma FollowsIs(s: string, word: string)
    ensures Follows(s, word) <==> word < s
  {
  }

  lemma BareSkipped(accepts: Element, before: seq<Event>, c: char, name: string, post: string)
    requires StartsNothing(c, post)
    ensures Bare(accepts, before, PrintNode(JSkipped(c)) + post, name)
      == Out(true, post, WalkNode(JSkipped(c), name))
    ensures PrintNode(JSkipped(c)) != ""
  {
    hide Object, Array;
    FollowsIs(post, "rue");
    FollowsIs(post, "alse");
    FollowsIs(post, "ull");
    assert ([c] + post)[1..] == post;
  }

  // ----- objects -----

  lemma {:induction false} ObjectReads(accepts: Element, before: seq<Event>, m: MemberList, post: string)
    requires ReadsMembers(m, post) && Takes(accepts, before, WalkMembers(m))
    ensures Object(accepts, before, PrintMembers(m) + post) == Out(true, post, WalkMembers(m))
    decreases m, 2
  {
    hide Members, Print, Walk, ReadsPair, Takes;
    if m.NoMembers? {
      TakesLast(accepts, before, OnComplete(true));
      assert PrintMembers(m) + post == m.space + ("}" + post);
      SkipsSpace(m.space, "}" + post);
      NoSpace("}" + post);
      assert ("}" + post)[1..] == post;
    } else {
      MembersRead(accepts, before, m, post);
    }
  }

  /** After the white space in front of it, a list of members starts with a quote. */
  lemma {:induction false} MembersRead(accepts: Element, before: seq<Event>, m: MemberList, post: string)
    requires ReadsMembers(m, post) && !m.NoMembers? && Takes(accepts, before, WalkMembers(m))
    ensures SkipSpace(PrintMembers(m) + post) != "" && SkipSpace(PrintMembers(m) + post)[0] == '\"'
    ensures Members(accepts, before, SkipSpace(PrintMembers(m) + post)) == Out(true, post, WalkMembers(m))
    decreases m, 1
  {
    hide *;
    var s, first := SkipSpace(PrintMembers(m) + post), Walk(m.member.value, Chars(m.member.name));
    MemberListIs(m, post);
    MemberListText(m, post);
    if m.OneMember? {
      TakesSplit(accepts, before, first, [OnComplete(false)]);
      TakesLast(accepts, before + first, OnComplete(false));
      PairReads(accepts, before, m.member, "}" + post);
      LastMember(accepts, before, s, first, post);
    } else {
      var tail := PrintMembers(m.rest) + post;
      TakesSplit(accepts, before, first, WalkMembers(m.rest));
      PairReads(accepts, before, m.member, "," + tail);
      MembersRead(accepts, before + first, m.rest, post);
      NextMember(accepts, before, s, first, tail, WalkMembers(m.rest), post);
    }
  }

  lemma MemberListIs(m: MemberList, post: string)
    requires ReadsMembers(m, post) && !m.NoMembers?
    ensures m.OneMember? ==> ReadsPair(m.member, "}" + post)
    ensures m.MoreMembers? ==> !m.rest.NoMembers? && ReadsMembers(m.rest, post)
    ensures m.MoreMembers? ==> ReadsPair(m.member, "," + (PrintMembers(m.rest) + post))
    ensures WalkMembers(m) == Walk(m.member.value, Chars(m.member.name))
      + if m.OneMember? then [OnComplete(false)] else WalkMembers(m.rest)
  {
    hide Walk, ReadsPair, Chars, PrintPair;
    if m.MoreMembers? {
      assert "," + PrintMembers(m.rest) + post == "," + (PrintMembers(m.rest) + post);
    }
  }

  lemma MemberListText(m: MemberList, post: string)
    requires !m.NoMembers?
    ensures PrintMembers(m) + post == PrintPair(m.member)
      + if m.OneMember? then "}" + post else "," + (PrintMembers(m.rest) + post)
  {
    hide PrintPair;
  }

  lemma LastMember(accepts: Element, before: seq<Event>, s: string, first: seq<Event>, post: string)
    requires Member(accepts, before, s) == Out(true, "}" + post, first) && accepts(before + first + [OnComplete(false)])
    ensures Members(accepts, before, s) == Out(true, post, first + [OnComplete(false)])
  {
    hide Member, Members;
    assert ("}" + post)[1..] == post;
    MembersIs(accepts, before, s);
  }

  lemma NextMember(accepts: Element, before: seq<Event>, s: string, first: seq<Event>, tail: string, more: seq<Event>,
      post: string)
    requires Member(accepts, before, s) == Out(true, "," + tail, first)
    requires Members(accepts, before + first, SkipSpace(tail)) == Out(true, post, more)
    ensures Members(accepts, before, s) == Out(true, post, first + more)
  {
    hide Member, Members, SkipSpace;
    assert ("," + tail)[1..] == tail;
    MembersIs(accepts, before, s);
  }

  lemma {:induction false} PairReads(accepts: Element, before: seq<Event>, p: Pair, post: string)
    requires ReadsPair(p, post) && Takes(accepts, before, Walk(p.value, Chars(p.name)))
    ensures SkipSpace(PrintPair(p) + post) != "" && SkipSpace(PrintPair(p) + post)[0] == '\"'
    ensures Member(accepts, before, SkipSpace(PrintPair(p) + post)) == Out(true, post, Walk(p.value, Chars(p.name)))
    decreases p, 0
  {
    hide Value, Reads, ReadText, AllSpace, ParseString, Walk, Print, PrintText, Takes;
    var value := Print(p.value) + post;
    var colon := ":" + value;
    var afterName := p.beforeColon + colon;
    var text := "\"" + (PrintText(p.name) + afterName);
    assert PrintPair(p) + post == p.before + text;
    SkipsSpace(p.before, text);
    NoSpace(text);
    assert text[1..] == PrintText(p.name) + afterName;
    TextReads(p.name, afterName);
    SkipsSpace(p.beforeColon, colon);
    NoSpace(colon);
    assert colon[1..] == value;
    ValueReads(accepts, before, p.value, Chars(p.name), post);
  }

  // ----- arrays -----

  lemma {:induction false} ArrayReads(accepts: Element, before: seq<Event>, i: ItemList, post: string)
    requires ReadsItems(i, post) && (!i.NoItems? ==> i.value.node != JSkipped(']'))
      && Takes(accepts, before, WalkItems(i))
    ensures Array(accepts, before, PrintItems(i) + post) == Out(true, post, WalkItems(i))
    decreases i, 2
  {
    hide Items, Print, Walk, Reads, Takes;
    if i.NoItems? {
      TakesLast(accepts, before, OnComplete(true));
      assert PrintItems(i) + post == i.space + ("]" + post);
      SkipsSpace(i.space, "]" + post);
      NoSpace("]" + post);
      assert ("]" + post)[1..] == post;
    } else {
      ItemsStart(i, post);
      ItemsSkip(accepts, before, PrintItems(i) + post);
      ItemsRead(accepts, before, i, post);
    }
  }

  /** White space before the first item does not matter, and the item does not look like the closing bracket. */
  lemma ItemsSkip(accepts: Element, before: seq<Event>, s: string)
    ensures Items(accepts, before, SkipSpace(s)) == Items(accepts, before, s)
  {
    hide Bare;
    NoSpace(SkipSpace(s));
    assert Value(accepts, before, SkipSpace(s), "") == Value(accepts, before, s, "");
    ItemsIs(accepts, before, s);
    ItemsIs(accepts, before, SkipSpace(s));
  }

  lemma ItemsStart(i: ItemList, post: string)
    requires ReadsItems(i, post) && !i.NoItems? && i.value.node != JSkipped(']')
    ensures SkipSpace(PrintItems(i) + post) != "" && SkipSpace(PrintItems(i) + post)[0] != ']'
  {
    hide *;
    var more := if i.OneItem? then "]" + post else "," + (PrintItems(i.rest) + post);
    ItemsAre(i, post);
    ReadsIs(i.value, more);
    PrintIs(i.value, more);
    var text := PrintNode(i.value.node) + (i.value.after + more);
    SkipsSpace(i.value.before, text);
    NodeStarts(i.value.node, i.value.after + more);
    NoSpace(text);
  }

  lemma ItemsAre(i: ItemList, post: string)
    requires ReadsItems(i, post) && !i.NoItems?
    ensures i.OneItem? ==> Reads(i.value, "]" + post)
    ensures i.MoreItems? ==> !i.rest.NoItems? && ReadsItems(i.rest, post)
    ensures i.MoreItems? ==> Reads(i.value, "," + (PrintItems(i.rest) + post))
    ensures WalkItems(i) == Walk(i.value, "") + if i.OneItem? then [OnComplete(false)] else WalkItems(i.rest)
    ensures PrintItems(i) + post
      == Print(i.value) + if i.OneItem? then "]" + post else "," + (PrintItems(i.rest) + post)
  {
    hide Print, Walk, Reads;
    if i.MoreItems? {
      assert "," + PrintItems(i.rest) + post == "," + (PrintItems(i.rest) + post);
    }
  }

  lemma {:induction false} ItemsRead(accepts: Element, before: seq<Event>, i: ItemList, post: string)
    requires ReadsItems(i, post) && !i.NoItems? && Takes(accepts, before, WalkItems(i))
    ensures Items(accepts, before, PrintItems(i) + post) == Out(true, post, WalkItems(i))
    decreases i, 1
  {
    hide *;
    ItemsAre(i, post);
    var first := Walk(i.value, "");
    var more := if i.OneItem? then "]" + post else "," + (PrintItems(i.rest) + post);
    ItemsIs(accepts, before, PrintItems(i) + post);
    if i.OneItem? {
      TakesSplit(accepts, before, first, [OnComplete(false)]);
      TakesLast(accepts, before + first, OnComplete(false));
      EmitTaken(accepts, before + first, OnComplete(false), post);
      assert more[1..] == post;
    } else {
      TakesSplit(accepts, before, first, WalkItems(i.rest));
      ItemsRead(accepts, before + first, i.rest, post);
      assert more[1..] == PrintItems(i.rest) + post;
    }
    ValueReads(accepts, before, i.value, "", more);
    AfterTaken(first, Items(accepts, before + first, more[1..]));
    AfterTaken(first, Emit(accepts, before + first, OnComplete(false), more[1..]));
  }
}
