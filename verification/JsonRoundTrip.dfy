/** Printing a JSON tree (RFC 8259, sections 4, 5 and 7) and parsing it back. */
module JsonRoundTrip {
  import opened JsonGrammar
  import opened JsonTrees
  import opened JsonReading

  // ----- numbers -----

  lemma {:induction false} DigitsRead(d: string, post: string)
    requires AllDigits(d) && (post == "" || !IsDigit(post[0]))
    ensures Digits(d + post) == |d|
  {
    if d != "" {
      assert (d + post)[1..] == d[1..] + post;
      DigitsRead(d[1..], post);
    } else {
      assert d + post == post;
    }
  }

  /** What may come after a number. */
  predicate EndsNumber(post: string) {
    post == "" || (!('0' <= post[0] <= '9') && post[0] != '.' && post[0] != 'e' && post[0] != 'E')
  }

  function FractionText(n: Number): string { if n.fraction == "" then "" else "." + n.fraction }

  function ExponentText(n: Number): string { if n.exponent == "" then ""
      else [n.exponentMark] + n.exponentSign + n.exponent }

  lemma FirstDigit(d: string)
    requires AllDigits(d) && d != ""
    ensures IsDigit(d[0])
  {
  }

  lemma ExponentReads(n: Number, post: string)
    requires LegalNumber(n) && EndsNumber(post)
    ensures Exponent(ExponentText(n) + post) == |ExponentText(n)|
  {
    hide Digits, AllDigits;
    if n.exponent != "" {
      var s, signed := ExponentText(n) + post, 1 + |n.exponentSign|;
      assert s == [n.exponentMark] + n.exponentSign + n.exponent + post;
      assert s[signed..] == n.exponent + post;
      DigitsRead(n.exponent, post);
      FirstDigit(n.exponent);
      assert s[signed] == n.exponent[0];
      assert n.exponentSign != "" ==> s[1] == n.exponentSign[0];
    } else {
      assert ExponentText(n) + post == post;
    }
  }

  lemma FractionReads(n: Number, post: string)
    requires LegalNumber(n) && (post == "" || (!IsDigit(post[0]) && post[0] != '.'))
    ensures Fraction(FractionText(n) + post) == |FractionText(n)|
  {
    if n.fraction != "" {
      assert (FractionText(n) + post)[1..] == n.fraction + post;
      DigitsRead(n.fraction, post);
    } else {
      assert FractionText(n) + post == post;
    }
  }

  function Unsigned(n: Number): string {
    n.whole + FractionText(n) + ExponentText(n)
  }

  /** What comes after the digits and after the fraction is no digit and no dot. */
  lemma PartsEnd(n: Number, post: string)
    requires LegalNumber(n) && EndsNumber(post)
    ensures AllDigits(n.whole) && n.whole != ""
    ensures var rest := ExponentText(n) + post;
      rest == "" || (!IsDigit(rest[0]) && rest[0] != '.')
    ensures var rest := FractionText(n) + (ExponentText(n) + post);
      rest == "" || !IsDigit(rest[0])
  {
  }

  lemma UnsignedReads(n: Number, post: string)
    requires LegalNumber(n) && EndsNumber(post)
    ensures DecimalLength(Unsigned(n) + post) == |Unsigned(n)| > 0
    ensures IsDigit(Unsigned(n)[0])
  {
    hide Digits, Fraction, Exponent, AllDigits, LegalNumber, EndsNumber, FractionText, ExponentText;
    var rest2 := ExponentText(n) + post;
    var rest1 := FractionText(n) + rest2;
    var s := Unsigned(n) + post;
    PartsEnd(n, post);
    ExponentReads(n, post);
    FractionReads(n, rest2);
    DigitsRead(n.whole, rest1);
    FirstDigit(n.whole);
    assert s == n.whole + rest1;
    assert s[|n.whole|..] == rest1;
    assert s[|n.whole| + |FractionText(n)|..] == rest2;
  }

  lemma PrintNumberIs(n: Number)
    ensures PrintNumber(n) == (if n.minus then "-" else "") + Unsigned(n)
  {
  }

  /** A printed number is read whole. */
  lemma NumberReads(n: Number, post: string)
    requires LegalNumber(n) && EndsNumber(post)
    ensures NumberLength(PrintNumber(n) + post) == |PrintNumber(n)| > 0
    ensures IsDigit(PrintNumber(n)[0]) || PrintNumber(n)[0] == '-'
  {
    hide LegalNumber, EndsNumber, DecimalLength, WordLength, PrintNumber, Unsigned;
    UnsignedReads(n, post);
    PrintNumberIs(n);
    var s := PrintNumber(n) + post;
    assert s[if n.minus then 1 else 0..] == Unsigned(n) + post;
  }

  lemma LexemeReads(lexeme: string, post: string)
    requires LegalLexeme(lexeme) && EndsNumber(post)
    ensures ReadsNode(JNumber(lexeme), post)
  {
    hide NumberLength, EndsNumber, LegalNumber, PrintNumber, Longest;
    var n: Number :| LegalNumber(n) && lexeme == PrintNumber(n);
    NumberReads(n, post);
    LongestIs(lexeme + post);
  }

  // ----- trees -----

  predicate Closes(post: string) {
    post != "" && (post[0] == ',' || post[0] == '}' || post[0] == ']')
  }

  predicate IsLiteral(n: Node) {
    n.JTrue? || n.JFalse? || n.JNull?
  }

  lemma SpaceEndsNumber(space: string, post: string)
    requires AllSpace(space) && (post == "" || Closes(post))
    ensures EndsNumber(space + post)
  {
    if space != "" {
      assert IsSpace(space[0]) && (space + post)[0] == space[0];
    } else {
      assert space + post == post;
    }
  }

  lemma NoSpaceCloses(post: string)
    requires post == "" || Closes(post)
    ensures post != "" ==> !AllSpace(post[..1])
  {
    if post != "" {
      assert post[..1][0] == post[0];
    }
  }

  lemma LegalTextIsRead(q: Quoted)
    requires LegalText(q)
    ensures ReadText(q)
  {
  }

  /** A legal value is read, at the end of a document or before what may follow it in one. */
  lemma {:induction false} LegalIsRead(j: Json, post: string)
    requires Legal(j) && (post == "" || Closes(post)) && (IsLiteral(j.node) ==> j.after + post != "")
    ensures Reads(j, post)
    decreases j, 1
  {
    hide LegalNode, ReadsNode, AllSpace, EndsNumber, Closes;
    SpaceEndsNumber(j.after, post);
    NoSpaceCloses(post);
    NodeIsRead(j.node, j.after + post);
  }

  lemma {:induction false} NodeIsRead(n: Node, post: string)
    requires LegalNode(n) && EndsNumber(post) && (IsLiteral(n) ==> post != "")
    ensures ReadsNode(n, post)
    decreases n, 0
  {
    hide LegalText, LegalLexeme, ReadText, EndsNumber, Longest, LegalMembers, ReadsMembers;
    match n
    case JObject(members) => MembersAreRead(members, post);
    case JArray(items) => ItemsAreRead(items, post);
    case JString(text) => LegalTextIsRead(text);
    case JNumber(lexeme) => LexemeReads(lexeme, post);
    case JTrue =>
    case JFalse =>
    case JNull =>
  }

  lemma CloserIs(c: char, post: string)
    requires c == ',' || c == '}' || c == ']'
    ensures Closes([c] + post) && forall space: string :: space + ([c] + post) != ""
  {
  }

  lemma {:induction false} PairIsRead(p: Pair, post: string)
    requires LegalPair(p) && Closes(post)
    ensures ReadsPair(p, post)
    decreases p, 0
  {
    hide LegalText, ReadText, Legal, Reads, AllSpace;
    LegalTextIsRead(p.name);
    LegalIsRead(p.value, post);
  }

  lemma {:induction false} MembersAreRead(m: MemberList, post: string)
    requires LegalMembers(m)
    ensures ReadsMembers(m, post)
    decreases m, 1
  {
    hide LegalPair, ReadsPair, PrintMembers, AllSpace, Closes;
    match m
    case NoMembers(_) =>
    case OneMember(member) =>
      CloserIs('}', post);
      PairIsRead(member, "}" + post);
    case MoreMembers(member, rest) =>
      CloserIs(',', PrintMembers(rest) + post);
      assert "," + PrintMembers(rest) + post == "," + (PrintMembers(rest) + post);
      PairIsRead(member, "," + PrintMembers(rest) + post);
      MembersAreRead(rest, post);
  }

  lemma {:induction false} ItemsAreRead(i: ItemList, post: string)
    requires LegalItems(i)
    ensures ReadsItems(i, post) && (!i.NoItems? ==> i.value.node != JSkipped(']'))
    decreases i, 1
  {
    hide LegalNode, Reads, PrintItems, AllSpace, Closes;
    match i
    case NoItems(_) =>
    case OneItem(value) =>
      CloserIs(']', post);
      NoneSkipped(value.node);
      LegalIsRead(value, "]" + post);
    case MoreItems(value, rest) =>
      CloserIs(',', PrintItems(rest) + post);
      assert "," + PrintItems(rest) + post == "," + (PrintItems(rest) + post);
      NoneSkipped(value.node);
      LegalIsRead(value, "," + PrintItems(rest) + post);
      ItemsAreRead(rest, post);
  }

  lemma NoneSkipped(n: Node)
    requires LegalNode(n)
    ensures !n.JSkipped?
  {
  }

  // ----- whole documents -----

  /** Parsing a printed document replays the depth-first walk of its tree, for elements that take all of it. */
  lemma RoundTrip(accepts: Element, j: Json)
    requires Legal(j) && !(IsLiteral(j.node) && j.after == "") && Takes(accepts, [], Walk(j, ""))
    ensures Value(accepts, [], Print(j), "") == Out(true, "", Walk(j, ""))
  {
    hide *;
    assert Print(j) + "" == Print(j);
    assert j.after + "" == j.after;
    LegalIsRead(j, "");
    ValueReads(accepts, [], j, "", "");
  }

  /** A literal at the very end of the document is dropped without an error. */
  lemma LastLiteralIsLost(accepts: Element, j: Json)
    requires Legal(j) && IsLiteral(j.node) && j.after == ""
    ensures var r := Value(accepts, [], Print(j), "");
      r.ok && r.trace == [] && r.rest != ""
  {
    hide AllSpace, Value, SkipSpace;
    var text := PrintNode(j.node);
    assert Print(j) == j.before + text;
    SkipsSpace(j.before, text);
    NoSpace(text);
    ValueIs(accepts, [], Print(j), "");
    assert |text| > 1 && !IsSpace(text[1]);
    NoSpace(text[1..]);
  }

  /** So the round trip holds exactly when the document does not end with a literal and the
      elements take every callback. */
  lemma RoundTripIff(accepts: Element, j: Json)
    requires Legal(j)
    ensures Value(accepts, [], Print(j), "") == Out(true, "", Walk(j, ""))
      <==> !(IsLiteral(j.node) && j.after == "") && Takes(accepts, [], Walk(j, ""))
  {
    hide *;
    if IsLiteral(j.node) && j.after == "" {
      LastLiteralIsLost(accepts, j);
    } else if Takes(accepts, [], Walk(j, "")) {
      RoundTrip(accepts, j);
    } else {
      ValueStops(accepts, [], Print(j), "");
      StoppedParts(accepts, [], Value(accepts, [], Print(j), ""));
    }
  }
}
