/** The documents the JSON parser reads (RFC 8259, sections 2 to 7, and what the parser takes beyond it), as trees
    that keep every character. */
module JsonTrees {
  import opened JsonGrammar

  // ----- trees with their layout -----

  /** A character of a string as the document has it: raw, or behind a backslash. */
  datatype Piece = Piece(c: char, escaped: bool)

  /** The rest of a string after its opening quote, with the character that ends it. */
  datatype Quoted = Quoted(pieces: seq<Piece>, end: char)

  datatype Number = Number(minus: bool, whole: string, fraction: string, exponent: string, exponentMark: char,
      exponentSign: string)

  /** A value and the whitespace around it. */
  datatype Json = Json(before: string, node: Node, after: string)

  /** JSkipped is a character that starts no value; the parser reads it without a callback. */
  datatype Node =
    | JObject(members: MemberList)
    | JArray(items: ItemList)
    | JString(text: Quoted)
    | JNumber(lexeme: string)
    | JTrue
    | JFalse
    | JNull
    | JSkipped(c: char)

  datatype MemberList = NoMembers(space: string) | OneMember(member: Pair) | MoreMembers(member: Pair, rest: MemberList)

  /** Whitespace, a name, whitespace before the colon, and a value. */
  datatype Pair = Pair(before: string, name: Quoted, beforeColon: string, value: Json)

  datatype ItemList = NoItems(space: string) | OneItem(value: Json) | MoreItems(value: Json, rest: ItemList)

  // ----- the text of a tree -----

  function PrintPiece(p: Piece): string {
    if p.escaped then ['\\', p.c] else [p.c]
  }

  function PrintPieces(t: seq<Piece>): string {
    if t == [] then "" else PrintPiece(t[0]) + PrintPieces(t[1..])
  }

  /** A string without its opening quote. */
  function PrintText(q: Quoted): string {
    PrintPieces(q.pieces) + [q.end]
  }

  function PrintNumber(n: Number): string {
    (if n.minus then "-" else "") + n.whole
    + (if n.fraction == "" then "" else "." + n.fraction)
    + (if n.exponent == "" then "" else [n.exponentMark] + n.exponentSign + n.exponent)
  }

  function Print(j: Json): string {
    j.before + PrintNode(j.node) + j.after
  }

  function PrintNode(n: Node): string {
    match n
    case JObject(members) => "{" + PrintMembers(members)
    case JArray(items) => "[" + PrintItems(items)
    case JString(text) => "\"" + PrintText(text)
    case JNumber(lexeme) => lexeme
    case JTrue => "true"
    case JFalse => "false"
    case JNull => "null"
    case JSkipped(c) => [c]
  }

  function PrintPair(p: Pair): string {
    p.before + "\"" + PrintText(p.name) + p.beforeColon + ":" + Print(p.value)
  }

  /** The members with the closing brace. */
  function PrintMembers(m: MemberList): string {
    match m
    case NoMembers(space) => space + "}"
    case OneMember(member) => PrintPair(member) + "}"
    case MoreMembers(member, rest) => PrintPair(member) + "," + PrintMembers(rest)
  }

  /** The items with the closing bracket. */
  function PrintItems(i: ItemList): string {
    match i
    case NoItems(space) => space + "]"
    case OneItem(value) => Print(value) + "]"
    case MoreItems(value, rest) => Print(value) + "," + PrintItems(rest)
  }

  // ----- the callbacks of a tree, depth first -----

  function Meaning(p: Piece): char {
    if !p.escaped then p.c
    else if p.c == 'b' then '\U{8}'
    else if p.c == 'n' then '\n'
    else if p.c == 'f' then '\U{C}'
    else if p.c == 'r' then '\r'
    else if p.c == 't' then '\t'
    else p.c
  }

  function Chars(q: Quoted): string {
    seq(|q.pieces|, i requires 0 <= i < |q.pieces| => Meaning(q.pieces[i]))
  }

  function Walk(j: Json, name: string): seq<Event> {
    WalkNode(j.node, name)
  }

  function WalkNode(n: Node, name: string): seq<Event> {
    match n
    case JObject(members) => [OnObject(name)] + WalkMembers(members)
    case JArray(items) => [OnArray(name)] + WalkItems(items)
    case JString(text) => [OnString(name, Chars(text))]
    case JNumber(lexeme) => [OnNumber(name, lexeme)]
    case JTrue => [OnBool(name, true)]
    case JFalse => [OnBool(name, false)]
    case JNull => [OnNull(name)]
    case JSkipped(_) => []
  }

  function WalkMembers(m: MemberList): seq<Event> {
    match m
    case NoMembers(_) => [OnComplete(true)]
    case OneMember(member) => Walk(member.value, Chars(member.name)) + [OnComplete(false)]
    case MoreMembers(member, rest) => Walk(member.value, Chars(member.name)) + WalkMembers(rest)
  }

  function WalkItems(i: ItemList): seq<Event> {
    match i
    case NoItems(_) => [OnComplete(true)]
    case OneItem(value) => Walk(value, "") + [OnComplete(false)]
    case MoreItems(value, rest) => Walk(value, "") + WalkItems(rest)
  }

  // ----- which trees are legal JSON -----

  predicate AllSpace(s: string) {
    forall i :: 0 <= i < |s| ==> s[i] == ' ' || s[i] == '\t' || s[i] == '\n' || s[i] == '\r'
  }

  /** The two-character escapes. */
  predicate HasEscape(c: char) {
    c == '\"' || c == '\\' || c == '/' || c == 'b' || c == 'n' || c == 'f' || c == 'r' || c == 't'
  }

  predicate LegalPiece(p: Piece) {
    if p.escaped then HasEscape(p.c) else p.c != '\"' && p.c != '\\' && p.c != '\0'
  }

  predicate LegalText(q: Quoted) {
    q.end == '\"' && forall i :: 0 <= i < |q.pieces| ==> LegalPiece(q.pieces[i])
  }

  predicate LegalNumber(n: Number) {
    && n.whole != "" && AllDigits(n.whole) && AllDigits(n.fraction) && AllDigits(n.exponent)
    && (n.exponentMark == 'e' || n.exponentMark == 'E')
    && (n.exponentSign == "" || n.exponentSign == "+" || n.exponentSign == "-")
  }

  ghost predicate LegalLexeme(s: string) {
    exists n: Number :: LegalNumber(n) && s == PrintNumber(n)
  }

  ghost predicate Legal(j: Json) {
    AllSpace(j.before) && AllSpace(j.after) && LegalNode(j.node)
  }

  ghost predicate LegalNode(n: Node) {
    match n
    case JObject(members) => LegalMembers(members)
    case JArray(items) => LegalItems(items)
    case JString(text) => LegalText(text)
    case JNumber(lexeme) => LegalLexeme(lexeme)
    case JTrue => true
    case JFalse => true
    case JNull => true
    case JSkipped(_) => false
  }

  ghost predicate LegalPair(p: Pair) {
    AllSpace(p.before) && LegalText(p.name) && AllSpace(p.beforeColon) && Legal(p.value)
  }

  ghost predicate LegalMembers(m: MemberList) {
    match m
    case NoMembers(space) => AllSpace(space)
    case OneMember(member) => LegalPair(member)
    case MoreMembers(member, rest) => LegalPair(member) && !rest.NoMembers? && LegalMembers(rest)
  }

  ghost predicate LegalItems(i: ItemList) {
    match i
    case NoItems(space) => AllSpace(space)
    case OneItem(value) => Legal(value)
    case MoreItems(value, rest) => Legal(value) && !rest.NoItems? && LegalItems(rest)
  }

  // ----- which trees the parser reads, in front of a text -----

  /** A string also ends at a NUL, and every escape but that of a code point stands for something. */
  predicate ReadText(q: Quoted) {
    (q.end == '\"' || q.end == '\0') && forall i :: 0 <= i < |q.pieces| ==> ReadPiece(q.pieces[i])
  }

  predicate ReadPiece(p: Piece) {
    if p.escaped then p.c != 'u' else p.c != '\"' && p.c != '\\' && p.c != '\0'
  }

  /** No white space is left over: it all belongs to the value. */
  ghost predicate Reads(j: Json, post: string) {
    && AllSpace(j.before) && AllSpace(j.after) && ReadsNode(j.node, j.after + post)
    && (post != "" ==> !AllSpace(post[..1]))
  }

  /** A number reaches as far as it can, a literal needs a character after it, and a character is skipped
      where no value starts. */
  ghost predicate ReadsNode(n: Node, post: string) {
    match n
    case JObject(members) => ReadsMembers(members, post)
    case JArray(items) => ReadsItems(items, post) && !(!items.NoItems? && items.value.node == JSkipped(']'))
    case JString(text) => ReadText(text)
    case JNumber(lexeme) =>
      lexeme != "" && ('0' <= lexeme[0] <= '9' || lexeme[0] == '-') && Longest(lexeme + post, |lexeme|)
    case JTrue => post != ""
    case JFalse => post != ""
    case JNull => post != ""
    case JSkipped(c) => StartsNothing(c, post)
  }

  predicate StartsNothing(c: char, post: string) {
    && c != '{' && c != '[' && c != '\"' && c != '-' && !('0' <= c <= '9') && !AllSpace([c])
    && !(c == 't' && "rue" < post) && !(c == 'f' && "alse" < post) && !(c == 'n' && "ull" < post)
  }

  ghost predicate ReadsPair(p: Pair, post: string) {
    AllSpace(p.before) && ReadText(p.name) && AllSpace(p.beforeColon) && Reads(p.value, post)
  }

  ghost predicate ReadsMembers(m: MemberList, post: string) {
    match m
    case NoMembers(space) => AllSpace(space)
    case OneMember(member) => ReadsPair(member, "}" + post)
    case MoreMembers(member, rest) =>
      ReadsPair(member, "," + PrintMembers(rest) + post) && !rest.NoMembers? && ReadsMembers(rest, post)
  }

  ghost predicate ReadsItems(i: ItemList, post: string) {
    match i
    case NoItems(space) => AllSpace(space)
    case OneItem(value) => Reads(value, "]" + post)
    case MoreItems(value, rest) =>
      Reads(value, "," + PrintItems(rest) + post) && !rest.NoItems? && ReadsItems(rest, post)
  }

  // ----- tokens -----

  lemma SpaceIs(c: char)
    ensures AllSpace([c]) <==> IsSpace(c)
  {
    assert [c][0] == c;
  }

  lemma {:induction false} SkipsSpace(space: string, post: string)
    requires AllSpace(space)
    ensures SkipSpace(space + post) == SkipSpace(post)
  {
    if space != "" {
      assert (space + post)[1..] == space[1..] + post;
      SkipsSpace(space[1..], post);
    } else {
      assert space + post == post;
    }
  }

  lemma NoSpace(s: string)
    requires s == "" || !IsSpace(s[0])
    ensures SkipSpace(s) == s
  {
  }

  /** Nothing to skip in front of a text that no white space begins. */
  lemma NoSpaceAt(s: string)
    requires s != "" ==> !AllSpace(s[..1])
    ensures SkipSpace(s) == s
  {
    if s != "" {
      assert s[..1] == [s[0]];
      SpaceIs(s[0]);
    }
    NoSpace(s);
  }
}
