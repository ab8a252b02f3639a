/** The JSON parser's grammar as functions on the text that is left. */
module JsonGrammar {
  datatype Event =
    | OnObject(name: string)
    | OnArray(name: string)
    | OnComplete(empty: bool)
    | OnString(name: string, value: string)
    | OnNumber(name: string, lexeme: string)
    | OnBool(name: string, flag: bool)
    | OnNull(name: string)

  /** What a parsing step leaves behind: success or an exception, the text not yet read, and the callbacks made. */
  datatype Out = Out(ok: bool, rest: string, trace: seq<Event>)

  datatype Text = Text(ok: bool, value: string, rest: string)

  predicate IsSpace(c: char) {
    c == ' ' || c == '\t' || c == '\r' || c == '\n'
  }

  predicate IsDigit(c: char) {
    '0' <= c <= '9'
  }

  predicate IsHex(c: char) {
    IsDigit(c) || 'a' <= c <= 'f' || 'A' <= c <= 'F'
  }

  /** Parse_Whitespace. */
  function SkipSpace(s: string): (r: string)
    ensures |r| <= |s| && (r == "" || !IsSpace(r[0]))
  {
    if s != "" && IsSpace(s[0]) then SkipSpace(s[1..]) else s
  }

  /** The character a backslash and c stand for. */
  function Unescape(c: char): char {
    match c
    case 'b' => '\U{8}'
    case 'n' => '\n'
    case 'f' => '\U{C}'
    case 'r' => '\r'
    case 't' => '\t'
    case _ => c
  }

  function Prepend(c: char, t: Text): Text {
    Text(t.ok, [c] + t.value, t.rest)
  }

  /** Parse_String, after the opening quote. A NUL ends the string like a quote; \u is always an error. */
  function ParseString(s: string): (r: Text)
    ensures |r.rest| <= |s| && (r.ok ==> |r.rest| < |s|)
  {
    if s == "" then Text(false, "", "")
    else if s[0] == '\0' || s[0] == '\"' then Text(true, "", s[1..])
    else if s[0] != '\\' then Prepend(s[0], ParseString(s[1..]))
    else if |s| == 1 then Text(false, "", "")
    else if s[1] == 'u' then Text(false, "", if |s| >= 6 && forall i :: 2 <= i < 6 ==>
      IsHex(s[i]) then s[6..] else s[2..])
    else Prepend(Unescape(s[1]), ParseString(s[2..]))
  }

  /** The number of leading digits. */
  function Digits(s: string): (n: nat)
    ensures n <= |s|
  {
    if s != "" && IsDigit(s[0]) then 1 + Digits(s[1..]) else 0
  }

  function Fraction(s: string): (n: nat)
    ensures n <= |s|
  {
    if s != "" && s[0] == '.' then 1 + Digits(s[1..]) else 0
  }

  function Exponent(s: string): (n: nat)
    ensures n <= |s|
  {
    if s == "" || (s[0] != 'e' && s[0] != 'E') then 0
    else
      var signed := if |s| > 1 && (s[1] == '+' || s[1] == '-') then 2 else 1;
      var digits := Digits(s[signed..]);
      if digits == 0 then 0 else signed + digits
  }

  function Lower(c: char): char {
    if 'A' <= c <= 'Z' then c - 'A' + 'a' else c
  }

  /** The word is at the front, in any mix of cases. */
  predicate Begins(s: string, word: string) {
    |s| >= |word| && forall i :: 0 <= i < |word| ==> Lower(s[i]) == word[i]
  }

  predicate IsNameChar(c: char) {
    IsDigit(c) || 'a' <= Lower(c) <= 'z' || c == '_'
  }

  /** The number of leading letters, digits and underscores. */
  function NameChars(s: string): (n: nat)
    ensures n <= |s| && (n < |s| ==> !IsNameChar(s[n])) && forall i :: 0 <= i < n ==> IsNameChar(s[i])
  {
    if s != "" && IsNameChar(s[0]) then 1 + NameChars(s[1..]) else 0
  }

  /** The words for infinity and not-a-number, the latter with or without a name in parentheses. */
  function WordLength(s: string): (n: nat)
    ensures n <= |s|
  {
    if Begins(s, "infinity") then 8
    else if Begins(s, "inf") then 3
    else if Begins(s, "nan(") && 4 + NameChars(s[4..]) < |s| && s[4 + NameChars(s[4..])] == ')'
      then 5 + NameChars(s[4..])
    else if Begins(s, "nan") then 3
    else 0
  }

  function SignLength(s: string): (n: nat)
    ensures n <= |s|
  {
    if s != "" && s[0] == '-' then 1 else 0
  }

  function DecimalLength(s: string): (n: nat)
    ensures n <= |s|
  {
    var whole := Digits(s);
    var fraction := Fraction(s[whole..]);
    if whole != 0 || fraction > 1 then whole + fraction + Exponent(s[whole + fraction..]) else 0
  }

  /** std::from_chars for a double, scanning once from the left: how many characters it takes, 0 when
      there is no number. */
  function NumberLength(s: string): (n: nat)
    ensures n <= |s|
  {
    var rest := s[SignLength(s)..];
    var n := if DecimalLength(rest) > 0 then DecimalLength(rest) else WordLength(rest);
    if n == 0 then 0 else SignLength(s) + n
  }

  // ----- what a number is, without any scan -----

  predicate AllDigits(s: string) {
    forall i :: 0 <= i < |s| ==> '0' <= s[i] <= '9'
  }

  /** The word, each letter in either case. */
  predicate Spells(s: string, word: string) {
    |s| == |word| && forall i :: 0 <= i < |word| ==>
      s[i] == word[i] || ('A' <= s[i] <= 'Z' && s[i] - 'A' + 'a' == word[i])
  }

  /** A letter, a digit or an underscore. */
  predicate InName(c: char) {
    '0' <= c <= '9' || 'a' <= c <= 'z' || 'A' <= c <= 'Z' || c == '_'
  }

  predicate IsFraction(s: string) {
    s == "" || (s[0] == '.' && AllDigits(s[1..]))
  }

  predicate IsExponent(s: string) {
    s == "" || ((s[0] == 'e' || s[0] == 'E')
                && ((|s| > 1 && AllDigits(s[1..])) || (|s| > 2 && (s[1] == '+' || s[1] == '-') && AllDigits(s[2..]))))
  }

  predicate IsWord(s: string) {
    || Spells(s, "inf") || Spells(s, "infinity") || Spells(s, "nan")
    || (|s| >= 5 && Spells(s[..4], "nan(") && s[|s| - 1] == ')' && forall i :: 4 <= i < |s| - 1 ==> InName(s[i]))
  }

  lemma SpellsIs(s: string, word: string)
    requires |word| <= |s| && forall i :: 0 <= i < |word| ==> !('A' <= word[i] <= 'Z')
    ensures Spells(s[..|word|], word) <==> Begins(s, word)
  {
    forall i | 0 <= i < |word| ensures Lower(s[i]) == word[i] <==>
      s[..|word|][i] == word[i] || ('A' <= s[..|word|][i] <= 'Z' && s[..|word|][i] - 'A' + 'a' == word[i])
    {
    }
    if Begins(s, word) {
      forall i | 0 <= i < |word|
        ensures s[..|word|][i] == word[i] || ('A' <= s[..|word|][i] <= 'Z' && s[..|word|][i] - 'A' + 'a' == word[i])
      {
        assert Lower(s[i]) == word[i];
      }
    }
  }

  lemma InNameIs(c: char)
    ensures InName(c) <==> IsNameChar(c)
  {
  }

  /** Digits with at most one dot among or around them, then perhaps an exponent with digits of its own. */
  predicate IsDecimal(s: string, whole: nat, fraction: nat) {
    && whole + fraction <= |s| && (whole > 0 || fraction > 1)
    && AllDigits(s[..whole]) && IsFraction(s[whole..whole + fraction]) && IsExponent(s[whole + fraction..])
  }

  ghost predicate IsUnsigned(s: string) {
    IsWord(s) || exists whole: nat, fraction: nat :: IsDecimal(s, whole, fraction)
  }

  /** The subject sequence of strtod in the C locale, with a minus sign or none. */
  ghost predicate IsNumber(s: string) {
    IsUnsigned(s[SignLength(s)..])
  }

  /** The first n characters are a number and no more of them are; with n == 0, there is no number at all. */
  ghost predicate Longest(s: string, n: nat) {
    && n <= |s| && (n > 0 ==> IsNumber(s[..n]))
    && forall m :: n < m <= |s| ==> !IsNumber(s[..m])
  }

  lemma LongestIsUnique(s: string, m: nat, n: nat)
    requires Longest(s, m) && Longest(s, n)
    ensures m == n
  {
    assert n > 0 ==> IsNumber(s[..n]);
    assert m > 0 ==> IsNumber(s[..m]);
  }

  lemma {:induction false} DigitsAre(s: string)
    ensures AllDigits(s[..Digits(s)]) && (Digits(s) < |s| ==> !IsDigit(s[Digits(s)]))
  {
    if s != "" && IsDigit(s[0]) {
      DigitsAre(s[1..]);
      assert s[..Digits(s)] == [s[0]] + s[1..][..Digits(s[1..])];
    }
  }

  /** A run of digits at the front is no longer than Digits. */
  lemma {:induction false} DigitsMost(s: string, n: nat)
    requires n <= |s| && AllDigits(s[..n])
    ensures n <= Digits(s)
  {
    if n > 0 {
      assert IsDigit(s[..n][0]);
      assert s[1..][..n - 1] == s[..n][1..];
      DigitsMost(s[1..], n - 1);
    }
  }

  lemma FractionIs(s: string)
    ensures IsFraction(s[..Fraction(s)])
  {
    if s != "" && s[0] == '.' {
      DigitsAre(s[1..]);
      assert s[..Fraction(s)][1..] == s[1..][..Digits(s[1..])];
    }
  }

  lemma FractionMost(s: string, n: nat)
    requires n <= |s| && IsFraction(s[..n])
    ensures n <= Fraction(s)
  {
    if n > 0 {
      Between(s, n, 1, n);
      DigitsMost(s[1..], n - 1);
    }
  }

  lemma ExponentIs(s: string)
    ensures IsExponent(s[..Exponent(s)])
  {
    var n := Exponent(s);
    if n > 0 {
      var signed := if |s| > 1 && (s[1] == '+' || s[1] == '-') then 2 else 1;
      DigitsAre(s[signed..]);
      Between(s, n, signed, n);
    }
  }

  lemma ExponentMost(s: string, n: nat)
    requires n <= |s| && IsExponent(s[..n])
    ensures n <= Exponent(s)
  {
    if n > 0 {
      var t := s[..n];
      if |t| > 1 && AllDigits(t[1..]) {
        assert IsDigit(t[1..][0]) && t[1..][0] == s[1];
        Between(s, n, 1, n);
        DigitsMost(s[1..], n - 1);
      } else {
        Between(s, n, 2, n);
        DigitsMost(s[2..], n - 2);
      }
    }
  }

  lemma NameCharsAre(s: string, n: nat)
    requires n < |s| && !IsNameChar(s[n]) && forall i :: 0 <= i < n ==> IsNameChar(s[i])
    ensures NameChars(s) == n
  {
  }

  lemma WordIs(s: string)
    ensures WordLength(s) > 0 ==> IsWord(s[..WordLength(s)])
  {
    hide Begins, Spells, NameChars, InName;
    AllSpelled(s);
    if Begins(s, "nan(") && 4 + NameChars(s[4..]) < |s| && s[4 + NameChars(s[4..])] == ')' {
      FirstLetter(s);
      var n := 5 + NameChars(s[4..]);
      Between(s, n, 0, 4);
      forall i | 4 <= i < n - 1 ensures InName(s[..n][i]) {
        InNameIs(s[i]);
        assert s[4..][i - 4] == s[i];
      }
    }
  }

  /** The words at the front, cut out. */
  lemma AllSpelled(s: string)
    ensures |s| >= 3 ==> (Spells(s[..3], "inf") <==> Begins(s, "inf")) && (Spells(s[..3], "nan") <==> Begins(s, "nan"))
    ensures |s| >= 8 ==> (Spells(s[..8], "infinity") <==> Begins(s, "infinity"))
    ensures |s| >= 4 ==> (Spells(s[..4], "nan(") <==> Begins(s, "nan("))
    ensures Begins(s, "inf") || Begins(s, "nan") ==> |s| >= 3
    ensures Begins(s, "nan(") ==> |s| >= 4
    ensures Begins(s, "infinity") ==> |s| >= 8
  {
    if |s| >= 3 {
      SpellsIs(s, "inf");
      SpellsIs(s, "nan");
    }
    if |s| >= 8 {
      SpellsIs(s, "infinity");
    }
    if |s| >= 4 {
      SpellsIs(s, "nan(");
    }
  }

  lemma SpellsLength(s: string, word: string)
    requires Spells(s, word)
    ensures |s| == |word|
  {
  }

  lemma WordMost(s: string, n: nat)
    requires n <= |s| && IsWord(s[..n])
    ensures 0 < n <= WordLength(s)
  {
    hide Begins, Spells, NameChars, InName;
    AllSpelled(s);
    FirstLetter(s);
    if Spells(s[..n], "inf") {
      SpellsLength(s[..n], "inf");
    } else if Spells(s[..n], "infinity") {
      SpellsLength(s[..n], "infinity");
    } else if Spells(s[..n], "nan") {
      SpellsLength(s[..n], "nan");
    } else {
      Between(s, n, 0, 4);
      NamedWord(s, n);
    }
  }

  lemma FirstLetter(s: string)
    ensures Begins(s, "nan") || Begins(s, "nan(") ==> !Begins(s, "inf") && !Begins(s, "infinity")
  {
    assert "nan("[0] == "nan"[0] == 'n' && "infinity"[0] == "inf"[0] == 'i';
  }

  lemma NamedWord(s: string, n: nat)
    requires 5 <= n <= |s| && s[..n][n - 1] == ')' && forall i :: 4 <= i < n - 1 ==> InName(s[..n][i])
    ensures NameChars(s[4..]) == n - 5 && s[n - 1] == ')'
  {
    hide NameChars;
    forall i | 0 <= i < n - 5 ensures IsNameChar(s[4..][i]) {
      assert s[4..][i] == s[..n][i + 4];
      InNameIs(s[4..][i]);
    }
    assert s[4..][n - 5] == s[..n][n - 1];
    NameCharsAre(s[4..], n - 5);
  }

  lemma ExponentStarts(t: string, k: nat)
    requires k <= |t| && IsExponent(t[k..])
    ensures k < |t| ==> t[k] == 'e' || t[k] == 'E'
  {
  }

  lemma FractionStarts(t: string, k: nat, fraction: nat)
    requires k + fraction <= |t| && IsFraction(t[k..k + fraction])
    ensures fraction > 0 ==> t[k] == '.'
  {
  }

  lemma DigitAt(s: string, k: nat)
    requires AllDigits(s) && k < |s|
    ensures IsDigit(s[k])
  {
  }

  /** Behind a shorter run of digits than the longest one there is another digit, so the number ends there. */
  lemma WholeShort(s: string, n: nat, whole: nat, fraction: nat)
    requires n <= |s| && IsDecimal(s[..n], whole, fraction) && whole < Digits(s)
    ensures n == whole
  {
    hide IsFraction, IsExponent, Digits, IsWord, AllDigits;
    DigitsAre(s);
    DigitAt(s[..Digits(s)], whole);
    ExponentStarts(s[..n], whole + fraction);
    FractionStarts(s[..n], whole, fraction);
  }

  /** The same for the fraction. */
  lemma FractionShort(s: string, n: nat, fraction: nat)
    requires fraction <= n <= |s| && IsFraction(s[..n][..fraction]) && IsExponent(s[..n][fraction..])
      && fraction < Fraction(s)
    ensures n == fraction
  {
    DigitsAre(s[1..]);
    if fraction > 0 {
      assert IsDigit(s[1..][..Digits(s[1..])][fraction - 1]);
    }
    ExponentStarts(s[..n], fraction);
  }

  /** No decimal at the front is longer than the scan says. */
  lemma DecimalMost(s: string, n: nat, whole: nat, fraction: nat)
    requires n <= |s| && IsDecimal(s[..n], whole, fraction)
    ensures 0 < n <= DecimalLength(s)
  {
    hide Digits, Fraction, Exponent, AllDigits, IsFraction, IsExponent;
    var t, end := s[..n], whole + fraction;
    Between(s, n, 0, whole);
    DigitsMost(s, whole);
    if whole < Digits(s) {
      WholeShort(s, n, whole, fraction);
    } else {
      var rest, m := s[whole..], n - whole;
      Between(s, n, whole, end);
      Between(s, n, whole, n);
      Between(rest, m, 0, fraction);
      Between(s, n, end, n);
      Between(rest, m, fraction, m);
      FractionMost(rest, fraction);
      if fraction < Fraction(rest) {
        FractionShort(rest, m, fraction);
      } else {
        ExponentMost(s[end..], m - fraction);
      }
    }
  }

  /** The characters from a to b, however they are cut out. */
  lemma Between(s: string, n: nat, a: nat, b: nat)
    requires a <= b <= n <= |s|
    ensures s[..n][a..b] == s[a..b] == s[a..][..b - a]
    ensures a == 0 ==> s[..n][..b] == s[..b]
    ensures b == n ==> s[..n][a..] == s[a..b]
  {
  }

  /** What the scan takes as a decimal is one. */
  lemma DecimalIs(s: string)
    ensures DecimalLength(s) > 0 ==> IsUnsigned(s[..DecimalLength(s)])
  {
    hide Digits, Fraction, Exponent, AllDigits, IsFraction, IsExponent, IsWord;
    var whole, n := Digits(s), DecimalLength(s);
    var rest := s[whole..];
    var fraction := Fraction(rest);
    if n > 0 {
      var last := s[whole + fraction..];
      DigitsAre(s);
      FractionIs(rest);
      ExponentIs(last);
      assert s[..n][..whole] == s[..whole];
      assert s[..n][whole..whole + fraction] == rest[..fraction];
      assert s[..n][whole + fraction..] == last[..Exponent(last)];
      assert IsDecimal(s[..n], whole, fraction);
    }
  }

  /** No word starts like a decimal. */
  lemma WordOrDecimal(s: string)
    ensures WordLength(s) == 0 || DecimalLength(s) == 0
  {
  }

  lemma UnsignedMost(s: string, n: nat)
    requires n <= |s| && IsUnsigned(s[..n])
    ensures 0 < n <= if DecimalLength(s) > 0 then DecimalLength(s) else WordLength(s)
  {
    hide IsDecimal, IsWord, WordLength, DecimalLength;
    WordOrDecimal(s);
    if IsWord(s[..n]) {
      WordMost(s, n);
    } else {
      var whole: nat, fraction: nat :| IsDecimal(s[..n], whole, fraction);
      DecimalMost(s, n, whole, fraction);
    }
  }

  /** The scan takes the longest number there is at the front. */
  lemma LongestIs(s: string)
    ensures Longest(s, NumberLength(s))
  {
    hide IsWord, WordLength, DecimalLength;
    var sign, n := SignLength(s), NumberLength(s);
    var rest := s[sign..];
    if n > 0 {
      assert s[..n][sign..] == rest[..n - sign];
      DecimalIs(rest);
      WordIs(rest);
    }
    forall m | n < m <= |s|
      ensures !IsNumber(s[..m])
    {
      if IsNumber(s[..m]) {
        assert s[..m][sign..] == rest[..m - sign];
        UnsignedMost(rest, m - sign);
      }
    }
  }

  lemma LexemeIs(s: string, n: nat)
    requires Longest(s, n)
    ensures n <= |s| && IsNumber(s[..n]) == (n > 0)
  {
    hide IsDecimal, IsWord;
    if IsNumber(s[..0]) {
      UnsignedMost("", 0);
    }
  }

  /** Any way of finding the longest number finds what the scan does. */
  lemma LexemeIsScan(s: string, lexeme: string)
    requires lexeme <= s && Longest(s, |lexeme|)
    ensures |lexeme| == NumberLength(s) && lexeme == s[..|lexeme|]
  {
    hide Longest, NumberLength;
    LongestIs(s);
    LongestIsUnique(s, |lexeme|, NumberLength(s));
    LexemeIs(s, |lexeme|);
  }

  /** Skip(word): it also needs a character after the word. */
  predicate Follows(s: string, word: string) {
    |s| > |word| && s[..|word|] == word
  }

  /** Whether the elements take the last of the callbacks made so far; one that does not stops the
      parser with an error. */
  type Element = seq<Event> -> bool

  function Emit(accepts: Element, before: seq<Event>, event: Event, rest: string): Out {
    Out(accepts(before + [event]), rest, [event])
  }

  function Literal(accepts: Element, before: seq<Event>, s: string, word: string, event: Event): Out {
    if Follows(s, word) then Emit(accepts, before, event, s[|word|..]) else Out(true, s, [])
  }

  /** Callbacks made before the rest. */
  function After(calls: seq<Event>, out: Out): Out {
    Out(out.ok, out.rest, calls + out.trace)
  }

  /** Parse_Value without the whitespace around it; the text is not empty. */
  function Bare(accepts: Element, before: seq<Event>, s: string, name: string): (r: Out)
    requires s != ""
    ensures |r.rest| <= |s| && (r.ok ==> |r.rest| < |s|)
    decreases |s|, 1
  {
    match s[0]
    case '{' =>
      if accepts(before + [OnObject(name)])
        then After([OnObject(name)], Object(accepts, before + [OnObject(name)], s[1..]))
      else Out(false, s[1..], [OnObject(name)])
    case '[' =>
      if accepts(before + [OnArray(name)]) then After([OnArray(name)], Array(accepts, before + [OnArray(name)], s[1..]))
      else Out(false, s[1..], [OnArray(name)])
    case '\"' =>
      var t := ParseString(s[1..]);
      if t.ok then Emit(accepts, before, OnString(name, t.value), t.rest) else Out(false, t.rest, [])
    case 't' => Literal(accepts, before, s[1..], "rue", OnBool(name, true))
    case 'f' => Literal(accepts, before, s[1..], "alse", OnBool(name, false))
    case 'n' => Literal(accepts, before, s[1..], "ull", OnNull(name))
    case c =>
      if IsDigit(c) || c == '-' then
        var n := NumberLength(s);
        if n == 0 then Out(false, s, []) else Emit(accepts, before, OnNumber(name, s[..n]), s[n..])
      else Out(true, s[1..], [])
  }

  /** Parse_Value: every success reads at least one character. */
  function Value(accepts: Element, before: seq<Event>, s: string, name: string): (r: Out)
    ensures |r.rest| <= |s| && (r.ok ==> |r.rest| < |s|)
    decreases |s|, 2
  {
    var text := SkipSpace(s);
    if text == "" then Out(false, "", [])
    else
      var b := Bare(accepts, before, text, name);
      if b.ok then Out(true, SkipSpace(b.rest), b.trace) else b
  }

  /** Parse_Object, after the brace. */
  function Object(accepts: Element, before: seq<Event>, s: string): (r: Out)
    ensures |r.rest| <= |s| && (r.ok ==> |r.rest| < |s|)
    decreases |s|, 2
  {
    var text := SkipSpace(s);
    if text != "" && text[0] == '}' then Emit(accepts, before, OnComplete(true), text[1..])
    else Members(accepts, before, text)
  }

  /** One name and value. */
  function Member(accepts: Element, before: seq<Event>, s: string): (r: Out)
    ensures |r.rest| <= |s| && (r.ok ==> |r.rest| < |s|)
    decreases |s|, 0
  {
    if s == "" || s[0] != '\"' then Out(false, s, [])
    else
      var name := ParseString(s[1..]);
      if !name.ok then Out(false, name.rest, [])
      else
        var text := SkipSpace(name.rest);
        if text == "" then Out(false, "", [])
        else if text[0] != ':' then Out(false, text[1..], [])
        else Value(accepts, before, text[1..], name.value)
  }

  /** The loop of Parse_Object. */
  function Members(accepts: Element, before: seq<Event>, s: string): (r: Out)
    ensures |r.rest| <= |s| && (r.ok ==> |r.rest| < |s|)
    decreases |s|, 1
  {
    var m := Member(accepts, before, s);
    if !m.ok then m
    else if m.rest == "" then Out(false, "", m.trace)
    else if m.rest[0] == ',' then After(m.trace, Members(accepts, before + m.trace, SkipSpace(m.rest[1..])))
    else if m.rest[0] == '}' then After(m.trace, Emit(accepts, before + m.trace, OnComplete(false), m.rest[1..]))
    else Out(false, m.rest[1..], m.trace)
  }

  /** Parse_Array, after the bracket. */
  function Array(accepts: Element, before: seq<Event>, s: string): (r: Out)
    ensures |r.rest| <= |s| && (r.ok ==> |r.rest| < |s|)
    decreases |s|, 4
  {
    var text := SkipSpace(s);
    if text != "" && text[0] == ']' then Emit(accepts, before, OnComplete(true), text[1..])
    else Items(accepts, before, text)
  }

  /** The loop of Parse_Array. */
  function Items(accepts: Element, before: seq<Event>, s: string): (r: Out)
    ensures |r.rest| <= |s| && (r.ok ==> |r.rest| < |s|)
    decreases |s|, 3
  {
    var v := Value(accepts, before, s, "");
    if !v.ok then v
    else if v.rest == "" then Out(false, "", v.trace)
    else if v.rest[0] == ',' then After(v.trace, Items(accepts, before + v.trace, v.rest[1..]))
    else if v.rest[0] == ']' then After(v.trace, Emit(accepts, before + v.trace, OnComplete(false), v.rest[1..]))
    else Out(false, v.rest[1..], v.trace)
  }

  lemma MembersIs(accepts: Element, before: seq<Event>, s: string)
    ensures Members(accepts, before, s) ==
      var m := Member(accepts, before, s);
      if !m.ok then m
      else if m.rest == "" then Out(false, "", m.trace)
      else if m.rest[0] == ',' then After(m.trace, Members(accepts, before + m.trace, SkipSpace(m.rest[1..])))
      else if m.rest[0] == '}' then After(m.trace, Emit(accepts, before + m.trace, OnComplete(false), m.rest[1..]))
      else Out(false, m.rest[1..], m.trace)
  {
  }

  lemma ItemsIs(accepts: Element, before: seq<Event>, s: string)
    ensures Items(accepts, before, s) ==
      var v := Value(accepts, before, s, "");
      if !v.ok then v
      else if v.rest == "" then Out(false, "", v.trace)
      else if v.rest[0] == ',' then After(v.trace, Items(accepts, before + v.trace, v.rest[1..]))
      else if v.rest[0] == ']' then After(v.trace, Emit(accepts, before + v.trace, OnComplete(false), v.rest[1..]))
      else Out(false, v.rest[1..], v.trace)
  {
  }

  // ----- rejected callbacks -----

  /** The elements take all of these callbacks, one after the other. */
  ghost predicate Takes(accepts: Element, before: seq<Event>, calls: seq<Event>) {
    forall i :: 0 < i <= |calls| ==> accepts(before + calls[..i])
  }

  /** Only the last callback may have been rejected, and only with an error. */
  ghost predicate Stopped(accepts: Element, before: seq<Event>, out: Out) {
    (forall i :: 0 < i < |out.trace| ==> accepts(before + out.trace[..i]))
      && (out.ok ==> Takes(accepts, before, out.trace))
  }

  lemma StoppedLater(accepts: Element, before: seq<Event>, calls: seq<Event>, out: Out)
    requires Takes(accepts, before, calls) && Stopped(accepts, before + calls, out)
    ensures Stopped(accepts, before, After(calls, out))
  {
    var all := calls + out.trace;
    forall i | 0 < i <= |all| && (i < |all| || out.ok || out.trace == []) ensures accepts(before + all[..i]) {
      if i <= |calls| {
        assert all[..i] == calls[..i];
      } else {
        assert before + all[..i] == before + calls + out.trace[..i - |calls|];
      }
    }
  }

  lemma StoppedEmit(accepts: Element, before: seq<Event>, event: Event, rest: string)
    ensures Stopped(accepts, before, Emit(accepts, before, event, rest))
  {
    assert [event][..1] == [event];
  }

  lemma StoppedNone(accepts: Element, before: seq<Event>, out: Out)
    requires out.trace == []
    ensures Stopped(accepts, before, out)
  {
  }

  lemma TakesOne(accepts: Element, before: seq<Event>, event: Event)
    requires accepts(before + [event])
    ensures Takes(accepts, before, [event])
  {
    assert [event][..1] == [event];
  }

  /** A rejected callback is the last one, and the parse fails there. */
  lemma {:induction false} ValueStops(accepts: Element, before: seq<Event>, s: string, name: string)
    ensures Stopped(accepts, before, Value(accepts, before, s, name))
    decreases |s|, 3
  {
    hide Bare, Stopped, Takes;
    var text := SkipSpace(s);
    if text == "" {
      StoppedNone(accepts, before, Out(false, "", []));
    } else {
      BareStops(accepts, before, text, name);
      StoppedSame(accepts, before, Bare(accepts, before, text, name), Value(accepts, before, s, name));
    }
  }

  lemma StoppedSame(accepts: Element, before: seq<Event>, a: Out, b: Out)
    requires Stopped(accepts, before, a) && a.trace == b.trace && (b.ok ==> a.ok)
    ensures Stopped(accepts, before, b)
  {
  }

  lemma {:induction false} BareStops(accepts: Element, before: seq<Event>, s: string, name: string)
    requires s != ""
    ensures Stopped(accepts, before, Bare(accepts, before, s, name))
    decreases |s|, 2
  {
    hide Object, Array, Stopped, Takes, ParseString, NumberLength;
    var out := Bare(accepts, before, s, name);
    if out.trace == [] {
      StoppedNone(accepts, before, out);
    } else if s[0] == '{' && accepts(before + [OnObject(name)]) {
      TakesOne(accepts, before, OnObject(name));
      ObjectStops(accepts, before + [OnObject(name)], s[1..]);
      StoppedLater(accepts, before, [OnObject(name)], Object(accepts, before + [OnObject(name)], s[1..]));
    } else if s[0] == '[' && accepts(before + [OnArray(name)]) {
      TakesOne(accepts, before, OnArray(name));
      ArrayStops(accepts, before + [OnArray(name)], s[1..]);
      StoppedLater(accepts, before, [OnArray(name)], Array(accepts, before + [OnArray(name)], s[1..]));
    } else {
      var event := out.trace[0];
      assert out.trace == [event];
      StoppedEmit(accepts, before, event, out.rest);
      StoppedSame(accepts, before, Emit(accepts, before, event, out.rest), out);
    }
  }

  lemma {:induction false} ObjectStops(accepts: Element, before: seq<Event>, s: string)
    ensures Stopped(accepts, before, Object(accepts, before, s))
    decreases |s|, 3
  {
    hide Members, Stopped;
    var text := SkipSpace(s);
    if text != "" && text[0] == '}' {
      StoppedEmit(accepts, before, OnComplete(true), text[1..]);
    } else {
      MembersStop(accepts, before, text);
    }
  }

  lemma {:induction false} MembersStop(accepts: Element, before: seq<Event>, s: string)
    ensures Stopped(accepts, before, Members(accepts, before, s))
    decreases |s|, 2
  {
    hide *;
    var m := Member(accepts, before, s);
    MembersIs(accepts, before, s);
    MemberStops(accepts, before, s);
    StoppedParts(accepts, before, m);
    if m.ok && m.rest != "" && m.rest[0] == ',' {
      MembersStop(accepts, before + m.trace, SkipSpace(m.rest[1..]));
      StoppedLater(accepts, before, m.trace, Members(accepts, before + m.trace, SkipSpace(m.rest[1..])));
    } else if m.ok && m.rest != "" && m.rest[0] == '}' {
      StoppedEmit(accepts, before + m.trace, OnComplete(false), m.rest[1..]);
      StoppedLater(accepts, before, m.trace, Emit(accepts, before + m.trace, OnComplete(false), m.rest[1..]));
    } else {
      StoppedSame(accepts, before, m, Members(accepts, before, s));
    }
  }

  lemma StoppedParts(accepts: Element, before: seq<Event>, out: Out)
    requires Stopped(accepts, before, out)
    ensures out.ok ==> Takes(accepts, before, out.trace)
  {
  }

  lemma {:induction false} MemberStops(accepts: Element, before: seq<Event>, s: string)
    ensures Stopped(accepts, before, Member(accepts, before, s))
    decreases |s|, 1
  {
    hide Value, Stopped, ParseString;
    var out := Member(accepts, before, s);
    if out.trace == [] {
      StoppedNone(accepts, before, out);
    } else {
      var name := ParseString(s[1..]);
      ValueStops(accepts, before, SkipSpace(name.rest)[1..], name.value);
    }
  }

  lemma {:induction false} ArrayStops(accepts: Element, before: seq<Event>, s: string)
    ensures Stopped(accepts, before, Array(accepts, before, s))
    decreases |s|, 5
  {
    hide Items, Stopped;
    var text := SkipSpace(s);
    if text != "" && text[0] == ']' {
      StoppedEmit(accepts, before, OnComplete(true), text[1..]);
    } else {
      ItemsStop(accepts, before, text);
    }
  }

  lemma {:induction false} ItemsStop(accepts: Element, before: seq<Event>, s: string)
    ensures Stopped(accepts, before, Items(accepts, before, s))
    decreases |s|, 4
  {
    hide *;
    var v := Value(accepts, before, s, "");
    ItemsIs(accepts, before, s);
    ValueStops(accepts, before, s, "");
    StoppedParts(accepts, before, v);
    if v.ok && v.rest != "" && v.rest[0] == ',' {
      ItemsStop(accepts, before + v.trace, v.rest[1..]);
      StoppedLater(accepts, before, v.trace, Items(accepts, before + v.trace, v.rest[1..]));
    } else if v.ok && v.rest != "" && v.rest[0] == ']' {
      StoppedEmit(accepts, before + v.trace, OnComplete(false), v.rest[1..]);
      StoppedLater(accepts, before, v.trace, Emit(accepts, before + v.trace, OnComplete(false), v.rest[1..]));
    } else {
      StoppedSame(accepts, before, v, Items(accepts, before, s));
    }
  }
}

/** The cursor parser, method by method against the grammar. */
module JsonParser {
  import opened JsonGrammar

  datatype Character = Failed | Ended | Char(c: char)

  class Parser {
    const document: string
    const accepts: Element
    var current: nat
    var trace: seq<Event>  // the callbacks made so far

    ghost predicate Valid() reads this`current {
      current <= |document|
    }

    ghost function Rest(): string
      reads this`current
      requires Valid()
    {
      document[current..]
    }

    constructor (document: string, accepts: Element)
      ensures Valid() && this.document == document && this.accepts == accepts && current == 0 && trace == []
    {
      this.document, this.accepts, current, trace := document, accepts, 0, [];
    }

    method SkipChar(c: char) returns (skipped: bool)
      requires Valid()
      modifies this`current
      ensures Valid() && skipped == (old(Rest()) != "" && old(Rest())[0] == c)
      ensures Rest() == if skipped then old(Rest())[1..] else old(Rest())
    {
      if current == |document| || document[current] != c {
        return false;
      }
      current := current + 1;
      skipped := true;
    }

    method SkipWord(word: string) returns (skipped: bool)
      requires Valid()
      modifies this`current
      ensures Valid() && skipped == Follows(old(Rest()), word)
      ensures Rest() == if skipped then old(Rest())[|word|..] else old(Rest())
    {
      var count := |word|;
      if current + count >= |document| || document[current..current + count] != word {
        return false;
      }
      current := current + count;
      skipped := true;
    }

    /** Reading past the end is an error. */
    method GetChar() returns (ok: bool, c: char)
      requires Valid()
      modifies this`current
      ensures Valid() && ok == (old(Rest()) != "")
      ensures if ok then c == old(Rest())[0] && Rest() == old(Rest())[1..] else Rest() == old(Rest())
    {
      if current == |document| {
        return false, '\0';
      }
      c := document[current];
      current := current + 1;
      ok := true;
    }

    method ParseWhitespace()
      requires Valid()
      modifies this`current
      ensures Valid() && Rest() == SkipSpace(old(Rest())) && current >= old(current)
      ensures forall i :: old(current) <= i < current ==> document[i] in {' ', '\t', '\r', '\n'}
      ensures current < |document| ==> document[current] !in {' ', '\t', '\r', '\n'}
    {
      while current != |document|
        invariant Valid() && SkipSpace(Rest()) == SkipSpace(old(Rest())) && current >= old(current)
        invariant forall i :: old(current) <= i < current ==> document[i] in {' ', '\t', '\r', '\n'}
        decreases |document| - current
      {
        var c := document[current];
        if c != ' ' && c != '\t' && c != '\r' && c != '\n' {
          return;
        }
        current := current + 1;
      }
    }

    method ParseStringText() returns (ok: bool, text: string)
      requires Valid()
      modifies this`current
      ensures Valid() && Rest() == ParseString(old(Rest())).rest && ok == ParseString(old(Rest())).ok
      ensures ok ==> text == ParseString(old(Rest())).value
    {
      hide *;
      text := "";
      ghost var all := ParseString(Rest());
      while true
        invariant Valid() && all
          == Text(ParseString(Rest()).ok, text + ParseString(Rest()).value, ParseString(Rest()).rest)
        decreases |document| - current
      {
        var read := ParseCharacter();
        match read
        case Failed => return false, text;
        case Ended => return true, text;
        case Char(c) =>
          PrependIs(c, ParseString(Rest()));
          text := text + [c];
      }
    }

    static lemma PrependIs(c: char, t: Text)
      ensures Prepend(c, t) == Text(t.ok, [c] + t.value, t.rest)
    {
    }

    /** One turn of the string loop: a character, the end of the string, or an error. */
    method ParseCharacter() returns (read: Character)
      requires Valid()
      modifies this`current
      ensures Valid() && current >= old(current)
      ensures ParseString(old(Rest())) ==
        match read
        case Failed => Text(false, "", Rest())
        case Ended => Text(true, "", Rest())
        case Char(c) => Prepend(c, ParseString(Rest()))
      ensures read.Char? ==> current > old(current)
    {
      var got, c := GetChar();
      if !got {
        return Failed;
      }
      if c == '\0' || c == '\"' {
        return Ended;
      }
      if c == '\\' {
        got, c := GetChar();
        if !got {
          return Failed;
        }
        if c == 'u' {
          SkipHex();
          return Failed;
        }
        c := Unescape(c);
      }
      read := Char(c);
    }

    /** The four digits of a \u escape, if they are there. */
    method SkipHex()
      requires Valid()
      modifies this`current
      ensures Valid() && current >= old(current)
      ensures var s := old(Rest());
        Rest() == if |s| >= 4 && (forall i :: 0 <= i < 4 ==>
          '0' <= s[i] <= '9' || 'a' <= s[i] <= 'f' || 'A' <= s[i] <= 'F') then s[4..] else s
    {
      if current + 4 <= |document| && IsHex(document[current]) && IsHex(document[current + 1])
        && IsHex(document[current + 2]) && IsHex(document[current + 3]) {
        current := current + 4;
      }
    }

    /** The longest number in front of the cursor, an error when there is none. */
    method ParseNumber() returns (ok: bool, lexeme: string)
      requires Valid()
      modifies this`current
      ensures Valid() && lexeme <= old(Rest()) && Rest() == old(Rest())[|lexeme|..]
      ensures Longest(old(Rest()), |lexeme|) && (ok <==> IsNumber(lexeme)) && (ok <==> lexeme != "")
    {
      hide Longest, IsNumber, NumberLength;
      LongestIs(Rest());
      LexemeIs(Rest(), NumberLength(Rest()));
      var n := NumberLength(document[current..]);
      lexeme := document[current..current + n];
      current := current + n;
      assert lexeme == old(Rest())[..n];
      ok := n > 0;
    }

    /** The state after a step is what the grammar says. */
    ghost predicate Reached(out: Out, ok: bool, before: seq<Event>)
      reads this
      requires Valid()
    {
      ok == out.ok && Rest() == out.rest && trace == before + out.trace
    }

    lemma AfterNone(out: Out)
      ensures out == After([], out)
    {
    }

    lemma AfterIs(done: seq<Event>, out: Out)
      ensures After(done, out) == Out(out.ok, out.rest, done + out.trace)
    {
    }

    lemma AfterTwice(a: seq<Event>, b: seq<Event>, out: Out)
      ensures After(a, After(b, out)) == After(a + b, out)
    {
    }

    lemma Finish(out: Out, done: seq<Event>, ok: bool, before: seq<Event>, was: seq<Event>)
      requires Valid() && Reached(out, ok, before) && before == was + done
      ensures Reached(After(done, out), ok, was)
    {
    }

    lemma RestIs()
      requires Valid()
      ensures current <= |document| && Rest() == document[current..] && |Rest()| == |document| - current
    {
    }

    lemma ReachedIs(out: Out, ok: bool, before: seq<Event>)
      requires Valid()
      ensures Reached(out, ok, before) <==> ok == out.ok && Rest() == out.rest && trace == before + out.trace
    {
    }

    method ParseValue(name: string) returns (ok: bool)
      requires Valid()
      modifies this`current, this`trace
      ensures Valid() && Reached(Value(accepts, old(trace), old(Rest()), name), ok, old(trace))
      decreases |document| - current, 2
    {
      ghost var s, was := Rest(), trace;
      ParseWhitespace();
      if current == |document| {
        return false;
      }
      ok := ParseBare(name);
      if ok {
        ParseWhitespace();
      }
    }

    /** The switch of Parse_Value. */
    method ParseBare(name: string) returns (ok: bool)
      requires Valid() && Rest() != ""
      modifies this`current, this`trace
      ensures Valid() && Reached(Bare(accepts, old(trace), old(Rest()), name), ok, old(trace))
      decreases |document| - current, 1
    {
      hide Longest, IsNumber, NumberLength, ParseString, Object, Array;
      ghost var s := Rest();
      var got, c := GetChar();
      ok := true;
      match c
      case '{' =>
        ok := Call(OnObject(name));
        if ok {
          ok := ParseObject();
        }
      case '[' =>
        ok := Call(OnArray(name));
        if ok {
          ok := ParseArray();
        }
      case '\"' =>
        var text;
        ok, text := ParseStringText();
        if ok {
          ok := Call(OnString(name, text));
        }
      case 't' => ok := ParseLiteral("rue", OnBool(name, true));
      case 'f' => ok := ParseLiteral("alse", OnBool(name, false));
      case 'n' => ok := ParseLiteral("ull", OnNull(name));
      case _ =>
        if IsDigit(c) || c == '-' {
          current := current - 1;
          var lexeme;
          ok, lexeme := ParseNumber();
          LexemeIsScan(s, lexeme);
          if ok {
            ok := Call(OnNumber(name, lexeme));
          }
        }
    }

    /** A callback; an element that rejects it throws. */
    method Call(event: Event) returns (ok: bool)
      requires Valid()
      modifies this`trace
      ensures Valid() && Reached(Emit(accepts, old(trace), event, Rest()), ok, old(trace))
      ensures trace == old(trace) + [event] && ok == accepts(trace)
    {
      trace := trace + [event];
      ok := accepts(trace);
    }

    method ParseLiteral(word: string, event: Event) returns (ok: bool)
      requires Valid()
      modifies this`current, this`trace
      ensures Valid() && Reached(Literal(accepts, old(trace), old(Rest()), word, event), ok, old(trace))
    {
      var skipped := SkipWord(word);
      if !skipped {
        return true;
      }
      ok := Call(event);
    }

    method ParseObject() returns (ok: bool)
      requires Valid()
      modifies this`current, this`trace
      ensures Valid() && Reached(Object(accepts, old(trace), old(Rest())), ok, old(trace))
      decreases |document| - current, 3
    {
      ParseWhitespace();
      var empty := SkipChar('}');
      if empty {
        ok := Call(OnComplete(true));
        return;
      }
      ok := ParseMembers();
    }

    method ParseMembers() returns (ok: bool)
      requires Valid()
      modifies this`current, this`trace
      ensures Valid() && Reached(Members(accepts, old(trace), old(Rest())), ok, old(trace))
      decreases |document| - current, 2
    {
      hide *;
      RestIs();
      ghost var all, was, done: seq<Event> := Members(accepts, trace, Rest()), trace, [];
      AfterNone(all);
      ok := true;
      var more := true;
      while more
        invariant Valid() && old(current) <= current <= |document|
        invariant more ==> trace == was + done && all == After(done, Members(accepts, trace, Rest()))
        invariant !more ==> Reached(all, ok, was)
        decreases more, |document| - current
      {
        ghost var before, out := trace, Members(accepts, trace, Rest());
        more, ok := MemberTurn();
        ghost var events := if more then trace[|before|..] else out.trace;
        if more {
          AfterTwice(done, events, Members(accepts, trace, Rest()));
          done := done + events;
        } else {
          Finish(out, done, ok, before, was);
        }
      }
    }

    /** One turn of the loop: a name, a value and its separator. */
    method MemberTurn() returns (more: bool, ok: bool)
      requires Valid()
      modifies this`current, this`trace
      ensures Valid() && old(current) <= current <= |document|
      ensures !more ==> Reached(Members(accepts, old(trace), old(Rest())), ok, old(trace))
      ensures more ==> current > old(current) && old(trace) <= trace
      ensures more ==>
        Members(accepts, old(trace), old(Rest())) == After(trace[|old(trace)|..], Members(accepts, trace, Rest()))
      decreases |document| - current, 1
    {
      hide *;
      RestIs();
      ghost var s, was := Rest(), trace;
      ghost var out, first := Members(accepts, was, s), Member(accepts, was, s);
      MembersIs(accepts, was, s);
      ok := ParseMember();
      ReachedIs(first, ok, was);
      RestIs();
      if !ok {
        ReachedIs(out, false, was);
        return false, false;
      }
      var got, c := GetChar();
      RestIs();
      if !got {
        ReachedIs(out, false, was);
        return false, false;
      }
      if c == ',' {
        ParseWhitespace();
        RestIs();
        AfterIs(first.trace, Members(accepts, trace, Rest()));
        return true, true;
      }
      if c == '}' {
        ghost var before := trace;
        ok := Call(OnComplete(false));
        ReachedIs(Emit(accepts, before, OnComplete(false), Rest()), ok, before);
        AfterIs(first.trace, Emit(accepts, before, OnComplete(false), Rest()));
        ReachedIs(out, ok, was);
        return false, ok;
      }
      ReachedIs(out, false, was);
      return false, false;
    }

    /** The loop's body up to the separator. */
    method ParseMember() returns (ok: bool)
      requires Valid()
      modifies this`current, this`trace
      ensures Valid() && Reached(Member(accepts, old(trace), old(Rest())), ok, old(trace))
      decreases |document| - current, 0
    {
      var quote := SkipChar('\"');
      if !quote {
        return false;
      }
      var named, name := ParseStringText();
      if !named {
        return false;
      }
      ParseWhitespace();
      var got, c := GetChar();
      if !got || c != ':' {
        return false;
      }
      ok := ParseValue(name);
    }

    method ParseArray() returns (ok: bool)
      requires Valid()
      modifies this`current, this`trace
      ensures Valid() && Reached(Array(accepts, old(trace), old(Rest())), ok, old(trace))
      decreases |document| - current, 5
    {
      ParseWhitespace();
      var empty := SkipChar(']');
      if empty {
        ok := Call(OnComplete(true));
        return;
      }
      ok := ParseItems();
    }

    method ParseItems() returns (ok: bool)
      requires Valid()
      modifies this`current, this`trace
      ensures Valid() && Reached(Items(accepts, old(trace), old(Rest())), ok, old(trace))
      decreases |document| - current, 4
    {
      hide *;
      RestIs();
      ghost var all, was, done: seq<Event> := Items(accepts, trace, Rest()), trace, [];
      AfterNone(all);
      ok := true;
      var more := true;
      while more
        invariant Valid() && old(current) <= current <= |document|
        invariant more ==> trace == was + done && all == After(done, Items(accepts, trace, Rest()))
        invariant !more ==> Reached(all, ok, was)
        decreases more, |document| - current
      {
        ghost var before, out := trace, Items(accepts, trace, Rest());
        more, ok := ItemTurn();
        ghost var events := if more then trace[|before|..] else out.trace;
        if more {
          AfterTwice(done, events, Items(accepts, trace, Rest()));
          done := done + events;
        } else {
          Finish(out, done, ok, before, was);
        }
      }
    }

    /** One turn of the loop: a value and its separator. */
    method ItemTurn() returns (more: bool, ok: bool)
      requires Valid()
      modifies this`current, this`trace
      ensures Valid() && old(current) <= current <= |document|
      ensures !more ==> Reached(Items(accepts, old(trace), old(Rest())), ok, old(trace))
      ensures more ==> current > old(current) && old(trace) <= trace
      ensures more ==>
        Items(accepts, old(trace), old(Rest())) == After(trace[|old(trace)|..], Items(accepts, trace, Rest()))
      decreases |document| - current, 3
    {
      hide *;
      RestIs();
      ghost var s, was := Rest(), trace;
      ghost var out, first := Items(accepts, was, s), Value(accepts, was, s, "");
      ItemsIs(accepts, was, s);
      ok := ParseValue("");
      ReachedIs(first, ok, was);
      RestIs();
      if !ok {
        ReachedIs(out, false, was);
        return false, false;
      }
      var got, c := GetChar();
      RestIs();
      if !got {
        ReachedIs(out, false, was);
        return false, false;
      }
      if c == ',' {
        AfterIs(first.trace, Items(accepts, trace, Rest()));
        return true, true;
      }
      if c == ']' {
        ghost var before := trace;
        ok := Call(OnComplete(false));
        ReachedIs(Emit(accepts, before, OnComplete(false), Rest()), ok, before);
        AfterIs(first.trace, Emit(accepts, before, OnComplete(false), Rest()));
        ReachedIs(out, ok, was);
        return false, ok;
      }
      ReachedIs(out, false, was);
      return false, false;
    }
  }

  /** The line of a place, and the distance from the last newline before it or else from the start. */
  ghost predicate PlacedAt(document: string, current: nat, line: nat, index: nat) {
    && index <= current <= |document| && line == 1 + multiset(document[..current])['\n']
    && (index < current ==> index > 0 && document[current - index] == '\n')
    && forall i :: current - index < i < current ==> document[i] != '\n'
  }

  /** Parse: the callbacks of one value, and on an error where it happened. */
  method Parse(document: string, accepts: Element) returns (ok: bool, trace: seq<Event>, line: nat, index: nat)
    ensures ok == Value(accepts, [], document, "").ok && trace == Value(accepts, [], document, "").trace
    ensures !ok ==> PlacedAt(document, |document| - |Value(accepts, [], document, "").rest|, line, index)
  {
    hide Value;
    var parser := new Parser(document, accepts);
    assert parser.Rest() == document;
    ok := parser.ParseValue("");
    trace, line, index := parser.trace, 0, 0;
    assert parser.current == |document| - |Value(accepts, [], document, "").rest|;
    if !ok {
      line, index := Position(document, parser.current);
    }
  }

  /** The loop that counts the lines up to the error. */
  method Position(document: string, current: nat) returns (line: nat, index: nat)
    requires current <= |document|
    ensures PlacedAt(document, current, line, index)
  {
    line := 1;
    var lastNewline := 0;
    for p := 0 to current
      invariant lastNewline <= p && PlacedAt(document, p, line, p - lastNewline)
    {
      assert document[..p + 1] == document[..p] + [document[p]];
      if document[p] == '\n' {
        line := line + 1;
        lastNewline := p;
      }
    }
    index := current - lastNewline;
  }
}
