/**
 * The parts of Python's `str` that the photo server relies on: character
 * classes, `lower()`, `title()`, `strip()`, `replace()`, `str(int)` and
 * `int(str)`. Characters are classified as ASCII (see README, "Left out").
 */
module PyText {
  import opened Wrappers

  predicate IsDigit(c: char) { '0' <= c <= '9' }
  predicate IsUpper(c: char) { 'A' <= c <= 'Z' }
  predicate IsLower(c: char) { 'a' <= c <= 'z' }
  /** A cased character in the sense of `str.title()`. */
  predicate IsLetter(c: char) { IsUpper(c) || IsLower(c) }
  /**
   * The ASCII characters `\s` and `str.strip()` treat as whitespace: space,
   * tab to carriage return, and the four separators U+001C to U+001F.
   */
  predicate IsSpace(c: char) {
    c == ' ' || '\t' <= c <= '\r' || '\U{1C}' <= c <= '\U{1F}'
  }
  /** The regex class `[-_]`. */
  predicate IsSep(c: char) { c == '-' || c == '_' }
  /** The regex class `\w`. */
  predicate IsWordChar(c: char) { IsLetter(c) || IsDigit(c) || c == '_' }

  function ToLower(c: char): (r: char)
    ensures IsLetter(c) ==> IsLower(r)
    ensures !IsUpper(c) ==> r == c
  {
    if IsUpper(c) then (c as int + 32) as char else c
  }

  function ToUpper(c: char): (r: char)
    ensures IsLetter(c) ==> IsUpper(r)
    ensures !IsLower(c) ==> r == c
  {
    if IsLower(c) then (c as int - 32) as char else c
  }

  /** `s.lower()` */
  function Lower(s: string): (r: string)
    ensures |r| == |s|
    ensures forall i :: 0 <= i < |s| ==> r[i] == ToLower(s[i])
  {
    seq(|s|, i requires 0 <= i < |s| => ToLower(s[i]))
  }

  /** `s.replace(a, b)` for single characters. */
  function ReplaceChar(s: string, a: char, b: char): (r: string)
    ensures |r| == |s|
    ensures forall i :: 0 <= i < |s| ==> r[i] == (if s[i] == a then b else s[i])
  {
    seq(|s|, i requires 0 <= i < |s| => if s[i] == a then b else s[i])
  }

  /**
   * `str.title()`: walks the string remembering whether the previous
   * character was cased; a letter becomes upper case after an uncased
   * character and lower case after a cased one.
   */
  function TitleFrom(s: string, prevCased: bool): string
  {
    if s == [] then []
    else
      var c := s[0];
      [if IsLetter(c) then (if prevCased then ToLower(c) else ToUpper(c)) else c]
        + TitleFrom(s[1..], IsLetter(c))
  }

  function Title(s: string): string
  {
    TitleFrom(s, false)
  }

  /** The character `title()` puts at position `i`, given the flag before it. */
  function TitleCharAt(s: string, i: nat, prevCased: bool): char
    requires i < |s|
  {
    var before := if i == 0 then prevCased else IsLetter(s[i - 1]);
    if IsLetter(s[i]) then (if before then ToLower(s[i]) else ToUpper(s[i])) else s[i]
  }

  lemma {:induction false} TitleFromAt(s: string, prevCased: bool, i: nat)
    requires i < |s|
    ensures |TitleFrom(s, prevCased)| == |s|
    ensures TitleFrom(s, prevCased)[i] == TitleCharAt(s, i, prevCased)
    decreases |s|
  {
    if i == 0 {
      TitleFromLength(s[1..], IsLetter(s[0]));
    } else {
      TitleFromAt(s[1..], IsLetter(s[0]), i - 1);
    }
  }

  lemma {:induction false} TitleFromLength(s: string, prevCased: bool)
    ensures |TitleFrom(s, prevCased)| == |s|
    decreases |s|
  {
    if s != [] {
      TitleFromLength(s[1..], IsLetter(s[0]));
    }
  }

  /**
   * What `title()` promises, stated per position: the length is kept,
   * uncased characters are kept, a letter stays a letter, and it is upper
   * case exactly when the character before it is not a letter.
   */
  lemma TitleShape(s: string)
    ensures |Title(s)| == |s|
    ensures forall i :: 0 <= i < |s| && !IsLetter(s[i]) ==> Title(s)[i] == s[i]
    ensures forall i :: 0 <= i < |s| && IsLetter(s[i]) ==>
      IsLetter(Title(s)[i]) && ToLower(Title(s)[i]) == ToLower(s[i]) &&
      (IsUpper(Title(s)[i]) <==> (i == 0 || !IsLetter(s[i - 1])))
  {
    TitleFromLength(s, false);
    forall i | 0 <= i < |s|
      ensures Title(s)[i] == TitleCharAt(s, i, false)
    {
      TitleFromAt(s, false, i);
    }
  }

  /** `title()` works piecewise: the second piece starts from the flag the first leaves. */
  lemma {:induction false} TitleFromConcat(x: string, y: string, prevCased: bool)
    ensures TitleFrom(x + y, prevCased)
      == TitleFrom(x, prevCased) + TitleFrom(y, if x == [] then prevCased else IsLetter(x[|x| - 1]))
    decreases |x|
  {
    if x == [] {
      assert x + y == y;
    } else {
      assert (x + y)[0] == x[0];
      assert (x + y)[1..] == x[1..] + y;
      TitleFromConcat(x[1..], y, IsLetter(x[0]));
    }
  }

  /** A word in lower case: its first letter is capitalised after a non-letter, and nothing changes after a letter. */
  lemma {:induction false} TitleFromLowerWord(w: string, prevCased: bool)
    requires forall k :: 0 <= k < |w| ==> IsLower(w[k])
    ensures w != [] && !prevCased ==> TitleFrom(w, prevCased) == [ToUpper(w[0])] + w[1..]
    ensures prevCased ==> TitleFrom(w, prevCased) == w
    decreases |w|
  {
    if w != [] {
      TitleFromLowerWord(w[1..], true);
    }
  }

  /** A non-empty word with its first character in upper case. */
  function Capitalized(w: string): string
    requires w != []
  {
    [ToUpper(w[0])] + w[1..]
  }

  /** Two lower-case words joined by a space come out with both words capitalised. */
  lemma TitleTwoLowerWords(a: string, b: string)
    requires a != [] && b != []
    requires forall k :: 0 <= k < |a| ==> IsLower(a[k])
    requires forall k :: 0 <= k < |b| ==> IsLower(b[k])
    ensures Title(a + " " + b) == Capitalized(a) + " " + Capitalized(b)
  {
    TitleFromConcat(a, " " + b, false);
    TitleFromConcat(" ", b, true);
    TitleFromLowerWord(a, false);
    TitleFromLowerWord(b, false);
    assert a + " " + b == a + (" " + b);
  }

  /** `s.lstrip()` */
  function LStrip(s: string): (r: string)
    ensures |r| <= |s| && r == s[|s| - |r|..]
    ensures r == [] || !IsSpace(r[0])
  {
    if s != [] && IsSpace(s[0]) then LStrip(s[1..]) else s
  }

  /** `s.rstrip()` */
  function RStrip(s: string): (r: string)
    ensures |r| <= |s| && r == s[..|r|]
    ensures r == [] || !IsSpace(r[|r| - 1])
  {
    if s != [] && IsSpace(s[|s| - 1]) then RStrip(s[..|s| - 1]) else s
  }

  /** `s.strip()`: a contiguous piece of `s` that neither starts nor ends with whitespace. */
  function Strip(s: string): (r: string)
    ensures |r| <= |s|
    ensures |r| <= |LStrip(s)| && r == LStrip(s)[..|r|]
    ensures r == [] || (!IsSpace(r[0]) && !IsSpace(r[|r| - 1]))
  {
    RStrip(LStrip(s))
  }

  function DigitChar(d: nat): (c: char)
    requires d < 10
    ensures IsDigit(c)
  {
    ('0' as int + d) as char
  }

  function DigitValue(c: char): (d: nat)
    requires IsDigit(c)
    ensures d < 10 && DigitChar(d) == c
  {
    c as int - '0' as int
  }

  /** `str(n)` for a non-negative integer. */
  function NatToString(n: nat): (r: string)
    ensures r != [] && forall i :: 0 <= i < |r| ==> IsDigit(r[i])
    decreases n
  {
    if n < 10 then [DigitChar(n)] else NatToString(n / 10) + [DigitChar(n % 10)]
  }

  /** `str(n)` */
  function IntToString(n: int): string
  {
    if n < 0 then "-" + NatToString(-n) else NatToString(n)
  }

  /** A run of decimal digits in which an underscore may stand alone between two digits. */
  predicate IsDigitGroup(t: string)
  {
    && t != []
    && IsDigit(t[0])
    && IsDigit(t[|t| - 1])
    && (forall i :: 0 <= i < |t| ==> IsDigit(t[i]) || t[i] == '_')
    && (forall i :: 0 <= i < |t| - 1 && t[i] == '_' ==> IsDigit(t[i + 1]))
  }

  /** The value of a digit group, underscores ignored. */
  function GroupValue(t: string): nat
    requires forall i :: 0 <= i < |t| ==> IsDigit(t[i]) || t[i] == '_'
  {
    if t == [] then 0
    else if t[|t| - 1] == '_' then GroupValue(t[..|t| - 1])
    else GroupValue(t[..|t| - 1]) * 10 + DigitValue(t[|t| - 1])
  }

  /**
   * `int(s)` for a string in base 10: surrounding whitespace is ignored, a
   * sign is optional, and anything else raises `ValueError` (here `None`).
   */
  function ParseInt(s: string): (r: Option<int>)
    ensures r.Some? ==> Strip(s) != []
  {
    var t := Strip(s);
    if t == [] then None else ParseSigned(t)
  }

  /** `int` on text without surrounding whitespace: an optional sign and a digit group. */
  function ParseSigned(t: string): Option<int>
    requires t != []
  {
    var negative := t[0] == '-';
    var body := if t[0] == '-' || t[0] == '+' then t[1..] else t;
    var magnitude: int := if IsDigitGroup(body) then GroupValue(body) else 0;
    if IsDigitGroup(body) then Some(if negative then -magnitude else magnitude)
    else None
  }

  lemma {:induction false} GroupValueOfNatToString(n: nat)
    ensures GroupValue(NatToString(n)) == n
    decreases n
  {
    var r := NatToString(n);
    if n >= 10 {
      GroupValueOfNatToString(n / 10);
      assert r[..|r| - 1] == NatToString(n / 10);
    }
  }

  lemma StripUnpadded(s: string)
    requires s != [] && !IsSpace(s[0]) && !IsSpace(s[|s| - 1])
    ensures Strip(s) == s
  {
    assert LStrip(s) == s;
  }

  lemma NatToStringIsGroup(m: nat)
    ensures IsDigitGroup(NatToString(m))
    ensures GroupValue(NatToString(m)) == m
  {
    GroupValueOfNatToString(m);
  }

  lemma ParseIntOfDigits(body: string)
    requires IsDigitGroup(body)
    ensures ParseInt(body) == Some(GroupValue(body) as int)
  {
    StripUnpadded(body);
  }

  lemma ParseIntOfNegatedDigits(body: string)
    requires IsDigitGroup(body)
    ensures ParseInt("-" + body) == Some(-(GroupValue(body) as int))
  {
    var s := "-" + body;
    assert |s| == |body| + 1 && s[1..] == body;
    assert s[|s| - 1] == body[|body| - 1];
    StripUnpadded(s);
    assert ParseInt(s) == ParseSigned(s);
    ParseSignedMinus(s);
  }

  lemma ParseSignedMinus(t: string)
    requires t != [] && t[0] == '-' && IsDigitGroup(t[1..])
    ensures ParseSigned(t) == Some(-(GroupValue(t[1..]) as int))
  {
  }

  /** `int(str(n)) == n` */
  lemma ParseIntOfIntToString(n: int)
    ensures ParseInt(IntToString(n)) == Some(n)
  {
    if n < 0 {
      var body := NatToString(-n);
      NatToStringIsGroup(-n);
      ParseIntOfNegatedDigits(body);
      var v: int := GroupValue(body);
      assert v == -n;
      assert IntToString(n) == "-" + body;
      assert ParseInt("-" + body) == Some(-v);
    } else {
      var body := NatToString(n);
      NatToStringIsGroup(n);
      ParseIntOfDigits(body);
      var v: int := GroupValue(body);
      assert v == n;
      assert IntToString(n) == body;
      assert ParseInt(body) == Some(v);
    }
  }

}
