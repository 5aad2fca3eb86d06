/**
 * The regular expressions the two title generators pass to `re.sub`, each
 * written out as the match Python's backtracking engine finds at a given
 * position, and `re.sub` itself as the left-to-right scan that replaces
 * every non-overlapping leftmost match.
 *
 * Every pattern here has a single possible match length at each position:
 * each optional separator is followed by something it cannot be confused
 * with, so greedy choice never has to be undone. None matches the empty
 * string, so the scan always moves forward.
 */
module Regex {
  import opened PyText

  /** The patterns, named after what they remove. */
  datatype Pattern =
      /** `^(IMG|DSC|DSCN|P|PIC|PHOTO|IMAGE)[-_]` */
    | CameraPrefix
      /** `[-_]?20\d{6}[-_]?` */
    | CompactDate
      /** `[-_]?20\d{2}[-_](0[1-9]|1[0-2])[-_](0[1-9]|[12]\d|3[01])[-_]?` */
    | SeparatedDate
      /** `[-_]?([01]\d|2[0-3])[-_:]?([0-5]\d)[-_:]?([0-5]\d)[-_]?` */
    | ClockTime
      /** `^[-_]?\d{1,4}[-_]` */
    | LeadingCounter
      /** `[-_]\d{1,4}$` */
    | TrailingCounter
      /** `(?i)^(IMG|DSC|DSCN|P|PIC|PHOTO|IMAGE)[-_]?` */
    | AnyCasePrefix
      /** `\b\d{4}[-_]?\d{2}[-_]?\d{2}\b` */
    | BoundedDate
      /** `\b\d{8}\b` */
    | BoundedEightDigits
      /** `\b\d{2}[-_:]?\d{2}[-_:]?\d{2}\b` */
    | BoundedTime
      /** `^[-_]?\d+[-_]?` */
    | LeadingNumber
      /** `[-_]?\d+[-_]?$` */
    | TrailingNumber
      /** `[-_]+` */
    | SeparatorRun
      /** `\s+` */
    | SpaceRun

  /** The camera prefixes, in the order the alternation tries them. */
  const CameraPrefixes: seq<string> := ["IMG", "DSC", "DSCN", "P", "PIC", "PHOTO", "IMAGE"]

  /** `s[j..]` starts with `w`, compared exactly or ignoring ASCII case. */
  predicate StartsWithAt(s: string, j: nat, w: string, ignoreCase: bool)
  {
    && j + |w| <= |s|
    && forall k :: 0 <= k < |w| ==>
         (if ignoreCase then ToLower(s[j + k]) == ToLower(w[k]) else s[j + k] == w[k])
  }

  /** 1 when an optional `[-_]` finds a separator at `j`, else 0. */
  function OptSep(s: string, j: nat): (r: nat)
    ensures r <= 1
    ensures r == 1 <==> j < |s| && IsSep(s[j])
  {
    if j < |s| && IsSep(s[j]) then 1 else 0
  }

  /** 1 when an optional `[-_:]` finds a separator or a colon at `j`, else 0. */
  function OptSepColon(s: string, j: nat): (r: nat)
    ensures r <= 1
    ensures r == 1 <==> j < |s| && (IsSep(s[j]) || s[j] == ':')
  {
    if j < |s| && (IsSep(s[j]) || s[j] == ':') then 1 else 0
  }

  /** `n` digits start at `j`. */
  predicate DigitsAt(s: string, j: nat, n: nat)
  {
    j + n <= |s| && forall k :: j <= k < j + n ==> IsDigit(s[k])
  }

  /** The length of the run of digits that starts at `j`. */
  function DigitRun(s: string, j: nat): (r: nat)
    requires j <= |s|
    ensures DigitsAt(s, j, r)
    ensures j + r == |s| || !IsDigit(s[j + r])
    decreases |s| - j
  {
    if j < |s| && IsDigit(s[j]) then 1 + DigitRun(s, j + 1) else 0
  }

  /** `\b`: a word character on exactly one side of position `j`. */
  predicate WordBoundary(s: string, j: nat)
  {
    (0 < j <= |s| && IsWordChar(s[j - 1])) != (j < |s| && IsWordChar(s[j]))
  }

  /** `$` without MULTILINE: the end, or just before a final newline. */
  predicate AtEnd(s: string, j: nat)
  {
    j == |s| || (j == |s| - 1 && s[j] == '\n')
  }

  predicate IsMonth(s: string, j: nat)
    requires j + 2 <= |s|
  {
    (s[j] == '0' && '1' <= s[j + 1] <= '9') || (s[j] == '1' && '0' <= s[j + 1] <= '2')
  }

  predicate IsDay(s: string, j: nat)
    requires j + 2 <= |s|
  {
    || (s[j] == '0' && '1' <= s[j + 1] <= '9')
    || ((s[j] == '1' || s[j] == '2') && IsDigit(s[j + 1]))
    || (s[j] == '3' && '0' <= s[j + 1] <= '1')
  }

  predicate IsHour(s: string, j: nat)
    requires j + 2 <= |s|
  {
    ((s[j] == '0' || s[j] == '1') && IsDigit(s[j + 1])) || (s[j] == '2' && '0' <= s[j + 1] <= '3')
  }

  predicate IsMinute(s: string, j: nat)
    requires j + 2 <= |s|
  {
    '0' <= s[j] <= '5' && IsDigit(s[j + 1])
  }

  /**
   * The alternation of camera prefixes at the start of `s`, from alternative
   * `a` on: the length matched by the first alternative that leads to a
   * match, or 0. With `needSep` the prefix must be followed by `[-_]`;
   * without it, by an optional `[-_]`.
   */
  function PrefixMatch(s: string, a: nat, ignoreCase: bool, needSep: bool): (r: nat)
    requires a <= |CameraPrefixes|
    ensures r <= |s|
    decreases |CameraPrefixes| - a
  {
    if a == |CameraPrefixes| then 0
    else
      var w := CameraPrefixes[a];
      if StartsWithAt(s, 0, w, ignoreCase) && (!needSep || OptSep(s, |w|) == 1) then
        |w| + OptSep(s, |w|)
      else PrefixMatch(s, a + 1, ignoreCase, needSep)
  }

  /** The length of the match of `p` that starts at `i`, or 0 when there is none. */
  function MatchLen(p: Pattern, s: string, i: nat): (r: nat)
    requires i <= |s|
    ensures i + r <= |s|
  {
    match p
    case CameraPrefix =>
      if i == 0 then PrefixMatch(s, 0, false, true) else 0
    case AnyCasePrefix =>
      if i == 0 then PrefixMatch(s, 0, true, false) else 0
    case CompactDate => CompactDateLen(s, i)
    case SeparatedDate => SeparatedDateLen(s, i)
    case ClockTime => ClockTimeLen(s, i)
    case LeadingCounter => LeadingCounterLen(s, i)
    case TrailingCounter => TrailingCounterLen(s, i)
    case BoundedDate => BoundedDateLen(s, i)
    case BoundedEightDigits =>
      if WordBoundary(s, i) && DigitsAt(s, i, 8) && WordBoundary(s, i + 8) then 8 else 0
    case BoundedTime => BoundedTimeLen(s, i)
    case LeadingNumber => LeadingNumberLen(s, i)
    case TrailingNumber => TrailingNumberLen(s, i)
    case SeparatorRun => SepRun(s, i)
    case SpaceRun => SpaceRunLen(s, i)
  }

  /** `MatchLen` for `CompactDate`. */
  function CompactDateLen(s: string, i: nat): (r: nat)
    requires i <= |s|
    ensures i + r <= |s|
  {
    var j := i + OptSep(s, i);
    if StartsWithAt(s, j, "20", false) && DigitsAt(s, j + 2, 6) then
      j + 8 + OptSep(s, j + 8) - i
    else 0
  }

  /** `MatchLen` for `SeparatedDate`. */
  function SeparatedDateLen(s: string, i: nat): (r: nat)
    requires i <= |s|
    ensures i + r <= |s|
  {
    var j := i + OptSep(s, i);
    if && StartsWithAt(s, j, "20", false) && DigitsAt(s, j + 2, 2)
       && j + 4 < |s| && IsSep(s[j + 4])
       && j + 7 < |s| && IsMonth(s, j + 5) && IsSep(s[j + 7])
       && j + 10 <= |s| && IsDay(s, j + 8)
    then
      j + 10 + OptSep(s, j + 10) - i
    else 0
  }

  /** `MatchLen` for `ClockTime`. */
  function ClockTimeLen(s: string, i: nat): (r: nat)
    requires i <= |s|
    ensures i + r <= |s|
  {
    var j := i + OptSep(s, i);
    if j + 2 <= |s| && IsHour(s, j) then
      var m := j + 2 + OptSepColon(s, j + 2);
      if m + 2 <= |s| && IsMinute(s, m) then
        var t := m + 2 + OptSepColon(s, m + 2);
        if t + 2 <= |s| && IsMinute(s, t) then t + 2 + OptSep(s, t + 2) - i else 0
      else 0
    else 0
  }

  /** `MatchLen` for `LeadingCounter`. */
  function LeadingCounterLen(s: string, i: nat): (r: nat)
    requires i <= |s|
    ensures i + r <= |s|
  {
    if i == 0 then
      var j := OptSep(s, 0);
      var d := DigitRun(s, j);
      if 1 <= d <= 4 && j + d < |s| && IsSep(s[j + d]) then j + d + 1 else 0
    else 0
  }

  /** `MatchLen` for `TrailingCounter`. */
  function TrailingCounterLen(s: string, i: nat): (r: nat)
    requires i <= |s|
    ensures i + r <= |s|
  {
    if i < |s| && IsSep(s[i]) then
      var d := DigitRun(s, i + 1);
      if 1 <= d <= 4 && AtEnd(s, i + 1 + d) then 1 + d else 0
    else 0
  }

  /** `MatchLen` for `BoundedDate`. */
  function BoundedDateLen(s: string, i: nat): (r: nat)
    requires i <= |s|
    ensures i + r <= |s|
  {
    if WordBoundary(s, i) && DigitsAt(s, i, 4) then
      var m := i + 4 + OptSep(s, i + 4);
      if DigitsAt(s, m, 2) then
        var t := m + 2 + OptSep(s, m + 2);
        if DigitsAt(s, t, 2) && WordBoundary(s, t + 2) then t + 2 - i else 0
      else 0
    else 0
  }

  /** `MatchLen` for `BoundedTime`. */
  function BoundedTimeLen(s: string, i: nat): (r: nat)
    requires i <= |s|
    ensures i + r <= |s|
  {
    if WordBoundary(s, i) && DigitsAt(s, i, 2) then
      var m := i + 2 + OptSepColon(s, i + 2);
      if DigitsAt(s, m, 2) then
        var t := m + 2 + OptSepColon(s, m + 2);
        if DigitsAt(s, t, 2) && WordBoundary(s, t + 2) then t + 2 - i else 0
      else 0
    else 0
  }

  /** `MatchLen` for `LeadingNumber`. */
  function LeadingNumberLen(s: string, i: nat): (r: nat)
    requires i <= |s|
    ensures i + r <= |s|
  {
    if i == 0 then
      var j := OptSep(s, 0);
      var d := DigitRun(s, j);
      if d >= 1 then j + d + OptSep(s, j + d) else 0
    else 0
  }

  /** `MatchLen` for `TrailingNumber`. */
  function TrailingNumberLen(s: string, i: nat): (r: nat)
    requires i <= |s|
    ensures i + r <= |s|
  {
    var j := i + OptSep(s, i);
    var d := DigitRun(s, j);
    if d >= 1 then
      var e := j + d + OptSep(s, j + d);
      if AtEnd(s, e) then e - i else 0
    else 0
  }

  /** The length of the run of `[-_]` that starts at `i`. */
  function SepRun(s: string, i: nat): (r: nat)
    requires i <= |s|
    ensures i + r <= |s|
    ensures forall k :: i <= k < i + r ==> IsSep(s[k])
    ensures i + r == |s| || !IsSep(s[i + r])
    decreases |s| - i
  {
    if i < |s| && IsSep(s[i]) then 1 + SepRun(s, i + 1) else 0
  }

  /** The length of the run of whitespace that starts at `i`. */
  function SpaceRunLen(s: string, i: nat): (r: nat)
    requires i <= |s|
    ensures i + r <= |s|
    ensures forall k :: i <= k < i + r ==> IsSpace(s[k])
    ensures i + r == |s| || !IsSpace(s[i + r])
    decreases |s| - i
  {
    if i < |s| && IsSpace(s[i]) then 1 + SpaceRunLen(s, i + 1) else 0
  }

  /** The replacement text `re.sub` is given for each pattern. */
  function Replacement(p: Pattern): string
  {
    match p
    case CompactDate => "_"
    case SeparatedDate => "_"
    case ClockTime => "_"
    case SeparatorRun => " "
    case SpaceRun => " "
    case _ => ""
  }

  /** `re.sub(p, Replacement(p), s[i..])` scanned from position `i` of `s`. */
  function SubFrom(p: Pattern, s: string, i: nat): string
    requires i <= |s|
    decreases |s| - i
  {
    if i == |s| then []
    else
      var k := MatchLen(p, s, i);
      if k > 0 then Replacement(p) + SubFrom(p, s, i + k)
      else [s[i]] + SubFrom(p, s, i + 1)
  }

  /** `re.sub(p, Replacement(p), s)` */
  function Sub(p: Pattern, s: string): string
  {
    SubFrom(p, s, 0)
  }

  /** Collapsing whitespace from position `i` on adds no separator. */
  lemma {:induction false} SpaceRunKeepsSeparatorFreeFrom(s: string, i: nat)
    requires i <= |s|
    requires forall k :: i <= k < |s| ==> !IsSep(s[k])
    ensures NoSeparators(SubFrom(SpaceRun, s, i))
    decreases |s| - i
  {
    if i < |s| {
      var k := MatchLen(SpaceRun, s, i);
      if k > 0 {
        SpaceRunKeepsSeparatorFreeFrom(s, i + k);
        SubFromMatch(SpaceRun, s, i);
        NoSeparatorsConcat(" ", SubFrom(SpaceRun, s, i + k));
      } else {
        SpaceRunKeepsSeparatorFreeFrom(s, i + 1);
        SubFromNoMatch(SpaceRun, s, i);
        NoSeparatorsConcat([s[i]], SubFrom(SpaceRun, s, i + 1));
      }
    }
  }

  /** Where the pattern matches, its replacement stands for the match. */
  lemma SubFromMatch(p: Pattern, s: string, i: nat)
    requires i < |s| && MatchLen(p, s, i) > 0
    ensures SubFrom(p, s, i) == Replacement(p) + SubFrom(p, s, i + MatchLen(p, s, i))
  {
  }

  lemma NoSeparatorsConcat(a: string, b: string)
    requires NoSeparators(a) && NoSeparators(b)
    ensures NoSeparators(a + b)
  {
  }

  /** After `[-_]+` is replaced by a space, no `-` or `_` is left. */
  lemma {:induction false} SeparatorRunRemovesSeparators(s: string, i: nat)
    requires i <= |s|
    ensures forall k :: 0 <= k < |SubFrom(SeparatorRun, s, i)| ==> !IsSep(SubFrom(SeparatorRun, s, i)[k])
    decreases |s| - i
  {
    if i < |s| {
      var k := MatchLen(SeparatorRun, s, i);
      if k > 0 {
        SeparatorRunRemovesSeparators(s, i + k);
      } else {
        SeparatorRunRemovesSeparators(s, i + 1);
      }
    }
  }

  /** No two whitespace characters next to each other. */
  predicate SingleSpaced(t: string)
  {
    forall k :: 0 < k < |t| && IsSpace(t[k - 1]) ==> !IsSpace(t[k])
  }

  /** Every whitespace character is a plain space. */
  predicate OnlyPlainSpaces(t: string)
  {
    forall k :: 0 <= k < |t| && IsSpace(t[k]) ==> t[k] == ' '
  }

  /**
   * After `\s+` is replaced by a space, whitespace comes only as single
   * plain spaces, and the output starts with whitespace exactly when the
   * input does.
   */
  lemma {:induction false} SpaceRunCollapses(s: string, i: nat)
    requires i <= |s|
    ensures SingleSpaced(SubFrom(SpaceRun, s, i))
    ensures OnlyPlainSpaces(SubFrom(SpaceRun, s, i))
    ensures SubFrom(SpaceRun, s, i) == [] <==> i == |s|
    ensures i < |s| ==> (IsSpace(SubFrom(SpaceRun, s, i)[0]) <==> IsSpace(s[i]))
    decreases |s| - i
  {
    if i < |s| {
      var k := MatchLen(SpaceRun, s, i);
      assert k == SpaceRunLen(s, i);
      if k > 0 {
        SpaceRunCollapses(s, i + k);
        var rest := SubFrom(SpaceRun, s, i + k);
        assert SubFrom(SpaceRun, s, i) == [' '] + rest;
        assert i + k < |s| ==> !IsSpace(s[i + k]);
        ConsSpacing(' ', rest);
      } else {
        SpaceRunCollapses(s, i + 1);
        var rest := SubFrom(SpaceRun, s, i + 1);
        assert SubFrom(SpaceRun, s, i) == [s[i]] + rest;
        ConsSpacing(s[i], rest);
      }
    }
  }

  /** A character in front of well-spaced text keeps it well spaced unless it is whitespace before whitespace. */
  lemma ConsSpacing(c: char, rest: string)
    requires SingleSpaced(rest) && OnlyPlainSpaces(rest)
    requires IsSpace(c) ==> c == ' ' && (rest == [] || !IsSpace(rest[0]))
    ensures SingleSpaced([c] + rest) && OnlyPlainSpaces([c] + rest)
  {
    var out := [c] + rest;
    assert forall j :: 1 <= j < |out| ==> out[j] == rest[j - 1];
  }


  /** Collapsing whitespace adds no separator. */
  lemma SpaceRunKeepsSeparatorFree(s: string)
    requires forall k :: 0 <= k < |s| ==> !IsSep(s[k])
    ensures forall k :: 0 <= k < |Sub(SpaceRun, s)| ==> !IsSep(Sub(SpaceRun, s)[k])
  {
    SpaceRunKeepsSeparatorFreeFrom(s, 0);
  }

  /** `-` or `_` nowhere in `t`. */
  predicate NoSeparators(t: string)
  {
    forall k :: 0 <= k < |t| ==> !IsSep(t[k])
  }

  /** The shape `str.title()` leaves: a letter is upper case exactly when no letter precedes it. */
  predicate TitleCased(t: string)
  {
    forall k :: 0 <= k < |t| && IsLetter(t[k]) ==> (IsUpper(t[k]) <==> (k == 0 || !IsLetter(t[k - 1])))
  }

  /**
   * A title fit for display: no separators, whitespace only as single
   * plain spaces between words, and title case.
   */
  predicate Readable(t: string)
  {
    && NoSeparators(t)
    && SingleSpaced(t)
    && OnlyPlainSpaces(t)
    && (t != [] ==> !IsSpace(t[0]) && !IsSpace(t[|t| - 1]))
    && TitleCased(t)
  }

  /**
   * The common tail of both title generators: separator runs become
   * spaces, whitespace runs collapse, the ends are stripped and the words
   * title-cased.
   */
  function Tidy(name: string): string
  {
    Title(Strip(Sub(SpaceRun, Sub(SeparatorRun, name))))
  }

  /** A piece of a string keeps the per-position traits of a readable title. */
  lemma SliceKeepsSpacing(t: string, a: nat, b: nat)
    requires a <= b <= |t|
    requires NoSeparators(t) && SingleSpaced(t) && OnlyPlainSpaces(t)
    ensures NoSeparators(t[a..b]) && SingleSpaced(t[a..b]) && OnlyPlainSpaces(t[a..b])
  {
    var u := t[a..b];
    assert forall k :: 0 <= k < |u| ==> u[k] == t[a + k];
  }

  /** The common tail always yields a readable title, never longer than its input. */
  lemma TidyIsReadable(name: string)
    ensures Readable(Tidy(name))
    ensures |Tidy(name)| <= |name|
  {
    var collapsed := Sub(SpaceRun, Sub(SeparatorRun, name));
    CollapsedShape(name);
    StrippedShape(collapsed);
  }

  /** After the two substitutions: no separator, single plain spaces, and no longer than the name. */
  lemma CollapsedShape(name: string)
    ensures var collapsed := Sub(SpaceRun, Sub(SeparatorRun, name));
      && NoSeparators(collapsed) && SingleSpaced(collapsed) && OnlyPlainSpaces(collapsed)
      && |collapsed| <= |name|
  {
    var spaced := Sub(SeparatorRun, name);
    SeparatorRunRemovesSeparators(name, 0);
    SpaceRunKeepsSeparatorFree(spaced);
    SpaceRunCollapses(spaced, 0);
    SeparatorRunLength(name, 0);
    SpaceRunLength(spaced, 0);
  }

  /** Stripping and title-casing well-spaced text without separators makes it readable. */
  lemma StrippedShape(collapsed: string)
    requires NoSeparators(collapsed) && SingleSpaced(collapsed) && OnlyPlainSpaces(collapsed)
    ensures Readable(Title(Strip(collapsed)))
    ensures |Title(Strip(collapsed))| <= |collapsed|
  {
    var stripped := Strip(collapsed);
    var a := |collapsed| - |LStrip(collapsed)|;
    var b := a + |stripped|;
    assert stripped == collapsed[a..b];
    SliceKeepsSpacing(collapsed, a, b);
    assert NoSeparators(stripped) && SingleSpaced(stripped) && OnlyPlainSpaces(stripped);
    assert stripped != [] ==> !IsSpace(stripped[0]) && !IsSpace(stripped[|stripped| - 1]);
    TitleKeepsShape(stripped);
  }


  /** `re.sub` with a one-character replacement for each match never lengthens. */
  lemma {:induction false} SeparatorRunLength(s: string, i: nat)
    requires i <= |s|
    ensures |SubFrom(SeparatorRun, s, i)| <= |s| - i
    decreases |s| - i
  {
    if i < |s| {
      var k := MatchLen(SeparatorRun, s, i);
      if k > 0 {
        SeparatorRunLength(s, i + k);
      } else {
        SeparatorRunLength(s, i + 1);
      }
    }
  }

  lemma {:induction false} SpaceRunLength(s: string, i: nat)
    requires i <= |s|
    ensures |SubFrom(SpaceRun, s, i)| <= |s| - i
    decreases |s| - i
  {
    if i < |s| {
      var k := MatchLen(SpaceRun, s, i);
      if k > 0 {
        SpaceRunLength(s, i + k);
      } else {
        SpaceRunLength(s, i + 1);
      }
    }
  }

  /**
   * Title-casing a string that already has the other traits of a readable
   * title keeps them, and adds title case.
   */
  lemma TitleKeepsShape(t: string)
    requires NoSeparators(t) && SingleSpaced(t) && OnlyPlainSpaces(t)
    requires t != [] ==> !IsSpace(t[0]) && !IsSpace(t[|t| - 1])
    ensures Readable(Title(t))
    ensures |Title(t)| == |t|
  {
    TitleShape(t);
    var r := Title(t);
    assert forall k :: 0 <= k < |t| ==> (IsLetter(r[k]) <==> IsLetter(t[k]));
    assert forall k :: 0 <= k < |t| && !IsLetter(t[k]) ==> r[k] == t[k];
    assert forall k :: 0 <= k < |t| ==> (IsSpace(r[k]) <==> IsSpace(t[k]));
  }

  /** The fallback title: the stem with `_` and `-` turned into spaces, title-cased. */
  function FallbackTitle(stem: string): (r: string)
    ensures |r| == |stem|
    ensures NoSeparators(r)
    ensures TitleCased(r)
  {
    var spaced := ReplaceChar(ReplaceChar(stem, '_', ' '), '-', ' ');
    TitleShape(spaced);
    Title(spaced)
  }

  /** The patterns that need at least one digit to match. */
  predicate NeedsDigit(p: Pattern)
  {
    !(p.CameraPrefix? || p.AnyCasePrefix? || p.SeparatorRun? || p.SpaceRun?)
  }

  predicate NoDigits(s: string)
  {
    forall k :: 0 <= k < |s| ==> !IsDigit(s[k])
  }

  /** A date, time or number pattern finds nothing in text without digits. */
  lemma DigitPatternNeedsDigit(p: Pattern, s: string, i: nat)
    requires NeedsDigit(p) && NoDigits(s) && i <= |s|
    ensures MatchLen(p, s, i) == 0
  {
    var j := i + OptSep(s, i);
    if j < |s| {
      assert !IsDigit(s[j]);
    }
    if j + 2 < |s| {
      assert !IsDigit(s[j + 2]);
    }
    if i + 1 < |s| {
      assert !IsDigit(s[i + 1]);
    }
  }

  /** ... and so leaves such text as it is. */
  lemma {:induction false} DigitPatternKeepsDigitFree(p: Pattern, s: string, i: nat)
    requires NeedsDigit(p) && NoDigits(s) && i <= |s|
    ensures SubFrom(p, s, i) == s[i..]
    decreases |s| - i
  {
    if i < |s| {
      DigitPatternNeedsDigit(p, s, i);
      SubFromNoMatch(p, s, i);
      DigitPatternKeepsDigitFree(p, s, i + 1);
      assert [s[i]] + s[i + 1..] == s[i..];
    }
  }

  /** Where the pattern does not match, the character is copied. */
  lemma SubFromNoMatch(p: Pattern, s: string, i: nat)
    requires i < |s| && MatchLen(p, s, i) == 0
    ensures SubFrom(p, s, i) == [s[i]] + SubFrom(p, s, i + 1)
  {
  }

  /** No two separators next to each other. */
  predicate IsolatedSeparators(s: string)
  {
    forall k :: 0 < k < |s| && IsSep(s[k - 1]) ==> !IsSep(s[k])
  }

  /**
   * Where separators stand alone, replacing `[-_]+` by a space is the same
   * as the fallback's two `replace` calls.
   */
  lemma {:induction false} IsolatedSeparatorsBecomeSpaces(s: string, i: nat)
    requires IsolatedSeparators(s) && i <= |s|
    ensures SubFrom(SeparatorRun, s, i) == ReplaceChar(ReplaceChar(s, '_', ' '), '-', ' ')[i..]
    decreases |s| - i
  {
    var t := ReplaceChar(ReplaceChar(s, '_', ' '), '-', ' ');
    if i < |s| {
      IsolatedSeparatorsBecomeSpaces(s, i + 1);
      if IsSep(s[i]) {
        assert SepRun(s, i + 1) == 0;
      }
      assert t[i..] == [t[i]] + t[i + 1..];
    }
  }

  /** Text whose whitespace is already single plain spaces passes `\s+` unchanged. */
  lemma {:induction false} SpacedTextKept(s: string, i: nat)
    requires SingleSpaced(s) && OnlyPlainSpaces(s) && i <= |s|
    ensures SubFrom(SpaceRun, s, i) == s[i..]
    decreases |s| - i
  {
    if i < |s| {
      SpacedTextKept(s, i + 1);
      if IsSpace(s[i]) {
        assert SpaceRunLen(s, i + 1) == 0;
      }
      assert s[i..] == [s[i]] + s[i + 1..];
    }
  }
}
