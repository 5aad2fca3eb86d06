/**
 * The pure part of Python's `pathlib.PurePosixPath` that the photo server
 * uses: parsing a string into an anchor and components, `str()`, `name`,
 * `suffix`, `stem`, `parent.name`, `relative_to` and `/`.
 */
module PyPath {
  import opened Wrappers

  /** A parsed path: its anchor ("", "/" or "//") and its components. */
  datatype PurePath = PurePath(anchor: string, parts: seq<string>)

  /** A component as `pathlib` keeps it: never empty, never ".", no separator. */
  predicate ValidPart(x: string)
  {
    x != "" && x != "." && '/' !in x
  }

  predicate Valid(p: PurePath)
  {
    && (p.anchor == "" || p.anchor == "/" || p.anchor == "//")
    && forall k :: 0 <= k < |p.parts| ==> ValidPart(p.parts[k])
  }

  /** `s.split("/")` */
  function Split(s: string): (r: seq<string>)
    ensures r != []
    ensures forall k :: 0 <= k < |r| ==> '/' !in r[k]
  {
    if s == [] then [""]
    else
      var rest := Split(s[1..]);
      if s[0] == '/' then [""] + rest
      else [[s[0]] + rest[0]] + rest[1..]
  }

  /** Drops the empty and "." pieces, as the path parser does. */
  function KeepParts(xs: seq<string>): (r: seq<string>)
    requires forall k :: 0 <= k < |xs| ==> '/' !in xs[k]
    ensures forall k :: 0 <= k < |r| ==> ValidPart(r[k])
  {
    if xs == [] then []
    else if xs[0] == "" || xs[0] == "." then KeepParts(xs[1..])
    else [xs[0]] + KeepParts(xs[1..])
  }

  /**
   * The root of a POSIX path: exactly two leading slashes are kept as "//",
   * one or three and more collapse to "/".
   */
  function Anchor(s: string): (r: string)
    ensures |r| <= |s| && r == s[..|r|]
  {
    if |s| >= 1 && s[0] == '/' then
      if |s| >= 2 && s[1] == '/' && !(|s| >= 3 && s[2] == '/') then "//" else "/"
    else ""
  }

  /** `PurePosixPath(s)` */
  function Parse(s: string): (r: PurePath)
    ensures Valid(r)
  {
    var a := Anchor(s);
    PurePath(a, KeepParts(Split(s[|a|..])))
  }

  /** `"/".join(parts)` */
  function Join(parts: seq<string>): string
  {
    if parts == [] then ""
    else if |parts| == 1 then parts[0]
    else parts[0] + "/" + Join(parts[1..])
  }

  /** `str(p)`: "." for the empty relative path. */
  function Str(p: PurePath): string
  {
    if p.anchor == "" && p.parts == [] then "." else p.anchor + Join(p.parts)
  }

  lemma {:induction false} SplitPlain(x: string)
    requires '/' !in x
    ensures Split(x) == [x]
    decreases |x|
  {
    if x != [] {
      assert x[0] != '/';
      SplitPlain(x[1..]);
      assert [x[0]] + x[1..] == x;
    }
  }

  lemma {:induction false} SplitAtSlash(x: string, y: string)
    requires '/' !in x
    ensures Split(x + "/" + y) == [x] + Split(y)
    decreases |x|
  {
    var s := x + "/" + y;
    if x == [] {
      assert s[1..] == y;
    } else {
      assert s[1..] == x[1..] + "/" + y;
      SplitAtSlash(x[1..], y);
      assert [x[0]] + x[1..] == x;
    }
  }

  lemma {:induction false} SplitJoin(parts: seq<string>)
    requires parts != []
    requires forall k :: 0 <= k < |parts| ==> '/' !in parts[k]
    ensures Split(Join(parts)) == parts
    decreases |parts|
  {
    if |parts| == 1 {
      SplitPlain(parts[0]);
    } else {
      SplitAtSlash(parts[0], Join(parts[1..]));
      SplitJoin(parts[1..]);
    }
  }

  lemma {:induction false} KeepValidParts(xs: seq<string>)
    requires forall k :: 0 <= k < |xs| ==> '/' !in xs[k]
    requires forall k :: 0 <= k < |xs| ==> ValidPart(xs[k])
    ensures KeepParts(xs) == xs
    decreases |xs|
  {
    if xs != [] {
      KeepValidParts(xs[1..]);
    }
  }

  lemma {:induction false} JoinStart(parts: seq<string>)
    requires parts != [] && parts[0] != ""
    ensures Join(parts) != [] && Join(parts)[0] == parts[0][0]
    decreases |parts|
  {
  }

  /** `PurePosixPath(str(p)) == p`: rendering a parsed path and parsing it again gives it back. */
  lemma ParseStr(p: PurePath)
    requires Valid(p)
    ensures Parse(Str(p)) == p
  {
    var s := Str(p);
    if p.anchor == "" && p.parts == [] {
      assert s == ".";
      SplitPlain(s);
      assert KeepParts(["."]) == [];
    } else {
      var j := Join(p.parts);
      assert s == p.anchor + j;
      if p.parts != [] {
        JoinStart(p.parts);
      }
      assert Anchor(s) == p.anchor;
      assert s[|p.anchor|..] == j;
      if p.parts == [] {
        assert j == "";
        assert KeepParts([""]) == [];
      } else {
        SplitJoin(p.parts);
        KeepValidParts(p.parts);
      }
    }
  }

  /** `str(PurePosixPath(s))` is already normal: parsing it again changes nothing. */
  lemma NormalFormStable(s: string)
    ensures Parse(Str(Parse(s))) == Parse(s)
  {
    ParseStr(Parse(s));
  }

  /** `p.name`: the last component, or "" for a bare anchor or ".". */
  function Name(p: PurePath): (r: string)
    ensures p.parts != [] ==> r == p.parts[|p.parts| - 1]
    ensures p.parts == [] ==> r == ""
  {
    if p.parts == [] then "" else p.parts[|p.parts| - 1]
  }

  /** `p.parent.name`: the second-to-last component, or "". */
  function ParentName(p: PurePath): (r: string)
    ensures |p.parts| >= 2 ==> r == p.parts[|p.parts| - 2]
    ensures |p.parts| < 2 ==> r == ""
  {
    if |p.parts| < 2 then "" else p.parts[|p.parts| - 2]
  }

  /** `p / name` for a single component. */
  function Child(p: PurePath, name: string): (r: PurePath)
    ensures Name(r) == name
    ensures ParentName(r) == Name(p)
  {
    PurePath(p.anchor, p.parts + [name])
  }

  /** `s.rfind(c)`: the index of the last `c`, or -1. */
  function RFind(s: string, c: char): (r: int)
    ensures -1 <= r < |s|
    ensures r >= 0 ==> s[r] == c && c !in s[r + 1..]
    ensures r == -1 ==> c !in s
  {
    if s == [] then -1
    else if s[|s| - 1] == c then |s| - 1
    else
      var r := RFind(s[..|s| - 1], c);
      assert s == s[..|s| - 1] + [s[|s| - 1]];
      r
  }

  /** Whether `name` has a suffix: a last dot that is neither its first nor its last character. */
  predicate HasSuffix(name: string)
  {
    var i := RFind(name, '.');
    0 < i < |name| - 1
  }

  /** `PurePath(name).suffix`: from the last dot on, or "". */
  function Suffix(name: string): (r: string)
    ensures r == [] || (r[0] == '.' && |r| >= 2 && '.' !in r[1..])
    ensures |r| <= |name| && r == name[|name| - |r|..]
  {
    var i := RFind(name, '.');
    if 0 < i < |name| - 1 then
      assert name[i..][1..] == name[i + 1..];
      name[i..]
    else ""
  }

  /** `PurePath(name).stem`: everything before the suffix. */
  function Stem(name: string): (r: string)
  {
    var i := RFind(name, '.');
    if 0 < i < |name| - 1 then name[..i] else name
  }

  /** The stem and the suffix split the name. */
  lemma StemSuffixSplit(name: string)
    ensures Stem(name) + Suffix(name) == name
    ensures Suffix(name) != [] ==> Stem(name) != []
  {
    var i := RFind(name, '.');
    if 0 < i < |name| - 1 {
      assert Stem(name) == name[..i] && Suffix(name) == name[i..];
      assert name[..i] + name[i..] == name;
    } else {
      assert Stem(name) == name && Suffix(name) == "";
    }
  }

  /** A name made of a non-empty stem and an extension "." + w, where w has no dot, splits back into the two. */
  lemma StemAndSuffixOf(stem: string, ext: string)
    requires stem != []
    requires |ext| >= 2 && ext[0] == '.' && '.' !in ext[1..]
    ensures Suffix(stem + ext) == ext
    ensures Stem(stem + ext) == stem
  {
    var name := stem + ext;
    var i := |stem|;
    assert name[i] == '.';
    assert name[i + 1..] == ext[1..];
  }

  /** A name without a dot, or whose only dot leads it, has no suffix. */
  lemma NoSuffixWithoutInnerDot(name: string)
    requires '.' !in name || (name[0] == '.' && '.' !in name[1..])
    ensures Suffix(name) == "" && Stem(name) == name
  {
  }

  /**
   * `p.relative_to(base)`: the components after `base` when `base` has the
   * same anchor and its components lead `p`'s; `ValueError` otherwise.
   */
  function RelativeTo(p: PurePath, base: PurePath): (r: Option<seq<string>>)
    ensures r.Some? <==> p.anchor == base.anchor && base.parts <= p.parts
    ensures r.Some? ==> base.parts + r.value == p.parts
  {
    if p.anchor == base.anchor && base.parts <= p.parts then Some(p.parts[|base.parts|..])
    else None
  }

  /** A child of `base` is relative to it, and its first relative component is the child's name. */
  lemma RelativeToChild(base: PurePath, names: seq<string>)
    requires names != []
    ensures RelativeTo(PurePath(base.anchor, base.parts + names), base) == Some(names)
  {
    var p := PurePath(base.anchor, base.parts + names);
    assert base.parts <= p.parts;
    assert p.parts[|base.parts|..] == names;
  }
}
