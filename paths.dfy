/**
 * Abstract file-system paths, standing in for java.io.File on a Unix-style
 * file system.
 *
 * A path is either absolute or relative and is a sequence of names. A path
 * string is split at '/', and empty names (from repeated, leading or
 * trailing separators) are dropped, as java.io.File normalises them; a
 * string is absolute when it starts with '/'. `new File(parent, child)`
 * appends the child's names below the parent.
 */
module Paths {

  const Separator: char := '/'

  datatype Path = Path(absolute: bool, segments: seq<string>)

  /** A single name: non-empty and without a separator. */
  predicate PlainName(name: string) {
    |name| > 0 && forall j :: 0 <= j < |name| ==> name[j] != Separator
  }

  /** `new File(s).isAbsolute()`. */
  predicate IsAbsolute(s: string) {
    |s| > 0 && s[0] == Separator
  }

  /** `p` is `base` itself or lies somewhere below it. */
  predicate Under(base: Path, p: Path) {
    base.absolute == p.absolute && base.segments <= p.segments
  }

  /** The position of the first separator in `s`, or `|s|` if there is none. */
  function FirstSeparator(s: string): (i: nat)
    ensures i <= |s|
    ensures i < |s| ==> s[i] == Separator
    ensures forall j :: 0 <= j < i ==> s[j] != Separator
  {
    if s == [] || s[0] == Separator then 0 else 1 + FirstSeparator(s[1..])
  }

  /** The names of a path string, after normalisation. */
  function Segments(s: string): (r: seq<string>)
    ensures forall k :: 0 <= k < |r| ==> PlainName(r[k])
    decreases |s|
  {
    if s == [] then []
    else
      var i := FirstSeparator(s);
      var rest := if i < |s| then Segments(s[i + 1..]) else [];
      if i == 0 then rest else [s[..i]] + rest
  }

  /** A plain name is exactly one path segment. */
  lemma PlainNameIsOneSegment(name: string)
    requires PlainName(name)
    ensures Segments(name) == [name]
  {
    assert FirstSeparator(name) == |name|;
    assert name[..|name|] == name;
  }

  /** In `a + "/" + b` with `a` a run of non-separators, the first separator is the one after `a`. */
  lemma {:induction false} FirstSeparatorAfter(a: string, b: string)
    requires forall j :: 0 <= j < |a| ==> a[j] != Separator
    ensures FirstSeparator(a + [Separator] + b) == |a|
  {
    if a != [] {
      assert (a + [Separator] + b)[1..] == a[1..] + [Separator] + b;
      FirstSeparatorAfter(a[1..], b);
    }
  }

  /** Appending to a string that already holds a separator does not move its first one. */
  lemma {:induction false} FirstSeparatorOfPrefix(a: string, c: string)
    requires FirstSeparator(a) < |a|
    ensures FirstSeparator(a + c) == FirstSeparator(a)
  {
    if a[0] != Separator {
      assert (a + c)[1..] == a[1..] + c;
      FirstSeparatorOfPrefix(a[1..], c);
    }
  }

  /** `SegmentsSplit` when `a` holds no separator: `a` is at most one name. */
  lemma SegmentsSplitPlain(a: string, b: string)
    requires FirstSeparator(a) == |a|
    ensures Segments(a + [Separator] + b) == Segments(a) + Segments(b)
  {
    var s := a + [Separator] + b;
    FirstSeparatorAfter(a, b);
    assert s[|a| + 1..] == b;
    assert s[..|a|] == a;
    if a != [] {
      assert a[..|a|] == a;
    }
  }

  /**
   * Splitting at any separator splits the names: together with
   * `Segments("") == []` and `PlainNameIsOneSegment`, this fixes the names of
   * every string, so empty names from repeated, leading or trailing
   * separators are exactly the ones that disappear.
   */
  lemma {:induction false} SegmentsSplit(a: string, b: string)
    ensures Segments(a + [Separator] + b) == Segments(a) + Segments(b)
    decreases |a|
  {
    var i := FirstSeparator(a);
    if i == |a| {
      SegmentsSplitPlain(a, b);
    } else {
      var s := a + [Separator] + b;
      var t := a[i + 1..];
      assert s == a + ([Separator] + b);
      FirstSeparatorOfPrefix(a, [Separator] + b);
      assert s[i + 1..] == t + [Separator] + b;
      assert s[..i] == a[..i];
      SegmentsSplit(t, b);
    }
  }

  /** `new File(s)`. */
  function FromString(s: string): Path {
    Path(IsAbsolute(s), Segments(s))
  }

  /**
   * `new File(parent, child)`: the child's names, normalised, below `parent`,
   * which keeps its own absoluteness.
   */
  function Child(parent: Path, child: string): (r: Path)
    ensures Under(parent, r)
    ensures r.segments[|parent.segments|..] == Segments(child)
    ensures PlainName(child) ==> |r.segments| == |parent.segments| + 1 && r.segments[|parent.segments|] == child
  {
    assert PlainName(child) ==> Segments(child) == [child] by {
      if PlainName(child) {
        PlainNameIsOneSegment(child);
      }
    }
    Path(parent.absolute, parent.segments + Segments(child))
  }
}
