/** The string join used to render a Lua parameter list: Rust's `[&str]::join`. */
module Strings {

  /** Sum of the lengths of all parts. */
  function TotalLength(parts: seq<string>): nat
  {
    if |parts| == 0 then 0 else |parts[0]| + TotalLength(parts[1..])
  }

  /** `parts` with `sep` between every two neighbours: nothing for no parts,
      the single part alone for one, and no leading or trailing separator. */
  function Join(parts: seq<string>, sep: string): (r: string)
    ensures |parts| == 0 ==> |r| == 0
    ensures |parts| > 0 ==> parts[0] <= r
  {
    if |parts| == 0 then ""
    else if |parts| == 1 then parts[0]
    else parts[0] + sep + Join(parts[1..], sep)
  }

  /** The joined length: all parts plus one separator per gap. */
  lemma {:induction false} JoinLength(parts: seq<string>, sep: string)
    requires |parts| > 0
    ensures |Join(parts, sep)| == TotalLength(parts) + (|parts| - 1) * |sep|
    decreases |parts|
  {
    if |parts| > 1 {
      JoinLength(parts[1..], sep);
    }
  }

  /** Position in `Join(parts, sep)` at which `parts[i]` starts. */
  function Offset(parts: seq<string>, sep: string, i: nat): nat
    requires i < |parts|
  {
    if i == 0 then 0 else |parts[0]| + |sep| + Offset(parts[1..], sep, i - 1)
  }

  lemma JoinEdgeCases(sep: string, a: string, b: string)
    ensures Join([], sep) == ""
    ensures Join([a], sep) == a
    ensures Join([a, b], sep) == a + sep + b
  {
    assert [a, b][1..] == [b];
  }

  /** The example of a two-parameter Lua function: `["a", "b"]` renders as `a, b`. */
  lemma JoinTwoNames()
    ensures Join(["a", "b"], ", ") == "a, b"
  {
    JoinEdgeCases(", ", "a", "b");
  }

  /** Appending one more part appends a separator and that part. */
  lemma {:induction false} JoinSnoc(parts: seq<string>, a: string, sep: string)
    requires |parts| > 0
    ensures Join(parts + [a], sep) == Join(parts, sep) + sep + a
    decreases |parts|
  {
    if |parts| == 1 {
      assert parts + [a] == [parts[0], a];
      JoinEdgeCases(sep, parts[0], a);
    } else {
      assert (parts + [a])[1..] == parts[1..] + [a];
      JoinSnoc(parts[1..], a, sep);
    }
  }

  /** A slice lying inside the right operand of a concatenation. */
  lemma SliceOfSuffix(a: string, b: string, lo: nat, hi: nat)
    requires lo <= hi <= |b|
    ensures (a + b)[|a| + lo..|a| + hi] == b[lo..hi]
  {
    assert forall k :: 0 <= k < hi - lo ==> (a + b)[|a| + lo..|a| + hi][k] == b[lo..hi][k];
  }

  /** A slice lying inside the left operand of a concatenation. */
  lemma SliceOfPrefix(a: string, b: string, lo: nat, hi: nat)
    requires lo <= hi <= |a|
    ensures (a + b)[lo..hi] == a[lo..hi]
  {
    assert forall k :: 0 <= k < hi - lo ==> (a + b)[lo..hi][k] == a[lo..hi][k];
  }

  /** Offsets of neighbouring parts differ by the earlier part and one separator. */
  lemma {:induction false} OffsetStep(parts: seq<string>, sep: string, i: nat)
    requires i + 1 < |parts|
    ensures Offset(parts, sep, i + 1) == Offset(parts, sep, i) + |parts[i]| + |sep|
    decreases i
  {
    if i > 0 {
      OffsetStep(parts[1..], sep, i - 1);
    }
  }

  /** Every part appears, unchanged, at its offset in the joined string. */
  lemma {:induction false} JoinPlacesPart(parts: seq<string>, sep: string, i: nat)
    requires i < |parts|
    ensures Offset(parts, sep, i) + |parts[i]| <= |Join(parts, sep)|
    ensures Join(parts, sep)[Offset(parts, sep, i)..Offset(parts, sep, i) + |parts[i]|] == parts[i]
    decreases i
  {
    if i == 0 {
      assert parts[0] <= Join(parts, sep);
    } else {
      var head := parts[0] + sep;
      var rest := Join(parts[1..], sep);
      assert Join(parts, sep) == head + rest;
      assert parts[1..][i - 1] == parts[i];
      JoinPlacesPart(parts[1..], sep, i - 1);
      var o := Offset(parts[1..], sep, i - 1);
      assert Offset(parts, sep, i) == |head| + o;
      SliceOfSuffix(head, rest, o, o + |parts[i]|);
    }
  }

  /** Exactly `sep` sits between each part and the next one. */
  lemma {:induction false} JoinSeparates(parts: seq<string>, sep: string, i: nat)
    requires i + 1 < |parts|
    ensures Offset(parts, sep, i + 1) == Offset(parts, sep, i) + |parts[i]| + |sep|
    ensures Offset(parts, sep, i + 1) <= |Join(parts, sep)|
    ensures Join(parts, sep)[Offset(parts, sep, i) + |parts[i]|..Offset(parts, sep, i + 1)] == sep
    decreases i
  {
    OffsetStep(parts, sep, i);
    var head := parts[0] + sep;
    var rest := Join(parts[1..], sep);
    assert Join(parts, sep) == head + rest;
    if i == 0 {
      SliceOfSuffix(parts[0], sep + rest, 0, |sep|);
    } else {
      JoinSeparates(parts[1..], sep, i - 1);
      OffsetStep(parts[1..], sep, i - 1);
      var o := Offset(parts[1..], sep, i - 1);
      SliceOfSuffix(head, rest, o + |parts[i]|, Offset(parts[1..], sep, i));
    }
  }

  /** A slice lying inside the middle operand of a concatenation. */
  lemma SliceOfMiddle(a: string, b: string, c: string, lo: nat, hi: nat)
    requires lo <= hi <= |b|
    ensures |a| + hi <= |a + (b + c)|
    ensures (a + (b + c))[|a| + lo..|a| + hi] == b[lo..hi]
  {
    SliceOfPrefix(b, c, lo, hi);
    SliceOfSuffix(a, b + c, lo, hi);
  }

  /** Each part keeps its place once the joined string is embedded in
      surrounding text. */
  lemma EmbeddedJoinPlacesPart(prefix: string, parts: seq<string>, sep: string, suffix: string, i: nat)
    requires i < |parts|
    ensures |prefix| + Offset(parts, sep, i) + |parts[i]| <= |prefix + (Join(parts, sep) + suffix)|
    ensures (prefix + (Join(parts, sep) + suffix))[|prefix| + Offset(parts, sep, i)..|prefix| + Offset(parts, sep, i) + |parts[i]|]
         == parts[i]
  {
    var o := Offset(parts, sep, i);
    JoinPlacesPart(parts, sep, i);
    SliceOfMiddle(prefix, Join(parts, sep), suffix, o, o + |parts[i]|);
  }

  /** Each separator keeps its place once the joined string is embedded in
      surrounding text. */
  lemma EmbeddedJoinSeparates(prefix: string, parts: seq<string>, sep: string, suffix: string, i: nat)
    requires i + 1 < |parts|
    ensures |prefix| + Offset(parts, sep, i) + |parts[i]| + |sep| <= |prefix + (Join(parts, sep) + suffix)|
    ensures (prefix + (Join(parts, sep) + suffix))[|prefix| + Offset(parts, sep, i) + |parts[i]|..|prefix| + Offset(parts, sep, i) + |parts[i]| + |sep|]
         == sep
  {
    var o := Offset(parts, sep, i);
    JoinSeparates(parts, sep, i);
    SliceOfMiddle(prefix, Join(parts, sep), suffix, o + |parts[i]|, o + |parts[i]| + |sep|);
  }

  /** Single-pass join in the manner of the standard library: start from the
      first part, then append separator and part for each further one. */
  method JoinLoop(parts: seq<string>, sep: string) returns (r: string)
    ensures r == Join(parts, sep)
  {
    if |parts| == 0 {
      return "";
    }
    r := parts[0];
    var i := 1;
    assert parts[..1] == [parts[0]];
    while i < |parts|
      invariant 1 <= i <= |parts|
      invariant r == Join(parts[..i], sep)
    {
      JoinSnoc(parts[..i], parts[i], sep);
      assert parts[..i + 1] == parts[..i] + [parts[i]];
      r := r + sep + parts[i];
      i := i + 1;
    }
    assert parts[..i] == parts;
  }
}
