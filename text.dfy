/** The handful of Python string operations the assistant relies on:
    `str.strip`, `str.join`, `str.split` and `str.startswith`. */
module Text {

  /** Python's `str.isspace` for one character: the ASCII controls
      TAB..CR, the separators FS..US, SPACE, NEL, NBSP and the Unicode
      space separators. */
  predicate IsSpace(c: char) {
    var n := c as int;
    || (0x09 <= n <= 0x0D)
    || (0x1C <= n <= 0x20)
    || n == 0x85 || n == 0xA0 || n == 0x1680
    || (0x2000 <= n <= 0x200A)
    || n == 0x2028 || n == 0x2029 || n == 0x202F || n == 0x205F || n == 0x3000
  }

  predicate AllSpace(s: string) {
    forall i :: 0 <= i < |s| ==> IsSpace(s[i])
  }

  predicate StartsWith(s: string, prefix: string) {
    |prefix| <= |s| && s[..|prefix|] == prefix
  }

  /** `t in s` for strings. */
  predicate Contains(s: string, t: string) {
    exists k :: 0 <= k <= |s| - |t| && t <= s[k..]
  }

  /** The middle `w` of a piece `a + w + b` found in `s` is contained in `s`. */
  lemma ContainsPiece(s: string, at: nat, piece: string, a: string, w: string, b: string)
    requires piece == a + w + b
    requires at + |piece| <= |s| && s[at..at + |piece|] == piece
    ensures Contains(s, w)
  {
    var k := at + |a|;
    var found := s[at..at + |piece|];
    assert piece[|a|..|a| + |w|] == w;
    assert forall j :: 0 <= j < |w| ==> s[k..][j] == found[|a| + j];
    assert w <= s[k..];
  }

  /** `s.rstrip()`: the longest prefix of `s` that does not end in whitespace. */
  function RStrip(s: string): (r: string)
    ensures r <= s
    ensures AllSpace(s[|r|..])
    ensures r == [] || !IsSpace(r[|r| - 1])
    decreases |s|
  {
    if |s| > 0 && IsSpace(s[|s| - 1]) then
      var r := RStrip(s[..|s| - 1]);
      assert s[|r|..] == s[..|s| - 1][|r|..] + [s[|s| - 1]];
      r
    else
      s
  }

  /** `s.lstrip()`: the longest suffix of `s` that does not start with whitespace. */
  function LStrip(s: string): (r: string)
    ensures |r| <= |s| && r == s[|s| - |r|..]
    ensures AllSpace(s[..|s| - |r|])
    ensures r == [] || !IsSpace(r[0])
    decreases |s|
  {
    if |s| > 0 && IsSpace(s[0]) then
      var r := LStrip(s[1..]);
      assert s[1..][|s| - 1 - |r|..] == s[|s| - |r|..];
      assert forall k :: 0 < k < |s| - |r| ==> s[k] == s[1..][..|s| - 1 - |r|][k - 1];
      r
    else
      s
  }

  /** `s.strip()`. */
  function Strip(s: string): string {
    RStrip(LStrip(s))
  }

  /** The three contract clauses of RStrip determine its result. */
  lemma {:induction false} RStripUnique(m: string, b: string)
    requires AllSpace(b)
    requires m == [] || !IsSpace(m[|m| - 1])
    ensures RStrip(m + b) == m
    decreases |b|
  {
    if |b| == 0 {
      assert m + b == m;
    } else {
      var b' := b[..|b| - 1];
      assert (m + b)[..|m + b| - 1] == m + b';
      assert IsSpace((m + b)[|m + b| - 1]);
      RStripUnique(m, b');
    }
  }

  /** Stripping the right end of `x + y` never reaches into `x` once `y`
      holds a non-space character. */
  lemma RStripAppend(x: string, y: string)
    requires !AllSpace(y)
    ensures RStrip(x + y) == x + RStrip(y)
  {
    var ry := RStrip(y);
    assert y == ry + y[|ry|..];
    assert x + y == (x + ry) + y[|ry|..];
    assert (x + ry)[|x + ry| - 1] == ry[|ry| - 1];
    RStripUnique(x + ry, y[|ry|..]);
  }

  /** Trailing whitespace is invisible to `rstrip`. */
  lemma {:induction false} RStripIgnoresSpaceTail(x: string, y: string)
    requires AllSpace(y)
    ensures RStrip(x + y) == RStrip(x)
    decreases |y|
  {
    if |y| == 0 {
      assert x + y == x;
    } else {
      var y' := y[..|y| - 1];
      assert (x + y)[..|x + y| - 1] == x + y';
      assert IsSpace((x + y)[|x + y| - 1]);
      RStripIgnoresSpaceTail(x, y');
    }
  }

  /** A string that starts with a non-space character is its own `lstrip`. */
  lemma StripKeepsHead(s: string)
    requires |s| > 0 && !IsSpace(s[0])
    ensures Strip(s) == RStrip(s)
  {
  }

  /** `sep.join(parts)`. */
  function Join(sep: string, parts: seq<string>): string
    decreases |parts|
  {
    if |parts| == 0 then ""
    else if |parts| == 1 then parts[0]
    else parts[0] + sep + Join(sep, parts[1..])
  }

  /** Joining one more part appends a separator and that part. */
  lemma {:induction false} JoinSnoc(sep: string, parts: seq<string>, x: string)
    requires |parts| > 0
    ensures Join(sep, parts + [x]) == Join(sep, parts) + sep + x
    decreases |parts|
  {
    var all := parts + [x];
    if |parts| == 1 {
      assert all[1..] == [x];
    } else {
      assert all[1..] == parts[1..] + [x];
      JoinSnoc(sep, parts[1..], x);
    }
  }

  /** Where part `i` starts inside `Join(sep, parts)`. */
  function PartOffset(sep: string, parts: seq<string>, i: nat): nat
    requires i < |parts|
    decreases i
  {
    if i == 0 then 0 else |parts[0]| + |sep| + PartOffset(sep, parts[1..], i - 1)
  }

  /** A slice of the right operand of a concatenation. */
  lemma SliceRight(a: string, b: string, lo: nat, hi: nat)
    requires lo <= hi <= |b|
    ensures (a + b)[|a| + lo..|a| + hi] == b[lo..hi]
  {
  }

  /** A string is what comes before index `k`, the character at `k`, and
      what follows it. */
  lemma AroundIndex(s: string, k: nat)
    requires k < |s|
    ensures s == s[..k] + [s[k]] + s[k + 1..]
  {
  }

  /** A slice of the left operand of a concatenation. */
  lemma SliceLeft(a: string, b: string, lo: nat, hi: nat)
    requires lo <= hi <= |a|
    ensures (a + b)[lo..hi] == a[lo..hi]
  {
  }

  /** A join of two or more parts is the first part, a separator and the
      join of the rest. */
  lemma JoinUnfold(sep: string, parts: seq<string>)
    requires |parts| > 1
    ensures Join(sep, parts) == parts[0] + (sep + Join(sep, parts[1..]))
  {
  }

  /** The joined string is the parts in order: part `i` sits at
      `PartOffset(sep, parts, i)` and the last part ends the string. */
  lemma {:induction false} JoinPartAt(sep: string, parts: seq<string>, i: nat)
    requires i < |parts|
    ensures PartOffset(sep, parts, i) + |parts[i]| <= |Join(sep, parts)|
    ensures Join(sep, parts)[PartOffset(sep, parts, i)..PartOffset(sep, parts, i) + |parts[i]|] == parts[i]
    ensures i + 1 == |parts| ==> PartOffset(sep, parts, i) + |parts[i]| == |Join(sep, parts)|
    decreases i
  {
    if |parts| == 1 {
      assert Join(sep, parts) == parts[0];
    } else {
      var rest := parts[1..];
      var tail := sep + Join(sep, rest);
      JoinUnfold(sep, parts);
      if i == 0 {
        SliceLeft(parts[0], tail, 0, |parts[0]|);
      } else {
        JoinPartAt(sep, rest, i - 1);
        assert rest[i - 1] == parts[i];
        var o := PartOffset(sep, rest, i - 1);
        assert PartOffset(sep, parts, i) == |parts[0]| + |sep| + o;
        SliceRight(parts[0] + sep, Join(sep, rest), o, o + |parts[i]|);
        assert parts[0] + tail == (parts[0] + sep) + Join(sep, rest);
      }
    }
  }

  /** A separator follows every part but the last. */
  lemma {:induction false} JoinSepAfter(sep: string, parts: seq<string>, i: nat)
    requires i + 1 < |parts|
    ensures PartOffset(sep, parts, i + 1) == PartOffset(sep, parts, i) + |parts[i]| + |sep|
    ensures PartOffset(sep, parts, i + 1) <= |Join(sep, parts)|
    ensures Join(sep, parts)[PartOffset(sep, parts, i) + |parts[i]|..PartOffset(sep, parts, i + 1)] == sep
    decreases i
  {
    var rest := parts[1..];
    JoinUnfold(sep, parts);
    assert Join(sep, parts) == (parts[0] + sep) + Join(sep, rest);
    if i == 0 {
      SliceLeft(parts[0] + sep, Join(sep, rest), |parts[0]|, |parts[0]| + |sep|);
    } else {
      JoinSepAfter(sep, rest, i - 1);
      assert rest[i - 1] == parts[i];
      var o := PartOffset(sep, rest, i - 1) + |parts[i]|;
      assert PartOffset(sep, parts, i) + |parts[i]| == |parts[0]| + |sep| + o;
      SliceRight(parts[0] + sep, Join(sep, rest), o, o + |sep|);
    }
  }

  /** A string of whitespace strips to nothing. */
  lemma RStripAllSpace(y: string)
    requires AllSpace(y)
    ensures RStrip(y) == []
  {
  }

  /** `rstrip` leaves a head that ends in a non-space character alone and
      strips only what follows it. */
  lemma RStripAfter(a: string, y: string)
    requires |a| > 0 && !IsSpace(a[|a| - 1])
    ensures RStrip(a + y) == a + RStrip(y)
  {
    if AllSpace(y) {
      RStripAllSpace(y);
      RStripUnique(a, y);
      assert a + RStrip(y) == a;
    } else {
      RStripAppend(a, y);
    }
  }

  /** `rstrip` of a join reaches only into the last part when that part is
      not all whitespace. */
  lemma RStripJoin(sep: string, parts: seq<string>)
    requires |parts| > 0 && !AllSpace(parts[|parts| - 1])
    ensures RStrip(Join(sep, parts)) == Join(sep, parts[..|parts| - 1] + [RStrip(parts[|parts| - 1])])
  {
    var n := |parts|;
    var init := parts[..n - 1];
    var last := parts[n - 1];
    if n == 1 {
      assert init + [RStrip(last)] == [RStrip(last)];
    } else {
      assert parts == init + [last];
      JoinSnoc(sep, init, last);
      JoinSnoc(sep, init, RStrip(last));
      RStripAppend(Join(sep, init) + sep, last);
    }
  }

  /** A string contained in `b` is contained in `a + b`. */
  lemma ContainsInRight(a: string, b: string, w: string)
    requires Contains(b, w)
    ensures Contains(a + b, w)
  {
    var k :| 0 <= k <= |b| - |w| && w <= b[k..];
    assert (a + b)[|a| + k..] == b[k..];
  }

  /** A string contained in `a` is contained in `a + b`. */
  lemma ContainsInLeft(a: string, b: string, w: string)
    requires Contains(a, w)
    ensures Contains(a + b, w)
  {
    var k :| 0 <= k <= |a| - |w| && w <= a[k..];
    assert (a + b)[k..] == a[k..] + b;
  }

  /** A string contained in one part is contained in the join. */
  lemma {:induction false} ContainsInJoin(sep: string, parts: seq<string>, i: nat, w: string)
    requires i < |parts| && Contains(parts[i], w)
    ensures Contains(Join(sep, parts), w)
    decreases i
  {
    if |parts| > 1 {
      var rest := parts[1..];
      assert Join(sep, parts) == (parts[0] + sep) + Join(sep, rest);
      if i == 0 {
        ContainsInLeft(parts[0], sep, w);
        ContainsInLeft(parts[0] + sep, Join(sep, rest), w);
      } else {
        assert rest[i - 1] == parts[i];
        ContainsInJoin(sep, rest, i - 1, w);
        ContainsInRight(parts[0] + sep, Join(sep, rest), w);
      }
    }
  }

  /** `s.split(sep)`: the maximal separator-free pieces, in order, whose
      join is `s`; an empty `s` gives one empty piece. */
  function Split(s: string, sep: char): (r: seq<string>)
    ensures |r| >= 1
    ensures forall i :: 0 <= i < |r| ==> sep !in r[i]
    ensures Join([sep], r) == s
    decreases |s|
  {
    if |s| == 0 then [""]
    else
      var rest := Split(s[1..], sep);
      if s[0] == sep then
        assert [sep] + Join([sep], rest) == s;
        [""] + rest
      else
        var r := [[s[0]] + rest[0]] + rest[1..];
        assert r[1..] == rest[1..];
        assert Join([sep], r) == [s[0]] + Join([sep], rest);
        r
  }

  /** `s.split(sep)[-1]`: the part of `s` after its last separator (all
      of `s` if it has none). */
  function LastSegment(s: string, sep: char): (r: string)
    ensures sep !in r
    ensures |r| <= |s| && r == s[|s| - |r|..]
    ensures sep in s ==> |r| < |s| && s[|s| - |r| - 1] == sep
    ensures sep !in s ==> r == s
  {
    var parts := Split(s, sep);
    var last := parts[|parts| - 1];
    if |parts| == 1 then
      last
    else
      var front := parts[..|parts| - 1];
      assert parts == front + [last];
      JoinSnoc([sep], front, last);
      last
  }

  /** The segment after a hand-placed last separator is what `LastSegment` takes. */
  lemma LastSegmentOf(p: string, sep: char, n: string)
    requires sep !in n
    ensures LastSegment(p + [sep] + n, sep) == n
  {
    var s := p + [sep] + n;
    var r := LastSegment(s, sep);
    assert s[|p|] == sep;
    assert s[|s| - |n|..] == n;
  }
}
