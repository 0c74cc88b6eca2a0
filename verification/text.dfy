/** String helpers: Python's `str.strip()` and the substring relations the
    prompt properties are stated with. */
module Text {

  /** The characters for which Python's `str.isspace()` is true: the ASCII
      controls TAB to CR, the separators 0x1C to 0x1F, SPACE, NEL, NO-BREAK
      SPACE and the Unicode space separators. `str.strip()` with no argument
      removes exactly these. */
  predicate IsSpace(c: char)
  {
    || ('\t' <= c <= '\r')
    || ('\U{1C}' <= c <= '\U{1F}')
    || c == ' '
    || c == '\U{85}'
    || c == '\U{A0}'
    || c == '\U{1680}'
    || ('\U{2000}' <= c <= '\U{200A}')
    || c == '\U{2028}'
    || c == '\U{2029}'
    || c == '\U{202F}'
    || c == '\U{205F}'
    || c == '\U{3000}'
  }

  /** The end of the run of whitespace that starts at `i`. */
  function SpaceRunFrom(s: string, i: nat): (j: nat)
    requires i <= |s|
    ensures i <= j <= |s|
    ensures forall k :: i <= k < j ==> IsSpace(s[k])
    ensures j < |s| ==> !IsSpace(s[j])
    decreases |s| - i
  {
    if i < |s| && IsSpace(s[i]) then SpaceRunFrom(s, i + 1) else i
  }

  /** The start of the run of whitespace that ends at `j`, looking no
      further back than `lo`. */
  function SpaceRunBack(s: string, lo: nat, j: nat): (i: nat)
    requires lo <= j <= |s|
    ensures lo <= i <= j
    ensures forall k :: i <= k < j ==> IsSpace(s[k])
    ensures lo < i ==> !IsSpace(s[i - 1])
    decreases j - lo
  {
    if lo < j && IsSpace(s[j - 1]) then SpaceRunBack(s, lo, j - 1) else j
  }

  /** The border of `s` cut at `i`, keeping `r`: everything before `i` and
      after `r` is whitespace. */
  ghost predicate StripsAt(s: string, r: string, i: int)
  {
    && 0 <= i <= |s| - |r| && s[i..i + |r|] == r
    && (forall k :: 0 <= k < i ==> IsSpace(s[k]))
    && (forall k :: i + |r| <= k < |s| ==> IsSpace(s[k]))
  }

  /** `r` is what remains of `s` once its whitespace border is cut off: a
      contiguous piece of `s`, everything around it whitespace, and neither
      end of it whitespace. */
  ghost predicate IsStripOf(s: string, r: string)
  {
    && (r != [] ==> !IsSpace(r[0]) && !IsSpace(r[|r| - 1]))
    && exists i :: StripsAt(s, r, i)
  }

  /** Python's `str.strip()`: the leading whitespace is cut first, then the
      trailing whitespace of what is left. */
  function Strip(s: string): (r: string)
    ensures IsStripOf(s, r)
  {
    var i := SpaceRunFrom(s, 0);
    var j := SpaceRunBack(s, i, |s|);
    assert StripsAt(s, s[i..j], i);
    s[i..j]
  }

  lemma StripsAtUnique(s: string, r1: string, i1: int, r2: string, i2: int)
    requires StripsAt(s, r1, i1) && StripsAt(s, r2, i2)
    requires r1 != [] ==> !IsSpace(r1[0]) && !IsSpace(r1[|r1| - 1])
    requires r2 != [] ==> !IsSpace(r2[0]) && !IsSpace(r2[|r2| - 1])
    ensures r1 == r2
  {
    var e1, e2 := i1 + |r1|, i2 + |r2|;
    // A non-space end character of one piece cannot lie inside the
    // whitespace border of the other, so both pieces start and end at the
    // same places.
    if r1 != [] {
      assert s[i1] == r1[0] && s[e1 - 1] == r1[|r1| - 1];
    }
    if r2 != [] {
      assert s[i2] == r2[0] && s[e2 - 1] == r2[|r2| - 1];
    }
    if r1 != [] && r2 != [] {
      assert i1 == i2 && e1 == e2;
    }
  }

  /** The border-cutting description pins the stripped string down: no two
      different strings are both `s` stripped. */
  lemma StripOfUnique(s: string, r1: string, r2: string)
    requires IsStripOf(s, r1) && IsStripOf(s, r2)
    ensures r1 == r2
  {
    var i1 :| StripsAt(s, r1, i1);
    var i2 :| StripsAt(s, r2, i2);
    StripsAtUnique(s, r1, i1, r2, i2);
  }

  /** Stripping twice is stripping once. */
  lemma StripIdempotent(s: string)
    ensures Strip(Strip(s)) == Strip(s)
  {
    var r := Strip(s);
    assert StripsAt(r, r, 0);
    StripOfUnique(r, Strip(r), r);
  }

  /** `part` occurs in `s` as a contiguous piece. */
  ghost predicate Contains(s: string, part: string)
  {
    exists i :: 0 <= i <= |s| - |part| && part <= s[i..]
  }

  predicate IsSuffix(part: string, s: string)
  {
    |part| <= |s| && s[|s| - |part|..] == part
  }

  lemma ContainsMiddle(a: string, part: string, b: string)
    ensures Contains(a + part + b, part)
  {
    var s := a + part + b;
    assert part <= s[|a|..];
  }

  predicate StartsWith(s: string, prefix: string)
  {
    |prefix| <= |s| && s[..|prefix|] == prefix
  }

  lemma ContainsLeft(s: string, b: string, part: string)
    requires Contains(s, part)
    ensures Contains(s + b, part)
  {
    var i :| 0 <= i <= |s| - |part| && part <= s[i..];
    assert (s + b)[i..] == s[i..] + b;
  }

  lemma ContainsRight(a: string, s: string, part: string)
    requires Contains(s, part)
    ensures Contains(a + s, part)
  {
    var i :| 0 <= i <= |s| - |part| && part <= s[i..];
    assert (a + s)[|a| + i..] == s[i..];
  }

  lemma ContainsStart(s: string, prefix: string)
    requires StartsWith(s, prefix)
    ensures Contains(s, prefix)
  {
    assert s[0..] == s;
  }

  lemma ContainsEnd(a: string, part: string)
    ensures Contains(a + part, part)
  {
    assert part <= (a + part)[|a|..];
  }

}
