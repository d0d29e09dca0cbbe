/** Python `str.startswith(p)` and `str.strip(c)` for a single character `c`. */
module PyStr {

  /** `s.startswith(p)` */
  predicate StartsWith(s: string, p: string) {
    |p| <= |s| && s[..|p|] == p
  }

  /** `r` occurs in `s` as a contiguous slice. */
  ghost predicate IsSlice(r: string, s: string) {
    exists i, j :: 0 <= i <= j <= |s| && r == s[i..j]
  }

  /** `s.lstrip(c)`: removes the maximal run of `c` at the front. */
  function StripLeft(s: string, c: char): (r: string)
    ensures |r| <= |s| && r == s[|s| - |r|..]
    ensures forall k :: 0 <= k < |s| - |r| ==> s[k] == c
    ensures r == [] || r[0] != c
  {
    if s != [] && s[0] == c then StripLeft(s[1..], c) else s
  }

  /** `s.rstrip(c)`: removes the maximal run of `c` at the back. */
  function StripRight(s: string, c: char): (r: string)
    ensures |r| <= |s| && r == s[..|r|]
    ensures forall k :: |r| <= k < |s| ==> s[k] == c
    ensures r == [] || r[|r| - 1] != c
  {
    if s != [] && s[|s| - 1] == c then StripRight(s[..|s| - 1], c) else s
  }

  /** `s.strip(c)`: removes the maximal runs of `c` from both ends. */
  function Strip(s: string, c: char): (r: string)
    ensures |r| <= |s|
    ensures r == [] || (r[0] != c && r[|r| - 1] != c)
  {
    StripRight(StripLeft(s, c), c)
  }

  /**
   * What `Strip` leaves is the slice `s[i..j]` and every character it removed is
   * `c`; with the ends of the result not being `c`, the removed runs are maximal.
   */
  lemma {:induction false} StripRemovesOnly(s: string, c: char) returns (i: int, j: int)
    ensures 0 <= i <= j <= |s| && Strip(s, c) == s[i..j]
    ensures forall k :: 0 <= k < i ==> s[k] == c
    ensures forall k :: j <= k < |s| ==> s[k] == c
  {
    var left := StripLeft(s, c);
    var r := StripRight(left, c);
    i := |s| - |left|;
    j := i + |r|;
    assert r == s[i..j];
    forall k | j <= k < |s| ensures s[k] == c {
      assert s[k] == left[k - i];
    }
  }

  /** Stripping a string that neither begins nor ends with `c` changes nothing. */
  lemma StripUntouched(s: string, c: char)
    requires s == [] || (s[0] != c && s[|s| - 1] != c)
    ensures Strip(s, c) == s
  {
  }

  lemma {:induction false} StripIsSlice(s: string, c: char)
    ensures IsSlice(Strip(s, c), s)
  {
    var left := StripLeft(s, c);
    assert Strip(s, c) == s[|s| - |left|..|s| - |left| + |Strip(s, c)|];
  }

  lemma {:induction false} SliceTransitive(a: string, b: string, c: string)
    requires IsSlice(a, b) && IsSlice(b, c)
    ensures IsSlice(a, c)
  {
    var i, j :| 0 <= i <= j <= |b| && a == b[i..j];
    var i', j' :| 0 <= i' <= j' <= |c| && b == c[i'..j'];
    forall k | 0 <= k < j - i ensures a[k] == c[i' + i + k] {
      assert a[k] == b[i + k];
    }
    assert a == c[i' + i..i' + j];
  }

  /**
   * Stripping `c` never removes a non-empty prefix `p` that does not contain `c`:
   * the front run is empty and the back run stops after `p`'s last character.
   */
  lemma {:induction false} StripKeepsPrefix(s: string, p: string, c: char)
    requires StartsWith(s, p) && p != []
    requires c !in p
    ensures StartsWith(Strip(s, c), p)
  {
    assert p[0] in p && p[|p| - 1] in p;
    assert s[0] == p[0];
    assert s[|p| - 1] == p[|p| - 1];
    assert StripLeft(s, c) == s;
    var r := StripRight(s, c);
    assert |r| >= |p|;
    assert r[..|p|] == s[..|p|];
  }
}
