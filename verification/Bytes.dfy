/**
 * Byte strings, one `char` a byte, and std::string::find: the first occurrence, and what becomes of it when bytes
 * are added in front or behind.
 */
module Bytes {

  /** `pat` occurs in `s` at index `k`. */
  predicate At(s: string, pat: string, k: nat) {
    k + |pat| <= |s| && s[k..k + |pat|] == pat
  }

  /** std::string::find: the first occurrence at or after `from`, -1 for npos. */
  function Find(s: string, pat: string, from: nat): (r: int)
    ensures r >= -1
    ensures r >= 0 ==> from <= r && r + |pat| <= |s|
    decreases |s| - from
  {
    if from + |pat| > |s| then -1
    else if s[from..from + |pat|] == pat then from
    else Find(s, pat, from + 1)
  }

  /** It is an occurrence, and the first; without an answer there is none. */
  lemma {:induction false} FindFirst(s: string, pat: string, from: nat)
    ensures && (Find(s, pat, from) >= 0 ==> At(s, pat, Find(s, pat, from)))
            && (forall k :: from <= k && (Find(s, pat, from) < 0 || k < Find(s, pat, from)) ==> !At(s, pat, k))
    decreases |s| - from
  {
    if from + |pat| <= |s| && s[from..from + |pat|] != pat {
      FindFirst(s, pat, from + 1);
    }
  }

  /** Only the first occurrence meets the contract of Find. */
  lemma FindIs(s: string, pat: string, from: nat, r: nat)
    requires from <= r && At(s, pat, r) && forall k :: from <= k < r ==> !At(s, pat, k)
    ensures Find(s, pat, from) == r
  {
    FindFirst(s, pat, from);
  }

  /** Occurrences already found stay first when more bytes arrive. */
  lemma FindAppend(x: string, y: string, pat: string, from: nat)
    requires Find(x, pat, from) >= 0
    ensures Find(x + y, pat, from) == Find(x, pat, from)
  {
    var r := Find(x, pat, from);
    FindFirst(x, pat, from);
    forall k | from <= k <= r
      ensures At(x + y, pat, k) == At(x, pat, k)
    {
      assert k + |pat| <= |x|;
      assert (x + y)[k..k + |pat|] == x[k..k + |pat|];
    }
    FindIs(x + y, pat, from, r);
  }

  /** A stretch without occurrences can be skipped. */
  lemma FindSkip(s: string, pat: string, to: nat)
    requires forall k :: 0 <= k < to ==> !At(s, pat, k)
    ensures Find(s, pat, 0) == Find(s, pat, to)
  {
    FindFirst(s, pat, 0);
    FindFirst(s, pat, to);
  }

  /** Searching past a prefix is searching what follows it. */
  lemma FindShift(p: string, s: string, pat: string, from: nat)
    ensures Find(p + s, pat, |p| + from) ==
            (if Find(s, pat, from) < 0 then -1 else |p| + Find(s, pat, from))
  {
    FindFirst(s, pat, from);
    FindFirst(p + s, pat, |p| + from);
    forall k: nat | k >= |p|
      ensures At(p + s, pat, k) == At(s, pat, k - |p|)
    {
      if k + |pat| <= |p + s| {
        assert (p + s)[k..k + |pat|] == s[k - |p|..k - |p| + |pat|];
      }
    }
    if Find(s, pat, from) >= 0 {
      assert At(p + s, pat, |p| + Find(s, pat, from));
    }
  }

  /** `pat` does not occur anywhere in `x`, so in `x + y` it can only reach beyond `x`. */
  lemma FindLate(x: string, y: string, pat: string, cut: nat)
    requires Find(x, pat, 0) < 0
    requires cut + |pat| <= |x| + 1
    ensures Find(x + y, pat, 0) == Find(x + y, pat, cut)
  {
    FindFirst(x, pat, 0);
    forall k: nat | k < cut
      ensures !At(x + y, pat, k)
    {
      assert (x + y)[k..k + |pat|] == x[k..k + |pat|];
      assert !At(x, pat, k);
    }
    FindSkip(x + y, pat, cut);
  }

  lemma FirstByte(s: string, pat: string, k: nat)
    requires pat != ""
    ensures At(s, pat, k) ==> k < |s| && s[k] == pat[0]
  {
    if At(s, pat, k) {
      assert s[k] == s[k..k + |pat|][0];
    }
  }

  /** A concatenation occurs where its parts occur one after the other. */
  lemma AtConcat(s: string, a: string, b: string, k: nat)
    ensures At(s, a + b, k) <==> At(s, a, k) && At(s, b, k + |a|)
  {
    if k + |a| + |b| <= |s| {
      assert s[k..k + |a| + |b|] == s[k..k + |a|] + s[k + |a|..k + |a| + |b|];
      assert (a + b)[..|a|] == a && (a + b)[|a|..] == b;
      var u := s[k..k + |a| + |b|];
      assert u[..|a|] == s[k..k + |a|] && u[|a|..] == s[k + |a|..k + |a| + |b|];
    }
  }

  /** std::string::find of a single byte. */
  function FindByte(s: string, c: char, from: nat): (r: int)
    ensures && -1 <= r < |s|
            && (r >= 0 ==> from <= r && s[r] == c && forall k :: from <= k < r ==> s[k] != c)
            && (r == -1 ==> forall k :: from <= k < |s| ==> s[k] != c)
    decreases |s| - from
  {
    if from >= |s| then -1
    else if s[from] == c then from
    else FindByte(s, c, from + 1)
  }

  lemma FindByteAppend(x: string, y: string, c: char, from: nat)
    requires FindByte(x, c, from) >= 0
    ensures FindByte(x + y, c, from) == FindByte(x, c, from)
  {
    var z := x + y;
    assert forall k :: 0 <= k < |x| ==> z[k] == x[k];
    var r, q := FindByte(x, c, from), FindByte(z, c, from);
    assert z[r] == c;
    assert q == r;
  }
}
