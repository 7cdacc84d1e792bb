/** The two string operations the bot applies to a trading symbol:
    Python's `str.strip()` (no argument) and `str.upper()`.  The functions
    are plain definitions; what they compute is stated by the lemmas below
    them. */
module Text {

  /** Python's `str.isspace()` for one character: the ASCII controls TAB..CR,
      the separators 0x1C..0x1F, the space, and the Unicode space characters. */
  predicate IsSpace(c: char) {
    || c == ' '
    || ('\t' <= c <= '\r')
    || ('\U{1C}' <= c <= '\U{1F}')
    || c == '\U{85}'
    || c == '\U{A0}'
    || c == '\U{1680}'
    || ('\U{2000}' <= c <= '\U{200A}')
    || c == '\U{2028}'
    || c == '\U{2029}'
    || c == '\U{202F}'
    || c == '\U{205F}'
    || c == '\U{3000}'
  }

  /** Every character of `t` is whitespace (vacuously true of the empty string). */
  predicate AllSpace(t: string) {
    forall i :: 0 <= i < |t| ==> IsSpace(t[i])
  }

  /** `r` neither starts nor ends with whitespace. */
  predicate Trimmed(r: string) {
    r == [] || (!IsSpace(r[0]) && !IsSpace(r[|r| - 1]))
  }

  /** No character of `s` is a lower-case ASCII letter. */
  predicate NoLowerAscii(s: string) {
    forall i :: 0 <= i < |s| ==> !('a' <= s[i] <= 'z')
  }

  /** `s` with its leading whitespace removed (Python `lstrip()`). */
  function TrimStart(s: string): string {
    if s != [] && IsSpace(s[0]) then TrimStart(s[1..]) else s
  }

  /** `s` with its trailing whitespace removed (Python `rstrip()`). */
  function TrimEnd(s: string): string {
    if s != [] && IsSpace(s[|s| - 1]) then TrimEnd(s[..|s| - 1]) else s
  }

  /** Python `s.strip()`: drop whitespace from both ends. */
  function Strip(s: string): string {
    TrimEnd(TrimStart(s))
  }

  /** Python `c.upper()` restricted to ASCII: 'a'..'z' become 'A'..'Z', any
      other character is left alone. */
  function UpperChar(c: char): char {
    if 'a' <= c <= 'z' then (c as int - 32) as char else c
  }

  /** Python `s.upper()` (ASCII letters only). */
  function Upper(s: string): string {
    if s == [] then [] else [UpperChar(s[0])] + Upper(s[1..])
  }

  /** `lstrip()` keeps a suffix of `s`, removes only whitespace, and leaves
      no whitespace at the front. */
  lemma {:induction false} TrimStartSpec(s: string)
    ensures |TrimStart(s)| <= |s| && TrimStart(s) == s[|s| - |TrimStart(s)|..]
    ensures AllSpace(s[..|s| - |TrimStart(s)|])
    ensures TrimStart(s) == [] || !IsSpace(TrimStart(s)[0])
    decreases |s|
  {
    if s != [] && IsSpace(s[0]) {
      TrimStartSpec(s[1..]);
      var r := TrimStart(s[1..]);
      var k := |s| - |r|;
      assert s[1..][k - 1..] == s[k..];
      var removed := s[1..][..k - 1];
      assert AllSpace(removed);
      forall i | 0 <= i < k
        ensures IsSpace(s[..k][i])
      {
        if i == 0 {
          assert s[..k][i] == s[0];
        } else {
          assert s[..k][i] == removed[i - 1];
          assert IsSpace(removed[i - 1]);
        }
      }
    }
  }

  /** `rstrip()` keeps a prefix of `s`, removes only whitespace, and leaves
      no whitespace at the end. */
  lemma {:induction false} TrimEndSpec(s: string)
    ensures |TrimEnd(s)| <= |s| && TrimEnd(s) == s[..|TrimEnd(s)|]
    ensures AllSpace(s[|TrimEnd(s)|..])
    ensures TrimEnd(s) == [] || !IsSpace(TrimEnd(s)[|TrimEnd(s)| - 1])
    decreases |s|
  {
    if s != [] && IsSpace(s[|s| - 1]) {
      var p := s[..|s| - 1];
      TrimEndSpec(p);
      var r := TrimEnd(p);
      assert p[..|r|] == s[..|r|];
      var tail := s[|r|..];
      forall j | 0 <= j < |tail|
        ensures IsSpace(tail[j])
      {
        if j < |tail| - 1 {
          assert tail[j] == p[|r|..][j];
        } else {
          assert tail[j] == s[|s| - 1];
        }
      }
    }
  }

  /** `strip()` keeps a piece of `s` that starts at `lo`, has only whitespace
      before and after it, and has no whitespace at either end. */
  lemma StripSpec(s: string) returns (lo: int)
    ensures 0 <= lo <= |s| - |Strip(s)| && Strip(s) == s[lo..lo + |Strip(s)|]
    ensures AllSpace(s[..lo]) && AllSpace(s[lo + |Strip(s)|..])
    ensures Trimmed(Strip(s))
  {
    var t := TrimStart(s);
    TrimStartSpec(s);
    TrimEndSpec(t);
    var r := TrimEnd(t);
    lo := |s| - |t|;
    assert r == t[..|r|];
    assert r == s[lo..lo + |r|];
    assert t[|r|..] == s[lo + |r|..];
    if r != [] {
      assert r[0] == t[0];
    }
  }

  /** Leading whitespace ending at `lo` means `lstrip()` keeps `s[lo..]`. */
  lemma {:induction false} TrimStartAt(s: string, lo: int)
    requires 0 <= lo <= |s| && AllSpace(s[..lo])
    requires lo == |s| || !IsSpace(s[lo])
    ensures TrimStart(s) == s[lo..]
    decreases lo
  {
    if lo > 0 {
      assert s[..lo][0] == s[0];
      assert s[1..][..lo - 1] == s[..lo][1..];
      TrimStartAt(s[1..], lo - 1);
      assert s[1..][lo - 1..] == s[lo..];
    }
  }

  /** Trailing whitespace starting at `hi` means `rstrip()` keeps `s[..hi]`. */
  lemma {:induction false} TrimEndAt(s: string, hi: int)
    requires 0 <= hi <= |s| && AllSpace(s[hi..])
    requires hi == 0 || !IsSpace(s[hi - 1])
    ensures TrimEnd(s) == s[..hi]
    decreases |s| - hi
  {
    if hi < |s| {
      assert s[hi..][|s| - 1 - hi] == s[|s| - 1];
      var p := s[..|s| - 1];
      assert p[hi..] == s[hi..][..|s| - 1 - hi];
      TrimEndAt(p, hi);
      assert p[..hi] == s[..hi];
    }
  }

  /** Two whitespace-only pieces make a whitespace-only whole. */
  lemma AllSpaceSplit(s: string, lo: int)
    requires 0 <= lo <= |s| && AllSpace(s[..lo]) && AllSpace(s[lo..])
    ensures AllSpace(s)
  {
    forall i | 0 <= i < |s|
      ensures IsSpace(s[i])
    {
      if i < lo {
        assert s[..lo][i] == s[i];
      } else {
        assert s[lo..][i - lo] == s[i];
      }
    }
  }

  /** A string is emptied by `strip()` exactly when it is all whitespace. */
  lemma StripEmptyIffAllSpace(s: string)
    ensures Strip(s) == [] <==> AllSpace(s)
  {
    if AllSpace(s) {
      assert s[..|s|] == s;
      TrimStartAt(s, |s|);
    }
    if Strip(s) == [] {
      var lo := StripSpec(s);
      AllSpaceSplit(s, lo);
    }
  }

  /** `Strip` is the only trimmed piece of `s` that has just whitespace around
      it: the surrounding-whitespace characterisation pins the result down. */
  lemma StripUnique(s: string, r: string, lo: int)
    requires 0 <= lo <= |s| - |r| && r == s[lo..lo + |r|]
    requires AllSpace(s[..lo]) && AllSpace(s[lo + |r|..])
    requires Trimmed(r)
    ensures Strip(s) == r
  {
    if r == [] {
      AllSpaceSplit(s, lo);
      StripEmptyIffAllSpace(s);
    } else {
      assert s[lo] == r[0];
      TrimStartAt(s, lo);
      var t := s[lo..];
      assert t[|r| - 1] == r[|r| - 1];
      assert t[|r|..] == s[lo + |r|..];
      TrimEndAt(t, |r|);
      assert t[..|r|] == r;
    }
  }

  /** A string without whitespace at either end is left alone by `strip()`;
      in particular stripping twice is stripping once. */
  lemma StripTrimmed(t: string)
    requires Trimmed(t)
    ensures Strip(t) == t
  {
    assert t[..0] == [] && t[0..0 + |t|] == t && t[0 + |t|..] == [];
    StripUnique(t, t, 0);
  }

  /** `upper()` keeps the length, maps each character by the ASCII rule, and
      leaves no lower-case ASCII letter. */
  lemma {:induction false} UpperSpec(s: string)
    ensures |Upper(s)| == |s|
    ensures forall i :: 0 <= i < |s| ==> Upper(s)[i] == UpperChar(s[i])
    ensures NoLowerAscii(Upper(s))
  {
    if s != [] {
      UpperSpec(s[1..]);
      var u := Upper(s);
      assert u == [UpperChar(s[0])] + Upper(s[1..]);
      forall i | 0 <= i < |s|
        ensures u[i] == UpperChar(s[i])
      {
        if i > 0 {
          assert u[i] == Upper(s[1..])[i - 1];
          assert s[1..][i - 1] == s[i];
        }
      }
    }
  }

  /** Upper-casing never turns whitespace into non-whitespace or back. */
  lemma UpperCharKeepsSpace(c: char)
    ensures IsSpace(UpperChar(c)) <==> IsSpace(c)
  {
  }

  /** Upper-casing a trimmed string keeps it trimmed. */
  lemma UpperKeepsTrimmed(r: string)
    requires Trimmed(r)
    ensures Trimmed(Upper(r))
  {
    UpperSpec(r);
    if r != [] {
      UpperCharKeepsSpace(r[0]);
      UpperCharKeepsSpace(r[|r| - 1]);
    }
  }

  /** Upper-casing twice is upper-casing once. */
  lemma UpperIdempotent(s: string)
    ensures Upper(Upper(s)) == Upper(s)
  {
    UpperSpec(s);
    UpperSpec(Upper(s));
  }
}
