/**
 * The keyword normalisation of the webhook handler: Python's `str.strip()`
 * followed by `str.upper()`, restricted to ASCII.
 */
module Text {

  /** The ASCII characters Python's `str.isspace()` accepts (and `strip()` removes). */
  predicate IsSpace(c: char) {
    c == ' ' || 9 <= c as int <= 13 || 28 <= c as int <= 31
  }

  predicate AllSpace(s: string) {
    forall i :: 0 <= i < |s| ==> IsSpace(s[i])
  }

  /** `s` without its leading whitespace: the longest suffix of `s` that does not start with a space. */
  function TrimStart(s: string): (r: string)
    ensures |r| <= |s| && r == s[|s| - |r|..]
    ensures r == [] || !IsSpace(r[0])
    ensures AllSpace(s[..|s| - |r|])
  {
    if s != [] && IsSpace(s[0]) then
      var t := TrimStart(s[1..]);
      assert s[1..][..|s| - 1 - |t|] == s[1..|s| - |t|];
      assert s[..|s| - |t|] == [s[0]] + s[1..|s| - |t|];
      t
    else
      s
  }

  /** `s` without its trailing whitespace: the longest prefix of `s` that does not end with a space. */
  function TrimEnd(s: string): (r: string)
    ensures |r| <= |s| && r == s[..|r|]
    ensures r == [] || !IsSpace(r[|r| - 1])
    ensures AllSpace(s[|r|..])
  {
    if s != [] && IsSpace(s[|s| - 1]) then
      var t := TrimEnd(s[..|s| - 1]);
      assert s[..|s| - 1][|t|..] == s[|t|..|s| - 1];
      assert s[|t|..] == s[|t|..|s| - 1] + [s[|s| - 1]];
      t
    else
      s
  }

  /**
   * Python's `s.strip()` over ASCII: `s` with the whitespace at both ends
   * cut off (TrimIsSlice says which slice of `s` that is).
   */
  function Trim(s: string): (r: string)
    ensures |r| <= |s|
    ensures r == [] || (!IsSpace(r[0]) && !IsSpace(r[|r| - 1]))
  {
    TrimEnd(TrimStart(s))
  }

  /** What `Trim` keeps is one slice of `s`, and everything around it is whitespace. */
  lemma TrimIsSlice(s: string) returns (i: nat, j: nat)
    ensures i <= j <= |s| && Trim(s) == s[i..j]
    ensures AllSpace(s[..i]) && AllSpace(s[j..])
  {
    var t := TrimStart(s);
    var r := TrimEnd(t);
    i := |s| - |t|;
    j := i + |r|;
    assert r == s[i..j];
    assert s[j..] == t[|r|..];
  }

  /** Python's `upper()` on one ASCII character; every other character is left alone. */
  function UpperChar(c: char): char {
    if 'a' <= c <= 'z' then (c as int - 32) as char else c
  }

  /** Python's `s.upper()` over ASCII: every character upper-cased in place. */
  function ToUpper(s: string): (r: string)
    ensures |r| == |s|
    ensures forall i :: 0 <= i < |s| ==> r[i] == UpperChar(s[i])
  {
    seq(|s|, i requires 0 <= i < |s| => UpperChar(s[i]))
  }

  /** The lower-case form of an ASCII capital; every other character is left alone. */
  function LowerChar(c: char): char {
    if 'A' <= c <= 'Z' then (c as int + 32) as char else c
  }

  predicate NoLowerCase(k: string) {
    forall i :: 0 <= i < |k| ==> !('a' <= k[i] <= 'z')
  }

  /** `a` spells `k` letter by letter, each letter in either case. */
  predicate SameIgnoringCase(a: string, k: string) {
    |a| == |k| && forall i :: 0 <= i < |a| ==> a[i] == k[i] || a[i] == LowerChar(k[i])
  }

  /**
   * Comparing `upper()` of a text with a word that has no lower-case letter
   * is a case-insensitive comparison.
   */
  lemma UpperMatchIgnoresCase(a: string, k: string)
    requires NoLowerCase(k)
    ensures ToUpper(a) == k <==> SameIgnoringCase(a, k)
  {
  }

  /** A case variant of a word without whitespace at its ends has none either. */
  lemma CaseVariantUnpadded(w: string, k: string)
    requires SameIgnoringCase(w, k)
    requires k != [] && !IsSpace(k[0]) && !IsSpace(k[|k| - 1])
    ensures Trim(w) == w
  {
  }

  /**
   * A word `k` with no lower-case letter and no whitespace at its ends is
   * matched by `upper(strip(...))` of any case variant of it, however padded.
   */
  lemma MatchIgnoresCaseAndPadding(before: string, w: string, after: string, k: string)
    requires AllSpace(before) && AllSpace(after)
    requires SameIgnoringCase(w, k) && NoLowerCase(k)
    requires k != [] && !IsSpace(k[0]) && !IsSpace(k[|k| - 1])
    ensures ToUpper(Trim(before + w + after)) == k
  {
    CaseVariantUnpadded(w, k);
    TrimIgnoresPadding(before, w, after);
    UpperMatchIgnoresCase(w, k);
  }

  /** Upper-casing twice is upper-casing once. */
  lemma UpperIdempotent(s: string)
    ensures ToUpper(ToUpper(s)) == ToUpper(s)
  {
  }

  /** Leading whitespace does not survive `TrimStart`. */
  lemma {:induction false} TrimStartSkipsSpace(w: string, s: string)
    requires AllSpace(w)
    ensures TrimStart(w + s) == TrimStart(s)
  {
    if w == [] {
      assert w + s == s;
    } else {
      assert (w + s)[0] == w[0] && IsSpace(w[0]);
      assert (w + s)[1..] == w[1..] + s;
      TrimStartSkipsSpace(w[1..], s);
    }
  }

  /** Once a non-space is reached, `TrimStart` keeps everything after it. */
  lemma {:induction false} TrimStartAppend(s: string, t: string)
    requires TrimStart(s) != []
    ensures TrimStart(s + t) == TrimStart(s) + t
  {
    if s != [] && IsSpace(s[0]) {
      assert (s + t)[1..] == s[1..] + t;
      TrimStartAppend(s[1..], t);
    }
  }

  /** Trailing whitespace does not survive `TrimEnd`. */
  lemma {:induction false} TrimEndSkipsSpace(s: string, w: string)
    requires AllSpace(w)
    ensures TrimEnd(s + w) == TrimEnd(s)
  {
    if w == [] {
      assert s + w == s;
    } else {
      var n := |w| - 1;
      assert (s + w)[|s + w| - 1] == w[n] && IsSpace(w[n]);
      assert (s + w)[..|s + w| - 1] == s + w[..n];
      TrimEndSkipsSpace(s, w[..n]);
    }
  }

  /** Whitespace after `s` is cut off again once `s` has been trimmed at its start. */
  lemma TrimAppendedSpace(s: string, after: string)
    requires AllSpace(after)
    ensures TrimEnd(TrimStart(s + after)) == TrimEnd(TrimStart(s))
  {
    if TrimStart(s) == [] {
      assert AllSpace(s);
      TrimStartSkipsSpace(s, after);
      assert after + [] == after;
      TrimStartSkipsSpace(after, []);
    } else {
      TrimStartAppend(s, after);
      TrimEndSkipsSpace(TrimStart(s), after);
    }
  }

  /** Whitespace padding on either side does not change what `Trim` returns. */
  lemma TrimIgnoresPadding(before: string, s: string, after: string)
    requires AllSpace(before) && AllSpace(after)
    ensures Trim(before + s + after) == Trim(s)
  {
    calc {
      Trim(before + s + after);
    ==  { assert before + s + after == before + (s + after); }
      TrimEnd(TrimStart(before + (s + after)));
    ==  { TrimStartSkipsSpace(before, s + after); }
      TrimEnd(TrimStart(s + after));
    ==  { TrimAppendedSpace(s, after); }
      Trim(s);
    }
  }

  /** A string with no whitespace at either end is its own trimmed form. */
  lemma TrimKeepsUnpadded(s: string)
    requires s == [] || (!IsSpace(s[0]) && !IsSpace(s[|s| - 1]))
    ensures Trim(s) == s
  {
  }

  /** Trimming twice is trimming once. */
  lemma TrimIdempotent(s: string)
    ensures Trim(Trim(s)) == Trim(s)
  {
  }
}
