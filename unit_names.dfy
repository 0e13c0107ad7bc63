/** Normalisation of unit names before alias lookup: `unit.strip().lower()`.
    `strip` removes a fixed set of whitespace characters from both ends and
    `lower` folds the ASCII letters A-Z; every other character is unchanged. */
module UnitNames {

  /** The whitespace characters `str.strip()` removes (Python's ASCII and
      Latin-1 whitespace). */
  predicate IsSpace(c: char) {
    // '\t' '\n' '\v' '\f' '\r', the separators 0x1C-0x1F, ' ', NEL and NBSP
    || '\t' <= c <= '\r'
    || '\U{1C}' <= c <= ' '
    || c == '\U{85}'
    || c == '\U{A0}'
  }

  predicate AllSpace(s: string) {
    forall i :: 0 <= i < |s| ==> IsSpace(s[i])
  }

  predicate IsUpper(c: char) {
    'A' <= c <= 'Z'
  }

  /** One character of `str.lower()`. */
  function LowerChar(c: char): (r: char)
    ensures !IsUpper(r)
    ensures !IsUpper(c) ==> r == c
    ensures IsUpper(c) ==> 'a' <= r <= 'z' && r as int - 'a' as int == c as int - 'A' as int
    ensures IsSpace(r) <==> IsSpace(c)
  {
    if IsUpper(c) then (c as int - 'A' as int + 'a' as int) as char else c
  }

  /** `str.lower()` */
  function Lower(s: string): (r: string)
    ensures |r| == |s|
    ensures forall i :: 0 <= i < |s| ==> r[i] == LowerChar(s[i])
  {
    seq(|s|, i requires 0 <= i < |s| => LowerChar(s[i]))
  }

  /** `str.lstrip()`: the longest suffix of `s` that does not start with whitespace. */
  function StripLeft(s: string): (r: string)
    ensures |r| <= |s| && forall i :: 0 <= i < |r| ==> r[i] == s[|s| - |r| + i]
    ensures forall i :: 0 <= i < |s| - |r| ==> IsSpace(s[i])
    ensures |r| > 0 ==> !IsSpace(r[0])
  {
    if |s| > 0 && IsSpace(s[0]) then StripLeft(s[1..]) else s
  }

  /** `str.rstrip()`: the longest prefix of `s` that does not end with whitespace. */
  function StripRight(s: string): (r: string)
    ensures |r| <= |s| && forall i :: 0 <= i < |r| ==> r[i] == s[i]
    ensures forall i :: |r| <= i < |s| ==> IsSpace(s[i])
    ensures |r| > 0 ==> !IsSpace(r[|r| - 1])
  {
    if |s| > 0 && IsSpace(s[|s| - 1]) then StripRight(s[..|s| - 1]) else s
  }

  /** `str.strip()`: the part of `s` left between a whitespace-only prefix
      and a whitespace-only suffix, neither starting nor ending with whitespace. */
  function Strip(s: string): (r: string)
    ensures var k := |s| - |StripLeft(s)|;
      && k + |r| <= |s|
      && (forall i :: 0 <= i < k ==> IsSpace(s[i]))
      && (forall i :: 0 <= i < |r| ==> r[i] == s[k + i])
      && (forall i :: k + |r| <= i < |s| ==> IsSpace(s[i]))
    ensures |r| > 0 ==> !IsSpace(r[0]) && !IsSpace(r[|r| - 1])
  {
    StripTrailingSpace(s);
    StripRight(StripLeft(s))
  }

  /** What `rstrip` drops after `lstrip` is whitespace of the original string. */
  lemma StripTrailingSpace(s: string)
    ensures var k := |s| - |StripLeft(s)|;
      forall i :: k + |StripRight(StripLeft(s))| <= i < |s| ==> IsSpace(s[i])
  {
    var l := StripLeft(s);
    var k := |s| - |l|;
    var r := StripRight(l);
    forall i | k + |r| <= i < |s|
      ensures IsSpace(s[i])
    {
      assert s[i] == l[i - k];
    }
  }

  /** The key `_canon` looks up: `unit.strip().lower()`. It is never longer
      than the name and is always normal. */
  function Normalize(s: string): (r: string)
    ensures |r| <= |s|
    ensures IsNormal(r)
  {
    Lower(Strip(s))
  }

  /** A string that normalisation leaves alone: no ASCII capital letter
      and no whitespace at either end. */
  predicate IsNormal(s: string) {
    && (forall i :: 0 <= i < |s| ==> !IsUpper(s[i]))
    && (|s| > 0 ==> !IsSpace(s[0]) && !IsSpace(s[|s| - 1]))
  }

  /** `strip` leaves a string without whitespace at its ends unchanged. */
  lemma StripOfTrimmed(s: string)
    requires |s| > 0 ==> !IsSpace(s[0]) && !IsSpace(s[|s| - 1])
    ensures Strip(s) == s
  {
  }

  /** `lower` leaves a string without capital letters unchanged. */
  lemma LowerOfLower(s: string)
    requires forall i :: 0 <= i < |s| ==> !IsUpper(s[i])
    ensures Lower(s) == s
  {
    assert forall i :: 0 <= i < |s| ==> Lower(s)[i] == s[i];
  }

  /** Normalisation fixes exactly the normal strings. */
  lemma NormalizeFixesNormal(s: string)
    ensures Normalize(s) == s <==> IsNormal(s)
  {
    if IsNormal(s) {
      StripOfTrimmed(s);
      LowerOfLower(s);
    }
  }

  /** Normalising twice is normalising once. */
  lemma NormalizeIdempotent(s: string)
    ensures Normalize(Normalize(s)) == Normalize(s)
  {
    NormalizeFixesNormal(Normalize(s));
  }

  /** `lstrip` commutes with `lower`. */
  lemma {:induction false} LowerStripLeft(s: string)
    ensures Lower(StripLeft(s)) == StripLeft(Lower(s))
  {
    if |s| > 0 && IsSpace(s[0]) {
      assert Lower(s)[1..] == Lower(s[1..]);
      LowerStripLeft(s[1..]);
    }
  }

  /** `rstrip` commutes with `lower`. */
  lemma {:induction false} LowerStripRight(s: string)
    ensures Lower(StripRight(s)) == StripRight(Lower(s))
  {
    if |s| > 0 && IsSpace(s[|s| - 1]) {
      assert Lower(s)[..|s| - 1] == Lower(s[..|s| - 1]);
      LowerStripRight(s[..|s| - 1]);
    }
  }

  /** The order of `strip` and `lower` does not matter: the key looked up is
      also `unit.lower().strip()`. */
  lemma NormalizeIsStripOfLower(s: string)
    ensures Normalize(s) == Strip(Lower(s))
  {
    LowerStripLeft(s);
    LowerStripRight(StripLeft(s));
  }

  /** Lowering twice is lowering once. */
  lemma LowerIdempotent(s: string)
    ensures Lower(Lower(s)) == Lower(s)
  {
    LowerOfLower(Lower(s));
  }

  /** Spellings that differ only in the case of ASCII letters normalise alike. */
  lemma NormalizeIgnoresCase(a: string, b: string)
    requires Lower(a) == Lower(b)
    ensures Normalize(a) == Normalize(b)
  {
    NormalizeIsStripOfLower(a);
    NormalizeIsStripOfLower(b);
  }

  /** `lstrip` drops a leading whitespace character and carries on. */
  lemma StripLeftStep(s: string)
    requires |s| > 0 && IsSpace(s[0])
    ensures StripLeft(s) == StripLeft(s[1..])
  {
  }

  /** `lstrip` skips a whitespace prefix. */
  lemma {:induction false} StripLeftSkipsSpace(pre: string, t: string)
    requires AllSpace(pre)
    ensures StripLeft(pre + t) == StripLeft(t)
  {
    if pre == [] {
      assert pre + t == t;
    } else {
      var x := pre + t;
      assert x[0] == pre[0] && x[1..] == pre[1..] + t;
      StripLeftStep(x);
      StripLeftSkipsSpace(pre[1..], t);
    }
  }

  /** `rstrip` skips a whitespace suffix. */
  lemma {:induction false} StripRightSkipsSpace(t: string, post: string)
    requires AllSpace(post)
    ensures StripRight(t + post) == StripRight(t)
  {
    if post == [] {
      assert t + post == t;
    } else {
      var n := |post| - 1;
      assert (t + post)[..|t + post| - 1] == t + post[..n];
      StripRightSkipsSpace(t, post[..n]);
    }
  }

  /** `lstrip` of a string holding some non-whitespace stops inside it. */
  lemma {:induction false} StripLeftAppend(t: string, post: string)
    requires !AllSpace(t)
    ensures StripLeft(t + post) == StripLeft(t) + post
  {
    if IsSpace(t[0]) {
      assert (t + post)[1..] == t[1..] + post;
      StripLeftAppend(t[1..], post);
    }
  }

  /** `lstrip` of whitespace is empty. */
  lemma StripLeftOfSpace(t: string)
    requires AllSpace(t)
    ensures StripLeft(t) == []
  {
  }

  /** Surrounding whitespace does not change the normalised key. */
  lemma NormalizeIgnoresPadding(pre: string, s: string, post: string)
    requires AllSpace(pre) && AllSpace(post)
    ensures Normalize(pre + s + post) == Normalize(s)
  {
    assert pre + s + post == pre + (s + post);
    StripLeftSkipsSpace(pre, s + post);
    if AllSpace(s) {
      assert AllSpace(s + post);
      StripLeftOfSpace(s + post);
      StripLeftOfSpace(s);
    } else {
      StripLeftAppend(s, post);
      StripRightSkipsSpace(StripLeft(s), post);
    }
  }
}
