/** The string operations the modelled code relies on: Python's `str.strip`,
    `str.startswith` and `str.replace(pat, "")`, JavaScript's `toLowerCase`
    on the characters that matter here, and decimal rendering of a number. */
module Text {

  /** Python's `str.isspace()` for a single character. */
  predicate IsSpace(c: char) {
    || c == ' '
    || '\t' <= c <= '\r'
    || '\U{1c}' <= c <= '\U{1f}'
    || c == '\U{85}' || c == '\U{a0}' || c == '\U{1680}'
    || '\U{2000}' <= c <= '\U{200a}'
    || c == '\U{2028}' || c == '\U{2029}' || c == '\U{202f}' || c == '\U{205f}' || c == '\U{3000}'
  }

  predicate AllSpace(s: string) {
    forall i :: 0 <= i < |s| ==> IsSpace(s[i])
  }

  /** Neither end of `s` is whitespace. */
  predicate Trimmed(s: string) {
    s == [] || (!IsSpace(s[0]) && !IsSpace(s[|s| - 1]))
  }

  /** Python's `s.startswith(prefix)`. */
  predicate StartsWith(s: string, prefix: string) {
    prefix <= s
  }

  /** Python's `s.lstrip()`: the longest suffix of `s` that does not start
      with whitespace; everything cut off is whitespace. */
  function TrimStart(s: string): (r: string)
    ensures |r| <= |s| && r == s[|s| - |r|..]
    ensures AllSpace(s[..|s| - |r|])
    ensures r == [] || !IsSpace(r[0])
  {
    if s != [] && IsSpace(s[0]) then
      var r := TrimStart(s[1..]);
      assert s[..|s| - |r|] == [s[0]] + s[1..][..|s| - 1 - |r|];
      r
    else
      s
  }

  /** Python's `s.rstrip()`: the longest prefix of `s` that does not end
      with whitespace; everything cut off is whitespace. */
  function TrimEnd(s: string): (r: string)
    ensures |r| <= |s| && r == s[..|r|]
    ensures AllSpace(s[|r|..])
    ensures r == [] || !IsSpace(r[|r| - 1])
  {
    if s != [] && IsSpace(s[|s| - 1]) then
      var r := TrimEnd(s[..|s| - 1]);
      assert s[|r|..] == s[..|s| - 1][|r|..] + [s[|s| - 1]];
      r
    else
      s
  }

  /** Python's `s.strip()`. The result has no whitespace at either end, is
      empty exactly when `s` is all whitespace, and is `s` itself when `s`
      already had none at its ends. */
  function Strip(s: string): (r: string)
    ensures Trimmed(r)
    ensures |r| <= |s|
    ensures r == [] <==> AllSpace(s)
    ensures Trimmed(s) ==> r == s
  {
    var t := TrimStart(s);
    var r := TrimEnd(t);
    assert r != [] ==> r[0] == t[0];
    assert t == [] || !IsSpace(s[|s| - |t|]);
    assert r == [] ==> s == s[..|s| - |t|] + t[|r|..];
    r
  }

  lemma StripIdempotent(s: string)
    ensures Strip(Strip(s)) == Strip(s)
  {
  }

  /** Leading whitespace in front of a non-space character is all that
      `lstrip` removes. */
  lemma {:induction false} TrimStartPast(w: string, m: string)
    requires AllSpace(w) && m != [] && !IsSpace(m[0])
    ensures TrimStart(w + m) == m
    decreases |w|
  {
    if w == [] {
      assert w + m == m;
    } else {
      assert (w + m)[1..] == w[1..] + m;
      TrimStartPast(w[1..], m);
    }
  }

  /** Trailing whitespace after a non-space character is all that `rstrip`
      removes. */
  lemma {:induction false} TrimEndPast(m: string, w: string)
    requires AllSpace(w) && m != [] && !IsSpace(m[|m| - 1])
    ensures TrimEnd(m + w) == m
    decreases |w|
  {
    if w == [] {
      assert m + w == m;
    } else {
      var s := m + w;
      assert s[..|s| - 1] == m + w[..|w| - 1];
      TrimEndPast(m, w[..|w| - 1]);
    }
  }

  /** `strip` recovers any text without whitespace at its ends from between
      whitespace. */
  lemma StripSurrounded(w1: string, m: string, w2: string)
    requires AllSpace(w1) && AllSpace(w2)
    requires m != [] && Trimmed(m)
    ensures Strip(w1 + m + w2) == m
  {
    assert w1 + m + w2 == w1 + (m + w2);
    TrimStartPast(w1, m + w2);
    TrimEndPast(m, w2);
  }

  /** Python's `s.replace(pat, "")`: every occurrence of `pat` found by a
      left-to-right scan is deleted; the result only loses characters.
      `RemoveAllAbsent`, `RemoveAllPrefix` and `RemoveAllKeepsPlain` below
      say which ones. */
  function RemoveAll(s: string, pat: string): (r: string)
    requires pat != []
    ensures |r| <= |s|
    ensures multiset(r) <= multiset(s)
    decreases |s|
  {
    if |s| < |pat| then
      s
    else if s[..|pat|] == pat then
      assert s == s[..|pat|] + s[|pat|..];
      RemoveAll(s[|pat|..], pat)
    else
      assert s == [s[0]] + s[1..];
      [s[0]] + RemoveAll(s[1..], pat)
  }

  /** `pat` occurs in `s` starting at position `i`. */
  predicate OccursAt(s: string, pat: string, i: int) {
    0 <= i && i + |pat| <= |s| && s[i..i + |pat|] == pat
  }

  /** Where `pat` does not occur, `s.replace(pat, "")` is `s` itself. */
  lemma {:induction false} RemoveAllAbsent(s: string, pat: string)
    requires pat != []
    requires forall i :: !OccursAt(s, pat, i)
    ensures RemoveAll(s, pat) == s
    decreases |s|
  {
    if |s| >= |pat| {
      assert !OccursAt(s, pat, 0);
      assert s[..|pat|] == s[0..0 + |pat|];
      forall i
        ensures !OccursAt(s[1..], pat, i)
      {
        if 0 <= i && i + |pat| <= |s| - 1 {
          assert s[1..][i..i + |pat|] == s[i + 1..i + 1 + |pat|];
          assert !OccursAt(s, pat, i + 1);
        }
      }
      RemoveAllAbsent(s[1..], pat);
      assert s == [s[0]] + s[1..];
    }
  }

  /** An occurrence of `pat` at the front is deleted, and the scan goes on
      right after it. */
  lemma RemoveAllPrefix(pat: string, s: string)
    requires pat != []
    ensures RemoveAll(pat + s, pat) == RemoveAll(s, pat)
  {
    assert (pat + s)[..|pat|] == pat;
    assert (pat + s)[|pat|..] == s;
  }

  /** Characters that cannot start `pat` pass through the scan unchanged. */
  lemma {:induction false} RemoveAllKeepsPlain(a: string, s: string, pat: string)
    requires pat != []
    requires forall i :: 0 <= i < |a| ==> a[i] != pat[0]
    ensures RemoveAll(a + s, pat) == a + RemoveAll(s, pat)
    decreases |a|
  {
    if a == [] {
      assert a + s == s;
    } else {
      var t := a + s;
      assert t[0] == a[0];
      if |t| < |pat| {
        assert RemoveAll(s, pat) == s;
      } else {
        assert t[..|pat|] != pat by { assert t[..|pat|][0] != pat[0]; }
        assert RemoveAll(t, pat) == [t[0]] + RemoveAll(t[1..], pat);
        assert t[1..] == a[1..] + s;
        RemoveAllKeepsPlain(a[1..], s, pat);
        assert a == [a[0]] + a[1..];
      }
    }
  }

  /** The closing marker of a Markdown code block. */
  const Fence: string := "```"

  /** A fence (three backticks) starts at position `i` of `s`. */
  predicate FenceAt(s: string, i: int) {
    0 <= i && i + 3 <= |s| && s[i] == '`' && s[i + 1] == '`' && s[i + 2] == '`'
  }

  predicate NoFence(s: string) {
    forall i | 0 <= i < |s| :: !FenceAt(s, i)
  }

  /** Deleting fences never touches a first character that is not a backtick. */
  lemma RemoveFencesKeepsHead(t: string)
    requires t != [] && t[0] != '`'
    ensures RemoveAll(t, Fence) != [] && RemoveAll(t, Fence)[0] == t[0]
  {
    if |t| >= 3 {
      assert t[..3][0] != Fence[0];
    }
  }

  /** When `s` does not open with a fence, neither does what the deletion
      of fences makes of it. */
  lemma NoFenceAtHead(s: string)
    requires |s| >= 3 && s[..3] != Fence
    ensures !FenceAt([s[0]] + RemoveAll(s[1..], Fence), 0)
  {
    var rest := RemoveAll(s[1..], Fence);
    var r := [s[0]] + rest;
    // the three characters starting at 0 are not all backticks
    assert s[..3] == [s[0], s[1], s[2]];
    assert !(s[0] == '`' && s[1] == '`' && s[2] == '`');
    if s[0] == '`' {
      if s[1] != '`' {
        RemoveFencesKeepsHead(s[1..]);
        assert r[1] != '`';
      } else {
        assert s[2] != '`';
        var t := s[1..];
        if |t| >= 3 {
          assert t[..3] != Fence by { assert t[..3][1] != Fence[1]; }
          RemoveFencesKeepsHead(t[1..]);
          assert rest == [t[0]] + RemoveAll(t[1..], Fence);
        }
        assert r[2] != '`';
      }
    }
  }

  /** `s.replace("```", "")` leaves no "```" behind. This is special to a
      pattern made of one repeated character: a backtick just before a
      deleted fence would itself have started an earlier fence, so the
      pieces that the deletion joins can never form a new one. */
  lemma {:induction false} RemoveFencesLeavesNone(s: string)
    ensures NoFence(RemoveAll(s, Fence))
    decreases |s|
  {
    if |s| < 3 {
    } else if s[..3] == Fence {
      RemoveFencesLeavesNone(s[3..]);
    } else {
      var rest := RemoveAll(s[1..], Fence);
      var r := [s[0]] + rest;
      assert RemoveAll(s, Fence) == r;
      RemoveFencesLeavesNone(s[1..]);
      NoFenceAtHead(s);
      forall i | 1 <= i < |r|
        ensures !FenceAt(r, i)
      {
        assert FenceAt(r, i) ==> FenceAt(rest, i - 1);
      }
    }
  }

  /** A slice of fence-free text is fence-free. */
  lemma NoFenceSlice(s: string, i: nat, j: nat)
    requires i <= j <= |s| && NoFence(s)
    ensures NoFence(s[i..j])
  {
    forall k | 0 <= k < j - i
      ensures !FenceAt(s[i..j], k)
    {
      if FenceAt(s[i..j], k) {
        assert FenceAt(s, i + k);
      }
    }
  }

  /** Stripping whitespace cannot create a fence. */
  lemma StripKeepsNoFence(s: string)
    requires NoFence(s)
    ensures NoFence(Strip(s))
  {
    var t := TrimStart(s);
    NoFenceSlice(s, |s| - |t|, |s|);
    assert s[|s| - |t|..|s|] == t;
    NoFenceSlice(t, 0, |TrimEnd(t)|);
  }

  /** JavaScript's `toLowerCase` on one character, for the ASCII letters. */
  function LowerChar(c: char): char {
    if 'A' <= c <= 'Z' then (c as int + 32) as char else c
  }

  /** JavaScript's `s.toLowerCase()` restricted to ASCII letters. */
  function Lower(s: string): (r: string)
    ensures |r| == |s|
    ensures forall i :: 0 <= i < |s| ==> r[i] == LowerChar(s[i])
  {
    seq(|s|, i requires 0 <= i < |s| => LowerChar(s[i]))
  }

  function Digit(d: nat): char
    requires d < 10
  {
    ('0' as int + d) as char
  }

  /** Python's `str(n)` for a natural number. */
  function DecimalText(n: nat): (r: string)
    ensures r != []
    ensures forall i :: 0 <= i < |r| ==> '0' <= r[i] <= '9'
  {
    if n < 10 then [Digit(n)] else DecimalText(n / 10) + [Digit(n % 10)]
  }
}
