/**
 * The few Python string operations the graph view applies to a timestamp:
 * `str.strip()`, `str.split('.')[0]` and `str.rstrip('Z')`. Each cuts a run of
 * characters off one end, so all three are built on the length of the run of
 * characters with some property at the front or at the back of a string.
 */
module PyStrings {

  /** `str.isspace()` of one character: the characters Python's `strip()` removes. */
  predicate IsSpace(c: char)
  {
    c == ' ' || ('\t' <= c <= '\r') || ('\U{1C}' <= c <= '\U{1F}') || c == '\U{85}' || c == '\U{A0}'
    || c == '\U{1680}' || ('\U{2000}' <= c <= '\U{200A}') || c == '\U{2028}' || c == '\U{2029}'
    || c == '\U{202F}' || c == '\U{205F}' || c == '\U{3000}'
  }

  predicate IsZ(c: char)
  {
    c == 'Z'
  }

  predicate NotDot(c: char)
  {
    c != '.'
  }

  /** The length of the longest prefix of `s` whose characters all satisfy `p`. */
  function RunAtFront(s: string, p: char -> bool): (n: nat)
    ensures n <= |s|
    ensures forall i :: 0 <= i < n ==> p(s[i])
    ensures n < |s| ==> !p(s[n])
  {
    if s == [] || !p(s[0]) then 0 else 1 + RunAtFront(s[1..], p)
  }

  /** The length of the longest suffix of `s` whose characters all satisfy `p`. */
  function RunAtBack(s: string, p: char -> bool): (n: nat)
    ensures n <= |s|
    ensures forall i :: |s| - n <= i < |s| ==> p(s[i])
    ensures n < |s| ==> !p(s[|s| - n - 1])
  {
    if s == [] || !p(s[|s| - 1]) then 0 else 1 + RunAtBack(s[..|s| - 1], p)
  }

  /** `s.strip()`: whitespace removed from both ends. */
  function Strip(s: string): (r: string)
    ensures r == [] || (!IsSpace(r[0]) && !IsSpace(r[|r| - 1]))
    ensures var k := RunAtFront(s, IsSpace);
      k + |r| <= |s| && r == s[k..k + |r|] && forall i :: k + |r| <= i < |s| ==> IsSpace(s[i])
  {
    var front := RunAtFront(s, IsSpace);
    var rest := s[front..];
    var r := rest[..|rest| - RunAtBack(rest, IsSpace)];
    assert s[front..front + |r|] == r;
    r
  }

  /** `s.split('.')[0]`: everything before the first dot, the whole string when there is none. */
  function BeforeDot(s: string): (r: string)
    ensures '.' !in r
    ensures r <= s
    ensures |r| < |s| ==> s[|r|] == '.'
  {
    var r := s[..RunAtFront(s, NotDot)];
    assert forall c | c in r :: NotDot(c);
    r
  }

  /** `s.rstrip('Z')`: every trailing 'Z' removed. */
  function TrimZ(s: string): (r: string)
    ensures r <= s
    ensures r == [] || r[|r| - 1] != 'Z'
    ensures forall i :: |r| <= i < |s| ==> s[i] == 'Z'
  {
    s[..|s| - RunAtBack(s, IsZ)]
  }

  /** The string handed to `fromisoformat`: cut at the first dot, then trailing 'Z's dropped. */
  function IsoCandidate(s: string): (r: string)
    ensures '.' !in r
    ensures r == [] || r[|r| - 1] != 'Z'
    ensures r <= BeforeDot(s) && forall i :: |r| <= i < |BeforeDot(s)| ==> BeforeDot(s)[i] == 'Z'
    ensures r <= s
  {
    var cut := BeforeDot(s);
    var r := TrimZ(cut);
    assert forall c | c in r :: c in cut by {
      forall c | c in r ensures c in cut {
        var i :| 0 <= i < |r| && r[i] == c;
        assert cut[i] == c;
      }
    }
    r
  }

  /** A string already free of dots and of a trailing 'Z' is its own ISO candidate. */
  lemma {:induction false} IsoCandidateKeepsClean(s: string)
    requires '.' !in s
    requires s == [] || s[|s| - 1] != 'Z'
    ensures IsoCandidate(s) == s
  {
    assert forall i :: 0 <= i < |s| ==> NotDot(s[i]);
    assert BeforeDot(s) == s;
    assert RunAtBack(s, IsZ) == 0;
  }

  /** Cutting is idempotent: a second cut changes nothing. */
  lemma IsoCandidateIdempotent(s: string)
    ensures IsoCandidate(IsoCandidate(s)) == IsoCandidate(s)
  {
    IsoCandidateKeepsClean(IsoCandidate(s));
  }

  /** Stripping is idempotent: the text `strptime` sees has no whitespace left at either end. */
  lemma {:induction false} StripIdempotent(s: string)
    ensures Strip(Strip(s)) == Strip(s)
  {
    var r := Strip(s);
    if r != [] {
      assert RunAtFront(r, IsSpace) == 0;
      assert RunAtBack(r, IsSpace) == 0;
      assert r[0..][..|r| - 0] == r;
    }
  }
}
