/**
 * The JavaScript string operations the core relies on: `trim`, `toLowerCase`,
 * `includes`, `startsWith`/`endsWith` and `slice(-n)`, over `seq<char>`.
 */
module Strings {

  /**
   * The code points ECMAScript's `String.prototype.trim` removes: WhiteSpace
   * (tab, vertical tab, form feed, space, no-break space, byte-order mark and
   * the Unicode space separators) and LineTerminator (LF, CR, U+2028, U+2029).
   */
  predicate IsSpace(c: char)
  {
    || c == '\t' || c == '\n' || c == '\U{B}' || c == '\U{C}' || c == '\r'
    || c == ' ' || c == '\U{A0}' || c == '\U{1680}'
    || ('\U{2000}' <= c <= '\U{200A}')
    || c == '\U{2028}' || c == '\U{2029}' || c == '\U{202F}' || c == '\U{205F}'
    || c == '\U{3000}' || c == '\U{FEFF}'
  }

  /** The length of the leading run of whitespace. */
  function LeadingSpaces(s: string): (n: nat)
    ensures n <= |s|
    ensures forall k :: 0 <= k < n ==> IsSpace(s[k])
    ensures n < |s| ==> !IsSpace(s[n])
  {
    if s != [] && IsSpace(s[0]) then 1 + LeadingSpaces(s[1..]) else 0
  }

  /** The length of the trailing run of whitespace. */
  function TrailingSpaces(s: string): (n: nat)
    ensures n <= |s|
    ensures forall k :: |s| - n <= k < |s| ==> IsSpace(s[k])
    ensures n < |s| ==> !IsSpace(s[|s| - n - 1])
  {
    if s != [] && IsSpace(s[|s| - 1]) then 1 + TrailingSpaces(s[..|s| - 1]) else 0
  }

  /** The leading run is the only prefix of whitespace followed by a non-space or the end. */
  lemma LeadingSpacesUnique(s: string, n: nat)
    requires n <= |s|
    requires forall k :: 0 <= k < n ==> IsSpace(s[k])
    requires n < |s| ==> !IsSpace(s[n])
    ensures LeadingSpaces(s) == n
  {
  }

  /** Drops the leading run of whitespace. */
  function TrimStart(s: string): (r: string)
    ensures |r| <= |s| && r == s[|s| - |r|..]
    ensures forall k :: 0 <= k < |s| - |r| ==> IsSpace(s[k])
    ensures r != [] ==> !IsSpace(r[0])
  {
    s[LeadingSpaces(s)..]
  }

  /** Drops the trailing run of whitespace. */
  function TrimEnd(s: string): (r: string)
    ensures |r| <= |s| && r == s[..|r|]
    ensures forall k :: |r| <= k < |s| ==> IsSpace(s[k])
    ensures r != [] ==> !IsSpace(r[|r| - 1])
  {
    s[..|s| - TrailingSpaces(s)]
  }

  /** `s.trim()`. */
  function Trim(s: string): string
  {
    TrimEnd(TrimStart(s))
  }

  /**
   * What `trim` returns, independently of how it is computed: the part of `s`
   * between its leading and its trailing whitespace, which starts and ends with
   * a non-whitespace character unless it is empty.
   */
  lemma TrimIsCore(s: string)
    ensures var start := |s| - |TrimStart(s)|;
      && start + |Trim(s)| <= |s|
      && Trim(s) == s[start..start + |Trim(s)|]
      && (forall k :: 0 <= k < start ==> IsSpace(s[k]))
      && (forall k :: start + |Trim(s)| <= k < |s| ==> IsSpace(s[k]))
      && (Trim(s) != [] ==> !IsSpace(Trim(s)[0]) && !IsSpace(Trim(s)[|Trim(s)| - 1]))
  {
    var t := TrimStart(s);
    var start := |s| - |t|;
    var r := TrimEnd(t);
    assert r == s[start..start + |r|];
    forall k | start + |r| <= k < |s|
      ensures IsSpace(s[k])
    {
      assert s[k] == t[k - start];
    }
    if r != [] {
      assert r[0] == t[0];
    }
  }

  /** A string trims to nothing exactly when it is all whitespace (`!query.trim()`). */
  lemma TrimEmptyIffBlank(s: string)
    ensures Trim(s) == [] <==> forall k :: 0 <= k < |s| ==> IsSpace(s[k])
  {
    TrimIsCore(s);
  }

  /** Trimming twice is trimming once. */
  lemma TrimIdempotent(s: string)
    ensures Trim(Trim(s)) == Trim(s)
  {
    var r := Trim(s);
    TrimIsCore(s);
    LeadingSpacesUnique(r, 0);
    assert TrimStart(r) == r;
    assert TrimEnd(r) == r;
  }

  /** When `s` is all whitespace, the leading run of `s + t` runs on into `t`. */
  lemma LeadingSpacesThrough(s: string, t: string)
    requires LeadingSpaces(s) == |s|
    ensures LeadingSpaces(s + t) == |s| + LeadingSpaces(t)
  {
    var st := s + t;
    var m := LeadingSpaces(t);
    forall k | 0 <= k < |s| + m
      ensures IsSpace(st[k])
    {
      if k < |s| {
        assert st[k] == s[k];
      } else {
        assert st[k] == t[k - |s|];
      }
    }
    if |s| + m < |st| {
      assert st[|s| + m] == t[m];
    }
    LeadingSpacesUnique(st, |s| + m);
  }

  /** When `s` has a non-space, the leading run of `s + t` stops inside `s`. */
  lemma LeadingSpacesWithin(s: string, t: string)
    requires LeadingSpaces(s) < |s|
    ensures LeadingSpaces(s + t) == LeadingSpaces(s)
  {
    var st := s + t;
    var n := LeadingSpaces(s);
    forall k | 0 <= k < n
      ensures IsSpace(st[k])
    {
      assert st[k] == s[k];
    }
    assert st[n] == s[n];
    LeadingSpacesUnique(st, n);
  }

  /** `TrimStart` on a concatenation: `t` is reached only when `s` is all whitespace. */
  lemma TrimStartAppend(s: string, t: string)
    ensures TrimStart(s + t) == if TrimStart(s) == [] then TrimStart(t) else TrimStart(s) + t
  {
    var n := LeadingSpaces(s);
    if n == |s| {
      LeadingSpacesThrough(s, t);
      assert (s + t)[|s| + LeadingSpaces(t)..] == t[LeadingSpaces(t)..];
    } else {
      LeadingSpacesWithin(s, t);
      assert (s + t)[n..] == s[n..] + t;
    }
  }

  /** A whitespace character in front of a string does not change what it trims to. */
  lemma TrimSpacePrefix(c: char, s: string)
    requires IsSpace(c)
    ensures Trim([c] + s) == Trim(s)
  {
    assert ([c] + s)[1..] == s;
  }

  /** A whitespace character after a string does not change what it trims to. */
  lemma TrimSpaceSuffix(s: string, c: char)
    requires IsSpace(c)
    ensures Trim(s + [c]) == Trim(s)
  {
    TrimStartAppend(s, [c]);
    if TrimStart(s) != [] {
      var t := TrimStart(s) + [c];
      assert t[..|t| - 1] == TrimStart(s);
    }
  }

  /** JavaScript's `toLowerCase` on one character, restricted to the ASCII letters. */
  function LowerChar(c: char): char
  {
    if 'A' <= c <= 'Z' then (c as int - 'A' as int + 'a' as int) as char else c
  }

  /** `s.toLowerCase()`, restricted to the ASCII letters. */
  function Lower(s: string): string
  {
    seq(|s|, i requires 0 <= i < |s| => LowerChar(s[i]))
  }

  /** `s.startsWith(prefix)`. */
  predicate StartsWith(s: string, prefix: string)
  {
    |prefix| <= |s| && s[..|prefix|] == prefix
  }

  /** `s.endsWith(suffix)`. */
  predicate EndsWith(s: string, suffix: string)
  {
    |suffix| <= |s| && s[|s| - |suffix|..] == suffix
  }

  /** `s.includes(k)`: `k` starts at the front of `s` or somewhere later. */
  predicate Contains(s: string, k: string)
    decreases |s|
  {
    StartsWith(s, k) || (s != [] && Contains(s[1..], k))
  }

  /** `k` occurs in `s` starting at position `i`. */
  predicate OccursAt(s: string, k: string, i: int)
  {
    0 <= i && i + |k| <= |s| && s[i..i + |k|] == k
  }

  /** `Contains` agrees with the positional reading of `includes`. */
  lemma {:induction false} ContainsIffOccurs(s: string, k: string)
    ensures Contains(s, k) <==> exists i :: OccursAt(s, k, i)
  {
    if StartsWith(s, k) {
      assert OccursAt(s, k, 0);
    } else if s != [] {
      ContainsIffOccurs(s[1..], k);
      if exists i :: OccursAt(s[1..], k, i) {
        var i :| OccursAt(s[1..], k, i);
        assert s[1..][i..i + |k|] == s[i + 1..i + 1 + |k|];
        assert OccursAt(s, k, i + 1);
      }
      forall i | OccursAt(s, k, i) && i > 0
        ensures OccursAt(s[1..], k, i - 1)
      {
        assert s[1..][i - 1..i - 1 + |k|] == s[i..i + |k|];
      }
      assert !OccursAt(s, k, 0);
    }
  }

  /** Every string contains the empty string, as `"abc".includes("")` is true. */
  lemma ContainsEmpty(s: string)
    ensures Contains(s, [])
  {
  }

  /** `s.slice(-n)`: the last `n` characters, or all of `s` when it is shorter. */
  function LastChars(s: string, n: nat): (r: string)
  {
    if |s| <= n then s else s[|s| - n..]
  }
}
