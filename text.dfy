/** The few JavaScript string operations the core relies on, restricted to ASCII:
    `trim`, `toLowerCase`, `toUpperCase`, `includes`, `substring`, `join` and the
    decimal rendering of an integer inside a template literal. */
module Text {
  import opened Wrappers

  /** The ASCII part of the white space that `String.prototype.trim` removes. */
  predicate IsSpace(c: char) {
    c == ' ' || c == '\t' || c == '\n' || c == '\r' || c == '\U{0B}' || c == '\U{0C}'
  }

  function TrimStart(s: string): (r: string)
    ensures |r| <= |s| && r == s[|s| - |r|..]
    ensures r != [] ==> !IsSpace(r[0])
    ensures IsBlank(s[..|s| - |r|])
  {
    if |s| > 0 && IsSpace(s[0]) then
      var r := TrimStart(s[1..]);
      assert s[..|s| - |r|] == [s[0]] + s[1..][..|s| - 1 - |r|];
      r
    else s
  }

  function TrimEnd(s: string): (r: string)
    ensures |r| <= |s| && r == s[..|r|]
    ensures r != [] ==> !IsSpace(r[|r| - 1])
  {
    if |s| > 0 && IsSpace(s[|s| - 1]) then TrimEnd(s[..|s| - 1]) else s
  }

  /** `s.trim()` */
  function Trim(s: string): string {
    TrimEnd(TrimStart(s))
  }

  /** `s.trim().length === 0`, equivalently `!s.trim()`: every character is
      white space (`TrimmedEmptyIffBlank` connects the two readings). */
  predicate IsBlank(s: string) {
    forall i :: 0 <= i < |s| ==> IsSpace(s[i])
  }

  lemma {:induction false} TrimStartEmptyIff(s: string)
    ensures TrimStart(s) == [] <==> IsBlank(s)
  {
    if |s| > 0 && IsSpace(s[0]) {
      TrimStartEmptyIff(s[1..]);
      BlankAfterSpace(s);
    } else if |s| > 0 {
      assert TrimStart(s) == s;
      assert !IsSpace(s[0]);
    }
  }

  /** A string that starts with white space is blank exactly when its tail is. */
  lemma BlankAfterSpace(s: string)
    requires |s| > 0 && IsSpace(s[0])
    ensures IsBlank(s) <==> IsBlank(s[1..])
  {
    var t := s[1..];
    if IsBlank(s) {
      forall i | 0 <= i < |t| ensures IsSpace(t[i]) {
        assert t[i] == s[i + 1];
      }
    }
    if IsBlank(t) {
      forall i | 0 <= i < |s| ensures IsSpace(s[i]) {
        if i > 0 { assert s[i] == t[i - 1]; }
      }
    }
  }

  /** A string trims to nothing exactly when every character of it is white
      space. */
  lemma TrimmedEmptyIffBlank(s: string)
    ensures Trim(s) == [] <==> IsBlank(s)
  {
    TrimStartEmptyIff(s);
    var t := TrimStart(s);
    if t != [] {
      assert TrimEnd(t) != [] by {
        if TrimEnd(t) == [] {
          assert !IsSpace(t[0]);
          TrimEndKeepsNonSpaceHead(t);
        }
      }
    }
  }

  lemma {:induction false} TrimEndKeepsNonSpaceHead(t: string)
    requires t != [] && !IsSpace(t[0])
    ensures TrimEnd(t) != []
  {
    if |t| > 1 && IsSpace(t[|t| - 1]) {
      TrimEndKeepsNonSpaceHead(t[..|t| - 1]);
    }
  }

  /** Trimming a trimmed string changes nothing. */
  lemma TrimIdempotent(s: string)
    ensures Trim(Trim(s)) == Trim(s)
    ensures |Trim(s)| <= |s|
    ensures IsBlank(Trim(s)) <==> IsBlank(s)
  {
    TrimTwice(s);
    TrimmedEmptyIffBlank(s);
    TrimmedEmptyIffBlank(Trim(s));
  }

  lemma TrimTwice(s: string)
    ensures Trim(Trim(s)) == Trim(s)
  {
    var t := TrimStart(s);
    var r := TrimEnd(t);
    if r != [] {
      assert r[0] == t[0];
      assert TrimStart(r) == r;
      assert TrimEnd(r) == r;
    } else {
      assert TrimStart(r) == [];
    }
  }


  function LowerChar(c: char): char {
    if 'A' <= c <= 'Z' then (c as int + 32) as char else c
  }

  function UpperChar(c: char): char {
    if 'a' <= c <= 'z' then (c as int - 32) as char else c
  }

  /** `s.toLowerCase()` */
  function Lower(s: string): (r: string)
    ensures |r| == |s|
    ensures forall i :: 0 <= i < |s| ==> r[i] == LowerChar(s[i])
  {
    seq(|s|, i requires 0 <= i < |s| => LowerChar(s[i]))
  }

  /** `s.includes(sub)` */
  predicate Contains(s: string, sub: string)
    decreases |s|
  {
    |sub| <= |s| && (s[..|sub|] == sub || (|s| > 0 && Contains(s[1..], sub)))
  }

  /** An occurrence at any position is found by `includes`. */
  lemma {:induction false} ContainsAt(s: string, sub: string, i: nat)
    requires i + |sub| <= |s| && s[i..i + |sub|] == sub
    ensures Contains(s, sub)
    decreases i
  {
    if i > 0 {
      assert s[1..][i - 1..i - 1 + |sub|] == s[i..i + |sub|];
      ContainsAt(s[1..], sub, i - 1);
    }
  }

  /** Whatever `includes` finds occurs at some position. */
  lemma {:induction false} ContainsHasPosition(s: string, sub: string) returns (i: nat)
    requires Contains(s, sub)
    ensures i + |sub| <= |s| && s[i..i + |sub|] == sub
    decreases |s|
  {
    if s[..|sub|] == sub {
      i := 0;
    } else {
      var j := ContainsHasPosition(s[1..], sub);
      assert s[1..][j..j + |sub|] == s[j + 1..j + 1 + |sub|];
      i := j + 1;
    }
  }

  /** Every character of a string that `includes` finds occurs in the haystack. */
  lemma ContainsKeepsChars(s: string, sub: string, c: char)
    requires Contains(s, sub) && c in sub
    ensures c in s
  {
    var i := ContainsHasPosition(s, sub);
    var k :| 0 <= k < |sub| && sub[k] == c;
    assert s[i + k] == sub[k];
  }

  /** A character of `sub` that never occurs in `s` rules out `s.includes(sub)`. */
  lemma NotContainsByChar(s: string, sub: string, c: char)
    requires c in sub && c !in s
    ensures !Contains(s, sub)
  {
    if Contains(s, sub) {
      ContainsKeepsChars(s, sub, c);
      assert false;
    }
  }

  /** An occurrence that does not cover the separator lies wholly on one side. */
  lemma ContainsAcrossSeparator(p: string, sep: char, q: string, sub: string)
    requires Contains(p + [sep] + q, sub)
    ensures Contains(p, sub) || Contains(q, sub) || sep in sub
  {
    var s := p + [sep] + q;
    var i := ContainsHasPosition(s, sub);
    if i + |sub| <= |p| {
      assert p[i..i + |sub|] == s[i..i + |sub|];
      ContainsAt(p, sub, i);
    } else if i > |p| {
      assert q[i - |p| - 1..i - |p| - 1 + |sub|] == s[i..i + |sub|];
      ContainsAt(q, sub, i - |p| - 1);
    } else {
      assert sub[|p| - i] == s[|p|] == sep;
    }
  }

  /** `toLowerCase` works character by character, so it distributes over `+`. */
  lemma LowerAppend(a: string, b: string)
    ensures Lower(a + b) == Lower(a) + Lower(b)
  {
  }

  /** A word found in the middle of a text, in whatever letter case, is found by
      a case-insensitive `includes`. */
  lemma ContainsWordIgnoringCase(a: string, w: string, c: string, folded: string)
    requires Lower(w) == folded
    ensures Contains(Lower(a + w + c), folded)
  {
    LowerAppend(a + w, c);
    LowerAppend(a, w);
    var s := Lower(a) + folded + Lower(c);
    assert s[|a|..|a| + |folded|] == folded;
    ContainsAt(s, folded, |a|);
  }

  lemma LowerCharInverse(x: char, c: char)
    requires 'a' <= c <= 'z' && LowerChar(x) == c
    ensures x == c || x == UpperChar(c)
  {
  }

  /** A lower-case letter of `sub` that occurs in `s` in neither case rules out
      `s.toLowerCase().includes(sub)`. */
  lemma NotContainsIgnoringCase(s: string, sub: string, c: char)
    requires 'a' <= c <= 'z' && c in sub && c !in s && UpperChar(c) !in s
    ensures !Contains(Lower(s), sub)
  {
    forall i | 0 <= i < |s| ensures Lower(s)[i] != c {
      if LowerChar(s[i]) == c {
        LowerCharInverse(s[i], c);
      }
    }
    NotContainsByChar(Lower(s), sub, c);
  }

  /** A match of `w` in `s` is a match of `w.toLowerCase()` in `s.toLowerCase()`. */
  lemma ContainsFolded(s: string, w: string, folded: string)
    requires Contains(s, w) && |folded| == |w|
    requires forall k :: 0 <= k < |w| ==> LowerChar(w[k]) == folded[k]
    ensures Contains(Lower(s), folded)
  {
    var i := ContainsHasPosition(s, w);
    assert Lower(s)[i..i + |w|] == folded by {
      forall k | 0 <= k < |w| ensures Lower(s)[i + k] == folded[k] {
        assert s[i + k] == w[k];
      }
    }
    ContainsAt(Lower(s), folded, i);
  }

  predicate Truthy(o: Option<string>) {
    o.Some? && o.value != ""
  }

  /** `value.length > limit ? value.substring(0, limit) : value` */
  function Truncate(s: string, limit: nat): (r: string)
    ensures |r| == if |s| <= limit then |s| else limit
    ensures r == s[..|r|]
  {
    if |s| > limit then s[..limit] else s
  }

  function DigitChar(d: nat): char
    requires d < 10
  {
    ['0', '1', '2', '3', '4', '5', '6', '7', '8', '9'][d]
  }

  predicate IsDigit(c: char) {
    '0' <= c <= '9'
  }

  /** The decimal text of a non-negative number, as a template literal renders it. */
  function NatToString(n: nat): (r: string)
    ensures |r| > 0
    ensures forall i :: 0 <= i < |r| ==> IsDigit(r[i])
  {
    if n < 10 then [DigitChar(n)] else NatToString(n / 10) + [DigitChar(n % 10)]
  }

  function IntToString(i: int): (r: string)
    ensures |r| > 0
    ensures forall k :: 0 <= k < |r| ==> IsDigit(r[k]) || r[k] == '-'
  {
    if i < 0 then "-" + NatToString(-i) else NatToString(i)
  }

  /** `parts.join(sep)` */
  function Join(parts: seq<string>, sep: string): string {
    if |parts| == 0 then ""
    else if |parts| == 1 then parts[0]
    else parts[0] + sep + Join(parts[1..], sep)
  }
}
