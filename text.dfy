/** String primitives with JavaScript's meaning: `String.prototype.trim`,
    `includes`, `startsWith`, `endsWith`, `toLowerCase` (ASCII letters only)
    and the character classes `\s` and `.` of regular expressions. */
module Text {

  /** JavaScript's WhiteSpace and LineTerminator code points: exactly the
      characters that `trim` removes and that `\s` matches. */
  predicate IsSpace(c: char) {
    c == ' ' || c == '\t' || c == '\n' || c == '\r' || c == '\U{000B}' || c == '\U{000C}'
    || c == '\U{00A0}' || c == '\U{1680}' || ('\U{2000}' <= c <= '\U{200A}')
    || c == '\U{2028}' || c == '\U{2029}' || c == '\U{202F}' || c == '\U{205F}'
    || c == '\U{3000}' || c == '\U{FEFF}'
  }

  /** The characters a regular-expression `.` does not match. */
  predicate IsLineTerminator(c: char) {
    c == '\n' || c == '\r' || c == '\U{2028}' || c == '\U{2029}'
  }

  predicate AllSpace(s: string) {
    forall k :: 0 <= k < |s| ==> IsSpace(s[k])
  }

  /** Drops leading whitespace. */
  function TrimStart(s: string): (r: string)
    ensures |r| <= |s| && r == s[|s| - |r|..]
    ensures r == [] || !IsSpace(r[0])
    ensures AllSpace(s[..|s| - |r|])
  {
    if s != [] && IsSpace(s[0]) then TrimStart(s[1..]) else s
  }

  /** Drops trailing whitespace. */
  function TrimEnd(s: string): (r: string)
    ensures |r| <= |s| && r == s[..|r|]
    ensures r == [] || !IsSpace(r[|r| - 1])
    ensures AllSpace(s[|r|..])
  {
    if s != [] && IsSpace(s[|s| - 1]) then
      var r := TrimEnd(s[..|s| - 1]);
      SpaceThenSpace(s, |r|);
      r
    else s
  }

  /** Whitespace up to the last character, which is whitespace too, makes
      the whole tail whitespace. */
  lemma SpaceThenSpace(s: string, n: nat)
    requires n < |s| && AllSpace(s[..|s| - 1][n..]) && IsSpace(s[|s| - 1])
    ensures AllSpace(s[n..])
  {
    assert s[n..] == s[..|s| - 1][n..] + [s[|s| - 1]];
  }

  /** `s.trim()`. */
  function Trim(s: string): string {
    TrimEnd(TrimStart(s))
  }

  /** Where the trimmed text starts in `s`. */
  function TrimOffset(s: string): nat {
    |s| - |TrimStart(s)|
  }

  /** The trimmed text is the slice of `s` starting at `TrimOffset`. */
  lemma TrimIsSlice(s: string)
    ensures TrimOffset(s) + |Trim(s)| <= |s|
    ensures Trim(s) == s[TrimOffset(s)..TrimOffset(s) + |Trim(s)|]
  {
    PrefixOfSuffix(s, TrimStart(s), Trim(s), TrimOffset(s));
  }

  /** A prefix of a suffix is a slice, and what follows it is a suffix. */
  lemma PrefixOfSuffix(s: string, t: string, u: string, a: nat)
    requires a <= |s| && t == s[a..] && |u| <= |t| && u == t[..|u|]
    ensures u == s[a..a + |u|] && t[|u|..] == s[a + |u|..]
    ensures u != [] ==> u[0] == t[0]
  {
  }

  /** What trimming removes on either side is whitespace. */
  lemma TrimDropsOnlySpace(s: string)
    ensures TrimOffset(s) + |Trim(s)| <= |s|
    ensures AllSpace(s[..TrimOffset(s)]) && AllSpace(s[TrimOffset(s) + |Trim(s)|..])
  {
    PrefixOfSuffix(s, TrimStart(s), Trim(s), TrimOffset(s));
  }

  /** The trimmed text neither starts nor ends with whitespace. */
  lemma TrimEndsInText(s: string)
    ensures Trim(s) == [] || (!IsSpace(Trim(s)[0]) && !IsSpace(Trim(s)[|Trim(s)| - 1]))
  {
    PrefixOfSuffix(s, TrimStart(s), Trim(s), TrimOffset(s));
  }

  /** Trimming keeps one contiguous slice of the input, with no whitespace
      at either end, and removes only whitespace around it. */
  lemma TrimSlice(s: string) returns (a: nat, b: nat)
    ensures a <= b <= |s| && Trim(s) == s[a..b]
    ensures AllSpace(s[..a]) && AllSpace(s[b..])
    ensures Trim(s) == [] || (!IsSpace(Trim(s)[0]) && !IsSpace(Trim(s)[|Trim(s)| - 1]))
  {
    TrimIsSlice(s);
    TrimDropsOnlySpace(s);
    TrimEndsInText(s);
    a := TrimOffset(s);
    b := a + |Trim(s)|;
  }

  /** A trimmed string is empty exactly when the input is blank. */
  lemma TrimEmptyIffBlank(s: string)
    ensures Trim(s) == [] <==> AllSpace(s)
  {
    var a, b := TrimSlice(s);
    if Trim(s) == [] {
      assert s == s[..a] + s[b..];
    }
  }

  /** `trim` is idempotent. */
  lemma TrimIdempotent(s: string)
    ensures Trim(Trim(s)) == Trim(s)
  {
    var t := Trim(s);
    var _, _ := TrimSlice(s);
    if t != [] {
      assert TrimStart(t) == t;
      assert TrimEnd(t) == t;
    }
  }

  /** ASCII case mapping of `toLowerCase`. */
  function LowerChar(c: char): char {
    if 'A' <= c <= 'Z' then (c as int + 32) as char else c
  }

  /** `s.toLowerCase()`, for the ASCII letters. */
  function Lower(s: string): (r: string)
    ensures |r| == |s|
    ensures forall k :: 0 <= k < |s| ==> r[k] == LowerChar(s[k])
  {
    seq(|s|, k requires 0 <= k < |s| => LowerChar(s[k]))
  }

  lemma LowerIdempotent(s: string)
    ensures Lower(Lower(s)) == Lower(s)
  {
  }

  /** Lowering leaves whitespace where it is, so it commutes with trimming. */
  lemma LowerKeepsSpace(c: char)
    ensures IsSpace(LowerChar(c)) <==> IsSpace(c)
  {
  }

  predicate StartsWith(s: string, p: string) {
    |p| <= |s| && s[..|p|] == p
  }

  predicate EndsWith(s: string, p: string) {
    |p| <= |s| && s[|s| - |p|..] == p
  }

  /** A common tail survives appending. */
  lemma EndsWithAppend(s: string, p: string, t: string)
    requires EndsWith(s, p)
    ensures EndsWith(s + t, p + t)
  {
    assert (s + t)[|s + t| - |p + t|..] == s[|s| - |p|..] + t;
  }

  /** `s.includes(p)`. */
  predicate Contains(s: string, p: string)
    decreases |s|
  {
    StartsWith(s, p) || (s != [] && Contains(s[1..], p))
  }

  /** Occurrence at a given index. */
  predicate OccursAt(s: string, p: string, i: int) {
    0 <= i && i + |p| <= |s| && s[i..i + |p|] == p
  }

  lemma {:induction false} ContainsIffOccurs(s: string, p: string)
    ensures Contains(s, p) <==> exists i :: OccursAt(s, p, i)
    decreases |s|
  {
    if StartsWith(s, p) {
      assert OccursAt(s, p, 0);
    } else if s == [] {
      forall i | OccursAt(s, p, i) ensures false {
      }
    } else {
      ContainsIffOccurs(s[1..], p);
      forall i | OccursAt(s, p, i) ensures OccursAt(s[1..], p, i - 1) {
        assert s[1..][i - 1..i - 1 + |p|] == s[i..i + |p|];
      }
      forall i | OccursAt(s[1..], p, i) ensures OccursAt(s, p, i + 1) {
        assert s[1..][i..i + |p|] == s[i + 1..i + 1 + |p|];
      }
    }
  }

  /** What a slice contains, the whole string contains. */
  lemma ContainsInSlice(s: string, p: string, a: nat, b: nat)
    requires a <= b <= |s|
    requires Contains(s[a..b], p)
    ensures Contains(s, p)
  {
    ContainsIffOccurs(s[a..b], p);
    var i :| OccursAt(s[a..b], p, i);
    assert a + i + |p| <= b;
    forall k | 0 <= k < |p| ensures s[a + i + k] == p[k] {
      assert s[a..b][i..i + |p|][k] == p[k];
    }
    assert OccursAt(s, p, a + i);
    ContainsIffOccurs(s, p);
  }

  /** What either part contains, their concatenation contains. */
  lemma ContainsInConcat(a: string, b: string, p: string)
    requires Contains(a, p) || Contains(b, p)
    ensures Contains(a + b, p)
  {
    if Contains(a, p) {
      assert (a + b)[0..|a|] == a;
      ContainsInSlice(a + b, p, 0, |a|);
    } else {
      assert (a + b)[|a|..|a + b|] == b;
      ContainsInSlice(a + b, p, |a|, |a + b|);
    }
  }
}
