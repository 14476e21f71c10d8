/** String primitives the check-in logic is built on: ASCII case folding (the
    model of `str.lower()`), substring containment (the model of Python's `p in s`
    on strings), "any of these phrases occurs", and decimal rendering of a
    natural number (the model of `{score}` inside an f-string). */
module Text {

  /** The characters `LowerChar` changes. */
  predicate IsUpper(c: char) {
    'A' <= c <= 'Z'
  }

  /** ASCII case folding of one character; every other character is kept. */
  function LowerChar(c: char): (r: char)
    ensures !IsUpper(r)
    ensures !IsUpper(c) ==> r == c
    ensures IsUpper(c) ==> 'a' <= r <= 'z' && r as int - c as int == 'a' as int - 'A' as int
  {
    if IsUpper(c) then (c as int + ('a' as int - 'A' as int)) as char else c
  }

  /** `s.lower()`, restricted to ASCII letters: every upper-case letter is moved
      to its lower-case letter, every other character is kept in place, and no
      upper-case letter is left. */
  function Lower(s: string): (r: string)
    ensures |r| == |s|
    ensures forall i :: 0 <= i < |s| ==> r[i] == LowerChar(s[i])
    ensures forall i :: 0 <= i < |s| && !IsUpper(s[i]) ==> r[i] == s[i]
    ensures forall i :: 0 <= i < |s| && IsUpper(s[i]) ==> r[i] as int == s[i] as int + ('a' as int - 'A' as int)
    ensures IsLowerCase(r)
  {
    seq(|s|, i requires 0 <= i < |s| => LowerChar(s[i]))
  }

  /** No character of `s` is an upper-case ASCII letter. */
  predicate IsLowerCase(s: string) {
    forall i :: 0 <= i < |s| ==> !IsUpper(s[i])
  }

  /** Lowering a lower-case string changes nothing, and lowering twice is lowering once. */
  lemma LowerFixesLowerCase(s: string)
    ensures IsLowerCase(Lower(s))
    ensures IsLowerCase(s) ==> Lower(s) == s
    ensures Lower(Lower(s)) == Lower(s)
  {
    if IsLowerCase(s) {
      assert forall i :: 0 <= i < |s| ==> Lower(s)[i] == s[i];
    }
    assert forall i :: 0 <= i < |s| ==> Lower(Lower(s))[i] == Lower(s)[i];
  }

  /** Case folding works character by character, so it distributes over concatenation. */
  lemma LowerAppend(a: string, b: string)
    ensures Lower(a + b) == Lower(a) + Lower(b)
  {
    assert forall i :: 0 <= i < |a + b| ==> Lower(a + b)[i] == (Lower(a) + Lower(b))[i];
  }

  /** `p` is a contiguous block of `s` starting at index `i`. */
  predicate OccursAt(s: string, p: string, i: int) {
    0 <= i && i + |p| <= |s| && s[i..i + |p|] == p
  }

  /** Python's `p in s` for two strings: `p` is a contiguous substring of `s`.
      The empty string is contained in every string. */
  predicate Contains(s: string, p: string) {
    exists i | 0 <= i <= |s| - |p| :: OccursAt(s, p, i)
  }

  /** A match either starts at the first position or lies wholly in the rest of `s`. */
  lemma ContainsStep(s: string, p: string)
    requires |s| > 0
    ensures Contains(s, p) <==> OccursAt(s, p, 0) || Contains(s[1..], p)
  {
    if Contains(s[1..], p) {
      var i :| 0 <= i <= |s[1..]| - |p| && OccursAt(s[1..], p, i);
      assert s[i + 1..i + 1 + |p|] == s[1..][i..i + |p|];
      assert OccursAt(s, p, i + 1);
    }
    if Contains(s, p) && !OccursAt(s, p, 0) {
      var i :| 0 <= i <= |s| - |p| && OccursAt(s, p, i);
      assert s[i..i + |p|] == s[1..][i - 1..i - 1 + |p|];
      assert OccursAt(s[1..], p, i - 1);
    }
  }

  /** A left-to-right scan for `p` in `s`: try the current position, then move one on.
      It decides exactly `Contains`. */
  function Search(s: string, p: string): (r: bool)
    ensures r <==> Contains(s, p)
    decreases |s|
  {
    if |p| <= |s| && s[..|p|] == p then
      assert OccursAt(s, p, 0);
      true
    else if |s| == 0 then
      false
    else
      ContainsStep(s, p);
      Search(s[1..], p)
  }

  /** A phrase occurring in `s` still occurs once more text is put before or after it. */
  lemma ContainsAppend(a: string, b: string, p: string)
    ensures Contains(a, p) ==> Contains(a + b, p)
    ensures Contains(b, p) ==> Contains(a + b, p)
  {
    if Contains(a, p) {
      var i :| 0 <= i <= |a| - |p| && OccursAt(a, p, i);
      assert (a + b)[i..i + |p|] == a[i..i + |p|];
      assert OccursAt(a + b, p, i);
    }
    if Contains(b, p) {
      var i :| 0 <= i <= |b| - |p| && OccursAt(b, p, i);
      assert (a + b)[|a| + i..|a| + i + |p|] == b[i..i + |p|];
      assert OccursAt(a + b, p, |a| + i);
    }
  }

  /** Python's `any(p in s for p in ps)`: some entry of `ps` occurs in `s`. */
  function ContainsAny(s: string, ps: seq<string>): (r: bool)
    ensures r <==> exists p :: p in ps && Contains(s, p)
  {
    if |ps| == 0 then
      false
    else
      assert forall p :: p in ps <==> p == ps[0] || p in ps[1..];
      Search(s, ps[0]) || ContainsAny(s, ps[1..])
  }

  /** The decimal digits. */
  predicate IsDigit(c: char) {
    '0' <= c <= '9'
  }

  function DigitChar(d: nat): (c: char)
    requires d < 10
    ensures IsDigit(c)
    ensures DigitValue(c) == d
  {
    ('0' as int + d) as char
  }

  function DigitValue(c: char): (d: nat)
    requires IsDigit(c)
    ensures d < 10
  {
    c as int - '0' as int
  }

  /** Reads a string of decimal digits back as a number (most significant digit first). */
  function DigitsValue(s: string): nat
    requires forall i :: 0 <= i < |s| ==> IsDigit(s[i])
  {
    if |s| == 0 then 0 else 10 * DigitsValue(s[..|s| - 1]) + DigitValue(s[|s| - 1])
  }

  /** `str(n)` for a natural number: at least one digit, no leading zero, and the
      digits read back as `n`. */
  function NatToString(n: nat): (r: string)
    ensures |r| >= 1
    ensures forall i :: 0 <= i < |r| ==> IsDigit(r[i])
    ensures r[0] == '0' ==> n == 0 && r == "0"
    ensures DigitsValue(r) == n
  {
    if n < 10 then
      [DigitChar(n)]
    else
      var r := NatToString(n / 10) + [DigitChar(n % 10)];
      assert r[..|r| - 1] == NatToString(n / 10);
      r
  }

  /** A run of digits followed by a non-digit ends at that non-digit, so two
      strings that agree, each a run of digits and then a non-digit after a
      common prefix, have the same digits and the same rest. */
  lemma DigitRunsAgree(p: string, a: string, b: string, x: string, y: string)
    requires forall i :: 0 <= i < |a| ==> IsDigit(a[i])
    requires forall i :: 0 <= i < |b| ==> IsDigit(b[i])
    requires |x| > 0 && !IsDigit(x[0]) && |y| > 0 && !IsDigit(y[0])
    requires p + a + x == p + b + y
    ensures a == b && x == y
  {
    DigitRunNotShorter(p, a, b, x, y);
    DigitRunNotShorter(p, b, a, y, x);
    var s := p + a + x;
    assert a == s[|p|..|p| + |a|];
    assert b == (p + b + y)[|p|..|p| + |b|];
    assert x == s[|p| + |a|..];
    assert y == (p + b + y)[|p| + |b|..];
  }

  /** The digit run ending at a non-digit cannot be the shorter one: at its end
      the other string would still show a digit. */
  lemma DigitRunNotShorter(p: string, a: string, b: string, x: string, y: string)
    requires forall i :: 0 <= i < |b| ==> IsDigit(b[i])
    requires |x| > 0 && !IsDigit(x[0])
    requires p + a + x == p + b + y
    ensures |b| <= |a|
  {
    if |a| < |b| {
      JoinAt(p, a, x, 0);
      JoinAt(p, b, y, |a| - |b|);
      assert false;
    }
  }

  /** The character of `p + a + x` at index `|p| + |a| + j`: of `x` when `j >= 0`,
      of `a` otherwise. */
  lemma JoinAt(p: string, a: string, x: string, j: int)
    ensures 0 <= j < |x| ==> (p + a + x)[|p| + |a| + j] == x[j]
    ensures -|a| <= j < 0 ==> (p + a + x)[|p| + |a| + j] == a[|a| + j]
  {
  }

  /** Different numbers are rendered differently. */
  lemma NatToStringInjective(m: nat, n: nat)
    ensures NatToString(m) == NatToString(n) <==> m == n
  {
    if NatToString(m) == NatToString(n) {
      assert DigitsValue(NatToString(m)) == DigitsValue(NatToString(n));
    }
  }
}
