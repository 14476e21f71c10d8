/** The fallback rule of `call_llm`: the language model runs as an external
    process; its captured output, stripped of surrounding whitespace, is the
    reply unless it is empty or the call raised, in which case a fixed line is. */
module Generation {

  /** What one run of the external model produced: the decoded standard output of
      a run that finished, or an exception (spawn failure, the 60 s timeout). */
  datatype Run = Finished(stdout: string) | Failed

  /** The reply used when the model gives nothing. */
  const Fallback: string := "I’m here with you. Please tell me more."

  /** The characters Python's `str.isspace()` holds for, which are the ones
      `strip()` with no argument removes: the ASCII controls 9-13 and 28-31, the
      space, and the Unicode line, paragraph and space separators. */
  predicate IsSpace(c: char) {
    var n := c as int;
    || 9 <= n <= 13
    || 28 <= n <= 32
    || n == 0x85 || n == 0xA0 || n == 0x1680
    || 0x2000 <= n <= 0x200A
    || n == 0x2028 || n == 0x2029 || n == 0x202F || n == 0x205F || n == 0x3000
  }

  /** Every character of `s` at an index in [lo, hi) is whitespace. */
  predicate SpaceBetween(s: string, lo: int, hi: int) {
    forall i :: lo <= i < hi && 0 <= i < |s| ==> IsSpace(s[i])
  }

  predicate AllSpace(s: string) {
    SpaceBetween(s, 0, |s|)
  }

  /** Length of the run of whitespace that opens `s`. */
  function LeadingSpace(s: string): (k: nat)
    ensures k <= |s|
    ensures SpaceBetween(s, 0, k)
    ensures k < |s| ==> !IsSpace(s[k])
  {
    if |s| == 0 || !IsSpace(s[0]) then 0 else 1 + LeadingSpace(s[1..])
  }

  /** Length of the run of whitespace that closes `s`. */
  function TrailingSpace(s: string): (k: nat)
    ensures k <= |s|
    ensures SpaceBetween(s, |s| - k, |s|)
    ensures k < |s| ==> !IsSpace(s[|s| - k - 1])
  {
    if |s| == 0 || !IsSpace(s[|s| - 1]) then
      0
    else
      var k := TrailingSpace(s[..|s| - 1]);
      assert forall i :: |s| - 1 - k <= i < |s| - 1 ==> s[..|s| - 1][i] == s[i];
      1 + k
  }

  /** `r` is what is left of `s` once the whitespace at both ends is cut off,
      and it sits at index `i` of `s`: a block of `s` with only whitespace
      around it, which neither starts nor ends with whitespace. */
  predicate StripsAt(s: string, r: string, i: int) {
    && 0 <= i <= |s| - |r|
    && s[i..i + |r|] == r
    && SpaceBetween(s, 0, i)
    && SpaceBetween(s, i + |r|, |s|)
    && (r == "" || (!IsSpace(r[0]) && !IsSpace(r[|r| - 1])))
  }

  /** `r` is `s` with the whitespace at both ends cut off. */
  ghost predicate IsStripOf(s: string, r: string) {
    exists i :: StripsAt(s, r, i)
  }

  /** In a string that is not all whitespace, the leading and the trailing
      whitespace runs are separated by at least one other character. */
  lemma RunsDoNotMeet(s: string)
    requires LeadingSpace(s) < |s|
    ensures LeadingSpace(s) < |s| - TrailingSpace(s)
  {
    assert !IsSpace(s[LeadingSpace(s)]);
  }

  /** A block between whitespace runs whose end characters are not whitespace
      meets `IsStripOf`. */
  lemma BlockIsStrip(s: string, a: int, b: int)
    requires 0 <= a < b <= |s|
    requires SpaceBetween(s, 0, a) && SpaceBetween(s, b, |s|)
    requires !IsSpace(s[a]) && !IsSpace(s[b - 1])
    ensures StripsAt(s, s[a..b], a)
    ensures IsStripOf(s, s[a..b])
  {
    var r := s[a..b];
    assert r[0] == s[a];
    assert r[|r| - 1] == s[b - 1];
    assert s[a..a + |r|] == r;
    assert StripsAt(s, r, a);
  }

  /** `s.strip()`. */
  function Strip(s: string): (r: string)
    ensures IsStripOf(s, r)
    ensures r == "" <==> AllSpace(s)
  {
    var a := LeadingSpace(s);
    if a == |s| then
      assert StripsAt(s, "", a);
      ""
    else
      RunsDoNotMeet(s);
      var k := TrailingSpace(s);
      assert !IsSpace(s[|s| - k - 1]);
      BlockIsStrip(s, a, |s| - k);
      s[a..|s| - k]
  }

  /** Stripping twice is stripping once. */
  lemma StripIdempotent(s: string)
    ensures Strip(Strip(s)) == Strip(s)
  {
    var r := Strip(s);
    if r != "" {
      assert LeadingSpace(r) == 0;
      assert TrailingSpace(r) == 0;
    }
  }

  /** `call_llm(prompt)` given what the run produced. */
  function CallLlm(run: Run): (r: string)
    ensures r != ""
    ensures run.Finished? && !AllSpace(run.stdout) ==> IsStripOf(run.stdout, r)
    ensures run.Failed? || AllSpace(run.stdout) ==> r == Fallback
  {
    match run
    case Failed => Fallback
    case Finished(out) =>
      var o := Strip(out);
      if o != "" then o else Fallback
  }

  /** A timed-out or failed run and a run that printed only whitespace are not
      told apart: both give the fallback line. */
  lemma FailureIndistinguishable(out: string)
    requires AllSpace(out)
    ensures CallLlm(Finished(out)) == CallLlm(Failed) == Fallback
  {
  }
}
