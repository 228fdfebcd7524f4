/**
 * The two Python string methods the command handlers rely on:
 * `str.strip()` with no argument and `str.lower()`.
 * What each function does is stated by the lemma that follows it, so that the
 * facts are brought in only where a proof asks for them.
 */
module PyStr {

  /** `str.isspace()` for one character, as CPython defines whitespace. */
  predicate IsSpace(c: char) {
    var n := c as int;
    n == 0x20 || 0x09 <= n <= 0x0D || 0x1C <= n <= 0x1F || n == 0x85 || n == 0xA0
    || n == 0x1680 || 0x2000 <= n <= 0x200A || n == 0x2028 || n == 0x2029
    || n == 0x202F || n == 0x205F || n == 0x3000
  }

  /** `str.lstrip()`. */
  function LStrip(s: string): string
    decreases |s|
  {
    if |s| > 0 && IsSpace(s[0]) then LStrip(s[1..]) else s
  }

  /** `str.lstrip()` drops the leading whitespace and nothing else. */
  lemma {:induction false} LStripSpec(s: string)
    ensures |LStrip(s)| <= |s| && LStrip(s) == s[|s| - |LStrip(s)|..]
    ensures LStrip(s) == [] || !IsSpace(LStrip(s)[0])
    ensures forall i :: 0 <= i < |s| - |LStrip(s)| ==> IsSpace(s[i])
    decreases |s|
  {
    if |s| > 0 && IsSpace(s[0]) {
      LStripSpec(s[1..]);
    }
  }

  /** `str.rstrip()`. */
  function RStrip(s: string): string
    decreases |s|
  {
    if |s| > 0 && IsSpace(s[|s| - 1]) then RStrip(s[..|s| - 1]) else s
  }

  /** `str.rstrip()` drops the trailing whitespace and nothing else. */
  lemma {:induction false} RStripSpec(s: string)
    ensures |RStrip(s)| <= |s| && RStrip(s) == s[..|RStrip(s)|]
    ensures RStrip(s) == [] || !IsSpace(RStrip(s)[|RStrip(s)| - 1])
    ensures forall i :: |RStrip(s)| <= i < |s| ==> IsSpace(s[i])
    decreases |s|
  {
    if |s| > 0 && IsSpace(s[|s| - 1]) {
      RStripSpec(s[..|s| - 1]);
    }
  }

  /** `str.strip()`. */
  function Strip(s: string): string {
    LStrip(RStrip(s))
  }

  /**
   * `str.strip()` keeps one contiguous piece `s[lo..hi]`, removes only whitespace
   * around it, and the piece neither starts nor ends with whitespace.
   */
  lemma StripSpec(s: string) returns (lo: nat, hi: nat)
    ensures lo <= hi <= |s| && Strip(s) == s[lo..hi]
    ensures forall i :: 0 <= i < lo ==> IsSpace(s[i])
    ensures forall i :: hi <= i < |s| ==> IsSpace(s[i])
    ensures Strip(s) == [] || (!IsSpace(Strip(s)[0]) && !IsSpace(Strip(s)[|Strip(s)| - 1]))
  {
    var t := RStrip(s);
    RStripSpec(s);
    LStripSpec(t);
    hi := |t|;
    lo := |t| - |LStrip(t)|;
    assert forall i :: 0 <= i < lo ==> s[i] == t[i];
  }

  function LowerChar(c: char): char {
    if 'A' <= c <= 'Z' then (c as int - 'A' as int + 'a' as int) as char else c
  }

  /** `str.lower()`, on the ASCII letters. */
  function Lower(s: string): string {
    seq(|s|, i requires 0 <= i < |s| => LowerChar(s[i]))
  }

  /** `str.lower()` leaves no upper-case ASCII letter and changes nothing else. */
  lemma LowerSpec(s: string)
    ensures |Lower(s)| == |s|
    ensures forall i :: 0 <= i < |s| ==> !('A' <= Lower(s)[i] <= 'Z')
    ensures forall i :: 0 <= i < |s| && !('A' <= s[i] <= 'Z') ==> Lower(s)[i] == s[i]
    ensures forall i :: 0 <= i < |s| && 'A' <= s[i] <= 'Z' ==> Lower(s)[i] as int == s[i] as int + 32
  {
  }

  /** `v.strip().lower()`, the normalisation every command payload goes through. */
  function Normalize(s: string): string {
    Lower(Strip(s))
  }

  lemma LowerIdempotent(s: string)
    ensures Lower(Lower(s)) == Lower(s)
  {
  }

  lemma {:induction false} LStripLower(s: string)
    ensures LStrip(Lower(s)) == Lower(LStrip(s))
    decreases |s|
  {
    if |s| > 0 && IsSpace(s[0]) {
      assert Lower(s)[1..] == Lower(s[1..]);
      LStripLower(s[1..]);
    }
  }

  lemma {:induction false} RStripLower(s: string)
    ensures RStrip(Lower(s)) == Lower(RStrip(s))
    decreases |s|
  {
    if |s| > 0 && IsSpace(s[|s| - 1]) {
      assert Lower(s)[..|s| - 1] == Lower(s[..|s| - 1]);
      RStripLower(s[..|s| - 1]);
    }
  }

  /** Lower-casing and stripping commute, since lower-casing never creates or removes whitespace. */
  lemma StripLower(s: string)
    ensures Strip(Lower(s)) == Lower(Strip(s))
  {
    RStripLower(s);
    LStripLower(RStrip(s));
  }

  /** Stripping twice is stripping once. */
  lemma StripIdempotent(s: string)
    ensures Strip(Strip(s)) == Strip(s)
  {
    var t := Strip(s);
    var lo, hi := StripSpec(s);
    assert RStrip(t) == t;
    assert LStrip(t) == t;
  }

  /**
   * Normalising an already normalised payload changes nothing; this is why the
   * command handler may normalise a payload and hand it to helpers that normalise again.
   */
  lemma NormalizeIdempotent(s: string)
    ensures Normalize(Normalize(s)) == Normalize(s)
  {
    var t := Strip(s);
    StripLower(t);
    StripIdempotent(s);
    LowerIdempotent(t);
  }

  /** Normalisation ignores the case of ASCII letters and surrounding whitespace. */
  lemma NormalizeIgnoresCaseAndPadding(s: string)
    ensures Normalize(Lower(s)) == Normalize(s)
    ensures Normalize(Strip(s)) == Normalize(s)
  {
    StripLower(s);
    LowerIdempotent(Strip(s));
    StripIdempotent(s);
  }
}
