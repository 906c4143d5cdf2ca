/**
 * The decimal-string helper of utils.py: `find_min_delta` maps a decimal
 * string to the value of one unit in its last fractional position. The value
 * is always a power of ten, 10^-k, so the model returns the exponent k.
 */
module Utils {

  /** Index of the first occurrence of `c` in `s`, or -1 when `c` does not occur (str.find). */
  function Find(s: string, c: char): (i: int)
    ensures -1 <= i < |s|
    ensures i == -1 <==> c !in s
    ensures 0 <= i ==> s[i] == c && c !in s[..i]
  {
    if |s| == 0 then -1
    else if s[0] == c then 0
    else
      var j := Find(s[1..], c);
      assert s[1..][..j + 1] == s[..j + 2][1..] by { if j >= 0 { assert s[1..][..j + 1] == s[1..j + 2]; } }
      if j < 0 then -1 else j + 1
  }

  /** `d` is the position of the first '.' in `s`. */
  ghost predicate IsFirstDot(s: string, d: int) {
    0 <= d < |s| && s[d] == '.' && '.' !in s[..d]
  }

  /**
   * find_min_delta(amount) == 10^-k: k is the number of characters after the
   * first '.', and 0 (the value 1.0) when there is no '.' or nothing follows it.
   */
  function FindMinDelta(amount: string): (k: nat)
    ensures '.' !in amount ==> k == 0
    ensures forall d :: IsFirstDot(amount, d) ==> k == |amount| - d - 1
  {
    var dotIndex := Find(amount, '.');
    if dotIndex < 0 then 0
    else
      var floatLen := |amount| - dotIndex - 1;
      if floatLen <= 0 then 0 else floatLen
  }

  /**
   * The result depends only on the length of the string and where its first
   * dot is, never on the digits or on later dots: "1.50" and "9.99" give the
   * same unit, 0.01, and so do "1.5.0" and "1.500".
   */
  lemma DeltaIgnoresDigits(s: string, t: string)
    requires |s| == |t|
    requires Find(s, '.') == Find(t, '.')
    ensures FindMinDelta(s) == FindMinDelta(t)
  {
  }

  /** "1.50" has two fractional characters, so its unit is 10^-2 = 0.01. */
  lemma DeltaOfOnePointFifty()
    ensures FindMinDelta("1.50") == 2
  {
  }
}
