/**
 * Regular expressions of the form `^c1c2...cn$` where every ci is a single
 * character class, matched the way JavaScript matches them without flags
 * (`\d` is an ASCII digit; `$` only matches at the end of the input), and
 * the mobile-number pattern `^01[3-9]\d{8}$` written in that form.
 */
module PhonePattern {
  import opened Decimal

  datatype CharClass = Exactly(c: char) | Between(lo: char, hi: char)

  predicate InClass(c: char, k: CharClass) {
    match k
    case Exactly(d) => c == d
    case Between(lo, hi) => lo <= c <= hi
  }

  /** The anchored pattern matches `s`: each class consumes one character and nothing is left over. */
  predicate FullMatch(pattern: seq<CharClass>, s: string)
    decreases |pattern|
  {
    if pattern == [] then s == []
    else s != [] && InClass(s[0], pattern[0]) && FullMatch(pattern[1..], s[1..])
  }

  /** `\d` */
  const Digit := Between('0', '9')

  /** `^01[3-9]\d{8}$` */
  const MobilePattern: seq<CharClass> :=
    [Exactly('0'), Exactly('1'), Between('3', '9'), Digit, Digit, Digit, Digit, Digit, Digit, Digit, Digit]

  /** An anchored match is a character-by-character match of equal length. */
  lemma {:induction false} FullMatchPointwise(pattern: seq<CharClass>, s: string)
    ensures FullMatch(pattern, s) <==>
      |s| == |pattern| && forall i :: 0 <= i < |s| ==> InClass(s[i], pattern[i])
    decreases |pattern|
  {
    if pattern != [] && s != [] {
      FullMatchPointwise(pattern[1..], s[1..]);
      if |s| == |pattern| && forall i :: 0 <= i < |s| ==> InClass(s[i], pattern[i]) {
        assert forall i :: 0 <= i < |s[1..]| ==> InClass(s[1..][i], pattern[1..][i]) by {
          forall i | 0 <= i < |s[1..]|
            ensures InClass(s[1..][i], pattern[1..][i])
          {
            assert InClass(s[i + 1], pattern[i + 1]);
          }
        }
      }
    }
  }

  /** The mobile pattern spelled out: "01", a digit from 3 to 9, then eight digits. */
  predicate MobileShape(s: string) {
    && |s| == 11
    && s[0] == '0' && s[1] == '1'
    && '3' <= s[2] <= '9'
    && forall i :: 3 <= i < 11 ==> IsDigit(s[i])
  }

  lemma MobilePatternMeans(s: string)
    ensures FullMatch(MobilePattern, s) <==> MobileShape(s)
  {
    FullMatchPointwise(MobilePattern, s);
    assert forall i :: 3 <= i < 11 ==> MobilePattern[i] == Digit;
  }
}
