/** Text helpers for the calculator display: the character of a digit button,
    the literal a run of digit presses spells, and counting a character. */
module Text {

  /** Holds when every element of ds is a digit the keypad offers (0 to 9). */
  predicate AllDigits(ds: seq<int>)
  {
    forall i :: 0 <= i < |ds| ==> 0 <= ds[i] <= 9
  }

  /** The one-character text `String(d)` of a digit d. */
  function DigitChar(d: int): (c: char)
    requires 0 <= d <= 9
    ensures '0' <= c <= '9'
    ensures c as int - '0' as int == d
  {
    ('0' as int + d) as char
  }

  /** The characters of a run of digits, in order. */
  function DigitText(ds: seq<int>): (t: string)
    requires AllDigits(ds)
    ensures |t| == |ds|
  {
    if ds == [] then "" else [DigitChar(ds[0])] + DigitText(ds[1..])
  }

  /** The i-th character of a run's text is the i-th digit's character. */
  lemma {:induction false} DigitTextAt(ds: seq<int>, i: int)
    requires AllDigits(ds) && 0 <= i < |ds|
    ensures DigitText(ds)[i] == DigitChar(ds[i])
  {
    if i > 0 {
      assert AllDigits(ds[1..]);
      DigitTextAt(ds[1..], i - 1);
    }
  }

  /** t without its leading '0' characters: a suffix of t that does not start with '0'. */
  function StripLeadingZeros(t: string): (r: string)
    ensures r == [] || r[0] != '0'
    ensures |r| <= |t| && r == t[|t| - |r|..]
    ensures forall i :: 0 <= i < |t| - |r| ==> t[i] == '0'
  {
    if t != [] && t[0] == '0' then StripLeadingZeros(t[1..]) else t
  }

  /** The decimal literal a run of digits denotes, written without leading zeros
      ("0" when every digit is zero or there are none). */
  function DigitLiteral(ds: seq<int>): (r: string)
    requires AllDigits(ds)
    ensures r != []
    ensures r == "0" || r[0] != '0'
    ensures |r| <= |ds| || r == "0"
  {
    var t := StripLeadingZeros(DigitText(ds));
    if t == [] then "0" else t
  }

  /** The text of a non-empty run of digits is its first digit's character followed by the rest. */
  lemma DigitTextCons(ds: seq<int>)
    requires AllDigits(ds) && ds != []
    ensures AllDigits(ds[1..])
    ensures DigitText(ds) == [DigitChar(ds[0])] + DigitText(ds[1..])
  {
  }

  /** A leading 0 does not change the literal; a leading non-zero digit starts it. */
  lemma DigitLiteralCons(ds: seq<int>)
    requires AllDigits(ds) && ds != []
    ensures AllDigits(ds[1..])
    ensures ds[0] == 0 ==> DigitLiteral(ds) == DigitLiteral(ds[1..])
    ensures ds[0] != 0 ==> DigitLiteral(ds) == DigitText(ds)
  {
  }

  /** How many times c occurs in t. */
  function Count(t: string, c: char): (n: nat)
    ensures n <= |t|
    ensures n == 0 <==> c !in t
  {
    if t == [] then 0 else (if t[0] == c then 1 else 0) + Count(t[1..], c)
  }

  /** Counting distributes over concatenation. */
  lemma {:induction false} CountAppend(s: string, t: string, c: char)
    ensures Count(s + t, c) == Count(s, c) + Count(t, c)
  {
    if s == [] {
      assert s + t == t;
    } else {
      assert (s + t)[1..] == s[1..] + t;
      CountAppend(s[1..], t, c);
    }
  }
}
