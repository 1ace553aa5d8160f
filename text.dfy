/** Character-level helpers the logger relies on: ASCII upper-casing (Python's
    `str.upper` on the level names), `%`-style padding, and the decimal
    rendering of a width inside an f-string. */
module Text {

  datatype Option<+T> = None | Some(value: T)

  /** `str.upper` restricted to ASCII: lower-case letters map to upper case,
      every other character is left alone. */
  function UpperChar(c: char): char
  {
    if 'a' <= c <= 'z' then (c as int - 32) as char else c
  }

  /** `str.upper`: the same length, each character upper-cased in place. */
  function Upper(s: string): (r: string)
    ensures |r| == |s|
  {
    if s == [] then [] else [UpperChar(s[0])] + Upper(s[1..])
  }

  /** Each character is upper-cased in place. */
  lemma {:induction false} UpperAt(s: string, i: nat)
    requires i < |s|
    ensures Upper(s)[i] == UpperChar(s[i])
  {
    if i > 0 {
      UpperAt(s[1..], i - 1);
    }
  }

  function Spaces(n: nat): (r: string)
    ensures |r| == n
    ensures forall i :: 0 <= i < n ==> r[i] == ' '
  {
    if n == 0 then [] else [' '] + Spaces(n - 1)
  }

  /** The `%-Ns` (leftAlign) and `%Ns` conversions of a string value: padded with
      spaces up to `width`, never truncated. */
  function Pad(v: string, leftAlign: bool, width: nat): (r: string)
    ensures |r| == if |v| >= width then |v| else width
  {
    if |v| >= width then v
    else if leftAlign then v + Spaces(width - |v|)
    else Spaces(width - |v|) + v
  }

  /** What `%-Ns` promises: the value comes first, unchanged, followed only by
      spaces, and the field is exactly `width` wide whenever the value fits. */
  lemma PadLeftAligned(v: string, width: nat)
    ensures |Pad(v, true, width)| == if |v| >= width then |v| else width
    ensures Pad(v, true, width)[..|v|] == v
    ensures forall i :: |v| <= i < |Pad(v, true, width)| ==> Pad(v, true, width)[i] == ' '
  {
  }

  /** Padding to width 0 (a `%(key)s` field) leaves the value as it is. */
  lemma PadZero(v: string, leftAlign: bool)
    ensures Pad(v, leftAlign, 0) == v
  {
  }

  predicate IsDigit(c: char)
  {
    '0' <= c <= '9'
  }

  predicate AllDigits(s: string)
  {
    forall i :: 0 <= i < |s| ==> IsDigit(s[i])
  }

  /** Value of a run of decimal digits, most significant first; the empty run is 0. */
  function DigitsValue(s: string): nat
    requires AllDigits(s)
  {
    if s == [] then 0
    else DigitsValue(s[..|s| - 1]) * 10 + (s[|s| - 1] as int - '0' as int)
  }

  function DigitChar(d: nat): (c: char)
    requires d < 10
    ensures IsDigit(c) && c as int - '0' as int == d
  {
    ('0' as int + d) as char
  }

  /** Python's `str(n)` for a non-negative integer, as the f-string
      `{self.max_level_length}` produces it. */
  function NatToString(n: nat): (r: string)
    ensures |r| > 0 && AllDigits(r)
  {
    if n < 10 then [DigitChar(n)] else NatToString(n / 10) + [DigitChar(n % 10)]
  }

  /** Reading the decimal text back gives the number: the width written into a
      derived template is the width the formatter pads to. */
  lemma {:induction false} NatToStringRoundTrip(n: nat)
    ensures DigitsValue(NatToString(n)) == n
  {
    var s := NatToString(n);
    if n < 10 {
      assert s[..|s| - 1] == [];
    } else {
      assert s[..|s| - 1] == NatToString(n / 10);
      NatToStringRoundTrip(n / 10);
    }
  }

  /** Python's `str(i)` for any integer, used for the `"Level %s"` name the
      logging library gives a rank nobody registered. */
  function IntToString(i: int): (r: string)
    ensures |r| > 0
  {
    if i < 0 then "-" + NatToString(-i) else NatToString(i)
  }
}
