/** URL path composition: the `/`-separated segments every endpoint appends to a base URL. */
module Paths {
  import opened Wrappers

  /** `base/segments[0]/segments[1]/...`: the path convention of the API. */
  function Under(base: string, segments: seq<string>): string
    decreases |segments|
  {
    if segments == [] then base
    else Under(base, segments[..|segments| - 1]) + "/" + segments[|segments| - 1]
  }

  lemma {:induction false} UnderAppend(base: string, a: seq<string>, b: seq<string>)
    ensures Under(base, a + b) == Under(Under(base, a), b)
    decreases |b|
  {
    if b == [] {
      assert a + b == a;
    } else {
      assert (a + b)[..|a + b| - 1] == a + b[..|b| - 1];
      UnderAppend(base, a, b[..|b| - 1]);
    }
  }

  /** Every path built under a base starts with that base. */
  lemma {:induction false} UnderExtends(base: string, segments: seq<string>)
    ensures |base| <= |Under(base, segments)| && Under(base, segments)[..|base|] == base
    decreases |segments|
  {
    if segments != [] {
      UnderExtends(base, segments[..|segments| - 1]);
    }
  }

  // The shapes of Under the endpoints use, spelled out as concatenations.

  lemma Under1(b: string, s1: string)
    ensures Under(b, [s1]) == b + "/" + s1
  {
    assert [s1][..0] == [];
  }

  lemma Under2(b: string, s1: string, s2: string)
    ensures Under(b, [s1, s2]) == b + "/" + s1 + "/" + s2
  {
    Under1(b, s1);
    assert [s1, s2][..1] == [s1];
  }

  lemma Under3(b: string, s1: string, s2: string, s3: string)
    ensures Under(b, [s1, s2, s3]) == b + "/" + s1 + "/" + s2 + "/" + s3
  {
    Under2(b, s1, s2);
    assert [s1, s2, s3][..2] == [s1, s2];
  }

  lemma Under4(b: string, s1: string, s2: string, s3: string, s4: string)
    ensures Under(b, [s1, s2, s3, s4]) == b + "/" + s1 + "/" + s2 + "/" + s3 + "/" + s4
  {
    Under3(b, s1, s2, s3);
    assert [s1, s2, s3, s4][..3] == [s1, s2, s3];
  }

  lemma Under5(b: string, s1: string, s2: string, s3: string, s4: string, s5: string)
    ensures Under(b, [s1, s2, s3, s4, s5]) == b + "/" + s1 + "/" + s2 + "/" + s3 + "/" + s4 + "/" + s5
  {
    Under4(b, s1, s2, s3, s4);
    assert [s1, s2, s3, s4, s5][..4] == [s1, s2, s3, s4];
  }

  function DigitChar(d: nat): (c: char)
    requires d < 10
    ensures '0' <= c <= '9'
  {
    "0123456789"[d]
  }

  function DigitValue(c: char): (d: nat)
    requires '0' <= c <= '9'
    ensures d < 10
  {
    (c as int - '0' as int) as nat
  }

  predicate AllDigits(s: string) {
    forall i :: 0 <= i < |s| ==> '0' <= s[i] <= '9'
  }

  /** Decimal digits of a natural number, most significant first, no leading zero. */
  function Digits(n: nat): (s: string)
    ensures |s| >= 1 && AllDigits(s)
    ensures s[0] == '0' ==> n == 0
  {
    if n < 10 then [DigitChar(n)] else Digits(n / 10) + [DigitChar(n % 10)]
  }

  /** Go's `%d` verb on an int: an optional minus sign and the digits of the magnitude. */
  function Decimal(n: int): string {
    if n < 0 then "-" + Digits(-n) else Digits(n)
  }

  function ParseDigits(s: string): nat
    requires |s| >= 1 && AllDigits(s)
  {
    if |s| == 1 then DigitValue(s[0])
    else ParseDigits(s[..|s| - 1]) * 10 + DigitValue(s[|s| - 1])
  }

  /** Reads a `%d` rendering back; this is what a server routing on the segment does. */
  function ParseDecimal(s: string): Option<int> {
    if |s| >= 2 && s[0] == '-' && AllDigits(s[1..]) then Some(-(ParseDigits(s[1..]) as int))
    else if |s| >= 1 && AllDigits(s) then Some(ParseDigits(s))
    else None
  }

  lemma {:induction false} DigitsRoundTrip(n: nat)
    ensures ParseDigits(Digits(n)) == n
  {
    if n >= 10 {
      var s := Digits(n);
      assert s[..|s| - 1] == Digits(n / 10);
      DigitsRoundTrip(n / 10);
    }
  }

  /** The card number written into a path is recovered exactly from it. */
  lemma DecimalRoundTrip(n: int)
    ensures ParseDecimal(Decimal(n)) == Some(n)
  {
    if n < 0 {
      var d := Digits(-n);
      DigitsRoundTrip(-n);
      assert ("-" + d)[1..] == d;
      assert ParseDecimal("-" + d) == Some(-(ParseDigits(d) as int));
    } else {
      var d := Digits(n);
      DigitsRoundTrip(n);
      assert '0' <= d[0] <= '9';
      assert ParseDecimal(d) == Some(ParseDigits(d) as int);
    }
  }

  /** Distinct card numbers give distinct path segments, and none contains a `/`. */
  lemma DecimalSegment(a: int, b: int)
    ensures Decimal(a) == Decimal(b) ==> a == b
    ensures '/' !in Decimal(a)
  {
    DecimalRoundTrip(a);
    DecimalRoundTrip(b);
    if a >= 0 {
      assert AllDigits(Decimal(a));
    } else {
      assert AllDigits(Decimal(a)[1..]);
      assert Decimal(a) == "-" + Decimal(a)[1..];
    }
  }
}
