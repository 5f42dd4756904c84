/**
 * The JavaScript string and number built-ins the dashboard relies on:
 * `String(n)` for integers, `Number`, `parseInt`, `split(',')` and `join(',')`.
 * Only decimal integers are covered (see README, "Left out").
 */
module JsText {
  import opened Wrappers

  predicate IsDigit(c: char) { '0' <= c <= '9' }

  function DigitValue(c: char): (d: nat)
    requires IsDigit(c)
    ensures d < 10
  {
    (c as int) - ('0' as int)
  }

  function DigitChar(d: nat): (c: char)
    requires d < 10
    ensures IsDigit(c) && DigitValue(c) == d
  {
    (('0' as int) + d) as char
  }

  predicate AllDigits(s: string) {
    forall i :: 0 <= i < |s| ==> IsDigit(s[i])
  }

  /** The value of a string of decimal digits, most significant first. */
  function DigitsValue(s: string): nat
    requires AllDigits(s)
  {
    if |s| == 0 then 0 else 10 * DigitsValue(s[..|s| - 1]) + DigitValue(s[|s| - 1])
  }

  /** `String(n)` for a non-negative integer: its decimal digits without leading zeros. */
  function NatToString(n: nat): (s: string)
    ensures |s| >= 1 && AllDigits(s)
    ensures n > 0 ==> s[0] != '0'
  {
    if n < 10 then [DigitChar(n)] else NatToString(n / 10) + [DigitChar(n % 10)]
  }

  lemma {:induction false} NatToStringValue(n: nat)
    ensures DigitsValue(NatToString(n)) == n
  {
    if n >= 10 {
      NatToStringValue(n / 10);
      var s := NatToString(n);
      assert s[..|s| - 1] == NatToString(n / 10);
    }
  }

  /** `String(n)` for an integer. */
  function IntToString(n: int): (s: string)
    ensures |s| >= 1 && ',' !in s
  {
    var digits := NatToString(if n < 0 then -n else n);
    assert forall i :: 0 <= i < |digits| ==> digits[i] != ',' by {
      forall i | 0 <= i < |digits| ensures digits[i] != ',' { assert IsDigit(digits[i]); }
    }
    if n < 0 then "-" + digits else digits
  }

  /** A JavaScript number as far as the model needs one: an integer or NaN. */
  datatype JsNumber = Num(n: int) | NaN

  /**
   * `Number(s)`: the empty string is 0, an optionally signed run of decimal
   * digits is its value; every other string is NaN here.
   */
  function Number(s: string): JsNumber {
    if s == "" then Num(0)
    else if (s[0] == '-' || s[0] == '+') && |s| > 1 && AllDigits(s[1..]) then
      Num(if s[0] == '-' then -(DigitsValue(s[1..]) as int) else DigitsValue(s[1..]))
    else if AllDigits(s) then Num(DigitsValue(s))
    else NaN
  }

  lemma NumberOfIntToString(n: int)
    ensures Number(IntToString(n)) == Num(n)
  {
    var m := if n < 0 then -n else n;
    NatToStringValue(m);
    var digits := NatToString(m);
    if n < 0 {
      assert ("-" + digits)[1..] == digits;
    } else {
      assert IsDigit(digits[0]);
    }
  }

  /** The length of the leading run of decimal digits of s. */
  function DigitRun(s: string): (k: nat)
    ensures k <= |s| && AllDigits(s[..k])
    ensures k < |s| ==> !IsDigit(s[k])
  {
    if |s| == 0 || !IsDigit(s[0]) then 0
    else
      var k := 1 + DigitRun(s[1..]);
      assert forall i :: 1 <= i < k ==> s[..k][i] == s[1..][..k - 1][i - 1];
      k
  }

  /**
   * `parseInt(s)` (radix 10): an optional sign, then the leading decimal
   * digits; None stands for NaN (no digit after the sign).
   */
  function ParseInt(s: string): (r: Option<int>)
    ensures r.None? <==> DigitRun(if |s| > 0 && (s[0] == '-' || s[0] == '+') then s[1..] else s) == 0
  {
    var signed := |s| > 0 && (s[0] == '-' || s[0] == '+');
    var body := if signed then s[1..] else s;
    var k := DigitRun(body);
    if k == 0 then None
    else Some(if signed && s[0] == '-' then -(DigitsValue(body[..k]) as int) else DigitsValue(body[..k]))
  }

  lemma {:induction false} DigitRunAll(s: string)
    requires AllDigits(s)
    ensures DigitRun(s) == |s|
  {
    if |s| > 0 {
      DigitRunAll(s[1..]);
    }
  }

  lemma ParseIntOfIntToString(n: int)
    ensures ParseInt(IntToString(n)) == Some(n)
  {
    var m := if n < 0 then -n else n;
    var digits := NatToString(m);
    NatToStringValue(m);
    DigitRunAll(digits);
    assert digits[..|digits|] == digits;
    if n < 0 {
      assert ("-" + digits)[1..] == digits;
    } else {
      assert IsDigit(digits[0]);
    }
  }

  /** `pieces.join(',')`. */
  function Join(pieces: seq<string>): string {
    if |pieces| == 0 then ""
    else if |pieces| == 1 then pieces[0]
    else pieces[0] + "," + Join(pieces[1..])
  }

  /** `s.split(',')`: the text between commas, never an empty list ("" gives [""]). */
  function Split(s: string): (r: seq<string>)
    ensures |r| >= 1
    ensures forall i :: 0 <= i < |r| ==> ',' !in r[i]
  {
    if |s| == 0 then [""]
    else
      var rest := Split(s[1..]);
      if s[0] == ',' then [""] + rest else [[s[0]] + rest[0]] + rest[1..]
  }

  lemma {:induction false} SplitWithoutComma(x: string)
    requires ',' !in x
    ensures Split(x) == [x]
  {
    if |x| > 0 {
      assert x[0] in x;
      assert forall i :: 0 <= i < |x[1..]| ==> x[1..][i] == x[i + 1];
      SplitWithoutComma(x[1..]);
      assert [x[0]] + x[1..] == x;
    }
  }

  lemma {:induction false} SplitAfterPiece(x: string, rest: string)
    requires ',' !in x
    ensures Split(x + "," + rest) == [x] + Split(rest)
  {
    if |x| == 0 {
      assert (x + "," + rest)[1..] == rest;
    } else {
      assert x[0] in x;
      assert forall i :: 0 <= i < |x[1..]| ==> x[1..][i] == x[i + 1];
      SplitAfterPiece(x[1..], rest);
      assert (x + "," + rest)[1..] == x[1..] + "," + rest;
      assert [x[0]] + x[1..] == x;
    }
  }

  /** Splitting a join gives back the pieces. */
  lemma {:induction false} SplitJoin(pieces: seq<string>)
    requires |pieces| >= 1
    requires forall i :: 0 <= i < |pieces| ==> ',' !in pieces[i]
    ensures Split(Join(pieces)) == pieces
  {
    if |pieces| == 1 {
      SplitWithoutComma(pieces[0]);
    } else {
      SplitJoin(pieces[1..]);
      SplitAfterPiece(pieces[0], Join(pieces[1..]));
      assert [pieces[0]] + pieces[1..] == pieces;
    }
  }

  /** Joining a split gives back the string. */
  lemma {:induction false} JoinSplit(s: string)
    ensures Join(Split(s)) == s
  {
    if |s| > 0 {
      JoinSplit(s[1..]);
      var rest := Split(s[1..]);
      if s[0] == ',' {
        assert ([""] + rest)[1..] == rest;
        assert s == "," + s[1..];
      } else {
        var r := [[s[0]] + rest[0]] + rest[1..];
        assert r[1..] == rest[1..];
        if |rest| == 1 {
          assert s == [s[0]] + rest[0];
        } else {
          assert Join(rest) == rest[0] + "," + Join(rest[1..]);
          assert s == [s[0]] + s[1..];
        }
      }
    }
  }

  /** `xs.map(String)`: the decimal text of each integer. */
  function Strings(xs: seq<int>): (r: seq<string>)
    ensures |r| == |xs|
  {
    seq(|xs|, i requires 0 <= i < |xs| => IntToString(xs[i]))
  }

  /** `pieces.map(Number)`. */
  function Numbers(pieces: seq<string>): (r: seq<JsNumber>)
    ensures |r| == |pieces|
  {
    seq(|pieces|, i requires 0 <= i < |pieces| => Number(pieces[i]))
  }

  /** Each integer as a JavaScript number. */
  function Nums(xs: seq<int>): (r: seq<JsNumber>)
    ensures |r| == |xs|
  {
    seq(|xs|, i requires 0 <= i < |xs| => Num(xs[i]))
  }

  /** A non-empty integer list survives `join(',')` then `split(',').map(Number)`. */
  lemma IntListRoundTrip(xs: seq<int>)
    requires |xs| >= 1
    ensures Numbers(Split(Join(Strings(xs)))) == Nums(xs)
  {
    SplitJoin(Strings(xs));
    forall i | 0 <= i < |xs|
      ensures Numbers(Strings(xs))[i] == Nums(xs)[i]
    {
      NumberOfIntToString(xs[i]);
    }
  }

  /** A list joins to "" exactly when it is empty. */
  lemma {:induction false} JoinEmptyIffEmpty(xs: seq<int>)
    ensures Join(Strings(xs)) == "" <==> |xs| == 0
  {
    if |xs| == 1 {
      assert Join(Strings(xs)) == IntToString(xs[0]);
    } else if |xs| > 1 {
      assert Join(Strings(xs)) == Strings(xs)[0] + "," + Join(Strings(xs)[1..]);
    }
  }
}
