/**
 * The few Python string operations the tools rely on: `sep.join(parts)`,
 * the substring test `needle in hay`, and `str(n)` for an int, together with
 * a decimal parser that is its inverse.
 */
module Text {

  /** Python's `sep.join(parts)`. */
  function Join(sep: string, parts: seq<string>): (r: string)
  {
    if parts == [] then ""
    else if |parts| == 1 then parts[0]
    else parts[0] + sep + Join(sep, parts[1..])
  }

  /** Appending one more part to a join adds the separator and that part. */
  lemma {:induction false} JoinSnoc(sep: string, parts: seq<string>, x: string)
    requires parts != []
    ensures Join(sep, parts + [x]) == Join(sep, parts) + sep + x
  {
    if |parts| == 1 {
      assert parts + [x] == [parts[0], x];
      assert [parts[0], x][1..] == [x];
    } else {
      assert (parts + [x])[1..] == parts[1..] + [x];
      JoinSnoc(sep, parts[1..], x);
    }
  }

  /** `s` begins with `prefix`. */
  predicate StartsWith(s: string, prefix: string)
  {
    |prefix| <= |s| && s[..|prefix|] == prefix
  }

  /** `t` occurs in `s` starting at index `i`. */
  predicate OccursAt(s: string, i: nat, t: string)
  {
    i + |t| <= |s| && s[i..i + |t|] == t
  }

  /** Python's substring test `needle in hay` (the empty string is in every string). */
  predicate Contains(hay: string, needle: string)
    decreases |hay|
  {
    StartsWith(hay, needle) || (hay != [] && Contains(hay[1..], needle))
  }

  /** The scanning definition of `Contains` agrees with "occurs at some index". */
  lemma {:induction false} ContainsIff(hay: string, needle: string)
    ensures Contains(hay, needle) <==> exists i: nat :: OccursAt(hay, i, needle)
    decreases |hay|
  {
    if StartsWith(hay, needle) {
      assert OccursAt(hay, 0, needle);
    } else if hay == [] {
      forall i: nat ensures !OccursAt(hay, i, needle) {
      }
    } else {
      var tail := hay[1..];
      ContainsIff(tail, needle);
      forall i: nat | OccursAt(tail, i, needle) ensures OccursAt(hay, i + 1, needle) {
        assert tail[i..i + |needle|] == hay[i + 1..i + 1 + |needle|];
      }
      forall i: nat | OccursAt(hay, i, needle) ensures OccursAt(tail, i - 1, needle) {
        assert tail[i - 1..i - 1 + |needle|] == hay[i..i + |needle|];
      }
    }
  }

  /** The middle of a concatenation is contained in it. */
  lemma ContainsInfix(a: string, b: string, c: string)
    ensures Contains(a + b + c, b)
  {
    assert (a + b + c)[|a|..|a| + |b|] == b;
    assert OccursAt(a + b + c, |a|, b);
    ContainsIff(a + b + c, b);
  }

  /** Every part of a join appears in it verbatim. */
  lemma {:induction false} JoinContainsEach(sep: string, parts: seq<string>)
    ensures forall k :: 0 <= k < |parts| ==> Contains(Join(sep, parts), parts[k])
  {
    if |parts| == 1 {
      ContainsInfix("", parts[0], "");
      assert "" + parts[0] + "" == parts[0];
    } else if |parts| > 1 {
      var rest := Join(sep, parts[1..]);
      JoinContainsEach(sep, parts[1..]);
      ContainsInfix("", parts[0], sep + rest);
      assert "" + parts[0] + (sep + rest) == Join(sep, parts);
      forall k | 1 <= k < |parts| ensures Contains(Join(sep, parts), parts[k]) {
        assert parts[k] == parts[1..][k - 1];
        ContainsIff(rest, parts[k]);
        var i: nat :| OccursAt(rest, i, parts[k]);
        var whole := Join(sep, parts);
        var off := |parts[0] + sep|;
        assert whole == parts[0] + sep + rest;
        assert whole[off + i..off + i + |parts[k]|] == rest[i..i + |parts[k]|];
        assert OccursAt(whole, off + i, parts[k]);
        ContainsIff(whole, parts[k]);
      }
    }
  }

  // ---- decimal text of integers -------------------------------------------

  predicate IsDigit(c: char)
  {
    '0' <= c <= '9'
  }

  predicate AllDigits(s: string)
  {
    forall k :: 0 <= k < |s| ==> IsDigit(s[k])
  }

  function DigitChar(d: nat): (c: char)
    requires d < 10
    ensures IsDigit(c) && c as int - '0' as int == d
  {
    ('0' as int + d) as char
  }

  /** Python's `str(n)` for a non-negative int: decimal digits, no leading zero. */
  function NatToString(n: nat): (r: string)
    ensures |r| >= 1 && AllDigits(r)
    ensures r[0] == '0' ==> n == 0
    decreases n
  {
    if n < 10 then [DigitChar(n)]
    else NatToString(n / 10) + [DigitChar(n % 10)]
  }

  /** Python's `str(n)` for an int: a minus sign before the digits of a negative number. */
  function IntToString(n: int): (r: string)
  {
    if n < 0 then "-" + NatToString(-n) else NatToString(n)
  }

  /** The value of a string of decimal digits. */
  function ParseNat(s: string): (r: int)
    requires AllDigits(s)
  {
    if s == [] then 0
    else ParseNat(s[..|s| - 1]) * 10 + (s[|s| - 1] as int - '0' as int)
  }

  /** The shapes `str(n)` produces: digits, optionally after one minus sign. */
  predicate IsIntText(s: string)
  {
    if |s| > 0 && s[0] == '-' then |s| > 1 && AllDigits(s[1..]) else |s| > 0 && AllDigits(s)
  }

  /** The value of an integer text, the inverse of `IntToString`. */
  function ParseInt(s: string): (r: int)
    requires IsIntText(s)
  {
    if s[0] == '-' then -ParseNat(s[1..]) else ParseNat(s)
  }

  lemma {:induction false} NatToStringRoundTrip(n: nat)
    ensures ParseNat(NatToString(n)) == n
    decreases n
  {
    var r := NatToString(n);
    if n >= 10 {
      NatToStringRoundTrip(n / 10);
      assert r[..|r| - 1] == NatToString(n / 10);
    }
  }

  /** `str(n)` is an integer text whose value is `n`. */
  lemma IntToStringRoundTrip(n: int)
    ensures IsIntText(IntToString(n)) && ParseInt(IntToString(n)) == n
  {
    var r := IntToString(n);
    if n < 0 {
      NatToStringRoundTrip(-n);
      assert r[1..] == NatToString(-n);
    } else {
      NatToStringRoundTrip(n);
    }
  }
}
