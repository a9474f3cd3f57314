/** Amounts as the ledger stores them: the text of a big integer. Orders keep the text a client
    sent; whatever the ledger computes is written back in plain decimal. */
module Numerals {
  import opened Wrappers

  function DigitValue(c: char, base: nat): Option<nat> {
    var d := if '0' <= c <= '9' then c as int - '0' as int
             else if 'a' <= c <= 'f' then c as int - 'a' as int + 10
             else if 'A' <= c <= 'F' then c as int - 'A' as int + 10
             else base;
    if d < base then Some(d) else None
  }

  function ParseDigits(s: string, base: nat): Option<nat> {
    if s == "" then Some(0)
    else
      var high :- ParseDigits(s[..|s| - 1], base);
      var low :- DigitValue(s[|s| - 1], base);
      Some(high * base + low)
  }

  /** Unsigned text: hexadecimal after `0x`, octal after a leading zero, decimal otherwise. */
  function ParseNat(s: string): Option<nat> {
    if s == "" then Some(0)
    else if s[0] != '0' then ParseDigits(s, 10)
    else if |s| > 1 && (s[1] == 'x' || s[1] == 'X') then ParseDigits(s[2..], 16)
    else ParseDigits(s[1..], 8)
  }

  function Parse(s: string): Option<int> {
    if s != "" && s[0] == '-' then
      var n: int :- ParseNat(s[1..]);
      Some(-n)
    else
      ParseNat(s)
  }

  /** getBigint without allowNegative. */
  function Amount(s: string): Option<nat> {
    var n :- Parse(s);
    if n < 0 then None else Some(n)
  }

  function ShowDigits(n: nat): string {
    if n == 0 then "" else ShowDigits(n / 10) + [Decimal(n % 10)]
  }

  function Decimal(d: nat): (c: char)
    requires d < 10
    ensures DigitValue(c, 10) == Some(d) && '0' <= c <= '9' && (c == '0' <==> d == 0)
  {
    ('0' as int + d) as char
  }

  function Show(n: int): string {
    if n == 0 then "0" else if n < 0 then "-" + ShowDigits(-n) else ShowDigits(n)
  }

  lemma {:induction false} ParseShowDigits(n: nat)
    requires n > 0
    ensures ParseDigits(ShowDigits(n), 10) == Some(n)
    ensures ShowDigits(n) != "" && '1' <= ShowDigits(n)[0] <= '9'
  {
    if n < 10 {
      assert ShowDigits(n / 10) == "" && ParseDigits("", 10) == Some(0);
    } else {
      ParseShowDigits(n / 10);
    }
    ParseAppend(ShowDigits(n / 10), n / 10, n % 10);
  }

  lemma ParseAppend(high: string, h: nat, d: nat)
    requires d < 10 && ParseDigits(high, 10) == Some(h)
    ensures ParseDigits(high + [Decimal(d)], 10) == Some(h * 10 + d)
  {
    var s := high + [Decimal(d)];
    assert s[..|s| - 1] == high && s[|s| - 1] == Decimal(d);
  }

  /** Text the ledger writes reads back as the number it stands for. */
  lemma ParseShow(n: int)
    ensures Parse(Show(n)) == Some(n)
    ensures n >= 0 ==> Amount(Show(n)) == Some(n)
  {
    if n == 0 {
      assert "0"[1..] == "";
    } else {
      ParseShowDigits(if n < 0 then -n else n);
      if n < 0 {
        assert Show(n)[1..] == ShowDigits(-n);
      }
    }
  }

  /** Lexicographic order of texts, the order in which the source compares two fees. */
  predicate TextLess(a: string, b: string) {
    if b == "" then false
    else if a == "" then true
    else a[0] < b[0] || (a[0] == b[0] && TextLess(a[1..], b[1..]))
  }

  // ----- digits by their place -----

  function Weight(base: nat, n: nat): nat {
    if n == 0 then 1 else base * Weight(base, n - 1)
  }

  /** A digit and its value: decimal digits, then letters of either case. */
  predicate IsDigit(c: char, d: nat) {
    (d < 10 && c as int == 48 + d) || (10 <= d < 16 && (c as int == 97 + d - 10 || c as int == 65 + d - 10))
  }

  /** The values of the digits. */
  predicate Digits(s: string, base: nat, values: seq<nat>) {
    |values| == |s| && forall i | 0 <= i < |s| :: values[i] < base && IsDigit(s[i], values[i])
  }

  /** Digits count by their place. */
  function Place(values: seq<nat>, base: nat): nat {
    if values == [] then 0 else values[0] * Weight(base, |values| - 1) + Place(values[1..], base)
  }

  lemma WeightStep(d: nat, w: nat, rest: nat, base: nat)
    ensures d * (base * w) + rest * base == (d * w + rest) * base
  {
  }

  lemma {:induction false} PlaceAppend(values: seq<nat>, d: nat, base: nat)
    ensures Place(values + [d], base) == Place(values, base) * base + d
    decreases |values|
  {
    if values == [] {
      assert (values + [d])[1..] == [] && Weight(base, 0) == 1;
      assert Place(values + [d], base) == d * 1 + Place([], base);
    } else {
      assert (values + [d])[1..] == values[1..] + [d];
      PlaceAppend(values[1..], d, base);
      WeightStep(values[0], Weight(base, |values| - 1), Place(values[1..], base), base);
    }
  }

  /** A text of digits, and no other, is read as the number they stand for. */
  lemma {:induction false} ParseExactly(s: string, base: nat) returns (values: seq<nat>)
    requires base <= 16
    ensures ParseDigits(s, base).Some? ==> Digits(s, base, values) && ParseDigits(s, base).value == Place(values, base)
    ensures ParseDigits(s, base).None? ==> forall v :: !Digits(s, base, v)
    decreases |s|
  {
    values := [];
    if s != "" {
      var n := |s| - 1;
      var before := ParseExactly(s[..n], base);
      forall v | Digits(s, base, v)
        ensures Digits(s[..n], base, v[..n]) && DigitValue(s[n], base) == Some(v[n])
      {
        assert forall i | 0 <= i < n :: s[..n][i] == s[i] && v[..n][i] == v[i];
        assert IsDigit(s[n], v[n]);
      }
      if ParseDigits(s, base).Some? {
        var d := DigitValue(s[n], base).value;
        values := before + [d];
        PlaceAppend(before, d, base);
        assert IsDigit(s[n], d);
      }
    }
  }
}
