/** The base64 codec that stores transaction payloads in the transition file: two accumulator
    loops over a 32-bit register. */
module Base64 {
  import opened Wrappers

  type Byte = b: int | 0 <= b < 256
  type Sextet = d: int | 0 <= d < 64

  const WORD: nat := 0x1_0000_0000

  /** The alphabet of section 4 of RFC 4648. */
  function Digit(d: Sextet): char {
    if d < 26 then ('A' as int + d) as char
    else if d < 52 then ('a' as int + d - 26) as char
    else if d < 62 then ('0' as int + d - 52) as char
    else if d == 62 then '+'
    else '/'
  }

  /** Position of a character in the alphabet. */
  function Lookup(c: char): Option<Sextet> {
    if 'A' <= c <= 'Z' then Some(c as int - 'A' as int)
    else if 'a' <= c <= 'z' then Some(c as int - 'a' as int + 26)
    else if '0' <= c <= '9' then Some(c as int - '0' as int + 52)
    else if c == '+' then Some(62)
    else if c == '/' then Some(63)
    else None
  }

  /** `value >> bits`, for the shifts the codec makes. */
  function Shr(value: nat, bits: int): nat
    requires 0 <= bits <= 6
  {
    match bits
    case 0 => value
    case 1 => value / 2
    case 2 => value / 4
    case 3 => value / 8
    case 4 => value / 16
    case 5 => value / 32
    case 6 => value / 64
  }

  // ----- encoding -----

  /** The digits written while at least six bits wait in the register. */
  function Emit(val: nat, valb: int): string
    requires valb <= 6
    decreases valb + 6
  {
    if valb < 0 then "" else [Digit(Shr(val, valb) % 64)] + Emit(val, valb - 6)
  }

  /** The bit position once `Emit` is done. */
  function Settle(valb: int): (r: int)
    requires -6 <= valb <= 6 && valb % 2 == 0
    ensures -6 <= r < 0 && r % 2 == 0
    decreases valb + 6
  {
    if valb < 0 then valb else Settle(valb - 6)
  }

  function Push(val: nat, b: Byte): nat {
    (val * 256 + b) % WORD
  }

  /** The text still to be written when the register holds `val`, its bit position is `valb`
      and `rest` is unread. */
  function Encoding(val: nat, valb: int, rest: seq<Byte>): string
    requires -6 <= valb < 0 && valb % 2 == 0
    decreases |rest|
  {
    if rest == [] then
      if valb > -6 then [Digit(Shr(val * 256 % WORD, valb + 8) % 64)] else ""
    else
      Emit(Push(val, rest[0]), valb + 8) + Encoding(Push(val, rest[0]), Settle(valb + 8), rest[1..])
  }

  function Padding(n: nat): string {
    seq(n % 3, _ => '=')
  }

  function Encoded(data: seq<Byte>): string {
    Encoding(0, -6, data) + Padding(|data|)
  }

  lemma Regroup(a: string, b: string, c: string)
    ensures (a + b) + c == a + (b + c)
  {
  }

  method EncodeBase64(data: seq<Byte>) returns (out: string)
    ensures out == Encoded(data)
  {
    var val, valb;
    out, val, valb := EncodeWhole(data);
    if valb > -6 {
      out := out + [Digit(Shr(val * 256 % WORD, valb + 8) % 64)];
    }
    assert out == Encoding(0, -6, data);
    var pad := 0;
    while pad < |data| % 3
      invariant 0 <= pad <= |data| % 3
      invariant out == Encoding(0, -6, data) + Padding(|data|)[..pad]
    {
      out := out + "=";
      pad := pad + 1;
    }
  }

  /** The loop over the bytes; fewer than six bits are left in the register. */
  method EncodeWhole(data: seq<Byte>) returns (out: string, val: nat, valb: int)
    ensures -6 <= valb < 0 && valb % 2 == 0
    ensures out + Encoding(val, valb, []) == Encoding(0, -6, data)
  {
    out, val, valb := "", 0, -6;
    var i := 0;
    while i < |data|
      invariant 0 <= i <= |data| && -6 <= valb < 0 && valb % 2 == 0
      invariant out + Encoding(val, valb, data[i..]) == Encoding(0, -6, data)
    {
      assert data[i..][0] == data[i] && data[i..][1..] == data[i + 1..];
      var digits;
      val := Push(val, data[i]);
      digits, valb := EmitAll(val, valb + 8);
      Regroup(out, digits, Encoding(val, valb, data[i + 1..]));
      out := out + digits;
      i := i + 1;
    }
    assert data[i..] == [];
  }

  /** The inner loop: one digit for every six bits waiting. */
  method EmitAll(val: nat, top: int) returns (out: string, valb: int)
    requires -6 <= top <= 6 && top % 2 == 0
    ensures out == Emit(val, top) && valb == Settle(top)
  {
    out, valb := "", top;
    while valb >= 0
      invariant -6 <= valb <= 6 && valb % 2 == 0 && Settle(valb) == Settle(top)
      invariant out + Emit(val, valb) == Emit(val, top)
    {
      out := out + [Digit(Shr(val, valb) % 64)];
      valb := valb - 6;
    }
  }

  // ----- decoding -----

  function Shift(val: nat, d: Sextet): nat {
    (val * 64 % WORD + d) % WORD
  }

  /** The bytes still to be read from `text` with the register at `val`; None on a character
      outside the alphabet. */
  function Decoding(val: nat, valb: int, text: string): Option<seq<Byte>>
    requires -8 <= valb < 0
    decreases |text|
  {
    if text == "" || text[0] == '=' then Some([])
    else
      var d :- Lookup(text[0]);
      var val := Shift(val, d);
      if valb + 6 >= 0 then
        var rest :- Decoding(val, valb - 2, text[1..]);
        Some([Shr(val, valb + 6) % 256] + rest)
      else
        Decoding(val, valb + 6, text[1..])
  }

  method DecodeBase64(text: string) returns (r: Option<seq<Byte>>)
    ensures r == Decoding(0, -8, text)
  {
    var out: seq<Byte> := [];
    var val, valb := 0, -8;
    JoinedEmpty(Decoding(0, -8, text));
    assert text[0..] == text;
    var i := 0;
    while i < |text|
      invariant 0 <= i <= |text| && -8 <= valb < 0 && 0 <= val
      invariant Joined(out, Decoding(val, valb, text[i..])) == Decoding(0, -8, text)
    {
      assert text[i..][0] == text[i] && text[i..][1..] == text[i + 1..];
      if text[i] == '=' {
        break;
      }
      var lookup := Lookup(text[i]);
      if lookup.None? {
        return None;
      }
      val := Shift(val, lookup.value);
      valb := valb + 6;
      if valb >= 0 {
        JoinedTwice(out, [Shr(val, valb) % 256], Decoding(val, valb - 8, text[i + 1..]));
        out := out + [Shr(val, valb) % 256];
        valb := valb - 8;
      }
      i := i + 1;
    }
    assert Decoding(val, valb, text[i..]) == Some([]);
    assert out + [] == out;
    r := Some(out);
  }

  function Joined(head: seq<Byte>, tail: Option<seq<Byte>>): Option<seq<Byte>> {
    var t :- tail;
    Some(head + t)
  }

  lemma JoinedEmpty(tail: Option<seq<Byte>>)
    ensures Joined([], tail) == tail
  {
    if tail.Some? {
      assert [] + tail.value == tail.value;
    }
  }

  lemma JoinedTwice(a: seq<Byte>, b: seq<Byte>, tail: Option<seq<Byte>>)
    ensures Joined(a, Joined(b, tail)) == Joined(a + b, tail)
  {
    if tail.Some? {
      assert a + (b + tail.value) == a + b + tail.value;
    }
  }

  // ----- round trip -----

  predicate AllPadding(pad: string) {
    pad == "" || pad[0] == '='
  }

  /** Only the low bits of a register survive a wrap, and only they are ever read again. */
  lemma PushKeeps(val: nat, b: Byte)
    ensures Push(val, b) % 4096 == (val * 256 + b) % 4096
    ensures val * 256 % WORD % 4096 == val * 256 % 4096
  {
    WrapKeeps(val * 256 + b);
    WrapKeeps(val * 256);
  }

  lemma Euclid(x: nat, m: nat, q: nat, r: nat)
    requires x == m * q + r && r < m
    ensures x / m == q && x % m == r
  {
    var d := q - x / m;
    assert x == m * (x / m) + x % m;
    assert m * d == x % m - r;
    MultipleOutside(m, d);
  }

  lemma MultipleOutside(m: nat, d: int)
    ensures d > 0 ==> m * d >= m
    ensures d < 0 ==> m * d <= -(m as int)
  {
  }

  lemma ModAdds(r: nat, q: nat, m: nat)
    requires m > 0
    ensures (m * q + r) % m == r % m
  {
    assert m * q + r == m * (q + r / m) + r % m;
    Euclid(m * q + r, m, q + r / m, r % m);
  }

  lemma WrapKeeps(x: nat)
    ensures x % WORD % 4096 == x % 4096
  {
    var q := x / WORD;
    ModAdds(x % WORD, 0x10_0000 * q, 4096);
    assert x == 4096 * (0x10_0000 * q) + x % WORD;
  }

  lemma ShiftKeeps(dval: nat, d: Sextet)
    ensures Shift(dval, d) % 4096 == (dval * 64 + d) % 4096
  {
    var q := dval * 64 / WORD;
    ModAdds(dval * 64 % WORD + d, 0x10_0000 * q, 4096);
    assert dval * 64 + d == 4096 * (0x10_0000 * q) + (dval * 64 % WORD + d);
    WrapKeeps(dval * 64 % WORD + d);
  }

  lemma Spread(a: nat, m: nat, k: nat, q: nat, v: nat)
    ensures a * (m * (k * q) + v) == a * m * k * q + a * v
  {
    var u := k * q;
    assert a * (m * u) == (a * m) * u;
    assert (a * m) * u == a * m * k * q;
  }

  /** A field of `m` values above the lowest `a` is read from the low `a * m * k` values. */
  lemma FieldKeeps(x: nat, a: nat, m: nat, k: nat)
    requires a > 0 && m > 0 && a * m * k == 4096
    ensures x / a % m == x % 4096 / a % m
  {
    var q, r := x / 4096, x % 4096;
    Spread(a, m, k, q, r / a);
    Euclid(x, a, m * (k * q) + r / a, r % a);
    ModAdds(r / a, k * q, m);
  }

  /** Two registers that agree on twelve low bits agree on every field cut from them. */
  lemma SameField(x: nat, y: nat, a: nat, m: nat, k: nat)
    requires a > 0 && m > 0 && a * m * k == 4096 && x % 4096 == y % 4096
    ensures x / a % m == y / a % m
  {
    FieldKeeps(x, a, m, k);
    FieldKeeps(y, a, m, k);
  }

  /** What the encoder cuts from a register that took `b` after `val`. */
  lemma PushedBits(v: nat, val: nat, b: Byte)
    requires v % 4096 == (val * 256 + b) % 4096
    ensures v % 4 == b % 4 && v % 16 == b % 16 && v % 64 == b % 64
    ensures v / 4 % 64 == b / 4 && v / 16 % 64 == val % 4 * 16 + b / 16 && v / 64 % 64 == val % 16 * 4 + b / 64
  {
    var y := val * 256 + b;
    SameField(v, y, 1, 4, 1024);
    SameField(v, y, 1, 16, 256);
    SameField(v, y, 1, 64, 64);
    SameField(v, y, 4, 64, 16);
    SameField(v, y, 16, 64, 4);
    SameField(v, y, 64, 64, 1);
    Euclid(y, 4, 64 * val + b / 4, b % 4);
    Euclid(y, 16, 16 * val + b / 16, b % 16);
    Euclid(y, 64, 4 * val + b / 64, b % 64);
    Euclid(64 * val + b / 4, 64, val, b / 4);
    Euclid(16 * val + b / 16, 64, val / 4, 16 * (val % 4) + b / 16);
    Euclid(4 * val + b / 64, 64, val / 16, 4 * (val % 16) + b / 64);
  }

  /** What the decoder cuts from a register that took `d` after `dval`. */
  lemma ShiftedBits(w: nat, dval: nat, d: Sextet)
    requires w % 4096 == (dval * 64 + d) % 4096
    ensures w % 4 == d % 4 && w % 16 == d % 16 && w % 64 == d
    ensures w / 16 % 256 == dval % 64 * 4 + d / 16 && w / 4 % 256 == dval % 16 * 16 + d / 4
    ensures w % 256 == dval % 4 * 64 + d
  {
    var y := dval * 64 + d;
    SameField(w, y, 1, 4, 1024);
    SameField(w, y, 1, 16, 256);
    SameField(w, y, 1, 64, 64);
    SameField(w, y, 1, 256, 16);
    SameField(w, y, 16, 256, 1);
    SameField(w, y, 4, 256, 4);
    Euclid(y, 4, 16 * dval + d / 4, d % 4);
    Euclid(y, 16, 4 * dval + d / 16, d % 16);
    Euclid(y, 64, dval, d);
    Euclid(y, 256, dval / 4, 64 * (dval % 4) + d);
    Euclid(4 * dval + d / 16, 256, dval / 64, 4 * (dval % 64) + d / 16);
    Euclid(16 * dval + d / 4, 256, dval / 16, 16 * (dval % 16) + d / 4);
  }

  lemma AlignedBits(val: nat, b: Byte, dval: nat)
    ensures Push(val, b) % 4 == b % 4 && Push(val, b) / 4 % 64 == b / 4
    ensures Shift(dval, b / 4) % 64 == b / 4
  {
    PushKeeps(val, b);
    PushedBits(Push(val, b), val, b);
    ShiftKeeps(dval, b / 4);
    ShiftedBits(Shift(dval, b / 4), dval, b / 4);
  }

  lemma TwoBits(val: nat, b: Byte, dval: nat)
    ensures var d := val % 4 * 16 + b / 16;
            Push(val, b) / 16 % 64 == d && Push(val, b) % 16 == b % 16 &&
            Shift(dval, d) / 16 % 256 == dval % 64 * 4 + val % 4 && Shift(dval, d) % 16 == b / 16
    ensures var d := val % 4 * 16;
            val * 256 % WORD / 16 % 64 == d && Shift(dval, d) / 16 % 256 == dval % 64 * 4 + val % 4
  {
    PushKeeps(val, b);
    PushedBits(Push(val, b), val, b);
    PushedBits(val * 256 % WORD, val, 0);
    var d, e := val % 4 * 16 + b / 16, val % 4 * 16;
    ShiftKeeps(dval, d);
    ShiftedBits(Shift(dval, d), dval, d);
    ShiftKeeps(dval, e);
    ShiftedBits(Shift(dval, e), dval, e);
  }

  lemma FourBits(val: nat, b: Byte, dval: nat)
    ensures var d, e := val % 16 * 4 + b / 64, b % 64;
            Push(val, b) / 64 % 64 == d && Push(val, b) % 64 == e &&
            Shift(dval, d) / 4 % 256 == dval % 16 * 16 + val % 16 && Shift(Shift(dval, d), e) % 256 == b
    ensures var d := val % 16 * 4;
            val * 256 % WORD / 64 % 64 == d && Shift(dval, d) / 4 % 256 == dval % 16 * 16 + val % 16
  {
    PushKeeps(val, b);
    PushedBits(Push(val, b), val, b);
    PushedBits(val * 256 % WORD, val, 0);
    var d, e, f := val % 16 * 4 + b / 64, b % 64, val % 16 * 4;
    ShiftKeeps(dval, d);
    ShiftedBits(Shift(dval, d), dval, d);
    ShiftKeeps(Shift(dval, d), e);
    ShiftedBits(Shift(Shift(dval, d), e), Shift(dval, d), e);
    ShiftKeeps(dval, f);
    ShiftedBits(Shift(dval, f), dval, f);
  }

  /** Reading back a digit from the front of a text. */
  lemma DecodingStep(val: nat, valb: int, d: Sextet, rest: string)
    requires -8 <= valb < 0
    ensures Decoding(val, valb, [Digit(d)] + rest) ==
            if valb + 6 >= 0
            then Joined([Shr(Shift(val, d), valb + 6) % 256], Decoding(Shift(val, d), valb - 2, rest))
            else Decoding(Shift(val, d), valb + 6, rest)
  {
    assert ([Digit(d)] + rest)[1..] == rest;
    assert Lookup(Digit(d)) == Some(d) && Digit(d) != '=';
  }

  lemma EmitParts(val: nat)
    ensures Emit(val, 2) == [Digit(val / 4 % 64)] && Emit(val, 4) == [Digit(val / 16 % 64)]
    ensures Emit(val, 6) == [Digit(val / 64 % 64)] + [Digit(val % 64)]
    ensures Settle(2) == -4 && Settle(4) == -2 && Settle(6) == -6
  {
    assert Emit(val, 6) == [Digit(Shr(val, 6) % 64)] + Emit(val, 0);
    assert Emit(val, 0) == [Digit(Shr(val, 0) % 64)] + Emit(val, -6);
  }

  lemma EncodingOne(val: nat, valb: int, rest: seq<Byte>, pad: string)
    requires -6 <= valb < 0 && valb % 2 == 0 && rest != []
    ensures var val' := Push(val, rest[0]);
            Encoding(val, valb, rest) + pad ==
            Emit(val', valb + 8) + (Encoding(val', Settle(valb + 8), rest[1..]) + pad)
  {
    var val' := Push(val, rest[0]);
    Regroup(Emit(val', valb + 8), Encoding(val', Settle(valb + 8), rest[1..]), pad);
  }

  /** What is written for one more byte, in front of the rest, by what waits in the register. */
  lemma AlignedStep(val: nat, rest: seq<Byte>, pad: string)
    requires rest != []
    ensures var val' := Push(val, rest[0]);
            Encoding(val, -6, rest) + pad == [Digit(val' / 4 % 64)] + (Encoding(val', -4, rest[1..]) + pad)
  {
    EmitParts(Push(val, rest[0]));
    EncodingOne(val, -6, rest, pad);
  }

  lemma TwoBitsStep(val: nat, rest: seq<Byte>, pad: string)
    requires rest != []
    ensures var val' := Push(val, rest[0]);
            Encoding(val, -4, rest) + pad == [Digit(val' / 16 % 64)] + (Encoding(val', -2, rest[1..]) + pad)
  {
    EmitParts(Push(val, rest[0]));
    EncodingOne(val, -4, rest, pad);
  }

  lemma FourBitsStep(val: nat, rest: seq<Byte>, pad: string)
    requires rest != []
    ensures var val' := Push(val, rest[0]);
            Encoding(val, -2, rest) + pad ==
            [Digit(val' / 64 % 64)] + ([Digit(val' % 64)] + (Encoding(val', -6, rest[1..]) + pad))
  {
    var val' := Push(val, rest[0]);
    EmitParts(val');
    EncodingOne(val, -2, rest, pad);
    Regroup([Digit(val' / 64 % 64)], [Digit(val' % 64)], Encoding(val', -6, rest[1..]) + pad);
  }

  /** Both registers in step, nothing waiting on either side. */
  lemma {:induction false} AlignedTrip(val: nat, rest: seq<Byte>, dval: nat, pad: string)
    requires AllPadding(pad)
    ensures Decoding(dval, -8, Encoding(val, -6, rest) + pad) == Some(rest)
    decreases |rest|
  {
    if rest == [] {
      assert "" + pad == pad;
    } else {
      var b := rest[0];
      AlignedBits(val, b, dval);
      AlignedStep(val, rest, pad);
      DecodingStep(dval, -8, b / 4, Encoding(Push(val, b), -4, rest[1..]) + pad);
      TwoBitsTrip(Push(val, b), rest[1..], Shift(dval, b / 4), pad);
      assert [b] + rest[1..] == rest;
    }
  }

  /** Two bits wait in the encoder, the six above them in the decoder. */
  lemma {:induction false} TwoBitsTrip(val: nat, rest: seq<Byte>, dval: nat, pad: string)
    requires AllPadding(pad)
    ensures Decoding(dval, -2, Encoding(val, -4, rest) + pad) == Some([dval % 64 * 4 + val % 4] + rest)
    decreases |rest|
  {
    var p := dval % 64 * 4 + val % 4;
    if rest == [] {
      TwoBitsEnd(val, dval, pad);
    } else {
      var b := rest[0];
      var d: Sextet := val % 4 * 16 + b / 16;
      TwoBits(val, b, dval);
      TwoBitsStep(val, rest, pad);
      DecodingStep(dval, -2, d, Encoding(Push(val, b), -2, rest[1..]) + pad);
      FourBitsTrip(Push(val, b), rest[1..], Shift(dval, d), pad);
      assert [p] + ([b] + rest[1..]) == [p] + rest;
    }
  }

  lemma TwoBitsEnd(val: nat, dval: nat, pad: string)
    requires AllPadding(pad)
    ensures Decoding(dval, -2, Encoding(val, -4, []) + pad) == Some([dval % 64 * 4 + val % 4] + [])
  {
    TwoBits(val, 0, dval);
    DecodingStep(dval, -2, val % 4 * 16, pad);
  }

  /** Four bits wait in the encoder, the four above them in the decoder. */
  lemma {:induction false} FourBitsTrip(val: nat, rest: seq<Byte>, dval: nat, pad: string)
    requires AllPadding(pad)
    ensures Decoding(dval, -4, Encoding(val, -2, rest) + pad) == Some([dval % 16 * 16 + val % 16] + rest)
    decreases |rest|
  {
    if rest == [] {
      FourBitsEnd(val, dval, pad);
    } else {
      var b := rest[0];
      var tail := Encoding(Push(val, b), -6, rest[1..]) + pad;
      var next := Shift(Shift(dval, val % 16 * 4 + b / 64), b % 64);
      FourBitsStep(val, rest, pad);
      AlignedTrip(Push(val, b), rest[1..], next, pad);
      FourBitsMore(val, b, dval, rest[1..], tail);
      assert [b] + rest[1..] == rest;
    }
  }

  lemma FourBitsEnd(val: nat, dval: nat, pad: string)
    requires AllPadding(pad)
    ensures Decoding(dval, -4, Encoding(val, -2, []) + pad) == Some([dval % 16 * 16 + val % 16] + [])
  {
    FourBits(val, 0, dval);
    DecodingStep(dval, -4, val % 16 * 4, pad);
  }

  lemma FourBitsMore(val: nat, b: Byte, dval: nat, more: seq<Byte>, tail: string)
    requires Decoding(Shift(Shift(dval, val % 16 * 4 + b / 64), b % 64), -8, tail) == Some(more)
    ensures Push(val, b) / 64 % 64 == val % 16 * 4 + b / 64 && Push(val, b) % 64 == b % 64
    ensures Decoding(dval, -4, [Digit(val % 16 * 4 + b / 64)] + ([Digit(b % 64)] + tail)) ==
            Some([dval % 16 * 16 + val % 16] + ([b] + more))
  {
    FourBits(val, b, dval);
    TwoDigits(dval, val % 16 * 4 + b / 64, b % 64, tail);
  }

  /** Two digits read back with four bits waiting. */
  lemma TwoDigits(dval: nat, d: Sextet, e: Sextet, tail: string)
    ensures Decoding(dval, -4, [Digit(d)] + ([Digit(e)] + tail)) ==
            Joined([Shift(dval, d) / 4 % 256],
                   Joined([Shift(Shift(dval, d), e) % 256], Decoding(Shift(Shift(dval, d), e), -8, tail)))
  {
    DecodingStep(dval, -4, d, [Digit(e)] + tail);
    DecodingStep(Shift(dval, d), -6, e, tail);
  }

  /** Decoding undoes encoding, for every byte vector. */
  lemma RoundTrip(data: seq<Byte>)
    ensures Decoding(0, -8, Encoded(data)) == Some(data)
  {
    AlignedTrip(0, data, 0, Padding(|data|));
  }

  // ----- the text byte by byte -----

  /** Six bits a character: capitals, small letters, digits, plus and slash. */
  predicate Writes(c: char, d: int) {
    (0 <= d < 26 && c as int == 65 + d) || (26 <= d < 52 && c as int == 97 + d - 26) ||
    (52 <= d < 62 && c as int == 48 + d - 52) || (d == 62 && c == '+') || (d == 63 && c == '/')
  }

  /** Three bytes make four characters; one or two left over make one more than they are. */
  predicate Spells(text: string, data: seq<Byte>)
    decreases |data|
  {
    if |data| == 0 then text == ""
    else if |data| == 1 then
      |text| == 2 && Writes(text[0], data[0] / 4) && Writes(text[1], data[0] % 4 * 16)
    else if |data| == 2 then
      |text| == 3 && Writes(text[0], data[0] / 4) && Writes(text[1], data[0] % 4 * 16 + data[1] / 16) &&
      Writes(text[2], data[1] % 16 * 4)
    else
      |text| >= 4 && Writes(text[0], data[0] / 4) && Writes(text[1], data[0] % 4 * 16 + data[1] / 16) &&
      Writes(text[2], data[1] % 16 * 4 + data[2] / 64) && Writes(text[3], data[2] % 64) &&
      Spells(text[4..], data[3..])
  }

  lemma FirstChar(val: nat, rest: seq<Byte>)
    requires rest != []
    ensures Push(val, rest[0]) % 4 == rest[0] % 4
    ensures Encoding(val, -6, rest) == [Digit(rest[0] / 4)] + Encoding(Push(val, rest[0]), -4, rest[1..])
  {
    AlignedStep(val, rest, "");
    AlignedBits(val, rest[0], 0);
    NoPad(Encoding(val, -6, rest));
    NoPad(Encoding(Push(val, rest[0]), -4, rest[1..]));
  }

  lemma SecondChar(val: nat, rest: seq<Byte>)
    requires rest != []
    ensures Push(val, rest[0]) % 16 == rest[0] % 16
    ensures Encoding(val, -4, rest) ==
            [Digit(val % 4 * 16 + rest[0] / 16)] + Encoding(Push(val, rest[0]), -2, rest[1..])
  {
    TwoBitsStep(val, rest, "");
    TwoBits(val, rest[0], 0);
    NoPad(Encoding(val, -4, rest));
    NoPad(Encoding(Push(val, rest[0]), -2, rest[1..]));
  }

  lemma LastChars(val: nat, rest: seq<Byte>)
    requires rest != []
    ensures Encoding(val, -2, rest) ==
            [Digit(val % 16 * 4 + rest[0] / 64)] + ([Digit(rest[0] % 64)] + Encoding(Push(val, rest[0]), -6, rest[1..]))
  {
    FourBitsStep(val, rest, "");
    FourBits(val, rest[0], 0);
    NoPad(Encoding(val, -2, rest));
    NoPad(Encoding(Push(val, rest[0]), -6, rest[1..]));
  }

  lemma NoPad(text: string)
    ensures text + "" == text
  {
  }

  lemma LeftOver(val: nat)
    ensures Encoding(val, -4, []) == [Digit(val % 4 * 16)] && Encoding(val, -2, []) == [Digit(val % 16 * 4)]
  {
    TwoBits(val, 0, 0);
    FourBits(val, 0, 0);
  }

  lemma FourThen(a: char, b: char, c: char, d: char, rest: string)
    ensures var text := [a] + ([b] + ([c] + ([d] + rest)));
            |text| >= 4 && text[0] == a && text[1] == b && text[2] == c && text[3] == d && text[4..] == rest
  {
  }

  /** What is encoded spells the bytes, whatever the register held before. */
  lemma {:induction false} EncodingSpells(val: nat, data: seq<Byte>)
    ensures Spells(Encoding(val, -6, data), data)
    decreases |data|
  {
    if |data| == 1 {
      FirstChar(val, data);
      LeftOver(Push(val, data[0]));
    } else if |data| == 2 {
      TwoBytesSpell(val, data);
    } else if |data| > 2 {
      var v := Push(val, data[0]);
      var w := Push(v, data[1]);
      var x := Push(w, data[2]);
      EncodingSpells(x, data[3..]);
      ThreeBytesSpell(val, data, Encoding(x, -6, data[3..]));
    }
  }

  lemma TwoBytesSpell(val: nat, data: seq<Byte>)
    requires |data| == 2
    ensures Spells(Encoding(val, -6, data), data)
  {
    var v := Push(val, data[0]);
    FirstChar(val, data);
    SecondChar(v, data[1..]);
    LeftOver(Push(v, data[1]));
    assert data[1..][1..] == [];
  }

  lemma ThreeBytes(val: nat, data: seq<Byte>, rest: string)
    requires |data| > 2 && rest == Encoding(Push(Push(Push(val, data[0]), data[1]), data[2]), -6, data[3..])
    ensures Encoding(val, -6, data) ==
            [Digit(data[0] / 4)] + ([Digit(data[0] % 4 * 16 + data[1] / 16)] +
            ([Digit(data[1] % 16 * 4 + data[2] / 64)] + ([Digit(data[2] % 64)] + rest)))
  {
    var v := Push(val, data[0]);
    var w := Push(v, data[1]);
    FirstChar(val, data);
    SecondChar(v, data[1..]);
    assert data[1..][0] == data[1] && data[1..][1..] == data[2..];
    LastChars(w, data[2..]);
    assert data[2..][0] == data[2] && data[2..][1..] == data[3..];
  }

  lemma ThreeBytesSpell(val: nat, data: seq<Byte>, rest: string)
    requires |data| > 2 && rest == Encoding(Push(Push(Push(val, data[0]), data[1]), data[2]), -6, data[3..])
    requires Spells(rest, data[3..])
    ensures Spells(Encoding(val, -6, data), data)
  {
    ThreeBytes(val, data, rest);
    FourThen(Digit(data[0] / 4), Digit(data[0] % 4 * 16 + data[1] / 16), Digit(data[1] % 16 * 4 + data[2] / 64),
             Digit(data[2] % 64), rest);
  }

  /** The encoded text spells the bytes and ends with one equals sign for each byte left over. */
  lemma EncodedSpells(data: seq<Byte>)
    ensures var text, pad := Encoded(data), |data| % 3;
            |text| >= pad && Spells(text[..|text| - pad], data) &&
                forall k | |text| - pad <= k < |text| :: text[k] == '='
  {
    EncodingSpells(0, data);
    assert Encoded(data)[..|Encoding(0, -6, data)|] == Encoding(0, -6, data);
  }
}
