/** Proof-of-work digests: leading zero bits against the digest read as a big-endian number. */
module Digest {

  type Byte = b: int | 0 <= b < 256

  function Pow2(n: nat): (p: nat)
    ensures p > 0
  {
    if n == 0 then 1 else 2 * Pow2(n - 1)
  }

  lemma {:induction false} Pow2Adds(m: nat, n: nat)
    ensures Pow2(m + n) == Pow2(m) * Pow2(n)
  {
    if m > 0 {
      Pow2Adds(m - 1, n);
      assert Pow2(m + n) == 2 * (Pow2(m - 1) * Pow2(n));
    }
  }

  lemma {:induction false} Pow2Monotone(m: nat, n: nat)
    requires m <= n
    ensures Pow2(m) <= Pow2(n)
  {
    if m < n {
      Pow2Monotone(m, n - 1);
    }
  }

  lemma Pow2Small()
    ensures Pow2(0) == 1 && Pow2(1) == 2 && Pow2(2) == 4 && Pow2(3) == 8 && Pow2(4) == 16
    ensures Pow2(5) == 32 && Pow2(6) == 64 && Pow2(7) == 128 && Pow2(8) == 256
  {
    assert Pow2(2) == 2 * Pow2(1) && Pow2(3) == 2 * Pow2(2) && Pow2(4) == 2 * Pow2(3) && Pow2(5) == 2 * Pow2(4);
    assert Pow2(6) == 2 * Pow2(5) && Pow2(7) == 2 * Pow2(6) && Pow2(8) == 2 * Pow2(7);
  }

  /** The digest as a big-endian integer. */
  function Number(digest: seq<Byte>): nat {
    if digest == [] then 0 else digest[0] * Pow2(8 * (|digest| - 1)) + Number(digest[1..])
  }

  lemma {:induction false} NumberBound(digest: seq<Byte>)
    ensures Number(digest) < Pow2(8 * |digest|)
  {
    if digest != [] {
      NumberBound(digest[1..]);
      Pow2Byte(|digest| - 1);
      TopByteBound(digest[0], Pow2(8 * (|digest| - 1)), Number(digest[1..]));
    }
  }

  lemma Pow2Byte(n: nat)
    ensures Pow2(8 * (n + 1)) == 256 * Pow2(8 * n)
  {
    Pow2Adds(8, 8 * n);
    Pow2Small();
  }

  lemma TopByteBound(b: Byte, w: nat, low: nat)
    requires low < w
    ensures b * w + low < 256 * w
  {
    assert b * w <= 255 * w;
  }

  /** Zero bits above the highest set bit of a byte, by the source's cascade of comparisons. */
  function ByteZeroes(b: Byte): nat
    requires b > 0
  {
    if b >= 128 then 0
    else if b >= 64 then 1
    else if b >= 32 then 2
    else if b >= 16 then 3
    else if b >= 8 then 4
    else if b >= 4 then 5
    else if b >= 2 then 6
    else 7
  }

  function LeadingZeroes(digest: seq<Byte>): nat {
    if digest == [] then 0
    else if digest[0] > 0 then ByteZeroes(digest[0])
    else 8 + LeadingZeroes(digest[1..])
  }

  /** The scan of the digest, byte by byte. */
  method CountLeadingZeroes(digest: seq<Byte>) returns (count: nat)
    ensures count == LeadingZeroes(digest)
  {
    count := 0;
    var i := 0;
    while i < |digest|
      invariant 0 <= i <= |digest|
      invariant LeadingZeroes(digest) == count + LeadingZeroes(digest[i..])
    {
      var b := digest[i];
      assert digest[i..][0] == b && digest[i..][1..] == digest[i + 1..];
      if b > 0 {
        count := count + ByteZeroes(b);
        return;
      }
      count := count + 8;
      i := i + 1;
    }
  }

  predicate ValidDigest(digest: seq<Byte>, difficulty: int) {
    LeadingZeroes(digest) >= difficulty
  }

  /** A byte shows at least `d` zero bits exactly when it is below `2^(8 - d)`. */
  lemma ByteZeroesMeaning(b: Byte, d: nat)
    requires b > 0 && d <= 8
    ensures ByteZeroes(b) >= d <==> b < Pow2(8 - d)
  {
    Pow2Small();
  }

  /** Leading zeroes are a threshold on the number the digest spells, for digests of any length. */
  lemma {:induction false} LeadingZeroesMeaning(digest: seq<Byte>, d: nat)
    requires d <= 8 * |digest|
    ensures ValidDigest(digest, d) <==> Number(digest) < Pow2(8 * |digest| - d)
  {
    if digest == [] {
      assert Pow2(0) == 1;
    } else if digest[0] == 0 {
      ZeroByteCase(digest, d);
      if d >= 8 {
        LeadingZeroesMeaning(digest[1..], d - 8);
      }
    } else {
      NumberBound(digest[1..]);
      SetByteCase(digest[0], |digest| - 1, Number(digest[1..]), d);
    }
  }

  /** The same for any difficulty, which a digest meets only if it is as long. */
  lemma ValidMeaning(digest: seq<Byte>, d: nat)
    ensures ValidDigest(digest, d) <==> d <= 8 * |digest| && Number(digest) < Pow2(8 * |digest| - d)
  {
    ZeroesBound(digest);
    if d <= 8 * |digest| {
      LeadingZeroesMeaning(digest, d);
    }
  }

  lemma {:induction false} ZeroesBound(digest: seq<Byte>)
    ensures LeadingZeroes(digest) <= 8 * |digest|
  {
    if digest != [] && digest[0] == 0 {
      ZeroesBound(digest[1..]);
    }
  }

  lemma ZeroByteCase(digest: seq<Byte>, d: nat)
    requires digest != [] && digest[0] == 0 && d <= 8 * |digest|
    ensures Number(digest) == Number(digest[1..])
    ensures d < 8 ==> Number(digest) < Pow2(8 * |digest| - d)
  {
    NumberBound(digest[1..]);
    if d < 8 {
      Pow2Monotone(8 * |digest[1..]|, 8 * |digest| - d);
    }
  }

  /** When the first byte is set it alone decides: `n` bytes spelling `low` follow it. */
  lemma SetByteCase(b: Byte, n: nat, low: nat, d: nat)
    requires b > 0 && low < Pow2(8 * n) && d <= 8 * (n + 1)
    ensures ByteZeroes(b) >= d <==> b * Pow2(8 * n) + low < Pow2(8 * (n + 1) - d)
  {
    if d <= 8 {
      ByteZeroesMeaning(b, d);
      Pow2Adds(8 - d, 8 * n);
      FirstByteDecides(b, Pow2(8 - d), Pow2(8 * n), low);
    } else {
      Pow2Monotone(8 * (n + 1) - d, 8 * n);
      FirstByteDecides(b, 1, Pow2(8 * n), low);
    }
  }

  lemma FirstByteDecides(b: nat, t: nat, w: nat, low: nat)
    requires low < w
    ensures b * w + low < t * w <==> b < t
  {
    if b < t {
      assert (b + 1) * w <= t * w;
    } else {
      assert t * w <= b * w;
    }
  }

  // ----- how rare a digest is -----

  lemma ShiftByte(b: nat, w: nat)
    ensures b * (256 * w) == 256 * (b * w)
  {
  }

  lemma {:induction false} NumberAppend(digest: seq<Byte>, b: Byte)
    ensures Number(digest + [b]) == 256 * Number(digest) + b
    decreases |digest|
  {
    if digest == [] {
      assert Number([b]) == b * Pow2(0) + Number([]);
    } else {
      var w := Pow2(8 * (|digest| - 1));
      assert (digest + [b])[1..] == digest[1..] + [b];
      NumberAppend(digest[1..], b);
      Pow2Byte(|digest| - 1);
      ShiftByte(digest[0], w);
    }
  }

  /** The `n` bytes that spell a number. */
  function Spell(n: nat, k: nat): (digest: seq<Byte>)
    requires k < Pow2(8 * n)
    ensures |digest| == n && Number(digest) == k
  {
    if n == 0 then
      []
    else
      Pow2Byte(n - 1);
      NumberAppend(Spell(n - 1, k / 256), k % 256);
      Spell(n - 1, k / 256) + [k % 256]
  }

  lemma {:induction false} SpellNumber(digest: seq<Byte>)
    ensures Number(digest) < Pow2(8 * |digest|) && Spell(|digest|, Number(digest)) == digest
    decreases |digest|
  {
    NumberBound(digest);
    if digest != [] {
      var n := |digest| - 1;
      SpellNumber(digest[..n]);
      NumberAppend(digest[..n], digest[n]);
      assert digest[..n] + [digest[n]] == digest;
    }
  }

  /** The digests of `n` bytes that spell numbers below `m`: there are `m` of them. */
  function Below(n: nat, m: nat): (s: set<seq<Byte>>)
    requires m <= Pow2(8 * n)
    ensures forall x :: x in s <==> |x| == n && Number(x) < m
    ensures |s| == m
  {
    if m == 0 then {}
    else
      var less := Below(n, m - 1);
      assert forall x: seq<Byte> | |x| == n && Number(x) == m - 1 :: x == Spell(n, m - 1) by {
        forall x: seq<Byte> | |x| == n && Number(x) == m - 1
          ensures x == Spell(n, m - 1)
        {
          SpellNumber(x);
        }
      }
      less + {Spell(n, m - 1)}
  }

  /** Work measures rarity: of the `2^(8 n)` digests of `n` bytes, one in `2^d` meets difficulty `d`. */
  lemma WorkIsRarity(n: nat, d: nat) returns (meeting: set<seq<Byte>>)
    requires d <= 8 * n
    ensures forall x :: x in meeting <==> |x| == n && ValidDigest(x, d)
    ensures Pow2(d) * |meeting| == Pow2(8 * n)
  {
    var m := 8 * n - d;
    Pow2Monotone(m, 8 * n);
    Pow2Adds(d, m);
    meeting := Below(n, Pow2(m));
    BelowIsValid(n, d);
  }

  lemma BelowIsValid(n: nat, d: nat)
    requires d <= 8 * n && Pow2(8 * n - d) <= Pow2(8 * n)
    ensures forall x :: x in Below(n, Pow2(8 * n - d)) <==> |x| == n && ValidDigest(x, d)
  {
    forall x
      ensures x in Below(n, Pow2(8 * n - d)) <==> |x| == n && ValidDigest(x, d)
    {
      if |x| == n {
        ValidMeaning(x, d);
      }
    }
  }
}
