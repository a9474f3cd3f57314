/** Compound interest as the ledger charges it: every tick adds the integer part of
    `total * rate / MULTIPLIER`. */
module Interest {

  const MULTIPLIER: nat := 1000000

  function Pow(b: nat, n: nat): (p: nat)
    ensures b > 0 ==> p > 0
  {
    if n == 0 then 1 else b * Pow(b, n - 1)
  }

  /** The total owed after one more tick. */
  function Tick(total: nat, rate: nat): nat {
    total + total * rate / MULTIPLIER
  }

  /** The total owed after `ticks` ticks. */
  function Compound(amount: nat, ticks: nat, rate: nat): nat {
    if ticks == 0 then amount else Tick(Compound(amount, ticks - 1, rate), rate)
  }

  method CalcInterest(amount: nat, ticks: int, rate: nat) returns (total: nat)
    ensures total == Compound(amount, if ticks < 0 then 0 else ticks, rate)
    ensures ticks <= 0 ==> total == amount
  {
    total := amount;
    var i := 0;
    while i < ticks
      invariant 0 <= i && (0 <= ticks ==> i <= ticks) && (ticks < 0 ==> i == 0)
      invariant total == Compound(amount, i, rate)
    {
      var compound := total * rate / MULTIPLIER;
      total := total + compound;
      i := i + 1;
    }
  }

  /** One tick loses less than one unit to rounding. */
  lemma TickBounds(total: nat, rate: nat)
    ensures MULTIPLIER * Tick(total, rate) <= total * (MULTIPLIER + rate)
    ensures total * (MULTIPLIER + rate) <= MULTIPLIER * Tick(total, rate) + MULTIPLIER
    ensures total <= Tick(total, rate)
  {
    var q := total * rate;
    assert q == MULTIPLIER * (q / MULTIPLIER) + q % MULTIPLIER;
    assert total * (MULTIPLIER + rate) == total * MULTIPLIER + q;
  }

  lemma MulMono(k: nat, a: int, b: int)
    requires a <= b
    ensures k * a <= k * b
  {
  }

  /** The exact compound value is never exceeded. */
  lemma {:induction false} CompoundBelowExact(amount: nat, ticks: nat, rate: nat)
    ensures amount <= Compound(amount, ticks, rate)
    ensures Pow(MULTIPLIER, ticks) * Compound(amount, ticks, rate) <= amount * Pow(MULTIPLIER + rate, ticks)
  {
    if ticks == 0 {
    } else {
      CompoundBelowExact(amount, ticks - 1, rate);
      TickBounds(Compound(amount, ticks - 1, rate), rate);
      PowStep(MULTIPLIER, ticks);
      PowStep(MULTIPLIER + rate, ticks);
      BelowExactStep(amount, Compound(amount, ticks - 1, rate), Compound(amount, ticks, rate),
                     Pow(MULTIPLIER, ticks - 1), Pow(MULTIPLIER + rate, ticks - 1), rate, MULTIPLIER);
    }
  }

  lemma PowStep(b: nat, n: nat)
    requires n > 0
    ensures Pow(b, n) == b * Pow(b, n - 1)
  {
  }

  lemma BelowExactStep(a: nat, c: nat, c': nat, p: nat, q: nat, i: nat, m: nat)
    requires p * c <= a * q
    requires m * c' <= c * (m + i)
    ensures (m * p) * c' <= a * ((m + i) * q)
  {
    calc {
      (m * p) * c';
      p * (m * c');
    <= { MulMono(p, m * c', c * (m + i)); }
      p * (c * (m + i));
      (m + i) * (p * c);
    <= { MulMono(m + i, p * c, a * q); }
      (m + i) * (a * q);
      a * ((m + i) * q);
    }
  }

  /** Rounding never loses more than one unit per tick, each compounded to the end. */
  lemma {:induction false} CompoundNearExact(amount: nat, ticks: nat, rate: nat)
    ensures rate * (amount * Pow(MULTIPLIER + rate, ticks) - Pow(MULTIPLIER, ticks) * Compound(amount, ticks, rate))
         <= MULTIPLIER * (Pow(MULTIPLIER + rate, ticks) - Pow(MULTIPLIER, ticks))
  {
    if ticks == 0 {
    } else {
      CompoundNearExact(amount, ticks - 1, rate);
      TickBounds(Compound(amount, ticks - 1, rate), rate);
      PowStep(MULTIPLIER, ticks);
      PowStep(MULTIPLIER + rate, ticks);
      NearExactNext(amount, Compound(amount, ticks - 1, rate), Compound(amount, ticks, rate),
                    Pow(MULTIPLIER, ticks - 1), Pow(MULTIPLIER + rate, ticks - 1),
                    Pow(MULTIPLIER, ticks), Pow(MULTIPLIER + rate, ticks), rate, MULTIPLIER);
    }
  }

  lemma NearExactStep(a: nat, c: nat, c': nat, p: nat, q: nat, i: nat, m: nat)
    requires i * (a * q - p * c) <= m * (q - p)
    requires c * (m + i) <= m * c' + m
    ensures i * (a * ((m + i) * q) - (m * p) * c') <= m * ((m + i) * q - m * p)
  {
    var x, y := i * (a * q), i * (p * c);
    assert x - y == i * (a * q - p * c);
    MulMono(m + i, x - y, m * (q - p));
    LostInTick(p, c, c', i, m);
    calc {
      i * (a * ((m + i) * q) - (m * p) * c');
      { Pulled(i, a, m + i, q); }
      (m + i) * x - i * ((m * p) * c');
    <=
      (m + i) * x - (m + i) * y + i * p * m;
      { assert (m + i) * (x - y) == (m + i) * x - (m + i) * y; }
      (m + i) * (x - y) + i * p * m;
    <=
      (m + i) * (m * (q - p)) + i * p * m;
      { Regrouped(m, i, p, q); }
      m * ((m + i) * q - m * p);
    }
  }

  lemma NearExactNext(a: nat, c: nat, c': nat, p: nat, q: nat, p': nat, q': nat, i: nat, m: nat)
    requires i * (a * q - p * c) <= m * (q - p)
    requires c * (m + i) <= m * c' + m
    requires p' == m * p && q' == (m + i) * q
    ensures i * (a * q' - p' * c') <= m * (q' - p')
  {
    NearExactStep(a, c, c', p, q, i, m);
  }

  lemma Pulled(i: nat, a: nat, n: nat, q: nat)
    ensures i * (a * (n * q)) == n * (i * (a * q))
  {
    var aq := a * q;
    assert a * (n * q) == n * aq;
    assert i * (n * aq) == n * (i * aq);
  }

  /** Rounding down loses at most one unit a tick. */
  lemma LostInTick(p: nat, c: nat, c': nat, i: nat, m: nat)
    requires c * (m + i) <= m * c' + m
    ensures (m + i) * (i * (p * c)) - i * p * m <= i * ((m * p) * c')
  {
    var f := i * p;
    MulMono(f, c * (m + i) - m, m * c');
    assert f * (m * c') == i * ((m * p) * c') by {
      assert f * (m * c') == i * (p * (m * c'));
      assert p * (m * c') == (m * p) * c';
    }
    assert f * (c * (m + i) - m) == f * (c * (m + i)) - f * m;
    assert f * (c * (m + i)) == (m + i) * (i * (p * c)) by {
      Pulled(i, p, m + i, c);
      assert p * ((m + i) * c) == p * (c * (m + i));
      assert f * (c * (m + i)) == i * (p * (c * (m + i)));
    }
  }

  lemma Regrouped(m: nat, i: nat, p: nat, q: nat)
    ensures (m + i) * (m * (q - p)) + i * p * m == m * ((m + i) * q - m * p)
  {
    var n := m + i;
    assert n * (m * (q - p)) == m * (n * (q - p));
    assert n * (q - p) == n * q - n * p;
    assert n * p == m * p + i * p;
    assert m * (n * q - n * p) == m * (n * q) - m * (n * p);
  }

  /** More principal or a higher rate never lowers what is owed after one tick. */
  lemma TickMonotone(t: nat, u: nat, i: nat, j: nat)
    requires t <= u && i <= j
    ensures Tick(t, i) <= Tick(u, j)
  {
    MulMono(t, i, j);
    MulMono(j, t, u);
    assert t * i <= u * j;
    assert t * i / MULTIPLIER <= u * j / MULTIPLIER;
  }

  lemma {:induction false} CompoundMonotone(a: nat, b: nat, m: nat, n: nat, i: nat, j: nat)
    requires a <= b && m <= n && i <= j
    ensures Compound(a, m, i) <= Compound(b, n, j)
    decreases n
  {
    if n == 0 {
    } else if m == n {
      CompoundMonotone(a, b, m - 1, n - 1, i, j);
      TickMonotone(Compound(a, m - 1, i), Compound(b, n - 1, j), i, j);
    } else {
      CompoundMonotone(a, b, m, n - 1, i, j);
      TickBounds(Compound(b, n - 1, j), j);
    }
  }

  /** Ticks compose: charging `m` ticks and then `n` more is charging `m + n` at once. */
  lemma {:induction false} CompoundComposes(amount: nat, m: nat, n: nat, rate: nat)
    ensures Compound(amount, m + n, rate) == Compound(Compound(amount, m, rate), n, rate)
  {
    if n == 0 {
    } else {
      CompoundComposes(amount, m, n - 1, rate);
    }
  }

  /** Ticks elapsed on a loan at block `head`, as CloseDealOrder counts them: a started
      period counts in full. */
  function Ticks(head: int, start: int, maturity: nat): int
    requires maturity > 0
  {
    TruncDiv(head - start + maturity, maturity)
  }

  /** The source's division truncates toward zero. */
  function TruncDiv(a: int, b: nat): int
    requires b > 0
  {
    if a < 0 then -(-a / b) else a / b
  }

  /** The least repayment that closes a deal. */
  function Threshold(amount: nat, head: int, start: int, maturity: nat, rate: nat): nat
    requires maturity > 0
  {
    var t := Ticks(head, start, maturity);
    Compound(amount, if t < 0 then 0 else t, rate)
  }

  lemma DivMono(a: nat, b: nat, m: nat)
    requires a <= b && m > 0
    ensures a / m <= b / m
  {
    var d := a / m - b / m;
    assert a == m * (a / m) + a % m && b == m * (b / m) + b % m;
    assert m * d <= m - 1;
    if d > 0 {
      MulMono(m, 1, d);
    }
  }

  /** The closing threshold never falls as the tip grows, and never asks less than the loan. */
  lemma ThresholdNeverFalls(amount: nat, head: int, later: int, start: int, maturity: nat, rate: nat)
    requires maturity > 0 && head <= later
    ensures amount <= Threshold(amount, head, start, maturity, rate) <= Threshold(amount, later, start, maturity, rate)
  {
    var x, y := head - start + maturity, later - start + maturity;
    if 0 <= x {
      DivMono(x, y, maturity);
    } else if y < 0 {
      DivMono(-y, -x, maturity);
    }
    var t, u := Ticks(head, start, maturity), Ticks(later, start, maturity);
    assert t <= u || t <= 0;
    CompoundBelowExact(amount, if t < 0 then 0 else t, rate);
    CompoundMonotone(amount, amount, if t < 0 then 0 else t, if u < 0 then 0 else u, rate, rate);
  }
}
