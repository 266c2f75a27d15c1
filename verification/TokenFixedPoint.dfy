/** The self-referential token count written by `_enforce_budget` (agent/context_assembler.py).

    The serialized context is `rest` characters plus the digits of its own token count. */
module TokenFixedPoint {

  function Digits(v: nat): (d: nat)
    ensures d >= 1
  {
    if v < 10 then 1 else 1 + Digits(v / 10)
  }

  function Pow10(k: nat): (p: nat)
    ensures p > 0
  {
    if k == 0 then 1 else 10 * Pow10(k - 1)
  }

  /** Characters of the serialized context, divided by four, when it records the count `v`. */
  function Count(rest: nat, v: nat): nat {
    (rest + Digits(v)) / 4
  }

  /** Digits is the decimal length. */
  lemma {:induction false} DigitsBracket(v: nat)
    ensures v < Pow10(Digits(v)) && (v >= 10 ==> Pow10(Digits(v) - 1) <= v)
  {
    if v >= 10 {
      DigitsBracket(v / 10);
      assert v / 10 >= 10 || Digits(v / 10) == 1;
    }
  }

  lemma {:induction false} DigitsMonotone(v: nat, w: nat)
    requires v <= w
    ensures Digits(v) <= Digits(w)
  {
    if v >= 10 {
      DigitsMonotone(v / 10, w / 10);
    }
  }

  lemma {:induction false} Pow10Large(k: nat)
    requires k >= 1
    ensures k + 1 < Pow10(k)
  {
    if k > 1 {
      Pow10Large(k - 1);
    }
  }

  lemma {:induction false} DigitsBelow(v: nat, k: nat)
    requires v < Pow10(k) && k >= 1
    ensures Digits(v) <= k
  {
    if v >= 10 {
      assert k > 1;
      DigitsBelow(v / 10, k - 1);
    }
  }

  /** Adding less than its own length to a number adds at most one digit. */
  lemma OneMoreDigit(v: nat, w: nat)
    requires v <= w <= v + Digits(v)
    ensures Digits(v) <= Digits(w) <= Digits(v) + 1
  {
    var k := Digits(v);
    DigitsMonotone(v, w);
    DigitsBracket(v);
    Pow10Large(k);
    DigitsBelow(w, k + 1);
  }

  /** The iterates from zero do not decrease, and the third is already the fixed point. */
  lemma FixedByThird(rest: nat)
    ensures var v1 := Count(rest, 0); var v2 := Count(rest, v1); var v3 := Count(rest, v2);
      0 <= v1 <= v2 <= v3 && Count(rest, v3) == v3
  {
    var v1 := Count(rest, 0);
    var v2 := Count(rest, v1);
    var v3 := Count(rest, v2);
    OneMoreDigit(v1, v2);
    DigitsMonotone(v2, v3);
    if Digits(v2) == Digits(v1) + 1 {
      // v2 has just reached a power of ten, so v3 <= v2 + 1 cannot reach the next one.
      var k := Digits(v2);
      DigitsBracket(v1);
      Pow10Large(k - 1);
      assert v3 <= v2 + 1 <= v1 + k < Pow10(k);
      DigitsBelow(v3, k);
    }
  }

  /** The recorded count is unique only up to the digit boundary: whatever fixed point exists, the
      loop finds the least one. */
  lemma LeastFixedPoint(rest: nat, v: nat)
    requires Count(rest, v) == v
    ensures Count(rest, Count(rest, Count(rest, 0))) <= v
  {
    DigitsMonotone(0, v);
    DigitsMonotone(Count(rest, 0), v);
    DigitsMonotone(Count(rest, Count(rest, 0)), v);
  }

  /** The five-pass loop always leaves the exact count, after at most four evaluations. */
  method RecordTokens(rest: nat) returns (used: nat, evaluations: nat)
    ensures used == Count(rest, used) && 4 * used <= rest + Digits(used) < 4 * used + 4
    ensures forall v: nat :: Count(rest, v) == v ==> used <= v
    ensures evaluations <= 4
  {
    FixedByThird(rest);
    used, evaluations := 0, 0;
    for pass := 0 to 5
      invariant evaluations == pass <= 3
      invariant used == (if pass == 0 then 0 else if pass == 1 then Count(rest, 0)
                         else if pass == 2 then Count(rest, Count(rest, 0))
                         else Count(rest, Count(rest, Count(rest, 0))))
    {
      var next := Count(rest, used);
      evaluations := evaluations + 1;
      if used == next {
        break;
      }
      used := next;
    }
    forall v: nat | Count(rest, v) == v ensures used <= v {
      LeastFixedPoint(rest, v);
    }
  }
}
