/** Rounding to cents and to ten-thousandths, half away from zero, on exact reals. */
module Money {

  function RoundUnit(x: real): int {
    if x >= 0.0 then (x + 0.5).Floor else -(-x + 0.5).Floor
  }

  function Round2(x: real): real {
    RoundUnit(x * 100.0) as real / 100.0
  }

  function Round4(x: real): real {
    RoundUnit(x * 10000.0) as real / 10000.0
  }

  function Abs(x: real): real {
    if x < 0.0 then -x else x
  }

  function Max0(x: real): real {
    if x > 0.0 then x else 0.0
  }

  /** A whole number of cents. */
  predicate Cents(x: real) {
    (x * 100.0).Floor as real == x * 100.0
  }

  lemma WholeCents(x: real, n: int)
    requires x * 100.0 == n as real
    ensures Cents(x)
  {
  }

  lemma CentsClosed(a: real, b: real)
    requires Cents(a) && Cents(b)
    ensures Cents(a + b) && Cents(a - b) && Cents(-a) && Cents(Max0(a))
  {
    var m, n := (a * 100.0).Floor, (b * 100.0).Floor;
    WholeCents(a + b, m + n);
    WholeCents(a - b, m - n);
    WholeCents(-a, -m);
    WholeCents(0.0, 0);
  }

  /** Rounding gives cents, moves a value by half a cent at most, and keeps its sign. */
  lemma Rounded(x: real)
    ensures Cents(Round2(x)) && Abs(Round2(x) - x) <= 0.005
    ensures x >= 0.0 ==> Round2(x) >= 0.0
    ensures x <= 0.0 ==> Round2(x) <= 0.0
  {
    assert Round2(x) * 100.0 == RoundUnit(x * 100.0) as real;
  }

  lemma RoundUnitFixed(n: int)
    ensures RoundUnit(n as real) == n
  {
  }

  lemma RoundUnitMonotone(x: real, y: real)
    requires x <= y
    ensures RoundUnit(x) <= RoundUnit(y)
  {
  }

  /** Rounding fixes exactly the cents. */
  lemma FixedIffCents(x: real)
    ensures Round2(x) == x <==> Cents(x)
  {
    if Cents(x) {
      var n := (x * 100.0).Floor;
      RoundUnitFixed(n);
      assert x * 100.0 == n as real;
      assert Round2(x) == n as real / 100.0;
    } else {
      Rounded(x);
    }
  }

  /** Two different numbers of cents are a cent apart. */
  lemma CentsApart(a: real, b: real)
    requires Abs(a - b) < 0.01
    ensures Cents(a) && Cents(b) ==> a == b
  {
    if Cents(a) && Cents(b) {
      var m, n := (a * 100.0).Floor, (b * 100.0).Floor;
      assert (a - b) * 100.0 == (m - n) as real;
    }
  }

  lemma RoundMonotone(a: real, b: real)
    requires a <= b
    ensures Round2(a) <= Round2(b)
  {
    RoundUnitMonotone(a * 100.0, b * 100.0);
    var m, n := RoundUnit(a * 100.0), RoundUnit(b * 100.0);
    assert m as real / 100.0 <= n as real / 100.0;
  }

  lemma RoundedFiner(x: real)
    ensures x >= 0.0 ==> Round4(x) >= 0.0
    ensures Abs(Round4(x) - x) <= 0.00005
  {
    assert Round4(x) * 10000.0 == RoundUnit(x * 10000.0) as real;
  }

  /** Half a cent goes away from zero, on both sides. */
  lemma TiesGoAway(n: nat, x: real)
    ensures Round2((n as real + 0.5) / 100.0) == (n + 1) as real / 100.0
    ensures Round2(-x) == -Round2(x)
  {
    assert (n as real + 0.5) / 100.0 * 100.0 == n as real + 0.5;
    assert ((n + 1) as real).Floor == n + 1;
    assert -x * 100.0 == -(x * 100.0);
    MirroredUnit(x * 100.0);
    assert (-RoundUnit(x * 100.0)) as real / 100.0 == -(RoundUnit(x * 100.0) as real / 100.0);
  }

  lemma MirroredUnit(x: real)
    ensures RoundUnit(-x) == -RoundUnit(x)
  {
  }

  /** Above zero a number of cents can be taken out before rounding. */
  lemma RoundShift(x: real, c: real)
    requires Cents(c) && x >= 0.0 && x - c >= 0.0
    ensures Round2(x - c) == Round2(x) - c
  {
    var n := (c * 100.0).Floor;
    assert (x - c) * 100.0 + 0.5 == (x * 100.0 + 0.5) - n as real;
    assert ((x * 100.0 + 0.5) - n as real).Floor == (x * 100.0 + 0.5).Floor - n;
  }
}
