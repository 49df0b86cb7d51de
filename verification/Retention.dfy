/** The document's retentions shared out over lines that carry none of their own. */
module Retention {
  import opened Wrappers
  import opened Money

  datatype Withheld = Withheld(amount: real, itbis: Option<real>, isr: Option<real>)

  function Sum(xs: seq<real>): real {
    if xs == [] then 0.0 else Sum(xs[..|xs| - 1]) + xs[|xs| - 1]
  }

  /** `d` times the fraction that `a` is of `sum`. */
  function Fraction(d: real, a: real, sum: real): real {
    if sum > 0.0 then d * (a / sum) else 0.0
  }

  /** The rounded shares of the first `k` lines together. */
  function Assigned(amounts: seq<real>, d: real, k: nat): real
    requires k <= |amounts|
  {
    if k == 0 then 0.0 else Assigned(amounts, d, k - 1) + Round2(Fraction(d, amounts[k - 1], Sum(amounts)))
  }

  /** The share of line `i`: its fraction, rounded; the last line takes what is left, if anything is. */
  function Share(amounts: seq<real>, d: real, i: nat): real
    requires i < |amounts|
  {
    if i == |amounts| - 1 then Max0(Round2(d - Assigned(amounts, d, i)))
    else Round2(Fraction(d, amounts[i], Sum(amounts)))
  }

  function Shares(amounts: seq<real>, d: real): seq<real> {
    seq(|amounts|, i requires 0 <= i < |amounts| => Share(amounts, d, i))
  }

  function Amounts(items: seq<Withheld>): seq<real> {
    seq(|items|, i requires 0 <= i < |items| => items[i].amount)
  }

  predicate HasOwn(w: Withheld) {
    (w.itbis.Some? && w.itbis.value > 0.0) || (w.isr.Some? && w.isr.value > 0.0)
  }

  function Prorated(items: seq<Withheld>, docItbis: real, docIsr: real): seq<Withheld> {
    seq(|items|, i requires 0 <= i < |items| =>
      items[i].(itbis := Some(Share(Amounts(items), docItbis, i)), isr := Some(Share(Amounts(items), docIsr, i))))
  }

  method SumAmounts(items: array<Withheld>) returns (sum: real)
    ensures sum == Sum(Amounts(items[..]))
  {
    sum := 0.0;
    ghost var amounts := Amounts(items[..]);
    for i := 0 to items.Length
      invariant sum == Sum(amounts[..i])
    {
      assert amounts[..i + 1][..i] == amounts[..i];
      sum := sum + items[i].amount;
    }
    assert amounts[..items.Length] == amounts;
  }

  method AnyOwn(items: array<Withheld>) returns (found: bool)
    ensures found <==> exists i :: 0 <= i < items.Length && HasOwn(items[i])
  {
    for i := 0 to items.Length
      invariant forall j :: 0 <= j < i ==> !HasOwn(items[j])
    {
      if HasOwn(items[i]) {
        return true;
      }
    }
    found := false;
  }

  /** `share` is to `d` as `a` is to `sum`, to within `error`. */
  predicate PartOf(d: real, a: real, sum: real, share: real, error: real) {
    Abs(share * sum - d * a) <= error * sum
  }

  /**
   The shares are in proportion to the amounts: to half a cent before the last line, which takes the
   roundings of all. Lines that weigh nothing together get nothing before the last one.
   */
  predicate InProportion(amounts: seq<real>, d: real, shares: seq<real>) {
    && |shares| == |amounts|
    && (Sum(amounts) <= 0.0 ==> forall i :: 0 <= i < |amounts| - 1 ==> shares[i] == 0.0)
    && (Sum(amounts) > 0.0 ==>
          && (forall i :: 0 <= i < |amounts| - 1 ==>
                PartOf(d, amounts[i], Sum(amounts), shares[i], 0.005))
          && (amounts != [] && d >= 0.0 && NonNegative(amounts) ==>
                var n := |amounts| - 1;
                PartOf(d, amounts[n], Sum(amounts), shares[n], 0.005 * |amounts| as real)))
  }

  function Value(o: Option<real>): real {
    if o.Some? then o.value else 0.0
  }

  /** The retentions printed on the lines. */
  function ItbisOf(items: seq<Withheld>): seq<real> {
    seq(|items|, i requires 0 <= i < |items| => Value(items[i].itbis))
  }

  function IsrOf(items: seq<Withheld>): seq<real> {
    seq(|items|, i requires 0 <= i < |items| => Value(items[i].isr))
  }

  /** In place: each line gets its share of both taxes, unless some line came with a retention of its own. */
  method Prorate(items: array<Withheld>, docItbis: real, docIsr: real)
    modifies items
    ensures items[..] == if exists i :: 0 <= i < items.Length && HasOwn(old(items[i])) then old(items[..])
                         else Prorated(old(items[..]), docItbis, docIsr)
    ensures (exists i :: 0 <= i < items.Length &&
                         (Value(old(items[i]).itbis) > 0.0 || Value(old(items[i]).isr) > 0.0)) ==>
              items[..] == old(items[..])
    ensures (forall i :: 0 <= i < items.Length ==>
               Value(old(items[i]).itbis) <= 0.0 && Value(old(items[i]).isr) <= 0.0) ==>
              && Amounts(items[..]) == Amounts(old(items[..]))
              && InProportion(Amounts(items[..]), docItbis, ItbisOf(items[..]))
              && InProportion(Amounts(items[..]), docIsr, IsrOf(items[..]))
  {
    hide Round2, Fraction, Sum;
    var hasLineRetentions := AnyOwn(items);
    if hasLineRetentions || items.Length == 0 {
      assert items.Length == 0 ==> Amounts(items[..]) == [];
      SumOfNothing();
      return;
    }
    ghost var before := items[..];
    ghost var amounts := Amounts(before);
    var sumAmounts := SumAmounts(items);
    var assignedItbis, assignedIsr := 0.0, 0.0;
    var i := 0;
    while i < items.Length
      invariant 0 <= i <= items.Length
      invariant forall j :: 0 <= j < i ==> items[j] == Prorated(before, docItbis, docIsr)[j]
      invariant forall j :: i <= j < items.Length ==> items[j] == before[j]
      invariant i < items.Length ==>
                  assignedItbis == Assigned(amounts, docItbis, i) && assignedIsr == Assigned(amounts, docIsr, i)
    {
      if i == items.Length - 1 {
        items[i] := items[i].(itbis := Some(Max0(Round2(docItbis - assignedItbis))),
                              isr := Some(Max0(Round2(docIsr - assignedIsr))));
      } else {
        var itbisShare := Round2(Fraction(docItbis, items[i].amount, sumAmounts));
        var isrShare := Round2(Fraction(docIsr, items[i].amount, sumAmounts));
        items[i] := items[i].(itbis := Some(itbisShare), isr := Some(isrShare));
        assignedItbis, assignedIsr := assignedItbis + itbisShare, assignedIsr + isrShare;
      }
      i := i + 1;
    }
    assert items[..] == Prorated(before, docItbis, docIsr);
    ProratedInProportion(before, docItbis, docIsr);
  }

  lemma SumOfNothing()
    ensures Sum([]) == 0.0
  {
  }

  // ---- Conservation -------------------------------------------------------------------------

  predicate NonNegative(xs: seq<real>) {
    forall k :: 0 <= k < |xs| ==> xs[k] >= 0.0
  }

  lemma {:induction false} SumNonNegative(xs: seq<real>, k: nat)
    requires NonNegative(xs) && k <= |xs|
    ensures 0.0 <= Sum(xs[..k]) <= Sum(xs)
    decreases |xs|
  {
    if xs != [] {
      var n := |xs| - 1;
      if k <= n {
        SumNonNegative(xs[..n], k);
        assert xs[..n][..k] == xs[..k];
      } else {
        SumNonNegative(xs[..n], n);
        assert xs[..n][..n] == xs[..n] && xs[..k] == xs;
      }
    }
  }

  lemma FractionNonNegative(d: real, a: real, sum: real)
    requires d >= 0.0 && a >= 0.0
    ensures Fraction(d, a, sum) >= 0.0
  {
    if sum > 0.0 {
      assert a / sum >= 0.0;
    }
  }

  lemma FractionAdds(d: real, a: real, b: real, sum: real)
    ensures Fraction(d, a + b, sum) == Fraction(d, a, sum) + Fraction(d, b, sum)
  {
    if sum > 0.0 {
      assert (a + b) / sum == a / sum + b / sum;
    }
  }

  lemma FractionAtMost(d: real, a: real, sum: real)
    requires d >= 0.0 && 0.0 <= a <= sum
    ensures Fraction(d, a, sum) <= d
  {
    if sum > 0.0 {
      assert a / sum <= 1.0;
    }
  }

  /** The first `k` shares exceed their exact part of `d` by half a cent each at most. */
  lemma {:induction false} AssignedDrift(amounts: seq<real>, d: real, k: nat)
    requires NonNegative(amounts) && k <= |amounts| && d >= 0.0
    ensures Cents(Assigned(amounts, d, k)) && Assigned(amounts, d, k) >= 0.0
    ensures Assigned(amounts, d, k) <= Fraction(d, Sum(amounts[..k]), Sum(amounts)) + 0.005 * k as real
    decreases k
  {
    hide Round2, Cents, Fraction;
    ZeroCents();
    if k == 0 {
      FractionNonNegative(d, 0.0, Sum(amounts));
    } else {
      AssignedDrift(amounts, d, k - 1);
      assert amounts[..k][..k - 1] == amounts[..k - 1];
      FractionAdds(d, Sum(amounts[..k - 1]), amounts[k - 1], Sum(amounts));
      FractionNonNegative(d, amounts[k - 1], Sum(amounts));
      Rounded(Fraction(d, amounts[k - 1], Sum(amounts)));
      CentsClosed(Assigned(amounts, d, k - 1), Round2(Fraction(d, amounts[k - 1], Sum(amounts))));
    }
  }

  lemma ZeroCents()
    ensures Cents(0.0)
  {
  }

  lemma {:induction false} SharesBefore(amounts: seq<real>, d: real, k: nat)
    requires k < |amounts|
    ensures Sum(Shares(amounts, d)[..k]) == Assigned(amounts, d, k)
    decreases k
  {
    hide Round2, Fraction;
    if k > 0 {
      SharesBefore(amounts, d, k - 1);
      assert Shares(amounts, d)[..k][..k - 1] == Shares(amounts, d)[..k - 1];
    }
  }

  lemma AssignedBound(amounts: seq<real>, d: real)
    requires NonNegative(amounts) && amounts != [] && d >= 0.0
    ensures var given := Assigned(amounts, d, |amounts| - 1);
            0.0 <= given <= d + 0.005 * (|amounts| - 1) as real && Cents(given)
  {
    hide Round2, Cents, Fraction, Assigned;
    var n := |amounts| - 1;
    AssignedDrift(amounts, d, n);
    SumNonNegative(amounts, n);
    FractionAtMost(d, Sum(amounts[..n]), Sum(amounts));
  }

  /** No line gets a negative share. */
  lemma SharesAreNonNegative(amounts: seq<real>, d: real)
    requires NonNegative(amounts) && d >= 0.0
    ensures NonNegative(Shares(amounts, d))
  {
    hide Round2, Fraction, Assigned;
    forall i | 0 <= i < |amounts| ensures Share(amounts, d, i) >= 0.0 {
      FractionNonNegative(d, amounts[i], Sum(amounts));
      Rounded(Fraction(d, amounts[i], Sum(amounts)));
    }
  }

  lemma SharesTotal(amounts: seq<real>, d: real)
    requires amounts != []
    ensures var given := Assigned(amounts, d, |amounts| - 1);
            Sum(Shares(amounts, d)) == given + Max0(Round2(d - given))
  {
    hide Round2, Fraction, Assigned;
    SharesBefore(amounts, d, |amounts| - 1);
  }

  /**
   A retention in whole cents is never lost, and exceeded by half a cent for each line but the last
   at most; it is met exactly when the rounded shares before the last do not already exceed it.
   */
  lemma ProrationConserves(amounts: seq<real>, d: real)
    requires NonNegative(amounts) && amounts != [] && d >= 0.0 && Cents(d)
    ensures d <= Sum(Shares(amounts, d)) <= d + 0.005 * (|amounts| - 1) as real
    ensures Sum(Shares(amounts, d)) == d <==> Assigned(amounts, d, |amounts| - 1) <= d
  {
    hide Round2, Cents, Assigned, Shares, Sum;
    var given := Assigned(amounts, d, |amounts| - 1);
    AssignedBound(amounts, d);
    SharesTotal(amounts, d);
    CentsClosed(d, given);
    FixedIffCents(d - given);
  }

  /** Any retention, in cents or not, is met within half a cent per line. */
  lemma ProrationIsClose(amounts: seq<real>, d: real)
    requires NonNegative(amounts) && amounts != [] && d >= 0.0
    ensures d - 0.005 <= Sum(Shares(amounts, d)) <= d + 0.005 * |amounts| as real
  {
    hide Round2, Cents, Assigned, Shares, Sum;
    var given := Assigned(amounts, d, |amounts| - 1);
    AssignedBound(amounts, d);
    SharesTotal(amounts, d);
    Rounded(d - given);
  }

  lemma Scaled(d: real, a: real, sum: real, share: real, error: real)
    requires sum > 0.0 && Abs(share - d * (a / sum)) <= error
    ensures PartOf(d, a, sum, share, error)
  {
    var exact := d * (a / sum);
    assert exact * sum == d * a;
    assert (share - exact) * sum == share * sum - d * a;
    assert -error <= share - exact <= error;
    Ordered(share - exact, error, sum);
    Ordered(-error, share - exact, sum);
  }

  lemma Ordered(a: real, b: real, sum: real)
    requires a <= b && sum > 0.0
    ensures a * sum <= b * sum
  {
  }

  /** What the rounded shares before line `k` are away from their exact part of `d`, either way. */
  lemma {:induction false} AssignedIsNear(amounts: seq<real>, d: real, k: nat)
    requires k <= |amounts|
    ensures Abs(Assigned(amounts, d, k) - Fraction(d, Sum(amounts[..k]), Sum(amounts))) <= 0.005 * k as real
    decreases k
  {
    hide Round2, Cents, Fraction;
    if k == 0 {
      NoFraction(d, Sum(amounts));
    } else {
      AssignedIsNear(amounts, d, k - 1);
      assert amounts[..k][..k - 1] == amounts[..k - 1];
      FractionAdds(d, Sum(amounts[..k - 1]), amounts[k - 1], Sum(amounts));
      Rounded(Fraction(d, amounts[k - 1], Sum(amounts)));
    }
  }

  lemma NoFraction(d: real, sum: real)
    ensures Fraction(d, 0.0, sum) == 0.0
    ensures sum > 0.0 ==> Fraction(d, sum, sum) == d
  {
    if sum > 0.0 {
      assert sum / sum == 1.0 && 0.0 / sum == 0.0;
    }
  }

  lemma LastShareIsNear(amounts: seq<real>, d: real)
    requires amounts != [] && Sum(amounts) > 0.0 && NonNegative(amounts) && d >= 0.0
    ensures var n := |amounts| - 1;
            Abs(Share(amounts, d, n) - Fraction(d, amounts[n], Sum(amounts))) <= 0.005 * |amounts| as real
  {
    hide Round2, Fraction, Assigned;
    var n := |amounts| - 1;
    AssignedIsNear(amounts, d, n);
    FractionAdds(d, Sum(amounts[..n]), amounts[n], Sum(amounts));
    NoFraction(d, Sum(amounts));
    FractionNonNegative(d, amounts[n], Sum(amounts));
    Rounded(d - Assigned(amounts, d, n));
  }

  lemma ScaledFraction(d: real, a: real, sum: real, share: real, error: real)
    requires sum > 0.0 && Abs(share - Fraction(d, a, sum)) <= error
    ensures PartOf(d, a, sum, share, error)
  {
    Scaled(d, a, sum, share, error);
  }

  lemma EarlierShare(amounts: seq<real>, d: real, i: nat)
    requires i < |amounts| - 1 && Sum(amounts) > 0.0
    ensures PartOf(d, amounts[i], Sum(amounts), Share(amounts, d, i), 0.005)
  {
    hide Round2, Fraction, Sum, PartOf;
    Rounded(Fraction(d, amounts[i], Sum(amounts)));
    ScaledFraction(d, amounts[i], Sum(amounts), Share(amounts, d, i), 0.005);
  }

  lemma LastShare(amounts: seq<real>, d: real)
    requires amounts != [] && Sum(amounts) > 0.0 && NonNegative(amounts) && d >= 0.0
    ensures var n := |amounts| - 1;
            PartOf(d, amounts[n], Sum(amounts), Share(amounts, d, n), 0.005 * |amounts| as real)
  {
    hide Share, Sum, Fraction, PartOf;
    LastShareIsNear(amounts, d);
    var n := |amounts| - 1;
    ScaledFraction(d, amounts[n], Sum(amounts), Share(amounts, d, n), 0.005 * |amounts| as real);
  }

  lemma WeighsNothing(amounts: seq<real>, d: real, i: nat)
    requires i < |amounts| - 1 && Sum(amounts) <= 0.0
    ensures Share(amounts, d, i) == 0.0
  {
    assert Round2(0.0) == 0.0;
  }

  /** Every line's share is its part of the retention, to half a cent; the last one's to half a cent a line. */
  lemma SharesAreInProportion(amounts: seq<real>, d: real)
    ensures InProportion(amounts, d, Shares(amounts, d))
  {
    hide Share, Sum, PartOf;
    forall i | 0 <= i < |amounts| - 1 && Sum(amounts) <= 0.0 ensures Shares(amounts, d)[i] == 0.0 {
      WeighsNothing(amounts, d, i);
    }
    if Sum(amounts) > 0.0 {
      forall i | 0 <= i < |amounts| - 1
        ensures PartOf(d, amounts[i], Sum(amounts), Shares(amounts, d)[i], 0.005)
      {
        EarlierShare(amounts, d, i);
      }
      if amounts != [] && d >= 0.0 && NonNegative(amounts) {
        LastShare(amounts, d);
        assert Shares(amounts, d)[|amounts| - 1] == Share(amounts, d, |amounts| - 1);
      }
    }
  }

  lemma ProratedInProportion(items: seq<Withheld>, docItbis: real, docIsr: real)
    ensures var after := Prorated(items, docItbis, docIsr);
            && Amounts(after) == Amounts(items)
            && InProportion(Amounts(after), docItbis, ItbisOf(after))
            && InProportion(Amounts(after), docIsr, IsrOf(after))
  {
    hide Share, InProportion;
    var after := Prorated(items, docItbis, docIsr);
    assert ItbisOf(after) == Shares(Amounts(items), docItbis);
    assert IsrOf(after) == Shares(Amounts(items), docIsr);
    assert Amounts(after) == Amounts(items);
    SharesAreInProportion(Amounts(items), docItbis);
    SharesAreInProportion(Amounts(items), docIsr);
  }

  /** Lines without amount: everything goes to the last one. */
  lemma {:induction false} NothingToWeigh(amounts: seq<real>, d: real, k: nat)
    requires k < |amounts| && Sum(amounts) <= 0.0
    ensures Assigned(amounts, d, k) == 0.0
    decreases k
  {
    if k > 0 {
      NothingToWeigh(amounts, d, k - 1);
    }
  }

  /** Three equal lines and one cent: the shares round to nothing and the last line takes the cent. */
  lemma OneCentOverThree()
    ensures Shares([1.0, 1.0, 1.0], 0.01) == [0.0, 0.0, 0.01]
  {
    var a := [1.0, 1.0, 1.0];
    assert a[..2] == [1.0, 1.0] && a[..2][..1] == [1.0] && [1.0][..0] == [];
    assert Sum(a) == 3.0;
    assert Round2(0.01 * (1.0 / 3.0)) == 0.0;
    assert Round2(0.01) == 0.01;
  }
}
