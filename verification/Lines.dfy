/** normalizeCanonicalLines: one pass that drops zero lines and folds discount lines into the line before them. */
module Lines {
  import opened Wrappers
  import opened Bytes
  import opened Money
  import Utf8

  datatype Line = Line(name: Bytes, quantity: real, unitPrice: real, amount: real, discount: real,
                       indicador: Option<int>, taxRate: Option<real>, taxAmount: Option<real>,
                       itbisRetenido: Option<real>, isrRetenido: Option<real>)

  datatype Item = Item(number: nat, name: Bytes, description: Bytes, quantity: real, price: real, discount: real,
                       amount: real, indicador: int, explicit: bool,
                       itbisRetenido: Option<real>, isrRetenido: Option<real>)

  const ITEM: Bytes := [0x49, 0x74, 0x65, 0x6D]
  const GENERAL: Bytes := [0x49, 0x74, 0x65, 0x6D, 0x20, 0x47, 0x65, 0x6E, 0x65, 0x72, 0x61, 0x6C]

  // ---- One line -----------------------------------------------------------------------------

  function Quantity(l: Line): (q: real)
    ensures q > 0.0
  {
    if l.quantity > 0.0 then l.quantity else 1.0
  }

  function Price(l: Line): real {
    if l.quantity > 0.0 || l.unitPrice != 0.0 then l.unitPrice else l.amount
  }

  predicate Negative(l: Line) {
    l.amount < 0.0 || Price(l) < 0.0
  }

  /** What a negative line takes off the line before it. */
  function Reduction(l: Line): (d: real)
    ensures d >= 0.0
  {
    Abs(if l.amount != 0.0 then l.amount else Price(l) * Quantity(l))
  }

  function DerivedPrice(l: Line): real {
    if l.amount > 0.0 && Price(l) <= 0.0 then l.amount / Quantity(l) else Price(l)
  }

  function DerivedAmount(l: Line): real {
    if l.amount <= 0.0 && Price(l) > 0.0 then Price(l) * Quantity(l) else l.amount
  }

  /** Lines without value are dropped. */
  predicate Zero(l: Line) {
    DerivedAmount(l) <= 0.0 && DerivedPrice(l) <= 0.0
  }

  datatype Priced = Priced(price: real, amount: real, discount: real)

  /**
   Which amount, price and discount a line prints, from the rounded ones it came with: `gross` is
   quantity times price, `again` a gross price found from the amount and the discount.
   */
  function Reconciled(gross: real, price: real, amount: real, incoming: real, again: Option<real>): Priced {
    if incoming > 0.0 then
      var net := Round2(gross - incoming);
      if (amount == 0.0 && price > 0.0) || Abs(amount - net) <= 0.05 then Priced(price, Max0(net), incoming)
      else if Abs(Round2(gross) - amount) <= 0.05 && again.Some? then Priced(again.value, amount, incoming)
      else Priced(price, amount, 0.0)
    else if (amount == 0.0 && price > 0.0) || Abs(amount - Max0(Round2(gross))) <= 0.05
    then Priced(price, Max0(Round2(gross)), 0.0) else Priced(price, amount, 0.0)
  }

  /** The discount was already taken off amount and price: the gross price again, in cents or finer. */
  function GrossPrice(qty: real, amount: real, incoming: real): Option<real> {
    if qty <= 0.0 then None
    else
      var gross: real := (amount + incoming) / qty;
      if Abs(Round2(Gross(qty, Round2(gross))) - incoming - amount) <= 0.01 then Some(Round2(gross))
      else if Abs(Round2(Gross(qty, Round4(gross))) - incoming - amount) <= 0.01 then Some(Round4(gross))
      else None
  }

  function Incoming(l: Line): real {
    if l.discount > 0.0 then Round2(l.discount) else 0.0
  }

  function RoundedQuantity(l: Line): real {
    Round2(Quantity(l))
  }

  function RoundedPrice(l: Line): real {
    Max0(Round4(DerivedPrice(l)))
  }

  function RoundedAmount(l: Line): real {
    Max0(Round2(DerivedAmount(l)))
  }

  function Gross(qty: real, price: real): real {
    qty * price
  }

  /** Price, amount and discount that a line prints. */
  function Prices(qty: real, price: real, amount: real, incoming: real): Priced {
    Reconciled(Gross(qty, price), price, amount, incoming, GrossPrice(qty, amount, incoming))
  }

  function OwnPrices(l: Line): Priced {
    Prices(RoundedQuantity(l), RoundedPrice(l), RoundedAmount(l), Incoming(l))
  }

  /** The indicator of a line, and whether the line itself decides it. */
  function Indicator(l: Line): (int, bool) {
    if l.indicador.Some? && 0 <= l.indicador.value <= 4 then (l.indicador.value, true)
    else if l.taxRate.Some? then
      (if l.taxRate.value == 18.0 then 1 else if l.taxRate.value == 16.0 then 2
       else if l.taxRate.value == 0.0 then 4 else 1, true)
    else if l.taxAmount.Some? then (if l.taxAmount.value > 0.0 then 1 else 4, true)
    else (1, false)
  }

  function Named(l: Line): Bytes {
    if l.name != [] then l.name else ITEM
  }

  function OwnItem(l: Line, number: nat): Item {
    var p := OwnPrices(l);
    Item(number, Utf8.Truncated(Named(l), 80), if |Named(l)| > 80 then Utf8.Truncated(Named(l), 1000) else [],
         RoundedQuantity(l), p.price, p.discount, p.amount, Indicator(l).0, Indicator(l).1,
           l.itbisRetenido, l.isrRetenido)
  }

  function Reduced(i: Item, d: real): Item {
    i.(discount := Round2(i.discount + d), amount := Max0(Round2(i.amount - d)))
  }

  function GeneralItem(total: real): Item {
    Item(1, GENERAL, [], 1.0, total, 0.0, total, 1, false, None, None)
  }

  /** All that the pass looks at in a line. */
  datatype Kind = Kind(zero: bool, negative: bool, reduction: real, own: Item)

  function Kinds(lines: seq<Line>): (ks: seq<Kind>)
    ensures |ks| == |lines|
  {
    seq(|lines|, i requires 0 <= i < |lines| =>
      Kind(Zero(lines[i]), Negative(lines[i]), Reduction(lines[i]), OwnItem(lines[i], 0)))
  }

  // ---- The grouping, by positions -----------------------------------------------------------

  /** A line opens a group if it has value and is no discount, or if nothing of value precedes it. */
  ghost predicate IsHead(ks: seq<Kind>, i: nat)
    requires i < |ks|
  {
    !ks[i].zero && (ks[i].negative ==> forall j :: 0 <= j < i ==> ks[j].zero)
  }

  /** The heads among the first `n` lines, in order. */
  ghost function Heads(ks: seq<Kind>, n: nat): seq<nat>
    requires n <= |ks|
  {
    if n == 0 then [] else Heads(ks, n - 1) + if IsHead(ks, n - 1) then [n - 1] else []
  }

  /** The discounts from position `a` up to position `b`. */
  function Reductions(ks: seq<Kind>, a: nat, b: nat): seq<real>
    requires a <= b <= |ks|
    decreases b
  {
    if a == b then []
    else Reductions(ks, a, b - 1) + if ks[b - 1].negative then [ks[b - 1].reduction] else []
  }

  function ReducedBy(i: Item, ds: seq<real>): Item
    decreases |ds|
  {
    if ds == [] then i else Reduced(ReducedBy(i, ds[..|ds| - 1]), ds[|ds| - 1])
  }

  /** Where group `k` ends, when only the first `n` lines are looked at. */
  ghost function End(heads: seq<nat>, k: nat, n: nat): nat
    requires k < |heads|
  {
    if k + 1 < |heads| then heads[k + 1] else n
  }

  /** The lines from `a` to `b` as item `number`. */
  function Group(ks: seq<Kind>, a: nat, b: nat, number: nat): Item
    requires a < b <= |ks|
  {
    ReducedBy(ks[a].own.(number := number), Reductions(ks, a + 1, b))
  }

  /** Every head is in the list, nothing else is, and in order. */
  lemma {:induction false} HeadsAreAllHeads(ks: seq<Kind>, n: nat)
    requires n <= |ks|
    ensures forall k :: 0 <= k < |Heads(ks, n)| ==> 0 <= Heads(ks, n)[k] < n && IsHead(ks, Heads(ks, n)[k])
    ensures forall j, k :: 0 <= j < k < |Heads(ks, n)| ==> Heads(ks, n)[j] < Heads(ks, n)[k]
    ensures forall i :: 0 <= i < n && IsHead(ks, i) ==> i in Heads(ks, n)
  {
    if n > 0 {
      HeadsAreAllHeads(ks, n - 1);
      var h, g := Heads(ks, n), Heads(ks, n - 1);
      forall i | 0 <= i < n && IsHead(ks, i) ensures i in h {
        if i < n - 1 { assert i in g; } else { assert h[|h| - 1] == i; }
      }
    }
  }

  /** Before the first head everything is worth nothing. */
  lemma {:induction false} NoHeadNoValue(ks: seq<Kind>, n: nat)
    requires n <= |ks|
    ensures Heads(ks, n) == [] <==> forall j :: 0 <= j < n ==> ks[j].zero
  {
    if n > 0 {
      NoHeadNoValue(ks, n - 1);
      if forall j :: 0 <= j < n - 1 ==> ks[j].zero {
        assert IsHead(ks, n - 1) <==> !ks[n - 1].zero;
      }
    }
  }

  /** The result so far: group `k` is the item at `k`. */
  ghost predicate Grouped(ks: seq<Kind>, n: nat, result: seq<Item>) {
    && n <= |ks|
    && var h := Heads(ks, n);
       && |result| == |h|
       && (forall k :: 0 <= k < |h| ==> h[k] < End(h, k, n) <= n)
       && forall k :: 0 <= k < |h| ==> result[k] == Group(ks, h[k], End(h, k, n), k + 1)
  }

  lemma GroupExtends(ks: seq<Kind>, a: nat, n: nat, number: nat)
    requires a < n < |ks| && ks[n].negative
    ensures Group(ks, a, n + 1, number) == Reduced(Group(ks, a, n, number), ks[n].reduction)
  {
    var ds, d := Reductions(ks, a + 1, n), ks[n].reduction;
    assert Reductions(ks, a + 1, n + 1) == ds + [d];
    assert (ds + [d])[..|ds|] == ds;
  }

  lemma GroupIdles(ks: seq<Kind>, a: nat, n: nat, number: nat)
    requires a < n < |ks| && !ks[n].negative
    ensures Group(ks, a, n + 1, number) == Group(ks, a, n, number)
  {
    var ds := Reductions(ks, a + 1, n);
    assert Reductions(ks, a + 1, n + 1) == ds + [] == ds;
  }

  lemma NoNewHead(ks: seq<Kind>, n: nat)
    requires n < |ks| && (ks[n].zero || (ks[n].negative && Heads(ks, n) != []))
    ensures Heads(ks, n + 1) == Heads(ks, n)
  {
    NoHeadNoValue(ks, n);
  }

  lemma GroupedAbsorbs(ks: seq<Kind>, n: nat, result: seq<Item>)
    requires n < |ks| && Grouped(ks, n, result) && result != [] && ks[n].negative
    ensures Grouped(ks, n + 1, result[|result| - 1 := Reduced(result[|result| - 1], ks[n].reduction)])
  {
    hide Heads, Group, Reduced;
    NoNewHead(ks, n);
    var h, last := Heads(ks, n), |result| - 1;
    GroupExtends(ks, h[last], n, last + 1);
    assert forall k :: 0 <= k < last ==> End(h, k, n) == End(h, k, n + 1);
  }

  lemma GroupedSkips(ks: seq<Kind>, n: nat, result: seq<Item>)
    requires n < |ks| && Grouped(ks, n, result) && ks[n].zero && (result == [] || !ks[n].negative)
    ensures Grouped(ks, n + 1, result)
  {
    hide Heads, Group;
    NoNewHead(ks, n);
    var h, last := Heads(ks, n), |result| - 1;
    if result != [] {
      GroupIdles(ks, h[last], n, last + 1);
      assert forall k :: 0 <= k < last ==> End(h, k, n) == End(h, k, n + 1);
    }
  }

  lemma GroupedOpens(ks: seq<Kind>, n: nat, result: seq<Item>)
    requires n < |ks| && Grouped(ks, n, result) && !ks[n].zero && (result == [] || !ks[n].negative)
    ensures Grouped(ks, n + 1, result + [ks[n].own.(number := |result| + 1)])
  {
    NoHeadNoValue(ks, n);
    var h := Heads(ks, n);
    assert IsHead(ks, n) && Heads(ks, n + 1) == h + [n];
    assert Reductions(ks, n + 1, n + 1) == [];
    assert forall k :: 0 <= k < |h| ==> End(h, k, n) == End(h + [n], k, n + 1);
    hide IsHead, Heads, Reductions, ReducedBy;
  }

  /** The one pass computes the grouping. */
  method NormalizeCanonicalLines(lines: seq<Line>, defaultTotal: real) returns (result: seq<Item>)
    ensures Normalized(Kinds(lines), defaultTotal, result)
  {
    hide OwnItem, Negative, Zero, Reduction, Reduced;
    result := [];
    ghost var ks := Kinds(lines);
    var i := 0;
    while i < |lines|
      invariant 0 <= i <= |lines| && Grouped(ks, i, result)
    {
      var line := lines[i];
      if Negative(line) && result != [] {
        GroupedAbsorbs(ks, i, result);
        var prev := result[|result| - 1];
        result := result[|result| - 1 := Reduced(prev, Reduction(line))];
      } else if Zero(line) {
        GroupedSkips(ks, i, result);
      } else {
        GroupedOpens(ks, i, result);
        OwnNumber(line, 0, |result| + 1);
        result := result + [OwnItem(line, |result| + 1)];
      }
      i := i + 1;
    }
    if result == [] {
      result := [GeneralItem(defaultTotal)];
    }
  }

  ghost predicate Normalized(ks: seq<Kind>, defaultTotal: real, result: seq<Item>) {
    if Heads(ks, |ks|) == [] then result == [GeneralItem(defaultTotal)] else Grouped(ks, |ks|, result)
  }

  // ---- What an item is worth ----------------------------------------------------------------

  function Sum(ds: seq<real>): real {
    if ds == [] then 0.0 else Sum(ds[..|ds| - 1]) + ds[|ds| - 1]
  }

  predicate InCents(i: Item) {
    Cents(i.amount) && Cents(i.discount) && i.amount >= 0.0 && i.discount >= 0.0 && i.price >= 0.0
  }

  ghost predicate Sane(ks: seq<Kind>) {
    forall j :: 0 <= j < |ks| ==> InCents(ks[j].own) && ks[j].reduction >= 0.0
  }

  lemma Quotient(a: real, b: real)
    requires a >= 0.0 && b > 0.0
    ensures a / b >= 0.0
  {
  }

  lemma GrossPriceBalances(qty: real, amount: real, incoming: real)
    requires amount >= 0.0 && incoming >= 0.0
    ensures match GrossPrice(qty, amount, incoming)
            case Some(p) => p >= 0.0 && Abs(GapOf(qty, p, incoming, amount)) <= 0.01
            case None => true
  {
    hide Gross, Round2, Round4;
    if qty > 0.0 {
      var gross: real := (amount + incoming) / qty;
      Quotient(amount + incoming, qty);
      Rounded(gross);
      RoundedFiner(gross);
    }
  }

  lemma ReconciledInCents(gross: real, price: real, amount: real, incoming: real, again: Option<real>)
    requires price >= 0.0 && amount >= 0.0 && incoming >= 0.0 && Cents(amount) && Cents(incoming)
    requires again.Some? ==> again.value >= 0.0
    ensures var p := Reconciled(gross, price, amount, incoming, again);
            Cents(p.amount) && Cents(p.discount) && p.amount >= 0.0 && p.discount >= 0.0 && p.price >= 0.0
  {
    Rounded(gross - incoming);
    Rounded(gross);
    CentsClosed(Round2(gross - incoming), Round2(gross));
    CentsClosed(Round2(gross), Round2(gross));
  }

  lemma RoundedInputs(l: Line)
    ensures RoundedQuantity(l) >= 0.0 && RoundedPrice(l) >= 0.0
    ensures RoundedAmount(l) >= 0.0 && Cents(RoundedAmount(l)) && Incoming(l) >= 0.0 && Cents(Incoming(l))
  {
    Rounded(Quantity(l));
    Rounded(DerivedAmount(l));
    CentsClosed(Round2(DerivedAmount(l)), Round2(DerivedAmount(l)));
    Rounded(l.discount);
  }

  lemma PricesInCents(qty: real, price: real, amount: real, incoming: real)
    requires price >= 0.0 && amount >= 0.0 && incoming >= 0.0 && Cents(amount) && Cents(incoming)
    ensures var p := Prices(qty, price, amount, incoming);
            Cents(p.amount) && Cents(p.discount) && p.amount >= 0.0 && p.discount >= 0.0 && p.price >= 0.0
  {
    var again := GrossPrice(qty, amount, incoming);
    GrossPriceBalances(qty, amount, incoming);
    ReconciledInCents(Gross(qty, price), price, amount, incoming, again);
  }

  lemma OwnInCents(l: Line, number: nat)
    ensures InCents(OwnItem(l, number))
  {
    hide Prices, Cents, RoundedQuantity, RoundedPrice, RoundedAmount, Incoming;
    RoundedInputs(l);
    PricesInCents(RoundedQuantity(l), RoundedPrice(l), RoundedAmount(l), Incoming(l));
  }

  lemma KindsAreSane(lines: seq<Line>)
    ensures Sane(Kinds(lines))
  {
    hide OwnItem, InCents, Negative, Zero;
    forall j | 0 <= j < |lines| ensures InCents(Kinds(lines)[j].own) && Kinds(lines)[j].reduction >= 0.0 {
      OwnInCents(lines[j], 0);
    }
  }

  lemma ReducedInCents(i: Item, d: real)
    requires InCents(i) && d >= 0.0
    ensures InCents(Reduced(i, d))
  {
    Rounded(i.discount + d);
    Rounded(i.amount - d);
    CentsClosed(Round2(i.amount - d), Round2(i.amount - d));
  }

  lemma {:induction false} ReducedByInCents(i: Item, ds: seq<real>)
    requires InCents(i) && forall k :: 0 <= k < |ds| ==> ds[k] >= 0.0
    ensures InCents(ReducedBy(i, ds))
    ensures ReducedBy(i, ds) == i.(amount := ReducedBy(i, ds).amount, discount := ReducedBy(i, ds).discount)
    decreases |ds|
  {
    if ds != [] {
      ReducedByInCents(i, ds[..|ds| - 1]);
      ReducedInCents(ReducedBy(i, ds[..|ds| - 1]), ds[|ds| - 1]);
    }
  }

  lemma {:induction false} ReductionsPositive(ks: seq<Kind>, a: nat, b: nat)
    requires a <= b <= |ks| && Sane(ks)
    ensures forall k :: 0 <= k < |Reductions(ks, a, b)| ==> Reductions(ks, a, b)[k] >= 0.0
    decreases b
  {
    if a < b { ReductionsPositive(ks, a, b - 1); }
  }

  /** Numbered, with a quantity in cents, a known indicator and no negative figure. */
  predicate Printable(i: Item, number: nat) {
    && i.number == number && Cents(i.quantity) && i.quantity >= 0.0 && 0 <= i.indicador <= 4
    && i.price >= 0.0 && i.discount >= 0.0 && i.amount >= 0.0
  }

  lemma OwnIsPrintable(l: Line, number: nat)
    ensures Printable(OwnItem(l, number), number)
  {
    hide Prices;
    OwnInCents(l, number);
    Rounded(Quantity(l));
  }

  lemma GeneralIsPrintable(total: real)
    requires total >= 0.0
    ensures Printable(GeneralItem(total), 1)
  {
  }

  predicate AllPrintable(items: seq<Item>) {
    items != [] && forall k :: 0 <= k < |items| ==> Printable(items[k], k + 1)
  }

  /** Whatever the lines are, there is an item, the items are numbered from 1, and no figure of theirs is negative. */
  lemma NormalizedIsPrintable(lines: seq<Line>, defaultTotal: real, result: seq<Item>)
    requires defaultTotal >= 0.0
    ensures Normalized(Kinds(lines), defaultTotal, result) ==> AllPrintable(result)
  {
    hide Cents, OwnItem, GeneralItem;
    var ks := Kinds(lines);
    var h := Heads(ks, |ks|);
    if h == [] {
      GeneralIsPrintable(defaultTotal);
    } else if Grouped(ks, |ks|, result) {
      KindsAreSane(lines);
      forall k | 0 <= k < |result| ensures Printable(result[k], k + 1) {
        GroupIsPrintable(lines, h[k], End(h, k, |ks|), k + 1);
      }
    }
  }

  lemma GroupIsPrintable(lines: seq<Line>, a: nat, b: nat, number: nat)
    requires a < b <= |lines| && Sane(Kinds(lines))
    ensures Printable(Group(Kinds(lines), a, b, number), number)
  {
    hide Cents, OwnItem, Reductions, ReducedBy;
    OwnNumber(lines[a], 0, number);
    OwnIsPrintable(lines[a], number);
    OwnInCents(lines[a], number);
    ReductionsPositive(Kinds(lines), a + 1, b);
    ReducedByInCents(OwnItem(lines[a], number), Reductions(Kinds(lines), a + 1, b));
  }

  /** An item after discounts of this total. */
  function LessTotal(own: Item, total: real): Item {
    own.(amount := Max0(own.amount - total), discount := own.discount + total)
  }

  lemma OwnNumber(l: Line, m: nat, n: nat)
    ensures OwnItem(l, m).(number := n) == OwnItem(l, n)
  {
    hide OwnPrices, Indicator, Named, Utf8.Truncated, RoundedQuantity;
  }

  predicate AllCents(ds: seq<real>) {
    forall k :: 0 <= k < |ds| ==> ds[k] >= 0.0 && Cents(ds[k])
  }

  lemma ReducedExactly(i: Item, taken: real, d: real)
    requires InCents(i) && Cents(taken) && Cents(d) && taken >= 0.0 && d >= 0.0
    ensures Cents(taken + d)
    ensures Reduced(LessTotal(i, taken), d) == LessTotal(i, taken + d)
  {
    CentsClosed(taken, d);
    CentsClosed(i.discount, taken + d);
    CentsClosed(i.amount, taken);
    CentsClosed(Max0(i.amount - taken), d);
    FixedIffCents(i.discount + (taken + d));
    FixedIffCents(Max0(i.amount - taken) - d);
    assert i.discount + taken + d == i.discount + (taken + d);
  }

  /** Cent-exact discounts are summed without loss; the amount stops at zero. */
  lemma {:induction false} ReductionsAddUp(i: Item, ds: seq<real>)
    requires InCents(i) && AllCents(ds)
    ensures Sum(ds) >= 0.0 && Cents(Sum(ds))
    ensures ReducedBy(i, ds) == LessTotal(i, Sum(ds))
    decreases |ds|
  {
    if ds != [] {
      ReductionsAddUp(i, ds[..|ds| - 1]);
      ReducedExactly(i, Sum(ds[..|ds| - 1]), ds[|ds| - 1]);
    }
  }

  /** The discount lines between two positions are in whole cents. */
  predicate CentDiscounts(lines: seq<Line>, a: nat, b: nat)
    requires a <= b <= |lines|
  {
    AllCents(Reductions(Kinds(lines), a, b))
  }

  function Discounts(lines: seq<Line>, a: nat, b: nat): real
    requires a <= b <= |lines|
  {
    Sum(Reductions(Kinds(lines), a, b))
  }

  /** Each group: the head's own amount less all its discount lines, and the head's own discount plus them. */
  lemma GroupIsDeclared(lines: seq<Line>, a: nat, b: nat, number: nat)
    requires a < b <= |lines|
    ensures CentDiscounts(lines, a + 1, b) ==>
              Group(Kinds(lines), a, b, number) == LessTotal(OwnItem(lines[a], number), Discounts(lines, a + 1, b))
    ensures CentDiscounts(lines, a + 1, b) ==> Discounts(lines, a + 1, b) >= 0.0
  {
    hide OwnItem, Reductions;
    OwnInCents(lines[a], number);
    OwnNumber(lines[a], 0, number);
    if CentDiscounts(lines, a + 1, b) {
      ReductionsAddUp(OwnItem(lines[a], number), Reductions(Kinds(lines), a + 1, b));
    }
  }

  // ---- Quantity times price -----------------------------------------------------------------

  /** How far a printed line is from quantity times price less discount. */
  function GapOf(quantity: real, price: real, discount: real, amount: real): real {
    Round2(Gross(quantity, price)) - discount - amount
  }

  function Gap(i: Item): real {
    GapOf(i.quantity, i.price, i.discount, i.amount)
  }

  /** A printed discount either balances on the price as it came, or is the one found again. */
  lemma ReconciledDiscount(gross: real, price: real, amount: real, incoming: real, again: Option<real>)
    requires gross >= 0.0 && Cents(incoming)
    requires Reconciled(gross, price, amount, incoming, again).discount > 0.0
    requires Reconciled(gross, price, amount, incoming, again).amount > 0.0
    ensures var p := Reconciled(gross, price, amount, incoming, again);
            || (p.price == price && Round2(gross) - p.discount - p.amount == 0.0)
            || (again.Some? && p == Priced(again.value, amount, incoming))
  {
    var net := Round2(gross - incoming);
    Rounded(gross - incoming);
    if net > 0.0 {
      RoundShift(gross, incoming);
    }
  }

  lemma DiscountBalances(qty: real, price: real, amount: real, incoming: real)
    requires qty >= 0.0 && price >= 0.0 && amount >= 0.0 && incoming >= 0.0 && Cents(incoming)
    ensures var p := Prices(qty, price, amount, incoming);
            p.discount > 0.0 && p.amount > 0.0 ==> Abs(GapOf(qty, p.price, p.discount, p.amount)) <= 0.01
  {
    hide Gross, Round2, Round4, Reconciled, GrossPrice, Cents;
    var again := GrossPrice(qty, amount, incoming);
    var p := Prices(qty, price, amount, incoming);
    if p.discount > 0.0 && p.amount > 0.0 {
      Product(qty, price);
      ReconciledDiscount(Gross(qty, price), price, amount, incoming, again);
      GrossPriceBalances(qty, amount, incoming);
    }
  }

  lemma Product(a: real, b: real)
    requires a >= 0.0 && b >= 0.0
    ensures Gross(a, b) >= 0.0
  {
  }

  /** A line that prints its own discount is at most a cent away from its arithmetic. */
  lemma OwnDiscountBalances(l: Line, number: nat)
    ensures var own := OwnItem(l, number);
            own.discount > 0.0 && own.amount > 0.0 ==> Abs(Gap(own)) <= 0.01
  {
    hide Prices, GapOf, Cents, RoundedQuantity, RoundedPrice, RoundedAmount, Incoming;
    RoundedInputs(l);
    DiscountBalances(RoundedQuantity(l), RoundedPrice(l), RoundedAmount(l), Incoming(l));
  }

  lemma ReconciledUndiscounted(gross: real, price: real, amount: real, incoming: real, again: Option<real>)
    requires gross >= 0.0 && incoming <= 0.0
    ensures var p := Reconciled(gross, price, amount, incoming, again);
            && p.price == price && p.discount == 0.0
            && (Round2(gross) - p.amount == 0.0 <==>
                (amount == 0.0 && price > 0.0) || Abs(amount - Round2(gross)) <= 0.05)
  {
    Rounded(gross);
  }

  lemma UndiscountedBalances(qty: real, price: real, amount: real, incoming: real)
    requires qty >= 0.0 && price >= 0.0 && incoming <= 0.0
    ensures var p := Prices(qty, price, amount, incoming);
            GapOf(qty, p.price, p.discount, p.amount) == 0.0 <==>
            (amount == 0.0 && price > 0.0) || Abs(amount - Round2(Gross(qty, price))) <= 0.05
  {
    hide Gross, Round2, Round4, Reconciled, GrossPrice;
    Product(qty, price);
    ReconciledUndiscounted(Gross(qty, price), price, amount, incoming, GrossPrice(qty, amount, incoming));
  }

  /** The amount came within five cents of quantity times price, or did not come at all. */
  predicate NearGross(l: Line) {
    || (RoundedAmount(l) == 0.0 && RoundedPrice(l) > 0.0)
    || Abs(RoundedAmount(l) - Round2(Gross(RoundedQuantity(l), RoundedPrice(l)))) <= 0.05
  }

  /** Without a discount the arithmetic is exact just when the amount came near it. */
  lemma UndiscountedBalancesIff(l: Line, number: nat)
    requires Incoming(l) <= 0.0
    ensures Gap(OwnItem(l, number)) == 0.0 <==> NearGross(l)
  {
    hide Prices, GapOf, Gross, Round2, RoundedQuantity, RoundedPrice, RoundedAmount, Incoming;
    RoundedInputs(l);
    UndiscountedBalances(RoundedQuantity(l), RoundedPrice(l), RoundedAmount(l), Incoming(l));
  }

  lemma GapAfter(own: Item, total: real)
    requires own.amount >= 0.0 && total >= 0.0
    ensures Gap(LessTotal(own, total)) == Gap(own) <==> total <= own.amount
  {
    hide Gross, Round2;
  }

  /** Discount lines keep the gap exactly as long as the amount covers them. */
  lemma AbsorptionKeepsTheGapIff(lines: seq<Line>, a: nat, b: nat, number: nat)
    requires a < b <= |lines|
    ensures CentDiscounts(lines, a + 1, b) ==>
              (Gap(Group(Kinds(lines), a, b, number)) == Gap(OwnItem(lines[a], number)) <==>
               Discounts(lines, a + 1, b) <= OwnItem(lines[a], number).amount)
  {
    hide OwnItem, Gap, CentDiscounts, Discounts, Group;
    OwnInCents(lines[a], number);
    GroupIsDeclared(lines, a, b, number);
    if CentDiscounts(lines, a + 1, b) {
      GapAfter(OwnItem(lines[a], number), Discounts(lines, a + 1, b));
    }
  }

  /**
   A printed line of positive amount: a cent away at most with a discount of its own; without one,
   exact just when its amount came near.
   */
  lemma PrintedLineBalances(lines: seq<Line>, a: nat, b: nat, number: nat)
    requires a < b <= |lines|
    ensures CentDiscounts(lines, a + 1, b) && Group(Kinds(lines), a, b, number).amount > 0.0 ==>
              && (OwnItem(lines[a], number).discount > 0.0 ==> Abs(Gap(Group(Kinds(lines), a, b, number))) <= 0.01)
              && (Incoming(lines[a]) <= 0.0 ==>
                    (Gap(Group(Kinds(lines), a, b, number)) == 0.0 <==> NearGross(lines[a])))
  {
    hide OwnItem, Gap, CentDiscounts, Discounts, Group, NearGross, Incoming;
    OwnInCents(lines[a], number);
    GroupIsDeclared(lines, a, b, number);
    AbsorptionKeepsTheGapIff(lines, a, b, number);
    OwnDiscountBalances(lines[a], number);
    if Incoming(lines[a]) <= 0.0 {
      UndiscountedBalancesIff(lines[a], number);
    }
  }

  // ---- What the caller stated ---------------------------------------------------------------

  /** The quantity as the caller stated it, or one. */
  function Stated(l: Line): real {
    if l.quantity > 0.0 then l.quantity else 1.0
  }

  lemma ReconciledStaysNear(gross: real, price: real, amount: real, incoming: real, again: Option<real>)
    requires amount > 0.0
    ensures var p := Reconciled(gross, price, amount, incoming, again);
            && Abs(p.amount - amount) <= 0.05 && (p.discount == 0.0 || p.discount == incoming)
            && (incoming <= 0.0 ==> p.price == price && p.discount == 0.0)
  {
  }

  lemma RoundedUp(x: real)
    requires x >= 0.005
    ensures Round2(x) > 0.0
  {
    assert x * 100.0 >= 0.5;
  }

  /**
   An item prints what its line states: the quantity to half a cent, an amount of at least half a cent to
   five and a half cents, a discount to half a cent if at all, and without one the price to four decimals.
   */
  lemma PrintedAsStated(l: Line, number: nat)
    requires l.amount >= 0.005
    ensures var own := OwnItem(l, number);
            && Abs(own.quantity - Stated(l)) <= 0.005
            && Abs(own.amount - l.amount) <= 0.055
            && (own.discount == 0.0 || (l.discount > 0.0 && Abs(own.discount - l.discount) <= 0.005))
            && (l.discount <= 0.0 && l.unitPrice > 0.0 ==> Abs(own.price - l.unitPrice) <= 0.00005)
            && (l.discount <= 0.0 && l.unitPrice == 0.0 ==> Abs(own.price - l.amount / Stated(l)) <= 0.00005)
  {
    hide Round2, Round4, Cents, GrossPrice, Gross, Indicator, Reconciled, Utf8.Truncated;
    Rounded(Quantity(l));
    Rounded(l.amount);
    Rounded(l.discount);
    RoundedUp(l.amount);
    RoundedFiner(DerivedPrice(l));
    StatedPrice(l);
    ReconciledStaysNear(Gross(RoundedQuantity(l), RoundedPrice(l)), RoundedPrice(l), RoundedAmount(l), Incoming(l),
                        GrossPrice(RoundedQuantity(l), RoundedAmount(l), Incoming(l)));
  }

  lemma StatedPrice(l: Line)
    requires l.amount > 0.0
    ensures l.unitPrice > 0.0 ==> DerivedPrice(l) == l.unitPrice
    ensures l.unitPrice == 0.0 ==> DerivedPrice(l) == l.amount / Stated(l) && DerivedPrice(l) > 0.0
  {
    var q := Stated(l);
    assert q == 1.0 ==> l.amount / q == l.amount;
    assert l.amount / q > 0.0 by {
      Quotient(l.amount, q);
      assert (l.amount / q) * q == l.amount;
    }
  }

  lemma DerivedAsStated(l: Line)
    requires l.amount == 0.0 && l.unitPrice > 0.0
    ensures DerivedPrice(l) == l.unitPrice && DerivedAmount(l) == l.unitPrice * Stated(l)
  {
    assert Price(l) == l.unitPrice && Quantity(l) == Stated(l);
  }

  /** Without an amount the item's is the stated price times the stated quantity, to five and a half cents. */
  lemma PricedAsStated(l: Line, number: nat)
    requires l.amount == 0.0 && l.unitPrice > 0.0 && l.discount <= 0.0 && l.unitPrice * Stated(l) >= 0.005
    ensures var own := OwnItem(l, number);
            && Abs(own.quantity - Stated(l)) <= 0.005 && Abs(own.price - l.unitPrice) <= 0.00005
            && Abs(own.amount - l.unitPrice * Stated(l)) <= 0.055 && own.discount == 0.0
  {
    DerivedAsStated(l);
    hide Round2, Round4, Cents, GrossPrice, Gross, Indicator, Reconciled, Utf8.Truncated, DerivedPrice, DerivedAmount;
    Rounded(Quantity(l));
    Rounded(DerivedAmount(l));
    RoundedUp(DerivedAmount(l));
    RoundedFiner(DerivedPrice(l));
    ReconciledStaysNear(Gross(RoundedQuantity(l), RoundedPrice(l)), RoundedPrice(l), RoundedAmount(l), Incoming(l),
                        GrossPrice(RoundedQuantity(l), RoundedAmount(l), Incoming(l)));
  }

  /** A discount line takes off its amount, or its price times quantity if it states no amount. */
  lemma ReducesAsStated(l: Line)
    ensures Negative(l) <==> l.amount < 0.0 || l.unitPrice < 0.0
    ensures l.amount < 0.0 ==> Reduction(l) == -l.amount
    ensures l.amount == 0.0 && l.unitPrice < 0.0 ==> Reduction(l) == -l.unitPrice * Stated(l)
  {
    assert l.unitPrice < 0.0 ==> l.unitPrice * Stated(l) < 0.0;
  }

  // ---- A leading discount -------------------------------------------------------------------

  /** Amount and price of opposite signs. */
  predicate SignsDisagree(l: Line) {
    l.amount < 0.0 < Price(l) || Price(l) < 0.0 < l.amount
  }

  /** Which discount lines the zero test does not drop. */
  lemma NegativeHasValueIff(l: Line)
    requires Negative(l)
    ensures !Zero(l) <==> SignsDisagree(l)
  {
  }

  lemma ReconciledIsNear(gross: real, price: real, amount: real, again: Option<real>)
    requires amount > 0.0
    ensures Abs(Reconciled(gross, price, amount, 0.0, again).amount - amount) <= 0.05
  {
  }

  /**
   Exactly when a discount line is no discount: only zero lines precede it, and its amount and price
   have opposite signs. It then opens an item and charges its value, to five cents.
   */
  lemma LeadingDiscountIsCharged(lines: seq<Line>, i: nat, number: nat)
    requires i < |lines| && Negative(lines[i])
    ensures IsHead(Kinds(lines), i) <==> SignsDisagree(lines[i]) && forall j :: 0 <= j < i ==> Zero(lines[j])
    ensures Incoming(lines[i]) <= 0.0 && RoundedAmount(lines[i]) > 0.0 ==>
              Abs(OwnItem(lines[i], number).amount - RoundedAmount(lines[i])) <= 0.05
  {
    hide Zero, Negative, SignsDisagree, Reduction, Reconciled, RoundedAmount, RoundedPrice,
      RoundedQuantity, GrossPrice, Gross;
    var ks, l := Kinds(lines), lines[i];
    NegativeHasValueIff(l);
    assert forall j :: 0 <= j < |lines| ==> ks[j].zero == Zero(lines[j]);
    if Incoming(l) <= 0.0 && RoundedAmount(l) > 0.0 {
      assert Incoming(l) == 0.0 by { IncomingIsNotNegative(l); }
      ReconciledIsNear(Gross(RoundedQuantity(l), RoundedPrice(l)), RoundedPrice(l), RoundedAmount(l),
                       GrossPrice(RoundedQuantity(l), RoundedAmount(l), 0.0));
    }
  }

  lemma IncomingIsNotNegative(l: Line)
    ensures Incoming(l) >= 0.0
  {
    Rounded(l.discount);
  }

  const NOTHING := Line([], 1.0, 0.0, 0.0, 0.0, None, None, None, None, None)
  const MINUS_FIVE := Line([], 1.0, 5.0, -5.0, 0.0, None, None, None, None, None)

  lemma MinusFiveIsCharged()
    ensures OwnItem(MINUS_FIVE, 1).amount == 5.0
  {
    hide Utf8.Truncated;
    assert RoundedQuantity(MINUS_FIVE) == 1.0 && RoundedPrice(MINUS_FIVE) == 5.0 && RoundedAmount(MINUS_FIVE) == 5.0;
    assert Prices(1.0, 5.0, 5.0, 0.0).amount == 5.0;
  }

  /** A discount of five behind a zero line becomes an item of amount five. */
  lemma MinusFiveBecomesAnItem()
    ensures Negative(MINUS_FIVE) && Reduction(MINUS_FIVE) == 5.0
    ensures Heads(Kinds([NOTHING, MINUS_FIVE]), 2) == [1]
    ensures Group(Kinds([NOTHING, MINUS_FIVE]), 1, 2, 1).amount == 5.0
  {
    hide OwnItem;
    var ks := Kinds([NOTHING, MINUS_FIVE]);
    assert ks[0].zero && !ks[1].zero;
    assert IsHead(ks, 1) && !IsHead(ks, 0);
    assert Heads(ks, 1) == Heads(ks, 0) + [];
    assert Heads(ks, 2) == Heads(ks, 1) + [1];
    assert Reductions(ks, 2, 2) == [];
    MinusFiveIsCharged();
    OwnNumber(MINUS_FIVE, 0, 1);
  }
}
