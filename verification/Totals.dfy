/** The foreign-currency part of buildXmlFromCanonical: lines and totals in pesos, reconciled to the cent. */
module Totals {
  import opened Wrappers
  import opened Money
  import opened Lines

  // ---- The document -------------------------------------------------------------------------

  datatype Bucket = Bucket(rate: int, base: real, tax: real)

  /** The totals that the caller sends, in the foreign currency. */
  datatype Input = Input(montoExento: Option<real>, montoGravadoTotal: Option<real>,
                         montoItbis: real, buckets: seq<Bucket>)

  /**
   The facts about a document that decide indicators and branches: `taxedLine` tells whether a line
   states a tax of its own, `rate` is the exchange rate.
   */
  datatype Document = Document(tipo: string, modifiesGastosMenores: bool, modifiesExport: bool, taxedLine: bool,
                               totals: Input, rate: real)

  /** hasOnly16Bucket: every tax bucket is at 16 percent, and some base is positive. */
  predicate Only16(buckets: seq<Bucket>) {
    && buckets != []
    && (forall i :: 0 <= i < |buckets| ==> buckets[i].rate == 16)
    && (exists i :: 0 <= i < |buckets| && buckets[i].base > 0.0)
  }

  function Or0(o: Option<real>): real {
    if o.Some? then o.value else 0.0
  }

  /** isPurelyExemptOrNonTaxable */
  predicate PurelyExempt(doc: Document) {
    || doc.modifiesGastosMenores
    || (!doc.taxedLine && (forall i :: 0 <= i < |doc.totals.buckets| ==> doc.totals.buckets[i].base <= 0.0)
        && Or0(doc.totals.montoExento) > 0.0 && Or0(doc.totals.montoGravadoTotal) == 0.0
        && doc.totals.montoItbis == 0.0)
  }

  predicate WholeExempt(doc: Document) {
    doc.tipo == "43" || doc.tipo == "44" || doc.tipo == "47"
  }

  function DefaultIndicator(doc: Document): int {
    if WholeExempt(doc) then 4
    else if doc.tipo == "46" || doc.modifiesExport then 3
    else if PurelyExempt(doc) then 4
    else if Only16(doc.totals.buckets) then 2
    else 1
  }

  function EffectiveIndicator(doc: Document, indicador: int, explicit: bool): int {
    if WholeExempt(doc) || doc.modifiesGastosMenores then 4
    else if doc.tipo == "46" || doc.modifiesExport then (if explicit && indicador == 0 then 0 else 3)
    else if PurelyExempt(doc) then 4
    else if explicit then indicador else DefaultIndicator(doc)
  }

  // ---- Lines --------------------------------------------------------------------------------

  datatype Converted = Converted(quantity: real, indicador: int, explicit: bool,
                                 priceOther: real, discountOther: real, amountOther: real,
                                 priceDop: real, discountDop: real, amountDop: real)

  function Convert(doc: Document, i: Item): Converted {
    var priceOther := Round4(i.price);
    var discountOther := if doc.tipo != "43" && doc.tipo != "47" && i.discount > 0.0 then Round2(i.discount) else 0.0;
    var amountOther := Round2(i.amount);
    var discountDop := if discountOther > 0.0 then Round2(Gross(discountOther, doc.rate)) else 0.0;
    var indicador := EffectiveIndicator(doc, i.indicador, i.explicit);
    if Abs(i.quantity - 1.0) < 0.000000001 && discountDop == 0.0 then
      var amountDop := Round2(Gross(amountOther, doc.rate));
      Converted(i.quantity, indicador, i.explicit, priceOther, discountOther, amountOther,
                amountDop, discountDop, amountDop)
    else
      var priceDop := Round4(Gross(priceOther, doc.rate));
      Converted(i.quantity, indicador, i.explicit, priceOther, discountOther, amountOther, priceDop, discountDop,
                Max0(Round2(Round2(Gross(i.quantity, priceDop)) - discountDop)))
  }

  predicate PesosInCents(c: Converted) {
    Cents(c.amountDop) && Cents(c.discountDop) && c.amountDop >= 0.0 && c.discountDop >= 0.0
  }

  lemma UnitGross(price: real)
    ensures Gross(1.0, price) == price
  {
  }

  /** In pesos every line is exactly quantity times price less discount, in cents and not below zero. */
  lemma PesoLineIsExact(doc: Document, i: Item)
    requires Printable(i, i.number) && doc.rate > 0.0
    ensures var c := Convert(doc, i);
            c.amountDop == Max0(Round2(Gross(c.quantity, c.priceDop)) - c.discountDop) && PesosInCents(c)
  {
    hide Round2, Round4, Cents, Gross, EffectiveIndicator;
    var c := Convert(doc, i);
    Rounded(i.amount);
    Rounded(i.discount);
    Product(c.amountOther, doc.rate);
    Product(c.discountOther, doc.rate);
    Rounded(Gross(c.amountOther, doc.rate));
    Rounded(Gross(c.discountOther, doc.rate));
    ZeroIsCents();
    if Abs(i.quantity - 1.0) < 0.000000001 && c.discountDop == 0.0 {
      CentsApart(i.quantity, 1.0);
      UnitGross(c.priceDop);
      FixedIffCents(c.amountDop);
    } else {
      var gross := Round2(Gross(i.quantity, c.priceDop));
      Rounded(Gross(i.quantity, c.priceDop));
      CentsClosed(gross, c.discountDop);
      CentsClosed(gross - c.discountDop, c.discountDop);
      FixedIffCents(gross - c.discountDop);
    }
  }

  lemma ZeroIsCents()
    ensures Cents(0.0) && Cents(1.0)
  {
  }

  predicate NearTimes(x: real, a: real, b: real, error: real) {
    Abs(x - a * b) <= error
  }

  function Net(quantity: real, price: real, discount: real): real {
    Max0(quantity * price - discount)
  }

  /** Quantity one and no discount: the line is converted as a whole. */
  predicate UnitPath(i: Item, c: Converted) {
    -0.000000001 < i.quantity - 1.0 < 0.000000001 && c.discountDop == 0.0
  }

  /** The peso figures of a line are its foreign ones at the document's rate, up to the stated roundings. */
  predicate AtRate(doc: Document, i: Item, c: Converted) {
    && c.quantity == i.quantity
    && Abs(c.priceOther - i.price) <= 0.00005 && Abs(c.amountOther - i.amount) <= 0.005
    && Abs(c.discountOther - if doc.tipo == "43" || doc.tipo == "47" then 0.0 else i.discount) <= 0.005
    && NearTimes(c.discountDop, c.discountOther, doc.rate, 0.005)
    && if UnitPath(i, c) then
         NearTimes(c.amountDop, c.amountOther, doc.rate, 0.005) && c.priceDop == c.amountDop
       else
         && NearTimes(c.priceDop, c.priceOther, doc.rate, 0.00005)
         && NearTimes(c.amountDop, Net(i.quantity, c.priceOther, c.discountOther), doc.rate,
                      0.01 + 0.00005 * i.quantity)
  }

  lemma NearProducts(q: real, a: real, b: real, error: real)
    requires q >= 0.0 && Abs(a - b) <= error
    ensures Abs(Gross(q, a) - Gross(q, b)) <= error * q
  {
    assert Gross(q, a) - Gross(q, b) == q * (a - b);
    assert q * (a - b) <= q * error && q * (a - b) >= q * (-error);
  }

  lemma GrossRegroups(q: real, price: real, rate: real, discount: real)
    requires rate > 0.0
    ensures Gross(q, Gross(price, rate)) == Gross(q * price, rate)
    ensures Max0(Gross(q * price, rate) - Gross(discount, rate)) == Net(q, price, discount) * rate
  {
    var net := q * price - discount;
    assert Gross(q, Gross(price, rate)) == Gross(q * price, rate) by {
      assert q * (price * rate) == (q * price) * rate;
    }
    assert net * rate == (q * price) * rate - discount * rate;
    assert net > 0.0 <==> net * rate > 0.0;
  }

  lemma PesoPriceAtRate(doc: Document, i: Item)
    requires Printable(i, i.number) && doc.rate > 0.0
    requires !UnitPath(i, Convert(doc, i))
    ensures var c := Convert(doc, i);
            && Abs(c.priceDop - Gross(c.priceOther, doc.rate)) <= 0.00005
            && Abs(c.amountDop - Max0(Gross(i.quantity, c.priceDop) - c.discountDop)) <= 0.005
  {
    hide Round2, Round4, Cents, Gross, EffectiveIndicator;
    var c := Convert(doc, i);
    PesoLineIsExact(doc, i);
    RoundedFiner(Gross(c.priceOther, doc.rate));
    Rounded(Gross(i.quantity, c.priceDop));
  }

  lemma ErrorsAdd(amount: real, gross: real, discount: real, exactGross: real, exactDiscount: real, e: real)
    requires Abs(amount - Max0(gross - discount)) <= 0.005
    requires Abs(gross - exactGross) <= e && Abs(discount - exactDiscount) <= 0.005
    ensures Abs(amount - Max0(exactGross - exactDiscount)) <= 0.01 + e
  {
  }

  lemma PesoAmountAtRate(doc: Document, i: Item)
    requires Printable(i, i.number) && doc.rate > 0.0
    requires !UnitPath(i, Convert(doc, i))
    requires var c := Convert(doc, i); Abs(c.discountDop - Gross(c.discountOther, doc.rate)) <= 0.005
    ensures var c := Convert(doc, i);
            NearTimes(c.amountDop, Net(i.quantity, c.priceOther, c.discountOther), doc.rate,
                      0.01 + 0.00005 * i.quantity)
  {
    hide Gross, Convert, Net, NearTimes, Max0;
    var c := Convert(doc, i);
    PesoPriceAtRate(doc, i);
    AmountNearNet(i.quantity, c.priceOther, doc.rate, c.discountOther, c.priceDop, c.discountDop, c.amountDop);
  }

  /** The errors of price, discount and rounding together. */
  lemma AmountNearNet(q: real, price: real, rate: real, discount: real, priceDop: real, discountDop: real, amount: real)
    requires q >= 0.0 && rate > 0.0
    requires Abs(priceDop - Gross(price, rate)) <= 0.00005 && Abs(discountDop - Gross(discount, rate)) <= 0.005
    requires Abs(amount - Max0(Gross(q, priceDop) - discountDop)) <= 0.005
    ensures NearTimes(amount, Net(q, price, discount), rate, 0.01 + 0.00005 * q)
  {
    hide Gross, Net, NearTimes, Max0;
    NearProducts(q, priceDop, Gross(price, rate), 0.00005);
    GrossRegroups(q, price, rate, discount);
    ErrorsAdd(amount, Gross(q, priceDop), discountDop, Gross(q * price, rate), Gross(discount, rate), 0.00005 * q);
    IsNearTimes(amount, Net(q, price, discount), rate,
                Max0(Gross(q * price, rate) - Gross(discount, rate)), 0.01 + 0.00005 * q);
  }

  lemma IsNearTimes(x: real, a: real, b: real, product: real, error: real)
    requires product == a * b && Abs(x - product) <= error
    ensures NearTimes(x, a, b, error)
  {
  }

  lemma GrossIsNear(x: real, a: real, b: real, error: real)
    requires Abs(x - Gross(a, b)) <= error
    ensures NearTimes(x, a, b, error)
  {
  }

  lemma GrossOfNothing(rate: real)
    ensures Gross(0.0, rate) == 0.0
  {
  }

  lemma ForeignSide(doc: Document, i: Item)
    requires Printable(i, i.number) && doc.rate > 0.0
    ensures var c := Convert(doc, i);
            && c.quantity == i.quantity && Abs(c.priceOther - i.price) <= 0.00005
            && Abs(c.amountOther - i.amount) <= 0.005
            && Abs(c.discountOther - if doc.tipo == "43" || doc.tipo == "47" then 0.0 else i.discount) <= 0.005
            && Abs(c.discountDop - Gross(c.discountOther, doc.rate)) <= 0.005
            && (UnitPath(i, c) ==>
                  Abs(c.amountDop - Gross(c.amountOther, doc.rate)) <= 0.005 && c.priceDop == c.amountDop)
  {
    hide Round2, Round4, Cents, EffectiveIndicator, Gross;
    var c := Convert(doc, i);
    RoundedFiner(i.price);
    Rounded(i.amount);
    Rounded(i.discount);
    GrossOfNothing(doc.rate);
    Rounded(Gross(c.discountOther, doc.rate));
    Rounded(Gross(c.amountOther, doc.rate));
  }

  /** For every printable item and positive rate. */
  lemma ConvertsAtRate(doc: Document, i: Item)
    requires Printable(i, i.number) && doc.rate > 0.0
    ensures AtRate(doc, i, Convert(doc, i))
  {
    hide Convert, Gross, Net, NearTimes, Printable;
    var c := Convert(doc, i);
    ForeignSide(doc, i);
    GrossIsNear(c.discountDop, c.discountOther, doc.rate, 0.005);
    if !UnitPath(i, c) {
      PesoPriceAtRate(doc, i);
      PesoAmountAtRate(doc, i);
      GrossIsNear(c.priceDop, c.priceOther, doc.rate, 0.00005);
    } else {
      GrossIsNear(c.amountDop, c.amountOther, doc.rate, 0.005);
    }
  }

  /** The indicators that a document can have on its lines. */
  predicate Allowed(doc: Document, indicador: int) {
    if WholeExempt(doc) then indicador == 4
    else if doc.tipo == "46" then indicador == 0 || indicador == 3 || indicador == 4
    else 0 <= indicador <= 4
  }

  ghost predicate Ready(doc: Document, lines: seq<Converted>) {
    forall k :: 0 <= k < |lines| ==> PesosInCents(lines[k]) && Allowed(doc, lines[k].indicador)
  }

  method ConvertLines(doc: Document, items: seq<Item>) returns (lines: seq<Converted>)
    requires doc.rate > 0.0 && AllPrintable(items)
    ensures |lines| == |items| && Ready(doc, lines)
    ensures forall k :: 0 <= k < |items| ==>
              lines[k].indicador == EffectiveIndicator(doc, items[k].indicador, items[k].explicit)
    ensures forall k :: 0 <= k < |items| ==>
              lines[k].amountDop == Max0(Round2(Gross(lines[k].quantity, lines[k].priceDop)) - lines[k].discountDop)
    ensures forall k :: 0 <= k < |items| ==> lines[k] == Convert(doc, items[k]) && AtRate(doc, items[k], lines[k])
  {
    hide Round2, Round4, Cents, Gross, AtRate;
    lines := [];
    for i := 0 to |items|
      invariant |lines| == i && forall k :: 0 <= k < i ==> lines[k] == Convert(doc, items[k])
    {
      var item := items[i];
      var c := Converted(item.quantity, EffectiveIndicator(doc, item.indicador, item.explicit), item.explicit,
                         Round4(item.price), 0.0, Round2(item.amount), 0.0, 0.0, 0.0);
      if doc.tipo != "43" && doc.tipo != "47" && item.discount > 0.0 {
        c := c.(discountOther := Round2(item.discount));
      }
      if c.discountOther > 0.0 {
        c := c.(discountDop := Round2(Gross(c.discountOther, doc.rate)));
      }
      if Abs(item.quantity - 1.0) < 0.000000001 && c.discountDop == 0.0 {
        c := c.(amountDop := Round2(Gross(c.amountOther, doc.rate)));
        c := c.(priceDop := c.amountDop);
      } else {
        c := c.(priceDop := Round4(Gross(c.priceOther, doc.rate)));
        c := c.(amountDop := Max0(Round2(Round2(Gross(item.quantity, c.priceDop)) - c.discountDop)));
      }
      lines := lines + [c];
    }
    forall k | 0 <= k < |items|
      ensures PesosInCents(lines[k]) && Allowed(doc, lines[k].indicador)
      ensures lines[k].amountDop == Max0(Round2(Gross(lines[k].quantity, lines[k].priceDop)) - lines[k].discountDop)
      ensures AtRate(doc, items[k], lines[k])
    {
      PesoLineIsExact(doc, items[k]);
      ConvertsAtRate(doc, items[k]);
    }
  }

  // ---- Totals -------------------------------------------------------------------------------

  /** Taxable bases of the three rates, and the exempt amount. */
  datatype Bases = Bases(b1: Option<real>, b2: Option<real>, b3: Option<real>, exento: real)

  const NO_BASES := Bases(None, None, None, 0.0)

  function Gravado(b: Bases): real {
    Or0(b.b1) + Or0(b.b2) + Or0(b.b3)
  }

  predicate BasesInCents(b: Bases) {
    Cents(Or0(b.b1)) && Cents(Or0(b.b2)) && Cents(Or0(b.b3)) && Cents(b.exento)
  }

  predicate SomePositive(b: Bases) {
    Or0(b.b1) > 0.0 || Or0(b.b2) > 0.0 || Or0(b.b3) > 0.0 || b.exento > 0.0
  }

  /** Which of the source's branches a document takes. */
  datatype Branch = Exempt | Export | ByBuckets | Aggregate | PerLine

  predicate AnyExplicit(lines: seq<Converted>) {
    exists k :: 0 <= k < |lines| && lines[k].explicit
  }

  function BranchOf(doc: Document, lines: seq<Converted>): Branch {
    if WholeExempt(doc) then Exempt
    else if doc.tipo == "46" then Export
    else if !AnyExplicit(lines) && doc.totals.buckets != [] && !PurelyExempt(doc) then ByBuckets
    else if !AnyExplicit(lines) && !PurelyExempt(doc)
         && Or0(doc.totals.montoExento) > 0.0 && Or0(doc.totals.montoGravadoTotal) > 0.0 then Aggregate
    else PerLine
  }

  /** The peso amounts of the lines that are billed. */
  function Billed(lines: seq<Converted>): real {
    if lines == [] then 0.0
    else
      var n := |lines| - 1;
      Billed(lines[..n]) + if lines[n].indicador != 0 then lines[n].amountDop else 0.0
  }

  function WithIndicator(lines: seq<Converted>, indicador: int): real {
    if lines == [] then 0.0
    else
      var n := |lines| - 1;
      WithIndicator(lines[..n], indicador) + if lines[n].indicador == indicador then lines[n].amountDop else 0.0
  }

  /** Foreign bases added up from the tax buckets. */
  function FromBuckets(buckets: seq<Bucket>): Bases {
    if buckets == [] then NO_BASES
    else
      var b, last := FromBuckets(buckets[..|buckets| - 1]), buckets[|buckets| - 1];
      match last.rate
      case 18 => b.(b1 := Some(Round2(Or0(b.b1) + Round2(last.base))))
      case 16 => b.(b2 := Some(Round2(Or0(b.b2) + Round2(last.base))))
      case 0 => b.(b3 := Some(Round2(Or0(b.b3) + Round2(last.base))))
      case _ => b
  }

  function InPesos(o: Option<real>, rate: real): Option<real> {
    if o.Some? then Some(Round2(Gross(o.value, rate))) else None
  }

  function BasesInPesos(b: Bases, rate: real): Bases {
    Bases(InPesos(b.b1, rate), InPesos(b.b2, rate), InPesos(b.b3, rate),
          if b.exento > 0.0 then Round2(Gross(b.exento, rate)) else 0.0)
  }

  /** The peso bases before the cents are reconciled. */
  function RawBases(doc: Document, lines: seq<Converted>): Bases {
    match BranchOf(doc, lines)
    case ByBuckets => BasesInPesos(FromBuckets(doc.totals.buckets).(exento := Round2(Or0(doc.totals.montoExento))),
                                   doc.rate)
    case Aggregate =>
      Bases(Some(Round2(Gross(Round2(Or0(doc.totals.montoGravadoTotal)), doc.rate))), None, None,
            Round2(Gross(Round2(Or0(doc.totals.montoExento)), doc.rate)))
    case _ => NO_BASES
  }

  /** How far the converted bases are from the converted lines. */
  function Difference(doc: Document, lines: seq<Converted>): real {
    var b := RawBases(doc, lines);
    Billed(lines) - (Gravado(b) + b.exento)
  }

  /** Exactly when the printed total is what the printed lines and the printed tax add up to. */
  predicate Reconcilable(doc: Document, lines: seq<Converted>) {
    match BranchOf(doc, lines)
    case ByBuckets =>
      var diff := Difference(doc, lines);
      diff == 0.0 || (Abs(diff) <= 0.10 && SomePositive(RawBases(doc, lines)))
    case Aggregate => Abs(Difference(doc, lines)) <= 0.10
    case _ => true
  }

  datatype Result = Result(bases: Bases, itbisDop: real, totalDop: real)

  lemma RunningSum(a: real, b: real)
    requires Cents(a) && Cents(b)
    ensures Round2(a + b) == a + b && Cents(a + b)
  {
    CentsClosed(a, b);
    FixedIffCents(a + b);
  }

  lemma BilledOneMore(lines: seq<Converted>, i: nat)
    requires i < |lines|
    ensures Billed(lines[..i + 1]) == Billed(lines[..i]) + if lines[i].indicador != 0 then lines[i].amountDop else 0.0
    ensures forall ind :: WithIndicator(lines[..i + 1], ind) ==
                          WithIndicator(lines[..i], ind) + if lines[i].indicador == ind then lines[i].amountDop else 0.0
  {
    assert lines[..i + 1][..i] == lines[..i];
  }

  /** The running sum over the billed lines loses nothing. */
  method SumBilled(lines: seq<Converted>) returns (sum: real)
    requires forall k :: 0 <= k < |lines| ==> Cents(lines[k].amountDop)
    ensures sum == Billed(lines) && Cents(sum)
  {
    hide Round2, Cents;
    ZeroIsCents();
    sum := 0.0;
    for i := 0 to |lines|
      invariant sum == Billed(lines[..i]) && Cents(sum)
    {
      BilledOneMore(lines, i);
      if lines[i].indicador != 0 {
        RunningSum(sum, lines[i].amountDop);
        sum := Round2(sum + lines[i].amountDop);
      }
    }
    assert lines[..|lines|] == lines;
  }

  /** Each line goes to the base of its indicator. */
  method SumPerLine(lines: seq<Converted>) returns (b: Bases)
    requires forall k :: 0 <= k < |lines| ==> Cents(lines[k].amountDop)
    ensures Or0(b.b1) == WithIndicator(lines, 1) && Or0(b.b2) == WithIndicator(lines, 2)
    ensures Or0(b.b3) == WithIndicator(lines, 3) && b.exento == WithIndicator(lines, 4)
    ensures BasesInCents(b)
  {
    hide Round2, Cents;
    ZeroIsCents();
    b := NO_BASES;
    for i := 0 to |lines|
      invariant Or0(b.b1) == WithIndicator(lines[..i], 1) && Or0(b.b2) == WithIndicator(lines[..i], 2)
      invariant Or0(b.b3) == WithIndicator(lines[..i], 3) && b.exento == WithIndicator(lines[..i], 4)
      invariant BasesInCents(b)
    {
      BilledOneMore(lines, i);
      var amount := lines[i].amountDop;
      if lines[i].indicador == 1 {
        RunningSum(Or0(b.b1), amount);
        b := b.(b1 := Some(Round2(Or0(b.b1) + amount)));
      } else if lines[i].indicador == 2 {
        RunningSum(Or0(b.b2), amount);
        b := b.(b2 := Some(Round2(Or0(b.b2) + amount)));
      } else if lines[i].indicador == 3 {
        RunningSum(Or0(b.b3), amount);
        b := b.(b3 := Some(Round2(Or0(b.b3) + amount)));
      } else if lines[i].indicador == 4 {
        RunningSum(b.exento, amount);
        b := b.(exento := Round2(b.exento + amount));
      }
    }
    assert lines[..|lines|] == lines;
  }

  /** The indicators 0 to 4 share out the lines. */
  lemma {:induction false} IndicatorsPartition(doc: Document, lines: seq<Converted>)
    requires Ready(doc, lines)
    ensures Billed(lines) == WithIndicator(lines, 1) + WithIndicator(lines, 2)
            + WithIndicator(lines, 3) + WithIndicator(lines, 4)
    decreases |lines|
  {
    if lines != [] {
      IndicatorsPartition(doc, lines[..|lines| - 1]);
    }
  }

  /** The bases with the difference on the first one that is not zero. */
  function Shifted(b: Bases, diff: real): Bases {
    if Or0(b.b1) > 0.0 then b.(b1 := Some(b.b1.value + diff))
    else if Or0(b.b2) > 0.0 then b.(b2 := Some(b.b2.value + diff))
    else if Or0(b.b3) > 0.0 then b.(b3 := Some(b.b3.value + diff))
    else if b.exento > 0.0 then b.(exento := b.exento + diff)
    else b
  }

  /** Differences of up to ten cents are shifted, larger ones left alone. */
  function Reconciled(b: Bases, diff: real): Bases {
    if Abs(diff) <= 0.10 then Shifted(b, diff) else b
  }

  /** The cents of difference go to the first base that is not zero. */
  method Reconcile(raw: Bases, sumLines: real) returns (b: Bases)
    requires BasesInCents(raw) && Cents(sumLines)
    ensures BasesInCents(b)
    ensures b == Reconciled(raw, sumLines - (Gravado(raw) + raw.exento))
    ensures var diff := sumLines - (Gravado(raw) + raw.exento);
            Gravado(b) + b.exento == sumLines <==> diff == 0.0 || (Abs(diff) <= 0.10 && SomePositive(raw))
  {
    hide Round2, Cents;
    b := raw;
    CentsSum(raw);
    CentsClosed(sumLines, Gravado(raw) + raw.exento);
    FixedIffCents(sumLines - (Gravado(raw) + raw.exento));
    var diff := Round2(sumLines - (Gravado(raw) + raw.exento));
    if diff != 0.0 && Abs(diff) <= 0.10 {
      if Or0(b.b1) > 0.0 {
        RunningSum(Or0(b.b1), diff);
        b := b.(b1 := Some(Round2(Or0(b.b1) + diff)));
      } else if Or0(b.b2) > 0.0 {
        RunningSum(Or0(b.b2), diff);
        b := b.(b2 := Some(Round2(Or0(b.b2) + diff)));
      } else if Or0(b.b3) > 0.0 {
        RunningSum(Or0(b.b3), diff);
        b := b.(b3 := Some(Round2(Or0(b.b3) + diff)));
      } else if b.exento > 0.0 {
        RunningSum(b.exento, diff);
        b := b.(exento := Round2(b.exento + diff));
      }
    }
  }

  lemma CentsSum(b: Bases)
    requires BasesInCents(b)
    ensures Cents(Gravado(b)) && Cents(Gravado(b) + b.exento)
  {
    hide Cents;
    CentsClosed(Or0(b.b1), Or0(b.b2));
    CentsClosed(Or0(b.b1) + Or0(b.b2), Or0(b.b3));
    CentsClosed(Gravado(b), b.exento);
  }

  function Tax(base: Option<real>, percent: real): real {
    if base.Some? then Round2(base.value * percent) else 0.0
  }

  /** Tax per rate, and everything added up. */
  method Finish(b: Bases) returns (r: Result)
    requires BasesInCents(b)
    ensures r.bases == b && Cents(r.itbisDop)
    ensures r.itbisDop == Tax(b.b1, 0.18) + Tax(b.b2, 0.16)
    ensures r.totalDop == Gravado(b) + b.exento + r.itbisDop
  {
    hide Round2, Cents;
    ZeroIsCents();
    var tax1, tax2 := Tax(b.b1, 0.18), Tax(b.b2, 0.16);
    if b.b1.Some? { Rounded(b.b1.value * 0.18); }
    if b.b2.Some? { Rounded(b.b2.value * 0.16); }
    RunningSum(tax1, tax2);
    CentsSum(b);
    FixedIffCents(Gravado(b));
    CentsClosed(Gravado(b) + b.exento, tax1 + tax2);
    FixedIffCents(Gravado(b) + b.exento + (tax1 + tax2));
    var gravado, itbis := Round2(Gravado(b)), Round2(tax1 + tax2 + 0.0);
    r := Result(b, itbis, Round2(gravado + b.exento + itbis));
  }

  lemma {:induction false} FromBucketsInCents(buckets: seq<Bucket>)
    ensures BasesInCents(FromBuckets(buckets))
    decreases |buckets|
  {
    hide Round2, Cents;
    ZeroIsCents();
    if buckets != [] {
      var b, last := FromBuckets(buckets[..|buckets| - 1]), buckets[|buckets| - 1];
      FromBucketsInCents(buckets[..|buckets| - 1]);
      Rounded(Or0(b.b1) + Round2(last.base));
      Rounded(Or0(b.b2) + Round2(last.base));
      Rounded(Or0(b.b3) + Round2(last.base));
    }
  }

  lemma RawBasesInCents(doc: Document, lines: seq<Converted>)
    ensures BasesInCents(RawBases(doc, lines))
  {
    hide Round2, Cents, Gross, FromBuckets, BranchOf;
    ZeroIsCents();
    var b := FromBuckets(doc.totals.buckets).(exento := Round2(Or0(doc.totals.montoExento)));
    Rounded(Gross(Or0(b.b1), doc.rate));
    Rounded(Gross(Or0(b.b2), doc.rate));
    Rounded(Gross(Or0(b.b3), doc.rate));
    Rounded(Gross(b.exento, doc.rate));
    Rounded(Gross(Round2(Or0(doc.totals.montoGravadoTotal)), doc.rate));
    Rounded(Gross(Round2(Or0(doc.totals.montoExento)), doc.rate));
  }

  /** The bases that the caller declares at one rate. */
  function DeclaredAt(buckets: seq<Bucket>, rate: int): real {
    if buckets == [] then 0.0
    else
      var n := |buckets| - 1;
      DeclaredAt(buckets[..n], rate) + if buckets[n].rate == rate then buckets[n].base else 0.0
  }

  /** The slot is filled by the buckets of this rate, to half a cent for each, and by nothing else. */
  predicate HoldsRate(slot: Option<real>, buckets: seq<Bucket>, rate: int) {
    && Abs(Or0(slot) - DeclaredAt(buckets, rate)) <= 0.005 * |buckets| as real
    && (slot.Some? <==> exists k :: 0 <= k < |buckets| && buckets[k].rate == rate)
  }

  lemma RateOneMore(slot: Option<real>, buckets: seq<Bucket>, rate: int)
    requires buckets != [] && HoldsRate(slot, buckets[..|buckets| - 1], rate) && Cents(Or0(slot))
    ensures var last := buckets[|buckets| - 1];
            HoldsRate(if last.rate == rate then Some(Round2(Or0(slot) + Round2(last.base))) else slot, buckets, rate)
  {
    hide Round2, Cents;
    var n := |buckets| - 1;
    var last := buckets[n];
    Rounded(last.base);
    RunningSum(Or0(slot), Round2(last.base));
    if k :| 0 <= k < n && buckets[k].rate == rate {
      assert buckets[..n][k].rate == rate;
    }
    if slot.Some? {
      var k :| 0 <= k < n && buckets[..n][k].rate == rate;
      assert buckets[k].rate == rate;
    }
  }

  /** 18 percent goes to the first base, 16 to the second, 0 to the third, and nothing is exempt yet. */
  lemma {:induction false} BucketsByRate(buckets: seq<Bucket>)
    ensures var b := FromBuckets(buckets);
            && HoldsRate(b.b1, buckets, 18) && HoldsRate(b.b2, buckets, 16) && HoldsRate(b.b3, buckets, 0)
            && b.exento == 0.0
    decreases |buckets|
  {
    hide Round2, Cents;
    if buckets != [] {
      hide HoldsRate;
      var before := buckets[..|buckets| - 1];
      var b := FromBuckets(before);
      BucketsByRate(before);
      FromBucketsInCents(before);
      RateOneMore(b.b1, buckets, 18);
      RateOneMore(b.b2, buckets, 16);
      RateOneMore(b.b3, buckets, 0);
    }
  }

  /** The loop over the tax buckets. */
  method SumBuckets(buckets: seq<Bucket>) returns (b: Bases)
    ensures b == FromBuckets(buckets)
    ensures HoldsRate(b.b1, buckets, 18) && HoldsRate(b.b2, buckets, 16) && HoldsRate(b.b3, buckets, 0)
  {
    hide Round2;
    b := NO_BASES;
    for i := 0 to |buckets|
      invariant b == FromBuckets(buckets[..i])
    {
      assert buckets[..i + 1][..i] == buckets[..i];
      var base := Round2(buckets[i].base);
      if buckets[i].rate == 18 {
        b := b.(b1 := Some(Round2(Or0(b.b1) + base)));
      } else if buckets[i].rate == 16 {
        b := b.(b2 := Some(Round2(Or0(b.b2) + base)));
      } else if buckets[i].rate == 0 {
        b := b.(b3 := Some(Round2(Or0(b.b3) + base)));
      }
    }
    assert buckets[..|buckets|] == buckets;
    BucketsByRate(buckets);
  }

  /** Which bases a document prints, branch by branch. */
  predicate BasesOf(doc: Document, lines: seq<Converted>, b: Bases) {
    var raw, diff := RawBases(doc, lines), Difference(doc, lines);
    match BranchOf(doc, lines)
    case Exempt => b == NO_BASES.(exento := Billed(lines))
    case Export => b == NO_BASES.(b3 := Some(Billed(lines)))
    case ByBuckets => b == Reconciled(raw, diff)
    case Aggregate => b == if Abs(diff) <= 0.10 then raw.(b1 := Some(Or0(raw.b1) + diff)) else raw
    case PerLine =>
      && Or0(b.b1) == WithIndicator(lines, 1) && Or0(b.b2) == WithIndicator(lines, 2)
      && Or0(b.b3) == WithIndicator(lines, 3) && b.exento == WithIndicator(lines, 4)
  }

  /** The peso bases before reconciliation are the caller's foreign ones at the document's rate. */
  lemma BasesAtRate(doc: Document, lines: seq<Converted>)
    ensures var raw, t := RawBases(doc, lines), doc.totals;
            && (BranchOf(doc, lines).ByBuckets? ==>
                  var other := FromBuckets(t.buckets);
                  && NearTimes(Or0(raw.b1), Or0(other.b1), doc.rate, 0.005)
                  && NearTimes(Or0(raw.b2), Or0(other.b2), doc.rate, 0.005)
                  && NearTimes(Or0(raw.b3), Or0(other.b3), doc.rate, 0.005))
            && (BranchOf(doc, lines).Aggregate? ==>
                  NearTimes(Or0(raw.b1), Round2(Or0(t.montoGravadoTotal)), doc.rate, 0.005))
            && (BranchOf(doc, lines).Aggregate? || (BranchOf(doc, lines).ByBuckets? && Or0(t.montoExento) >= 0.0) ==>
                  NearTimes(raw.exento, Round2(Or0(t.montoExento)), doc.rate, 0.005))
  {
    hide Round2, Cents, Gross, NearTimes, FromBuckets, BranchOf;
    var other, t := FromBuckets(doc.totals.buckets), doc.totals;
    InPesosAtRate(other.b1, doc.rate);
    InPesosAtRate(other.b2, doc.rate);
    InPesosAtRate(other.b3, doc.rate);
    InPesosAtRate(Some(Round2(Or0(t.montoGravadoTotal))), doc.rate);
    InPesosAtRate(Some(Round2(Or0(t.montoExento))), doc.rate);
    InPesosAtRate(None, doc.rate);
    Rounded(Or0(t.montoExento));
  }

  lemma InPesosAtRate(o: Option<real>, rate: real)
    ensures NearTimes(Or0(InPesos(o, rate)), Or0(o), rate, 0.005)
    ensures o.Some? && o.value == 0.0 ==> NearTimes(0.0, 0.0, rate, 0.005)
  {
    hide Round2, Cents, Gross, NearTimes;
    Rounded(Gross(Or0(o), rate));
    GrossOfNothing(rate);
    GrossIsNear(Or0(InPesos(o, rate)), Or0(o), rate, 0.005);
    GrossIsNear(0.0, 0.0, rate, 0.005);
  }

  /** A document of no special kind, one of whose lines states a tax. */
  predicate Ordinary(doc: Document) {
    doc.tipo !in {"43", "44", "46", "47"} && !doc.modifiesGastosMenores && !doc.modifiesExport && doc.taxedLine
  }

  /** The caller's line states nothing but a rate, and `c` is what became of it. */
  predicate StatesRate(doc: Document, l: Line, c: Converted) {
    && l.indicador.None? && (l.taxRate == Some(18.0) || l.taxRate == Some(16.0) || l.taxRate == Some(0.0))
    && c.indicador == EffectiveIndicator(doc, Indicator(l).0, Indicator(l).1) && c.explicit == Indicator(l).1
  }

  function AmountAt(ls: seq<Line>, lines: seq<Converted>, rate: real): real
    requires |ls| == |lines|
    decreases |lines|
  {
    if lines == [] then 0.0
    else
      var n := |lines| - 1;
      AmountAt(ls[..n], lines[..n], rate) + if ls[n].taxRate == Some(rate) then lines[n].amountDop else 0.0
  }

  lemma {:induction false} IndicatorsAreRates(doc: Document, ls: seq<Line>, lines: seq<Converted>)
    requires Ordinary(doc) && |ls| == |lines| && forall k :: 0 <= k < |ls| ==> StatesRate(doc, ls[k], lines[k])
    ensures WithIndicator(lines, 1) == AmountAt(ls, lines, 18.0)
    ensures WithIndicator(lines, 2) == AmountAt(ls, lines, 16.0)
    ensures WithIndicator(lines, 4) == AmountAt(ls, lines, 0.0) && WithIndicator(lines, 3) == 0.0
    decreases |lines|
  {
    if lines != [] {
      var n := |lines| - 1;
      IndicatorsAreRates(doc, ls[..n], lines[..n]);
      assert StatesRate(doc, ls[n], lines[n]);
    }
  }

  /**
   Each line is taxed at the rate that the caller states on it: the amounts at 18 percent make up the
   base that is taxed with 18 percent, those at 16 percent the other one, and those at zero are exempt.
   */
  lemma StatedRatesAreCharged(doc: Document, ls: seq<Line>, lines: seq<Converted>, b: Bases)
    requires Ordinary(doc) && lines != [] && |ls| == |lines|
    requires (forall k :: 0 <= k < |ls| ==> StatesRate(doc, ls[k], lines[k])) && BasesOf(doc, lines, b)
    ensures Or0(b.b1) == AmountAt(ls, lines, 18.0) && Or0(b.b2) == AmountAt(ls, lines, 16.0)
    ensures b.exento == AmountAt(ls, lines, 0.0) && Or0(b.b3) == 0.0
    ensures Tax(b.b1, 0.18) + Tax(b.b2, 0.16) ==
            Round2(AmountAt(ls, lines, 18.0) * 0.18) + Round2(AmountAt(ls, lines, 16.0) * 0.16)
  {
    hide WithIndicator, StatesRate, Round2, Tax, BasesOf;
    IndicatorsAreRates(doc, ls, lines);
    StatedIsExplicit(doc, ls[0], lines[0]);
    PerLineBases(doc, lines, b);
    TaxOfBase(b.b1);
    TaxOfBase(b.b2);
    TaxIsRounded(Or0(b.b1));
    TaxIsRounded(Or0(b.b2));
  }

  lemma PerLineBases(doc: Document, lines: seq<Converted>, b: Bases)
    requires Ordinary(doc) && lines != [] && lines[0].explicit && BasesOf(doc, lines, b)
    ensures Or0(b.b1) == WithIndicator(lines, 1) && Or0(b.b2) == WithIndicator(lines, 2)
    ensures Or0(b.b3) == WithIndicator(lines, 3) && b.exento == WithIndicator(lines, 4)
  {
    hide WithIndicator, RawBases, Difference, Reconciled;
  }

  /** An empty base is taxed like a base of zero. */
  lemma TaxOfBase(base: Option<real>)
    ensures Tax(base, 0.18) == Tax(Some(Or0(base)), 0.18) && Tax(base, 0.16) == Tax(Some(Or0(base)), 0.16)
  {
    NothingRounds();
    if base.None? {
      assert Tax(Some(0.0), 0.18) == 0.0 && Tax(Some(0.0), 0.16) == 0.0;
    }
    hide Round2;
  }

  lemma TaxIsRounded(x: real)
    ensures Tax(Some(x), 0.18) == Round2(x * 0.18) && Tax(Some(x), 0.16) == Round2(x * 0.16)
  {
    hide Round2;
  }

  lemma StatedIsExplicit(doc: Document, l: Line, c: Converted)
    requires StatesRate(doc, l, c)
    ensures c.explicit
  {
  }

  lemma NothingRounds()
    ensures Round2(0.0) == 0.0 && Round2(0.0 * 0.18) == 0.0 && Round2(0.0 * 0.16) == 0.0
  {
  }

  /** Nothing in the document is taxed: no line, no base and no tax of its own, but an exempt amount. */
  predicate NothingTaxed(doc: Document) {
    && !doc.taxedLine && (forall k :: 0 <= k < |doc.totals.buckets| ==> doc.totals.buckets[k].base <= 0.0)
    && Or0(doc.totals.montoExento) > 0.0 && Or0(doc.totals.montoGravadoTotal) == 0.0 && doc.totals.montoItbis == 0.0
  }

  lemma {:induction false} OnlyExemptLines(lines: seq<Converted>)
    requires forall k :: 0 <= k < |lines| ==> lines[k].indicador == 4
    ensures WithIndicator(lines, 1) == 0.0 && WithIndicator(lines, 2) == 0.0 && WithIndicator(lines, 3) == 0.0
    ensures WithIndicator(lines, 4) == Billed(lines)
    decreases |lines|
  {
    if lines != [] {
      OnlyExemptLines(lines[..|lines| - 1]);
    }
  }

  /**
   Such a document, a note on minor expenses, and types 43, 44 and 47 are exempt as a whole, whatever
   the lines say.
   */
  lemma ExemptDocumentsPayNoTax(doc: Document, lines: seq<Converted>, b: Bases)
    requires doc.tipo in {"43", "44", "47"}
             || (doc.tipo != "46" && (doc.modifiesGastosMenores || (!doc.modifiesExport && NothingTaxed(doc))))
    requires forall k :: 0 <= k < |lines| ==>
               exists indicador, explicit :: lines[k].indicador == EffectiveIndicator(doc, indicador, explicit)
    requires BasesOf(doc, lines, b)
    ensures Or0(b.b1) == 0.0 && Or0(b.b2) == 0.0 && Or0(b.b3) == 0.0 && b.exento == Billed(lines)
  {
    forall k | 0 <= k < |lines| ensures lines[k].indicador == 4 {
      var indicador, explicit :| lines[k].indicador == EffectiveIndicator(doc, indicador, explicit);
    }
    OnlyExemptLines(lines);
    hide WithIndicator, Billed;
  }

  /**
   In an ordinary document a line that states nothing follows the tax buckets, and one that states an
   indicator keeps it.
   */
  lemma IndicatorOfALine(doc: Document, indicador: int)
    requires Ordinary(doc)
    ensures EffectiveIndicator(doc, indicador, true) == indicador
    ensures var at16 := |doc.totals.buckets| > 0
                        && (forall k :: 0 <= k < |doc.totals.buckets| ==> doc.totals.buckets[k].rate == 16)
                        && exists k :: 0 <= k < |doc.totals.buckets| && doc.totals.buckets[k].base > 0.0;
            EffectiveIndicator(doc, indicador, false) == if at16 then 2 else 1
  {
  }

  /** The printed total is the billed lines plus the printed tax exactly when the difference can be reconciled. */
  method ForeignTotals(doc: Document, lines: seq<Converted>) returns (r: Result)
    requires Ready(doc, lines)
    ensures r.totalDop == Billed(lines) + r.itbisDop <==> Reconcilable(doc, lines)
    ensures BasesOf(doc, lines, r.bases)
    ensures WholeExempt(doc) || doc.tipo == "46" ==> r.itbisDop == 0.0
    ensures !WholeExempt(doc) && doc.tipo != "46" ==> r.itbisDop == Tax(r.bases.b1, 0.18) + Tax(r.bases.b2, 0.16)
  {
    hide Round2, Cents, Gross, FromBuckets, Tax;
    var sum := SumBilled(lines);
    RawBasesInCents(doc, lines);
    var explicit := exists k :: 0 <= k < |lines| && lines[k].explicit;
    if doc.tipo == "43" || doc.tipo == "44" || doc.tipo == "47" {
      r := Result(NO_BASES.(exento := sum), 0.0, sum);
    } else if doc.tipo == "46" {
      r := Result(NO_BASES.(b3 := Some(sum)), 0.0, sum);
    } else {
      var b: Bases;
      if !explicit && doc.totals.buckets != [] && !PurelyExempt(doc) {
        var other := SumBuckets(doc.totals.buckets);
        other := other.(exento := Round2(Or0(doc.totals.montoExento)));
        b := Reconcile(BasesInPesos(other, doc.rate), sum);
      } else if !explicit && !PurelyExempt(doc) && Or0(doc.totals.montoExento) > 0.0
        && Or0(doc.totals.montoGravadoTotal) > 0.0 {
        b := ReconcileAggregate(Round2(Gross(Round2(Or0(doc.totals.montoGravadoTotal)), doc.rate)),
                                Round2(Gross(Round2(Or0(doc.totals.montoExento)), doc.rate)), sum);
      } else {
        b := SumPerLine(lines);
        IndicatorsPartition(doc, lines);
      }
      r := Finish(b);
    }
  }

  /** With one base the difference goes there whatever its sign. */
  method ReconcileAggregate(base: real, exento: real, sumLines: real) returns (b: Bases)
    requires Cents(base) && Cents(exento) && Cents(sumLines)
    ensures BasesInCents(b)
    ensures var diff := sumLines - (base + exento);
            b == Bases(Some(if Abs(diff) <= 0.10 then base + diff else base), None, None, exento)
    ensures Gravado(b) + b.exento == sumLines <==> Abs(sumLines - (base + exento)) <= 0.10
  {
    hide Round2, Cents;
    ZeroIsCents();
    b := Bases(Some(base), None, None, exento);
    CentsClosed(base, exento);
    CentsClosed(sumLines, base + exento);
    FixedIffCents(sumLines - (base + exento));
    var diff := Round2(sumLines - (base + exento));
    if diff != 0.0 && Abs(diff) <= 0.10 {
      RunningSum(base, diff);
      b := b.(b1 := Some(Round2(base + diff)));
    }
  }

  // ---- How large the difference can be ------------------------------------------------------

  function Total(xs: seq<real>): real {
    if xs == [] then 0.0 else Total(xs[..|xs| - 1]) + xs[|xs| - 1]
  }

  /** The values converted at this rate and rounded one by one. */
  function RoundedTotal(xs: seq<real>, rate: real): real {
    if xs == [] then 0.0 else RoundedTotal(xs[..|xs| - 1], rate) + Round2(Gross(xs[|xs| - 1], rate))
  }

  lemma GrossAdds(a: real, b: real, rate: real)
    ensures Gross(a + b, rate) == Gross(a, rate) + Gross(b, rate)
  {
  }

  /** Rounding n converted values one by one moves their sum by half a cent each at most. */
  lemma {:induction false} RoundingDrift(xs: seq<real>, rate: real)
    ensures Abs(RoundedTotal(xs, rate) - Gross(Total(xs), rate)) <= 0.005 * |xs| as real
    decreases |xs|
  {
    hide Round2, Gross;
    if xs == [] {
      GrossAdds(0.0, 0.0, rate);
    } else {
      var n := |xs| - 1;
      RoundingDrift(xs[..n], rate);
      GrossAdds(Total(xs[..n]), xs[n], rate);
      Rounded(Gross(xs[n], rate));
    }
  }

  /** Two ways to split one foreign sum into n and s parts differ by half a cent a part at most, in pesos. */
  lemma TwoSplitsDiffer(lines: seq<real>, bases: seq<real>, rate: real)
    requires Total(lines) == Total(bases)
    ensures Abs(RoundedTotal(lines, rate) - RoundedTotal(bases, rate)) <= 0.005 * (|lines| + |bases|) as real
  {
    hide Round2, Gross;
    RoundingDrift(lines, rate);
    RoundingDrift(bases, rate);
  }

  /** The foreign amounts of the lines. */
  function Amounts(lines: seq<Converted>): seq<real> {
    seq(|lines|, k requires 0 <= k < |lines| => lines[k].amountOther)
  }

  function Present(o: Option<real>): seq<real> {
    if o.Some? then [o.value] else []
  }

  /** The slots that are not empty. */
  function Slots(b: Bases): seq<real> {
    Present(b.b1) + Present(b.b2) + Present(b.b3) + if b.exento > 0.0 then [b.exento] else []
  }

  predicate UnitLine(doc: Document, c: Converted) {
    c.amountDop == Round2(Gross(c.amountOther, doc.rate)) && c.indicador != 0
  }

  lemma {:induction false} BilledUnits(doc: Document, lines: seq<Converted>)
    requires forall k :: 0 <= k < |lines| ==> UnitLine(doc, lines[k])
    ensures Billed(lines) == RoundedTotal(Amounts(lines), doc.rate)
    decreases |lines|
  {
    hide Round2, Gross;
    if lines != [] {
      BilledUnits(doc, lines[..|lines| - 1]);
      assert Amounts(lines)[..|lines| - 1] == Amounts(lines[..|lines| - 1]);
    }
  }

  lemma RoundedSnoc(xs: seq<real>, x: real, rate: real)
    ensures RoundedTotal(xs + [x], rate) == RoundedTotal(xs, rate) + Round2(Gross(x, rate))
    ensures xs + [] == xs
  {
    assert (xs + [x])[..|xs|] == xs;
  }

  lemma PesosOfSlots(b: Bases, rate: real)
    ensures var p := BasesInPesos(b, rate);
            Gravado(p) + p.exento == RoundedTotal(Slots(b), rate)
  {
    hide Round2, Gross, RoundedTotal;
    var s1 := Present(b.b1);
    var s2 := s1 + Present(b.b2);
    var s3 := s2 + Present(b.b3);
    RoundedNil(rate);
    RoundedSnoc([], Or0(b.b1), rate);
    assert [] + [Or0(b.b1)] == [Or0(b.b1)];
    RoundedSnoc(s1, Or0(b.b2), rate);
    RoundedSnoc(s2, Or0(b.b3), rate);
    RoundedSnoc(s3, b.exento, rate);
  }

  lemma RoundedNil(rate: real)
    ensures RoundedTotal([], rate) == 0.0
  {
  }

  /**
   Lines of quantity one without discount whose foreign amounts add up to the foreign bases: the
   peso difference is at most half a cent for each of the n lines and s slots.
   */
  lemma BucketDifferenceIsBounded(doc: Document, lines: seq<Converted>)
    requires BranchOf(doc, lines) == ByBuckets
    requires forall k :: 0 <= k < |lines| ==> UnitLine(doc, lines[k])
    requires var other := FromBuckets(doc.totals.buckets).(exento := Round2(Or0(doc.totals.montoExento)));
             Total(Amounts(lines)) == Total(Slots(other))
    ensures var other := FromBuckets(doc.totals.buckets).(exento := Round2(Or0(doc.totals.montoExento)));
            Abs(Difference(doc, lines)) <= 0.005 * (|lines| + |Slots(other)|) as real
  {
    hide Round2, Gross, FromBuckets, Slots, Billed, BranchOf, Total;
    var other := FromBuckets(doc.totals.buckets).(exento := Round2(Or0(doc.totals.montoExento)));
    BilledUnits(doc, lines);
    PesosOfSlots(other, doc.rate);
    TwoSplitsDiffer(Amounts(lines), Slots(other), doc.rate);
  }

  /** Up to twenty lines and slots the reconciliation always applies. */
  lemma TwentyPartsAlwaysReconcile(doc: Document, lines: seq<Converted>)
    requires BranchOf(doc, lines) == ByBuckets && SomePositive(RawBases(doc, lines))
    requires forall k :: 0 <= k < |lines| ==> UnitLine(doc, lines[k])
    requires var other := FromBuckets(doc.totals.buckets).(exento := Round2(Or0(doc.totals.montoExento)));
             Total(Amounts(lines)) == Total(Slots(other)) && |lines| + |Slots(other)| <= 20
    ensures Reconcilable(doc, lines)
  {
    hide Round2, Gross, FromBuckets, Slots, Billed, RawBases, BranchOf, Amounts, Total;
    BucketDifferenceIsBounded(doc, lines);
  }

  /** What `UnitLine` asks for is what the conversion makes of a line of quantity one without discount. */
  lemma UnitItemsAreUnitLines(doc: Document, i: Item)
    requires Printable(i, i.number) && i.quantity == 1.0 && i.discount == 0.0 && !i.explicit
    ensures UnitLine(doc, Convert(doc, i))
  {
    hide Round2, Round4, Gross, Cents;
  }
}
