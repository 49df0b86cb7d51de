/** A row, or a private copy, that says "accepted" has DGII's acceptance behind it. */
module IssuanceHonesty {
  import opened Wrappers
  import opened Documents
  import opened Issuance
  import opened IssuancePlacement
  import Estado
  import D = DbContext
  import R = Reconciler

  predicate HonestDoc(h: seq<Event>, k: TxnKey, d: Doc) {
    d.state.AcceptedByDgii? ==> Accepted(KeyOf(k, d)) in h
  }

  predicate HonestPhase(h: seq<Event>, k: TxnKey, p: Phase) {
    p.Lookup? || p.Drawing? || HonestDoc(h, k, p.doc)
  }

  ghost predicate HonestWriter(h: seq<Event>, w: Writer) {
    && (forall k :: k in w.read ==> HonestDoc(h, k, w.read[k]))
    && (forall k :: k in w.write ==> HonestDoc(h, k, w.write[k]))
  }

  ghost predicate Honest(m: Machine) {
    && (forall k :: k in m.rows ==> HonestDoc(m.history, k, m.rows[k]))
    && (forall k :: k in m.live ==> HonestPhase(m.history, k, m.live[k]))
    && (forall i :: i in m.writers ==> HonestWriter(m.history, m.writers[i]))
  }

  /** A status query that brings back an acceptance asked about its row's number. */
  predicate Truthful(m: Machine, l: Label) {
    l.StatusQuery? && l.id in m.writers && OneRow(m.writers[l.id]) ==>
      var k := m.writers[l.id].keys[0];
      l.asked == KeyOf(k, m.writers[l.id].read[k]) || !Mapped(l.estado).AcceptedByDgii?
  }

  predicate HonestEffect(h: seq<Event>, k: TxnKey, e: Effect) {
    && (e.save.Some? ==> HonestDoc(h + e.told, k, e.save.value))
    && (e.next.Some? ==> HonestPhase(h + e.told, k, e.next.value))
  }

  lemma HonestGrows(h: seq<Event>, more: seq<Event>, k: TxnKey)
    ensures forall d :: HonestDoc(h, k, d) ==> HonestDoc(h + more, k, d)
    ensures forall p :: HonestPhase(h, k, p) ==> HonestPhase(h + more, k, p)
  {
  }

  lemma HonestWriterGrows(h: seq<Event>, more: seq<Event>, w: Writer)
    requires HonestWriter(h, w)
    ensures HonestWriter(h + more, w)
  {
    hide HonestDoc;
    forall k ensures k in w.read ==> HonestDoc(h + more, k, w.read[k])
             ensures k in w.write ==> HonestDoc(h + more, k, w.write[k])
    {
      HonestGrows(h, more, k);
    }
  }

  /** More history leaves everything honest. */
  lemma HonestTold(m: Machine, es: seq<Event>)
    requires Honest(m)
    ensures Honest(m.(history := m.history + es))
  {
    hide HonestDoc, HonestPhase, HonestWriter;
    forall k ensures k in m.rows ==> HonestDoc(m.history + es, k, m.rows[k])
             ensures k in m.live ==> HonestPhase(m.history + es, k, m.live[k])
    {
      HonestGrows(m.history, es, k);
    }
    forall i | i in m.writers ensures HonestWriter(m.history + es, m.writers[i]) {
      HonestWriterGrows(m.history, es, m.writers[i]);
    }
  }

  lemma HonestEnact(m: Machine, k: TxnKey, e: Effect)
    requires Honest(m) && HonestEffect(m.history, k, e)
    ensures Honest(Enact(m, k, e))
  {
    hide HonestDoc, HonestPhase;
    HonestTold(m, e.told);
  }

  lemma HonestPosting(h: seq<Event>, k: TxnKey, req: Req, d: Doc, c: Choice)
    requires d.state.AwaitingTransmission?
    ensures HonestEffect(h, k, AfterPosting(k, req, d, c))
  {
    OutcomeFits(d, c);
  }

  lemma HonestAsking(h: seq<Event>, k: TxnKey, req: Req, d: Doc, c: Choice)
    ensures HonestEffect(h, k, AfterAsking(k, req, d, c))
  {
    hide Estado.Read;
  }

  lemma HonestWriting(h: seq<Event>, rows: D.Rows, k: TxnKey, p: Phase, c: Choice)
    requires HonestPhase(h, k, p) && Shaped(p) && (k in rows ==> HonestDoc(h, k, rows[k]))
    requires !p.Posting? && !p.Asking?
    ensures HonestEffect(h, k, Continue(rows, k, p, c))
  {
    hide D.NumberFree;
    HonestGrows(h, [], k);
  }

  lemma HonestContinue(m: Machine, k: TxnKey, c: Choice)
    requires AllShaped(m) && Honest(m) && k in m.live
    ensures HonestEffect(m.history, k, Continue(m.rows, k, m.live[k], c))
  {
    hide HonestEffect, HonestDoc, AfterPosting, AfterAsking;
    assert Shaped(m.live[k]) && HonestPhase(m.history, k, m.live[k]);
    match m.live[k] {
      case Posting(req, d) => HonestPosting(m.history, k, req, d, c);
      case Asking(req, d) => HonestAsking(m.history, k, req, d, c);
      case p => HonestWriting(m.history, m.rows, k, p, c);
    }
  }

  lemma HonestHeard(m: Machine, i: nat, write: map<TxnKey, Doc>, told: seq<Event>)
    requires Honest(m) && i in m.writers
    requires forall k :: k in write ==> HonestDoc(m.history + told, k, write[k])
    ensures Honest(Heard(m, i, write, told))
  {
    hide HonestDoc, HonestPhase;
    HonestTold(m, told);
  }

  lemma HonestRefreshed(h: seq<Event>, k: TxnKey, d: Doc, l: Label)
    requires l.Refresh?
    ensures var f := Refreshed(k, d, l.resultado, l.estado, l.track);
            f.save.Some? ==> HonestDoc(h + f.told, k, f.save.value)
  {
    hide Estado.Read;
  }

  lemma HonestQueried(h: seq<Event>, k: TxnKey, d: Doc, asked: FiscalKey, estado: string)
    requires asked == KeyOf(k, d) || !Mapped(estado).AcceptedByDgii?
    ensures var f := Queried(d, asked, estado);
            f.save.Some? ==> HonestDoc(h + f.told, k, f.save.value)
  {
    hide Denied;
  }

  lemma HonestHear(h: seq<Event>, k: TxnKey, d: Doc, now: int, o: R.Options, a: R.Answer)
    requires HonestDoc(h, k, d)
    ensures HonestDoc(h + BatchEvents(k, d, now, o, a), k, R.Checked(d, now, o, a))
  {
    hide R.Aged, R.Verdict;
  }

  lemma HonestOneRow(m: Machine, l: Label)
    requires Honest(m) && Truthful(m, l) && (l.Refresh? || l.StatusQuery?)
    ensures Honest(Next(m, l))
  {
    hide Honest, HonestDoc, Refreshed, Queried, Mapped;
    if l.id in m.writers && OneRow(m.writers[l.id]) {
      var w := m.writers[l.id];
      var k := w.keys[0];
      if l.Refresh? {
        HonestRefreshed(m.history, k, w.read[k], l);
        var f := Refreshed(k, w.read[k], l.resultado, l.estado, l.track);
        HonestHeard(m, l.id, OneWrite(k, f), f.told);
      } else {
        HonestQueried(m.history, k, w.read[k], l.asked, l.estado);
        var f := Queried(w.read[k], l.asked, l.estado);
        HonestHeard(m, l.id, OneWrite(k, f), f.told);
      }
    }
  }

  lemma HonestBatchRow(m: Machine, l: Label)
    requires Honest(m) && l.Hear?
    ensures Honest(Next(m, l))
  {
    hide HonestDoc, R.Checked, BatchEvents, HonestPhase;
    if l.id in m.writers && m.writers[l.id].kind.Batch? && l.key in m.writers[l.id].read {
      var w := m.writers[l.id];
      var es := BatchEvents(l.key, w.read[l.key], w.kind.now, w.kind.options, l.answer);
      assert HonestWriter(m.history, w);
      HonestHear(m.history, l.key, w.read[l.key], w.kind.now, w.kind.options, l.answer);
      HonestWriterGrows(m.history, es, w);
      HonestHeard(m, l.id, w.write[l.key := R.Checked(w.read[l.key], w.kind.now, w.kind.options, l.answer)], es);
    }
  }

  /** Even a late commit is honest: what it writes carries its own number. */
  lemma HonestQuiet(m: Machine, l: Label)
    requires Honest(m) && (l.Look? || l.Fetch? || l.Commit?)
    ensures Honest(Next(m, l))
  {
    hide HonestDoc, HonestPhase, D.ExecuteAll, D.Updates, R.Due;
    var m' := Next(m, l);
    forall i | i in m'.writers ensures HonestWriter(m'.history, m'.writers[i]) {
      assert i in m.writers ==> HonestWriter(m.history, m.writers[i]);
    }
    assert l.Commit? && l.id in m.writers ==> HonestWriter(m.history, m.writers[l.id]);
  }

  lemma HonestNext(m: Machine, l: Label)
    requires AllShaped(m) && Honest(m) && Truthful(m, l)
    ensures Honest(Next(m, l))
  {
    hide Honest, Continue, Refreshed, Queried, BatchEvents, R.Checked, R.IsDueBatch, Committed, Truthful, HonestDoc;
    match l {
      case Begin(req) => if req.key !in m.live { HonestEnact(m, req.key, Go(Lookup(req, false))); }
      case Advance(k, c) =>
        if k in m.live {
          HonestContinue(m, k, c);
          HonestEnact(m, k, Continue(m.rows, k, m.live[k], c));
        }
      case Crash(k) => HonestEnact(m, k, Stop());
      case Refresh(_, _, _, _) => HonestOneRow(m, l);
      case StatusQuery(_, _, _) => HonestOneRow(m, l);
      case Hear(_, _, _) => HonestBatchRow(m, l);
      case Adjudicate(n) => HonestTold(m, [Accepted(n)]);
      case _ => HonestQuiet(m, l);
    }
  }

  predicate AllTruthful(m: Machine, ls: seq<Label>)
    decreases |ls|
  {
    ls == [] || (Truthful(m, ls[0]) && AllTruthful(Next(m, ls[0]), ls[1..]))
  }

  lemma {:induction false} AllTruthfulConcat(m: Machine, a: seq<Label>, b: seq<Label>)
    ensures AllTruthful(m, a + b) <==> AllTruthful(m, a) && AllTruthful(Run(m, a), b)
    decreases |a|
  {
    if a == [] {
      assert a + b == b;
    } else {
      assert (a + b)[1..] == a[1..] + b;
      AllTruthfulConcat(Next(m, a[0]), a[1..], b);
    }
  }

  lemma {:induction false} HonestRun(m: Machine, ls: seq<Label>)
    requires AllShaped(m) && Honest(m) && AllTruthful(m, ls)
    ensures AllShaped(Run(m, ls)) && Honest(Run(m, ls))
    decreases |ls|
  {
    hide AllShaped, Honest, Truthful;
    if ls != [] {
      ShapedNext(m, ls[0]);
      HonestNext(m, ls[0]);
      HonestRun(Next(m, ls[0]), ls[1..]);
    }
  }

  /** A stored acceptance was always announced by DGII for exactly that number, also after late commits. */
  lemma StoredAcceptanceIsReal(ls: seq<Label>, k: TxnKey)
    requires AllTruthful(START, ls)
    requires k in Run(START, ls).rows && Run(START, ls).rows[k].state.AcceptedByDgii?
    ensures Accepted(KeyOf(k, Run(START, ls).rows[k])) in Run(START, ls).history
  {
    HonestRun(START, ls);
  }

  /** Exactly when a status query stores an acceptance that DGII announced for the row's number. */
  lemma QueryIsHonestIff(h: seq<Event>, k: TxnKey, d: Doc, asked: FiscalKey, estado: string)
    requires HonestDoc(h, k, d) && Queried(d, asked, estado).save.Some? && Accepted(KeyOf(k, d)) !in h
    ensures var f := Queried(d, asked, estado);
            HonestDoc(h + f.told, k, f.save.value) <==> asked == KeyOf(k, d) || !Mapped(estado).AcceptedByDgii?
  {
    hide Denied;
    var f := Queried(d, asked, estado);
    assert forall e :: e in h + f.told <==> e in h || e in f.told;
  }
}
