/** While the issuer of each transaction stays the same, final rejections are enough for one accepted number. */
module IssuanceIssuer {
  import opened Wrappers
  import opened Documents
  import opened Issuance
  import opened IssuancePlacement
  import opened IssuanceOutstanding
  import Estado
  import D = DbContext
  import R = Reconciler

  /** The requests of each transaction name one issuer throughout. */
  predicate SteadyIssuer(ls: seq<Label>, issuer: TxnKey -> string) {
    forall l :: l in ls && l.Begin? ==> l.req.rnc == issuer(l.req.key)
  }

  /** A status query that brings back a rejection asked about its row's number. */
  predicate RejectsItsRow(m: Machine, l: Label) {
    l.StatusQuery? && l.id in m.writers && OneRow(m.writers[l.id]) ==>
      var k := m.writers[l.id].keys[0];
      l.asked == KeyOf(k, m.writers[l.id].read[k]) || !Mapped(l.estado).RejectedByDgii?
  }

  predicate AllRejectTheirRow(m: Machine, ls: seq<Label>)
    decreases |ls|
  {
    ls == [] || (RejectsItsRow(m, ls[0]) && AllRejectTheirRow(Next(m, ls[0]), ls[1..]))
  }

  ghost predicate SingleRow(h: seq<Event>, k: TxnKey, d: Doc, issuer: TxnKey -> string) {
    && d.rnc == issuer(k)
    && (d.state.RejectedByDgii? ==> Rejected(KeyOf(k, d)) in h)
  }

  ghost predicate SinglePhase(m: Machine, k: TxnKey, p: Phase, issuer: TxnKey -> string) {
    && p.req.key == k && p.req.rnc == issuer(k)
    && (p.Lookup? || p.Drawing? || p.doc.rnc == issuer(k))
    && (p.Saving? && k in m.rows ==>
          && (p.doc.encf != m.rows[k].encf ==> Rejected(KeyOf(k, m.rows[k])) in m.history)
          && (p.doc.state.RejectedByDgii? ==> Rejected(KeyOf(k, p.doc)) in m.history))
  }

  ghost predicate SingleWriter(h: seq<Event>, w: Writer, issuer: TxnKey -> string) {
    && (forall k :: k in w.read ==> SingleRow(h, k, w.read[k], issuer))
    && (forall k :: k in w.write ==> SingleRow(h, k, w.write[k], issuer))
  }

  ghost predicate SingleSent(m: Machine, k: TxnKey, n: FiscalKey, issuer: TxnKey -> string) {
    && k in m.rows && n.rnc == issuer(k) && n.amb == k.amb
    && (n.encf == m.rows[k].encf || Rejected(n) in m.history)
  }

  /** Every number that a transaction sent is the one it holds, or carries a rejection. */
  ghost predicate Single(m: Machine, issuer: TxnKey -> string) {
    && (forall k :: k in m.rows ==> SingleRow(m.history, k, m.rows[k], issuer))
    && (forall k :: k in m.live ==> SinglePhase(m, k, m.live[k], issuer))
    && (forall i :: i in m.writers ==> SingleWriter(m.history, m.writers[i], issuer))
    && (forall k, n :: Sent(k, n) in m.history ==> SingleSent(m, k, n, issuer))
  }

  // ---- Submissions --------------------------------------------------------------------------

  /** What an effect must respect for `Single`. */
  ghost predicate SingleEffect(m: Machine, k: TxnKey, e: Effect, issuer: TxnKey -> string) {
    var h := m.history + e.told;
    && (e.save.Some? ==> SingleRow(h, k, e.save.value, issuer))
    && (e.next.Some? ==> SinglePhase(Enact(m, k, e), k, e.next.value, issuer))
    && (e.save.Some? && k in m.rows && e.save.value.encf != m.rows[k].encf ==> Rejected(KeyOf(k, m.rows[k])) in h)
    && (forall x :: x in e.told && x.Sent? ==>
          x.from == k && k in m.rows && x.number == KeyOf(k, m.rows[k]) && e.save.None?)
  }

  lemma SingleWriterGrows(h: seq<Event>, more: seq<Event>, w: Writer, issuer: TxnKey -> string)
    requires SingleWriter(h, w, issuer)
    ensures SingleWriter(h + more, w, issuer)
  {
  }

  lemma SingleEnact(m: Machine, k: TxnKey, e: Effect, issuer: TxnKey -> string)
    requires Single(m, issuer) && SingleEffect(m, k, e, issuer)
    ensures Single(Enact(m, k, e), issuer)
  {
    var m' := Enact(m, k, e);
    forall j | j in m'.live ensures SinglePhase(m', j, m'.live[j], issuer) {
      assert j != k ==> SinglePhase(m, j, m.live[j], issuer);
    }
    forall j | j in m'.rows ensures SingleRow(m'.history, j, m'.rows[j], issuer) {
      assert j != k || e.save.None? ==> SingleRow(m.history, j, m.rows[j], issuer);
    }
    forall i | i in m'.writers ensures SingleWriter(m'.history, m'.writers[i], issuer) {
      SingleWriterGrows(m.history, e.told, m.writers[i], issuer);
    }
    hide SingleWriter;
    forall j, n | Sent(j, n) in m'.history ensures SingleSent(m', j, n, issuer) {
      assert k in m.rows ==> SingleRow(m.history, k, m.rows[k], issuer);
      assert Sent(j, n) in m.history ==> SingleSent(m, j, n, issuer);
      assert Sent(j, n) in m.history || Sent(j, n) in e.told;
    }
  }

  lemma SinglePosting(m: Machine, k: TxnKey, req: Req, d: Doc, c: Choice, issuer: TxnKey -> string)
    requires PhasePlaced(m.rows, k, Posting(req, d)) && SinglePhase(m, k, Posting(req, d), issuer)
    ensures SingleEffect(m, k, AfterPosting(k, req, d, c), issuer)
  {
    OutcomeFits(d, c);
  }

  lemma SingleAsking(m: Machine, k: TxnKey, req: Req, d: Doc, c: Choice, issuer: TxnKey -> string)
    requires PhasePlaced(m.rows, k, Asking(req, d)) && SinglePhase(m, k, Asking(req, d), issuer)
    ensures SingleEffect(m, k, AfterAsking(k, req, d, c), issuer)
  {
    hide Estado.Read;
  }

  lemma SingleSigning(m: Machine, k: TxnKey, req: Req, d: Doc, c: Choice, issuer: TxnKey -> string)
    requires PhasePlaced(m.rows, k, Signing(req, d)) && SinglePhase(m, k, Signing(req, d), issuer)
    ensures SingleEffect(m, k, AfterSigning(req, d, c), issuer)
  {
  }

  lemma SingleSaving(m: Machine, k: TxnKey, req: Req, d: Doc, after: After, c: Choice, issuer: TxnKey -> string)
    requires PhasePlaced(m.rows, k, Saving(req, d, after)) && SinglePhase(m, k, Saving(req, d, after), issuer)
    ensures SingleEffect(m, k, AfterSaving(m.rows, k, req, d, after, c), issuer)
  {
    hide D.NumberFree;
  }

  lemma SingleDrawing(m: Machine, k: TxnKey, p: Phase, c: Choice, issuer: TxnKey -> string)
    requires PhasePlaced(m.rows, k, p) && SinglePhase(m, k, p, issuer)
    requires p.Lookup? || p.Drawing? || p.Inserting? || p.Redrawing?
    requires k in m.rows ==> SingleRow(m.history, k, m.rows[k], issuer)
    ensures SingleEffect(m, k, Continue(m.rows, k, p, c), issuer)
  {
    hide D.NumberFree;
  }

  lemma SingleContinue(m: Machine, k: TxnKey, c: Choice, issuer: TxnKey -> string)
    requires Placed(m) && Single(m, issuer) && k in m.live
    ensures SingleEffect(m, k, Continue(m.rows, k, m.live[k], c), issuer)
  {
    hide PhasePlaced, SinglePhase, SingleRow, SingleEffect, SingleWriter, SingleSent,
      AfterPosting, AfterAsking, AfterSigning, AfterSaving;
    var p := m.live[k];
    assert PhasePlaced(m.rows, k, p) && SinglePhase(m, k, p, issuer);
    assert k in m.rows ==> SingleRow(m.history, k, m.rows[k], issuer);
    match p {
      case Saving(req, d, after) => SingleSaving(m, k, req, d, after, c, issuer);
      case Signing(req, d) => SingleSigning(m, k, req, d, c, issuer);
      case Posting(req, d) => SinglePosting(m, k, req, d, c, issuer);
      case Asking(req, d) => SingleAsking(m, k, req, d, c, issuer);
      case _ => SingleDrawing(m, k, p, c, issuer);
    }
  }

  // ---- The other writers --------------------------------------------------------------------

  /** The same submissions, the same numbers, no new transmission, only more history. */
  ghost predicate CarriesOver(m: Machine, m': Machine) {
    && m'.live == m.live && m'.rows.Keys == m.rows.Keys
    && (forall k :: k in m.rows ==> KeyOf(k, m'.rows[k]) == KeyOf(k, m.rows[k]))
    && (forall e :: e in m.history ==> e in m'.history)
    && (forall e :: e in m'.history && e.Sent? ==> e in m.history)
  }

  lemma SingleCarriesOver(m: Machine, m': Machine, issuer: TxnKey -> string)
    requires Single(m, issuer) && CarriesOver(m, m')
    requires forall k :: k in m'.rows ==> SingleRow(m'.history, k, m'.rows[k], issuer)
    requires forall i :: i in m'.writers ==> SingleWriter(m'.history, m'.writers[i], issuer)
    ensures Single(m', issuer)
  {
    hide SingleRow, SingleWriter;
    forall j | j in m'.live ensures SinglePhase(m', j, m'.live[j], issuer) {
      assert SinglePhase(m, j, m.live[j], issuer);
      assert j in m.rows ==> KeyOf(j, m'.rows[j]) == KeyOf(j, m.rows[j]);
    }
    forall j, n | Sent(j, n) in m'.history ensures SingleSent(m', j, n, issuer) {
      assert SingleSent(m, j, n, issuer);
      assert KeyOf(j, m'.rows[j]) == KeyOf(j, m.rows[j]);
    }
  }

  /** More history, and perhaps one reader that is new or has heard something. */
  lemma SingleHeard(m: Machine, m': Machine, i: nat, es: seq<Event>, issuer: TxnKey -> string)
    requires Single(m, issuer) && m'.live == m.live && m'.rows == m.rows
    requires m'.history == m.history + es && forall e :: e in es ==> !e.Sent?
    requires forall j :: j in m'.writers && j != i ==> j in m.writers && m'.writers[j] == m.writers[j]
    requires i in m'.writers ==> SingleWriter(m'.history, m'.writers[i], issuer)
    ensures Single(m', issuer)
  {
    hide SingleWriter;
    forall j | j in m'.writers ensures SingleWriter(m'.history, m'.writers[j], issuer) {
      if j != i { SingleWriterGrows(m.history, es, m.writers[j], issuer); }
    }
    SingleCarriesOver(m, m', issuer);
  }

  lemma RefreshedRow(h: seq<Event>, k: TxnKey, d: Doc, l: Label, issuer: TxnKey -> string)
    requires l.Refresh? && SingleRow(h, k, d, issuer)
    ensures var f := Refreshed(k, d, l.resultado, l.estado, l.track);
            && (forall e :: e in f.told ==> !e.Sent?)
            && (f.save.Some? ==> SingleRow(h + f.told, k, f.save.value, issuer))
  {
    hide Estado.Read;
  }

  lemma QueriedRow(h: seq<Event>, k: TxnKey, d: Doc, asked: FiscalKey, estado: string, issuer: TxnKey -> string)
    requires SingleRow(h, k, d, issuer) && (asked == KeyOf(k, d) || !Mapped(estado).RejectedByDgii?)
    ensures var f := Queried(d, asked, estado);
            && (forall e :: e in f.told ==> !e.Sent?)
            && (f.save.Some? ==> SingleRow(h + f.told, k, f.save.value, issuer))
  {
    hide Denied;
  }

  lemma CheckedRow(h: seq<Event>, k: TxnKey, d: Doc, now: int, o: R.Options, a: R.Answer, issuer: TxnKey -> string)
    requires SingleRow(h, k, d, issuer)
    ensures var es := BatchEvents(k, d, now, o, a);
            && (forall e :: e in es ==> !e.Sent?)
            && SingleRow(h + es, k, R.Checked(d, now, o, a), issuer)
  {
    hide R.Verdict, R.Aged;
  }

  lemma SingleOneRow(m: Machine, l: Label, issuer: TxnKey -> string)
    requires Single(m, issuer) && RejectsItsRow(m, l) && (l.Refresh? || l.StatusQuery?)
    ensures Single(Next(m, l), issuer)
  {
    hide Single, SingleRow, Refreshed, Queried, Mapped;
    if l.id in m.writers && OneRow(m.writers[l.id]) {
      var w := m.writers[l.id];
      var k := w.keys[0];
      WriterOf(m, l.id, issuer);
      var f := if l.Refresh? then Refreshed(k, w.read[k], l.resultado, l.estado, l.track)
        else Queried(w.read[k], l.asked, l.estado);
      if l.Refresh? {
        RefreshedRow(m.history, k, w.read[k], l, issuer);
      } else {
        QueriedRow(m.history, k, w.read[k], l.asked, l.estado, issuer);
      }
      SingleWriterGrows(m.history, f.told, w, issuer);
      SingleHeard(m, Next(m, l), l.id, f.told, issuer);
    }
  }

  lemma WriterOf(m: Machine, i: nat, issuer: TxnKey -> string)
    requires Single(m, issuer) && i in m.writers
    ensures SingleWriter(m.history, m.writers[i], issuer)
  {
  }

  lemma SingleBatchRow(m: Machine, l: Label, issuer: TxnKey -> string)
    requires Single(m, issuer) && l.Hear?
    ensures Single(Next(m, l), issuer)
  {
    hide Single, SingleRow, R.Checked, BatchEvents;
    if l.id in m.writers && m.writers[l.id].kind.Batch? && l.key in m.writers[l.id].read {
      var w := m.writers[l.id];
      var es := BatchEvents(l.key, w.read[l.key], w.kind.now, w.kind.options, l.answer);
      WriterOf(m, l.id, issuer);
      CheckedRow(m.history, l.key, w.read[l.key], w.kind.now, w.kind.options, l.answer, issuer);
      SingleWriterGrows(m.history, es, w, issuer);
      SingleHeard(m, Next(m, l), l.id, es, issuer);
    }
  }

  lemma SingleOpened(m: Machine, l: Label, issuer: TxnKey -> string)
    requires Single(m, issuer) && (l.Look? || l.Fetch?)
    ensures Single(Next(m, l), issuer)
  {
    hide R.Due, SinglePhase, SingleSent;
    assert m.history + [] == m.history;
    SingleHeard(m, Next(m, l), l.id, [], issuer);
  }

  lemma CommitKeepsNumbers(m: Machine, l: Label)
    requires Readers(m) && l.Commit? && l.id in m.writers && Conditional(m, l)
    ensures CarriesOver(m, Committed(m, l.id, l.connected))
  {
    hide D.ExecuteAll, D.Updates, R.Checked, R.Due;
    assert ReaderOk(m, m.writers[l.id]);
  }

  /** A conditional commit changes no number. */
  lemma SingleCommitted(m: Machine, l: Label, issuer: TxnKey -> string)
    requires Single(m, issuer) && Readers(m) && l.Commit? && l.id in m.writers && Conditional(m, l)
    ensures Single(Committed(m, l.id, l.connected), issuer)
  {
    hide D.ExecuteAll, D.Updates, SinglePhase, SingleSent;
    var m', w := Committed(m, l.id, l.connected), m.writers[l.id];
    CommitKeepsNumbers(m, l);
    assert SingleWriter(m.history, w, issuer);
    hide Readers, Conditional, SingleRow;
    forall j | j in m'.writers ensures SingleWriter(m'.history, m'.writers[j], issuer) {
      assert SingleWriter(m.history, m.writers[j], issuer);
    }
    SingleCarriesOver(m, m', issuer);
  }

  lemma SingleNext(m: Machine, l: Label, issuer: TxnKey -> string)
    requires Placed(m) && Readers(m) && Single(m, issuer) && Conditional(m, l) && RejectsItsRow(m, l)
    requires l.Begin? ==> l.req.rnc == issuer(l.req.key)
    ensures Single(Next(m, l), issuer)
  {
    hide Placed, Readers, Single, Conditional, RejectsItsRow, Continue, Enact, Committed,
      Refreshed, Queried, R.Checked, BatchEvents, R.IsDueBatch;
    match l {
      case Begin(req) => if req.key !in m.live { SingleBegun(m, req, issuer); }
      case Advance(k, c) =>
        if k in m.live {
          SingleContinue(m, k, c, issuer);
          SingleEnact(m, k, Continue(m.rows, k, m.live[k], c), issuer);
        }
      case Crash(k) => SingleEnact(m, k, Stop(), issuer);
      case Look(_, _) => SingleOpened(m, l, issuer);
      case Refresh(_, _, _, _) => SingleOneRow(m, l, issuer);
      case StatusQuery(_, _, _) => SingleOneRow(m, l, issuer);
      case Fetch(_, _, _, _) => SingleOpened(m, l, issuer);
      case Hear(_, _, _) => SingleBatchRow(m, l, issuer);
      case Commit(i, connected) => if i in m.writers { SingleCommitted(m, l, issuer); }
      case Adjudicate(n) => SingleAdjudicated(m, n, issuer);
    }
  }

  lemma SingleBegun(m: Machine, req: Req, issuer: TxnKey -> string)
    requires Single(m, issuer) && req.rnc == issuer(req.key)
    ensures Single(Enact(m, req.key, Go(Lookup(req, false))), issuer)
  {
    hide Single;
    SingleEnact(m, req.key, Go(Lookup(req, false)), issuer);
  }

  lemma SingleAdjudicated(m: Machine, n: FiscalKey, issuer: TxnKey -> string)
    requires Single(m, issuer)
    ensures Single(m.(history := m.history + [Accepted(n)]), issuer)
  {
    hide SinglePhase, SingleRow, SingleSent;
    var m' := m.(history := m.history + [Accepted(n)]);
    forall i | i in m.writers ensures SingleWriter(m'.history, m.writers[i], issuer) {
      SingleWriterGrows(m.history, [Accepted(n)], m.writers[i], issuer);
    }
    SingleHeard(m, m', 0, [Accepted(n)], issuer);
  }

  lemma {:induction false} SingleRun(m: Machine, ls: seq<Label>, issuer: TxnKey -> string)
    requires Placed(m) && Readers(m) && Single(m, issuer)
    requires AllConditional(m, ls) && AllRejectTheirRow(m, ls) && SteadyIssuer(ls, issuer)
    ensures Single(Run(m, ls), issuer)
    decreases |ls|
  {
    hide Placed, Readers, Single, Conditional, RejectsItsRow;
    if ls != [] {
      PlacedNext(m, ls[0]);
      ReadersNext(m, ls[0]);
      SingleNext(m, ls[0], issuer);
      SingleRun(Next(m, ls[0]), ls[1..], issuer);
    }
  }

  /** Then a transaction never ends up with two accepted numbers, also if DGII first denied knowing one of them. */
  lemma SteadyIssuerOneAccepted(ls: seq<Label>, issuer: TxnKey -> string, k: TxnKey, a: FiscalKey, b: FiscalKey)
    requires AllConditional(START, ls) && AllRejectTheirRow(START, ls) && SteadyIssuer(ls, issuer)
    requires RejectionIsFinal(Run(START, ls).history)
    requires var h := Run(START, ls).history; Sent(k, a) in h && Sent(k, b) in h && Accepted(a) in h && Accepted(b) in h
    ensures a == b
  {
    SingleRun(START, ls, issuer);
    assert SingleSent(Run(START, ls), k, a, issuer) && SingleSent(Run(START, ls), k, b, issuer);
  }
}
