/**
 Fresh draws: no number is drawn while anybody uses it. Whatever late commits do to the rows, a number
 then belongs to one transaction of its scope, and only a draw brings it into use.
 */
module IssuanceFreshness {
  import opened Wrappers
  import opened Documents
  import opened Issuance
  import opened IssuancePlacement
  import opened IssuanceSafety
  import opened IssuanceGuards
  import Estado
  import D = DbContext
  import R = Reconciler

  // ---- The hypotheses -----------------------------------------------------------------------

  /** The submission has a private copy of the document. */
  predicate HasCopy(p: Phase) {
    !p.Lookup? && !p.Drawing?
  }

  ghost predicate ReadWith(w: Writer, k: TxnKey, encf: string) {
    k in w.read && w.read[k].encf == encf
  }

  /** The row of `k`, a reader's copy of it, or a transmission for it carries this eNCF. */
  ghost predicate Borne(m: Machine, k: TxnKey, encf: string) {
    || (k in m.rows && m.rows[k].encf == encf)
    || (exists i :: i in m.writers && ReadWith(m.writers[i], k, encf))
    || (exists n :: Sent(k, n) in m.history && n.encf == encf)
  }

  /** So does one of these, or the copy of a live submission. */
  ghost predicate Used(m: Machine, k: TxnKey, encf: string) {
    Borne(m, k, encf) || (k in m.live && HasCopy(m.live[k]) && m.live[k].doc.encf == encf)
  }

  /** No transaction of the scope uses this eNCF in this environment; a number given back may be drawn again. */
  ghost predicate Fresh(m: Machine, k: TxnKey, encf: string, scope: TxnKey -> string) {
    forall j :: scope(j) == scope(k) && j.amb == k.amb ==> !Used(m, j, encf)
  }

  predicate Draws(m: Machine, l: Label) {
    && l.Advance? && l.key in m.live && l.choice.Number?
    && (m.live[l.key].Drawing? || m.live[l.key].Redrawing?)
  }

  ghost predicate AllFresh(m: Machine, ls: seq<Label>, scope: TxnKey -> string)
    decreases |ls|
  {
    ls == [] || ((Draws(m, ls[0]) ==> Fresh(m, ls[0].key, ls[0].choice.encf, scope))
                 && AllFresh(Next(m, ls[0]), ls[1..], scope))
  }

  /** Transactions that name one issuer draw from one scope. */
  predicate AtHome(ls: seq<Label>, scope: TxnKey -> string, home: string -> string) {
    forall l :: l in ls && l.Begin? ==> home(l.req.rnc) == scope(l.req.key)
  }

  // ---- Who uses what ------------------------------------------------------------------------

  /** In one scope and environment an eNCF belongs to one transaction. */
  ghost predicate Owned(m: Machine, scope: TxnKey -> string) {
    forall j, k, encf :: Used(m, j, encf) && Used(m, k, encf) && scope(j) == scope(k) && j.amb == k.amb ==> j == k
  }

  /** Every issuer anywhere is one of the scope. */
  ghost predicate Home(m: Machine, scope: TxnKey -> string, home: string -> string) {
    && (forall k :: k in m.rows ==> home(m.rows[k].rnc) == scope(k))
    && (forall k :: k in m.live ==> PhaseHome(k, m.live[k], scope, home))
    && (forall i, k :: i in m.writers && k in m.writers[i].read ==> home(m.writers[i].read[k].rnc) == scope(k))
    && (forall k, n :: Sent(k, n) in m.history ==> home(n.rnc) == scope(k) && n.amb == k.amb)
  }

  predicate PhaseHome(k: TxnKey, p: Phase, scope: TxnKey -> string, home: string -> string) {
    p.req.key == k && home(p.req.rnc) == scope(k) && (HasCopy(p) ==> home(p.doc.rnc) == scope(k))
  }

  // ---- A step of a submission: numbers and issuers --------------------------------------------

  /** Where the number and the issuer of a copy or a save come from. */
  ghost predicate Descends(rows: D.Rows, k: TxnKey, p: Phase, c: Choice, e: Effect) {
    && (e.save.Some? ==> HasCopy(p) && e.save.value.encf == p.doc.encf && e.save.value.rnc == p.doc.rnc)
    && (e.next.Some? ==> e.next.value.req == p.req)
    && (e.next.Some? && HasCopy(e.next.value) ==>
          var d := e.next.value.doc;
          && (|| (HasCopy(p) && d.encf == p.doc.encf)
              || (k in rows && d.encf == rows[k].encf)
              || (c.Number? && (p.Drawing? || p.Redrawing?) && d.encf == c.encf))
          && (d.rnc == p.req.rnc || (HasCopy(p) && d.rnc == p.doc.rnc) || (k in rows && d.rnc == rows[k].rnc)))
  }

  lemma PostingDescends(rows: D.Rows, k: TxnKey, req: Req, d: Doc, c: Choice)
    ensures Descends(rows, k, Posting(req, d), c, AfterPosting(k, req, d, c))
  {
    OutcomeFits(d, c);
    hide Outcome, VerdictEvents;
  }

  lemma StepDescends(rows: D.Rows, k: TxnKey, p: Phase, c: Choice)
    ensures Descends(rows, k, p, c, Continue(rows, k, p, c))
  {
    hide Estado.Read, VerdictEvents, D.NumberFree, AfterPosting;
    if p.Posting? {
      PostingDescends(rows, k, p.req, p.doc, c);
    }
  }

  /** Nobody comes to use an eNCF but by drawing it. */
  lemma UsedAdvance(m: Machine, k: TxnKey, c: Choice, j: TxnKey, encf: string)
    requires k in m.live && Used(Next(m, Advance(k, c)), j, encf)
    ensures Used(m, j, encf) || (Draws(m, Advance(k, c)) && j == k && encf == c.encf)
  {
    hide Continue;
    var e := Continue(m.rows, k, m.live[k], c);
    var m' := Enact(m, k, e);
    StepDescends(m.rows, k, m.live[k], c);
    StepTells(m.rows, k, m.live[k], c);
    if i :| i in m'.writers && ReadWith(m'.writers[i], j, encf) {
      assert ReadWith(m.writers[i], j, encf);
    }
    if n :| Sent(j, n) in m'.history && n.encf == encf {
      assert Sent(j, n) in m.history || Sent(j, n) in e.told;
    }
  }

  // ---- Readers: numbers and issuers -----------------------------------------------------------

  lemma BorneOpened(m: Machine, i: nat, keys: seq<TxnKey>, kind: Kind, j: TxnKey, encf: string)
    requires i !in m.writers && forall k :: k in keys ==> k in m.rows
    requires Borne(m.(writers := m.writers[i := Opened(m, keys, kind)]), j, encf)
    ensures Borne(m, j, encf)
  {
    var m' := m.(writers := m.writers[i := Opened(m, keys, kind)]);
    if x :| x in m'.writers && ReadWith(m'.writers[x], j, encf) {
      assert x != i ==> ReadWith(m.writers[x], j, encf);
    }
  }

  /** Hearing something is no use of a number. */
  lemma BorneHeard(m: Machine, i: nat, write: map<TxnKey, Doc>, told: seq<Event>, j: TxnKey, encf: string)
    requires i in m.writers && (forall x :: x in told ==> !x.Sent?) && Borne(Heard(m, i, write, told), j, encf)
    ensures Borne(m, j, encf)
  {
    var m' := Heard(m, i, write, told);
    if x :| x in m'.writers && ReadWith(m'.writers[x], j, encf) {
      assert ReadWith(m.writers[x], j, encf);
    }
  }

  /** A commit writes the number that was read. */
  lemma BorneCommitted(m: Machine, i: nat, connected: bool, j: TxnKey, encf: string)
    requires Readers(m) && i in m.writers && Borne(Committed(m, i, connected), j, encf)
    ensures Borne(m, j, encf)
  {
    hide D.ExecuteAll, D.Updates, R.Checked, R.Due;
    var m' := Committed(m, i, connected);
    assert ReaderOk(m, m.writers[i]);
    if j in m'.rows && m'.rows[j].encf == encf && m'.rows[j] != m.rows[j] {
      assert ReadWith(m.writers[i], j, encf);
    }
    if x :| x in m'.writers && ReadWith(m'.writers[x], j, encf) {
      assert ReadWith(m.writers[x], j, encf);
    }
  }

  /** What the steps of the other writers tell. */
  lemma NobodySends(m: Machine, l: Label)
    requires l.Refresh? || l.StatusQuery?
    requires l.id in m.writers && OneRow(m.writers[l.id])
    ensures var w := m.writers[l.id];
            var k := w.keys[0];
            var f := if l.Refresh? then Refreshed(k, w.read[k], l.resultado, l.estado, l.track)
                     else Queried(w.read[k], l.asked, l.estado);
            Next(m, l) == Heard(m, l.id, OneWrite(k, f), f.told) && forall x :: x in f.told ==> !x.Sent?
  {
    hide Refreshed, Queried;
    var w := m.writers[l.id];
    var k := w.keys[0];
    if l.Refresh? {
      VerdictsTell(k, w.read[k], l, 0, R.Options(0, 0, 0), R.Answer(None, None));
    } else {
      QueryKeepsNumber(w.read[k], l.asked, l.estado);
    }
  }

  lemma BorneReader(m: Machine, l: Label, j: TxnKey, encf: string)
    requires Readers(m) && Borne(Next(m, l), j, encf)
    requires !l.Begin? && !l.Advance? && !l.Crash?
    ensures Borne(m, j, encf)
  {
    hide Borne, Readers, Refreshed, Queried, BatchEvents, R.Checked, R.IsDueBatch, Opened, Committed, Heard, Learned;
    match l {
      case Look(i, k) => if i !in m.writers && k in m.rows { BorneOpened(m, i, [k], Single, j, encf); }
      case Refresh(i, _, _, _) =>
        if i in m.writers && OneRow(m.writers[i]) {
          var w := m.writers[i];
          var f := Refreshed(w.keys[0], w.read[w.keys[0]], l.resultado, l.estado, l.track);
          NobodySends(m, l);
          BorneHeard(m, i, OneWrite(w.keys[0], f), f.told, j, encf);
        }
      case StatusQuery(i, asked, estado) =>
        if i in m.writers && OneRow(m.writers[i]) {
          var w := m.writers[i];
          var f := Queried(w.read[w.keys[0]], asked, estado);
          NobodySends(m, l);
          BorneHeard(m, i, OneWrite(w.keys[0], f), f.told, j, encf);
        }
      case Fetch(i, now, o, due) =>
        if i !in m.writers && R.IsDueBatch(m.rows, now, o, due) {
          DueIsStored(m.rows, now, o, due);
          BorneOpened(m, i, due, Batch(now, o), j, encf);
        }
      case Hear(i, k, a) =>
        if i in m.writers && m.writers[i].kind.Batch? && k in m.writers[i].read {
          var w := m.writers[i];
          VerdictsTell(k, w.read[k], l, w.kind.now, w.kind.options, a);
          BorneHeard(m, i, w.write[k := R.Checked(w.read[k], w.kind.now, w.kind.options, a)],
                    BatchEvents(k, w.read[k], w.kind.now, w.kind.options, a), j, encf);
        }
      case Commit(i, connected) => if i in m.writers
        && Complete(m.writers[i]) { BorneCommitted(m, i, connected, j, encf); }
      case Adjudicate(n) => BorneAdjudicated(m, n, j, encf);
    }
  }

  lemma UsedReader(m: Machine, l: Label, j: TxnKey, encf: string)
    requires Readers(m) && Used(Next(m, l), j, encf)
    requires !l.Begin? && !l.Advance? && !l.Crash?
    ensures Used(m, j, encf)
  {
    hide Borne, Readers, Refreshed, Queried, BatchEvents, R.Checked, R.IsDueBatch, Opened, D.ExecuteAll, D.Updates,
      D.Overwritten;
    if Borne(Next(m, l), j, encf) {
      BorneReader(m, l, j, encf);
    }
  }

  lemma DueIsStored(rows: D.Rows, now: int, o: R.Options, due: seq<TxnKey>)
    requires R.IsDueBatch(rows, now, o, due)
    ensures forall k :: k in due ==> k in rows && R.Due(rows[k], now, o)
  {
  }

  lemma BorneAdjudicated(m: Machine, n: FiscalKey, j: TxnKey, encf: string)
    requires Borne(m.(history := m.history + [Accepted(n)]), j, encf)
    ensures Borne(m, j, encf)
  {
    var h := m.history + [Accepted(n)];
    if x :| Sent(j, x) in h && x.encf == encf {
      assert Sent(j, x) in m.history;
    }
  }

  lemma UsedEnded(m: Machine, l: Label, j: TxnKey, encf: string)
    requires (l.Begin? || l.Crash?) && Used(Next(m, l), j, encf)
    ensures Used(m, j, encf)
  {
    var m' := Next(m, l);
    if i :| i in m'.writers && ReadWith(m'.writers[i], j, encf) {
      assert ReadWith(m.writers[i], j, encf);
    }
    if n :| Sent(j, n) in m'.history && n.encf == encf {
      assert Sent(j, n) in m.history;
    }
  }

  /** An eNCF gets into use only by a draw. */
  lemma UsedNext(m: Machine, l: Label, j: TxnKey, encf: string)
    requires Readers(m) && Used(Next(m, l), j, encf)
    ensures Used(m, j, encf) || (Draws(m, l) && j == l.key && encf == l.choice.encf)
  {
    hide Used, Readers, Continue;
    match l {
      case Begin(_) => UsedEnded(m, l, j, encf);
      case Advance(k, c) => if k in m.live { UsedAdvance(m, k, c, j, encf); }
      case Crash(_) => UsedEnded(m, l, j, encf);
      case _ => UsedReader(m, l, j, encf);
    }
  }

  lemma OwnedNext(m: Machine, l: Label, scope: TxnKey -> string)
    requires Readers(m) && Owned(m, scope) && (Draws(m, l) ==> Fresh(m, l.key, l.choice.encf, scope))
    ensures Owned(Next(m, l), scope)
  {
    hide Used, Readers, Next, Draws;
    var m' := Next(m, l);
    forall j, k, encf | Used(m', j, encf) && Used(m', k, encf) && scope(j) == scope(k)
      && j.amb == k.amb ensures j == k {
      UsedNext(m, l, j, encf);
      UsedNext(m, l, k, encf);
    }
  }

  // ---- Issuers ------------------------------------------------------------------------------

  lemma HomeEnact(m: Machine, k: TxnKey, c: Choice, scope: TxnKey -> string, home: string -> string)
    requires Home(m, scope, home) && k in m.live
    ensures Home(Enact(m, k, Continue(m.rows, k, m.live[k], c)), scope, home)
  {
    hide Continue;
    var e := Continue(m.rows, k, m.live[k], c);
    StepDescends(m.rows, k, m.live[k], c);
    StepTells(m.rows, k, m.live[k], c);
    assert PhaseHome(k, m.live[k], scope, home);
    assert forall j, n :: Sent(j, n) in m.history + e.told ==> Sent(j, n) in m.history || Sent(j, n) in e.told;
  }

  lemma HomeHeard(m: Machine, i: nat, write: map<TxnKey, Doc>, told: seq<Event>,
                  scope: TxnKey -> string, home: string -> string)
    requires Home(m, scope, home) && i in m.writers && forall x :: x in told ==> !x.Sent?
    ensures Home(Heard(m, i, write, told), scope, home)
  {
    hide PhaseHome;
    assert forall j, n :: Sent(j, n) in m.history + told ==> Sent(j, n) in m.history || Sent(j, n) in told;
  }

  lemma HomeOpened(m: Machine, i: nat, keys: seq<TxnKey>, kind: Kind, scope: TxnKey -> string, home: string -> string)
    requires Home(m, scope, home) && i !in m.writers && forall k :: k in keys ==> k in m.rows
    ensures Home(m.(writers := m.writers[i := Opened(m, keys, kind)]), scope, home)
  {
    hide PhaseHome;
  }

  lemma HomeCommitted(m: Machine, i: nat, connected: bool, scope: TxnKey -> string, home: string -> string)
    requires Home(m, scope, home) && Readers(m) && i in m.writers
    ensures Home(Committed(m, i, connected), scope, home)
  {
    hide PhaseHome, D.ExecuteAll, D.Updates, R.Checked, R.Due;
    assert ReaderOk(m, m.writers[i]);
  }

  lemma HomeQuiet(m: Machine, l: Label, scope: TxnKey -> string, home: string -> string)
    requires Home(m, scope, home) && (l.Begin? || l.Crash? || l.Adjudicate?)
    requires l.Begin? ==> home(l.req.rnc) == scope(l.req.key)
    ensures Home(Next(m, l), scope, home)
  {
    assert m.history + [] == m.history;
    assert l.Adjudicate? ==> forall j, n :: Sent(j, n) in m.history + [Accepted(l.number)] ==> Sent(j, n) in m.history;
  }

  lemma HomeNext(m: Machine, l: Label, scope: TxnKey -> string, home: string -> string)
    requires Home(m, scope, home) && Readers(m)
    requires l.Begin? ==> home(l.req.rnc) == scope(l.req.key)
    ensures Home(Next(m, l), scope, home)
  {
    hide Home, Readers, Enact, Continue, Refreshed, Queried, BatchEvents, R.Checked,
      R.IsDueBatch, Opened, Committed, Heard, Learned;
    match l {
      case Advance(k, c) => if k in m.live { HomeEnact(m, k, c, scope, home); }
      case Look(i, k) => if i !in m.writers && k in m.rows { HomeOpened(m, i, [k], Single, scope, home); }
      case Refresh(i, _, _, _) =>
        if i in m.writers && OneRow(m.writers[i]) {
          var w := m.writers[i];
          var f := Refreshed(w.keys[0], w.read[w.keys[0]], l.resultado, l.estado, l.track);
          NobodySends(m, l);
          HomeHeard(m, i, OneWrite(w.keys[0], f), f.told, scope, home);
        }
      case StatusQuery(i, asked, estado) =>
        if i in m.writers && OneRow(m.writers[i]) {
          var w := m.writers[i];
          var f := Queried(w.read[w.keys[0]], asked, estado);
          NobodySends(m, l);
          HomeHeard(m, i, OneWrite(w.keys[0], f), f.told, scope, home);
        }
      case Fetch(i, now, o, due) =>
        if i !in m.writers && R.IsDueBatch(m.rows, now, o, due) {
          DueIsStored(m.rows, now, o, due);
          HomeOpened(m, i, due, Batch(now, o), scope, home);
        }
      case Hear(i, k, a) =>
        if i in m.writers && m.writers[i].kind.Batch? && k in m.writers[i].read {
          var w := m.writers[i];
          VerdictsTell(k, w.read[k], l, w.kind.now, w.kind.options, a);
          HomeHeard(m, i, w.write[k := R.Checked(w.read[k], w.kind.now, w.kind.options, a)],
                    BatchEvents(k, w.read[k], w.kind.now, w.kind.options, a), scope, home);
        }
      case Commit(i, connected) => if i in m.writers { HomeCommitted(m, i, connected, scope, home); }
      case _ => HomeQuiet(m, l, scope, home);
    }
  }
}
