/**
 Send discipline for the UPDATE as it is: whatever late commits and misdirected queries do to the
 rows, no number goes out twice unasked, because a re-issued row never draws a number in use.
 */
module IssuanceDiscipline {
  import opened Documents
  import opened Issuance
  import opened IssuancePlacement
  import opened IssuanceSafety
  import opened IssuanceGuards
  import opened IssuanceIssuer
  import opened IssuanceFreshness
  import Estado
  import D = DbContext
  import R = Reconciler

  // ---- What is outstanding ------------------------------------------------------------------

  /** Every issuer's number with this eNCF is settled at DGII. */
  ghost predicate Free(h: seq<Event>, k: TxnKey, encf: string, scope: TxnKey -> string, home: string -> string) {
    forall n: FiscalKey :: n.encf == encf && n.amb == k.amb && home(n.rnc) == scope(k) ==> !Pending(h, n)
  }

  /** At most the document's own number is outstanding. */
  ghost predicate FreeBut(h: seq<Event>, k: TxnKey, d: Doc, scope: TxnKey -> string, home: string -> string) {
    forall n: FiscalKey :: n.encf == d.encf && n.amb == k.amb && home(n.rnc) == scope(k) && n != KeyOf(k, d) ==>
      !Pending(h, n)
  }

  /** The states from which DGII is asked before the number goes out again. */
  predicate InDoubt(s: State) {
    s.Uncertain? || s.AwaitingTransmission?
  }

  /** What a stored document must satisfy: what may be sent unasked is not outstanding. */
  ghost predicate Stored(h: seq<Event>, k: TxnKey, d: Doc, scope: TxnKey -> string, home: string -> string) {
    && (NeverTransmitted(d.state) ==> Free(h, k, d.encf, scope, home))
    && (InDoubt(d.state) ==> FreeBut(h, k, d, scope, home))
  }

  ghost predicate PhaseClean(m: Machine, k: TxnKey, p: Phase, scope: TxnKey -> string, home: string -> string) {
    match p
    case Lookup(_, _) => true
    case Drawing(_) => true
    case Redrawing(_, _) => true
    case Inserting(_, d) => Free(m.history, k, d.encf, scope, home)
    case Signing(_, d) => Free(m.history, k, d.encf, scope, home)
    case Asking(_, d) => FreeBut(m.history, k, d, scope, home)
    case Posting(_, d) =>
      && Free(m.history, k, d.encf, scope, home)
      && k in m.rows && !NeverTransmitted(m.rows[k].state)
      && (InDoubt(m.rows[k].state) ==> KeyOf(k, m.rows[k]) == KeyOf(k, d))
    case Saving(_, d, after) =>
      if after.ThenStop? then Stored(m.history, k, d, scope, home) else Free(m.history, k, d.encf, scope, home)
  }

  /** No refresh, status query or pass puts a row into a state from which its number is sent again. */
  predicate Settling(w: Writer) {
    forall k :: k in w.write ==> !NeverTransmitted(w.write[k].state) && !InDoubt(w.write[k].state)
  }

  ghost predicate Clean(m: Machine, scope: TxnKey -> string, home: string -> string) {
    && (forall k :: k in m.rows ==> Stored(m.history, k, m.rows[k], scope, home))
    && (forall k :: k in m.live ==> PhaseClean(m, k, m.live[k], scope, home))
    && (forall i :: i in m.writers ==> Settling(m.writers[i]))
  }

  ghost predicate Tracked(m: Machine, scope: TxnKey -> string, home: string -> string) {
    AllShaped(m) && Readers(m) && Owned(m, scope) && Home(m, scope, home) && Clean(m, scope, home)
      && Disciplined(m.history)
  }

  // ---- Outstanding numbers --------------------------------------------------------------------

  /** No transmission in `es` is of this eNCF for a transaction of `k`'s scope and environment. */
  ghost predicate Spared(es: seq<Event>, k: TxnKey, encf: string, scope: TxnKey -> string, home: string -> string) {
    forall x :: x in es && x.Sent? && x.number.encf == encf && x.number.amb == k.amb ==> home(x.number.rnc) != scope(k)
  }

  lemma FreeGrows(h: seq<Event>, es: seq<Event>, k: TxnKey, encf: string, scope: TxnKey -> string,
                  home: string -> string)
    requires Spared(es, k, encf, scope, home)
    ensures Free(h, k, encf, scope, home) ==> Free(h + es, k, encf, scope, home)
  {
    hide Pending;
    forall n: FiscalKey | n.encf == encf && n.amb == k.amb && home(n.rnc) == scope(k)
      ensures Pending(h + es, n) ==> Pending(h, n)
    {
      PendingNeedsSent(h, es, n);
    }
  }

  lemma FreeButGrows(h: seq<Event>, es: seq<Event>, k: TxnKey, d: Doc, scope: TxnKey -> string, home: string -> string)
    requires FreeBut(h, k, d, scope, home)
    requires forall x :: x in es && x.Sent? ==> x.number == KeyOf(k, d)
    ensures FreeBut(h + es, k, d, scope, home)
  {
    hide Pending;
    forall n: FiscalKey | n != KeyOf(k, d) ensures Pending(h + es, n) ==> Pending(h, n) {
      PendingNeedsSent(h, es, n);
    }
  }

  lemma StoredGrows(h: seq<Event>, es: seq<Event>, k: TxnKey, d: Doc, scope: TxnKey -> string, home: string -> string)
    requires Stored(h, k, d, scope, home) && Spared(es, k, d.encf, scope, home)
    ensures Stored(h + es, k, d, scope, home)
  {
    hide Free, Pending;
    FreeGrows(h, es, k, d.encf, scope, home);
    forall n: FiscalKey | n.encf == d.encf && n.amb == k.amb && home(n.rnc) == scope(k)
      ensures Pending(h + es, n) ==> Pending(h, n)
    {
      PendingNeedsSent(h, es, n);
    }
  }

  lemma PhaseGrows(m: Machine, m': Machine, es: seq<Event>, k: TxnKey, p: Phase,
                   scope: TxnKey -> string, home: string -> string)
    requires PhaseClean(m, k, p, scope, home) && m'.history == m.history + es
    requires HasCopy(p) ==> Spared(es, k, p.doc.encf, scope, home)
    requires k in m.rows ==> k in m'.rows && (m'.rows[k] == m.rows[k] ||
                                              (!NeverTransmitted(m'.rows[k].state) && !InDoubt(m'.rows[k].state)))
    ensures PhaseClean(m', k, p, scope, home)
  {
    hide Free, Pending;
    if HasCopy(p) {
      FreeGrows(m.history, es, k, p.doc.encf, scope, home);
      forall n: FiscalKey | n.encf == p.doc.encf && n.amb == k.amb && home(n.rnc) == scope(k)
        ensures Pending(m'.history, n) ==> Pending(m.history, n)
      {
        PendingNeedsSent(m.history, es, n);
      }
    }
  }

  /** A number outstanding is in use. */
  lemma OutstandingIsUsed(m: Machine, n: FiscalKey, scope: TxnKey -> string, home: string -> string) returns (j: TxnKey)
    requires Home(m, scope, home) && Pending(m.history, n)
    ensures Used(m, j, n.encf) && home(n.rnc) == scope(j) && n.amb == j.amb
  {
    hide Pending, PhaseHome;
    PendingMeaning(m.history, n);
    var i :| 0 <= i < |m.history| && m.history[i].Sent? && m.history[i].number == n;
    j := m.history[i].from;
    assert Sent(j, n) in m.history;
  }

  /** A fresh eNCF has nothing outstanding. */
  lemma FreshIsFree(m: Machine, k: TxnKey, encf: string, scope: TxnKey -> string, home: string -> string)
    requires Home(m, scope, home) && Fresh(m, k, encf, scope)
    ensures Free(m.history, k, encf, scope, home)
  {
    hide Home, Used, Pending;
    forall n: FiscalKey | n.encf == encf && n.amb == k.amb && home(n.rnc) == scope(k) ensures !Pending(m.history, n) {
      if Pending(m.history, n) {
        var j := OutstandingIsUsed(m, n, scope, home);
      }
    }
  }

  // ---- A step of a submission: what is outstanding ----------------------------------------------

  /** The row and the submission of `k` are clean. */
  ghost predicate CleanAt(m: Machine, k: TxnKey, scope: TxnKey -> string, home: string -> string) {
    && (k in m.rows ==> Stored(m.history, k, m.rows[k], scope, home))
    && (k in m.live ==> PhaseClean(m, k, m.live[k], scope, home))
  }

  lemma CleanDrawing(m: Machine, k: TxnKey, c: Choice, scope: TxnKey -> string, home: string -> string)
    requires k in m.live && CleanAt(m, k, scope, home)
             && (Draws(m, Advance(k, c)) ==> Free(m.history, k, c.encf, scope, home))
    requires m.live[k].Lookup? || m.live[k].Drawing? || m.live[k].Redrawing?
    ensures CleanAt(Enact(m, k, Continue(m.rows, k, m.live[k], c)), k, scope, home)
  {
    hide Free, FreeBut;
    assert m.history + [] == m.history;
  }

  lemma CleanSaving(m: Machine, k: TxnKey, c: Choice, scope: TxnKey -> string, home: string -> string)
    requires k in m.live && Shaped(m.live[k]) && CleanAt(m, k, scope, home)
    requires m.live[k].Inserting? || m.live[k].Saving? || m.live[k].Signing?
    ensures CleanAt(Enact(m, k, Continue(m.rows, k, m.live[k], c)), k, scope, home)
  {
    hide Free, D.NumberFree;
    assert m.history + [] == m.history;
    if Free(m.history, k, m.live[k].doc.encf, scope, home) {
      FreeIsFreeBut(m.history, k, m.live[k].doc, scope, home);
    }
    hide FreeBut;
  }

  lemma FreeIsFreeBut(h: seq<Event>, k: TxnKey, d: Doc, scope: TxnKey -> string, home: string -> string)
    requires Free(h, k, d.encf, scope, home)
    ensures FreeBut(h, k, d, scope, home)
  {
  }

  /** The answer that the number is unknown frees it for every issuer. */
  lemma UnknownIsFree(h: seq<Event>, k: TxnKey, d: Doc, scope: TxnKey -> string, home: string -> string)
    requires FreeBut(h, k, d, scope, home)
    ensures Free(h + [Missing(KeyOf(k, d))], k, d.encf, scope, home)
  {
    hide Pending;
    PendingSnoc(h, Missing(KeyOf(k, d)));
  }

  lemma CleanAsking(m: Machine, k: TxnKey, req: Req, d: Doc, c: Choice, scope: TxnKey -> string, home: string -> string)
    requires k in m.live && m.live[k] == Asking(req, d) && CleanAt(m, k, scope, home)
    ensures CleanAt(Enact(m, k, AfterAsking(k, req, d, c)), k, scope, home)
  {
    hide Free, FreeBut, Estado.Read, Pending;
    UnknownIsFree(m.history, k, d, scope, home);
    var e := AfterAsking(k, req, d, c);
    assert m.history + [] == m.history;
    if k in m.rows {
      StoredGrows(m.history, e.told, k, m.rows[k], scope, home);
    }
  }

  lemma CleanPosting(m: Machine, k: TxnKey, req: Req, d: Doc, c: Choice, scope: TxnKey -> string,
                     home: string -> string)
    requires k in m.live && m.live[k] == Posting(req, d) && CleanAt(m, k, scope, home)
    ensures CleanAt(Enact(m, k, AfterPosting(k, req, d, c)), k, scope, home)
  {
    hide Free, FreeBut, Estado.Read, Pending, Outcome;
    OutcomeFits(d, c);
    FreeIsFreeBut(m.history, k, d, scope, home);
    var e := AfterPosting(k, req, d, c);
    FreeButGrows(m.history, e.told, k, d, scope, home);
    if InDoubt(m.rows[k].state) {
      SameButState(m.history + e.told, k, d, m.rows[k], scope, home);
    }
    assert d.(state := Uncertain).encf == d.encf && KeyOf(k, d.(state := Uncertain)) == KeyOf(k, d);
    SameButState(m.history + e.told, k, d, d.(state := Uncertain), scope, home);
  }

  lemma SameButState(h: seq<Event>, k: TxnKey, d: Doc, d': Doc, scope: TxnKey -> string, home: string -> string)
    requires KeyOf(k, d) == KeyOf(k, d')
    ensures FreeBut(h, k, d, scope, home) ==> FreeBut(h, k, d', scope, home)
  {
  }

  lemma CleanOwn(m: Machine, k: TxnKey, c: Choice, scope: TxnKey -> string, home: string -> string)
    requires k in m.live && Shaped(m.live[k]) && CleanAt(m, k, scope, home)
    requires Draws(m, Advance(k, c)) ==> Free(m.history, k, c.encf, scope, home)
    ensures CleanAt(Enact(m, k, Continue(m.rows, k, m.live[k], c)), k, scope, home)
  {
    hide Free, CleanAt, Enact, AfterPosting, AfterAsking, AfterSigning, AfterSaving, AfterInserting, Dispatch;
    match m.live[k] {
      case Posting(req, d) => CleanPosting(m, k, req, d, c, scope, home);
      case Asking(req, d) => CleanAsking(m, k, req, d, c, scope, home);
      case Inserting(_, _) => CleanSaving(m, k, c, scope, home);
      case Saving(_, _, _) => CleanSaving(m, k, c, scope, home);
      case Signing(_, _) => CleanSaving(m, k, c, scope, home);
      case _ => CleanDrawing(m, k, c, scope, home);
    }
  }

  /** What one submission sends concerns no other transaction. */
  lemma OthersAreSpared(m: Machine, k: TxnKey, c: Choice, j: TxnKey, encf: string,
                        scope: TxnKey -> string, home: string -> string)
    requires Owned(m, scope) && Home(m, scope, home) && k in m.live && j != k && Used(m, j, encf)
    ensures Spared(Continue(m.rows, k, m.live[k], c).told, j, encf, scope, home)
  {
    hide Continue;
    StepTells(m.rows, k, m.live[k], c);
    assert PhaseHome(k, m.live[k], scope, home);
    assert HasCopy(m.live[k]) ==> Used(m, k, m.live[k].doc.encf);
    hide Used, Home;
  }

  lemma CleanAdvance(m: Machine, k: TxnKey, c: Choice, scope: TxnKey -> string, home: string -> string)
    requires AllShaped(m) && Owned(m, scope) && Home(m, scope, home) && Clean(m, scope, home) && k in m.live
    requires Draws(m, Advance(k, c)) ==> Fresh(m, k, c.encf, scope)
    ensures Clean(Enact(m, k, Continue(m.rows, k, m.live[k], c)), scope, home)
  {
    hide Owned, Home, Used, Fresh, Stored, PhaseClean, Continue, Shaped;
    var e := Continue(m.rows, k, m.live[k], c);
    var m' := Enact(m, k, e);
    if Draws(m, Advance(k, c)) { FreshIsFree(m, k, c.encf, scope, home); }
    CleanOwn(m, k, c, scope, home);
    forall j | j in m.rows && j != k ensures Stored(m'.history, j, m'.rows[j], scope, home) {
      RowUses(m, j);
      OthersAreSpared(m, k, c, j, m.rows[j].encf, scope, home);
      StoredGrows(m.history, e.told, j, m.rows[j], scope, home);
    }
    forall j | j in m.live && j != k ensures PhaseClean(m', j, m'.live[j], scope, home) {
      if HasCopy(m.live[j]) {
        CopyUses(m, j);
        OthersAreSpared(m, k, c, j, m.live[j].doc.encf, scope, home);
      }
      PhaseGrows(m, m', e.told, j, m.live[j], scope, home);
    }
  }

  lemma RowUses(m: Machine, k: TxnKey)
    requires k in m.rows
    ensures Used(m, k, m.rows[k].encf)
  {
  }

  lemma CopyUses(m: Machine, k: TxnKey)
    requires k in m.live && HasCopy(m.live[k])
    ensures Used(m, k, m.live[k].doc.encf)
  {
  }

  // ---- Readers: what is outstanding -------------------------------------------------------------

  lemma CleanTold(m: Machine, es: seq<Event>, scope: TxnKey -> string, home: string -> string)
    requires Clean(m, scope, home) && forall x :: x in es ==> !x.Sent?
    ensures Clean(m.(history := m.history + es), scope, home)
  {
    hide Stored, PhaseClean, Settling;
    var m' := m.(history := m.history + es);
    forall k | k in m.rows ensures Stored(m'.history, k, m.rows[k], scope, home) {
      StoredGrows(m.history, es, k, m.rows[k], scope, home);
    }
    forall k | k in m.live ensures PhaseClean(m', k, m.live[k], scope, home) {
      PhaseGrows(m, m', es, k, m.live[k], scope, home);
    }
  }

  lemma CleanReaders(m: Machine, ws: Writers, scope: TxnKey -> string, home: string -> string)
    requires Clean(m, scope, home) && forall i :: i in ws ==> Settling(ws[i])
    ensures Clean(m.(writers := ws), scope, home)
  {
    hide Stored, Settling;
    forall k | k in m.live ensures PhaseClean(m.(writers := ws), k, m.live[k], scope, home) {
      assert m.history + [] == m.history;
      PhaseGrows(m, m.(writers := ws), [], k, m.live[k], scope, home);
    }
  }

  lemma CleanHeard(m: Machine, i: nat, write: map<TxnKey, Doc>, told: seq<Event>,
                   scope: TxnKey -> string, home: string -> string)
    requires Clean(m, scope, home) && i in m.writers && forall x :: x in told ==> !x.Sent?
    requires Settling(m.writers[i].(write := write))
    ensures Clean(Heard(m, i, write, told), scope, home)
  {
    CleanTold(m, told, scope, home);
    assert forall j :: j in m.writers ==> Settling(m.writers[j]);
    hide Clean, Settling;
    CleanReaders(m.(history := m.history + told), m.writers[i := m.writers[i].(write := write)], scope, home);
  }

  lemma CleanCommitted(m: Machine, i: nat, connected: bool, scope: TxnKey -> string, home: string -> string)
    requires Clean(m, scope, home) && i in m.writers
    ensures Clean(Committed(m, i, connected), scope, home)
  {
    hide Free, FreeBut, PhaseClean, D.ExecuteAll, D.Updates;
    var m' := Committed(m, i, connected);
    assert Settling(m.writers[i]);
    forall j | j in m'.writers ensures Settling(m'.writers[j]) {
      assert Settling(m.writers[j]);
    }
    forall k | k in m.live ensures PhaseClean(m', k, m.live[k], scope, home) {
      assert m.history + [] == m.history;
      PhaseGrows(m, m', [], k, m.live[k], scope, home);
    }
  }

  lemma RefreshSettles(k: TxnKey, d: Doc, resultado: string, estado: string, track: string)
    ensures var f := Refreshed(k, d, resultado, estado, track);
            f.save.Some? ==> !NeverTransmitted(f.save.value.state) && !InDoubt(f.save.value.state)
  {
    hide Estado.Read, VerdictEvents;
  }

  lemma QuerySettles(d: Doc, asked: FiscalKey, estado: string)
    ensures var f := Queried(d, asked, estado);
            f.save.Some? ==> !NeverTransmitted(f.save.value.state) && !InDoubt(f.save.value.state)
  {
    hide Denied;
  }

  lemma CheckSettles(d: Doc, now: int, o: R.Options, a: R.Answer)
    requires R.Polling(d)
    ensures var c := R.Checked(d, now, o, a); !NeverTransmitted(c.state) && !InDoubt(c.state)
  {
    hide R.Verdict, R.Aged;
  }

  lemma CleanHear(m: Machine, l: Label, scope: TxnKey -> string, home: string -> string)
    requires Readers(m) && Clean(m, scope, home)
    requires l.Hear? && l.id in m.writers && m.writers[l.id].kind.Batch? && l.key in m.writers[l.id].read
    ensures Clean(Next(m, l), scope, home)
  {
    hide Clean, BatchEvents, R.Checked, Heard;
    var w, k, a := m.writers[l.id], l.key, l.answer;
    var c := R.Checked(w.read[k], w.kind.now, w.kind.options, a);
    assert R.Polling(w.read[k]) by { assert ReaderOk(m, w); }
    VerdictsTell(k, w.read[k], l, w.kind.now, w.kind.options, a);
    CheckSettles(w.read[k], w.kind.now, w.kind.options, a);
    CleanWriter(m, l.id, scope, home);
    assert Settling(w.(write := w.write[k := c]));
    hide Readers, Settling;
    CleanHeard(m, l.id, w.write[k := c], BatchEvents(k, w.read[k], w.kind.now, w.kind.options, a), scope, home);
  }

  lemma CleanReader(m: Machine, l: Label, scope: TxnKey -> string, home: string -> string)
    requires Readers(m) && Clean(m, scope, home) && (l.Refresh? || l.StatusQuery? || l.Hear?)
    ensures Clean(Next(m, l), scope, home)
  {
    hide Clean, Refreshed, Queried, BatchEvents, R.Checked, Heard, Learned;
    match l {
      case Refresh(i, resultado, estado, track) =>
        if i in m.writers && OneRow(m.writers[i]) {
          var w := m.writers[i];
          var f := Refreshed(w.keys[0], w.read[w.keys[0]], resultado, estado, track);
          NobodySends(m, l);
          RefreshSettles(w.keys[0], w.read[w.keys[0]], resultado, estado, track);
          CleanHeard(m, i, OneWrite(w.keys[0], f), f.told, scope, home);
        }
      case StatusQuery(i, asked, estado) =>
        if i in m.writers && OneRow(m.writers[i]) {
          var w := m.writers[i];
          var f := Queried(w.read[w.keys[0]], asked, estado);
          NobodySends(m, l);
          QuerySettles(w.read[w.keys[0]], asked, estado);
          CleanHeard(m, i, OneWrite(w.keys[0], f), f.told, scope, home);
        }
      case Hear(i, k, a) =>
        if i in m.writers && m.writers[i].kind.Batch? && k in m.writers[i].read { CleanHear(m, l, scope, home); }
    }
  }

  lemma CleanWriter(m: Machine, i: nat, scope: TxnKey -> string, home: string -> string)
    requires Clean(m, scope, home) && i in m.writers
    ensures Settling(m.writers[i])
  {
  }

  lemma CleanQuiet(m: Machine, l: Label, scope: TxnKey -> string, home: string -> string)
    requires Clean(m, scope, home) && (l.Begin? || l.Crash? || l.Look? || l.Fetch?)
    ensures Clean(Next(m, l), scope, home)
  {
    hide Stored, R.Due;
    var m' := Next(m, l);
    assert m.history + [] == m.history;
    forall k | k in m'.live ensures PhaseClean(m', k, m'.live[k], scope, home) {
      if k in m.live && m'.live[k] == m.live[k] {
        PhaseGrows(m, m', [], k, m.live[k], scope, home);
      }
    }
    forall i | i in m'.writers ensures Settling(m'.writers[i]) {
      assert i in m.writers ==> Settling(m.writers[i]);
    }
  }

  lemma CleanNext(m: Machine, l: Label, scope: TxnKey -> string, home: string -> string)
    requires AllShaped(m) && Readers(m) && Owned(m, scope) && Home(m, scope, home) && Clean(m, scope, home)
    requires Draws(m, l) ==> Fresh(m, l.key, l.choice.encf, scope)
    ensures Clean(Next(m, l), scope, home)
  {
    hide AllShaped, Readers, Owned, Home, Clean, Draws, Fresh, Enact, Continue, Committed, Complete;
    match l {
      case Advance(k, c) => if k in m.live { CleanAdvance(m, k, c, scope, home); }
      case Refresh(_, _, _, _) => CleanReader(m, l, scope, home);
      case StatusQuery(_, _, _) => CleanReader(m, l, scope, home);
      case Hear(_, _, _) => CleanReader(m, l, scope, home);
      case Commit(i, connected) => if i in m.writers { CleanCommitted(m, i, connected, scope, home); }
      case Adjudicate(n) => CleanTold(m, [Accepted(n)], scope, home);
      case _ => CleanQuiet(m, l, scope, home);
    }
  }

  // ---- Whole runs ---------------------------------------------------------------------------

  lemma {:induction false} DisciplinedTold(h: seq<Event>, es: seq<Event>)
    requires Disciplined(h) && forall x :: x in es ==> !x.Sent?
    ensures Disciplined(h + es)
    decreases |es|
  {
    if es == [] {
      assert h + es == h;
    } else {
      var init, e := es[..|es| - 1], es[|es| - 1];
      DisciplinedTold(h, init);
      DisciplinedSnoc(h + init, e);
      assert h + es == (h + init) + [e];
    }
  }

  /** A submission about to send has nothing outstanding under its number. */
  lemma PostingIsFree(m: Machine, k: TxnKey, scope: TxnKey -> string, home: string -> string)
    requires Home(m, scope, home) && Clean(m, scope, home) && k in m.live && m.live[k].Posting?
    ensures !Pending(m.history, KeyOf(k, m.live[k].doc))
  {
    hide Pending, Stored;
    assert PhaseHome(k, m.live[k], scope, home) && PhaseClean(m, k, m.live[k], scope, home);
  }

  lemma DisciplinedAdvance(m: Machine, k: TxnKey, c: Choice, scope: TxnKey -> string, home: string -> string)
    requires Home(m, scope, home) && Clean(m, scope, home) && Disciplined(m.history) && k in m.live
    ensures Disciplined(m.history + Continue(m.rows, k, m.live[k], c).told)
  {
    hide Home, Clean, Disciplined, Continue, Pending;
    var es := Continue(m.rows, k, m.live[k], c).told;
    StepTells(m.rows, k, m.live[k], c);
    if es != [] && es[0].Sent? {
      PostingIsFree(m, k, scope, home);
      DisciplinedSnoc(m.history, es[0]);
      DisciplinedTold(m.history + [es[0]], es[1..]);
      assert m.history + es == (m.history + [es[0]]) + es[1..];
    } else {
      DisciplinedTold(m.history, es);
    }
  }

  lemma DisciplinedNext(m: Machine, l: Label, scope: TxnKey -> string, home: string -> string)
    requires Home(m, scope, home) && Clean(m, scope, home) && Disciplined(m.history)
    ensures Disciplined(Next(m, l).history)
  {
    hide Home, Clean, Disciplined, Continue, Refreshed, Queried, BatchEvents, R.Checked,
      R.IsDueBatch, D.ExecuteAll, D.Updates, D.Overwritten;
    assert m.history + [] == m.history;
    match l {
      case Advance(k, c) => if k in m.live { DisciplinedAdvance(m, k, c, scope, home); }
      case Refresh(i, _, _, _) => if i in m.writers && OneRow(m.writers[i]) { NobodySendsNext(m, l); }
      case StatusQuery(i, _, _) => if i in m.writers && OneRow(m.writers[i]) { NobodySendsNext(m, l); }
      case Hear(i, k, a) =>
        if i in m.writers && m.writers[i].kind.Batch? && k in m.writers[i].read {
          var w := m.writers[i];
          VerdictsTell(k, w.read[k], l, w.kind.now, w.kind.options, a);
          DisciplinedTold(m.history, BatchEvents(k, w.read[k], w.kind.now, w.kind.options, a));
        }
      case Adjudicate(n) => DisciplinedTold(m.history, [Accepted(n)]);
      case _ =>
    }
  }

  lemma NobodySendsNext(m: Machine, l: Label)
    requires (l.Refresh? || l.StatusQuery?) && l.id in m.writers && OneRow(m.writers[l.id]) && Disciplined(m.history)
    ensures Disciplined(Next(m, l).history)
  {
    hide Disciplined, Refreshed, Queried;
    NobodySends(m, l);
    var w := m.writers[l.id];
    var k := w.keys[0];
    var f := if l.Refresh? then Refreshed(k, w.read[k], l.resultado, l.estado, l.track)
             else Queried(w.read[k], l.asked, l.estado);
    DisciplinedTold(m.history, f.told);
  }

  lemma {:induction false} TrackedRun(m: Machine, ls: seq<Label>, scope: TxnKey -> string, home: string -> string)
    requires Tracked(m, scope, home) && AllFresh(m, ls, scope) && AtHome(ls, scope, home)
    ensures Disciplined(Run(m, ls).history)
    decreases |ls|
  {
    hide AllShaped, Readers, Owned, Home, Clean, Disciplined, Next, Draws, Fresh;
    if ls != [] {
      ShapedNext(m, ls[0]);
      ReadersNext(m, ls[0]);
      OwnedNext(m, ls[0], scope);
      HomeNext(m, ls[0], scope, home);
      CleanNext(m, ls[0], scope, home);
      DisciplinedNext(m, ls[0], scope, home);
      TrackedRun(Next(m, ls[0]), ls[1..], scope, home);
    }
  }

  /**
   Send discipline without any guard: in every run in which draws are fresh and transactions that
   share an issuer draw from one scope, whatever readers commit late and queries are asked about.
   */
  lemma FreshDrawsDiscipline(ls: seq<Label>, scope: TxnKey -> string, home: string -> string)
    requires AllFresh(START, ls, scope) && AtHome(ls, scope, home)
    ensures Disciplined(Run(START, ls).history)
  {
    TrackedRun(START, ls, scope, home);
  }

  /** In particular when each transaction keeps its issuer and no fiscal key is drawn while it is in use. */
  lemma SteadyIssuerDiscipline(ls: seq<Label>, issuer: TxnKey -> string)
    requires AllFresh(START, ls, issuer) && SteadyIssuer(ls, issuer)
    ensures Disciplined(Run(START, ls).history)
  {
    FreshDrawsDiscipline(ls, issuer, rnc => rnc);
  }
}
