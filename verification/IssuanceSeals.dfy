/** What goes out was signed with the tenant's own certificate, and passed the schema. */
module IssuanceSeals {
  import opened Wrappers
  import opened Documents
  import opened Issuance
  import opened IssuanceSafety
  import opened IssuanceGuards
  import opened IssuanceFreshness
  import Estado
  import D = DbContext
  import R = Reconciler

  /** The submission of `k` obtained this signature: valid by the schema, and not with the fallback certificate. */
  predicate SignedWell(all: seq<Label>, k: TxnKey, v: string) {
    Advance(k, Signature(v, true, false)) in all && |v| >= 6
  }

  ghost predicate SealedDoc(all: seq<Label>, k: TxnKey, d: Doc) {
    exists v :: SignedWell(all, k, v) && d.payload == Some(Sealed(d.xml, v)) && d.code == Some(v[..6])
  }

  ghost predicate SealedPhase(all: seq<Label>, k: TxnKey, p: Phase) {
    p.Posting? || (p.Saving? && p.after.ThenPost?) ==> SealedDoc(all, k, p.doc)
  }

  ghost predicate AllSealed(m: Machine, all: seq<Label>) {
    && (forall k :: k in m.live ==> SealedPhase(all, k, m.live[k]))
    && (forall k, n :: Sent(k, n) in m.history ==> exists v :: SignedWell(all, k, v))
  }

  lemma PostingSeals(all: seq<Label>, k: TxnKey, req: Req, d: Doc, c: Choice)
    ensures var e := AfterPosting(k, req, d, c); e.next.Some? ==> SealedPhase(all, k, e.next.value)
  {
    hide Outcome, VerdictEvents;
  }

  lemma StepSeals(rows: D.Rows, all: seq<Label>, k: TxnKey, p: Phase, c: Choice)
    requires SealedPhase(all, k, p) && Advance(k, c) in all
    ensures var e := Continue(rows, k, p, c); e.next.Some? ==> SealedPhase(all, k, e.next.value)
  {
    hide Estado.Read, VerdictEvents, D.NumberFree, AfterPosting;
    if p.Posting? {
      PostingSeals(all, k, p.req, p.doc, c);
    }
    if p.Signing? && c.Signature? && c.valid && !c.fallback && |c.value| >= 6 {
      assert c == Signature(c.value, true, false);
      assert SignedWell(all, k, c.value);
    }
  }

  lemma SealedAdvance(m: Machine, all: seq<Label>, k: TxnKey, c: Choice)
    requires AllSealed(m, all) && Advance(k, c) in all && k in m.live
    ensures AllSealed(Enact(m, k, Continue(m.rows, k, m.live[k], c)), all)
  {
    hide Continue, SignedWell;
    var e := Continue(m.rows, k, m.live[k], c);
    StepSeals(m.rows, all, k, m.live[k], c);
    StepTells(m.rows, k, m.live[k], c);
    var m' := Enact(m, k, e);
    forall j, n | Sent(j, n) in m'.history ensures exists v :: SignedWell(all, j, v) {
      if Sent(j, n) !in m.history {
        assert Sent(j, n) in e.told;
        assert SealedPhase(all, k, m.live[k]);
      }
    }
  }

  lemma SealedTold(m: Machine, m': Machine, all: seq<Label>, es: seq<Event>)
    requires AllSealed(m, all) && m'.live == m.live && m'.history == m.history + es && forall x :: x in es ==> !x.Sent?
    ensures AllSealed(m', all)
  {
    hide SignedWell, SealedPhase;
    forall k, n | Sent(k, n) in m'.history ensures exists v :: SignedWell(all, k, v) {
      assert Sent(k, n) in m.history;
    }
  }

  lemma SealedReader(m: Machine, all: seq<Label>, l: Label)
    requires AllSealed(m, all) && (l.Refresh? || l.StatusQuery? || l.Hear?) && l.id in m.writers
    ensures AllSealed(Next(m, l), all)
  {
    hide AllSealed, Refreshed, Queried, BatchEvents, R.Checked;
    var w := m.writers[l.id];
    if l.Hear? {
      if w.kind.Batch? && l.key in w.read {
        VerdictsTell(l.key, w.read[l.key], l, w.kind.now, w.kind.options, l.answer);
        SealedTold(m, Next(m, l), all, BatchEvents(l.key, w.read[l.key], w.kind.now, w.kind.options, l.answer));
      }
    } else if OneRow(w) {
      NobodySends(m, l);
      var k := w.keys[0];
      SealedTold(m, Next(m, l), all,
                 (if l.Refresh? then Refreshed(k, w.read[k], l.resultado, l.estado, l.track)
                  else Queried(w.read[k], l.asked, l.estado)).told);
    }
  }

  lemma SealedQuiet(m: Machine, all: seq<Label>, l: Label)
    requires AllSealed(m, all) && (l.Begin? || l.Crash? || l.Look? || l.Fetch? || l.Commit? || l.Adjudicate?)
    ensures AllSealed(Next(m, l), all)
  {
    hide SignedWell, Opened, R.IsDueBatch, D.ExecuteAll, D.Updates, D.Overwritten, Touched;
    var m' := Next(m, l);
    forall k, n | Sent(k, n) in m'.history ensures exists v :: SignedWell(all, k, v) {
      assert Sent(k, n) in m.history;
    }
  }

  lemma SealedNext(m: Machine, all: seq<Label>, l: Label)
    requires AllSealed(m, all) && l in all
    ensures AllSealed(Next(m, l), all)
  {
    hide AllSealed, Continue, Refreshed, Queried, BatchEvents, R.Checked, R.IsDueBatch, Committed;
    match l {
      case Advance(k, c) => if k in m.live { SealedAdvance(m, all, k, c); }
      case Refresh(i, _, _, _) => if i in m.writers { SealedReader(m, all, l); }
      case StatusQuery(i, _, _) => if i in m.writers { SealedReader(m, all, l); }
      case Hear(i, _, _) => if i in m.writers { SealedReader(m, all, l); }
      case _ => SealedQuiet(m, all, l);
    }
  }

  lemma {:induction false} SealedRun(m: Machine, all: seq<Label>, ls: seq<Label>)
    requires AllSealed(m, all) && forall l :: l in ls ==> l in all
    ensures AllSealed(Run(m, ls), all)
    decreases |ls|
  {
    hide AllSealed, Next;
    if ls != [] {
      SealedNext(m, all, ls[0]);
      SealedRun(Next(m, ls[0]), all, ls[1..]);
    }
  }

  /**
   In every run a transaction for which anything went out had a signature made that passed the schema
   check, with a certificate that is not the fallback one.
   */
  lemma OnlySealedGoesOut(ls: seq<Label>, k: TxnKey, n: FiscalKey) returns (v: string)
    requires Sent(k, n) in Run(START, ls).history
    ensures |v| >= 6 && Advance(k, Signature(v, true, false)) in ls
  {
    SealedRun(START, ls, ls);
    v :| SignedWell(ls, k, v);
  }

  /** And what is about to go out carries it, over the XML that it is for, with its first six characters as the code. */
  lemma PostedIsSealed(ls: seq<Label>, k: TxnKey) returns (v: string)
    requires k in Run(START, ls).live && Run(START, ls).live[k].Posting?
    ensures |v| >= 6 && Advance(k, Signature(v, true, false)) in ls
    ensures var d := Run(START, ls).live[k].doc; d.payload == Some(Sealed(d.xml, v)) && d.code == Some(v[..6])
  {
    SealedRun(START, ls, ls);
    var d := Run(START, ls).live[k].doc;
    assert SealedPhase(ls, k, Run(START, ls).live[k]);
    v :| SignedWell(ls, k, v) && d.payload == Some(Sealed(d.xml, v)) && d.code == Some(v[..6]);
  }
}
