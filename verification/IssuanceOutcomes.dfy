/** What else every run of the issuance protocol keeps: stored content, and rows that are accepted. */
module IssuanceOutcomes {
  import opened Wrappers
  import opened Documents
  import opened Issuance
  import opened IssuancePlacement
  import Estado
  import D = DbContext
  import R = Reconciler

  // ---- Stored content ---------------------------------------------------------------------

  /** The XML fits the row; once the row may have been transmitted, so do signature and code. */
  predicate TidyDoc(d: Doc) {
    d.xml.encf == d.encf && d.xml.rnc == d.rnc && (!NeverTransmitted(d.state) ==> Consistent(d))
  }

  predicate TidyPhase(p: Phase) {
    p.Lookup? || p.Drawing? || TidyDoc(p.doc)
  }

  ghost predicate TidyWriter(w: Writer) {
    && (forall k :: k in w.read ==> TidyDoc(w.read[k]))
    && (forall k :: k in w.write ==> TidyDoc(w.write[k]))
  }

  ghost predicate Tidy(m: Machine) {
    && (forall k :: k in m.rows ==> TidyDoc(m.rows[k]))
    && (forall k :: k in m.live ==> TidyPhase(m.live[k]))
    && (forall i :: i in m.writers ==> TidyWriter(m.writers[i]))
  }

  predicate TidyEffect(e: Effect) {
    (e.save.Some? ==> TidyDoc(e.save.value)) && (e.next.Some? ==> TidyPhase(e.next.value))
  }

  /** A status query that will store something was put for a row with signed content. */
  predicate QueriesSigned(m: Machine, l: Label) {
    l.StatusQuery? && l.id in m.writers && OneRow(m.writers[l.id]) ==>
      var d := m.writers[l.id].read[m.writers[l.id].keys[0]];
      Queried(d, l.asked, l.estado).save.None? || !NeverTransmitted(d.state) || Consistent(d)
  }

  /** Exactly when a status query leaves a row whose signature, code, number and issuer agree. */
  lemma QueryKeepsContentIff(d: Doc, asked: FiscalKey, estado: string)
    requires TidyDoc(d)
    ensures var f := Queried(d, asked, estado);
            (f.save.Some? ==> TidyDoc(f.save.value)) <==> f.save.None? || !NeverTransmitted(d.state) || Consistent(d)
  {
    hide Denied, Consistent;
    ConsistentIsAboutContent(d, Mapped(estado));
  }

  lemma ConsistentIsAboutContent(d: Doc, s: State)
    ensures Consistent(d.(state := s)) <==> Consistent(d)
  {
  }

  lemma TidyPosting(k: TxnKey, req: Req, d: Doc, c: Choice)
    requires TidyDoc(d) && d.state.AwaitingTransmission?
    ensures TidyEffect(AfterPosting(k, req, d, c))
  {
    OutcomeFits(d, c);
  }

  lemma TidySigning(req: Req, d: Doc, c: Choice)
    requires TidyDoc(d) && d.state.SequenceAllocated?
    ensures TidyEffect(AfterSigning(req, d, c))
  {
  }

  lemma TidyAsking(k: TxnKey, req: Req, d: Doc, c: Choice)
    requires TidyDoc(d) && (d.state.AwaitingTransmission? || d.state.Uncertain?)
    ensures TidyEffect(AfterAsking(k, req, d, c))
  {
    hide Estado.Read, VerdictEvents;
  }

  lemma TidyWriting(rows: D.Rows, k: TxnKey, p: Phase, c: Choice)
    requires TidyPhase(p) && (k in rows ==> TidyDoc(rows[k]))
    requires p.Lookup? || p.Drawing? || p.Inserting? || p.Redrawing? || p.Saving?
    ensures TidyEffect(Continue(rows, k, p, c))
  {
    hide Consistent, D.NumberFree;
  }

  lemma TidyContinue(m: Machine, k: TxnKey, c: Choice)
    requires AllShaped(m) && Tidy(m) && k in m.live
    ensures TidyEffect(Continue(m.rows, k, m.live[k], c))
  {
    var p := m.live[k];
    assert Shaped(p) && TidyPhase(p);
    hide TidyDoc, TidyEffect, AfterPosting, AfterSigning, AfterAsking;
    match p {
      case Posting(req, d) => TidyPosting(k, req, d, c);
      case Signing(req, d) => TidySigning(req, d, c);
      case Asking(req, d) => TidyAsking(k, req, d, c);
      case _ => TidyWriting(m.rows, k, p, c);
    }
  }

  lemma TidyEnact(m: Machine, k: TxnKey, e: Effect)
    requires Tidy(m) && TidyEffect(e)
    ensures Tidy(Enact(m, k, e))
  {
  }

  lemma TidyRefreshed(k: TxnKey, d: Doc, l: Label)
    requires TidyDoc(d) && l.Refresh?
    ensures var f := Refreshed(k, d, l.resultado, l.estado, l.track);
            f.save.Some? ==> TidyDoc(f.save.value)
  {
    hide Estado.Read, VerdictEvents;
  }

  lemma TidyChecked(d: Doc, now: int, o: R.Options, a: R.Answer)
    requires TidyDoc(d) && R.Polling(d)
    ensures TidyDoc(R.Checked(d, now, o, a))
  {
    hide R.Verdict, R.Aged;
  }

  lemma TidyHeard(m: Machine, i: nat, write: map<TxnKey, Doc>, told: seq<Event>)
    requires Tidy(m) && i in m.writers && forall k :: k in write ==> TidyDoc(write[k])
    ensures Tidy(Heard(m, i, write, told))
  {
    hide TidyDoc, TidyPhase;
    assert TidyWriter(m.writers[i]);
  }

  lemma TidyOneRow(m: Machine, l: Label)
    requires Tidy(m) && QueriesSigned(m, l) && (l.Refresh? || l.StatusQuery?)
    ensures Tidy(Next(m, l))
  {
    hide TidyDoc, TidyPhase, Refreshed, Queried, Consistent;
    if l.id in m.writers && OneRow(m.writers[l.id]) {
      var w := m.writers[l.id];
      var k := w.keys[0];
      assert TidyWriter(w);
      if l.Refresh? {
        TidyRefreshed(k, w.read[k], l);
        var f := Refreshed(k, w.read[k], l.resultado, l.estado, l.track);
        TidyHeard(m, l.id, OneWrite(k, f), f.told);
      } else {
        QueryKeepsContentIff(w.read[k], l.asked, l.estado);
        var f := Queried(w.read[k], l.asked, l.estado);
        TidyHeard(m, l.id, OneWrite(k, f), f.told);
      }
    }
  }

  lemma TidyBatchRow(m: Machine, l: Label)
    requires Tidy(m) && Readers(m) && l.Hear?
    ensures Tidy(Next(m, l))
  {
    hide TidyDoc, TidyPhase, R.Checked, BatchEvents;
    if l.id in m.writers && m.writers[l.id].kind.Batch? && l.key in m.writers[l.id].read {
      var w := m.writers[l.id];
      assert TidyWriter(w) && ReaderOk(m, w);
      TidyChecked(w.read[l.key], w.kind.now, w.kind.options, l.answer);
      TidyHeard(m, l.id, w.write[l.key := R.Checked(w.read[l.key], w.kind.now, w.kind.options, l.answer)],
                BatchEvents(l.key, w.read[l.key], w.kind.now, w.kind.options, l.answer));
    }
  }

  lemma TidyQuiet(m: Machine, l: Label)
    requires Tidy(m) && (l.Look? || l.Fetch? || l.Commit?)
    ensures Tidy(Next(m, l))
  {
    hide TidyDoc, TidyPhase, D.ExecuteAll, D.Updates, R.Due;
    var m' := Next(m, l);
    forall i | i in m'.writers ensures TidyWriter(m'.writers[i]) {
      assert i in m.writers ==> TidyWriter(m.writers[i]);
    }
    assert l.Commit? && l.id in m.writers ==> TidyWriter(m.writers[l.id]);
  }

  lemma TidyNext(m: Machine, l: Label)
    requires AllShaped(m) && Readers(m) && Tidy(m) && QueriesSigned(m, l)
    ensures Tidy(Next(m, l))
  {
    hide AllShaped, Readers, TidyDoc, Continue, Refreshed, Queried, BatchEvents, R.Checked,
      R.IsDueBatch, Committed, QueriesSigned, Complete;
    match l {
      case Begin(req) => if req.key !in m.live { TidyEnact(m, req.key, Go(Lookup(req, false))); }
      case Advance(k, c) =>
        if k in m.live {
          TidyContinue(m, k, c);
          TidyEnact(m, k, Continue(m.rows, k, m.live[k], c));
        }
      case Crash(k) => TidyEnact(m, k, Stop());
      case Refresh(_, _, _, _) => TidyOneRow(m, l);
      case StatusQuery(_, _, _) => TidyOneRow(m, l);
      case Hear(_, _, _) => TidyBatchRow(m, l);
      case Adjudicate(n) =>
      case _ => TidyQuiet(m, l);
    }
  }

  predicate AllQueriesSigned(m: Machine, ls: seq<Label>)
    decreases |ls|
  {
    ls == [] || (QueriesSigned(m, ls[0]) && AllQueriesSigned(Next(m, ls[0]), ls[1..]))
  }

  lemma {:induction false} TidyRun(m: Machine, ls: seq<Label>)
    requires AllShaped(m) && Readers(m) && Tidy(m) && AllQueriesSigned(m, ls)
    ensures Tidy(Run(m, ls))
    decreases |ls|
  {
    hide AllShaped, Readers, Tidy, QueriesSigned;
    if ls != [] {
      ShapedNext(m, ls[0]);
      ReadersNext(m, ls[0]);
      TidyNext(m, ls[0]);
      TidyRun(Next(m, ls[0]), ls[1..]);
    }
  }

  /**
   In every durable state past signing, the row's signature, code, number and issuer agree, also
   after late commits.
   */
  lemma StoredContentAgrees(ls: seq<Label>, k: TxnKey)
    requires AllQueriesSigned(START, ls)
    requires k in Run(START, ls).rows && !NeverTransmitted(Run(START, ls).rows[k].state)
    ensures Consistent(Run(START, ls).rows[k])
  {
    TidyRun(START, ls);
  }

  // ---- Acceptance is final in the table ---------------------------------------------------

  /** A submission that may be live beside an accepted row has not written it and will not. */
  lemma AcceptedNotSaved(rows: D.Rows, k: TxnKey, p: Phase, c: Choice)
    requires k in rows && rows[k].state.AcceptedByDgii? && (p.Lookup? || p.Drawing? || p.Inserting?)
    ensures Continue(rows, k, p, c).save.None?
  {
  }

  lemma AcceptedQueried(d: Doc, asked: FiscalKey, estado: string)
    requires d.state.AcceptedByDgii?
    ensures Queried(d, asked, estado).save.None?
  {
  }

  lemma AcceptedRefreshed(k: TxnKey, d: Doc, resultado: string, estado: string, track: string)
    requires d.state.AcceptedByDgii?
    ensures Refreshed(k, d, resultado, estado, track).save.None?
  {
  }

  /** A reader of an accepted row has nothing to write, unless it read the row before it was accepted. */
  ghost predicate SparesAccepted(w: Writer) {
    forall k :: k in w.read && w.read[k].state.AcceptedByDgii? ==> k !in w.write
  }

  ghost predicate AllSpareAccepted(m: Machine) {
    forall i :: i in m.writers ==> SparesAccepted(m.writers[i])
  }

  lemma SpareAcceptedHeard(m: Machine, i: nat, write: map<TxnKey, Doc>, told: seq<Event>)
    requires AllSpareAccepted(m) && i in m.writers && SparesAccepted(m.writers[i].(write := write))
    ensures AllSpareAccepted(Heard(m, i, write, told))
  {
    hide SparesAccepted;
  }

  lemma SpareAcceptedOneRow(m: Machine, l: Label)
    requires AllSpareAccepted(m) && Readers(m) && (l.Refresh? || l.StatusQuery?)
    ensures AllSpareAccepted(Next(m, l))
  {
    hide AllSpareAccepted, Refreshed, Queried;
    if l.id in m.writers && OneRow(m.writers[l.id]) {
      var w := m.writers[l.id];
      var k := w.keys[0];
      assert forall j :: j in w.read ==> j == k by { assert ReaderOk(m, w); }
      hide Readers;
      var f := if l.Refresh? then Refreshed(k, w.read[k], l.resultado, l.estado, l.track)
        else Queried(w.read[k], l.asked, l.estado);
      if w.read[k].state.AcceptedByDgii? {
        if l.Refresh? { AcceptedRefreshed(k, w.read[k], l.resultado, l.estado, l.track); }
        else { AcceptedQueried(w.read[k], l.asked, l.estado); }
      }
      SpareAcceptedHeard(m, l.id, OneWrite(k, f), f.told);
    }
  }

  /** Due rows are not accepted. */
  lemma SpareAcceptedHear(m: Machine, l: Label)
    requires AllSpareAccepted(m) && Readers(m) && l.Hear?
    ensures AllSpareAccepted(Next(m, l))
  {
    hide R.Checked, BatchEvents;
    if l.id in m.writers && m.writers[l.id].kind.Batch? && l.key in m.writers[l.id].read {
      var w := m.writers[l.id];
      assert !w.read[l.key].state.AcceptedByDgii? by { assert ReaderOk(m, w); }
      hide Readers;
      assert SparesAccepted(w);
      SpareAcceptedHeard(m, l.id, w.write[l.key := R.Checked(w.read[l.key], w.kind.now, w.kind.options, l.answer)],
                         BatchEvents(l.key, w.read[l.key], w.kind.now, w.kind.options, l.answer));
    }
  }

  lemma SpareAcceptedNext(m: Machine, l: Label)
    requires AllSpareAccepted(m) && Readers(m)
    ensures AllSpareAccepted(Next(m, l))
  {
    hide Readers, Continue, R.Checked, R.IsDueBatch, BatchEvents, Refreshed, Queried,
      D.ExecuteAll, D.Updates, D.Overwritten;
    if l.Refresh? || l.StatusQuery? {
      SpareAcceptedOneRow(m, l);
    } else if l.Hear? {
      SpareAcceptedHear(m, l);
    } else {
      forall i | i in Next(m, l).writers ensures SparesAccepted(Next(m, l).writers[i]) {
        assert i in m.writers ==> SparesAccepted(m.writers[i]);
      }
    }
  }

  lemma AcceptedStays(m: Machine, l: Label, k: TxnKey)
    requires Placed(m) && Readers(m) && AllSpareAccepted(m) && Conditional(m, l)
    requires k in m.rows && m.rows[k].state.AcceptedByDgii?
    ensures k in Next(m, l).rows && Next(m, l).rows[k] == m.rows[k]
  {
    hide Continue, Refreshed, Queried, BatchEvents, R.Checked, R.IsDueBatch, D.ExecuteAll, D.Updates;
    if l.Advance? && l.key == k && k in m.live {
      assert PhasePlaced(m.rows, k, m.live[k]);
      AcceptedNotSaved(m.rows, k, m.live[k], l.choice);
    }
    if l.Commit? && l.id in m.writers {
      assert ReaderOk(m, m.writers[l.id]) && SparesAccepted(m.writers[l.id]);
    }
  }

  lemma {:induction false} AcceptedKept(m: Machine, ls: seq<Label>, k: TxnKey)
    requires Placed(m) && Readers(m) && AllSpareAccepted(m) && AllConditional(m, ls)
    requires k in m.rows && m.rows[k].state.AcceptedByDgii?
    ensures k in Run(m, ls).rows && Run(m, ls).rows[k] == m.rows[k]
    decreases |ls|
  {
    hide Placed, Readers, AllSpareAccepted, Conditional;
    if ls != [] {
      AcceptedStays(m, ls[0], k);
      PlacedNext(m, ls[0]);
      ReadersNext(m, ls[0]);
      SpareAcceptedNext(m, ls[0]);
      AcceptedKept(Next(m, ls[0]), ls[1..], k);
    }
  }

  lemma {:induction false} SpareAcceptedRun(m: Machine, ls: seq<Label>)
    requires AllSpareAccepted(m) && Readers(m)
    ensures AllSpareAccepted(Run(m, ls))
    decreases |ls|
  {
    hide Readers, AllSpareAccepted;
    if ls != [] {
      SpareAcceptedNext(m, ls[0]);
      ReadersNext(m, ls[0]);
      SpareAcceptedRun(Next(m, ls[0]), ls[1..]);
    }
  }

  /** With conditional updates no submission, refresh, status query or pass ever alters an accepted row, in any run. */
  lemma AcceptedForever(before: seq<Label>, after: seq<Label>, k: TxnKey)
    requires AllConditional(START, before + after)
    requires k in Run(START, before).rows && Run(START, before).rows[k].state.AcceptedByDgii?
    ensures k in Run(START, before + after).rows && Run(START, before + after).rows[k] == Run(START, before).rows[k]
  {
    AllConditionalConcat(START, before, after);
    PlacedRun(START, before);
    SpareAcceptedRun(START, before);
    RunConcat(START, before, after);
    AcceptedKept(Run(START, before), after, k);
  }

  /**
   Exactly when one commit leaves an accepted row accepted under its number: the writer found
   nothing to write for it, or it heard of an acceptance itself and read the row under that number.
   */
  lemma CommitKeepsAcceptedIff(m: Machine, i: nat, k: TxnKey)
    requires Readers(m) && i in m.writers && k in m.rows && m.rows[k].state.AcceptedByDgii?
    requires D.ExecuteAll(m.rows, D.Updates(m.writers[i].keys, m.writers[i].write)).Some?
    ensures var d, w := Committed(m, i, true).rows[k], m.writers[i];
            d.state.AcceptedByDgii? && KeyOf(k, d) == KeyOf(k, m.rows[k]) <==>
            k !in w.write || (w.write[k].state.AcceptedByDgii? && KeyOf(k, w.read[k]) == KeyOf(k, m.rows[k]))
  {
    hide D.ExecuteAll, D.Updates;
    assert ReaderOk(m, m.writers[i]);
  }
}
