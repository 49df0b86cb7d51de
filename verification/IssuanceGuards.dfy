/** What the other writers can check before they commit, and that it is enough. */
module IssuanceGuards {
  import opened Wrappers
  import opened Documents
  import opened Issuance
  import opened IssuancePlacement
  import opened IssuanceSafety
  import Estado
  import D = DbContext
  import R = Reconciler

  /** A status query that brings back a rejection asked about its row's number, or the row was never transmitted. */
  predicate AsksRightly(m: Machine, l: Label) {
    l.StatusQuery? && l.id in m.writers && OneRow(m.writers[l.id]) ==>
      var k := m.writers[l.id].keys[0];
      var d := m.writers[l.id].read[k];
      l.asked == KeyOf(k, d) || !Mapped(l.estado).RejectedByDgii? || NeverTransmitted(d.state)
  }

  /** The two guards together: ask about the right number, and write only rows that nobody wrote since. */
  predicate Careful(m: Machine, l: Label) {
    Conditional(m, l) && AsksRightly(m, l)
  }

  predicate AllCareful(m: Machine, ls: seq<Label>)
    decreases |ls|
  {
    ls == [] || (Careful(m, ls[0]) && AllCareful(Next(m, ls[0]), ls[1..]))
  }

  /** A write that waits for its commit does no harm to a row that is still as read. */
  ghost predicate Harmless(h: seq<Event>, w: Writer, k: TxnKey) {
    k in w.current && k in w.write ==> Transmitted(w.write[k].state) || !Pending(h, KeyOf(k, w.write[k]))
  }

  ghost predicate AllHarmless(m: Machine) {
    forall i, k :: i in m.writers ==> Harmless(m.history, m.writers[i], k)
  }

  /** A submission that posts holds its row, and no reader of that row counts as current. */
  lemma PostingIsNotCurrent(m: Machine, k: TxnKey, w: Writer, j: TxnKey)
    requires Safe(m) && ReaderOk(m, w) && k in m.live && m.live[k].Posting?
    requires j in w.current && j in w.write
    ensures KeyOf(j, w.write[j]) != KeyOf(k, m.live[k].doc)
  {
    assert PhaseSafe(m, k, m.live[k]);
  }

  /** What the step of a submission tells: a transmission, if any, comes first, and is of the row it posts. */
  lemma StepTells(rows: D.Rows, k: TxnKey, p: Phase, c: Choice)
    ensures var es := Continue(rows, k, p, c).told;
            forall i :: 0 <= i < |es| && es[i].Sent? ==> i == 0 && p.Posting? && es[0] == Sent(k, KeyOf(k, p.doc))
  {
    hide Estado.Read, D.NumberFree, Outcome;
  }

  /** A number gets outstanding only by a transmission. */
  lemma {:induction false} PendingNeedsSent(h: seq<Event>, es: seq<Event>, n: FiscalKey)
    requires forall e :: e in es && e.Sent? ==> e.number != n
    ensures Pending(h + es, n) ==> Pending(h, n)
    decreases |es|
  {
    if es == [] {
      assert h + es == h;
    } else {
      var init, e := es[..|es| - 1], es[|es| - 1];
      PendingNeedsSent(h, init, n);
      PendingSnoc(h + init, e);
      assert h + es == (h + init) + [e];
    }
  }

  lemma HarmlessEnact(m: Machine, k: TxnKey, c: Choice)
    requires Safe(m) && Readers(m) && AllHarmless(m) && k in m.live
    ensures AllHarmless(Enact(m, k, Continue(m.rows, k, m.live[k], c)))
  {
    hide Safe, ReaderOk, Continue, Pending;
    var e := Continue(m.rows, k, m.live[k], c);
    var m' := Enact(m, k, e);
    StepTells(m.rows, k, m.live[k], c);
    forall i, j | i in m'.writers ensures Harmless(m'.history, m'.writers[i], j) {
      var w := m.writers[i];
      assert Harmless(m.history, w, j) && ReaderOk(m, w);
      if j in m'.writers[i].current && j in w.write {
        if m.live[k].Posting? {
          PostingIsNotCurrent(m, k, w, j);
        }
        PendingNeedsSent(m.history, e.told, KeyOf(j, w.write[j]));
      }
    }
  }

  /** Learning something never makes a number outstanding. */
  lemma HarmlessTold(m: Machine, es: seq<Event>)
    requires AllHarmless(m) && forall e :: e in es ==> !e.Sent?
    ensures AllHarmless(m.(history := m.history + es))
  {
    hide Pending;
    forall i, j | i in m.writers ensures Harmless(m.history + es, m.writers[i], j) {
      assert Harmless(m.history, m.writers[i], j);
      if j in m.writers[i].write {
        PendingNeedsSent(m.history, es, KeyOf(j, m.writers[i].write[j]));
      }
    }
  }

  lemma HarmlessHeard(m: Machine, i: nat, write: map<TxnKey, Doc>, told: seq<Event>)
    requires AllHarmless(m) && i in m.writers && forall e :: e in told ==> !e.Sent?
    requires forall k :: Harmless(m.history + told, m.writers[i].(write := write), k)
    ensures AllHarmless(Heard(m, i, write, told))
  {
    HarmlessTold(m, told);
  }

  lemma VerdictReleases(h: seq<Event>, n: FiscalKey, v: Estado.Verdict)
    ensures v.Rejects? ==> !Pending(h + VerdictEvents(n, v), n)
  {
    PendingSnoc(h, Rejected(n));
  }

  lemma HarmlessRefreshed(h: seq<Event>, k: TxnKey, d: Doc, l: Label)
    requires l.Refresh?
    ensures var f := Refreshed(k, d, l.resultado, l.estado, l.track);
            f.save.Some? ==> Transmitted(f.save.value.state) || !Pending(h + f.told, KeyOf(k, f.save.value))
  {
    hide Estado.Read, Pending;
    VerdictReleases(h, KeyOf(k, d), Estado.Rejects);
  }

  lemma HarmlessQueried(m: Machine, k: TxnKey, d: Doc, asked: FiscalKey, estado: string)
    requires Safe(m) && k in m.rows && m.rows[k] == d
    requires asked == KeyOf(k, d) || !Mapped(estado).RejectedByDgii? || NeverTransmitted(d.state)
    ensures var f := Queried(d, asked, estado);
            f.save.Some? ==> Transmitted(f.save.value.state) || !Pending(m.history + f.told, KeyOf(k, f.save.value))
  {
    hide Queried, Safe;
    var f := Queried(d, asked, estado);
    QueryKeepsNumber(d, asked, estado);
    MappedIsTransmitted(estado);
    PendingIsTransmitted(m, k);
    PendingNeedsSent(m.history, f.told, KeyOf(k, d));
    PendingSnoc(m.history, Rejected(asked));
  }

  lemma HarmlessHear(h: seq<Event>, k: TxnKey, d: Doc, now: int, o: R.Options, a: R.Answer)
    requires R.Polling(d)
    ensures var c := R.Checked(d, now, o, a);
            Transmitted(c.state) || !Pending(h + BatchEvents(k, d, now, o, a), KeyOf(k, c))
  {
    hide R.Verdict, R.Aged, Pending;
    VerdictReleases(h, KeyOf(k, d), Estado.Rejects);
  }

  lemma HarmlessOneRow(m: Machine, l: Label)
    requires Safe(m) && Readers(m) && AllHarmless(m) && AsksRightly(m, l)
    requires l.Refresh? || l.StatusQuery?
    ensures AllHarmless(Next(m, l))
  {
    hide Safe, Refreshed, Queried, Mapped, Pending;
    if l.id in m.writers && OneRow(m.writers[l.id]) {
      var w := m.writers[l.id];
      var k := w.keys[0];
      assert ReaderOk(m, w);
      var f := if l.Refresh? then Refreshed(k, w.read[k], l.resultado, l.estado, l.track)
        else Queried(w.read[k], l.asked, l.estado);
      if l.Refresh? {
        HarmlessRefreshed(m.history, k, w.read[k], l);
        VerdictsTell(k, w.read[k], l, 0, R.Options(0, 0, 0), R.Answer(None, None));
      } else {
        QueryKeepsNumber(w.read[k], l.asked, l.estado);
        if k in w.current {
          HarmlessQueried(m, k, w.read[k], l.asked, l.estado);
        }
      }
      HarmlessHeard(m, l.id, OneWrite(k, f), f.told);
    }
  }

  lemma HarmlessBatchRow(m: Machine, l: Label)
    requires Readers(m) && AllHarmless(m) && l.Hear?
    ensures AllHarmless(Next(m, l))
  {
    hide R.Checked, BatchEvents, Pending;
    if l.id in m.writers && m.writers[l.id].kind.Batch? && l.key in m.writers[l.id].read {
      var w := m.writers[l.id];
      var es := BatchEvents(l.key, w.read[l.key], w.kind.now, w.kind.options, l.answer);
      assert ReaderOk(m, w);
      HarmlessHear(m.history, l.key, w.read[l.key], w.kind.now, w.kind.options, l.answer);
      VerdictsTell(l.key, w.read[l.key], l, w.kind.now, w.kind.options, l.answer);
      var write := w.write[l.key := R.Checked(w.read[l.key], w.kind.now, w.kind.options, l.answer)];
      forall k ensures Harmless(m.history + es, w.(write := write), k) {
        assert Harmless(m.history, w, k);
        if k != l.key && k in w.write {
          PendingNeedsSent(m.history, es, KeyOf(k, w.write[k]));
        }
      }
      HarmlessHeard(m, l.id, write, es);
    }
  }

  lemma HarmlessQuiet(m: Machine, l: Label)
    requires AllHarmless(m) && (l.Begin? || l.Crash? || l.Look? || l.Fetch? || l.Commit?)
    ensures AllHarmless(Next(m, l))
  {
    hide Pending, D.ExecuteAll, D.Updates, D.Overwritten, R.IsDueBatch, Transmitted;
    var m' := Next(m, l);
    assert m.history + [] == m.history;
    forall i, k | i in m'.writers ensures Harmless(m'.history, m'.writers[i], k) {
      if i in m.writers {
        assert Harmless(m.history, m.writers[i], k);
      }
    }
  }

  lemma HarmlessNext(m: Machine, l: Label)
    requires Safe(m) && Readers(m) && AllHarmless(m) && AsksRightly(m, l)
    ensures AllHarmless(Next(m, l))
  {
    hide Safe, Readers, Harmless, Enact, Continue, Refreshed, Queried, BatchEvents, R.Checked, Committed, AsksRightly;
    match l {
      case Advance(k, c) => if k in m.live { HarmlessEnact(m, k, c); }
      case Refresh(_, _, _, _) => HarmlessOneRow(m, l);
      case StatusQuery(_, _, _) => HarmlessOneRow(m, l);
      case Hear(_, _, _) => HarmlessBatchRow(m, l);
      case Adjudicate(n) => HarmlessTold(m, [Accepted(n)]);
      case _ => HarmlessQuiet(m, l);
    }
  }

  /** Under a row that waits for a verdict no submission is past its lookup. */
  lemma PollingIsClear(m: Machine, k: TxnKey)
    requires Placed(m) && k in m.rows && R.Polling(m.rows[k])
    ensures Clear(m, k)
  {
    if k in m.live {
      assert PhasePlaced(m.rows, k, m.live[k]);
    }
  }

  lemma ConditionalSpares(m: Machine, w: Writer, k: TxnKey)
    requires Safe(m) && Placed(m) && ReaderOk(m, w) && Harmless(m.history, w, k)
    requires k in w.write && k in w.current && (w.kind.Single? ==> Clear(m, k))
    ensures Spares(m, k, w.write[k])
  {
    hide Safe, Placed, PhaseSafe, Pending, R.Checked;
    assert w.kind.Batch? ==> R.Polling(m.rows[k]);
    hide ReaderOk;
    if w.kind.Batch? {
      PollingIsClear(m, k);
    }
    if k in m.live {
      EarlyNeedsNothing(m, m.(rows := m.rows[k := w.write[k]]), k);
    }
  }

  /** A conditional commit spares every row it writes. */
  lemma ConditionalIsGuarded(m: Machine, l: Label)
    requires Safe(m) && Placed(m) && Readers(m) && AllHarmless(m) && Conditional(m, l)
    ensures Guarded(m, l)
  {
    hide Safe, Placed, ReaderOk, Harmless, Spares, Clear;
    if l.Commit? && l.connected && l.id in m.writers {
      var w := m.writers[l.id];
      forall k | k in w.write ensures Spares(m, k, w.write[k]) {
        assert ReaderOk(m, w) && Harmless(m.history, w, k);
        ConditionalSpares(m, w, k);
      }
    }
  }

  lemma {:induction false} CarefulRun(m: Machine, ls: seq<Label>)
    requires Safe(m) && Placed(m) && Readers(m) && AllHarmless(m) && AllCareful(m, ls)
    ensures AllGuarded(m, ls) && AllConditional(m, ls)
    decreases |ls|
  {
    hide Safe, Placed, Readers, AllHarmless, Guarded, Conditional, AsksRightly;
    if ls != [] {
      ConditionalIsGuarded(m, ls[0]);
      SafeNext(m, ls[0]);
      PlacedNext(m, ls[0]);
      ReadersNext(m, ls[0]);
      HarmlessNext(m, ls[0]);
      CarefulRun(Next(m, ls[0]), ls[1..]);
    }
  }

  /**
   Careful readers are guarded: with conditional updates and rightly asked queries, every result
   about guarded runs holds.
   */
  lemma CarefulIsGuarded(ls: seq<Label>)
    requires AllCareful(START, ls)
    ensures AllGuarded(START, ls) && AllConditional(START, ls)
    ensures Disciplined(Run(START, ls).history)
  {
    CarefulRun(START, ls);
    SendDiscipline(ls);
  }
}
