/** Runs seen from the status reconciler: how often a row is polled, and which rows are left alone. */
module IssuancePolling {
  import opened Wrappers
  import opened Documents
  import opened Issuance
  import opened IssuancePlacement
  import opened IssuanceSafety
  import Estado
  import D = DbContext
  import R = Reconciler

  // ---- Rows that nothing but a status query can move --------------------------------------

  /** No submission, refresh or pass acts on these states. */
  predicate Terminal(s: State) {
    !Open(s) && !Refreshable(s) && !s.Signed? && !s.SentToDgii?
  }

  /** No answer about the row as it is waits for its commit. */
  ghost predicate NobodyWrites(m: Machine, k: TxnKey) {
    forall i :: i in m.writers && k in m.writers[i].current ==> k !in m.writers[i].write
  }

  /** Not a status query for this row. */
  predicate LeavesAlone(m: Machine, l: Label, k: TxnKey) {
    l.StatusQuery? && l.id in m.writers && OneRow(m.writers[l.id]) ==> m.writers[l.id].keys[0] != k
  }

  predicate AllLeaveAlone(m: Machine, ls: seq<Label>, k: TxnKey)
    decreases |ls|
  {
    ls == [] || (LeavesAlone(m, ls[0], k) && AllLeaveAlone(Next(m, ls[0]), ls[1..], k))
  }

  lemma NothingToRefresh(k: TxnKey, d: Doc, resultado: string, estado: string, track: string)
    requires Terminal(d.state)
    ensures Refreshed(k, d, resultado, estado, track) == NOTHING
  {
  }

  lemma TerminalStays(m: Machine, l: Label, k: TxnKey)
    requires Placed(m) && Conditional(m, l) && NobodyWrites(m, k)
    requires k in m.rows && Terminal(m.rows[k].state)
    ensures k in Next(m, l).rows && Next(m, l).rows[k] == m.rows[k]
  {
    hide Refreshed, Queried, BatchEvents, R.Checked, R.IsDueBatch, D.ExecuteAll, D.Updates;
    if l.Advance? && l.key in m.live {
      assert PhasePlaced(m.rows, l.key, m.live[l.key]);
      TerminalNotSaved(m.rows, l.key, m.live[l.key], l.choice, k);
    }
  }

  /** A submission beside a terminal row is still looking it up, or inserting in vain. */
  lemma TerminalNotSaved(rows: D.Rows, j: TxnKey, p: Phase, c: Choice, k: TxnKey)
    requires PhasePlaced(rows, j, p) && k in rows && Terminal(rows[k].state)
    ensures j == k ==> Continue(rows, j, p, c).save.None?
  {
    hide AfterPosting, AfterAsking, AfterSigning, D.NumberFree;
    if p.Posting? || p.Asking? || p.Signing? {
      assert Open(rows[j].state);
    }
  }

  /** Whoever read the terminal row as it is reads one row. */
  lemma TerminalReader(m: Machine, i: nat, k: TxnKey)
    requires Readers(m) && i in m.writers && k in m.writers[i].current
    requires k in m.rows && Terminal(m.rows[k].state)
    ensures var w := m.writers[i];
            w.kind.Single? && k in w.read && w.read[k] == m.rows[k] && forall j :: j in w.read <==> j in w.keys
  {
    hide Terminal, R.Due, R.Checked;
    assert ReaderOk(m, m.writers[i]);
    if m.writers[i].kind.Batch? {
      NotTerminal(m.rows[k], m.writers[i]);
    }
  }

  lemma NobodyWritesHeard(m: Machine, l: Label, k: TxnKey)
    requires Readers(m) && NobodyWrites(m, k) && LeavesAlone(m, l, k) && (l.Refresh? || l.StatusQuery? || l.Hear?)
    requires k in m.rows && Terminal(m.rows[k].state)
    ensures NobodyWrites(Next(m, l), k)
  {
    hide Readers, Terminal, Refreshed, Queried, BatchEvents, R.Checked;
    if l.id in m.writers && k in m.writers[l.id].current {
      TerminalReader(m, l.id, k);
      if l.Refresh? && OneRow(m.writers[l.id]) && m.writers[l.id].keys[0] == k {
        NothingToRefresh(k, m.rows[k], l.resultado, l.estado, l.track);
      }
    }
  }

  lemma NobodyWritesNext(m: Machine, l: Label, k: TxnKey)
    requires Readers(m) && NobodyWrites(m, k) && LeavesAlone(m, l, k)
    requires k in m.rows && Terminal(m.rows[k].state)
    ensures NobodyWrites(Next(m, l), k)
  {
    hide Readers, Terminal, Continue, R.IsDueBatch, R.Checked, BatchEvents, Refreshed,
      Queried, D.ExecuteAll, D.Updates, D.Overwritten;
    if l.Refresh? || l.StatusQuery? || l.Hear? {
      NobodyWritesHeard(m, l, k);
    }
  }

  lemma NotTerminal(d: Doc, w: Writer)
    requires w.kind.Batch? && Terminal(d.state)
    ensures !R.Due(d, w.kind.now, w.kind.options)
  {
  }

  lemma {:induction false} TerminalKept(m: Machine, ls: seq<Label>, k: TxnKey)
    requires Placed(m) && Readers(m) && AllConditional(m, ls)
    requires NobodyWrites(m, k) && AllLeaveAlone(m, ls, k)
    requires k in m.rows && Terminal(m.rows[k].state)
    ensures k in Run(m, ls).rows && Run(m, ls).rows[k] == m.rows[k]
    decreases |ls|
  {
    hide Placed, Readers, Conditional, NobodyWrites, LeavesAlone, Terminal;
    if ls != [] {
      TerminalStays(m, ls[0], k);
      NobodyWritesNext(m, ls[0], k);
      PlacedNext(m, ls[0]);
      ReadersNext(m, ls[0]);
      TerminalKept(Next(m, ls[0]), ls[1..], k);
    }
  }

  /** A row under manual review, or with a raw status text, never moves again by itself, in any run. */
  lemma TerminalForever(before: seq<Label>, after: seq<Label>, k: TxnKey)
    requires AllConditional(START, before + after)
    requires var m := Run(START, before); k in m.rows && Terminal(m.rows[k].state) && NobodyWrites(m, k)
    requires AllLeaveAlone(Run(START, before), after, k)
    ensures k in Run(START, before + after).rows && Run(START, before + after).rows[k] == Run(START, before).rows[k]
  {
    AllConditionalConcat(START, before, after);
    PlacedRun(START, before);
    RunConcat(START, before, after);
    TerminalKept(Run(START, before), after, k);
  }

  /** A status query that finds nothing strands a row that was never transmitted. */
  lemma StatusQueryStrands(m: Machine, i: nat, k: TxnKey)
    requires D.UniqueNumbers(m.rows) && k in m.rows && NeverTransmitted(m.rows[k].state) && i !in m.writers
    ensures var m' := QueriedAtOnce(m, i, k, KeyOf(k, m.rows[k]), "No encontrado");
            k in m'.rows && Terminal(m'.rows[k].state)
  {
    hide QueriedAtOnce;
    QueryWrites(m, i, k, KeyOf(k, m.rows[k]), "No encontrado");
    NotDeniedItself(m.rows[k].rnc);
  }

  lemma NotDeniedItself(rnc: string)
    ensures !Denied(rnc, rnc)
  {
  }

  // ---- Polling interval -------------------------------------------------------------------

  predicate SameClock(rows: D.Rows, k: TxnKey, d: Doc) {
    d.lastCheck == if k in rows then rows[k].lastCheck else None
  }

  predicate ClockPhase(rows: D.Rows, k: TxnKey, p: Phase) {
    Early(p) || SameClock(rows, k, p.doc)
  }

  /** A refresh or status query leaves the time of the last check as it read it. */
  ghost predicate ClockWriter(w: Writer) {
    w.kind.Single? ==> forall k :: k in w.write ==> k in w.read && w.write[k].lastCheck == w.read[k].lastCheck
  }

  /** Private copies carry the stored time of the last check. */
  ghost predicate Clocked(m: Machine) {
    && (forall k :: k in m.live ==> ClockPhase(m.rows, k, m.live[k]))
    && (forall i :: i in m.writers ==> ClockWriter(m.writers[i]))
  }

  predicate ClockEffect(rows: D.Rows, k: TxnKey, e: Effect) {
    && (e.save.Some? && k in rows ==> SameClock(rows, k, e.save.value))
    && (e.next.Some? ==> ClockPhase(if e.save.Some? then rows[k := e.save.value] else rows, k, e.next.value))
  }

  lemma ClockPosting(rows: D.Rows, k: TxnKey, req: Req, d: Doc, c: Choice)
    requires SameClock(rows, k, d)
    ensures ClockEffect(rows, k, AfterPosting(k, req, d, c))
  {
    OutcomeFits(d, c);
  }

  lemma ClockContinue(rows: D.Rows, k: TxnKey, p: Phase, c: Choice)
    requires ClockPhase(rows, k, p)
    ensures ClockEffect(rows, k, Continue(rows, k, p, c))
  {
    hide Estado.Read, VerdictEvents, D.NumberFree, KeyOf;
    if p.Posting? {
      ClockPosting(rows, k, p.req, p.doc, c);
    }
  }

  /** The row was last checked at `t` or later. */
  predicate CheckedSince(m: Machine, k: TxnKey, t: int) {
    k in m.rows && m.rows[k].lastCheck.Some? && m.rows[k].lastCheck.value >= t
  }

  ghost predicate ClockGoesOn(m: Machine, m': Machine) {
    forall k, t :: CheckedSince(m, k, t) ==> CheckedSince(m', k, t)
  }

  lemma ClockEnact(m: Machine, k: TxnKey, e: Effect)
    requires Clocked(m) && ClockEffect(m.rows, k, e)
    ensures Clocked(Enact(m, k, e)) && ClockGoesOn(m, Enact(m, k, e))
  {
  }

  lemma ClockHeard(m: Machine, i: nat, write: map<TxnKey, Doc>, told: seq<Event>)
    requires Clocked(m) && i in m.writers && ClockWriter(m.writers[i].(write := write))
    ensures Clocked(Heard(m, i, write, told)) && ClockGoesOn(m, Heard(m, i, write, told))
  {
    hide ClockPhase, ClockWriter;
  }

  lemma ClockOneRow(m: Machine, l: Label)
    requires Clocked(m) && (l.Refresh? || l.StatusQuery?)
    ensures Clocked(Next(m, l)) && ClockGoesOn(m, Next(m, l))
  {
    hide Clocked, CheckedSince, Refreshed, Queried;
    if l.id in m.writers && OneRow(m.writers[l.id]) {
      var w := m.writers[l.id];
      var k := w.keys[0];
      var f := if l.Refresh? then Refreshed(k, w.read[k], l.resultado, l.estado, l.track)
        else Queried(w.read[k], l.asked, l.estado);
      if l.Refresh? {
        RefreshKeepsClock(k, w.read[k], l.resultado, l.estado, l.track);
      } else {
        QueryKeepsNumber(w.read[k], l.asked, l.estado);
      }
      ClockHeard(m, l.id, OneWrite(k, f), f.told);
    }
  }

  lemma RefreshKeepsClock(k: TxnKey, d: Doc, resultado: string, estado: string, track: string)
    ensures var f := Refreshed(k, d, resultado, estado, track);
            f.save.Some? ==> f.save.value.lastCheck == d.lastCheck
  {
    hide Estado.Read, VerdictEvents;
  }

  /** The commit of a pass that checks row `k`, and goes through. */
  predicate Checks(m: Machine, l: Label, k: TxnKey) {
    && l.Commit? && l.connected && l.id in m.writers
    && var w := m.writers[l.id];
       w.kind.Batch? && Complete(w) && k in w.keys && D.ExecuteAll(m.rows, D.Updates(w.keys, w.write)).Some?
  }

  /** What a conditional commit does to one row's clock. */
  lemma CommitClock(m: Machine, l: Label, k: TxnKey)
    requires Readers(m) && Clocked(m) && Conditional(m, l) && l.Commit? && l.id in m.writers && l.connected
    requires k in m.rows && k in m.writers[l.id].write
    ensures var d, w := m.writers[l.id].write[k], m.writers[l.id];
            && (w.kind.Single? ==> d.lastCheck == m.rows[k].lastCheck)
            && (w.kind.Batch? ==> d.lastCheck == Some(w.kind.now) && R.Due(m.rows[k], w.kind.now, w.kind.options))
  {
    hide R.Checked, R.Due;
    var w := m.writers[l.id];
    assert ReaderOk(m, w) && ClockWriter(w);
    if w.kind.Batch? {
      var a :| w.write[k] == R.Checked(w.read[k], w.kind.now, w.kind.options, a);
      R.CheckedKeepsNumber(w.read[k], w.kind.now, w.kind.options, a);
    }
  }

  lemma ClockCommittedRows(m: Machine, l: Label)
    requires Readers(m) && Clocked(m) && Conditional(m, l) && l.Commit? && l.id in m.writers
    ensures ClockGoesOn(m, Committed(m, l.id, l.connected))
    ensures forall k :: Checks(m, l, k) ==> CheckedSince(Committed(m, l.id, l.connected), k, m.writers[l.id].kind.now)
  {
    hide D.ExecuteAll, D.Updates, R.Polling;
    var w := m.writers[l.id];
    assert forall k :: k in w.write && k in w.current ==> k in m.rows by { assert ReaderOk(m, w); }
    assert forall k :: k in w.read <==> k in w.keys by { assert ReaderOk(m, w); }
    forall k | l.connected && k in m.rows && k in w.write
      ensures w.kind.Single? ==> w.write[k].lastCheck == m.rows[k].lastCheck
      ensures w.kind.Batch? ==> w.write[k].lastCheck == Some(w.kind.now) && R.Due(m.rows[k], w.kind.now, w.kind.options)
    {
      CommitClock(m, l, k);
    }
    hide Readers, Clocked, R.Checked;
  }

  lemma ClockCommitted(m: Machine, l: Label)
    requires Placed(m) && Readers(m) && Clocked(m) && Conditional(m, l) && l.Commit?
    ensures Clocked(Next(m, l)) && ClockGoesOn(m, Next(m, l))
    ensures forall k :: Checks(m, l, k) ==> CheckedSince(Next(m, l), k, m.writers[l.id].kind.now)
  {
    hide D.ExecuteAll, D.Updates, R.Checked, R.Due, Placed, Readers, Conditional, CheckedSince;
    if l.id in m.writers {
      ClockCommittedRows(m, l);
      hide ClockGoesOn;
      var m' := Committed(m, l.id, l.connected);
      forall k | k in m.live ensures ClockPhase(m'.rows, k, m.live[k]) {
        if l.connected && !Early(m.live[k]) {
          CommitSparesLive(m, l, k);
        }
      }
    }
  }

  lemma ClockNext(m: Machine, l: Label)
    requires Placed(m) && Readers(m) && Clocked(m) && Conditional(m, l)
    ensures Clocked(Next(m, l)) && ClockGoesOn(m, Next(m, l))
  {
    hide Placed, Readers, Conditional, ClockEffect, Continue, Refreshed, Queried, R.Checked,
      R.IsDueBatch, BatchEvents, ClockPhase, D.ExecuteAll, D.Updates;
    match l {
      case Begin(req) => if req.key !in m.live { ClockBegun(m, req); }
      case Advance(k, c) =>
        if k in m.live {
          ClockContinue(m.rows, k, m.live[k], c);
          ClockEnact(m, k, Continue(m.rows, k, m.live[k], c));
        }
      case Refresh(_, _, _, _) => ClockOneRow(m, l);
      case StatusQuery(_, _, _) => ClockOneRow(m, l);
      case Commit(_, _) => ClockCommitted(m, l);
      case _ =>
    }
  }

  lemma ClockBegun(m: Machine, req: Req)
    requires Clocked(m)
    ensures Clocked(Enact(m, req.key, Go(Lookup(req, false))))
            && ClockGoesOn(m, Enact(m, req.key, Go(Lookup(req, false))))
  {
    ClockEnact(m, req.key, Go(Lookup(req, false)));
  }

  lemma {:induction false} ClockRun(m: Machine, ls: seq<Label>)
    requires Placed(m) && Readers(m) && Clocked(m) && AllConditional(m, ls)
    ensures Clocked(Run(m, ls)) && ClockGoesOn(m, Run(m, ls))
    decreases |ls|
  {
    hide Placed, Readers, Clocked, Conditional, CheckedSince;
    if ls != [] {
      PlacedNext(m, ls[0]);
      ReadersNext(m, ls[0]);
      ClockNext(m, ls[0]);
      ClockRun(Next(m, ls[0]), ls[1..]);
    }
  }

  /** A conditional commit of a pass checks only rows whose last check is an interval ago. */
  lemma ChecksAfterInterval(m: Machine, l: Label, k: TxnKey, t: int)
    requires Readers(m) && Conditional(m, l) && Checks(m, l, k) && CheckedSince(m, k, t)
    ensures m.writers[l.id].kind.now - t >= m.writers[l.id].kind.options.intervalMinutes * 60
  {
    hide D.ExecuteAll, D.Updates, R.Checked;
    assert ReaderOk(m, m.writers[l.id]);
  }

  lemma ClockOnce(m: Machine, l: Label, k: TxnKey)
    requires Placed(m) && Readers(m) && Clocked(m) && Conditional(m, l) && Checks(m, l, k)
    ensures var m' := Next(m, l);
            Placed(m') && Readers(m') && Clocked(m') && CheckedSince(m', k, m.writers[l.id].kind.now)
  {
    hide Placed, Readers, Clocked, Conditional, Next, CheckedSince, D.ExecuteAll, D.Updates;
    PlacedNext(m, l);
    ReadersNext(m, l);
    ClockCommitted(m, l);
  }

  /** Two committed passes that check one row are a polling interval apart, whatever ran between. */
  lemma PolledApart(before: seq<Label>, first: Label, between: seq<Label>, second: Label, k: TxnKey)
    requires AllConditional(START, before + [first] + between + [second])
    requires Checks(Run(START, before), first, k)
    requires Checks(Run(START, before + [first] + between), second, k)
    ensures var a := Run(START, before).writers[first.id].kind;
            var b := Run(START, before + [first] + between).writers[second.id].kind;
            b.now - a.now >= b.options.intervalMinutes * 60
  {
    var m := Run(START, before);
    var m' := Next(m, first);
    var t := m.writers[first.id].kind.now;
    hide Run, Next, Checks, Conditional, Placed, Readers, Clocked, CheckedSince;
    AllConditionalConcat(START, before + [first] + between, [second]);
    AllConditionalConcat(START, before + [first], between);
    AllConditionalConcat(START, before, [first]);
    StartClocked();
    PlacedRun(START, before);
    ClockRun(START, before);
    ClockOnce(m, first, k);
    RunConcat(START, before, [first]);
    RunLast(m, first);
    RunConcat(START, before + [first], between);
    PlacedRun(m', between);
    ClockRun(m', between);
    RunLast(Run(m', between), second);
    ChecksAfterInterval(Run(m', between), second, k, t);
  }

  lemma StartClocked()
    ensures Placed(START) && Readers(START) && Clocked(START)
  {
  }

  lemma RunLast(m: Machine, l: Label)
    ensures Run(m, [l]) == Next(m, l)
    ensures AllConditional(m, [l]) <==> Conditional(m, l)
  {
    hide Next, Conditional;
    assert [l][1..] == [];
  }
}
