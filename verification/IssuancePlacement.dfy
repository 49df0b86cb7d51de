/** Where live submissions and readers stand beside the stored rows. */
module IssuancePlacement {
  import opened Wrappers
  import opened Documents
  import opened Issuance
  import Estado
  import D = DbContext
  import R = Reconciler

  // ---- The private copy of a submission, whatever anybody writes ----------------------------

  predicate Shaped(p: Phase) {
    match p
    case Lookup(_, _) => true
    case Drawing(_) => true
    case Inserting(_, d) => d.state.SequenceAllocated?
    case Redrawing(_, d) => d.state.RejectedByDgii?
    case Asking(_, d) => d.state.AwaitingTransmission? || d.state.Uncertain?
    case Signing(_, d) => d.state.SequenceAllocated?
    case Posting(_, d) => d.state.AwaitingTransmission?
    case Saving(_, d, after) =>
      (after.ThenSign? ==> d.state.SequenceAllocated?) && (after.ThenPost? ==> d.state.AwaitingTransmission?)
  }

  ghost predicate AllShaped(m: Machine) {
    forall k :: k in m.live ==> Shaped(m.live[k])
  }

  lemma ShapedContinue(rows: D.Rows, k: TxnKey, p: Phase, c: Choice)
    requires Shaped(p)
    ensures Continue(rows, k, p, c).next.Some? ==> Shaped(Continue(rows, k, p, c).next.value)
  {
    hide Estado.Read, VerdictEvents, D.NumberFree, Outcome;
  }

  lemma ShapedNext(m: Machine, l: Label)
    requires AllShaped(m)
    ensures AllShaped(Next(m, l))
  {
    hide Continue, Refreshed, Queried, R.Checked, R.IsDueBatch, BatchEvents, D.ExecuteAll;
    if l.Advance? && l.key in m.live {
      ShapedContinue(m.rows, l.key, m.live[l.key], l.choice);
    }
  }

  lemma {:induction false} ShapedRun(m: Machine, ls: seq<Label>)
    requires AllShaped(m)
    ensures AllShaped(Run(m, ls))
    decreases |ls|
  {
    if ls != [] {
      ShapedNext(m, ls[0]);
      ShapedRun(Next(m, ls[0]), ls[1..]);
    }
  }

  /** What an answer may change of the document. */
  lemma OutcomeFits(d: Doc, c: Choice)
    ensures Outcome(d, c).Some? ==>
              var (d', v) := Outcome(d, c).value;
              && d' == d.(state := d'.state, track := d'.track, sentAt := d'.sentAt)
              && (d'.state.Signed? || d'.state.AcceptedByDgii? || (d'.state.RejectedByDgii? && v.Rejects?))
              && (d'.state.AcceptedByDgii? <==> v.Accepts?)
  {
  }

  // ---- Rows are never deleted ---------------------------------------------------------------

  /** Not past its lookup: see `Early`; any other submission has a row to work on. */
  ghost predicate Kept(m: Machine) {
    forall k :: k in m.live && !Early(m.live[k]) ==> k in m.rows
  }

  lemma KeptNext(m: Machine, l: Label)
    requires Kept(m)
    ensures Kept(Next(m, l))
  {
    hide Refreshed, Queried, R.Checked, R.IsDueBatch, BatchEvents, D.ExecuteAll, D.Updates, Estado.Read, Outcome,
      D.NumberFree, VerdictEvents, AfterSigning, Found;
  }

  lemma {:induction false} KeptRun(m: Machine, ls: seq<Label>)
    requires Kept(m)
    ensures Kept(Run(m, ls))
    decreases |ls|
  {
    if ls != [] {
      KeptNext(m, ls[0]);
      KeptRun(Next(m, ls[0]), ls[1..]);
    }
  }

  // ---- What a reader knows ------------------------------------------------------------------

  /** Rows that nobody wrote since are still as read; a batch was due; no write changes a number. */
  ghost predicate ReaderOk(m: Machine, w: Writer) {
    && (forall k :: k in w.read <==> k in w.keys)
    && (forall k :: k in w.write ==> k in w.read && KeyOf(k, w.write[k]) == KeyOf(k, w.read[k]))
    && (forall k :: k in w.current ==> k in w.read && k in m.rows && m.rows[k] == w.read[k])
    && (forall k :: k in w.current && k in m.live ==> !m.live[k].Signing? && !m.live[k].Posting?)
    && (w.kind.Batch? ==>
          forall k :: k in w.read ==>
            && R.Due(w.read[k], w.kind.now, w.kind.options)
            && (k in w.write ==> exists a :: w.write[k] == R.Checked(w.read[k], w.kind.now, w.kind.options, a)))
  }

  ghost predicate Readers(m: Machine) {
    forall i :: i in m.writers ==> ReaderOk(m, m.writers[i])
  }

  /** A save and the step into signing or posting are one. */
  lemma SignsOnlyAfterSaving(rows: D.Rows, k: TxnKey, p: Phase, c: Choice)
    ensures var e := Continue(rows, k, p, c);
            e.save.None? && e.next.Some? ==> !e.next.value.Signing? && !e.next.value.Posting?
  {
    hide Estado.Read, VerdictEvents, D.NumberFree, Outcome;
  }

  lemma ReadersEnact(m: Machine, k: TxnKey, e: Effect)
    requires Readers(m)
    requires e.save.None? && e.next.Some? ==> !e.next.value.Signing? && !e.next.value.Posting?
    ensures Readers(Enact(m, k, e))
  {
    var m' := Enact(m, k, e);
    forall i | i in m'.writers ensures ReaderOk(m', m'.writers[i]) {
      assert ReaderOk(m, m.writers[i]);
    }
  }

  lemma RefreshKeepsNumber(k: TxnKey, d: Doc, resultado: string, estado: string, track: string)
    ensures var f := Refreshed(k, d, resultado, estado, track);
            f.save.Some? ==> f.save.value.rnc == d.rnc && f.save.value.encf == d.encf
  {
    hide Estado.Read, VerdictEvents;
  }

  lemma ReadersHeard(m: Machine, i: nat, write: map<TxnKey, Doc>, told: seq<Event>)
    requires Readers(m) && i in m.writers
    requires ReaderOk(m, m.writers[i].(write := write))
    ensures Readers(Heard(m, i, write, told))
  {
    var m' := Heard(m, i, write, told);
    forall j | j in m'.writers ensures ReaderOk(m', m'.writers[j]) {
      assert ReaderOk(m, m.writers[j]);
    }
  }

  lemma ReadersLearned(m: Machine, i: nat, f: Finding)
    requires Readers(m) && i in m.writers && OneRow(m.writers[i])
    requires var w := m.writers[i];
             f.save.Some? ==> KeyOf(w.keys[0], f.save.value) == KeyOf(w.keys[0], w.read[w.keys[0]])
    ensures Readers(Learned(m, i, f))
  {
    assert ReaderOk(m, m.writers[i]);
    ReadersHeard(m, i, OneWrite(m.writers[i].keys[0], f), f.told);
  }

  lemma ReadersOpened(m: Machine, i: nat, keys: seq<TxnKey>, kind: Kind)
    requires Readers(m) && i !in m.writers && forall k :: k in keys ==> k in m.rows
    requires kind.Batch? ==> forall k :: k in keys ==> R.Due(m.rows[k], kind.now, kind.options)
    ensures Readers(m.(writers := m.writers[i := Opened(m, keys, kind)]))
  {
    var m' := m.(writers := m.writers[i := Opened(m, keys, kind)]);
    forall j | j in m'.writers ensures ReaderOk(m', m'.writers[j]) {
      assert j != i ==> ReaderOk(m, m.writers[j]);
    }
  }

  lemma ReadersCommitted(m: Machine, i: nat, connected: bool)
    requires Readers(m) && i in m.writers
    ensures Readers(Committed(m, i, connected))
  {
    hide D.ExecuteAll, D.Updates;
    var m' := Committed(m, i, connected);
    forall j | j in m'.writers ensures ReaderOk(m', m'.writers[j]) {
      assert ReaderOk(m, m.writers[j]);
    }
  }

  lemma ReadersHear(m: Machine, i: nat, k: TxnKey, a: R.Answer)
    requires Readers(m) && i in m.writers && m.writers[i].kind.Batch? && k in m.writers[i].read
    ensures Readers(Next(m, Hear(i, k, a)))
  {
    hide R.Checked, BatchEvents;
    var w := m.writers[i];
    assert ReaderOk(m, w);
    R.CheckedKeepsNumber(w.read[k], w.kind.now, w.kind.options, a);
    ReadersHeard(m, i, w.write[k := R.Checked(w.read[k], w.kind.now, w.kind.options, a)],
                 BatchEvents(k, w.read[k], w.kind.now, w.kind.options, a));
  }

  lemma ReadersNext(m: Machine, l: Label)
    requires Readers(m)
    ensures Readers(Next(m, l))
  {
    hide Continue, Refreshed, R.Checked, BatchEvents, Committed, ReaderOk;
    match l {
      case Begin(req) => if req.key !in m.live { ReadersEnact(m, req.key, Go(Lookup(req, false))); }
      case Advance(k, c) =>
        if k in m.live {
          SignsOnlyAfterSaving(m.rows, k, m.live[k], c);
          ReadersEnact(m, k, Continue(m.rows, k, m.live[k], c));
        }
      case Crash(k) => ReadersEnact(m, k, Stop());
      case Look(i, k) => if i !in m.writers && k in m.rows { ReadersOpened(m, i, [k], Single); }
      case Refresh(i, resultado, estado, track) =>
        if i in m.writers && OneRow(m.writers[i]) {
          var k := m.writers[i].keys[0];
          RefreshKeepsNumber(k, m.writers[i].read[k], resultado, estado, track);
          ReadersLearned(m, i, Refreshed(k, m.writers[i].read[k], resultado, estado, track));
        }
      case StatusQuery(i, asked, estado) =>
        if i in m.writers && OneRow(m.writers[i]) {
          ReadersLearned(m, i, Queried(m.writers[i].read[m.writers[i].keys[0]], asked, estado));
        }
      case Fetch(i, now, o, due) =>
        if i !in m.writers && R.IsDueBatch(m.rows, now, o, due) { ReadersOpened(m, i, due, Batch(now, o)); }
      case Hear(i, k, a) =>
        if i in m.writers && m.writers[i].kind.Batch? && k in m.writers[i].read { ReadersHear(m, i, k, a); }
      case Commit(i, connected) => if i in m.writers { ReadersCommitted(m, i, connected); }
      case Adjudicate(n) => ReadersTold(m, [Accepted(n)]);
    }
  }

  lemma ReadersTold(m: Machine, es: seq<Event>)
    requires Readers(m)
    ensures Readers(m.(history := m.history + es))
  {
    forall j | j in m.writers ensures ReaderOk(m.(history := m.history + es), m.writers[j]) {
      assert ReaderOk(m, m.writers[j]);
    }
  }

  lemma {:induction false} ReadersRun(m: Machine, ls: seq<Label>)
    requires Readers(m)
    ensures Readers(Run(m, ls))
    decreases |ls|
  {
    if ls != [] {
      ReadersNext(m, ls[0]);
      ReadersRun(Next(m, ls[0]), ls[1..]);
    }
  }

  // ---- The guard of a conditional update ----------------------------------------------------

  /** No submission past its lookup is live for this row. */
  predicate Clear(m: Machine, k: TxnKey) {
    k in m.live ==> Early(m.live[k])
  }

  /**
   What an UPDATE conditional on the row's updated_at would test: nobody wrote the row since it was
   read. A refresh or status query moreover does not commit under a live submission of its row.
   */
  predicate Conditional(m: Machine, l: Label) {
    l.Commit? && l.connected && l.id in m.writers ==>
      forall k :: k in m.writers[l.id].write ==>
        k in m.writers[l.id].current && (m.writers[l.id].kind.Single? ==> Clear(m, k))
  }

  predicate AllConditional(m: Machine, ls: seq<Label>)
    decreases |ls|
  {
    ls == [] || (Conditional(m, ls[0]) && AllConditional(Next(m, ls[0]), ls[1..]))
  }

  lemma {:induction false} AllConditionalConcat(m: Machine, a: seq<Label>, b: seq<Label>)
    ensures AllConditional(m, a + b) <==> AllConditional(m, a) && AllConditional(Run(m, a), b)
    decreases |a|
  {
    if a == [] {
      assert a + b == b;
    } else {
      assert (a + b)[1..] == a[1..] + b;
      AllConditionalConcat(Next(m, a[0]), a[1..], b);
    }
  }

  /** A submission past its lookup holds a row that only submissions may still change. */
  predicate PhasePlaced(rows: D.Rows, k: TxnKey, p: Phase) {
    && Shaped(p)
    && match p
       case Lookup(_, _) => true
       case Drawing(_) => true
       case Inserting(_, _) => true
       case Redrawing(_, d) => k in rows && rows[k] == d
       case Asking(_, d) => k in rows && rows[k] == d
       case Signing(_, d) => k in rows && rows[k] == d
       case Posting(_, d) => k in rows && rows[k] == d
       case Saving(_, d, after) =>
         && k in rows && Open(rows[k].state)
         && (after.ThenPost? ==> NeverTransmitted(rows[k].state))
         && (!after.ThenSign? ==> KeyOf(k, d) == KeyOf(k, rows[k]))
  }

  ghost predicate Placed(m: Machine) {
    forall k :: k in m.live ==> PhasePlaced(m.rows, k, m.live[k])
  }

  predicate PlacedEffect(rows: D.Rows, k: TxnKey, e: Effect) {
    e.next.Some? ==> PhasePlaced(if e.save.Some? then rows[k := e.save.value] else rows, k, e.next.value)
  }

  lemma PlacedPosting(rows: D.Rows, k: TxnKey, req: Req, d: Doc, c: Choice)
    requires PhasePlaced(rows, k, Posting(req, d))
    ensures PlacedEffect(rows, k, AfterPosting(k, req, d, c))
  {
    hide Outcome, VerdictEvents;
    OutcomeFits(d, c);
  }

  lemma PlacedContinue(rows: D.Rows, k: TxnKey, p: Phase, c: Choice)
    requires PhasePlaced(rows, k, p)
    ensures PlacedEffect(rows, k, Continue(rows, k, p, c))
  {
    hide Estado.Read, VerdictEvents, D.NumberFree, Outcome, AfterPosting;
    if p.Posting? {
      PlacedPosting(rows, k, p.req, p.doc, c);
    }
  }

  lemma PlacedEnact(m: Machine, k: TxnKey, e: Effect)
    requires Placed(m) && PlacedEffect(m.rows, k, e)
    ensures Placed(Enact(m, k, e))
  {
    forall j | j in Enact(m, k, e).live ensures PhasePlaced(Enact(m, k, e).rows, j, Enact(m, k, e).live[j]) {
      assert j != k ==> PhasePlaced(m.rows, j, m.live[j]);
    }
  }

  /** A conditional commit never writes a row that a submission past its lookup holds. */
  lemma CommitSparesLive(m: Machine, l: Label, k: TxnKey)
    requires Placed(m) && Readers(m) && l.Commit? && l.id in m.writers && l.connected && Conditional(m, l)
    requires k in m.live && !Early(m.live[k])
    ensures k !in m.writers[l.id].write
  {
    assert ReaderOk(m, m.writers[l.id]) && PhasePlaced(m.rows, k, m.live[k]);
  }

  lemma PlacedCommitted(m: Machine, l: Label)
    requires Placed(m) && Readers(m) && l.Commit? && l.id in m.writers && Conditional(m, l)
    ensures Placed(Committed(m, l.id, l.connected))
  {
    hide D.ExecuteAll, D.Updates, Readers, Conditional;
    var m' := Committed(m, l.id, l.connected);
    forall k | k in m'.live ensures PhasePlaced(m'.rows, k, m'.live[k]) {
      assert PhasePlaced(m.rows, k, m.live[k]);
      if l.connected && !Early(m.live[k]) {
        CommitSparesLive(m, l, k);
      }
    }
  }

  lemma PlacedNext(m: Machine, l: Label)
    requires Placed(m) && Readers(m) && Conditional(m, l)
    ensures Placed(Next(m, l))
  {
    hide R.Checked, R.IsDueBatch, BatchEvents, Continue, Refreshed, Queried, Committed, Readers, Conditional;
    match l {
      case Begin(req) => if req.key !in m.live { PlacedEnact(m, req.key, Go(Lookup(req, false))); }
      case Advance(k, c) =>
        if k in m.live {
          PlacedContinue(m.rows, k, m.live[k], c);
          PlacedEnact(m, k, Continue(m.rows, k, m.live[k], c));
        }
      case Crash(k) => PlacedEnact(m, k, Stop());
      case Commit(i, _) => if i in m.writers { PlacedCommitted(m, l); }
      case _ =>
    }
  }

  lemma {:induction false} PlacedRun(m: Machine, ls: seq<Label>)
    requires Placed(m) && Readers(m) && AllConditional(m, ls)
    ensures Placed(Run(m, ls)) && Readers(Run(m, ls))
    decreases |ls|
  {
    if ls != [] {
      PlacedNext(m, ls[0]);
      ReadersNext(m, ls[0]);
      PlacedRun(Next(m, ls[0]), ls[1..]);
    }
  }
}
