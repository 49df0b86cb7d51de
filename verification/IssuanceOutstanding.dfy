/** At most one number of a transaction is ever outstanding at DGII, and so at most one is accepted. */
module IssuanceOutstanding {
  import opened Wrappers
  import opened Documents
  import opened Issuance
  import opened IssuancePlacement
  import opened IssuanceSafety
  import opened IssuanceGuards
  import D = DbContext
  import R = Reconciler

  /** `k` sent the number, and DGII has since neither denied knowing it nor rejected it. */
  ghost predicate Owes(h: seq<Event>, k: TxnKey, n: FiscalKey) {
    exists i :: 0 <= i < |h| && h[i] == Sent(k, n) && forall x :: i < x < |h| ==> !Releases(h[x], n)
  }

  lemma OwesIsPending(h: seq<Event>, k: TxnKey, n: FiscalKey)
    requires Owes(h, k, n)
    ensures Pending(h, n)
  {
    PendingMeaning(h, n);
  }

  lemma OwesConcat(h: seq<Event>, es: seq<Event>, k: TxnKey, n: FiscalKey)
    requires Owes(h + es, k, n)
    ensures Owes(h, k, n) || Sent(k, n) in es
  {
    var g := h + es;
    var i :| 0 <= i < |g| && g[i] == Sent(k, n) && forall x :: i < x < |g| ==> !Releases(g[x], n);
    if i < |h| {
      forall x | i < x < |h| ensures !Releases(h[x], n) { assert h[x] == g[x]; }
      assert h[i] == g[i];
    } else {
      assert es[i - |h|] == g[i];
    }
  }

  /** The number outstanding for a transaction is the one its row holds. */
  ghost predicate Held(m: Machine) {
    forall k, n :: Owes(m.history, k, n) ==> k in m.rows && KeyOf(k, m.rows[k]) == n
  }

  /** A step that writes only row `k`, between two safe states. */
  lemma HeldOneRow(m: Machine, m': Machine, k: TxnKey, es: seq<Event>)
    requires Safe(m) && Safe(m') && Held(m) && m'.history == m.history + es
    requires forall j :: j != k ==> (j in m.rows <==> j in m'.rows) && (j in m.rows ==> m.rows[j] == m'.rows[j])
    requires k in m.rows ==> k in m'.rows
    requires forall e :: e in es && e.Sent? ==> e.from == k && k in m.rows && e.number == KeyOf(k, m.rows[k])
    ensures Held(m')
  {
    hide Owes, Disciplined, PhaseSafe, Pending;
    forall j, n | Owes(m'.history, j, n) ensures j in m'.rows && KeyOf(j, m'.rows[j]) == n {
      OwesConcat(m.history, es, j, n);
      OwesIsPending(m'.history, j, n);
      assert j in m.rows && KeyOf(j, m.rows[j]) == n;
      assert Covered(m', n);
      var i :| i in m'.rows && KeyOf(i, m'.rows[i]) == n && Transmitted(m'.rows[i].state);
      assert i != k ==> i in m.rows && KeyOf(i, m.rows[i]) == n;
    }
  }

  lemma HeldAdvance(m: Machine, k: TxnKey, c: Choice)
    requires Safe(m) && Held(m) && k in m.live
    ensures Held(Next(m, Advance(k, c)))
  {
    hide Continue, Held, Disciplined, Covered;
    var e := Continue(m.rows, k, m.live[k], c);
    assert PhaseSafe(m, k, m.live[k]);
    StepTells(m.rows, k, m.live[k], c);
    SafeContinue(m, k, c);
    HeldOneRow(m, Enact(m, k, e), k, e.told);
  }

  lemma HeldTold(m: Machine, es: seq<Event>)
    requires Held(m) && forall e :: e in es ==> !e.Sent?
    ensures Held(m.(history := m.history + es))
  {
    hide Owes;
    forall j, n | Owes(m.history + es, j, n) ensures j in m.rows && KeyOf(j, m.rows[j]) == n {
      OwesConcat(m.history, es, j, n);
    }
  }

  lemma HeldCommitted(m: Machine, i: nat, connected: bool)
    requires Held(m) && i in m.writers && Guarded(m, Commit(i, connected))
    ensures Held(Committed(m, i, connected))
  {
    hide Owes, Pending, D.ExecuteAll, D.Updates;
    var m' := Committed(m, i, connected);
    forall j, n | Owes(m'.history, j, n) ensures j in m'.rows && KeyOf(j, m'.rows[j]) == n {
      OwesIsPending(m.history, j, n);
      assert j in m.rows && KeyOf(j, m.rows[j]) == n;
      assert connected && j in m.writers[i].write ==> Spares(m, j, m.writers[i].write[j]);
    }
  }

  lemma HeardTells(m: Machine, l: Label)
    requires l.Refresh? || l.StatusQuery? || l.Hear? || l.Look? || l.Fetch? || l.Adjudicate?
    ensures Next(m, l).rows == m.rows
    ensures exists es :: Next(m, l).history == m.history + es && forall e :: e in es ==> !e.Sent?
  {
    hide Refreshed, Queried, BatchEvents, R.Checked, R.IsDueBatch;
    var es: seq<Event> := [];
    match l {
      case Refresh(i, resultado, estado, track) =>
        if i in m.writers && OneRow(m.writers[i]) {
          var k := m.writers[i].keys[0];
          VerdictsTell(k, m.writers[i].read[k], l, 0, R.Options(0, 0, 0), R.Answer(None, None));
          es := Refreshed(k, m.writers[i].read[k], resultado, estado, track).told;
        }
      case StatusQuery(i, asked, estado) =>
        if i in m.writers && OneRow(m.writers[i]) {
          QueryKeepsNumber(m.writers[i].read[m.writers[i].keys[0]], asked, estado);
          es := Queried(m.writers[i].read[m.writers[i].keys[0]], asked, estado).told;
        }
      case Hear(i, k, a) =>
        if i in m.writers && m.writers[i].kind.Batch? && k in m.writers[i].read {
          var w := m.writers[i];
          VerdictsTell(k, w.read[k], l, w.kind.now, w.kind.options, a);
          es := BatchEvents(k, w.read[k], w.kind.now, w.kind.options, a);
        }
      case Adjudicate(n) => es := [Accepted(n)];
      case _ =>
    }
    assert m.history + [] == m.history;
    assert Next(m, l).history == m.history + es;
  }

  lemma HeldNext(m: Machine, l: Label)
    requires Safe(m) && Held(m) && Guarded(m, l)
    ensures Held(Next(m, l))
  {
    hide Safe, Held, Guarded, Continue, Refreshed, Queried, BatchEvents, R.Checked, R.IsDueBatch, Committed, Complete;
    assert m.history + [] == m.history;
    match l {
      case Begin(req) => HeldQuiet(m, Next(m, l));
      case Advance(k, c) => if k in m.live { HeldAdvance(m, k, c); }
      case Crash(k) => HeldQuiet(m, Next(m, l));
      case Commit(i, connected) => if i in m.writers { HeldCommitted(m, i, connected); }
      case _ =>
        HeardTells(m, l);
        var es :| Next(m, l).history == m.history + es && forall e :: e in es ==> !e.Sent?;
        HeldTold(m, es);
        HeldQuiet(m.(history := m.history + es), Next(m, l));
    }
  }

  lemma HeldQuiet(m: Machine, m': Machine)
    requires Held(m) && m'.rows == m.rows && m'.history == m.history
    ensures Held(m')
  {
    hide Owes;
  }

  lemma {:induction false} HeldRun(m: Machine, ls: seq<Label>)
    requires Safe(m) && Held(m) && AllGuarded(m, ls)
    ensures Held(Run(m, ls))
    decreases |ls|
  {
    hide Safe, Held, Guarded;
    if ls != [] {
      SafeNext(m, ls[0]);
      HeldNext(m, ls[0]);
      HeldRun(Next(m, ls[0]), ls[1..]);
    }
  }

  /** In every run, a transaction never has two numbers outstanding; the one it has is in its row. */
  lemma OneOutstanding(ls: seq<Label>, k: TxnKey, n: FiscalKey)
    requires AllGuarded(START, ls) && Owes(Run(START, ls).history, k, n)
    ensures k in Run(START, ls).rows && KeyOf(k, Run(START, ls).rows[k]) == n
  {
    HeldRun(START, ls);
  }

  // ---- Acceptance ---------------------------------------------------------------------------

  /** DGII accepted the number while it was outstanding for `k`. */
  ghost predicate AcceptedFor(h: seq<Event>, k: TxnKey, n: FiscalKey) {
    exists i :: 0 <= i < |h| && h[i] == Accepted(n) && Owes(h[..i], k, n)
  }

  /** DGII never rejects a number it accepted, and never says that it does not know it. */
  ghost predicate AcceptanceIsFinal(h: seq<Event>) {
    forall i, x, n :: 0 <= i < x < |h| && h[i] == Accepted(n) ==> !Releases(h[x], n)
  }

  lemma AcceptedIsOwed(h: seq<Event>, k: TxnKey, n: FiscalKey)
    requires AcceptanceIsFinal(h) && AcceptedFor(h, k, n)
    ensures Owes(h, k, n)
  {
    var i :| 0 <= i < |h| && h[i] == Accepted(n) && Owes(h[..i], k, n);
    var g := h[..i];
    var j :| 0 <= j < |g| && g[j] == Sent(k, n) && forall x :: j < x < |g| ==> !Releases(g[x], n);
    assert h[j] == Sent(k, n);
    forall x | j < x < |h| ensures !Releases(h[x], n) {
      assert x < i ==> g[x] == h[x];
    }
  }

  /**
   A transaction never has two accepted numbers, whatever issuers its requests name and whatever
   DGII says about other numbers.
   */
  lemma AtMostOneAccepted(ls: seq<Label>, k: TxnKey, a: FiscalKey, b: FiscalKey)
    requires AllGuarded(START, ls) && AcceptanceIsFinal(Run(START, ls).history)
    requires AcceptedFor(Run(START, ls).history, k, a) && AcceptedFor(Run(START, ls).history, k, b)
    ensures a == b
  {
    var h := Run(START, ls).history;
    AcceptedIsOwed(h, k, a);
    AcceptedIsOwed(h, k, b);
    OneOutstanding(ls, k, a);
    OneOutstanding(ls, k, b);
  }

  /** DGII answered about the number after the last time `k` sent it. */
  ghost predicate ReleasedFor(h: seq<Event>, k: TxnKey, n: FiscalKey) {
    forall i :: 0 <= i < |h| && h[i] == Sent(k, n) ==> exists x :: i < x < |h| && Releases(h[x], n)
  }

  /** DGII does not accept a number for which it gave an answer that the engine reads as rejection. */
  ghost predicate RejectionIsFinal(h: seq<Event>) {
    forall n :: Rejected(n) in h ==> Accepted(n) !in h
  }

  /**
   If rejections are final, two accepted numbers of one transaction need an answer that one of them
   is unknown, given after its last transmission.
   */
  lemma TwoAcceptedNeedADenial(ls: seq<Label>, k: TxnKey, a: FiscalKey, b: FiscalKey)
    requires AllGuarded(START, ls) && RejectionIsFinal(Run(START, ls).history)
    requires var h := Run(START, ls).history; Sent(k, a) in h && Sent(k, b) in h && Accepted(a) in h && Accepted(b) in h
    requires a != b
    ensures var h := Run(START, ls).history;
            (ReleasedFor(h, k, a) && Missing(a) in h) || (ReleasedFor(h, k, b) && Missing(b) in h)
  {
    var h := Run(START, ls).history;
    if Owes(h, k, a) && Owes(h, k, b) {
      OneOutstanding(ls, k, a);
      OneOutstanding(ls, k, b);
    }
    var n := if Owes(h, k, a) then b else a;
    var i :| 0 <= i < |h| && h[i] == Sent(k, n);
    var x :| i < x < |h| && Releases(h[x], n);
    assert h[x] == Missing(n);
  }
}
