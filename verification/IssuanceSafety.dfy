/** Send discipline: no number is posted twice without an answer in between that permits it. */
module IssuanceSafety {
  import opened Wrappers
  import opened Documents
  import opened Issuance
  import opened IssuancePlacement
  import Estado
  import D = DbContext
  import R = Reconciler

  /** A number was sent, and DGII has since neither denied knowing it nor rejected it. */
  predicate Pending(h: seq<Event>, n: FiscalKey) {
    h != [] &&
    match h[|h| - 1]
    case Sent(_, s) => s == n || Pending(h[..|h| - 1], n)
    case Missing(s) => s != n && Pending(h[..|h| - 1], n)
    case Rejected(s) => s != n && Pending(h[..|h| - 1], n)
    case Accepted(_) => Pending(h[..|h| - 1], n)
  }

  predicate Releases(e: Event, n: FiscalKey) {
    e == Missing(n) || e == Rejected(n)
  }

  /** Between any two transmissions of one number there is an answer that permits the second. */
  ghost predicate Disciplined(h: seq<Event>) {
    forall i, j :: 0 <= i < j < |h| && h[i].Sent? && h[j].Sent? && h[i].number == h[j].number ==>
      exists x :: i < x < j && Releases(h[x], h[i].number)
  }

  lemma PendingSnoc(h: seq<Event>, e: Event)
    ensures forall n :: Pending(h + [e], n) <==>
                        match e
                        case Sent(_, s) => s == n || Pending(h, n)
                        case Missing(s) => s != n && Pending(h, n)
                        case Rejected(s) => s != n && Pending(h, n)
                        case Accepted(_) => Pending(h, n)
  {
    assert (h + [e])[..|h|] == h;
  }

  /** `Pending` is what its name says: some transmission has no releasing answer after it. */
  lemma {:induction false} PendingMeaning(h: seq<Event>, n: FiscalKey)
    ensures Pending(h, n) <==>
            exists i :: 0 <= i < |h| && h[i].Sent? && h[i].number == n &&
                        forall x :: i < x < |h| ==> !Releases(h[x], n)
  {
    if h != [] {
      var init, e := h[..|h| - 1], h[|h| - 1];
      PendingMeaning(init, n);
      if Pending(init, n) && !Releases(e, n) {
        var i :| 0 <= i < |init| && init[i].Sent? && init[i].number == n &&
                 forall x :: i < x < |init| ==> !Releases(init[x], n);
        assert h[i] == init[i];
        assert forall x :: i < x < |h| ==> !Releases(h[x], n) by {
          forall x | i < x < |h| ensures !Releases(h[x], n) {
            if x < |init| { assert h[x] == init[x]; }
          }
        }
      }
      if i :| 0 <= i < |h| && h[i].Sent? && h[i].number == n && forall x :: i < x < |h| ==> !Releases(h[x], n) {
        assert i < |init| ==> !Releases(e, n);
        if i < |init| {
          assert init[i] == h[i];
          assert forall x :: i < x < |init| ==> !Releases(init[x], n) by {
            forall x | i < x < |init| ensures !Releases(init[x], n) { assert init[x] == h[x]; }
          }
        }
      }
    }
  }

  lemma DisciplinedSnoc(h: seq<Event>, e: Event)
    requires Disciplined(h)
    requires e.Sent? ==> !Pending(h, e.number)
    ensures Disciplined(h + [e])
  {
    var g := h + [e];
    forall i, j | 0 <= i < j < |g| && g[i].Sent? && g[j].Sent? && g[i].number == g[j].number
      ensures exists x :: i < x < j && Releases(g[x], g[i].number)
    {
      if j < |h| {
        var x :| i < x < j && Releases(h[x], h[i].number);
        assert Releases(g[x], g[i].number);
      } else {
        PendingMeaning(h, e.number);
        var x :| i < x < |h| && Releases(h[x], e.number);
        assert Releases(g[x], g[i].number);
      }
    }
  }

  // ---- The inductive invariant ------------------------------------------------------------

  /** The states a number may rest in while DGII's answer to a transmission is outstanding. */
  predicate Transmitted(s: State) {
    !NeverTransmitted(s) && !s.RejectedByDgii?
  }

  /**
   What a live submission needs of its row: the number it works on, not outstanding where it is about
   to be sent or given up, and in its place while it is sent.
   */
  predicate PhaseSafe(m: Machine, k: TxnKey, p: Phase) {
    && Shaped(p)
    && (Early(p) ||
          (k in m.rows
           && var n := KeyOf(k, m.rows[k]);
              match p
              case Redrawing(_, _) => !Pending(m.history, n)
              case Asking(_, d) => KeyOf(k, d) == n
              case Signing(_, d) => KeyOf(k, d) == n && !Pending(m.history, n)
              case Posting(_, d) => KeyOf(k, d) == n && !Pending(m.history, n) && Transmitted(m.rows[k].state)
              case Saving(_, d, after) =>
                && (after.ThenSign? || KeyOf(k, d) == n)
                && ((after.ThenStop? && Transmitted(d.state)) || !Pending(m.history, n))
              case _ => true))
  }

  ghost predicate Covered(m: Machine, n: FiscalKey) {
    exists k :: k in m.rows && KeyOf(k, m.rows[k]) == n && Transmitted(m.rows[k].state)
  }

  /** Every pending number is held by a row that the engine will not resend unasked. */
  ghost predicate Safe(m: Machine) {
    && D.UniqueNumbers(m.rows)
    && (forall n :: Pending(m.history, n) ==> Covered(m, n))
    && (forall k :: k in m.live ==> PhaseSafe(m, k, m.live[k]))
    && Disciplined(m.history)
  }

  /**
   What a commit may write over row `k`: anything that leaves an outstanding number in its place and
   not rejected, and a live submission of the row what it needs.
   */
  predicate Spares(m: Machine, k: TxnKey, w: Doc) {
    k in m.rows ==>
      && (Pending(m.history, KeyOf(k, m.rows[k])) ==> KeyOf(k, w) == KeyOf(k, m.rows[k]) && Transmitted(w.state))
      && (k in m.live ==> PhaseSafe(m.(rows := m.rows[k := w]), k, m.live[k]))
  }

  /** The hypothesis on refreshes, status queries and passes: their commits spare every row. */
  predicate Guarded(m: Machine, l: Label) {
    l.Commit? && l.connected && l.id in m.writers ==>
      forall k :: k in m.writers[l.id].write ==> Spares(m, k, m.writers[l.id].write[k])
  }

  /** Only row `k` and its number can have been touched between `m` and `m'`. */
  ghost predicate Touches(m: Machine, m': Machine, k: TxnKey) {
    && (forall j :: j != k ==> (j in m.rows <==> j in m'.rows) && (j in m.rows ==> m.rows[j] == m'.rows[j]))
    && (forall j :: j != k ==> (j in m.live <==> j in m'.live) && (j in m.live ==> m.live[j] == m'.live[j]))
    && (k in m.rows ==> k in m'.rows)
    && (forall n :: Pending(m'.history, n) ==>
          Pending(m.history, n) || (k in m.rows && n == KeyOf(k, m.rows[k])))
  }

  /** What is left to show for a step that touches one row. */
  lemma TouchOne(m: Machine, m': Machine, k: TxnKey)
    requires Safe(m) && Touches(m, m', k)
    requires k in m'.rows ==> D.NumberFree(m'.rows, k, KeyOf(k, m'.rows[k]))
    requires k in m'.live ==> PhaseSafe(m', k, m'.live[k])
    requires Disciplined(m'.history)
    requires k in m.rows && Pending(m'.history, KeyOf(k, m.rows[k])) ==>
             KeyOf(k, m'.rows[k]) == KeyOf(k, m.rows[k]) && Transmitted(m'.rows[k].state)
    ensures Safe(m')
  {
    forall n | Pending(m'.history, n) ensures Covered(m', n) {
      if k in m.rows && n == KeyOf(k, m.rows[k]) {
        assert k in m'.rows;
      } else {
        assert Covered(m, n);
        var j :| j in m.rows && KeyOf(j, m.rows[j]) == n && Transmitted(m.rows[j].state);
        assert j in m'.rows && m'.rows[j] == m.rows[j];
      }
    }
    forall j | j in m'.live ensures PhaseSafe(m', j, m'.live[j]) {
      if j != k {
        assert PhaseSafe(m, j, m.live[j]);
      }
    }
  }

  lemma PendingIsTransmitted(m: Machine, k: TxnKey)
    requires Safe(m)
    ensures k in m.rows && Pending(m.history, KeyOf(k, m.rows[k])) ==> Transmitted(m.rows[k].state)
  {
    assert k in m.rows && Pending(m.history, KeyOf(k, m.rows[k])) ==> Covered(m, KeyOf(k, m.rows[k]));
  }

  // ---- Steps of one submission ------------------------------------------------------------

  /** What an effect must respect, given the history after it. */
  ghost predicate EffectSafe(m: Machine, k: TxnKey, e: Effect) {
    var m' := Enact(m, k, e);
    && (e.save.Some? ==> D.NumberFree(m.rows, k, KeyOf(k, e.save.value)))
    && (e.next.Some? ==> PhaseSafe(m', k, e.next.value))
    && (k in m.rows && Pending(m'.history, KeyOf(k, m.rows[k])) ==>
          KeyOf(k, m'.rows[k]) == KeyOf(k, m.rows[k]) && Transmitted(m'.rows[k].state))
  }

  /** Silent effects: nothing happens at DGII. */
  lemma SafeSilent(m: Machine, k: TxnKey, e: Effect)
    requires Safe(m) && e.told == [] && EffectSafe(m, k, e)
    ensures Safe(Enact(m, k, e))
  {
    assert Enact(m, k, e).history == m.history;
    TouchOne(m, Enact(m, k, e), k);
  }

  lemma SafeStop(m: Machine, k: TxnKey)
    requires Safe(m)
    ensures Safe(Enact(m, k, Stop()))
  {
    assert m.history + [] == m.history;
    PendingIsTransmitted(m, k);
    SafeSilent(m, k, Stop());
  }

  lemma SafeGo(m: Machine, k: TxnKey, p: Phase)
    requires Safe(m) && PhaseSafe(m, k, p)
    ensures Safe(Enact(m, k, Go(p)))
  {
    assert m.history + [] == m.history;
    PendingIsTransmitted(m, k);
    SafeSilent(m, k, Go(p));
  }

  /** An answer only ever releases a number, so learning one is safe at any time. */
  lemma SafeTell(m: Machine, e: Event)
    requires Safe(m) && !e.Sent?
    ensures Safe(m.(history := m.history + [e]))
    ensures forall n :: Pending(m.history + [e], n) <==> Pending(m.history, n) && !Releases(e, n)
  {
    PendingSnoc(m.history, e);
    DisciplinedSnoc(m.history, e);
    var m' := m.(history := m.history + [e]);
    forall n | Pending(m'.history, n) ensures Covered(m', n) {
      assert Covered(m, n);
    }
    forall k | k in m'.live ensures PhaseSafe(m', k, m'.live[k]) {
      assert PhaseSafe(m, k, m.live[k]);
    }
  }

  lemma SafeVerdict(m: Machine, n: FiscalKey, v: Estado.Verdict)
    requires Safe(m)
    ensures Safe(m.(history := m.history + VerdictEvents(n, v)))
    ensures v.Rejects? ==> !Pending(m.history + VerdictEvents(n, v), n)
  {
    SafeTell(m, Accepted(n));
    SafeTell(m, Rejected(n));
    assert m.history + [] == m.history;
  }

  /** Learning first and moving on afterwards is one effect. */
  lemma EnactTold(m: Machine, k: TxnKey, told: seq<Event>, save: Option<Doc>, next: Option<Phase>)
    ensures Enact(m.(history := m.history + told), k, Effect(save, [], next)) == Enact(m, k, Effect(save, told, next))
  {
    assert (m.history + told) + [] == m.history + told;
  }

  lemma SafeVerdictGo(m: Machine, k: TxnKey, n: FiscalKey, v: Estado.Verdict, p: Phase)
    requires Safe(m)
    requires PhaseSafe(m.(history := m.history + VerdictEvents(n, v)), k, p)
    ensures Safe(Enact(m, k, Effect(None, VerdictEvents(n, v), Some(p))))
  {
    SafeVerdict(m, n, v);
    SafeGo(m.(history := m.history + VerdictEvents(n, v)), k, p);
    EnactTold(m, k, VerdictEvents(n, v), None, Some(p));
  }

  /** The transmission itself, seen as if its answer were lost. */
  lemma SafeSend(m: Machine, k: TxnKey, req: Req, d: Doc)
    requires Safe(m) && PhaseSafe(m, k, Posting(req, d))
    ensures Safe(Enact(m, k, Effect(None, [Sent(k, KeyOf(k, d))], Some(Saving(req, d.(state := Uncertain), ThenStop)))))
  {
    PendingSnoc(m.history, Sent(k, KeyOf(k, d)));
    DisciplinedSnoc(m.history, Sent(k, KeyOf(k, d)));
    TouchOne(m, Enact(m, k, Effect(None, [Sent(k, KeyOf(k, d))], Some(Saving(req, d.(state := Uncertain), ThenStop)))),
             k);
  }

  /** The final save of an answered transmission. */
  lemma AnswerFits(m: Machine, k: TxnKey, req: Req, d: Doc, v: Estado.Verdict, d': Doc)
    requires k in m.rows && KeyOf(k, d) == KeyOf(k, m.rows[k]) && KeyOf(k, d') == KeyOf(k, d)
    requires Transmitted(d'.state) || !Pending(m.history, KeyOf(k, d))
    ensures PhaseSafe(m, k, Saving(req, d', ThenStop))
  {
    hide Pending;
  }

  lemma SafeAnswered(m: Machine, k: TxnKey, req: Req, d: Doc, v: Estado.Verdict, d': Doc)
    requires Safe(m) && PhaseSafe(m, k, Posting(req, d))
    requires KeyOf(k, d') == KeyOf(k, d) && (Transmitted(d'.state) || v.Rejects?)
    ensures Safe(Enact(m, k, Effect(None, [Sent(k, KeyOf(k, d))] + VerdictEvents(KeyOf(k, d), v),
                                    Some(Saving(req, d', ThenStop)))))
  {
    hide Safe, Pending, Transmitted, VerdictEvents;
    var n := KeyOf(k, d);
    SafeSend(m, k, req, d);
    var sent := Enact(m, k, Effect(None, [Sent(k, n)], Some(Saving(req, d.(state := Uncertain), ThenStop))));
    SafeVerdict(sent, n, v);
    AnswerFits(sent.(history := sent.history + VerdictEvents(n, v)), k, req, d, v, d');
    hide PhaseSafe;
    SafeVerdictGo(sent, k, n, v, Saving(req, d', ThenStop));
    assert m.history + ([Sent(k, n)] + VerdictEvents(n, v)) == sent.history + VerdictEvents(n, v);
    assert Enact(m, k, Effect(None, [Sent(k, n)] + VerdictEvents(n, v), Some(Saving(req, d', ThenStop)))) ==
           Enact(sent, k, Effect(None, VerdictEvents(n, v), Some(Saving(req, d', ThenStop))));
  }

  lemma SafeAfterPosting(m: Machine, k: TxnKey, req: Req, d: Doc, c: Choice)
    requires Safe(m) && PhaseSafe(m, k, Posting(req, d))
    ensures Safe(Enact(m, k, AfterPosting(k, req, d, c)))
  {
    if c.NotPosted? {
      SafeGo(m, k, Saving(req, d.(state := Uncertain), ThenStop));
    } else {
      SafeSend(m, k, req, d);
      OutcomeFits(d, c);
      match Outcome(d, c) {
        case None =>
        case Some(o) => SafeAnswered(m, k, req, d, o.1, o.0);
      }
    }
  }

  lemma SafeUnknown(m: Machine, k: TxnKey, req: Req, d: Doc)
    requires Safe(m) && PhaseSafe(m, k, Asking(req, d))
    ensures Safe(Enact(m, k, Effect(None, [Missing(KeyOf(k, d))], Some(Saving(req, Apply(d, req), ThenSign)))))
  {
    hide Disciplined, D.UniqueNumbers, Pending;
    var n := KeyOf(k, d);
    SafeTell(m, Missing(n));
    SafeGo(m.(history := m.history + [Missing(n)]), k, Saving(req, Apply(d, req), ThenSign));
    EnactTold(m, k, [Missing(n)], None, Some(Saving(req, Apply(d, req), ThenSign)));
  }

  lemma SafeKnown(m: Machine, k: TxnKey, req: Req, d: Doc, v: Estado.Verdict, track: string, sentAt: Option<int>)
    requires Safe(m) && PhaseSafe(m, k, Asking(req, d))
    ensures Safe(Enact(m, k, Effect(None, VerdictEvents(KeyOf(k, d), v),
                                    Some(Saving(req, Found(d, v, track, sentAt), ThenStop)))))
  {
    hide Disciplined, D.UniqueNumbers, Pending, VerdictEvents;
    SafeVerdict(m, KeyOf(k, d), v);
    SafeVerdictGo(m, k, KeyOf(k, d), v, Saving(req, Found(d, v, track, sentAt), ThenStop));
  }

  lemma SafeAfterAsking(m: Machine, k: TxnKey, req: Req, d: Doc, c: Choice)
    requires Safe(m) && PhaseSafe(m, k, Asking(req, d))
    ensures Safe(Enact(m, k, AfterAsking(k, req, d, c)))
  {
    hide Safe, PhaseSafe, Enact, Estado.Read, VerdictEvents, Found, Apply;
    if !c.Answer? {
      SafeStop(m, k);
    } else if Estado.Read(c.estado).Missing? {
      SafeUnknown(m, k, req, d);
    } else {
      SafeKnown(m, k, req, d, Estado.Read(c.estado), if HasTrack(d) then "" else c.track,
                if d.sentAt.Some? then d.sentAt else Some(c.now));
    }
  }

  lemma SafeDispatch(m: Machine, k: TxnKey, req: Req)
    requires Safe(m) && k in m.rows
    ensures Safe(Enact(m, k, Dispatch(req, m.rows[k])))
  {
    PendingIsTransmitted(m, k);
    var e := Dispatch(req, m.rows[k]);
    SafeStop(m, k);
    if e.next.Some? {
      SafeGo(m, k, e.next.value);
    }
  }

  lemma SafeAfterSigning(m: Machine, k: TxnKey, req: Req, d: Doc, c: Choice)
    requires Safe(m) && PhaseSafe(m, k, Signing(req, d))
    ensures Safe(Enact(m, k, AfterSigning(req, d, c)))
  {
    PendingIsTransmitted(m, k);
    SafeGo(m, k, AfterSigning(req, d, c).next.value);
  }

  lemma SafeAfterInserting(m: Machine, k: TxnKey, req: Req, d: Doc, c: Choice)
    requires Safe(m) && d.state.SequenceAllocated?
    ensures Safe(Enact(m, k, AfterInserting(m.rows, k, req, d, c)))
  {
    var e := AfterInserting(m.rows, k, req, d, c);
    if e.save.None? {
      SafeStop(m, k);
      SafeGo(m, k, Lookup(req, true));
    } else {
      assert Enact(m, k, e).history == m.history;
      TouchOne(m, Enact(m, k, e), k);
    }
  }

  lemma SafeAfterSaving(m: Machine, k: TxnKey, req: Req, d: Doc, after: After, c: Choice)
    requires Safe(m) && PhaseSafe(m, k, Saving(req, d, after))
    ensures Safe(Enact(m, k, AfterSaving(m.rows, k, req, d, after, c)))
  {
    var e := AfterSaving(m.rows, k, req, d, after, c);
    if e.save.None? {
      SafeStop(m, k);
    } else {
      var n := KeyOf(k, d);
      // were n pending under another row, the unique index would have refused the save
      assert Pending(m.history, n) ==> Covered(m, n);
      PendingIsTransmitted(m, k);
      assert Enact(m, k, e).history == m.history;
      TouchOne(m, Enact(m, k, e), k);
    }
  }

  lemma SafeDrawing(m: Machine, k: TxnKey, p: Phase, c: Choice)
    requires Safe(m) && PhaseSafe(m, k, p) && (p.Lookup? || p.Drawing? || p.Redrawing?)
    ensures Safe(Enact(m, k, Continue(m.rows, k, p, c)))
  {
    SafeStop(m, k);
    PendingIsTransmitted(m, k);
    hide Safe, Enact, Pending, Dispatch;
    match p {
      case Lookup(req, again) =>
        if !c.Fail? && k in m.rows { SafeDispatch(m, k, req); }
        else if !c.Fail? && !again { SafeGo(m, k, Drawing(req)); }
      case Drawing(req) =>
        if c.Number? { SafeGo(m, k, Inserting(req, NewDoc(c.encf, req))); }
      case Redrawing(req, d) =>
        if c.Number? { SafeGo(m, k, Saving(req, Reissued(d, req, c.encf), ThenSign)); }
    }
  }

  lemma SafeContinue(m: Machine, k: TxnKey, c: Choice)
    requires Safe(m) && k in m.live
    ensures Safe(Enact(m, k, Continue(m.rows, k, m.live[k], c)))
  {
    assert PhaseSafe(m, k, m.live[k]);
    assert m.live[k].Inserting? ==> m.live[k].doc.state.SequenceAllocated?;
    hide Safe, PhaseSafe, Enact, AfterInserting, AfterSaving, AfterSigning, AfterPosting, AfterAsking, Dispatch;
    match m.live[k] {
      case Inserting(req, d) => SafeAfterInserting(m, k, req, d, c);
      case Saving(req, d, after) => SafeAfterSaving(m, k, req, d, after, c);
      case Signing(req, d) => SafeAfterSigning(m, k, req, d, c);
      case Posting(req, d) => SafeAfterPosting(m, k, req, d, c);
      case Asking(req, d) => SafeAfterAsking(m, k, req, d, c);
      case p => SafeDrawing(m, k, p, c);
    }
  }

  // ---- The other writers --------------------------------------------------------------------

  lemma {:induction false} SafeTellAll(m: Machine, es: seq<Event>)
    requires Safe(m) && forall e :: e in es ==> !e.Sent?
    ensures Safe(m.(history := m.history + es))
    ensures forall n :: Pending(m.history + es, n) <==> Pending(m.history, n) && forall e :: e in es ==> !Releases(e, n)
    decreases |es|
  {
    if es == [] {
      assert m.history + es == m.history;
    } else {
      var init, e := es[..|es| - 1], es[|es| - 1];
      SafeTellAll(m, init);
      SafeTell(m.(history := m.history + init), e);
      assert m.history + es == (m.history + init) + [e];
      assert forall x :: x in es <==> x in init || x == e;
    }
  }

  /** Safety is about rows, submissions and history; readers only matter when they commit. */
  lemma SafeReaders(m: Machine, ws: Writers)
    requires Safe(m)
    ensures Safe(m.(writers := ws))
  {
    var m' := m.(writers := ws);
    forall n | Pending(m'.history, n) ensures Covered(m', n) {
      assert Covered(m, n);
    }
    forall k | k in m'.live ensures PhaseSafe(m', k, m'.live[k]) {
      assert PhaseSafe(m, k, m.live[k]);
    }
  }

  lemma SafeHeard(m: Machine, i: nat, write: map<TxnKey, Doc>, told: seq<Event>)
    requires Safe(m) && i in m.writers && forall e :: e in told ==> !e.Sent?
    ensures Safe(Heard(m, i, write, told))
  {
    hide Safe;
    SafeTellAll(m, told);
    SafeReaders(m.(history := m.history + told), m.writers[i := m.writers[i].(write := write)]);
  }

  /** What a guarded commit leaves of the rows. */
  ghost predicate SparesAll(m: Machine, m': Machine) {
    && m'.live == m.live && m'.history == m.history
    && forall k :: k in m.rows ==> k in m'.rows && Spares(m, k, m'.rows[k])
  }

  /** Writing nothing, or the same again, spares a row. */
  lemma SparesItself(m: Machine, k: TxnKey)
    requires Safe(m) && k in m.rows
    ensures Spares(m, k, m.rows[k])
  {
    hide Pending, Disciplined;
    PendingIsTransmitted(m, k);
    assert m.(rows := m.rows[k := m.rows[k]]) == m;
  }

  lemma CommitSparesAll(m: Machine, i: nat, connected: bool)
    requires Safe(m) && i in m.writers && Guarded(m, Commit(i, connected))
    ensures SparesAll(m, Committed(m, i, connected))
  {
    hide Safe, Spares, D.ExecuteAll, D.Updates;
    forall k | k in m.rows ensures Spares(m, k, m.rows[k]) {
      SparesItself(m, k);
    }
  }

  lemma SafeSpared(m: Machine, m': Machine)
    requires Safe(m) && SparesAll(m, m') && D.UniqueNumbers(m'.rows)
    ensures Safe(m')
  {
    hide Disciplined, Pending, Transmitted;
    forall n | Pending(m'.history, n) ensures Covered(m', n) {
      assert Covered(m, n);
      var k :| k in m.rows && KeyOf(k, m.rows[k]) == n && Transmitted(m.rows[k].state);
      assert Spares(m, k, m'.rows[k]);
      assert KeyOf(k, m'.rows[k]) == n && Transmitted(m'.rows[k].state);
    }
    hide Covered;
    forall k | k in m'.live ensures PhaseSafe(m', k, m'.live[k]) {
      assert PhaseSafe(m, k, m.live[k]);
      assert k in m.rows ==> Spares(m, k, m'.rows[k]);
    }
  }

  /** A commit that spares every row it writes is safe. */
  lemma SafeCommitted(m: Machine, i: nat, connected: bool)
    requires Safe(m) && i in m.writers && Guarded(m, Commit(i, connected))
    ensures Safe(Committed(m, i, connected))
  {
    var w := m.writers[i];
    D.UpdatesOverwrite(m.rows, w.keys, w.write);
    D.TransactionKeepsUniqueNumbers(m.rows, D.Updates(w.keys, w.write));
    CommitSparesAll(m, i, connected);
    hide Guarded, Spares, Covered, PhaseSafe, Pending, Disciplined, D.ExecuteAll, D.Updates;
    SafeSpared(m, Committed(m, i, connected));
  }

  /** Each of the rows to be written is there, and its new number is free. */
  ghost predicate Writable(m: Machine, w: Writer) {
    forall k :: k in w.write ==> k in w.keys && k in m.rows && D.NumberFree(m.rows, k, KeyOf(k, w.write[k]))
  }

  /** What a submission needs concerns its own row and the history. */
  lemma PhaseOfRow(m: Machine, m': Machine, k: TxnKey, p: Phase)
    requires m.history == m'.history && k in m.rows && k in m'.rows && m.rows[k] == m'.rows[k]
    ensures PhaseSafe(m, k, p) <==> PhaseSafe(m', k, p)
  {
    hide Pending, Transmitted;
  }

  /** An outstanding number can only be covered by the row that held it. */
  lemma CoveredInPlace(m: Machine, m': Machine, w: Writer, k: TxnKey)
    requires Safe(m) && Safe(m') && Writable(m, w) && k in w.write
    requires m'.history == m.history && m'.rows == D.Overwritten(m.rows, w.keys, w.write)
    ensures Pending(m.history, KeyOf(k, m.rows[k])) ==>
              KeyOf(k, w.write[k]) == KeyOf(k, m.rows[k]) && Transmitted(w.write[k].state)
  {
    hide Disciplined, Pending, Transmitted, PhaseSafe;
    var n := KeyOf(k, m.rows[k]);
    if Pending(m.history, n) {
      assert Covered(m', n);
      var j :| j in m'.rows && KeyOf(j, m'.rows[j]) == n && Transmitted(m'.rows[j].state);
      assert j in w.write ==> D.NumberFree(m.rows, j, KeyOf(j, w.write[j]));
    }
  }

  /**
   Exactly when a commit is safe, also under live submissions: each row it writes over keeps its
   outstanding number, in its place and not rejected, and its submission what that needs.
   */
  lemma CommitIsSafeIff(m: Machine, i: nat)
    requires Safe(m) && i in m.writers && Writable(m, m.writers[i])
    requires D.ExecuteAll(m.rows, D.Updates(m.writers[i].keys, m.writers[i].write)).Some?
    ensures Safe(Committed(m, i, true)) <==> Guarded(m, Commit(i, true))
  {
    var w := m.writers[i];
    var m' := Committed(m, i, true);
    D.UpdatesOverwrite(m.rows, w.keys, w.write);
    hide D.ExecuteAll, D.Updates, Pending, Transmitted, Disciplined, PhaseSafe, Covered, D.UniqueNumbers;
    if Guarded(m, Commit(i, true)) {
      SafeCommitted(m, i, true);
    }
    if Safe(m') {
      forall k | k in w.write ensures Spares(m, k, w.write[k]) {
        CoveredInPlace(m, m', w, k);
        if k in m.live {
          assert PhaseSafe(m', k, m'.live[k]);
          PhaseOfRow(m', m.(rows := m.rows[k := w.write[k]]), k, m.live[k]);
        }
      }
    }
  }

  /** A submission that is not past its lookup needs nothing of its row. */
  lemma EarlyNeedsNothing(m: Machine, m': Machine, k: TxnKey)
    requires Safe(m) && k in m.live && Early(m.live[k])
    ensures PhaseSafe(m', k, m.live[k])
  {
    hide Pending, Disciplined, Covered;
    assert PhaseSafe(m, k, m.live[k]);
  }

  // ---- One status query ---------------------------------------------------------------------

  /** A status query that reads, hears and commits with nothing in between. */
  function QueriedAtOnce(m: Machine, i: nat, k: TxnKey, asked: FiscalKey, estado: string): Machine {
    Next(Next(Next(m, Look(i, k)), StatusQuery(i, asked, estado)), Commit(i, true))
  }

  lemma OneRowWrites(rows: D.Rows, k: TxnKey, f: Finding)
    requires D.UniqueNumbers(rows) && k in rows && (f.save.Some? ==> KeyOf(k, f.save.value) == KeyOf(k, rows[k]))
    ensures D.ExecuteAll(rows, D.Updates([k], OneWrite(k, f))).Some?
    ensures D.Overwritten(rows, [k], OneWrite(k, f)) == if f.save.Some? then rows[k := f.save.value] else rows
  {
    D.UpdatesSucceed(rows, [k], OneWrite(k, f));
  }

  lemma QueryReads(m: Machine, i: nat, k: TxnKey, asked: FiscalKey, estado: string)
    requires k in m.rows && i !in m.writers
    ensures var q, f := Next(Next(m, Look(i, k)), StatusQuery(i, asked, estado)), Queried(m.rows[k], asked, estado);
            && q.rows == m.rows && q.live == m.live && q.history == m.history + f.told
            && i in q.writers && q.writers[i].keys == [k] && q.writers[i].write == OneWrite(k, f)
            && q.writers[i].kind.Single?
  {
    hide Queried;
  }

  lemma QueryWrites(m: Machine, i: nat, k: TxnKey, asked: FiscalKey, estado: string)
    requires D.UniqueNumbers(m.rows) && k in m.rows && i !in m.writers
    ensures var m', f := QueriedAtOnce(m, i, k, asked, estado), Queried(m.rows[k], asked, estado);
            && m'.live == m.live && m'.history == m.history + f.told
            && m'.rows == if f.save.Some? then m.rows[k := f.save.value] else m.rows
  {
    QueryReads(m, i, k, asked, estado);
    QueryKeepsNumber(m.rows[k], asked, estado);
    OneRowWrites(m.rows, k, Queried(m.rows[k], asked, estado));
    var q := Next(Next(m, Look(i, k)), StatusQuery(i, asked, estado));
    assert Next(q, Commit(i, true)) == Committed(q, i, true);
    hide Next, Queried, OneWrite, D.UniqueNumbers, D.ExecuteAll, D.Updates, D.Overwritten, Touched;
  }

  lemma QueryKeepsNumber(d: Doc, asked: FiscalKey, estado: string)
    ensures var f := Queried(d, asked, estado);
            && (f.save.Some? ==> f.save.value == d.(state := Mapped(estado)))
            && (f.told == [] || f.told == QueryEvents(asked, estado))
            && (f.save.Some? ==> f.told == QueryEvents(asked, estado))
            && forall e :: e in f.told ==> !e.Sent?
  {
    hide Denied;
  }

  /** An answer to a status query releases the number it asked about, if it is a rejection. */
  lemma QueryReleases(asked: FiscalKey, estado: string, n: FiscalKey)
    ensures (exists e :: e in QueryEvents(asked, estado) && Releases(e, n)) <==>
            Mapped(estado).RejectedByDgii? && asked == n
  {
    hide Mapped;
    var es := QueryEvents(asked, estado);
    if Mapped(estado).RejectedByDgii? {
      assert es[0] in es && es[0] == Rejected(asked);
      assert asked == n ==> Releases(es[0], n);
    }
  }

  lemma SafeIsUnique(m: Machine)
    requires Safe(m)
    ensures D.UniqueNumbers(m.rows)
  {
  }

  /** One row written over under its own number: safe exactly when that is not outstanding, or not rejected by it. */
  lemma StoredIsSafeIff(m: Machine, m': Machine, k: TxnKey, w: Doc)
    requires Safe(m) && k in m.rows && m'.live == m.live && m'.history == m.history && m'.rows == m.rows[k := w]
    requires KeyOf(k, w) == KeyOf(k, m.rows[k]) && (k in m.live ==> PhaseSafe(m', k, m.live[k]))
    ensures Safe(m') <==> Transmitted(w.state) || !Pending(m.history, KeyOf(k, m.rows[k]))
  {
    hide PhaseSafe, Disciplined, Pending;
    if Transmitted(w.state) || !Pending(m.history, KeyOf(k, m.rows[k])) {
      TouchOne(m, m', k);
    } else {
      assert Safe(m') ==> Covered(m', KeyOf(k, m.rows[k]));
    }
  }

  /**
   Exactly when a status query on a row that no submission holds is safe, whatever number and
   environment it asks about.
   */
  lemma QueryIsSafeIff(m: Machine, i: nat, k: TxnKey, asked: FiscalKey, estado: string)
    requires Safe(m) && k in m.rows && Clear(m, k) && i !in m.writers
    ensures Safe(QueriedAtOnce(m, i, k, asked, estado)) <==>
            || Queried(m.rows[k], asked, estado).save.None?
            || !Mapped(estado).RejectedByDgii?
            || asked == KeyOf(k, m.rows[k])
            || !Pending(m.history, KeyOf(k, m.rows[k]))
  {
    hide Next, Safe, PhaseSafe, Queried, QueriedAtOnce, Pending, Mapped;
    var f, m' := Queried(m.rows[k], asked, estado), QueriedAtOnce(m, i, k, asked, estado);
    assert D.UniqueNumbers(m.rows) by { SafeIsUnique(m); }
    QueryWrites(m, i, k, asked, estado);
    QueryKeepsNumber(m.rows[k], asked, estado);
    SafeTellAll(m, f.told);
    PendingIsTransmitted(m, k);
    if k in m.live {
      EarlyNeedsNothing(m, m', k);
    }
    MappedIsTransmitted(estado);
    QueryReleases(asked, estado, KeyOf(k, m.rows[k]));
    if f.save.None? {
      SafeReaders(m.(history := m.history + f.told), m'.writers);
    } else {
      StoredIsSafeIff(m.(history := m.history + f.told), m', k, f.save.value);
    }
  }

  lemma MappedIsTransmitted(estado: string)
    ensures !NeverTransmitted(Mapped(estado))
  {
  }

  /** What the caller can check: it asked about the row's number, got no rejection, or the row was never transmitted. */
  lemma QueryGuard(m: Machine, i: nat, k: TxnKey, asked: FiscalKey, estado: string)
    requires Safe(m) && k in m.rows && Clear(m, k) && i !in m.writers
    requires asked == KeyOf(k, m.rows[k]) || !Mapped(estado).RejectedByDgii? || NeverTransmitted(m.rows[k].state)
    ensures Safe(QueriedAtOnce(m, i, k, asked, estado))
  {
    hide Safe, QueriedAtOnce, Pending, Queried;
    PendingIsTransmitted(m, k);
    QueryIsSafeIff(m, i, k, asked, estado);
  }

  // ---- Whole runs -------------------------------------------------------------------------

  lemma VerdictsTell(k: TxnKey, d: Doc, l: Label, now: int, o: R.Options, a: R.Answer)
    ensures l.Refresh? ==> forall e :: e in Refreshed(k, d, l.resultado, l.estado, l.track).told ==> !e.Sent?
    ensures forall e :: e in BatchEvents(k, d, now, o, a) ==> !e.Sent?
  {
    hide Estado.Read, R.Verdict, R.Aged;
  }

  lemma SafeNext(m: Machine, l: Label)
    requires Safe(m) && Guarded(m, l)
    ensures Safe(Next(m, l))
  {
    hide Safe, Guarded, Continue, Enact, Refreshed, Queried, BatchEvents, R.Checked,
      R.IsDueBatch, Committed, Complete, Opened;
    match l {
      case Begin(req) => if req.key !in m.live { SafeBegin(m, req); }
      case Advance(k, c) => if k in m.live { SafeContinue(m, k, c); }
      case Crash(k) => SafeStop(m, k);
      case Look(i, k) => if i !in m.writers && k in m.rows { SafeReaders(m, m.writers[i := Opened(m, [k], Single)]); }
      case Refresh(i, resultado, estado, track) =>
        if i in m.writers && OneRow(m.writers[i]) { SafeRefreshed(m, l); }
      case StatusQuery(i, asked, estado) =>
        if i in m.writers && OneRow(m.writers[i]) { SafeQueried(m, l); }
      case Fetch(i, now, o, due) =>
        if i !in m.writers && R.IsDueBatch(m.rows, now, o, due) { SafeReaders(m, Next(m, l).writers); }
      case Hear(i, k, a) =>
        if i in m.writers && m.writers[i].kind.Batch? && k in m.writers[i].read { SafeHear(m, l); }
      case Commit(i, connected) => if i in m.writers { SafeCommitted(m, i, connected); }
      case Adjudicate(n) => SafeTell(m, Accepted(n));
    }
  }

  lemma SafeBegin(m: Machine, req: Req)
    requires Safe(m)
    ensures Safe(Enact(m, req.key, Go(Lookup(req, false))))
  {
    SafeGo(m, req.key, Lookup(req, false));
  }

  lemma SafeRefreshed(m: Machine, l: Label)
    requires Safe(m) && l.Refresh? && l.id in m.writers && OneRow(m.writers[l.id])
    ensures Safe(Next(m, l))
  {
    hide Safe, Refreshed, Estado.Read;
    var w := m.writers[l.id];
    var f := Refreshed(w.keys[0], w.read[w.keys[0]], l.resultado, l.estado, l.track);
    VerdictsTell(w.keys[0], w.read[w.keys[0]], l, 0, R.Options(0, 0, 0), R.Answer(None, None));
    SafeHeard(m, l.id, OneWrite(w.keys[0], f), f.told);
  }

  lemma SafeQueried(m: Machine, l: Label)
    requires Safe(m) && l.StatusQuery? && l.id in m.writers && OneRow(m.writers[l.id])
    ensures Safe(Next(m, l))
  {
    hide Safe, Queried;
    var w := m.writers[l.id];
    var f := Queried(w.read[w.keys[0]], l.asked, l.estado);
    QueryKeepsNumber(w.read[w.keys[0]], l.asked, l.estado);
    SafeHeard(m, l.id, OneWrite(w.keys[0], f), f.told);
  }

  lemma SafeHear(m: Machine, l: Label)
    requires Safe(m) && l.Hear? && l.id in m.writers && m.writers[l.id].kind.Batch? && l.key in m.writers[l.id].read
    ensures Safe(Next(m, l))
  {
    hide Safe, BatchEvents, R.Checked;
    var w := m.writers[l.id];
    VerdictsTell(l.key, w.read[l.key], l, w.kind.now, w.kind.options, l.answer);
    SafeHeard(m, l.id, w.write[l.key := R.Checked(w.read[l.key], w.kind.now, w.kind.options, l.answer)],
              BatchEvents(l.key, w.read[l.key], w.kind.now, w.kind.options, l.answer));
  }

  /** Every commit of a refresh, status query or pass along the run spares the rows it writes. */
  predicate AllGuarded(m: Machine, ls: seq<Label>)
    decreases |ls|
  {
    ls == [] || (Guarded(m, ls[0]) && AllGuarded(Next(m, ls[0]), ls[1..]))
  }

  lemma {:induction false} AllGuardedConcat(m: Machine, a: seq<Label>, b: seq<Label>)
    ensures AllGuarded(m, a + b) <==> AllGuarded(m, a) && AllGuarded(Run(m, a), b)
    decreases |a|
  {
    if a == [] {
      assert a + b == b;
    } else {
      assert (a + b)[1..] == a[1..] + b;
      AllGuardedConcat(Next(m, a[0]), a[1..], b);
    }
  }

  lemma {:induction false} SafeRun(m: Machine, ls: seq<Label>)
    requires Safe(m) && AllGuarded(m, ls)
    ensures Safe(Run(m, ls))
    decreases |ls|
  {
    if ls != [] {
      SafeNext(m, ls[0]);
      SafeRun(Next(m, ls[0]), ls[1..]);
    }
  }

  /** Send discipline, for every run of any submissions, crashes, failed saves and answers. */
  lemma SendDiscipline(ls: seq<Label>)
    requires AllGuarded(START, ls)
    ensures Disciplined(Run(START, ls).history)
    ensures D.UniqueNumbers(Run(START, ls).rows)
  {
    SafeRun(START, ls);
  }
}
