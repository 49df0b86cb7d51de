/** Runs that show why the hypotheses of the issuance theorems cannot be dropped. */
module IssuanceLimits {
  import opened Wrappers
  import opened Documents
  import opened Issuance
  import opened IssuancePlacement
  import opened IssuanceSafety
  import opened IssuanceOutstanding
  import opened IssuanceIssuer
  import D = DbContext
  import R = Reconciler

  const SIGNATURE := "abcdef"

  function Transmit(k: TxnKey, answer: Choice): seq<Label> {
    [Advance(k, Signature(SIGNATURE, true, false)), Advance(k, Proceed), Advance(k, answer), Advance(k, Proceed)]
  }

  /** A first submission up to its final save. */
  function FirstSubmission(req: Req, encf: string, answer: Choice): seq<Label> {
    [Begin(req), Advance(req.key, Proceed), Advance(req.key, Number(encf)), Advance(req.key, Proceed)]
    + Transmit(req.key, answer)
  }

  /** A resubmission of an uncertain row whose number DGII does not know. */
  function Resubmission(req: Req, answer: Choice): seq<Label> {
    [Begin(req), Advance(req.key, Proceed), Advance(req.key, Answer("", "", 0)), Advance(req.key, Proceed)]
    + Transmit(req.key, answer)
  }

  /** A submission of a rejected row, which draws a fresh number. */
  function Reissue(req: Req, encf: string, answer: Choice): seq<Label> {
    [Begin(req), Advance(req.key, Proceed), Advance(req.key, Number(encf)), Advance(req.key, Proceed)]
    + Transmit(req.key, answer)
  }

  function SignedDoc(d: Doc): Doc {
    d.(payload := Some(Sealed(d.xml, SIGNATURE)), code := Some(SIGNATURE[..6]), state := AwaitingTransmission)
  }

  function Answered(d: Doc, answer: Choice): Doc {
    match Outcome(SignedDoc(d), answer)
    case Some(o) => o.0
    case None => SignedDoc(d).(state := Uncertain)
  }

  function AnswerEvents(k: TxnKey, d: Doc, answer: Choice): seq<Event> {
    AfterPosting(k, Req(k, "", d.rnc, "", 0.0), SignedDoc(d), answer).told
  }

  /** The submission of `k` as one effect: its final row, and what it told DGII on the way. */
  function Settled(m: Machine, k: TxnKey, d: Doc, answer: Choice): Machine {
    Enact(m, k, Effect(Some(Answered(d, answer)), AnswerEvents(k, d, answer), None))
  }

  function Both(e: Effect, f: Effect): Effect {
    Effect(if f.save.Some? then f.save else e.save, e.told + f.told, f.next)
  }

  lemma TouchedTwice(ws: Writers, ks: set<TxnKey>)
    ensures Touched(Touched(ws, ks), ks) == Touched(ws, ks)
  {
    forall i | i in ws ensures Touched(Touched(ws, ks), ks)[i] == Touched(ws, ks)[i] {
      assert (ws[i].current - ks) - ks == ws[i].current - ks;
    }
  }

  lemma EnactBoth(m: Machine, k: TxnKey, e: Effect, f: Effect)
    ensures Enact(Enact(m, k, e), k, f) == Enact(m, k, Both(e, f))
  {
    assert (m.history + e.told) + f.told == m.history + (e.told + f.told);
    TouchedTwice(m.writers, {k});
  }

  /** One more step of the live submission, on top of what it has done so far. */
  lemma StepOn(m: Machine, k: TxnKey, e: Effect, c: Choice, f: Effect)
    requires e.next.Some?
    requires Continue(Enact(m, k, e).rows, k, e.next.value, c) == f
    ensures Next(Enact(m, k, e), Advance(k, c)) == Enact(m, k, Both(e, f))
  {
    EnactBoth(m, k, e, f);
  }

  lemma RunOne(m: Machine, l: Label, ls: seq<Label>)
    ensures Run(m, [l] + ls) == Run(Next(m, l), ls)
    ensures AllConditional(m, [l] + ls) <==> Conditional(m, l) && AllConditional(Next(m, l), ls)
    ensures AllGuarded(m, [l] + ls) <==> Guarded(m, l) && AllGuarded(Next(m, l), ls)
  {
    assert ([l] + ls)[1..] == ls;
  }

  lemma RunFour(m: Machine, a: Label, b: Label, c: Label, d: Label)
    ensures Run(m, [a, b, c, d]) == Next(Next(Next(Next(m, a), b), c), d)
  {
    assert [a, b, c, d] == [a] + ([b] + ([c] + ([d] + [])));
    RunOne(m, a, [b] + ([c] + ([d] + [])));
    RunOne(Next(m, a), b, [c] + ([d] + []));
    RunOne(Next(Next(m, a), b), c, [d] + []);
    RunOne(Next(Next(Next(m, a), b), c), d, []);
  }

  /** The signed document is durable. */
  function Posted(req: Req, d: Doc, told: seq<Event>): Effect {
    Effect(Some(SignedDoc(d)), told, Some(Posting(req, SignedDoc(d))))
  }

  lemma SealRun(m: Machine, k: TxnKey, req: Req, d: Doc, told: seq<Event>)
    requires d.state.SequenceAllocated? && D.NumberFree(m.rows, k, KeyOf(k, d))
    ensures Next(Next(Enact(m, k, Effect(Some(d), told, Some(Signing(req, d)))),
                      Advance(k, Signature(SIGNATURE, true, false))),
                 Advance(k, Proceed)) == Enact(m, k, Posted(req, d, told))
  {
    hide Next;
    var e0 := Effect(Some(d), told, Some(Signing(req, d)));
    var sealed := SignedDoc(d);
    StepOn(m, k, e0, Signature(SIGNATURE, true, false), Go(Saving(req, sealed, ThenPost)));
    var e1 := Both(e0, Go(Saving(req, sealed, ThenPost)));
    StepOn(m, k, e1, Proceed, Effect(Some(sealed), [], Some(Posting(req, sealed))));
    assert told + [] + [] == told;
  }

  lemma AnswerRun(m: Machine, k: TxnKey, req: Req, d: Doc, told: seq<Event>, answer: Choice)
    requires !answer.NotPosted? && D.NumberFree(m.rows, k, KeyOf(k, d))
    ensures Next(Next(Enact(m, k, Posted(req, d, told)), Advance(k, answer)), Advance(k, Proceed)) ==
            Enact(m, k, Effect(Some(Answered(d, answer)), told + AnswerEvents(k, d, answer), None))
  {
    hide Next;
    var e2 := Posted(req, d, told);
    OutcomeFits(SignedDoc(d), answer);
    StepOn(m, k, e2, answer,
           Effect(None, AnswerEvents(k, d, answer), Some(Saving(req, Answered(d, answer), ThenStop))));
    var e3 := Both(e2, Effect(None, AnswerEvents(k, d, answer), Some(Saving(req, Answered(d, answer), ThenStop))));
    StepOn(m, k, e3, Proceed, Effect(Some(Answered(d, answer)), [], None));
    assert e3.told + [] == told + AnswerEvents(k, d, answer);
  }

  /** Signing, saving, posting and recording, with nothing in the way. */
  lemma TransmitRun(m: Machine, k: TxnKey, req: Req, d: Doc, told: seq<Event>, answer: Choice)
    requires d.state.SequenceAllocated? && !answer.NotPosted?
    requires D.NumberFree(m.rows, k, KeyOf(k, d))
    ensures Run(Enact(m, k, Effect(Some(d), told, Some(Signing(req, d)))), Transmit(k, answer)) ==
            Enact(m, k, Effect(Some(Answered(d, answer)), told + AnswerEvents(k, d, answer), None))
  {
    hide Next, Enact, Run, Posted, Answered, AnswerEvents;
    SealRun(m, k, req, d, told);
    AnswerRun(m, k, req, d, told, answer);
    RunFour(Enact(m, k, Effect(Some(d), told, Some(Signing(req, d)))),
            Advance(k, Signature(SIGNATURE, true, false)), Advance(k, Proceed), Advance(k, answer),
              Advance(k, Proceed));
  }

  lemma Begins(m: Machine, req: Req)
    requires req.key !in m.live
    ensures Next(m, Begin(req)) == Enact(m, req.key, Go(Lookup(req, false)))
  {
  }

  /** From the arrival of a request to the point where it signs. */
  lemma OpeningRun(m: Machine, req: Req, p: Phase, c: Choice, told: seq<Event>, q: Phase, d: Doc)
    requires req.key !in m.live
    requires Continue(m.rows, req.key, Lookup(req, false), Proceed) == Go(p)
    requires Continue(m.rows, req.key, p, c) == Effect(None, told, Some(q))
    requires Continue(m.rows, req.key, q, Proceed) == Effect(Some(d), [], Some(Signing(req, d)))
    ensures Run(m, [Begin(req), Advance(req.key, Proceed), Advance(req.key, c), Advance(req.key, Proceed)]) ==
            Enact(m, req.key, Effect(Some(d), told, Some(Signing(req, d))))
  {
    hide Run, Next, Continue;
    var k := req.key;
    var e0 := Go(Lookup(req, false));
    Begins(m, req);
    StepOn(m, k, e0, Proceed, Go(p));
    var e1 := Both(e0, Go(p));
    StepOn(m, k, e1, c, Effect(None, told, Some(q)));
    var e2 := Both(e1, Effect(None, told, Some(q)));
    StepOn(m, k, e2, Proceed, Effect(Some(d), [], Some(Signing(req, d))));
    assert e2.told + [] == told;
    RunFour(m, Begin(req), Advance(k, Proceed), Advance(k, c), Advance(k, Proceed));
  }

  /** And on to its final save. */
  lemma WholeRun(m: Machine, req: Req, p: Phase, c: Choice, told: seq<Event>, q: Phase, d: Doc, answer: Choice)
    requires req.key !in m.live && !answer.NotPosted?
    requires Continue(m.rows, req.key, Lookup(req, false), Proceed) == Go(p)
    requires Continue(m.rows, req.key, p, c) == Effect(None, told, Some(q))
    requires Continue(m.rows, req.key, q, Proceed) == Effect(Some(d), [], Some(Signing(req, d)))
    requires d.state.SequenceAllocated? && D.NumberFree(m.rows, req.key, KeyOf(req.key, d))
    ensures Run(m, [Begin(req), Advance(req.key, Proceed), Advance(req.key, c), Advance(req.key, Proceed)]
                   + Transmit(req.key, answer)) ==
            Enact(m, req.key, Effect(Some(Answered(d, answer)), told + AnswerEvents(req.key, d, answer), None))
  {
    hide Run, Enact, Continue, Answered, AnswerEvents, Transmit;
    var k := req.key;
    OpeningRun(m, req, p, c, told, q, d);
    RunConcat(m, [Begin(req), Advance(k, Proceed), Advance(k, c), Advance(k, Proceed)], Transmit(k, answer));
    TransmitRun(m, k, req, d, told, answer);
  }

  lemma FirstSubmissionRun(m: Machine, req: Req, encf: string, answer: Choice)
    requires req.key !in m.rows && req.key !in m.live && !answer.NotPosted?
    requires D.NumberFree(m.rows, req.key, FiscalKey(req.rnc, req.key.amb, encf))
    ensures Run(m, FirstSubmission(req, encf, answer)) == Settled(m, req.key, NewDoc(encf, req), answer)
  {
    var d := NewDoc(encf, req);
    WholeRun(m, req, Drawing(req), Number(encf), [], Inserting(req, d), d, answer);
    assert [] + AnswerEvents(req.key, d, answer) == AnswerEvents(req.key, d, answer);
  }

  lemma ReissueRun(m: Machine, req: Req, encf: string, answer: Choice)
    requires req.key in m.rows && m.rows[req.key].state.RejectedByDgii? && req.key !in m.live && !answer.NotPosted?
    requires D.NumberFree(m.rows, req.key, FiscalKey(req.rnc, req.key.amb, encf))
    ensures Run(m, Reissue(req, encf, answer)) == Settled(m, req.key, Reissued(m.rows[req.key], req, encf), answer)
  {
    var d := Reissued(m.rows[req.key], req, encf);
    WholeRun(m, req, Redrawing(req, m.rows[req.key]), Number(encf), [], Saving(req, d, ThenSign), d, answer);
    assert [] + AnswerEvents(req.key, d, answer) == AnswerEvents(req.key, d, answer);
  }

  lemma ResubmissionRun(m: Machine, req: Req, answer: Choice)
    requires req.key in m.rows && m.rows[req.key].state.Uncertain? && req.key !in m.live && !answer.NotPosted?
    requires D.NumberFree(m.rows, req.key, FiscalKey(req.rnc, req.key.amb, m.rows[req.key].encf))
    ensures var d := m.rows[req.key];
            Run(m, Resubmission(req, answer)) ==
            Enact(m, req.key, Effect(Some(Answered(Apply(d, req), answer)),
                                     [Missing(KeyOf(req.key, d))] + AnswerEvents(req.key, Apply(d, req), answer), None))
  {
    var d := m.rows[req.key];
    WholeRun(m, req, Asking(req, d), Answer("", "", 0), [Missing(KeyOf(req.key, d))],
               Saving(req, Apply(d, req), ThenSign), Apply(d, req), answer);
  }

  /** Both numbers went out for one transaction and DGII holds both as accepted. */
  ghost predicate AcceptedTwice(h: seq<Event>, k: TxnKey, a: FiscalKey, b: FiscalKey) {
    a.encf != b.encf && Sent(k, a) in h && Sent(k, b) in h && Accepted(a) in h && Accepted(b) in h
  }

  const TXN := TxnKey("t", "1", "Certificacion")
  const ACK := Received("track", "", "", 0)

  /** DGII's own record of two acceptances, appended to a run. */
  lemma Adjudicated(m: Machine, a: FiscalKey, b: FiscalKey)
    ensures Run(m, [Adjudicate(a), Adjudicate(b)]) == m.(history := m.history + [Accepted(a), Accepted(b)])
  {
    assert [Adjudicate(a), Adjudicate(b)] == [Adjudicate(a)] + ([Adjudicate(b)] + []);
    RunOne(m, Adjudicate(a), [Adjudicate(b)] + []);
    RunOne(Next(m, Adjudicate(a)), Adjudicate(b), []);
    assert m.history + [Accepted(a), Accepted(b)] == m.history + [Accepted(a)] + [Accepted(b)];
  }

  // ---- Stages for a row alone in the table; the labels of a stage stay hidden ---------------

  predicate Alone(m: Machine, d: Doc, h: seq<Event>) {
    m == Machine(map[TXN := d], map[], h, map[])
  }

  /** Submissions by one issuer, and no status query. */
  predicate Unqueried(ls: seq<Label>, rnc: string) {
    forall l :: l in ls ==> !l.StatusQuery? && (l.Begin? ==> l.req.rnc == rnc)
  }

  /** Nothing that commits or answers a status query. */
  predicate Inward(ls: seq<Label>) {
    forall l :: l in ls ==> !l.StatusQuery? && !l.Commit?
  }

  const BIG := 300000.0
  const A := FiscalKey("1", TXN.amb, "E31")

  const FIRST := Req(TXN, "", "1", "", BIG)

  lemma FirstAnswered(answer: Choice)
    requires answer == ACK || answer == Lost
    ensures var d := NewDoc("E31", FIRST);
            && KeyOf(TXN, Answered(d, answer)) == A && AnswerEvents(TXN, d, answer) == [Sent(TXN, A)]
            && Answered(d, answer).state == if answer == Lost then Uncertain else State.Signed
    ensures var d := Answered(NewDoc("E31", FIRST), answer);
            && d.lastCheck.None? && d.track == (if answer == ACK then Some("track") else None)
            && d.sentAt == if answer == ACK then Some(0) else None
  {
  }

  lemma FirstIsUnqueried(answer: Choice)
    ensures Unqueried(FirstSubmission(FIRST, "E31", answer), "1") && Inward(FirstSubmission(FIRST, "E31", answer))
  {
  }

  lemma FirstStage(answer: Choice) returns (ls: seq<Label>, d: Doc)
    requires answer == ACK || answer == Lost
    ensures Alone(Run(START, ls), d, [Sent(TXN, A)]) && KeyOf(TXN, d) == A
    ensures d.state == if answer == Lost then Uncertain else State.Signed
    ensures d.lastCheck.None? && d.track == (if answer == ACK then Some("track") else None)
    ensures d.sentAt == if answer == ACK then Some(0) else None
    ensures Unqueried(ls, "1") && Inward(ls)
  {
    hide Run, Next, Answered, AnswerEvents, FirstSubmission, NewDoc, Unqueried, Inward;
    ls, d := FirstSubmission(FIRST, "E31", answer), Answered(NewDoc("E31", FIRST), answer);
    FirstSubmissionRun(START, FIRST, "E31", answer);
    FirstAnswered(answer);
    FirstIsUnqueried(answer);
    assert Touched(map[], {TXN}) == map[];
  }

  /** A rejected row goes out again under a fresh number; readers go on reading. */
  lemma ReissueStage(m: Machine, d: Doc, rnc: string, encf: string) returns (ls: seq<Label>, d': Doc)
    requires m.rows == map[TXN := d] && m.live == map[] && d.state.RejectedByDgii?
    ensures var n := FiscalKey(rnc, TXN.amb, encf);
            && Run(m, ls) == Machine(map[TXN := d'], map[], m.history + [Sent(TXN, n)], Touched(m.writers, {TXN}))
            && KeyOf(TXN, d') == n
    ensures Unqueried(ls, rnc) && Inward(ls)
  {
    hide Run, Answered, AnswerEvents, Reissued, Unqueried, Inward, Reissue;
    var req := Req(TXN, "", rnc, "", BIG);
    ls, d' := Reissue(req, encf, ACK), Answered(Reissued(d, req, encf), ACK);
    ReissueRun(m, req, encf, ACK);
    ReissueIsAcknowledged(d, req, encf);
    ReissueIsUnqueried(req, encf);
  }

  lemma ReissueIsAcknowledged(d: Doc, req: Req, encf: string)
    requires req.key == TXN && req.total == BIG
    ensures var r, n := Reissued(d, req, encf), FiscalKey(req.rnc, TXN.amb, encf);
            KeyOf(TXN, Answered(r, ACK)) == n && AnswerEvents(TXN, r, ACK) == [Sent(TXN, n)]
  {
  }

  lemma ReissueIsUnqueried(req: Req, encf: string)
    ensures Unqueried(Reissue(req, encf, ACK), req.rnc) && Inward(Reissue(req, encf, ACK))
  {
  }

  lemma RefusedStage(m: Machine, d: Doc, h: seq<Event>, rnc: string) returns (ls: seq<Label>, d': Doc)
    requires Alone(m, d, h) && d.state.Uncertain?
    ensures var n := FiscalKey(rnc, TXN.amb, d.encf);
            Alone(Run(m, ls), d', h + [Missing(KeyOf(TXN, d)), Sent(TXN, n), Rejected(n)])
    ensures d'.state.RejectedByDgii?
    ensures Unqueried(ls, rnc) && Inward(ls)
  {
    hide Run, Answered, AnswerEvents, Apply, Unqueried, Inward, Resubmission;
    var req := Req(TXN, "", rnc, "", BIG);
    ls, d' := Resubmission(req, REFUSED), Answered(Apply(d, req), REFUSED);
    ResubmissionRun(m, req, REFUSED);
    ResubmissionIsRefused(d, req);
    ResubmissionIsUnqueried(req);
    assert Touched(map[], {TXN}) == map[];
    var n := FiscalKey(rnc, TXN.amb, d.encf);
    assert [Missing(KeyOf(TXN, d))] + [Sent(TXN, n), Rejected(n)] ==
      [Missing(KeyOf(TXN, d)), Sent(TXN, n), Rejected(n)];
  }

  const REFUSED := Received("", "refused", "", 0)

  lemma ResubmissionIsRefused(d: Doc, req: Req)
    requires req.key == TXN && req.total == BIG
    ensures var r, n := Apply(d, req), FiscalKey(req.rnc, TXN.amb, d.encf);
            Answered(r, REFUSED).state.RejectedByDgii? && AnswerEvents(TXN, r, REFUSED) == [Sent(TXN, n), Rejected(n)]
  {
  }

  lemma ResubmissionIsUnqueried(req: Req)
    ensures Unqueried(Resubmission(req, REFUSED), req.rnc) && Inward(Resubmission(req, REFUSED))
  {
  }

  lemma AdjudicateStage(m: Machine, a: FiscalKey, b: FiscalKey) returns (ls: seq<Label>)
    ensures Run(m, ls).history == m.history + [Accepted(a), Accepted(b)]
    ensures forall l :: l in ls ==> l.Adjudicate?
  {
    ls := [Adjudicate(a), Adjudicate(b)];
    Adjudicated(m, a, b);
  }

  /** A reader of the only row. */
  function Reader(d: Doc, current: set<TxnKey>): Writer {
    Writer([TXN], map[TXN := d], map[], current, Single)
  }

  lemma LooksAlone(m: Machine, i: nat, d: Doc)
    requires m.rows == map[TXN := d] && i !in m.writers
    ensures Next(m, Look(i, TXN)) == m.(writers := m.writers[i := Reader(d, if Clear(m, TXN) then {TXN} else {})])
  {
    assert R.Snapshot(m.rows, [TXN]) == map[TXN := d];
    assert Opened(m, [TXN], Single).current == if Clear(m, TXN) then {TXN} else {};
  }

  lemma QuerySteps(m: Machine, d: Doc, asked: FiscalKey)
    requires Alone(m, d, m.history) && d.state == State.Signed && asked.encf == d.encf && asked.rnc == d.rnc
    ensures var q := Next(Next(m, Look(0, TXN)), StatusQuery(0, asked, "Rechazado"));
            && Conditional(q, Commit(0, true))
            && Alone(Next(q, Commit(0, true)), d.(state := RejectedByDgii), m.history + [Rejected(asked)])
  {
    LooksAlone(m, 0, d);
    var f := Finding(Some(d.(state := RejectedByDgii)), [Rejected(asked)]);
    assert Queried(d, asked, "Rechazado") == f;
    hide Queried;
    var w := Reader(d, {TXN}).(write := map[TXN := f.save.value]);
    var q := m.(history := m.history + f.told, writers := map[0 := w]);
    assert Next(Next(m, Look(0, TXN)), StatusQuery(0, asked, "Rechazado")) == q;
    CommitAlone(q, 0, d, f.save.value);
  }

  /** The commit of a writer of the only row. */
  lemma CommitAlone(m: Machine, i: nat, d: Doc, over: Doc)
    requires m.rows == map[TXN := d] && i in m.writers
    requires m.writers[i].keys == [TXN] && m.writers[i].write == map[TXN := over]
    ensures Next(m, Commit(i, true)) == m.(rows := map[TXN := over], writers := Touched(m.writers - {i}, {TXN}))
    ensures Complete(m.writers[i]) && D.ExecuteAll(m.rows, D.Updates([TXN], m.writers[i].write)).Some?
  {
    var write := map[TXN := over];
    assert D.Updates([TXN], write) == [D.Update(TXN, over)] by { assert [TXN][1..] == []; }
    assert D.Execute(m.rows, D.Update(TXN, over)) == Some(m.rows[TXN := over]);
    assert [D.Update(TXN, over)][1..] == [];
    assert D.ExecuteAll(m.rows, D.Updates([TXN], write)).Some?;
    assert Complete(m.writers[i]);
    assert D.Overwritten(m.rows, [TXN], write) == map[TXN := over];
    assert write.Keys == {TXN};
  }

  lemma RunThree(m: Machine, a: Label, b: Label, c: Label)
    ensures Run(m, [a, b, c]) == Next(Next(Next(m, a), b), c)
    ensures AllConditional(m, [a, b, c]) <==>
            Conditional(m, a) && Conditional(Next(m, a), b) && Conditional(Next(Next(m, a), b), c)
    ensures AllGuarded(m, [a, b, c]) <==> Guarded(m, a) && Guarded(Next(m, a), b) && Guarded(Next(Next(m, a), b), c)
  {
    hide Next, Conditional, Guarded;
    assert [a, b, c] == [a] + ([b] + ([c] + []));
    RunOne(m, a, [b] + ([c] + []));
    RunOne(Next(m, a), b, [c] + []);
    RunOne(Next(Next(m, a), b), c, []);
  }

  /** A status query with the row to itself. */
  lemma QueryStage(m: Machine, d: Doc, asked: FiscalKey) returns (ls: seq<Label>)
    requires Alone(m, d, m.history) && d.state == State.Signed && asked.encf == d.encf && asked.rnc == d.rnc
    ensures Alone(Run(m, ls), d.(state := RejectedByDgii), m.history + [Rejected(asked)])
    ensures AllConditional(m, ls) && forall l :: l in ls ==> !l.Begin?
  {
    hide Next, Run, Alone;
    ls := [Look(0, TXN), StatusQuery(0, asked, "Rechazado"), Commit(0, true)];
    QuerySteps(m, d, asked);
    RunThree(m, Look(0, TXN), StatusQuery(0, asked, "Rechazado"), Commit(0, true));
  }

  lemma FourStages(p: seq<Label>, q: seq<Label>, r: seq<Label>, s: seq<Label>)
    ensures Run(START, p + q + r + s) == Run(Run(Run(Run(START, p), q), r), s)
    ensures AllConditional(START, p + q + r + s) <==>
            && AllConditional(START, p) && AllConditional(Run(START, p), q)
            && AllConditional(Run(Run(START, p), q), r) && AllConditional(Run(Run(Run(START, p), q), r), s)
  {
    RunConcat(START, p + q + r, s);
    RunConcat(START, p + q, r);
    RunConcat(START, p, q);
    AllConditionalConcat(START, p + q + r, s);
    AllConditionalConcat(START, p + q, r);
    AllConditionalConcat(START, p, q);
  }

  lemma TwiceAccepted(h: seq<Event>, before: seq<Event>, x: FiscalKey, a: FiscalKey, b: FiscalKey)
    requires h == before + [Sent(TXN, b), Accepted(a), Accepted(b)]
    requires |before| > 0 && before[0] == Sent(TXN, a) && before[|before| - 1] == Rejected(x)
    requires forall i :: 0 <= i < |before| - 1 ==> !before[i].Rejected? && !before[i].Accepted?
    requires a.encf != b.encf && x != a && x != b
    ensures AcceptedTwice(h, TXN, a, b) && RejectionIsFinal(h)
  {
    var n := |before|;
    assert h[0] == Sent(TXN, a) && h[n] == Sent(TXN, b) && h[n + 1] == Accepted(a) && h[n + 2] == Accepted(b);
    forall i | 0 <= i < |h| ensures h[i].Rejected? ==> h[i].number == x
    {
      assert i < n ==> h[i] == before[i];
    }
    forall i | 0 <= i < |h| ensures h[i].Accepted? ==> h[i].number != x
    {
      assert i < n ==> h[i] == before[i];
    }
  }

  /** A status query put to another environment lets one transaction own two accepted numbers. */
  lemma UnmatchedQueryBreaksSingleNumber() returns (ls: seq<Label>, b: FiscalKey)
    ensures AllConditional(START, ls) && SteadyIssuer(ls, _ => "1") && RejectionIsFinal(Run(START, ls).history)
    ensures AcceptedTwice(Run(START, ls).history, TXN, A, b)
  {
    hide Unqueried, Inward, Run, AllConditional, AllRejectTheirRow, AllGuarded, RejectionIsFinal, AcceptedTwice;
    var elsewhere := FiscalKey("1", "Produccion", "E31");
    b := FiscalKey("1", TXN.amb, "E41");
    var p, d := FirstStage(ACK);
    var q := QueryStage(Run(START, p), d, elsewhere);
    var before := [Sent(TXN, A)] + [Rejected(elsewhere)];
    var r, d' := ReissueStage(Run(Run(START, p), q), d.(state := RejectedByDgii), "1", "E41");
    var s := AdjudicateStage(Run(Run(Run(START, p), q), r), A, b);
    FourStages(p, q, r, s);
    ls := p + q + r + s;
    UnqueriedIsSteady(p, "1");
    UnqueriedIsSteady(r, "1");
    InwardIsConditional(START, p);
    InwardIsConditional(Run(Run(START, p), q), r);
    InwardAdjudicates(s);
    InwardIsConditional(Run(Run(Run(START, p), q), r), s);
    assert before + [Sent(TXN, b)] + [Accepted(A), Accepted(b)] == before + [Sent(TXN, b), Accepted(A), Accepted(b)];
    TwiceAccepted(Run(START, ls).history, before, elsewhere, A, b);
  }

  /**
   The guard stands in for the freshness of numbers: a rejection from another environment and a draw
   of the very number that is still out send it twice, though updates are conditional.
   */
  lemma RepeatedDrawBreaksDiscipline() returns (ls: seq<Label>)
    ensures AllConditional(START, ls) && SteadyIssuer(ls, _ => "1")
    ensures !Disciplined(Run(START, ls).history)
    ensures exists n :: n != A && Run(START, ls).history == [Sent(TXN, A), Rejected(n), Sent(TXN, A)]
  {
    hide Unqueried, Inward, Run, AllConditional, AllRejectTheirRow, AllGuarded, Disciplined;
    var elsewhere := FiscalKey("1", "Produccion", "E31");
    var p, d := FirstStage(ACK);
    var q := QueryStage(Run(START, p), d, elsewhere);
    var r, d' := ReissueStage(Run(Run(START, p), q), d.(state := RejectedByDgii), "1", "E31");
    FourStages(p, q, r, []);
    ls := p + q + r + [];
    UnqueriedIsSteady(p, "1");
    UnqueriedIsSteady(r, "1");
    InwardIsConditional(START, p);
    InwardIsConditional(Run(Run(START, p), q), r);
    NothingMore(Run(Run(Run(START, p), q), r));
    SentAgain(elsewhere);
    assert Run(START, ls).history == [Sent(TXN, A), Rejected(elsewhere), Sent(TXN, A)];
  }

  lemma NothingMore(m: Machine)
    ensures Run(m, []) == m && AllConditional(m, [])
  {
  }

  lemma SentAgain(x: FiscalKey)
    requires x != A
    ensures !Disciplined([Sent(TXN, A), Rejected(x), Sent(TXN, A)])
  {
    var h := [Sent(TXN, A), Rejected(x), Sent(TXN, A)];
    assert h[0] == Sent(TXN, A) && h[2] == Sent(TXN, A);
    assert forall i :: 0 < i < 2 ==> !Releases(h[i], A);
  }

  lemma UnqueriedIsSteady(ls: seq<Label>, rnc: string)
    requires Unqueried(ls, rnc)
    ensures SteadyIssuer(ls, _ => rnc) && forall l :: l in ls && l.Begin? ==> l.req.rnc == rnc
  {
  }

  lemma InwardAdjudicates(ls: seq<Label>)
    requires forall l :: l in ls ==> l.Adjudicate?
    ensures Inward(ls)
  {
  }

  lemma {:induction false} InwardIsConditional(m: Machine, ls: seq<Label>)
    requires Inward(ls)
    ensures AllConditional(m, ls) && AllRejectTheirRow(m, ls) && AllGuarded(m, ls)
    decreases |ls|
  {
    if ls != [] {
      InwardIsConditional(Next(m, ls[0]), ls[1..]);
    }
  }

  /**
   A retry under another issuer does the same: DGII does not know the first number, rejects it for
   the second issuer only, and accepts it for the first one after all.
   */
  lemma ChangingIssuerBreaksSingleNumber() returns (ls: seq<Label>, b: FiscalKey)
    ensures AllConditional(START, ls) && AllRejectTheirRow(START, ls) && RejectionIsFinal(Run(START, ls).history)
    ensures AcceptedTwice(Run(START, ls).history, TXN, A, b)
  {
    hide Unqueried, Run, AllConditional, AllRejectTheirRow, AllGuarded, RejectionIsFinal, AcceptedTwice;
    var moved := FiscalKey("2", TXN.amb, "E31");
    b := FiscalKey("2", TXN.amb, "E41");
    var p, d := FirstStage(Lost);
    var q, d' := RefusedStage(Run(START, p), d, [Sent(TXN, A)], "2");
    var before := [Sent(TXN, A)] + [Missing(A), Sent(TXN, moved), Rejected(moved)];
    var r, d'' := ReissueStage(Run(Run(START, p), q), d', "2", "E41");
    var s := AdjudicateStage(Run(Run(Run(START, p), q), r), A, b);
    FourStages(p, q, r, s);
    ls := p + q + r + s;
    InwardIsConditional(START, ls);
    assert before + [Sent(TXN, b)] + [Accepted(A), Accepted(b)] == before + [Sent(TXN, b), Accepted(A), Accepted(b)];
    TwiceAccepted(Run(START, ls).history, before, moved, A, b);
  }
}
