/**
 What an unconditional UPDATE costs: a reconciler pass that commits after its row was written by
 somebody else, and a refresh that commits under a live submission or over a checked row. There is no
 status query, the issuer is steady, and DGII contradicts itself nowhere.
 */
module IssuanceLateCommits {
  import opened Wrappers
  import opened Documents
  import opened Issuance
  import opened IssuancePlacement
  import opened IssuanceSafety
  import opened IssuanceOutstanding
  import opened IssuanceIssuer
  import opened IssuanceLimits
  import opened IssuancePolling
  import Estado
  import R = Reconciler

  const OPTIONS := R.Options(0, 0, 1)

  /** The pass that read `d`, and by `current` whether the row is still as read. */
  function Pass(d: Doc, current: set<TxnKey>): Writers {
    map[0 := Writer([TXN], map[TXN := d], map[], current, Batch(0, OPTIONS))]
  }

  /** A row that a pass picks up and a refresh asks about by its track id. */
  predicate Pollable(d: Doc) {
    d.state == State.Signed && d.track == Some("track") && d.sentAt == Some(0) && d.lastCheck.None?
  }

  lemma FetchStage(m: Machine, d: Doc) returns (ls: seq<Label>)
    requires Alone(m, d, m.history) && Pollable(d)
    ensures Run(m, ls) == m.(writers := Pass(d, {TXN})) && Unqueried(ls, "1") && Inward(ls)
  {
    var fetch := Fetch(0, 0, OPTIONS, [TXN]);
    ls := [fetch] + [];
    RunOne(m, fetch, []);
    assert R.Due(d, 0, OPTIONS) && R.IsDueBatch(m.rows, 0, OPTIONS, [TXN]);
    assert R.Snapshot(m.rows, [TXN]) == map[TXN := d];
    assert Opened(m, [TXN], Batch(0, OPTIONS)).current == {TXN};
  }

  /** What DGII answers, in the words that the engine reads. */
  lemma Words()
    ensures Estado.Read("Aceptado") == Estado.Accepts && Estado.Read("Rechazado") == Estado.Rejects
    ensures Estado.Trim("Rechazado") == "Rechazado" && Estado.Trim("En proceso") == "En proceso"
    ensures Estado.Lower("Rechazado") == "rechazado" && Estado.Lower("En proceso") == "en proceso"
  {
    assert Estado.Lower("Aceptado") == "aceptado";
    assert Estado.Lower("Rechazado") == "rechazado";
    assert Estado.Lower("En proceso") == "en proceso";
  }

  lemma Asks(m: Machine, i: nat, w: Writer, text: string, number: string, f: Finding)
    requires i in m.writers && m.writers[i] == w && OneRow(w) && w.keys == [TXN]
    requires Refreshed(TXN, w.read[TXN], text, number, "") == f
    ensures Next(m, Refresh(i, text, number, "")) ==
            m.(history := m.history + f.told, writers := m.writers[i := w.(write := OneWrite(TXN, f))])
  {
    hide Refreshed;
  }

  lemma RefreshSteps(m: Machine, d: Doc, text: string, s: State, e: Event)
    requires m.rows == map[TXN := d] && m.live == map[] && m.writers == Pass(d, {TXN})
    requires Refreshed(TXN, d, text, "", "") == Finding(Some(d.(state := s)), [e])
    ensures var q := Next(Next(m, Look(1, TXN)), Refresh(1, text, "", ""));
            Next(q, Commit(1, true)) == Machine(map[TXN := d.(state := s)], map[], m.history + [e], Pass(d, {}))
  {
    hide Refreshed, Next, OneRow;
    LooksAlone(m, 1, d);
    var w := Reader(d, {TXN});
    OneRowReads(d, {TXN});
    Asks(m.(writers := m.writers[1 := w]), 1, w, text, "", Finding(Some(d.(state := s)), [e]));
    var q := m.(history := m.history + [e], writers := m.writers[1 := w.(write := map[TXN := d.(state := s)])]);
    assert m.writers[1 := w][1 := w.(write := map[TXN := d.(state := s)])] == q.writers;
    CommitAlone(q, 1, d, d.(state := s));
    assert q.writers - {1} == Pass(d, {TXN});
    assert Touched(Pass(d, {TXN}), {TXN}) == Pass(d, {}) by { assert {TXN} - {TXN} == {}; }
  }

  lemma OneRowReads(d: Doc, current: set<TxnKey>)
    ensures OneRow(Reader(d, current))
  {
  }

  lemma RefreshedByTrack(d: Doc, text: string)
    requires Pollable(d) && (text == "Aceptado" || text == "Rechazado")
    ensures Refreshed(TXN, d, text, "", "") ==
            if text == "Aceptado" then Finding(Some(d.(state := AcceptedByDgii)), [Accepted(KeyOf(TXN, d))])
            else Finding(Some(d.(state := RejectedByDgii)), [Rejected(KeyOf(TXN, d))])
  {
    Words();
    hide Estado.Read;
  }

  lemma RefreshStage(m: Machine, d: Doc, text: string) returns (ls: seq<Label>)
    requires m.rows == map[TXN := d] && m.live == map[] && m.writers == Pass(d, {TXN}) && Pollable(d)
    requires text == "Aceptado" || text == "Rechazado"
    ensures var s := if text == "Aceptado" then AcceptedByDgii else RejectedByDgii;
            var e := if text == "Aceptado" then Accepted(KeyOf(TXN, d)) else Rejected(KeyOf(TXN, d));
            Run(m, ls) == Machine(map[TXN := d.(state := s)], map[], m.history + [e], Pass(d, {}))
    ensures Unqueried(ls, "1")
  {
    hide Refreshed, Next, Run, Pollable;
    var s := if text == "Aceptado" then AcceptedByDgii else RejectedByDgii;
    var e := if text == "Aceptado" then Accepted(KeyOf(TXN, d)) else Rejected(KeyOf(TXN, d));
    RefreshedByTrack(d, text);
    ls := [Look(1, TXN), Refresh(1, text, "", ""), Commit(1, true)];
    RefreshSteps(m, d, text, s, e);
    RunThree(m, Look(1, TXN), Refresh(1, text, "", ""), Commit(1, true));
  }

  /** What the pass makes of the row it read. */
  function LateDoc(d: Doc, text: string): Doc {
    d.(state := if text == "Rechazado" then RejectedByDgii else State.Signed, lastCheck := Some(0),
       attempts := d.attempts + 1)
  }

  lemma LateAnswer(d: Doc, text: string)
    requires Pollable(d) && (text == "Rechazado" || text == "En proceso")
    ensures var a := R.Answer(Some(text), None);
            && R.Checked(d, 0, OPTIONS, a) == LateDoc(d, text)
            && BatchEvents(TXN, d, 0, OPTIONS, a) == if text == "Rechazado" then [Rejected(KeyOf(TXN, d))] else []
  {
    Words();
    hide Estado.Trim, Estado.Lower;
    assert R.StatusText(d, R.Answer(Some(text), None)) == Some(text);
  }

  lemma HearsLate(m: Machine, d: Doc, a: R.Answer)
    requires m.writers == Pass(d, {})
    ensures Next(m, Hear(0, TXN, a)) ==
            m.(history := m.history + BatchEvents(TXN, d, 0, OPTIONS, a),
               writers := map[0 := Pass(d, {})[0].(write := map[TXN := R.Checked(d, 0, OPTIONS, a)])])
  {
    hide R.Checked, BatchEvents;
  }

  /** The late pass hears its answer and writes its row over whatever is there. */
  lemma LateSteps(m: Machine, d: Doc, now: Doc, text: string)
    requires m.rows == map[TXN := now] && m.live == map[] && m.writers == Pass(d, {}) && Pollable(d)
    requires text == "Rechazado" || text == "En proceso"
    ensures var es := if text == "Rechazado" then [Rejected(KeyOf(TXN, d))] else [];
            Next(Next(m, Hear(0, TXN, R.Answer(Some(text), None))), Commit(0, true)) ==
            Machine(map[TXN := LateDoc(d, text)], map[], m.history + es, map[])
  {
    var a := R.Answer(Some(text), None);
    LateAnswer(d, text);
    HearsLate(m, d, a);
    hide Next, R.Checked, BatchEvents, Pollable, LateDoc;
    var w := Pass(d, {})[0].(write := map[TXN := LateDoc(d, text)]);
    var q := m.(history := m.history + BatchEvents(TXN, d, 0, OPTIONS, a), writers := map[0 := w]);
    CommitAlone(q, 0, now, LateDoc(d, text));
    assert q.writers - {0} == map[];
    assert Touched(map[], {TXN}) == map[];
  }

  lemma LateStage(m: Machine, d: Doc, now: Doc, text: string) returns (ls: seq<Label>)
    requires m.rows == map[TXN := now] && m.live == map[] && m.writers == Pass(d, {}) && Pollable(d)
    requires text == "Rechazado" || text == "En proceso"
    ensures var es := if text == "Rechazado" then [Rejected(KeyOf(TXN, d))] else [];
            Run(m, ls) == Machine(map[TXN := LateDoc(d, text)], map[], m.history + es, map[])
    ensures Unqueried(ls, "1")
  {
    hide Next, Run;
    var hear := Hear(0, TXN, R.Answer(Some(text), None));
    ls := [hear] + ([Commit(0, true)] + []);
    LateSteps(m, d, now, text);
    RunOne(m, hear, [Commit(0, true)] + []);
    RunOne(Next(m, hear), Commit(0, true), []);
    RunNone(Next(Next(m, hear), Commit(0, true)));
  }

  lemma RunNone(m: Machine)
    ensures Run(m, []) == m
  {
  }

  /** A pass that read the row before a refresh saw it accepted makes it wait for a verdict again. */
  lemma LatePassUndoesAcceptance() returns (before: seq<Label>, after: seq<Label>)
    ensures Unqueried(before + after, "1")
    ensures var m := Run(START, before); TXN in m.rows && m.rows[TXN].state.AcceptedByDgii?
    ensures var m := Run(START, before + after); TXN in m.rows && m.rows[TXN].state == State.Signed
  {
    hide Run, Unqueried;
    var p, d := FirstStage(ACK);
    var q := FetchStage(Run(START, p), d);
    var r := RefreshStage(Run(Run(START, p), q), d, "Aceptado");
    before := p + q + r;
    RunConcat(START, p, q);
    RunConcat(START, p + q, r);
    after := LateStage(Run(START, before), d, d.(state := AcceptedByDgii), "En proceso");
    RunConcat(START, before, after);
    UnqueriedConcat(p, q);
    UnqueriedConcat(p + q, r);
    UnqueriedConcat(before, after);
  }

  lemma UnqueriedConcat(p: seq<Label>, q: seq<Label>)
    requires Unqueried(p, "1") && Unqueried(q, "1")
    ensures Unqueried(p + q, "1")
  {
  }

  const B := FiscalKey("1", TXN.amb, "E41")
  const C := FiscalKey("1", TXN.amb, "E45")

  /** Fetched as `E31`, rejected and re-issued as `E41` meanwhile, and then restored as rejected `E31`. */
  lemma RestoredRejection() returns (ls: seq<Label>, d: Doc)
    ensures Run(START, ls) ==
            Machine(map[TXN := d], map[], [Sent(TXN, A), Rejected(A), Sent(TXN, B), Rejected(A)], map[])
    ensures d.state.RejectedByDgii? && KeyOf(TXN, d) == A && Unqueried(ls, "1")
  {
    hide Run, Unqueried, Inward;
    var p, d0 := FirstStage(ACK);
    var q := FetchStage(Run(START, p), d0);
    var r := RefreshStage(Run(Run(START, p), q), d0, "Rechazado");
    var m := Run(Run(Run(START, p), q), r);
    var s, d1 := ReissueStage(m, d0.(state := RejectedByDgii), "1", "E41");
    assert Touched(Pass(d0, {}), {TXN}) == Pass(d0, {}) by { assert {} - {TXN} == {}; }
    var t := LateStage(Run(m, s), d0, d1, "Rechazado");
    FourStages(p, q, r, s);
    RunConcat(START, p + q + r + s, t);
    ls, d := p + q + r + s + t, LateDoc(d0, "Rechazado");
    UnqueriedConcat(p, q);
    UnqueriedConcat(p + q, r);
    UnqueriedConcat(p + q + r, s);
    UnqueriedConcat(p + q + r + s, t);
    assert [Sent(TXN, A)] + [Rejected(A)] + [Sent(TXN, B)] + [Rejected(A)] ==
           [Sent(TXN, A), Rejected(A), Sent(TXN, B), Rejected(A)];
  }

  /** The next retry draws a third number: two are outstanding, and DGII may accept both. */
  lemma LatePassBreaksSingleNumber() returns (ls: seq<Label>)
    ensures Unqueried(ls, "1") && SteadyIssuer(ls, _ => "1")
    ensures var h := Run(START, ls).history;
            && AcceptedTwice(h, TXN, B, C) && Owes(h, TXN, B) && Owes(h, TXN, C)
            && RejectionIsFinal(h) && AcceptanceIsFinal(h)
  {
    hide Run, Unqueried, Inward;
    var p, d := RestoredRejection();
    var q, d' := ReissueStage(Run(START, p), d, "1", "E45");
    var r := AdjudicateStage(Run(Run(START, p), q), B, C);
    RunConcat(START, p, q);
    RunConcat(START, p + q, r);
    ls := p + q + r;
    AdjudicationIsUnqueried(r);
    UnqueriedConcat(p, q);
    UnqueriedConcat(p + q, r);
    UnqueriedIsSteady(ls, "1");
    var h := [Sent(TXN, A), Rejected(A), Sent(TXN, B), Rejected(A), Sent(TXN, C), Accepted(B), Accepted(C)];
    assert Run(START, ls).history == h;
    BothAccepted(h);
  }

  lemma AdjudicationIsUnqueried(ls: seq<Label>)
    requires forall l :: l in ls ==> l.Adjudicate?
    ensures Unqueried(ls, "1")
  {
  }

  lemma BothAccepted(h: seq<Event>)
    requires h == [Sent(TXN, A), Rejected(A), Sent(TXN, B), Rejected(A), Sent(TXN, C), Accepted(B), Accepted(C)]
    ensures AcceptedTwice(h, TXN, B, C) && Owes(h, TXN, B) && Owes(h, TXN, C)
    ensures RejectionIsFinal(h) && AcceptanceIsFinal(h)
  {
    assert h[2] == Sent(TXN, B) && h[4] == Sent(TXN, C) && h[5] == Accepted(B) && h[6] == Accepted(C);
    assert AcceptedTwice(h, TXN, B, C);
    hide AcceptedTwice;
  }

  // ---- A refresh under a live submission ------------------------------------------------------

  /** The answer to the transmission is lost, and the submission is about to store that. */
  predicate AnswerLost(m: Machine, d: Doc) {
    m == Machine(map[TXN := d], map[TXN := Saving(FIRST, d.(state := Uncertain), ThenStop)], [Sent(TXN, A)], map[])
  }

  /** A row that a refresh asks about by its number. */
  predicate Askable(d: Doc) {
    d.state.AwaitingTransmission? && d.track.None? && d.sentAt.None? && d.encf != "" && KeyOf(TXN, d) == A
  }

  lemma SealedIsAskable()
    ensures var d := NewDoc("E31", FIRST);
            && Askable(SignedDoc(d))
            && AfterPosting(TXN, FIRST, SignedDoc(d), Lost) ==
               Effect(None, [Sent(TXN, A)], Some(Saving(FIRST, SignedDoc(d).(state := Uncertain), ThenStop)))
  {
  }

  /** The first submission up to its lost answer, as one effect. */
  lemma LostEffect(d: Doc)
    requires Askable(d)
    ensures AnswerLost(Enact(START, TXN,
                             Effect(Some(d), [Sent(TXN, A)], Some(Saving(FIRST, d.(state := Uncertain), ThenStop)))), d)
  {
    assert [] + [Sent(TXN, A)] == [Sent(TXN, A)];
    assert Touched(map[], {TXN}) == map[];
  }

  lemma FirstSigns(doc: Doc)
    requires doc == NewDoc("E31", FIRST)
    ensures Run(START, [Begin(FIRST), Advance(TXN, Proceed), Advance(TXN, Number("E31")), Advance(TXN, Proceed)]) ==
            Enact(START, TXN, Effect(Some(doc), [], Some(Signing(FIRST, doc))))
  {
    hide Run, Enact;
    OpeningRun(START, FIRST, Drawing(FIRST), Number("E31"), [], Inserting(FIRST, doc), doc);
  }

  /** Sealing, saving and posting without an answer. */
  lemma PostsInVain(doc: Doc)
    requires doc == NewDoc("E31", FIRST)
    ensures Run(Enact(START, TXN, Effect(Some(doc), [], Some(Signing(FIRST, doc)))),
                [Advance(TXN, Signature(SIGNATURE, true, false)), Advance(TXN, Proceed), Advance(TXN, Lost)]) ==
            Enact(START, TXN, Effect(Some(SignedDoc(doc)), [Sent(TXN, A)],
                                     Some(Saving(FIRST, SignedDoc(doc).(state := Uncertain), ThenStop))))
  {
    SealedIsAskable();
    assert doc.state.SequenceAllocated?;
    hide Run, Next, Enact, SignedDoc, NewDoc, Askable, AfterPosting;
    SealRun(START, TXN, FIRST, doc, []);
    StepOn(START, TXN, Posted(FIRST, doc, []), Lost,
           Effect(None, [Sent(TXN, A)], Some(Saving(FIRST, SignedDoc(doc).(state := Uncertain), ThenStop))));
    assert [] + [Sent(TXN, A)] == [Sent(TXN, A)];
    RunThree(Enact(START, TXN, Effect(Some(doc), [], Some(Signing(FIRST, doc)))),
             Advance(TXN, Signature(SIGNATURE, true, false)), Advance(TXN, Proceed), Advance(TXN, Lost));
  }

  lemma LostStage() returns (ls: seq<Label>, d: Doc)
    ensures AnswerLost(Run(START, ls), d) && Askable(d)
    ensures Unqueried(ls, "1") && Inward(ls)
  {
    hide Run, Enact, NewDoc, SignedDoc, Askable, AnswerLost, AfterPosting;
    var doc := NewDoc("E31", FIRST);
    var p := [Begin(FIRST), Advance(TXN, Proceed), Advance(TXN, Number("E31")), Advance(TXN, Proceed)];
    var q := [Advance(TXN, Signature(SIGNATURE, true, false)), Advance(TXN, Proceed), Advance(TXN, Lost)];
    ls, d := p + q, SignedDoc(doc);
    SealedIsAskable();
    FirstSigns(doc);
    PostsInVain(doc);
    LostEffect(d);
    RunConcat(START, p, q);
  }

  lemma RefreshedByNumber(d: Doc)
    requires Askable(d)
    ensures Refreshed(TXN, d, "", "Aceptado", "") == Finding(Some(d.(state := AcceptedByDgii)), [Accepted(A)])
  {
    Words();
  }

  /** The refresh between its answer and its commit, over the row of the waiting submission. */
  function Beneath(m: Machine, d: Doc): Machine {
    m.(history := [Sent(TXN, A), Accepted(A)],
       writers := map[0 := Reader(d, {}).(write := map[TXN := d.(state := AcceptedByDgii)])])
  }

  /** It reads the row and hears of its acceptance; nobody writes the row in between. */
  lemma AsksBeneath(m: Machine, d: Doc)
    requires AnswerLost(m, d) && Askable(d)
    ensures Next(Next(m, Look(0, TXN)), Refresh(0, "", "Aceptado", "")) == Beneath(m, d)
  {
    RefreshedByNumber(d);
    hide Refreshed, Next, OneRow, Askable;
    LooksAlone(m, 0, d);
    OneRowReads(d, {});
    Asks(m.(writers := map[0 := Reader(d, {})]), 0, Reader(d, {}), "", "Aceptado",
         Finding(Some(d.(state := AcceptedByDgii)), [Accepted(A)]));
    assert [Sent(TXN, A)] + [Accepted(A)] == [Sent(TXN, A), Accepted(A)];
  }

  lemma StoresBeneath(m: Machine, d: Doc)
    requires AnswerLost(m, d)
    ensures Next(Beneath(m, d), Commit(0, true)) ==
            m.(rows := map[TXN := d.(state := AcceptedByDgii)], history := [Sent(TXN, A), Accepted(A)])
  {
    hide Next;
    CommitAlone(Beneath(m, d), 0, d, d.(state := AcceptedByDgii));
    assert Beneath(m, d).writers - {0} == map[] && Touched(map[], {TXN}) == map[];
  }

  /** The commit is guarded: the number stays in its place, and the submission finds what it needs. */
  lemma BeneathIsGuarded(m: Machine, d: Doc)
    requires AnswerLost(m, d) && Askable(d)
    ensures Guarded(Beneath(m, d), Commit(0, true))
  {
    hide Pending;
  }

  lemma SaveBuries(m: Machine, d: Doc)
    requires m.rows == map[TXN := d.(state := AcceptedByDgii)] && m.writers == map[]
    requires m.live == map[TXN := Saving(FIRST, d.(state := Uncertain), ThenStop)]
    ensures var e := Next(m, Advance(TXN, Proceed));
            e.rows == map[TXN := d.(state := Uncertain)] && e.history == m.history
  {
  }

  lemma BuryingRun(m: Machine, d: Doc)
    requires AnswerLost(m, d) && Askable(d)
    ensures var q := [Look(0, TXN), Refresh(0, "", "Aceptado", ""), Commit(0, true)];
            var m', e := Run(m, q), Run(Run(m, q), [Advance(TXN, Proceed)]);
            && AllGuarded(m, q) && AllGuarded(m', [Advance(TXN, Proceed)])
            && m'.rows == map[TXN := d.(state := AcceptedByDgii)]
            && e.rows == map[TXN := d.(state := Uncertain)] && e.history == [Sent(TXN, A), Accepted(A)]
  {
    AsksBeneath(m, d);
    StoresBeneath(m, d);
    BeneathIsGuarded(m, d);
    RunThree(m, Look(0, TXN), Refresh(0, "", "Aceptado", ""), Commit(0, true));
    var m' := Next(Beneath(m, d), Commit(0, true));
    SaveBuries(m', d);
    assert [Advance(TXN, Proceed)] == [Advance(TXN, Proceed)] + [];
    RunOne(m', Advance(TXN, Proceed), []);
    hide Next, Beneath, Askable;
  }

  /**
   A refresh stores the acceptance of a row that nobody wrote since it was read, and the submission
   that lost its answer saves its doubt over it. No number is sent twice by that, but the accepted
   row is uncertain again: a test of updated_at alone does not keep acceptances.
   */
  lemma SubmissionBuriesAcceptance() returns (before: seq<Label>, after: seq<Label>)
    ensures Unqueried(before + after, "1") && AllGuarded(START, before + after)
    ensures forall l :: l in after ==> !l.Commit?
    ensures var m := Run(START, before); TXN in m.rows && m.rows[TXN].state.AcceptedByDgii?
    ensures var m := Run(START, before + after);
            TXN in m.rows && m.rows[TXN].state.Uncertain? && Accepted(A) in m.history
  {
    hide Run, AllGuarded, Unqueried, Askable, AnswerLost, Inward;
    var p, d := LostStage();
    var q := [Look(0, TXN), Refresh(0, "", "Aceptado", ""), Commit(0, true)];
    before, after := p + q, [Advance(TXN, Proceed)];
    InwardIsConditional(START, p);
    BuryingRun(Run(START, p), d);
    RunConcat(START, p, q);
    RunConcat(START, before, after);
    AllGuardedConcat(START, p, q);
    AllGuardedConcat(START, before, after);
    BuryingIsUnqueried();
    UnqueriedConcat(p, q);
    UnqueriedConcat(before, after);
  }

  lemma BuryingIsUnqueried()
    ensures Unqueried([Look(0, TXN), Refresh(0, "", "Aceptado", ""), Commit(0, true)], "1")
    ensures Unqueried([Advance(TXN, Proceed)], "1")
  {
  }

  // ---- A refresh over a checked row -----------------------------------------------------------

  const EVERY_MINUTE := R.Options(0, 1, 1)
  const IN_PROCESS := R.Answer(None, Some("En proceso"))

  /** A row that a pass and a refresh both ask about by its number. */
  predicate Trackless(d: Doc) {
    d.state == State.Signed && d.track.None? && d.sentAt == Some(0) && d.lastCheck.None? && d.encf != ""
  }

  lemma KnownEffect(d: Doc)
    requires d.state.Uncertain? && d.track.None? && d.sentAt.None?
    ensures var d', rows := d.(state := State.Signed, sentAt := Some(0)), map[TXN := d];
            && Continue(rows, TXN, Lookup(FIRST, false), Proceed) == Go(Asking(FIRST, d))
            && Continue(rows, TXN, Asking(FIRST, d), Answer("En proceso", "", 0)) == Go(Saving(FIRST, d', ThenStop))
            && Continue(rows, TXN, Saving(FIRST, d', ThenStop), Proceed) == Effect(Some(d'), [], None)
  {
    Words();
  }

  /** The retry of an uncertain row: DGII knows the number, and has no verdict yet. */
  lemma KnownStage(m: Machine, d: Doc) returns (ls: seq<Label>, d': Doc)
    requires Alone(m, d, m.history) && d.state.Uncertain?
    requires d.track.None? && d.sentAt.None? && d.lastCheck.None? && d.encf != ""
    ensures Alone(Run(m, ls), d', m.history) && Trackless(d') && Unqueried(ls, "1")
  {
    hide Run, Next, Continue;
    var answer := Answer("En proceso", "", 0);
    d' := d.(state := State.Signed, sentAt := Some(0));
    ls := [Begin(FIRST), Advance(TXN, Proceed), Advance(TXN, answer), Advance(TXN, Proceed)];
    KnownEffect(d);
    Begins(m, FIRST);
    var e0 := Go(Lookup(FIRST, false));
    StepOn(m, TXN, e0, Proceed, Go(Asking(FIRST, d)));
    var e1 := Both(e0, Go(Asking(FIRST, d)));
    StepOn(m, TXN, e1, answer, Go(Saving(FIRST, d', ThenStop)));
    var e2 := Both(e1, Go(Saving(FIRST, d', ThenStop)));
    StepOn(m, TXN, e2, Proceed, Effect(Some(d'), [], None));
    RunFour(m, Begin(FIRST), Advance(TXN, Proceed), Advance(TXN, answer), Advance(TXN, Proceed));
    assert m.history + [] == m.history;
    assert Touched(map[], {TXN}) == map[];
  }

  function Polled(d: Doc): Doc {
    d.(lastCheck := Some(0), attempts := d.attempts + 1)
  }

  lemma PollAnswer(d: Doc)
    requires Trackless(d)
    ensures R.Checked(d, 0, EVERY_MINUTE, IN_PROCESS) == Polled(d)
    ensures BatchEvents(TXN, d, 0, EVERY_MINUTE, IN_PROCESS) == []
    ensures Refreshed(TXN, d, "", "En proceso", "") == Finding(Some(d), [])
  {
    Words();
    hide Estado.Trim, Estado.Lower;
    assert R.StatusText(d, IN_PROCESS) == Some("En proceso");
  }

  /** The pass between its answer and its commit. */
  function Unsaved(m: Machine, d: Doc): Machine {
    m.(writers := m.writers[0 := Writer([TXN], map[TXN := d], map[TXN := Polled(d)], {TXN}, Batch(0, EVERY_MINUTE))])
  }

  const POLL := [Fetch(0, 0, EVERY_MINUTE, [TXN]), Hear(0, TXN, IN_PROCESS)]

  lemma PollFetches(m: Machine, d: Doc)
    requires m.rows == map[TXN := d] && m.live == map[] && 0 !in m.writers && Trackless(d)
    ensures Next(m, POLL[0]) ==
            m.(writers := m.writers[0 := Writer([TXN], map[TXN := d], map[], {TXN}, Batch(0, EVERY_MINUTE))])
  {
    assert R.Due(d, 0, EVERY_MINUTE) && R.IsDueBatch(m.rows, 0, EVERY_MINUTE, [TXN]);
    assert R.Snapshot(m.rows, [TXN]) == map[TXN := d];
    assert Opened(m, [TXN], Batch(0, EVERY_MINUTE)).current == {TXN};
  }

  lemma PollHears(m: Machine, d: Doc)
    requires 0 in m.writers && Trackless(d)
    requires m.writers[0] == Writer([TXN], map[TXN := d], map[], {TXN}, Batch(0, EVERY_MINUTE))
    ensures Next(m, POLL[1]) == m.(writers := m.writers[0 := m.writers[0].(write := map[TXN := Polled(d)])])
  {
    PollAnswer(d);
    hide R.Checked, BatchEvents;
    assert m.history + [] == m.history;
  }

  lemma PollSteps(m: Machine, d: Doc)
    requires m.rows == map[TXN := d] && m.live == map[] && 0 !in m.writers && Trackless(d)
    ensures Run(m, POLL) == Unsaved(m, d)
  {
    hide Next, Run, Trackless;
    PollFetches(m, d);
    PollHears(Next(m, POLL[0]), d);
    assert POLL == [POLL[0]] + ([POLL[1]] + []);
    RunOne(m, POLL[0], [POLL[1]] + []);
    RunOne(Next(m, POLL[0]), POLL[1], []);
    RunNone(Next(Next(m, POLL[0]), POLL[1]));
  }

  lemma PollCommits(m: Machine, d: Doc)
    requires m.rows == map[TXN := d] && 0 !in m.writers
    ensures Checks(Unsaved(m, d), Commit(0, true), TXN)
    ensures Next(Unsaved(m, d), Commit(0, true)) ==
            m.(rows := map[TXN := Polled(d)], writers := Touched(m.writers, {TXN}))
  {
    hide Next;
    CommitAlone(Unsaved(m, d), 0, d, Polled(d));
    assert Unsaved(m, d).writers - {0} == m.writers;
  }

  /** A refresh that heard of no verdict, and means to write the row as it read it. */
  function Awaiting(m: Machine, d: Doc, current: set<TxnKey>): Machine {
    m.(writers := map[1 := Reader(d, current).(write := map[TXN := d])])
  }

  const ASK := [Look(1, TXN), Refresh(1, "", "En proceso", "")]

  lemma AskSteps(m: Machine, d: Doc)
    requires Alone(m, d, m.history) && Trackless(d)
    ensures Run(m, ASK) == Awaiting(m, d, {TXN})
  {
    PollAnswer(d);
    hide Refreshed, Next, OneRow;
    LooksAlone(m, 1, d);
    OneRowReads(d, {TXN});
    Asks(m.(writers := map[1 := Reader(d, {TXN})]), 1, Reader(d, {TXN}), "", "En proceso", Finding(Some(d), []));
    assert m.history + [] == m.history;
    assert ASK == [ASK[0]] + ([ASK[1]] + []);
    RunOne(m, ASK[0], [ASK[1]] + []);
    RunOne(Next(m, ASK[0]), ASK[1], []);
    RunNone(Next(Next(m, ASK[0]), ASK[1]));
  }

  lemma NoLongerCurrent(m: Machine, d: Doc)
    ensures Touched(Awaiting(m, d, {TXN}).writers, {TXN}) == Awaiting(m, d, {}).writers
  {
    assert {TXN} - {TXN} == {};
  }

  /** Its late commit forgets the check. */
  lemma ForgetsTheCheck(m: Machine, d: Doc)
    requires Alone(m, d, m.history)
    ensures Next(Awaiting(m, d, {}).(rows := map[TXN := Polled(d)]), Commit(1, true)) == m
  {
    hide Next;
    var q := Awaiting(m, d, {}).(rows := map[TXN := Polled(d)]);
    CommitAlone(q, 1, Polled(d), d);
    assert q.writers - {1} == map[] && Touched(map[], {TXN}) == map[];
  }

  /**
   Two passes check one row in the same minute, although the interval is a minute: a refresh that
   read the row before the first check commits after it.
   */
  lemma LateRefreshForgetsTheInterval()
    returns (before: seq<Label>, first: Label, between: seq<Label>, second: Label)
    ensures Unqueried(before + [first] + between + [second], "1")
    ensures Checks(Run(START, before), first, TXN)
    ensures Checks(Run(START, before + [first] + between), second, TXN)
    ensures var a := Run(START, before).writers[first.id].kind;
            var b := Run(START, before + [first] + between).writers[second.id].kind;
            b.now - a.now < b.options.intervalMinutes * 60
  {
    hide Run, Next, Unqueried, Inward, Checks, Trackless;
    var p, d0 := FirstStage(Lost);
    var q, d := KnownStage(Run(START, p), d0);
    var m := Run(Run(START, p), q);
    before, first, between, second := p + q + ASK + POLL, Commit(0, true), [Commit(1, true)] + POLL, Commit(0, true);
    FourStages(p, q, ASK, POLL);
    AskSteps(m, d);
    PollSteps(Awaiting(m, d, {TXN}), d);
    PollCommits(Awaiting(m, d, {TXN}), d);
    NoLongerCurrent(m, d);
    ForgetsTheCheck(m, d);
    PollSteps(m, d);
    PollCommits(m, d);
    RunConcat(START, before, [first]);
    RunLast(Run(START, before), first);
    RunConcat(START, before + [first], between);
    RunOne(Run(START, before + [first]), Commit(1, true), POLL);
    PollingIsUnqueried();
    UnqueriedConcat(p, q);
    UnqueriedConcat(p + q, ASK);
    UnqueriedConcat(p + q + ASK, POLL);
    UnqueriedConcat(before, [first]);
    UnqueriedConcat([Commit(1, true)], POLL);
    UnqueriedConcat(before + [first], between);
    UnqueriedConcat(before + [first] + between, [second]);
  }

  lemma PollingIsUnqueried()
    ensures Unqueried(ASK, "1") && Unqueried(POLL, "1")
    ensures Unqueried([Commit(0, true)], "1") && Unqueried([Commit(1, true)], "1")
  {
  }
}
