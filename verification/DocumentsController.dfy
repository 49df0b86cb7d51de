/**
 The controller's own code over the shared tables: every method mutates a private document,
 commits it, posts and queries, with arbitrary steps of other requests in between. `Valid` says
 that whatever happened so far is a run of the transition system, so its theorems apply.
 */
module DocumentsController {
  import opened Wrappers
  import opened Documents
  import opened Issuance
  import opened IssuancePlacement
  import opened IssuanceSafety
  import opened IssuanceHonesty
  import opened IssuanceFreshness
  import opened IssuanceDiscipline
  import opened IssuanceReturns
  import opened IssuanceAnswers
  import opened EstadoWords
  import Estado
  import D = DbContext
  import R = Reconciler

  /** An HTTP status, or `Threw` for an exception that leaves the method. */
  datatype Reply = Status(code: nat) | Threw

  /** The status that answers a submission whose document ended in this state. */
  function StatusFor(s: State): Reply {
    match s
    case AcceptedByDgii => Status(200)
    case SchemaInvalid => Status(400)
    case AwaitingTransmission => Status(409)
    case RejectedByDgii => Status(422)
    case Unsigned => Status(422)
    case SigningFailed => Status(500)
    case Uncertain => Status(503)
    case _ => Status(202)
  }

  /** The submission of `k` did not die between the two traces: each of its steps is its own code's. */
  predicate Ran(k: TxnKey, before: seq<Label>, after: seq<Label>) {
    before <= after && forall i :: |before| <= i < |after| ==> after[i] != Crash(k)
  }

  /** Only steps of others came between the two traces. */
  predicate Beside(k: TxnKey, before: seq<Label>, after: seq<Label>) {
    before <= after && forall l :: l in after[|before|..] ==> Foreign(k, l)
  }

  lemma BesideForeign(k: TxnKey, t: seq<Label>, ls: seq<Label>)
    requires forall l :: l in ls ==> Foreign(k, l)
    ensures Beside(k, t, t + ls) && Ran(k, t, t + ls)
  {
    assert (t + ls)[|t|..] == ls;
    assert forall i :: |t| <= i < |t + ls| ==> (t + ls)[i] in ls;
  }

  /** In seconds. */
  const MIN_UNCERTAIN_AGE := 120

  predicate TooYoung(stamp: Option<int>, now: int) {
    stamp.Some? && stamp.value > now - MIN_UNCERTAIN_AGE
  }

  /** The submission gave up at once: nothing was asked, sent or stored by it. */
  predicate Quits(k: TxnKey, before: seq<Label>, after: seq<Label>) {
    |before| < |after| && Beside(k, before, after[..|after| - 1]) && after[|after| - 1] == Advance(k, Fail)
  }

  /** The submission's own step after those. */
  lemma Attempted(k: TxnKey, t: seq<Label>, mid: seq<Label>, l: Label, saved: bool)
    requires Beside(k, t, mid) && OwnStep(k, l)
    requires !saved ==> Run(START, mid + [l]).rows == Run(START, mid).rows
    ensures Attempt(k, t, mid + [l], saved)
  {
    hide Run;
    var between := mid[|t|..];
    assert mid == t + between;
    assert mid + [l] == t + between + [l];
  }

  /** A step that belongs to no reader, or to another one. */
  predicate Elsewhere(i: nat, l: Label) {
    l.Look? || l.Refresh? || l.StatusQuery? || l.Fetch? || l.Hear? || l.Commit? ==> l.id != i
  }

  /** The reader still has what it read, and nothing to write. */
  predicate StillReads(m: Machine, i: nat, k: TxnKey, d: Doc) {
    i in m.writers && m.writers[i].keys == [k] && m.writers[i].read == map[k := d] && m.writers[i].kind.Single?
  }

  lemma ElsewhereStep(m: Machine, i: nat, k: TxnKey, d: Doc, l: Label)
    requires StillReads(m, i, k, d) && Elsewhere(i, l)
    ensures StillReads(Next(m, l), i, k, d) && Next(m, l).writers[i].write == m.writers[i].write
  {
    hide Continue, Refreshed, Queried, BatchEvents, R.Checked, R.IsDueBatch, D.ExecuteAll, D.Updates, D.Overwritten;
  }

  lemma {:induction false} ElsewhereKeepsReader(m: Machine, i: nat, k: TxnKey, d: Doc, ls: seq<Label>)
    requires StillReads(m, i, k, d) && forall l :: l in ls ==> Elsewhere(i, l)
    ensures StillReads(Run(m, ls), i, k, d) && Run(m, ls).writers[i].write == m.writers[i].write
    decreases |ls|
  {
    hide Elsewhere;
    if ls != [] {
      ElsewhereStep(m, i, k, d, ls[0]);
      ElsewhereKeepsReader(Next(m, ls[0]), i, k, d, ls[1..]);
    }
  }

  lemma TouchNone(ws: Writers)
    ensures Touched(ws, {}) == ws
  {
    assert forall i :: i in ws ==> ws[i].current - {} == ws[i].current;
  }

  predicate KeepsNumber(d: Doc, doc: Doc) {
    doc.encf == d.encf && doc.rnc == d.rnc
  }

  lemma UncertainMayBeSent()
    ensures !NeverTransmitted(Uncertain)
  {
  }

  lemma ExecuteUpdates(rows: D.Rows, k: TxnKey, doc: Doc)
    ensures var result := D.Execute(rows, D.Update(k, doc));
            result.Some? ==> result.value == rows || (k in rows && result.value == rows[k := doc])
  {
    hide D.NumberFree;
  }

  /** A writer of one row commits with one UPDATE, if it has anything to write. */
  lemma OneUpdate(rows: D.Rows, k: TxnKey, write: map<TxnKey, Doc>)
    requires write.Keys <= {k}
    ensures var result := D.ExecuteAll(rows, D.Updates([k], write));
            && (k in write ==> result == D.Execute(rows, D.Update(k, write[k])))
            && (k !in write ==> result == Some(rows))
            && (result.Some? ==> result.value == D.Overwritten(rows, [k], write))
  {
    D.UpdatesOverwrite(rows, [k], write);
    assert [k][1..] == [];
    if k in write {
      var op := D.Update(k, write[k]);
      assert D.Updates([k], write) == [op] && [op][1..] == [];
    }
  }

  /** A run of the transition system: nothing is assumed of what anybody else does in it. */
  ghost predicate Reached(m: Machine, t: seq<Label>) {
    m == Run(START, t) && AllShaped(m) && Kept(m)
  }

  lemma ReachOn(m: Machine, t: seq<Label>, l: Label)
    requires Reached(m, t)
    ensures Reached(Next(m, l), t + [l])
  {
    hide Next, AllShaped, Kept;
    RunConcat(START, t, [l]);
    ShapedNext(m, l);
    KeptNext(m, l);
    assert [l][1..] == [];
  }

  lemma ReachAll(m: Machine, t: seq<Label>, ls: seq<Label>)
    requires Reached(m, t)
    ensures Reached(Run(m, ls), t + ls)
  {
    ShapedRun(m, ls);
    KeptRun(m, ls);
    RunConcat(START, t, ls);
  }

  lemma TruthfulBefore(t: seq<Label>, after: seq<Label>)
    requires t <= after && AllTruthful(START, after)
    ensures AllTruthful(START, t)
  {
    assert after == t + after[|t|..];
    AllTruthfulConcat(START, t, after[|t|..]);
  }

  /** What the theorems about runs say of the history behind a machine. */
  lemma ReachedIsDisciplined(m: Machine, t: seq<Label>)
    requires Reached(m, t)
    ensures AllGuarded(START, t) ==> Disciplined(m.history)
    ensures forall scope, home :: AllFresh(START, t, scope) && AtHome(t, scope, home) ==> Disciplined(m.history)
  {
    hide Run, AllShaped, Kept, Disciplined, AllGuarded, AllFresh, AtHome;
    if AllGuarded(START, t) {
      SendDiscipline(t);
    }
    forall scope, home | AllFresh(START, t, scope) && AtHome(t, scope, home) ensures Disciplined(m.history) {
      FreshDrawsDiscipline(t, scope, home);
    }
  }

  /** If the queries of the run were truthful, a stored acceptance is real. */
  lemma ReachedIsHonest(m: Machine, t: seq<Label>, k: TxnKey)
    requires Reached(m, t) && k in m.rows && m.rows[k].state.AcceptedByDgii?
    ensures AllTruthful(START, t) ==> Accepted(KeyOf(k, m.rows[k])) in m.history
  {
    hide Run, AllShaped, Kept, AllTruthful;
    if AllTruthful(START, t) {
      StoredAcceptanceIsReal(t, k);
    }
  }

  /** One commit of the own row, seen from the machine. */
  lemma SaveStep(m: Machine, k: TxnKey, req: Req, doc: Doc, after: After, connected: bool)
    requires k in m.live && m.live[k] == Saving(req, doc, after) && k in m.rows
    ensures var result := D.Execute(m.rows, D.Update(k, doc));
            var saved := connected && result.Some?;
            Next(m, Advance(k, if connected then Proceed else Fail)) ==
            Machine(if saved then result.value else m.rows,
                    if saved && after.ThenSign? then m.live[k := Signing(req, doc)]
                    else if saved && after.ThenPost? then m.live[k := Posting(req, doc)] else m.live - {k},
                    m.history,
                    if saved then Touched(m.writers, {k}) else m.writers)
  {
    hide D.NumberFree, Touched;
    assert m.history + [] == m.history;
  }

  /** A step that tells something and moves on. */
  lemma ToldStep(m: Machine, k: TxnKey, c: Choice, told: seq<Event>, p: Phase)
    requires k in m.live && Continue(m.rows, k, m.live[k], c) == Effect(None, told, Some(p))
    ensures Next(m, Advance(k, c)) == m.(live := m.live[k := p], history := m.history + told)
  {
    hide Continue;
  }

  lemma LearnStep(m: Machine, k: TxnKey, req: Req, d: Doc, answer: Choice)
    requires k in m.live && m.live[k] == Asking(req, d) && answer.Answer?
    ensures var v := Estado.Read(answer.estado);
            var found := Found(d, v, if HasTrack(d) then "" else answer.track,
                               if d.sentAt.Some? then d.sentAt else Some(answer.now));
            var told := if v.Missing? then [Missing(KeyOf(k, d))] else VerdictEvents(KeyOf(k, d), v);
            var p := if v.Missing? then Saving(req, Apply(d, req), ThenSign) else Saving(req, found, ThenStop);
            Next(m, Advance(k, answer)) == m.(live := m.live[k := p], history := m.history + told)
  {
    hide Estado.Read, Found, VerdictEvents, Apply;
  }

  lemma AskStep(m: Machine, i: nat, k: TxnKey, d: Doc, resultado: string, estado: string, track: string)
    requires StillReads(m, i, k, d)
    ensures var f := Refreshed(k, d, resultado, estado, track);
            Next(m, Refresh(i, resultado, estado, track)) ==
            m.(history := m.history + f.told, writers := m.writers[i := m.writers[i].(write := OneWrite(k, f))])
  {
    hide Refreshed;
  }

  /** The commit of a reader of one row. */
  lemma StoreStep(m: Machine, i: nat, k: TxnKey, connected: bool)
    requires i in m.writers && m.writers[i].keys == [k] && m.writers[i].kind.Single? && m.writers[i].write.Keys <= {k}
    ensures var write, others := m.writers[i].write, m.writers - {i};
            var result := if k in write then D.Execute(m.rows, D.Update(k, write[k])) else None;
            Next(m, Commit(i, connected)) ==
            if connected && result.Some? then m.(rows := result.value, writers := Touched(others, {k}))
            else m.(writers := others)
  {
    var write := m.writers[i].write;
    OneUpdate(m.rows, k, write);
    TouchNone(m.writers - {i});
    assert write.Keys == if k in write then {k} else {};
    hide D.ExecuteAll, D.Updates, D.Overwritten, D.Execute, Touched;
  }

  /** The verdict of the document was given in this run, in code or in words. */
  ghost predicate Backed(t: seq<Label>, k: TxnKey, doc: Doc) {
    Grounded(Answers(START, t), k, doc)
  }

  lemma BackedLater(t: seq<Label>, after: seq<Label>, k: TxnKey, doc: Doc)
    requires t <= after && Backed(t, k, doc)
    ensures Backed(after, k, doc)
  {
    GroundedLater(t, after, k, doc);
  }

  lemma BackedMeans(t: seq<Label>, k: TxnKey, doc: Doc)
    requires Backed(t, k, doc)
    ensures doc.state.AcceptedByDgii? ==> Affirmed(Answers(START, t), KeyOf(k, doc))
    ensures doc.state.RejectedByDgii? ==> Refused(Answers(START, t), KeyOf(k, doc))
  {
  }

  lemma PostWords(d: Doc, answer: Choice)
    ensures IsSummary(d) <==> ForSummary(d)
    ensures answer.Summary? ==> (Estado.Read(answer.estado).Accepts? <==> SaysAccepted(answer.estado))
  {
    SummaryIsSummary(d);
    if answer.Summary? {
      ReadMeans(answer.estado);
    }
  }

  /** Rows and the copy of a live submission carry only verdicts that DGII gave. */
  lemma ReachedIsBacked(m: Machine, t: seq<Label>, k: TxnKey)
    requires Reached(m, t)
    ensures k in m.live && HasCopy(m.live[k]) ==> Backed(t, k, m.live[k].doc)
    ensures k in m.rows ==> Backed(t, k, m.rows[k])
  {
    hide Run, Answers, Grounded, AllShaped, Kept;
    if k in m.live { LiveVerdictWasGiven(t, k); }
    if k in m.rows { StoredVerdictWasGiven(t, k); }
  }

  lemma ReachedByTrace(m: Machine, t: seq<Label>)
    requires Reached(m, t)
    ensures m == Run(START, t)
  {
  }

  lemma DrawsNow(m: Machine, k: TxnKey, c: Choice)
    requires k in m.live && (m.live[k].Drawing? || m.live[k].Redrawing?) && c.Number?
    ensures Draws(m, Advance(k, c))
  {
  }

  lemma DrawIsLast(m: Machine, t: seq<Label>, k: TxnKey, c: Choice)
    requires Reached(m, t) && c.Number? && Draws(m, Advance(k, c))
    ensures JustDrawn(t + [Advance(k, c)], k, c.encf)
  {
    hide Run;
    assert (t + [Advance(k, c)])[..|t|] == t;
  }

  lemma SavingHasARow(m: Machine, t: seq<Label>, k: TxnKey)
    requires Reached(m, t) && k in m.live && m.live[k].Saving?
    ensures k in m.rows
  {
  }

  class Controller {
    var rows: D.Rows
    var live: map<TxnKey, Phase>
    var history: seq<Event>
    var writers: Writers
    ghost var trace: seq<Label>

    ghost function M(): Machine
      reads this
    {
      Machine(rows, live, history, writers)
    }

    ghost predicate Valid()
      reads this
    {
      Reached(M(), trace)
    }

    constructor ()
      ensures Valid() && trace == []
    {
      rows, live, history, writers := map[], map[], [], map[];
      trace := [];
    }

    /** Records that the code's last statements were one step of the transition system. */
    ghost method Record(l: Label, before: Machine)
      requires Reached(before, trace) && M() == Next(before, l)
      modifies this`trace
      ensures Valid() && trace == old(trace) + [l]
    {
      hide Reached, Next;
      ReachOn(before, trace, l);
      trace := trace + [l];
    }

    /** Any run of anybody. */
    method Meanwhile(ls: seq<Label>) returns (m: Machine)
      requires Valid()
      modifies this
      ensures Valid() && m == old(M()) && M() == Run(m, ls) && trace == old(trace) + ls && old(history) <= history
    {
      hide Run, Reached;
      m := Machine(rows, live, history, writers);
      ReachAll(m, trace, ls);
      HistoryGrows(m, ls);
      var after := Run(m, ls);
      rows, live, history, writers := after.rows, after.live, after.history, after.writers;
      trace := trace + ls;
    }

    /** Any number of steps of anybody else. */
    method Others(k: TxnKey)
      requires Valid() && k in live
      modifies this
      ensures Valid() && Ran(k, old(trace), trace) && Beside(k, old(trace), trace) && old(history) <= history
      ensures k in live && live[k] == old(live[k])
    {
      hide Run, Reached;
      var ls: seq<Label> := *;
      var now := Machine(rows, live, history, writers);
      if forall l :: l in ls ==> Foreign(k, l) {
        CopyIsKept(now, ls, k);
        BesideForeign(k, trace, ls);
        now := Meanwhile(ls);
      }
    }

    /** The program counter of the submission moves; nothing shared changes. */
    method Turn(k: TxnKey, c: Choice, p: Phase)
      requires Valid() && k in live && Continue(rows, k, live[k], c) == Go(p)
      modifies this
      ensures Valid() && Ran(k, old(trace), trace) && rows == old(rows) && history == old(history)
      ensures live == old(live)[k := p] && trace == old(trace) + [Advance(k, c)]
    {
      hide Run, Reached;
      ghost var before := M();
      live := live[k := p];
      assert before.history + [] == before.history;
      Record(Advance(k, c), before);
    }

    method Leave(k: TxnKey, c: Choice)
      requires Valid() && k in live && Continue(rows, k, live[k], c) == Stop()
      modifies this
      ensures Valid() && Ran(k, old(trace), trace) && rows == old(rows) && history == old(history)
      ensures live == old(live) - {k} && trace == old(trace) + [Advance(k, c)]
    {
      hide Run, Reached;
      ghost var before := M();
      live := live - {k};
      assert before.history + [] == before.history;
      Record(Advance(k, c), before);
    }

    /** update + saveChanges for the own row; on failure the submission is over. */
    method Save(k: TxnKey, req: Req, doc: Doc, after: After) returns (saved: bool)
      requires Valid() && k in live && live[k] == Saving(req, doc, after)
      modifies this
      ensures Valid() && Ran(k, old(trace), trace) && old(history) <= history
      ensures saved && after.ThenSign? ==> k in live && live[k] == Signing(req, doc)
      ensures saved && after.ThenPost? ==> k in live && live[k] == Posting(req, doc)
      ensures !saved || after.ThenStop? ==> k !in live
      ensures Attempt(k, old(trace), trace, saved) && Backed(trace, k, doc)
    {
      hide Run, Reached, Next, D.Execute, Touched, Beside, Attempt, Backed;
      ReachedIsBacked(M(), trace, k);
      Others(k);
      ghost var before := M();
      SavingHasARow(before, trace, k);
      var connected: bool := *;
      SaveStep(before, k, req, doc, after, connected);
      match D.Execute(rows, D.Update(k, doc)) {
        case Some(next) =>
          saved := connected;
          if connected {
            rows := next;
            writers := Touched(writers, {k});
          }
        case None =>
          saved := false;
      }
      if saved && after.ThenSign? {
        live := live[k := Signing(req, doc)];
      } else if saved && after.ThenPost? {
        live := live[k := Posting(req, doc)];
      } else {
        live := live - {k};
      }
      ghost var own := Advance(k, if connected then Proceed else Fail);
      ghost var mid := trace;
      Record(own, before);
      ReachedByTrace(before, mid);
      ReachedByTrace(M(), trace);
      Attempted(k, old(trace), mid, own, saved);
      BackedLater(old(trace), trace, k, doc);
    }

    /** The save of a fresh number; one that is not stored goes back to the allocator. */
    method SaveDrawn(k: TxnKey, req: Req, doc: Doc) returns (returned: Option<string>)
      requires Valid() && k in live && live[k] == Saving(req, doc, ThenSign)
      requires JustDrawn(trace, k, doc.encf)
      modifies this
      ensures Valid() && Ran(k, old(trace), trace) && old(history) <= history
      ensures Backed(trace, k, doc)
      ensures returned.None? ==> k in live && live[k] == Signing(req, doc)
      ensures returned.Some? ==> returned.value == doc.encf && k !in live
      ensures returned.Some? ==>
                forall scope :: AllFresh(START, trace, scope) ==> Fresh(M(), k, doc.encf, scope)
    {
      hide Run, Reached, Backed, JustDrawn, Attempt, AllFresh, Fresh;
      var saved := Save(k, req, doc, ThenSign);
      returned := None;
      if !saved {
        returned := Some(doc.encf);
        ReachedByTrace(M(), trace);
        FailedAttemptFrees(old(trace), k, doc.encf, trace);
      }
    }

    /** signAndSend: seal the XML, make that durable, post, and record the answer. */
    method SignAndSend(k: TxnKey, req: Req, d: Doc) returns (reply: Reply, doc: Doc)
      requires Valid() && k in live && live[k] == Signing(req, d)
      modifies this
      ensures Valid() && Ran(k, old(trace), trace) && k !in live
      ensures reply == Status(200) ==> doc.state.AcceptedByDgii? && Accepted(KeyOf(k, doc)) in history
      ensures (reply.Threw? || reply == StatusFor(doc.state)) && Backed(trace, k, doc)
      ensures !reply.Threw? ==>
                && (reply == Status(200) <==> doc.state.AcceptedByDgii?)
                && (reply == Status(400) <==> doc.state.SchemaInvalid?)
                && (reply == Status(422) <==> doc.state.RejectedByDgii? || doc.state.Unsigned?)
                && (reply == Status(500) <==> doc.state.SigningFailed?)
                && (reply == Status(503) <==> doc.state.Uncertain?)
                && (doc.state == State.Signed ==> reply == Status(202))
    {
      hide Run, Reached, Backed, Attempt, Beside;
      var over;
      over, reply, doc := Seal(k, req, d);
      if over {
        return;
      }
      doc := Post(k, req, doc);
      var saved := Save(k, req, doc, ThenStop);
      reply := if doc.state.AcceptedByDgii? then Status(200)
               else if doc.state.Signed? then Status(202)
               else if doc.state.RejectedByDgii? then Status(422)
               else if doc.state.AwaitingTransmission? then Status(409)
               else if doc.state.Uncertain? then Status(503) else Status(202);
    }

    /** The part of signAndSend before the POST. */
    method Seal(k: TxnKey, req: Req, d: Doc) returns (over: bool, reply: Reply, doc: Doc)
      requires Valid() && k in live && live[k] == Signing(req, d)
      modifies this
      ensures Valid() && Ran(k, old(trace), trace)
      ensures over <==> k !in live
      ensures if over then Backed(trace, k, doc) else live[k] == Posting(req, doc)
      ensures reply.Threw? || (reply == StatusFor(doc.state) && NeverTransmitted(doc.state))
    {
      hide Run, Reached, Backed, Attempt, Beside;
      over := true;
      doc := d;
      Others(k);
      var signature: Choice := *;
      if !signature.Signature? || |signature.value| < 6 {
        doc := doc.(state := SigningFailed);
        doc := doc.(payload := Some(Plain(doc.xml)));
        reply := GiveUp(k, req, signature, doc, 500);
        return;
      }
      doc := doc.(payload := Some(Sealed(doc.xml, signature.value)));
      doc := doc.(code := Some(signature.value[..6]));
      doc := doc.(state := AwaitingTransmission);
      if !signature.valid {
        doc := doc.(state := SchemaInvalid);
        reply := GiveUp(k, req, signature, doc, 400);
        return;
      }
      if signature.fallback {
        doc := doc.(state := Unsigned);
        doc := doc.(payload := None);
        doc := doc.(code := None);
        reply := GiveUp(k, req, signature, doc, 422);
        return;
      }
      Turn(k, signature, Saving(req, doc, ThenPost));
      var durable := Save(k, req, doc, ThenPost);
      over := !durable;
      reply := Threw;
    }

    /** Stores a document that will not be transmitted, and answers. */
    method GiveUp(k: TxnKey, req: Req, c: Choice, doc: Doc, code: nat) returns (reply: Reply)
      requires Valid() && k in live && Continue(rows, k, live[k], c) == Go(Saving(req, doc, ThenStop))
      modifies this
      ensures Valid() && Ran(k, old(trace), trace) && k !in live
      ensures (reply == Status(code) || reply == Threw) && Backed(trace, k, doc)
    {
      hide Run, Reached, Backed, Attempt, Beside;
      Turn(k, c, Saving(req, doc, ThenStop));
      var saved := Save(k, req, doc, ThenStop);
      reply := if saved then Status(code) else Threw;
    }

    /** The POST to DGII, its answer, and the immediate status check. */
    method Post(k: TxnKey, req: Req, d: Doc) returns (doc: Doc)
      requires Valid() && k in live && live[k] == Posting(req, d)
      modifies this
      ensures Valid() && Ran(k, old(trace), trace) && k in live && live[k] == Saving(req, doc, ThenStop)
      ensures !NeverTransmitted(doc.state)
      ensures doc.state.AcceptedByDgii? ==> Accepted(KeyOf(k, doc)) in history
    {
      hide Run, Reached, Attempt, Beside, Next, Outcome, Estado.Read, NeverTransmitted;
      Others(k);
      var answer: Choice := *;
      if answer.NotPosted? {
        doc := d.(state := Uncertain);
        UncertainMayBeSent();
        Turn(k, answer, Saving(req, doc, ThenStop));
      } else {
        ghost var before := M();
        history := history + [Sent(k, KeyOf(k, d))];
        var verdict;
        doc, verdict := ReadAnswer(d, answer, KeyOf(k, d));
        if verdict.Accepts? {
          history := history + [Accepted(KeyOf(k, d))];
        } else if verdict.Rejects? {
          history := history + [Rejected(KeyOf(k, d))];
        }
        live := live[k := Saving(req, doc, ThenStop)];
        ghost var told := AfterPosting(k, req, d, answer).told;
        assert history == before.history + told;
        ToldStep(before, k, answer, told, Saving(req, doc, ThenStop));
        Record(Advance(k, answer), before);
      }
    }

    /** What the answer to a transmission makes of the document. */
    static method ReadAnswer(d: Doc, answer: Choice, ghost n: FiscalKey)
      returns (doc: Doc, verdict: Estado.Verdict)
      ensures match Outcome(d, answer)
              case Some(o) => doc == o.0 && verdict == o.1
              case None => doc == d.(state := Uncertain) && verdict == Estado.Missing
      ensures !NeverTransmitted(doc.state) && (doc.state.AcceptedByDgii? <==> verdict.Accepts?)
      ensures KeepsNumber(d, doc)
      ensures doc.state.AcceptedByDgii? <==> Affirmed(SaidToPost(n, d, answer), n)
      ensures doc.state.RejectedByDgii? <==> Refused(SaidToPost(n, d, answer), n)
      ensures answer.Summary? && ForSummary(d) ==>
                && (doc.state.AcceptedByDgii? <==> answer.codigo == 1 || SaysAccepted(answer.estado))
                && (doc.state.RejectedByDgii? <==> answer.codigo != 1 && !SaysAccepted(answer.estado))
    {
      PostIsReadRight(n, d, answer);
      PostWords(d, answer);
      hide Affirmed, Refused, SaysAccepted, SaidToPost;
      doc, verdict := d, Estado.Missing;
      if IsSummary(doc) && answer.Summary? {
        if answer.codigo == 1 || Estado.Read(answer.estado).Accepts? {
          doc := doc.(track := doc.code);
          doc := doc.(state := AcceptedByDgii);
          doc := doc.(sentAt := Some(answer.now));
          verdict := Estado.Accepts;
        } else {
          doc := doc.(state := RejectedByDgii);
          verdict := Estado.Rejects;
        }
      } else if !IsSummary(doc) && answer.Received? {
        if answer.track != "" {
          doc := doc.(track := Some(answer.track));
          doc := doc.(state := Signed);
          doc := doc.(sentAt := Some(answer.now));
          verdict := Estado.InProcess;
          var immediate := Estado.Read(answer.immediate);
          if immediate.Accepts? {
            doc := doc.(state := AcceptedByDgii);
            verdict := immediate;
          } else if immediate.Rejects? {
            doc := doc.(state := RejectedByDgii);
            verdict := immediate;
          }
        } else if answer.error != "" {
          doc := doc.(state := RejectedByDgii);
          verdict := Estado.Rejects;
        } else {
          doc := doc.(state := Uncertain);
        }
      } else {
        doc := doc.(state := Uncertain);
      }
    }

    /**
     reconcileUncertain: ask DGII about the number before doing anything with it, unless the row was
     written a moment ago. `stamp` is its time of writing, if that can be read.
     */
    method ReconcileUncertain(k: TxnKey, req: Req, d: Doc, stamp: Option<int>, now: int)
      returns (reply: Reply, doc: Doc)
      requires Valid() && k in live && live[k] == Asking(req, d)
      modifies this
      ensures Valid() && Ran(k, old(trace), trace) && k !in live
      ensures reply == Status(200) ==> doc.state.AcceptedByDgii? && Accepted(KeyOf(k, doc)) in history
      ensures reply.Threw? || reply == StatusFor(doc.state) || (doc == d && reply in {Status(409), Status(503)})
      ensures Backed(trace, k, doc)
      ensures TooYoung(stamp, now) ==> doc == d && reply == Status(409) && Quits(k, old(trace), trace)
    {
      hide Run, Reached, Backed, Attempt, Beside;
      doc := d;
      ReachedIsBacked(M(), trace, k);
      Others(k);
      if stamp.Some? && now - stamp.value < MIN_UNCERTAIN_AGE {
        ghost var mid := trace;
        Leave(k, Fail);
        assert trace == mid + [Advance(k, Fail)];
        BackedLater(old(trace), trace, k, d);
        return Status(409), doc;
      }
      var answer: Choice := *;
      if !answer.Answer? {
        Leave(k, answer);
        BackedLater(old(trace), trace, k, d);
        return Status(503), doc;
      }
      reply, doc := ActOn(k, req, d, answer);
    }

    /** Records DGII's answer about the number, or rebuilds the document and sends it again. */
    method ActOn(k: TxnKey, req: Req, d: Doc, answer: Choice) returns (reply: Reply, doc: Doc)
      requires Valid() && k in live && live[k] == Asking(req, d) && answer.Answer?
      modifies this
      ensures Valid() && Ran(k, old(trace), trace) && k !in live
      ensures reply == Status(200) ==> doc.state.AcceptedByDgii? && Accepted(KeyOf(k, doc)) in history
      ensures (reply.Threw? || reply == StatusFor(doc.state)) && Backed(trace, k, doc)
    {
      hide Run, Reached, Backed, Attempt, Beside, Estado.Read;
      doc := Learn(k, req, d, answer);
      if !Estado.Read(answer.estado).Missing? {
        var saved := Save(k, req, doc, ThenStop);
        reply := if !saved then Threw
                 else if doc.state.AcceptedByDgii? then Status(200)
                 else if doc.state.Signed? then Status(202) else Status(422);
        return;
      }
      var saved := Save(k, req, doc, ThenSign);
      if !saved {
        return Threw, doc;
      }
      reply, doc := SignAndSend(k, req, doc);
    }

    /** DGII's answer about an uncertain number: record it, or rebuild what it never received. */
    method Learn(k: TxnKey, req: Req, d: Doc, answer: Choice) returns (doc: Doc)
      requires Valid() && k in live && live[k] == Asking(req, d) && answer.Answer?
      modifies this
      ensures Valid() && Ran(k, old(trace), trace) && old(history) <= history
      ensures k in live
      ensures live[k] == Saving(req, doc, if Estado.Read(answer.estado).Missing? then ThenSign else ThenStop)
      ensures Estado.Read(answer.estado).Missing? || doc.state.AcceptedByDgii? || doc.state.Signed?
              || doc.state.RejectedByDgii?
      ensures doc.state.AcceptedByDgii? ==> Accepted(KeyOf(k, doc)) in history
    {
      hide Run, Reached, Next, Continue, Found, Estado.Read;
      ghost var before := M();
      var verdict := Estado.Read(answer.estado);
      if verdict.Missing? {
        history := history + [Missing(KeyOf(k, d))];
        doc := Apply(d, req);
        live := live[k := Saving(req, doc, ThenSign)];
      } else {
        doc := ReadFound(d, answer);
        if verdict.Accepts? {
          history := history + [Accepted(KeyOf(k, d))];
        } else if verdict.Rejects? {
          history := history + [Rejected(KeyOf(k, d))];
        }
        live := live[k := Saving(req, doc, ThenStop)];
      }
      LearnStep(before, k, req, d, answer);
      Record(Advance(k, answer), before);
    }

    /** The document of a number that DGII knows. */
    static method ReadFound(d: Doc, answer: Choice) returns (doc: Doc)
      requires answer.Answer?
      ensures doc == Found(d, Estado.Read(answer.estado), if HasTrack(d) then "" else answer.track,
                           if d.sentAt.Some? then d.sentAt else Some(answer.now))
      ensures KeepsNumber(d, doc) && (doc.state.AcceptedByDgii? <==> Estado.Read(answer.estado).Accepts?)
      ensures doc.state.AcceptedByDgii? || doc.state.Signed? || doc.state.RejectedByDgii?
    {
      doc := d;
      if !HasTrack(doc) && answer.track != "" {
        doc := doc.(track := Some(answer.track));
      }
      if doc.sentAt.None? {
        doc := doc.(sentAt := Some(answer.now));
      }
      match Estado.Read(answer.estado) {
        case Accepts => doc := doc.(state := AcceptedByDgii);
        case Rejects => doc := doc.(state := RejectedByDgii);
        case _ => doc := doc.(state := Signed);
      }
    }

    /** handleExistingDocument: the branches on the stored state. */
    method HandleExisting(k: TxnKey, req: Req, again: bool) returns (reply: Reply, doc: Doc)
      requires Valid() && k in live && live[k] == Lookup(req, again) && k in rows
      modifies this
      ensures Valid() && Ran(k, old(trace), trace) && k !in live
      ensures reply == Status(200) ==> doc.state.AcceptedByDgii?
      ensures reply == Status(200) && AllTruthful(START, trace) ==> Accepted(KeyOf(k, doc)) in history
      ensures Backed(trace, k, doc)
      ensures var d := old(rows)[k];
              d.state !in {SequenceAllocated, SigningFailed, SchemaInvalid, Unsigned, AwaitingTransmission, Uncertain,
                           RejectedByDgii} ==>
                && doc == d && rows == old(rows) && history == old(history)
                && reply == if d.edit != req.edit then Status(409)
                            else if d.state.AcceptedByDgii? then Status(200) else Status(202)
      ensures old(rows)[k].state in {SequenceAllocated, SigningFailed, SchemaInvalid, Unsigned, AwaitingTransmission,
                                     Uncertain, RejectedByDgii} ==>
                reply.Threw? || reply == StatusFor(doc.state) || reply in {Status(409), Status(503)}
    {
      hide Run, Reached, Backed, Attempt, Beside, AllTruthful;
      doc := rows[k];
      if NeverTransmitted(doc.state) {
        doc := Apply(doc, req);
        Turn(k, Proceed, Saving(req, doc, ThenSign));
        var saved := Save(k, req, doc, ThenSign);
        if !saved {
          return Threw, doc;
        }
        reply, doc := SignAndSend(k, req, doc);
        return;
      }
      if doc.state.Uncertain? || doc.state.AwaitingTransmission? {
        Turn(k, Proceed, Asking(req, doc));
        var stamp: Option<int>, now: int := *, *;
        reply, doc := ReconcileUncertain(k, req, doc, stamp, now);
        return;
      }
      if doc.state.RejectedByDgii? {
        Turn(k, Proceed, Redrawing(req, doc));
        var returned;
        reply, doc, returned := Reissue(k, req, doc);
        return;
      }
      Leave(k, Proceed);
      ReachedIsBacked(M(), trace, k);
      if doc.state.AcceptedByDgii? {
        ReachedIsHonest(M(), trace, k);
      }
      reply := if doc.edit != req.edit then Status(409)
               else if doc.state.AcceptedByDgii? then Status(200) else Status(202);
    }

    /**
     A rejected row starts over with a fresh number, which goes back to the allocator when it cannot
     be stored.
     */
    method Reissue(k: TxnKey, req: Req, d: Doc) returns (reply: Reply, doc: Doc, returned: Option<string>)
      requires Valid() && k in live && live[k] == Redrawing(req, d)
      modifies this
      ensures Valid() && Ran(k, old(trace), trace) && k !in live
      ensures reply == Status(200) ==> doc.state.AcceptedByDgii? && Accepted(KeyOf(k, doc)) in history
      ensures (reply.Threw? || reply == StatusFor(doc.state)) && Backed(trace, k, doc)
      ensures returned.Some? ==>
                && reply.Threw? && returned.value == doc.encf
                && forall scope :: AllFresh(START, trace, scope) ==> Fresh(M(), k, doc.encf, scope)
    {
      hide Run, Reached, Backed, Attempt, Beside, JustDrawn, AllFresh, Fresh, Draws;
      doc, returned := d, None;
      ReachedIsBacked(M(), trace, k);
      Others(k);
      var number: Choice := *;
      if !number.Number? {
        Leave(k, number);
        BackedLater(old(trace), trace, k, d);
        return Threw, doc, None;
      }
      doc := doc.(encf := number.encf);
      doc := doc.(track := None);
      doc := doc.(code := None);
      doc := doc.(sentAt := None);
      doc := Apply(doc, req);
      DrawsNow(M(), k, number);
      DrawIsLast(M(), trace, k, number);
      Turn(k, number, Saving(req, doc, ThenSign));
      returned := SaveDrawn(k, req, doc);
      if returned.Some? {
        return Threw, doc, returned;
      }
      reply, doc := SignAndSend(k, req, doc);
    }

    /** submit, from the lookup of the transaction on. */
    method Submit(req: Req) returns (reply: Reply, doc: Option<Doc>)
      requires Valid() && req.key !in live
      modifies this
      ensures Valid() && Ran(req.key, old(trace), trace) && req.key !in live
      ensures AllGuarded(START, trace) ==> Disciplined(history)
      ensures forall scope, home :: AllFresh(START, trace, scope) && AtHome(trace, scope, home) ==> Disciplined(history)
      ensures reply == Status(200) ==> doc.Some? && Affirmed(Answers(START, trace), KeyOf(req.key, doc.value))
      ensures reply == Status(200) ==> doc.value.state.AcceptedByDgii?
      ensures doc.Some? && doc.value.state.RejectedByDgii? ==> Refused(Answers(START, trace), KeyOf(req.key, doc.value))
      ensures reply == Status(200) && AllTruthful(START, trace) ==>
                doc.Some? && Accepted(KeyOf(req.key, doc.value)) in history
    {
      hide Run, Reached, Backed, Attempt, Beside, AllTruthful, AllGuarded, AllFresh, AtHome, Disciplined;
      var k := req.key;
      Arrive(req);
      Others(k);
      var readable: bool := *;
      if !readable {
        Leave(k, Fail);
        ReachedIsDisciplined(M(), trace);
        return Status(500), None;
      }
      if k in rows {
        var d;
        reply, d := HandleExisting(k, req, false);
        ReachedIsDisciplined(M(), trace);
        BackedMeans(trace, k, d);
        return if reply.Threw? then Status(500) else reply, Some(d);
      }
      Turn(k, Proceed, Drawing(req));
      reply, doc := IssueNew(k, req);
      ReachedIsDisciplined(M(), trace);
      if doc.Some? {
        BackedMeans(trace, k, doc.value);
      }
    }

    /** The request is admitted once no other request for its transaction is live. */
    method Arrive(req: Req)
      requires Valid() && req.key !in live
      modifies this
      ensures Valid() && Ran(req.key, old(trace), trace)
      ensures req.key in live && live[req.key] == Lookup(req, false)
    {
      hide Run, Reached;
      ghost var before := M();
      assert before.history + [] == before.history;
      live := live[req.key := Lookup(req, false)];
      Record(Begin(req), before);
    }

    /** The part of submit for a transaction without a row. */
    method IssueNew(k: TxnKey, req: Req) returns (reply: Reply, doc: Option<Doc>)
      requires Valid() && k in live && live[k] == Drawing(req)
      modifies this
      ensures Valid() && Ran(k, old(trace), trace) && k !in live
      ensures doc.Some? ==> Backed(trace, k, doc.value)
      ensures reply == Status(200) ==> doc.Some? && doc.value.state.AcceptedByDgii?
      ensures reply == Status(200) && AllTruthful(START, trace) ==>
                doc.Some? && Accepted(KeyOf(k, doc.value)) in history
    {
      hide Run, Reached, Backed, Attempt, Beside, AllTruthful, JustDrawn, AllFresh, Fresh, Draws;
      Others(k);
      var number: Choice := *;
      if !number.Number? {
        Leave(k, number);
        return Status(503), None;
      }
      var d := NewDoc(number.encf, req);
      DrawsNow(M(), k, number);
      DrawIsLast(M(), trace, k, number);
      Turn(k, number, Inserting(req, d));
      var returned := Insert(k, req, d);
      if returned.None? {
        reply, d := SignAndSend(k, req, d);
        return reply, Some(d);
      }
      if k in live {
        reply, doc := ReturnWinner(k, req);
        return;
      }
      return Status(500), None;
    }

    /** After a unique violation: hand over to the document that won. */
    method ReturnWinner(k: TxnKey, req: Req) returns (reply: Reply, doc: Option<Doc>)
      requires Valid() && k in live && live[k] == Lookup(req, true)
      modifies this
      ensures Valid() && Ran(k, old(trace), trace) && k !in live
      ensures doc.Some? ==> Backed(trace, k, doc.value)
      ensures reply == Status(200) ==> doc.Some? && doc.value.state.AcceptedByDgii?
      ensures reply == Status(200) && AllTruthful(START, trace) ==>
                doc.Some? && Accepted(KeyOf(k, doc.value)) in history
    {
      hide Run, Reached, Backed, Attempt, Beside, AllTruthful;
      Others(k);
      var readable: bool := *;
      if !readable {
        Leave(k, Fail);
        return Threw, None;
      }
      if k !in rows {
        Leave(k, Proceed);
        return Status(500), None;
      }
      var d;
      reply, d := HandleExisting(k, req, true);
      doc := Some(d);
    }

    /**
     add + saveChanges; a number that is not stored goes back to the allocator, and after a unique
     violation the submission looks for the winner.
     */
    method Insert(k: TxnKey, req: Req, d: Doc) returns (returned: Option<string>)
      requires Valid() && k in live && live[k] == Inserting(req, d) && JustDrawn(trace, k, d.encf)
      modifies this
      ensures Valid() && Ran(k, old(trace), trace)
      ensures returned.None? ==> k in live && live[k] == Signing(req, d) && k in rows && rows[k] == d
      ensures returned.Some? ==> returned.value == d.encf && (k in live ==> live[k] == Lookup(req, true))
      ensures returned.Some? ==> forall scope :: AllFresh(START, trace, scope) ==> Fresh(M(), k, d.encf, scope)
    {
      hide Run, Reached, JustDrawn, Attempt, AllFresh, Fresh, Beside;
      Others(k);
      ghost var before := M();
      assert before.history + [] == before.history;
      var connected: bool := *;
      returned := Some(d.encf);
      if !connected {
        live := live - {k};
      } else {
        match D.Execute(rows, D.Insert(k, d)) {
          case Some(next) =>
            rows := next;
            writers := Touched(writers, {k});
            returned := None;
            live := live[k := Signing(req, d)];
          case None =>
            live := live[k := Lookup(req, true)];
        }
      }
      ghost var own := Advance(k, if connected then Proceed else Fail);
      ghost var mid := trace;
      Record(own, before);
      if returned.Some? {
        ReachedByTrace(before, mid);
        ReachedByTrace(M(), trace);
        Attempted(k, old(trace), mid, own, false);
        FailedAttemptFrees(old(trace), k, d.encf, trace);
      }
    }

    /** Any number of steps of anybody but one reader. */
    method OthersBeside(i: nat, k: TxnKey, d: Doc) returns (ghost ls: seq<Label>)
      requires Valid() && StillReads(M(), i, k, d)
      modifies this
      ensures Valid() && trace == old(trace) + ls && forall l :: l in ls ==> Elsewhere(i, l)
      ensures StillReads(M(), i, k, d) && writers[i].write == old(writers[i].write) && old(history) <= history
    {
      hide Run, Reached;
      var steps: seq<Label> := *;
      var now := Machine(rows, live, history, writers);
      ls := [];
      if forall l :: l in steps ==> Elsewhere(i, l) {
        ElsewhereKeepsReader(now, i, k, d, steps);
        now := Meanwhile(steps);
        ls := steps;
      }
    }

    /**
     The refresh of getBySourceTxnId: read, ask, and write the row over. `at` is the machine at the
     commit, which nothing in the code guards.
     */
    method RefreshRow(k: TxnKey, i: nat) returns (doc: Doc, connected: bool, ghost at: Machine)
      requires Valid() && k in rows && i !in writers
      modifies this
      ensures Valid() && M() == Next(at, Commit(i, connected))
      ensures doc.state.AcceptedByDgii? && AllTruthful(START, trace) ==> Accepted(KeyOf(k, doc)) in history
      ensures exists r, e, t, o, p ::
                && trace == old(trace) + [Look(i, k)] + o + [Refresh(i, r, e, t)] + p + [Commit(i, connected)]
                && forall l :: l in o + p ==> Elsewhere(i, l)
      ensures rows == at.rows || (k in at.rows && rows == at.rows[k := doc])
    {
      hide Run, Reached, AllTruthful;
      var d := ReadRow(k, i);
      ghost var read := trace;
      ghost var o := OthersBeside(i, k, d);
      var resultado: string, estado: string, track: string := *, *, *;
      var store;
      store, doc := AskAbout(k, i, d, resultado, estado, track);
      ghost var p := OthersBeside(i, k, d);
      connected := *;
      at := M();
      StoreRow(k, i, doc, store, connected);
      assert trace == old(trace) + [Look(i, k)] + o + [Refresh(i, resultado, estado, track)]
        + p + [Commit(i, connected)];
      assert forall l :: l in o + p ==> l in o || l in p;
      if AllTruthful(START, trace) {
        assert trace == read + o + [Refresh(i, resultado, estado, track)] + p + [Commit(i, connected)];
        TruthfulBefore(read, trace);
      }
    }

    method ReadRow(k: TxnKey, i: nat) returns (d: Doc)
      requires Valid() && k in rows && i !in writers
      modifies this
      ensures Valid() && trace == old(trace) + [Look(i, k)] && StillReads(M(), i, k, d) && writers[i].write == map[]
      ensures d.state.AcceptedByDgii? && AllTruthful(START, trace) ==> Accepted(KeyOf(k, d)) in history
    {
      hide Run, Reached, AllTruthful;
      ghost var before := M();
      d := rows[k];
      writers := writers[i := Opened(Machine(rows, live, history, writers), [k], Single)];
      Record(Look(i, k), before);
      if d.state.AcceptedByDgii? {
        ReachedIsHonest(M(), trace, k);
      }
    }

    method AskAbout(k: TxnKey, i: nat, d: Doc, resultado: string, estado: string, track: string)
      returns (store: bool, doc: Doc)
      requires Valid() && StillReads(M(), i, k, d) && writers[i].write == map[]
      modifies this
      ensures Valid() && trace == old(trace) + [Refresh(i, resultado, estado, track)] && StillReads(M(), i, k, d)
      ensures writers[i].write == (if store then map[k := doc] else map[]) && old(history) <= history
      ensures !store ==> doc == d
      ensures store && doc.state.AcceptedByDgii? ==> Accepted(KeyOf(k, doc)) in history
    {
      hide Run, Reached, Next, Estado.Read, Refreshed;
      ghost var before := M();
      var verdict;
      store, doc, verdict := ReadRefresh(d, resultado, estado, track);
      if store && verdict.Accepts? {
        history := history + [Accepted(KeyOf(k, doc))];
      } else if store && verdict.Rejects? {
        history := history + [Rejected(KeyOf(k, doc))];
      }
      writers := writers[i := writers[i].(write := if store then map[k := doc] else map[])];
      assert history == before.history + Refreshed(k, d, resultado, estado, track).told;
      AskStep(before, i, k, d, resultado, estado, track);
      Record(Refresh(i, resultado, estado, track), before);
    }

    /** update + saveChanges with the row as it was read, plus the answer. */
    method StoreRow(k: TxnKey, i: nat, doc: Doc, store: bool, connected: bool)
      requires Valid() && i in writers && writers[i].keys == [k] && writers[i].kind.Single?
      requires writers[i].write == if store then map[k := doc] else map[]
      modifies this
      ensures Valid() && trace == old(trace) + [Commit(i, connected)]
      ensures M() == Next(old(M()), Commit(i, connected)) && history == old(history)
      ensures rows == old(rows) || (k in old(rows) && rows == old(rows)[k := doc])
    {
      hide Run, Reached, Next, D.Execute, Touched;
      ghost var before := M();
      StoreStep(before, i, k, connected);
      var others := writers - {i};
      writers := others;
      if store && connected {
        match D.Execute(rows, D.Update(k, doc)) {
          case Some(next) =>
            rows := next;
            writers := Touched(others, {k});
          case None =>
        }
      }
      ExecuteUpdates(before.rows, k, doc);
      Record(Commit(i, connected), before);
    }

    static method ReadRefresh(d: Doc, resultado: string, estado: string, track: string)
      returns (store: bool, doc: Doc, verdict: Estado.Verdict)
      ensures forall k :: Refreshed(k, d, resultado, estado, track) ==
                          if store then Finding(Some(doc), VerdictEvents(KeyOf(k, d), verdict)) else NOTHING
      ensures KeepsNumber(d, doc)
      ensures !store ==> doc == d
      ensures store ==> (doc.state.AcceptedByDgii? <==> verdict.Accepts?)
    {
      doc, store, verdict := d, false, Estado.Missing;
      if !Refreshable(doc.state) {
        return;
      }
      if HasTrack(doc) {
        verdict := Estado.Read(resultado);
        if verdict.Accepts? {
          doc := doc.(state := AcceptedByDgii);
          store := true;
        } else if verdict.Rejects? {
          doc := doc.(state := RejectedByDgii);
          store := true;
        }
      } else if doc.encf != "" {
        verdict := Estado.Read(estado);
        if !verdict.Missing? {
          if track != "" {
            doc := doc.(track := Some(track));
          }
          match verdict {
            case Accepts => doc := doc.(state := AcceptedByDgii);
            case Rejects => doc := doc.(state := RejectedByDgii);
            case _ => doc := doc.(state := Signed);
          }
          store := true;
        }
      }
    }
  }
}
