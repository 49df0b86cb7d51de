/** Whose content a stored document carries: all of it is one request's, for that transaction and number. */
module IssuanceRequests {
  import opened Wrappers
  import opened Documents
  import opened Issuance
  import opened IssuancePlacement
  import opened IssuanceFreshness
  import Estado
  import D = DbContext
  import R = Reconciler

  /** The document is what the request wants printed, under the number that it holds. */
  predicate Prints(d: Doc, r: Req) {
    && d.edit == r.edit && d.rnc == r.rnc && d.total == r.total
    && d.xml.encf == d.encf && d.xml.rnc == r.rnc && d.xml.content == r.content
  }

  ghost predicate Requested(reqs: set<Req>, k: TxnKey, d: Doc) {
    exists r :: r in reqs && r.key == k && Prints(d, r)
  }

  ghost predicate PhaseRequested(reqs: set<Req>, k: TxnKey, p: Phase) {
    p.req in reqs && p.req.key == k && (HasCopy(p) ==> Requested(reqs, k, p.doc))
  }

  ghost predicate WriterRequested(reqs: set<Req>, w: Writer) {
    && (forall k :: k in w.read ==> Requested(reqs, k, w.read[k]))
    && (forall k :: k in w.write ==> Requested(reqs, k, w.write[k]))
  }

  ghost predicate AllRequested(m: Machine, reqs: set<Req>) {
    && (forall k :: k in m.rows ==> Requested(reqs, k, m.rows[k]))
    && (forall k :: k in m.live ==> PhaseRequested(reqs, k, m.live[k]))
    && (forall i :: i in m.writers ==> WriterRequested(reqs, m.writers[i]))
  }

  predicate SameContent(d: Doc, d': Doc) {
    d'.edit == d.edit && d'.rnc == d.rnc && d'.total == d.total && d'.xml == d.xml && d'.encf == d.encf
  }

  lemma SameIsRequested(reqs: set<Req>, k: TxnKey, d: Doc, d': Doc)
    requires SameContent(d, d')
    ensures Requested(reqs, k, d) ==> Requested(reqs, k, d')
  {
    if Requested(reqs, k, d) {
      var r :| r in reqs && r.key == k && Prints(d, r);
      assert Prints(d', r);
    }
  }

  /** The content of a copy or a save is that of the copy before, of the row, or of the request itself. */
  predicate Inherits(rows: D.Rows, k: TxnKey, p: Phase, d: Doc) {
    || (HasCopy(p) && SameContent(p.doc, d))
    || (k in rows && SameContent(rows[k], d))
    || Prints(d, p.req)
  }

  predicate EffectInherits(rows: D.Rows, k: TxnKey, p: Phase, e: Effect) {
    && (e.save.Some? ==> Inherits(rows, k, p, e.save.value))
    && (e.next.Some? ==> e.next.value.req == p.req)
    && (e.next.Some? && HasCopy(e.next.value) ==> Inherits(rows, k, p, e.next.value.doc))
  }

  lemma PostingInherits(rows: D.Rows, k: TxnKey, req: Req, d: Doc, c: Choice)
    ensures EffectInherits(rows, k, Posting(req, d), AfterPosting(k, req, d, c))
  {
    OutcomeFits(d, c);
    hide Outcome, VerdictEvents;
  }

  lemma StepInherits(rows: D.Rows, k: TxnKey, p: Phase, c: Choice)
    ensures EffectInherits(rows, k, p, Continue(rows, k, p, c))
  {
    hide Estado.Read, VerdictEvents, D.NumberFree, AfterPosting;
    if p.Posting? {
      PostingInherits(rows, k, p.req, p.doc, c);
    }
  }

  lemma InheritsRequested(m: Machine, reqs: set<Req>, k: TxnKey, d: Doc)
    requires AllRequested(m, reqs) && k in m.live && Inherits(m.rows, k, m.live[k], d)
    ensures Requested(reqs, k, d)
  {
    var p := m.live[k];
    assert PhaseRequested(reqs, k, p);
    if HasCopy(p) && SameContent(p.doc, d) {
      SameIsRequested(reqs, k, p.doc, d);
    } else if k in m.rows && SameContent(m.rows[k], d) {
      SameIsRequested(reqs, k, m.rows[k], d);
    }
  }

  lemma RequestedEnact(m: Machine, reqs: set<Req>, k: TxnKey, e: Effect)
    requires AllRequested(m, reqs)
    requires e.save.Some? ==> Requested(reqs, k, e.save.value)
    requires e.next.Some? ==> PhaseRequested(reqs, k, e.next.value)
    ensures AllRequested(Enact(m, k, e), reqs)
  {
    hide Requested;
    var m' := Enact(m, k, e);
    forall i | i in m'.writers ensures WriterRequested(reqs, m'.writers[i]) {
      assert WriterRequested(reqs, m.writers[i]);
    }
    forall j | j in m'.live ensures PhaseRequested(reqs, j, m'.live[j]) {
      assert j in m.live ==> PhaseRequested(reqs, j, m.live[j]);
    }
  }

  lemma RequestedAdvance(m: Machine, reqs: set<Req>, k: TxnKey, c: Choice)
    requires AllRequested(m, reqs) && k in m.live
    ensures AllRequested(Enact(m, k, Continue(m.rows, k, m.live[k], c)), reqs)
  {
    hide Inherits, Continue, Requested;
    var e := Continue(m.rows, k, m.live[k], c);
    StepInherits(m.rows, k, m.live[k], c);
    assert PhaseRequested(reqs, k, m.live[k]);
    if e.save.Some? { InheritsRequested(m, reqs, k, e.save.value); }
    if e.next.Some? && HasCopy(e.next.value) { InheritsRequested(m, reqs, k, e.next.value.doc); }
    hide AllRequested;
    RequestedEnact(m, reqs, k, e);
  }

  lemma RequestedHeard(m: Machine, reqs: set<Req>, i: nat, write: map<TxnKey, Doc>, told: seq<Event>)
    requires AllRequested(m, reqs) && i in m.writers && forall k :: k in write ==> Requested(reqs, k, write[k])
    ensures AllRequested(Heard(m, i, write, told), reqs)
  {
    hide Requested, PhaseRequested;
  }

  lemma FindingKeepsContent(k: TxnKey, d: Doc, l: Label)
    requires l.Refresh? || l.StatusQuery?
    ensures var f := if l.Refresh? then Refreshed(k, d, l.resultado, l.estado, l.track)
                     else Queried(d, l.asked, l.estado);
            f.save.Some? ==> SameContent(d, f.save.value)
  {
    hide Estado.Read, VerdictEvents, Denied;
  }

  lemma CheckKeepsContent(d: Doc, now: int, o: R.Options, a: R.Answer)
    ensures SameContent(d, R.Checked(d, now, o, a))
  {
    hide R.Verdict, R.Aged;
  }

  lemma RequestedReader(m: Machine, reqs: set<Req>, l: Label)
    requires AllRequested(m, reqs) && (l.Refresh? || l.StatusQuery? || l.Hear?) && l.id in m.writers
    ensures AllRequested(Next(m, l), reqs)
  {
    var w := m.writers[l.id];
    assert WriterRequested(reqs, w);
    hide AllRequested, Refreshed, Queried, BatchEvents, R.Checked, Requested, SameContent;
    if l.Hear? {
      if w.kind.Batch? && l.key in w.read {
        var c := R.Checked(w.read[l.key], w.kind.now, w.kind.options, l.answer);
        CheckKeepsContent(w.read[l.key], w.kind.now, w.kind.options, l.answer);
        SameIsRequested(reqs, l.key, w.read[l.key], c);
        RequestedHeard(m, reqs, l.id, w.write[l.key := c],
                       BatchEvents(l.key, w.read[l.key], w.kind.now, w.kind.options, l.answer));
      }
    } else if OneRow(w) {
      var k := w.keys[0];
      var f := if l.Refresh? then Refreshed(k, w.read[k], l.resultado, l.estado, l.track)
               else Queried(w.read[k], l.asked, l.estado);
      FindingKeepsContent(k, w.read[k], l);
      if f.save.Some? { SameIsRequested(reqs, k, w.read[k], f.save.value); }
      RequestedHeard(m, reqs, l.id, OneWrite(k, f), f.told);
    }
  }

  lemma RequestedQuiet(m: Machine, reqs: set<Req>, l: Label)
    requires AllRequested(m, reqs) && (l.Look? || l.Fetch? || l.Commit? || l.Adjudicate?)
    ensures AllRequested(Next(m, l), reqs)
  {
    hide Requested, PhaseRequested, D.ExecuteAll, D.Updates, R.Due;
    var m' := Next(m, l);
    forall i | i in m'.writers ensures WriterRequested(reqs, m'.writers[i]) {
      assert i in m.writers ==> WriterRequested(reqs, m.writers[i]);
    }
    assert l.Commit? && l.id in m.writers ==> WriterRequested(reqs, m.writers[l.id]);
  }

  lemma RequestedNext(m: Machine, reqs: set<Req>, l: Label)
    requires AllRequested(m, reqs) && (l.Begin? ==> l.req in reqs)
    ensures AllRequested(Next(m, l), reqs)
  {
    hide AllRequested, Continue, Refreshed, Queried, BatchEvents, R.Checked, R.IsDueBatch, Committed;
    match l {
      case Begin(req) => if req.key !in m.live { RequestedEnact(m, reqs, req.key, Go(Lookup(req, false))); }
      case Advance(k, c) => if k in m.live { RequestedAdvance(m, reqs, k, c); }
      case Crash(k) => RequestedEnact(m, reqs, k, Stop());
      case Refresh(i, _, _, _) => if i in m.writers { RequestedReader(m, reqs, l); }
      case StatusQuery(i, _, _) => if i in m.writers { RequestedReader(m, reqs, l); }
      case Hear(i, _, _) => if i in m.writers { RequestedReader(m, reqs, l); }
      case _ => RequestedQuiet(m, reqs, l);
    }
  }

  lemma {:induction false} RequestedRun(m: Machine, reqs: set<Req>, ls: seq<Label>)
    requires AllRequested(m, reqs) && forall l :: l in ls && l.Begin? ==> l.req in reqs
    ensures AllRequested(Run(m, ls), reqs)
    decreases |ls|
  {
    hide AllRequested, Next;
    if ls != [] {
      RequestedNext(m, reqs, ls[0]);
      RequestedRun(Next(m, ls[0]), reqs, ls[1..]);
    }
  }

  /**
   In every run all of a stored document - edit sequence, issuer, total and XML - is of one request that
   arrived for its transaction, also after re-issues and late commits.
   */
  lemma StoredContentIsARequests(ls: seq<Label>, k: TxnKey) returns (r: Req)
    requires k in Run(START, ls).rows
    ensures Begin(r) in ls && r.key == k
    ensures var d := Run(START, ls).rows[k];
            && d.edit == r.edit && d.rnc == r.rnc && d.total == r.total
            && d.xml == Xml(d.encf, r.rnc, r.content)
  {
    hide Run;
    var reqs := set l | l in ls && l.Begin? :: l.req;
    RequestedRun(START, reqs, ls);
    r :| r in reqs && r.key == k && Prints(Run(START, ls).rows[k], r);
  }
}
