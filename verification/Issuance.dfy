/**
 The issuance protocol as a transition system: durable rows, the live submission of each
 transaction, and the history of what happened at DGII. Every step is atomic; a crash, a lost
 connection or a step of any other transaction may come between two steps of a submission.
 Submissions of one (tenant, transaction, ambiente) are serialised: a step that would break that
 leaves the machine as it is. Every other writer (refresh, status query, reconciler pass) reads,
 asks DGII and commits in separate steps, and writes back whole rows as it read them.
 */
module Issuance {
  import opened Wrappers
  import opened Documents
  import Estado
  import D = DbContext
  import R = Reconciler

  /** `Rejected` and `Missing` are answers as the engine reads them; `Accepted` is a fact at DGII. */
  datatype Event =
    | Sent(from: TxnKey, number: FiscalKey)
    | Missing(number: FiscalKey)
    | Rejected(number: FiscalKey)
    | Accepted(number: FiscalKey)

  datatype After = ThenSign | ThenPost | ThenStop

  /** Where a live submission stands, with its private copy of the document. */
  datatype Phase =
    | Lookup(req: Req, again: bool)
    | Drawing(req: Req)
    | Inserting(req: Req, doc: Doc)
    | Redrawing(req: Req, doc: Doc)
    | Saving(req: Req, doc: Doc, after: After)
    | Signing(req: Req, doc: Doc)
    | Posting(req: Req, doc: Doc)
    | Asking(req: Req, doc: Doc)

  /** What the outside world contributes to one step. */
  datatype Choice =
    | Proceed
    | Fail
    | Number(encf: string)
    | Signature(value: string, valid: bool, fallback: bool)
    | Answer(estado: string, track: string, now: int)
    | NotPosted
    | Lost
    | Received(track: string, error: string, immediate: string, now: int)
    | Summary(codigo: int, estado: string, now: int)

  /** What one step does: at most one commit of the own row, events at DGII, and the next phase. */
  datatype Effect = Effect(save: Option<Doc>, told: seq<Event>, next: Option<Phase>)

  datatype Label =
    | Begin(req: Req)
    | Advance(key: TxnKey, choice: Choice)
    | Crash(key: TxnKey)
    | Look(id: nat, key: TxnKey)
    | Refresh(id: nat, resultado: string, estado: string, track: string)
    | StatusQuery(id: nat, asked: FiscalKey, estado: string)
    | Fetch(id: nat, now: int, options: R.Options, due: seq<TxnKey>)
    | Hear(id: nat, key: TxnKey, answer: R.Answer)
    | Commit(id: nat, connected: bool)
    | Adjudicate(number: FiscalKey)

  datatype Kind = Batch(now: int, options: R.Options) | Single

  /**
   A refresh, status query or pass between its read and its commit: the rows as read, the rows as
   it means to write them, and the keys whose rows nobody has written since (`current`; a read under
   a live submission does not count).
   */
  datatype Writer = Writer(keys: seq<TxnKey>, read: map<TxnKey, Doc>, write: map<TxnKey, Doc>,
                           current: set<TxnKey>, kind: Kind)

  type Writers = map<nat, Writer>

  datatype Machine = Machine(rows: D.Rows, live: map<TxnKey, Phase>, history: seq<Event>, writers: Writers)

  const START := Machine(map[], map[], [], map[])

  /** The rows `ks` were written: no reader of them is up to date any more. */
  function Touched(ws: Writers, ks: set<TxnKey>): Writers {
    map i | i in ws :: ws[i].(current := ws[i].current - ks)
  }

  function Stop(): Effect {
    Effect(None, [], None)
  }

  function Go(p: Phase): Effect {
    Effect(None, [], Some(p))
  }

  function Enact(m: Machine, k: TxnKey, e: Effect): Machine {
    Machine(if e.save.Some? then m.rows[k := e.save.value] else m.rows,
            if e.next.Some? then m.live[k := e.next.value] else m.live - {k},
            m.history + e.told,
            if e.save.Some? then Touched(m.writers, {k}) else m.writers)
  }

  // ---- Steps of one submission ------------------------------------------------------------

  /** handleExistingDocument: what the durable state allows. */
  function Dispatch(req: Req, d: Doc): Effect {
    if NeverTransmitted(d.state) then Go(Saving(req, Apply(d, req), ThenSign))
    else if d.state.Uncertain? || d.state.AwaitingTransmission? then Go(Asking(req, d))
    else if d.state.RejectedByDgii? then Go(Redrawing(req, d))
    else Stop()
  }

  /** The content of a rejected row rebuilt around a fresh number. */
  function Reissued(d: Doc, req: Req, encf: string): Doc {
    Apply(d.(encf := encf, track := None, code := None, sentAt := None), req)
  }

  /** The first half of signAndSend: sign, validate, refuse the fallback certificate. */
  function AfterSigning(req: Req, d: Doc, c: Choice): Effect {
    if c.Signature? && |c.value| >= 6 then
      var sealed := d.(payload := Some(Sealed(d.xml, c.value)), code := Some(c.value[..6]),
                       state := AwaitingTransmission);
      if !c.valid then Go(Saving(req, sealed.(state := SchemaInvalid), ThenStop))
      else if c.fallback then Go(Saving(req, sealed.(state := Unsigned, payload := None, code := None), ThenStop))
      else Go(Saving(req, sealed, ThenPost))
    else
      Go(Saving(req, d.(payload := Some(Plain(d.xml)), state := SigningFailed), ThenStop))
  }

  /** The document after the POST, or `None` for an answer that says nothing (or never came). */
  function Outcome(d: Doc, c: Choice): Option<(Doc, Estado.Verdict)> {
    if c.Received? && !IsSummary(d) && c.track != "" then
      var tracked := d.(track := Some(c.track), state := Signed, sentAt := Some(c.now));
      match Estado.Read(c.immediate)
      case Accepts => Some((tracked.(state := AcceptedByDgii), Estado.Accepts))
      case Rejects => Some((tracked.(state := RejectedByDgii), Estado.Rejects))
      case _ => Some((tracked, Estado.InProcess))
    else if c.Received? && !IsSummary(d) && c.error != "" then
      Some((d.(state := RejectedByDgii), Estado.Rejects))
    else if c.Summary? && IsSummary(d) then
      if c.codigo == 1 || Estado.Read(c.estado).Accepts?
      then Some((d.(track := d.code, state := AcceptedByDgii, sentAt := Some(c.now)), Estado.Accepts))
      else Some((d.(state := RejectedByDgii), Estado.Rejects))
    else None
  }

  function VerdictEvents(n: FiscalKey, v: Estado.Verdict): seq<Event> {
    match v
    case Accepts => [Accepted(n)]
    case Rejects => [Rejected(n)]
    case _ => []
  }

  /** The second half of signAndSend: the POST, its answer, and the immediate status check. */
  function AfterPosting(k: TxnKey, req: Req, d: Doc, c: Choice): Effect {
    var n := KeyOf(k, d);
    if c.NotPosted? then Go(Saving(req, d.(state := Uncertain), ThenStop))
    else match Outcome(d, c)
      case None => Effect(None, [Sent(k, n)], Some(Saving(req, d.(state := Uncertain), ThenStop)))
      case Some(o) => Effect(None, [Sent(k, n)] + VerdictEvents(n, o.1), Some(Saving(req, o.0, ThenStop)))
  }

  /** The row after DGII knew the number; `track` is what consultarTrackIds offers. */
  function Found(d: Doc, v: Estado.Verdict, track: string, sentAt: Option<int>): Doc {
    d.(track := if track != "" then Some(track) else d.track,
       sentAt := sentAt,
       state := match v case Accepts => AcceptedByDgii case Rejects => RejectedByDgii case _ => Signed)
  }

  /** reconcileUncertain; a row that is too young and a failed query both end the submission. */
  function AfterAsking(k: TxnKey, req: Req, d: Doc, c: Choice): Effect {
    if !c.Answer? then Stop()
    else
      var v := Estado.Read(c.estado);
      if v.Missing? then
        Effect(None, [Missing(KeyOf(k, d))], Some(Saving(req, Apply(d, req), ThenSign)))
      else
        var found := Found(d, v, if HasTrack(d) then "" else c.track, if d.sentAt.Some? then d.sentAt else Some(c.now));
        Effect(None, VerdictEvents(KeyOf(k, d), v), Some(Saving(req, found, ThenStop)))
  }

  /** One commit of one row, and what follows it. */
  function AfterSaving(rows: D.Rows, k: TxnKey, req: Req, d: Doc, after: After, c: Choice): Effect {
    if c.Fail? || k !in rows || D.Execute(rows, D.Update(k, d)).None? then Stop()
    else match after
      case ThenSign => Effect(Some(d), [], Some(Signing(req, d)))
      case ThenPost => Effect(Some(d), [], Some(Posting(req, d)))
      case ThenStop => Effect(Some(d), [], None)
  }

  function AfterInserting(rows: D.Rows, k: TxnKey, req: Req, d: Doc, c: Choice): Effect {
    if c.Fail? then Stop()
    else if D.Execute(rows, D.Insert(k, d)).None? then Go(Lookup(req, true))
    else Effect(Some(d), [], Some(Signing(req, d)))
  }

  function Continue(rows: D.Rows, k: TxnKey, p: Phase, c: Choice): Effect {
    match p
    case Lookup(req, again) =>
      if c.Fail? then Stop()
      else if k in rows then Dispatch(req, rows[k])
      else if again then Stop()
      else Go(Drawing(req))
    case Drawing(req) =>
      if c.Number? then Go(Inserting(req, NewDoc(c.encf, req))) else Stop()
    case Inserting(req, d) => AfterInserting(rows, k, req, d, c)
    case Redrawing(req, d) =>
      if c.Number? then Go(Saving(req, Reissued(d, req, c.encf), ThenSign)) else Stop()
    case Saving(req, d, after) => AfterSaving(rows, k, req, d, after, c)
    case Signing(req, d) => AfterSigning(req, d, c)
    case Posting(req, d) => AfterPosting(k, req, d, c)
    case Asking(req, d) => AfterAsking(k, req, d, c)
  }

  // ---- Steps of the other writers ---------------------------------------------------------

  predicate Refreshable(s: State) {
    s.Signed? || s.SentToDgii? || s.Processing? || s.Uncertain? || s.AwaitingTransmission?
  }

  /** What a single-row writer learns and means to store. */
  datatype Finding = Finding(save: Option<Doc>, told: seq<Event>)

  const NOTHING := Finding(None, [])

  /** The refresh inside getBySourceTxnId: by track id when there is one, else by number. */
  function Refreshed(k: TxnKey, d: Doc, resultado: string, estado: string, track: string): Finding {
    var n := KeyOf(k, d);
    if !Refreshable(d.state) then NOTHING
    else if HasTrack(d) then
      match Estado.Read(resultado)
      case Accepts => Finding(Some(d.(state := AcceptedByDgii)), [Accepted(n)])
      case Rejects => Finding(Some(d.(state := RejectedByDgii)), [Rejected(n)])
      case _ => NOTHING
    else if d.encf != "" && !Estado.Read(estado).Missing? then
      Finding(Some(Found(d, Estado.Read(estado), track, d.sentAt)), VerdictEvents(n, Estado.Read(estado)))
    else NOTHING
  }

  /** How a status query maps DGII's vocabulary onto the state column. */
  function Mapped(estado: string): State {
    if estado == "Aceptado" || estado == "Accepted" then AcceptedByDgii
    else if estado == "Rechazado" || estado == "Rejected" then RejectedByDgii
    else if estado == "En Proceso" || estado == "EnProceso" || estado == "Processing" then SentToDgii
    else Other(estado)
  }

  function CleanRnc(s: string): string {
    if s == "" then ""
    else (if s[0] == '-' || s[0] == ' ' then "" else [s[0]]) + CleanRnc(s[1..])
  }

  predicate Denied(asked: string, stored: string) {
    asked != "" && CleanRnc(asked) != "" && CleanRnc(stored) != "" && CleanRnc(asked) != CleanRnc(stored)
  }

  /** The answer to a status query, as the fact about DGII that it is. */
  function QueryEvents(asked: FiscalKey, estado: string): seq<Event> {
    match Mapped(estado)
    case AcceptedByDgii => [Accepted(asked)]
    case RejectedByDgii => [Rejected(asked)]
    case _ => []
  }

  /** GetEcfStatusQueryHandler: the number and environment asked are the caller's. */
  function Queried(d: Doc, asked: FiscalKey, estado: string): Finding {
    if asked.encf != d.encf || Denied(asked.rnc, d.rnc) || d.state.AcceptedByDgii?
      || d.state == Other("Aceptado") then NOTHING
    else Finding(if d.state == Mapped(estado) then None else Some(d.(state := Mapped(estado))),
                 QueryEvents(asked, estado))
  }

  /** What one answer tells a pass about one of its rows. */
  function BatchEvents(k: TxnKey, d: Doc, now: int, o: R.Options, a: R.Answer): seq<Event> {
    if R.Aged(d, now, o) then [] else VerdictEvents(KeyOf(k, d), R.Verdict(d, a))
  }

  /** Not past its lookup: such a submission holds no copy of a stored row. */
  predicate Early(p: Phase) {
    p.Lookup? || p.Drawing? || p.Inserting?
  }

  function Opened(m: Machine, keys: seq<TxnKey>, kind: Kind): Writer
    requires forall k :: k in keys ==> k in m.rows
  {
    Writer(keys, R.Snapshot(m.rows, keys), map[], (set k | k in keys && (k !in m.live || Early(m.live[k]))), kind)
  }

  /** A writer has its answer: what it will write, and what that told about DGII. */
  function Heard(m: Machine, id: nat, write: map<TxnKey, Doc>, told: seq<Event>): Machine
    requires id in m.writers
  {
    m.(history := m.history + told, writers := m.writers[id := m.writers[id].(write := write)])
  }

  predicate OneRow(w: Writer) {
    w.kind.Single? && |w.keys| == 1 && w.keys[0] in w.read
  }

  function OneWrite(k: TxnKey, f: Finding): map<TxnKey, Doc> {
    if f.save.Some? then map[k := f.save.value] else map[]
  }

  function Learned(m: Machine, id: nat, f: Finding): Machine
    requires id in m.writers && OneRow(m.writers[id])
  {
    Heard(m, id, OneWrite(m.writers[id].keys[0], f), f.told)
  }

  /** A pass commits once it has been through its whole batch. */
  predicate Complete(w: Writer) {
    w.kind.Batch? ==> forall k :: k in w.keys ==> k in w.write
  }

  /** One transaction that writes the rows over, whatever they hold by now; or nothing. */
  function Committed(m: Machine, id: nat, connected: bool): Machine
    requires id in m.writers
  {
    var w := m.writers[id];
    var gone := m.writers - {id};
    var result := D.ExecuteAll(m.rows, D.Updates(w.keys, w.write));
    if connected && result.Some?
    then m.(rows := D.Overwritten(m.rows, w.keys, w.write), writers := Touched(gone, w.write.Keys))
    else m.(writers := gone)
  }

  function Next(m: Machine, l: Label): Machine {
    match l
    case Begin(req) => if req.key in m.live then m else Enact(m, req.key, Go(Lookup(req, false)))
    case Advance(k, c) => if k in m.live then Enact(m, k, Continue(m.rows, k, m.live[k], c)) else m
    case Crash(k) => Enact(m, k, Stop())
    case Look(id, k) =>
      if id !in m.writers && k in m.rows then m.(writers := m.writers[id := Opened(m, [k], Single)]) else m
    case Refresh(id, resultado, estado, track) =>
      if id in m.writers && OneRow(m.writers[id]) then
        var k := m.writers[id].keys[0];
        Learned(m, id, Refreshed(k, m.writers[id].read[k], resultado, estado, track))
      else m
    case StatusQuery(id, asked, estado) =>
      if id in m.writers && OneRow(m.writers[id]) then
        Learned(m, id, Queried(m.writers[id].read[m.writers[id].keys[0]], asked, estado))
      else m
    case Fetch(id, now, o, due) =>
      if id !in m.writers && R.IsDueBatch(m.rows, now, o, due)
      then m.(writers := m.writers[id := Opened(m, due, Batch(now, o))]) else m
    case Hear(id, k, a) =>
      if id in m.writers && m.writers[id].kind.Batch? && k in m.writers[id].read then
        var w := m.writers[id];
        Heard(m, id, w.write[k := R.Checked(w.read[k], w.kind.now, w.kind.options, a)],
              BatchEvents(k, w.read[k], w.kind.now, w.kind.options, a))
      else m
    case Commit(id, connected) =>
      if id in m.writers && Complete(m.writers[id]) then Committed(m, id, connected) else m
    case Adjudicate(n) => m.(history := m.history + [Accepted(n)])
  }

  function Run(m: Machine, ls: seq<Label>): Machine
    decreases |ls|
  {
    if ls == [] then m else Run(Next(m, ls[0]), ls[1..])
  }

  lemma {:induction false} RunConcat(m: Machine, a: seq<Label>, b: seq<Label>)
    ensures Run(m, a + b) == Run(Run(m, a), b)
    decreases |a|
  {
    if a == [] {
      assert a + b == b;
    } else {
      assert (a + b)[1..] == a[1..] + b;
      RunConcat(Next(m, a[0]), a[1..], b);
    }
  }

  lemma HistoryGrowsNext(m: Machine, l: Label)
    ensures m.history <= Next(m, l).history
  {
  }

  lemma {:induction false} HistoryGrows(m: Machine, ls: seq<Label>)
    ensures m.history <= Run(m, ls).history
    decreases |ls|
  {
    if ls != [] {
      HistoryGrowsNext(m, ls[0]);
      HistoryGrows(Next(m, ls[0]), ls[1..]);
    }
  }
}
