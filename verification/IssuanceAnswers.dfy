/**
 What DGII literally said about each number, collected along a run, and that stored verdicts follow
 from it: nothing here depends on how the engine reads an answer.
 */
module IssuanceAnswers {
  import opened Wrappers
  import opened Documents
  import opened Issuance
  import opened IssuancePlacement
  import opened IssuanceFreshness
  import opened EstadoWords
  import Estado
  import D = DbContext
  import R = Reconciler

  // ---- The raw answers ----------------------------------------------------------------------

  /**
   `Code` answers a summary, `Text` a question by track id or by number, `Refusal` an e-CF that gets no
   track id. `Reported` is what a status query for the row of `number` brought, asked about `asked`.
   `Track` is a track id given out for the number.
   */
  datatype Raw =
    | Code(number: FiscalKey, codigo: int, text: string)
    | Text(number: FiscalKey, text: string)
    | Refusal(number: FiscalKey, error: string)
    | Reported(number: FiscalKey, asked: FiscalKey, text: string)
    | Track(number: FiscalKey, id: string)

  predicate ForSummary(d: Doc) {
    |d.encf| >= 3 && (d.encf[..3] == "E32" || d.encf[..3] == "e32") && d.total < 250000.0
  }

  predicate Tracked(d: Doc) {
    d.track.Some? && d.track.value != ""
  }

  function TrackGiven(n: FiscalKey, id: string): seq<Raw> {
    if id != "" then [Track(n, id)] else []
  }

  /** The answer to a transmission; none if it was lost, or of the other service. */
  function SaidToPost(n: FiscalKey, d: Doc, c: Choice): seq<Raw> {
    if c.Summary? && ForSummary(d) then [Code(n, c.codigo, c.estado)]
    else if c.Received? && !ForSummary(d) then
      (if c.track != "" then [Text(n, c.immediate)] + TrackGiven(n, c.track)
       else if c.error != "" then [Refusal(n, c.error)] else [])
    else []
  }

  predicate AsksOnRefresh(d: Doc) {
    d.state in {Signed, SentToDgii, Processing, Uncertain, AwaitingTransmission}
  }

  /** The answer about a number, and the track id that is asked for if the number is known and has none. */
  ghost function SaidByNumber(n: FiscalKey, d: Doc, estado: string, track: string): seq<Raw> {
    [Text(n, estado)] + TrackGiven(n, if Tracked(d) || SaysNothing(estado) then "" else track)
  }

  ghost function SaidToRefresh(n: FiscalKey, d: Doc, resultado: string, estado: string, track: string): seq<Raw> {
    if !AsksOnRefresh(d) then []
    else if Tracked(d) then [Text(n, resultado)]
    else if d.encf != "" then SaidByNumber(n, d, estado, track) else []
  }

  /** A pass asks by track id, and by number when that says nothing; it asks nothing about an old row. */
  ghost function SaidToPass(n: FiscalKey, d: Doc, now: int, hours: int, a: R.Answer): seq<Raw> {
    if d.sentAt.Some? && now - d.sentAt.value >= 3600 * hours then []
    else
      var byTrack := Tracked(d) && a.resultado.Some?;
      (if byTrack then [Text(n, a.resultado.value)] else [])
      + if a.estado.Some? && (!byTrack || SaysNothing(a.resultado.value)) then [Text(n, a.estado.value)] else []
  }

  ghost function Said(m: Machine, l: Label): seq<Raw> {
    match l
    case Advance(k, c) =>
      if k in m.live && m.live[k].Posting? then SaidToPost(KeyOf(k, m.live[k].doc), m.live[k].doc, c)
      else if k in m.live && m.live[k].Asking? && c.Answer? then
        SaidByNumber(KeyOf(k, m.live[k].doc), m.live[k].doc, c.estado, c.track)
      else []
    case Refresh(i, resultado, estado, track) =>
      if i in m.writers && OneRow(m.writers[i]) then
        var k := m.writers[i].keys[0];
        SaidToRefresh(KeyOf(k, m.writers[i].read[k]), m.writers[i].read[k], resultado, estado, track)
      else []
    case StatusQuery(i, asked, estado) =>
      if i in m.writers && OneRow(m.writers[i]) then
        [Reported(KeyOf(m.writers[i].keys[0], m.writers[i].read[m.writers[i].keys[0]]), asked, estado)]
      else []
    case Hear(i, k, a) =>
      if i in m.writers && m.writers[i].kind.Batch? && k in m.writers[i].read then
        SaidToPass(KeyOf(k, m.writers[i].read[k]), m.writers[i].read[k], m.writers[i].kind.now,
                   m.writers[i].kind.options.windowHours, a)
      else []
    case _ => []
  }

  /** Everything that DGII said along a run, in order. */
  ghost function Answers(m: Machine, ls: seq<Label>): seq<Raw>
    decreases |ls|
  {
    if ls == [] then [] else Said(m, ls[0]) + Answers(Next(m, ls[0]), ls[1..])
  }

  // ---- What they mean -----------------------------------------------------------------------

  ghost predicate Affirms(r: Raw, n: FiscalKey) {
    r.number == n && match r
                     case Code(_, codigo, text) => codigo == 1 || SaysAccepted(text)
                     case Text(_, text) => SaysAccepted(text)
                     case Reported(_, _, text) => text == "Aceptado" || text == "Accepted"
                     case _ => false
  }

  ghost predicate Refuses(r: Raw, n: FiscalKey) {
    r.number == n && match r
                     case Code(_, codigo, text) => codigo != 1 && !SaysAccepted(text)
                     case Text(_, text) => SaysRejected(text)
                     case Refusal(_, error) => error != ""
                     case Reported(_, _, text) => text == "Rechazado" || text == "Rejected"
                     case _ => false
  }

  ghost predicate Affirmed(log: seq<Raw>, n: FiscalKey) {
    exists r :: r in log && Affirms(r, n)
  }

  ghost predicate Refused(log: seq<Raw>, n: FiscalKey) {
    exists r :: r in log && Refuses(r, n)
  }

  /** The track id was given out for this eNCF in this environment. */
  predicate TrackIsFrom(log: seq<Raw>, k: TxnKey, encf: string, id: string) {
    exists r :: r in log && r.Track? && r.id == id && r.number.encf == encf && r.number.amb == k.amb
  }

  /** The stored verdict was given; the stored track id too, or it is the security code of an accepted summary. */
  ghost predicate Grounded(log: seq<Raw>, k: TxnKey, d: Doc) {
    && (d.state.AcceptedByDgii? ==> Affirmed(log, KeyOf(k, d)))
    && (d.state.RejectedByDgii? ==> Refused(log, KeyOf(k, d)))
    && (Tracked(d) ==> TrackIsFrom(log, k, d.encf, d.track.value) || (d.state.AcceptedByDgii? && d.track == d.code))
  }

  ghost predicate GroundedPhase(log: seq<Raw>, k: TxnKey, p: Phase) {
    HasCopy(p) ==> Grounded(log, k, p.doc)
  }

  ghost predicate GroundedWriter(log: seq<Raw>, w: Writer) {
    && (forall k :: k in w.read ==> Grounded(log, k, w.read[k]))
    && (forall k :: k in w.write ==> Grounded(log, k, w.write[k]))
  }

  ghost predicate AllGrounded(m: Machine, log: seq<Raw>) {
    && (forall k :: k in m.rows ==> Grounded(log, k, m.rows[k]))
    && (forall k :: k in m.live ==> GroundedPhase(log, k, m.live[k]))
    && (forall i :: i in m.writers ==> GroundedWriter(log, m.writers[i]))
  }

  // ---- The engine's reading, step by step -----------------------------------------------------

  /** One answer decides, with or without a track id beside it. */
  lemma OneAnswer(r: Raw, n: FiscalKey, id: string)
    ensures Affirmed([r], n) <==> Affirms(r, n)
    ensures Refused([r], n) <==> Refuses(r, n)
    ensures Affirmed([r] + TrackGiven(n, id), n) <==> Affirms(r, n)
    ensures Refused([r] + TrackGiven(n, id), n) <==> Refuses(r, n)
    ensures !Affirmed([], n) && !Refused([], n)
  {
    assert r in [r] && r in [r] + TrackGiven(n, id);
    assert !Affirms(Track(n, id), n) && !Refuses(Track(n, id), n);
    forall x | x in [r] + TrackGiven(n, id) ensures x == r || x == Track(n, id) {
    }
    hide Affirms, Refuses;
  }

  lemma SummaryIsSummary(d: Doc)
    ensures IsSummary(d) <==> ForSummary(d)
  {
    assert ("E32" <= d.encf) <==> |d.encf| >= 3 && d.encf[..3] == "E32";
    assert ("e32" <= d.encf) <==> |d.encf| >= 3 && d.encf[..3] == "e32";
  }

  /** Exactly when an answer to a transmission makes the document accepted, or rejected. */
  lemma PostIsReadRight(n: FiscalKey, d: Doc, c: Choice)
    ensures var o, said := Outcome(d, c), SaidToPost(n, d, c);
            && (o.Some? ==> (o.value.0.state.AcceptedByDgii? <==> Affirmed(said, n)))
            && (o.Some? ==> (o.value.0.state.RejectedByDgii? <==> Refused(said, n)))
            && (o.None? ==> !Affirmed(said, n) && !Refused(said, n))
  {
    SummaryIsSummary(d);
    hide IsSummary, ForSummary, Estado.Read, SaysAccepted, SaysRejected;
    SayingsOf(n, d, c);
    if c.Received? { ReadMeans(c.immediate); }
    if c.Summary? { ReadMeans(c.estado); }
  }

  /** A track id comes with the answer, or is the code of an accepted summary. */
  lemma PostTracks(n: FiscalKey, d: Doc, c: Choice)
    ensures var o, said := Outcome(d, c), SaidToPost(n, d, c);
            o.Some? && o.value.0.track != d.track ==>
              || (c.Received? && c.track != "" && o.value.0.track == Some(c.track) && Track(n, c.track) in said)
              || (o.value.0.state.AcceptedByDgii? && o.value.0.track == o.value.0.code)
  {
    SummaryIsSummary(d);
    hide IsSummary, ForSummary;
    if c.Received? && c.track != "" {
      assert ([Text(n, c.immediate)] + TrackGiven(n, c.track))[1] == Track(n, c.track);
    }
  }

  lemma SayingsOf(n: FiscalKey, d: Doc, c: Choice)
    ensures Affirmed(SaidToPost(n, d, c), n) <==>
            || (ForSummary(d) && c.Summary? && (c.codigo == 1 || SaysAccepted(c.estado)))
            || (!ForSummary(d) && c.Received? && c.track != "" && SaysAccepted(c.immediate))
    ensures Refused(SaidToPost(n, d, c), n) <==>
            || (ForSummary(d) && c.Summary? && c.codigo != 1 && !SaysAccepted(c.estado))
            || (!ForSummary(d) && c.Received? &&
                  if c.track != "" then SaysRejected(c.immediate) else c.error != "")
  {
    hide ForSummary, SaysAccepted, SaysRejected, Affirmed, Refused;
    match c {
      case Summary(codigo, estado, _) => OneAnswer(Code(n, codigo, estado), n, "");
      case Received(track, error, immediate, _) =>
        OneAnswer(Text(n, immediate), n, track);
        OneAnswer(Refusal(n, error), n, "");
      case _ => OneAnswer(Text(n, ""), n, "");
    }
  }

  /** Exactly when the answer about a number makes its row accepted, rejected, or never received. */
  lemma FoundIsReadRight(n: FiscalKey, d: Doc, estado: string, track: string, sentAt: Option<int>)
    ensures var f := Found(d, Estado.Read(estado), if Tracked(d) then "" else track, sentAt);
            var said := SaidByNumber(n, d, estado, track);
            && (f.state.AcceptedByDgii? <==> Affirmed(said, n))
            && (f.state.RejectedByDgii? <==> Refused(said, n))
            && (Estado.Read(estado).Missing? <==> SaysNothing(estado))
            && (f.track != d.track && !SaysNothing(estado) ==> f.track == Some(track) && Track(n, track) in said)
  {
    hide Estado.Read, SaysAccepted, SaysRejected, SaysNothing, Affirmed, Refused;
    ReadMeans(estado);
    OneAnswer(Text(n, estado), n, if Tracked(d) || SaysNothing(estado) then "" else track);
    if !Tracked(d) && !SaysNothing(estado) && track != "" {
      assert SaidByNumber(n, d, estado, track)[1] == Track(n, track);
    }
  }

  /** Exactly when the answer to a refresh makes the row that it stores accepted, or rejected. */
  lemma RefreshIsReadRight(k: TxnKey, d: Doc, resultado: string, estado: string, track: string)
    ensures var f, said := Refreshed(k, d, resultado, estado, track),
                           SaidToRefresh(KeyOf(k, d), d, resultado, estado, track);
            && (f.save.Some? && f.save.value.state.AcceptedByDgii? <==> Affirmed(said, KeyOf(k, d)))
            && (f.save.Some? && f.save.value.state.RejectedByDgii? <==> Refused(said, KeyOf(k, d)))
            && (f.save.Some? && f.save.value.track != d.track ==>
                  f.save.value.track == Some(track) && Track(KeyOf(k, d), track) in said)
            && (f.save.Some? ==> f.save.value.encf == d.encf && f.save.value.rnc == d.rnc)
            && (f.save.Some? ==> !d.state.AcceptedByDgii?)
  {
    hide Estado.Read, SaysAccepted, SaysRejected, SaysNothing, Affirmed, Refused, SaidByNumber;
    var n := KeyOf(k, d);
    ReadMeans(resultado);
    ReadMeans(estado);
    NothingSaysNoVerdict(estado);
    OneAnswer(Text(n, resultado), n, "");
    FoundIsReadRight(n, d, estado, track, d.sentAt);
    if SaysNothing(estado) {
      NothingByNumber(n, d, estado, track);
    }
  }

  lemma NothingByNumber(n: FiscalKey, d: Doc, estado: string, track: string)
    requires SaysNothing(estado)
    ensures !Affirmed(SaidByNumber(n, d, estado, track), n) && !Refused(SaidByNumber(n, d, estado, track), n)
  {
    NothingSaysNoVerdict(estado);
    hide SaysAccepted, SaysRejected, SaysNothing, Affirmed, Refused;
    OneAnswer(Text(n, estado), n, "");
  }

  lemma NothingSaysNoVerdict(text: string)
    ensures SaysNothing(text) ==> !SaysAccepted(text) && !SaysRejected(text)
  {
    hide Estado.Trim, Estado.Lower;
    ReadMeans(text);
    hide SaysNothing, SaysAccepted, SaysRejected;
  }

  lemma CleanFirst(s: string)
    requires s != ""
    ensures CleanRnc(s) == CleanRnc([s[0]]) + CleanRnc(s[1..])
    ensures CleanRnc("") == ""
  {
    assert [s[0]][1..] == "";
  }

  lemma {:induction false} CleanConcat(s: string, t: string)
    ensures CleanRnc(s + t) == CleanRnc(s) + CleanRnc(t)
    decreases |s|
  {
    hide CleanRnc;
    if s == "" {
      assert s + t == t;
      CleanFirst("-");
    } else {
      CleanConcat(s[1..], t);
      CleanFirst(s);
      CleanFirst(s + t);
      assert (s + t)[1..] == s[1..] + t;
    }
  }

  /** Issuers are compared without dashes and spaces, each taken out on its own. */
  lemma CleanIsExact(s: string, c: char, t: string)
    ensures CleanRnc("") == ""
    ensures CleanRnc(s + [c] + t) == CleanRnc(s) + (if c == '-' || c == ' ' then "" else [c]) + CleanRnc(t)
  {
    CleanConcat(s + [c], t);
    CleanConcat(s, [c]);
    assert [c][1..] == "";
  }

  /** Exactly when a status query stores something, and what: see `CleanIsExact` for the issuers. */
  lemma QueryStoresIff(d: Doc, asked: FiscalKey, estado: string)
    ensures var f := Queried(d, asked, estado);
            var stored := if estado in {"Aceptado", "Accepted"} then AcceptedByDgii
                          else if estado in {"Rechazado", "Rejected"} then RejectedByDgii
                          else if estado in {"En Proceso", "EnProceso", "Processing"} then SentToDgii
                          else Other(estado);
            && (f.save.Some? <==>
                && asked.encf == d.encf && d.state !in {AcceptedByDgii, Other("Aceptado"), stored}
                && (asked.rnc == "" || CleanRnc(asked.rnc) == "" || CleanRnc(d.rnc) == ""
                    || CleanRnc(asked.rnc) == CleanRnc(d.rnc)))
            && (f.save.Some? ==> f.save.value == d.(state := stored))
  {
    hide CleanRnc;
  }

  /** What a status query stores, in the other client's words. */
  lemma QueryIsReadRight(d: Doc, n: FiscalKey, asked: FiscalKey, estado: string)
    ensures var f, said := Queried(d, asked, estado), [Reported(n, asked, estado)];
            f.save.Some? ==>
              && (f.save.value.state.AcceptedByDgii? <==> Affirmed(said, n))
              && (f.save.value.state.RejectedByDgii? <==> Refused(said, n))
              && f.save.value == d.(state := f.save.value.state)
  {
    hide Denied, Affirmed, Refused;
    OneAnswer(Reported(n, asked, estado), n, "");
  }

  /** Exactly when a pass finds a verdict on a row that waits for one. */
  lemma PassIsReadRight(n: FiscalKey, d: Doc, now: int, o: R.Options, a: R.Answer)
    requires R.Polling(d)
    ensures var c, said := R.Checked(d, now, o, a), SaidToPass(n, d, now, o.windowHours, a);
            && (c.state.AcceptedByDgii? <==> Affirmed(said, n))
            && (c.state.RejectedByDgii? <==> Refused(said, n))
            && c == d.(state := c.state, lastCheck := c.lastCheck, attempts := c.attempts)
  {
    VerdictMeans(n, d, a);
    OneAnswer(Text(n, ""), n, "");
    hide R.Verdict, SaysNothing, Affirmed, Refused;
  }

  /** The text that decides, where there is one. */
  lemma TextDecides(d: Doc, a: R.Answer)
    ensures var byTrack := Tracked(d) && a.resultado.Some? && !SaysNothing(a.resultado.value);
            && (byTrack ==> R.StatusText(d, a) == Some(Estado.Trim(a.resultado.value)))
            && (!byTrack && a.estado.None? ==> R.StatusText(d, a) == None)
            && (!byTrack && a.estado.Some? && a.estado.value != "" ==>
                  R.StatusText(d, a) == Some(Estado.Trim(a.estado.value)))
            && (!byTrack && a.estado == Some("") ==>
                  R.StatusText(d, a).Some?
                  && (R.StatusText(d, a).value == "" || Estado.SaysNotFound(R.StatusText(d, a).value)))
  {
    if Tracked(d) && a.resultado.Some? {
      NothingIffTrimmed(a.resultado.value);
    }
    hide Estado.Trim, SaysNothing;
  }

  lemma DecidedMeans(d: Doc, a: R.Answer, text: string)
    requires R.StatusText(d, a) == Some(Estado.Trim(text))
    ensures R.Verdict(d, a).Accepts? <==> SaysAccepted(text)
    ensures R.Verdict(d, a).Rejects? <==> SaysRejected(text)
  {
    hide Estado.Trim, Estado.Lower, R.StatusText, Says;
    SaysIffTrimmed(text, "aceptado");
    SaysIffTrimmed(text, "aceptado condicional");
    SaysIffTrimmed(text, "rechazado");
  }

  lemma UndecidedMeans(d: Doc, a: R.Answer)
    requires var t := R.StatusText(d, a); t.Some? ==> t.value == "" || Estado.SaysNotFound(t.value)
    ensures !R.Verdict(d, a).Accepts? && !R.Verdict(d, a).Rejects?
  {
    hide R.StatusText;
    LoweredWords();
  }

  /** The two answers of a pass about one row, told apart by whether the first one says anything. */
  lemma VerdictMeans(n: FiscalKey, d: Doc, a: R.Answer)
    ensures var byTrack := Tracked(d) && a.resultado.Some?;
            var said := (if byTrack then [Text(n, a.resultado.value)] else [])
              + if a.estado.Some? && (!byTrack || SaysNothing(a.resultado.value))
                then [Text(n, a.estado.value)] else [];
            && (R.Verdict(d, a).Accepts? <==> Affirmed(said, n))
            && (R.Verdict(d, a).Rejects? <==> Refused(said, n))
  {
    hide R.StatusText, R.Verdict, SaysNothing, SaysAccepted, SaysRejected, Affirmed, Refused;
    TextDecides(d, a);
    var first := if Tracked(d) && a.resultado.Some? then a.resultado.value else "";
    if Tracked(d) && a.resultado.Some? {
      OneAnswer(Text(n, first), n, "");
      NothingSaysNoVerdict(first);
    } else {
      OneAnswer(Text(n, ""), n, "");
    }
    if Tracked(d) && a.resultado.Some? && !SaysNothing(first) {
      DecidedMeans(d, a, first);
      assert [Text(n, first)] + [] == [Text(n, first)];
    } else if a.estado.None? || a.estado.value == "" {
      UndecidedMeans(d, a);
      EmptySaysNothing();
      TwoAnswers(n, first, "");
      assert [Text(n, first)] + [] == [Text(n, first)];
      assert [] + [Text(n, "")] == [Text(n, "")];
      var none: seq<Raw> := [];
      assert none + none == none;
      OneAnswer(Text(n, ""), n, "");
      NothingSaysNoVerdict("");
    } else {
      DecidedMeans(d, a, a.estado.value);
      OneAnswer(Text(n, a.estado.value), n, "");
      TwoAnswers(n, first, a.estado.value);
      assert [] + [Text(n, a.estado.value)] == [Text(n, a.estado.value)];
    }
  }

  lemma EmptySaysNothing()
    ensures SaysNothing("")
  {
  }

  lemma TwoAnswers(n: FiscalKey, first: string, second: string)
    ensures Affirmed([Text(n, first)] + [Text(n, second)], n) <==> SaysAccepted(first) || SaysAccepted(second)
    ensures Refused([Text(n, first)] + [Text(n, second)], n) <==> SaysRejected(first) || SaysRejected(second)
  {
    hide SaysAccepted, SaysRejected;
    var said := [Text(n, first)] + [Text(n, second)];
    assert said[0] == Text(n, first) && said[1] == Text(n, second);
    assert Text(n, first) in said && Text(n, second) in said;
    assert forall r :: r in said ==> r == Text(n, first) || r == Text(n, second);
  }

  // ---- Along a run --------------------------------------------------------------------------

  lemma GroundedGrows(log: seq<Raw>, more: seq<Raw>, k: TxnKey, d: Doc)
    requires Grounded(log, k, d)
    ensures Grounded(log + more, k, d)
  {
    hide Affirms, Refuses;
    assert forall r :: r in log ==> r in log + more;
  }

  lemma AllGroundedGrows(m: Machine, log: seq<Raw>, more: seq<Raw>)
    requires AllGrounded(m, log)
    ensures AllGrounded(m, log + more)
  {
    hide Grounded;
    forall k, d | Grounded(log, k, d) ensures Grounded(log + more, k, d) {
      GroundedGrows(log, more, k, d);
    }
    forall i | i in m.writers ensures GroundedWriter(log + more, m.writers[i]) {
      assert GroundedWriter(log, m.writers[i]);
    }
  }

  ghost predicate GroundedEffect(log: seq<Raw>, k: TxnKey, e: Effect) {
    && (e.save.Some? ==> Grounded(log, k, e.save.value))
    && (e.next.Some? ==> GroundedPhase(log, k, e.next.value))
  }

  /** A new verdict with what was said now, and a track id from now or before. */
  lemma NewlyGrounded(log: seq<Raw>, said: seq<Raw>, k: TxnKey, d: Doc, d': Doc)
    requires Grounded(log, k, d) && !d.state.AcceptedByDgii? && d'.encf == d.encf
    requires d'.state.AcceptedByDgii? ==> Affirmed(said, KeyOf(k, d'))
    requires d'.state.RejectedByDgii? ==> Refused(said, KeyOf(k, d'))
    requires d'.track != d.track && Tracked(d') ==>
               || TrackIsFrom(said, k, d'.encf, d'.track.value)
               || (d'.state.AcceptedByDgii? && d'.track == d'.code)
    ensures Grounded(log + said, k, d')
  {
    hide Affirms, Refuses;
    assert forall r :: r in log + said <==> r in log || r in said;
  }

  lemma GroundedPosting(log: seq<Raw>, k: TxnKey, req: Req, d: Doc, c: Choice)
    requires Grounded(log, k, d) && d.state.AwaitingTransmission?
    ensures GroundedEffect(log + SaidToPost(KeyOf(k, d), d, c), k, AfterPosting(k, req, d, c))
  {
    hide Outcome, Affirmed, Refused, SaidToPost, VerdictEvents, Grounded, TrackIsFrom;
    var n := KeyOf(k, d);
    var said := SaidToPost(n, d, c);
    PostIsReadRight(n, d, c);
    PostTracks(n, d, c);
    OutcomeFits(d, c);
    var d' := if !c.NotPosted? && Outcome(d, c).Some? then Outcome(d, c).value.0 else d.(state := Uncertain);
    if d'.track != d.track && Track(n, if c.Received? then c.track else "") in said {
      TrackFromSaid(said, k, n, if c.Received? then c.track else "");
    }
    NewlyGrounded(log, said, k, d, d');
  }

  lemma TrackFromSaid(said: seq<Raw>, k: TxnKey, n: FiscalKey, id: string)
    requires Track(n, id) in said && n.amb == k.amb
    ensures TrackIsFrom(said, k, n.encf, id)
  {
  }

  lemma GroundedAsking(log: seq<Raw>, k: TxnKey, req: Req, d: Doc, c: Choice)
    requires Grounded(log, k, d) && (d.state.AwaitingTransmission? || d.state.Uncertain?)
    ensures var said := if c.Answer? then SaidByNumber(KeyOf(k, d), d, c.estado, c.track) else [];
            GroundedEffect(log + said, k, AfterAsking(k, req, d, c))
  {
    hide Affirmed, Refused, SaidByNumber, VerdictEvents, Grounded, TrackIsFrom, Estado.Read, SaysNothing;
    if c.Answer? {
      var n := KeyOf(k, d);
      var said := SaidByNumber(n, d, c.estado, c.track);
      var sentAt := if d.sentAt.Some? then d.sentAt else Some(c.now);
      FoundIsReadRight(n, d, c.estado, c.track, sentAt);
      if Estado.Read(c.estado).Missing? {
        NewlyGrounded(log, said, k, d, Apply(d, req));
      } else {
        var d' := Found(d, Estado.Read(c.estado), if Tracked(d) then "" else c.track, sentAt);
        if d'.track != d.track {
          TrackFromSaid(said, k, n, c.track);
        }
        NewlyGrounded(log, said, k, d, d');
      }
    }
  }

  lemma GroundedWriting(log: seq<Raw>, rows: D.Rows, k: TxnKey, p: Phase, c: Choice)
    requires Shaped(p) && !p.Posting? && !p.Asking?
    requires GroundedPhase(log, k, p) && (k in rows ==> Grounded(log, k, rows[k]))
    ensures GroundedEffect(log, k, Continue(rows, k, p, c))
  {
    hide D.NumberFree, Affirmed, Refused, TrackIsFrom;
  }

  lemma GroundedContinue(m: Machine, log: seq<Raw>, k: TxnKey, c: Choice)
    requires AllShaped(m) && AllGrounded(m, log) && k in m.live
    ensures GroundedEffect(log + Said(m, Advance(k, c)), k, Continue(m.rows, k, m.live[k], c))
  {
    hide GroundedEffect, Grounded, SaidToPost, SaidByNumber, AfterPosting, AfterAsking;
    assert Shaped(m.live[k]) && GroundedPhase(log, k, m.live[k]);
    assert log + [] == log;
    match m.live[k] {
      case Posting(req, d) => GroundedPosting(log, k, req, d, c);
      case Asking(req, d) => GroundedAsking(log, k, req, d, c);
      case p => GroundedWriting(log, m.rows, k, p, c);
    }
  }

  lemma GroundedEnact(m: Machine, log: seq<Raw>, k: TxnKey, e: Effect)
    requires AllGrounded(m, log) && GroundedEffect(log, k, e)
    ensures AllGrounded(Enact(m, k, e), log)
  {
    hide Grounded;
    var m' := Enact(m, k, e);
    forall i | i in m'.writers ensures GroundedWriter(log, m'.writers[i]) {
      assert GroundedWriter(log, m.writers[i]);
    }
    forall j | j in m'.live ensures GroundedPhase(log, j, m'.live[j]) {
      assert j in m.live ==> GroundedPhase(log, j, m.live[j]);
    }
  }

  lemma GroundedHeard(m: Machine, log: seq<Raw>, i: nat, write: map<TxnKey, Doc>, told: seq<Event>)
    requires AllGrounded(m, log) && i in m.writers && forall k :: k in write ==> Grounded(log, k, write[k])
    ensures AllGrounded(Heard(m, i, write, told), log)
  {
    hide Grounded, GroundedPhase;
  }

  lemma GroundedOneRow(m: Machine, log: seq<Raw>, l: Label)
    requires AllGrounded(m, log) && (l.Refresh? || l.StatusQuery?) && l.id in m.writers && OneRow(m.writers[l.id])
    ensures AllGrounded(Next(m, l), log + Said(m, l))
  {
    var w := m.writers[l.id];
    var k := w.keys[0];
    var d := w.read[k];
    var said := Said(m, l);
    var f := if l.Refresh? then Refreshed(k, d, l.resultado, l.estado, l.track) else Queried(d, l.asked, l.estado);
    assert GroundedWriter(log, w);
    hide Refreshed, Queried, Grounded, GroundedPhase, GroundedWriter, SaidToRefresh, Affirmed, Refused, TrackIsFrom;
    AllGroundedGrows(m, log, said);
    if f.save.Some? {
      if l.Refresh? {
        RefreshIsReadRight(k, d, l.resultado, l.estado, l.track);
        if f.save.value.track != d.track {
          TrackFromSaid(said, k, KeyOf(k, d), l.track);
        }
      } else {
        QueryIsReadRight(d, KeyOf(k, d), l.asked, l.estado);
        QueryChangesNoAcceptance(d, l.asked, l.estado);
      }
      NewlyGrounded(log, said, k, d, f.save.value);
    }
    GroundedHeard(m, log + said, l.id, OneWrite(k, f), f.told);
  }

  lemma QueryChangesNoAcceptance(d: Doc, asked: FiscalKey, estado: string)
    ensures Queried(d, asked, estado).save.Some? ==> !d.state.AcceptedByDgii?
  {
    hide Denied;
  }

  lemma GroundedBatchRow(m: Machine, log: seq<Raw>, l: Label)
    requires AllGrounded(m, log) && Readers(m)
    requires l.Hear? && l.id in m.writers && m.writers[l.id].kind.Batch? && l.key in m.writers[l.id].read
    ensures AllGrounded(Next(m, l), log + Said(m, l))
  {
    var w := m.writers[l.id];
    var d := w.read[l.key];
    var said := Said(m, l);
    assert ReaderOk(m, w) && GroundedWriter(log, w);
    assert R.Polling(d) && !d.state.AcceptedByDgii?;
    hide R.Checked, R.Due, BatchEvents, Grounded, GroundedPhase, SaidToPass, Affirmed, Refused, TrackIsFrom, Readers;
    AllGroundedGrows(m, log, said);
    PassIsReadRight(KeyOf(l.key, d), d, w.kind.now, w.kind.options, l.answer);
    var c := R.Checked(d, w.kind.now, w.kind.options, l.answer);
    NewlyGrounded(log, said, l.key, d, c);
    assert GroundedWriter(log + said, w);
    GroundedHeard(m, log + said, l.id, w.write[l.key := c],
                  BatchEvents(l.key, d, w.kind.now, w.kind.options, l.answer));
  }

  lemma GroundedQuiet(m: Machine, log: seq<Raw>, l: Label)
    requires AllGrounded(m, log) && (l.Look? || l.Fetch? || l.Commit? || l.Adjudicate?)
    ensures AllGrounded(Next(m, l), log)
  {
    hide Grounded, GroundedPhase, D.ExecuteAll, D.Updates, R.Due;
    var m' := Next(m, l);
    forall i | i in m'.writers ensures GroundedWriter(log, m'.writers[i]) {
      assert i in m.writers ==> GroundedWriter(log, m.writers[i]);
    }
    assert l.Commit? && l.id in m.writers ==> GroundedWriter(log, m.writers[l.id]);
  }

  lemma GroundedNext(m: Machine, log: seq<Raw>, l: Label)
    requires AllShaped(m) && Readers(m) && AllGrounded(m, log)
    ensures AllGrounded(Next(m, l), log + Said(m, l))
  {
    hide AllGrounded, AllShaped, Readers, Continue, Refreshed, Queried, BatchEvents, R.Checked, R.IsDueBatch, Committed,
      SaidToPost, SaidByNumber, SaidToRefresh, SaidToPass;
    assert log + [] == log;
    match l {
      case Begin(req) => if req.key !in m.live { GroundedBegun(m, log, req); }
      case Advance(k, c) =>
        if k in m.live {
          GroundedContinue(m, log, k, c);
          AllGroundedGrows(m, log, Said(m, l));
          GroundedEnact(m, log + Said(m, l), k, Continue(m.rows, k, m.live[k], c));
        }
      case Crash(k) => GroundedEnact(m, log, k, Stop());
      case Refresh(i, _, _, _) => if i in m.writers && OneRow(m.writers[i]) { GroundedOneRow(m, log, l); }
      case StatusQuery(i, _, _) => if i in m.writers && OneRow(m.writers[i]) { GroundedOneRow(m, log, l); }
      case Hear(i, k, a) =>
        if i in m.writers && m.writers[i].kind.Batch? && k in m.writers[i].read { GroundedBatchRow(m, log, l); }
      case _ => GroundedQuiet(m, log, l);
    }
  }

  lemma GroundedBegun(m: Machine, log: seq<Raw>, req: Req)
    requires AllGrounded(m, log)
    ensures AllGrounded(Enact(m, req.key, Go(Lookup(req, false))), log)
  {
    GroundedEnact(m, log, req.key, Go(Lookup(req, false)));
  }

  lemma {:induction false} GroundedRun(m: Machine, log: seq<Raw>, ls: seq<Label>)
    requires AllShaped(m) && Readers(m) && AllGrounded(m, log)
    ensures AllGrounded(Run(m, ls), log + Answers(m, ls))
    decreases |ls|
  {
    hide AllGrounded, AllShaped, Readers, Next, Said;
    if ls == [] {
      assert log + [] == log;
    } else {
      ShapedNext(m, ls[0]);
      ReadersNext(m, ls[0]);
      GroundedNext(m, log, ls[0]);
      GroundedRun(Next(m, ls[0]), log + Said(m, ls[0]), ls[1..]);
      assert log + Said(m, ls[0]) + Answers(Next(m, ls[0]), ls[1..]) == log + Answers(m, ls);
    }
  }

  /** No status query was asked about another number than its row's. */
  predicate Direct(log: seq<Raw>) {
    forall r :: r in log && r.Reported? ==> r.asked == r.number
  }

  /**
   In every run a stored acceptance follows an answer for the row's number that says so, in code or in
   words, and a stored rejection one that refuses it; the track id was given out for that eNCF. Without
   misdirected queries the answer is also about that number.
   */
  lemma StoredVerdictWasGiven(ls: seq<Label>, k: TxnKey)
    requires k in Run(START, ls).rows
    ensures Grounded(Answers(START, ls), k, Run(START, ls).rows[k])
    ensures var d, log := Run(START, ls).rows[k], Answers(START, ls);
            d.state.AcceptedByDgii? && Direct(log) ==>
              exists r :: r in log && Affirms(r, KeyOf(k, d)) && (r.Reported? ==> r.asked == KeyOf(k, d))
  {
    GroundedRun(START, [], ls);
    assert [] + Answers(START, ls) == Answers(START, ls);
  }

  /** The same of the private copy of a live submission. */
  lemma LiveVerdictWasGiven(ls: seq<Label>, k: TxnKey)
    requires k in Run(START, ls).live
    ensures GroundedPhase(Answers(START, ls), k, Run(START, ls).live[k])
  {
    GroundedRun(START, [], ls);
    assert [] + Answers(START, ls) == Answers(START, ls);
  }

  lemma {:induction false} AnswersConcat(m: Machine, a: seq<Label>, b: seq<Label>)
    ensures Answers(m, a + b) == Answers(m, a) + Answers(Run(m, a), b)
    decreases |a|
  {
    hide Said, Next;
    if a == [] {
      assert a + b == b;
    } else {
      assert (a + b)[1..] == a[1..] + b;
      AnswersConcat(Next(m, a[0]), a[1..], b);
    }
  }

  lemma GroundedLater(t: seq<Label>, after: seq<Label>, k: TxnKey, d: Doc)
    requires t <= after && Grounded(Answers(START, t), k, d)
    ensures Grounded(Answers(START, after), k, d)
  {
    hide Answers, Grounded, Run;
    assert after == t + after[|t|..];
    AnswersConcat(START, t, after[|t|..]);
    GroundedGrows(Answers(START, t), Answers(Run(START, t), after[|t|..]), k, d);
  }
}
