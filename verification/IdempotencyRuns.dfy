/** Many requests on the store at once: who may hold a key, and what a replay returns. */
module IdempotencyRuns {
  import opened Wrappers
  import opened Documents
  import opened Idempotency

  /** A request between its SELECT and its write, or in possession of the key since `since`. */
  datatype Phase =
    | Deciding(key: string, hash: string, worker: string, since: int, plan: Plan)
    | Holding(key: string, hash: string, since: int)

  datatype System = System(records: Records, states: States, now: int, live: map<nat, Phase>)

  datatype Label =
    | Tick(seconds: nat)
    | SetState(doc: string, state: State)
    | Select(req: nat, key: string, hash: string, worker: string)
    | Write(req: nat)
    | ReserveAtOnce(req: nat, key: string, hash: string, worker: string)
    | End(req: nat, outcome: Option<Response>)

  function Written(s: System, req: nat, p: Phase): System
    requires p.Deciding?
  {
    var (records, reservation) := Execute(s.records, p.key, p.hash, p.worker, p.since, p.plan);
    s.(records := records,
       live := if reservation.Reserved? then s.live[req := Holding(p.key, p.hash, p.since)] else s.live - {req})
  }

  function Decided(s: System, key: string, hash: string, worker: string): Phase {
    Deciding(key, hash, worker, s.now, PlanFor(s.records, s.states, key, hash, s.now))
  }

  function Step(s: System, l: Label): System {
    match l
    case Tick(seconds) => s.(now := s.now + seconds)
    case SetState(doc, state) => s.(states := s.states[doc := state])
    case Select(req, key, hash, worker) =>
      if req in s.live then s else s.(live := s.live[req := Decided(s, key, hash, worker)])
    case Write(req) =>
      if req in s.live && s.live[req].Deciding? then Written(s, req, s.live[req]) else s
    case ReserveAtOnce(req, key, hash, worker) =>
      if req in s.live then s else Written(s, req, Decided(s, key, hash, worker))
    case End(req, outcome) =>
      if req in s.live && s.live[req].Holding?
      then s.(records := Finish(s.records, s.live[req].key, outcome), live := s.live - {req}) else s
  }

  function Steps(s: System, ls: seq<Label>): System
    decreases |ls|
  {
    if ls == [] then s else Steps(Step(s, ls[0]), ls[1..])
  }

  /** Every holder is still inside the lease it obtained. */
  predicate InLease(s: System) {
    forall q :: q in s.live && s.live[q].Holding? ==> s.now <= s.live[q].since + LEASE
  }

  predicate Held(s: System, key: string) {
    exists q :: q in s.live && s.live[q].Holding? && s.live[q].key == key
  }

  /** However late it comes, the reset of a finished record finds a record, and nobody in possession of the key. */
  predicate ResetsFree(s: System, l: Label) {
    l.Write? && l.req in s.live && s.live[l.req].Deciding? && s.live[l.req].plan.Reset? ==>
      s.live[l.req].key in s.records && !Held(s, s.live[l.req].key)
  }

  predicate AllInLease(s: System, ls: seq<Label>)
    decreases |ls|
  {
    InLease(s) && (ls == [] || AllInLease(Step(s, ls[0]), ls[1..]))
  }

  predicate AllResetsFree(s: System, ls: seq<Label>)
    decreases |ls|
  {
    ls == [] || (ResetsFree(s, ls[0]) && AllResetsFree(Step(s, ls[0]), ls[1..]))
  }

  predicate Exclusive(s: System) {
    forall p, q :: p in s.live && q in s.live && p != q && s.live[p].Holding? && s.live[q].Holding? ==>
      s.live[p].key != s.live[q].key
  }

  predicate Backed(s: System, q: nat)
    requires q in s.live && s.live[q].Holding?
  {
    var h := s.live[q];
    && h.key in s.records && !s.records[h.key].completed
    && s.records[h.key].created == h.since && s.records[h.key].hash == h.hash
  }

  /** A pending reclaim still finds a record of its own payload, if it finds one it can take. */
  predicate ReclaimsOwn(records: Records, p: Phase) {
    p.Deciding? && p.plan.Reclaim? && p.key in records && !records[p.key].completed
      && records[p.key].created < p.since - LEASE ==>
      records[p.key].hash == p.hash
  }

  ghost predicate Orderly(s: System) {
    && Exclusive(s) && Blank(s.records)
    && (forall q :: q in s.live ==> ReclaimsOwn(s.records, s.live[q]))
    && (forall q :: q in s.live && s.live[q].Holding? ==> Backed(s, q))
    && (forall q :: q in s.live ==> s.live[q].since <= s.now)
  }

  /** A reset that is not separated from its read never takes the key from anybody. */
  lemma FreshResetIsFree(s: System, key: string, hash: string)
    requires Orderly(s) && PlanFor(s.records, s.states, key, hash, s.now).Reset?
    ensures key in s.records && !Held(s, key)
  {
    forall q | q in s.live && s.live[q].Holding? ensures s.live[q].key != key {
      assert Backed(s, q);
    }
  }

  /** Whoever obtains a key obtains it from nobody. */
  lemma ObtainedFromNobody(s: System, req: nat, p: Phase, q: nat)
    requires Orderly(s) && InLease(s) && p.Deciding? && p.since <= s.now
    requires p.plan.Reset? ==> !Held(s, p.key)
    requires Execute(s.records, p.key, p.hash, p.worker, p.since, p.plan).1.Reserved?
    requires q in s.live && s.live[q].Holding?
    ensures s.live[q].key != p.key
  {
    assert Backed(s, q);
  }

  lemma OrderlyWritten(s: System, req: nat, p: Phase)
    requires Orderly(s) && InLease(s) && p.Deciding? && p.since <= s.now
    requires req in s.live ==> s.live[req] == p
    requires p.plan.Reset? ==> p.key in s.records && !Held(s, p.key)
    requires ReclaimsOwn(s.records, p) && InLease(Written(s, req, p))
    ensures Orderly(Written(s, req, p))
  {
    var s' := Written(s, req, p);
    var reserved := Execute(s.records, p.key, p.hash, p.worker, p.since, p.plan).1.Reserved?;
    forall q | q in s'.live && s'.live[q].Holding?
      ensures Backed(s', q)
      ensures reserved && q != req ==> s'.live[q].key != p.key
    {
      if q != req {
        assert Backed(s, q);
        if reserved {
          ObtainedFromNobody(s, req, p, q);
        }
      }
    }
    assert Exclusive(s') && Blank(s'.records);
    hide Exclusive, Backed, Blank;
    forall q | q in s'.live && q != req ensures ReclaimsOwn(s'.records, s'.live[q]) {
      ReclaimsOwnStill(s, req, p, q);
    }
  }

  /** The record that a request just wrote is too young for anybody to reclaim. */
  lemma ReclaimsOwnStill(s: System, req: nat, p: Phase, q: nat)
    requires p.Deciding? && q in s.live && q != req && ReclaimsOwn(s.records, s.live[q]) && s.live[q].since <= s.now
    requires InLease(Written(s, req, p))
    ensures ReclaimsOwn(Written(s, req, p).records, s.live[q])
  {
    var s' := Written(s, req, p);
    assert Execute(s.records, p.key, p.hash, p.worker, p.since, p.plan).1.Reserved? ==>
             s'.live[req].Holding? && s'.now <= p.since + LEASE;
  }

  /** Exactly when a write that was decided earlier makes a second holder. */
  lemma ExclusiveWriteIff(s: System, req: nat)
    requires Orderly(s) && InLease(s) && req in s.live && s.live[req].Deciding?
    ensures Exclusive(Step(s, Write(req))) <==> !(s.live[req].plan.Reset? && Held(s, s.live[req].key))
  {
    var p, s' := s.live[req], Step(s, Write(req));
    if p.plan.Reset? && Held(s, p.key) {
      var q :| q in s.live && s.live[q].Holding? && s.live[q].key == p.key;
      assert s'.live[q].Holding? && s'.live[req].Holding?;
    } else if Execute(s.records, p.key, p.hash, p.worker, p.since, p.plan).1.Reserved? {
      forall q | q in s.live && s.live[q].Holding? ensures s.live[q].key != p.key {
        ObtainedFromNobody(s, req, p, q);
      }
    }
  }

  /** Exactly when it leaves every holder with its record: a reset whose record is gone reserves nothing. */
  lemma OrderlyWriteIff(s: System, req: nat)
    requires Orderly(s) && InLease(s) && req in s.live && s.live[req].Deciding? && InLease(Step(s, Write(req)))
    ensures Orderly(Step(s, Write(req))) <==> ResetsFree(s, Write(req))
  {
    var p, s' := s.live[req], Step(s, Write(req));
    assert ReclaimsOwn(s.records, p);
    ExclusiveWriteIff(s, req);
    if ResetsFree(s, Write(req)) {
      OrderlyWritten(s, req, p);
    } else if p.key !in s.records {
      assert s'.live[req].Holding? && !Backed(s', req);
    }
  }

  lemma OrderlyEnd(s: System, req: nat, outcome: Option<Response>)
    requires Orderly(s) && req in s.live && s.live[req].Holding?
    ensures Orderly(Step(s, End(req, outcome)))
  {
    var s' := Step(s, End(req, outcome));
    forall q | q in s'.live && s'.live[q].Holding? ensures Backed(s', q) {
      assert Backed(s, q);
    }
  }

  lemma OrderlyStep(s: System, l: Label)
    requires Orderly(s) && InLease(s) && ResetsFree(s, l) && InLease(Step(s, l))
    ensures Orderly(Step(s, l))
  {
    match l {
      case Write(req) =>
        if req in s.live && s.live[req].Deciding? { OrderlyWritten(s, req, s.live[req]); }
      case ReserveAtOnce(req, key, hash, worker) =>
        if req !in s.live {
          if PlanFor(s.records, s.states, key, hash, s.now).Reset? { FreshResetIsFree(s, key, hash); }
          OrderlyWritten(s, req, Decided(s, key, hash, worker));
        }
      case End(req, outcome) =>
        if req in s.live && s.live[req].Holding? { OrderlyEnd(s, req, outcome); }
      case _ =>
        forall q | q in s.live && s.live[q].Holding? ensures Backed(Step(s, l), q) {
          assert Backed(s, q);
        }
    }
  }

  lemma {:induction false} OrderlySteps(s: System, ls: seq<Label>)
    requires Orderly(s) && AllInLease(s, ls) && AllResetsFree(s, ls)
    ensures Orderly(Steps(s, ls))
    decreases |ls|
  {
    if ls != [] {
      OrderlyStep(s, ls[0]);
      OrderlySteps(Step(s, ls[0]), ls[1..]);
    }
  }

  function Empty(now: int): System {
    System(map[], map[], now, map[])
  }

  /** While every holder stays inside its lease and late resets find the key free, no key ever has two holders. */
  lemma MutualExclusion(now: int, ls: seq<Label>)
    requires AllInLease(Empty(now), ls) && AllResetsFree(Empty(now), ls)
    ensures Exclusive(Steps(Empty(now), ls))
  {
    OrderlySteps(Empty(now), ls);
  }

  // ---- A stored success ---------------------------------------------------------------------

  /** The key carries a stored success whose document DGII has not rejected. */
  predicate Settled(s: System, key: string, r: Record) {
    && key in s.records && s.records[key] == r
    && r.completed && Success(r.response.code) && !BodyRejected(s.states, r.response.body)
  }

  /** The request read the key before it was settled and means to reset it. */
  predicate PendingReset(s: System, req: nat, key: string) {
    req in s.live && s.live[req].Deciding? && s.live[req].plan.Reset? && s.live[req].key == key
  }

  /** No reset of the key that was pending at `s` is written along the run. */
  predicate PendingResetsLapse(s: System, ls: seq<Label>, key: string) {
    forall req :: req in s.live && PendingReset(s, req, key) ==> Write(req) !in ls
  }

  predicate DocumentStands(s: System, ls: seq<Label>, body: Body)
    decreases |ls|
  {
    !BodyRejected(s.states, body) && (ls == [] || DocumentStands(Step(s, ls[0]), ls[1..], body))
  }

  /** Exactly when a write that was decided earlier leaves a stored success alone. */
  lemma SettledWriteIff(s: System, req: nat, key: string, r: Record)
    requires Settled(s, key, r) && req in s.live && s.live[req].Deciding?
    ensures Settled(Step(s, Write(req)), key, r) <==> !PendingReset(s, req, key)
  {
  }

  predicate HeldBy(s: System, q: nat, key: string) {
    q in s.live && s.live[q].Holding? && s.live[q].key == key
  }

  /** A settled key changes only by a pending reset, gives rise to none, and gets no new holder. */
  lemma SettledStep(s: System, l: Label, key: string, r: Record)
    requires Settled(s, key, r) && !BodyRejected(Step(s, l).states, r.response.body)
    requires l.Write? ==> !PendingReset(s, l.req, key)
    ensures Settled(Step(s, l), key, r)
    ensures forall q :: PendingReset(Step(s, l), q, key) <==> PendingReset(s, q, key)
    ensures forall q :: HeldBy(Step(s, l), q, key) ==> HeldBy(s, q, key) && s.live[q] == Step(s, l).live[q]
  {
    match l {
      case Tick(_) =>
      case SetState(_, _) =>
      case Select(_, _, _, _) =>
      case Write(req) => if req in s.live && s.live[req].Deciding? { SettledWriteIff(s, req, key, r); }
      case ReserveAtOnce(_, _, _, _) =>
      case End(_, _) =>
    }
  }

  lemma PendingResetsNext(s: System, ls: seq<Label>, key: string)
    requires ls != []
    requires forall q :: PendingReset(Step(s, ls[0]), q, key) <==> PendingReset(s, q, key)
    requires ls[0].Write? ==> !PendingReset(s, ls[0].req, key)
    ensures PendingResetsLapse(s, ls, key) <==> PendingResetsLapse(Step(s, ls[0]), ls[1..], key)
  {
    assert ls == [ls[0]] + ls[1..];
    assert forall l :: l in ls <==> l == ls[0] || l in ls[1..];
  }

  /** A settled key never changes and is never handed out again, unless a reset that was pending is written. */
  lemma {:induction false} SettledForever(s: System, ls: seq<Label>, key: string, r: Record)
    requires Settled(s, key, r) && DocumentStands(s, ls, r.response.body) && PendingResetsLapse(s, ls, key)
    ensures Settled(Steps(s, ls), key, r)
    ensures forall q :: HeldBy(Steps(s, ls), q, key) ==> HeldBy(s, q, key) && s.live[q] == Steps(s, ls).live[q]
    decreases |ls|
  {
    hide Settled, HeldBy, PendingReset;
    if ls != [] {
      var s' := Step(s, ls[0]);
      assert ls[0] in ls;
      assert ls[0].Write? ==> !PendingReset(s, ls[0].req, key) by { PendingIsLive(s, ls, key); }
      SettledStep(s, ls[0], key, r);
      PendingResetsNext(s, ls, key);
      SettledForever(s', ls[1..], key, r);
    }
  }

  lemma PendingIsLive(s: System, ls: seq<Label>, key: string)
    requires PendingResetsLapse(s, ls, key)
    ensures forall req :: PendingReset(s, req, key) ==> Write(req) !in ls
  {
  }

  /** The key carries the stored success in every state of the run. */
  predicate StaysSettled(s: System, ls: seq<Label>, key: string, r: Record)
    decreases |ls|
  {
    Settled(s, key, r) && (ls == [] || StaysSettled(Step(s, ls[0]), ls[1..], key, r))
  }

  /**
   Exactly when a stored success stays, over every run: its document stands throughout, and no reset
   that another request decided before the success was stored is written after it.
   */
  lemma {:induction false} StaysSettledIff(s: System, ls: seq<Label>, key: string, r: Record)
    requires Settled(s, key, r)
    ensures StaysSettled(s, ls, key, r) <==> DocumentStands(s, ls, r.response.body) && PendingResetsLapse(s, ls, key)
    decreases |ls|
  {
    if ls != [] {
      var l, s' := ls[0], Step(s, ls[0]);
      assert l in ls;
      if l.Write? && PendingReset(s, l.req, key) {
        SettledWriteIff(s, l.req, key, r);
      } else if BodyRejected(s'.states, r.response.body) {
        assert !DocumentStands(s', ls[1..], r.response.body) && !StaysSettled(s', ls[1..], key, r);
      } else {
        SettledStep(s, l, key, r);
        PendingResetsNext(s, ls, key);
        StaysSettledIff(s', ls[1..], key, r);
      }
    }
  }

  // ---- Replay -----------------------------------------------------------------------------

  /** What a request with the key would get now: the stored response, or that its payload differs. */
  ghost predicate Replays(s: System, key: string, r: Record) {
    forall hash, worker ::
      Reserve(s.records, s.states, key, hash, worker, s.now) ==
      (s.records, if hash == r.hash then AlreadyCompleted(r.response) else PayloadMismatch)
  }

  ghost predicate AlwaysReplays(s: System, ls: seq<Label>, key: string, r: Record)
    decreases |ls|
  {
    Replays(s, key, r) && (ls == [] || AlwaysReplays(Step(s, ls[0]), ls[1..], key, r))
  }

  lemma SettledReplays(s: System, key: string, r: Record)
    requires Settled(s, key, r)
    ensures Replays(s, key, r)
  {
  }

  /** After a reset nobody is replayed anything. */
  lemma ResetReplaysNothing(s: System, req: nat, key: string, r: Record)
    requires Settled(s, key, r) && PendingReset(s, req, key)
    ensures !Replays(Step(s, Write(req)), key, r)
  {
    var s' := Step(s, Write(req));
    assert !s'.records[key].completed;
    assert Reserve(s'.records, s'.states, key, r.hash, "", s'.now).1 != AlreadyCompleted(r.response);
  }

  /** Exactly when every later request is answered by the stored response, while the document stands. */
  lemma {:induction false} ReplaysIff(s: System, ls: seq<Label>, key: string, r: Record)
    requires Settled(s, key, r) && DocumentStands(s, ls, r.response.body)
    ensures AlwaysReplays(s, ls, key, r) <==> PendingResetsLapse(s, ls, key)
    decreases |ls|
  {
    hide Replays;
    SettledReplays(s, key, r);
    if ls != [] {
      var l, s' := ls[0], Step(s, ls[0]);
      assert l in ls;
      if l.Write? && PendingReset(s, l.req, key) {
        ResetReplaysNothing(s, l.req, key, r);
      } else {
        SettledStep(s, l, key, r);
        PendingResetsNext(s, ls, key);
        ReplaysIff(s', ls[1..], key, r);
      }
    }
  }

  lemma SuccessSettles(s: System, q: nat, response: Response)
    requires Orderly(s) && q in s.live && s.live[q].Holding?
    requires Success(response.code) && !BodyRejected(s.states, response.body)
    ensures var ended, h := Step(s, End(q, Some(response))), s.live[q];
            && h.key in ended.records && Settled(ended, h.key, ended.records[h.key])
            && ended.records[h.key].hash == h.hash && ended.records[h.key].response == response
  {
    assert Backed(s, q);
  }

  /**
   From the first request on: once a request ended in a success whose document stands, every later
   one with its key and payload gets exactly that response, if and only if no reset that was decided
   before that end is written after it.
   */
  lemma ReplayIsExact(now: int, before: seq<Label>, q: nat, response: Response, after: seq<Label>)
    requires AllInLease(Empty(now), before) && AllResetsFree(Empty(now), before)
    requires var s := Steps(Empty(now), before);
             && q in s.live && s.live[q].Holding? && Success(response.code)
             && DocumentStands(Step(s, End(q, Some(response))), after, response.body)
    ensures var s := Steps(Empty(now), before);
            var ended, h := Step(s, End(q, Some(response))), s.live[q];
            && h.key in ended.records
            && var r := ended.records[h.key];
               && Settled(ended, h.key, r) && r.hash == h.hash && r.response == response
               && (AlwaysReplays(ended, after, h.key, r) <==> PendingResetsLapse(ended, after, h.key))
  {
    OrderlySteps(Empty(now), before);
    var s := Steps(Empty(now), before);
    var ended := Step(s, End(q, Some(response)));
    SuccessSettles(s, q, response);
    ReplaysIff(ended, after, s.live[q].key, ended.records[s.live[q].key]);
  }

  lemma EndFreesTheKey(s: System, q: nat, outcome: Option<Response>, worker: string)
    requires Orderly(s) && q in s.live && s.live[q].Holding?
    ensures var e, h := Step(s, End(q, outcome)), s.live[q];
            Reserve(e.records, e.states, h.key, h.hash, worker, e.now).1.Reserved? <==>
            outcome.None? || !Success(outcome.value.code) || BodyRejected(s.states, outcome.value.body)
  {
    assert Backed(s, q);
  }

  /**
   In every run, the end of a request lets the next one with its payload run exactly unless it
   succeeded with a standing document.
   */
  lemma FailureFreesTheKey(now: int, ls: seq<Label>, q: nat, outcome: Option<Response>, worker: string)
    requires AllInLease(Empty(now), ls) && AllResetsFree(Empty(now), ls)
    requires q in Steps(Empty(now), ls).live && Steps(Empty(now), ls).live[q].Holding?
    ensures var s := Steps(Empty(now), ls);
            var e, h := Step(s, End(q, outcome)), s.live[q];
            Reserve(e.records, e.states, h.key, h.hash, worker, e.now).1.Reserved? <==>
            outcome.None? || !Success(outcome.value.code) || BodyRejected(s.states, outcome.value.body)
  {
    OrderlySteps(Empty(now), ls);
    EndFreesTheKey(Steps(Empty(now), ls), q, outcome, worker);
  }

  // ---- The reset needs to be atomic -------------------------------------------------------

  const FAILED := Response(422, "application/json", EMPTY)

  function AfterFailure(key: string, hash: string): System {
    System(map[key := NewRecord("w", hash, 0).(completed := true, response := FAILED)], map[], 0, map[])
  }

  /** One failed request is all it takes to get there. */
  lemma FailureRun(key: string, hash: string)
    ensures var s1 := Step(Empty(0), ReserveAtOnce(0, key, hash, "w"));
            InLease(s1) && Step(s1, End(0, Some(FAILED))) == AfterFailure(key, hash)
  {
    var s1 := Step(Empty(0), ReserveAtOnce(0, key, hash, "w"));
    assert s1.live == map[0 := Holding(key, hash, 0)];
    var s2 := Step(s1, End(0, Some(FAILED)));
    assert s2.live == map[];
  }

  /** Two requests read the failed record before either writes: both hold the key. */
  lemma SplitResetsShareTheKey(key: string, hash: string)
    ensures var s1 := Step(AfterFailure(key, hash), Select(1, key, hash, "w"));
            var s2 := Step(s1, Select(2, key, hash, "w"));
            var s3 := Step(s2, Write(1));
            var s4 := Step(s3, Write(2));
            && InLease(s1) && InLease(s2) && InLease(s3) && InLease(s4)
            && !Exclusive(s4)
  {
    var s1 := Step(AfterFailure(key, hash), Select(1, key, hash, "w"));
    var s2 := Step(s1, Select(2, key, hash, "w"));
    assert s2.live == map[1 := Deciding(key, hash, "w", 0, Reset), 2 := Deciding(key, hash, "w", 0, Reset)];
    var s3 := Step(s2, Write(1));
    assert s3.live == map[1 := Holding(key, hash, 0), 2 := Deciding(key, hash, "w", 0, Reset)];
    var s4 := Step(s3, Write(2));
    assert s4.live[1] == Holding(key, hash, 0) && s4.live[2] == Holding(key, hash, 0);
  }

  /**
   A reset that comes after the record was released updates nothing and still reserves: the next
   request gets the key too.
   */
  lemma LostRecordSharesTheKey(s: System, req: nat, other: nat, hash: string, worker: string)
    requires req in s.live && s.live[req].Deciding? && s.live[req].plan.Reset? && s.live[req].key !in s.records
    requires other !in s.live
    ensures !Exclusive(Step(Step(s, Write(req)), ReserveAtOnce(other, s.live[req].key, hash, worker)))
  {
    var s' := Step(s, Write(req));
    var s'' := Step(s', ReserveAtOnce(other, s.live[req].key, hash, worker));
    assert s''.live[req].Holding? && s''.live[other].Holding?;
  }

  const OK := Response(200, "application/json", EMPTY)

  /** Two requests read a failed record; the second one writes its reset after the first one's success. */
  function LateReset(key: string, hash: string): seq<Label> {
    [ReserveAtOnce(0, key, hash, "w"), End(0, Some(FAILED)), Select(1, key, hash, "w"), Select(2, key, hash, "w"),
     Write(1), End(1, Some(OK)), Write(2)]
  }

  /** One more step of a run. */
  lemma {:induction false} OneMore(s: System, ls: seq<Label>, i: nat)
    requires i < |ls|
    ensures Steps(s, ls[..i + 1]) == Step(Steps(s, ls[..i]), ls[i])
    ensures AllInLease(s, ls[..i + 1]) <==> AllInLease(s, ls[..i]) && InLease(Steps(s, ls[..i + 1]))
    ensures AllResetsFree(s, ls[..i + 1]) <==> AllResetsFree(s, ls[..i]) && ResetsFree(Steps(s, ls[..i]), ls[i])
    decreases i
  {
    if i > 0 {
      OneMore(Step(s, ls[0]), ls[1..], i - 1);
      assert ls[..i + 1][1..] == ls[1..][..i] && ls[..i][1..] == ls[1..][..i - 1];
    }
  }

  lemma NoStepYet(s: System, ls: seq<Label>)
    ensures Steps(s, ls[..0]) == s && (AllInLease(s, ls[..0]) <==> InLease(s)) && AllResetsFree(s, ls[..0])
  {
  }

  lemma BothHaveRead(key: string, hash: string)
    ensures var ls := LateReset(key, hash);
            && AllInLease(Empty(0), ls[..4]) && AllResetsFree(Empty(0), ls[..4])
            && Steps(Empty(0), ls[..4]) ==
               AfterFailure(key, hash).(live := map[1 := Deciding(key, hash, "w", 0, Reset),
                                                    2 := Deciding(key, hash, "w", 0, Reset)])
  {
    hide Steps, AllInLease, AllResetsFree;
    var ls := LateReset(key, hash);
    NoStepYet(Empty(0), ls);
    OneMore(Empty(0), ls, 0);
    OneMore(Empty(0), ls, 1);
    FailureRun(key, hash);
    OneMore(Empty(0), ls, 2);
    OneMore(Empty(0), ls, 3);
  }

  lemma FirstIsReserved(key: string, hash: string)
    ensures var ls := LateReset(key, hash);
            && AllInLease(Empty(0), ls[..5]) && AllResetsFree(Empty(0), ls[..5])
            && Steps(Empty(0), ls[..5]) ==
               System(map[key := NewRecord("w", hash, 0)], map[], 0,
                      map[1 := Holding(key, hash, 0), 2 := Deciding(key, hash, "w", 0, Reset)])
  {
    hide Steps, AllInLease, AllResetsFree;
    BothHaveRead(key, hash);
    OneMore(Empty(0), LateReset(key, hash), 4);
  }

  /** A stored success is erased and its request runs again, though nobody overran a lease and no reset met a holder. */
  lemma LateResetErasesTheSuccess(key: string, hash: string)
    ensures var ls := LateReset(key, hash);
            var ended, late := Steps(Empty(0), ls[..6]), Steps(Empty(0), ls);
            && AllInLease(Empty(0), ls) && AllResetsFree(Empty(0), ls)
            && Settled(ended, key, NewRecord("w", hash, 0).(completed := true, response := OK))
            && PendingReset(ended, 2, key)
            && key in late.records && !late.records[key].completed && HeldBy(late, 2, key)
  {
    hide Steps, AllInLease, AllResetsFree;
    var ls := LateReset(key, hash);
    FirstIsReserved(key, hash);
    OneMore(Empty(0), ls, 5);
    assert Steps(Empty(0), ls[..6]).live == map[2 := Deciding(key, hash, "w", 0, Reset)];
    OneMore(Empty(0), ls, 6);
    assert ls[..7] == ls;
  }
}
