/**
 EcfTokenManager::getToken as a transition system: any number of calls, managers and processes over
 one shared store.
 */
module TokenRenewal {
  import opened Wrappers
  import opened LeaseLock

  const LEASE := 30000
  const FIFTY_MINUTES := 3000000
  const POLLS := 12

  datatype Phase =
    | CheckCache
    | CheckMemory
    | Acquire
    | Recheck
    | Dropping(token: string)
    | Adopting(token: string)
    | Polling(attempt: nat)
    | AcquireAgain
    | LastLook
    | Waiting
    | Guarded
    | Renewing
    | ReadBack
    | Storing(token: string, ttl: int)
    | Unlocking(token: string)
    | Leaving(token: string)
    | Unwinding
    | Abandoning
    | Done(result: Option<string>)

  /** One call of getToken. `lease` is the time of the acquisition while its guard holds the lock. */
  datatype Call = Call(manager: nat, site: string, value: string, phase: Phase, lease: Option<int>, first: bool)

  /**
   A manager object: its memory token, and the call that holds its renewal mutex. `site` stands for
   issuer and environment.
   */
  datatype Manager = Manager(site: string, token: string, expiry: int, renewer: Option<nat>)

  /** `distributed` tells whether the managers have a cache service. */
  datatype System = System(store: Store, now: int, managers: map<nat, Manager>,
                           calls: map<nat, Call>, distributed: bool)

  /** What DGII answers to a renewal: token and expiry, or a failure. */
  datatype Answer = Granted(token: string, expiry: int) | Denied

  datatype Label =
    | Tick(ms: nat)
    | Begin(id: nat, manager: nat, value: string)
    | Advance(id: nat, answer: Answer)
    | Invalidate(manager: nat)
    | Forget(manager: nat)

  predicate Usable(token: Option<string>) {
    token.Some? && token.value != ""
  }

  /** The cache has a token for the site. */
  predicate Cached(store: Store, site: string, now: int) {
    Usable(Read(store, site, now))
  }

  predicate ValidInMemory(m: Manager, now: int) {
    m.token != "" && (m.expiry - now) / 60000 > 5
  }

  /** What one step of a call leaves: the call, the shared store and its manager. */
  datatype Outcome = Outcome(call: Call, store: Store, manager: Manager)

  /** A look at the cache: a hit leads to `hit`, anything else to `miss`. */
  function Look(store: Store, now: int, c: Call, m: Manager, miss: Phase, hit: string -> Phase): Outcome {
    var found := Read(store, c.site, now);
    Outcome(c.(phase := if Usable(found) then hit(found.value) else miss), Swept(store, c.site, now), m)
  }

  function Drop(store: Store, c: Call, m: Manager, next: Phase): Outcome {
    Outcome(c.(phase := next, lease := None), if c.lease.Some? then Released(store, c.site, c.value) else store, m)
  }

  function Try(store: Store, now: int, c: Call, m: Manager, first: bool, won: Phase, lost: Phase): Outcome {
    if Free(store, c.site, now)
    then Outcome(c.(phase := won, lease := Some(now), first := first), Acquired(store, c.site, c.value, now + LEASE), m)
    else Outcome(c.(phase := lost), store, m)
  }

  /** The next step of call `c`, number `id`, on its manager `m`. */
  function Proceed(store: Store, now: int, distributed: bool, id: nat, c: Call, m: Manager, answer: Answer): Outcome {
    match c.phase
    case CheckCache =>
      if distributed then Look(store, now, c, m, CheckMemory, t => Adopting(t))
        else Outcome(c.(phase := CheckMemory), store, m)
    case CheckMemory =>
      Outcome(c.(phase := if ValidInMemory(m, now) then Done(Some(m.token))
                          else if distributed then Acquire else Waiting),
              store, m)
    case Acquire => Try(store, now, c, m, true, Recheck, Polling(0))
    case Recheck => Look(store, now, c, m, Waiting, t => Dropping(t))
    case Dropping(token) => Drop(store, c, m, Adopting(token))
    case Adopting(token) =>
      Outcome(c.(phase := Done(Some(token))), store, m.(token := token, expiry := now + FIFTY_MINUTES))
    case Polling(attempt) =>
      Look(store, now, c, m, if attempt + 1 < POLLS then Polling(attempt + 1) else AcquireAgain, t => Adopting(t))
    case AcquireAgain => Try(store, now, c, m, false, Waiting, LastLook)
    case LastLook => Look(store, now, c, m, Done(None), t => Adopting(t))
    case Waiting =>
      if m.renewer.None? then Outcome(c.(phase := Guarded), store, m.(renewer := Some(id))) else Outcome(c, store, m)
    case Guarded =>
      Outcome(c.(phase := if ValidInMemory(m, now) then Unlocking(m.token) else Renewing), store, m)
    case Renewing =>
      if answer.Granted? && answer.token != ""
      then Outcome(c.(phase := ReadBack), store, m.(token := answer.token, expiry := answer.expiry))
      else Outcome(c.(phase := Unwinding), store, m)
    case ReadBack =>
      var ttl := (m.expiry - now) / 1000;
      Outcome(c.(phase := if distributed && m.token != "" && ttl > 0 then Storing(m.token, ttl)
                 else Unlocking(m.token)),
              store, m)
    case Storing(token, ttl) =>
      Outcome(c.(phase := Unlocking(token)), Put(store, c.site, token, Some(now + ttl * 1000)), m)
    case Unlocking(token) => Drop(store, c, m, Leaving(token))
    case Leaving(token) => Outcome(c.(phase := Done(Some(token))), store, m.(renewer := None))
    case Unwinding => Outcome(c.(phase := Abandoning), store, m.(renewer := None))
    case Abandoning => Drop(store, c, m, Done(None))
    case Done(_) => Outcome(c, store, m)
  }

  /** The step of call `id`, seen from the whole system. */
  function Move(s: System, id: nat, answer: Answer): Outcome
    requires id in s.calls && s.calls[id].manager in s.managers
  {
    Proceed(s.store, s.now, s.distributed, id, s.calls[id], s.managers[s.calls[id].manager], answer)
  }

  /** The lock value is drawn at random; a repeated one is excluded. */
  predicate FreshValue(s: System, value: string) {
    && (forall q :: q in s.calls ==> s.calls[q].value != value)
    && (forall key :: key in s.store.locks ==> s.store.locks[key].holder != value)
  }

  function Step(s: System, l: Label): System {
    match l
    case Tick(ms) => s.(now := s.now + ms)
    case Begin(id, manager, value) =>
      if id !in s.calls && manager in s.managers && FreshValue(s, value)
      then s.(calls := s.calls[id := Call(manager, s.managers[manager].site, value, CheckCache, None, false)]) else s
    case Advance(id, answer) =>
      if id in s.calls && s.calls[id].manager in s.managers
      then
        var o := Move(s, id, answer);
        s.(store := o.store, calls := s.calls[id := o.call], managers := s.managers[s.calls[id].manager := o.manager])
      else s
    case Invalidate(manager) =>
      if manager in s.managers && s.managers[manager].renewer.None?
      then s.(managers := s.managers[manager := s.managers[manager].(token := "", expiry := 0)]) else s
    case Forget(manager) =>
      if manager in s.managers && s.distributed
      then s.(store := Removed(s.store, s.managers[manager].site)) else s
  }

  function Steps(s: System, ls: seq<Label>): System
    decreases |ls|
  {
    if ls == [] then s else Steps(Step(s, ls[0]), ls[1..])
  }

  // ---- The lock -----------------------------------------------------------------------------

  predicate InLease(c: Call, now: int) {
    c.lease.Some? && now < c.lease.value + LEASE
  }

  /** The phases in which a guard may own the lock. */
  predicate MayHold(p: Phase) {
    p.Recheck? || p.Dropping? || PastLock(p)
  }

  predicate PastLock(p: Phase) {
    p.Waiting? || p.Guarded? || p.Renewing? || p.ReadBack? || p.Storing? || p.Unlocking?
      || p.Unwinding? || p.Abandoning?
  }

  predicate Distinct(s: System) {
    forall p, q :: p in s.calls && q in s.calls && p != q ==> s.calls[p].value != s.calls[q].value
  }

  /** While its lease runs, the lock of a call is its own. */
  predicate Owns(store: Store, now: int, c: Call) {
    && (c.lease.Some? ==> c.lease.value <= now && MayHold(c.phase))
    && (InLease(c, now) ==> c.site in store.locks && store.locks[c.site] == Lease(c.value, c.lease.value + LEASE))
  }

  /** A lock that carries the value of a call is the lock of a call that still has its guard. */
  predicate Accountable(store: Store, c: Call) {
    forall key :: key in store.locks && store.locks[key].holder == c.value ==> c.lease.Some? && key == c.site
  }

  ghost predicate LockSound(s: System) {
    && Distinct(s)
    && (forall q :: q in s.calls ==> Owns(s.store, s.now, s.calls[q]))
    && (forall q :: q in s.calls ==> Accountable(s.store, s.calls[q]))
  }

  /** The same call in another phase. */
  predicate SameCall(c': Call, c: Call) {
    c' == c.(phase := c'.phase, lease := c'.lease, first := c'.first)
  }

  lemma OwnDrop(store: Store, now: int, c: Call, m: Manager, next: Phase)
    requires Owns(store, now, c) && Accountable(store, c)
    ensures var o := Drop(store, c, m, next);
            Owns(o.store, now, o.call) && Accountable(o.store, o.call) && SameCall(o.call, c)
  {
  }

  lemma OwnsAcquired(store: Store, now: int, c: Call)
    requires c.lease == Some(now) && MayHold(c.phase)
    ensures Owns(Acquired(store, c.site, c.value, now + LEASE), now, c)
  {
    hide MayHold;
    var lease := Lease(c.value, now + LEASE);
    var locks := store.locks[c.site := lease];
    assert locks[c.site] == lease;
  }

  lemma OwnsTried(store: Store, now: int, c: Call, m: Manager, first: bool, won: Phase, lost: Phase)
    requires c.lease.None? && MayHold(won)
    ensures var o := Try(store, now, c, m, first, won, lost);
            Owns(o.store, now, o.call)
  {
    OwnsNothing(store, now, c.(phase := lost));
    OwnsAcquired(store, now, c.(phase := won, lease := Some(now), first := first));
    hide Owns, Acquired, MayHold;
  }

  lemma OwnsNothing(store: Store, now: int, c: Call)
    requires c.lease.None?
    ensures Owns(store, now, c)
  {
  }

  lemma AccountableTried(store: Store, now: int, c: Call, m: Manager, first: bool, won: Phase, lost: Phase)
    requires Accountable(store, c) && c.lease.None?
    ensures var o := Try(store, now, c, m, first, won, lost);
            Accountable(o.store, o.call) && SameCall(o.call, c)
  {
    var o := Try(store, now, c, m, first, won, lost);
    forall key | key in o.store.locks && o.store.locks[key].holder == o.call.value
      ensures o.call.lease.Some? && key == o.call.site
    {
      assert key in store.locks ==> store.locks[key].holder != c.value;
    }
  }

  lemma OwnTry(store: Store, now: int, c: Call, m: Manager, first: bool, won: Phase, lost: Phase)
    requires Owns(store, now, c) && Accountable(store, c) && c.lease.None? && MayHold(won)
    ensures var o := Try(store, now, c, m, first, won, lost);
            Owns(o.store, now, o.call) && Accountable(o.store, o.call) && SameCall(o.call, c)
  {
    hide Try, Owns, Accountable, MayHold;
    OwnsTried(store, now, c, m, first, won, lost);
    AccountableTried(store, now, c, m, first, won, lost);
  }

  predicate Settles(p: Phase) {
    p.Acquire? || p.AcquireAgain? || p.Dropping? || p.Unlocking? || p.Abandoning?
  }

  /** Only five phases change the lock table or the lease. */
  lemma OwnKept(store: Store, now: int, distributed: bool, id: nat, c: Call, m: Manager, answer: Answer)
    requires !Settles(c.phase)
    ensures var o := Proceed(store, now, distributed, id, c, m, answer);
            o.store.locks == store.locks && o.call == c.(phase := o.call.phase)
              && (MayHold(c.phase) ==> MayHold(o.call.phase))
  {
  }

  /** The step of a call keeps its claim to the lock truthful. */
  lemma OwnMove(store: Store, now: int, distributed: bool, id: nat, c: Call, m: Manager, answer: Answer)
    requires Owns(store, now, c) && Accountable(store, c)
    ensures var o := Proceed(store, now, distributed, id, c, m, answer);
            Owns(o.store, now, o.call) && Accountable(o.store, o.call) && SameCall(o.call, c)
  {
    match c.phase {
      case Acquire => OwnTry(store, now, c, m, true, Recheck, Polling(0));
      case AcquireAgain => OwnTry(store, now, c, m, false, Waiting, LastLook);
      case Dropping(token) => OwnDrop(store, now, c, m, Adopting(token));
      case Unlocking(token) => OwnDrop(store, now, c, m, Leaving(token));
      case Abandoning => OwnDrop(store, now, c, m, Done(None));
      case _ => OwnKept(store, now, distributed, id, c, m, answer);
    }
  }

  /** The step of a call leaves the claim of every other one as it was. */
  lemma OtherMove(store: Store, now: int, distributed: bool, id: nat, c: Call, m: Manager, answer: Answer, other: Call)
    requires Owns(store, now, other) && Accountable(store, other) && other.value != c.value
    ensures var o := Proceed(store, now, distributed, id, c, m, answer);
            Owns(o.store, now, other) && Accountable(o.store, other)
  {
    match c.phase {
      case _ =>
    }
  }

  lemma LockSoundStep(s: System, l: Label)
    requires LockSound(s)
    ensures LockSound(Step(s, l))
  {
    var s' := Step(s, l);
    forall q | q in s'.calls ensures Owns(s'.store, s'.now, s'.calls[q]) && Accountable(s'.store, s'.calls[q]) {
      if q in s.calls {
        var c := s.calls[q];
        assert Owns(s.store, s.now, c) && Accountable(s.store, c);
        if l.Advance? && l.id in s.calls && s.calls[l.id].manager in s.managers {
          var mover := s.calls[l.id];
          if q == l.id {
            OwnMove(s.store, s.now, s.distributed, q, c, s.managers[c.manager], l.answer);
          } else {
            OtherMove(s.store, s.now, s.distributed, l.id, mover, s.managers[mover.manager], l.answer, c);
          }
        }
      }
    }
    ValuesKept(s, l);
  }

  lemma ValuesKept(s: System, l: Label)
    requires Distinct(s)
    ensures Distinct(Step(s, l))
  {
    if l.Advance? && l.id in s.calls && s.calls[l.id].manager in s.managers {
      assert Move(s, l.id, l.answer).call.value == s.calls[l.id].value;
    }
  }

  lemma {:induction false} LockSoundSteps(s: System, ls: seq<Label>)
    requires LockSound(s)
    ensures LockSound(Steps(s, ls))
    decreases |ls|
  {
    if ls != [] {
      LockSoundStep(s, ls[0]);
      LockSoundSteps(Step(s, ls[0]), ls[1..]);
    }
  }

  /** No call has begun; locks and tokens of other programs may be there. */
  predicate Initial(s: System) {
    s.calls == map[] && forall m :: m in s.managers ==> s.managers[m].renewer.None?
  }

  /** Whatever another call does, a running lease stays with its owner. */
  lemma LeaseIsKept(s: System, ls: seq<Label>, l: Label, q: nat)
    requires Initial(s) && !(l.Advance? && l.id == q)
    requires var e := Steps(s, ls);
             q in e.calls && InLease(e.calls[q], Step(e, l).now)
    ensures var e := Steps(s, ls);
            && q in Step(e, l).calls && Step(e, l).calls[q] == e.calls[q]
            && e.calls[q].site in e.store.locks && e.calls[q].site in Step(e, l).store.locks
            && Step(e, l).store.locks[e.calls[q].site] == e.store.locks[e.calls[q].site]
                == Lease(e.calls[q].value, e.calls[q].lease.value + LEASE)
  {
    LockSoundSteps(s, ls);
    var e := Steps(s, ls);
    LockSoundStep(e, l);
    CallKept(e, l, q);
    assert Owns(e.store, e.now, e.calls[q]) && Owns(Step(e, l).store, Step(e, l).now, Step(e, l).calls[q]);
  }

  lemma CallKept(s: System, l: Label, q: nat)
    requires q in s.calls && !(l.Advance? && l.id == q)
    ensures q in Step(s, l).calls && Step(s, l).calls[q] == s.calls[q] && s.now <= Step(s, l).now
  {
  }

  /** However a call ends, no lock carries its value any more. */
  lemma EveryExitReleases(s: System, ls: seq<Label>, q: nat)
    requires Initial(s) && q in Steps(s, ls).calls && Steps(s, ls).calls[q].phase.Done?
    ensures forall key :: key in Steps(s, ls).store.locks ==>
              Steps(s, ls).store.locks[key].holder != Steps(s, ls).calls[q].value
  {
    LockSoundSteps(s, ls);
    var e := Steps(s, ls);
    assert Owns(e.store, e.now, e.calls[q]) && Accountable(e.store, e.calls[q]);
  }

  // ---- The guard and the mutex --------------------------------------------------------------

  predicate NeedsCache(p: Phase) {
    p.Acquire? || p.Recheck? || p.Dropping? || p.Adopting? || p.Polling? || p.AcquireAgain? || p.LastLook? || p.Storing?
  }

  predicate InMutex(p: Phase) {
    p.Guarded? || p.Renewing? || p.ReadBack? || p.Storing? || p.Unlocking? || p.Leaving? || p.Unwinding?
  }

  /** The lock is held exactly from the acquisition to the release, and the mutex likewise. */
  predicate Orderly(distributed: bool, q: nat, c: Call, m: Manager) {
    && (NeedsCache(c.phase) ==> distributed)
    && (c.lease.Some? <==> distributed && MayHold(c.phase))
    && (InMutex(c.phase) ==> m.renewer == Some(q))
  }

  ghost predicate AllOrderly(s: System) {
    forall q :: q in s.calls ==>
      s.calls[q].manager in s.managers && Orderly(s.distributed, q, s.calls[q], s.managers[s.calls[q].manager])
  }

  lemma OrderlyMove(store: Store, now: int, distributed: bool, id: nat, c: Call, m: Manager, answer: Answer)
    requires Orderly(distributed, id, c, m)
    ensures var o := Proceed(store, now, distributed, id, c, m, answer);
            Orderly(distributed, id, o.call, o.manager) && o.call.manager == c.manager
  {
    if Settles(c.phase) {
      OrderlySettles(store, now, distributed, id, c, m, answer);
    } else {
      OwnKept(store, now, distributed, id, c, m, answer);
    }
  }

  lemma OrderlySettles(store: Store, now: int, distributed: bool, id: nat, c: Call, m: Manager, answer: Answer)
    requires Orderly(distributed, id, c, m) && Settles(c.phase)
    ensures var o := Proceed(store, now, distributed, id, c, m, answer);
            Orderly(distributed, id, o.call, o.manager) && o.call.manager == c.manager
  {
  }

  lemma MutexKept(store: Store, now: int, distributed: bool, id: nat, c: Call, m: Manager, answer: Answer, q: nat)
    requires Orderly(distributed, id, c, m) && q != id && m.renewer == Some(q)
    ensures Proceed(store, now, distributed, id, c, m, answer).manager.renewer == Some(q)
  {
  }

  lemma OrderlyStep(s: System, l: Label)
    requires AllOrderly(s)
    ensures AllOrderly(Step(s, l)) && Step(s, l).distributed == s.distributed
  {
    if l.Advance? && l.id in s.calls {
      var c := s.calls[l.id];
      var m := s.managers[c.manager];
      OrderlyMove(s.store, s.now, s.distributed, l.id, c, m, l.answer);
      if m.renewer.Some? && m.renewer.value != l.id {
        MutexKept(s.store, s.now, s.distributed, l.id, c, m, l.answer, m.renewer.value);
      }
    }
  }

  lemma {:induction false} OrderlySteps(s: System, ls: seq<Label>)
    requires AllOrderly(s)
    ensures AllOrderly(Steps(s, ls)) && Steps(s, ls).distributed == s.distributed
    decreases |ls|
  {
    if ls != [] {
      OrderlyStep(s, ls[0]);
      OrderlySteps(Step(s, ls[0]), ls[1..]);
    }
  }

  /** The guard's thirty seconds are not over. */
  predicate NotOverdue(c: Call, now: int) {
    c.lease.Some? ==> now < c.lease.value + LEASE
  }

  /** While nobody overruns its lease, two calls never renew for the same issuer and environment. */
  lemma OneRenewal(s: System, ls: seq<Label>, p: nat, q: nat)
    requires Initial(s) && s.distributed
    requires var e := Steps(s, ls);
             && p in e.calls && q in e.calls
             && e.calls[p].phase.Renewing? && e.calls[q].phase.Renewing? && e.calls[p].site == e.calls[q].site
             && NotOverdue(e.calls[p], e.now) && NotOverdue(e.calls[q], e.now)
    ensures p == q
  {
    LockSoundSteps(s, ls);
    OrderlySteps(s, ls);
    var e := Steps(s, ls);
    assert Owns(e.store, e.now, e.calls[p]) && Owns(e.store, e.now, e.calls[q]);
  }

  /** One manager never renews twice at the same time, with or without a cache, whatever the leases. */
  lemma OneRenewalPerManager(s: System, ls: seq<Label>, p: nat, q: nat)
    requires Initial(s)
    requires var e := Steps(s, ls);
             && p in e.calls && q in e.calls
             && e.calls[p].phase.Renewing? && e.calls[q].phase.Renewing? && e.calls[p].manager == e.calls[q].manager
    ensures p == q
  {
    OrderlySteps(s, ls);
    var e := Steps(s, ls);
  }

  // ---- No empty token -----------------------------------------------------------------------

  /** Every token on its way to a caller has content. */
  predicate Contentful(c: Call, m: Manager) {
    match c.phase
    case Dropping(t) => t != ""
    case Adopting(t) => t != ""
    case Storing(t, _) => t != ""
    case Unlocking(t) => t != ""
    case Leaving(t) => t != ""
    case ReadBack => m.token != ""
    case Done(r) => r != Some("")
    case _ => true
  }

  ghost predicate AllContentful(s: System) {
    AllOrderly(s) && forall q :: q in s.calls ==> Contentful(s.calls[q], s.managers[s.calls[q].manager])
  }

  lemma ContentfulMove(store: Store, now: int, distributed: bool, id: nat, c: Call, m: Manager, answer: Answer)
    requires Contentful(c, m)
    ensures var o := Proceed(store, now, distributed, id, c, m, answer);
            Contentful(o.call, o.manager) && (m.token != "" ==> o.manager.token != "")
  {
    match c.phase {
      case _ =>
    }
  }

  lemma ContentfulStep(s: System, l: Label)
    requires AllContentful(s)
    ensures AllContentful(Step(s, l))
  {
    OrderlyStep(s, l);
    if l.Advance? && l.id in s.calls {
      var c := s.calls[l.id];
      ContentfulMove(s.store, s.now, s.distributed, l.id, c, s.managers[c.manager], l.answer);
      OrderlyMove(s.store, s.now, s.distributed, l.id, c, s.managers[c.manager], l.answer);
    }
  }

  lemma {:induction false} ContentfulSteps(s: System, ls: seq<Label>)
    requires AllContentful(s)
    ensures AllContentful(Steps(s, ls))
    decreases |ls|
  {
    if ls != [] {
      ContentfulStep(s, ls[0]);
      ContentfulSteps(Step(s, ls[0]), ls[1..]);
    }
  }

  /** getToken never hands out an empty token, whatever the other calls do to the manager meanwhile. */
  lemma NoEmptyToken(s: System, ls: seq<Label>, q: nat)
    requires Initial(s) && q in Steps(s, ls).calls && Steps(s, ls).calls[q].phase.Done?
    ensures Steps(s, ls).calls[q].phase.result != Some("")
  {
    ContentfulSteps(s, ls);
  }

  // ---- A renewal that was not needed --------------------------------------------------------

  /** The token is published while the publisher still owns the lock. */
  predicate PublishesInTime(s: System, l: Label) {
    l.Advance? && l.id in s.calls && s.calls[l.id].phase.Storing? ==> InLease(s.calls[l.id], s.now)
  }

  predicate AllInTime(s: System, ls: seq<Label>)
    decreases |ls|
  {
    ls == [] || (PublishesInTime(s, ls[0]) && AllInTime(Step(s, ls[0]), ls[1..]))
  }

  predicate Needed(store: Store, now: int, c: Call) {
    c.first && (c.phase.Waiting? || c.phase.Guarded?) && InLease(c, now) ==> !Cached(store, c.site, now)
  }

  ghost predicate AllNeeded(s: System) {
    forall q :: q in s.calls ==> Needed(s.store, s.now, s.calls[q])
  }

  /** A token gets into the cache of a site only by a publication there. */
  lemma CachedByStoring(store: Store, now: int, distributed: bool, id: nat, c: Call,
                        m: Manager, answer: Answer, site: string)
    requires !Cached(store, site, now) && Cached(Proceed(store, now, distributed, id, c, m, answer).store, site, now)
    ensures c.phase.Storing? && c.site == site
  {
    match c.phase {
      case _ =>
    }
  }

  lemma NeededMove(store: Store, now: int, distributed: bool, id: nat, c: Call, m: Manager, answer: Answer)
    requires Owns(store, now, c) && Needed(store, now, c)
    ensures var o := Proceed(store, now, distributed, id, c, m, answer);
            Needed(o.store, now, o.call)
  {
    match c.phase {
      case _ =>
    }
  }

  lemma NeededStep(s: System, l: Label)
    requires LockSound(s) && AllNeeded(s) && PublishesInTime(s, l)
    ensures AllNeeded(Step(s, l))
  {
    var s' := Step(s, l);
    forall q | q in s'.calls ensures Needed(s'.store, s'.now, s'.calls[q]) {
      if q in s.calls {
        var c := s.calls[q];
        assert Owns(s.store, s.now, c) && Needed(s.store, s.now, c);
        if l.Advance? && l.id in s.calls && s.calls[l.id].manager in s.managers {
          var mover := s.calls[l.id];
          if q == l.id {
            NeededMove(s.store, s.now, s.distributed, q, c, s.managers[c.manager], l.answer);
          } else if Cached(s'.store, c.site, s.now) && !Cached(s.store, c.site, s.now) {
            CachedByStoring(s.store, s.now, s.distributed, l.id, mover, s.managers[mover.manager], l.answer, c.site);
            assert Owns(s.store, s.now, mover);
          }
        }
      }
    }
  }

  lemma {:induction false} NeededSteps(s: System, ls: seq<Label>)
    requires LockSound(s) && AllNeeded(s) && AllInTime(s, ls)
    ensures AllNeeded(Steps(s, ls))
    decreases |ls|
  {
    if ls != [] {
      LockSoundStep(s, ls[0]);
      NeededStep(s, ls[0]);
      NeededSteps(Step(s, ls[0]), ls[1..]);
    }
  }

  /** A call that got the lock at once and is in its lease starts a renewal only when no token is cached. */
  lemma FirstAcquisitionRenewsOnlyIfNeeded(s: System, ls: seq<Label>, q: nat)
    requires Initial(s) && AllInTime(s, ls)
    requires var e := Steps(s, ls);
             && q in e.calls && e.calls[q].phase.Guarded? && e.calls[q].first && InLease(e.calls[q], e.now)
    ensures var e := Steps(s, ls);
            !Cached(e.store, e.calls[q].site, e.now)
  {
    LockSoundSteps(s, ls);
    NeededSteps(s, ls);
    var e := Steps(s, ls);
    assert Needed(e.store, e.now, e.calls[q]);
  }

  // ---- Every call ends ----------------------------------------------------------------------

  function Rank(p: Phase): nat {
    match p
    case CheckCache => 32
    case CheckMemory => 31
    case Acquire => 30
    case Polling(attempt) => if attempt < POLLS then 16 + POLLS - attempt else 16
    case AcquireAgain => 15
    case LastLook => 14
    case Recheck => 13
    case Dropping(_) => 12
    case Waiting => 11
    case Guarded => 10
    case Renewing => 9
    case ReadBack => 8
    case Storing(_, _) => 7
    case Unlocking(_) => 6
    case Leaving(_) => 5
    case Unwinding => 4
    case Abandoning => 3
    case Adopting(_) => 1
    case Done(_) => 0
  }

  /** Each own step brings a call closer to its end, unless it waits for the mutex: at most 32 steps. */
  lemma EveryCallEnds(store: Store, now: int, distributed: bool, id: nat, c: Call, m: Manager, answer: Answer)
    requires !c.phase.Done? && (c.phase.Waiting? ==> m.renewer.None?)
    ensures Rank(Proceed(store, now, distributed, id, c, m, answer).call.phase) < Rank(c.phase)
  {
    match c.phase {
      case _ =>
    }
  }

  // ---- The second acquisition does not look again ---------------------------------------------

  /** The cached token of the site is not removed by an invalidation. */
  predicate Remembers(s: System, l: Label, site: string) {
    !(l.Forget? && l.manager in s.managers && s.managers[l.manager].site == site)
  }

  predicate AllRemember(s: System, ls: seq<Label>, site: string)
    decreases |ls|
  {
    ls == [] || (Remembers(s, ls[0], site) && AllRemember(Step(s, ls[0]), ls[1..], site))
  }

  /** Between winning the lock for the second time and deciding about the renewal. */
  predicate Undecided(p: Phase) {
    p.Waiting? || p.Guarded?
  }

  lemma RankStep(s: System, l: Label, q: nat)
    requires q in s.calls
    ensures q in Step(s, l).calls && Rank(Step(s, l).calls[q].phase) <= Rank(s.calls[q].phase)
            && s.now <= Step(s, l).now
    ensures Undecided(s.calls[q].phase) && Undecided(Step(s, l).calls[q].phase) ==>
              Step(s, l).calls[q].lease == s.calls[q].lease && Step(s, l).calls[q].site == s.calls[q].site
  {
    if l.Advance? && l.id == q && s.calls[q].manager in s.managers {
      var c, m := s.calls[q], s.managers[s.calls[q].manager];
      if !c.phase.Done? && (c.phase.Waiting? ==> m.renewer.None?) {
        EveryCallEnds(s.store, s.now, s.distributed, q, c, m, l.answer);
      }
    } else if !(l.Advance? && l.id == q) {
      CallKept(s, l, q);
    }
  }

  lemma {:induction false} RankSteps(s: System, ls: seq<Label>, q: nat)
    requires q in s.calls
    ensures q in Steps(s, ls).calls && Rank(Steps(s, ls).calls[q].phase) <= Rank(s.calls[q].phase)
    ensures s.now <= Steps(s, ls).now
    decreases |ls|
  {
    if ls != [] {
      RankStep(s, ls[0], q);
      RankSteps(Step(s, ls[0]), ls[1..], q);
    }
  }

  lemma ReadByStoring(store: Store, now: int, distributed: bool, id: nat, c: Call, m: Manager,
                      answer: Answer, site: string, t: int)
    requires now <= t && !(c.phase.Storing? && c.site == site)
    ensures Read(Proceed(store, now, distributed, id, c, m, answer).store, site, t) == Read(store, site, t)
  {
    match c.phase {
      case _ =>
    }
  }

  /** While a call owns the lock, nobody else changes what its site has cached. */
  lemma TokenKept(s: System, l: Label, q: nat, t: int)
    requires LockSound(s) && PublishesInTime(s, l) && q in s.calls && Undecided(s.calls[q].phase)
             && InLease(s.calls[q], s.now)
    requires Remembers(s, l, s.calls[q].site) && Step(s, l).now <= t
    ensures Read(Step(s, l).store, s.calls[q].site, t) == Read(s.store, s.calls[q].site, t)
  {
    hide Proceed;
    assert Owns(s.store, s.now, s.calls[q]);
    if l.Advance? && l.id in s.calls && s.calls[l.id].manager in s.managers {
      var mover := s.calls[l.id];
      assert Owns(s.store, s.now, mover);
      ReadByStoring(s.store, s.now, s.distributed, l.id, mover, s.managers[mover.manager],
                    l.answer, s.calls[q].site, t);
    }
  }

  lemma {:induction false} TokenKeptAll(s: System, ls: seq<Label>, q: nat, t: int)
    requires LockSound(s) && AllInTime(s, ls) && q in s.calls && Undecided(s.calls[q].phase)
    requires AllRemember(s, ls, s.calls[q].site)
    requires var e := Steps(s, ls);
             q in e.calls && Undecided(e.calls[q].phase) && InLease(e.calls[q], e.now) && e.now <= t
    ensures var e := Steps(s, ls);
            e.calls[q].site == s.calls[q].site && e.calls[q].lease == s.calls[q].lease
            && Read(e.store, s.calls[q].site, t) == Read(s.store, s.calls[q].site, t)
    decreases |ls|
  {
    hide LockSound;
    if ls != [] {
      var s' := Step(s, ls[0]);
      RankStep(s, ls[0], q);
      RankSteps(s', ls[1..], q);
      assert Undecided(s'.calls[q].phase);
      LockSoundStep(s, ls[0]);
      TokenKeptAll(s', ls[1..], q, t);
      TokenKept(s, ls[0], q, t);
    }
  }

  /**
   Exactly when a call that won the lock at its second try (at `won`) renews a cached token: the
   token was there already and lives on, and the memory of its own manager is not valid.
   */
  lemma SecondAcquisitionRenewsIff(s: System, before: seq<Label>, after: seq<Label>, q: nat, answer: Answer)
    requires Initial(s) && AllInTime(Steps(s, before), after)
    requires var won := Steps(s, before);
             q in won.calls && won.calls[q].phase.Waiting? && AllRemember(won, after, won.calls[q].site)
    requires var e := Steps(Steps(s, before), after);
             && q in e.calls && e.calls[q].phase.Guarded? && InLease(e.calls[q], e.now)
             && e.calls[q].manager in e.managers
    ensures var won, e := Steps(s, before), Steps(Steps(s, before), after);
            var e' := Step(e, Advance(q, answer));
            e'.calls[q].phase.Renewing? && Cached(e'.store, e'.calls[q].site, e'.now) <==>
            Cached(won.store, won.calls[q].site, e.now) && !ValidInMemory(e.managers[e.calls[q].manager], e.now)
  {
    LockSoundSteps(s, before);
    hide Initial, LockSound, Step, ValidInMemory;
    var won := Steps(s, before);
    var e := Steps(won, after);
    TokenKeptAll(won, after, q, e.now);
    GuardedDecides(e, q, answer);
  }

  lemma GuardedDecides(e: System, q: nat, answer: Answer)
    requires q in e.calls && e.calls[q].phase.Guarded? && e.calls[q].manager in e.managers
    ensures var e' := Step(e, Advance(q, answer));
            && e'.store == e.store && e'.now == e.now && q in e'.calls && e'.calls[q].site == e.calls[q].site
            && (e'.calls[q].phase.Renewing? <==> !ValidInMemory(e.managers[e.calls[q].manager], e.now))
  {
  }

  /** Two managers of one issuer, a call each. */
  function Both(store: Store, m0: Manager, m1: Manager, c0: Call, c1: Call): System {
    System(store, 0, map[0 := m0, 1 := m1], map[0 := c0, 1 := c1], true)
  }

  lemma {:induction false} OneMore(s: System, ls: seq<Label>, l: Label)
    requires AllInTime(s, ls) && PublishesInTime(Steps(s, ls), l)
    ensures Steps(s, ls + [l]) == Step(Steps(s, ls), l) && AllInTime(s, ls + [l])
    decreases |ls|
  {
    if ls == [] {
      assert ls + [l] == [l] && [l][1..] == [];
    } else {
      assert (ls + [l])[1..] == ls[1..] + [l];
      OneMore(Step(s, ls[0]), ls[1..], l);
    }
  }

  lemma BothStep0(store: Store, m0: Manager, m1: Manager, c0: Call, c1: Call, a: Answer)
    requires c0.manager == 0
    ensures var o := Proceed(store, 0, true, 0, c0, m0, a);
            Step(Both(store, m0, m1, c0, c1), Advance(0, a)) == Both(o.store, o.manager, m1, o.call, c1)
  {
    hide Proceed;
    var o := Proceed(store, 0, true, 0, c0, m0, a);
    assert map[0 := c0, 1 := c1][0 := o.call] == map[0 := o.call, 1 := c1];
    assert map[0 := m0, 1 := m1][0 := o.manager] == map[0 := o.manager, 1 := m1];
  }

  lemma BothStep1(store: Store, m0: Manager, m1: Manager, c0: Call, c1: Call)
    requires c1.manager == 1
    ensures var o := Proceed(store, 0, true, 1, c1, m1, Denied);
            Step(Both(store, m0, m1, c0, c1), Advance(1, Denied)) == Both(o.store, m0, o.manager, c0, o.call)
  {
    hide Proceed;
    var o := Proceed(store, 0, true, 1, c1, m1, Denied);
    assert map[0 := c0, 1 := c1][1 := o.call] == map[0 := c0, 1 := o.call];
    assert map[0 := m0, 1 := m1][1 := o.manager] == map[0 := m0, 1 := o.manager];
  }

  lemma Move0(s: System, ls: seq<Label>, store: Store, m0: Manager, m1: Manager, c0: Call, c1: Call, a: Answer)
    returns (more: seq<Label>)
    requires AllInTime(s, ls) && Steps(s, ls) == Both(store, m0, m1, c0, c1) && c0.manager == 0
    requires c0.phase.Storing? ==> InLease(c0, 0)
    ensures var o := Proceed(store, 0, true, 0, c0, m0, a);
            AllInTime(s, more) && Steps(s, more) == Both(o.store, o.manager, m1, o.call, c1)
  {
    assert PublishesInTime(Both(store, m0, m1, c0, c1), Advance(0, a));
    hide Steps, Step, AllInTime, Proceed, Both, PublishesInTime;
    OneMore(s, ls, Advance(0, a));
    more := ls + [Advance(0, a)];
    BothStep0(store, m0, m1, c0, c1, a);
  }

  lemma Move1(s: System, ls: seq<Label>, store: Store, m0: Manager, m1: Manager, c0: Call, c1: Call)
    returns (more: seq<Label>)
    requires AllInTime(s, ls) && Steps(s, ls) == Both(store, m0, m1, c0, c1) && c1.manager == 1 && !c1.phase.Storing?
    ensures var o := Proceed(store, 0, true, 1, c1, m1, Denied);
            AllInTime(s, more) && Steps(s, more) == Both(o.store, m0, o.manager, c0, o.call)
  {
    assert PublishesInTime(Both(store, m0, m1, c0, c1), Advance(1, Denied));
    hide Steps, Step, AllInTime, Proceed, Both, PublishesInTime;
    OneMore(s, ls, Advance(1, Denied));
    more := ls + [Advance(1, Denied)];
    BothStep1(store, m0, m1, c0, c1);
  }

  lemma {:induction false} PollInVain(s: System, ls: seq<Label>, store: Store, m0: Manager,
                                      m1: Manager, c0: Call, c1: Call) returns (more: seq<Label>)
    requires AllInTime(s, ls) && Steps(s, ls) == Both(store, m0, m1, c0, c1)
    requires c1.manager == 1 && c1.phase.Polling? && c1.phase.attempt < POLLS && store.items == map[]
    ensures AllInTime(s, more) && Steps(s, more) == Both(store, m0, m1, c0, c1.(phase := AcquireAgain))
    decreases POLLS - c1.phase.attempt
  {
    more := Move1(s, ls, store, m0, m1, c0, c1);
    if c1.phase.attempt + 1 < POLLS {
      more := PollInVain(s, more, store, m0, m1, c0, c1.(phase := Polling(c1.phase.attempt + 1)));
    }
  }

  const M := Manager("site", "", 0, None)

  /** Both managers start without a token. */
  function Start(): System {
    System(Store(map[], map[]), 0, map[0 := M, 1 := M], map[], true)
  }

  lemma TwoBegin() returns (ls: seq<Label>)
    ensures AllInTime(Start(), ls)
    ensures Steps(Start(), ls) == Both(Store(map[], map[]), M, M, Call(0, "site", "a", CheckCache, None, false),
                                                                Call(1, "site", "b", CheckCache, None, false))
  {
    OneMore(Start(), [], Begin(0, 0, "a"));
    OneMore(Start(), [] + [Begin(0, 0, "a")], Begin(1, 1, "b"));
    ls := [] + [Begin(0, 0, "a")] + [Begin(1, 1, "b")];
  }

  const LOCKED := Store(map[], map["site" := Lease("a", LEASE)])
  const RENEWS := Call(0, "site", "a", Renewing, Some(0), true)

  lemma FirstRenews() returns (ls: seq<Label>)
    ensures AllInTime(Start(), ls)
    ensures Steps(Start(), ls) ==
            Both(LOCKED, M.(renewer := Some(0)), M, RENEWS, Call(1, "site", "b", CheckCache, None, false))
  {
    hide Steps, AllInTime;
    var free := Store(map[], map[]);
    var other := Call(1, "site", "b", CheckCache, None, false);
    var c := Call(0, "site", "a", CheckCache, None, false);
    ls := TwoBegin();
    ls := Move0(Start(), ls, free, M, M, c, other, Denied);
    ls := Move0(Start(), ls, free, M, M, c.(phase := CheckMemory), other, Denied);
    ls := Move0(Start(), ls, free, M, M, c.(phase := Acquire), other, Denied);
    ls := Move0(Start(), ls, LOCKED, M, M, RENEWS.(phase := Recheck), other, Denied);
    ls := Move0(Start(), ls, LOCKED, M, M, RENEWS.(phase := Waiting), other, Denied);
    ls := Move0(Start(), ls, LOCKED, M.(renewer := Some(0)), M, RENEWS.(phase := Guarded), other, Denied);
  }

  lemma SecondGivesUpPolling() returns (ls: seq<Label>)
    ensures AllInTime(Start(), ls)
    ensures Steps(Start(), ls) ==
            Both(LOCKED, M.(renewer := Some(0)), M, RENEWS, Call(1, "site", "b", AcquireAgain, None, false))
  {
    hide Steps, AllInTime;
    var m := M.(renewer := Some(0));
    var c := Call(1, "site", "b", CheckCache, None, false);
    ls := FirstRenews();
    ls := Move1(Start(), ls, LOCKED, m, M, RENEWS, c);
    ls := Move1(Start(), ls, LOCKED, m, M, RENEWS, c.(phase := CheckMemory));
    ls := Move1(Start(), ls, LOCKED, m, M, RENEWS, c.(phase := Acquire));
    ls := PollInVain(Start(), ls, LOCKED, m, M, RENEWS, c.(phase := Polling(0)));
  }

  const FILLED := map["site" := Item("t", Some(3600000))]
  const RENEWED := Manager("site", "t", 3600000, Some(0))
  const LATE := Call(1, "site", "b", AcquireAgain, None, false)

  lemma FirstIsGranted() returns (ls: seq<Label>)
    ensures AllInTime(Start(), ls)
    ensures Steps(Start(), ls) == Both(LOCKED, RENEWED, M, RENEWS.(phase := ReadBack), LATE)
  {
    hide Steps, AllInTime;
    ls := SecondGivesUpPolling();
    ls := Move0(Start(), ls, LOCKED, M.(renewer := Some(0)), M, RENEWS, LATE, Granted("t", 3600000));
  }

  lemma FirstReadsBack() returns (ls: seq<Label>)
    ensures AllInTime(Start(), ls)
    ensures Steps(Start(), ls) == Both(LOCKED, RENEWED, M, RENEWS.(phase := Storing("t", 3600)), LATE)
  {
    hide Steps, AllInTime;
    ls := FirstIsGranted();
    ls := Move0(Start(), ls, LOCKED, RENEWED, M, RENEWS.(phase := ReadBack), LATE, Denied);
  }

  lemma FirstPublishes() returns (ls: seq<Label>)
    ensures AllInTime(Start(), ls)
    ensures Steps(Start(), ls) == Both(Store(FILLED, LOCKED.locks), RENEWED, M, RENEWS.(phase := Unlocking("t")), LATE)
  {
    hide Steps, AllInTime;
    ls := FirstReadsBack();
    ls := Move0(Start(), ls, LOCKED, RENEWED, M, RENEWS.(phase := Storing("t", 3600)), LATE, Denied);
    assert Put(LOCKED, "site", "t", Some(3600000)) == Store(FILLED, LOCKED.locks);
  }

  lemma FirstUnlocks() returns (ls: seq<Label>)
    ensures AllInTime(Start(), ls)
    ensures Steps(Start(), ls) ==
            Both(Store(FILLED, map[]), RENEWED, M, RENEWS.(phase := Leaving("t"), lease := None), LATE)
  {
    hide Steps, AllInTime;
    ls := FirstPublishes();
    ls := Move0(Start(), ls, Store(FILLED, LOCKED.locks), RENEWED, M, RENEWS.(phase := Unlocking("t")), LATE, Denied);
    assert Released(Store(FILLED, LOCKED.locks), "site", "a") == Store(FILLED, map[]);
  }

  const RETAKEN := map["site" := Lease("b", LEASE)]

  lemma SecondAcquires() returns (ls: seq<Label>)
    ensures AllInTime(Start(), ls)
    ensures Steps(Start(), ls) ==
            Both(Store(FILLED, RETAKEN), RENEWED, M, RENEWS.(phase := Leaving("t"), lease := None),
                                       LATE.(phase := Waiting, lease := Some(0)))
  {
    hide Steps, AllInTime;
    ls := FirstUnlocks();
    ls := Move1(Start(), ls, Store(FILLED, map[]), RENEWED, M, RENEWS.(phase := Leaving("t"), lease := None), LATE);
    assert Acquired(Store(FILLED, map[]), "site", "b", LEASE) == Store(FILLED, RETAKEN);
  }

  /**
   The guarantee stops at the second acquisition: a run in which everybody is in time and a renewal
   starts although a token is cached.
   */
  lemma SecondAcquisitionRenewsAnyway() returns (ls: seq<Label>)
    ensures Initial(Start()) && AllInTime(Start(), ls)
    ensures var e := Steps(Start(), ls);
            && 1 in e.calls && e.calls[1].phase.Renewing? && InLease(e.calls[1], e.now)
            && Cached(e.store, e.calls[1].site, e.now)
  {
    var taken, c0, c := Store(FILLED, RETAKEN), RENEWS.(phase := Leaving("t"), lease := None), LATE.(lease := Some(0));
    ls := SecondAcquires();
    ls := Move1(Start(), ls, taken, RENEWED, M, c0, c.(phase := Waiting));
    ls := Move1(Start(), ls, taken, RENEWED, M.(renewer := Some(1)), c0, c.(phase := Guarded));
  }
}
