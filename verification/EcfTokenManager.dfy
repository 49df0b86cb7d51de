/**
 The token manager's own code over the shared cache: getToken and invalidate, with arbitrary steps
 of other calls, managers and processes in between. `Valid` says that whatever happened so far is
 a run of the transition system, so its theorems apply.
 */
module EcfTokenManager {
  import opened Wrappers
  import opened LeaseLock
  import opened TokenRenewal
  import opened TokenLife

  predicate Foreign(call: nat, l: Label) {
    !(l.Advance? && l.id == call)
  }

  /** In every run the guard of a call owns the lock from its acquisition to its release. */
  lemma OrderlyMover(s: System, ls: seq<Label>, call: nat, answer: Answer)
    requires Initial(s) && call in Steps(s, ls).calls
    ensures var e := Steps(s, ls);
            && e.calls[call].manager in e.managers
            && var c := Move(e, call, answer).call;
               SameCall(c, e.calls[call]) && (c.lease.Some? <==> e.distributed && MayHold(c.phase))
  {
    OrderlySteps(s, ls);
    var e := Steps(s, ls);
    var c := e.calls[call];
    OrderlyMove(e.store, e.now, e.distributed, call, c, e.managers[c.manager], answer);
    StaysTheCall(e.store, e.now, e.distributed, call, c, e.managers[c.manager], answer);
  }

  lemma StaysTheCall(store: Store, now: int, distributed: bool, id: nat, c: Call, m: Manager, answer: Answer)
    ensures SameCall(Proceed(store, now, distributed, id, c, m, answer).call, c)
  {
  }

  lemma ManagerKept(s: System, l: Label, m: nat)
    requires m in s.managers
    ensures m in Step(s, l).managers && Step(s, l).managers[m].site == s.managers[m].site
  {
    if l.Advance? && l.id in s.calls && s.calls[l.id].manager in s.managers {
      match s.calls[l.id].phase {
        case _ =>
      }
    }
  }

  lemma {:induction false} ForeignSteps(s: System, ls: seq<Label>, call: nat, m: nat)
    requires call in s.calls && m in s.managers && forall l :: l in ls ==> Foreign(call, l)
    ensures var e := Steps(s, ls);
            && call in e.calls && e.calls[call] == s.calls[call]
            && m in e.managers && e.managers[m].site == s.managers[m].site && e.distributed == s.distributed
    decreases |ls|
  {
    if ls != [] {
      assert ls[0] in ls && forall l :: l in ls[1..] ==> l in ls;
      CallKept(s, ls[0], call);
      ManagerKept(s, ls[0], m);
      ForeignSteps(Step(s, ls[0]), ls[1..], call, m);
    }
  }

  lemma TookStep(s: System, call: nat, answer: Answer)
    requires call in s.calls && s.calls[call].manager in s.managers
    ensures var o := Move(s, call, answer);
            Step(s, Advance(call, answer)) ==
            s.(store := o.store, calls := s.calls[call := o.call],
               managers := s.managers[s.calls[call].manager := o.manager])
  {
    hide Move;
  }

  /** Where the token goes after it was read back. */
  lemma ReadBackMove(s: System, call: nat)
    requires call in s.calls && s.calls[call].phase.ReadBack? && s.calls[call].manager in s.managers
    ensures var m := s.managers[s.calls[call].manager];
            var ttl := (m.expiry - s.now) / 1000;
            var next := if s.distributed && m.token != "" && ttl > 0 then Storing(m.token, ttl) else Unlocking(m.token);
            Move(s, call, Denied) == Outcome(s.calls[call].(phase := next), s.store, m)
  {
  }

  /** How a call ends; `Blocked` is one that never obtains the renewal mutex. */
  datatype Ending = Returned(token: string) | Threw | Blocked

  function Final(e: Ending): Phase {
    match e
    case Returned(token) => Done(Some(token))
    case Threw => Done(None)
    case Blocked => Waiting
  }

  class EcfTokenManager {
    const id: nat
    const site: string
    const cache: RedisCacheService
    const connected: bool

    var cachedToken: string
    var tokenExpiry: int
    var renewMutex: Option<nat>

    // The clock, the other managers, and the calls under way anywhere.
    var now: int
    var others: map<nat, Manager>
    var calls: map<nat, Call>

    ghost const START: System
    ghost var trace: seq<Label>

    ghost function Own(): Manager
      reads this
    {
      Manager(site, cachedToken, tokenExpiry, renewMutex)
    }

    ghost function S(): System
      reads this, cache
    {
      System(cache.Value(), now, others[id := Own()], calls, connected)
    }

    ghost predicate Valid()
      reads this, cache
    {
      Initial(START) && S() == Steps(START, trace)
    }

    ghost predicate At(call: nat, p: Phase)
      reads this, cache
    {
      && Valid() && call in calls && calls[call].phase == p && calls[call].manager == id && calls[call].site == site
      && (calls[call].lease.Some? <==> connected && MayHold(p))
    }

    constructor (id: nat, site: string, cache: RedisCacheService, connected: bool, now: int)
      ensures Valid() && calls == map[] && this.cache == cache && this.id == id && this.site == site
    {
      this.id, this.site, this.cache, this.connected := id, site, cache, connected;
      cachedToken, tokenExpiry, renewMutex := "", 0, None;
      this.now, others, calls := now, map[], map[];
      START := System(cache.Value(), now, map[][id := Manager(site, "", 0, None)], map[], connected);
      trace := [];
    }

    method Others(call: nat)
      requires call in calls && At(call, calls[call].phase)
      modifies this, cache
      ensures call in calls && calls[call] == old(calls[call]) && At(call, calls[call].phase)
    {
      var ls: seq<Label> := *;
      if forall l :: l in ls ==> Foreign(call, l) {
        ghost var before := S();
        ForeignSteps(before, ls, call, id);
        StepsConcat(START, trace, ls);
        var s := Steps(System(Store(cache.memoryStore, cache.locks), now,
                              others[id := Manager(site, cachedToken, tokenExpiry, renewMutex)], calls, connected), ls);
        cache.Become(s.store.items, s.store.locks);
        now, others, calls := s.now, s.managers, s.calls;
        var own := s.managers[id];
        cachedToken, tokenExpiry, renewMutex := own.token, own.expiry, own.renewer;
        assert others[id := Own()] == s.managers;
        trace := trace + ls;
      }
    }

    /** The call's own step was taken: the program counter follows. */
    method Took(call: nat, next: Call, ghost answer: Answer, ghost before: System)
      requires Initial(START) && before == Steps(START, trace) && calls == before.calls
      requires call in calls && calls[call].manager == id && calls[call].site == site
      requires id in before.managers && before.distributed == connected
      requires Move(before, call, answer) == Outcome(next, cache.Value(), Own())
      requires S() == before.(store := cache.Value(), managers := before.managers[id := Own()])
      modifies this`calls, this`trace
      ensures calls == old(calls)[call := next] && At(call, next.phase)
    {
      hide Initial, Steps, Step, Move, MayHold;
      OrderlyMover(START, trace, call, answer);
      TookStep(before, call, answer);
      StepsOne(START, trace, Advance(call, answer));
      calls := calls[call := next];
      trace := trace + [Advance(call, answer)];
      assert S() == Step(before, Advance(call, answer));
    }

    /** A step that only decides where to go. */
    method Goto(call: nat, next: Phase)
      requires call in calls && At(call, calls[call].phase)
      requires Move(S(), call, Denied) == Outcome(calls[call].(phase := next), cache.Value(), Own())
      modifies this`calls, this`trace
      ensures At(call, next) && calls == old(calls)[call := old(calls[call]).(phase := next)]
    {
      ghost var before := S();
      assert others[id := Own()][id := Own()] == others[id := Own()];
      Took(call, calls[call].(phase := next), Denied, before);
    }

    method Enter(call: nat, lockValue: string)
      requires Valid() && call !in calls && FreshValue(S(), lockValue)
      modifies this`calls, this`trace
      ensures At(call, CheckCache) && calls[call].value == lockValue
    {
      StepsOne(START, trace, Begin(call, id, lockValue));
      calls := calls[call := Call(id, site, lockValue, CheckCache, None, false)];
      trace := trace + [Begin(call, id, lockValue)];
    }

    /** cacheService_->get, and where a miss leads. */
    method Peek(call: nat, p: Phase, miss: Phase) returns (hit: Option<string>)
      requires At(call, p) && connected
      requires || (p == CheckCache && miss == CheckMemory)
               || (p == Recheck && miss == Waiting)
               || (p.Polling? && miss == if p.attempt + 1 < POLLS then Polling(p.attempt + 1) else AcquireAgain)
               || (p == LastLook && miss == Done(None))
      modifies this, cache
      ensures hit.None? ==> At(call, miss)
      ensures hit.Some? ==> At(call, if p.Recheck? then Dropping(hit.value) else Adopting(hit.value))
      ensures call in calls && calls[call].value == old(calls[call].value)
    {
      Others(call);
      ghost var before := S();
      hit := cache.Get(site, now);
      if hit.Some? && hit.value == "" {
        hit := None;
      }
      Took(call, calls[call].(phase := if hit.None? then miss
                                       else if p.Recheck? then Dropping(hit.value) else Adopting(hit.value)),
           Denied, before);
    }

    /** The token found in the cache becomes the one in memory. */
    method Adopt(call: nat, token: string)
      requires At(call, Adopting(token))
      modifies this, cache
      ensures At(call, Done(Some(token))) && calls[call].value == old(calls[call].value)
    {
      Others(call);
      ghost var before := S();
      cachedToken, tokenExpiry := token, now + FIFTY_MINUTES;
      assert others[id := Own()] == before.managers[id := Own()];
      Took(call, calls[call].(phase := Done(Some(token))), Denied, before);
    }

    method TryLock(call: nat, again: bool) returns (acquired: bool)
      requires At(call, if again then AcquireAgain else Acquire) && connected
      modifies this, cache
      ensures At(call, if again then if acquired then Waiting else LastLook
                       else if acquired then Recheck else Polling(0))
      ensures calls[call].value == old(calls[call].value)
    {
      Others(call);
      ghost var before := S();
      acquired := cache.AcquireLock(site, calls[call].value, LEASE, now);
      var c := calls[call];
      if acquired {
        Took(call, c.(phase := if again then Waiting else Recheck, lease := Some(now), first := !again),
             Denied, before);
      } else {
        Took(call, c.(phase := if again then LastLook else Polling(0)), Denied, before);
      }
    }

    /** DistLockGuard::release, and the early release after the recheck. */
    method Unlock(call: nat, p: Phase, next: Phase)
      requires At(call, p)
      requires || (p.Dropping? && next == Adopting(p.token))
               || (p.Unlocking? && next == Leaving(p.token))
               || (p == Abandoning && next == Done(None))
      modifies this, cache
      ensures At(call, next) && calls[call].value == old(calls[call].value)
    {
      Others(call);
      ghost var before := S();
      if calls[call].lease.Some? {
        var _ := cache.ReleaseLock(site, calls[call].value);
      }
      Took(call, calls[call].(phase := next, lease := None), Denied, before);
    }

    /** A token in memory with six whole minutes to live sends the call to `hit`, anything else to `miss`. */
    method Recall(call: nat, p: Phase, miss: Phase) returns (hit: Option<string>)
      requires At(call, p)
      requires || (p == CheckMemory && miss == if connected then Acquire else Waiting)
               || (p == Guarded && miss == Renewing)
      modifies this, cache
      ensures hit.None? ==> At(call, miss)
      ensures hit.Some? ==> At(call, if p.Guarded? then Unlocking(hit.value) else Done(hit))
      ensures hit == if cachedToken != "" && tokenExpiry - now >= 360000 then Some(cachedToken) else None
      ensures call in calls && calls[call].value == old(calls[call].value)
    {
      Others(call);
      if cachedToken != "" && (tokenExpiry - now) / 60000 > 5 {
        hit := Some(cachedToken);
        Goto(call, if p.Guarded? then Unlocking(cachedToken) else Done(hit));
      } else {
        hit := None;
        Goto(call, miss);
      }
    }

    /** lock_guard on the renewal mutex; `false` when another call keeps it for ever. */
    method Lock(call: nat) returns (locked: bool)
      requires At(call, Waiting)
      modifies this, cache
      ensures At(call, if locked then Guarded else Waiting) && calls[call].value == old(calls[call].value)
    {
      Others(call);
      locked := renewMutex.None?;
      if locked {
        ghost var before := S();
        renewMutex := Some(call);
        assert others[id := Own()] == before.managers[id := Own()];
        Took(call, calls[call].(phase := Guarded), Denied, before);
      }
    }

    method Leave(call: nat, p: Phase, next: Phase)
      requires At(call, p) && (if p.Leaving? then next == Done(Some(p.token)) else p == Unwinding && next == Abandoning)
      modifies this, cache
      ensures At(call, next) && calls[call].value == old(calls[call].value)
    {
      Others(call);
      ghost var before := S();
      renewMutex := None;
      assert others[id := Own()] == before.managers[id := Own()];
      Took(call, calls[call].(phase := next), Denied, before);
    }

    /** renewToken; the answer is DGII's. */
    method RenewToken(call: nat) returns (renewed: bool)
      requires At(call, Renewing)
      modifies this, cache
      ensures At(call, if renewed then ReadBack else Unwinding) && calls[call].value == old(calls[call].value)
    {
      Others(call);
      ghost var before := S();
      var answer: Answer := *;
      renewed := answer.Granted? && answer.token != "";
      if renewed {
        cachedToken, tokenExpiry := answer.token, answer.expiry;
      }
      assert others[id := Own()] == before.managers[id := Own()];
      Took(call, calls[call].(phase := if renewed then ReadBack else Unwinding), answer, before);
    }

    /** cacheService_->set, over the cache as it is by then (`at`). */
    method SetToken(call: nat, token: string, ttl: int) returns (ghost at: Store)
      requires At(call, Storing(token, ttl))
      modifies this, cache
      ensures At(call, Unlocking(token)) && calls[call].value == old(calls[call].value)
      ensures cache.Value() == Put(at, site, token, Some(now + ttl * 1000))
    {
      hide Initial, Steps;
      Others(call);
      ghost var before := S();
      at := cache.Value();
      cache.Set(site, token, Some(ttl * 1000), now);
      Took(call, calls[call].(phase := Unlocking(token)), Denied, before);
    }

    /** The token and the whole seconds of its rest of life, as memory has them now. */
    method TakeBack(call: nat) returns (token: string, ttl: int)
      requires At(call, ReadBack)
      modifies this, cache
      ensures At(call, if connected && token != "" && ttl > 0 then Storing(token, ttl) else Unlocking(token))
      ensures calls[call].value == old(calls[call].value)
      ensures token == cachedToken && ttl == (tokenExpiry - now) / 1000
    {
      hide Initial, Steps, Move, MayHold;
      Others(call);
      ReadBackMove(S(), call);
      token := cachedToken;
      ttl := (tokenExpiry - now) / 1000;
      Goto(call, if connected && token != "" && ttl > 0 then Storing(token, ttl) else Unlocking(token));
    }

    /** The token is read back from memory and published for the rest of its life. */
    method Publish(call: nat) returns (token: string, ttl: int, ghost at: Store)
      requires At(call, ReadBack)
      modifies this, cache
      ensures At(call, Unlocking(token)) && calls[call].value == old(calls[call].value)
      ensures cache.Value() == if connected && token != "" && ttl > 0
              then Put(at, site, token, Some(now + ttl * 1000)) else at
      ensures !connected || token == "" || ttl <= 0 ==> token == cachedToken && ttl == (tokenExpiry - now) / 1000
    {
      hide Initial, Steps, Put, MayHold;
      token, ttl := TakeBack(call);
      at := cache.Value();
      if connected && token != "" && ttl > 0 {
        at := SetToken(call, token, ttl);
      }
    }

    /** What the theorems say about a call that is over. */
    lemma Ended(call: nat, r: Option<string>)
      requires At(call, Done(r))
      ensures r != Some("") && (r.Some? ==> Sourced(START, trace, call, r.value))
      ensures forall key :: key in cache.locks ==> cache.locks[key].holder != calls[call].value
    {
      NoEmptyToken(START, trace, call);
      EveryExitReleases(START, trace, call);
      if r.Some? {
        ReturnedTokenIsSourced(START, trace, call, r.value);
      }
      assert forall key :: key in S().store.locks ==> S().store.locks[key].holder != calls[call].value;
    }

    /** The lock goes before the mutex. */
    method Conclude(call: nat, token: string)
      requires At(call, Unlocking(token))
      modifies this, cache
      ensures At(call, Done(Some(token))) && calls[call].value == old(calls[call].value)
    {
      Unlock(call, Unlocking(token), Leaving(token));
      Leave(call, Leaving(token), Done(Some(token)));
    }

    /** The exception leaves the mutex first; the guard's destructor releases the lock. */
    method Unwind(call: nat)
      requires At(call, Unwinding)
      modifies this, cache
      ensures At(call, Done(None)) && calls[call].value == old(calls[call].value)
    {
      Leave(call, Unwinding, Abandoning);
      Unlock(call, Abandoning, Done(None));
    }

    /** The part of getToken under the lock and the mutex. */
    method Renew(call: nat) returns (ending: Ending)
      requires At(call, Waiting)
      modifies this, cache
      ensures At(call, Final(ending)) && calls[call].value == old(calls[call].value)
    {
      hide Valid;
      var locked := Lock(call);
      if !locked {
        return Blocked;
      }
      var remembered := Recall(call, Guarded, Renewing);
      if remembered.Some? {
        Conclude(call, remembered.value);
        return Returned(remembered.value);
      }
      var renewed := RenewToken(call);
      if !renewed {
        Unwind(call);
        return Threw;
      }
      var token, _, _ := Publish(call);
      Conclude(call, token);
      ending := Returned(token);
    }

    method Poll(call: nat) returns (token: Option<string>)
      requires At(call, Polling(0)) && connected
      modifies this, cache
      ensures token.None? ==> At(call, AcquireAgain)
      ensures token.Some? ==> At(call, Adopting(token.value))
      ensures call in calls && calls[call].value == old(calls[call].value)
    {
      hide Valid;
      var attempt := 0;
      while attempt < POLLS
        invariant 0 <= attempt <= POLLS
        invariant At(call, if attempt < POLLS then Polling(attempt) else AcquireAgain)
        invariant calls[call].value == old(calls[call].value)
      {
        token := Peek(call, Polling(attempt), if attempt + 1 < POLLS then Polling(attempt + 1) else AcquireAgain);
        if token.Some? {
          return;
        }
        attempt := attempt + 1;
      }
      token := None;
    }

    /** Another instance holds the lock: wait for its token, then try the lock once more. */
    method Wait(call: nat) returns (ending: Option<Ending>)
      requires At(call, Polling(0)) && connected
      modifies this, cache
      ensures ending.None? ==> At(call, Waiting)
      ensures ending.Some? ==> !ending.value.Blocked? && At(call, Final(ending.value))
      ensures call in calls && calls[call].value == old(calls[call].value)
    {
      hide Valid;
      var token := Poll(call);
      if token.None? {
        var acquired := TryLock(call, true);
        if acquired {
          return None;
        }
        token := Peek(call, LastLook, Done(None));
        if token.None? {
          return Some(Threw);
        }
      }
      Adopt(call, token.value);
      ending := Some(Returned(token.value));
    }

    /**
     Every way out releases the lock. A returned token is never empty, and this call found it alive, in
     the cache or with six whole minutes to live in memory, or renewed it.
     */
    method GetToken(call: nat, lockValue: string) returns (ending: Ending)
      requires Valid() && call !in calls && FreshValue(S(), lockValue)
      modifies this, cache
      ensures At(call, Final(ending))
      ensures ending.Returned? ==> ending.token != "" && Sourced(START, trace, call, ending.token)
      ensures !ending.Blocked? ==> forall key :: key in cache.locks ==> cache.locks[key].holder != lockValue
    {
      Enter(call, lockValue);
      ending := Fetch(call);
      match ending {
        case Returned(token) => Ended(call, Some(token));
        case Threw => Ended(call, None);
        case Blocked =>
      }
    }

    method Fetch(call: nat) returns (ending: Ending)
      requires At(call, CheckCache)
      modifies this, cache
      ensures At(call, Final(ending)) && calls[call].value == old(calls[call].value)
    {
      hide Valid;
      if connected {
        var cached := Peek(call, CheckCache, CheckMemory);
        if cached.Some? {
          Adopt(call, cached.value);
          return Returned(cached.value);
        }
      } else {
        Goto(call, CheckMemory);
      }
      var remembered := Recall(call, CheckMemory, if connected then Acquire else Waiting);
      if remembered.Some? {
        return Returned(remembered.value);
      }
      if connected {
        var acquired := TryLock(call, false);
        if acquired {
          var token := Peek(call, Recheck, Waiting);
          if token.Some? {
            Unlock(call, Dropping(token.value), Adopting(token.value));
            Adopt(call, token.value);
            return Returned(token.value);
          }
        } else {
          var early := Wait(call);
          if early.Some? {
            return early.value;
          }
        }
      }
      ending := Renew(call);
    }

    /** invalidate: the memory token goes first, the cached one after it; a renewal under way blocks both. */
    method ForgetToken() returns (forgotten: bool)
      requires Valid()
      modifies this, cache
      ensures Valid() && (forgotten <==> old(renewMutex).None?)
      ensures forgotten ==> cachedToken == "" && (connected ==> site !in cache.memoryStore)
      ensures !forgotten ==> cachedToken == old(cachedToken) && cache.Value() == old(cache.Value())
    {
      forgotten := renewMutex.None?;
      if forgotten {
        ghost var before := S();
        cachedToken, tokenExpiry := "", 0;
        assert others[id := Own()] == before.managers[id := Own()];
        Recorded(Invalidate(id), before);
        before := S();
        if connected {
          cache.Remove(site);
        }
        Recorded(Forget(id), before);
      }
    }

    ghost method Recorded(l: Label, before: System)
      requires Initial(START) && before == Steps(START, trace) && S() == Step(before, l)
      modifies this`trace
      ensures Valid()
    {
      StepsOne(START, trace, l);
      trace := trace + [l];
    }
  }
}
