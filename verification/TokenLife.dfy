/**
 How long the tokens live that getToken hands out: where each one comes from, in milliseconds of rest
 life, along every run of the renewal protocol.
 */
module TokenLife {
  import opened Wrappers
  import opened LeaseLock
  import opened TokenRenewal

  lemma {:induction false} StepsConcat(s: System, a: seq<Label>, b: seq<Label>)
    ensures Steps(s, a + b) == Steps(Steps(s, a), b)
    decreases |a|
  {
    if a == [] {
      assert a + b == b;
    } else {
      assert (a + b)[1..] == a[1..] + b;
      StepsConcat(Step(s, a[0]), a[1..], b);
    }
  }

  lemma StepsOne(s: System, t: seq<Label>, l: Label)
    ensures Steps(s, t + [l]) == Step(Steps(s, t), l)
  {
    StepsConcat(s, t, [l]);
    assert Steps(Steps(s, t), [l]) == Step(Steps(s, t), l);
  }

  // ---- Where a token comes from ---------------------------------------------------------------

  /** The call looks at the cache, which has this token for its site, not yet expired. */
  predicate CacheHit(s: System, q: nat, token: string) {
    && q in s.calls && token != ""
    && (s.calls[q].phase.CheckCache? || s.calls[q].phase.Recheck? || s.calls[q].phase.Polling?
        || s.calls[q].phase.LastLook?)
    && s.calls[q].site in s.store.items
    && var item := s.store.items[s.calls[q].site];
       item.value == token && (item.expireAt.Some? ==> s.now <= item.expireAt.value)
  }

  /** The call looks at its manager's memory, where this token has six whole minutes to live. */
  predicate MemoryHit(s: System, q: nat, token: string) {
    && q in s.calls && token != ""
    && (s.calls[q].phase.CheckMemory? || s.calls[q].phase.Guarded?)
    && s.calls[q].manager in s.managers
    && var m := s.managers[s.calls[q].manager];
       m.token == token && m.expiry - s.now >= 360000
  }

  /** DGII grants the call a token. */
  predicate Grant(s: System, l: Label, q: nat) {
    l.Advance? && l.id == q && q in s.calls && s.calls[q].phase.Renewing? && l.answer.Granted? && l.answer.token != ""
  }

  /** The call reads the token back that is in memory after its renewal. */
  predicate ReadsBack(s: System, l: Label, q: nat, token: string) {
    && l.Advance? && l.id == q && q in s.calls && s.calls[q].phase.ReadBack?
    && s.calls[q].manager in s.managers && s.managers[s.calls[q].manager].token == token
  }

  ghost predicate Found(s: System, ls: seq<Label>, q: nat, token: string) {
    exists i :: 0 <= i < |ls| && ls[i].Advance? && ls[i].id == q
                && (CacheHit(Steps(s, ls[..i]), q, token) || MemoryHit(Steps(s, ls[..i]), q, token))
  }

  ghost predicate Granted(s: System, ls: seq<Label>, q: nat) {
    exists i :: 0 <= i < |ls| && Grant(Steps(s, ls[..i]), ls[i], q)
  }

  ghost predicate Renewed(s: System, ls: seq<Label>, q: nat, token: string) {
    exists i :: 0 <= i < |ls| && Granted(s, ls[..i], q) && ReadsBack(Steps(s, ls[..i]), ls[i], q, token)
  }

  /** The token was alive where the call found it, or the call renewed it itself. */
  ghost predicate Sourced(s: System, ls: seq<Label>, q: nat, token: string) {
    Found(s, ls, q, token) || Renewed(s, ls, q, token)
  }

  ghost predicate PhaseSourced(s: System, ls: seq<Label>, q: nat, p: Phase) {
    match p
    case Dropping(token) => Found(s, ls, q, token)
    case Adopting(token) => Found(s, ls, q, token)
    case ReadBack => Granted(s, ls, q)
    case Storing(token, _) => Renewed(s, ls, q, token)
    case Unlocking(token) => Sourced(s, ls, q, token)
    case Leaving(token) => Sourced(s, ls, q, token)
    case Done(result) => result.Some? ==> Sourced(s, ls, q, result.value)
    case _ => true
  }

  lemma SourcesStay(s: System, ls: seq<Label>, l: Label, q: nat, token: string)
    ensures Found(s, ls, q, token) ==> Found(s, ls + [l], q, token)
    ensures Granted(s, ls, q) ==> Granted(s, ls + [l], q)
    ensures Renewed(s, ls, q, token) ==> Renewed(s, ls + [l], q, token)
  {
    hide CacheHit, MemoryHit, Grant, ReadsBack;
    assert forall i :: 0 <= i < |ls| ==> (ls + [l])[..i] == ls[..i] && (ls + [l])[i] == ls[i];
  }

  lemma PhaseStays(s: System, ls: seq<Label>, l: Label, q: nat, p: Phase)
    requires PhaseSourced(s, ls, q, p)
    ensures PhaseSourced(s, ls + [l], q, p)
  {
    hide Found, Granted, Renewed;
    SourcesStay(s, ls, l, q, match p
      case Dropping(token) => token
      case Adopting(token) => token
      case Storing(token, _) => token
      case Unlocking(token) => token
      case Leaving(token) => token
      case Done(result) => if result.Some? then result.value else ""
      case _ => "");
  }

  /** What one own step of the call adds. */
  predicate StepSourced(s: System, l: Label, q: nat, p': Phase)
    requires l.Advance? && l.id == q && q in s.calls
  {
    var p := s.calls[q].phase;
    match p'
    case Dropping(token) => CacheHit(s, q, token)
    case Adopting(token) => CacheHit(s, q, token) || p == Dropping(token)
    case ReadBack => Grant(s, l, q)
    case Storing(token, _) => p.ReadBack? && ReadsBack(s, l, q, token)
    case Unlocking(token) =>
      MemoryHit(s, q, token) || (p.ReadBack? && ReadsBack(s, l, q, token)) || (p.Storing? && p.token == token)
    case Leaving(token) => p == Unlocking(token)
    case Done(result) =>
      result.Some? ==>
        MemoryHit(s, q, result.value) || p == Adopting(result.value) || p == Leaving(result.value) || p == p'
    case _ => true
  }

  lemma OwnStepSourced(s: System, l: Label, q: nat)
    requires l.Advance? && l.id == q && q in s.calls && s.calls[q].manager in s.managers
    ensures StepSourced(s, l, q, Step(s, l).calls[q].phase)
  {
    hide Released, Acquired, Put, Swept, Free;
    TookItsStep(s, l, q);
    hide Step;
    var p := s.calls[q].phase;
    if p.CheckCache? || p.Recheck? || p.Polling? || p.LastLook? {
      LookSourced(s, l, q);
    }
  }

  lemma TookItsStep(s: System, l: Label, q: nat)
    requires l.Advance? && l.id == q && q in s.calls && s.calls[q].manager in s.managers
    ensures q in Step(s, l).calls && Step(s, l).calls[q] == Move(s, q, l.answer).call
  {
    hide Move;
  }

  lemma LookSourced(s: System, l: Label, q: nat)
    requires l.Advance? && l.id == q && q in s.calls && s.calls[q].manager in s.managers
    requires var p := s.calls[q].phase; p.CheckCache? || p.Recheck? || p.Polling? || p.LastLook?
    ensures StepSourced(s, l, q, Step(s, l).calls[q].phase)
  {
    hide Swept;
    TookItsStep(s, l, q);
    hide Step;
  }

  lemma NewSource(s: System, ls: seq<Label>, l: Label, q: nat, token: string)
    requires l.Advance? && l.id == q
    ensures CacheHit(Steps(s, ls), q, token) || MemoryHit(Steps(s, ls), q, token) ==> Found(s, ls + [l], q, token)
    ensures Grant(Steps(s, ls), l, q) ==> Granted(s, ls + [l], q)
    ensures Granted(s, ls, q) && ReadsBack(Steps(s, ls), l, q, token) ==> Renewed(s, ls + [l], q, token)
  {
    hide CacheHit, MemoryHit, Grant, ReadsBack, Granted;
    assert (ls + [l])[..|ls|] == ls && (ls + [l])[|ls|] == l;
    if Grant(Steps(s, ls), l, q) {
      GrantIsGranted(s, ls, l, q);
    }
  }

  lemma GrantIsGranted(s: System, ls: seq<Label>, l: Label, q: nat)
    requires Grant(Steps(s, ls), l, q)
    ensures Granted(s, ls + [l], q)
  {
    hide Grant;
    assert (ls + [l])[..|ls|] == ls && (ls + [l])[|ls|] == l;
  }

  lemma SourcedNext(s: System, ls: seq<Label>, l: Label, q: nat)
    requires q in Steps(s, ls).calls && PhaseSourced(s, ls, q, Steps(s, ls).calls[q].phase)
    ensures q in Steps(s, ls + [l]).calls && PhaseSourced(s, ls + [l], q, Steps(s, ls + [l]).calls[q].phase)
  {
    hide Steps, Step, Found, Granted, Renewed, CacheHit, MemoryHit, Grant, ReadsBack;
    var e := Steps(s, ls);
    StepsOne(s, ls, l);
    PhaseStays(s, ls, l, q, e.calls[q].phase);
    if l.Advance? && l.id == q && e.calls[q].manager in e.managers {
      StaysInCalls(e, l, q);
      OwnStepSourced(e, l, q);
      NewSource(s, ls, l, q, TokenOf(Step(e, l).calls[q].phase));
      SourcesStay(s, ls, l, q, TokenOf(Step(e, l).calls[q].phase));
    } else {
      NotItsStep(e, l, q);
    }
  }

  function TokenOf(p: Phase): string {
    match p
    case Dropping(token) => token
    case Adopting(token) => token
    case Storing(token, _) => token
    case Unlocking(token) => token
    case Leaving(token) => token
    case Done(result) => if result.Some? then result.value else ""
    case _ => ""
  }

  lemma StaysInCalls(e: System, l: Label, q: nat)
    requires q in e.calls
    ensures q in Step(e, l).calls
  {
    hide Proceed;
  }

  lemma NotItsStep(e: System, l: Label, q: nat)
    requires q in e.calls && !(l.Advance? && l.id == q && e.calls[q].manager in e.managers)
    ensures q in Step(e, l).calls && Step(e, l).calls[q] == e.calls[q]
  {
    hide Proceed;
  }

  lemma BeginsUnsourced(e: System, l: Label, q: nat)
    requires q !in e.calls && q in Step(e, l).calls
    ensures Step(e, l).calls[q].phase == CheckCache
  {
    hide Proceed;
  }

  lemma {:induction false} SourcedRun(s: System, ls: seq<Label>, q: nat)
    requires s.calls == map[] && q in Steps(s, ls).calls
    ensures PhaseSourced(s, ls, q, Steps(s, ls).calls[q].phase)
    decreases |ls|
  {
    hide Step, Found, Granted, Renewed;
    if ls != [] {
      var init, l := ls[..|ls| - 1], ls[|ls| - 1];
      assert ls == init + [l];
      StepsOne(s, init, l);
      if q in Steps(s, init).calls {
        SourcedRun(s, init, q);
        SourcedNext(s, init, l, q);
      } else {
        BeginsUnsourced(Steps(s, init), l, q);
      }
    }
  }

  /**
   Every token that a call returns was, at a step of this call, unexpired in the cache of its site, or
   in its manager's memory with at least 360,000 milliseconds to live; or the call renewed it.
   */
  lemma ReturnedTokenIsSourced(s: System, ls: seq<Label>, q: nat, token: string)
    requires Initial(s) && q in Steps(s, ls).calls && Steps(s, ls).calls[q].phase == Done(Some(token))
    ensures Sourced(s, ls, q, token)
  {
    SourcedRun(s, ls, q);
  }

  /**
   The first look at the memory ends the call, and the one under the mutex starts a renewal, exactly
   by the rest of life.
   */
  lemma RenewsIff(s: System, q: nat, answer: Answer)
    requires q in s.calls && s.calls[q].manager in s.managers
    ensures var m, p := s.managers[s.calls[q].manager], s.calls[q].phase;
            var p' := Step(s, Advance(q, answer)).calls[q].phase;
            && (p.CheckMemory? ==> (p'.Done? <==> m.token != "" && m.expiry - s.now >= 360000))
            && (p.Guarded? ==> (p'.Renewing? <==> m.token == "" || m.expiry - s.now < 360000))
            && (p.Guarded? && !p'.Renewing? ==> p' == Unlocking(m.token))
            && (p'.Renewing? ==> p.Guarded?)
  {
  }

  /**
   A lock is won for thirty seconds, exactly when it is free or run out, and the loser of the first try
   looks at the cache twelve times before the second one.
   */
  lemma LockIsWonIff(s: System, q: nat, answer: Answer)
    requires q in s.calls && s.calls[q].manager in s.managers
    ensures var c := s.calls[q];
            var s' := Step(s, Advance(q, answer));
            var free := c.site !in s.store.locks || s.store.locks[c.site].until <= s.now;
            && (c.phase.Acquire? ==> s'.calls[q].phase == if free then Recheck else Polling(0))
            && (c.phase.AcquireAgain? ==> s'.calls[q].phase == if free then Waiting else LastLook)
            && ((c.phase.Acquire? || c.phase.AcquireAgain?) && free ==>
                  s'.store.locks == s.store.locks[c.site := Lease(c.value, s.now + 30000)])
            && (c.phase.Polling? && s'.calls[q].phase.Polling? ==>
                  s'.calls[q].phase.attempt == c.phase.attempt + 1 <= 11)
            && (c.phase.Polling? && s'.calls[q].phase.AcquireAgain? ==> c.phase.attempt >= 11)
  {
    hide Swept, Put, Released, Removed;
  }

  /** A renewed token is published for the whole seconds of its rest of life, if there are any. */
  lemma PublishedForItsLife(s: System, q: nat, answer: Answer)
    requires q in s.calls && s.calls[q].manager in s.managers && s.calls[q].phase.ReadBack?
    ensures var m, p' := s.managers[s.calls[q].manager], Step(s, Advance(q, answer)).calls[q].phase;
            && (p'.Storing? <==> s.distributed && m.token != "" && m.expiry - s.now >= 1000)
            && (p'.Storing? ==>
                  && p'.token == m.token && p'.ttl > 0
                  && 1000 * p'.ttl <= m.expiry - s.now < 1000 * p'.ttl + 1000)
            && (!p'.Storing? ==> p' == Unlocking(m.token))
  {
  }

  // ---- What an adopted token is worth ---------------------------------------------------------

  const BRIEF := Store(map["site" := Item("t", Some(1000))], map[])

  /** A manager without a token, and a cache whose token lives for one more second. */
  const SHORT_LIVED := System(BRIEF, 0, map[0 := M], map[], true)

  lemma SevenSteps(s: System, ls: seq<Label>)
    requires |ls| == 7
    ensures Steps(s, ls) ==
            Step(Step(Step(Step(Step(Step(Step(s, ls[0]), ls[1]), ls[2]), ls[3]), ls[4]), ls[5]), ls[6])
  {
    hide Step;
    StepsOne(s, [], ls[0]);
    forall n | 1 <= n < 7 ensures Steps(s, ls[..n + 1]) == Step(Steps(s, ls[..n]), ls[n]) {
      StepsOne(s, ls[..n], ls[n]);
      assert ls[..n + 1] == ls[..n] + [ls[n]];
    }
    assert ls[..1] == [] + [ls[0]] && ls[..7] == ls;
    assert Steps(s, ls[..2]) == Step(Steps(s, ls[..1]), ls[1]);
    assert Steps(s, ls[..3]) == Step(Steps(s, ls[..2]), ls[2]);
    assert Steps(s, ls[..4]) == Step(Steps(s, ls[..3]), ls[3]);
    assert Steps(s, ls[..5]) == Step(Steps(s, ls[..4]), ls[4]);
    assert Steps(s, ls[..6]) == Step(Steps(s, ls[..5]), ls[5]);
  }

  function Looker(value: string, phase: Phase): Call {
    Call(0, "site", value, phase, None, false)
  }

  /** The memory after the adoption, and the system in which the first call is over. */
  const ADOPTED := M.(token := "t", expiry := 3000000)

  function Later(store: Store, calls: map<nat, Call>): System {
    System(store, 2000000, map[0 := ADOPTED], calls, true)
  }

  lemma FirstAdopts()
    ensures var s1 := Step(SHORT_LIVED, Begin(0, 0, "a"));
            Step(Step(Step(s1, Advance(0, Denied)), Advance(0, Denied)), Tick(2000000)) ==
            Later(BRIEF, map[0 := Looker("a", Done(Some("t")))])
  {
    var s1 := SHORT_LIVED.(calls := map[0 := Looker("a", CheckCache)]);
    assert Step(SHORT_LIVED, Begin(0, 0, "a")) == s1;
    var s2 := s1.(calls := map[0 := Looker("a", Adopting("t"))]);
    assert Step(s1, Advance(0, Denied)) == s2 by { assert Swept(BRIEF, "site", 0) == BRIEF; }
    var s3 := s1.(managers := map[0 := ADOPTED], calls := map[0 := Looker("a", Done(Some("t")))]);
    assert Step(s2, Advance(0, Denied)) == s3;
  }

  lemma SecondIsServed()
    ensures var s4 := Later(BRIEF, map[0 := Looker("a", Done(Some("t")))]);
            var e := Step(Step(Step(s4, Begin(1, 0, "b")), Advance(1, Denied)), Advance(1, Denied));
            1 in e.calls && e.calls[1].phase == Done(Some("t")) && e.now == 2000000
  {
    var over := Looker("a", Done(Some("t")));
    var s4 := Later(BRIEF, map[0 := over]);
    var s5 := Later(BRIEF, map[0 := over, 1 := Looker("b", CheckCache)]);
    assert Step(s4, Begin(1, 0, "b")) == s5;
    var s6 := Later(Store(map[], map[]), map[0 := over, 1 := Looker("b", CheckMemory)]);
    assert Step(s5, Advance(1, Denied)) == s6 by { assert Swept(BRIEF, "site", 2000000) == Store(map[], map[]); }
  }

  /**
   The recorded rest of life is not the token's own once it was adopted: a token that the cache gives
   one more second is taken over for fifty minutes, and handed out again half an hour after its end.
   */
  lemma AdoptedTokenOutlivesItself() returns (ls: seq<Label>)
    ensures Initial(SHORT_LIVED) && SHORT_LIVED.store.items["site"] == Item("t", Some(1000))
    ensures forall m :: m in SHORT_LIVED.managers ==> SHORT_LIVED.managers[m].token == ""
    ensures forall l :: l in ls && l.Advance? ==> l.answer.Denied?
    ensures var e := Steps(SHORT_LIVED, ls);
            1 in e.calls && e.calls[1].phase == Done(Some("t")) && e.now == 2000000
  {
    hide Step;
    ls := [Begin(0, 0, "a"), Advance(0, Denied), Advance(0, Denied), Tick(2000000),
           Begin(1, 0, "b"), Advance(1, Denied), Advance(1, Denied)];
    SevenSteps(SHORT_LIVED, ls);
    FirstAdopts();
    SecondIsServed();
  }

  /** Exactly when an adoption does not overstate a life that ends at `end`: fifty minutes of it are left. */
  lemma AdoptionIsHonestIff(s: System, q: nat, answer: Answer, end: int)
    requires q in s.calls && s.calls[q].phase.Adopting? && s.calls[q].manager in s.managers
    ensures var m' := Step(s, Advance(q, answer)).managers[s.calls[q].manager];
            m'.token == s.calls[q].phase.token && (m'.expiry <= end <==> end - s.now >= 3000000)
  {
  }
}
