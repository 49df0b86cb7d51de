/** NonceCache: a cache that forgets expired nonces, against the full history of everything it ever accepted. */
module NonceCache {

  datatype Request = Request(keyId: string, nonce: string, ttl: real, now: real)

  datatype Entry = Entry(key: string, at: real, expiry: real)

  function CacheKey(keyId: string, nonce: string): string {
    "nonce:" + keyId + ":" + nonce
  }

  function Key(r: Request): string {
    CacheKey(r.keyId, r.nonce)
  }

  predicate Named(r: Request) {
    r.keyId != "" && r.nonce != ""
  }

  /** Some accepted entry of this key has not expired. */
  predicate Active(history: seq<Entry>, key: string, now: real) {
    exists e :: e in history && e.key == key && e.expiry >= now
  }

  predicate Acceptable(history: seq<Entry>, r: Request) {
    Named(r) && !Active(history, Key(r), r.now)
  }

  function Extended(history: seq<Entry>, r: Request): seq<Entry> {
    if Acceptable(history, r) then history + [Entry(Key(r), r.now, r.now + r.ttl)] else history
  }

  /** Everything ever accepted, with nothing forgotten. */
  function History(rs: seq<Request>): seq<Entry> {
    if rs == [] then [] else Extended(History(rs[..|rs| - 1]), rs[|rs| - 1])
  }

  function Prune(cache: map<string, real>, now: real): map<string, real> {
    map k | k in cache && cache[k] >= now :: cache[k]
  }

  function Inserted(cache: map<string, real>, key: string, ttl: real, now: real): (map<string, real>, bool) {
    var pruned := Prune(cache, now);
    if key in pruned then (pruned, false) else (pruned[key := now + ttl], true)
  }

  /** The code's step on the pruned cache. */
  function Tried(cache: map<string, real>, r: Request): (map<string, real>, bool) {
    if !Named(r) then (cache, false) else Inserted(cache, Key(r), r.ttl, r.now)
  }

  function CacheAfter(rs: seq<Request>): map<string, real> {
    if rs == [] then map[] else Tried(CacheAfter(rs[..|rs| - 1]), rs[|rs| - 1]).0
  }

  predicate Monotone(rs: seq<Request>) {
    forall i, j :: 0 <= i < j < |rs| ==> rs[i].now <= rs[j].now
  }

  /** From `clock` on the cache and the history know the same active entries. */
  ghost predicate Agree(cache: map<string, real>, history: seq<Entry>, clock: real) {
    && (forall k :: k in cache ==> exists e :: e in history && e.key == k && e.expiry == cache[k])
    && (forall e :: e in history && e.expiry >= clock ==> e.key in cache && cache[e.key] == e.expiry)
  }

  lemma AgreeStep(cache: map<string, real>, history: seq<Entry>, clock: real, r: Request)
    requires Agree(cache, history, clock) && clock <= r.now
    ensures Tried(cache, r).1 <==> Acceptable(history, r)
    ensures Agree(Tried(cache, r).0, Extended(history, r), r.now)
  {
    if Named(r) {
      var pruned := Prune(cache, r.now);
      var k := Key(r);
      if k in pruned {
        assert exists e :: e in history && e.key == k && e.expiry == pruned[k];
      }
      assert k in pruned <==> Active(history, k, r.now);
      var next, h := Tried(cache, r).0, Extended(history, r);
      forall x | x in next ensures exists e :: e in h && e.key == x && e.expiry == next[x] {
        if x in pruned && !(x == k && k !in pruned) {
          assert exists e :: e in history && e.key == x && e.expiry == cache[x];
        } else {
          assert h[|h| - 1] == Entry(k, r.now, r.now + r.ttl);
        }
      }
    }
  }

  lemma {:induction false} AgreeRun(rs: seq<Request>, clock: real)
    requires Monotone(rs) && forall i :: 0 <= i < |rs| ==> rs[i].now <= clock
    ensures Agree(CacheAfter(rs), History(rs), clock)
    decreases |rs|
  {
    if rs != [] {
      var last := rs[|rs| - 1];
      AgreeRun(rs[..|rs| - 1], last.now);
      AgreeStep(CacheAfter(rs[..|rs| - 1]), History(rs[..|rs| - 1]), last.now, last);
    }
  }

  /** Forgetting is invisible: on a clock that never goes back, each answer is the one the full history gives. */
  lemma PruningIsInvisible(rs: seq<Request>, r: Request)
    requires Monotone(rs + [r])
    ensures Tried(CacheAfter(rs), r).1 <==> Named(r) && !Active(History(rs), Key(r), r.now)
  {
    assert forall i :: 0 <= i < |rs| ==> rs[i] == (rs + [r])[i];
    assert (rs + [r])[|rs|] == r;
    AgreeRun(rs, r.now);
    AgreeStep(CacheAfter(rs), History(rs), r.now, r);
  }

  // ---- Timestamps in any order --------------------------------------------------------------

  /** The code accepted the request at this place of the run. */
  predicate AcceptedAt(rs: seq<Request>, i: nat)
    requires i < |rs|
  {
    Tried(CacheAfter(rs[..i]), rs[i]).1
  }

  function Expiry(r: Request): real {
    r.now + r.ttl
  }

  /** A later request came with a timestamp past the expiry of this one, and made the cache forget it. */
  predicate Overtaken(rs: seq<Request>, i: nat)
    requires i < |rs|
  {
    exists x :: i < x < |rs| && Named(rs[x]) && rs[x].now > Expiry(rs[i])
  }

  /** What the cache still knows of the accepted requests. */
  predicate Known(rs: seq<Request>, i: nat, key: string)
    requires i < |rs|
  {
    AcceptedAt(rs, i) && Key(rs[i]) == key && !Overtaken(rs, i)
  }

  /** An accepted nonce that has not expired and was never overtaken. */
  predicate Remembered(rs: seq<Request>, key: string, now: real) {
    exists i :: 0 <= i < |rs| && Known(rs, i, key) && Expiry(rs[i]) >= now
  }

  /** The cache holds exactly what is known. */
  ghost predicate Means(rs: seq<Request>) {
    && (forall i :: 0 <= i < |rs| && AcceptedAt(rs, i) && !Overtaken(rs, i) ==>
          Key(rs[i]) in CacheAfter(rs) && CacheAfter(rs)[Key(rs[i])] == Expiry(rs[i]))
    && (forall k :: k in CacheAfter(rs) ==> exists i :: 0 <= i < |rs| && Known(rs, i, k))
  }

  lemma KnownBefore(rs: seq<Request>, r: Request, i: nat)
    requires i < |rs|
    ensures AcceptedAt(rs + [r], i) <==> AcceptedAt(rs, i)
    ensures Overtaken(rs + [r], i) <==> Overtaken(rs, i) || (Named(r) && r.now > Expiry(rs[i]))
  {
    hide Tried, CacheAfter, Named;
    var all := rs + [r];
    assert all[..i] == rs[..i];
    assert all[|rs|] == r;
    if Overtaken(rs, i) {
      var x :| i < x < |rs| && Named(rs[x]) && rs[x].now > Expiry(rs[i]);
      assert all[x] == rs[x];
    }
  }

  lemma CacheSnoc(rs: seq<Request>, r: Request)
    ensures CacheAfter(rs + [r]) == Tried(CacheAfter(rs), r).0
    ensures AcceptedAt(rs + [r], |rs|) <==> Tried(CacheAfter(rs), r).1
  {
    assert (rs + [r])[..|rs|] == rs;
  }

  lemma LastIsNotOvertaken(rs: seq<Request>)
    requires rs != []
    ensures !Overtaken(rs, |rs| - 1)
  {
  }

  lemma MeansSnoc(rs: seq<Request>, r: Request)
    requires Means(rs)
    ensures Means(rs + [r])
  {
    hide CacheAfter, AcceptedAt, Overtaken, CacheKey;
    var all := rs + [r];
    CacheSnoc(rs, r);
    LastIsNotOvertaken(all);
    forall i | 0 <= i < |all| && AcceptedAt(all, i) && !Overtaken(all, i)
      ensures Key(all[i]) in CacheAfter(all) && CacheAfter(all)[Key(all[i])] == Expiry(all[i])
    {
      if i < |rs| { KnownBefore(rs, r, i); }
    }
    forall k | k in CacheAfter(all) ensures exists i :: 0 <= i < |all| && Known(all, i, k) {
      if Tried(CacheAfter(rs), r).1 && k == Key(r) {
        assert Known(all, |rs|, k);
      } else {
        var i :| 0 <= i < |rs| && Known(rs, i, k);
        KnownBefore(rs, r, i);
        assert Known(all, i, k);
      }
    }
  }

  lemma {:induction false} MeansRun(rs: seq<Request>)
    ensures Means(rs)
    decreases |rs|
  {
    if rs != [] {
      MeansRun(rs[..|rs| - 1]);
      MeansSnoc(rs[..|rs| - 1], rs[|rs| - 1]);
      assert rs[..|rs| - 1] + [rs[|rs| - 1]] == rs;
    }
  }

  /** Exactly which requests the code accepts, in whatever order their timestamps come. */
  lemma AcceptsIff(rs: seq<Request>, r: Request)
    ensures Tried(CacheAfter(rs), r).1 <==> Named(r) && !Remembered(rs, Key(r), r.now)
  {
    hide AcceptedAt, Overtaken, CacheAfter;
    MeansRun(rs);
    if Named(r) && Key(r) in CacheAfter(rs) {
      var i :| 0 <= i < |rs| && Known(rs, i, Key(r));
    }
  }

  /** Two acceptances of one nonce: the first had expired, or was overtaken in between. */
  lemma AcceptancesAreSpaced(rs: seq<Request>, i: nat, j: nat)
    requires i < j < |rs| && AcceptedAt(rs, i) && AcceptedAt(rs, j) && Key(rs[i]) == Key(rs[j])
    ensures || rs[j].now - rs[i].now > rs[i].ttl
            || exists x :: i < x < j && rs[x].keyId != "" && rs[x].nonce != "" && rs[x].now - rs[i].now > rs[i].ttl
    ensures Monotone(rs) ==> rs[j].now - rs[i].now > rs[i].ttl
  {
    var before := rs[..j];
    assert before[..i] == rs[..i];
    AcceptsIff(before, rs[j]);
    if Expiry(rs[i]) >= rs[j].now {
      assert Overtaken(before, i) by { assert !Known(before, i, Key(rs[j])); }
      var x :| i < x < |before| && Named(before[x]) && before[x].now > Expiry(before[i]);
      assert rs[x] == before[x];
    }
  }

  /**
   The timestamp is read before the mutex is taken, so a later timestamp can prune first; a nonce
   that is still active at the earlier one is then accepted again.
   */
  lemma OutOfOrderAcceptsAgain(keyId: string, nonce: string)
    requires keyId != "" && nonce != "" && nonce != "other"
    ensures var rs := [Request(keyId, nonce, 5.0, 0.0), Request(keyId, "other", 5.0, 10.0)];
            var late := Request(keyId, nonce, 5.0, 3.0);
            Tried(CacheAfter(rs), late).1 && Active(History(rs), Key(late), late.now)
  {
    var r0, r1 := Request(keyId, nonce, 5.0, 0.0), Request(keyId, "other", 5.0, 10.0);
    var late := Request(keyId, nonce, 5.0, 3.0);
    SameKeyIff(keyId, nonce, keyId, "other");
    assert [r0, r1][..1] == [r0] && [r0][..0] == [];
    assert CacheAfter([r0]) == map[Key(r0) := 5.0];
    assert History([r0]) == [Entry(Key(r0), 0.0, 5.0)];
    assert Key(late) !in CacheAfter([r0, r1]);
    assert Entry(Key(r0), 0.0, 5.0) in History([r0, r1]);
  }

  /** Two requests share a key exactly when one key id runs on into the other one's nonce at a colon. */
  lemma SameKeyIff(k1: string, n1: string, k2: string, n2: string)
    ensures CacheKey(k1, n1) == CacheKey(k2, n2) <==>
            || (k1 == k2 && n1 == n2)
            || (exists x :: k2 == k1 + ":" + x && n1 == x + ":" + n2)
            || (exists x :: k1 == k2 + ":" + x && n2 == x + ":" + n1)
  {
    if CacheKey(k1, n1) == CacheKey(k2, n2) {
      TailsAgree(k1, n1, k2, n2);
      if |k1| < |k2| {
        LongerKeyId(k1, n1, k2, n2);
      } else if |k2| < |k1| {
        LongerKeyId(k2, n2, k1, n1);
      } else {
        EqualKeyIds(k1, n1, k2, n2);
      }
    } else {
      if exists x :: k2 == k1 + ":" + x && n1 == x + ":" + n2 {
        var x :| k2 == k1 + ":" + x && n1 == x + ":" + n2;
        RunsOn(k1, n1, k2, n2, x);
      }
      if exists x :: k1 == k2 + ":" + x && n2 == x + ":" + n1 {
        var x :| k1 == k2 + ":" + x && n2 == x + ":" + n1;
        RunsOn(k2, n2, k1, n1, x);
      }
    }
  }

  lemma RunsOn(k1: string, n1: string, k2: string, n2: string, x: string)
    requires k2 == k1 + ":" + x && n1 == x + ":" + n2
    ensures CacheKey(k1, n1) == CacheKey(k2, n2)
  {
  }

  lemma TailsAgree(k1: string, n1: string, k2: string, n2: string)
    requires CacheKey(k1, n1) == CacheKey(k2, n2)
    ensures k1 + ":" + n1 == k2 + ":" + n2
  {
    assert CacheKey(k1, n1)[6..] == k1 + ":" + n1;
    assert CacheKey(k2, n2)[6..] == k2 + ":" + n2;
  }

  lemma EqualKeyIds(k1: string, n1: string, k2: string, n2: string)
    requires |k1| == |k2| && k1 + ":" + n1 == k2 + ":" + n2
    ensures k1 == k2 && n1 == n2
  {
    var t := k1 + ":" + n1;
    assert t[..|k1|] == k1 && t[..|k1|] == k2;
    assert t[|k1| + 1..] == n1 && t[|k1| + 1..] == n2;
  }

  lemma LongerKeyId(k1: string, n1: string, k2: string, n2: string)
    requires |k1| < |k2| && k1 + ":" + n1 == k2 + ":" + n2
    ensures exists x :: k2 == k1 + ":" + x && n1 == x + ":" + n2
  {
    var t := k1 + ":" + n1;
    var x := k2[|k1| + 1..];
    assert k2 == t[..|k2|] && k2[..|k1|] == k1 && k2[|k1|] == ':';
    assert k2 == k1 + ":" + x;
    assert n1 == t[|k1| + 1..];
    assert t == k1 + ":" + (x + ":" + n2);
    assert n1 == x + ":" + n2;
  }

  /** On a clock that never goes back, the code's answer is the one of the full history. */
  lemma OneMore(rs: seq<Request>, r: Request)
    ensures Tried(CacheAfter(rs), r).1 <==> Named(r) && !Remembered(rs, Key(r), r.now)
    ensures CacheAfter(rs + [r]) == Tried(CacheAfter(rs), r).0
    ensures Monotone(rs + [r]) ==> (Tried(CacheAfter(rs), r).1 <==> Named(r) && !Active(History(rs), Key(r), r.now))
  {
    hide Active, Remembered, CacheKey;
    AcceptsIff(rs, r);
    CacheSnoc(rs, r);
    if Monotone(rs + [r]) {
      PruningIsInvisible(rs, r);
    }
  }

  class NonceCache {
    var cache: map<string, real>
    ghost var requests: seq<Request>

    ghost predicate Valid()
      reads this
    {
      cache == CacheAfter(requests)
    }

    constructor ()
      ensures Valid() && requests == []
    {
      cache, requests := map[], [];
    }

    method TryAddNonce(keyId: string, nonce: string, ttl: real, now: real) returns (added: bool)
      requires Valid()
      modifies this
      ensures Valid() && requests == old(requests) + [Request(keyId, nonce, ttl, now)]
      ensures added <==> keyId != "" && nonce != "" && !Remembered(old(requests), CacheKey(keyId, nonce), now)
      ensures Monotone(requests) ==>
                (added <==> keyId != "" && nonce != "" && !Active(History(old(requests)), CacheKey(keyId, nonce), now))
    {
      ghost var r := Request(keyId, nonce, ttl, now);
      OneMore(requests, r);
      hide Remembered, Active, History, CacheAfter;
      requests := requests + [r];
      if keyId == "" || nonce == "" {
        return false;
      }
      added := Insert(CacheKey(keyId, nonce), ttl, now);
    }

    /** The part under the mutex. */
    method Insert(key: string, ttl: real, now: real) returns (added: bool)
      modifies this`cache
      ensures (cache, added) == Inserted(old(cache), key, ttl, now)
    {
      ForgetExpired(now);
      if key in cache && cache[key] >= now {
        return false;
      }
      cache := cache[key := now + ttl];
      added := true;
    }

    method ForgetExpired(now: real)
      modifies this`cache
      ensures cache == Prune(old(cache), now)
    {
      var todo := cache.Keys;
      while todo != {}
        invariant todo <= cache.Keys
        invariant cache == map k | k in old(cache) && (k in todo || old(cache)[k] >= now) :: old(cache)[k]
        decreases |todo|
      {
        var k :| k in todo;
        todo := todo - {k};
        if cache[k] < now {
          cache := cache - {k};
        }
      }
    }
  }
}
