/** RedisCacheService in its in-memory mode: a store with expiry and a table of leased locks. Times are milliseconds. */
module LeaseLock {
  import opened Wrappers

  datatype Item = Item(value: string, expireAt: Option<int>)

  datatype Lease = Lease(holder: string, until: int)

  datatype Store = Store(items: map<string, Item>, locks: map<string, Lease>)

  predicate Expired(i: Item, now: int) {
    i.expireAt.Some? && now > i.expireAt.value
  }

  function Read(s: Store, key: string, now: int): Option<string> {
    if key in s.items && !Expired(s.items[key], now) then Some(s.items[key].value) else None
  }

  /** Reading erases an expired item. */
  function Swept(s: Store, key: string, now: int): Store {
    if key in s.items && Expired(s.items[key], now) then s.(items := s.items - {key}) else s
  }

  function Put(s: Store, key: string, value: string, expireAt: Option<int>): Store {
    s.(items := s.items[key := Item(value, expireAt)])
  }

  function Removed(s: Store, key: string): Store {
    s.(items := s.items - {key})
  }

  predicate Free(s: Store, key: string, now: int) {
    key !in s.locks || s.locks[key].until <= now
  }

  function Acquired(s: Store, key: string, holder: string, until: int): Store {
    s.(locks := s.locks[key := Lease(holder, until)])
  }

  /** Compare and delete. */
  function Released(s: Store, key: string, holder: string): Store {
    if key in s.locks && s.locks[key].holder == holder then s.(locks := s.locks - {key}) else s
  }

  class RedisCacheService {
    var memoryStore: map<string, Item>
    var locks: map<string, Lease>

    ghost function Value(): Store
      reads this
    {
      Store(memoryStore, locks)
    }

    constructor ()
      ensures Value() == Store(map[], map[])
    {
      memoryStore, locks := map[], map[];
    }

    method Get(key: string, now: int) returns (value: Option<string>)
      modifies this`memoryStore
      ensures value == Read(old(Value()), key, now)
      ensures value.Some? <==> key in old(memoryStore) && (old(memoryStore)[key].expireAt.None?
                                                           || now <= old(memoryStore)[key].expireAt.value)
      ensures value.Some? ==> value.value == old(memoryStore)[key].value && memoryStore == old(memoryStore)
      ensures Value() == Swept(old(Value()), key, now)
    {
      if key in memoryStore {
        var item := memoryStore[key];
        if item.expireAt.Some? && now > item.expireAt.value {
          memoryStore := memoryStore - {key};
          return None;
        }
        return Some(item.value);
      }
      value := None;
    }

    method Set(key: string, value: string, expiration: Option<int>, now: int)
      modifies this`memoryStore
      ensures Value() == Put(old(Value()), key, value, if expiration.Some? then Some(now + expiration.value) else None)
    {
      var item := Item(value, None);
      if expiration.Some? {
        item := item.(expireAt := Some(now + expiration.value));
      }
      memoryStore := memoryStore[key := item];
    }

    method Remove(key: string)
      modifies this`memoryStore
      ensures Value() == Removed(old(Value()), key)
    {
      memoryStore := memoryStore - {key};
    }

    method AcquireLock(key: string, holder: string, expiration: int, now: int) returns (acquired: bool)
      modifies this`locks
      ensures acquired <==> Free(old(Value()), key, now)
      ensures acquired <==> key !in old(locks) || now >= old(locks)[key].until
      ensures acquired ==> locks == old(locks)[key := Lease(holder, now + expiration)]
      ensures Value() == if acquired then Acquired(old(Value()), key, holder, now + expiration) else old(Value())
    {
      if key in locks {
        if now < locks[key].until {
          return false;
        }
      }
      locks := locks[key := Lease(holder, now + expiration)];
      acquired := true;
    }

    method ReleaseLock(key: string, holder: string) returns (released: bool)
      modifies this`locks
      ensures released <==> key in old(locks) && old(locks)[key].holder == holder
      ensures Value() == Released(old(Value()), key, holder)
      ensures locks == if released then old(locks) - {key} else old(locks)
    {
      if key in locks {
        if locks[key].holder == holder {
          locks := locks - {key};
          return true;
        }
      }
      released := false;
    }

    /** Every other process sharing the store leaves it in this state. */
    method Become(items: map<string, Item>, leases: map<string, Lease>)
      modifies this
      ensures Value() == Store(items, leases)
    {
      memoryStore, locks := items, leases;
    }
  }
}
