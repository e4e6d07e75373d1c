/** The interceptor in its own form: an object whose methods are the stretches of code between two awaits,
    working on a Redis client. Every call is one action of the protocol in module Idempotency, so what is
    proved there of runs holds of any sequence of calls on one interceptor. */
module IdempotencyInterceptor {
  import opened IdempotencyKeys
  import opened Idempotency

  /** The four Redis commands the interceptor sends, and Redis's clock. */
  class Redis {
    var now: nat
    var entries: map<string, Entry>

    constructor ()
      ensures now == 0 && entries == map[]
    {
      now, entries := 0, map[];
    }

    /** SET key value PX ttl NX */
    method SetIfAbsent(key: string, value: string, ttl: nat, writer: RequestId) returns (ok: bool)
      modifies this`entries
      ensures ok <==> !(key in old(entries) && now < old(entries)[key].expiresAt)
      ensures entries == if ok then old(entries)[key := Entry(value, now + ttl, writer)] else old(entries)
    {
      ok := key !in entries || entries[key].expiresAt <= now;
      if ok {
        entries := entries[key := Entry(value, now + ttl, writer)];
      }
    }

    /** SET key value EX seconds */
    method SetWithExpiry(key: string, value: string, seconds: nat, writer: RequestId)
      modifies this`entries
      ensures entries == old(entries)[key := Entry(value, now + seconds * 1000, writer)]
    {
      entries := entries[key := Entry(value, now + seconds * 1000, writer)];
    }

    /** GET key: the empty value stands for nil, which is falsy as well. */
    method Get(key: string) returns (value: string, writer: RequestId)
      ensures if key in entries && now < entries[key].expiresAt
              then value == entries[key].value && writer == entries[key].writer
              else value == ""
    {
      value, writer := "", 0;
      if key in entries && now < entries[key].expiresAt {
        value, writer := entries[key].value, entries[key].writer;
      }
    }

    /** DEL key */
    method Del(key: string)
      modifies this`entries
      ensures entries == old(entries) - {key}
    {
      entries := entries - {key};
    }

    method Wait(elapsed: nat)
      modifies this`now
      ensures now == old(now) + elapsed
    {
      now := now + elapsed;
    }
  }

  class Interceptor {
    const redis: Redis
    var isConnected: bool
    var requests: map<RequestId, Request>   // the closures of the requests in flight

    ghost var states: seq<State>            // everything that has happened so far
    ghost var acts: seq<Action>

    ghost function Snapshot(): State
      reads this, redis
    {
      State(redis.now, isConnected, redis.entries, requests)
    }

    ghost predicate Valid()
      reads this, redis
    {
      IsRun(states, acts) && states[|acts|] == Snapshot()
    }

    /** Everything a call may promise about the state and the history it leaves. */
    twostate predicate Performed(a: Action)
      reads this, redis
    {
      && Enabled(old(Snapshot()), a)
      && Snapshot() == Apply(old(Snapshot()), a)
      && acts == old(acts) + [a]
      && states == old(states) + [Snapshot()]
    }

    constructor ()
      ensures Valid() && fresh(redis) && Snapshot() == Init
    {
      redis := new Redis();
      isConnected, requests := false, map[];
      states, acts := [Init], [];
    }

    ghost method Record(a: Action)
      modifies this`states, this`acts
      ensures acts == old(acts) + [a]
      ensures states == old(states) + [Snapshot()]
    {
      acts := acts + [a];
      states := states + [Snapshot()];
    }

    method SetConnection(up: bool)
      requires Valid()
      modifies this`isConnected, this`states, this`acts
      ensures Valid() && Performed(Connection(up))
    {
      isConnected := up;
      Record(Connection(up));
    }

    method PassTime(elapsed: nat)
      requires Valid()
      modifies redis`now, this`states, this`acts
      ensures Valid() && Performed(Tick(elapsed))
    {
      redis.Wait(elapsed);
      Record(Tick(elapsed));
    }

    /** From the call of `intercept` to its first await. */
    method Intercept(id: RequestId, http: Http)
      requires Valid() && id !in requests
      modifies this`requests, this`states, this`acts
      ensures Valid() && Performed(Arrive(id, http))
    {
      var phase := Arrived;
      if !Mutation(http.verb) {
        phase := Unguarded;
      } else if http.keyHeader == "" {
        phase := Unguarded;
      } else if !WellFormedKey(http.keyHeader) {
        phase := Refused;
      } else if http.tenantHeader == "" {
        phase := Unguarded;
      } else if !isConnected {
        phase := Unguarded;
      }
      requests := requests[id := Request(http.tenantHeader, http.keyHeader, 0, phase)];
      Record(Arrive(id, http));
    }

    method Acquire(id: RequestId) returns (ok: bool)
      requires Valid() && id in requests && requests[id].phase.Arrived?
      modifies redis`entries, this`requests, this`states, this`acts
      ensures Valid() && Performed(Lock(id))
      ensures ok <==> requests[id].Holding()
      ensures ok && Undisturbed(states, acts, |acts|, requests[id].tenant, requests[id].key) ==>
                Exclusive(Snapshot(), requests[id].tenant, requests[id].key)
    {
      var r := requests[id];
      ghost var before := Snapshot();
      ok := redis.SetIfAbsent(r.LockKey(), "LOCK", LOCK_TTL, id);
      requests := requests[id := if ok then r.(phase := Locked, lockedAt := redis.now) else r.(phase := Conflict)];
      Record(Lock(id));
      assert Enabled(before, Lock(id)) && Snapshot() == Apply(before, Lock(id));
      assert Valid();
      if Undisturbed(states, acts, |acts|, r.tenant, r.key) {
        RunLocks(states, acts, |acts|, r.tenant, r.key);
        LocksExclude(Snapshot(), r.tenant, r.key);
      }
    }

    method ReadCache(id: RequestId)
      requires Valid() && id in requests && requests[id].phase.Locked?
      modifies this`requests, this`states, this`acts
      ensures Valid() && Performed(Lookup(id))
    {
      var r := requests[id];
      var cached, source := redis.Get(r.CacheKey());
      requests := requests[id := r.(phase := if cached != "" then Hit(cached, source) else Missed)];
      Record(Lookup(id));
    }

    method Subscribe(id: RequestId)
      requires Valid() && id in requests && requests[id].phase.Missed?
      modifies this`requests, this`states, this`acts
      ensures Valid() && Performed(Start(id))
    {
      requests := requests[id := requests[id].(phase := Running)];
      Record(Start(id));
    }

    method OnNext(id: RequestId, body: Json)
      requires Valid() && id in requests && requests[id].phase.Running?
      modifies this`requests, this`states, this`acts
      ensures Valid() && Performed(Emit(id, body))
    {
      requests := requests[id := requests[id].(phase := Emitted(body))];
      Record(Emit(id, body));
    }

    method OnError(id: RequestId)
      requires Valid() && id in requests && requests[id].phase.Running?
      modifies this`requests, this`states, this`acts
      ensures Valid() && Performed(Throw(id))
    {
      requests := requests[id := requests[id].(phase := Threw)];
      Record(Throw(id));
    }

    method CacheResponse(id: RequestId)
      requires Valid() && id in requests && requests[id].phase.Emitted?
      modifies redis`entries, this`requests, this`states, this`acts
      ensures Valid() && Performed(Store(id))
    {
      var r := requests[id];
      redis.SetWithExpiry(r.CacheKey(), r.phase.body, 86400, id);
      requests := requests[id := r.(phase := Stored(r.phase.body))];
      Record(Store(id));
    }

    /** As long as nobody has intruded on the key, the lock removed is the request's own. */
    method ReleaseLock(id: RequestId)
      requires Valid() && id in requests
      requires requests[id].phase.Hit? || requests[id].phase.Stored? || requests[id].phase.Threw?
      modifies redis`entries, this`requests, this`states, this`acts
      ensures Valid() && Performed(Release(id))
      ensures Undisturbed(old(states), old(acts), |old(acts)|, old(requests)[id].tenant, old(requests)[id].key) ==>
                forall k :: k in old(redis.entries) && k !in redis.entries ==> old(redis.entries)[k].writer == id
    {
      var r := requests[id];
      if Undisturbed(states, acts, |acts|, r.tenant, r.key) {
        RunLocks(states, acts, |acts|, r.tenant, r.key);
        assert OwnsLock(Snapshot(), id);
      }
      redis.Del(r.LockKey());
      requests := requests[id := r.(phase := Released(r.phase))];
      Record(Release(id));
    }
  }
}
