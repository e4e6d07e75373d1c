/** The idempotency interceptor as a protocol over Redis. The state holds every in-flight request of every
    tenant and one shared Redis; an action is the code one request runs between two awaits, a passage of
    time, or a change of the connection flag. Any interleaving of actions is a run. */
module Idempotency {
  import opened Basics
  import opened IdempotencyKeys

  type RequestId = nat

  /** `JSON.stringify` of a response: never the empty string, which the truthiness test would skip. */
  type Json = s: string | s != "" witness "null"

  const LOCK_TTL: nat := 10_000
  const CACHE_TTL: nat := 86_400 * 1000

  /** A Redis key with a time to live, in milliseconds. `writer` is a history variable: no step reads it. */
  datatype Entry = Entry(value: string, expiresAt: nat, writer: RequestId)

  /** How far one guarded request has come. `source` is the writer of the cache entry that was read. */
  datatype Phase =
    | Arrived                                   // about to send SET NX
    | Locked                                    // SET NX answered OK
    | Hit(cached: string, source: RequestId)    // GET found a response
    | Missed                                    // GET found none; the handler is not subscribed yet
    | Running                                   // the handler runs
    | Emitted(body: Json)                       // the response went out; SET EX is on its way
    | Stored(body: Json)                        // the response is cached; DEL is on its way
    | Threw                                     // the handler failed; DEL is on its way
    | Conflict                                  // answered 409
    | Replied(cached: string, source: RequestId)
    | Completed(body: Json)
    | Failed
    | Refused                                   // answered 400
    | Unguarded                                 // passed on to the handler without protection

  datatype Request = Request(tenant: string, key: string, lockedAt: nat, phase: Phase) {
    function CacheKey(): string { IdempotencyKeys.CacheKey(tenant, key) }
    function LockKey(): string { IdempotencyKeys.LockKey(tenant, key) }

    predicate SameKey(other: Request) {
      tenant == other.tenant && key == other.key
    }

    /** Between acquiring the lock and deleting it. */
    predicate Holding() {
      phase.Locked? || phase.Hit? || phase.Missed? || phase.Running? || phase.Emitted? || phase.Stored? || phase.Threw?
    }

    /** Past a cache miss, so its handler runs or will run, and has not cached a response yet. */
    predicate Fresh() {
      phase.Missed? || phase.Running? || phase.Emitted?
    }

    predicate Guarded() {
      !phase.Refused? && !phase.Unguarded?
    }

    /** Has cached this response. */
    predicate HasStored(value: string) {
      (phase.Stored? || phase.Completed?) && phase.body == value
    }
  }

  datatype State = State(
    now: nat,
    connected: bool,
    entries: map<string, Entry>,
    requests: map<RequestId, Request>)
  {
    /** Redis answers as if an expired key were absent. */
    predicate Live(k: string) {
      k in entries && now < entries[k].expiresAt
    }

    function WithPhase(id: RequestId, phase: Phase): State
      requires id in requests
    {
      this.(requests := requests[id := requests[id].(phase := phase)])
    }
  }

  /** The connection counts as down until the client's first `connect` event. */
  const Init: State := State(0, false, map[], map[])

  /** The parts of the HTTP request the interceptor reads; an absent header is the empty string (both are falsy). */
  datatype Http = Http(verb: string, keyHeader: string, tenantHeader: string)

  predicate Mutation(verb: string) {
    verb == "POST" || verb == "PUT" || verb == "PATCH"
  }

  /** The checks before the first await, in the order the interceptor makes them. */
  function Admit(h: Http, connected: bool): Phase {
    if !Mutation(h.verb) then Unguarded
    else if h.keyHeader == "" then Unguarded
    else if !WellFormedKey(h.keyHeader) then Refused
    else if h.tenantHeader == "" then Unguarded
    else if !connected then Unguarded
    else Arrived
  }

  datatype Action =
    | Arrive(id: RequestId, http: Http)
    | Lock(id: RequestId)                 // SET lockKey LOCK PX 10000 NX
    | Lookup(id: RequestId)               // GET cacheKey
    | Start(id: RequestId)                // the handler is subscribed
    | Emit(id: RequestId, body: Json)     // the handler emits its response
    | Throw(id: RequestId)                // the handler fails
    | Store(id: RequestId)                // SET cacheKey body EX 86400
    | Release(id: RequestId)              // DEL lockKey
    | Tick(elapsed: nat)
    | Connection(up: bool)

  predicate Enabled(s: State, a: Action) {
    match a
    case Arrive(id, _) => id !in s.requests
    case Lock(id) => id in s.requests && s.requests[id].phase.Arrived?
    case Lookup(id) => id in s.requests && s.requests[id].phase.Locked?
    case Start(id) => id in s.requests && s.requests[id].phase.Missed?
    case Emit(id, _) => id in s.requests && s.requests[id].phase.Running?
    case Throw(id) => id in s.requests && s.requests[id].phase.Running?
    case Store(id) => id in s.requests && s.requests[id].phase.Emitted?
    case Release(id) => id in s.requests && var p := s.requests[id].phase; p.Hit? || p.Stored? || p.Threw?
    case Tick(_) => true
    case Connection(_) => true
  }

  function Released(p: Phase): Phase
    requires p.Hit? || p.Stored? || p.Threw?
  {
    match p
    case Hit(v, w) => Replied(v, w)
    case Stored(b) => Completed(b)
    case Threw => Failed
  }

  function Apply(s: State, a: Action): State
    requires Enabled(s, a)
  {
    match a
    case Arrive(id, h) =>
      s.(requests := s.requests[id := Request(h.tenantHeader, h.keyHeader, 0, Admit(h, s.connected))])
    case Lock(id) =>
      var r := s.requests[id];
      if s.Live(r.LockKey()) then s.WithPhase(id, Conflict)
      else s.(entries := s.entries[r.LockKey() := Entry("LOCK", s.now + LOCK_TTL, id)],
              requests := s.requests[id := r.(phase := Locked, lockedAt := s.now)])
    case Lookup(id) =>
      var k := s.requests[id].CacheKey();
      if s.Live(k) && s.entries[k].value != "" then s.WithPhase(id, Hit(s.entries[k].value, s.entries[k].writer))
      else s.WithPhase(id, Missed)
    case Start(id) => s.WithPhase(id, Running)
    case Emit(id, body) => s.WithPhase(id, Emitted(body))
    case Throw(id) => s.WithPhase(id, Threw)
    case Store(id) =>
      var r := s.requests[id];
      s.WithPhase(id, Stored(r.phase.body))
       .(entries := s.entries[r.CacheKey() := Entry(r.phase.body, s.now + CACHE_TTL, id)])
    case Release(id) =>
      var r := s.requests[id];
      s.WithPhase(id, Released(r.phase)).(entries := s.entries - {r.LockKey()})
    case Tick(elapsed) => s.(now := s.now + elapsed)
    case Connection(up) => s.(connected := up)
  }

  /** `acts` takes the initial state through `states`, one state before each action and one at the end. */
  ghost predicate IsRun(states: seq<State>, acts: seq<Action>) {
    && |states| == |acts| + 1
    && states[0] == Init
    && forall i :: 0 <= i < |acts| ==> Enabled(states[i], acts[i]) && states[i + 1] == Apply(states[i], acts[i])
  }

  /** Between acquiring and releasing the lock of this key. */
  predicate IsHolder(r: Request, tenant: string, key: string) {
    r.Holding() && r.tenant == tenant && r.key == key
  }

  ghost predicate Held(s: State, tenant: string, key: string) {
    exists h :: h in s.requests && IsHolder(s.requests[h], tenant, key)
  }

  /** Some holder of this key has had its lock for 10 seconds or more. */
  ghost predicate Overstayed(s: State, tenant: string, key: string) {
    exists h :: h in s.requests && IsHolder(s.requests[h], tenant, key) && s.requests[h].lockedAt + 10_000 <= s.now
  }

  /** A request asks for the lock of this key while a holder has overstayed. */
  ghost predicate Intrudes(s: State, a: Action, tenant: string, key: string) {
    && a.Lock? && a.id in s.requests
    && s.requests[a.id].tenant == tenant && s.requests[a.id].key == key
    && Overstayed(s, tenant, key)
  }

  /** Nobody has done so in the first n steps. Other keys do not matter, nor an overstay without a rival. */
  ghost predicate Undisturbed(states: seq<State>, acts: seq<Action>, n: nat, tenant: string, key: string) {
    forall i :: 0 <= i < n && i < |acts| && i < |states| ==> !Intrudes(states[i], acts[i], tenant, key)
  }

  /** At most one request is between acquiring and releasing the lock of this key. */
  ghost predicate Exclusive(s: State, tenant: string, key: string) {
    forall g, h ::
      && g in s.requests && IsHolder(s.requests[g], tenant, key)
      && h in s.requests && IsHolder(s.requests[h], tenant, key)
      ==> g == h
  }

  // ---- what every run keeps ----

  /** Every Redis entry is either the cached response of the request that wrote it or that request's lock. */
  predicate EntryJustified(s: State, k: string)
    requires k in s.entries
  {
    var e := s.entries[k];
    && e.writer in s.requests
    && var w := s.requests[e.writer];
       w.Guarded() && (IsResponseOf(w, k, e) || IsLockOf(w, k, e))
  }

  predicate RequestJustified(s: State, id: RequestId)
    requires id in s.requests
  {
    var r := s.requests[id];
    && (r.Guarded() ==> WellFormedKey(r.key))
    && (r.Holding() ==> r.lockedAt <= s.now)
    && (r.phase.Hit? || r.phase.Replied? ==>
          && r.phase.source in s.requests
          && s.requests[r.phase.source].SameKey(r)
          && s.requests[r.phase.source].HasStored(r.phase.cached))
  }

  ghost predicate Justified(s: State) {
    && (forall k :: k in s.entries ==> EntryJustified(s, k))
    && (forall id :: id in s.requests ==> RequestJustified(s, id))
  }

  /** A live or stale entry under a request's cache key was written for the same tenant and key. */
  lemma CacheEntryOwner(s: State, id: RequestId)
    requires Justified(s) && id in s.requests && s.requests[id].Guarded()
    requires s.requests[id].CacheKey() in s.entries
    ensures var e := s.entries[s.requests[id].CacheKey()];
            && e.writer in s.requests
            && s.requests[e.writer].SameKey(s.requests[id])
            && s.requests[e.writer].HasStored(e.value)
            && e.value != ""
  {
    var r := s.requests[id];
    var k := r.CacheKey();
    assert EntryJustified(s, k);
    var w := s.requests[s.entries[k].writer];
    assert RequestJustified(s, id) && RequestJustified(s, s.entries[k].writer);
    KeySpacesDisjoint(r.tenant, r.key, w.tenant, w.key);
  }

  /** Is this action taken by the request itself? */
  predicate By(a: Action, id: RequestId) {
    !a.Tick? && !a.Connection? && a.id == id
  }

  /** A request that has cached its response stays that way. */
  lemma StoredStays(s: State, a: Action, id: RequestId, value: string)
    requires Enabled(s, a) && id in s.requests && s.requests[id].HasStored(value)
    ensures Apply(s, a).requests[id].HasStored(value) && Apply(s, a).requests[id].SameKey(s.requests[id])
  {
    if By(a, id) {
      assert a.Release?;
    }
  }

  lemma OwnStepJustified(s: State, a: Action, id: RequestId)
    requires Justified(s) && Enabled(s, a) && By(a, id) && id in s.requests
    ensures RequestJustified(Apply(s, a), id)
  {
    assert RequestJustified(s, id);
    if a.Lookup? && Apply(s, a).requests[id].phase.Hit? {
      CacheEntryOwner(s, id);
    } else if a.Release? && s.requests[id].phase.Hit? {
      StoredStays(s, a, s.requests[id].phase.source, s.requests[id].phase.cached);
    }
  }

  lemma RequestStaysJustified(s: State, a: Action, id: RequestId)
    requires Justified(s) && Enabled(s, a) && id in Apply(s, a).requests
    ensures RequestJustified(Apply(s, a), id)
  {
    if id in s.requests {
      if By(a, id) {
        OwnStepJustified(s, a, id);
      } else {
        assert RequestJustified(s, id);
        var r := s.requests[id];
        assert Apply(s, a).requests[id] == r;
        if r.phase.Hit? || r.phase.Replied? {
          StoredStays(s, a, r.phase.source, r.phase.cached);
        }
      }
    }
  }

  /** While a request holds, its actions keep it holding since the same time, except the release. */
  lemma HoldingStays(s: State, a: Action, id: RequestId)
    requires Enabled(s, a) && id in s.requests && s.requests[id].Holding() && !(a.Release? && a.id == id)
    ensures var r, r' := s.requests[id], Apply(s, a).requests[id];
            r'.Holding() && r'.lockedAt == r.lockedAt && r'.SameKey(r)
  {
  }

  predicate IsResponseOf(w: Request, k: string, e: Entry) {
    k == w.CacheKey() && e.value != "" && w.HasStored(e.value)
  }

  predicate IsLockOf(w: Request, k: string, e: Entry) {
    k == w.LockKey() && w.Holding() && e.expiresAt == w.lockedAt + LOCK_TTL
  }

  lemma ResponseStays(s: State, a: Action, k: string, e: Entry)
    requires Enabled(s, a) && e.writer in s.requests && IsResponseOf(s.requests[e.writer], k, e)
    ensures IsResponseOf(Apply(s, a).requests[e.writer], k, e)
  {
    StoredStays(s, a, e.writer, e.value);
  }

  lemma LockStays(s: State, a: Action, k: string, e: Entry)
    requires Enabled(s, a) && e.writer in s.requests && IsLockOf(s.requests[e.writer], k, e)
    requires k in Apply(s, a).entries
    ensures IsLockOf(Apply(s, a).requests[e.writer], k, e)
  {
    assert !(a.Release? && a.id == e.writer);
    HoldingStays(s, a, e.writer);
  }

  /** An entry that is not overwritten stays justified: its writer moves on only by removing it. */
  lemma OldEntryStaysJustified(s: State, a: Action, k: string)
    requires Justified(s) && Enabled(s, a)
    requires k in s.entries && k in Apply(s, a).entries && Apply(s, a).entries[k] == s.entries[k]
    ensures EntryJustified(Apply(s, a), k)
  {
    assert EntryJustified(s, k);
    var e := s.entries[k];
    if IsResponseOf(s.requests[e.writer], k, e) {
      ResponseStays(s, a, k, e);
    } else {
      LockStays(s, a, k, e);
    }
  }

  lemma NewEntryJustified(s: State, a: Action, k: string)
    requires Justified(s) && Enabled(s, a)
    requires k in Apply(s, a).entries && (k in s.entries ==> Apply(s, a).entries[k] != s.entries[k])
    ensures EntryJustified(Apply(s, a), k)
  {
    assert a.Lock? || a.Store?;
    assert RequestJustified(s, a.id);
  }

  lemma JustifiedStep(s: State, a: Action)
    requires Justified(s) && Enabled(s, a)
    ensures Justified(Apply(s, a))
  {
    var s' := Apply(s, a);
    forall id | id in s'.requests ensures RequestJustified(s', id) {
      RequestStaysJustified(s, a, id);
    }
    forall k | k in s'.entries ensures EntryJustified(s', k) {
      if k in s.entries && s'.entries[k] == s.entries[k] {
        OldEntryStaysJustified(s, a, k);
      } else {
        NewEntryJustified(s, a, k);
      }
    }
  }

  lemma {:induction false} RunJustified(states: seq<State>, acts: seq<Action>, i: nat)
    requires IsRun(states, acts) && i < |states|
    ensures Justified(states[i])
  {
    if i > 0 {
      RunJustified(states, acts, i - 1);
      JustifiedStep(states[i - 1], acts[i - 1]);
    }
  }

  // ---- the life of a request ----

  /** What a request has done itself, in order. */
  function Own(acts: seq<Action>, id: RequestId): seq<Action> {
    if acts == [] then []
    else
      var a := acts[|acts| - 1];
      Own(acts[..|acts| - 1], id) + if By(a, id) then [a] else []
  }

  /** What it has done since its arrival, for each place it can have come to. */
  function PathTo(p: Phase, id: RequestId): seq<Action> {
    match p
    case Arrived => []
    case Refused => []
    case Unguarded => []
    case Conflict => [Lock(id)]
    case Locked => [Lock(id)]
    case Hit(_, _) => [Lock(id), Lookup(id)]
    case Replied(_, _) => [Lock(id), Lookup(id), Release(id)]
    case Missed => [Lock(id), Lookup(id)]
    case Running => [Lock(id), Lookup(id), Start(id)]
    case Threw => [Lock(id), Lookup(id), Start(id), Throw(id)]
    case Failed => [Lock(id), Lookup(id), Start(id), Throw(id), Release(id)]
    case Emitted(b) => [Lock(id), Lookup(id), Start(id), Emit(id, b)]
    case Stored(b) => [Lock(id), Lookup(id), Start(id), Emit(id, b), Store(id)]
    case Completed(b) => [Lock(id), Lookup(id), Start(id), Emit(id, b), Store(id), Release(id)]
  }

  predicate Lived(r: Request, own: seq<Action>, id: RequestId) {
    && own != [] && own[0].Arrive? && own[0].id == id
    && r.tenant == own[0].http.tenantHeader && r.key == own[0].http.keyHeader
    && own == [own[0]] + PathTo(r.phase, id)
  }

  lemma LivedStep(s: State, a: Action, id: RequestId, own: seq<Action>)
    requires Enabled(s, a) && id in s.requests && Lived(s.requests[id], own, id)
    ensures Lived(Apply(s, a).requests[id], own + if By(a, id) then [a] else [], id)
  {
    var r' := Apply(s, a).requests[id];
    if By(a, id) {
      assert PathTo(r'.phase, id) == PathTo(s.requests[id].phase, id) + [a];
      assert own + [a] == [own[0]] + PathTo(r'.phase, id);
    } else {
      assert own + [] == own;
    }
  }

  lemma LifeStep(s: State, a: Action, id: RequestId, own: seq<Action>)
    requires Enabled(s, a) && (id in s.requests <==> own != []) && (id in s.requests ==> Lived(s.requests[id], own, id))
    ensures var s', own' := Apply(s, a), own + if By(a, id) then [a] else [];
            (id in s'.requests <==> own' != []) && (id in s'.requests ==> Lived(s'.requests[id], own', id))
  {
    if id in s.requests {
      LivedStep(s, a, id, own);
    } else if By(a, id) {
      assert own + [a] == [a] + [];
    }
  }

  /** In every run the place a request has come to tells all it has done since its arrival, and in which order: a
      409 after the lock was asked for, a cached answer after lock, lookup and release, a success after lock, lookup,
      handler, the emission of that very body, its caching and the release, a failure after lock, lookup, handler
      and release. Tenant and key are those of its headers. */
  lemma {:induction false} LifeOfARequest(states: seq<State>, acts: seq<Action>, i: nat, id: RequestId)
    requires IsRun(states, acts) && i < |states|
    ensures id in states[i].requests <==> Own(acts[..i], id) != []
    ensures id in states[i].requests ==> Lived(states[i].requests[id], Own(acts[..i], id), id)
  {
    if i > 0 {
      LifeOfARequest(states, acts, i - 1, id);
      assert Enabled(states[i - 1], acts[i - 1]) && states[i] == Apply(states[i - 1], acts[i - 1]);
      assert acts[..i][..i - 1] == acts[..i - 1] && acts[..i][i - 1] == acts[i - 1];
      LifeStep(states[i - 1], acts[i - 1], id, Own(acts[..i - 1], id));
    }
  }

  lemma {:induction false} OwnHappened(acts: seq<Action>, n: nat, id: RequestId, a: Action)
    requires n <= |acts| && a in Own(acts[..n], id)
    ensures exists e :: 0 <= e < n && acts[e] == a
  {
    if n > 0 {
      assert acts[..n][..n - 1] == acts[..n - 1] && acts[..n][n - 1] == acts[n - 1];
      if a != acts[n - 1] {
        OwnHappened(acts, n - 1, id, a);
      }
    }
  }

  /** The body a request has emitted, cached or answered with is the one its handler emitted. */
  lemma BodyWasEmitted(states: seq<State>, acts: seq<Action>, i: nat, id: RequestId)
    requires IsRun(states, acts) && i < |states| && id in states[i].requests
    requires var p := states[i].requests[id].phase; p.Emitted? || p.Stored? || p.Completed?
    ensures exists e :: 0 <= e < i && acts[e] == Emit(id, states[i].requests[id].phase.body)
  {
    LifeOfARequest(states, acts, i, id);
    var own, b := Own(acts[..i], id), states[i].requests[id].phase.body;
    assert PathTo(states[i].requests[id].phase, id)[3] == Emit(id, b);
    assert own[4] == Emit(id, b);
    OwnHappened(acts, i, id, Emit(id, b));
  }

  // ---- mutual exclusion ----

  /** The lock entry of every holder of this key is in place. */
  ghost predicate LocksInPlace(s: State, tenant: string, key: string) {
    forall h :: h in s.requests && IsHolder(s.requests[h], tenant, key) ==> OwnsLock(s, h)
  }

  predicate OwnsLock(s: State, id: RequestId)
    requires id in s.requests
  {
    var r := s.requests[id];
    && r.LockKey() in s.entries
    && s.entries[r.LockKey()].writer == id
    && s.entries[r.LockKey()].expiresAt == r.lockedAt + LOCK_TTL
  }

  /** Entries tell holders apart. */
  lemma LocksExclude(s: State, tenant: string, key: string)
    requires LocksInPlace(s, tenant, key)
    ensures Exclusive(s, tenant, key)
  {
    forall g, h |
      && g in s.requests && IsHolder(s.requests[g], tenant, key)
      && h in s.requests && IsHolder(s.requests[h], tenant, key)
      ensures g == h
    {
      assert OwnsLock(s, g) && OwnsLock(s, h);
    }
  }

  /** No other request's action touches a holder's lock, unless it intrudes. */
  lemma LockUntouched(s: State, a: Action, id: RequestId, tenant: string, key: string)
    requires Justified(s) && LocksInPlace(s, tenant, key) && Enabled(s, a) && !Intrudes(s, a, tenant, key)
    requires id in s.requests && IsHolder(s.requests[id], tenant, key) && !By(a, id)
    ensures OwnsLock(Apply(s, a), id)
  {
    assert OwnsLock(s, id) && RequestJustified(s, id);
    if a.Lock? || a.Store? || a.Release? {
      var q := s.requests[a.id];
      assert RequestJustified(s, a.id);
      KeySpacesDisjoint(tenant, key, q.tenant, q.key);
      if a.Lock? {
        RivalRefused(s, a.id, id, tenant, key);
      } else if a.Release? {
        LocksExclude(s, tenant, key);
      }
    }
  }

  /** While no holder has overstayed, whoever asks for its lock changes no entry. */
  lemma RivalRefused(s: State, rival: RequestId, id: RequestId, tenant: string, key: string)
    requires rival in s.requests && s.requests[rival].phase.Arrived? && !Intrudes(s, Lock(rival), tenant, key)
    requires id in s.requests && IsHolder(s.requests[id], tenant, key) && OwnsLock(s, id)
    ensures s.requests[rival].LockKey() == s.requests[id].LockKey() && s.requests[rival].SameKey(s.requests[id]) ==>
              Apply(s, Lock(rival)).entries == s.entries
  {
  }

  lemma OwnLockKept(s: State, a: Action, id: RequestId)
    requires Justified(s) && Enabled(s, a) && By(a, id)
    requires id in s.requests && Apply(s, a).requests[id].Holding() && (s.requests[id].Holding() ==> OwnsLock(s, id))
    ensures OwnsLock(Apply(s, a), id)
  {
    var r := s.requests[id];
    assert RequestJustified(s, id);
    if !a.Lock? {
      KeySpacesDisjoint(r.tenant, r.key, r.tenant, r.key);
    }
  }

  lemma LocksStep(s: State, a: Action, tenant: string, key: string)
    requires Justified(s) && LocksInPlace(s, tenant, key) && Enabled(s, a) && !Intrudes(s, a, tenant, key)
    ensures LocksInPlace(Apply(s, a), tenant, key)
  {
    var s' := Apply(s, a);
    forall id | id in s'.requests && IsHolder(s'.requests[id], tenant, key) ensures OwnsLock(s', id) {
      assert id in s.requests;
      if By(a, id) {
        OwnLockKept(s, a, id);
      } else {
        LockUntouched(s, a, id, tenant, key);
      }
    }
  }

  lemma {:induction false} RunLocks(states: seq<State>, acts: seq<Action>, i: nat, tenant: string, key: string)
    requires IsRun(states, acts) && i < |states| && Undisturbed(states, acts, i, tenant, key)
    ensures LocksInPlace(states[i], tenant, key)
  {
    if i > 0 {
      RunLocks(states, acts, i - 1, tenant, key);
      RunJustified(states, acts, i - 1);
      LocksStep(states[i - 1], acts[i - 1], tenant, key);
    }
  }

  /** Only a lock less than 10 seconds old turns a request away. */
  lemma RefusedForHolder(s: State, id: RequestId)
    requires Justified(s) && id in s.requests && s.requests[id].phase.Arrived? && s.Live(s.requests[id].LockKey())
    ensures var h, r := s.entries[s.requests[id].LockKey()].writer, s.requests[id];
            h in s.requests && IsHolder(s.requests[h], r.tenant, r.key) && s.now < s.requests[h].lockedAt + 10_000
  {
    var r := s.requests[id];
    assert EntryJustified(s, r.LockKey());
    var h := s.entries[r.LockKey()].writer;
    assert RequestJustified(s, id) && RequestJustified(s, h);
    KeySpacesDisjoint(r.tenant, r.key, s.requests[h].tenant, s.requests[h].key);
  }

  /** With every holder's entry in place, a request for a held key is let in iff the holder has overstayed. */
  lemma LetInIffOverstayed(s: State, id: RequestId)
    requires id in s.requests && s.requests[id].phase.Arrived?
    requires var r := s.requests[id]; LocksInPlace(s, r.tenant, r.key) && Held(s, r.tenant, r.key)
    ensures var r := s.requests[id]; Apply(s, Lock(id)).requests[id].Holding() <==> Overstayed(s, r.tenant, r.key)
  {
    var r := s.requests[id];
    var h :| h in s.requests && IsHolder(s.requests[h], r.tenant, r.key);
    assert OwnsLock(s, h);
    LocksExclude(s, r.tenant, r.key);
  }

  /** An intruder becomes a second holder. */
  lemma IntruderGetsIn(s: State, a: Action, tenant: string, key: string)
    requires LocksInPlace(s, tenant, key) && Enabled(s, a) && Intrudes(s, a, tenant, key)
    ensures !Exclusive(Apply(s, a), tenant, key)
  {
    var h :| h in s.requests && IsHolder(s.requests[h], tenant, key) && s.requests[h].lockedAt + LOCK_TTL <= s.now;
    LetInIffOverstayed(s, a.id);
    var s' := Apply(s, a);
    assert h != a.id && IsHolder(s'.requests[h], tenant, key) && IsHolder(s'.requests[a.id], tenant, key);
  }

  /** In every run, at most one request at a time has been between acquiring and releasing the lock of a key if
      and only if nobody asked for it while a holder had overstayed. */
  lemma {:induction false} MutualExclusionIff(states: seq<State>, acts: seq<Action>, n: nat,
                                              tenant: string, key: string)
    requires IsRun(states, acts) && n <= |acts|
    ensures (forall i :: 0 <= i <= n ==> Exclusive(states[i], tenant, key))
            <==> Undisturbed(states, acts, n, tenant, key)
  {
    if n > 0 {
      MutualExclusionIff(states, acts, n - 1, tenant, key);
      if Undisturbed(states, acts, n - 1, tenant, key) {
        RunLocks(states, acts, n - 1, tenant, key);
        assert Enabled(states[n - 1], acts[n - 1]) && states[n] == Apply(states[n - 1], acts[n - 1]);
        if Intrudes(states[n - 1], acts[n - 1], tenant, key) {
          IntruderGetsIn(states[n - 1], acts[n - 1], tenant, key);
        } else {
          assert Undisturbed(states, acts, n, tenant, key);
          RunLocks(states, acts, n, tenant, key);
          LocksExclude(states[n], tenant, key);
        }
      }
    }
  }

  /** Until the first intrusion on its key, a DEL removes the lock its own request took, which is still there. */
  lemma ReleasesOwnLock(states: seq<State>, acts: seq<Action>, i: nat)
    requires IsRun(states, acts) && i < |acts| && acts[i].Release? && Enabled(states[i], acts[i])
    requires var r := states[i].requests[acts[i].id]; Undisturbed(states, acts, i, r.tenant, r.key)
    ensures var k := states[i].requests[acts[i].id].LockKey();
            && k in states[i].entries && states[i].entries[k].writer == acts[i].id
            && k !in states[i + 1].entries
  {
    var r := states[i].requests[acts[i].id];
    RunLocks(states, acts, i, r.tenant, r.key);
    assert OwnsLock(states[i], acts[i].id) && states[i + 1] == Apply(states[i], acts[i]);
  }

  // ---- when exclusion fails ----

  /** Before the first intrusion on its key, a request gets its lock exactly if nobody holds the key or the holder
      has overstayed, for the lock is not fenced; otherwise it is answered 409. */
  lemma GrantedIff(states: seq<State>, acts: seq<Action>, i: nat)
    requires IsRun(states, acts) && i < |acts| && acts[i].Lock? && Enabled(states[i], acts[i])
    requires var r := states[i].requests[acts[i].id]; Undisturbed(states, acts, i, r.tenant, r.key)
    ensures acts[i].id in states[i + 1].requests
    ensures var r := states[i].requests[acts[i].id];
            states[i + 1].requests[acts[i].id].phase
            == if Held(states[i], r.tenant, r.key) && !Overstayed(states[i], r.tenant, r.key) then Conflict else Locked
  {
    var s, id := states[i], acts[i].id;
    var r := s.requests[id];
    RunLocks(states, acts, i, r.tenant, r.key);
    RunJustified(states, acts, i);
    if s.Live(r.LockKey()) {
      RefusedForHolder(s, id);
    }
    if Held(s, r.tenant, r.key) {
      LetInIffOverstayed(s, id);
    }
  }

  /** Whatever has happened before, 409 means that some request has locked the key less than 10 seconds ago and
      has not released it. */
  lemma ConflictMeansHeld(states: seq<State>, acts: seq<Action>, i: nat)
    requires IsRun(states, acts) && i < |acts| && acts[i].Lock? && Enabled(states[i], acts[i])
    requires Apply(states[i], acts[i]).requests[acts[i].id].phase == Conflict
    ensures var r := states[i].requests[acts[i].id];
            exists h :: h in states[i].requests && IsHolder(states[i].requests[h], r.tenant, r.key)
                        && states[i].now < states[i].requests[h].lockedAt + 10_000
  {
    RunJustified(states, acts, i);
    RefusedForHolder(states[i], acts[i].id);
  }

  /** And then the overstayer's own DEL removes the newcomer's lock while the newcomer still holds it. */
  lemma OverstayerRemovesForeignLock(s: State, h: RequestId, id: RequestId)
    requires id in s.requests && s.requests[id].phase.Arrived?
    requires LocksInPlace(s, s.requests[id].tenant, s.requests[id].key)
    requires Enabled(s, Release(h)) && s.requests[h].SameKey(s.requests[id])
    requires s.requests[h].lockedAt + LOCK_TTL <= s.now
    ensures var s1 := Apply(s, Lock(id));
            && Enabled(s1, Release(h))
            && s1.entries[s1.requests[h].LockKey()].writer == id
            && var s2 := Apply(s1, Release(h));
               s2.requests[id].Holding() && s2.requests[id].LockKey() !in s2.entries
  {
    assert OwnsLock(s, h);
  }

  /** The state in which one request holds its lock since time 0, alone. */
  function Alone(now: nat, tenant: string, key: string, phase: Phase): State {
    State(now, true, map[LockKey(tenant, key) := Entry("LOCK", LOCK_TTL, 0)], map[0 := Request(tenant, key, 0, phase)])
  }

  lemma FirstLocks(tenant: string, key: string) returns (s1: State)
    requires WellFormedKey(key) && tenant != ""
    ensures s1 == Apply(Apply(Init, Connection(true)), Arrive(0, Http("POST", key, tenant)))
    ensures Enabled(s1, Lock(0)) && Apply(s1, Lock(0)) == Alone(0, tenant, key, Locked)
  {
    s1 := Apply(Apply(Init, Connection(true)), Arrive(0, Http("POST", key, tenant)));
    var r := Request(tenant, key, 0, Arrived);
    assert s1.requests == map[0 := r];
    assert Apply(s1, Lock(0)).entries == map[r.LockKey() := Entry("LOCK", LOCK_TTL, 0)];
    assert Apply(s1, Lock(0)).requests == map[0 := r.(phase := Locked)];
  }

  lemma AloneMovesOn(now: nat, tenant: string, key: string, phase: Phase, next: Phase)
    ensures Alone(now, tenant, key, phase).WithPhase(0, next) == Alone(now, tenant, key, next)
  {
    assert Alone(now, tenant, key, phase).WithPhase(0, next).requests == Alone(now, tenant, key, next).requests;
  }

  lemma AloneMisses(tenant: string, key: string)
    requires WellFormedKey(key)
    ensures Apply(Alone(0, tenant, key, Locked), Lookup(0)) == Alone(0, tenant, key, Missed)
  {
    KeySpacesDisjoint(tenant, key, tenant, key);
    AloneMovesOn(0, tenant, key, Locked, Missed);
  }

  /** A second request for the key has arrived beside the first. */
  function Beside(now: nat, tenant: string, key: string, phase: Phase): State {
    State(now, true, map[LockKey(tenant, key) := Entry("LOCK", LOCK_TTL, 0)],
          map[0 := Request(tenant, key, 0, phase), 1 := Request(tenant, key, 0, Arrived)])
  }

  lemma SecondArrives(tenant: string, key: string)
    requires WellFormedKey(key) && tenant != ""
    ensures Apply(Alone(0, tenant, key, Running), Arrive(1, Http("POST", key, tenant)))
         == Beside(0, tenant, key, Running)
    ensures Apply(Beside(0, tenant, key, Running), Throw(0)) == Beside(0, tenant, key, Threw)
  {
    var arrived := Apply(Alone(0, tenant, key, Running), Arrive(1, Http("POST", key, tenant)));
    assert arrived.requests == Beside(0, tenant, key, Running).requests;
    assert Apply(Beside(0, tenant, key, Running), Throw(0)).requests == Beside(0, tenant, key, Threw).requests;
  }

  /** The only lock asked for in these steps is asked for while nobody holds any. */
  lemma OneLockBefore(states: seq<State>, acts: seq<Action>, tenant: string, key: string)
    requires |acts| == 8 && |states| == 9
    requires forall i :: 0 <= i < 8 && i != 2 ==> !acts[i].Lock?
    requires forall h :: h in states[2].requests ==> !states[2].requests[h].Holding()
    ensures Undisturbed(states, acts, 8, tenant, key)
  {
  }

  /** The first request runs its handler. */
  lemma FirstRuns(tenant: string, key: string) returns (states: seq<State>, acts: seq<Action>)
    requires WellFormedKey(key) && tenant != ""
    ensures IsRun(states, acts) && |acts| == 5 && states[5] == Alone(0, tenant, key, Running)
    ensures forall i :: 0 <= i < 5 && i != 2 ==> !acts[i].Lock?
    ensures forall h :: h in states[2].requests ==> !states[2].requests[h].Holding()
  {
    acts := [Connection(true), Arrive(0, Http("POST", key, tenant)), Lock(0), Lookup(0), Start(0)];
    var s2 := FirstLocks(tenant, key);
    AloneMisses(tenant, key);
    AloneMovesOn(0, tenant, key, Missed, Running);
    states := [Init, Apply(Init, Connection(true)), s2,
               Alone(0, tenant, key, Locked), Alone(0, tenant, key, Missed), Alone(0, tenant, key, Running)];
  }

  /** The run up to the moment the first request's handler has failed 10 seconds after its lock was taken,
      with a second request waiting for the key since before. */
  lemma OverstayingRun(tenant: string, key: string) returns (states: seq<State>, acts: seq<Action>)
    requires WellFormedKey(key) && tenant != ""
    ensures IsRun(states, acts) && |acts| == 8 && Undisturbed(states, acts, 8, tenant, key)
    ensures states[8] == Beside(LOCK_TTL, tenant, key, Threw)
  {
    states, acts := FirstRuns(tenant, key);
    SecondArrives(tenant, key);
    var before := states;
    acts := acts + [Arrive(1, Http("POST", key, tenant)), Throw(0), Tick(LOCK_TTL)];
    states := states
        + [Beside(0, tenant, key, Running), Beside(0, tenant, key, Threw), Beside(LOCK_TTL, tenant, key, Threw)];
    assert forall i :: 0 <= i <= 5 ==> states[i] == before[i];
    OneLockBefore(states, acts, tenant, key);
  }

  /** All this happens: a run in which the second request is let in beside the first, at the first intrusion,
      and loses its lock to the first one's DEL while it still holds it. */
  lemma OverstayIsReachable(tenant: string, key: string) returns (states: seq<State>, acts: seq<Action>)
    requires WellFormedKey(key) && tenant != ""
    ensures IsRun(states, acts) && |acts| == 10 && Undisturbed(states, acts, 8, tenant, key)
    ensures acts[8] == Lock(1) && Intrudes(states[8], acts[8], tenant, key) && acts[9] == Release(0)
    ensures LocksInPlace(states[8], tenant, key) && !Exclusive(states[9], tenant, key)
    ensures var k := LockKey(tenant, key);
            && k in states[9].entries && states[9].entries[k].writer == 1
            && 1 in states[10].requests && IsHolder(states[10].requests[1], tenant, key) && k !in states[10].entries
  {
    states, acts := OverstayingRun(tenant, key);
    RunLocks(states, acts, 8, tenant, key);
    var s8 := states[8];
    assert IsHolder(s8.requests[0], tenant, key);
    IntruderGetsIn(s8, Lock(1), tenant, key);
    OverstayerRemovesForeignLock(s8, 0, 1);
    var s9, before := Apply(s8, Lock(1)), states;
    states, acts := states + [s9, Apply(s9, Release(0))], acts + [Lock(1), Release(0)];
    assert forall i :: 0 <= i <= 8 ==> states[i] == before[i];
  }

  // ---- one success per cache lifetime ----

  predicate IsFreshFor(r: Request, tenant: string, key: string) {
    r.tenant == tenant && r.key == key && r.Fresh()
  }

  /** Since `e` was cached for this key, nobody can get past the cache until it expires, and it stays. */
  ghost predicate Sealed(s: State, tenant: string, key: string, e: Entry) {
    && CacheKey(tenant, key) in s.entries
    && s.entries[CacheKey(tenant, key)].expiresAt >= e.expiresAt
    && (s.now < e.expiresAt ==> s.entries[CacheKey(tenant, key)] == e)
    && (forall id :: id in s.requests && IsFreshFor(s.requests[id], tenant, key) ==> s.now >= e.expiresAt)
  }

  /** No action removes a cached response, shortens its life, or replaces it before it expires. */
  lemma CacheEntryOnlyRenewed(s: State, a: Action, tenant: string, key: string, e: Entry)
    requires Justified(s) && Enabled(s, a) && WellFormedKey(key) && Sealed(s, tenant, key, e)
    ensures var s' := Apply(s, a);
            && CacheKey(tenant, key) in s'.entries && s'.entries[CacheKey(tenant, key)].expiresAt >= e.expiresAt
            && (s'.now < e.expiresAt ==> s'.entries[CacheKey(tenant, key)] == e)
  {
    if a.Lock? || a.Store? || a.Release? {
      var r := s.requests[a.id];
      assert RequestJustified(s, a.id);
      KeySpacesDisjoint(tenant, key, r.tenant, r.key);
      if a.Store? && r.SameKey(Request(tenant, key, 0, Arrived)) {
        assert IsFreshFor(r, tenant, key);
      }
    }
  }

  /** Nobody becomes fresh before the response expires. */
  lemma NoFreshBeforeExpiry(s: State, a: Action, tenant: string, key: string, e: Entry, id: RequestId)
    requires Justified(s) && Enabled(s, a) && Sealed(s, tenant, key, e)
    requires id in Apply(s, a).requests && IsFreshFor(Apply(s, a).requests[id], tenant, key)
    ensures Apply(s, a).now >= e.expiresAt
  {
    assert id in s.requests;
    if !IsFreshFor(s.requests[id], tenant, key) {
      assert a.Lookup? && a.id == id;
      CacheEntryOwner(s, id);
    }
  }

  lemma SealedStep(s: State, a: Action, tenant: string, key: string, e: Entry)
    requires Justified(s) && Enabled(s, a) && WellFormedKey(key) && Sealed(s, tenant, key, e)
    ensures Sealed(Apply(s, a), tenant, key, e)
  {
    var s' := Apply(s, a);
    CacheEntryOnlyRenewed(s, a, tenant, key, e);
    forall id | id in s'.requests && IsFreshFor(s'.requests[id], tenant, key) ensures s'.now >= e.expiresAt {
      NoFreshBeforeExpiry(s, a, tenant, key, e, id);
    }
  }

  /** The entry a cache write leaves. */
  function StoredEntry(s: State, id: RequestId): Entry
    requires Enabled(s, Store(id))
  {
    Entry(s.requests[id].phase.body, s.now + CACHE_TTL, id)
  }

  lemma StoreSeals(s: State, id: RequestId)
    requires Justified(s) && Enabled(s, Store(id))
    requires LocksInPlace(s, s.requests[id].tenant, s.requests[id].key)
    ensures Sealed(Apply(s, Store(id)), s.requests[id].tenant, s.requests[id].key, StoredEntry(s, id))
  {
    var r := s.requests[id];
    LocksExclude(s, r.tenant, r.key);
    forall q | q in s.requests && IsFreshFor(s.requests[q], r.tenant, r.key) ensures q == id {
      assert IsHolder(s.requests[q], r.tenant, r.key) && IsHolder(r, r.tenant, r.key);
    }
  }

  /** Is this the cache write of a request whose key nobody has intruded on so far? */
  ghost predicate SafeStore(states: seq<State>, acts: seq<Action>, i: nat) {
    && i < |acts| && i < |states| && acts[i].Store? && Enabled(states[i], acts[i])
    && var r := states[i].requests[acts[i].id]; Undisturbed(states, acts, i, r.tenant, r.key)
  }

  lemma {:induction false} RunSealed(states: seq<State>, acts: seq<Action>, i: nat, j: nat)
    requires IsRun(states, acts) && SafeStore(states, acts, i) && i < j < |states|
    ensures var r := states[i].requests[acts[i].id];
            Sealed(states[j], r.tenant, r.key, StoredEntry(states[i], acts[i].id))
  {
    RunJustified(states, acts, i);
    var r := states[i].requests[acts[i].id];
    assert RequestJustified(states[i], acts[i].id);
    if j == i + 1 {
      RunLocks(states, acts, i, r.tenant, r.key);
      StoreSeals(states[i], acts[i].id);
    } else {
      RunSealed(states, acts, i, j - 1);
      RunJustified(states, acts, j - 1);
      SealedStep(states[j - 1], acts[j - 1], r.tenant, r.key, StoredEntry(states[i], acts[i].id));
    }
  }

  /** After a success is cached at step i, nobody having intruded on its key by then, a later handler start,
      response, failure or cache write for the same tenant and key comes at least 24 hours later: at most one
      success per cache lifetime, whatever happens to the locks from then on. */
  lemma OneSuccessPerCacheLifetime(states: seq<State>, acts: seq<Action>, i: nat, j: nat)
    requires IsRun(states, acts) && SafeStore(states, acts, i) && i < j < |acts|
    requires acts[j].Start? || acts[j].Emit? || acts[j].Throw? || acts[j].Store?
    requires Enabled(states[j], acts[j])
    requires states[i].requests[acts[i].id].SameKey(states[j].requests[acts[j].id])
    ensures states[j].now >= states[i].now + 86_400_000
  {
    RunSealed(states, acts, i, j);
  }

  /** A request answered from the cache gets, byte for byte, a response that a request of the same tenant
      and key emitted and cached. This needs no timing hypothesis. */
  lemma CachedAnswerIsGenuine(states: seq<State>, acts: seq<Action>, i: nat, id: RequestId)
    requires IsRun(states, acts) && i < |states|
    requires id in states[i].requests && states[i].requests[id].phase.Replied?
    ensures var r := states[i].requests[id];
            && r.phase.source in states[i].requests
            && states[i].requests[r.phase.source].SameKey(r)
            && states[i].requests[r.phase.source].HasStored(r.phase.cached)
            && exists e :: 0 <= e < i && acts[e] == Emit(r.phase.source, r.phase.cached)
  {
    RunJustified(states, acts, i);
    assert RequestJustified(states[i], id);
    BodyWasEmitted(states, acts, i, states[i].requests[id].phase.source);
  }

  /** The answer is that of the live success: between a cache write and its expiry, every lookup of the key
      finds that very response, whatever else happens in between. */
  lemma LookupsFindTheLiveSuccess(states: seq<State>, acts: seq<Action>, i: nat, j: nat)
    requires IsRun(states, acts) && SafeStore(states, acts, i) && i < j < |acts|
    requires acts[j].Lookup? && Enabled(states[j], acts[j])
    requires states[i].requests[acts[i].id].SameKey(states[j].requests[acts[j].id])
    requires states[j].now < states[i].now + 86_400_000
    ensures states[j + 1].requests[acts[j].id].phase
         == Hit(states[i].requests[acts[i].id].phase.body, acts[i].id)
    ensures exists e :: 0 <= e < i && acts[e] == Emit(acts[i].id, states[i].requests[acts[i].id].phase.body)
  {
    RunSealed(states, acts, i, j);
    BodyWasEmitted(states, acts, i, acts[i].id);
  }

  // ---- what a lookup finds ----

  /** Is step i a cache write for this key? */
  ghost predicate StoresFor(states: seq<State>, acts: seq<Action>, i: nat, tenant: string, key: string) {
    && i < |acts| && i < |states| && acts[i].Store? && Enabled(states[i], acts[i])
    && var r := states[i].requests[acts[i].id]; r.tenant == tenant && r.key == key
  }

  /** The latest one among the first n steps. */
  ghost function LatestStore(states: seq<State>, acts: seq<Action>, n: nat, tenant: string, key: string)
      : (i: Option<nat>)
    ensures i.Some? ==> i.value < n && StoresFor(states, acts, i.value, tenant, key)
  {
    if n == 0 then None
    else if StoresFor(states, acts, n - 1, tenant, key) then Some(n - 1)
    else LatestStore(states, acts, n - 1, tenant, key)
  }

  lemma CacheStep(s: State, a: Action, tenant: string, key: string)
    requires Justified(s) && Enabled(s, a) && WellFormedKey(key)
    requires !(a.Store? && s.requests[a.id].tenant == tenant && s.requests[a.id].key == key)
    ensures var k, s' := CacheKey(tenant, key), Apply(s, a);
            (k in s'.entries <==> k in s.entries) && (k in s.entries ==> s'.entries[k] == s.entries[k])
  {
    if a.Lock? || a.Store? || a.Release? {
      var r := s.requests[a.id];
      assert RequestJustified(s, a.id);
      KeySpacesDisjoint(tenant, key, r.tenant, r.key);
    }
  }

  lemma {:induction false} RunCached(states: seq<State>, acts: seq<Action>, n: nat, tenant: string, key: string)
    requires IsRun(states, acts) && n < |states| && WellFormedKey(key)
    ensures var i, k := LatestStore(states, acts, n, tenant, key), CacheKey(tenant, key);
            if i.Some? then k in states[n].entries
                         && states[n].entries[k] == StoredEntry(states[i.value], acts[i.value].id)
            else k !in states[n].entries
  {
    if n > 0 {
      RunCached(states, acts, n - 1, tenant, key);
      RunJustified(states, acts, n - 1);
      assert Enabled(states[n - 1], acts[n - 1]) && states[n] == Apply(states[n - 1], acts[n - 1]);
      if !StoresFor(states, acts, n - 1, tenant, key) {
        CacheStep(states[n - 1], acts[n - 1], tenant, key);
      }
    }
  }

  /** In every run and whatever the locks do, a lookup finds the response cached last for its tenant and key if that
      was less than 24 hours ago, the one emitted by the request that cached it, and otherwise finds none. */
  lemma LookupFindsLatestStore(states: seq<State>, acts: seq<Action>, j: nat)
    requires IsRun(states, acts) && j < |acts| && acts[j].Lookup? && Enabled(states[j], acts[j])
    ensures acts[j].id in states[j + 1].requests
    ensures var r, phase := states[j].requests[acts[j].id], states[j + 1].requests[acts[j].id].phase;
            var i := LatestStore(states, acts, j, r.tenant, r.key);
            if i.Some? && states[j].now < states[i.value].now + 86_400_000
            then phase.Hit? && phase.source == acts[i.value].id
              && exists e :: 0 <= e < i.value && acts[e] == Emit(phase.source, phase.cached)
            else phase.Missed?
  {
    var r := states[j].requests[acts[j].id];
    RunJustified(states, acts, j);
    assert RequestJustified(states[j], acts[j].id);
    RunCached(states, acts, j, r.tenant, r.key);
    var i := LatestStore(states, acts, j, r.tenant, r.key);
    if i.Some? {
      BodyWasEmitted(states, acts, i.value, acts[i.value].id);
    }
  }

  /** What the last change of the connection said; the connection is down at first. */
  predicate LastUp(acts: seq<Action>) {
    acts != [] &&
    var a := acts[|acts| - 1];
    if a.Connection? then a.up else LastUp(acts[..|acts| - 1])
  }

  lemma {:induction false} RunConnected(states: seq<State>, acts: seq<Action>, i: nat)
    requires IsRun(states, acts) && i < |states|
    ensures states[i].connected <==> LastUp(acts[..i])
  {
    if i > 0 {
      RunConnected(states, acts, i - 1);
      assert Enabled(states[i - 1], acts[i - 1]) && states[i] == Apply(states[i - 1], acts[i - 1]);
      assert acts[..i][..i - 1] == acts[..i - 1] && acts[..i][i - 1] == acts[i - 1];
    }
  }

  /** In every run a request is protected exactly when it is a mutation with an accepted key and a tenant, and
      Redis has come up and not been lost since; it is refused exactly for a malformed key, and passed on without
      protection otherwise, as requests at start-up are. */
  lemma ProtectedIff(states: seq<State>, acts: seq<Action>, i: nat)
    requires IsRun(states, acts) && i < |acts| && acts[i].Arrive?
    ensures acts[i].id in states[i + 1].requests
    ensures var phase, h := states[i + 1].requests[acts[i].id].phase, acts[i].http;
            var mutation := h.verb in ["POST", "PUT", "PATCH"];
            phase == if mutation && WellFormedKey(h.keyHeader) && h.tenantHeader != "" && LastUp(acts[..i]) then Arrived
                     else if mutation && h.keyHeader != "" && !WellFormedKey(h.keyHeader) then Refused
                     else Unguarded
  {
    RunConnected(states, acts, i);
    assert Enabled(states[i], acts[i]) && states[i + 1] == Apply(states[i], acts[i]);
  }
}
