/** The admin services in their own form: entities that are loaded, mutated and saved, tables and queues they
    are saved to, and the worker that routes jobs to the services. The store carries the run of AdminWorld that
    its state has come from; between two awaits a service takes one step of that run. */
module AdminServices {
  import opened Basics
  import opened AdminCascade
  import opened AdminIncidents
  import opened AdminLedger
  import opened AdminWorld

  /** At step i handler h writes for this service what its job asks. */
  ghost predicate WroteAt(worlds: seq<World>, acts: seq<Action>, i: nat, h: nat, k: Key, ask: Option<Severity>) {
    && i < |acts| && i < |worlds| && acts[i] == WriteIncident(h)
    && h < |worlds[i].handlers| && worlds[i].handlers[h].key == k && worlds[i].handlers[h].ask == ask
  }

  /** The actions determine the worlds. */
  lemma {:induction false} WorldsDetermined(worlds: seq<World>, acts: seq<Action>,
                                            more: seq<World>, log: seq<Action>, i: nat)
    requires IsRun(worlds, acts) && IsRun(more, log) && acts <= log && worlds[0] == more[0] && i < |worlds|
    ensures worlds[i] == more[i]
  {
    if i > 0 {
      WorldsDetermined(worlds, acts, more, log, i - 1);
      assert StepAt(worlds, acts, i - 1) && StepAt(more, log, i - 1);
    }
  }

  lemma WroteLater(worlds: seq<World>, acts: seq<Action>, more: seq<World>, log: seq<Action>,
                   i: nat, h: nat, k: Key, ask: Option<Severity>)
    requires IsRun(worlds, acts) && IsRun(more, log) && acts <= log && worlds[0] == more[0]
    requires WroteAt(worlds, acts, i, h, k, ask)
    ensures WroteAt(more, log, i, h, k, ask)
  {
    WorldsDetermined(worlds, acts, more, log, i);
  }

  lemma SavedLater(worlds: seq<World>, acts: seq<Action>, more: seq<World>, log: seq<Action>,
                   i: nat, id: nat, k: Key, status: HealthStatus)
    requires IsRun(worlds, acts) && IsRun(more, log) && acts <= log && worlds[0] == more[0]
    requires SavesAt(worlds, acts, i, id, k, status)
    ensures SavesAt(more, log, i, id, k, status)
  {
    WorldsDetermined(worlds, acts, more, log, i);
    WorldsDetermined(worlds, acts, more, log, i + 1);
  }

  /** The services a sweep has saved, in this order, and with which results. */
  ghost predicate SavedInOrder(worlds: seq<World>, acts: seq<Action>, saves: seq<nat>, id: nat, tenant: string,
                               results: seq<HealthStatus>, services: seq<Service>)
  {
    && |saves| <= |results| && |saves| <= |services|
    && forall i :: 0 <= i < |saves| ==>
         SavesAt(worlds, acts, saves[i], id, Key(tenant, services[i]), results[i])
  }

  lemma SavedInOrderLater(worlds: seq<World>, acts: seq<Action>, more: seq<World>, log: seq<Action>, saves: seq<nat>,
                          id: nat, tenant: string, results: seq<HealthStatus>, services: seq<Service>)
    requires IsRun(worlds, acts) && IsRun(more, log) && acts <= log && worlds[0] == more[0]
    requires SavedInOrder(worlds, acts, saves, id, tenant, results, services)
    ensures SavedInOrder(more, log, saves, id, tenant, results, services)
  {
    forall i | 0 <= i < |saves| ensures SavesAt(more, log, saves[i], id, Key(tenant, services[i]), results[i]) {
      SavedLater(worlds, acts, more, log, saves[i], id, Key(tenant, services[i]), results[i]);
    }
  }

  /** What such a write does: if at most one incident of the service was open before, just the one asked for is
      open after, exactly if none was open but the one the handler had found. */
  lemma WriteDoesAsAskedIff(worlds: seq<World>, acts: seq<Action>, i: nat, h: nat, k: Key, ask: Option<Severity>)
    requires IsRun(worlds, acts) && worlds[0] == Init && WroteAt(worlds, acts, i, h, k, ask)
    requires OneOpen(worlds[i].incidents, k)
    ensures var before, after := worlds[i].incidents, worlds[i + 1].incidents;
            (OneOpen(after, k) && OpenSeverity(after, k) == ask)
            <==> OnlyFoundOpen(before, k, worlds[i].handlers[h].found)
  {
    assert StepAt(worlds, acts, i);
    RunHandlers(worlds, acts, i);
    var w, x := worlds[i], worlds[i].handlers[h];
    assert FoundIn(w.incidents, x.found, k);
    StaleSaveIff(w.incidents, k, ask, x.found);
  }

  class SystemHealth {
    const key: Key
    var status: HealthStatus

    constructor (key: Key, status: HealthStatus)
      ensures this.key == key && this.status == status
    {
      this.key, this.status := key, status;
    }

    method RecordCheck(status: HealthStatus)
      modifies this
      ensures this.status == status
    {
      this.status := status;
    }

    /** False on the first observation, when there is no previous status. */
    method HasChangedStatusSince(previous: Option<HealthStatus>) returns (changed: bool)
      ensures changed <==> previous.Some? && previous.value != status
    {
      changed := previous.Some? && previous.value != status;
    }
  }

  class OperationalIncident {
    const key: Key
    var severity: Severity
    var status: IncidentStatus
    var resolvedAt: Option<int>

    ghost function Value(): Incident
      reads this
    {
      Incident(key, severity, status)
    }

    constructor (row: Incident)
      ensures Value() == row && resolvedAt == None
    {
      key, severity, status, resolvedAt := row.key, row.severity, row.status, None;
    }

    /** Only resolving stamps a resolution time. */
    method UpdateStatus(status: IncidentStatus, now: int)
      modifies this
      ensures Value() == old(Value()).(status := status)
      ensures resolvedAt == if status == RESOLVED then Some(now) else old(resolvedAt)
    {
      this.status := status;
      if status == RESOLVED {
        resolvedAt := Some(now);
      }
    }

    method Resolve(now: int)
      modifies this
      ensures Value() == old(Value()).(status := RESOLVED) && resolvedAt == Some(now)
    {
      UpdateStatus(RESOLVED, now);
    }

    method Escalate(severity: Severity)
      modifies this
      ensures Value() == old(Value()).(severity := severity) && resolvedAt == old(resolvedAt)
    {
      this.severity := severity;
    }
  }

  /** The tables and queues the services share. `queue` carries each job's cause along, which is
      the number of the sweep. */
  class AdminStore {
    var health: map<Key, HealthStatus>
    var incidents: seq<Incident>
    var queue: seq<Queued>
    var analytics: seq<Event>
    var sweepsBegun: nat
    ghost var sweeps: seq<Sweep>
    ghost var handlers: seq<Handler>
    ghost var seen: map<Key, seq<HealthStatus>>
    ghost var told: map<Key, Option<Severity>>
    ghost var done: map<Key, Option<Severity>>
    ghost var log: seq<Queued>
    ghost var worlds: seq<World>
    ghost var acts: seq<Action>

    ghost function Value(): World
      reads this
    {
      World(health, incidents, queue, analytics, sweeps, handlers, seen, told, done, log)
    }

    /** The state has come about by a run of the admin world. */
    ghost predicate Valid()
      reads this
    {
      IsRun(worlds, acts) && worlds[0] == Init && worlds[|acts|] == Value() && sweepsBegun == |sweeps|
    }

    constructor ()
      ensures Valid() && Value() == Init
    {
      health, incidents, queue, analytics, sweepsBegun := map[], [], [], [], 0;
      sweeps, handlers := [], [];
      seen, told, done, log := map[], map[], map[], [];
      worlds, acts := [Init], [];
    }

    /** Notes that the state has just taken a step. */
    ghost method Record(a: Action)
      requires IsRun(worlds, acts) && worlds[0] == Init
      requires Enabled(worlds[|acts|], a) && Value() == Apply(worlds[|acts|], a) && sweepsBegun == |sweeps|
      modifies this`worlds, this`acts
      ensures Valid() && worlds == old(worlds) + [Value()] && acts == old(acts) + [a]
    {
      ghost var w0, a0 := worlds, acts;
      worlds, acts := worlds + [Value()], acts + [a];
      forall i | 0 <= i < |acts| ensures StepAt(worlds, acts, i) {
        if i < |a0| {
          assert StepAt(w0, a0, i) && worlds[i] == w0[i] && worlds[i + 1] == w0[i + 1] && acts[i] == a0[i];
        }
      }
    }

    /** An await of a sweep or a handler. This body stands for one in which nobody else is ready to run; callers
        may rely only on the contract, which lets everybody else take any number of steps meanwhile. */
    method Await(ghost sweep: Option<nat>, ghost handler: Option<nat>)
      requires Valid() && (sweep.Some? ==> sweep.value < |sweeps|) && (handler.Some? ==> handler.value < |handlers|)
      modifies this
      ensures Valid() && old(acts) <= acts
      ensures sweep.Some? ==> sweep.value < |sweeps| && sweeps[sweep.value] == old(sweeps[sweep.value])
      ensures handler.Some? ==> handler.value < |handlers| && handlers[handler.value] == old(handlers[handler.value])
    {
    }

    method GetSystemHealth(k: Key) returns (status: Option<HealthStatus>)
      ensures status == Stored(Value(), k)
    {
      status := if k in health then Some(health[k]) else None;
    }

    method UpsertSystemHealth(h: SystemHealth)
      modifies this`health, this`seen
      ensures health == old(health)[h.key := h.status]
      ensures seen == old(seen)[h.key := Seen(old(Value()), h.key) + [h.status]]
    {
      seen := seen[h.key := Seen(Value(), h.key) + [h.status]];
      health := health[h.key := h.status];
    }

    method FindOpenIncidentByService(k: Key) returns (at: Option<nat>)
      ensures at == FindOpen(incidents, k)
    {
      var n := |incidents|;
      while n > 0
        invariant 0 <= n <= |incidents|
        invariant forall i :: n <= i < |incidents| ==> !IsOpen(incidents[i], k)
        invariant FindOpen(incidents, k) == FindOpen(incidents[..n], k)
      {
        assert incidents[..n][..n - 1] == incidents[..n - 1];
        n := n - 1;
        if incidents[n].key == k && incidents[n].status != RESOLVED {
          return Some(n);
        }
      }
      at := None;
    }

    /** Saves a whole row: over the existing one, or as a new one. */
    method SaveIncident(at: Option<nat>, i: OperationalIncident)
      requires at.Some? ==> at.value < |incidents|
      modifies this`incidents
      ensures incidents == if at.Some? then old(incidents)[at.value := i.Value()] else old(incidents) + [i.Value()]
    {
      var row := Incident(i.key, i.severity, i.status);
      if at.Some? {
        incidents := incidents[at.value := row];
      } else {
        incidents := incidents + [row];
      }
    }

    method AddAdminJob(j: AdminJob, cause: Option<nat>)
      modifies this`queue, this`log, this`told
      ensures Value() == Push(old(Value()), j, cause)
    {
      queue := queue + [Queued(j, cause)];
      log := log + [Queued(j, cause)];
      told := if j.IncidentJob? then told[j.key := Ask(j)] else told;
    }
  }

  /** The events webhooks may subscribe to. */
  predicate Eligible(e: Event) {
    e in [DashboardUpdated, ApiKeyCreated, ApiKeyRevoked, IncidentCreated, IncidentResolved, HealthChanged,
          OverrideCreated]
  }

  /** A webhook job for each of these events that webhooks may subscribe to, in order. */
  function JobsFor(tenant: string, events: seq<Event>, cause: Option<nat>): seq<Queued> {
    if events == [] then []
    else
      var e := events[|events| - 1];
      JobsFor(tenant, events[..|events| - 1], cause)
      + if tenant != "" && Eligible(e) then [Queued(WebhookJob(tenant, e), cause)] else []
  }

  class AdminEventPublisher {
    const store: AdminStore

    constructor (store: AdminStore)
      ensures this.store == store
    {
      this.store := store;
    }

    /** The two halves of `publish`, with an await between them. */
    method FeedAnalytics(event: Event)
      modifies store`analytics
      ensures store.Value() == Feed(old(store.Value()), event)
    {
      store.analytics := store.analytics + [event];
    }

    method NotifySubscribers(tenant: string, event: Event, cause: Option<nat>)
      modifies store`queue, store`log, store`told
      ensures store.Value() == NotifyWebhooks(old(store.Value()), tenant, event, cause)
    {
      if WebhookEligible(event) {
        if tenant != "" {
          store.AddAdminJob(WebhookJob(tenant, event), cause);
        }
      }
    }

    method PublishEvent(tenant: string, event: Event, cause: Option<nat>)
      modifies store`analytics, store`queue, store`log, store`told
      ensures store.Value() == Publish(old(store.Value()), tenant, event, cause)
      ensures store.analytics == old(store.analytics) + [event]
      ensures store.queue == old(store.queue) + if tenant != "" && Eligible(event)
                                                then [Queued(WebhookJob(tenant, event), cause)] else []
    {
      FeedAnalytics(event);
      NotifySubscribers(tenant, event, cause);
    }

    /** `publishAll` publishes in order. */
    method PublishAll(tenant: string, events: seq<Event>, cause: Option<nat>)
      modifies store`analytics, store`queue, store`log, store`told
      ensures store.analytics == old(store.analytics) + events
      ensures store.queue == old(store.queue) + JobsFor(tenant, events, cause)
    {
      for n := 0 to |events|
        invariant store.analytics == old(store.analytics) + events[..n]
        invariant store.queue == old(store.queue) + JobsFor(tenant, events[..n], cause)
      {
        assert events[..n + 1][..n] == events[..n];
        PublishEvent(tenant, events[n], cause);
      }
      assert events[..|events|] == events;
    }
  }

  class AdminHealthService {
    const store: AdminStore
    const publisher: AdminEventPublisher

    constructor (store: AdminStore, publisher: AdminEventPublisher)
      requires publisher.store == store
      ensures this.store == store && this.publisher == publisher
    {
      this.store, this.publisher := store, publisher;
    }

    /** A sweep from its first service on; `results[i]` is what the i-th probe reports. Whatever others do at
        its awaits, the sweep saves the results of the four services, in order, and causes at most twelve jobs. */
    method RunHealthSweep(tenant: string, results: seq<HealthStatus>, id: nat) returns (ghost saves: seq<nat>)
      requires publisher.store == store && store.Valid() && |results| == 4
      requires id < |store.sweeps| && store.sweeps[id] == Sweep(tenant, 0, Ready, 0, 0)
      modifies store
      ensures store.Valid() && old(store.acts) <= store.acts
      ensures id < |store.sweeps| && store.sweeps[id].tenant == tenant && Over(store.sweeps[id])
      ensures |saves| == 4
              && SavedInOrder(store.worlds, store.acts, saves, id, tenant, results,
                              [Database, RedisServer, ConnectorEngine, WorkflowEngine])
      ensures Caused(store.log, id) <= 3 * store.sweeps[id].reported <= 12
    {
      saves := [];
      for n := 0 to |MONITORED|
        invariant store.Valid() && old(store.acts) <= store.acts
        invariant id < |store.sweeps|
        invariant store.sweeps[id].tenant == tenant && store.sweeps[id].next == n && store.sweeps[id].stage == Ready
        invariant |saves| == n && SavedInOrder(store.worlds, store.acts, saves, id, tenant, results, MONITORED)
      {
        ghost var w0, a0 := store.worlds, store.acts;
        ghost var saved := SweepService(tenant, n, results[n], id);
        SavedInOrderLater(w0, a0, store.worlds, store.acts, saves, id, tenant, results, MONITORED);
        saves := saves + [saved];
      }
      SweepCausesAtMostTwelveJobs(store.worlds, store.acts, |store.acts|, id);
    }

    /** One service of a sweep: the row read, the row saved and, for a change, its three announcements are a
        step each, with an await before every one. */
    method SweepService(tenant: string, n: nat, result: HealthStatus, id: nat) returns (ghost saved: nat)
      requires publisher.store == store && store.Valid() && n < |MONITORED|
      requires id < |store.sweeps| && store.sweeps[id].tenant == tenant && store.sweeps[id].next == n
               && store.sweeps[id].stage == Ready
      modifies store
      ensures store.Valid() && old(store.acts) <= store.acts
      ensures id < |store.sweeps|
      ensures store.sweeps[id].tenant == tenant && store.sweeps[id].next == n + 1 && store.sweeps[id].stage == Ready
      ensures SavesAt(store.worlds, store.acts, saved, id, Key(tenant, MONITORED[n]), result)
    {
      var changed;
      changed, saved := CheckAndSave(tenant, n, result, id);
      if changed {
        ghost var w0, a0 := store.worlds, store.acts;
        TellChange(tenant, n, result, id);
        SavedLater(w0, a0, store.worlds, store.acts, saved, id, Key(tenant, MONITORED[n]), result);
      }
    }

    method CheckAndSave(tenant: string, n: nat, result: HealthStatus, id: nat)
        returns (changed: bool, ghost saved: nat)
      requires publisher.store == store && store.Valid() && n < |MONITORED|
      requires id < |store.sweeps| && store.sweeps[id].tenant == tenant && store.sweeps[id].next == n
               && store.sweeps[id].stage == Ready
      modifies store
      ensures store.Valid() && old(store.acts) <= store.acts
      ensures id < |store.sweeps| && store.sweeps[id].tenant == tenant
      ensures store.sweeps[id].next == (if changed then n else n + 1)
      ensures store.sweeps[id].stage == if changed then Saved(result) else Ready
      ensures SavesAt(store.worlds, store.acts, saved, id, Key(tenant, MONITORED[n]), result)
    {
      var k := Key(tenant, MONITORED[n]);
      store.Await(Some(id), None);
      var previousStatus := ReadRow(k, result, id);
      store.Await(Some(id), None);
      saved := |store.acts|;
      changed := SaveHealth(k, previousStatus, result, id);
    }

    method TellChange(tenant: string, n: nat, result: HealthStatus, id: nat)
      requires publisher.store == store && store.Valid() && n < |MONITORED|
      requires id < |store.sweeps| && store.sweeps[id].tenant == tenant && store.sweeps[id].next == n
               && store.sweeps[id].stage == Saved(result)
      modifies store
      ensures store.Valid() && old(store.acts) <= store.acts
      ensures id < |store.sweeps|
      ensures store.sweeps[id].tenant == tenant && store.sweeps[id].next == n + 1 && store.sweeps[id].stage == Ready
    {
      store.Await(Some(id), None);
      FeedChange(result, id);
      store.Await(Some(id), None);
      NotifyChange(tenant, result, id);
      store.Await(Some(id), None);
      QueueIncidentJob(Key(tenant, MONITORED[n]), result, id);
    }

    method ReadRow(k: Key, result: HealthStatus, id: nat) returns (previousStatus: Option<HealthStatus>)
      requires store.Valid() && Live(store.Value(), id) && store.sweeps[id].stage.Ready? && At(store.sweeps[id]) == k
      modifies store`sweeps, store`worlds, store`acts
      ensures store.Valid() && store.acts == old(store.acts) + [CheckService(id, result)]
      ensures store.sweeps == old(store.sweeps)[id := old(store.sweeps[id]).(stage := Checked(previousStatus, result))]
    {
      previousStatus := store.GetSystemHealth(k);
      store.sweeps := store.sweeps[id := store.sweeps[id].(stage := Checked(previousStatus, result))];
      store.Record(CheckService(id, result));
    }

    /** The loaded entity, or a new one, takes the result and is saved; it is compared with the status read. */
    method SaveHealth(k: Key, previousStatus: Option<HealthStatus>, result: HealthStatus, id: nat)
        returns (changed: bool)
      requires store.Valid() && Live(store.Value(), id) && At(store.sweeps[id]) == k
      requires store.sweeps[id].stage == Checked(previousStatus, result)
      modifies store`health, store`seen, store`sweeps, store`worlds, store`acts
      ensures store.Valid() && store.acts == old(store.acts) + [SaveCheck(id)]
      ensures SavesAt(store.worlds, store.acts, |old(store.acts)|, id, k, result)
      ensures var s := old(store.sweeps[id]);
              store.sweeps == old(store.sweeps)[id := if changed
                                                      then s.(stage := Saved(result), reported := s.reported + 1,
                                                              savedAt := |old(Seen(store.Value(), k))| + 1)
                                                      else s.(stage := Ready, next := s.next + 1)]
    {
      ghost var s, savedAt := store.sweeps[id], |Seen(store.Value(), k)| + 1;
      changed := RecordResult(k, previousStatus, result);
      store.sweeps := store.sweeps[id := if changed
                                         then s.(stage := Saved(result), reported := s.reported + 1, savedAt := savedAt)
                                         else s.(stage := Ready, next := s.next + 1)];
      store.Record(SaveCheck(id));
    }

    method RecordResult(k: Key, previousStatus: Option<HealthStatus>, result: HealthStatus) returns (changed: bool)
      modifies store`health, store`seen
      ensures store.health == old(store.health)[k := result]
      ensures store.seen == old(store.seen)[k := old(Seen(store.Value(), k)) + [result]]
      ensures changed <==> Reports(Checked(previousStatus, result))
    {
      var health := new SystemHealth(k, if previousStatus.Some? then previousStatus.value else result);
      health.RecordCheck(result);
      store.UpsertSystemHealth(health);
      changed := health.HasChangedStatusSince(previousStatus);
    }

    method FeedChange(result: HealthStatus, id: nat)
      requires publisher.store == store && store.Valid() && Live(store.Value(), id)
               && store.sweeps[id].stage == Saved(result)
      modifies store`analytics, store`sweeps, store`worlds, store`acts
      ensures store.Valid() && store.acts == old(store.acts) + [Announce(id)]
      ensures store.sweeps == old(store.sweeps)[id := old(store.sweeps[id]).(stage := Announced(result))]
    {
      publisher.FeedAnalytics(HealthChanged);
      store.sweeps := store.sweeps[id := store.sweeps[id].(stage := Announced(result))];
      store.Record(Announce(id));
    }

    method NotifyChange(tenant: string, result: HealthStatus, id: nat)
      requires publisher.store == store && store.Valid() && Live(store.Value(), id)
      requires store.sweeps[id].stage == Announced(result) && store.sweeps[id].tenant == tenant
      modifies store`queue, store`log, store`told, store`sweeps, store`worlds, store`acts
      ensures store.Valid() && store.acts == old(store.acts) + [Notify(id)]
      ensures store.sweeps == old(store.sweeps)[id := old(store.sweeps[id]).(stage := Notified(result))]
    {
      publisher.NotifySubscribers(tenant, HealthChanged, Some(id));
      store.sweeps := store.sweeps[id := store.sweeps[id].(stage := Notified(result))];
      store.Record(Notify(id));
    }

    method QueueIncidentJob(k: Key, result: HealthStatus, id: nat)
      requires store.Valid() && Live(store.Value(), id) && At(store.sweeps[id]) == k
      requires store.sweeps[id].stage == Notified(result)
      modifies store`queue, store`log, store`told, store`sweeps, store`worlds, store`acts
      ensures store.Valid() && store.acts == old(store.acts) + [QueueIncident(id)]
      ensures var s := old(store.sweeps[id]);
              store.sweeps == old(store.sweeps)[id := s.(stage := Ready, next := s.next + 1)]
    {
      match result {
        case DOWN => store.AddAdminJob(IncidentJob(k, false, Some(CRITICAL)), Some(id));
        case DEGRADED => store.AddAdminJob(IncidentJob(k, false, Some(MEDIUM)), Some(id));
        case HEALTHY => store.AddAdminJob(IncidentJob(k, true, None), Some(id));
      }
      store.sweeps := store.sweeps[id := store.sweeps[id].(stage := Ready, next := store.sweeps[id].next + 1)];
      store.Record(QueueIncident(id));
    }

    /** A sweep asked for through the API. */
    method BeginHealthSweep(tenant: string) returns (id: nat)
      requires store.Valid()
      modifies store`sweepsBegun, store`sweeps, store`worlds, store`acts
      ensures store.Valid() && store.acts == old(store.acts) + [BeginSweep(tenant)]
      ensures id == |old(store.sweeps)| && store.sweeps == old(store.sweeps) + [Sweep(tenant, 0, Ready, 0, 0)]
    {
      id := store.sweepsBegun;
      store.sweepsBegun := id + 1;
      store.sweeps := store.sweeps + [Sweep(tenant, 0, Ready, 0, 0)];
      store.Record(BeginSweep(tenant));
    }
  }

  class AdminIncidentService {
    const store: AdminStore
    const publisher: AdminEventPublisher

    constructor (store: AdminStore, publisher: AdminEventPublisher)
      requires publisher.store == store
      ensures this.store == store && this.publisher == publisher
    {
      this.store, this.publisher := store, publisher;
    }

    /** A worker has just taken this incident job, the one at `at`, off the queue. */
    ghost predicate JustTaken(taken: Queued, at: nat)
      reads this, store
    {
      && IsRun(store.worlds, store.acts) && store.worlds[0] == Init && store.sweepsBegun == |store.sweeps|
      && taken.job.IncidentJob?
      && var w := store.worlds[|store.acts|];
         at < |w.queue| && w.queue[at] == taken && store.Value() == w.(queue := RemoveAt(w.queue, at))
    }

    /** The handler's search has found this row, of which it holds a copy, or none. */
    ghost predicate AtWork(h: nat, k: Key, ask: Option<Severity>, cause: Option<nat>,
                           existing: Option<nat>, row: Option<Incident>)
      reads store
    {
      && store.Valid() && (existing.Some? <==> row.Some?) && h < |store.handlers|
      && var found := if existing.Some? && row.Some? then Some(Found(existing.value, row.value)) else None;
         store.handlers[h] == Handler(k, ask, cause, found, Searched)
    }

    /** The first query of both operations, and the await of its answer. */
    method Search(taken: Queued, ghost at: nat) returns (existing: Option<nat>, row: Option<Incident>, ghost h: nat)
      requires JustTaken(taken, at)
      modifies store
      ensures AtWork(h, taken.job.key, Ask(taken.job), taken.cause, existing, row)
      ensures old(store.acts) + [HandleAt(at, 0)] <= store.acts
    {
      existing, row, h := FindExisting(taken, at);
      store.Await(None, Some(h));
    }

    method FindExisting(taken: Queued, ghost at: nat)
        returns (existing: Option<nat>, row: Option<Incident>, ghost h: nat)
      requires JustTaken(taken, at)
      modifies store`handlers, store`worlds, store`acts
      ensures AtWork(h, taken.job.key, Ask(taken.job), taken.cause, existing, row)
      ensures store.acts == old(store.acts) + [HandleAt(at, 0)]
    {
      ghost var w := store.worlds[|store.acts|];
      HandleFrame(w, at, 0);
      existing := store.FindOpenIncidentByService(taken.job.key);
      row := if existing.Some? then Some(store.incidents[existing.value]) else None;
      h := |store.handlers|;
      store.handlers := store.handlers + NewHandlers(w, taken);
      assert w.sweeps + [] == w.sweeps;
      store.Record(HandleAt(at, 0));
    }

    /** The write, after whatever others have done since the search: the row found, as this handler has changed
        it, goes over the one in the table, or a new row is added. */
    method Write(ghost h: nat, existing: Option<nat>, incident: OperationalIncident)
      requires store.Valid() && Busied(store.Value(), h, Searched)
      requires var x := store.handlers[h];
               && (existing.Some? <==> x.found.Some?) && (x.found.Some? ==> existing.value == x.found.value.at)
               && (x.found.Some? || x.ask.Some?)
               && incident.Value() == (if x.found.None? then Incident(x.key, x.ask.value, OPEN)
                                       else if x.ask.Some? then x.found.value.row.(severity := x.ask.value)
                                       else x.found.value.row.(status := RESOLVED))
      modifies store`incidents, store`done, store`handlers, store`worlds, store`acts
      ensures store.Valid() && store.acts == old(store.acts) + [WriteIncident(h)]
      ensures var x := old(store.handlers[h]);
              && store.handlers == old(store.handlers)[h := x.(stage := if Publishes(x) then Wrote else Finished)]
              && WroteAt(store.worlds, store.acts, |old(store.acts)|, h, x.key, x.ask)
    {
      ghost var w, x := store.Value(), store.handlers[h];
      RunHandlers(store.worlds, store.acts, |store.acts|);
      assert FoundIn(w.incidents, x.found, x.key);
      store.SaveIncident(existing, incident);
      store.done := store.done[x.key := x.ask];
      store.handlers := store.handlers[h := x.(stage := if Publishes(x) then Wrote else Finished)];
      store.Record(WriteIncident(h));
    }

    /** An open incident is escalated, or one created and published. */
    method OpenOrEscalateIncident(taken: Queued, severity: Severity, ghost at: nat)
        returns (ghost h: nat, ghost wrote: nat)
      requires publisher.store == store && JustTaken(taken, at) && Ask(taken.job) == Some(severity)
      modifies store
      ensures store.Valid() && old(store.acts) + [HandleAt(at, 0)] <= store.acts
      ensures h < |store.handlers| && store.handlers[h].stage == Finished
      ensures WroteAt(store.worlds, store.acts, wrote, h, taken.job.key, Ask(taken.job))
    {
      var existing, row;
      existing, row, h := Search(taken, at);
      if existing.Some? {
        var incident := new OperationalIncident(row.value);
        incident.Escalate(severity);
        wrote := |store.acts|;
        Write(h, existing, incident);
      } else {
        wrote := CreateIncidentFor(taken.job.key, severity, taken.cause, h);
      }
    }

    method CreateIncidentFor(k: Key, severity: Severity, cause: Option<nat>, ghost h: nat) returns (ghost wrote: nat)
      requires publisher.store == store && AtWork(h, k, Some(severity), cause, None, None)
      modifies store
      ensures store.Valid() && old(store.acts) <= store.acts
      ensures h < |store.handlers| && store.handlers[h].stage == Finished
      ensures WroteAt(store.worlds, store.acts, wrote, h, k, Some(severity))
    {
      var incident := new OperationalIncident(Incident(k, severity, OPEN));
      wrote := |store.acts|;
      Write(h, None, incident);
      ghost var w0, a0 := store.worlds, store.acts;
      PublishIncident(k, IncidentCreated, cause, h);
      WroteLater(w0, a0, store.worlds, store.acts, wrote, h, k, Some(severity));
    }

    /** The open incident, if there is one, is resolved and published. */
    method ResolveIncidentByService(taken: Queued, now: int, ghost at: nat) returns (ghost h: nat, ghost wrote: nat)
      requires publisher.store == store && JustTaken(taken, at) && Ask(taken.job) == None
      modifies store
      ensures store.Valid() && old(store.acts) + [HandleAt(at, 0)] <= store.acts
      ensures h < |store.handlers| && store.handlers[h].stage == Finished
      ensures WroteAt(store.worlds, store.acts, wrote, h, taken.job.key, Ask(taken.job))
    {
      var existing, row;
      existing, row, h := Search(taken, at);
      if existing.Some? {
        wrote := ResolveFound(taken.job.key, existing, row, now, taken.cause, h);
      } else {
        wrote := |store.acts|;
        NothingToResolve(h);
      }
    }

    method ResolveFound(k: Key, existing: Option<nat>, row: Option<Incident>, now: int, cause: Option<nat>,
                        ghost h: nat)
        returns (ghost wrote: nat)
      requires publisher.store == store && AtWork(h, k, None, cause, existing, row) && existing.Some?
      modifies store
      ensures store.Valid() && old(store.acts) <= store.acts
      ensures h < |store.handlers| && store.handlers[h].stage == Finished
      ensures WroteAt(store.worlds, store.acts, wrote, h, k, None)
    {
      var incident := new OperationalIncident(row.value);
      incident.Resolve(now);
      wrote := |store.acts|;
      Write(h, existing, incident);
      ghost var w0, a0 := store.worlds, store.acts;
      PublishIncident(k, IncidentResolved, cause, h);
      WroteLater(w0, a0, store.worlds, store.acts, wrote, h, k, None);
    }

    /** A handler that found nothing to resolve is through: its write changes no row. */
    ghost method NothingToResolve(h: nat)
      requires store.Valid() && Busied(store.Value(), h, Searched)
      requires store.handlers[h].found.None? && store.handlers[h].ask.None?
      modifies store`done, store`handlers, store`worlds, store`acts
      ensures store.Valid() && store.acts == old(store.acts) + [WriteIncident(h)]
      ensures store.handlers == old(store.handlers)[h := old(store.handlers[h]).(stage := Finished)]
      ensures WroteAt(store.worlds, store.acts, |old(store.acts)|, h, old(store.handlers[h].key), None)
    {
      var x := store.handlers[h];
      store.done := store.done[x.key := x.ask];
      store.handlers := store.handlers[h := x.(stage := Finished)];
      store.Record(WriteIncident(h));
    }

    /** The event of a created or resolved incident, in two steps with awaits before them. */
    method PublishIncident(k: Key, event: Event, cause: Option<nat>, ghost h: nat)
      requires publisher.store == store && store.Valid() && Busied(store.Value(), h, Wrote)
      requires var x := store.handlers[h]; x.key == k && EventOf(x) == event && x.cause == cause
      modifies store
      ensures store.Valid() && old(store.acts) <= store.acts
      ensures h < |store.handlers| && store.handlers[h].stage == Finished
    {
      store.Await(None, Some(h));
      FeedIncidentEvent(event, h);
      store.Await(None, Some(h));
      NotifyIncidentEvent(k, event, cause, h);
    }

    method FeedIncidentEvent(event: Event, ghost h: nat)
      requires publisher.store == store && store.Valid() && Busied(store.Value(), h, Wrote)
               && EventOf(store.handlers[h]) == event
      modifies store`analytics, store`handlers, store`worlds, store`acts
      ensures store.Valid() && store.acts == old(store.acts) + [FeedIncident(h)]
      ensures store.handlers == old(store.handlers)[h := old(store.handlers[h]).(stage := Fed)]
    {
      publisher.FeedAnalytics(event);
      store.handlers := store.handlers[h := store.handlers[h].(stage := Fed)];
      store.Record(FeedIncident(h));
    }

    method NotifyIncidentEvent(k: Key, event: Event, cause: Option<nat>, ghost h: nat)
      requires publisher.store == store && store.Valid() && Busied(store.Value(), h, Fed)
      requires var x := store.handlers[h]; x.key == k && EventOf(x) == event && x.cause == cause
      modifies store`queue, store`log, store`told, store`handlers, store`worlds, store`acts
      ensures store.Valid() && store.acts == old(store.acts) + [NotifyIncident(h)]
      ensures store.handlers == old(store.handlers)[h := old(store.handlers[h]).(stage := Finished)]
    {
      publisher.NotifySubscribers(k.tenant, event, cause);
      store.handlers := store.handlers[h := store.handlers[h].(stage := Finished)];
      store.Record(NotifyIncident(h));
    }
  }

  /** The worker of the admin queue. */
  class AdminQueueProcessor {
    const store: AdminStore
    const publisher: AdminEventPublisher
    const healthService: AdminHealthService
    const incidentService: AdminIncidentService

    ghost predicate Wired()
      reads this
    {
      && publisher.store == store
      && healthService.store == store && healthService.publisher == publisher
      && incidentService.store == store && incidentService.publisher == publisher
    }

    constructor (store: AdminStore)
      ensures Wired() && this.store == store
    {
      var p := new AdminEventPublisher(store);
      var h := new AdminHealthService(store, p);
      var i := new AdminIncidentService(store, p);
      this.store, publisher, healthService, incidentService := store, p, h, i;
    }

    /** What a handled job has come to: a health job of a known tenant to a sweep of that tenant that is over, one
        without a tenant to nothing here; an incident job to a write that asks for what the job asks for, by a
        handler that is through; a webhook job to its dispatch. */
    ghost predicate Handled(a0: seq<Action>, at: nat, j: AdminJob, failedDeliveries: nat, id: nat, wrote: nat)
      reads this, store
    {
      match j
      case HealthJob(t) =>
        if t != "" then
          a0 + [HandleAt(at, 0)] <= store.acts
          && id < |store.sweeps| && store.sweeps[id].tenant == t && Over(store.sweeps[id])
        else store.acts == a0 + [HandleAt(at, 0)]
      case IncidentJob(k, resolve, severity) =>
        && a0 + [HandleAt(at, 0)] <= store.acts
        && id < |store.handlers| && store.handlers[id].stage == Finished
        && WroteAt(store.worlds, store.acts, wrote, id, k,
                   if resolve then None else if severity.Some? then severity else Some(MEDIUM))
      case WebhookJob(_, _) => store.acts == a0 + [HandleAt(at, failedDeliveries)]
    }

    /** Takes a waiting job and routes it. The first step of the run is the taking of the job; a health job goes
        on to sweep and an incident job to write and publish, with the steps of others in between. `id` is the new
        sweep or handler. */
    method HandleJobAt(at: nat, results: seq<HealthStatus>, failedDeliveries: nat, now: int)
        returns (ghost id: nat, ghost wrote: nat)
      requires Wired() && store.Valid() && at < |store.queue| && |results| == 4
      modifies store
      ensures store.Valid()
      ensures Handled(old(store.acts), at, old(store.queue[at]).job, failedDeliveries, id, wrote)
    {
      var taken := store.queue[at];
      store.queue := store.queue[..at] + store.queue[at + 1..];
      id, wrote := 0, 0;
      match taken.job {
        case HealthJob(t) =>
          id := HandleHealthJob(t, results, at, taken);
        case WebhookJob(t, _) =>
          DispatchFailures(t, failedDeliveries, taken.cause);
          store.Record(HandleAt(at, failedDeliveries));
        case IncidentJob(k, resolve, severity) =>
          if resolve {
            id, wrote := incidentService.ResolveIncidentByService(taken, now, at);
          } else {
            var asked := if severity.Some? then severity.value else MEDIUM;
            id, wrote := incidentService.OpenOrEscalateIncident(taken, asked, at);
          }
      }
    }

    method HandleHealthJob(t: string, results: seq<HealthStatus>, ghost at: nat, taken: Queued)
        returns (ghost id: nat)
      requires Wired() && |results| == 4 && taken.job == HealthJob(t)
      requires IsRun(store.worlds, store.acts) && store.worlds[0] == Init && store.sweepsBegun == |store.sweeps|
      requires var w := store.worlds[|store.acts|];
               at < |w.queue| && w.queue[at] == taken && store.Value() == w.(queue := RemoveAt(w.queue, at))
      modifies store
      ensures store.Valid() && old(store.acts) + [HandleAt(at, 0)] <= store.acts
      ensures if t != "" then id < |store.sweeps| && store.sweeps[id].tenant == t && Over(store.sweeps[id])
              else store.acts == old(store.acts) + [HandleAt(at, 0)]
    {
      id := 0;
      if t != "" {
        var begun := store.sweepsBegun;
        id := begun;
        store.sweepsBegun := begun + 1;
        store.sweeps := store.sweeps + [Sweep(t, 0, Ready, 0, 0)];
        store.Record(HandleAt(at, 0));
        ghost var saves := healthService.RunHealthSweep(t, results, begun);
      } else {
        store.Record(HandleAt(at, 0));
      }
    }

    /** The part of a dispatch this store sees: one failure event per delivery that failed. */
    method DispatchFailures(tenant: string, n: nat, cause: Option<nat>)
      requires Wired()
      modifies store`analytics, store`queue, store`log, store`told
      ensures store.Value() == PublishFailures(old(store.Value()), tenant, n, cause)
    {
      for i := 0 to n
        invariant store.Value() == PublishFailures(old(store.Value()), tenant, i, cause)
      {
        publisher.PublishEvent(tenant, WebhookFailed, cause);
      }
    }
  }
}
