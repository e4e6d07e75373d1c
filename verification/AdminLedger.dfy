/** Exact counts over runs of the admin world: what a sweep checks and tells, what a handler tells, and which
    events reach analytics and the webhooks. */
module AdminLedger {
  import opened Basics
  import opened AdminCascade
  import opened AdminIncidents
  import opened AdminWorld

  // ---- each service is checked once ----

  /** At step i this sweep saves this status for this service. */
  ghost predicate SavesAt(worlds: seq<World>, acts: seq<Action>, i: nat, id: nat, k: Key, status: HealthStatus) {
    && i < |acts| && i + 1 < |worlds| && acts[i] == SaveCheck(id)
    && worlds[i + 1].health == worlds[i].health[k := status]
    && Seen(worlds[i + 1], k) == Seen(worlds[i], k) + [status]
  }

  /** The statuses this sweep has added to those seen of a service, in the first n steps. */
  ghost function Saves(worlds: seq<World>, acts: seq<Action>, n: nat, id: nat, k: Key): int
    requires n <= |acts| < |worlds|
  {
    if n == 0 then 0
    else
      Saves(worlds, acts, n - 1, id, k)
      + if acts[n - 1] == SaveCheck(id) then |Seen(worlds[n], k)| - |Seen(worlds[n - 1], k)| else 0
  }

  /** Services saved by a sweep so far. */
  function Passed(s: Sweep): nat {
    s.next + match s.stage
      case Ready => 0
      case Checked(_, _) => 0
      case _ => 1
  }

  predicate AmongFirst(service: Service, n: nat) {
    exists j :: 0 <= j < n && j < |MONITORED| && MONITORED[j] == service
  }

  lemma AmongNext(service: Service, n: nat)
    requires n < |MONITORED|
    ensures AmongFirst(service, n + 1) <==> AmongFirst(service, n) || service == MONITORED[n]
    ensures !AmongFirst(MONITORED[n], n)
  {
    if service == MONITORED[n] {
      assert n < n + 1;
    }
  }

  lemma AmongAll(service: Service)
    ensures AmongFirst(service, |MONITORED|) <==> !service.Other?
  {
    assert MONITORED[0] == Database && MONITORED[1] == RedisServer;
    assert MONITORED[2] == ConnectorEngine && MONITORED[3] == WorkflowEngine;
  }

  /** The services before the one it is at are saved, and of the others none. */
  ghost predicate CheckedOnce(w: World, id: nat, k: Key, saves: int) {
    if id < |w.sweeps| then
      var s := w.sweeps[id];
      && Passed(s) <= |MONITORED| && (Over(s) ==> s.stage == Ready)
      && saves == if k.tenant == s.tenant && AmongFirst(k.service, Passed(s)) then 1 else 0
    else saves == 0
  }

  lemma SaveCounts(w: World, id: nat, k: Key, saves: int)
    requires Enabled(w, SaveCheck(id)) && CheckedOnce(w, id, k, saves)
    ensures var w' := SaveStep(w, id); CheckedOnce(w', id, k, saves + |Seen(w', k)| - |Seen(w, k)|)
  {
    AmongNext(k.service, w.sweeps[id].next);
  }

  lemma CountsElsewhere(w: World, a: Action, id: nat, k: Key, saves: int)
    requires Enabled(w, a) && a != SaveCheck(id) && CheckedOnce(w, id, k, saves)
    ensures CheckedOnce(Apply(w, a), id, k, saves)
  {
    if a.BeginSweep? || a.Enqueue? || a.HandleAt? || a.WriteIncident? || a.FeedIncident? || a.NotifyIncident? {
      SweepsFrame(w, a);
    }
  }

  /** The actions of others leave the sweeps under way as they are. */
  lemma SweepsFrame(w: World, a: Action)
    requires Enabled(w, a)
             && (a.BeginSweep? || a.Enqueue? || a.HandleAt? || a.WriteIncident? || a.FeedIncident? || a.NotifyIncident?)
    ensures var w' := Apply(w, a);
            && |w.sweeps| <= |w'.sweeps|
            && (forall i :: 0 <= i < |w.sweeps| ==> w'.sweeps[i] == w.sweeps[i])
            && (forall i :: |w.sweeps| <= i < |w'.sweeps| ==>
                 w'.sweeps[i].stage == Ready && w'.sweeps[i].next == w'.sweeps[i].reported == 0)
  {
    if a.HandleAt? {
      HandleFrame(w, a.at, a.failedDeliveries);
    }
  }

  lemma {:induction false} RunChecks(worlds: seq<World>, acts: seq<Action>, n: nat, id: nat, k: Key)
    requires IsRun(worlds, acts) && worlds[0] == Init && n <= |acts|
    ensures CheckedOnce(worlds[n], id, k, Saves(worlds, acts, n, id, k))
  {
    if n > 0 {
      RunChecks(worlds, acts, n - 1, id, k);
      assert StepAt(worlds, acts, n - 1);
      var saves := Saves(worlds, acts, n - 1, id, k);
      if acts[n - 1] == SaveCheck(id) {
        SaveCounts(worlds[n - 1], id, k, saves);
      } else {
        CountsElsewhere(worlds[n - 1], acts[n - 1], id, k, saves);
      }
    }
  }

  /** In every run, a sweep that is over has saved one status for each of the database, Redis, the connector engine
      and the workflow engine of its tenant, and none for anything else. */
  lemma EachServiceCheckedOnce(worlds: seq<World>, acts: seq<Action>, n: nat, id: nat, k: Key)
    requires IsRun(worlds, acts) && worlds[0] == Init && n <= |acts|
    requires id < |worlds[n].sweeps| && Over(worlds[n].sweeps[id])
    ensures Saves(worlds, acts, n, id, k)
         == if k.tenant == worlds[n].sweeps[id].tenant && !k.service.Other? then 1 else 0
  {
    RunChecks(worlds, acts, n, id, k);
    AmongAll(k.service);
  }

  // ---- what is told of changes and incidents ----

  /** How often a step was taken in the first n. */
  ghost function Times(acts: seq<Action>, n: nat, a: Action): nat
    requires n <= |acts|
  {
    if n == 0 then 0 else Times(acts, n - 1, a) + if acts[n - 1] == a then 1 else 0
  }

  /** Changes reported are told one after the other, by three steps each. */
  ghost predicate ToldSoFar(w: World, id: nat, announced: nat, notified: nat, queued: nat) {
    if id < |w.sweeps| then
      var s := w.sweeps[id];
      && (Over(s) ==> s.stage == Ready)
      && s.reported == announced + (if s.stage.Saved? then 1 else 0)
      && s.reported == notified + (if s.stage.Saved? || s.stage.Announced? then 1 else 0)
      && s.reported == queued + (if s.stage.Saved? || s.stage.Announced? || s.stage.Notified? then 1 else 0)
    else announced == notified == queued == 0
  }

  lemma TellingCounts(w: World, a: Action, id: nat, announced: nat, notified: nat, queued: nat)
    requires Enabled(w, a) && ToldSoFar(w, id, announced, notified, queued)
    ensures ToldSoFar(Apply(w, a), id, announced + (if a == Announce(id) then 1 else 0),
                      notified + (if a == Notify(id) then 1 else 0),
                      queued + (if a == QueueIncident(id) then 1 else 0))
  {
    if a.BeginSweep? || a.Enqueue? || a.HandleAt? || a.WriteIncident? || a.FeedIncident? || a.NotifyIncident? {
      SweepsFrame(w, a);
    }
  }

  lemma {:induction false} RunTelling(worlds: seq<World>, acts: seq<Action>, n: nat, id: nat)
    requires IsRun(worlds, acts) && worlds[0] == Init && n <= |acts|
    ensures ToldSoFar(worlds[n], id, Times(acts, n, Announce(id)), Times(acts, n, Notify(id)),
                      Times(acts, n, QueueIncident(id)))
  {
    if n > 0 {
      RunTelling(worlds, acts, n - 1, id);
      assert StepAt(worlds, acts, n - 1);
      TellingCounts(worlds[n - 1], acts[n - 1], id, Times(acts, n - 1, Announce(id)), Times(acts, n - 1, Notify(id)),
                    Times(acts, n - 1, QueueIncident(id)));
    }
  }

  /** In every run, a sweep between two services has, for each change it reported, announced it once, notified the
      webhooks once and queued one incident job. */
  lemma EveryChangeIsTold(worlds: seq<World>, acts: seq<Action>, n: nat, id: nat)
    requires IsRun(worlds, acts) && worlds[0] == Init && n <= |acts|
    requires id < |worlds[n].sweeps| && (worlds[n].sweeps[id].stage.Ready? || Over(worlds[n].sweeps[id]))
    ensures Times(acts, n, Announce(id)) == Times(acts, n, Notify(id)) == Times(acts, n, QueueIncident(id))
         == worlds[n].sweeps[id].reported
  {
    RunTelling(worlds, acts, n, id);
  }

  /** A handler has created an incident, or resolved one. */
  predicate Creates(x: Handler) {
    x.ask.Some? && x.found.None?
  }

  predicate Resolves(x: Handler) {
    x.ask.None? && x.found.Some?
  }

  ghost predicate HandledSoFar(w: World, h: nat, written: nat, fed: nat, told: nat) {
    if h < |w.handlers| then
      var x := w.handlers[h];
      var publishes := if Creates(x) || Resolves(x) then 1 else 0;
      match x.stage
      case Searched => written == fed == told == 0
      case Wrote => written == publishes == 1 && fed == told == 0
      case Fed => written == fed == publishes == 1 && told == 0
      case Finished => written == 1 && fed == told == publishes
    else written == fed == told == 0
  }

  lemma HandlerCounts(w: World, a: Action, h: nat, written: nat, fed: nat, told: nat)
    requires Enabled(w, a) && HandledSoFar(w, h, written, fed, told)
    ensures HandledSoFar(Apply(w, a), h, written + (if a == WriteIncident(h) then 1 else 0),
                         fed + (if a == FeedIncident(h) then 1 else 0),
                         told + (if a == NotifyIncident(h) then 1 else 0))
  {
    if a.HandleAt? {
      HandleFrame(w, a.at, a.failedDeliveries);
    }
  }

  lemma {:induction false} RunHandled(worlds: seq<World>, acts: seq<Action>, n: nat, h: nat)
    requires IsRun(worlds, acts) && worlds[0] == Init && n <= |acts|
    ensures HandledSoFar(worlds[n], h, Times(acts, n, WriteIncident(h)), Times(acts, n, FeedIncident(h)),
                         Times(acts, n, NotifyIncident(h)))
  {
    if n > 0 {
      RunHandled(worlds, acts, n - 1, h);
      assert StepAt(worlds, acts, n - 1);
      HandlerCounts(worlds[n - 1], acts[n - 1], h, Times(acts, n - 1, WriteIncident(h)),
                    Times(acts, n - 1, FeedIncident(h)), Times(acts, n - 1, NotifyIncident(h)));
    }
  }

  /** In every run, a handler that is through has written once, and told analytics and the webhooks once each if it
      created an incident or resolved one; an escalation, and nothing to resolve, are not told. */
  lemma EveryIncidentIsTold(worlds: seq<World>, acts: seq<Action>, n: nat, h: nat)
    requires IsRun(worlds, acts) && worlds[0] == Init && n <= |acts|
    requires h < |worlds[n].handlers| && worlds[n].handlers[h].stage == Finished
    ensures Times(acts, n, WriteIncident(h)) == 1
    ensures var x := worlds[n].handlers[h];
            Times(acts, n, FeedIncident(h)) == Times(acts, n, NotifyIncident(h))
            == if Creates(x) || Resolves(x) then 1 else 0
  {
    RunHandled(worlds, acts, n, h);
  }

  // ---- which jobs and events that makes ----

  /** Does this step announce this event to the tenant's webhooks? */
  predicate Notifies(w: World, a: Action, tenant: string, event: Event) {
    match a
    case Notify(id) => id < |w.sweeps| && w.sweeps[id].tenant == tenant && event == HealthChanged
    case NotifyIncident(h) => h < |w.handlers| && w.handlers[h].key.tenant == tenant && Earns(w.handlers[h], event)
    case _ => false
  }

  /** The event a handler's work is worth. */
  predicate Earns(x: Handler, event: Event) {
    (Creates(x) && event == IncidentCreated) || (Resolves(x) && event == IncidentResolved)
  }

  /** Webhook jobs of a tenant and an event. */
  function WebhookJobs(log: seq<Queued>, tenant: string, event: Event): nat {
    if log == [] then 0
    else
      WebhookJobs(log[..|log| - 1], tenant, event)
      + if log[|log| - 1].job == WebhookJob(tenant, event) then 1 else 0
  }

  lemma WebhookJobsPush(log: seq<Queued>, q: Queued, tenant: string, event: Event)
    ensures WebhookJobs(log + [q], tenant, event)
         == WebhookJobs(log, tenant, event) + if q.job == WebhookJob(tenant, event) then 1 else 0
  {
    assert (log + [q])[..|log|] == log;
  }

  /** Steps that should make such a job: notifications of a known tenant, and producers elsewhere. */
  ghost function Notifications(worlds: seq<World>, acts: seq<Action>, n: nat, tenant: string, event: Event): nat
    requires n <= |acts| < |worlds|
  {
    if n == 0 then 0
    else
      var a := acts[n - 1];
      Notifications(worlds, acts, n - 1, tenant, event)
      + if (tenant != "" && Notifies(worlds[n - 1], a, tenant, event)) || a == Enqueue(WebhookJob(tenant, event))
        then 1 else 0
  }

  /** Only handlers that created or resolved have something to tell. */
  ghost predicate TellersPublish(w: World) {
    forall h :: 0 <= h < |w.handlers| && (w.handlers[h].stage == Wrote || w.handlers[h].stage == Fed) ==>
      Creates(w.handlers[h]) || Resolves(w.handlers[h])
  }

  lemma RunTellers(worlds: seq<World>, acts: seq<Action>, n: nat)
    requires IsRun(worlds, acts) && worlds[0] == Init && n <= |acts|
    ensures TellersPublish(worlds[n])
  {
    var xs := worlds[n].handlers;
    forall h | 0 <= h < |xs| && (xs[h].stage == Wrote || xs[h].stage == Fed)
      ensures Creates(xs[h]) || Resolves(xs[h])
    {
      RunHandled(worlds, acts, n, h);
    }
  }

  lemma NotifiedJobs(w: World, t: string, e: Event, cause: Option<nat>, tenant: string, event: Event)
    requires e == HealthChanged || e == IncidentCreated || e == IncidentResolved
    ensures WebhookJobs(NotifyWebhooks(w, t, e, cause).log, tenant, event)
         == WebhookJobs(w.log, tenant, event) + if tenant != "" && t == tenant && e == event then 1 else 0
  {
    WebhookJobsPush(w.log, Queued(WebhookJob(t, e), cause), tenant, event);
  }

  lemma JobsStep(w: World, a: Action, tenant: string, event: Event)
    requires Enabled(w, a) && TellersPublish(w)
    ensures WebhookJobs(Apply(w, a).log, tenant, event)
         == WebhookJobs(w.log, tenant, event)
            + if (tenant != "" && Notifies(w, a, tenant, event)) || a == Enqueue(WebhookJob(tenant, event))
              then 1 else 0
  {
    match a
    case Notify(id) => NotifiedJobs(w, w.sweeps[id].tenant, HealthChanged, Some(id), tenant, event);
    case NotifyIncident(h) =>
      var x := w.handlers[h];
      NotifiedJobs(w, x.key.tenant, EventOf(x), x.cause, tenant, event);
    case QueueIncident(id) =>
      var s := w.sweeps[id];
      WebhookJobsPush(w.log, Queued(JobFor(At(s), s.stage.status), Some(id)), tenant, event);
    case Enqueue(j) => WebhookJobsPush(w.log, Queued(j, None), tenant, event);
    case HandleAt(at, n) => HandleFrame(w, at, n);
    case _ =>
  }

  /** In every run: a health change, a created incident and a resolved incident of a known tenant make one webhook
      job each that names the event, producers elsewhere make theirs, and there are no others; failed deliveries, an
      unknown tenant's events and escalations make none. */
  lemma {:induction false} WebhookJobsCounted(worlds: seq<World>, acts: seq<Action>, n: nat,
                                              tenant: string, event: Event)
    requires IsRun(worlds, acts) && worlds[0] == Init && n <= |acts|
    ensures WebhookJobs(worlds[n].log, tenant, event) == Notifications(worlds, acts, n, tenant, event)
  {
    if n > 0 {
      WebhookJobsCounted(worlds, acts, n - 1, tenant, event);
      assert StepAt(worlds, acts, n - 1);
      RunTellers(worlds, acts, n - 1);
      JobsStep(worlds[n - 1], acts[n - 1], tenant, event);
    }
  }

  /** How often analytics was told of an event. */
  function Occurrences(events: seq<Event>, event: Event): nat {
    if events == [] then 0
    else Occurrences(events[..|events| - 1], event) + if events[|events| - 1] == event then 1 else 0
  }

  lemma OccurrencesPush(events: seq<Event>, e: Event, event: Event)
    ensures Occurrences(events + [e], event) == Occurrences(events, event) + if e == event then 1 else 0
  {
    assert (events + [e])[..|events|] == events;
  }

  lemma {:induction false} FailuresFed(w: World, tenant: string, n: nat, cause: Option<nat>, event: Event)
    ensures Occurrences(PublishFailures(w, tenant, n, cause).analytics, event)
         == Occurrences(w.analytics, event) + if event == WebhookFailed then n else 0
  {
    if n > 0 {
      FailuresFed(w, tenant, n - 1, cause, event);
      OccurrencesPush(PublishFailures(w, tenant, n - 1, cause).analytics, WebhookFailed, event);
    }
  }

  /** How often this step should tell analytics of this event. */
  function Feeds(w: World, a: Action, event: Event): nat {
    match a
    case Announce(_) => if event == HealthChanged then 1 else 0
    case FeedIncident(h) =>
      if h < |w.handlers| && Earns(w.handlers[h], event) then 1 else 0
    case HandleAt(at, failed) =>
      if at < |w.queue| && w.queue[at].job.WebhookJob? && event == WebhookFailed then failed else 0
    case _ => 0
  }

  ghost function Feedings(worlds: seq<World>, acts: seq<Action>, n: nat, event: Event): nat
    requires n <= |acts| < |worlds|
  {
    if n == 0 then 0 else Feedings(worlds, acts, n - 1, event) + Feeds(worlds[n - 1], acts[n - 1], event)
  }

  lemma FeedsStep(w: World, a: Action, event: Event)
    requires Enabled(w, a) && TellersPublish(w)
    ensures Occurrences(Apply(w, a).analytics, event) == Occurrences(w.analytics, event) + Feeds(w, a, event)
  {
    match a
    case Announce(_) => OccurrencesPush(w.analytics, HealthChanged, event);
    case FeedIncident(h) => OccurrencesPush(w.analytics, EventOf(w.handlers[h]), event);
    case HandleAt(at, n) =>
      var q := w.queue[at];
      if q.job.WebhookJob? {
        FailuresFed(w.(queue := RemoveAt(w.queue, at)), q.job.tenant, n, q.cause, event);
      }
    case _ =>
  }

  /** In every run analytics has been told once of each announced change, each created and each resolved incident,
      and each failed delivery, whatever the tenant, and of nothing else. */
  lemma {:induction false} AnalyticsCounted(worlds: seq<World>, acts: seq<Action>, n: nat, event: Event)
    requires IsRun(worlds, acts) && worlds[0] == Init && n <= |acts|
    ensures Occurrences(worlds[n].analytics, event) == Feedings(worlds, acts, n, event)
  {
    if n > 0 {
      AnalyticsCounted(worlds, acts, n - 1, event);
      assert StepAt(worlds, acts, n - 1);
      RunTellers(worlds, acts, n - 1);
      FeedsStep(worlds[n - 1], acts[n - 1], event);
    }
  }

  // ---- what a sweep causes, exactly ----

  /** Is this a notification about an incident that a job of this sweep had asked for? */
  predicate TellsFor(w: World, a: Action, id: nat) {
    && a.NotifyIncident? && a.handler < |w.handlers|
    && w.handlers[a.handler].cause == Some(id) && w.handlers[a.handler].key.tenant != ""
  }

  /** A job made by this step because of the sweep. */
  predicate Causes(w: World, a: Action, id: nat) {
    || (a == Notify(id) && id < |w.sweeps| && w.sweeps[id].tenant != "")
    || a == QueueIncident(id)
    || TellsFor(w, a, id)
  }

  ghost function IncidentsTold(worlds: seq<World>, acts: seq<Action>, n: nat, id: nat): nat
    requires n <= |acts| < |worlds|
  {
    if n == 0 then 0
    else IncidentsTold(worlds, acts, n - 1, id) + if TellsFor(worlds[n - 1], acts[n - 1], id) then 1 else 0
  }

  lemma NotifiedCauses(w: World, tenant: string, e: Event, cause: Option<nat>, id: nat)
    requires e == HealthChanged || e == IncidentCreated || e == IncidentResolved
    ensures Caused(NotifyWebhooks(w, tenant, e, cause).log, id)
         == Caused(w.log, id) + if tenant != "" && cause == Some(id) then 1 else 0
  {
    CausedPush(w.log, Queued(WebhookJob(tenant, e), cause), id);
  }

  lemma QueueCauses(w: World, at: nat, id: nat)
    requires Enabled(w, QueueIncident(at))
    ensures Caused(QueueStep(w, at).log, id) == Caused(w.log, id) + if at == id then 1 else 0
  {
    CausedPush(w.log, Queued(JobFor(At(w.sweeps[at]), w.sweeps[at].stage.status), Some(at)), id);
  }

  lemma TellCauses(w: World, h: nat, id: nat)
    requires Enabled(w, NotifyIncident(h)) && TellersPublish(w)
    ensures Caused(TellStep(w, h).log, id)
         == Caused(w.log, id) + if TellsFor(w, NotifyIncident(h), id) then 1 else 0
  {
    var x := w.handlers[h];
    NotifiedCauses(w, x.key.tenant, EventOf(x), x.cause, id);
  }

  /** Only these steps add jobs. */
  lemma LogFrame(w: World, a: Action)
    requires Enabled(w, a) && !a.Notify? && !a.NotifyIncident? && !a.QueueIncident? && !a.Enqueue?
    ensures Apply(w, a).log == w.log
  {
    if a.HandleAt? {
      HandleFrame(w, a.at, a.failedDeliveries);
    }
  }

  lemma CausedStep(w: World, a: Action, id: nat)
    requires Enabled(w, a) && TellersPublish(w)
    ensures Caused(Apply(w, a).log, id) == Caused(w.log, id) + if Causes(w, a, id) then 1 else 0
  {
    match a
    case Notify(at) => NotifiedCauses(w, w.sweeps[at].tenant, HealthChanged, Some(at), id);
    case NotifyIncident(h) => TellCauses(w, h, id);
    case QueueIncident(at) => QueueCauses(w, at, id);
    case Enqueue(j) => CausedPush(w.log, Queued(j, None), id);
    case _ => LogFrame(w, a);
  }

  /** The tenant of a sweep does not change. */
  lemma {:induction false} SweepTenant(worlds: seq<World>, acts: seq<Action>, i: nat, n: nat, id: nat)
    requires IsRun(worlds, acts) && i <= n <= |acts| && id < |worlds[i].sweeps|
    ensures id < |worlds[n].sweeps| && worlds[n].sweeps[id].tenant == worlds[i].sweeps[id].tenant
    decreases n
  {
    if i < n {
      SweepTenant(worlds, acts, i, n - 1, id);
      assert StepAt(worlds, acts, n - 1);
      var w, a := worlds[n - 1], acts[n - 1];
      if a.BeginSweep? || a.Enqueue? || a.HandleAt? || a.WriteIncident? || a.FeedIncident? || a.NotifyIncident? {
        SweepsFrame(w, a);
      }
    }
  }

  lemma {:induction false} RunCaused(worlds: seq<World>, acts: seq<Action>, n: nat, m: nat, id: nat)
    requires IsRun(worlds, acts) && worlds[0] == Init && n <= m <= |acts|
    requires id < |worlds[m].sweeps| && worlds[m].sweeps[id].tenant != ""
    ensures Caused(worlds[n].log, id)
         == Times(acts, n, Notify(id)) + Times(acts, n, QueueIncident(id)) + IncidentsTold(worlds, acts, n, id)
  {
    if n > 0 {
      RunCaused(worlds, acts, n - 1, m, id);
      assert StepAt(worlds, acts, n - 1);
      RunTellers(worlds, acts, n - 1);
      CausedStep(worlds[n - 1], acts[n - 1], id);
      if acts[n - 1] == Notify(id) {
        SweepTenant(worlds, acts, n - 1, m, id);
      }
    }
  }

  /** In every run: a sweep of a known tenant, once it is between services or over, has caused two jobs for each change
      it reported, and one for each incident created or resolved on its account. */
  lemma SweepCausesExactly(worlds: seq<World>, acts: seq<Action>, n: nat, id: nat)
    requires IsRun(worlds, acts) && worlds[0] == Init && n <= |acts| && id < |worlds[n].sweeps|
    requires worlds[n].sweeps[id].tenant != "" && (worlds[n].sweeps[id].stage.Ready? || Over(worlds[n].sweeps[id]))
    ensures Caused(worlds[n].log, id) == 2 * worlds[n].sweeps[id].reported + IncidentsTold(worlds, acts, n, id)
  {
    RunCaused(worlds, acts, n, n, id);
    EveryChangeIsTold(worlds, acts, n, id);
  }

  // ---- what an incident job asks for ----

  /** A handler nobody comes between leaves at most one open incident of its service: none after a resolving job,
      otherwise one of the severity the job names, medium if it names none. */
  lemma UndisturbedJob(w: World, at: nat, k: Key, resolve: bool, severity: Option<Severity>)
    requires at < |w.queue| && w.queue[at].job == IncidentJob(k, resolve, severity) && OneOpen(w.incidents, k)
    ensures var w1, h := Apply(w, HandleAt(at, 0)), |w.handlers|;
            && Enabled(w1, WriteIncident(h))
            && var rows := Apply(w1, WriteIncident(h)).incidents;
               && OneOpen(rows, k)
               && OpenSeverity(rows, k)
                  == if resolve then None else if severity.Some? then severity else Some(MEDIUM)
  {
    HandleFrame(w, at, 0);
    UndisturbedSave(w.incidents, k, Ask(w.queue[at].job));
  }
}
