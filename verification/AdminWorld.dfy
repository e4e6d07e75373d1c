/** The admin pipeline: health sweeps enqueue incident jobs, incident jobs open, escalate and resolve
    incidents and publish events, events enqueue webhook jobs. The world is the tables, the admin queue and
    the sweeps and handlers under way; each action is what one of them does between two awaits. */
module AdminWorld {
  import opened Basics

  datatype HealthStatus = HEALTHY | DEGRADED | DOWN
  datatype Severity = LOW | MEDIUM | HIGH | CRITICAL
  datatype IncidentStatus = OPEN | INVESTIGATING | MONITORING | RESOLVED

  /** What incidents are reported on: the services a sweep checks, in the repository `database`, `redis`,
      `connector-engine` and `workflow-engine`, and whatever else producers name. */
  datatype Service = Database | RedisServer | ConnectorEngine | WorkflowEngine | Other(name: string)

  /** A service of a tenant. */
  datatype Key = Key(tenant: string, service: Service)

  /** In the order in which a sweep checks them. */
  const MONITORED: seq<Service> := [Database, RedisServer, ConnectorEngine, WorkflowEngine]

  predicate Monitored(k: Key) {
    !k.service.Other?
  }

  /** The events of the admin module. */
  datatype Event =
    | HealthChanged         // system.health.changed
    | IncidentCreated       // admin.incident.created
    | IncidentResolved      // admin.incident.resolved
    | DashboardUpdated      // admin.dashboard.updated
    | ApiKeyCreated         // admin.api_key.created
    | ApiKeyRevoked         // admin.api_key.revoked
    | OverrideCreated       // tenant.override.created
    | WebhookCreated        // admin.webhook.created
    | WebhookFailed         // admin.webhook.failed
    | OtherEvent(name: string)

  /** Events about the webhooks themselves are left out, lest a failing delivery cause another. */
  predicate WebhookEligible(e: Event) {
    !e.WebhookCreated? && !e.WebhookFailed? && !e.OtherEvent?
  }

  /** A row of the incidents table; its position in the table is its identity. */
  datatype Incident = Incident(key: Key, severity: Severity, status: IncidentStatus)

  datatype AdminJob =
    | HealthJob(tenant: string)
    | IncidentJob(key: Key, resolve: bool, severity: Option<Severity>)
    | WebhookJob(tenant: string, event: Event)

  /** A job with the sweep that caused it, directly or through other jobs; the cause is a history variable. */
  datatype Queued = Queued(job: AdminJob, cause: Option<nat>)

  /** Where a sweep is with its current service: not begun; probed, and the previous status read; the new
      status saved and a change noticed; analytics told; webhooks told. */
  datatype Stage =
    | Ready
    | Checked(before: Option<HealthStatus>, status: HealthStatus)
    | Saved(status: HealthStatus)
    | Announced(status: HealthStatus)
    | Notified(status: HealthStatus)

  /** A sweep over the monitored services; its position in the world is its identity. As history, `reported`
      counts the changes it noticed, and `savedAt` the statuses saved for its service up to its own save. */
  datatype Sweep = Sweep(tenant: string, next: nat, stage: Stage, reported: nat, savedAt: nat)

  /** A row as a handler found it: the row's place and the copy the handler works on. */
  datatype Found = Found(at: nat, row: Incident)

  /** The handler of an incident job has searched for an open incident; written the table and has an event to
      publish; told analytics; told the webhooks, or had nothing to publish. */
  datatype Progress = Searched | Wrote | Fed | Finished

  /** A worker at an incident job, which asks that the service have this open incident or none. */
  datatype Handler = Handler(key: Key, ask: Option<Severity>, cause: Option<nat>, found: Option<Found>, stage: Progress)

  /** The last five fields are history variables: the statuses saved for each service, oldest first; what
      the last queued incident job of each service, and the last one to be written to the table, ask for;
      every admin job ever added. */
  datatype World = World(
    health: map<Key, HealthStatus>,
    incidents: seq<Incident>,
    queue: seq<Queued>,
    analytics: seq<Event>,
    sweeps: seq<Sweep>,
    handlers: seq<Handler>,
    seen: map<Key, seq<HealthStatus>>,
    told: map<Key, Option<Severity>>,
    done: map<Key, Option<Severity>>,
    log: seq<Queued>)

  const Init: World := World(map[], [], [], [], [], [], map[], map[], map[], [])

  function Seen(w: World, k: Key): seq<HealthStatus> {
    if k in w.seen then w.seen[k] else []
  }

  /** The status in the table, which is the last one saved. */
  function Stored(w: World, k: Key): Option<HealthStatus> {
    if k in w.health then Some(w.health[k]) else None
  }

  /** What the last queued, and the last written, incident job of a service asks for. */
  function Told(w: World, k: Key): Option<Severity> {
    if k in w.told then w.told[k] else None
  }

  function Done(w: World, k: Key): Option<Severity> {
    if k in w.done then w.done[k] else None
  }

  // ---- publishing ----

  /** The open incident an incident job asks for. */
  function Ask(j: AdminJob): Option<Severity>
    requires j.IncidentJob?
  {
    if j.resolve then None else Some(if j.severity.Some? then j.severity.value else MEDIUM)
  }

  function Push(w: World, j: AdminJob, cause: Option<nat>): World {
    w.(queue := w.queue + [Queued(j, cause)],
       log := w.log + [Queued(j, cause)],
       told := if j.IncidentJob? then w.told[j.key := Ask(j)] else w.told)
  }

  /** The two halves of `publish`: every event feeds analytics; only eligible events of a known tenant reach
      the webhooks. */
  function Feed(w: World, event: Event): World {
    w.(analytics := w.analytics + [event])
  }

  function NotifyWebhooks(w: World, tenant: string, event: Event, cause: Option<nat>): World {
    if WebhookEligible(event) && tenant != "" then Push(w, WebhookJob(tenant, event), cause) else w
  }

  function Publish(w: World, tenant: string, event: Event, cause: Option<nat>): World {
    NotifyWebhooks(Feed(w, event), tenant, event, cause)
  }

  // ---- sweeping ----

  /** The open incident a status calls for. */
  function Calls(status: HealthStatus): Option<Severity> {
    match status
    case DOWN => Some(CRITICAL)
    case DEGRADED => Some(MEDIUM)
    case HEALTHY => None
  }

  /** The incident job for a new status. */
  function JobFor(k: Key, status: HealthStatus): (j: AdminJob)
    ensures j.IncidentJob? && j.key == k && Ask(j) == Calls(status)
  {
    match status
    case DOWN => IncidentJob(k, false, Some(CRITICAL))
    case DEGRADED => IncidentJob(k, false, Some(MEDIUM))
    case HEALTHY => IncidentJob(k, true, None)
  }

  predicate Over(s: Sweep) {
    s.next >= |MONITORED|
  }

  /** The service a sweep is at. */
  function At(s: Sweep): Key
    requires !Over(s)
  {
    Key(s.tenant, MONITORED[s.next])
  }

  /** Between reading the previous status of this service and being through with it. */
  predicate Busy(s: Sweep, k: Key) {
    !Over(s) && At(s) == k && !s.stage.Ready?
  }

  /** Between saving a change of this service and queueing its incident job. */
  predicate Telling(s: Sweep, k: Key) {
    Busy(s, k) && !s.stage.Checked?
  }

  predicate Live(w: World, id: nat) {
    id < |w.sweeps| && !Over(w.sweeps[id])
  }

  function Begin(w: World, tenant: string): World {
    w.(sweeps := w.sweeps + [Sweep(tenant, 0, Ready, 0, 0)])
  }

  /** The probe has answered `status` and the row of the service is read. */
  function CheckStep(w: World, id: nat, status: HealthStatus): World
    requires Live(w, id)
  {
    var s := w.sweeps[id];
    w.(sweeps := w.sweeps[id := s.(stage := Checked(Stored(w, At(s)), status))])
  }

  /** A change is a status other than the one read; the first observation of a service is none. */
  predicate Reports(s: Stage)
    requires s.Checked?
  {
    s.before.Some? && s.before.value != s.status
  }

  /** The row is written and the new status compared with the one read before. */
  function SaveStep(w: World, id: nat): World
    requires Live(w, id) && w.sweeps[id].stage.Checked?
  {
    var s := w.sweeps[id];
    var k, status := At(s), s.stage.status;
    w.(health := w.health[k := status],
       seen := w.seen[k := Seen(w, k) + [status]],
       sweeps := w.sweeps[id := if Reports(s.stage)
                                then s.(stage := Saved(status), reported := s.reported + 1, savedAt := |Seen(w, k)| + 1)
                                else s.(stage := Ready, next := s.next + 1)])
  }

  function AnnounceStep(w: World, id: nat): World
    requires Live(w, id) && w.sweeps[id].stage.Saved?
  {
    var s := w.sweeps[id];
    Feed(w, HealthChanged).(sweeps := w.sweeps[id := s.(stage := Announced(s.stage.status))])
  }

  function NotifyStep(w: World, id: nat): World
    requires Live(w, id) && w.sweeps[id].stage.Announced?
  {
    var s := w.sweeps[id];
    NotifyWebhooks(w, s.tenant, HealthChanged, Some(id))
      .(sweeps := w.sweeps[id := s.(stage := Notified(s.stage.status))])
  }

  function QueueStep(w: World, id: nat): World
    requires Live(w, id) && w.sweeps[id].stage.Notified?
  {
    var s := w.sweeps[id];
    Push(w, JobFor(At(s), s.stage.status), Some(id)).(sweeps := w.sweeps[id := s.(stage := Ready, next := s.next + 1)])
  }

  // ---- incidents ----

  predicate IsOpen(i: Incident, k: Key) {
    i.key == k && i.status != RESOLVED
  }

  /** The latest unresolved incident of a service: rows are in order of their start. */
  function FindOpen(rows: seq<Incident>, k: Key): (r: Option<nat>)
    ensures r.Some? ==> r.value < |rows| && IsOpen(rows[r.value], k)
    ensures r.Some? ==> forall i :: r.value < i < |rows| ==> !IsOpen(rows[i], k)
    ensures r.None? ==> forall i :: 0 <= i < |rows| ==> !IsOpen(rows[i], k)
  {
    if rows == [] then None
    else if IsOpen(rows[|rows| - 1], k) then Some(|rows| - 1)
    else FindOpen(rows[..|rows| - 1], k)
  }

  /** The severity of the open incident of a service, if there is one. */
  function OpenSeverity(rows: seq<Incident>, k: Key): Option<Severity> {
    var r := FindOpen(rows, k);
    if r.Some? then Some(rows[r.value].severity) else None
  }

  function Find(rows: seq<Incident>, k: Key): (r: Option<Found>)
    ensures r.Some? ==> r.value.at < |rows| && r.value.row == rows[r.value.at] && IsOpen(r.value.row, k)
  {
    var at := FindOpen(rows, k);
    if at.Some? then Some(Found(at.value, rows[at.value])) else None
  }

  /** A handler saves what it makes of the row it found: the whole row goes over the one in the table. */
  function SaveFound(rows: seq<Incident>, k: Key, ask: Option<Severity>, found: Option<Found>): seq<Incident> {
    if found.Some? then
      var row := if ask.Some? then found.value.row.(severity := ask.value) else found.value.row.(status := RESOLVED);
      if found.value.at < |rows| then rows[found.value.at := row] else rows
    else if ask.Some? then rows + [Incident(k, ask.value, OPEN)]
    else rows
  }

  // ---- handling jobs ----

  function PublishFailures(w: World, tenant: string, n: nat, cause: Option<nat>): World {
    if n == 0 then w else Publish(PublishFailures(w, tenant, n - 1, cause), tenant, WebhookFailed, cause)
  }

  /** Creating and resolving an incident publish an event, escalating one does not. */
  predicate Publishes(x: Handler) {
    x.ask.Some? != x.found.Some?
  }

  function EventOf(x: Handler): Event {
    if x.ask.Some? then IncidentCreated else IncidentResolved
  }

  predicate Busied(w: World, h: nat, stage: Progress) {
    h < |w.handlers| && w.handlers[h].stage == stage
  }

  function WriteStep(w: World, h: nat): World
    requires Busied(w, h, Searched)
  {
    var x := w.handlers[h];
    w.(incidents := SaveFound(w.incidents, x.key, x.ask, x.found),
       done := w.done[x.key := x.ask],
       handlers := w.handlers[h := x.(stage := if Publishes(x) then Wrote else Finished)])
  }

  function FeedStep(w: World, h: nat): World
    requires Busied(w, h, Wrote)
  {
    var x := w.handlers[h];
    Feed(w, EventOf(x)).(handlers := w.handlers[h := x.(stage := Fed)])
  }

  function TellStep(w: World, h: nat): World
    requires Busied(w, h, Fed)
  {
    var x := w.handlers[h];
    NotifyWebhooks(w, x.key.tenant, EventOf(x), x.cause).(handlers := w.handlers[h := x.(stage := Finished)])
  }

  /** The worker's `handleJob` up to its first await, after the job was taken off the queue. A health job begins
      a sweep; the handler of an incident job has searched the table; how many deliveries of a webhook job
      fail is up to the environment. */
  function HandleJob(w: World, q: Queued, failedDeliveries: nat): World {
    match q.job
    case HealthJob(t) => if t != "" then Begin(w, t) else w
    case IncidentJob(k, _, _) =>
      w.(handlers := w.handlers + [Handler(k, Ask(q.job), q.cause, Find(w.incidents, k), Searched)])
    case WebhookJob(t, _) => PublishFailures(w, t, failedDeliveries, q.cause)
  }

  function RemoveAt(q: seq<Queued>, at: nat): seq<Queued>
    requires at < |q|
  {
    q[..at] + q[at + 1..]
  }

  datatype Action =
    | BeginSweep(tenant: string)                     // from the admin API
    | CheckService(id: nat, status: HealthStatus)
    | SaveCheck(id: nat)
    | Announce(id: nat)
    | Notify(id: nat)
    | QueueIncident(id: nat)
    | Enqueue(job: AdminJob)                         // a producer elsewhere in the system
    | HandleAt(at: nat, failedDeliveries: nat)       // a worker, with any waiting job
    | WriteIncident(handler: nat)
    | FeedIncident(handler: nat)
    | NotifyIncident(handler: nat)

  /** Other producers report on services of their own names. */
  predicate Enabled(w: World, a: Action) {
    match a
    case BeginSweep(_) => true
    case CheckService(id, _) => Live(w, id) && w.sweeps[id].stage.Ready?
    case SaveCheck(id) => Live(w, id) && w.sweeps[id].stage.Checked?
    case Announce(id) => Live(w, id) && w.sweeps[id].stage.Saved?
    case Notify(id) => Live(w, id) && w.sweeps[id].stage.Announced?
    case QueueIncident(id) => Live(w, id) && w.sweeps[id].stage.Notified?
    case Enqueue(j) => j.IncidentJob? ==> !Monitored(j.key)
    case HandleAt(at, _) => at < |w.queue|
    case WriteIncident(h) => Busied(w, h, Searched)
    case FeedIncident(h) => Busied(w, h, Wrote)
    case NotifyIncident(h) => Busied(w, h, Fed)
  }

  function Apply(w: World, a: Action): World
    requires Enabled(w, a)
  {
    match a
    case BeginSweep(t) => Begin(w, t)
    case CheckService(id, status) => CheckStep(w, id, status)
    case SaveCheck(id) => SaveStep(w, id)
    case Announce(id) => AnnounceStep(w, id)
    case Notify(id) => NotifyStep(w, id)
    case QueueIncident(id) => QueueStep(w, id)
    case Enqueue(j) => Push(w, j, None)
    case HandleAt(at, n) => HandleJob(w.(queue := RemoveAt(w.queue, at)), w.queue[at], n)
    case WriteIncident(h) => WriteStep(w, h)
    case FeedIncident(h) => FeedStep(w, h)
    case NotifyIncident(h) => TellStep(w, h)
  }

  /** What one step does. */
  ghost predicate StepAt(worlds: seq<World>, acts: seq<Action>, i: nat)
    requires |worlds| == |acts| + 1 && i < |acts|
  {
    Enabled(worlds[i], acts[i]) && worlds[i + 1] == Apply(worlds[i], acts[i])
  }

  ghost predicate IsRun(worlds: seq<World>, acts: seq<Action>) {
    |worlds| == |acts| + 1 && forall i :: 0 <= i < |acts| ==> StepAt(worlds, acts, i)
  }

  lemma {:induction false} FailuresEnqueueNothing(w: World, tenant: string, n: nat, cause: Option<nat>)
    ensures var w' := PublishFailures(w, tenant, n, cause);
            w' == w.(analytics := w'.analytics) && |w'.analytics| == |w.analytics| + n
  {
    if n > 0 {
      FailuresEnqueueNothing(w, tenant, n - 1, cause);
    }
  }

  /** What begins when a job is taken. */
  function NewSweeps(q: Queued): seq<Sweep> {
    if q.job.HealthJob? && q.job.tenant != "" then [Sweep(q.job.tenant, 0, Ready, 0, 0)] else []
  }

  function NewHandlers(w: World, q: Queued): seq<Handler> {
    if q.job.IncidentJob? then [Handler(q.job.key, Ask(q.job), q.cause, Find(w.incidents, q.job.key), Searched)] else []
  }

  /** Taking a job leaves everything alone but the queue, analytics, and new sweeps and handlers. */
  lemma HandleFrame(w: World, at: nat, n: nat)
    requires at < |w.queue|
    ensures var w', q := Apply(w, HandleAt(at, n)), w.queue[at];
            w' == w.(queue := RemoveAt(w.queue, at), analytics := w'.analytics,
                     sweeps := w.sweeps + NewSweeps(q), handlers := w.handlers + NewHandlers(w, q))
  {
    var q := w.queue[at];
    assert w.sweeps + [] == w.sweeps && w.handlers + [] == w.handlers;
    if q.job.WebhookJob? {
      FailuresEnqueueNothing(w.(queue := RemoveAt(w.queue, at)), q.job.tenant, n, q.cause);
    }
  }

  // ---- the queue ----

  predicate IsFor(q: Queued, k: Key) {
    q.job.IncidentJob? && q.job.key == k
  }

  /** No incident job for this service is waiting. */
  ghost predicate Drained(q: seq<Queued>, k: Key) {
    forall i :: 0 <= i < |q| ==> !IsFor(q[i], k)
  }

  /** What the last waiting incident job of a service asks for. */
  function LastAsk(q: seq<Queued>, k: Key): Option<Option<Severity>> {
    if q == [] then None
    else if IsFor(q[|q| - 1], k) then Some(Ask(q[|q| - 1].job))
    else LastAsk(q[..|q| - 1], k)
  }

  lemma {:induction false} LastAskDrained(q: seq<Queued>, k: Key)
    ensures LastAsk(q, k).None? <==> Drained(q, k)
  {
    if q != [] {
      LastAskDrained(q[..|q| - 1], k);
    }
  }

  lemma {:induction false} LastAskConcat(p: seq<Queued>, q: seq<Queued>, k: Key)
    ensures LastAsk(p + q, k) == if LastAsk(q, k).Some? then LastAsk(q, k) else LastAsk(p, k)
  {
    if q == [] {
      assert p + q == p;
    } else {
      assert (p + q)[..|p + q| - 1] == p + q[..|q| - 1];
      LastAskConcat(p, q[..|q| - 1], k);
    }
  }

  lemma LastAskPush(q: seq<Queued>, j: Queued, k: Key)
    ensures LastAsk(q + [j], k) == if IsFor(j, k) then Some(Ask(j.job)) else LastAsk(q, k)
  {
    assert (q + [j])[..|q|] == q;
  }

  /** Taking a job of another service, or the first of several, leaves the last one where it is. */
  lemma LastAskRemove(q: seq<Queued>, at: nat, k: Key)
    requires at < |q| && (IsFor(q[at], k) ==> Drained(q[..at], k))
    ensures var left := LastAsk(RemoveAt(q, at), k);
            if IsFor(q[at], k) && left.None? then LastAsk(q, k) == Some(Ask(q[at].job)) else left == LastAsk(q, k)
  {
    var rest := q[at + 1..];
    assert q == (q[..at] + [q[at]]) + rest;
    LastAskConcat(q[..at], rest, k);
    LastAskConcat(q[..at] + [q[at]], rest, k);
    LastAskPush(q[..at], q[at], k);
    LastAskDrained(q[..at], k);
  }
}
