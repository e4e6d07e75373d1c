/** The cascade from sweeps to incident jobs to events to webhook jobs: it ends, and one sweep causes at most
    twelve admin jobs. */
module AdminCascade {
  import opened Basics
  import opened AdminWorld

  // ---- the cascade ends ----

  /** A bound on the steps a job can still cause, its own handling included: a sweep takes at most eleven for
      each of the four services. */
  function Weight(j: AdminJob): nat {
    match j
    case WebhookJob(_, _) => 1
    case IncidentJob(_, _, _) => 5
    case HealthJob(_) => 45
  }

  function Load(q: seq<Queued>): nat {
    if q == [] then 0 else Load(q[..|q| - 1]) + Weight(q[|q| - 1].job)
  }

  lemma LoadPush(q: seq<Queued>, j: Queued)
    ensures Load(q + [j]) == Load(q) + Weight(j.job)
  {
    assert (q + [j])[..|q|] == q;
  }

  lemma {:induction false} LoadRemove(q: seq<Queued>, at: nat)
    requires at < |q|
    ensures Load(q) == Load(RemoveAt(q, at)) + Weight(q[at].job)
  {
    var n, left := |q| - 1, RemoveAt(q, at);
    if at == n {
      assert left == q[..n];
    } else {
      LoadRemove(q[..n], at);
      assert left[..n - 1] == RemoveAt(q[..n], at) && left[n - 1] == q[n];
    }
  }

  /** The same for a sweep: the steps left at its service and eleven for each service to come. */
  function Left(s: Sweep): nat {
    if Over(s) then 0
    else 11 * (|MONITORED| - s.next) - match s.stage
      case Ready => 0
      case Checked(_, _) => 1
      case Saved(_) => 2
      case Announced(_) => 3
      case Notified(_) => 5
  }

  function AllLeft(sweeps: seq<Sweep>): nat {
    if sweeps == [] then 0 else AllLeft(sweeps[..|sweeps| - 1]) + Left(sweeps[|sweeps| - 1])
  }

  lemma {:induction false} AllLeftMove(sweeps: seq<Sweep>, id: nat, s: Sweep)
    requires id < |sweeps|
    ensures AllLeft(sweeps[id := s]) == AllLeft(sweeps) - Left(sweeps[id]) + Left(s)
  {
    var n := |sweeps| - 1;
    if id == n {
      assert sweeps[id := s][..n] == sweeps[..n];
    } else {
      assert sweeps[id := s][..n] == sweeps[..n][id := s];
      AllLeftMove(sweeps[..n], id, s);
    }
  }

  lemma AllLeftBegin(sweeps: seq<Sweep>, s: Sweep)
    ensures AllLeft(sweeps + [s]) == AllLeft(sweeps) + Left(s)
  {
    assert (sweeps + [s])[..|sweeps|] == sweeps;
  }

  /** And for a handler. */
  function ToDo(x: Handler): nat {
    match x.stage
    case Searched => 4
    case Wrote => 3
    case Fed => 2
    case Finished => 0
  }

  function AllToDo(handlers: seq<Handler>): nat {
    if handlers == [] then 0 else AllToDo(handlers[..|handlers| - 1]) + ToDo(handlers[|handlers| - 1])
  }

  lemma {:induction false} AllToDoMove(handlers: seq<Handler>, h: nat, x: Handler)
    requires h < |handlers|
    ensures AllToDo(handlers[h := x]) == AllToDo(handlers) - ToDo(handlers[h]) + ToDo(x)
  {
    var n := |handlers| - 1;
    if h == n {
      assert handlers[h := x][..n] == handlers[..n];
    } else {
      assert handlers[h := x][..n] == handlers[..n][h := x];
      AllToDoMove(handlers[..n], h, x);
    }
  }

  lemma AllToDoBegin(handlers: seq<Handler>, x: Handler)
    ensures AllToDo(handlers + [x]) == AllToDo(handlers) + ToDo(x)
  {
    assert (handlers + [x])[..|handlers|] == handlers;
  }

  function Potential(w: World): nat {
    Load(w.queue) + AllLeft(w.sweeps) + AllToDo(w.handlers)
  }

  /** Nothing waits and no sweep or handler is under way. */
  ghost predicate Quiet(w: World) {
    && w.queue == [] && (forall i :: 0 <= i < |w.sweeps| ==> Over(w.sweeps[i]))
    && forall h :: 0 <= h < |w.handlers| ==> w.handlers[h].stage == Finished
  }

  /** New work comes from outside. */
  predicate Outside(a: Action) {
    a.BeginSweep? || a.Enqueue?
  }

  lemma HandleLowers(w: World, at: nat, n: nat)
    requires at < |w.queue|
    ensures Potential(Apply(w, HandleAt(at, n))) < Potential(w)
  {
    var q := w.queue[at];
    HandleFrame(w, at, n);
    LoadRemove(w.queue, at);
    match q.job
    case HealthJob(t) => AllLeftBegin(w.sweeps, Sweep(t, 0, Ready, 0, 0));
    case IncidentJob(k, _, _) =>
      AllToDoBegin(w.handlers, Handler(k, Ask(q.job), q.cause, Find(w.incidents, k), Searched));
    case WebhookJob(_, _) => assert w.sweeps + [] == w.sweeps && w.handlers + [] == w.handlers;
  }

  lemma SweepLowers(w: World, id: nat, w': World)
    requires id < |w.sweeps| == |w'.sweeps| && w'.sweeps == w.sweeps[id := w'.sweeps[id]] && w'.handlers == w.handlers
    requires Load(w'.queue) + Left(w'.sweeps[id]) < Load(w.queue) + Left(w.sweeps[id])
    ensures Potential(w') < Potential(w)
  {
    AllLeftMove(w.sweeps, id, w'.sweeps[id]);
  }

  lemma HandlerLowers(w: World, h: nat, w': World)
    requires h < |w.handlers| == |w'.handlers| && w'.handlers == w.handlers[h := w'.handlers[h]]
             && w'.sweeps == w.sweeps
    requires Load(w'.queue) + ToDo(w'.handlers[h]) < Load(w.queue) + ToDo(w.handlers[h])
    ensures Potential(w') < Potential(w)
  {
    AllToDoMove(w.handlers, h, w'.handlers[h]);
  }

  lemma NotifyLoad(w: World, tenant: string, event: Event, cause: Option<nat>)
    ensures Load(NotifyWebhooks(w, tenant, event, cause).queue) <= Load(w.queue) + 1
  {
    LoadPush(w.queue, Queued(WebhookJob(tenant, event), cause));
  }

  lemma NotifyLowers(w: World, id: nat)
    requires Enabled(w, Notify(id))
    ensures Potential(NotifyStep(w, id)) < Potential(w)
  {
    NotifyLoad(w, w.sweeps[id].tenant, HealthChanged, Some(id));
    SweepLowers(w, id, NotifyStep(w, id));
  }

  lemma QueueLowers(w: World, id: nat)
    requires Enabled(w, QueueIncident(id))
    ensures Potential(QueueStep(w, id)) < Potential(w)
  {
    LoadPush(w.queue, Queued(JobFor(At(w.sweeps[id]), w.sweeps[id].stage.status), Some(id)));
    SweepLowers(w, id, QueueStep(w, id));
  }

  lemma TellLowers(w: World, h: nat)
    requires Enabled(w, NotifyIncident(h))
    ensures Potential(TellStep(w, h)) < Potential(w)
  {
    var x := w.handlers[h];
    NotifyLoad(w, x.key.tenant, EventOf(x), x.cause);
    HandlerLowers(w, h, TellStep(w, h));
  }

  /** Whatever the environment chooses, every step that is not new work from outside lowers the potential. */
  lemma StepLowers(w: World, a: Action)
    requires Enabled(w, a) && !Outside(a)
    ensures Potential(Apply(w, a)) < Potential(w)
  {
    match a
    case HandleAt(at, n) => HandleLowers(w, at, n);
    case CheckService(id, _) => SweepLowers(w, id, Apply(w, a));
    case SaveCheck(id) => SweepLowers(w, id, Apply(w, a));
    case Announce(id) => SweepLowers(w, id, Apply(w, a));
    case Notify(id) => NotifyLowers(w, id);
    case QueueIncident(id) => QueueLowers(w, id);
    case WriteIncident(h) => HandlerLowers(w, h, Apply(w, a));
    case FeedIncident(h) => HandlerLowers(w, h, Apply(w, a));
    case NotifyIncident(h) => TellLowers(w, h);
    case _ =>
  }

  /** Without new work from outside a cascade ends, in at most as many steps as its first potential. */
  lemma {:induction false} CascadeEnds(worlds: seq<World>, acts: seq<Action>, i: nat)
    requires IsRun(worlds, acts) && i < |worlds|
    requires forall j :: 0 <= j < |acts| ==> !Outside(acts[j])
    ensures i + Potential(worlds[i]) <= Potential(worlds[0])
  {
    if i > 0 {
      CascadeEnds(worlds, acts, i - 1);
      assert StepAt(worlds, acts, i - 1);
      StepLowers(worlds[i - 1], acts[i - 1]);
    }
  }

  /** A cascade that can go on does so by its own steps: one is enabled if and only if the world is not quiet. */
  lemma QuietIff(w: World)
    ensures Quiet(w) <==> forall a :: Enabled(w, a) ==> Outside(a)
  {
    if Quiet(w) {
      forall a | Enabled(w, a) ensures Outside(a) {}
    } else if w.queue != [] {
      assert Enabled(w, HandleAt(0, 0)) && !Outside(HandleAt(0, 0));
    } else if h :| 0 <= h < |w.handlers| && w.handlers[h].stage != Finished {
      var stage := w.handlers[h].stage;
      var a := if stage == Searched then WriteIncident(h)
               else if stage == Wrote then FeedIncident(h)
               else NotifyIncident(h);
      assert Enabled(w, a) && !Outside(a);
    } else {
      var id :| 0 <= id < |w.sweeps| && !Over(w.sweeps[id]);
      var a := match w.sweeps[id].stage
        case Ready => CheckService(id, HEALTHY)
        case Checked(_, _) => SaveCheck(id)
        case Saved(_) => Announce(id)
        case Announced(_) => Notify(id)
        case Notified(_) => QueueIncident(id);
      assert Enabled(w, a) && !Outside(a);
    }
  }

  // ---- what one sweep causes ----

  /** Jobs caused by a sweep: all of them; the incident jobs among them that wait, and the handlers at work on
      such jobs, each of which may cause one more. */
  function Caused(q: seq<Queued>, id: nat): nat {
    if q == [] then 0 else Caused(q[..|q| - 1], id) + if q[|q| - 1].cause == Some(id) then 1 else 0
  }

  function MayCause(q: seq<Queued>, id: nat): nat {
    if q == [] then 0
    else MayCause(q[..|q| - 1], id) + if q[|q| - 1].cause == Some(id) && q[|q| - 1].job.IncidentJob? then 1 else 0
  }

  lemma CausedPush(q: seq<Queued>, j: Queued, id: nat)
    ensures Caused(q + [j], id) == Caused(q, id) + if j.cause == Some(id) then 1 else 0
    ensures MayCause(q + [j], id) == MayCause(q, id) + if j.cause == Some(id) && j.job.IncidentJob? then 1 else 0
  {
    assert (q + [j])[..|q|] == q;
  }

  lemma {:induction false} MayCauseRemove(q: seq<Queued>, at: nat, id: nat)
    requires at < |q|
    ensures MayCause(q, id)
         == MayCause(RemoveAt(q, at), id) + if q[at].cause == Some(id) && q[at].job.IncidentJob? then 1 else 0
  {
    var n, left := |q| - 1, RemoveAt(q, at);
    if at == n {
      assert left == q[..n];
    } else {
      MayCauseRemove(q[..n], at, id);
      assert left[..n - 1] == RemoveAt(q[..n], at) && left[n - 1] == q[n];
    }
  }

  function AtWork(handlers: seq<Handler>, id: nat): nat {
    if handlers == [] then 0
    else
      var x := handlers[|handlers| - 1];
      AtWork(handlers[..|handlers| - 1], id) + if x.cause == Some(id) && x.stage != Finished then 1 else 0
  }

  lemma {:induction false} AtWorkMove(handlers: seq<Handler>, h: nat, x: Handler, id: nat)
    requires h < |handlers| && x.cause == handlers[h].cause
    ensures AtWork(handlers[h := x], id) == AtWork(handlers, id)
              - (if x.cause == Some(id) && handlers[h].stage != Finished then 1 else 0)
              + if x.cause == Some(id) && x.stage != Finished then 1 else 0
  {
    var n := |handlers| - 1;
    if h == n {
      assert handlers[h := x][..n] == handlers[..n];
    } else {
      assert handlers[h := x][..n] == handlers[..n][h := x];
      AtWorkMove(handlers[..n], h, x, id);
    }
  }

  lemma AtWorkBegin(handlers: seq<Handler>, x: Handler, id: nat)
    ensures AtWork(handlers + [x], id)
         == AtWork(handlers, id) + if x.cause == Some(id) && x.stage != Finished then 1 else 0
  {
    assert (handlers + [x])[..|handlers|] == handlers;
  }

  /** All jobs a sweep has caused and those its waiting and handled incident jobs may still cause. */
  function Account(w: World, id: nat): nat {
    Caused(w.log, id) + MayCause(w.queue, id) + AtWork(w.handlers, id)
  }

  /** The jobs a sweep's reported change has still to cause. */
  function ToCome(s: Sweep): nat {
    match s.stage
    case Saved(_) => 3
    case Announced(_) => 3
    case Notified(_) => 2
    case _ => 0
  }

  /** How far a sweep has come: a change reported for each service passed, at most, and one under way. */
  predicate Reported(s: Sweep) {
    && s.reported <= s.next + (if ToCome(s) > 0 then 1 else 0) && s.next <= |MONITORED|
    && (Over(s) ==> s.stage == Ready)
  }

  /** At most three jobs for each reported change: a webhook job, an incident job and one caused by that. */
  ghost predicate WithinThree(w: World, id: nat) {
    if id < |w.sweeps| then Account(w, id) + ToCome(w.sweeps[id]) <= 3 * w.sweeps[id].reported && Reported(w.sweeps[id])
    else Account(w, id) == 0
  }

  lemma HandleAccount(w: World, at: nat, n: nat, id: nat)
    requires at < |w.queue|
    ensures Account(Apply(w, HandleAt(at, n)), id) == Account(w, id)
  {
    var q := w.queue[at];
    HandleFrame(w, at, n);
    MayCauseRemove(w.queue, at, id);
    if q.job.IncidentJob? {
      AtWorkBegin(w.handlers, Handler(q.job.key, Ask(q.job), q.cause, Find(w.incidents, q.job.key), Searched), id);
    } else {
      assert w.handlers + [] == w.handlers;
    }
  }

  lemma PushAccount(w: World, j: AdminJob, cause: Option<nat>, id: nat)
    ensures Account(Push(w, j, cause), id)
         == Account(w, id) + if cause != Some(id) then 0 else if j.IncidentJob? then 2 else 1
  {
    CausedPush(w.log, Queued(j, cause), id);
    CausedPush(w.queue, Queued(j, cause), id);
  }

  lemma NotifyAccount(w: World, tenant: string, event: Event, cause: Option<nat>, id: nat)
    ensures Account(NotifyWebhooks(w, tenant, event, cause), id) <= Account(w, id) + if cause == Some(id) then 1 else 0
    ensures NotifyWebhooks(w, tenant, event, cause).sweeps == w.sweeps
    ensures NotifyWebhooks(w, tenant, event, cause).handlers == w.handlers
  {
    PushAccount(w, WebhookJob(tenant, event), cause, id);
  }

  /** A handler that moves on accounts for no more jobs than before. */
  lemma HandlerAccount(w: World, w1: World, h: nat, x: Handler, id: nat)
    requires h < |w.handlers| && w1.handlers == w.handlers && x.cause == w.handlers[h].cause
             && w.handlers[h].stage != Finished
    requires Caused(w1.log, id) + MayCause(w1.queue, id)
          <= Caused(w.log, id) + MayCause(w.queue, id) + if x.cause == Some(id) && x.stage == Finished then 1 else 0
    ensures Account(w1.(handlers := w.handlers[h := x]), id) <= Account(w, id)
  {
    AtWorkMove(w.handlers, h, x, id);
  }

  lemma MoveAccount(w: World, a: Action, id: nat)
    requires Enabled(w, a) && (a.WriteIncident? || a.FeedIncident?)
    ensures Account(Apply(w, a), id) <= Account(w, id)
  {
    var w', h := Apply(w, a), a.handler;
    HandlerAccount(w, w'.(handlers := w.handlers), h, w'.handlers[h], id);
  }

  lemma TellAccount(w: World, h: nat, id: nat)
    requires Enabled(w, NotifyIncident(h))
    ensures Account(TellStep(w, h), id) <= Account(w, id)
  {
    var x := w.handlers[h];
    NotifyAccount(w, x.key.tenant, EventOf(x), x.cause, id);
    HandlerAccount(w, NotifyWebhooks(w, x.key.tenant, EventOf(x), x.cause), h, x.(stage := Finished), id);
  }

  /** The sweeps stay as they are, but for new ones, and account for no more than before. */
  lemma ThreeElse(w: World, w': World, id: nat)
    requires WithinThree(w, id) && Account(w', id) <= Account(w, id)
    requires |w.sweeps| <= |w'.sweeps|
    requires forall i :: 0 <= i < |w.sweeps| ==> w'.sweeps[i] == w.sweeps[i]
    requires forall i :: |w.sweeps| <= i < |w'.sweeps| ==>
               w'.sweeps[i].stage == Ready && w'.sweeps[i].next == w'.sweeps[i].reported == 0
    ensures WithinThree(w', id)
  {
  }

  /** One sweep moves on. */
  lemma ThreeMove(w: World, at: nat, w': World, id: nat)
    requires at < |w.sweeps| == |w'.sweeps| && w'.sweeps == w.sweeps[at := w'.sweeps[at]] && WithinThree(w, id)
    requires at != id ==> Account(w', id) <= Account(w, id)
    requires at == id ==>
               && Account(w', id) + ToCome(w'.sweeps[id]) - 3 * w'.sweeps[id].reported
                  <= Account(w, id) + ToCome(w.sweeps[id]) - 3 * w.sweeps[id].reported
               && Reported(w'.sweeps[id])
    ensures WithinThree(w', id)
  {
  }

  lemma ThreeNotified(w: World, w1: World, at: nat, id: nat)
    requires Live(w, at) && w.sweeps[at].stage.Announced? && WithinThree(w, id) && w1.sweeps == w.sweeps
    requires Account(w1, id) <= Account(w, id) + if at == id then 1 else 0
    ensures WithinThree(w1.(sweeps := w.sweeps[at := w.sweeps[at].(stage := Notified(w.sweeps[at].stage.status))]), id)
  {
    var w' := w1.(sweeps := w.sweeps[at := w.sweeps[at].(stage := Notified(w.sweeps[at].stage.status))]);
    assert Account(w', id) == Account(w1, id);
    ThreeMove(w, at, w', id);
  }

  lemma ThreeNotify(w: World, at: nat, id: nat)
    requires Enabled(w, Notify(at)) && WithinThree(w, id)
    ensures WithinThree(NotifyStep(w, at), id)
  {
    NotifyAccount(w, w.sweeps[at].tenant, HealthChanged, Some(at), id);
    ThreeNotified(w, NotifyWebhooks(w, w.sweeps[at].tenant, HealthChanged, Some(at)), at, id);
  }

  lemma ThreeQueue(w: World, at: nat, id: nat)
    requires Enabled(w, QueueIncident(at)) && WithinThree(w, id)
    ensures WithinThree(QueueStep(w, at), id)
  {
    PushAccount(w, JobFor(At(w.sweeps[at]), w.sweeps[at].stage.status), Some(at), id);
    ThreeMove(w, at, QueueStep(w, at), id);
  }

  lemma ThreeSweep(w: World, a: Action, id: nat)
    requires Enabled(w, a) && WithinThree(w, id) && (a.CheckService? || a.SaveCheck? || a.Announce?)
    ensures WithinThree(Apply(w, a), id)
  {
    assert Account(Apply(w, a), id) == Account(w, id);
    ThreeMove(w, a.id, Apply(w, a), id);
  }

  lemma ThreeStep(w: World, a: Action, id: nat)
    requires Enabled(w, a) && WithinThree(w, id)
    ensures WithinThree(Apply(w, a), id)
  {
    match a
    case BeginSweep(_) => ThreeElse(w, Apply(w, a), id);
    case HandleAt(at, n) =>
      HandleAccount(w, at, n, id);
      HandleFrame(w, at, n);
      ThreeElse(w, Apply(w, a), id);
    case Enqueue(j) =>
      PushAccount(w, j, None, id);
      ThreeElse(w, Apply(w, a), id);
    case WriteIncident(h) =>
      MoveAccount(w, a, id);
      ThreeElse(w, Apply(w, a), id);
    case FeedIncident(h) =>
      MoveAccount(w, a, id);
      ThreeElse(w, Apply(w, a), id);
    case NotifyIncident(h) =>
      TellAccount(w, h, id);
      ThreeElse(w, Apply(w, a), id);
    case Notify(at) => ThreeNotify(w, at, id);
    case QueueIncident(at) => ThreeQueue(w, at, id);
    case _ => ThreeSweep(w, a, id);
  }

  /** In every run, however sweeps overlap and jobs are handled: a sweep causes, directly and through other
      jobs, at most three admin jobs for each change it reported, so at most twelve. */
  lemma {:induction false} SweepCausesAtMostTwelveJobs(worlds: seq<World>, acts: seq<Action>, i: nat, id: nat)
    requires IsRun(worlds, acts) && worlds[0] == Init && i < |worlds|
    ensures WithinThree(worlds[i], id)
    ensures id < |worlds[i].sweeps| ==> Caused(worlds[i].log, id) <= 3 * worlds[i].sweeps[id].reported <= 12
  {
    if i > 0 {
      SweepCausesAtMostTwelveJobs(worlds, acts, i - 1, id);
      assert StepAt(worlds, acts, i - 1);
      ThreeStep(worlds[i - 1], acts[i - 1], id);
    }
  }
}
