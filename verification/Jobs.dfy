/** The life of a background job: enqueued with its tenant, run and retried by BullMQ, dead-lettered when its
    budget is spent or the stalled-job checker drops it, and replayed by hand. BullMQ itself is abstract: a
    job is waiting, delayed, active or in the failed set, and completed jobs are removed. */
module Jobs {
  import opened Basics

  type JobId = nat
  type EntryId = nat

  const DEFAULT_ATTEMPTS: nat := 3
  const MAX_STALLED_COUNT: nat := 2

  /** The `attempts` of a producer's options: left out, or given, where what is given may be undefined. */
  datatype JobsOptions = NoAttempts | Attempts(value: Option<nat>)

  /** Spreading the options over DEFAULT_JOB_OPTIONS: only leaving `attempts` out keeps the default. */
  function WithDefaults(opts: JobsOptions): Option<nat> {
    if opts.NoAttempts? then Some(DEFAULT_ATTEMPTS) else opts.value
  }

  /** Does `attemptsMade`, read while the handler runs, count the running attempt? BullMQ decides. */
  datatype Counting = AtStart | AtFailure

  /** Job data: the producer's fields and the stamped `_tenantContext.tenantId`. */
  datatype Payload = Payload(body: string, tenant: Option<string>)

  /** `routed` says that a dead-letter entry was added for this failure. */
  datatype Phase =
    | Waiting
    | Delayed
    | Active
    | Routing(unrecoverable: bool)                 // the handler threw, the dead-letter add is on its way
    | Thrown(unrecoverable: bool, routed: bool)    // the error goes back to BullMQ
    | Dropped(routed: bool)                        // in the failed set, the `failed` listener is yet to run
    | FailedSet(routed: bool)                      // kept: removeOnFail is false

  /** `strays`, `runs`, `root`, `origin` and `kept` are history variables: stalls that came after a dead-letter
      entry was added and before BullMQ heard of the error, attempts started, the enqueued piece of work this
      job carries, the tenant at the head of its causal chain, and whether every link of that chain kept it. */
  datatype Job = Job(
    queue: string, name: string, payload: Payload, attempts: Option<nat>,
    attemptsMade: nat, stalls: nat, phase: Phase,
    strays: nat, runs: nat, root: nat, origin: Option<string>, kept: bool)
  {
    function Budget(): nat {
      if attempts.Some? then attempts.value else 1
    }

    /** A budget of 0 acts as 1: a job runs before its attempts are compared. */
    function EffectiveBudget(): nat {
      if Budget() == 0 then 1 else Budget()
    }
  }

  datatype Entry = Entry(
    sourceQueue: string, jobName: string, originalJobId: JobId, attemptsMade: nat,
    tenantId: Option<string>, payload: Payload, root: nat, origin: Option<string>, kept: bool)

  /** `entries` is every dead-letter entry ever added; `dlq` says which of them are still in the queue,
      and `readded` which of them some replay has put back into their source queue. */
  datatype State = State(
    counting: Counting, wired: bool,
    jobs: map<JobId, Job>, done: map<JobId, Job>, nextJob: nat,
    entries: seq<Entry>, dlq: set<EntryId>, readded: set<EntryId>, roots: nat)

  function Init(counting: Counting, wired: bool): State {
    State(counting, wired, map[], map[], 0, [], {}, {}, 0)
  }

  // ---- tenant context ----

  /** The tenant the handler of a job runs under: an empty or missing tenant opens no context. */
  function Ambient(p: Payload): Option<string> {
    if p.tenant.Some? && p.tenant.value != "" then p.tenant else None
  }

  /** `addJob` spreads the data first, so its own tenant context always wins. */
  function Stamp(data: Payload, ambient: Option<string>): Payload {
    Payload(data.body, ambient)
  }

  function NewJob(queue: string, name: string, data: Payload, opts: JobsOptions, ambient: Option<string>,
                  root: nat, origin: Option<string>, kept: bool): Job
  {
    Job(queue, name, Stamp(data, ambient), WithDefaults(opts), 0, 0, Waiting, 0, 0, root, origin, kept)
  }

  /** The entry `moveToDeadLetter` adds; `ambient` is the fallback when the data carries no tenant. */
  function DeadLetter(id: JobId, j: Job, ambient: Option<string>): Entry {
    Entry(j.queue, j.name, id, j.attemptsMade, if j.payload.tenant.Some? then j.payload.tenant else ambient,
          j.payload, j.root, j.origin, j.kept)
  }

  // ---- steps ----

  datatype Action =
    | Add(queue: string, name: string, data: Payload, opts: JobsOptions, ambient: Option<string>)
    | AddFrom(parent: JobId, queue: string, name: string, data: Payload, opts: JobsOptions)
    | Start(id: JobId)
    | Complete(id: JobId)
    | Throw(id: JobId, unrecoverable: bool)
    | Route(id: JobId, ok: bool)
    | Settle(id: JobId)
    | Promote(id: JobId)
    | Stall(id: JobId)
    | OnFailed(id: JobId, ok: bool)
    | ReplayAdd(entry: EntryId, ambient: Option<string>)
    | ReplayRemove(entry: EntryId)

  predicate Enabled(s: State, a: Action) {
    match a
    case Add(_, _, _, _, _) => true
    case AddFrom(p, _, _, _, _) => p in s.jobs && s.jobs[p].phase.Active?
    case Start(id) => id in s.jobs && s.jobs[id].phase.Waiting?
    case Complete(id) => id in s.jobs && s.jobs[id].phase.Active?
    case Throw(id, _) => id in s.jobs && s.jobs[id].phase.Active?
    case Route(id, _) => id in s.jobs && s.jobs[id].phase.Routing?
    case Settle(id) => id in s.jobs && s.jobs[id].phase.Thrown?
    case Promote(id) => id in s.jobs && s.jobs[id].phase.Delayed?
    case Stall(id) => id in s.jobs && var p := s.jobs[id].phase; p.Active? || p.Routing? || p.Thrown?
    case OnFailed(id, _) => id in s.jobs && s.jobs[id].phase.Dropped?
    case ReplayAdd(e, _) => e in s.dlq && e < |s.entries|
    case ReplayRemove(e) => e in s.dlq && e in s.readded
  }

  function SetJob(s: State, id: JobId, j: Job): State {
    s.(jobs := s.jobs[id := j])
  }

  function AddNew(s: State, j: Job): State {
    s.(jobs := s.jobs[s.nextJob := j], nextJob := s.nextJob + 1)
  }

  function AddEntry(s: State, e: Entry): State {
    s.(entries := s.entries + [e], dlq := s.dlq + {|s.entries|})
  }

  /** BullMQ's own decision after a failed attempt, and the count it leaves. */
  function CountAfterFailure(c: Counting, j: Job): nat {
    if c == AtStart then j.attemptsMade else j.attemptsMade + 1
  }

  function Apply(s: State, a: Action): State
    requires Enabled(s, a)
  {
    match a
    case Add(q, n, d, opts, ambient) =>
      AddNew(s, NewJob(q, n, d, opts, ambient, s.roots, ambient, true)).(roots := s.roots + 1)
    case AddFrom(p, q, n, d, opts) =>
      var j := s.jobs[p];
      AddNew(s, NewJob(q, n, d, opts, Ambient(j.payload), s.roots, j.origin, j.kept && j.payload.tenant != Some("")))
        .(roots := s.roots + 1)
    case Start(id) =>
      var j := s.jobs[id];
      SetJob(s, id, j.(phase := Active, runs := j.runs + 1,
                       attemptsMade := if s.counting == AtStart then j.attemptsMade + 1 else j.attemptsMade))
    case Complete(id) =>
      s.(jobs := s.jobs - {id}, done := s.done[id := s.jobs[id]])
    case Throw(id, unrecoverable) =>
      var j := s.jobs[id];
      SetJob(s, id,
          j.(phase := if j.attemptsMade < j.Budget() then Thrown(unrecoverable, false) else Routing(unrecoverable)))
    case Route(id, ok) =>
      var j := s.jobs[id];
      var added := s.wired && ok;
      var s' := SetJob(s, id, j.(phase := Thrown(j.phase.unrecoverable, added)));
      if added then AddEntry(s', DeadLetter(id, j, Ambient(j.payload))) else s'
    case Settle(id) =>
      var j := s.jobs[id];
      var made := CountAfterFailure(s.counting, j);
      SetJob(s, id, j.(attemptsMade := made,
                       phase := if j.phase.unrecoverable then Dropped(j.phase.routed)
                                else if made < j.Budget() then Delayed
                                else FailedSet(j.phase.routed)))
    case Promote(id) => SetJob(s, id, s.jobs[id].(phase := Waiting))
    case Stall(id) =>
      var j := s.jobs[id];
      SetJob(s, id, j.(stalls := j.stalls + 1,
                       strays := if j.phase.Thrown? && j.phase.routed then j.strays + 1 else j.strays,
                       phase := if j.stalls + 1 > MAX_STALLED_COUNT
                                then Dropped(j.phase.Thrown? && j.phase.routed) else Waiting))
    case OnFailed(id, ok) =>
      var j := s.jobs[id];
      var added := s.wired && ok;
      var s' := SetJob(s, id, j.(phase := FailedSet(j.phase.routed || added)));
      if added then AddEntry(s', DeadLetter(id, j, None)) else s'
    case ReplayAdd(e, ambient) =>
      var d := s.entries[e];
      AddNew(s, NewJob(d.sourceQueue, d.jobName, d.payload, NoAttempts, ambient, d.root, d.origin,
                       d.kept && ambient == d.payload.tenant))
        .(readded := s.readded + {e})
    case ReplayRemove(e) => s.(dlq := s.dlq - {e})
  }

  ghost predicate IsRun(states: seq<State>, acts: seq<Action>) {
    && |states| == |acts| + 1
    && states[0] == Init(states[0].counting, states[0].wired)
    && forall i :: 0 <= i < |acts| ==> Enabled(states[i], acts[i]) && states[i + 1] == Apply(states[i], acts[i])
  }

  ghost predicate IdsFresh(s: State) {
    && (forall id :: id in s.jobs || id in s.done ==> id < s.nextJob)
    && (forall id :: id in s.jobs ==> id !in s.done)
    && (forall e :: e in s.dlq || e in s.readded ==> e < |s.entries|)
    && (forall e :: 0 <= e < |s.entries| ==> s.entries[e].originalJobId < s.nextJob)
  }

  lemma IdsFreshStep(s: State, a: Action)
    requires IdsFresh(s) && Enabled(s, a)
    ensures IdsFresh(Apply(s, a))
  {
  }

  lemma {:induction false} RunIdsFresh(states: seq<State>, acts: seq<Action>, i: nat)
    requires IsRun(states, acts) && i < |states|
    ensures IdsFresh(states[i])
  {
    if i > 0 {
      RunIdsFresh(states, acts, i - 1);
      assert Enabled(states[i - 1], acts[i - 1]);
      IdsFreshStep(states[i - 1], acts[i - 1]);
    }
  }

  // ---- no work is lost ----

  /** Where a piece of work can be. */
  datatype Place = Done(id: JobId) | InQueue(id: JobId) | Dead(entry: EntryId)

  /** A dead-letter entry stands for the job's current failure. */
  predicate AlreadyRouted(p: Phase) {
    (p.Thrown? || p.Dropped? || p.FailedSet?) && p.routed
  }

  /** A job carries its work until an entry in the dead-letter queue does, and that entry until a replay
      has added a job again. Everything here is durable: nothing depends on a worker that is running. */
  predicate CarriedAt(s: State, root: nat, p: Place) {
    match p
    case Done(id) => id in s.done && s.done[id].root == root
    case InQueue(id) => id in s.jobs && s.jobs[id].root == root && !AlreadyRouted(s.jobs[id].phase)
    case Dead(e) => e in s.dlq && e < |s.entries| && e !in s.readded && s.entries[e].root == root
  }

  ghost predicate Accounted(s: State, root: nat) {
    exists p :: CarriedAt(s, root, p)
  }

  /** Whatever carries a piece of work keeps it or hands it on within the same step. */
  lemma HandOn(s: State, a: Action, root: nat, p: Place) returns (p': Place)
    requires IdsFresh(s) && Enabled(s, a) && CarriedAt(s, root, p)
    ensures CarriedAt(Apply(s, a), root, p')
    ensures p.Done? ==> p' == p
    ensures p.InQueue? ==> p' == p || p' == Done(p.id) || p' == Dead(|s.entries|)
    ensures p.Dead? ==> p' == p || p' == InQueue(s.nextJob)
  {
    p' := p;
    if p.InQueue? && a.Complete? && a.id == p.id {
      p' := Done(p.id);
    } else if p.InQueue? && (a.Route? || a.OnFailed?) && a.id == p.id && s.wired && a.ok {
      p' := Dead(|s.entries|);
    } else if p.Dead? && a.ReplayAdd? && a.entry == p.entry {
      p' := InQueue(s.nextJob);
    }
  }

  /** In every run and at every step, each piece of work ever enqueued has completed, or is still in a
      source queue, or failed for good there with no entry made, or is in the dead-letter queue, whatever
      fails or stops in between: handlers, workers, the dead-letter add, a replay between its add and its
      remove. A replay may duplicate work and never loses it. */
  lemma {:induction false} NoWorkIsLost(states: seq<State>, acts: seq<Action>, i: nat, root: nat)
    requires IsRun(states, acts) && i < |states| && root < states[i].roots
    ensures Accounted(states[i], root)
  {
    if i > 0 {
      var s, a := states[i - 1], acts[i - 1];
      assert Enabled(s, a) && states[i] == Apply(s, a);
      if root < s.roots {
        NoWorkIsLost(states, acts, i - 1, root);
        RunIdsFresh(states, acts, i - 1);
        var p :| CarriedAt(s, root, p);
        var p' := HandOn(s, a, root, p);
      } else {
        assert CarriedAt(states[i], root, InQueue(s.nextJob));
      }
    }
  }

  /** Stopping between a replay's add and its remove leaves the work twice over: as a job and as an entry. */
  lemma StoppedReplayDuplicates(s: State, e: EntryId, ambient: Option<string>)
    requires IdsFresh(s) && Enabled(s, ReplayAdd(e, ambient))
    ensures var s' := Apply(s, ReplayAdd(e, ambient));
            && CarriedAt(s', s.entries[e].root, InQueue(s.nextJob))
            && e in s'.dlq && Enabled(s', ReplayAdd(e, ambient)) && Enabled(s', ReplayRemove(e))
  {
  }

  /** The queue a dead-letter entry is in is left only by its removal. */
  lemma {:induction false} InQueueUnlessRemovedIff(states: seq<State>, acts: seq<Action>, i: nat, e: EntryId)
    requires IsRun(states, acts) && i < |states|
    ensures e in states[i].dlq <==> e < |states[i].entries| && forall j :: 0 <= j < i ==> acts[j] != ReplayRemove(e)
  {
    if i > 0 {
      InQueueUnlessRemovedIff(states, acts, i - 1, e);
      RunIdsFresh(states, acts, i - 1);
      assert Enabled(states[i - 1], acts[i - 1]) && states[i] == Apply(states[i - 1], acts[i - 1]);
      if e >= |states[i - 1].entries| {
        RemovedWasThere(states, acts, i, e);
      }
    }
  }

  /** What has not been added cannot have been removed. */
  lemma {:induction false} RemovedWasThere(states: seq<State>, acts: seq<Action>, i: nat, e: EntryId)
    requires IsRun(states, acts) && 0 < i < |states| && e >= |states[i - 1].entries|
    ensures forall j :: 0 <= j < i ==> acts[j] != ReplayRemove(e)
  {
    RunIdsFresh(states, acts, i - 1);
    assert Enabled(states[i - 1], acts[i - 1]);
    if i > 1 {
      assert Enabled(states[i - 2], acts[i - 2]) && states[i - 1] == Apply(states[i - 2], acts[i - 2]);
      RemovedWasThere(states, acts, i - 1, e);
    }
  }

  /** Once a replay has removed its entry, the entry is out of the dead-letter queue for good: no caller can replay
      it again, whatever else happens. */
  lemma RemovedForGood(states: seq<State>, acts: seq<Action>, i: nat, j: nat)
    requires IsRun(states, acts) && i < |acts| && acts[i].ReplayRemove? && i < j < |states|
    ensures acts[i].entry !in states[j].dlq
    ensures forall c :: !Enabled(states[j], ReplayAdd(acts[i].entry, c))
    ensures states[i + 1] == states[i].(dlq := states[i].dlq - {acts[i].entry})
  {
    InQueueUnlessRemovedIff(states, acts, j, acts[i].entry);
    assert Enabled(states[i], acts[i]) && states[i + 1] == Apply(states[i], acts[i]);
  }

  // ---- what is enqueued stays what it was ----

  /** What a producer asked for, or a handler under the tenant its worker opened for it. */
  predicate AsAsked(j: Job, a: Action, parent: Option<string>)
    requires a.Add? || a.AddFrom?
  {
    && j.queue == a.queue && j.name == a.name && j.payload.body == a.data.body
    && j.payload.tenant == (if a.Add? then a.ambient else if parent == Some("") then None else parent)
    && j.attempts == if a.opts.NoAttempts? then Some(3) else a.opts.value
  }

  /** The tenant of the job whose handler adds another. */
  function ParentTenant(s: State, a: Action): Option<string>
    requires Enabled(s, a)
  {
    if a.AddFrom? then s.jobs[a.parent].payload.tenant else None
  }

  lemma DataStays(s: State, a: Action, id: JobId, j: Job)
    requires IdsFresh(s) && Enabled(s, a)
    requires (id in s.jobs && SameData(s.jobs[id], j)) || (id in s.done && SameData(s.done[id], j))
    ensures var s' := Apply(s, a);
            (id in s'.jobs && SameData(s'.jobs[id], j)) || (id in s'.done && SameData(s'.done[id], j))
  {
  }

  predicate SameData(j: Job, k: Job) {
    j.queue == k.queue && j.name == k.name && j.payload == k.payload && j.attempts == k.attempts
  }

  /** In every run each addition makes one waiting job, with the queue, name, data, tenant and budget asked for, and
      the job keeps them through all retries, stalls and failures, as long as it exists and when it has completed. */
  lemma {:induction false} EnqueuedKeepsItsData(states: seq<State>, acts: seq<Action>, i: nat, j: nat)
    requires IsRun(states, acts) && i < j < |states| && (acts[i].Add? || acts[i].AddFrom?)
    ensures Enabled(states[i], acts[i])
    ensures var s, id := states[j], states[i].nextJob;
            && id !in states[i].jobs && id !in states[i].done
            && (id in s.jobs || id in s.done)
            && AsAsked(if id in s.jobs then s.jobs[id] else s.done[id], acts[i], ParentTenant(states[i], acts[i]))
            && (j == i + 1 ==> id in s.jobs && s.jobs[id].phase == Waiting)
  {
    assert Enabled(states[i], acts[i]) && states[i + 1] == Apply(states[i], acts[i]);
    RunIdsFresh(states, acts, i);
    if j > i + 1 {
      EnqueuedKeepsItsData(states, acts, i, j - 1);
      var s, id := states[j - 1], states[i].nextJob;
      RunIdsFresh(states, acts, j - 1);
      RunIdsFresh(states, acts, j);
      assert Enabled(s, acts[j - 1]) && states[j] == Apply(s, acts[j - 1]);
      DataStays(s, acts[j - 1], id, if id in s.jobs then s.jobs[id] else s.done[id]);
    }
  }

  // ---- dead-lettered exactly once ----

  /** Dead-letter entries ever made for a job. */
  function EntriesFor(entries: seq<Entry>, id: JobId): nat {
    if entries == [] then 0
    else EntriesFor(entries[..|entries| - 1], id) + if entries[|entries| - 1].originalJobId == id then 1 else 0
  }

  lemma EntriesForAppend(entries: seq<Entry>, e: Entry, id: JobId)
    ensures EntriesFor(entries + [e], id) == EntriesFor(entries, id) + if e.originalJobId == id then 1 else 0
  {
    assert (entries + [e])[..|entries|] == entries;
  }

  lemma {:induction false} NoEntriesYet(entries: seq<Entry>, id: JobId)
    requires forall e :: 0 <= e < |entries| ==> entries[e].originalJobId != id
    ensures EntriesFor(entries, id) == 0
  {
    if entries != [] {
      NoEntriesYet(entries[..|entries| - 1], id);
    }
  }

  /** A step of the job's own life in which its handler does not throw BullMQ's own UnrecoverableError and its
      dead-letter add does not fail. Workers may stall anywhere. */
  predicate Ordinary(a: Action) {
    && (a.Throw? ==> !a.unrecoverable)
    && (a.Route? || a.OnFailed? ==> a.ok)
  }

  /** Is this a step of the job's own life? */
  predicate Moves(a: Action, id: JobId) {
    && (a.Start? || a.Complete? || a.Throw? || a.Route? || a.Settle? || a.Promote? || a.Stall? || a.OnFailed?)
    && a.id == id
  }

  /** Up to step n the job's own life was ordinary; whatever befalls other jobs does not matter. */
  ghost predicate OrdinaryRun(states: seq<State>, acts: seq<Action>, n: nat, id: JobId) {
    && IsRun(states, acts) && n <= |acts|
    && states[0].counting == AtStart && states[0].wired
    && forall i :: 0 <= i < n && Moves(acts[i], id) ==> Ordinary(acts[i])
  }

  /** The tally of one job: `attemptsMade` counts its runs, which exceed the budget by at most one for each
      stall; every stray stall leaves an entry behind, and the final failure one more. */
  predicate TalliedAs(j: Job, n: nat) {
    && j.attemptsMade == j.runs && j.strays <= j.stalls
    && j.runs <= j.EffectiveBudget() + j.stalls
    && match j.phase
       case Waiting => n == j.strays && j.runs < j.EffectiveBudget() + j.stalls
       case Delayed => n == j.strays && j.runs < j.EffectiveBudget() + j.stalls
       case Active => n == j.strays && j.runs >= 1
       case Routing(u) => n == j.strays && !u && j.runs >= j.EffectiveBudget()
       case Thrown(u, routed) =>
         !u && j.runs >= 1 && (routed <==> j.runs >= j.EffectiveBudget()) && n == j.strays + if routed then 1 else 0
       case Dropped(_) => n == j.strays && j.stalls > MAX_STALLED_COUNT
       case FailedSet(routed) =>
         n == j.strays + 1 && routed && (j.stalls <= MAX_STALLED_COUNT ==> j.runs >= j.EffectiveBudget())
  }

  predicate Tallied(s: State, id: JobId) {
    && s.counting == AtStart && s.wired
    && (id in s.jobs ==> TalliedAs(s.jobs[id], EntriesFor(s.entries, id)))
    && (id in s.done ==> EntriesFor(s.entries, id) == s.done[id].strays)
  }

  /** How one step changes the entries made for a job. */
  lemma EntriesStep(s: State, a: Action, id: JobId)
    requires IdsFresh(s) && Enabled(s, a)
    ensures EntriesFor(Apply(s, a).entries, id)
         == EntriesFor(s.entries, id) + if (a.Route? || a.OnFailed?) && s.wired && a.ok && a.id == id then 1 else 0
    ensures id >= s.nextJob ==> EntriesFor(s.entries, id) == 0
  {
    if (a.Route? || a.OnFailed?) && s.wired && a.ok {
      EntriesForAppend(s.entries,
          DeadLetter(a.id, s.jobs[a.id], if a.Route? then Ambient(s.jobs[a.id].payload) else None), id);
    }
    if id >= s.nextJob {
      NoEntriesYet(s.entries, id);
    }
  }

  lemma MovedTally(s: State, a: Action, id: JobId)
    requires Enabled(s, a) && Ordinary(a) && Moves(a, id) && (a.Start? || a.Throw? || a.Promote? || a.Stall?)
    requires id in s.jobs && Tallied(s, id)
    ensures TalliedAs(Apply(s, a).jobs[id], EntriesFor(s.entries, id))
  {
  }

  lemma FailedTally(s: State, a: Action, id: JobId)
    requires Enabled(s, a) && Ordinary(a) && Moves(a, id) && (a.Route? || a.Settle? || a.OnFailed?)
    requires id in s.jobs && Tallied(s, id)
    ensures TalliedAs(Apply(s, a).jobs[id], EntriesFor(s.entries, id) + if a.Settle? then 0 else 1)
  {
  }

  /** The step of a job itself keeps its tally. */
  lemma OwnTally(s: State, a: Action, id: JobId)
    requires IdsFresh(s) && Tallied(s, id) && Enabled(s, a) && Ordinary(a) && Moves(a, id)
    ensures Tallied(Apply(s, a), id)
  {
    EntriesStep(s, a, id);
    if a.Start? || a.Throw? || a.Promote? || a.Stall? {
      MovedTally(s, a, id);
    } else if !a.Complete? {
      FailedTally(s, a, id);
    }
  }

  /** And so does every step of anybody else, whatever fails in it. */
  lemma OthersTally(s: State, a: Action, id: JobId)
    requires IdsFresh(s) && Tallied(s, id) && Enabled(s, a) && !Moves(a, id)
    ensures Tallied(Apply(s, a), id)
  {
    EntriesStep(s, a, id);
  }

  lemma {:induction false} RunTallied(states: seq<State>, acts: seq<Action>, i: nat, id: JobId)
    requires OrdinaryRun(states, acts, i, id)
    ensures Tallied(states[i], id)
  {
    if i > 0 {
      RunTallied(states, acts, i - 1, id);
      RunIdsFresh(states, acts, i - 1);
      var a := acts[i - 1];
      assert Enabled(states[i - 1], a) && states[i] == Apply(states[i - 1], a);
      if Moves(a, id) {
        OwnTally(states[i - 1], a, id);
      } else {
        OthersTally(states[i - 1], a, id);
      }
    }
  }

  /** Does this step stall the job between its dead-letter entry and BullMQ's hearing of the error? */
  predicate StrayStall(s: State, a: Action, id: JobId) {
    a == Stall(id) && id in s.jobs && s.jobs[id].phase.Thrown? && s.jobs[id].phase.routed
  }

  ghost predicate NoStrays(states: seq<State>, acts: seq<Action>, i: nat, id: JobId)
    requires i <= |acts| < |states|
  {
    forall k :: 0 <= k < i ==> !StrayStall(states[k], acts[k], id)
  }

  lemma StrayStep(s: State, a: Action, id: JobId)
    requires IdsFresh(s) && Enabled(s, a)
    ensures var s' := Apply(s, a);
            && (id in s'.jobs ==>
                  s'.jobs[id].strays
                  == if id !in s.jobs then 0 else s.jobs[id].strays + if StrayStall(s, a, id) then 1 else 0)
            && (id in s'.done && id !in s.done ==> id in s.jobs && s'.done[id].strays == s.jobs[id].strays)
            && (id in s'.done && id in s.done ==> s'.done[id] == s.done[id])
    ensures id in Apply(s, a).jobs && id !in s.jobs ==> id == s.nextJob
    ensures id in Apply(s, a).done ==> !StrayStall(s, a, id)
    ensures id >= s.nextJob ==> !StrayStall(s, a, id)
    ensures s.nextJob <= Apply(s, a).nextJob
  {
  }

  lemma NoStraysStep(states: seq<State>, acts: seq<Action>, i: nat, id: JobId)
    requires 0 < i <= |acts| < |states|
    ensures NoStrays(states, acts, i, id)
            <==> NoStrays(states, acts, i - 1, id) && !StrayStall(states[i - 1], acts[i - 1], id)
  {
  }

  /** `strays` says whether such a stall has happened. */
  lemma {:induction false} StraysAreHistory(states: seq<State>, acts: seq<Action>, i: nat, id: JobId)
    requires IsRun(states, acts) && i < |states|
    ensures id in states[i].jobs ==> (states[i].jobs[id].strays == 0 <==> NoStrays(states, acts, i, id))
    ensures id in states[i].done ==> (states[i].done[id].strays == 0 <==> NoStrays(states, acts, i, id))
    ensures id >= states[i].nextJob ==> NoStrays(states, acts, i, id)
  {
    if i > 0 {
      StraysAreHistory(states, acts, i - 1, id);
      RunIdsFresh(states, acts, i - 1);
      var s, a := states[i - 1], acts[i - 1];
      assert Enabled(s, a) && states[i] == Apply(s, a);
      StrayStep(s, a, id);
      NoStraysStep(states, acts, i, id);
    }
  }

  /** A job that failed for good, because its budget ran out or the stalled-job checker dropped it, has exactly
      one dead-letter entry, and a job that completed has none, if and only if it never stalled between an
      entry and BullMQ's hearing of the error. It ran at most once more than its budget for each stall, and at
      least as often unless it was dropped. */
  lemma DeadLetteredExactlyOnce(states: seq<State>, acts: seq<Action>, i: nat, id: JobId)
    requires OrdinaryRun(states, acts, i, id)
    ensures id in states[i].done ==> (EntriesFor(states[i].entries, id) == 0 <==> NoStrays(states, acts, i, id))
    ensures id in states[i].jobs && states[i].jobs[id].phase.FailedSet? ==>
              (EntriesFor(states[i].entries, id) == 1 <==> NoStrays(states, acts, i, id))
    ensures id in states[i].jobs ==>
              var j := states[i].jobs[id];
              && j.runs <= j.EffectiveBudget() + j.stalls
              && (j.phase.FailedSet? && j.stalls <= 2 ==> j.EffectiveBudget() <= j.runs)
  {
    RunTallied(states, acts, i, id);
    StraysAreHistory(states, acts, i, id);
  }

  /** Steps of the job's own life so far. */
  function OwnSteps(acts: seq<Action>, id: JobId): nat {
    if acts == [] then 0
    else OwnSteps(acts[..|acts| - 1], id) + if Moves(acts[|acts| - 1], id) then 1 else 0
  }

  /** Steps that a job can still take before it is started again. */
  function StepsLeft(p: Phase): nat {
    match p
    case Waiting => 0
    case Active => 4
    case Routing(_) => 3
    case Thrown(_, _) => 2
    case Delayed => 1
    case Dropped(_) => 1
    case FailedSet(_) => 0
  }

  /** At most five steps to a run, and the stalled-job checker gives up at the third stall. */
  predicate Bounded(j: Job, steps: nat) {
    && steps + StepsLeft(j.phase) <= 5 * j.runs && j.stalls <= 3
    && (j.stalls == 3 ==> j.phase.Dropped? || j.phase.FailedSet?)
  }

  predicate BoundedIn(s: State, id: JobId, steps: nat) {
    && (id in s.jobs ==> Bounded(s.jobs[id], steps))
    && (id in s.done ==> steps <= 5 * s.done[id].runs && s.done[id].stalls <= 2)
    && (id >= s.nextJob ==> steps == 0)
  }

  lemma BoundedRun(s: State, a: Action, id: JobId, steps: nat)
    requires Enabled(s, a) && Moves(a, id) && (a.Start? || a.Throw? || a.Promote? || a.Stall?)
    requires id in s.jobs && Bounded(s.jobs[id], steps)
    ensures id in Apply(s, a).jobs && Bounded(Apply(s, a).jobs[id], steps + 1)
  {
  }

  lemma BoundedFailure(s: State, a: Action, id: JobId, steps: nat)
    requires Enabled(s, a) && Moves(a, id) && (a.Route? || a.Settle? || a.OnFailed?)
    requires id in s.jobs && Bounded(s.jobs[id], steps)
    ensures id in Apply(s, a).jobs && Bounded(Apply(s, a).jobs[id], steps + 1)
  {
  }

  /** What is not the job's own step leaves it as it is. */
  lemma OthersLeaveIt(s: State, a: Action, id: JobId)
    requires IdsFresh(s) && Enabled(s, a) && !Moves(a, id)
    ensures id in s.jobs ==> id in Apply(s, a).jobs && Apply(s, a).jobs[id] == s.jobs[id]
    ensures id in Apply(s, a).jobs && id !in s.jobs ==>
              && id == s.nextJob
              && var j := Apply(s, a).jobs[id]; j.phase == Waiting && j.runs == j.stalls == j.attemptsMade == 0
    ensures id in Apply(s, a).done <==> id in s.done
    ensures id in s.done ==> Apply(s, a).done[id] == s.done[id]
    ensures s.nextJob <= Apply(s, a).nextJob
  {
  }

  lemma BoundedStep(s: State, a: Action, id: JobId, steps: nat)
    requires IdsFresh(s) && Enabled(s, a) && BoundedIn(s, id, steps)
    ensures BoundedIn(Apply(s, a), id, steps + if Moves(a, id) then 1 else 0)
  {
    if !Moves(a, id) {
      OthersLeaveIt(s, a, id);
    } else if a.Start? || a.Throw? || a.Promote? || a.Stall? {
      BoundedRun(s, a, id, steps);
    } else if !a.Complete? {
      BoundedFailure(s, a, id, steps);
    }
  }

  lemma {:induction false} RunBounded(states: seq<State>, acts: seq<Action>, i: nat, id: JobId)
    requires IsRun(states, acts) && i < |states|
    ensures BoundedIn(states[i], id, OwnSteps(acts[..i], id))
  {
    if i > 0 {
      RunBounded(states, acts, i - 1, id);
      RunIdsFresh(states, acts, i - 1);
      assert Enabled(states[i - 1], acts[i - 1]) && states[i] == Apply(states[i - 1], acts[i - 1]);
      assert acts[..i][..i - 1] == acts[..i - 1] && acts[..i][i - 1] == acts[i - 1];
      BoundedStep(states[i - 1], acts[i - 1], id, OwnSteps(acts[..i - 1], id));
    }
  }

  predicate Running(p: Phase) {
    p.Active? || p.Routing? || p.Thrown?
  }

  predicate Pending(p: Phase) {
    p.Waiting? || p.Delayed?
  }

  /** `attemptsMade` is the attempts begun, or those that have failed and been settled; either way a job runs at most
      once for each attempt of its budget and for each stall. */
  predicate Counted(c: Counting, j: Job) {
    && j.runs == j.attemptsMade + (if c == AtStart then 0 else j.stalls + if Running(j.phase) then 1 else 0)
    && j.runs + (if Pending(j.phase) then 1 else 0) <= j.EffectiveBudget() + j.stalls
  }

  ghost predicate AllCounted(s: State) {
    forall id :: id in s.jobs ==> Counted(s.counting, s.jobs[id])
  }

  lemma CountedRun(s: State, a: Action, id: JobId)
    requires Enabled(s, a) && Moves(a, id) && (a.Start? || a.Throw? || a.Promote? || a.Stall?)
    requires id in s.jobs && Counted(s.counting, s.jobs[id])
    ensures Counted(s.counting, Apply(s, a).jobs[id])
  {
  }

  lemma CountedFailure(s: State, a: Action, id: JobId)
    requires Enabled(s, a) && Moves(a, id) && (a.Route? || a.Settle? || a.OnFailed?)
    requires id in s.jobs && Counted(s.counting, s.jobs[id])
    ensures Counted(s.counting, Apply(s, a).jobs[id])
  {
  }

  lemma CountedStep(s: State, a: Action, id: JobId)
    requires IdsFresh(s) && AllCounted(s) && Enabled(s, a) && id in Apply(s, a).jobs
    ensures Counted(s.counting, Apply(s, a).jobs[id])
  {
    if !Moves(a, id) {
      OthersLeaveIt(s, a, id);
    } else if a.Start? || a.Throw? || a.Promote? || a.Stall? {
      CountedRun(s, a, id);
    } else if !a.Complete? {
      CountedFailure(s, a, id);
    }
  }

  /** In every run `attemptsMade` counts in the one way or in the other. */
  lemma {:induction false} AttemptsAreCounted(states: seq<State>, acts: seq<Action>, i: nat)
    requires IsRun(states, acts) && i < |states|
    ensures AllCounted(states[i])
  {
    if i > 0 {
      AttemptsAreCounted(states, acts, i - 1);
      RunIdsFresh(states, acts, i - 1);
      assert Enabled(states[i - 1], acts[i - 1]) && states[i] == Apply(states[i - 1], acts[i - 1]);
      forall id | id in states[i].jobs ensures Counted(states[i].counting, states[i].jobs[id]) {
        CountedStep(states[i - 1], acts[i - 1], id);
      }
    }
  }

  /** Every job comes to an end, whatever fails and however attempts are counted: while it is not in the failed set a
      step of its own is possible, and it takes at most five steps to a run, with one run for each attempt of its
      budget and for each of at most three stalls. */
  lemma JobsComeToAnEnd(states: seq<State>, acts: seq<Action>, i: nat, id: JobId)
    requires IsRun(states, acts) && i <= |acts| && id in states[i].jobs
    ensures !states[i].jobs[id].phase.FailedSet? ==> exists a :: Moves(a, id) && !a.Stall? && Enabled(states[i], a)
    ensures OwnSteps(acts[..i], id) <= 5 * states[i].jobs[id].runs <= 5 * (states[i].jobs[id].EffectiveBudget() + 3)
  {
    RunBounded(states, acts, i, id);
    AttemptsAreCounted(states, acts, i);
    if !states[i].jobs[id].phase.FailedSet? {
      var a := match states[i].jobs[id].phase
        case Waiting => Start(id)
        case Delayed => Promote(id)
        case Active => Complete(id)
        case Routing(_) => Route(id, true)
        case Thrown(_, _) => Settle(id)
        case _ => OnFailed(id, true);
      assert Moves(a, id) && Enabled(states[i], a);
    }
  }

  /** The number of entries whenever the job's own life was ordinary: one for each stray stall, and one for a
      final failure. */
  lemma EntriesCounted(states: seq<State>, acts: seq<Action>, i: nat, id: JobId)
    requires OrdinaryRun(states, acts, i, id)
    ensures id in states[i].done ==> EntriesFor(states[i].entries, id) == states[i].done[id].strays
    ensures id in states[i].jobs ==>
              var j := states[i].jobs[id];
              EntriesFor(states[i].entries, id)
              == j.strays + if j.phase.FailedSet? || (j.phase.Thrown? && j.phase.routed) then 1 else 0
  {
    RunTallied(states, acts, i, id);
  }

  /** The entry of a job that ran out of budget is made on an attempt that spends it, and says which. */
  lemma EntryMadeOnLastAttempt(states: seq<State>, acts: seq<Action>, i: nat)
    requires i < |acts| && acts[i].Route? && acts[i].ok && OrdinaryRun(states, acts, i, acts[i].id)
    ensures acts[i].id in states[i].jobs
    ensures var j := states[i].jobs[acts[i].id];
            && |states[i + 1].entries| == |states[i].entries| + 1
            && states[i + 1].entries[|states[i].entries|].attemptsMade == j.runs
            && j.EffectiveBudget() <= j.runs <= j.EffectiveBudget() + j.stalls
  {
    RunTallied(states, acts, i, acts[i].id);
    assert Enabled(states[i], acts[i]) && states[i + 1] == Apply(states[i], acts[i]);
  }

  /** From a final throw to the failed set, with every dead-letter add succeeding. */
  function FinalFailure(s: State, id: JobId, unrecoverable: bool): State
    requires id in s.jobs && s.jobs[id].phase.Active?
  {
    var s1 := Apply(s, Throw(id, unrecoverable));
    var s2 := if s1.jobs[id].phase.Routing? then Apply(s1, Route(id, true)) else s1;
    var s3 := Apply(s2, Settle(id));
    if s3.jobs[id].phase.Dropped? then Apply(s3, OnFailed(id, true)) else s3
  }

  /** Up to BullMQ's decision, on an attempt that has spent the budget. */
  lemma Routed(s: State, id: JobId, unrecoverable: bool)
    requires id in s.jobs && s.jobs[id].phase.Active? && s.wired && s.jobs[id].attemptsMade >= s.jobs[id].Budget()
    ensures Apply(s, Throw(id, unrecoverable)).jobs[id].phase.Routing?
    ensures var s2 := Apply(Apply(s, Throw(id, unrecoverable)), Route(id, true));
            && s2.wired && s2.counting == s.counting
            && id in s2.jobs && s2.jobs[id] == s.jobs[id].(phase := Thrown(unrecoverable, true))
            && EntriesFor(s2.entries, id) == EntriesFor(s.entries, id) + 1
  {
    var j := Apply(s, Throw(id, unrecoverable)).jobs[id];
    EntriesForAppend(s.entries, DeadLetter(id, j, Ambient(j.payload)), id);
  }

  lemma DroppedByError(s: State, id: JobId)
    requires id in s.jobs && s.jobs[id].phase.Thrown? && s.jobs[id].phase.unrecoverable && s.wired
    ensures var s3 := Apply(s, Settle(id));
            && s3.jobs[id].phase.Dropped?
            && var f := Apply(s3, OnFailed(id, true));
               f.jobs[id].phase.FailedSet? && EntriesFor(f.entries, id) == EntriesFor(s.entries, id) + 1
  {
    var s3 := Apply(s, Settle(id));
    EntriesForAppend(s3.entries, DeadLetter(id, s3.jobs[id], None), id);
  }

  lemma RoutedThenSettled(s: State, id: JobId, unrecoverable: bool)
    requires id in s.jobs && s.jobs[id].phase.Active? && s.wired && s.jobs[id].attemptsMade >= s.jobs[id].Budget()
    ensures var f := FinalFailure(s, id, unrecoverable);
            && f.jobs[id].phase.FailedSet?
            && EntriesFor(f.entries, id) == EntriesFor(s.entries, id) + if unrecoverable then 2 else 1
  {
    Routed(s, id, unrecoverable);
    if unrecoverable {
      DroppedByError(Apply(Apply(s, Throw(id, true)), Route(id, true)), id);
    }
  }

  lemma SettledUnrouted(s: State, id: JobId, unrecoverable: bool)
    requires id in s.jobs && s.jobs[id].phase.Active? && s.wired && s.jobs[id].attemptsMade < s.jobs[id].Budget()
    requires unrecoverable || CountAfterFailure(s.counting, s.jobs[id]) >= s.jobs[id].Budget()
    ensures var f := FinalFailure(s, id, unrecoverable);
            && f.jobs[id].phase.FailedSet?
            && EntriesFor(f.entries, id) == EntriesFor(s.entries, id) + if unrecoverable then 1 else 0
  {
    var s1 := Apply(s, Throw(id, unrecoverable));
    var s3 := Apply(s1, Settle(id));
    if unrecoverable {
      EntriesForAppend(s3.entries, DeadLetter(id, s3.jobs[id], None), id);
    }
  }

  /** The exact condition for one entry per final failure: `attemptsMade` counts the running attempt far
      enough to reach the budget, or the error is BullMQ's UnrecoverableError, but not both. */
  lemma OneEntryIff(s: State, id: JobId, unrecoverable: bool)
    requires id in s.jobs && s.jobs[id].phase.Active? && s.wired
    requires unrecoverable || CountAfterFailure(s.counting, s.jobs[id]) >= s.jobs[id].Budget()
    ensures var exhausted := s.jobs[id].attemptsMade >= s.jobs[id].Budget();
            var made := EntriesFor(FinalFailure(s, id, unrecoverable).entries, id) - EntriesFor(s.entries, id);
            && FinalFailure(s, id, unrecoverable).jobs[id].phase.FailedSet?
            && (made == 1 <==> exhausted != unrecoverable)
            && (made == 2 <==> exhausted && unrecoverable)
            && (made == 0 <==> !exhausted && !unrecoverable)
  {
    if s.jobs[id].attemptsMade >= s.jobs[id].Budget() {
      RoutedThenSettled(s, id, unrecoverable);
    } else {
      SettledUnrouted(s, id, unrecoverable);
    }
  }

  /** What a stray stall does: the job runs again, and if that attempt fails too a second entry follows. */
  lemma StallAfterRoutingRepeats(s: State, id: JobId)
    requires s.counting == AtStart && s.wired && id in s.jobs
    requires s.jobs[id].phase.Thrown? && s.jobs[id].phase.routed
    requires s.jobs[id].attemptsMade >= s.jobs[id].Budget() && s.jobs[id].stalls < MAX_STALLED_COUNT
    ensures var s1 := Apply(s, Stall(id));
            && Enabled(s1, Start(id))
            && var s2 := Apply(s1, Start(id));
               && Enabled(s2, Throw(id, false))
               && var s3 := Apply(s2, Throw(id, false));
                  && Enabled(s3, Route(id, true))
                  && EntriesFor(Apply(s3, Route(id, true)).entries, id) == EntriesFor(s.entries, id) + 1
  {
    var s3 := Apply(Apply(Apply(s, Stall(id)), Start(id)), Throw(id, false));
    EntriesForAppend(s.entries, DeadLetter(id, s3.jobs[id], Ambient(s3.jobs[id].payload)), id);
  }

  // ---- when attemptsMade does not count the running attempt ----

  /** In this mode an attempt in progress is always below its budget when `handleFailure` looks. */
  predicate JobBelowBudget(j: Job) {
    j.Budget() > 0 ==>
      && !j.phase.Routing?
      && (j.phase.Waiting? || j.phase.Delayed? || j.phase.Active? || j.phase.Thrown? ==> j.attemptsMade < j.Budget())
      && (j.phase.Thrown? || j.phase.Dropped? ==> !j.phase.routed)
  }

  ghost predicate BelowBudget(s: State) {
    s.counting == AtFailure && forall id :: id in s.jobs ==> JobBelowBudget(s.jobs[id])
  }

  lemma BelowBudgetStep(s: State, a: Action)
    requires BelowBudget(s) && Enabled(s, a)
    ensures BelowBudget(Apply(s, a))
  {
    var s' := Apply(s, a);
    forall id | id in s'.jobs ensures JobBelowBudget(s'.jobs[id]) {
      if id in s.jobs {
        assert JobBelowBudget(s.jobs[id]);
      }
    }
  }

  lemma {:induction false} RunBelowBudget(states: seq<State>, acts: seq<Action>, i: nat)
    requires IsRun(states, acts) && i < |states| && states[0].counting == AtFailure
    ensures BelowBudget(states[i])
  {
    if i > 0 {
      RunBelowBudget(states, acts, i - 1);
      assert Enabled(states[i - 1], acts[i - 1]);
      BelowBudgetStep(states[i - 1], acts[i - 1]);
    }
  }

  /** Then `handleFailure` returns early on every attempt, the last one included: in no run is a job with a
      positive budget dead-lettered for having used it up. Only a dropped job ever gets an entry. */
  lemma NeverRoutedWhenCountedLate(states: seq<State>, acts: seq<Action>, i: nat)
    requires IsRun(states, acts) && i < |acts| && states[0].counting == AtFailure
    requires acts[i].Throw? || acts[i].Route?
    ensures acts[i].id in states[i].jobs
    ensures states[i].jobs[acts[i].id].Budget() > 0 ==>
              acts[i].Throw? && states[i + 1].jobs[acts[i].id].phase == Thrown(acts[i].unrecoverable, false)
  {
    RunBelowBudget(states, acts, i);
    assert Enabled(states[i], acts[i]) && states[i + 1] == Apply(states[i], acts[i]);
    assert JobBelowBudget(states[i].jobs[acts[i].id]);
  }

  // ---- tenants ----

  /** A child job runs under its parent's tenant, unless that tenant is the empty string: the worker
      opens no context for it. */
  lemma ChildTenantIff(s: State, parent: JobId, queue: string, name: string, data: Payload, opts: JobsOptions)
    requires IdsFresh(s) && Enabled(s, AddFrom(parent, queue, name, data, opts))
    ensures var s' := Apply(s, AddFrom(parent, queue, name, data, opts));
            var child := s'.jobs[s.nextJob].payload;
            && child.body == data.body
            && (child.tenant == s.jobs[parent].payload.tenant <==> s.jobs[parent].payload.tenant != Some(""))
  {
  }

  /** Does an entry say of a job what is true of it? */
  predicate TellsTruth(e: Entry, j: Job) {
    && e.sourceQueue == j.queue && e.jobName == j.name && e.payload == j.payload
    && e.tenantId == j.payload.tenant && e.root == j.root
  }

  predicate EntryTrue(s: State, e: Entry) {
    var id := e.originalJobId;
    (id in s.jobs || id in s.done) && TellsTruth(e, if id in s.jobs then s.jobs[id] else s.done[id])
  }

  ghost predicate EntriesTrue(s: State) {
    forall e :: 0 <= e < |s.entries| ==> EntryTrue(s, s.entries[e])
  }

  lemma OldEntryStaysTrue(s: State, a: Action, e: Entry)
    requires IdsFresh(s) && Enabled(s, a) && EntryTrue(s, e)
    ensures EntryTrue(Apply(s, a), e)
  {
  }

  lemma EntriesTrueStep(s: State, a: Action)
    requires IdsFresh(s) && EntriesTrue(s) && Enabled(s, a)
    ensures EntriesTrue(Apply(s, a))
  {
    var s' := Apply(s, a);
    forall e | 0 <= e < |s'.entries|
      ensures EntryTrue(s', s'.entries[e])
    {
      if e < |s.entries| {
        assert s'.entries[e] == s.entries[e];
        OldEntryStaysTrue(s, a, s.entries[e]);
      }
    }
  }

  /** In every run, whatever fails, each dead-letter entry names the queue, the job name, the tenant and the
      unchanged data of the job it came from, which still exists or has completed since. */
  lemma {:induction false} EntriesTellTheTruth(states: seq<State>, acts: seq<Action>, i: nat)
    requires IsRun(states, acts) && i < |states|
    ensures EntriesTrue(states[i])
  {
    if i > 0 {
      EntriesTellTheTruth(states, acts, i - 1);
      RunIdsFresh(states, acts, i - 1);
      assert Enabled(states[i - 1], acts[i - 1]);
      EntriesTrueStep(states[i - 1], acts[i - 1]);
    }
  }

  /** Dead-lettering a job and replaying its entry gives back queue, name and data exactly when the replaying
      caller's tenant is the job's; the retry budget becomes the default whatever it was. */
  lemma ReplayRestoresIff(s: State, id: JobId, ok: bool, ambient: Option<string>)
    requires IdsFresh(s) && s.wired && (Enabled(s, Route(id, ok)) || Enabled(s, OnFailed(id, ok))) && ok
    ensures var s1 := Apply(s, if s.jobs[id].phase.Routing? then Route(id, ok) else OnFailed(id, ok));
            var e := |s.entries|;
            && Enabled(s1, ReplayAdd(e, ambient))
            && var j, r := s.jobs[id], Apply(s1, ReplayAdd(e, ambient)).jobs[s1.nextJob];
               && ((r.queue, r.name, r.payload) == (j.queue, j.name, j.payload) <==> ambient == j.payload.tenant)
               && r.queue == j.queue && r.name == j.name && r.payload.body == j.payload.body
               && r.attempts == Some(3) && r.attemptsMade == 0
  {
  }

  /** A link of a causal chain, from a job to one its handler enqueues or from an entry to its replay, keeps the
      tenant exactly if the parent's tenant is not the empty string, or the replaying caller's is the entry's.
      `kept` says that all links so far did. */
  lemma LinkKeepsTenantIff(s: State, a: Action)
    requires IdsFresh(s) && Enabled(s, a) && (a.AddFrom? || a.ReplayAdd?)
    ensures s.nextJob in Apply(s, a).jobs
    ensures var j := Apply(s, a).jobs[s.nextJob];
            var before := if a.AddFrom? then s.jobs[a.parent].payload.tenant else s.entries[a.entry].payload.tenant;
            var keptBefore := if a.AddFrom? then s.jobs[a.parent].kept else s.entries[a.entry].kept;
            && (j.kept <==> keptBefore && j.payload.tenant == before)
            && (j.payload.tenant == before <==> if a.AddFrom? then before != Some("") else a.ambient == before)
  {
  }

  predicate JobTenantKept(j: Job) {
    j.kept ==> j.payload.tenant == j.origin
  }

  predicate EntryTenantKept(e: Entry) {
    e.tenantId == e.payload.tenant && (e.kept ==> e.payload.tenant == e.origin)
  }

  ghost predicate TenantsKept(s: State) {
    && (forall id :: id in s.jobs ==> JobTenantKept(s.jobs[id]))
    && (forall id :: id in s.done ==> JobTenantKept(s.done[id]))
    && (forall e :: 0 <= e < |s.entries| ==> EntryTenantKept(s.entries[e]))
  }

  lemma JobTenantStep(s: State, a: Action, id: JobId)
    requires TenantsKept(s) && Enabled(s, a) && id in Apply(s, a).jobs
    ensures JobTenantKept(Apply(s, a).jobs[id])
  {
    if id in s.jobs {
      assert JobTenantKept(s.jobs[id]);
    } else if a.ReplayAdd? {
      assert EntryTenantKept(s.entries[a.entry]);
    } else if a.AddFrom? {
      assert JobTenantKept(s.jobs[a.parent]);
    }
  }

  lemma EntryTenantStep(s: State, a: Action, e: EntryId)
    requires TenantsKept(s) && Enabled(s, a) && e < |Apply(s, a).entries|
    ensures EntryTenantKept(Apply(s, a).entries[e])
  {
    if e < |s.entries| {
      assert Apply(s, a).entries[e] == s.entries[e];
    } else {
      assert JobTenantKept(s.jobs[a.id]);
    }
  }

  lemma TenantsStep(s: State, a: Action)
    requires TenantsKept(s) && Enabled(s, a)
    ensures TenantsKept(Apply(s, a))
  {
    var s' := Apply(s, a);
    forall id | id in s'.jobs ensures JobTenantKept(s'.jobs[id]) {
      JobTenantStep(s, a, id);
    }
    forall id | id in s'.done ensures JobTenantKept(s'.done[id]) {
      if id !in s.done { assert JobTenantKept(s.jobs[id]); }
    }
    forall e | 0 <= e < |s'.entries| ensures EntryTenantKept(s'.entries[e]) {
      EntryTenantStep(s, a, e);
    }
  }

  /** In every run: jobs and entries carry the tenant at the head of their chain, of enqueues from handlers,
      dead-letterings and replays of any length, as long as every link of that very chain kept the tenant;
      and an entry always names its job's. Other chains do not matter. */
  lemma {:induction false} TenantInherited(states: seq<State>, acts: seq<Action>, i: nat)
    requires IsRun(states, acts) && i < |states|
    ensures TenantsKept(states[i])
  {
    if i > 0 {
      TenantInherited(states, acts, i - 1);
      assert Enabled(states[i - 1], acts[i - 1]);
      TenantsStep(states[i - 1], acts[i - 1]);
    }
  }
}
