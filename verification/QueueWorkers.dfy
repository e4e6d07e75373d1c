/** The queue service, the worker base class and the dead-letter replay in their own form: objects that
    change the queues. Each method is one uninterrupted stretch of code, and one action of module Jobs. */
module QueueWorkers {
  import opened Basics
  import opened Jobs

  /** The queues in Redis, and the service that adds to them. */
  class QueueService {
    const counting: Counting
    const wired: bool                       // do the workers have this service?
    var jobs: map<JobId, Job>
    var done: map<JobId, Job>
    var nextJob: nat
    var entries: seq<Entry>
    var dlq: set<EntryId>
    var readded: set<EntryId>
    var roots: nat

    ghost var states: seq<State>
    ghost var acts: seq<Action>

    ghost function Snapshot(): State
      reads this
    {
      State(counting, wired, jobs, done, nextJob, entries, dlq, readded, roots)
    }

    ghost predicate Valid()
      reads this
    {
      IsRun(states, acts) && states[|acts|] == Snapshot()
    }

    /** The step this action names, and no other, was added to the history. */
    twostate predicate Performed(a: Action)
      reads this
    {
      && Enabled(old(Snapshot()), a)
      && Snapshot() == Apply(old(Snapshot()), a)
      && acts == old(acts) + [a] && states == old(states) + [Snapshot()]
    }

    constructor (counting: Counting, wired: bool)
      ensures Valid() && Snapshot() == Init(counting, wired)
    {
      this.counting, this.wired := counting, wired;
      jobs, done, nextJob, entries, dlq, readded, roots := map[], map[], 0, [], {}, {}, 0;
      states, acts := [Init(counting, wired)], [];
    }

    ghost method Record(a: Action)
      modifies this`states, this`acts
      ensures acts == old(acts) + [a] && states == old(states) + [Snapshot()]
    {
      acts := acts + [a];
      states := states + [Snapshot()];
    }

    /** `addJob`: stamps the ambient tenant over whatever the data carried, and merges the options over the
        defaults. A job whose producer says nothing of attempts has three; one whose producer passes an
        undefined value has one. */
    method AddJob(queue: string, name: string, data: Payload, opts: JobsOptions, ambient: Option<string>,
                  root: nat, origin: Option<string>, kept: bool)
      modifies this`jobs, this`nextJob
      ensures jobs == old(jobs)[old(nextJob) := NewJob(queue, name, data, opts, ambient, root, origin, kept)]
      ensures jobs[old(nextJob)].Budget()
           == if opts.NoAttempts? then 3 else if opts.value.Some? then opts.value.value else 1
      ensures nextJob == old(nextJob) + 1
    {
      var payload := Payload(data.body, ambient);
      var attempts := Some(DEFAULT_ATTEMPTS);
      if opts.Attempts? {
        attempts := opts.value;
      }
      jobs := jobs[nextJob := Job(queue, name, payload, attempts, 0, 0, Waiting, 0, 0, root, origin, kept)];
      nextJob := nextJob + 1;
    }

    /** `moveToDeadLetter`; `ok` is false when the add to the dead-letter queue throws. */
    method MoveToDeadLetter(id: JobId, ambient: Option<string>, ok: bool) returns (added: bool)
      requires id in jobs
      modifies this`entries, this`dlq
      ensures added == ok
      ensures entries == if ok then old(entries) + [DeadLetter(id, jobs[id], ambient)] else old(entries)
      ensures dlq == if ok then old(dlq) + {|old(entries)|} else old(dlq)
    {
      var j := jobs[id];
      var tenantId := if j.payload.tenant.Some? then j.payload.tenant else ambient;
      if !ok {
        return false;
      }
      dlq := dlq + {|entries|};
      entries := entries + [Entry(j.queue, j.name, id, j.attemptsMade, tenantId, j.payload, j.root, j.origin, j.kept)];
      added := true;
    }

    /** A producer outside any job, for example a controller, under the request's tenant. */
    method Enqueue(queue: string, name: string, data: Payload, opts: JobsOptions, ambient: Option<string>)
      requires Valid()
      modifies this
      ensures Valid() && Performed(Add(queue, name, data, opts, ambient))
    {
      AddJob(queue, name, data, opts, ambient, roots, ambient, true);
      roots := roots + 1;
      Record(Add(queue, name, data, opts, ambient));
    }

    /** First half of `replayDeadLetterJob`: an unknown entry is reported, a known one is added again. */
    method ReplayAdd(e: EntryId, ambient: Option<string>) returns (found: bool)
      requires Valid()
      modifies this
      ensures Valid()
      ensures found <==> e in old(dlq)
      ensures if found then Performed(Action.ReplayAdd(e, ambient)) else Snapshot() == old(Snapshot())
      ensures found ==> nextJob == old(nextJob) + 1 && e in dlq
    {
      RunIdsFresh(states, acts, |acts|);
      if e !in dlq {
        return false;
      }
      var payload := entries[e];
      AddJob(payload.sourceQueue, payload.jobName, payload.payload, NoAttempts, ambient, payload.root, payload.origin,
             payload.kept && ambient == payload.payload.tenant);
      readded := readded + {e};
      Record(Action.ReplayAdd(e, ambient));
      found := true;
    }

    /** Second half: by now the work is carried elsewhere, so removing the entry loses nothing. */
    method ReplayRemove(e: EntryId)
      requires Valid() && e in dlq && e in readded
      modifies this
      ensures Valid() && Performed(Action.ReplayRemove(e))
      ensures e !in dlq && dlq == old(dlq) - {e} && jobs == old(jobs)
      ensures forall root :: 0 <= root < roots ==> Accounted(Snapshot(), root)
    {
      dlq := dlq - {e};
      Record(Action.ReplayRemove(e));
      forall root | 0 <= root < roots ensures Accounted(Snapshot(), root) {
        NoWorkIsLost(states, acts, |acts|, root);
      }
    }

    // ---- BullMQ's own steps ----

    method Hand(id: JobId)
      requires Valid() && id in jobs && jobs[id].phase.Waiting?
      modifies this
      ensures Valid() && Performed(Start(id))
    {
      var j := jobs[id];
      jobs := jobs[id := j.(phase := Active, runs := j.runs + 1,
                            attemptsMade := if counting == AtStart then j.attemptsMade + 1 else j.attemptsMade)];
      Record(Start(id));
    }

    method Finish(id: JobId)
      requires Valid() && id in jobs && jobs[id].phase.Active?
      modifies this
      ensures Valid() && Performed(Complete(id))
    {
      done := done[id := jobs[id]];
      jobs := jobs - {id};
      Record(Complete(id));
    }

    method RetryOrFail(id: JobId)
      requires Valid() && id in jobs && jobs[id].phase.Thrown?
      modifies this
      ensures Valid() && Performed(Settle(id))
    {
      var j := jobs[id];
      var made := if counting == AtStart then j.attemptsMade else j.attemptsMade + 1;
      var phase := FailedSet(j.phase.routed);
      if j.phase.unrecoverable {
        phase := Dropped(j.phase.routed);
      } else if made < j.Budget() {
        phase := Delayed;
      }
      jobs := jobs[id := j.(attemptsMade := made, phase := phase)];
      Record(Settle(id));
    }

    method Wake(id: JobId)
      requires Valid() && id in jobs && jobs[id].phase.Delayed?
      modifies this
      ensures Valid() && Performed(Promote(id))
    {
      jobs := jobs[id := jobs[id].(phase := Waiting)];
      Record(Promote(id));
    }

    method CheckStalled(id: JobId)
      requires Valid() && id in jobs
      requires jobs[id].phase.Active? || jobs[id].phase.Routing? || jobs[id].phase.Thrown?
      modifies this
      ensures Valid() && Performed(Stall(id))
    {
      var j := jobs[id];
      var phase := Waiting;
      if j.stalls + 1 > MAX_STALLED_COUNT {
        phase := Dropped(j.phase.Thrown? && j.phase.routed);
      }
      var strays := if j.phase.Thrown? && j.phase.routed then j.strays + 1 else j.strays;
      jobs := jobs[id := j.(stalls := j.stalls + 1, strays := strays, phase := phase)];
      Record(Stall(id));
    }
  }

  /** The worker base class. */
  class BaseWorker {
    const queues: QueueService

    constructor (queues: QueueService)
      ensures this.queues == queues
    {
      this.queues := queues;
    }

    /** The tenant context `process` opens around the handler. */
    method TenantOf(id: JobId) returns (ambient: Option<string>)
      requires id in queues.jobs
      ensures ambient == Ambient(queues.jobs[id].payload)
    {
      var tenantId := queues.jobs[id].payload.tenant;
      ambient := None;
      if tenantId.Some? && tenantId.value != "" {
        ambient := tenantId;
      }
    }

    /** A handler enqueues more work: it inherits the tenant of the job being processed. */
    method EnqueueFromHandler(id: JobId, queue: string, name: string, data: Payload, opts: JobsOptions)
      requires queues.Valid() && id in queues.jobs && queues.jobs[id].phase.Active?
      modifies queues
      ensures queues.Valid() && queues.Performed(AddFrom(id, queue, name, data, opts))
      ensures queues.nextJob == old(queues.nextJob) + 1 && old(queues.nextJob) in queues.jobs
      ensures old(queues.jobs[id].payload.tenant) != Some("") ==>
                queues.jobs[old(queues.nextJob)].payload.tenant == old(queues.jobs[id].payload.tenant)
    {
      var ambient := TenantOf(id);
      var root, origin := queues.roots, queues.jobs[id].origin;
      var kept := queues.jobs[id].kept && queues.jobs[id].payload.tenant != Some("");
      queues.AddJob(queue, name, data, opts, ambient, root, origin, kept);
      queues.roots := queues.roots + 1;
      queues.Record(AddFrom(id, queue, name, data, opts));
    }

    /** `handleFailure` up to its await: an attempt below the budget is left to BullMQ's retry. */
    method HandleFailure(id: JobId, unrecoverable: bool) returns (routes: bool)
      requires queues.Valid() && id in queues.jobs && queues.jobs[id].phase.Active?
      modifies queues
      ensures queues.Valid() && queues.Performed(Throw(id, unrecoverable))
      ensures routes <==> old(queues.jobs[id].attemptsMade) >= old(queues.jobs[id].Budget())
    {
      var j := queues.jobs[id];
      var maxAttempts := if j.attempts.Some? then j.attempts.value else 1;
      if j.attemptsMade < maxAttempts {
        queues.jobs := queues.jobs[id := j.(phase := Thrown(unrecoverable, false))];
        routes := false;
      } else {
        queues.jobs := queues.jobs[id := j.(phase := Routing(unrecoverable))];
        routes := true;
      }
      queues.Record(Throw(id, unrecoverable));
    }

    /** `routeToDeadLetter` on behalf of `process`; an add that throws is logged and swallowed. */
    method RouteToDeadLetter(id: JobId, ok: bool)
      requires queues.Valid() && id in queues.jobs && queues.jobs[id].phase.Routing?
      modifies queues
      ensures queues.Valid() && queues.Performed(Route(id, ok))
    {
      var j := queues.jobs[id];
      var ambient := TenantOf(id);
      var added := false;
      if queues.wired {
        added := queues.MoveToDeadLetter(id, ambient, ok);
      }
      queues.jobs := queues.jobs[id := j.(phase := Thrown(j.phase.unrecoverable, added))];
      queues.Record(Route(id, ok));
    }

    /** The `failed` listener, which runs outside any tenant context. The entry still names the job's tenant. */
    method FailedListener(id: JobId, ok: bool)
      requires queues.Valid() && id in queues.jobs && queues.jobs[id].phase.Dropped?
      modifies queues
      ensures queues.Valid() && queues.Performed(OnFailed(id, ok))
      ensures queues.wired && ok ==>
                |queues.entries| == |old(queues.entries)| + 1
                && queues.entries[|old(queues.entries)|].tenantId == old(queues.jobs[id].payload.tenant)
    {
      var j := queues.jobs[id];
      var added := false;
      if queues.wired {
        added := queues.MoveToDeadLetter(id, None, ok);
      }
      queues.jobs := queues.jobs[id := j.(phase := FailedSet(j.phase.routed || added))];
      queues.Record(OnFailed(id, ok));
    }
  }
}
