/** Incidents and the statuses they should follow: the table against the jobs handled, the jobs against the
    statuses saved, and what becomes of both when sweeps or handlers of a service overlap. */
module AdminIncidents {
  import opened Basics
  import opened AdminWorld

  // ---- the incidents table ----

  /** Incidents of a service still open, counted as created minus resolved. */
  function Created(rows: seq<Incident>, k: Key): nat {
    if rows == [] then 0
    else Created(rows[..|rows| - 1], k) + if rows[|rows| - 1].key == k then 1 else 0
  }

  function Resolved(rows: seq<Incident>, k: Key): nat {
    if rows == [] then 0
    else
      var last := rows[|rows| - 1];
      Resolved(rows[..|rows| - 1], k) + if last.key == k && last.status == RESOLVED then 1 else 0
  }

  /** At most one open incident, and the count knows it. */
  ghost predicate OneOpen(rows: seq<Incident>, k: Key) {
    && (forall i, j :: 0 <= i < |rows| && 0 <= j < |rows| && IsOpen(rows[i], k) && IsOpen(rows[j], k) ==> i == j)
    && Created(rows, k) - Resolved(rows, k) == if OpenSeverity(rows, k).Some? then 1 else 0
  }

  lemma {:induction false} CountsAfterUpdate(rows: seq<Incident>, at: nat, row: Incident, k: Key)
    requires at < |rows| && row.key == rows[at].key
    ensures Created(rows[at := row], k) == Created(rows, k)
    ensures Resolved(rows[at := row], k) - Resolved(rows, k)
         == if row.key != k || (row.status == RESOLVED) == (rows[at].status == RESOLVED) then 0
            else if row.status == RESOLVED then 1 else -1
  {
    var n := |rows| - 1;
    if at == n {
      assert rows[at := row][..n] == rows[..n];
    } else {
      assert rows[at := row][..n] == rows[..n][at := row];
      CountsAfterUpdate(rows[..n], at, row, k);
    }
  }

  /** Replacing a row of the same service keeps every other service's incidents as they are. */
  lemma UpdateElsewhere(rows: seq<Incident>, at: nat, row: Incident, k: Key)
    requires at < |rows| && row.key == rows[at].key != k && OneOpen(rows, k)
    ensures OneOpen(rows[at := row], k) && OpenSeverity(rows[at := row], k) == OpenSeverity(rows, k)
  {
    var rows' := rows[at := row];
    CountsAfterUpdate(rows, at, row, k);
    assert forall i :: 0 <= i < |rows| && i != at ==> rows'[i] == rows[i];
    assert FindOpen(rows', k) == FindOpen(rows, k) by {
      var r, r' := FindOpen(rows, k), FindOpen(rows', k);
      if r.Some? { assert IsOpen(rows'[r.value], k); }
      if r'.Some? { assert IsOpen(rows[r'.value], k); }
    }
  }

  /** Escalating the open incident changes its severity; resolving it leaves none. */
  lemma UpdateOpen(rows: seq<Incident>, at: nat, row: Incident, k: Key)
    requires FindOpen(rows, k) == Some(at) && row.key == k && OneOpen(rows, k)
    ensures OneOpen(rows[at := row], k)
    ensures OpenSeverity(rows[at := row], k) == if row.status == RESOLVED then None else Some(row.severity)
  {
    var rows' := rows[at := row];
    CountsAfterUpdate(rows, at, row, k);
    assert forall i :: 0 <= i < |rows| && i != at ==> rows'[i] == rows[i] && !IsOpen(rows'[i], k);
    if row.status != RESOLVED {
      assert IsOpen(rows'[at], k);
    }
  }

  /** A created incident is the open one of its service, if that had none. */
  lemma CreateIncident(rows: seq<Incident>, row: Incident, k: Key)
    requires row.status == OPEN && OneOpen(rows, k) && (row.key == k ==> FindOpen(rows, k).None?)
    ensures OneOpen(rows + [row], k)
    ensures OpenSeverity(rows + [row], k) == if row.key == k then Some(row.severity) else OpenSeverity(rows, k)
  {
    assert (rows + [row])[..|rows|] == rows;
  }

  /** What a handler's save does to the service's open incident when nobody came between its search and save. */
  lemma UndisturbedSave(rows: seq<Incident>, k: Key, ask: Option<Severity>)
    requires OneOpen(rows, k)
    ensures var rows' := SaveFound(rows, k, ask, Find(rows, k)); OneOpen(rows', k) && OpenSeverity(rows', k) == ask
  {
    var found := Find(rows, k);
    if found.Some? {
      UpdateOpen(rows, found.value.at, SaveFound(rows, k, ask, found)[found.value.at], k);
    } else if ask.Some? {
      CreateIncident(rows, Incident(k, ask.value, OPEN), k);
    }
  }

  /** A save for another service leaves this one's incidents as they are. */
  lemma SaveElsewhere(rows: seq<Incident>, other: Key, ask: Option<Severity>, found: Option<Found>, k: Key)
    requires other != k && FoundIn(rows, found, other) && OneOpen(rows, k)
    ensures var rows' := SaveFound(rows, other, ask, found);
            OneOpen(rows', k) && OpenSeverity(rows', k) == OpenSeverity(rows, k)
                && FindOpen(rows', k) == FindOpen(rows, k)
  {
    if found.Some? {
      UpdateElsewhere(rows, found.value.at, SaveFound(rows, other, ask, found)[found.value.at], k);
    } else if ask.Some? {
      CreateIncident(rows, Incident(other, ask.value, OPEN), k);
      assert (rows + [Incident(other, ask.value, OPEN)])[..|rows|] == rows;
    }
  }

  /** The row a handler found is in the table, whatever has been made of it since. */
  predicate FoundIn(rows: seq<Incident>, found: Option<Found>, k: Key) {
    found.Some? ==> found.value.at < |rows| && rows[found.value.at].key == k && IsOpen(found.value.row, k)
  }

  lemma Reopen(rows: seq<Incident>, at: nat, row: Incident, k: Key)
    requires at < |rows| && row.key == rows[at].key == k && OneOpen(rows, k) && FindOpen(rows, k).None?
    ensures OneOpen(rows[at := row], k)
    ensures OpenSeverity(rows[at := row], k) == if row.status == RESOLVED then None else Some(row.severity)
  {
    var rows' := rows[at := row];
    CountsAfterUpdate(rows, at, row, k);
    assert !IsOpen(rows[at], k);
    assert forall i :: 0 <= i < |rows| && i != at ==> rows'[i] == rows[i] && !IsOpen(rows'[i], k);
    if row.status != RESOLVED {
      assert IsOpen(rows'[at], k);
    }
  }

  lemma OtherStaysOpen(rows: seq<Incident>, at: nat, row: Incident, k: Key)
    requires at < |rows| && row.key == k && FindOpen(rows, k).Some? && FindOpen(rows, k).value != at
    ensures OpenSeverity(rows[at := row], k).Some?
    ensures row.status != RESOLVED ==> !OneOpen(rows[at := row], k)
  {
    var other, rows' := FindOpen(rows, k).value, rows[at := row];
    assert IsOpen(rows'[other], k);
    assert row.status != RESOLVED ==> IsOpen(rows'[at], k);
  }

  lemma SecondOpen(rows: seq<Incident>, row: Incident, k: Key)
    requires row.key == k && row.status == OPEN && FindOpen(rows, k).Some?
    ensures !OneOpen(rows + [row], k)
  {
    var other, rows' := FindOpen(rows, k).value, rows + [row];
    assert IsOpen(rows'[other], k) && IsOpen(rows'[|rows|], k);
  }

  /** A handler that saves after others have changed the table leaves the one open incident its job asks for
      if and only if the table holds, by then, no open incident of the service but the one it found. */
  lemma StaleSaveIff(rows: seq<Incident>, k: Key, ask: Option<Severity>, found: Option<Found>)
    requires OneOpen(rows, k) && FoundIn(rows, found, k)
    ensures var rows' := SaveFound(rows, k, ask, found);
            OneOpen(rows', k) && OpenSeverity(rows', k) == ask <==> OnlyFoundOpen(rows, k, found)
  {
    var open, rows' := FindOpen(rows, k), SaveFound(rows, k, ask, found);
    if found.Some? {
      var at := found.value.at;
      if open.None? {
        Reopen(rows, at, rows'[at], k);
      } else if open.value == at {
        UpdateOpen(rows, at, rows'[at], k);
      } else {
        OtherStaysOpen(rows, at, rows'[at], k);
      }
    } else if ask.Some? {
      if open.None? {
        CreateIncident(rows, Incident(k, ask.value, OPEN), k);
      } else {
        SecondOpen(rows, Incident(k, ask.value, OPEN), k);
      }
    }
  }

  /** No incident of the service is open but the one that was found. */
  predicate OnlyFoundOpen(rows: seq<Incident>, k: Key, found: Option<Found>) {
    FindOpen(rows, k).None? || (found.Some? && FindOpen(rows, k) == Some(found.value.at))
  }

  // ---- what a history of statuses deserves ----

  /** Did the observed status ever change? */
  ghost predicate Changed(h: seq<HealthStatus>) {
    exists i :: 0 <= i < |h| - 1 && h[i] != h[i + 1]
  }

  /** The open incident a history of statuses should leave. */
  ghost function Deserved(h: seq<HealthStatus>): Option<Severity> {
    if !Changed(h) then None
    else if h[|h| - 1] == DOWN then Some(CRITICAL)
    else if h[|h| - 1] == DEGRADED then Some(MEDIUM)
    else None
  }

  lemma DeservedAppend(h: seq<HealthStatus>, status: HealthStatus)
    ensures h == [] ==> Deserved(h + [status]) == None == Deserved(h)
    ensures h != [] && h[|h| - 1] == status ==> Deserved(h + [status]) == Deserved(h)
    ensures h != [] && h[|h| - 1] != status ==> Deserved(h + [status]) == Calls(status)
  {
    var h' := h + [status];
    if h != [] && h[|h| - 1] != status {
      assert h'[|h| - 1] != h'[|h|];
      assert Changed(h');
    } else {
      forall i | 0 <= i < |h'| - 1 && h'[i] != h'[i + 1] ensures 0 <= i < |h| - 1 && h[i] != h[i + 1] {}
      forall i | 0 <= i < |h| - 1 && h[i] != h[i + 1] ensures h'[i] != h'[i + 1] {}
      assert Changed(h) <==> Changed(h');
    }
  }

  // ---- the table follows the handlers ----

  /** At most one open incident, as the last handler to write asked. */
  ghost predicate TableFollows(w: World, k: Key) {
    OneOpen(w.incidents, k) && OpenSeverity(w.incidents, k) == Done(w, k)
  }

  /** Is this the write of a handler of this service? */
  predicate Writes(w: World, a: Action, k: Key) {
    a.WriteIncident? && Busied(w, a.handler, Searched) && w.handlers[a.handler].key == k
  }

  /** If so, no incident of the service is open by now but the one the handler found. */
  predicate CleanWrite(w: World, a: Action, k: Key) {
    Writes(w, a, k) ==> OnlyFoundOpen(w.incidents, k, w.handlers[a.handler].found)
  }

  /** What handlers found is in the table. */
  ghost predicate HandlersSound(w: World) {
    forall h :: 0 <= h < |w.handlers| ==> FoundIn(w.incidents, w.handlers[h].found, w.handlers[h].key)
  }

  /** Rows are never removed and keep their service. */
  lemma SaveKeepsKeys(rows: seq<Incident>, k: Key, ask: Option<Severity>, found: Option<Found>)
    requires FoundIn(rows, found, k)
    ensures var rows' := SaveFound(rows, k, ask, found);
            |rows| <= |rows'| && forall i :: 0 <= i < |rows| ==> rows'[i].key == rows[i].key
  {
  }

  lemma SoundWrite(w: World, h: nat)
    requires HandlersSound(w) && Busied(w, h, Searched)
    ensures HandlersSound(WriteStep(w, h))
  {
    var x, w' := w.handlers[h], WriteStep(w, h);
    assert FoundIn(w.incidents, x.found, x.key);
    SaveKeepsKeys(w.incidents, x.key, x.ask, x.found);
    forall i | 0 <= i < |w'.handlers| ensures FoundIn(w'.incidents, w'.handlers[i].found, w'.handlers[i].key) {
      assert FoundIn(w.incidents, w.handlers[i].found, w.handlers[i].key);
    }
  }

  /** Only a write changes what has been written, and the handlers at work before stay where they were unless
      they move on themselves. */
  lemma TableFrame(w: World, a: Action)
    requires Enabled(w, a) && !a.WriteIncident?
    ensures var w' := Apply(w, a);
            && w'.incidents == w.incidents && w'.done == w.done
            && |w.handlers| <= |w'.handlers|
            && (!a.HandleAt? ==> |w.handlers| == |w'.handlers|)
            && forall h :: 0 <= h < |w.handlers| ==>
                 w'.handlers[h] == w.handlers[h].(stage := w'.handlers[h].stage)
                 && (w'.handlers[h].stage == Searched <==> w.handlers[h].stage == Searched)
  {
    if a.HandleAt? {
      HandleFrame(w, a.at, a.failedDeliveries);
    }
  }

  lemma HandlersStep(w: World, a: Action)
    requires HandlersSound(w) && Enabled(w, a)
    ensures HandlersSound(Apply(w, a))
  {
    if a.WriteIncident? {
      SoundWrite(w, a.handler);
    } else {
      var w' := Apply(w, a);
      TableFrame(w, a);
      if a.HandleAt? {
        HandleFrame(w, a.at, a.failedDeliveries);
      }
      forall h | 0 <= h < |w'.handlers| ensures FoundIn(w'.incidents, w'.handlers[h].found, w'.handlers[h].key) {
        if h < |w.handlers| {
          assert FoundIn(w.incidents, w.handlers[h].found, w.handlers[h].key);
        }
      }
    }
  }

  lemma {:induction false} RunHandlers(worlds: seq<World>, acts: seq<Action>, i: nat)
    requires IsRun(worlds, acts) && worlds[0] == Init && i < |worlds|
    ensures HandlersSound(worlds[i])
  {
    if i > 0 {
      RunHandlers(worlds, acts, i - 1);
      assert StepAt(worlds, acts, i - 1);
      HandlersStep(worlds[i - 1], acts[i - 1]);
    }
  }

  lemma TableStep(w: World, a: Action, k: Key)
    requires Enabled(w, a) && HandlersSound(w) && TableFollows(w, k)
    ensures TableFollows(Apply(w, a), k) <==> CleanWrite(w, a, k)
  {
    if a.WriteIncident? {
      var x := w.handlers[a.handler];
      assert FoundIn(w.incidents, x.found, x.key);
      if x.key == k {
        StaleSaveIff(w.incidents, k, x.ask, x.found);
      } else {
        SaveElsewhere(w.incidents, x.key, x.ask, x.found, k);
      }
    } else {
      TableFrame(w, a);
    }
  }

  ghost predicate TableFollowed(worlds: seq<World>, n: nat, k: Key)
    requires n < |worlds|
  {
    forall i :: 0 <= i <= n ==> TableFollows(worlds[i], k)
  }

  ghost predicate WritesClean(worlds: seq<World>, acts: seq<Action>, n: nat, k: Key)
    requires n <= |acts| < |worlds|
  {
    forall i :: 0 <= i < n ==> CleanWrite(worlds[i], acts[i], k)
  }

  /** In every run, whatever the order of handling and however sweeps and handlers overlap: a service has had, all
      along, at most one open incident, the one the last handler to write asked for, if and only if every handler
      wrote while no incident of the service was open but the one it had found. */
  lemma {:induction false} OpenIsLastWrittenIff(worlds: seq<World>, acts: seq<Action>, n: nat, k: Key)
    requires IsRun(worlds, acts) && worlds[0] == Init && n <= |acts|
    ensures TableFollowed(worlds, n, k) <==> WritesClean(worlds, acts, n, k)
  {
    if n > 0 {
      OpenIsLastWrittenIff(worlds, acts, n - 1, k);
      OneMore(worlds, acts, n, k);
      RunTableStep(worlds, acts, n, k);
    }
  }

  lemma RunTableStep(worlds: seq<World>, acts: seq<Action>, n: nat, k: Key)
    requires IsRun(worlds, acts) && worlds[0] == Init && 0 < n <= |acts|
    ensures TableFollows(worlds[n - 1], k) ==>
              (TableFollows(worlds[n], k) <==> CleanWrite(worlds[n - 1], acts[n - 1], k))
  {
    RunHandlers(worlds, acts, n - 1);
    assert StepAt(worlds, acts, n - 1);
    if TableFollows(worlds[n - 1], k) {
      TableStep(worlds[n - 1], acts[n - 1], k);
    }
  }

  lemma OneMore(worlds: seq<World>, acts: seq<Action>, n: nat, k: Key)
    requires 0 < n <= |acts| < |worlds|
    ensures TableFollowed(worlds, n, k) <==> TableFollowed(worlds, n - 1, k) && TableFollows(worlds[n], k)
    ensures TableFollowed(worlds, n - 1, k) ==> TableFollows(worlds[n - 1], k)
    ensures WritesClean(worlds, acts, n, k)
            <==> WritesClean(worlds, acts, n - 1, k) && CleanWrite(worlds[n - 1], acts[n - 1], k)
  {
  }

  // ---- the statuses, and what is told of them ----

  /** What a sweep under way knows of the statuses saved so far: the status it read is one of them, and a
      change it is telling of did happen. */
  ghost predicate SweepSound(h: seq<HealthStatus>, s: Sweep, k: Key) {
    && (Busy(s, k) && s.stage.Checked? && s.stage.before.Some? ==> s.stage.before.value in h)
    && (Telling(s, k) ==> Changed(h))
  }

  /** The table holds the last status saved; only changes are told. */
  ghost predicate Sound(w: World, k: Key) {
    && Stored(w, k) == (if Seen(w, k) == [] then None else Some(Seen(w, k)[|Seen(w, k)| - 1]))
    && (k in w.told ==> Changed(Seen(w, k)))
    && forall i :: 0 <= i < |w.sweeps| ==> SweepSound(Seen(w, k), w.sweeps[i], k)
  }

  lemma ChangedAppend(h: seq<HealthStatus>, status: HealthStatus)
    ensures Changed(h) ==> Changed(h + [status])
    ensures forall b :: b in h && b != status ==> Changed(h + [status])
  {
    var h' := h + [status];
    if Changed(h) {
      var i :| 0 <= i < |h| - 1 && h[i] != h[i + 1];
      assert h'[i] != h'[i + 1];
    }
    forall b | b in h && b != status ensures Changed(h') {
      var i :| 0 <= i < |h| && h[i] == b;
      FindsChange(h', i);
    }
  }

  /** Between two different statuses there is a change. */
  lemma {:induction false} FindsChange(h: seq<HealthStatus>, i: nat)
    requires i < |h| && h[i] != h[|h| - 1]
    ensures Changed(h)
    decreases |h| - i
  {
    if h[i] == h[i + 1] {
      FindsChange(h, i + 1);
    }
  }

  lemma SoundSave(w: World, id: nat, k: Key)
    requires Live(w, id) && w.sweeps[id].stage.Checked? && Sound(w, k)
    ensures Sound(SaveStep(w, id), k)
  {
    var s, w' := w.sweeps[id], SaveStep(w, id);
    if At(s) == k {
      assert Busy(s, k);
      ChangedAppend(Seen(w, k), s.stage.status);
    }
  }

  lemma SoundQueue(w: World, id: nat, k: Key)
    requires Live(w, id) && w.sweeps[id].stage.Notified? && Sound(w, k)
    ensures Sound(QueueStep(w, id), k)
  {
    assert SweepSound(Seen(w, k), w.sweeps[id], k);
    assert At(w.sweeps[id]) == k ==> Telling(w.sweeps[id], k);
  }

  /** Steps that neither save nor queue: new sweeps are not busy yet. */
  lemma SoundElse(w: World, w': World, k: Key)
    requires Sound(w, k) && w'.health == w.health && w'.seen == w.seen && (k in w'.told <==> k in w.told)
    requires |w.sweeps| <= |w'.sweeps|
    requires forall i :: 0 <= i < |w.sweeps| ==> w'.sweeps[i] == w.sweeps[i]
    requires forall i :: |w.sweeps| <= i < |w'.sweeps| ==> w'.sweeps[i].stage == Ready
    ensures Sound(w', k)
  {
    forall i | 0 <= i < |w'.sweeps| ensures SweepSound(Seen(w', k), w'.sweeps[i], k) {
      assert i < |w.sweeps| ==> SweepSound(Seen(w, k), w.sweeps[i], k);
    }
  }

  /** The steps of a sweep that read the row, feed analytics and notify the webhooks. */
  lemma SoundSweep(w: World, a: Action, k: Key)
    requires Enabled(w, a) && Sound(w, k) && (a.CheckService? || a.Announce? || a.Notify?)
    ensures Sound(Apply(w, a), k)
  {
    var w', s := Apply(w, a), w.sweeps[a.id];
    assert SweepSound(Seen(w, k), s, k);
    forall i | 0 <= i < |w'.sweeps| ensures SweepSound(Seen(w', k), w'.sweeps[i], k) {
      assert SweepSound(Seen(w, k), w.sweeps[i], k);
    }
  }

  /** Actions that are not a sweep's: nothing saved changes, and sweeps only begin. */
  lemma ElseFrame(w: World, a: Action)
    requires Enabled(w, a)
             && (a.BeginSweep? || a.Enqueue? || a.HandleAt? || a.WriteIncident? || a.FeedIncident? || a.NotifyIncident?)
    ensures var w' := Apply(w, a);
            && w'.health == w.health && w'.seen == w.seen
            && (forall k: Key :: Monitored(k) ==> (k in w'.told <==> k in w.told) && Told(w', k) == Told(w, k))
            && |w.sweeps| <= |w'.sweeps|
            && (forall i :: 0 <= i < |w.sweeps| ==> w'.sweeps[i] == w.sweeps[i])
            && (forall i :: |w.sweeps| <= i < |w'.sweeps| ==> w'.sweeps[i].stage == Ready)
  {
    if a.HandleAt? {
      HandleFrame(w, a.at, a.failedDeliveries);
    }
  }

  lemma SoundStep(w: World, a: Action, k: Key)
    requires Enabled(w, a) && Sound(w, k) && Monitored(k)
    ensures Sound(Apply(w, a), k)
  {
    if a.SaveCheck? {
      SoundSave(w, a.id, k);
    } else if a.QueueIncident? {
      SoundQueue(w, a.id, k);
    } else if a.CheckService? || a.Announce? || a.Notify? {
      SoundSweep(w, a, k);
    } else {
      ElseFrame(w, a);
      SoundElse(w, Apply(w, a), k);
    }
  }

  lemma {:induction false} RunSound(worlds: seq<World>, acts: seq<Action>, i: nat, k: Key)
    requires IsRun(worlds, acts) && worlds[0] == Init && i < |worlds| && Monitored(k)
    ensures Sound(worlds[i], k)
  {
    if i > 0 {
      RunSound(worlds, acts, i - 1, k);
      assert StepAt(worlds, acts, i - 1);
      SoundStep(worlds[i - 1], acts[i - 1], k);
    }
  }

  // ---- when reports are fresh and queued in the order of their saves ----

  /** Is this a save by a sweep that is at this service? */
  predicate SavesStatus(w: World, a: Action, k: Key) {
    a.SaveCheck? && Enabled(w, a) && At(w.sweeps[a.id]) == k
  }

  /** A save of this service finds the status the check had read still stored. */
  predicate FreshSave(w: World, a: Action, k: Key) {
    SavesStatus(w, a, k) ==> w.sweeps[a.id].stage.before == Stored(w, k)
  }

  /** A sweep queues the job of its change before those that have saved a change of the service after it. */
  ghost predicate QueuesInOrder(w: World, a: Action, k: Key) {
    a.QueueIncident? && Enabled(w, a) && At(w.sweeps[a.id]) == k ==>
      forall j :: 0 <= j < |w.sweeps| && Telling(w.sweeps[j], k) ==> w.sweeps[a.id].savedAt <= w.sweeps[j].savedAt
  }

  ghost predicate NobodyTells(w: World, k: Key) {
    forall i :: 0 <= i < |w.sweeps| ==> !Telling(w.sweeps[i], k)
  }

  /** Of the sweeps telling of this service, the i-th has saved last. */
  ghost predicate TellsLast(w: World, i: nat, k: Key) {
    && i < |w.sweeps| && Telling(w.sweeps[i], k)
    && forall j :: 0 <= j < |w.sweeps| && Telling(w.sweeps[j], k) ==> w.sweeps[j].savedAt <= w.sweeps[i].savedAt
  }

  /** What is told last will be, and once nobody tells is, what the history deserves. */
  ghost predicate WillBeTold(w: World, k: Key) {
    && (forall i :: 0 <= i < |w.sweeps| && Telling(w.sweeps[i], k) ==> w.sweeps[i].savedAt <= |Seen(w, k)|)
    && (forall i :: 0 <= i < |w.sweeps| && TellsLast(w, i, k) ==>
         Calls(w.sweeps[i].stage.status) == Deserved(Seen(w, k)))
    && (NobodyTells(w, k) ==> Told(w, k) == Deserved(Seen(w, k)))
  }

  /** Sweeps that neither begin nor stop telling, of a history that deserves the same. */
  lemma TellersStay(w: World, w': World, k: Key)
    requires WillBeTold(w, k) && Told(w', k) == Told(w, k)
    requires Deserved(Seen(w', k)) == Deserved(Seen(w, k)) && |Seen(w, k)| <= |Seen(w', k)| && |w.sweeps| <= |w'.sweeps|
    requires forall i :: 0 <= i < |w'.sweeps| && Telling(w'.sweeps[i], k) ==>
               i < |w.sweeps| && Telling(w.sweeps[i], k) && w'.sweeps[i].savedAt == w.sweeps[i].savedAt
               && w'.sweeps[i].stage.status == w.sweeps[i].stage.status
    requires forall i :: 0 <= i < |w.sweeps| && Telling(w.sweeps[i], k) ==> Telling(w'.sweeps[i], k)
    ensures WillBeTold(w', k)
  {
    forall i | 0 <= i < |w'.sweeps| && TellsLast(w', i, k)
      ensures Calls(w'.sweeps[i].stage.status) == Deserved(Seen(w', k))
    {
      assert Telling(w'.sweeps[i], k);
      forall j | 0 <= j < |w.sweeps| && Telling(w.sweeps[j], k) ensures w.sweeps[j].savedAt <= w.sweeps[i].savedAt {
        assert Telling(w'.sweeps[j], k);
      }
      assert TellsLast(w, i, k);
    }
    if NobodyTells(w', k) {
      forall i | 0 <= i < |w.sweeps| ensures !Telling(w.sweeps[i], k) {
        assert !Telling(w'.sweeps[i], k);
      }
    }
  }

  /** A sweep that has just saved a change tells last. */
  lemma ReportTells(w: World, id: nat, w': World, k: Key)
    requires id < |w.sweeps| == |w'.sweeps| && WillBeTold(w, k) && |Seen(w', k)| == |Seen(w, k)| + 1
    requires forall i :: 0 <= i < |w.sweeps| && i != id ==> w'.sweeps[i] == w.sweeps[i]
    requires Telling(w'.sweeps[id], k) && w'.sweeps[id].savedAt == |Seen(w', k)|
    requires Calls(w'.sweeps[id].stage.status) == Deserved(Seen(w', k))
    ensures WillBeTold(w', k)
  {
    forall i | 0 <= i < |w'.sweeps| && Telling(w'.sweeps[i], k)
      ensures w'.sweeps[i].savedAt <= |Seen(w', k)| && (TellsLast(w', i, k) ==> i == id)
    {
      assert i != id ==> Telling(w.sweeps[i], k) && w.sweeps[i].savedAt <= |Seen(w, k)|;
    }
    assert !NobodyTells(w', k);
  }

  lemma SaveTells(w: World, id: nat, k: Key)
    requires SavesStatus(w, SaveCheck(id), k) && FreshSave(w, SaveCheck(id), k) && Sound(w, k) && WillBeTold(w, k)
    ensures WillBeTold(SaveStep(w, id), k)
  {
    var w' := SaveStep(w, id);
    SavedFresh(w, id, k);
    if Reports(w.sweeps[id].stage) {
      ReportTells(w, id, w', k);
    } else {
      TellersStay(w, w', k);
    }
  }

  /** A report of a fresh read is of a real change, and without one the history deserves what it did. */
  lemma SavedFresh(w: World, id: nat, k: Key)
    requires SavesStatus(w, SaveCheck(id), k) && FreshSave(w, SaveCheck(id), k) && Sound(w, k)
    ensures var w', s := SaveStep(w, id), w.sweeps[id];
            && Seen(w', k) == Seen(w, k) + [s.stage.status] && Told(w', k) == Told(w, k)
            && (forall i :: 0 <= i < |w.sweeps| && i != id ==> w'.sweeps[i] == w.sweeps[i])
            && Deserved(Seen(w', k)) == (if Reports(s.stage) then Calls(s.stage.status) else Deserved(Seen(w, k)))
  {
    DeservedAppend(Seen(w, k), w.sweeps[id].stage.status);
  }

  lemma QueueTells(w: World, id: nat, k: Key)
    requires Enabled(w, QueueIncident(id)) && At(w.sweeps[id]) == k && QueuesInOrder(w, QueueIncident(id), k)
             && WillBeTold(w, k)
    ensures WillBeTold(QueueStep(w, id), k)
  {
    var s, w' := w.sweeps[id], QueueStep(w, id);
    assert Telling(s, k) && !Telling(w'.sweeps[id], k);
    assert forall i :: 0 <= i < |w.sweeps| && i != id ==> w'.sweeps[i] == w.sweeps[i];
    forall i | 0 <= i < |w'.sweeps| && TellsLast(w', i, k)
      ensures Calls(w'.sweeps[i].stage.status) == Deserved(Seen(w', k))
    {
      forall j | 0 <= j < |w.sweeps| && Telling(w.sweeps[j], k) ensures w.sweeps[j].savedAt <= w.sweeps[i].savedAt {
        assert j != id ==> Telling(w'.sweeps[j], k);
      }
      assert TellsLast(w, i, k);
    }
    assert NobodyTells(w', k) ==> TellsLast(w, id, k);
  }

  /** A step of one sweep that is at another service, or goes from one announcement to the next. */
  lemma MoveTells(w: World, id: nat, w': World, k: Key)
    requires id < |w.sweeps| == |w'.sweeps| && WillBeTold(w, k)
    requires Seen(w', k) == Seen(w, k) && Told(w', k) == Told(w, k)
    requires forall i :: 0 <= i < |w.sweeps| && i != id ==> w'.sweeps[i] == w.sweeps[i]
    requires Telling(w'.sweeps[id], k) <==> Telling(w.sweeps[id], k)
    requires Telling(w.sweeps[id], k) ==>
               w'.sweeps[id].savedAt == w.sweeps[id].savedAt && w'.sweeps[id].stage.status == w.sweeps[id].stage.status
    ensures WillBeTold(w', k)
  {
    TellersStay(w, w', k);
  }

  lemma ElsewhereTells(w: World, a: Action, k: Key)
    requires Enabled(w, a) && WillBeTold(w, k) && (a.SaveCheck? || a.QueueIncident?) && At(w.sweeps[a.id]) != k
    ensures WillBeTold(Apply(w, a), k)
  {
    MoveTells(w, a.id, Apply(w, a), k);
  }

  lemma AnnouncedTells(w: World, a: Action, k: Key)
    requires Enabled(w, a) && WillBeTold(w, k) && (a.CheckService? || a.Announce? || a.Notify?)
    ensures WillBeTold(Apply(w, a), k)
  {
    MoveTells(w, a.id, Apply(w, a), k);
  }

  lemma TellStepKeeps(w: World, a: Action, k: Key)
    requires Enabled(w, a) && Sound(w, k) && WillBeTold(w, k) && Monitored(k)
    requires FreshSave(w, a, k) && QueuesInOrder(w, a, k)
    ensures WillBeTold(Apply(w, a), k)
  {
    if SavesStatus(w, a, k) {
      SaveTells(w, a.id, k);
    } else if a.QueueIncident? && At(w.sweeps[a.id]) == k {
      QueueTells(w, a.id, k);
    } else if a.SaveCheck? || a.QueueIncident? {
      ElsewhereTells(w, a, k);
    } else if a.CheckService? || a.Announce? || a.Notify? {
      AnnouncedTells(w, a, k);
    } else {
      ElseFrame(w, a);
      TellersStay(w, Apply(w, a), k);
    }
  }

  /** The sweeps of the first n steps were orderly as far as this service goes. */
  ghost predicate OrderlyReports(worlds: seq<World>, acts: seq<Action>, n: nat, k: Key) {
    forall j :: 0 <= j < n && j < |acts| && j < |worlds| ==>
          FreshSave(worlds[j], acts[j], k) && QueuesInOrder(worlds[j], acts[j], k)
  }

  lemma RunTellStep(worlds: seq<World>, acts: seq<Action>, i: nat, k: Key)
    requires IsRun(worlds, acts) && worlds[0] == Init && 0 < i < |worlds| && Monitored(k)
             && WillBeTold(worlds[i - 1], k)
    requires FreshSave(worlds[i - 1], acts[i - 1], k) && QueuesInOrder(worlds[i - 1], acts[i - 1], k)
    ensures WillBeTold(worlds[i], k)
  {
    RunSound(worlds, acts, i - 1, k);
    assert StepAt(worlds, acts, i - 1);
    TellStepKeeps(worlds[i - 1], acts[i - 1], k);
  }

  /** Then what was told last is what the history deserves, once nobody tells. */
  lemma {:induction false} OrderlyReportsAreTrue(worlds: seq<World>, acts: seq<Action>, i: nat, k: Key)
    requires IsRun(worlds, acts) && worlds[0] == Init && i < |worlds| && Monitored(k)
    requires OrderlyReports(worlds, acts, i, k)
    ensures WillBeTold(worlds[i], k)
  {
    if i > 0 {
      OrderlyReportsAreTrue(worlds, acts, i - 1, k);
      RunTellStep(worlds, acts, i, k);
    }
  }

  /** No sweep begins with a service while another one is busy with it. */
  ghost predicate Alone(w: World, a: Action, k: Key) {
    a.CheckService? && Live(w, a.id) && At(w.sweeps[a.id]) == k ==>
      forall i :: 0 <= i < |w.sweeps| ==> !Busy(w.sweeps[i], k)
  }

  /** One sweep at a time is busy with the service, and what it has read is still stored. */
  ghost predicate OneBusy(w: World, k: Key) {
    && (forall i, j ::
          && 0 <= i < |w.sweeps| && Busy(w.sweeps[i], k)
          && 0 <= j < |w.sweeps| && Busy(w.sweeps[j], k)
          ==> i == j)
    && (forall i :: 0 <= i < |w.sweeps| && Busy(w.sweeps[i], k) && w.sweeps[i].stage.Checked? ==>
          w.sweeps[i].stage.before == Stored(w, k))
  }

  lemma BusySweepStep(w: World, a: Action, k: Key)
    requires Enabled(w, a) && OneBusy(w, k) && Alone(w, a, k)
    requires a.CheckService? || a.SaveCheck? || a.Announce? || a.Notify? || a.QueueIncident?
    ensures OneBusy(Apply(w, a), k)
  {
    var w', s := Apply(w, a), w.sweeps[a.id];
    assert forall i :: 0 <= i < |w.sweeps| && i != a.id ==> w'.sweeps[i] == w.sweeps[i];
    assert Busy(w'.sweeps[a.id], k) ==> Busy(s, k) || (a.CheckService? && At(s) == k);
    assert a.SaveCheck? && At(s) == k ==> Busy(s, k);
  }

  lemma BusyStep(w: World, a: Action, k: Key)
    requires Enabled(w, a) && OneBusy(w, k) && Alone(w, a, k)
    ensures OneBusy(Apply(w, a), k)
  {
    if a.CheckService? || a.SaveCheck? || a.Announce? || a.Notify? || a.QueueIncident? {
      BusySweepStep(w, a, k);
    } else {
      ElseFrame(w, a);
    }
  }

  lemma {:induction false} RunAlone(worlds: seq<World>, acts: seq<Action>, i: nat, k: Key)
    requires IsRun(worlds, acts) && worlds[0] == Init && i < |worlds|
    requires forall j :: 0 <= j < i ==> Alone(worlds[j], acts[j], k)
    ensures OneBusy(worlds[i], k)
  {
    if i > 0 {
      RunAlone(worlds, acts, i - 1, k);
      assert StepAt(worlds, acts, i - 1);
      BusyStep(worlds[i - 1], acts[i - 1], k);
    }
  }

  /** Sweeps that do not overlap at the service report in good order. */
  lemma AloneIsOrderly(worlds: seq<World>, acts: seq<Action>, n: nat, k: Key)
    requires IsRun(worlds, acts) && worlds[0] == Init && n <= |acts| && Monitored(k)
    requires forall j :: 0 <= j < n ==> Alone(worlds[j], acts[j], k)
    ensures OrderlyReports(worlds, acts, n, k)
  {
    forall j | 0 <= j < n ensures FreshSave(worlds[j], acts[j], k) && QueuesInOrder(worlds[j], acts[j], k) {
      RunAlone(worlds, acts, j, k);
      AloneStepOrderly(worlds[j], acts[j], k);
    }
  }

  lemma AloneStepOrderly(w: World, a: Action, k: Key)
    requires OneBusy(w, k)
    ensures FreshSave(w, a, k) && QueuesInOrder(w, a, k)
  {
    if SavesStatus(w, a, k) {
      assert Busy(w.sweeps[a.id], k);
    }
    if a.QueueIncident? && Enabled(w, a) && At(w.sweeps[a.id]) == k {
      assert Busy(w.sweeps[a.id], k);
    }
  }

  /** A check whose read is still stored reports a change if and only if the service was seen before with
      another status. */
  lemma ReportsIff(worlds: seq<World>, acts: seq<Action>, i: nat, k: Key)
    requires IsRun(worlds, acts) && worlds[0] == Init && i < |acts| && Monitored(k)
    requires SavesStatus(worlds[i], acts[i], k) && FreshSave(worlds[i], acts[i], k)
    ensures acts[i].id < |worlds[i + 1].sweeps|
    ensures var s, s', h := worlds[i].sweeps[acts[i].id], worlds[i + 1].sweeps[acts[i].id], Seen(worlds[i], k);
            && s.stage.Checked? && Seen(worlds[i + 1], k) == h + [s.stage.status]
            && (Telling(s', k) <==> h != [] && h[|h| - 1] != s.stage.status)
  {
    RunSound(worlds, acts, i, k);
    assert StepAt(worlds, acts, i);
  }

  // ---- the jobs handled, and the jobs queued ----

  /** A handler of this service between its search and its write. */
  predicate Searching(x: Handler, k: Key) {
    x.stage == Searched && x.key == k
  }

  ghost predicate NobodySearches(w: World, k: Key) {
    forall h :: 0 <= h < |w.handlers| ==> !Searching(w.handlers[h], k)
  }

  /** No job of the service waits, and none is being handled. */
  ghost predicate Settled(w: World, k: Key) {
    Drained(w.queue, k) && NobodySearches(w, k)
  }

  /** A service was told of once a job for it is queued; then the job waits, is being handled or is done. */
  ghost predicate Known(w: World, k: Key) {
    && (k in w.done || LastAsk(w.queue, k).Some? ==> k in w.told)
    && (forall h :: 0 <= h < |w.handlers| && Searching(w.handlers[h], k) ==> k in w.told)
    && (k in w.told && LastAsk(w.queue, k).None? && NobodySearches(w, k) ==> k in w.done)
  }

  lemma WebhookJobsDoNotAsk(w: World, tenant: string, event: Event, cause: Option<nat>, k: Key)
    ensures var w' := NotifyWebhooks(w, tenant, event, cause);
            && w' == w.(queue := w'.queue, log := w'.log)
            && LastAsk(w'.queue, k) == LastAsk(w.queue, k)
  {
    LastAskPush(w.queue, Queued(WebhookJob(tenant, event), cause), k);
  }

  /** Taking a waiting job leaves the service's other waiting jobs waiting. */
  lemma LastAskTaken(q: seq<Queued>, at: nat, k: Key)
    requires at < |q|
    ensures LastAsk(q, k).Some? <==> LastAsk(RemoveAt(q, at), k).Some? || IsFor(q[at], k)
  {
    var rest := q[at + 1..];
    assert q == (q[..at] + [q[at]]) + rest;
    LastAskConcat(q[..at], rest, k);
    LastAskConcat(q[..at] + [q[at]], rest, k);
    LastAskPush(q[..at], q[at], k);
  }

  /** What a step may do to the jobs of a service: queue one, take one, write one, or none of these. */
  lemma KnownPush(w: World, j: AdminJob, cause: Option<nat>, k: Key)
    requires Known(w, k)
    ensures Known(Push(w, j, cause), k)
  {
    LastAskPush(w.queue, Queued(j, cause), k);
  }

  lemma KnownHandle(w: World, at: nat, n: nat, k: Key)
    requires at < |w.queue| && Known(w, k)
    ensures Known(Apply(w, HandleAt(at, n)), k)
  {
    var w' := Apply(w, HandleAt(at, n));
    HandleFrame(w, at, n);
    LastAskTaken(w.queue, at, k);
    assert forall h :: 0 <= h < |w.handlers| ==> w'.handlers[h] == w.handlers[h];
    if IsFor(w.queue[at], k) {
      assert Searching(w'.handlers[|w.handlers|], k);
    } else if NobodySearches(w', k) {
      assert forall h :: 0 <= h < |w.handlers| ==> !Searching(w'.handlers[h], k);
    }
  }

  lemma KnownWrite(w: World, h: nat, k: Key)
    requires Busied(w, h, Searched) && Known(w, k)
    ensures Known(WriteStep(w, h), k)
  {
    var w' := WriteStep(w, h);
    assert forall i :: 0 <= i < |w.handlers| && i != h ==> w'.handlers[i] == w.handlers[i];
    if w.handlers[h].key == k {
      assert Searching(w.handlers[h], k);
    } else if NobodySearches(w', k) {
      forall i | 0 <= i < |w.handlers| ensures !Searching(w.handlers[i], k) {
        assert !Searching(w'.handlers[i], k);
      }
    }
  }

  /** Steps after which the same jobs wait and the same handlers search. */
  lemma KnownSame(w: World, w': World, k: Key)
    requires Known(w, k) && (k in w'.done <==> k in w.done) && (k in w'.told <==> k in w.told)
    requires LastAsk(w'.queue, k) == LastAsk(w.queue, k) && |w'.handlers| == |w.handlers|
    requires forall h :: 0 <= h < |w.handlers| ==> (Searching(w'.handlers[h], k) <==> Searching(w.handlers[h], k))
    ensures Known(w', k)
  {
    if NobodySearches(w', k) {
      forall h | 0 <= h < |w.handlers| ensures !Searching(w.handlers[h], k) {
        assert !Searching(w'.handlers[h], k);
      }
    }
  }

  lemma KnownNotify(w: World, h: nat, k: Key)
    requires Busied(w, h, Fed) && Known(w, k)
    ensures Known(TellStep(w, h), k)
  {
    var x, w' := w.handlers[h], TellStep(w, h);
    WebhookJobsDoNotAsk(w, x.key.tenant, EventOf(x), x.cause, k);
    KnownSame(w, w', k);
  }

  lemma KnownSweep(w: World, a: Action, k: Key)
    requires Enabled(w, a) && Known(w, k) && (a.Notify? || a.QueueIncident?)
    ensures Known(Apply(w, a), k)
  {
    var s := w.sweeps[a.id];
    if a.QueueIncident? {
      KnownPush(w, JobFor(At(s), s.stage.status), Some(a.id), k);
    } else {
      KnownPush(w, WebhookJob(s.tenant, HealthChanged), Some(a.id), k);
    }
  }

  lemma KnownStep(w: World, a: Action, k: Key)
    requires Enabled(w, a) && Known(w, k)
    ensures Known(Apply(w, a), k)
  {
    match a
    case HandleAt(at, n) => KnownHandle(w, at, n, k);
    case WriteIncident(h) => KnownWrite(w, h, k);
    case NotifyIncident(h) => KnownNotify(w, h, k);
    case FeedIncident(h) => KnownSame(w, FeedStep(w, h), k);
    case Enqueue(j) => KnownPush(w, j, None, k);
    case Notify(_) => KnownSweep(w, a, k);
    case QueueIncident(_) => KnownSweep(w, a, k);
    case _ =>
  }

  lemma {:induction false} RunKnown(worlds: seq<World>, acts: seq<Action>, i: nat, k: Key)
    requires IsRun(worlds, acts) && worlds[0] == Init && i < |worlds|
    ensures Known(worlds[i], k)
  {
    if i > 0 {
      RunKnown(worlds, acts, i - 1, k);
      assert StepAt(worlds, acts, i - 1);
      KnownStep(worlds[i - 1], acts[i - 1], k);
    }
  }

  // ---- when handlers take turns, in queue order ----

  /** A worker takes a job of this service only when those queued before it have been taken and written. */
  ghost predicate TakesInTurn(w: World, a: Action, k: Key) {
    a.HandleAt? && a.at < |w.queue| && IsFor(w.queue[a.at], k) ==> Drained(w.queue[..a.at], k) && NobodySearches(w, k)
  }

  /** What handler x found is what is open now. */
  predicate FoundStill(w: World, x: Handler) {
    FindOpen(w.incidents, x.key) == if x.found.Some? then Some(x.found.value.at) else None
  }

  /** One handler at a time is at the service, with what is still open; the job queued last waits last, is being
      handled if none waits, and is done if none is handled either. */
  ghost predicate InTurn(w: World, k: Key) {
    && (forall g, h ::
          && 0 <= g < |w.handlers| && Searching(w.handlers[g], k)
          && 0 <= h < |w.handlers| && Searching(w.handlers[h], k)
          ==> g == h)
    && (forall h :: 0 <= h < |w.handlers| && Searching(w.handlers[h], k) ==>
          FoundStill(w, w.handlers[h]) && (LastAsk(w.queue, k).None? ==> Told(w, k) == w.handlers[h].ask))
    && (LastAsk(w.queue, k).Some? ==> LastAsk(w.queue, k) == Some(Told(w, k)))
    && (LastAsk(w.queue, k).None? && NobodySearches(w, k) ==> Told(w, k) == Done(w, k))
  }

  lemma TurnHandle(w: World, at: nat, n: nat, k: Key)
    requires at < |w.queue| && InTurn(w, k) && TakesInTurn(w, HandleAt(at, n), k)
    ensures InTurn(Apply(w, HandleAt(at, n)), k)
  {
    var w' := Apply(w, HandleAt(at, n));
    HandleFrame(w, at, n);
    LastAskRemove(w.queue, at, k);
    assert forall h :: 0 <= h < |w.handlers| ==> w'.handlers[h] == w.handlers[h];
    if IsFor(w.queue[at], k) {
      LastAskTaken(w.queue, at, k);
      TurnTaken(w, at, w', k);
    } else {
      assert forall h :: |w.handlers| <= h < |w'.handlers| ==> !Searching(w'.handlers[h], k);
      if NobodySearches(w', k) {
        assert forall h :: 0 <= h < |w.handlers| ==> !Searching(w'.handlers[h], k);
      }
    }
  }

  lemma TurnTaken(w: World, at: nat, w': World, k: Key)
    requires at < |w.queue| && IsFor(w.queue[at], k) && InTurn(w, k) && NobodySearches(w, k)
             && Told(w', k) == Told(w, k)
    requires w'.handlers == w.handlers
             + [Handler(k, Ask(w.queue[at].job), w.queue[at].cause, Find(w.incidents, k), Searched)]
    requires w'.incidents == w.incidents && LastAsk(w.queue, k).Some?
    requires var left := LastAsk(w'.queue, k);
             if left.None? then LastAsk(w.queue, k) == Some(Ask(w.queue[at].job)) else left == LastAsk(w.queue, k)
    ensures InTurn(w', k)
  {
    assert forall h :: 0 <= h < |w.handlers| ==> w'.handlers[h] == w.handlers[h] && !Searching(w'.handlers[h], k);
    assert Searching(w'.handlers[|w.handlers|], k);
  }

  lemma TurnWrite(w: World, h: nat, k: Key)
    requires Busied(w, h, Searched) && HandlersSound(w) && InTurn(w, k) && OneOpen(w.incidents, k)
    ensures CleanWrite(w, WriteIncident(h), k) && InTurn(WriteStep(w, h), k)
  {
    if w.handlers[h].key == k {
      assert Searching(w.handlers[h], k) && FoundStill(w, w.handlers[h]);
      TurnWritten(w, h, WriteStep(w, h), k);
    } else {
      TurnWriteElsewhere(w, h, k);
    }
  }

  lemma TurnWriteElsewhere(w: World, h: nat, k: Key)
    requires Busied(w, h, Searched) && w.handlers[h].key != k && HandlersSound(w)
    requires InTurn(w, k) && OneOpen(w.incidents, k)
    ensures InTurn(WriteStep(w, h), k)
  {
    var x, w' := w.handlers[h], WriteStep(w, h);
    assert FoundIn(w.incidents, x.found, x.key);
    SaveElsewhere(w.incidents, x.key, x.ask, x.found, k);
    TurnSame(w, w', k);
  }

  /** The handler at the service has written. */
  lemma TurnWritten(w: World, h: nat, w': World, k: Key)
    requires h < |w.handlers| && Searching(w.handlers[h], k) && InTurn(w, k)
    requires w'.queue == w.queue && Told(w', k) == Told(w, k) && Done(w', k) == w.handlers[h].ask
    requires |w'.handlers| == |w.handlers| && !Searching(w'.handlers[h], k)
    requires forall i :: 0 <= i < |w.handlers| && i != h ==> w'.handlers[i] == w.handlers[i]
    ensures InTurn(w', k)
  {
    assert forall i :: 0 <= i < |w.handlers| ==> !Searching(w'.handlers[i], k);
  }

  /** Steps after which the same jobs wait, the same handlers search and the same incident is open. */
  lemma TurnSame(w: World, w': World, k: Key)
    requires InTurn(w, k) && Told(w', k) == Told(w, k) && Done(w', k) == Done(w, k)
    requires FindOpen(w'.incidents, k) == FindOpen(w.incidents, k)
    requires LastAsk(w'.queue, k) == LastAsk(w.queue, k) && |w'.handlers| == |w.handlers|
    requires forall h :: 0 <= h < |w.handlers| ==>
               (Searching(w'.handlers[h], k) <==> Searching(w.handlers[h], k))
               && w'.handlers[h] == w.handlers[h].(stage := w'.handlers[h].stage)
    ensures InTurn(w', k)
  {
    if NobodySearches(w', k) {
      forall h | 0 <= h < |w.handlers| ensures !Searching(w.handlers[h], k) {
        assert !Searching(w'.handlers[h], k);
      }
    }
  }

  /** A job of the service is queued, or of another one, or none. */
  lemma TurnQueued(w: World, w': World, k: Key)
    requires InTurn(w, k) && w'.handlers == w.handlers && w'.incidents == w.incidents && w'.done == w.done
    requires || (LastAsk(w'.queue, k) == LastAsk(w.queue, k) && Told(w', k) == Told(w, k))
             || LastAsk(w'.queue, k) == Some(Told(w', k))
    ensures InTurn(w', k)
  {
    assert NobodySearches(w', k) <==> NobodySearches(w, k);
  }

  lemma TurnEnqueue(w: World, j: AdminJob, k: Key)
    requires InTurn(w, k)
    ensures InTurn(Push(w, j, None), k)
  {
    LastAskPush(w.queue, Queued(j, None), k);
    TurnQueued(w, Push(w, j, None), k);
  }

  lemma TurnNotify(w: World, h: nat, k: Key)
    requires Busied(w, h, Fed) && InTurn(w, k)
    ensures InTurn(TellStep(w, h), k)
  {
    var x := w.handlers[h];
    WebhookJobsDoNotAsk(w, x.key.tenant, EventOf(x), x.cause, k);
    TurnSame(w, TellStep(w, h), k);
  }

  lemma TurnNotifyChange(w: World, id: nat, k: Key)
    requires Enabled(w, Notify(id)) && InTurn(w, k)
    ensures InTurn(NotifyStep(w, id), k)
  {
    WebhookJobsDoNotAsk(w, w.sweeps[id].tenant, HealthChanged, Some(id), k);
    TurnQueued(w, NotifyStep(w, id), k);
  }

  lemma TurnQueueIncident(w: World, id: nat, k: Key)
    requires Enabled(w, QueueIncident(id)) && InTurn(w, k)
    ensures InTurn(QueueStep(w, id), k)
  {
    LastAskPush(w.queue, Queued(JobFor(At(w.sweeps[id]), w.sweeps[id].stage.status), Some(id)), k);
    TurnQueued(w, QueueStep(w, id), k);
  }

  lemma TurnStep(w: World, a: Action, k: Key)
    requires Enabled(w, a) && HandlersSound(w) && InTurn(w, k) && OneOpen(w.incidents, k) && TakesInTurn(w, a, k)
    ensures CleanWrite(w, a, k) && InTurn(Apply(w, a), k)
  {
    match a
    case HandleAt(at, n) => TurnHandle(w, at, n, k);
    case WriteIncident(h) => TurnWrite(w, h, k);
    case NotifyIncident(h) => TurnNotify(w, h, k);
    case FeedIncident(h) => TurnSame(w, FeedStep(w, h), k);
    case Enqueue(j) => TurnEnqueue(w, j, k);
    case Notify(id) => TurnNotifyChange(w, id, k);
    case QueueIncident(id) => TurnQueueIncident(w, id, k);
    case _ => TurnQueued(w, Apply(w, a), k);
  }

  ghost predicate HandledInTurn(worlds: seq<World>, acts: seq<Action>, n: nat, k: Key) {
    forall j :: 0 <= j < n && j < |acts| && j < |worlds| ==> TakesInTurn(worlds[j], acts[j], k)
  }

  lemma RunTurnStep(worlds: seq<World>, acts: seq<Action>, i: nat, k: Key)
    requires IsRun(worlds, acts) && worlds[0] == Init && 0 < i < |worlds|
    requires TableFollows(worlds[i - 1], k) && InTurn(worlds[i - 1], k) && TakesInTurn(worlds[i - 1], acts[i - 1], k)
    ensures TableFollows(worlds[i], k) && InTurn(worlds[i], k)
  {
    RunHandlers(worlds, acts, i - 1);
    assert StepAt(worlds, acts, i - 1);
    TurnStep(worlds[i - 1], acts[i - 1], k);
    TableStep(worlds[i - 1], acts[i - 1], k);
  }

  /** Handlers that take turns write cleanly, and in queue order. */
  lemma {:induction false} RunInTurn(worlds: seq<World>, acts: seq<Action>, i: nat, k: Key)
    requires IsRun(worlds, acts) && worlds[0] == Init && i < |worlds| && HandledInTurn(worlds, acts, i, k)
    ensures TableFollows(worlds[i], k) && InTurn(worlds[i], k)
  {
    if i > 0 {
      RunInTurn(worlds, acts, i - 1, k);
      RunTurnStep(worlds, acts, i, k);
    }
  }

  // ---- incidents follow the statuses ----

  /** For all runs in which reports of the service are fresh and queued in the order of their saves, and its jobs
      handled in turn: once nobody is telling of it and its jobs are settled, the service has an open incident
      exactly when its status has changed at least once and is not healthy now, with that status's severity. */
  lemma IncidentsFollowStatuses(worlds: seq<World>, acts: seq<Action>, i: nat, k: Key)
    requires IsRun(worlds, acts) && worlds[0] == Init && i < |worlds| && Monitored(k)
    requires OrderlyReports(worlds, acts, i, k) && HandledInTurn(worlds, acts, i, k)
    ensures NobodyTells(worlds[i], k) && Settled(worlds[i], k) ==>
              OpenSeverity(worlds[i].incidents, k) == Deserved(Seen(worlds[i], k))
  {
    RunInTurn(worlds, acts, i, k);
    OrderlyReportsAreTrue(worlds, acts, i, k);
    LastAskDrained(worlds[i].queue, k);
  }

  /** In particular when no two sweeps are busy with the service at a time. */
  lemma WithoutOverlap(worlds: seq<World>, acts: seq<Action>, i: nat, k: Key)
    requires IsRun(worlds, acts) && worlds[0] == Init && i < |worlds| && Monitored(k)
             && HandledInTurn(worlds, acts, i, k)
    requires forall j :: 0 <= j < i ==> Alone(worlds[j], acts[j], k)
    ensures NobodyTells(worlds[i], k) && Settled(worlds[i], k) ==>
              OpenSeverity(worlds[i].incidents, k) == Deserved(Seen(worlds[i], k))
  {
    AloneIsOrderly(worlds, acts, i, k);
    IncidentsFollowStatuses(worlds, acts, i, k);
  }

  /** With reports as above and handling in any order, by handlers that write cleanly: once nobody is telling, the
      open incident is the deserved one if and only if the job written last asks for the same as the one queued
      last. When its jobs are settled, a job of the service has been written if one was ever queued. */
  lemma AnyOrderIff(worlds: seq<World>, acts: seq<Action>, i: nat, k: Key)
    requires IsRun(worlds, acts) && worlds[0] == Init && i <= |acts| && Monitored(k)
    requires OrderlyReports(worlds, acts, i, k) && WritesClean(worlds, acts, i, k)
    ensures NobodyTells(worlds[i], k) ==>
              (OpenSeverity(worlds[i].incidents, k) == Deserved(Seen(worlds[i], k))
               <==> Done(worlds[i], k) == Told(worlds[i], k))
    ensures Settled(worlds[i], k) ==> (k in worlds[i].done <==> k in worlds[i].told)
  {
    OpenIsLastWrittenIff(worlds, acts, i, k);
    assert TableFollows(worlds[i], k);
    OrderlyReportsAreTrue(worlds, acts, i, k);
    RunKnown(worlds, acts, i, k);
    LastAskDrained(worlds[i].queue, k);
  }

  // ---- when checks of a service overlap ----

  /** What was told last is what the table says; a service never told of never changed or is healthy. */
  ghost predicate Truthful(w: World, k: Key) {
    if k in w.told then Stored(w, k).Some? && w.told[k] == Calls(Stored(w, k).value)
    else !Changed(Seen(w, k)) || Stored(w, k) == Some(HEALTHY)
  }

  lemma TruthfulIff(w: World, k: Key)
    requires Sound(w, k)
    ensures Truthful(w, k) <==> Told(w, k) == Deserved(Seen(w, k))
  {
  }

  /** However checks overlap, with jobs handled in turn: once the jobs of a service are settled, its open incident
      is the deserved one if and only if the job queued last is for the status in the table. */
  lemma InOrderIff(worlds: seq<World>, acts: seq<Action>, i: nat, k: Key)
    requires IsRun(worlds, acts) && worlds[0] == Init && i < |worlds| && Monitored(k)
    requires HandledInTurn(worlds, acts, i, k) && Settled(worlds[i], k)
    ensures OpenSeverity(worlds[i].incidents, k) == Deserved(Seen(worlds[i], k)) <==> Truthful(worlds[i], k)
  {
    RunInTurn(worlds, acts, i, k);
    RunSound(worlds, acts, i, k);
    LastAskDrained(worlds[i].queue, k);
    TruthfulIff(worlds[i], k);
  }

  /** What a sweep does from its save to the end of the service, if nobody comes between. */
  function FinishCheck(w: World, id: nat): World
    requires Live(w, id) && w.sweeps[id].stage.Checked?
  {
    var saved := SaveStep(w, id);
    if Reports(w.sweeps[id].stage) then QueueStep(NotifyStep(AnnounceStep(saved, id), id), id) else saved
  }

  /** The check is about to save, without a report, a status other than the stored one, and that matters:
      an incident was told of before, or the new status calls for one. */
  predicate Misses(w: World, id: nat)
    requires Live(w, id) && w.sweeps[id].stage.Checked?
  {
    var k, st := At(w.sweeps[id]), w.sweeps[id].stage;
    !Reports(st) && k in w.health && w.health[k] != st.status && (k in w.told || st.status != HEALTHY)
  }

  lemma SameStatus(h: seq<HealthStatus>, status: HealthStatus)
    requires h == [] || h[|h| - 1] == status
    ensures Changed(h + [status]) <==> Changed(h)
  {
    var h' := h + [status];
    forall i | 0 <= i < |h'| - 1 && h'[i] != h'[i + 1] ensures 0 <= i < |h| - 1 && h[i] != h[i + 1] {}
    forall i | 0 <= i < |h| - 1 && h[i] != h[i + 1] ensures h'[i] != h'[i + 1] {}
  }

  /** A check, whatever has changed since it read the row, leaves the truth told if and only if it does not
      miss a change; a check whose read is still the stored status never does. */
  lemma StaleCheckIff(w: World, id: nat)
    requires Live(w, id) && w.sweeps[id].stage.Checked?
    requires Sound(w, At(w.sweeps[id])) && Truthful(w, At(w.sweeps[id]))
    ensures Truthful(FinishCheck(w, id), At(w.sweeps[id])) <==> !Misses(w, id)
    ensures w.sweeps[id].stage.before == Stored(w, At(w.sweeps[id])) ==> !Misses(w, id)
  {
    var s, w' := w.sweeps[id], FinishCheck(w, id);
    assert Busy(s, At(s)) && SweepSound(Seen(w, At(s)), s, At(s));
    FinishedCheck(w, id);
    if Reports(s.stage) {
      assert Truthful(w', At(s));
    } else {
      UnreportedIff(w, w', s.stage.status, At(s));
    }
  }

  lemma UnreportedIff(w: World, w': World, status: HealthStatus, k: Key)
    requires Sound(w, k) && Truthful(w, k)
    requires Seen(w', k) == Seen(w, k) + [status] && Stored(w', k) == Some(status) && w'.told == w.told
    ensures Truthful(w', k) <==> !(k in w.health && w.health[k] != status && (k in w.told || status != HEALTHY))
  {
    var h := Seen(w, k);
    if k in w.health && w.health[k] != status {
      assert h[|h| - 1] in h;
      ChangedAppend(h, status);
    } else {
      SameStatus(h, status);
    }
  }

  lemma FinishedCheck(w: World, id: nat)
    requires Live(w, id) && w.sweeps[id].stage.Checked?
    ensures var s, w' := w.sweeps[id], FinishCheck(w, id);
            && Seen(w', At(s)) == Seen(w, At(s)) + [s.stage.status] && Stored(w', At(s)) == Some(s.stage.status)
            && w'.told == if Reports(s.stage) then w.told[At(s) := Calls(s.stage.status)] else w.told
  {
  }

  // ---- what overlap and disorder can do ----

  /** A run from the beginning in which the jobs of this service are handled in turn. */
  ghost predicate InOrderRun(worlds: seq<World>, acts: seq<Action>, k: Key) {
    && IsRun(worlds, acts) && worlds[0] == Init
    && forall j :: 0 <= j < |acts| ==> TakesInTurn(worlds[j], acts[j], k)
  }

  /** Every save of the service so far found the status its check had read still stored. */
  ghost predicate FreshSaves(worlds: seq<World>, acts: seq<Action>, k: Key) {
    |worlds| == |acts| + 1 && forall j :: 0 <= j < |acts| ==> FreshSave(worlds[j], acts[j], k)
  }

  lemma Extend(worlds: seq<World>, acts: seq<Action>, a: Action, k: Key)
      returns (worlds': seq<World>, acts': seq<Action>)
    requires InOrderRun(worlds, acts, k) && Enabled(worlds[|acts|], a) && TakesInTurn(worlds[|acts|], a, k)
    ensures InOrderRun(worlds', acts', k) && acts' == acts + [a] && worlds'[|acts'|] == Apply(worlds[|acts|], a)
    ensures FreshSaves(worlds, acts, k) && FreshSave(worlds[|acts|], a, k) ==> FreshSaves(worlds', acts', k)
  {
    worlds', acts' := worlds + [Apply(worlds[|acts|], a)], acts + [a];
    forall i | 0 <= i < |acts'|
      ensures StepAt(worlds', acts', i) && TakesInTurn(worlds'[i], acts'[i], k)
      ensures FreshSaves(worlds, acts, k) && FreshSave(worlds[|acts|], a, k) ==> FreshSave(worlds'[i], acts'[i], k)
    {
      if i < |acts| {
        assert StepAt(worlds, acts, i) && worlds'[i] == worlds[i] && worlds'[i + 1] == worlds[i + 1]
            && acts'[i] == acts[i];
      }
    }
  }

  const DATABASE: Key := Key("acme", Database)

  /** A first sweep finds the database healthy; two more sweeps are about to check it. */
  lemma TwoBegin() returns (worlds: seq<World>, acts: seq<Action>)
    ensures InOrderRun(worlds, acts, DATABASE) && FreshSaves(worlds, acts, DATABASE)
    ensures worlds[|acts|] == World(map[DATABASE := HEALTHY], [], [], [],
                                    [Sweep("acme", 1, Ready, 0, 0), Sweep("acme", 0, Ready, 0, 0),
                                     Sweep("acme", 0, Ready, 0, 0)],
                                    [], map[DATABASE := [HEALTHY]], map[], map[], [])
  {
    worlds, acts := [Init], [];
    worlds, acts := Extend(worlds, acts, BeginSweep("acme"), DATABASE);
    worlds, acts := Extend(worlds, acts, CheckService(0, HEALTHY), DATABASE);
    worlds, acts := Extend(worlds, acts, SaveCheck(0), DATABASE);
    assert [] + [HEALTHY] == [HEALTHY];
    assert worlds[|acts|].health == map[DATABASE := HEALTHY] && worlds[|acts|].seen == map[DATABASE := [HEALTHY]];
    worlds, acts := Extend(worlds, acts, BeginSweep("acme"), DATABASE);
    worlds, acts := Extend(worlds, acts, BeginSweep("acme"), DATABASE);
  }

  /** The announcements of a change, one after the other, up to its incident job. */
  lemma Tell(worlds: seq<World>, acts: seq<Action>, id: nat, k: Key) returns (worlds': seq<World>, acts': seq<Action>)
    requires InOrderRun(worlds, acts, k) && Live(worlds[|acts|], id) && worlds[|acts|].sweeps[id].stage.Saved?
    ensures InOrderRun(worlds', acts', k) && (FreshSaves(worlds, acts, k) ==> FreshSaves(worlds', acts', k))
    ensures var w, w' := worlds[|acts|], worlds'[|acts'|];
            var s := w.sweeps[id];
            && w'.sweeps == w.sweeps[id := s.(stage := Notified(s.stage.status))]
            && w'.health == w.health && w'.seen == w.seen && w'.incidents == w.incidents && w'.handlers == w.handlers
            && LastAsk(w'.queue, k) == LastAsk(w.queue, k)
  {
    worlds', acts' := Extend(worlds, acts, Announce(id), k);
    var w1 := worlds'[|acts'|];
    WebhookJobsDoNotAsk(w1, w1.sweeps[id].tenant, HealthChanged, Some(id), k);
    worlds', acts' := Extend(worlds', acts', Notify(id), k);
  }

  /** Handling the last waiting job, when it is the only one of its service. */
  lemma HandleLast(worlds: seq<World>, acts: seq<Action>, k: Key) returns (worlds': seq<World>, acts': seq<Action>)
    requires InOrderRun(worlds, acts, k) && NobodySearches(worlds[|acts|], k)
    requires var q := worlds[|acts|].queue; q != [] && IsFor(q[|q| - 1], k) && LastAsk(q[..|q| - 1], k).None?
    ensures InOrderRun(worlds', acts', k)
    ensures var w, w' := worlds[|acts|], worlds'[|acts'|];
            && w'.sweeps == w.sweeps && w'.health == w.health && w'.seen == w.seen && w'.told == w.told
            && Settled(w', k) && Done(w', k) == Ask(w.queue[|w.queue| - 1].job)
  {
    var w := worlds[|acts|];
    var at, h := |w.queue| - 1, |w.handlers|;
    LastAskDrained(w.queue[..at], k);
    HandleFrame(w, at, 0);
    worlds', acts' := Extend(worlds, acts, HandleAt(at, 0), k);
    assert RemoveAt(w.queue, at) == w.queue[..at];
    var w1 := worlds'[|acts'|];
    assert w1.handlers[h].key == k && forall i :: 0 <= i < h ==> w1.handlers[i] == w.handlers[i];
    worlds', acts' := Extend(worlds', acts', WriteIncident(h), k);
    var w2 := worlds'[|acts'|];
    assert forall i :: 0 <= i < h ==> w2.handlers[i] == w.handlers[i];
  }

  /** Two checks of a healthy service read its row; the first saves that it is down, the second that it is
      healthy, and sees no change. */
  lemma OverlappingSaves() returns (worlds: seq<World>, acts: seq<Action>)
    ensures InOrderRun(worlds, acts, DATABASE)
    ensures var w := worlds[|acts|];
            && w.sweeps == [Sweep("acme", 1, Ready, 0, 0), Sweep("acme", 0, Saved(DOWN), 1, 2),
                             Sweep("acme", 1, Ready, 0, 0)]
            && Seen(w, DATABASE) == [HEALTHY, DOWN, HEALTHY] && w.queue == [] && w.handlers == []
  {
    worlds, acts := TwoBegin();
    worlds, acts := Extend(worlds, acts, CheckService(1, DOWN), DATABASE);
    worlds, acts := Extend(worlds, acts, CheckService(2, HEALTHY), DATABASE);
    worlds, acts := Extend(worlds, acts, SaveCheck(1), DATABASE);
    assert Seen(worlds[|acts|], DATABASE) == [HEALTHY, DOWN];
    worlds, acts := Extend(worlds, acts, SaveCheck(2), DATABASE);
    assert Seen(worlds[|acts|], DATABASE) == [HEALTHY, DOWN, HEALTHY];
  }

  /** The first one tells of its change and its job is queued last. */
  lemma OverlapTold() returns (worlds: seq<World>, acts: seq<Action>)
    ensures InOrderRun(worlds, acts, DATABASE)
    ensures var w := worlds[|acts|];
            && w.handlers == [] && Seen(w, DATABASE) == [HEALTHY, DOWN, HEALTHY] && NobodyTells(w, DATABASE)
            && w.queue != [] && w.queue[|w.queue| - 1].job == JobFor(DATABASE, DOWN)
               && LastAsk(w.queue[..|w.queue| - 1], DATABASE).None?
  {
    worlds, acts := OverlappingSaves();
    worlds, acts := Tell(worlds, acts, 1, DATABASE);
    var w := worlds[|acts|];
    worlds, acts := Extend(worlds, acts, QueueIncident(1), DATABASE);
    assert worlds[|acts|].queue[..|w.queue|] == w.queue;
  }

  /** With all sweeps through with the service and all its jobs handled, a critical incident stays open for a
      service seen healthy, down and healthy again. */
  lemma OverlapLeavesIncidentOpen() returns (worlds: seq<World>, acts: seq<Action>)
    ensures InOrderRun(worlds, acts, DATABASE)
    ensures var w := worlds[|acts|];
            && NobodyTells(w, DATABASE) && Settled(w, DATABASE)
            && Seen(w, DATABASE) == [HEALTHY, DOWN, HEALTHY] && Deserved(Seen(w, DATABASE)) == None
            && OpenSeverity(w.incidents, DATABASE) == Some(CRITICAL)
  {
    worlds, acts := OverlapTold();
    worlds, acts := HandleLast(worlds, acts, DATABASE);
    RunInTurn(worlds, acts, |acts|, DATABASE);
  }

  lemma FirstSaves() returns (worlds: seq<World>, acts: seq<Action>)
    ensures InOrderRun(worlds, acts, DATABASE) && FreshSaves(worlds, acts, DATABASE)
    ensures worlds[|acts|].sweeps == [Sweep("acme", 1, Ready, 0, 0), Sweep("acme", 0, Saved(DOWN), 1, 2),
                                      Sweep("acme", 0, Ready, 0, 0)]
    ensures Stored(worlds[|acts|], DATABASE) == Some(DOWN) && |Seen(worlds[|acts|], DATABASE)| == 2
  {
    worlds, acts := TwoBegin();
    worlds, acts := Extend(worlds, acts, CheckService(1, DOWN), DATABASE);
    worlds, acts := Extend(worlds, acts, SaveCheck(1), DATABASE);
  }

  lemma CrossingChecks() returns (worlds: seq<World>, acts: seq<Action>)
    ensures InOrderRun(worlds, acts, DATABASE) && FreshSaves(worlds, acts, DATABASE)
    ensures worlds[|acts|].sweeps == [Sweep("acme", 1, Ready, 0, 0), Sweep("acme", 0, Saved(DOWN), 1, 2),
                                      Sweep("acme", 0, Saved(HEALTHY), 1, 3)]
    ensures Stored(worlds[|acts|], DATABASE) == Some(HEALTHY)
  {
    worlds, acts := FirstSaves();
    worlds, acts := Extend(worlds, acts, CheckService(2, HEALTHY), DATABASE);
    worlds, acts := Extend(worlds, acts, SaveCheck(2), DATABASE);
  }

  /** Fresh reads are not enough: the second check here reads what the first has saved, but its recovery job is
      queued before the first one's. What is told last is down, and the service is healthy. */
  lemma CrossedReports() returns (worlds: seq<World>, acts: seq<Action>)
    ensures InOrderRun(worlds, acts, DATABASE) && FreshSaves(worlds, acts, DATABASE)
    ensures var w := worlds[|acts|];
            NobodyTells(w, DATABASE) && !Truthful(w, DATABASE) && Stored(w, DATABASE) == Some(HEALTHY)
                && Told(w, DATABASE) == Some(CRITICAL)
  {
    worlds, acts := CrossingChecks();
    worlds, acts := Tell(worlds, acts, 1, DATABASE);
    worlds, acts := Tell(worlds, acts, 2, DATABASE);
    worlds, acts := Extend(worlds, acts, QueueIncident(2), DATABASE);
    worlds, acts := Extend(worlds, acts, QueueIncident(1), DATABASE);
  }

  /** Two workers take the first two jobs, and both search before either writes. */
  function BothSearch(w: World): World
    requires |w.queue| >= 2
  {
    Apply(Apply(w, HandleAt(0, 0)), HandleAt(0, 0))
  }

  lemma FindsNone(w: World, k: Key)
    requires w.queue != [] && IsFor(w.queue[0], k) && FindOpen(w.incidents, k).None?
    ensures var w' := Apply(w, HandleAt(0, 0));
            && w'.incidents == w.incidents && w'.queue == w.queue[1..]
            && w'.handlers == w.handlers + [Handler(k, Ask(w.queue[0].job), w.queue[0].cause, None, Searched)]
  {
    HandleFrame(w, 0, 0);
  }

  lemma BothFindNone(w: World, k: Key)
    requires |w.queue| >= 2 && IsFor(w.queue[0], k) && IsFor(w.queue[1], k) && FindOpen(w.incidents, k).None?
    ensures var w2, h := BothSearch(w), |w.handlers|;
            && w2.incidents == w.incidents && |w2.handlers| == h + 2
            && w2.handlers[h] == Handler(k, Ask(w.queue[0].job), w.queue[0].cause, None, Searched)
            && w2.handlers[h + 1] == Handler(k, Ask(w.queue[1].job), w.queue[1].cause, None, Searched)
  {
    FindsNone(w, k);
    FindsNone(Apply(w, HandleAt(0, 0)), k);
  }

  /** Creating an incident while one is open makes two. */
  lemma TwoOpen(rows: seq<Incident>, k: Key, ask: Option<Severity>)
    requires ask.Some? && OpenSeverity(rows, k).Some?
    ensures !OnlyFoundOpen(rows, k, None) && !OneOpen(SaveFound(rows, k, ask, None), k)
  {
    SecondOpen(rows, Incident(k, ask.value, OPEN), k);
  }

  /** If both ask for an incident and none is open, both create one. */
  lemma BothCreate(w: World, g: nat, h: nat, k: Key)
    requires g < h && Busied(w, g, Searched) && Busied(w, h, Searched)
    requires w.handlers[g].key == w.handlers[h].key == k && w.handlers[g].found == w.handlers[h].found == None
    requires w.handlers[g].ask.Some? && w.handlers[h].ask.Some? && OneOpen(w.incidents, k)
             && FindOpen(w.incidents, k).None?
    ensures var w3 := WriteStep(w, g);
            && OneOpen(w3.incidents, k) && Busied(w3, h, Searched) && w3.handlers[h] == w.handlers[h]
            && !CleanWrite(w3, WriteIncident(h), k) && !OneOpen(WriteStep(w3, h).incidents, k)
  {
    var w3, x := WriteStep(w, g), w.handlers[h];
    UndisturbedSave(w.incidents, k, w.handlers[g].ask);
    assert w3.handlers[h] == x && w3.incidents == SaveFound(w.incidents, k, w.handlers[g].ask, Find(w.incidents, k));
    TwoOpen(w3.incidents, k, x.ask);
  }

  /** So two jobs that find no open incident leave two, when two workers take them at a time. */
  lemma TwoHandlersCreateTwo(w: World, k: Key)
    requires |w.queue| >= 2 && IsFor(w.queue[0], k) && IsFor(w.queue[1], k) && FindOpen(w.incidents, k).None?
    requires Ask(w.queue[0].job).Some? && Ask(w.queue[1].job).Some? && OneOpen(w.incidents, k)
    ensures Busied(BothSearch(w), |w.handlers|, Searched)
    ensures var w3, h := WriteStep(BothSearch(w), |w.handlers|), |w.handlers| + 1;
            && OneOpen(w3.incidents, k) && Busied(w3, h, Searched)
            && !CleanWrite(w3, WriteIncident(h), k) && !OneOpen(WriteStep(w3, h).incidents, k)
  {
    BothFindNone(w, k);
    BothCreate(BothSearch(w), |w.handlers|, |w.handlers| + 1, k);
  }

  /** Order matters: two jobs of a service that goes down and recovers, handled the wrong way round, leave a
      critical incident open for a healthy service. */
  lemma OutOfOrderLeavesIncidentOpen(rows: seq<Incident>, k: Key)
    requires OneOpen(rows, k) && OpenSeverity(rows, k) == None
    ensures var down := SaveFound(rows, k, Calls(DOWN), Find(rows, k));
            OpenSeverity(SaveFound(down, k, Calls(HEALTHY), Find(down, k)), k) == None
    ensures var up := SaveFound(rows, k, Calls(HEALTHY), Find(rows, k));
            OpenSeverity(SaveFound(up, k, Calls(DOWN), Find(up, k)), k) == Some(CRITICAL)
  {
    UndisturbedSave(rows, k, Calls(DOWN));
    UndisturbedSave(SaveFound(rows, k, Calls(DOWN), Find(rows, k)), k, Calls(HEALTHY));
    UndisturbedSave(rows, k, Calls(HEALTHY));
    UndisturbedSave(SaveFound(rows, k, Calls(HEALTHY), Find(rows, k)), k, Calls(DOWN));
  }
}
