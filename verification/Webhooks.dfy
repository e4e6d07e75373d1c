/** Outgoing webhooks: the entity's ACTIVE / DISABLED / FAILING machine, whole-row loads and saves under any
    interleaving, dispatch to subscribers, and the delivery loop with its growing pauses. */
module Webhooks {
  import opened Basics

  datatype Status = ACTIVE | DISABLED | FAILING
  datatype RetryPolicy = RetryPolicy(maxAttempts: int, backoffMs: int)

  const FAILING_THRESHOLD: nat := 3
  const DEFAULT_RETRY_POLICY: RetryPolicy := RetryPolicy(5, 5000)

  /** The columns that matter here; a save writes all of them at once. */
  datatype Row = Row(events: set<string>, policy: RetryPolicy, status: Status, failures: nat,
                     lastDelivery: Option<bool>)

  /** A webhook of a tenant. */
  datatype Key = Key(tenant: string, id: string)

  // ---- the entity's operations on values ----

  function Created(events: set<string>, policy: RetryPolicy): Row {
    Row(events, policy, ACTIVE, 0, None)
  }

  function Off(r: Row): Row { r.(status := DISABLED) }

  function On(r: Row): Row { r.(status := ACTIVE, failures := 0) }

  function Succeeded(r: Row): Row {
    r.(lastDelivery := Some(true), failures := 0, status := if r.status == FAILING then ACTIVE else r.status)
  }

  function FailedOnce(r: Row): Row {
    r.(lastDelivery := Some(false), failures := r.failures + 1,
       status := if r.failures + 1 >= FAILING_THRESHOLD && r.status == ACTIVE then FAILING else r.status)
  }

  /** The relation of status and counter that every stored row keeps. */
  predicate Coherent(r: Row) {
    && (r.status == ACTIVE ==> r.failures < FAILING_THRESHOLD)
    && (r.status == FAILING ==> r.failures >= FAILING_THRESHOLD)
  }

  // ---- any interleaving of load, mutate and save ----

  datatype Mutation = Disable | Enable | Succeed | Fail | Update(events: set<string>, policy: RetryPolicy)

  function Mutated(r: Row, m: Mutation): Row {
    match m
    case Disable => Off(r)
    case Enable => On(r)
    case Succeed => Succeeded(r)
    case Fail => FailedOnce(r)
    case Update(events, policy) => r.(events := events, policy := policy)
  }

  /** All of these, in order. */
  function Fold(r: Row, how: seq<Mutation>): Row {
    if how == [] then r else Mutated(Fold(r, how[..|how| - 1]), how[|how| - 1])
  }

  /** An entity in some request's memory: a new one, or a row loaded, and what was done to it since. */
  datatype Copy = Copy(key: Key, created: bool, base: Row, how: seq<Mutation>)
  {
    function Value(): Row { Fold(base, how) }
  }

  /** A webhook as created, and all mutations saved since, in the order of their saves. */
  datatype Life = Life(born: Row, how: seq<Mutation>)
  {
    function Value(): Row { Fold(born, how) }
  }

  /** `lives` is a history variable. */
  datatype Table = Table(rows: map<Key, Row>, copies: map<nat, Copy>, lives: map<Key, Life>)

  datatype Access =
    | Register(session: nat, key: Key, events: set<string>, policy: RetryPolicy)
    | Load(session: nat, key: Key)
    | Mutate(session: nat, how: Mutation)
    | Save(session: nat)
    | Delete(key: Key)

  /** A new webhook gets an identifier nobody has. */
  ghost predicate Possible(t: Table, a: Access) {
    match a
    case Register(s, k, _, _) =>
      s !in t.copies && k !in t.rows && k !in t.lives && forall q :: q in t.copies ==> t.copies[q].key != k
    case Load(s, k) => s !in t.copies && k in t.rows
    case Mutate(s, _) => s in t.copies
    case Save(s) => s in t.copies
    case Delete(_) => true
  }

  /** What a save adds to the life of its webhook; to a deleted one, nothing. */
  function LivesAfter(lives: map<Key, Life>, c: Copy): map<Key, Life> {
    if c.created then lives[c.key := Life(c.base, c.how)]
    else if c.key in lives then lives[c.key := Life(lives[c.key].born, lives[c.key].how + c.how)]
    else lives
  }

  function Perform(t: Table, a: Access): Table
    requires a.Load? ==> a.key in t.rows
    requires a.Mutate? || a.Save? ==> a.session in t.copies
  {
    match a
    case Register(s, k, events, policy) => t.(copies := t.copies[s := Copy(k, true, Created(events, policy), [])])
    case Load(s, k) => t.(copies := t.copies[s := Copy(k, false, t.rows[k], [])])
    case Mutate(s, m) => t.(copies := t.copies[s := t.copies[s].(how := t.copies[s].how + [m])])
    case Save(s) =>
      var c := t.copies[s];
      Table(t.rows[c.key := c.Value()], t.copies - {s}, LivesAfter(t.lives, c))
    case Delete(k) => t.(rows := t.rows - {k}, lives := t.lives - {k})
  }

  ghost predicate StepAt(tables: seq<Table>, accesses: seq<Access>, i: nat)
    requires |tables| == |accesses| + 1 && i < |accesses|
  {
    Possible(tables[i], accesses[i]) && tables[i + 1] == Perform(tables[i], accesses[i])
  }

  ghost predicate IsRun(tables: seq<Table>, accesses: seq<Access>) {
    && |tables| == |accesses| + 1
    && tables[0] == Table(map[], map[], map[])
    && forall i :: 0 <= i < |accesses| ==> StepAt(tables, accesses, i)
  }

  lemma {:induction false} FoldCoherent(r: Row, how: seq<Mutation>)
    requires Coherent(r)
    ensures Coherent(Fold(r, how))
  {
    if how != [] {
      FoldCoherent(r, how[..|how| - 1]);
    }
  }

  lemma {:induction false} FoldConcat(r: Row, a: seq<Mutation>, b: seq<Mutation>)
    ensures Fold(r, a + b) == Fold(Fold(r, a), b)
  {
    if b == [] {
      assert a + b == a;
    } else {
      assert (a + b)[..|a + b| - 1] == a + b[..|b| - 1];
      FoldConcat(r, a, b[..|b| - 1]);
    }
  }

  /** Under every interleaving, every stored row and every copy in memory keeps status and counter coherent. */
  lemma {:induction false} RowsStayCoherent(tables: seq<Table>, accesses: seq<Access>, i: nat)
    requires IsRun(tables, accesses) && i < |tables|
    ensures forall k :: k in tables[i].rows ==> Coherent(tables[i].rows[k])
    ensures forall s :: s in tables[i].copies ==>
              Coherent(tables[i].copies[s].base) && Coherent(tables[i].copies[s].Value())
  {
    if i > 0 {
      RowsStayCoherent(tables, accesses, i - 1);
      assert StepAt(tables, accesses, i - 1);
      forall s | s in tables[i].copies
        ensures Coherent(tables[i].copies[s].base) && Coherent(tables[i].copies[s].Value())
      {
        FoldCoherent(tables[i].copies[s].base, tables[i].copies[s].how);
      }
    }
  }

  // ---- when the table is what its saves say ----

  /** The webhook is what its creation and its saved mutations, one after the other, make of it; a deleted one
      is not there. */
  ghost predicate RowFollowsSaves(t: Table, k: Key) {
    (k in t.rows <==> k in t.lives) && (k in t.rows ==> t.rows[k] == t.lives[k].Value())
  }

  /** Is this a save of this webhook? */
  predicate Saves(t: Table, a: Access, k: Key) {
    a.Save? && a.session in t.copies && t.copies[a.session].key == k
  }

  /** If so, it does to the stored row what was done to the loaded one: always if they are the same. */
  predicate Faithful(t: Table, a: Access, k: Key) {
    Saves(t, a, k) ==>
      var c := t.copies[a.session];
      c.created || (k in t.rows && Fold(t.rows[k], c.how) == c.Value())
  }

  lemma FollowStep(t: Table, a: Access, k: Key)
    requires Possible(t, a) && RowFollowsSaves(t, k)
    ensures RowFollowsSaves(Perform(t, a), k) <==> Faithful(t, a, k)
  {
    if Saves(t, a, k) {
      var c := t.copies[a.session];
      if !c.created && k in t.lives {
        FoldConcat(t.lives[k].born, t.lives[k].how, c.how);
      }
    }
  }

  /** In every run, a webhook has followed its saves all along if and only if every save of it was faithful,
      whatever happens to other webhooks. A save of a deleted webhook never is: it brings it back. */
  lemma {:induction false} RowFollowsSavesIff(tables: seq<Table>, accesses: seq<Access>, n: nat, k: Key)
    requires IsRun(tables, accesses) && n <= |accesses|
    ensures (forall i :: 0 <= i <= n ==> RowFollowsSaves(tables[i], k))
            <==> (forall i :: 0 <= i < n ==> Faithful(tables[i], accesses[i], k))
  {
    if n > 0 {
      RowFollowsSavesIff(tables, accesses, n - 1, k);
      assert StepAt(tables, accesses, n - 1);
      if RowFollowsSaves(tables[n - 1], k) {
        FollowStep(tables[n - 1], accesses[n - 1], k);
      }
    }
  }

  /** In every run a webhook is in the table if and only if it has been saved since it was last deleted. */
  lemma {:induction false} StoredIffSavedSinceDeleted(tables: seq<Table>, accesses: seq<Access>, n: nat, k: Key)
    requires IsRun(tables, accesses) && n <= |accesses|
    ensures k in tables[n].rows
            <==> exists i :: 0 <= i < n && Saves(tables[i], accesses[i], k)
                             && forall j :: i < j < n ==> accesses[j] != Delete(k)
  {
    if n > 0 {
      StoredIffSavedSinceDeleted(tables, accesses, n - 1, k);
      assert StepAt(tables, accesses, n - 1);
      if k in tables[n - 1].rows && accesses[n - 1] != Delete(k) && !Saves(tables[n - 1], accesses[n - 1], k) {
        var i :| 0 <= i < n - 1 && Saves(tables[i], accesses[i], k)
                 && forall j :: i < j < n - 1 ==> accesses[j] != Delete(k);
        assert forall j :: i < j < n ==> accesses[j] != Delete(k);
      }
    }
  }

  // ---- the failure counter ----

  /** What the counter reacts to: false for a failed delivery, true for a success or an enable. */
  function Outcomes(how: seq<Mutation>): seq<bool> {
    if how == [] then []
    else
      var m := how[|how| - 1];
      Outcomes(how[..|how| - 1]) + if m.Fail? then [false] else if m.Succeed? || m.Enable? then [true] else []
  }

  lemma {:induction false} OutcomesConcat(a: seq<Mutation>, b: seq<Mutation>)
    ensures Outcomes(a + b) == Outcomes(a) + Outcomes(b)
  {
    if b == [] {
      assert a + b == a;
    } else {
      assert (a + b)[..|a + b| - 1] == a + b[..|b| - 1];
      OutcomesConcat(a, b[..|b| - 1]);
    }
  }

  /** With a success or an enable among the mutations the counter is the failures after the last one; without
      any, it goes on from where it was. */
  lemma {:induction false} FoldCounts(r: Row, how: seq<Mutation>)
    ensures true in Outcomes(how) ==> TrailingFailures(Outcomes(how), Fold(r, how).failures)
    ensures true !in Outcomes(how) ==> Fold(r, how).failures == r.failures + |Outcomes(how)|
  {
    if how != [] {
      var n := |how| - 1;
      FoldCounts(r, how[..n]);
      var before := Outcomes(how[..n]);
      if how[n].Fail? {
        assert Outcomes(how) == before + [false];
      } else if how[n].Succeed? || how[n].Enable? {
        assert Outcomes(how) == before + [true];
      }
    }
  }

  /** Appending outcomes to a log: a success among them decides alone, failures add to the streak. */
  lemma StreakAppend(log: seq<bool>, more: seq<bool>, m: nat, n: nat)
    requires TrailingFailures(log, m)
    requires if true in more then TrailingFailures(more, n) else n == m + |more|
    ensures TrailingFailures(log + more, n)
  {
    if true in more {
      var i :| 0 <= i < |more| && more[i];
      assert i < |more| - n;
    }
  }

  /** The counter is the failed deliveries saved since the last success or enable. */
  ghost predicate CounterTracks(t: Table, k: Key) {
    (k in t.rows <==> k in t.lives) && (k in t.rows ==> TrailingFailures(Outcomes(t.lives[k].how), t.rows[k].failures))
  }

  /** A save of this webhook resets the counter, or the stored counter is the one that was loaded. */
  predicate CountsOn(t: Table, a: Access, k: Key) {
    Saves(t, a, k) ==>
      var c := t.copies[a.session];
      c.created || (k in t.rows && (true in Outcomes(c.how) || t.rows[k].failures == c.base.failures))
  }

  /** New webhooks count from zero. */
  ghost predicate NewAtZero(t: Table) {
    forall s :: s in t.copies && t.copies[s].created ==> t.copies[s].base.failures == 0
  }

  lemma TrackStep(t: Table, a: Access, k: Key)
    requires Possible(t, a) && CounterTracks(t, k) && NewAtZero(t)
    ensures CounterTracks(Perform(t, a), k) <==> CountsOn(t, a, k)
  {
    if Saves(t, a, k) {
      var c := t.copies[a.session];
      if c.created {
        NewTracks(c);
      } else if k in t.lives {
        SavedCounter(t.lives[k].how, t.rows[k].failures, c);
      }
    }
  }

  lemma NewTracks(c: Copy)
    requires c.base.failures == 0
    ensures TrailingFailures(Outcomes(c.how), c.Value().failures)
  {
    FoldCounts(c.base, c.how);
    assert true !in Outcomes(c.how) ==> forall i :: 0 <= i < |Outcomes(c.how)| ==> !Outcomes(c.how)[i];
  }

  lemma SavedCounter(log: seq<Mutation>, stored: nat, c: Copy)
    requires TrailingFailures(Outcomes(log), stored)
    ensures TrailingFailures(Outcomes(log + c.how), c.Value().failures)
            <==> true in Outcomes(c.how) || stored == c.base.failures
  {
    var more := Outcomes(c.how);
    OutcomesConcat(log, c.how);
    FoldCounts(c.base, c.how);
    if true in more {
      StreakAppend(Outcomes(log), more, stored, c.Value().failures);
    } else {
      StreakAppend(Outcomes(log), more, stored, stored + |more|);
      if TrailingFailures(Outcomes(log + c.how), c.Value().failures) {
        TrailingFailuresUnique(Outcomes(log + c.how), c.Value().failures, stored + |more|);
      }
    }
  }

  lemma {:induction false} RunNewAtZero(tables: seq<Table>, accesses: seq<Access>, i: nat)
    requires IsRun(tables, accesses) && i < |tables|
    ensures NewAtZero(tables[i])
  {
    if i > 0 {
      RunNewAtZero(tables, accesses, i - 1);
      assert StepAt(tables, accesses, i - 1);
    }
  }

  /** In every run, the counter of a webhook has been the failed deliveries since the last success or enable, in
      the order of the saves, if and only if every save of it reset the counter or found the one it had loaded. */
  lemma {:induction false} CounterIsFailureStreakIff(tables: seq<Table>, accesses: seq<Access>, n: nat, k: Key)
    requires IsRun(tables, accesses) && n <= |accesses|
    ensures (forall i :: 0 <= i <= n ==> CounterTracks(tables[i], k))
            <==> (forall i :: 0 <= i < n ==> CountsOn(tables[i], accesses[i], k))
  {
    if n > 0 {
      CounterIsFailureStreakIff(tables, accesses, n - 1, k);
      assert StepAt(tables, accesses, n - 1);
      RunNewAtZero(tables, accesses, n - 1);
      if CounterTracks(tables[n - 1], k) {
        TrackStep(tables[n - 1], accesses[n - 1], k);
      }
    }
  }

  /** One failed delivery is counted when it is saved if and only if the stored counter is the one it loaded. */
  lemma FailureCountedIff(t: Table, s: nat)
    requires s in t.copies && t.copies[s].key in t.rows && t.copies[s].how == [Fail]
    ensures var k := t.copies[s].key;
            Perform(t, Save(s)).rows[k].failures == t.rows[k].failures + 1
            <==> t.rows[k].failures == t.copies[s].base.failures
  {
    FoldCounts(t.copies[s].base, [Fail]);
    assert Outcomes([Fail]) == [false] by { assert [Fail][..0] == []; }
  }

  /** Two deliveries that load the same row and both fail count once. */
  lemma LostUpdate(t: Table, k: Key, s1: nat, s2: nat)
    requires k in t.rows && s1 != s2 && s1 !in t.copies && s2 !in t.copies
    ensures var t1 := Perform(Perform(t, Load(s1, k)), Load(s2, k));
            var t2 := Perform(Perform(t1, Mutate(s1, Fail)), Mutate(s2, Fail));
            var t3 := Perform(t2, Save(s1));
            t3.rows[k].failures == t.rows[k].failures + 1
                && Perform(t3, Save(s2)).rows[k].failures == t.rows[k].failures + 1
  {
    var t1 := Perform(Perform(t, Load(s1, k)), Load(s2, k));
    var t2 := Perform(Perform(t1, Mutate(s1, Fail)), Mutate(s2, Fail));
    assert [] + [Fail] == [Fail];
    FailureCountedIff(t2, s1);
    FailureCountedIff(Perform(t2, Save(s1)), s2);
    FoldCounts(t.rows[k], [Fail]);
  }

  // ---- the status ----

  predicate SwitchedOff(how: seq<Mutation>) {
    how != [] &&
    var m := how[|how| - 1];
    m.Disable? || (!m.Enable? && SwitchedOff(how[..|how| - 1]))
  }

  /** The latest of these mutations that gave events and policy, and the latest outcome of a delivery. */
  function LatestUpdate(how: seq<Mutation>): Option<Mutation> {
    if how == [] then None
    else if how[|how| - 1].Update? then Some(how[|how| - 1])
    else LatestUpdate(how[..|how| - 1])
  }

  function LatestOutcome(how: seq<Mutation>): Option<bool> {
    if how == [] then None
    else if how[|how| - 1].Succeed? || how[|how| - 1].Fail? then Some(how[|how| - 1].Succeed?)
    else LatestOutcome(how[..|how| - 1])
  }

  /** The status a created webhook has after its mutations, in any order and number, and its other columns. */
  lemma {:induction false} StatusOf(events: set<string>, policy: RetryPolicy, how: seq<Mutation>)
    ensures var r := Fold(Created(events, policy), how);
            && (r.status == DISABLED <==> SwitchedOff(how))
            && (r.status == FAILING <==> !SwitchedOff(how) && r.failures >= 3)
            && ColumnsFollow(r, how, events, policy)
  {
    if how != [] {
      StatusOf(events, policy, how[..|how| - 1]);
    }
  }

  /** The columns that do not bear on the status: the latest of each. */
  predicate ColumnsFollow(r: Row, how: seq<Mutation>, events: set<string>, policy: RetryPolicy) {
    var u := LatestUpdate(how);
    && r.lastDelivery == LatestOutcome(how)
    && (if u.Some? && u.value.Update? then r.events == u.value.events && r.policy == u.value.policy
        else r.events == events && r.policy == policy)
  }

  lemma {:induction false} RunBornCreated(tables: seq<Table>, accesses: seq<Access>, i: nat)
    requires IsRun(tables, accesses) && i < |tables|
    ensures forall s :: s in tables[i].copies && tables[i].copies[s].created ==>
              var b := tables[i].copies[s].base; b == Created(b.events, b.policy)
    ensures forall k :: k in tables[i].lives ==> var b := tables[i].lives[k].born; b == Created(b.events, b.policy)
  {
    if i > 0 {
      RunBornCreated(tables, accesses, i - 1);
      assert StepAt(tables, accesses, i - 1);
    }
  }

  /** While all its saves have been faithful, a webhook is disabled exactly if it was switched off last, and
      otherwise failing exactly from three failures in a row on; its events and policy are those given last, and
      its last delivery is the last one saved. */
  lemma StatusFollowsSaves(tables: seq<Table>, accesses: seq<Access>, n: nat, k: Key)
    requires IsRun(tables, accesses) && n <= |accesses| && k in tables[n].rows
    requires forall i :: 0 <= i < n ==> Faithful(tables[i], accesses[i], k)
    ensures k in tables[n].lives
    ensures var r, how := tables[n].rows[k], tables[n].lives[k].how;
            && (r.status == DISABLED <==> SwitchedOff(how))
            && (r.status == FAILING <==> !SwitchedOff(how) && r.failures >= 3)
            && TrailingFailures(Outcomes(how), r.failures)
            && ColumnsFollow(r, how, tables[n].lives[k].born.events, tables[n].lives[k].born.policy)
  {
    RowFollowsSavesIff(tables, accesses, n, k);
    assert RowFollowsSaves(tables[n], k);
    RunBornCreated(tables, accesses, n);
    var life := tables[n].lives[k];
    StatusOf(life.born.events, life.born.policy, life.how);
    NewTracks(Copy(k, true, life.born, life.how));
  }

  /** A save of a copy loaded before undoes a switch-off: the webhook is active again. */
  lemma StaleSaveUndoesDisable(t: Table, k: Key, s1: nat, s2: nat)
    requires k in t.rows && t.rows[k].status == ACTIVE && s1 != s2 && s1 !in t.copies && s2 !in t.copies
    ensures var t1 := Perform(Perform(Perform(t, Load(s1, k)), Load(s2, k)), Mutate(s2, Disable));
            var t2 := Perform(t1, Save(s2));
            var t3 := Perform(t2, Mutate(s1, Succeed));
            && t2.rows[k].status == DISABLED && !Faithful(t3, Save(s1), k)
            && Perform(t3, Save(s1)).rows[k].status == ACTIVE
  {
    assert [] + [Disable] == [Disable] && [] + [Succeed] == [Succeed];
    FoldOne(t.rows[k], Disable);
    FoldOne(t.rows[k], Succeed);
    FoldOne(Off(t.rows[k]), Succeed);
  }

  lemma FoldOne(r: Row, m: Mutation)
    ensures Fold(r, [m]) == Mutated(r, m)
  {
    assert [m][..0] == [];
    assert Fold(r, [m][..0]) == r;
  }

  /** `findWebhooksForEvent` selects active subscribers only. */
  predicate Selected(r: Row, eventName: string) {
    r.status == ACTIVE && eventName in r.events
  }

  /** Does this copy bring the event in, by registration or by an update? */
  predicate Names(c: Copy, eventName: string) {
    (c.created && eventName in c.base.events)
    || exists i :: 0 <= i < |c.how| && c.how[i].Update? && eventName in c.how[i].events
  }

  lemma {:induction false} FoldNames(r: Row, how: seq<Mutation>, eventName: string)
    requires eventName in Fold(r, how).events && eventName !in r.events
    ensures exists i :: 0 <= i < |how| && how[i].Update? && eventName in how[i].events
  {
    var n := |how| - 1;
    if !(how[n].Update? && eventName in how[n].events) {
      FoldNames(r, how[..n], eventName);
      var i :| 0 <= i < n && how[..n][i].Update? && eventName in how[..n][i].events;
      assert how[i].Update? && eventName in how[i].events;
    }
  }

  /** In every run: a webhook no saved copy of which named an event, when registered or when updated, is not
      subscribed to it, and neither is any copy loaded of it; so no dispatch of the event finds it. */
  lemma {:induction false} NeverNamedNeverFound(tables: seq<Table>, accesses: seq<Access>, n: nat,
                                                k: Key, eventName: string)
    requires IsRun(tables, accesses) && n <= |accesses|
    requires forall i :: 0 <= i < n && Saves(tables[i], accesses[i], k) ==>
               !Names(tables[i].copies[accesses[i].session], eventName)
    ensures k in tables[n].rows ==> eventName !in tables[n].rows[k].events && !Selected(tables[n].rows[k], eventName)
    ensures forall s :: s in tables[n].copies && tables[n].copies[s].key == k && !tables[n].copies[s].created ==>
              eventName !in tables[n].copies[s].base.events
  {
    if n > 0 {
      NeverNamedNeverFound(tables, accesses, n - 1, k, eventName);
      var t, a := tables[n - 1], accesses[n - 1];
      assert StepAt(tables, accesses, n - 1);
      if Saves(t, a, k) && eventName in tables[n].rows[k].events {
        FoldNames(t.copies[a.session].base, t.copies[a.session].how, eventName);
      }
    }
  }

  predicate Revives(m: Mutation) {
    m.Enable? || m.Succeed?
  }

  /** A save that can make a webhook active again: a new one, one loaded while it was active, or a revival. */
  predicate MayActivate(c: Copy) {
    c.created || c.base.status == ACTIVE || exists i :: 0 <= i < |c.how| && Revives(c.how[i])
  }

  lemma {:induction false} StaysSilent(r: Row, how: seq<Mutation>)
    requires r.status != ACTIVE && forall i :: 0 <= i < |how| ==> !Revives(how[i])
    ensures Fold(r, how).status != ACTIVE
  {
    if how != [] {
      StaysSilent(r, how[..|how| - 1]);
    }
  }

  /** In every run: once failing, a webhook is selected for no event, under any interleaving, until something
      is saved that was loaded while it was active or that enables it or records a success. */
  lemma {:induction false} FailingIsSilent(tables: seq<Table>, accesses: seq<Access>, i: nat, j: nat,
                                           k: Key, eventName: string)
    requires IsRun(tables, accesses) && i <= j <= |accesses|
    requires k in tables[i].rows && tables[i].rows[k].status == FAILING
    requires forall n :: i <= n < j && accesses[n].Save? && accesses[n].session in tables[n].copies ==>
               tables[n].copies[accesses[n].session].key == k ==> !MayActivate(tables[n].copies[accesses[n].session])
    ensures k in tables[j].rows ==> tables[j].rows[k].status != ACTIVE && !Selected(tables[j].rows[k], eventName)
  {
    if i < j {
      FailingIsSilent(tables, accesses, i, j - 1, k, eventName);
      var t, a := tables[j - 1], accesses[j - 1];
      assert StepAt(tables, accesses, j - 1);
      if a.Save? && t.copies[a.session].key == k {
        StaysSilent(t.copies[a.session].base, t.copies[a.session].how);
      }
    }
  }

  /** Exactly an enable and a recorded success make a failing webhook reachable again. */
  lemma RevivalReactivates(r: Row, m: Mutation, eventName: string)
    requires r.status == FAILING && eventName in Mutated(r, m).events
    ensures Selected(Mutated(r, m), eventName) <==> Revives(m)
  {
  }

  // ---- one delivery ----

  /** What an attempt meets: a refused post, or an accepted one whose save succeeds or throws. A save that
      throws lands in the same catch block as a refused post. */
  datatype Attempt = Refused | Accepted | AcceptedUnsaved

  function Limit(p: RetryPolicy): nat {
    if p.maxAttempts > 0 then p.maxAttempts else 0
  }

  /** Was one of the first `n` attempts, numbered from 1, met like this? */
  ghost predicate Among(attempts: nat -> Attempt, n: nat, met: Attempt) {
    exists k :: 1 <= k <= n && attempts(k) == met
  }

  lemma AmongNext(attempts: nat -> Attempt, n: nat, met: Attempt)
    ensures Among(attempts, n + 1, met) <==> Among(attempts, n, met) || attempts(n + 1) == met
  {
  }

  /** Does the delivery end in a recorded success? */
  ghost predicate Delivered(r: Row, attempts: nat -> Attempt) {
    Among(attempts, Limit(r.policy), Accepted)
  }

  ghost predicate SomeUnsaved(r: Row, attempts: nat -> Attempt) {
    Among(attempts, Limit(r.policy), AcceptedUnsaved)
  }

  /** Exactly one outcome is recorded. A success whose save threw still reset the entity in memory. */
  ghost function AfterDelivery(r: Row, attempts: nat -> Attempt): Row {
    if Delivered(r, attempts) then Succeeded(r)
    else FailedOnce(if SomeUnsaved(r, attempts) then Succeeded(r) else r)
  }

  lemma AfterDeliveryCoherent(r: Row, attempts: nat -> Attempt)
    requires Coherent(r)
    ensures Coherent(AfterDelivery(r, attempts))
    ensures !SomeUnsaved(r, attempts) ==>
              AfterDelivery(r, attempts) == Mutated(r, if Delivered(r, attempts) then Succeed else Fail)
  {
  }

  /** A dispatch cut short is a failed job. When it is tried again, whoever was served with success is selected
      again and gets the event a second time. */
  lemma RetriedDispatchRepeats(r: Row, eventName: string, attempts: nat -> Attempt)
    requires Selected(r, eventName) && Coherent(r)
    ensures Delivered(r, attempts) ==> Selected(AfterDelivery(r, attempts), eventName)
    ensures !Delivered(r, attempts) && !SomeUnsaved(r, attempts) ==>
              (Selected(AfterDelivery(r, attempts), eventName) <==> r.failures + 1 < FAILING_THRESHOLD)
  {
  }

  /** The pauses after the first `n` failed attempts, each longer than the last by the policy's backoff. */
  function Pauses(backoffMs: int, n: nat): int {
    if n == 0 then 0 else Pauses(backoffMs, n - 1) + backoffMs * n
  }

  /** In closed form: a delivery that ends on attempt k, after k - 1 pauses, slept b * k * (k - 1) / 2. */
  lemma {:induction false} PausesClosedForm(backoffMs: int, k: nat)
    requires k > 0
    ensures 2 * Pauses(backoffMs, k - 1) == backoffMs * (k * (k - 1))
  {
    if k > 1 {
      PausesClosedForm(backoffMs, k - 1);
      assert backoffMs * ((k - 1) * (k - 2)) + 2 * (backoffMs * (k - 1)) == backoffMs * (k * (k - 1)) by {
        assert k * (k - 1) == (k - 1) * (k - 2) + 2 * (k - 1);
      }
    }
  }
}
