/** The webhook service in its own form. The entity is loaded, mutated and saved as a whole row; between two
    awaits the service makes at most one access to the table, and at each await others may make any number. The
    service carries the run of module Webhooks that its table has come from. */
module WebhookServices {
  import opened Basics
  import opened Webhooks

  /** Who makes this access. */
  predicate Makes(s: nat, a: Access) {
    !a.Delete? && a.session == s
  }

  /** The log has grown by accesses of others only. */
  ghost predicate Apart(before: seq<Access>, after: seq<Access>, mine: set<nat>) {
    before <= after && forall i, s :: |before| <= i < |after| && s in mine ==> !Makes(s, after[i])
  }

  lemma ApartTransitive(a: seq<Access>, b: seq<Access>, c: seq<Access>, mine: set<nat>)
    requires Apart(a, b, mine) && Apart(b, c, mine)
    ensures Apart(a, c, mine)
  {
    forall i, s | |a| <= i < |c| && s in mine ensures !Makes(s, c[i]) {
      if i < |b| { assert c[i] == b[i]; }
    }
  }

  /** These sessions hold the same copies. */
  ghost predicate SameCopies(before: map<nat, Copy>, after: map<nat, Copy>, mine: set<nat>) {
    forall s :: s in mine && s in before ==> s in after && after[s] == before[s]
  }

  /** At step i, session `s` saves, to a webhook it had loaded as `base`, this row. */
  ghost predicate SavesAt(tables: seq<Table>, accesses: seq<Access>, i: nat, s: nat, k: Key, base: Row, row: Row) {
    && i < |accesses| && i < |tables| && accesses[i] == Save(s) && s in tables[i].copies
    && var c := tables[i].copies[s];
       c.key == k && !c.created && c.base == base && c.Value() == row
  }

  /** A log determines its tables. */
  lemma {:induction false} TablesDetermined(tables: seq<Table>, accesses: seq<Access>,
                                            more: seq<Table>, log: seq<Access>, i: nat)
    requires IsRun(tables, accesses) && IsRun(more, log) && accesses <= log && i < |tables|
    ensures tables[i] == more[i]
  {
    if i > 0 {
      TablesDetermined(tables, accesses, more, log, i - 1);
      assert StepAt(tables, accesses, i - 1) && StepAt(more, log, i - 1);
    }
  }

  /** What a dispatch has done since the log was `a0`. The session `first + i` loaded the i-th webhook found; the
      first `|saved|` of these sessions have made one save each, of the delivered row, and the others none. */
  ghost predicate Served(a0: seq<Access>, tables: seq<Table>, accesses: seq<Access>, first: nat, found: seq<Key>,
                         saved: seq<nat>, loaded: map<Key, Row>, attempts: Key -> nat -> Attempt)
  {
    && |saved| <= |found|
    && (forall i :: 0 <= i < |found| ==> SavedOnce(a0, accesses, first, saved, i))
    && (forall i :: 0 <= i < |saved| ==>
         SavedOutcome(tables, accesses, saved[i], first + i, found[i], loaded, attempts))
  }

  /** The session of the i-th webhook holds the row as it was loaded. */
  ghost predicate Holds(copies: map<nat, Copy>, i: nat, first: nat, found: seq<Key>, loaded: map<Key, Row>) {
    && i < |found| && found[i] in loaded && first + i in copies
    && copies[first + i] == Copy(found[i], false, loaded[found[i]], [])
  }

  /** The session of the i-th webhook has saved exactly where `saved` says. */
  ghost predicate SavedOnce(a0: seq<Access>, accesses: seq<Access>, first: nat, saved: seq<nat>, i: nat) {
    OneSave(a0, accesses, first + i, if i < |saved| then Some(saved[i]) else None)
  }

  /** What session `s` saves is the row found, with the outcome of the delivery recorded. */
  ghost predicate SavedOutcome(tables: seq<Table>, accesses: seq<Access>, at: nat, s: nat, k: Key,
                               loaded: map<Key, Row>, attempts: Key -> nat -> Attempt)
  {
    k in loaded && SavesAt(tables, accesses, at, s, k, loaded[k], AfterDelivery(loaded[k], attempts(k)))
  }

  /** How many of these webhooks saw all attempts fail. */
  ghost function Failures(keys: seq<Key>, loaded: map<Key, Row>, attempts: Key -> nat -> Attempt): nat {
    if keys == [] then 0
    else
      var k, before := keys[|keys| - 1], Failures(keys[..|keys| - 1], loaded, attempts);
      before + if k in loaded && !Delivered(loaded[k], attempts(k)) then 1 else 0
  }

  /** All sessions from `lo` below `hi`. */
  ghost function Sessions(lo: nat, hi: nat): (r: set<nat>)
    ensures forall q :: q in r <==> lo <= q < hi
  {
    if lo >= hi then {} else Sessions(lo, hi - 1) + {hi - 1}
  }

  /** And all of these but one. */
  ghost function AllBut(lo: nat, hi: nat, s: nat): set<nat> {
    Sessions(lo, hi) - {s}
  }

  lemma NoneServed(a0: seq<Access>, tables: seq<Table>, accesses: seq<Access>, first: nat, found: seq<Key>,
                   loaded: map<Key, Row>, attempts: Key -> nat -> Attempt)
    requires forall i :: |a0| <= i < |accesses| ==> !accesses[i].Save?
    ensures Served(a0, tables, accesses, first, found, [], loaded, attempts)
  {
    forall i | 0 <= i < |found| ensures SavedOnce(a0, accesses, first, [], i) {}
  }

  /** The log grows by accesses of others. */
  lemma OneSaveStays(a0: seq<Access>, a1: seq<Access>, a2: seq<Access>, s: nat, saved: Option<nat>, mine: set<nat>)
    requires a0 <= a1 && OneSave(a0, a1, s, saved) && Apart(a1, a2, mine) && s in mine
    ensures OneSave(a0, a2, s, saved)
  {
    assert forall i :: |a0| <= i < |a1| ==> a2[i] == a1[i];
    assert forall i :: |a1| <= i < |a2| ==> !Makes(s, a2[i]);
  }

  /** After the delivery to the next webhook: one save at `s`, if any. */
  lemma ServedNext(a0: seq<Access>, t1: seq<Table>, a1: seq<Access>, c1: map<nat, Copy>,
                   t2: seq<Table>, a2: seq<Access>, c2: map<nat, Copy>,
                   first: nat, found: seq<Key>, saved: seq<nat>, loaded: map<Key, Row>,
                   attempts: Key -> nat -> Attempt, s: Option<nat>)
    requires IsRun(t1, a1) && IsRun(t2, a2) && a0 <= a1 && |saved| < |found| && found[|saved|] in loaded
    requires Served(a0, t1, a1, first, found, saved, loaded, attempts)
    requires Progress(a1, c1, a2, c2, first + |saved|, AllBut(first, first + |found|, first + |saved|), s)
    requires s.Some? ==> SavedOutcome(t2, a2, s.value, first + |saved|, found[|saved|], loaded, attempts)
    ensures Served(a0, t2, a2, first, found, if s.Some? then saved + [s.value] else saved, loaded, attempts)
  {
    var saved', n := if s.Some? then saved + [s.value] else saved, |saved|;
    forall i | 0 <= i < |found| ensures SavedOnce(a0, a2, first, saved', i) {
      assert SavedOnce(a0, a1, first, saved, i);
      if i == n {
        SavesNow(a0, a1, a2, first + n, s);
      } else {
        OtherSavedOnce(a0, a1, a2, first, n, |found|, saved, saved', i);
      }
    }
    forall i | 0 <= i < |saved'| ensures SavedOutcome(t2, a2, saved'[i], first + i, found[i], loaded, attempts) {
      if i < n {
        assert SavedOutcome(t1, a1, saved[i], first + i, found[i], loaded, attempts);
        SavedOutcomeLater(t1, a1, t2, a2, saved[i], first + i, found[i], loaded, attempts);
      }
    }
  }

  lemma OtherSavedOnce(a0: seq<Access>, a1: seq<Access>, a2: seq<Access>, first: nat, n: nat, count: nat,
                       saved: seq<nat>, saved': seq<nat>, i: nat)
    requires a0 <= a1 && SavedOnce(a0, a1, first, saved, i) && i < count && i != n
    requires Apart(a1, a2, AllBut(first, first + count, first + n))
    requires (i < |saved| <==> i < |saved'|) && (i < |saved| ==> saved'[i] == saved[i])
    ensures SavedOnce(a0, a2, first, saved', i)
  {
    assert first + i in AllBut(first, first + count, first + n);
    OneSaveStays(a0, a1, a2, first + i, if i < |saved| then Some(saved[i]) else None,
                 AllBut(first, first + count, first + n));
  }

  lemma SavesNow(a0: seq<Access>, a1: seq<Access>, a2: seq<Access>, s: nat, saved: Option<nat>)
    requires a0 <= a1 <= a2 && OneSave(a0, a1, s, None) && OneSave(a1, a2, s, saved)
    ensures OneSave(a0, a2, s, saved)
  {
    assert forall j :: |a0| <= j < |a1| ==> a2[j] == a1[j];
  }

  lemma SavedOutcomeLater(t1: seq<Table>, a1: seq<Access>, t2: seq<Table>, a2: seq<Access>, at: nat, s: nat, k: Key,
                          loaded: map<Key, Row>, attempts: Key -> nat -> Attempt)
    requires IsRun(t1, a1) && IsRun(t2, a2) && a1 <= a2 && SavedOutcome(t1, a1, at, s, k, loaded, attempts)
    ensures SavedOutcome(t2, a2, at, s, k, loaded, attempts)
  {
    TablesDetermined(t1, a1, t2, a2, at);
  }

  lemma FoldNext(r: Row, how: seq<Mutation>, m: Mutation)
    ensures Fold(r, how + [m]) == Mutated(Fold(r, how), m)
  {
    assert (how + [m])[..|how|] == how;
  }

  /** The log has grown without a save by this session, but for the one at `saved`. */
  ghost predicate OneSave(before: seq<Access>, after: seq<Access>, s: nat, saved: Option<nat>) {
    forall i :: |before| <= i < |after| && after[i] == Save(s) ==> saved == Some(i)
  }

  /** What working for session `s` leaves alone: sessions in `mine` have made no access and hold what they held;
      `s` has saved at `saved`, if at all. */
  ghost predicate Progress(a: seq<Access>, c: map<nat, Copy>, b: seq<Access>, d: map<nat, Copy>, s: nat, mine: set<nat>,
                           saved: Option<nat>)
  {
    Apart(a, b, mine) && SameCopies(c, d, mine) && OneSave(a, b, s, saved)
  }

  lemma GoOn(a: seq<Access>, c: map<nat, Copy>, b: seq<Access>, d: map<nat, Copy>, e: seq<Access>, f: map<nat, Copy>,
             s: nat, mine: set<nat>, saved: Option<nat>)
    requires Progress(a, c, b, d, s, mine, None) && Progress(b, d, e, f, s, mine, saved)
    ensures Progress(a, c, e, f, s, mine, saved)
  {
    ApartTransitive(a, b, e, mine);
    assert forall i :: |a| <= i < |b| ==> e[i] == b[i];
  }

  class Webhook {
    var events: set<string>
    var policy: RetryPolicy
    var status: Status
    var consecutiveFailures: nat
    var lastDelivery: Option<bool>

    ghost function Value(): Row
      reads this
    {
      Row(events, policy, status, consecutiveFailures, lastDelivery)
    }

    constructor (row: Row)
      ensures Value() == row
    {
      events, policy, status := row.events, row.policy, row.status;
      consecutiveFailures, lastDelivery := row.failures, row.lastDelivery;
    }

    method DisableIt()
      modifies this
      ensures Value() == Off(old(Value()))
    {
      status := DISABLED;
    }

    method EnableIt()
      modifies this
      ensures Value() == On(old(Value()))
    {
      status := ACTIVE;
      consecutiveFailures := 0;
    }

    /** `update`: only what is given changes, never the status or the counter. */
    method UpdateIt(newEvents: Option<set<string>>, newPolicy: Option<RetryPolicy>)
      modifies this
      ensures Value() == Mutated(old(Value()), Update(if newEvents.Some? then newEvents.value else old(events),
                                                      if newPolicy.Some? then newPolicy.value else old(policy)))
    {
      if newEvents.Some? {
        events := newEvents.value;
      }
      if newPolicy.Some? {
        policy := newPolicy.value;
      }
    }

    method RecordDeliverySuccess()
      modifies this
      ensures Value() == Succeeded(old(Value()))
      ensures old(Coherent(Value())) ==> Coherent(Value())
    {
      lastDelivery := Some(true);
      consecutiveFailures := 0;
      if status == FAILING {
        status := ACTIVE;
      }
    }

    method RecordDeliveryFailure()
      modifies this
      ensures Value() == FailedOnce(old(Value()))
      ensures old(Coherent(Value())) ==> Coherent(Value())
    {
      lastDelivery := Some(false);
      consecutiveFailures := consecutiveFailures + 1;
      if consecutiveFailures >= FAILING_THRESHOLD && status == ACTIVE {
        status := FAILING;
      }
    }
  }

  /** The webhook service and its table. `copies` are the entities in the memory of all requests. */
  class AdminWebhookService {
    var rows: map<Key, Row>
    ghost var copies: map<nat, Copy>
    ghost var lives: map<Key, Life>
    ghost var sessions: nat
    ghost var tables: seq<Table>
    ghost var accesses: seq<Access>

    ghost function Value(): Table
      reads this
    {
      Table(rows, copies, lives)
    }

    ghost predicate Valid()
      reads this
    {
      && IsRun(tables, accesses) && tables[|accesses|] == Value()
      && forall s :: s in copies ==> s < sessions
    }

    constructor ()
      ensures Valid() && Value() == Table(map[], map[], map[])
    {
      rows, copies, lives, sessions := map[], map[], map[], 0;
      tables, accesses := [Table(map[], map[], map[])], [];
    }

    ghost method Record(a: Access)
      requires IsRun(tables, accesses) && (forall s :: s in copies ==> s < sessions)
      requires Possible(tables[|accesses|], a) && Value() == Perform(tables[|accesses|], a)
      modifies this`tables, this`accesses
      ensures Valid() && tables == old(tables) + [Value()] && accesses == old(accesses) + [a]
    {
      ghost var t0, a0 := tables, accesses;
      tables, accesses := tables + [Value()], accesses + [a];
      forall i | 0 <= i < |accesses| ensures StepAt(tables, accesses, i) {
        if i < |a0| {
          assert StepAt(t0, a0, i) && tables[i] == t0[i] && tables[i + 1] == t0[i + 1] && accesses[i] == a0[i];
        }
      }
    }

    /** An await. This body stands for one in which nobody else is ready to run; callers may rely only on the
        contract, which lets all other sessions make any number of accesses meanwhile. */
    method Await(ghost mine: set<nat>)
      requires Valid() && forall s :: s in mine ==> s < sessions
      modifies this
      ensures Valid() && old(sessions) <= sessions
      ensures Apart(old(accesses), accesses, mine) && SameCopies(old(copies), copies, mine)
    {
    }

    /** One access by a new session: a row is loaded. */
    ghost method LoadRow(k: Key) returns (s: nat)
      requires Valid() && k in rows
      modifies this`copies, this`sessions, this`tables, this`accesses
      ensures Valid() && accesses == old(accesses) + [Load(s, k)]
      ensures s == old(sessions) && sessions == s + 1 && copies == old(copies)[s := Copy(k, false, rows[k], [])]
    {
      s := sessions;
      sessions := sessions + 1;
      copies := copies[s := Copy(k, false, rows[k], [])];
      Record(Load(s, k));
    }

    /** The entity of this session has just been mutated. */
    ghost method Note(s: nat, m: Mutation)
      requires Valid() && s in copies
      modifies this`copies, this`tables, this`accesses
      ensures Valid() && accesses == old(accesses) + [Mutate(s, m)]
      ensures copies == old(copies)[s := old(copies)[s].(how := old(copies)[s].how + [m])]
      ensures copies[s].Value() == Mutated(old(copies)[s].Value(), m)
    {
      FoldNext(copies[s].base, copies[s].how, m);
      copies := copies[s := copies[s].(how := copies[s].how + [m])];
      Record(Mutate(s, m));
    }

    /** The whole row is written. */
    method SaveWebhook(k: Key, w: Webhook, ghost s: nat)
      requires Valid() && s in copies && copies[s].key == k && copies[s].Value() == w.Value()
      modifies this`rows, this`copies, this`lives, this`tables, this`accesses
      ensures Valid() && accesses == old(accesses) + [Save(s)]
      ensures tables[|old(accesses)|] == old(Value())
      ensures rows == old(rows)[k := w.Value()] && copies == old(copies) - {s}
    {
      rows := rows[k := Row(w.events, w.policy, w.status, w.consecutiveFailures, w.lastDelivery)];
      lives := LivesAfter(lives, copies[s]);
      copies := copies - {s};
      Record(Save(s));
    }

    /** A new webhook gets a random identifier, one that nobody has. */
    method RegisterWebhook(k: Key, events: set<string>, policy: Option<RetryPolicy>) returns (ghost at: nat)
      requires Valid() && k !in rows && k !in lives && forall s :: s in copies ==> copies[s].key != k
      modifies this
      ensures Valid() && old(accesses) <= accesses
      ensures |old(accesses)| <= at < |accesses| && accesses[at].Save? && accesses[at].session in tables[at].copies
      ensures var c := tables[at].copies[accesses[at].session];
              && c.key == k && c.created && c.how == []
              && c.base == Row(events, if policy.Some? then policy.value else RetryPolicy(5, 5000), ACTIVE, 0, None)
    {
      var retryPolicy := if policy.Some? then policy.value else DEFAULT_RETRY_POLICY;
      var w := new Webhook(Created(events, retryPolicy));
      ghost var s := sessions;
      sessions := sessions + 1;
      copies := copies[s := Copy(k, true, Created(events, retryPolicy), [])];
      Record(Register(s, k, events, retryPolicy));
      Await({s});
      at := |accesses|;
      SaveWebhook(k, w, s);
    }

    /** False for an unknown webhook, where the service throws. */
    method EnableWebhook(k: Key) returns (found: bool, ghost at: nat, ghost s: nat, ghost saved: nat)
      requires Valid()
      modifies this
      ensures Valid() && old(accesses) <= accesses
      ensures |old(accesses)| <= at <= |accesses| && at < |tables| && found == (k in tables[at].rows)
      ensures found ==> at < saved && SavesAt(tables, accesses, saved, s, k, tables[at].rows[k], On(tables[at].rows[k]))
    {
      Await({});
      at, s, saved := |accesses|, sessions, 0;
      if k !in rows {
        return false, at, s, saved;
      }
      var w := new Webhook(rows[k]);
      ghost var t0, a0 := tables, accesses;
      s := LoadRow(k);
      w.EnableIt();
      Note(s, Enable);
      Await({s});
      saved := |accesses|;
      SaveWebhook(k, w, s);
      TablesDetermined(t0, a0, tables, accesses, at);
      found := true;
    }

    method DisableWebhook(k: Key) returns (found: bool, ghost at: nat, ghost s: nat, ghost saved: nat)
      requires Valid()
      modifies this
      ensures Valid() && old(accesses) <= accesses
      ensures |old(accesses)| <= at <= |accesses| && at < |tables| && found == (k in tables[at].rows)
      ensures found ==>
                at < saved && SavesAt(tables, accesses, saved, s, k, tables[at].rows[k], Off(tables[at].rows[k]))
    {
      Await({});
      at, s, saved := |accesses|, sessions, 0;
      if k !in rows {
        return false, at, s, saved;
      }
      var w := new Webhook(rows[k]);
      ghost var t0, a0 := tables, accesses;
      s := LoadRow(k);
      w.DisableIt();
      Note(s, Disable);
      Await({s});
      saved := |accesses|;
      SaveWebhook(k, w, s);
      TablesDetermined(t0, a0, tables, accesses, at);
      found := true;
    }

    /** The session holds this copy, and the entity is its present value. */
    ghost predicate InHand(s: nat, k: Key, base: Row, w: Webhook)
      reads this, w
    {
      && s in copies && s < sessions && copies[s].Value() == w.Value()
      && copies[s].key == k && !copies[s].created && copies[s].base == base
    }

    /** An await of this session, which has made the given progress since `a0` and `c0`. */
    method Pause(k: Key, w: Webhook, ghost s: nat, ghost base: Row, ghost mine: set<nat>,
                 ghost a0: seq<Access>, ghost c0: map<nat, Copy>)
      requires Valid() && InHand(s, k, base, w) && s !in mine && forall q :: q in mine ==> q < sessions
      requires Progress(a0, c0, accesses, copies, s, mine, None)
      modifies this
      ensures Valid() && InHand(s, k, base, w) && old(sessions) <= sessions && |old(accesses)| <= |accesses|
      ensures Progress(a0, c0, accesses, copies, s, mine, None)
    {
      ghost var a1, c1 := accesses, copies;
      Await(mine + {s});
      assert s in mine + {s} && forall q :: q in mine ==> q in mine + {s};
      assert forall i :: |a1| <= i < |accesses| ==> !Makes(s, accesses[i]);
      GoOn(a0, c0, a1, c1, accesses, copies, s, mine, None);
    }

    /** The entity of this session has just been mutated. */
    ghost method NoteInHand(k: Key, w: Webhook, m: Mutation, s: nat, base: Row, mine: set<nat>)
      requires Valid() && s in copies && s < sessions && Mutated(copies[s].Value(), m) == w.Value()
      requires copies[s].key == k && !copies[s].created && copies[s].base == base && s !in mine
      modifies this`copies, this`tables, this`accesses
      ensures Valid() && InHand(s, k, base, w)
      ensures Progress(old(accesses), old(copies), accesses, copies, s, mine, None)
    {
      Note(s, m);
    }

    method SaveInHand(k: Key, w: Webhook, ghost s: nat, ghost base: Row, ghost mine: set<nat>)
        returns (ghost saved: Option<nat>)
      requires Valid() && InHand(s, k, base, w) && s !in mine
      modifies this`rows, this`copies, this`lives, this`tables, this`accesses
      ensures Valid() && saved == Some(|old(accesses)|)
      ensures SavesAt(tables, accesses, saved.value, s, k, base, w.Value())
      ensures Progress(old(accesses), old(copies), accesses, copies, s, mine, saved)
    {
      saved := Some(|accesses|);
      SaveWebhook(k, w, s);
    }

    /** One attempt: the post, and when it is accepted the record of it and the save. */
    method Attempt(k: Key, w: Webhook, met: Attempt, ghost s: nat, ghost base: Row, ghost mine: set<nat>,
                   ghost a0: seq<Access>, ghost c0: map<nat, Copy>)
        returns (ghost saved: Option<nat>)
      requires Valid() && InHand(s, k, base, w) && s !in mine && forall q :: q in mine ==> q < sessions
      requires Progress(a0, c0, accesses, copies, s, mine, None)
      modifies this, w
      ensures Valid() && old(sessions) <= sessions
      ensures Progress(a0, c0, accesses, copies, s, mine, saved)
      ensures w.Value() == if met == Refused then old(w.Value()) else Succeeded(old(w.Value()))
      ensures if met == Accepted
              then saved.Some? && |a0| <= saved.value && SavesAt(tables, accesses, saved.value, s, k, base, w.Value())
              else saved.None? && InHand(s, k, base, w)
    {
      saved := None;
      Pause(k, w, s, base, mine, a0, c0);
      if met != Refused {
        saved := RecordAndSave(k, w, Succeed, met == Accepted, s, base, mine, a0, c0);
      }
    }

    /** The outcome is recorded in the entity, and the entity saved unless that throws. */
    method RecordAndSave(k: Key, w: Webhook, m: Mutation, saveOk: bool, ghost s: nat, ghost base: Row,
                         ghost mine: set<nat>, ghost a0: seq<Access>, ghost c0: map<nat, Copy>)
        returns (ghost saved: Option<nat>)
      requires Valid() && InHand(s, k, base, w) && s !in mine && forall q :: q in mine ==> q < sessions
      requires (m.Succeed? || m.Fail?) && Progress(a0, c0, accesses, copies, s, mine, None)
      modifies this, w
      ensures Valid() && old(sessions) <= sessions && w.Value() == Mutated(old(w.Value()), m)
      ensures Progress(a0, c0, accesses, copies, s, mine, saved)
      ensures if saveOk
              then saved.Some? && |a0| <= saved.value && SavesAt(tables, accesses, saved.value, s, k, base, w.Value())
              else saved.None? && InHand(s, k, base, w)
    {
      saved := None;
      if m.Succeed? {
        w.RecordDeliverySuccess();
      } else {
        w.RecordDeliveryFailure();
      }
      ghost var a1, c1 := accesses, copies;
      NoteInHand(k, w, m, s, base, mine);
      GoOn(a0, c0, a1, c1, accesses, copies, s, mine, None);
      Pause(k, w, s, base, mine, a0, c0);
      if saveOk {
        ghost var a3, c3 := accesses, copies;
        saved := SaveInHand(k, w, s, base, mine);
        GoOn(a0, c0, a3, c3, accesses, copies, s, mine, saved);
      }
    }

    /** The sleep after the k-th failed attempt is k times the policy's backoff. */
    method Backoff(policy: RetryPolicy, posts: nat, slept: int) returns (total: int)
      requires posts > 0 && slept == Pauses(policy.backoffMs, posts - 1)
      ensures total == Pauses(policy.backoffMs, posts)
    {
      total := slept + policy.backoffMs * posts;
    }

    /** The delivery loop: it stops at the first accepted and saved attempt, and pauses `backoffMs * k` after the
        k-th failed attempt unless that was the last. */
    method AttemptAll(k: Key, w: Webhook, attempts: nat -> Attempt, ghost s: nat, ghost mine: set<nat>)
        returns (posts: nat, slept: int, delivered: bool, ghost saved: Option<nat>)
      requires Valid() && InHand(s, k, w.Value(), w) && s !in mine && forall q :: q in mine ==> q < sessions
      modifies this, w
      ensures Valid() && old(sessions) <= sessions
      ensures Progress(old(accesses), old(copies), accesses, copies, s, mine, saved)
      ensures delivered <==> Delivered(old(w.Value()), attempts)
      ensures var r := old(w.Value()); w.Value() == if delivered || SomeUnsaved(r, attempts) then Succeeded(r) else r
      ensures if delivered
              then saved.Some? && |old(accesses)| <= saved.value
                && SavesAt(tables, accesses, saved.value, s, k, old(w.Value()), w.Value())
              else saved.None? && InHand(s, k, old(w.Value()), w)
      ensures posts <= Limit(old(w.policy))
      ensures delivered ==> posts >= 1 && attempts(posts) == Accepted && !Among(attempts, posts - 1, Accepted)
      ensures !delivered ==> posts == Limit(old(w.policy))
      ensures slept == Pauses(old(w.policy).backoffMs, if posts == 0 then 0 else posts - 1)
    {
      var policy := w.policy;
      ghost var start, pauses := w.Value(), 0;
      posts, slept, saved := 0, 0, None;
      while posts < Limit(policy)
        invariant Valid() && InHand(s, k, start, w) && old(sessions) <= sessions
        invariant Progress(old(accesses), old(copies), accesses, copies, s, mine, None) && saved == None
        invariant posts <= Limit(policy) == Limit(start.policy)
        invariant !Among(attempts, posts, Accepted)
        invariant pauses == if posts == 0 then 0 else if posts < Limit(policy) then posts else posts - 1
        invariant slept == Pauses(policy.backoffMs, pauses)
        invariant w.Value() == if Among(attempts, posts, AcceptedUnsaved) then Succeeded(start) else start
      {
        AmongNext(attempts, posts, Accepted);
        AmongNext(attempts, posts, AcceptedUnsaved);
        posts := posts + 1;
        var met := attempts(posts);
        saved := Attempt(k, w, met, s, start, mine, old(accesses), old(copies));
        if met == Accepted {
          return posts, slept, true, saved;
        }
        if posts < policy.maxAttempts {
          slept := Backoff(policy, posts, slept);
          pauses := posts;
          Pause(k, w, s, start, mine, old(accesses), old(copies));
        }
      }
      delivered := false;
    }

    /** A delivery records one outcome, in one save. The save is of the row as it was loaded, so what it does to
        the stored row depends on what others have saved meanwhile. An event is published exactly when every
        attempt failed and the final save did not throw. */
    method Deliver(k: Key, w: Webhook, attempts: nat -> Attempt, finalSaveOk: bool, ghost s: nat, ghost mine: set<nat>)
        returns (posts: nat, slept: int, delivered: bool, published: bool, ghost saved: Option<nat>)
      requires Valid() && InHand(s, k, w.Value(), w) && s !in mine && forall q :: q in mine ==> q < sessions
      modifies this, w
      ensures Valid() && old(sessions) <= sessions
      ensures Progress(old(accesses), old(copies), accesses, copies, s, mine, saved)
      ensures delivered <==> Delivered(old(w.Value()), attempts)
      ensures w.Value() == AfterDelivery(old(w.Value()), attempts)
      ensures saved.Some? <==> delivered || finalSaveOk
      ensures saved.Some? ==>
                && |old(accesses)| <= saved.value
                && SavesAt(tables, accesses, saved.value, s, k, old(w.Value()), AfterDelivery(old(w.Value()), attempts))
      ensures published <==> !delivered && finalSaveOk
      ensures posts <= Limit(old(w.policy))
      ensures delivered <==> exists i :: 1 <= i <= old(w.policy.maxAttempts) && attempts(i) == Accepted
      ensures delivered ==> 1 <= posts <= old(w.policy.maxAttempts) && attempts(posts) == Accepted
      ensures delivered ==> forall i :: 1 <= i < posts ==> attempts(i) != Accepted
      ensures !delivered ==> posts == if old(w.policy.maxAttempts) > 0 then old(w.policy.maxAttempts) else 0
      ensures slept == Pauses(old(w.policy).backoffMs, if posts == 0 then 0 else posts - 1)
      ensures w.lastDelivery == Some(delivered) && w.events == old(w.events) && w.policy == old(w.policy)
      ensures var resets := exists i :: 1 <= i <= old(w.policy.maxAttempts) && attempts(i) != Refused;
              var before := if resets then 0 else old(w.consecutiveFailures);
              && w.consecutiveFailures == before + (if delivered then 0 else 1)
              && w.status == (if resets && old(w.status) == FAILING then ACTIVE
                              else if !delivered && before >= 2 && old(w.status) == ACTIVE then FAILING
                              else old(w.status))
    {
      ghost var start := w.Value();
      posts, slept, delivered, saved := AttemptAll(k, w, attempts, s, mine);
      published := false;
      if !delivered {
        saved := RecordAndSave(k, w, Fail, finalSaveOk, s, start, mine, old(accesses), old(copies));
        published := finalSaveOk;
      }
    }

    /** A manual retry delivers to any webhook there is, whatever its status. `at` is when it was looked up;
        `thrown` is the error of a final save. */
    method RetryDelivery(k: Key, attempts: nat -> Attempt, finalSaveOk: bool)
        returns (found: bool, thrown: bool, ghost at: nat, ghost s: nat, ghost saved: Option<nat>)
      requires Valid()
      modifies this
      ensures Valid() && old(accesses) <= accesses
      ensures |old(accesses)| <= at <= |accesses| && at < |tables| && found == (k in tables[at].rows)
      ensures thrown <==> found && !Delivered(tables[at].rows[k], attempts) && !finalSaveOk
      ensures saved.Some? <==> found && !thrown
      ensures saved.Some? ==>
                var row := tables[at].rows[k];
                at < saved.value && SavesAt(tables, accesses, saved.value, s, k, row, AfterDelivery(row, attempts))
    {
      Await({});
      at, s, saved := |accesses|, sessions, None;
      if k !in rows {
        return false, false, at, s, saved;
      }
      var w := new Webhook(rows[k]);
      ghost var t0, a0 := tables, accesses;
      s := LoadRow(k);
      var posts, slept, delivered, published;
      posts, slept, delivered, published, saved := Deliver(k, w, attempts, finalSaveOk, s, {});
      TablesDetermined(t0, a0, tables, accesses, at);
      found, thrown := true, !delivered && !finalSaveOk;
    }

    /** `findWebhooksForEvent`: the active subscribers of the tenant, in whatever order the database gives them. */
    method FindWebhooksForEvent(tenant: string, eventName: string) returns (found: seq<Key>)
      ensures forall k :: k in found <==>
                k in rows && k.tenant == tenant && rows[k].status == ACTIVE && eventName in rows[k].events
      ensures forall i, j :: 0 <= i < j < |found| ==> found[i] != found[j]
    {
      var todo := set k | k in rows && k.tenant == tenant && rows[k].status == ACTIVE && eventName in rows[k].events;
      found := [];
      while todo != {}
        invariant forall k ::
                    k in found || k in todo
                    <==> k in rows && k.tenant == tenant && rows[k].status == ACTIVE && eventName in rows[k].events
        invariant forall k :: k in found ==> k !in todo
        invariant forall i, j :: 0 <= i < j < |found| ==> found[i] != found[j]
        decreases todo
      {
        var k :| k in todo;
        todo := todo - {k};
        found := found + [k];
      }
    }

    /** From the n-th webhook on, sessions hold the rows as they were loaded. */
    ghost predicate Untouched(n: nat, first: nat, found: seq<Key>, loaded: map<Key, Row>)
      reads this
    {
      forall i :: n <= i < |found| ==> Holds(copies, i, first, found, loaded)
    }

    /** The rows a query found are loaded at once, each as a copy of its own. */
    ghost method LoadAll(found: seq<Key>) returns (first: nat)
      requires Valid() && forall k :: k in found ==> k in rows
      modifies this`copies, this`sessions, this`tables, this`accesses
      ensures Valid() && old(accesses) <= accesses && first == old(sessions) && sessions == first + |found|
      ensures Untouched(0, first, found, rows)
      ensures forall i :: |old(accesses)| <= i < |accesses| ==> !accesses[i].Save?
    {
      first := sessions;
      for n := 0 to |found|
        invariant Valid() && old(accesses) <= accesses && sessions == first + n
        invariant forall i :: 0 <= i < n ==> Holds(copies, i, first, found, rows)
        invariant forall i :: |old(accesses)| <= i < |accesses| ==> !accesses[i].Save?
      {
        ghost var before := copies;
        var s := LoadRow(found[n]);
        forall i | 0 <= i <= n ensures Holds(copies, i, first, found, rows) {
          assert i < n ==> Holds(before, i, first, found, rows);
        }
      }
    }

    /** Dispatch finds the active subscribers of the tenant, at `at`, and delivers once to each of them and to
        nobody else, one after the other, until all are served or a final save throws. Then the rest is left
        out. Each one served makes one save, of the row found with the outcome recorded; each of them all of
        whose attempts failed gives one failure event. */
    method DispatchEvent(tenant: string, eventName: string, attempts: Key -> nat -> Attempt, finalSaveOk: Key -> bool)
        returns (thrown: bool, failures: nat,
                 ghost at: nat, ghost first: nat, ghost found: seq<Key>, ghost saved: seq<nat>)
      requires Valid()
      modifies this
      ensures Valid() && old(accesses) <= accesses && |old(accesses)| <= at <= |accesses| && at < |tables|
      ensures forall k ::
                k in found <==> k in tables[at].rows && k.tenant == tenant
                                && tables[at].rows[k].status == ACTIVE && eventName in tables[at].rows[k].events
      ensures forall i, j :: 0 <= i < j < |found| ==> found[i] != found[j]
      ensures Served(accesses[..at], tables, accesses, first, found, saved, tables[at].rows, attempts)
      ensures !thrown ==> |saved| == |found|
      ensures thrown ==>
                && |saved| < |found|
                && var k := found[|saved|]; !Delivered(tables[at].rows[k], attempts(k)) && !finalSaveOk(k)
      ensures failures == Failures(found[..|saved|], tables[at].rows, attempts)
    {
      Await({});
      at := |accesses|;
      ghost var t0, a0 := tables, accesses;
      var loaded := rows;
      var webhooks := FindWebhooksForEvent(tenant, eventName);
      found := webhooks;
      first := LoadAll(found);
      NoneServed(a0, tables, accesses, first, found, loaded, attempts);
      thrown, failures, saved := ServeAll(webhooks, loaded, attempts, finalSaveOk, first, a0);
      TablesDetermined(t0, a0, tables, accesses, at);
      assert accesses[..at] == a0;
    }

    /** The loop over the webhooks found. */
    method ServeAll(found: seq<Key>, loaded: map<Key, Row>, attempts: Key -> nat -> Attempt, finalSaveOk: Key -> bool,
                    ghost first: nat, ghost a0: seq<Access>)
        returns (thrown: bool, failures: nat, ghost saved: seq<nat>)
      requires Valid() && a0 <= accesses && first + |found| <= sessions && Untouched(0, first, found, loaded)
      requires Served(a0, tables, accesses, first, found, [], loaded, attempts)
      modifies this
      ensures Valid() && a0 <= accesses && Served(a0, tables, accesses, first, found, saved, loaded, attempts)
      ensures !thrown ==> |saved| == |found|
      ensures thrown ==>
                && |saved| < |found|
                && var k := found[|saved|]; k in loaded && !Delivered(loaded[k], attempts(k)) && !finalSaveOk(k)
      ensures failures == Failures(found[..|saved|], loaded, attempts)
    {
      thrown, saved, failures := false, [], 0;
      for n := 0 to |found|
        invariant Valid() && a0 <= accesses && first + |found| <= sessions && Untouched(n, first, found, loaded)
        invariant |saved| == n && Served(a0, tables, accesses, first, found, saved, loaded, attempts)
        invariant failures == Failures(found[..n], loaded, attempts)
      {
        assert Holds(copies, n, first, found, loaded);
        var delivered;
        delivered, saved := ServeNext(n, found, loaded, attempts, finalSaveOk(found[n]), first, saved, a0);
        if !delivered && !finalSaveOk(found[n]) {
          return true, failures, saved;
        }
        assert found[..n + 1][..n] == found[..n];
        if !delivered {
          failures := failures + 1;
        }
      }
      assert found[..|found|] == found;
    }

    /** One round of the loop. */
    method ServeNext(n: nat, found: seq<Key>, loaded: map<Key, Row>, attempts: Key -> nat -> Attempt, finalSaveOk: bool,
                     ghost first: nat, ghost saved: seq<nat>, ghost a0: seq<Access>)
        returns (delivered: bool, ghost saved': seq<nat>)
      requires Valid() && a0 <= accesses && first + |found| <= sessions && n == |saved| < |found|
      requires Untouched(n, first, found, loaded) && found[n] in loaded && Holds(copies, n, first, found, loaded)
      requires Served(a0, tables, accesses, first, found, saved, loaded, attempts)
      modifies this
      ensures Valid() && a0 <= accesses && old(sessions) <= sessions && Untouched(n + 1, first, found, loaded)
      ensures Served(a0, tables, accesses, first, found, saved', loaded, attempts)
      ensures delivered <==> Delivered(loaded[found[n]], attempts(found[n]))
      ensures if delivered || finalSaveOk then |saved'| == n + 1 else saved' == saved
    {
      assert Holds(copies, n, first, found, loaded);
      var k := found[n];
      ghost var t1, a1, c1, s, mine := tables, accesses, copies, None, AllBut(first, first + |found|, first + n);
      delivered, s := DeliverTo(k, loaded[k], attempts(k), finalSaveOk, first + n, mine);
      ServedNext(a0, t1, a1, c1, tables, accesses, copies, first, found, saved, loaded, attempts, s);
      saved' := if s.Some? then saved + [s.value] else saved;
      forall i | n + 1 <= i < |found| ensures Holds(copies, i, first, found, loaded) {
        assert Holds(c1, i, first, found, loaded) && first + i in mine;
      }
    }

    method DeliverTo(k: Key, row: Row, attempts: nat -> Attempt, finalSaveOk: bool, ghost s: nat, ghost mine: set<nat>)
        returns (delivered: bool, ghost saved: Option<nat>)
      requires Valid() && s in copies && copies[s] == Copy(k, false, row, []) && s !in mine
      requires forall q :: q in mine ==> q < sessions
      modifies this
      ensures Valid() && old(sessions) <= sessions && (delivered <==> Delivered(row, attempts))
      ensures Progress(old(accesses), old(copies), accesses, copies, s, mine, saved)
      ensures saved.Some? <==> delivered || finalSaveOk
      ensures saved.Some? ==> SavesAt(tables, accesses, saved.value, s, k, row, AfterDelivery(row, attempts))
    {
      var w := new Webhook(row);
      var posts, slept, published;
      posts, slept, delivered, published, saved := Deliver(k, w, attempts, finalSaveOk, s, mine);
    }
  }
}
