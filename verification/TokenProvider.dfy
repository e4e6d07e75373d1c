/** The service-token provider: the client side of the client-credentials grant (section 4.4 of RFC 6749),
    with a cache and a single flight. `getAuthHeader` runs up to its await in one step; the token reply,
    the `finally` that clears the flight, and each waiting caller's resumption are steps of their own. */
module TokenProvider {
  import opened Basics

  const EXPIRY_SKEW_MS: int := 60_000
  const DEFAULT_LIFETIME_S: int := 3600


  type FetchId = nat
  type CallerId = nat

  /** The reply to the token request. An absent token is the empty string and an absent or unusable
      `expires_in` is 0: the code treats both alike. */
  datatype Reply = HttpError | Body(accessToken: string, expiresIn: int)

  function Lifetime(expiresIn: int): int {
    if expiresIn == 0 then DEFAULT_LIFETIME_S else expiresIn
  }

  predicate Grants(r: Reply) {
    r.Body? && r.accessToken != ""
  }

  datatype Cached = Cached(token: string, expiresAt: int)

  /** A token request: sent, answered with the flight still registered, or cleared away. */
  datatype Fetch = Outstanding | Answered(token: Option<string>) | Cleared(token: Option<string>)

  datatype Caller =
    | Disabled
    | FromCache(token: string)
    | Waiting(fetch: FetchId)
    | Joined(fetch: FetchId, outcome: Option<string>)

  datatype State = State(
    enabled: bool,
    now: int,
    cached: Option<Cached>,
    inFlight: Option<FetchId>,
    fetches: seq<Fetch>,
    callers: map<CallerId, Caller>)

  function Init(enabled: bool, now: int): State {
    State(enabled, now, None, None, [], map[])
  }

  datatype Action =
    | Call(caller: CallerId, at: int)
    | Receive(fetch: FetchId, reply: Reply, at: int)
    | Clear(fetch: FetchId, at: int)
    | Resume(caller: CallerId, at: int)

  predicate CacheValid(s: State, at: int) {
    s.cached.Some? && s.cached.value.expiresAt > at
  }

  predicate Enabled(s: State, a: Action) {
    && s.now <= a.at
    && match a
       case Call(c, _) => c !in s.callers
       case Receive(f, _, _) => f < |s.fetches| && s.fetches[f].Outstanding?
       case Clear(f, _) => f < |s.fetches| && s.fetches[f].Answered?
       case Resume(c, _) =>
         && c in s.callers && s.callers[c].Waiting?
         && s.callers[c].fetch < |s.fetches| && s.fetches[s.callers[c].fetch].Cleared?
  }

  /** Does this call send a token request of its own? */
  predicate Sends(s: State, a: Action) {
    a.Call? && s.enabled && !CacheValid(s, a.at) && s.inFlight.None?
  }

  function Apply(s: State, a: Action): State
    requires Enabled(s, a)
  {
    var t := s.(now := a.at);
    match a
    case Call(c, at) =>
      if !s.enabled then t.(callers := s.callers[c := Disabled])
      else if CacheValid(s, at) then t.(callers := s.callers[c := FromCache(s.cached.value.token)])
      else if s.inFlight.Some? then t.(callers := s.callers[c := Waiting(s.inFlight.value)])
      else t.(inFlight := Some(|s.fetches|), fetches := s.fetches + [Outstanding],
              callers := s.callers[c := Waiting(|s.fetches|)])
    case Receive(f, r, at) =>
      if Grants(r) then
        t.(cached := Some(Cached(r.accessToken, at + Lifetime(r.expiresIn) * 1000 - EXPIRY_SKEW_MS)),
           fetches := s.fetches[f := Answered(Some(r.accessToken))])
      else t.(fetches := s.fetches[f := Answered(None)])
    case Clear(f, _) =>
      t.(inFlight := None, fetches := s.fetches[f := Cleared(s.fetches[f].token)])
    case Resume(c, _) =>
      var f := s.callers[c].fetch;
      t.(callers := s.callers[c := Joined(f, s.fetches[f].token)])
  }

  ghost predicate IsRun(states: seq<State>, acts: seq<Action>) {
    && |states| == |acts| + 1
    && states[0] == Init(states[0].enabled, states[0].now)
    && forall i :: 0 <= i < |acts| ==> Enabled(states[i], acts[i]) && states[i + 1] == Apply(states[i], acts[i])
  }

  // ---- the single flight ----

  /** The registered flight is the one fetch not yet cleared; every caller's fetch exists and its outcome is the
      caller's. */
  ghost predicate Inv(s: State) {
    && (forall f :: 0 <= f < |s.fetches| ==> (s.fetches[f].Cleared? <==> s.inFlight != Some(f)))
    && (s.inFlight.Some? ==> s.inFlight.value < |s.fetches|)
    && (forall c :: c in s.callers ==> CallerOk(s, c))
    && (!s.enabled ==> |s.fetches| == 0 && s.cached.None?)
  }

  predicate CallerOk(s: State, c: CallerId)
    requires c in s.callers
  {
    match s.callers[c]
    case Disabled => !s.enabled
    case FromCache(_) => s.enabled
    case Waiting(f) => f < |s.fetches|
    case Joined(f, t) => f < |s.fetches| && s.fetches[f] == Cleared(t)
  }

  lemma InvStep(s: State, a: Action)
    requires Inv(s) && Enabled(s, a)
    ensures Inv(Apply(s, a))
  {
    var s' := Apply(s, a);
    forall c | c in s'.callers ensures CallerOk(s', c) {
      if c in s.callers { assert CallerOk(s, c); }
    }
  }

  lemma {:induction false} RunInv(states: seq<State>, acts: seq<Action>, i: nat)
    requires IsRun(states, acts) && i < |states|
    ensures Inv(states[i])
  {
    if i > 0 {
      RunInv(states, acts, i - 1);
      InvStep(states[i - 1], acts[i - 1]);
    }
  }

  /** At most one token request is outstanding at any time, and while it is nobody sends another. */
  lemma SingleFlight(states: seq<State>, acts: seq<Action>, i: nat, f: FetchId, g: FetchId)
    requires IsRun(states, acts) && i < |states|
    requires f < |states[i].fetches| && g < |states[i].fetches|
    requires states[i].fetches[f].Outstanding? && states[i].fetches[g].Outstanding?
    ensures f == g && states[i].inFlight == Some(f)
    ensures i < |acts| ==> !Sends(states[i], acts[i])
  {
    RunInv(states, acts, i);
  }

  /** Whoever joined a token request settles with that request's outcome, token or none. */
  lemma JoinersShareOutcome(states: seq<State>, acts: seq<Action>, i: nat, c: CallerId, d: CallerId)
    requires IsRun(states, acts) && i < |states|
    requires c in states[i].callers && d in states[i].callers
    requires states[i].callers[c].Joined? && states[i].callers[d].Joined?
    requires states[i].callers[c].fetch == states[i].callers[d].fetch
    ensures states[i].callers[c].outcome == states[i].callers[d].outcome
    ensures states[i].callers[c].fetch < |states[i].fetches|
    ensures states[i].fetches[states[i].callers[c].fetch] == Cleared(states[i].callers[c].outcome)
  {
    RunInv(states, acts, i);
    assert CallerOk(states[i], c) && CallerOk(states[i], d);
  }

  /** A fetch's recorded outcome is that of the reply it received, and stays. */
  lemma {:induction false} OutcomeIsTheReply(states: seq<State>, acts: seq<Action>, i: nat, j: nat)
    requires IsRun(states, acts) && i < j < |states| && acts[i].Receive?
    ensures acts[i].fetch < |states[j].fetches|
    ensures var o := states[j].fetches[acts[i].fetch];
            !o.Outstanding? && o.token == if acts[i].reply.Body? && acts[i].reply.accessToken != ""
                                           then Some(acts[i].reply.accessToken) else None
  {
    assert Enabled(states[i], acts[i]);
    if j > i + 1 {
      OutcomeIsTheReply(states, acts, i, j - 1);
      assert Enabled(states[j - 1], acts[j - 1]);
    }
  }

  // ---- the cache ----

  /** A call answered from the cache gets the token of an earlier grant, with more than a minute left
      by the clock that stamped its receipt. */
  lemma CacheServedTokenHasAMinute(states: seq<State>, acts: seq<Action>, j: nat) returns (i: nat)
    requires IsRun(states, acts) && j < |acts| && acts[j].Call?
    requires states[j + 1].callers[acts[j].caller].FromCache?
    ensures i < j && acts[i].Receive? && acts[i].reply.Body? && acts[i].reply.accessToken != ""
    ensures states[j + 1].callers[acts[j].caller].token == acts[i].reply.accessToken
    ensures var granted := if acts[i].reply.expiresIn == 0 then 3600 else acts[i].reply.expiresIn;
            acts[i].at + 1000 * granted > acts[j].at + 60_000
  {
    i := CacheOrigin(states, acts, j);
  }

  lemma {:induction false} CacheOrigin(states: seq<State>, acts: seq<Action>, j: nat) returns (i: nat)
    requires IsRun(states, acts) && j < |states| && states[j].cached.Some?
    ensures i < j && acts[i].Receive? && Grants(acts[i].reply)
    ensures states[j].cached.value
         == Cached(acts[i].reply.accessToken, acts[i].at + Lifetime(acts[i].reply.expiresIn) * 1000 - EXPIRY_SKEW_MS)
  {
    assert Enabled(states[j - 1], acts[j - 1]) && states[j] == Apply(states[j - 1], acts[j - 1]);
    if acts[j - 1].Receive? && Grants(acts[j - 1].reply) {
      i := j - 1;
    } else {
      i := CacheOrigin(states, acts, j - 1);
    }
  }

  /** Until `deadline` the cache answers every call. */
  ghost predicate Fenced(s: State, deadline: int) {
    s.now >= deadline
    || (&& s.cached.Some? && s.cached.value.expiresAt >= deadline
        && forall f :: 0 <= f < |s.fetches| ==> !s.fetches[f].Outstanding?)
  }

  lemma FencedStep(s: State, a: Action, deadline: int)
    requires Inv(s) && Enabled(s, a) && Fenced(s, deadline)
    ensures Fenced(Apply(s, a), deadline)
  {
  }

  lemma {:induction false} RunFenced(states: seq<State>, acts: seq<Action>, i: nat, j: nat)
    requires IsRun(states, acts) && i < j < |states|
    requires acts[i].Receive? && Grants(acts[i].reply)
    ensures Fenced(states[j], acts[i].at + Lifetime(acts[i].reply.expiresIn) * 1000 - EXPIRY_SKEW_MS)
  {
    if j == i + 1 {
      RunInv(states, acts, i);
      assert Enabled(states[i], acts[i]) && states[j] == Apply(states[i], acts[i]);
    } else {
      RunFenced(states, acts, i, j - 1);
      RunInv(states, acts, j - 1);
      FencedStep(states[j - 1], acts[j - 1], acts[i].at + Lifetime(acts[i].reply.expiresIn) * 1000 - EXPIRY_SKEW_MS);
    }
  }

  /** After a grant of E seconds, the next token request, and every later one, starts at least
      1000 E - 60000 ms after the receipt of that grant. */
  lemma RequestsAreSpaced(states: seq<State>, acts: seq<Action>, i: nat, j: nat)
    requires IsRun(states, acts) && i < j < |acts|
    requires acts[i].Receive? && Grants(acts[i].reply) && Sends(states[j], acts[j])
    ensures var granted := if acts[i].reply.expiresIn == 0 then 3600 else acts[i].reply.expiresIn;
            acts[j].at >= acts[i].at + 1000 * granted - 60_000
  {
    RunFenced(states, acts, i, j);
    assert Enabled(states[j], acts[j]);
  }

  /** Credentials are there, and no cached token is left that is good for more than now. */
  predicate NeedsToken(s: State, at: int) {
    s.enabled && (s.cached.None? || s.cached.value.expiresAt <= at)
  }

  /** What becomes of a call: none without credentials, the cached token while it lasts, and otherwise it waits for
      the one request that is not cleared away yet. It sends that request itself exactly if there was none. */
  lemma SendsIff(states: seq<State>, acts: seq<Action>, j: nat)
    requires IsRun(states, acts) && j < |acts| && acts[j].Call?
    ensures acts[j].caller in states[j + 1].callers
    ensures var s, fetches, c := states[j], states[j + 1].fetches, states[j + 1].callers[acts[j].caller];
            var sends := NeedsToken(s, acts[j].at) && forall f :: 0 <= f < |s.fetches| ==> s.fetches[f].Cleared?;
            && (sends <==> Sends(s, acts[j]))
            && fetches == (if sends then s.fetches + [Outstanding] else s.fetches)
            && (c == Disabled <==> !s.enabled)
            && (c.FromCache? <==> s.enabled && !NeedsToken(s, acts[j].at))
            && (c.Waiting? <==> NeedsToken(s, acts[j].at))
            && (c.Waiting? ==> c.fetch < |fetches| && !fetches[c.fetch].Cleared?)
  {
    RunInv(states, acts, j);
    assert Enabled(states[j], acts[j]) && states[j + 1] == Apply(states[j], acts[j]);
  }

  // ---- the object ----

  class IamServiceTokenProvider {
    const enabled: bool
    var cached: Option<Cached>
    var inFlight: Option<FetchId>
    var fetches: seq<Fetch>                 // the promises the runtime keeps for us
    var callers: map<CallerId, Caller>

    ghost var states: seq<State>
    ghost var acts: seq<Action>

    ghost predicate Valid()
      reads this
    {
      && IsRun(states, acts)
      && states[|acts|] == State(enabled, states[|acts|].now, cached, inFlight, fetches, callers)
    }

    /** The clock of the last step. */
    ghost function Now(): int
      reads this
      requires Valid()
    {
      states[|acts|].now
    }

    constructor (clientId: string, clientSecret: string, ghost now: int)
      ensures Valid() && acts == [] && Now() == now
      ensures enabled <==> clientId != "" && clientSecret != ""
    {
      enabled := clientId != "" && clientSecret != "";
      cached, inFlight, fetches, callers := None, None, [], map[];
      states, acts := [Init(clientId != "" && clientSecret != "", now)], [];
    }

    ghost method Record(a: Action)
      requires Valid() && Enabled(states[|acts|], a)
      modifies this`states, this`acts
      ensures acts == old(acts) + [a] && states == old(states) + [Apply(old(states[|acts|]), a)]
      ensures IsRun(states, acts)
    {
      states := states + [Apply(states[|acts|], a)];
      acts := acts + [a];
    }

    /** `getAuthHeader` up to its await. */
    method GetAuthHeader(c: CallerId, now: int)
      requires Valid() && c !in callers && Now() <= now
      modifies this
      ensures Valid() && acts == old(acts) + [Call(c, now)]
      ensures c in callers
      ensures callers[c].FromCache? ==> old(cached).Some? && callers[c].token == old(cached).value.token
                                        && now < old(cached).value.expiresAt && fetches == old(fetches)
      ensures old(inFlight).Some? ==> fetches == old(fetches)
    {
      Record(Call(c, now));
      if !enabled {
        callers := callers[c := Disabled];
        return;
      }
      if cached.Some? && cached.value.expiresAt > now {
        callers := callers[c := FromCache(cached.value.token)];
        return;
      }
      if inFlight.None? {
        inFlight := Some(|fetches|);
        fetches := fetches + [Outstanding];
      }
      callers := callers[c := Waiting(inFlight.value)];
    }

    /** The rest of `fetchToken`, when the reply to the token request arrives. */
    method OnReply(f: FetchId, reply: Reply, now: int)
      requires Valid() && f < |fetches| && fetches[f].Outstanding? && Now() <= now
      modifies this
      ensures Valid() && acts == old(acts) + [Receive(f, reply, now)]
      ensures !Grants(reply) ==> cached == old(cached)
    {
      Record(Receive(f, reply, now));
      if reply.HttpError? || reply.accessToken == "" {
        fetches := fetches[f := Answered(None)];
        return;
      }
      var expiresInS := if reply.expiresIn == 0 then DEFAULT_LIFETIME_S else reply.expiresIn;
      cached := Some(Cached(reply.accessToken, now + expiresInS * 1000 - EXPIRY_SKEW_MS));
      fetches := fetches[f := Answered(Some(reply.accessToken))];
    }

    /** The `finally` callback. */
    method OnFinally(f: FetchId, now: int)
      requires Valid() && f < |fetches| && fetches[f].Answered? && Now() <= now
      modifies this
      ensures Valid() && acts == old(acts) + [Clear(f, now)]
      ensures forall g :: 0 <= g < |fetches| ==> fetches[g].Cleared?
    {
      RunInv(states, acts, |acts|);
      Record(Clear(f, now));
      fetches := fetches[f := Cleared(fetches[f].token)];
      inFlight := None;
    }

    /** A caller continues after its await: a bearer value, or none when the request failed. */
    method OnResume(c: CallerId, now: int) returns (header: Option<string>)
      requires Valid() && c in callers && callers[c].Waiting? && Now() <= now
      requires callers[c].fetch < |fetches| && fetches[callers[c].fetch].Cleared?
      modifies this
      ensures Valid() && acts == old(acts) + [Resume(c, now)]
      ensures var outcome := old(fetches[callers[c].fetch]).token;
              header == if outcome.Some? then Some("Bearer " + outcome.value) else None
    {
      Record(Resume(c, now));
      var f := callers[c].fetch;
      var token := fetches[f].token;
      callers := callers[c := Joined(f, token)];
      header := if token.Some? then Some("Bearer " + token.value) else None;
    }
  }
}
