/** The request-scoped reCAPTCHA token shared by all exits of one request.
  *
  * `TokenState` is the value guarded by the mutex, `Sys` adds the callers that are inside
  * `get`, and the class is the object the request code shares.  A blocked or
  * fetching `get` is split at the points where the source gives up the mutex.
  */
module RequestToken {
  import opened Common

  // ---------------------------------------------------------------- guarded value

  /** `token == ""` means that no token is held; `failed` stands for a non-nil last error. */
  datatype TokenState = TokenState(
    token: string,
    refreshing: bool,
    failed: bool,
    refreshes: nat,
    refreshLimit: nat,
    limitSet: bool)
  {
    function Limit(): nat {
      if limitSet then refreshLimit else 1
    }
  }

  const FRESH_STATE := TokenState("", false, false, 0, 0, false)

  datatype Invalidation = Stale | Exhausted | Refreshed

  function Invalidate(s: TokenState, token: string): (TokenState, Invalidation) {
    if s.token != token then (s, Stale)
    else if s.refreshes >= s.Limit() then (s, Exhausted)
    else (s.(token := "", failed := false, refreshes := s.refreshes + 1), Refreshed)
  }

  /** What the first critical section of `get` decides. */
  datatype GetStep = Ready(token: string) | MustWait | Broken | MustFetch

  function BeginGet(s: TokenState): (TokenState, GetStep) {
    if s.token != "" then (s, Ready(s.token))
    else if s.refreshing then (s, MustWait)
    else if s.failed then (s, Broken)
    else (s.(refreshing := true), MustFetch)
  }

  /** The closing critical section of a fetch; an empty token counts as an error. */
  function FinishFetch(s: TokenState, fetched: string): TokenState {
    if fetched != "" then s.(token := fetched, failed := false, refreshing := false)
    else s.(failed := true, refreshing := false)
  }

  function SetLimit(s: TokenState, limit: int): TokenState {
    s.(refreshLimit := if limit < 0 then 0 else limit, limitSet := true)
  }

  // ---------------------------------------------------------------- interleavings

  /** Where a caller stands: outside `get`, fetching, waiting for fetch number `gen`, holding
    * the token `get` returned, or turned away with an error. */
  datatype Phase = Idle | Fetching | Waiting(gen: nat) | Holding(token: string) | TurnedAway

  /** `fetches` counts the fetches ever started, and numbers the wait channels. */
  datatype Sys<!K(==)> = Sys(tok: TokenState, callers: map<K, Phase>, fetches: nat)

  datatype Event<K> =
    | Get(caller: K)
    | Fetched(caller: K, token: string)
    | Wake(caller: K)
    | Drop(token: string)

  predicate Enabled<K>(s: Sys<K>, e: Event<K>) {
    match e
    case Get(k) => k in s.callers && !s.callers[k].Fetching? && !s.callers[k].Waiting?
    case Fetched(k, _) => k in s.callers && s.callers[k].Fetching?
    case Wake(k) => k in s.callers && s.callers[k].Waiting? &&
                    (s.callers[k].gen < s.fetches || !s.tok.refreshing)
    case Drop(t) => t != ""
  }

  function Step<K>(s: Sys<K>, e: Event<K>): Sys<K> {
    if !Enabled(s, e) then s else
    match e
    case Get(k) =>
      var (tok', g) := BeginGet(s.tok);
      (match g
       case Ready(t) => Sys(tok', s.callers[k := Holding(t)], s.fetches)
       case MustWait => Sys(tok', s.callers[k := Waiting(s.fetches)], s.fetches)
       case Broken => Sys(tok', s.callers[k := TurnedAway], s.fetches)
       case MustFetch => Sys(tok', s.callers[k := Fetching], s.fetches + 1))
    case Fetched(k, t) =>
      Sys(FinishFetch(s.tok, t), s.callers[k := if t != "" then Holding(t) else TurnedAway], s.fetches)
    case Wake(k) =>
      // The waiter re-reads both fields; an empty token without an error sends it back to get.
      s.(callers := s.callers[k :=
        if s.tok.failed then TurnedAway
        else if s.tok.token == "" then Idle
        else Holding(s.tok.token)])
    case Drop(t) => s.(tok := Invalidate(s.tok, t).0)
  }

  function Run<K>(s: Sys<K>, events: seq<Event<K>>): (r: Sys<K>)
    decreases |events|
  {
    if events == [] then s else Run(Step(s, events[0]), events[1..])
  }

  /** At most one fetch is in flight, and every fetch after the first is paid for by a refresh. */
  ghost predicate SingleFlight<K(!new)>(s: Sys<K>) {
    && (s.tok.refreshing ==> s.tok.token == "" && !s.tok.failed &&
                             exists k :: k in s.callers && s.callers[k].Fetching?)
    && (!s.tok.refreshing ==> forall k :: k in s.callers ==> !s.callers[k].Fetching?)
    && (forall j, k :: j in s.callers && k in s.callers && s.callers[j].Fetching? && s.callers[k].Fetching? ==> j == k)
    && (s.tok.failed ==> s.tok.token == "")
    && (forall k :: k in s.callers && s.callers[k].Holding? ==> s.callers[k].token != "")
    && (forall k :: k in s.callers && s.callers[k].Waiting? ==> s.callers[k].gen <= s.fetches)
    && s.tok.refreshes <= s.tok.Limit()
    && s.fetches == s.tok.refreshes +
                    (if s.tok.token == "" && !s.tok.refreshing && !s.tok.failed then 0 else 1)
  }

  lemma StepKeepsSingleFlight<K(!new)>(s: Sys<K>, e: Event<K>)
    requires SingleFlight(s)
    ensures SingleFlight(Step(s, e))
    ensures Step(s, e).tok.Limit() == s.tok.Limit()
  {
    var s' := Step(s, e);
    if Enabled(s, e) {
      match e
      case Get(k) =>
        if BeginGet(s.tok).1.MustFetch? {
          assert s'.callers[k].Fetching?;
        } else if s.tok.refreshing {
          var f :| f in s.callers && s.callers[f].Fetching?;
          assert s'.callers[f].Fetching?;
        }
      case Fetched(k, _) =>
        assert forall j :: j in s'.callers && j != k ==> s'.callers[j] == s.callers[j];
      case Wake(k) =>
        if s.tok.refreshing {
          var f :| f in s.callers && s.callers[f].Fetching?;
          assert s'.callers[f].Fetching?;
        }
      case Drop(t) =>
    }
  }

  /** Over every interleaving with a fixed limit there is at most one fetch in flight, and the
    * fetches ever started number at most one more than the refreshes, hence at most 1 + limit. */
  lemma {:induction false} FetchesAreBounded<K(!new)>(s: Sys<K>, events: seq<Event<K>>)
    requires SingleFlight(s)
    ensures SingleFlight(Run(s, events))
    ensures Run(s, events).fetches <= 1 + Run(s, events).tok.refreshes <= 1 + s.tok.Limit()
    decreases |events|
  {
    if events != [] {
      StepKeepsSingleFlight(s, events[0]);
      FetchesAreBounded(Step(s, events[0]), events[1..]);
    }
  }

  /** A state nobody has used yet starts every such run. */
  lemma FreshIsSingleFlight<K(!new)>(callers: set<K>, limit: int)
    ensures SingleFlight(Sys(SetLimit(FRESH_STATE, limit), map k | k in callers :: Idle, 0))
  {
  }

  /** Nothing but an invalidation leaves the failed state, and none applies: it stays failed. */
  lemma {:induction false} FailedStaysFailed<K(!new)>(s: Sys<K>, events: seq<Event<K>>)
    requires SingleFlight(s) && s.tok.failed
    ensures Run(s, events).tok == s.tok && Run(s, events).fetches == s.fetches
    decreases |events|
  {
    if events != [] {
      StepKeepsSingleFlight(s, events[0]);
      FailedStaysFailed(Step(s, events[0]), events[1..]);
    }
  }

  predicate Counted<K>(s: Sys<K>, e: Event<K>, token: string) {
    e.Drop? && e.token == token && Enabled(s, e) && Invalidate(s.tok, token).1.Refreshed?
  }

  /** How many invalidations of `token` in the run were counted as refreshes. */
  function CountedDrops<K>(s: Sys<K>, events: seq<Event<K>>, token: string): (r: nat)
    decreases |events|
  {
    if events == [] then 0
    else (if Counted(s, events[0], token) then 1 else 0) +
         CountedDrops(Step(s, events[0]), events[1..], token)
  }

  /** However many callers report one held token value as invalid, and however the reports
    * interleave with other calls, exactly one is counted while the limit allows one; none is
    * when the token is not the held one. */
  lemma {:induction false} OneTokenIsCountedOnce<K(!new)>(s: Sys<K>, events: seq<Event<K>>, token: string)
    requires SingleFlight(s) && token != ""
    requires forall e :: e in events && e.Fetched? ==> e.token != token
    ensures CountedDrops(s, events, token) ==
            if s.tok.token == token && s.tok.refreshes < s.tok.Limit() && Drop(token) in events then 1 else 0
    decreases |events|
  {
    if events != [] {
      var s' := Step(s, events[0]);
      StepKeepsSingleFlight(s, events[0]);
      OneTokenIsCountedOnce(s', events[1..], token);
      assert events == [events[0]] + events[1..];
      if s.tok.token == token && events[0] != Drop(token) {
        assert s'.tok == s.tok;
      }
    }
  }

  // ---------------------------------------------------------------- the object

  class RequestTokenState {
    var token: string
    var refreshing: bool
    var failed: bool
    var refreshes: nat
    var refreshLimit: nat
    var limitSet: bool

    function Value(): TokenState
      reads this
    {
      TokenState(token, refreshing, failed, refreshes, refreshLimit, limitSet)
    }

    constructor ()
      ensures Value() == FRESH_STATE
    {
      token, refreshing, failed, refreshes, refreshLimit, limitSet := "", false, false, 0, 0, false;
    }

    method SetRefreshLimit(limit: int)
      modifies this
      ensures Value() == SetLimit(old(Value()), limit)
    {
      refreshLimit := 0;
      if limit >= 0 {
        refreshLimit := limit;
      }
      limitSet := true;
    }

    method InvalidateToken(stale: string) returns (r: Invalidation)
      modifies this
      ensures (Value(), r) == Invalidate(old(Value()), stale)
    {
      if token != stale {
        return Stale;
      }
      var limit := refreshLimit;
      if !limitSet {
        limit := 1;
      }
      if refreshes >= limit {
        return Exhausted;
      }
      token := "";
      failed := false;
      refreshes := refreshes + 1;
      return Refreshed;
    }

    method Begin() returns (g: GetStep)
      modifies this
      ensures (Value(), g) == BeginGet(old(Value()))
    {
      if token != "" {
        return Ready(token);
      }
      if refreshing {
        return MustWait;
      }
      if failed {
        return Broken;
      }
      refreshing := true;
      return MustFetch;
    }

    method Finish(fetched: string)
      modifies this
      ensures Value() == FinishFetch(old(Value()), fetched)
    {
      if fetched != "" {
        token := fetched;
      }
      failed := fetched == "";
      refreshing := false;
    }
  }
}
