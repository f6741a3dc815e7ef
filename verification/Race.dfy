/** The hedged race over candidate exits: launches on a delay, results in any order, rounds that
  * restart when the shared token is refreshed or when every exit has failed.
  *
  * `Step` is one turn of the event loop or of its surroundings (a candidate asking for the token,
  * a fetch ending, a candidate sending its one result, the caller giving up).
  */
module Race {
  import opened Common
  import opened RequestToken

  type Uri = string

  /** A candidate is one launch: the round it belongs to and its exit. */
  datatype Key = Key(round: nat, uri: Uri)

  datatype Control = NoControl | TokenTerminal | TokenInvalid(token: string)

  /** The facts about an error that the race looks at. */
  datatype Failure =
    | Cancelled
    | Plain(id: nat)
    | Vertex(id: nat, retryable: bool, rateLimited: bool, hard: bool, control: Control)

  datatype Result = Good(uri: Uri, val: nat, winning: bool) | Bad(uri: Uri, err: Failure)

  datatype Outcome =
    | Running
    | Won(result: Result)
    | Collected(results: seq<Result>)
    | Failed(err: Failure)
    | AllExitsFailed
    | RecoveryFailed
    | ContextDone

  /** `ch` is the result channel of the current round; `sent` holds every candidate that has sent. */
  datatype State = State(
    cands: seq<Uri>,
    used: set<Uri>,
    budget: nat,
    round: nat,
    nextIdx: nat,
    active: int,
    armed: bool,
    ch: seq<Result>,
    collected: seq<Result>,
    failures: seq<Failure>,
    parentDone: bool,
    sent: set<Key>,
    sys: Sys<Key>,
    outcome: Outcome)

  // ---------------------------------------------------------------- errors

  function Priority(err: Failure): nat {
    if err.Vertex? then
      if err.retryable then (if err.rateLimited then 1 else 2)
      else if err.hard then 3
      else 4
    else 5
  }

  /** The first error of the smallest priority. */
  ghost predicate IsBest(errs: seq<Failure>, i: int) {
    && 0 <= i < |errs|
    && (forall j :: 0 <= j < |errs| ==> Priority(errs[i]) <= Priority(errs[j]))
    && (forall j :: 0 <= j < i ==> Priority(errs[i]) < Priority(errs[j]))
  }

  function BestIndex(errs: seq<Failure>): (i: nat)
    requires errs != []
    ensures IsBest(errs, i)
  {
    if |errs| == 1 then 0 else
      var i := BestIndex(errs[..|errs| - 1]);
      if Priority(errs[|errs| - 1]) < Priority(errs[i]) then |errs| - 1 else i
  }

  lemma BestIsUnique(errs: seq<Failure>, i: int, j: int)
    requires IsBest(errs, i) && IsBest(errs, j)
    ensures i == j
  {
    var a, b := Priority(errs[i]), Priority(errs[j]);
  }

  method PickBestError(errs: seq<Failure>) returns (out: Outcome)
    ensures out == Verdict(errs)
  {
    if |errs| == 0 {
      return AllExitsFailed;
    }
    var best := errs[0];
    var bestPriority := Priority(best);
    ghost var at := 0;
    for i := 1 to |errs|
      invariant 0 <= at < i && best == errs[at] && bestPriority == Priority(best)
      invariant forall j :: 0 <= j < i ==> bestPriority <= Priority(errs[j])
      invariant forall j :: 0 <= j < at ==> bestPriority < Priority(errs[j])
    {
      if Priority(errs[i]) < bestPriority {
        best := errs[i];
        bestPriority := Priority(best);
        at := i;
      }
    }
    BestIsUnique(errs, at, BestIndex(errs));
    return Failed(best);
  }

  function Verdict(errs: seq<Failure>): Outcome {
    if errs == [] then AllExitsFailed else Failed(errs[BestIndex(errs)])
  }

  // ---------------------------------------------------------------- the event loop

  function Without(cands: seq<Uri>, uri: Uri): (r: seq<Uri>) {
    if cands == [] then []
    else (if cands[0] != uri then [cands[0]] else []) + Without(cands[1..], uri)
  }

  function Unused(cands: seq<Uri>, used: set<Uri>): (r: seq<Uri>) {
    if cands == [] then []
    else (if cands[0] !in used then [cands[0]] else []) + Unused(cands[1..], used)
  }

  /** `launchNext`: does nothing once every candidate of the round has been launched. */
  function Launch(s: State): State {
    if s.nextIdx >= |s.cands| then s else
      var uri := s.cands[s.nextIdx];
      s.(nextIdx := s.nextIdx + 1,
         used := s.used + {uri},
         active := s.active + 1,
         sys := s.sys.(callers := s.sys.callers[Key(s.round, uri) := Idle]))
  }

  /** `resetTimer`: leaves the timer alone once every candidate has been launched. */
  function ResetTimer(s: State): State {
    if s.nextIdx >= |s.cands| then s else s.(armed := true)
  }

  function StartRound(s: State): State {
    var s1 := Launch(s.(ch := [], active := 0, nextIdx := 0));
    s1.(armed := s1.nextIdx < |s1.cands|)
  }

  function LaunchAnother(s: State): State {
    ResetTimer(Launch(s))
  }

  function OnTimer(s: State): State {
    var s1 := s.(armed := false);
    if s1.nextIdx < |s1.cands| then LaunchAnother(s1) else s1
  }

  /** The candidates of a retry: the exits not used yet, or all of them again. */
  function Recycle(s: State): State {
    var next := Unused(s.cands, s.used);
    if next == [] then s.(used := {}) else s.(cands := next)
  }

  /** Every candidate of the round has been launched and heard of: answer, retry or give up. */
  function EndRound(s: State): State {
    if s.parentDone then s.(outcome := ContextDone)
    else if s.collected != [] then s.(outcome := Collected(s.collected))
    else if s.budget > 0 then
      var s1 := Recycle(s);
      if s1.cands == [] then s1.(outcome := Verdict(s.failures))
      else StartRound(s1.(budget := s.budget - 1, round := s.round + 1))
    else s.(outcome := Verdict(s.failures))
  }

  /** The drain check that ends the handling of most results. */
  function Drain(s: State): State {
    if s.active == 0 && s.nextIdx < |s.cands| then LaunchAnother(s)
    else if s.active == 0 then EndRound(s)
    else s
  }

  /** A candidate reports that the token it was given is no longer accepted. */
  function OnInvalidToken(s: State, uri: Uri, token: string): State {
    var (tok', inv) := Invalidate(s.sys.tok, token);
    match inv
    case Exhausted => s.(outcome := RecoveryFailed)
    case Refreshed =>
      var s1 := s.(cands := Without(s.cands, uri), sys := s.sys.(tok := tok'));
      if s1.cands == [] then s1.(outcome := RecoveryFailed)
      else StartRound(s1.(round := s1.round + 1))
    case Stale => s
  }

  function OnFailure(s: State, uri: Uri, err: Failure): State {
    match err
    case Cancelled => Drain(s)
    case Plain(_) => Drain(s.(failures := s.failures + [err]))
    case Vertex(_, _, _, hard, control) =>
      (match control
       case TokenTerminal => s.(outcome := Failed(err))
       case TokenInvalid(t) => OnInvalidToken(s, uri, t)
       case NoControl =>
         var s1 := s.(failures := s.failures + [err]);
         if hard then s1.(outcome := Failed(err)) else Drain(s1))
  }

  function OnResult(s: State): State
    requires s.ch != []
  {
    var s1 := s.(ch := s.ch[1..], active := s.active - 1);
    if s.parentDone then s1.(outcome := ContextDone) else
    match s.ch[0]
    case Good(_, _, winning) =>
      if winning then s1.(outcome := Won(s.ch[0]))
      else Drain(s1.(collected := s1.collected + [s.ch[0]]))
    case Bad(uri, err) => OnFailure(s1, uri, err)
  }

  // ---------------------------------------------------------------- runs

  datatype Input =
    | Timer                            // the hedge delay has passed
    | Receive                          // a result is taken from the channel
    | SeeDone                          // the loop notices that the caller's context is done
    | ParentDone                       // the caller's context is cancelled
    | Token(e: RequestToken.Event<Key>) // a candidate of any round works on the shared token
    | Send(key: Key, result: Result)   // a candidate of any round sends its one result

  predicate Possible(s: State, e: Input) {
    match e
    case Timer => s.armed
    case Receive => s.ch != []
    case SeeDone => s.parentDone
    case ParentDone => true
    case Token(t) => !t.Drop? && Enabled(s.sys, t)
    case Send(key, result) =>
      && key in s.sys.callers && key !in s.sent && result.uri == key.uri
      && (result.Bad? && result.err.Vertex? && result.err.control.TokenInvalid? ==>
            s.sys.callers[key] == Holding(result.err.control.token))
  }

  function Step(s: State, e: Input): State {
    if s.outcome != Running || !Possible(s, e) then s else
    match e
    case Timer => OnTimer(s)
    case Receive => OnResult(s)
    case SeeDone => s.(outcome := ContextDone)
    case ParentDone => s.(parentDone := true)
    case Token(t) => s.(sys := RequestToken.Step(s.sys, t))
    case Send(key, result) =>
      // A candidate of an earlier round sends into a channel nobody reads any more.
      s.(sent := s.sent + {key}, ch := if key.round == s.round then s.ch + [result] else s.ch)
  }

  function Run(s: State, inputs: seq<Input>): (r: State)
    decreases |inputs|
  {
    if inputs == [] then s else Run(Step(s, inputs[0]), inputs[1..])
  }

  /** The race starts with a token already fetched, and allows one refresh per further exit. */
  function Start(uris: seq<Uri>, maxRetries: nat, token: TokenState): State {
    var cands := if uris == [] then [""] else uris;
    StartRound(State(cands, {}, maxRetries, 0, 0, 0, false, [], [], [], false, {},
                     Sys(SetLimit(token, |cands| - 1), map[], 1), Running))
  }
}
