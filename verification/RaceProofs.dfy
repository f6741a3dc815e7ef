/** What every reachable state of the race keeps, and what follows about whole races. */
module RaceProofs {
  import opened Common
  import RequestToken
  import opened Race

  /** Candidates of the current round that were launched and have not sent their result. */
  function Working(s: State): (r: set<Uri>)
    requires s.nextIdx <= |s.cands|
  {
    set u | u in s.cands[..s.nextIdx] && Key(s.round, u) !in s.sent
  }

  ghost predicate Keys(s: State) {
    && s.nextIdx <= |s.cands|
    && (forall k :: k in s.sent ==> k in s.sys.callers)
    && (forall k :: k in s.sys.callers ==> k.round <= s.round)
    && (forall k :: k in s.sys.callers && k.round == s.round ==> k.uri in s.cands[..s.nextIdx])
    && (forall u :: u in s.cands[..s.nextIdx] ==> Key(s.round, u) in s.sys.callers)
  }

  /** Every result still in the channel was sent by a distinct candidate of this round. */
  ghost predicate Channel(s: State) {
    && s.nextIdx <= |s.cands|
    && (forall i :: 0 <= i < |s.ch| ==> s.ch[i].uri in s.cands[..s.nextIdx] && Key(s.round, s.ch[i].uri) in s.sent)
    && (forall i, j :: 0 <= i < j < |s.ch| ==> s.ch[i].uri != s.ch[j].uri)
    && s.active == |s.ch| + |Working(s)|
  }

  ghost predicate Names(s: State, r: Result) {
    r.Bad? && r.err.Vertex? && r.err.control.TokenInvalid? ==>
      r.err.control.token == s.sys.tok.token && r.err.control.token != ""
  }

  /** No candidate of the round, and no result it has outstanding, names another token than the
    * one the shared state holds now. */
  ghost predicate TokensAgree(s: State) {
    && (forall k :: k in s.sys.callers && k.round == s.round && s.sys.callers[k].Holding? ==>
          s.sys.callers[k].token == s.sys.tok.token)
    && (forall i :: 0 <= i < |s.ch| ==> Names(s, s.ch[i]))
  }

  ghost predicate Reportable(err: Failure) {
    err != Cancelled && (err.Vertex? ==> err.control == NoControl)
  }

  /** The invariant, up to the question whether anybody is left to wait for. */
  ghost predicate Sound(s: State, n: nat, maxRetries: nat) {
    && Distinct(s.cands)
    && s.nextIdx <= |s.cands|
    && s.sys.tok.limitSet && s.sys.tok.refreshLimit == n - 1
    && |s.cands| == n - s.sys.tok.refreshes
    && s.round + s.budget + |s.cands| == maxRetries + n
    && (forall u :: u in s.cands[..s.nextIdx] ==> u in s.used)
    && Keys(s) && Channel(s) && TokensAgree(s)
    && RequestToken.SingleFlight(s.sys)
    && (forall i :: 0 <= i < |s.failures| ==> Reportable(s.failures[i]))
    && (forall i :: 0 <= i < |s.collected| ==> s.collected[i].Good? && !s.collected[i].winning)
    && s.outcome == Running
  }

  ghost predicate Inv(s: State, n: nat, maxRetries: nat) {
    Sound(s, n, maxRetries) && s.active >= 1
  }

  // ---------------------------------------------------------------- launches and rounds

  lemma LaunchKeepsFlight(s: RequestToken.Sys<Key>, k: Key)
    requires RequestToken.SingleFlight(s) && k !in s.callers
    ensures RequestToken.SingleFlight(s.(callers := s.callers[k := RequestToken.Idle]))
  {
    var s' := s.(callers := s.callers[k := RequestToken.Idle]);
    if s.tok.refreshing {
      var f :| f in s.callers && s.callers[f].Fetching?;
      assert s'.callers[f].Fetching?;
    }
  }

  lemma LaunchKeeps(s: State, n: nat, maxRetries: nat)
    requires Sound(s, n, maxRetries) && s.nextIdx < |s.cands|
    ensures Inv(Launch(s), n, maxRetries)
  {
    var s' := Launch(s);
    var uri := s.cands[s.nextIdx];
    assert s'.cands[..s'.nextIdx] == s.cands[..s.nextIdx] + [uri];
    assert uri !in s.cands[..s.nextIdx];
    assert Key(s.round, uri) !in s.sys.callers;
    LaunchKeepsFlight(s.sys, Key(s.round, uri));
    assert Working(s') == Working(s) + {uri};
  }

  /** What a fresh round needs: the books balance and nobody belongs to the new round yet. */
  ghost predicate Startable(s: State, n: nat, maxRetries: nat) {
    && Distinct(s.cands) && s.cands != []
    && s.sys.tok.limitSet && s.sys.tok.refreshLimit == n - 1
    && |s.cands| == n - s.sys.tok.refreshes
    && s.round + s.budget + |s.cands| == maxRetries + n
    && (forall k :: k in s.sent ==> k in s.sys.callers)
    && (forall k :: k in s.sys.callers ==> k.round < s.round)
    && RequestToken.SingleFlight(s.sys)
    && (forall i :: 0 <= i < |s.failures| ==> Reportable(s.failures[i]))
    && (forall i :: 0 <= i < |s.collected| ==> s.collected[i].Good? && !s.collected[i].winning)
    && s.outcome == Running
  }

  lemma StartRoundEstablishes(s: State, n: nat, maxRetries: nat)
    requires Startable(s, n, maxRetries)
    ensures Inv(StartRound(s), n, maxRetries)
  {
    var s0 := s.(ch := [], active := 0, nextIdx := 0);
    assert s0.cands[..0] == [];
    assert Working(s0) == {};
    LaunchKeeps(s0, n, maxRetries);
    var s1 := Launch(s0);
    assert Working(StartRound(s)) == Working(s1);
  }

  lemma WithoutOne(cands: seq<Uri>, uri: Uri)
    requires Distinct(cands)
    ensures Distinct(Without(cands, uri))
    ensures forall u :: u in Without(cands, uri) <==> u in cands && u != uri
    ensures |Without(cands, uri)| == |cands| - (if uri in cands then 1 else 0)
  {
    if cands != [] {
      var rest := cands[1..];
      assert Distinct(rest);
      WithoutOne(rest, uri);
      assert cands == [cands[0]] + rest;
      assert cands[0] !in rest;
    }
  }

  /** At a retry every candidate of the round has been launched, so the filter for unused exits
    * keeps none and the next round runs the same list. */
  lemma AllUsed(cands: seq<Uri>, used: set<Uri>)
    requires forall u :: u in cands ==> u in used
    ensures Unused(cands, used) == []
  {
  }

  // ---------------------------------------------------------------- every step

  ghost predicate Settled(s: State, n: nat, maxRetries: nat) {
    s.outcome == Running ==> Inv(s, n, maxRetries)
  }

  lemma LaunchAnotherKeeps(s: State, n: nat, maxRetries: nat)
    requires Sound(s, n, maxRetries) && s.nextIdx < |s.cands|
    ensures Inv(LaunchAnother(s), n, maxRetries)
  {
    LaunchKeeps(s, n, maxRetries);
    assert Working(LaunchAnother(s)) == Working(Launch(s));
  }

  lemma RecycleReusesAll(s: State)
    requires s.nextIdx == |s.cands| && forall u :: u in s.cands[..s.nextIdx] ==> u in s.used
    ensures Recycle(s) == s.(used := {})
  {
    assert s.cands[..s.nextIdx] == s.cands;
    AllUsed(s.cands, s.used);
  }

  /** The same list again, for one unit of budget. */
  function Again(s: State): State
    requires s.budget > 0
  {
    s.(used := {}, budget := s.budget - 1, round := s.round + 1)
  }

  lemma EndRoundIsAgain(s: State)
    requires s.nextIdx == |s.cands| && (forall u :: u in s.cands[..s.nextIdx] ==> u in s.used)
    requires !s.parentDone && s.collected == [] && s.budget > 0 && s.cands != []
    ensures EndRound(s) == StartRound(Again(s))
  {
    hide StartRound, Recycle;
    RecycleReusesAll(s);
  }

  lemma AgainIsStartable(s: State, n: nat, maxRetries: nat)
    requires Sound(s, n, maxRetries) && s.cands != [] && s.budget > 0
    ensures Startable(Again(s), n, maxRetries)
  {
    hide Distinct, Channel, TokensAgree;
  }

  lemma EndRoundKeeps(s: State, n: nat, maxRetries: nat)
    requires Sound(s, n, maxRetries) && s.nextIdx == |s.cands|
    ensures Settled(EndRound(s), n, maxRetries)
  {
    hide StartRound, Distinct, Channel, TokensAgree, Keys, Inv;
    RecycleReusesAll(s);
    if !s.parentDone && s.collected == [] && s.budget > 0 && s.cands != [] {
      EndRoundIsAgain(s);
      AgainIsStartable(s, n, maxRetries);
      StartRoundEstablishes(Again(s), n, maxRetries);
    }
  }

  lemma DrainKeeps(s: State, n: nat, maxRetries: nat)
    requires Sound(s, n, maxRetries)
    ensures Settled(Drain(s), n, maxRetries)
  {
    if s.active == 0 {
      if s.nextIdx < |s.cands| {
        LaunchAnotherKeeps(s, n, maxRetries);
      } else {
        EndRoundKeeps(s, n, maxRetries);
      }
    }
  }

  /** Taking the head of the channel. */
  function Taken(s: State): State
    requires s.ch != []
  {
    s.(ch := s.ch[1..], active := s.active - 1)
  }

  lemma TakenKeeps(s: State, n: nat, maxRetries: nat)
    requires Inv(s, n, maxRetries) && s.ch != []
    ensures Sound(Taken(s), n, maxRetries)
    ensures Names(Taken(s), s.ch[0]) && s.ch[0].uri in Taken(s).cands
  {
    assert Working(Taken(s)) == Working(s);
    assert Names(s, s.ch[0]);
  }

  lemma InvalidateKeepsFlight(s: RequestToken.Sys<Key>, t: string)
    requires RequestToken.SingleFlight(s) && t != ""
    ensures RequestToken.SingleFlight(s.(tok := RequestToken.Invalidate(s.tok, t).0))
  {
    RequestToken.StepKeepsSingleFlight(s, RequestToken.Drop(t));
  }

  /** The state after the token was refreshed on behalf of `uri`, before the next round starts. */
  function Refreshed(s: State, uri: Uri): State {
    s.(cands := Without(s.cands, uri),
       sys := s.sys.(tok := RequestToken.Invalidate(s.sys.tok, s.sys.tok.token).0),
       round := s.round + 1)
  }

  lemma RefreshedIsStartable(s: State, uri: Uri, n: nat, maxRetries: nat)
    requires Sound(s, n, maxRetries) && uri in s.cands
    requires s.sys.tok.token != "" && s.sys.tok.refreshes < n - 1
    ensures Startable(Refreshed(s, uri), n, maxRetries)
  {
    WithoutOne(s.cands, uri);
    InvalidateKeepsFlight(s.sys, s.sys.tok.token);
  }

  function Logged(s: State, err: Failure): State {
    s.(failures := s.failures + [err])
  }

  lemma LoggedIsSound(s: State, err: Failure, n: nat, maxRetries: nat)
    requires Sound(s, n, maxRetries) && Reportable(err)
    ensures Sound(Logged(s, err), n, maxRetries)
  {
    hide Distinct;
    assert Working(Logged(s, err)) == Working(s);
  }

  lemma LoggedKeeps(s: State, err: Failure, n: nat, maxRetries: nat)
    requires Sound(s, n, maxRetries) && Reportable(err)
    ensures Settled(Drain(Logged(s, err)), n, maxRetries)
  {
    hide Drain, Sound;
    LoggedIsSound(s, err, n, maxRetries);
    DrainKeeps(Logged(s, err), n, maxRetries);
  }

  lemma OnFailureKeeps(s: State, uri: Uri, err: Failure, n: nat, maxRetries: nat)
    requires Sound(s, n, maxRetries) && uri in s.cands && Names(s, Bad(uri, err))
    ensures Settled(OnFailure(s, uri, err), n, maxRetries)
  {
    hide Drain, StartRound, Inv, Startable, Distinct;
    match err
    case Cancelled => DrainKeeps(s, n, maxRetries);
    case Plain(_) => LoggedKeeps(s, err, n, maxRetries);
    case Vertex(_, _, _, hard, control) =>
      match control {
        case NoControl => if !hard { LoggedKeeps(s, err, n, maxRetries); }
        case TokenTerminal =>
        case TokenInvalid(t) =>
          if s.sys.tok.refreshes < n - 1 {
            RefreshedIsStartable(s, uri, n, maxRetries);
            StartRoundEstablishes(Refreshed(s, uri), n, maxRetries);
            assert OnFailure(s, uri, err) == StartRound(Refreshed(s, uri));
          }
      }
  }

  function Collect(s: State, r: Result): State {
    s.(collected := s.collected + [r])
  }

  lemma CollectKeeps(s: State, r: Result, n: nat, maxRetries: nat)
    requires Sound(s, n, maxRetries) && r.Good? && !r.winning
    ensures Sound(Collect(s, r), n, maxRetries)
  {
    hide Distinct;
    assert Working(Collect(s, r)) == Working(s);
  }

  /** The four ways in which a result is handled. */
  lemma OnResultCases(s: State)
    requires s.ch != []
    ensures s.parentDone ==> OnResult(s).outcome == ContextDone && OnResult(s).parentDone
    ensures !s.parentDone && s.ch[0].Good? ==>
              if s.ch[0].winning
                then OnResult(s).outcome == Won(s.ch[0]) else OnResult(s) == Drain(Collect(Taken(s), s.ch[0]))
    ensures !s.parentDone && s.ch[0].Bad? ==> OnResult(s) == OnFailure(Taken(s), s.ch[0].uri, s.ch[0].err)
  {
    hide Drain, OnFailure;
  }

  lemma OnResultKeeps(s: State, n: nat, maxRetries: nat)
    requires Inv(s, n, maxRetries) && s.ch != []
    ensures Settled(OnResult(s), n, maxRetries)
  {
    hide Drain, OnFailure, Sound, Inv, Names, Taken, Collect, OnResult;
    TakenKeeps(s, n, maxRetries);
    OnResultCases(s);
    if !s.parentDone {
      match s.ch[0]
      case Good(_, _, winning) =>
        if !winning {
          CollectKeeps(Taken(s), s.ch[0], n, maxRetries);
          DrainKeeps(Collect(Taken(s), s.ch[0]), n, maxRetries);
        }
      case Bad(uri, err) =>
        IsBad(s.ch[0], uri, err);
        OnFailureKeeps(Taken(s), uri, err, n, maxRetries);
    }
  }

  lemma IsBad(r: Result, uri: Uri, err: Failure)
    requires r.Bad? && r.uri == uri && r.err == err
    ensures r == Bad(uri, err)
  {
  }

  lemma OnTimerKeeps(s: State, n: nat, maxRetries: nat)
    requires Inv(s, n, maxRetries)
    ensures Settled(OnTimer(s), n, maxRetries)
  {
    var s1 := s.(armed := false);
    assert Working(s1) == Working(s);
    if s1.nextIdx < |s1.cands| {
      LaunchAnotherKeeps(s1, n, maxRetries);
    }
  }

  lemma SentNames(s: State, key: Key, result: Result, n: nat, maxRetries: nat)
    requires Inv(s, n, maxRetries) && Possible(s, Send(key, result)) && key.round == s.round
    ensures Names(s, result) && key.uri in Working(s)
  {
    hide Distinct, Channel;
  }

  lemma SendKeeps(s: State, key: Key, result: Result, n: nat, maxRetries: nat)
    requires Inv(s, n, maxRetries) && Possible(s, Send(key, result))
    ensures Inv(Step(s, Send(key, result)), n, maxRetries)
  {
    if key.round == s.round {
      SentNames(s, key, result, n, maxRetries);
      CurrentSendKeeps(s, key, result, n, maxRetries);
    } else {
      LateSendKeeps(s, key, result, n, maxRetries);
    }
  }

  lemma CurrentSendKeeps(s: State, key: Key, result: Result, n: nat, maxRetries: nat)
    requires Inv(s, n, maxRetries) && Possible(s, Send(key, result)) && key.round == s.round
    requires Names(s, result) && key.uri in Working(s)
    ensures Inv(Step(s, Send(key, result)), n, maxRetries)
  {
    hide Distinct, RequestToken.SingleFlight;
    var s' := Step(s, Send(key, result));
    assert Working(s') == Working(s) - {key.uri};
    assert |Working(s')| == |Working(s)| - 1;
    assert TokensAgree(s') by {
      forall i | 0 <= i < |s'.ch| ensures Names(s', s'.ch[i]) {
        assert i < |s.ch| ==> Names(s, s.ch[i]);
      }
    }
  }

  lemma LateSendKeeps(s: State, key: Key, result: Result, n: nat, maxRetries: nat)
    requires Inv(s, n, maxRetries) && Possible(s, Send(key, result)) && key.round != s.round
    ensures Inv(Step(s, Send(key, result)), n, maxRetries)
  {
    hide Distinct, RequestToken.SingleFlight;
    assert Working(Step(s, Send(key, result))) == Working(s);
  }

  /** Work on the token by a caller leaves the accounting alone, never replaces a held token, and
    * gives out only the token now held. */
  lemma TokenStepFacts(s: RequestToken.Sys<Key>, e: RequestToken.Event<Key>)
    requires RequestToken.SingleFlight(s) && RequestToken.Enabled(s, e) && !e.Drop?
    ensures var s' := RequestToken.Step(s, e);
            && RequestToken.SingleFlight(s')
            && s'.callers.Keys == s.callers.Keys
            && s'.tok.limitSet == s.tok.limitSet && s'.tok.refreshLimit == s.tok.refreshLimit
            && s'.tok.refreshes == s.tok.refreshes
            && (s.tok.token != "" ==> s'.tok.token == s.tok.token)
            && (forall k :: k in s.callers && s'.callers[k] != s.callers[k] && s'.callers[k].Holding? ==>
                  s'.callers[k].token == s'.tok.token)
  {
    RequestToken.StepKeepsSingleFlight(s, e);
  }

  lemma TokenKeeps(s: State, e: RequestToken.Event<Key>, n: nat, maxRetries: nat)
    requires Inv(s, n, maxRetries) && Possible(s, Token(e))
    ensures Inv(Step(s, Token(e)), n, maxRetries)
  {
    var s' := s.(sys := RequestToken.Step(s.sys, e));
    TokenStepFacts(s.sys, e);
    assert Working(s') == Working(s);
    assert TokensAgree(s') by {
      forall k | k in s'.sys.callers && k.round == s'.round && s'.sys.callers[k].Holding?
        ensures s'.sys.callers[k].token == s'.sys.tok.token
      {
        if s'.sys.callers[k] == s.sys.callers[k] {
          assert s.sys.callers[k].token == s.sys.tok.token;
        }
      }
      forall i | 0 <= i < |s'.ch| ensures Names(s', s'.ch[i]) {
        assert Names(s, s.ch[i]);
      }
    }
    assert Keys(s');
    assert Channel(s');
  }

  lemma StepKeeps(s: State, e: Input, n: nat, maxRetries: nat)
    requires Settled(s, n, maxRetries)
    ensures Settled(Step(s, e), n, maxRetries)
  {
    if s.outcome == Running && Possible(s, e) {
      match e
      case Timer => OnTimerKeeps(s, n, maxRetries);
      case Receive => OnResultKeeps(s, n, maxRetries);
      case SeeDone =>
      case ParentDone => assert Working(Step(s, e)) == Working(s);
      case Token(t) => TokenKeeps(s, t, n, maxRetries);
      case Send(key, result) => SendKeeps(s, key, result, n, maxRetries);
    }
  }

  // ---------------------------------------------------------------- whole races

  /** The situation in which the request code starts a race: distinct exits, a token in hand. */
  ghost predicate Ready(uris: seq<Uri>, token: RequestToken.TokenState) {
    && Distinct(uris)
    && token.token != "" && !token.refreshing && !token.failed && token.refreshes == 0
  }

  function Exits(uris: seq<Uri>): nat {
    if uris == [] then 1 else |uris|
  }

  lemma StartSettles(uris: seq<Uri>, maxRetries: nat, token: RequestToken.TokenState)
    requires Ready(uris, token)
    ensures Inv(Start(uris, maxRetries, token), Exits(uris), maxRetries)
  {
    var cands := if uris == [] then [""] else uris;
    var s := State(cands, {}, maxRetries, 0, 0, 0, false, [], [], [], false, {},
                   RequestToken.Sys(RequestToken.SetLimit(token, |cands| - 1), map[], 1), Running);
    StartRoundEstablishes(s, Exits(uris), maxRetries);
  }

  lemma {:induction false} RunKeeps(s: State, inputs: seq<Input>, n: nat, maxRetries: nat)
    requires Settled(s, n, maxRetries)
    ensures Settled(Run(s, inputs), n, maxRetries)
    decreases |inputs|
  {
    if inputs != [] {
      StepKeeps(s, inputs[0], n, maxRetries);
      RunKeeps(Step(s, inputs[0]), inputs[1..], n, maxRetries);
    }
  }
}
