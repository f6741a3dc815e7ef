/** Results about every race: it never waits for nobody, it ends, and what it returns. */
module RaceTheorems {
  import opened Common
  import RequestToken
  import opened Race
  import opened RaceProofs

  /** Wherever a race can get to from its start. */
  function Reached(uris: seq<Uri>, maxRetries: nat, token: RequestToken.TokenState, inputs: seq<Input>): State {
    Run(Start(uris, maxRetries, token), inputs)
  }

  lemma ReachedSettled(uris: seq<Uri>, maxRetries: nat, token: RequestToken.TokenState, inputs: seq<Input>)
    requires Ready(uris, token)
    ensures Settled(Reached(uris, maxRetries, token, inputs), Exits(uris), maxRetries)
  {
    StartSettles(uris, maxRetries, token);
    RunKeeps(Start(uris, maxRetries, token), inputs, Exits(uris), maxRetries);
  }

  /** Progress: while the event loop waits, a launched candidate of this round has not been heard
    * of, and either its result is in the channel or it is still free to send one. */
  lemma NeverWaitsForNobody(uris: seq<Uri>, maxRetries: nat, token: RequestToken.TokenState, inputs: seq<Input>)
    requires Ready(uris, token)
    ensures var s := Reached(uris, maxRetries, token, inputs);
            s.outcome == Running ==>
              && s.nextIdx <= |s.cands| && s.active == |s.ch| + |Working(s)| >= 1
              && (Possible(s, Receive) ||
                  exists u :: u in Working(s) && Possible(s, Send(Key(s.round, u), Bad(u, Cancelled))))
  {
    ReachedSettled(uris, maxRetries, token, inputs);
    var s := Reached(uris, maxRetries, token, inputs);
    if s.outcome == Running && s.ch == [] {
      var u :| u in Working(s);
      assert Possible(s, Send(Key(s.round, u), Bad(u, Cancelled)));
    }
  }

  /** The two branches that would skip the drain check or drop the last exit are dead: an invalid
    * token reported in this round is the one held, and refreshing it leaves an exit to try. */
  lemma InvalidTokensAreCurrent(uris: seq<Uri>, maxRetries: nat, token: RequestToken.TokenState, inputs: seq<Input>,
                                uri: Uri, err: Failure)
    requires Ready(uris, token) && err.Vertex? && err.control.TokenInvalid?
    requires var s := Reached(uris, maxRetries, token, inputs);
             s.outcome == Running && s.ch != [] && s.ch[0] == Bad(uri, err)
    ensures var s := Reached(uris, maxRetries, token, inputs);
            var (_, inv) := RequestToken.Invalidate(s.sys.tok, err.control.token);
            inv != RequestToken.Stale && (inv == RequestToken.Refreshed ==> Without(s.cands, uri) != [])
  {
    ReachedSettled(uris, maxRetries, token, inputs);
    var s := Reached(uris, maxRetries, token, inputs);
    TakenKeeps(s, Exits(uris), maxRetries);
    WithoutOne(s.cands, uri);
  }

  /** Candidates of a round that have sent a result so far. */
  function Senders(s: State, round: nat): (r: set<Key>) {
    set k | k in s.sent && k.round == round
  }

  /** The books of a race: one exit is retired per refresh, every change of round costs one exit
    * or one retry, and no round sends more results than its channel can hold. */
  lemma Accounting(uris: seq<Uri>, maxRetries: nat, token: RequestToken.TokenState, inputs: seq<Input>)
    requires Ready(uris, token)
    ensures var s := Reached(uris, maxRetries, token, inputs);
            s.outcome == Running ==>
              && |s.cands| == Exits(uris) - s.sys.tok.refreshes >= 1
              && s.round + s.budget + |s.cands| == maxRetries + Exits(uris)
              && s.round < maxRetries + Exits(uris)
              && |s.ch| <= |Senders(s, s.round)| <= |s.cands|
  {
    ReachedSettled(uris, maxRetries, token, inputs);
    var s := Reached(uris, maxRetries, token, inputs);
    if s.outcome == Running {
      SendersFit(s, Exits(uris), maxRetries);
    }
  }

  lemma SendersFit(s: State, n: nat, maxRetries: nat)
    requires Inv(s, n, maxRetries)
    ensures |s.ch| <= |Senders(s, s.round)| <= |s.cands|
  {
    var launched := Elems(s.cands[..s.nextIdx]);
    ElemsSize(s.cands[..s.nextIdx]);
    var uris := set k | k in Senders(s, s.round) :: k.uri;
    SizeOfUris(Senders(s, s.round), s.round);
    assert uris <= launched;
    SubsetSize(uris, launched);
    var waiting := seq(|s.ch|, i requires 0 <= i < |s.ch| => s.ch[i].uri);
    ElemsSize(waiting);
    forall u | u in Elems(waiting) ensures u in uris {
      var i :| 0 <= i < |s.ch| && waiting[i] == u;
      assert Key(s.round, u) in Senders(s, s.round);
    }
    SubsetSize(Elems(waiting), uris);
  }

  lemma SizeOfUris(keys: set<Key>, round: nat)
    requires forall k :: k in keys ==> k.round == round
    ensures |set k | k in keys :: k.uri| == |keys|
  {
    var uris := set k | k in keys :: k.uri;
    if keys != {} {
      var k :| k in keys;
      var rest := set j | j in keys - {k} :: j.uri;
      SizeOfUris(keys - {k}, round);
      assert uris == rest + {k.uri};
      assert forall j :: j in keys - {k} && j.uri == k.uri ==> j == k;
      assert k.uri !in rest;
    }
  }

  lemma SubsetSize<T>(a: set<T>, b: set<T>)
    requires a <= b
    ensures |a| <= |b|
  {
    assert b == a + (b - a);
  }

  // ---------------------------------------------------------------- rounds that are over

  /** Candidates ever launched in a round. */
  function Launched(s: State, round: nat): (r: set<Key>) {
    set k | k in s.sys.callers && k.round == round
  }

  /** Nobody outside `cands` is launched in the round, and while it lasts these are its candidates. */
  ghost predicate Bounded(s: State, round: nat, cands: seq<Uri>) {
    && (forall k :: k in s.sent ==> k in s.sys.callers)
    && (forall k :: k in s.sys.callers && k.round == round ==> k.uri in cands)
    && (s.outcome == Running ==> s.round >= round && (s.round == round ==> s.cands == cands))
  }

  lemma LaunchBounded(s: State, round: nat, cands: seq<Uri>)
    requires Bounded(s, round, cands) && s.outcome == Running
    ensures Bounded(Launch(s), round, cands)
  {
  }

  lemma NextRoundBounded(s: State, round: nat, cands: seq<Uri>)
    requires Bounded(s, round, cands) && s.outcome == Running && s.round > round
    ensures Bounded(StartRound(s), round, cands)
  {
    LaunchBounded(s.(ch := [], active := 0, nextIdx := 0), round, cands);
  }

  lemma EndRoundBounded(s: State, round: nat, cands: seq<Uri>)
    requires Bounded(s, round, cands) && s.outcome == Running
    ensures Bounded(EndRound(s), round, cands)
  {
    hide StartRound;
    if !s.parentDone && s.collected == [] && s.budget > 0 {
      var s1 := Recycle(s);
      if s1.cands != [] {
        NextRoundBounded(s1.(budget := s.budget - 1, round := s.round + 1), round, cands);
      }
    }
  }

  lemma DrainBounded(s: State, round: nat, cands: seq<Uri>)
    requires Bounded(s, round, cands) && s.outcome == Running
    ensures Bounded(Drain(s), round, cands)
  {
    hide EndRound;
    LaunchBounded(s, round, cands);
    EndRoundBounded(s, round, cands);
  }

  lemma InvalidBounded(s: State, uri: Uri, token: string, round: nat, cands: seq<Uri>)
    requires Bounded(s, round, cands) && s.outcome == Running
    ensures Bounded(OnInvalidToken(s, uri, token), round, cands)
  {
    hide StartRound, Without;
    var (tok, inv) := RequestToken.Invalidate(s.sys.tok, token);
    var s1 := s.(cands := Without(s.cands, uri), sys := s.sys.(tok := tok));
    if inv.Refreshed? && s1.cands != [] {
      NextRoundBounded(s1.(round := s1.round + 1), round, cands);
    }
  }

  lemma FailureBounded(s: State, uri: Uri, err: Failure, round: nat, cands: seq<Uri>)
    requires Bounded(s, round, cands) && s.outcome == Running
    ensures Bounded(OnFailure(s, uri, err), round, cands)
  {
    hide Drain, OnInvalidToken;
    DrainBounded(s, round, cands);
    DrainBounded(s.(failures := s.failures + [err]), round, cands);
    if err.Vertex? && err.control.TokenInvalid? {
      InvalidBounded(s, uri, err.control.token, round, cands);
    }
  }

  lemma ResultBounded(s: State, round: nat, cands: seq<Uri>)
    requires Bounded(s, round, cands) && s.outcome == Running && s.ch != []
    ensures Bounded(OnResult(s), round, cands)
  {
    hide Drain, OnFailure;
    var s1 := Taken(s);
    DrainBounded(Collect(s1, s.ch[0]), round, cands);
    if s.ch[0].Bad? {
      FailureBounded(s1, s.ch[0].uri, s.ch[0].err, round, cands);
    }
  }

  lemma StepBounded(s: State, e: Input, round: nat, cands: seq<Uri>)
    requires Bounded(s, round, cands)
    ensures Bounded(Step(s, e), round, cands)
  {
    hide OnResult, Launch;
    if s.outcome == Running && Possible(s, e) {
      match e
      case Timer => LaunchBounded(s.(armed := false), round, cands);
      case Receive => ResultBounded(s, round, cands);
      case Token(t) => assert RequestToken.Step(s.sys, t).callers.Keys == s.sys.callers.Keys;
      case _ =>
    }
  }

  lemma {:induction false} RunBounded(s: State, inputs: seq<Input>, round: nat, cands: seq<Uri>)
    requires Bounded(s, round, cands)
    ensures Bounded(Run(s, inputs), round, cands)
    decreases |inputs|
  {
    hide Step, Bounded;
    if inputs != [] {
      StepBounded(s, inputs[0], round, cands);
      RunBounded(Step(s, inputs[0]), inputs[1..], round, cands);
    }
  }

  lemma {:induction false} RunAppend(s: State, a: seq<Input>, b: seq<Input>)
    ensures Run(s, a + b) == Run(Run(s, a), b)
    decreases |a|
  {
    hide Step;
    if a == [] {
      assert a + b == b;
    } else {
      assert (a + b)[1..] == a[1..] + b;
      RunAppend(Step(s, a[0]), a[1..], b);
    }
  }

  /** However long after a round the race is looked at: no more candidates were ever launched in the round
    * than its channel has places, and only launched candidates send, one result each.  So
    * no late sender of an abandoned round ever finds the channel full. */
  lemma RoundsFit(uris: seq<Uri>, maxRetries: nat, token: RequestToken.TokenState, first: seq<Input>, more: seq<Input>)
    requires Ready(uris, token)
    ensures var s, t := Reached(uris, maxRetries, token, first), Reached(uris, maxRetries, token, first + more);
            s.outcome == Running ==>
              && |Launched(t, s.round)| <= |s.cands|
              && Senders(t, s.round) <= Launched(t, s.round)
              && |Senders(t, s.round)| <= |s.cands|
  {
    hide Run, Launched, Senders;
    var s, t := Reached(uris, maxRetries, token, first), Reached(uris, maxRetries, token, first + more);
    if s.outcome == Running {
      ReachedSettled(uris, maxRetries, token, first);
      RunAppend(Start(uris, maxRetries, token), first, more);
      InvBounded(s, Exits(uris), maxRetries);
      RunBounded(s, more, s.round, s.cands);
      LaunchedFit(t, s.round, s.cands);
    }
  }

  lemma InvBounded(s: State, n: nat, maxRetries: nat)
    requires Inv(s, n, maxRetries)
    ensures Bounded(s, s.round, s.cands)
  {
    hide Distinct, Channel, TokensAgree;
  }

  lemma LaunchedFit(t: State, round: nat, cands: seq<Uri>)
    requires Bounded(t, round, cands)
    ensures |Launched(t, round)| <= |cands|
    ensures Senders(t, round) <= Launched(t, round)
    ensures |Senders(t, round)| <= |cands|
  {
    var launched := Launched(t, round);
    SizeOfUris(launched, round);
    var uris := set k | k in launched :: k.uri;
    assert uris <= Elems(cands);
    SubsetSize(uris, Elems(cands));
    AtMostLength(cands);
    SubsetSize(Senders(t, round), launched);
  }

  lemma {:induction false} AtMostLength<T(!new)>(s: seq<T>)
    ensures |Elems(s)| <= |s|
    decreases |s|
  {
    if s != [] {
      var front, last := s[..|s| - 1], s[|s| - 1];
      AtMostLength(front);
      assert s == front + [last];
      assert Elems(s) == Elems(front) + {last};
    }
  }

  /** A retry runs exactly the same list again: by then every candidate has been launched. */
  lemma RetryKeepsTheList(s: State, n: nat, maxRetries: nat)
    requires Sound(s, n, maxRetries)
    requires s.active == 0 && s.nextIdx == |s.cands| && !s.parentDone && s.collected == [] && s.budget > 0
    ensures var s' := Drain(s);
            s'.outcome == Running && s'.cands == s.cands && s'.budget == s.budget - 1 && s'.round == s.round + 1
  {
    RecycleReusesAll(s);
  }

  // ---------------------------------------------------------------- what a race returns

  /** A control error about the shared token stays inside the race, and so does a cancellation;
    * a collected answer exists only if some candidate answered, and a winner did win. */
  ghost predicate Presentable(o: Outcome) {
    match o
    case Failed(err) => err != Cancelled && !(err.Vertex? && err.control.TokenInvalid?)
    case Collected(results) => results != [] && forall i :: 0 <= i < |results| ==>
      results[i].Good? && !results[i].winning
    case Won(result) => result.Good? && result.winning
    case _ => true
  }

  lemma VerdictIsPresentable(errs: seq<Failure>)
    requires forall i :: 0 <= i < |errs| ==> Reportable(errs[i])
    ensures Presentable(Verdict(errs))
  {
    if errs != [] {
      assert Reportable(errs[BestIndex(errs)]);
    }
  }

  lemma DrainIsPresentable(s: State, n: nat, maxRetries: nat)
    requires Sound(s, n, maxRetries)
    ensures Presentable(Drain(s).outcome)
  {
    VerdictIsPresentable(s.failures);
  }

  lemma OnFailureIsPresentable(s: State, uri: Uri, err: Failure, n: nat, maxRetries: nat)
    requires Sound(s, n, maxRetries)
    ensures Presentable(OnFailure(s, uri, err).outcome)
  {
    if err == Cancelled {
      DrainIsPresentable(s, n, maxRetries);
    } else if Reportable(err) {
      LoggedIsSound(s, err, n, maxRetries);
      DrainIsPresentable(Logged(s, err), n, maxRetries);
    }
  }

  lemma OnResultIsPresentable(s: State, n: nat, maxRetries: nat)
    requires Inv(s, n, maxRetries) && s.ch != []
    ensures Presentable(OnResult(s).outcome)
  {
    hide Drain, OnFailure, Sound, Inv, Names, Taken, Collect, OnResult;
    TakenKeeps(s, n, maxRetries);
    OnResultCases(s);
    if !s.parentDone {
      match s.ch[0]
      case Good(_, _, winning) =>
        if !winning {
          CollectKeeps(Taken(s), s.ch[0], n, maxRetries);
          DrainIsPresentable(Collect(Taken(s), s.ch[0]), n, maxRetries);
        }
      case Bad(uri, err) => OnFailureIsPresentable(Taken(s), uri, err, n, maxRetries);
    }
  }

  lemma StepIsPresentable(s: State, e: Input, n: nat, maxRetries: nat)
    requires Settled(s, n, maxRetries) && Presentable(s.outcome)
    ensures Presentable(Step(s, e).outcome)
  {
    if s.outcome == Running && s.ch != [] {
      OnResultIsPresentable(s, n, maxRetries);
    }
  }

  lemma {:induction false} RunIsPresentable(s: State, inputs: seq<Input>, n: nat, maxRetries: nat)
    requires Settled(s, n, maxRetries) && Presentable(s.outcome)
    ensures Presentable(Run(s, inputs).outcome)
    decreases |inputs|
  {
    if inputs != [] {
      StepKeeps(s, inputs[0], n, maxRetries);
      StepIsPresentable(s, inputs[0], n, maxRetries);
      RunIsPresentable(Step(s, inputs[0]), inputs[1..], n, maxRetries);
    }
  }

  lemma OutcomesArePresentable(uris: seq<Uri>, maxRetries: nat, token: RequestToken.TokenState, inputs: seq<Input>)
    requires Ready(uris, token)
    ensures Presentable(Reached(uris, maxRetries, token, inputs).outcome)
  {
    StartSettles(uris, maxRetries, token);
    RunIsPresentable(Start(uris, maxRetries, token), inputs, Exits(uris), maxRetries);
  }

  // ---------------------------------------------------------------- termination

  /** Turns of the event loop itself, as opposed to work going on around it. */
  predicate IsTurn(s: State, e: Input) {
    s.outcome == Running && Possible(s, e) && (e.Timer? || e.Receive? || e.SeeDone?)
  }

  function Turns(s: State, inputs: seq<Input>): (r: nat)
    decreases |inputs|
  {
    if inputs == [] then 0
    else (if IsTurn(s, inputs[0]) then 1 else 0) + Turns(Step(s, inputs[0]), inputs[1..])
  }

  /** What is left to do in the round: launches, results to hear of, a timer that may still fire. */
  function Left(s: State): int {
    3 * (|s.cands| - s.nextIdx) + s.active + (if s.armed then 1 else 0)
  }

  function Weight(n: nat): nat {
    3 * n + 2
  }

  function Measure(s: State, n: nat): int {
    if s.outcome != Running then 0 else (s.budget + |s.cands|) * Weight(n) + Left(s)
  }

  lemma LeftIsBounded(s: State, n: nat, maxRetries: nat)
    requires Inv(s, n, maxRetries)
    ensures 1 <= Left(s) <= 3 * n
  {
    SendersFit(s, n, maxRetries);
    ElemsSize(s.cands[..s.nextIdx]);
    var waiting := seq(|s.ch|, i requires 0 <= i < |s.ch| => s.ch[i].uri);
    ElemsSize(waiting);
    assert Elems(waiting) !! Working(s);
    SubsetSize(Elems(waiting) + Working(s), Elems(s.cands[..s.nextIdx]));
  }

  /** Either the books of the round stay and no more is left to do, or one unit of budget is gone. */
  ghost predicate Advanced(s: State, s': State, spent: nat) {
    s'.outcome == Running ==>
      || (s'.budget + |s'.cands| == s.budget + |s.cands| && Left(s') <= Left(s) - spent)
      || s'.budget + |s'.cands| == s.budget + |s.cands| - 1
  }

  lemma DrainAdvances(s: State, n: nat, maxRetries: nat)
    requires Sound(s, n, maxRetries)
    ensures Advanced(s, Drain(s), 0)
  {
    if s.active == 0 && s.nextIdx == |s.cands| && !s.parentDone && s.collected == [] && s.budget > 0 {
      RetryKeepsTheList(s, n, maxRetries);
    }
  }

  lemma RefreshedAdvances(s: State, uri: Uri)
    requires Distinct(s.cands) && uri in s.cands
    ensures Advanced(s, StartRound(Refreshed(s, uri)), 0)
  {
    WithoutOne(s.cands, uri);
    hide Distinct, Without;
  }

  lemma OnFailureAdvances(s: State, uri: Uri, err: Failure, n: nat, maxRetries: nat)
    requires Sound(s, n, maxRetries) && uri in s.cands && Names(s, Bad(uri, err))
    ensures Advanced(s, OnFailure(s, uri, err), 0)
  {
    hide Drain, Distinct, Keys, Channel, RequestToken.SingleFlight, Without, StartRound, Advanced;
    if err == Cancelled {
      DrainAdvances(s, n, maxRetries);
    } else if Reportable(err) {
      LoggedIsSound(s, err, n, maxRetries);
      DrainAdvances(Logged(s, err), n, maxRetries);
      LoggedAdvances(s, err, Drain(Logged(s, err)));
      OnlyOutcome(s, Logged(s, err).(outcome := Failed(err)));
    } else if s.sys.tok.refreshes < n - 1 && err.control.TokenInvalid? {
      WithoutOne(s.cands, uri);
      RefreshedAdvances(s, uri);
      assert OnFailure(s, uri, err) == StartRound(Refreshed(s, uri));
    } else {
      OnlyOutcome(s, OnFailure(s, uri, err));
    }
  }

  lemma LoggedAdvances(s: State, err: Failure, s': State)
    requires Advanced(Logged(s, err), s', 0)
    ensures Advanced(s, s', 0)
  {
  }

  lemma OnlyOutcome(s: State, s': State)
    requires s'.outcome != Running
    ensures Advanced(s, s', 0)
  {
  }

  lemma OnResultAdvances(s: State, n: nat, maxRetries: nat)
    requires Inv(s, n, maxRetries) && s.ch != []
    ensures Advanced(s, OnResult(s), 1)
  {
    hide Drain, OnFailure, Sound, Inv, Names, Taken, Collect, OnResult;
    TakenKeeps(s, n, maxRetries);
    OnResultCases(s);
    TakenIsLess(s, s.ch[0]);
    if !s.parentDone {
      match s.ch[0]
      case Good(_, _, winning) =>
        if !winning {
          CollectKeeps(Taken(s), s.ch[0], n, maxRetries);
          DrainAdvances(Collect(Taken(s), s.ch[0]), n, maxRetries);
        }
      case Bad(uri, err) =>
        IsBad(s.ch[0], uri, err);
        OnFailureAdvances(Taken(s), uri, err, n, maxRetries);
    }
  }

  lemma TakenIsLess(s: State, r: Result)
    requires s.ch != []
    ensures Left(Taken(s)) == Left(s) - 1 && Left(Collect(Taken(s), r)) == Left(s) - 1
    ensures Taken(s).budget == s.budget && Taken(s).cands == s.cands
    ensures Collect(Taken(s), r).budget == s.budget && Collect(Taken(s), r).cands == s.cands
  {
  }

  lemma TurnAdvances(s: State, e: Input, n: nat, maxRetries: nat)
    requires Inv(s, n, maxRetries) && IsTurn(s, e)
    ensures Advanced(s, Step(s, e), 1)
  {
    if e.Receive? {
      OnResultAdvances(s, n, maxRetries);
    }
  }

  /** Work around the loop changes neither the books nor what is left to do. */
  lemma OthersKeepMeasure(s: State, e: Input, n: nat)
    requires !IsTurn(s, e)
    ensures Measure(Step(s, e), n) == Measure(s, n)
  {
  }

  lemma AdvanceLowersMeasure(s: State, s': State, n: nat, maxRetries: nat)
    requires Inv(s, n, maxRetries) && Settled(s', n, maxRetries) && Advanced(s, s', 1)
    ensures Measure(s', n) < Measure(s, n)
  {
    LeftIsBounded(s, n, maxRetries);
    if s'.outcome == Running {
      LeftIsBounded(s', n, maxRetries);
      Weigh(s.budget + |s.cands|, Left(s), s'.budget + |s'.cands|, Left(s'), n);
    } else {
      assert (s.budget + |s.cands|) * Weight(n) >= 0;
    }
  }

  lemma MeasureFalls(s: State, e: Input, n: nat, maxRetries: nat)
    requires Inv(s, n, maxRetries) && IsTurn(s, e)
    ensures Measure(Step(s, e), n) < Measure(s, n)
  {
    TurnAdvances(s, e, n, maxRetries);
    StepKeeps(s, e, n, maxRetries);
    AdvanceLowersMeasure(s, Step(s, e), n, maxRetries);
  }

  lemma Weigh(x: nat, left: int, x': nat, left': int, n: nat)
    requires 1 <= left <= 3 * n && 1 <= left' <= 3 * n
    requires (x' == x && left' < left) || x' == x - 1
    ensures x' * Weight(n) + left' < x * Weight(n) + left
  {
    if x' == x - 1 {
      assert x * Weight(n) == x' * Weight(n) + Weight(n);
    }
  }

  lemma {:induction false} TurnsAreBounded(s: State, inputs: seq<Input>, n: nat, maxRetries: nat)
    requires Settled(s, n, maxRetries) && n >= 1
    ensures Turns(s, inputs) <= Measure(s, n) - Measure(Run(s, inputs), n)
    decreases |inputs|
  {
    if inputs != [] {
      if IsTurn(s, inputs[0]) {
        MeasureFalls(s, inputs[0], n, maxRetries);
      } else {
        OthersKeepMeasure(s, inputs[0], n);
      }
      StepKeeps(s, inputs[0], n, maxRetries);
      TurnsAreBounded(Step(s, inputs[0]), inputs[1..], n, maxRetries);
    }
  }

  /** Every race ends: whatever happens around it, its event loop turns only so many times. */
  lemma RacesEnd(uris: seq<Uri>, maxRetries: nat, token: RequestToken.TokenState, inputs: seq<Input>)
    requires Ready(uris, token)
    ensures Turns(Start(uris, maxRetries, token), inputs) <= (maxRetries + Exits(uris) + 1) * (3 * Exits(uris) + 2)
  {
    var n := Exits(uris);
    var s := Start(uris, maxRetries, token);
    StartSettles(uris, maxRetries, token);
    LeftIsBounded(s, n, maxRetries);
    TurnsAreBounded(s, inputs, n, maxRetries);
    RunKeeps(s, inputs, n, maxRetries);
    MeasureIsNat(Run(s, inputs), n, maxRetries);
    assert (maxRetries + n + 1) * Weight(n) == (maxRetries + n) * Weight(n) + Weight(n);
  }

  lemma MeasureIsNat(s: State, n: nat, maxRetries: nat)
    requires Settled(s, n, maxRetries)
    ensures Measure(s, n) >= 0
  {
    if s.outcome == Running {
      LeftIsBounded(s, n, maxRetries);
      assert (s.budget + |s.cands|) * Weight(n) >= 0;
    }
  }
}
