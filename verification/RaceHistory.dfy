/** A whole race told by the results its event loop has heard of, in the order in which it heard of them:
  * what was launched, retired and collected, and why the race ended as it did. */
module RaceHistory {
  import opened Common
  import RequestToken
  import opened Race
  import opened RaceProofs
  import opened RaceTheorems

  // ---------------------------------------------------------------- what was heard

  /** The result the event loop takes in this step while the caller is present. */
  function HeardNow(s: State, e: Input): seq<Result> {
    if s.outcome == Running && e.Receive? && s.ch != [] && !s.parentDone then [s.ch[0]] else []
  }

  /** All results taken in a run, oldest first. */
  function Heard(s: State, inputs: seq<Input>): (r: seq<Result>)
    decreases |inputs|
  {
    if inputs == [] then [] else HeardNow(s, inputs[0]) + Heard(Step(s, inputs[0]), inputs[1..])
  }

  predicate Hard(r: Result) {
    r.Bad? && r.err.Vertex? && r.err.hard && r.err.control == NoControl
  }

  predicate Terminal(r: Result) {
    r.Bad? && r.err.Vertex? && r.err.control == TokenTerminal
  }

  predicate Invalid(r: Result) {
    r.Bad? && r.err.Vertex? && r.err.control.TokenInvalid?
  }

  predicate Wins(r: Result) {
    r.Good? && r.winning
  }

  /** A result that ends the race whatever else is going on. */
  predicate Decisive(r: Result) {
    Wins(r) || Hard(r) || Terminal(r)
  }

  predicate Fails(r: Result) {
    r.Bad? && r.err != Cancelled && (r.err.Vertex? ==> r.err.control == NoControl)
  }

  /** The failures among them that count: neither cancellations nor errors about the shared token. */
  function FailuresOf(heard: seq<Result>): (r: seq<Failure>) {
    if heard == [] then []
    else
      var last := heard[|heard| - 1];
      FailuresOf(heard[..|heard| - 1]) + if Fails(last) then [last.err] else []
  }

  /** The successes that did not win. */
  function SuccessesOf(heard: seq<Result>): (r: seq<Result>) {
    if heard == [] then []
    else
      var last := heard[|heard| - 1];
      SuccessesOf(heard[..|heard| - 1]) + if last.Good? && !last.winning then [last] else []
  }

  /** The exits left: those whose token was not refused. */
  function Remaining(uris: seq<Uri>, heard: seq<Result>): (r: seq<Uri>) {
    if heard == [] then uris
    else
      var last, before := heard[|heard| - 1], Remaining(uris, heard[..|heard| - 1]);
      if Invalid(last) then Without(before, last.uri) else before
  }

  function Refusals(heard: seq<Result>): (r: nat) {
    if heard == [] then 0
    else Refusals(heard[..|heard| - 1]) + if Invalid(heard[|heard| - 1]) then 1 else 0
  }

  lemma HeardSnoc(heard: seq<Result>, x: Result, uris: seq<Uri>)
    ensures FailuresOf(heard + [x]) == FailuresOf(heard) + if Fails(x) then [x.err] else []
    ensures SuccessesOf(heard + [x]) == SuccessesOf(heard) + if x.Good? && !x.winning then [x] else []
    ensures Remaining(uris, heard + [x]) ==
            if Invalid(x) then Without(Remaining(uris, heard), x.uri) else Remaining(uris, heard)
    ensures Refusals(heard + [x]) == Refusals(heard) + if Invalid(x) then 1 else 0
  {
    assert (heard + [x])[..|heard|] == heard;
  }

  // ---------------------------------------------------------------- which error is told

  predicate Limited(e: Failure) {
    e.Vertex? && e.retryable && e.rateLimited
  }

  predicate Transient(e: Failure) {
    e.Vertex? && e.retryable
  }

  predicate Global(e: Failure) {
    e.Vertex? && e.hard
  }

  predicate OfUpstream(e: Failure) {
    e.Vertex?
  }

  ghost predicate FirstOf(errs: seq<Failure>, i: nat, among: Failure -> bool) {
    i < |errs| && among(errs[i]) && forall j :: 0 <= j < i ==> !among(errs[j])
  }

  ghost predicate NoneOf(errs: seq<Failure>, among: Failure -> bool) {
    forall j :: 0 <= j < |errs| ==> !among(errs[j])
  }

  /** The error to tell: the first rate limit; else the first other retryable error; else the first hard
    * one; else the first of upstream; else the first of all. */
  ghost predicate ToTell(errs: seq<Failure>, i: nat) {
    if !NoneOf(errs, Limited) then FirstOf(errs, i, Limited)
    else if !NoneOf(errs, Transient) then FirstOf(errs, i, Transient)
    else if !NoneOf(errs, Global) then FirstOf(errs, i, Global)
    else if !NoneOf(errs, OfUpstream) then FirstOf(errs, i, OfUpstream)
    else errs != [] && i == 0
  }

  /** That is the error the scan by priorities picks. */
  lemma BestIsToTell(errs: seq<Failure>, i: nat)
    ensures IsBest(errs, i) <==> ToTell(errs, i)
  {
    if errs != [] {
      var b := BestIndex(errs);
      BestClass(errs, b);
      if IsBest(errs, i) {
        BestClass(errs, i);
      }
      if ToTell(errs, i) {
        ToldOnce(errs, i, b);
      }
    }
  }

  lemma BestClass(errs: seq<Failure>, i: nat)
    requires IsBest(errs, i)
    ensures ToTell(errs, i)
  {
    assert forall k :: 0 <= k < |errs| ==> Priority(errs[i]) <= Priority(errs[k]);
    if !NoneOf(errs, Limited) {
      var k :| 0 <= k < |errs| && Limited(errs[k]);
      assert Priority(errs[i]) <= Priority(errs[k]);
    } else if !NoneOf(errs, Transient) {
      var k :| 0 <= k < |errs| && Transient(errs[k]);
      assert Priority(errs[i]) <= Priority(errs[k]);
    } else if !NoneOf(errs, Global) {
      var k :| 0 <= k < |errs| && Global(errs[k]);
      assert Priority(errs[i]) <= Priority(errs[k]);
    } else if !NoneOf(errs, OfUpstream) {
      var k :| 0 <= k < |errs| && errs[k].Vertex?;
      assert Priority(errs[i]) <= Priority(errs[k]);
    } else {
      assert Priority(errs[0]) == 5 && Priority(errs[i]) == 5;
    }
  }

  lemma ToldOnce(errs: seq<Failure>, i: nat, j: nat)
    requires ToTell(errs, i) && ToTell(errs, j)
    ensures i == j
  {
  }

  // ---------------------------------------------------------------- what the history says of a state

  ghost predicate NoneDecisive(heard: seq<Result>) {
    forall i :: 0 <= i < |heard| ==> !Decisive(heard[i])
  }

  /** While the race goes on: nothing decisive was heard, and the books are those of the history. */
  ghost predicate Books(s: State, uris: seq<Uri>, heard: seq<Result>) {
    && NoneDecisive(heard)
    && s.failures == FailuresOf(heard)
    && s.collected == SuccessesOf(heard)
    && s.cands == Remaining(uris, heard)
    && s.sys.tok.refreshes == Refusals(heard)
    && (s.nextIdx < |s.cands| ==> s.armed)
  }

  /** Every exit left was launched in the last round and heard of, and nothing decisive among it. */
  ghost predicate RoundOver(s: State, uris: seq<Uri>, heard: seq<Result>) {
    && NoneDecisive(heard)
    && s.cands == Remaining(uris, heard) && s.nextIdx == |s.cands| && s.ch == []
    && forall u :: u in s.cands ==> Key(s.round, u) in s.sent
  }

  /** And no success, and no retry left. */
  ghost predicate GaveUp(s: State, uris: seq<Uri>, heard: seq<Result>) {
    RoundOver(s, uris, heard) && SuccessesOf(heard) == [] && s.budget == 0
  }

  /** Why the race is over. */
  ghost predicate Why(s: State, uris: seq<Uri>, heard: seq<Result>) {
    match s.outcome
    case Running => true
    case ContextDone => s.parentDone && NoneDecisive(heard)
    case Collected(results) => RoundOver(s, uris, heard) && results == SuccessesOf(heard) != []
    case AllExitsFailed => GaveUp(s, uris, heard) && FailuresOf(heard) == []
    case Won(result) => EndsWith(heard, result) && Wins(result)
    case RecoveryFailed =>
      heard != [] && NoneDecisive(heard) && Invalid(heard[|heard| - 1]) && Refusals(heard) == |uris|
    case Failed(err) =>
      || (exists uri :: EndsWith(heard, Bad(uri, err)) && (Hard(Bad(uri, err)) || Terminal(Bad(uri, err))))
      || (GaveUp(s, uris, heard) && TellsBest(FailuresOf(heard), err))
  }

  /** The last result heard of, with nothing decisive before it. */
  ghost predicate EndsWith(heard: seq<Result>, r: Result) {
    heard != [] && heard[|heard| - 1] == r && NoneDecisive(heard[..|heard| - 1])
  }

  ghost predicate TellsBest(errs: seq<Failure>, err: Failure) {
    exists i: nat :: i < |errs| && ToTell(errs, i) && errs[i] == err
  }

  ghost predicate History(s: State, uris: seq<Uri>, heard: seq<Result>) {
    if s.outcome == Running then Books(s, uris, heard) else Why(s, uris, heard)
  }

  lemma VerdictTells(s: State, uris: seq<Uri>, heard: seq<Result>)
    requires GaveUp(s, uris, heard) && s.outcome == Verdict(FailuresOf(heard))
    ensures Why(s, uris, heard)
  {
    var errs := FailuresOf(heard);
    if errs != [] {
      BestIsToTell(errs, BestIndex(errs));
    }
  }

  lemma DrainTells(s: State, uris: seq<Uri>, heard: seq<Result>, n: nat, maxRetries: nat)
    requires Sound(s, n, maxRetries) && Books(s, uris, heard) && s.cands != []
    ensures History(Drain(s), uris, heard)
  {
    hide FailuresOf, SuccessesOf, Remaining, Refusals, Why, StartRound, NoneDecisive, Verdict, Distinct;
    if s.active == 0 && s.nextIdx == |s.cands| {
      EndTells(s, uris, heard, n, maxRetries);
    }
  }

  lemma EndTells(s: State, uris: seq<Uri>, heard: seq<Result>, n: nat, maxRetries: nat)
    requires Sound(s, n, maxRetries) && Books(s, uris, heard) && s.cands != []
    requires s.active == 0 && s.nextIdx == |s.cands|
    ensures History(EndRound(s), uris, heard)
  {
    hide FailuresOf, SuccessesOf, Remaining, Refusals, NoneDecisive, Verdict, Distinct, TokensAgree, Recycle;
    assert s.cands[..s.nextIdx] == s.cands;
    forall u | u in s.cands ensures Key(s.round, u) in s.sent {
      assert u !in Working(s);
    }
    if !s.parentDone && s.collected == [] {
      if s.budget > 0 {
        EndRoundIsAgain(s);
      } else {
        VerdictTells(EndRound(s), uris, heard);
      }
    }
  }

  lemma DecisiveTells(s: State, t: State, uris: seq<Uri>, heard: seq<Result>, uri: Uri, err: Failure)
    requires Books(s, uris, heard) && (Hard(Bad(uri, err)) || Terminal(Bad(uri, err))) && t.outcome == Failed(err)
    ensures History(t, uris, heard + [Bad(uri, err)])
  {
    assert (heard + [Bad(uri, err)])[..|heard|] == heard;
    assert EndsWith(heard + [Bad(uri, err)], Bad(uri, err));
  }

  lemma InvalidTells(s: State, uris: seq<Uri>, heard: seq<Result>, uri: Uri, err: Failure, n: nat, maxRetries: nat)
    requires Sound(s, n, maxRetries) && Books(s, uris, heard) && uri in s.cands && Names(s, Bad(uri, err))
    requires n == |uris| && Invalid(Bad(uri, err))
    ensures History(OnFailure(s, uri, err), uris, heard + [Bad(uri, err)])
  {
    hide FailuresOf, SuccessesOf, Remaining, Refusals, Drain, Without, Distinct, Keys, Channel, TokensAgree;
    HeardSnoc(heard, Bad(uri, err), uris);
    WithoutOne(s.cands, uri);
    if s.sys.tok.refreshes < n - 1 {
      assert OnFailure(s, uri, err) == StartRound(Refreshed(s, uri));
    } else {
      assert OnFailure(s, uri, err) == s.(outcome := RecoveryFailed);
    }
  }

  lemma OnFailureTells(s: State, uris: seq<Uri>, heard: seq<Result>, uri: Uri, err: Failure, n: nat, maxRetries: nat)
    requires Sound(s, n, maxRetries) && Books(s, uris, heard) && uri in s.cands && Names(s, Bad(uri, err))
    requires n == |uris|
    ensures History(OnFailure(s, uri, err), uris, heard + [Bad(uri, err)])
  {
    hide FailuresOf, SuccessesOf, Remaining, Refusals, Drain, StartRound, Sound, History, Without;
    var r := Bad(uri, err);
    HeardSnoc(heard, r, uris);
    if Decisive(r) {
      DecisiveTells(s, OnFailure(s, uri, err), uris, heard, uri, err);
    } else if Invalid(r) {
      InvalidTells(s, uris, heard, uri, err, n, maxRetries);
    } else if Fails(r) {
      LoggedIsSound(s, err, n, maxRetries);
      DrainTells(Logged(s, err), uris, heard + [r], n, maxRetries);
    } else {
      DrainTells(s, uris, heard + [r], n, maxRetries);
    }
  }

  lemma OnResultTells(s: State, uris: seq<Uri>, heard: seq<Result>, n: nat, maxRetries: nat)
    requires Inv(s, n, maxRetries) && Books(s, uris, heard) && s.ch != [] && n == |uris|
    ensures History(OnResult(s), uris, heard + HeardNow(s, Receive))
  {
    hide Drain, OnFailure, Sound, Inv, Names, OnResult, History, Books;
    TakenKeeps(s, n, maxRetries);
    OnResultCases(s);
    var r := s.ch[0];
    if s.parentDone {
      assert heard + HeardNow(s, Receive) == heard;
      StopsTell(s, OnResult(s), uris, heard);
    } else if r.Bad? {
      IsBad(r, r.uri, r.err);
      TakenBooks(s, uris, heard, r);
      OnFailureTells(Taken(s), uris, heard, r.uri, r.err, n, maxRetries);
    } else if r.winning {
      WinTells(s, OnResult(s), uris, heard, r);
    } else {
      TakenBooks(s, uris, heard, r);
      CollectKeeps(Taken(s), r, n, maxRetries);
      DrainTells(Collect(Taken(s), r), uris, heard + [r], n, maxRetries);
    }
  }

  lemma StopsTell(s: State, t: State, uris: seq<Uri>, heard: seq<Result>)
    requires Books(s, uris, heard) && t.outcome == ContextDone && t.parentDone
    ensures History(t, uris, heard)
  {
  }

  lemma WinTells(s: State, t: State, uris: seq<Uri>, heard: seq<Result>, r: Result)
    requires Books(s, uris, heard) && Wins(r) && t.outcome == Won(r)
    ensures History(t, uris, heard + [r])
  {
    assert (heard + [r])[..|heard|] == heard;
  }

  lemma TakenBooks(s: State, uris: seq<Uri>, heard: seq<Result>, r: Result)
    requires Books(s, uris, heard) && s.ch != [] && s.outcome == Running && s.cands != []
    ensures Books(Taken(s), uris, heard)
    ensures r.Good? && !r.winning ==> Books(Collect(Taken(s), r), uris, heard + [r])
  {
    hide FailuresOf, SuccessesOf, Remaining, Refusals;
    HeardSnoc(heard, r, uris);
  }

  lemma StepTells(s: State, e: Input, uris: seq<Uri>, heard: seq<Result>, n: nat, maxRetries: nat)
    requires Settled(s, n, maxRetries) && History(s, uris, heard) && n == |uris|
    ensures History(Step(s, e), uris, heard + HeardNow(s, e))
  {
    hide FailuresOf, SuccessesOf, Remaining, Refusals, OnResult;
    if s.outcome == Running && e.Receive? && s.ch != [] {
      OnResultTells(s, uris, heard, n, maxRetries);
    } else {
      assert heard + HeardNow(s, e) == heard;
      OthersTell(s, e, uris, heard);
    }
  }

  lemma OthersTell(s: State, e: Input, uris: seq<Uri>, heard: seq<Result>)
    requires History(s, uris, heard) && (s.outcome != Running || !e.Receive? || s.ch == [])
    ensures History(Step(s, e), uris, heard)
  {
    hide FailuresOf, SuccessesOf, Remaining, Refusals, OnResult, NoneDecisive, Why;
    if s.outcome == Running && Possible(s, e) {
      match e
      case SeeDone => StopsTell(s, Step(s, e), uris, heard);
      case Token(t) => TokenTells(s, t);
      case _ =>
    }
  }

  lemma TokenTells(s: State, t: RequestToken.Event<Key>)
    requires !t.Drop?
    ensures RequestToken.Step(s.sys, t).tok.refreshes == s.sys.tok.refreshes
  {
  }

  lemma {:induction false} RunTells(s: State, inputs: seq<Input>, uris: seq<Uri>, heard: seq<Result>, n: nat,
                                    maxRetries: nat)
    requires Settled(s, n, maxRetries) && History(s, uris, heard) && n == |uris|
    ensures History(Run(s, inputs), uris, heard + Heard(s, inputs))
    decreases |inputs|
  {
    hide Settled, History, Step, HeardNow;
    if inputs == [] {
      assert heard + Heard(s, inputs) == heard;
    } else {
      StepKeeps(s, inputs[0], n, maxRetries);
      StepTells(s, inputs[0], uris, heard, n, maxRetries);
      var more := heard + HeardNow(s, inputs[0]);
      RunTells(Step(s, inputs[0]), inputs[1..], uris, more, n, maxRetries);
      assert more + Heard(Step(s, inputs[0]), inputs[1..]) == heard + Heard(s, inputs);
    }
  }

  function Initial(uris: seq<Uri>): seq<Uri> {
    if uris == [] then [""] else uris
  }

  lemma StartTells(uris: seq<Uri>, maxRetries: nat, token: RequestToken.TokenState)
    requires token.refreshes == 0
    ensures History(Start(uris, maxRetries, token), Initial(uris), [])
  {
  }

  /** For every race and every schedule: the exits still in the race, the errors and the successes in hand
    * are what the results heard of say, and so is the outcome.  A race ends on the first winning, hard or
    * terminal result and on no other; when every exit's token was refused; when the caller has gone; or
    * when every exit left was launched in the round and heard of.  Then it answers with the successes, or
    * with none and no retry left tells the error of the best class. */
  lemma RacesAreExplained(uris: seq<Uri>, maxRetries: nat, token: RequestToken.TokenState, inputs: seq<Input>)
    requires Ready(uris, token)
    ensures History(Reached(uris, maxRetries, token, inputs), Initial(uris),
                    Heard(Start(uris, maxRetries, token), inputs))
  {
    hide History, Run, Heard;
    StartSettles(uris, maxRetries, token);
    StartTells(uris, maxRetries, token);
    RunTells(Start(uris, maxRetries, token), inputs, Initial(uris), [], Exits(uris), maxRetries);
    var heard := Heard(Start(uris, maxRetries, token), inputs);
    assert [] + heard == heard;
  }

  // ---------------------------------------------------------------- what each turn launches

  predicate Takes(s: State, e: Input) {
    e.Receive? && s.ch != []
  }

  /** The result taken is the last of a round in which every exit left was launched. */
  predicate Completes(s: State, e: Input)
    requires s.nextIdx <= |s.cands|
  {
    Takes(s, e) && |s.ch| == 1 && Working(s) == {} && s.nextIdx == |s.cands|
  }

  /** A new round begins: after a refused token, or at the end of a round without any success. */
  predicate Renews(s: State, e: Input, heard: seq<Result>)
    requires s.nextIdx <= |s.cands|
  {
    Takes(s, e) && (Invalid(s.ch[0]) || (Completes(s, e) && SuccessesOf(heard + [s.ch[0]]) == []))
  }

  /** The next exit of the list is launched: when the delay has passed, or when nobody is left to wait for. */
  predicate Relays(s: State, e: Input)
    requires s.nextIdx <= |s.cands|
  {
    && s.nextIdx < |s.cands|
    && (e.Timer? || (Takes(s, e) && !Invalid(s.ch[0]) && |s.ch| == 1 && Working(s) == {}))
  }

  /** The exit a turn launches is the next one of the list, in a new round the first. */
  ghost predicate Launches(s: State, t: State, renews: bool, relays: bool) {
    && (renews ==> t.round == s.round + 1 && t.nextIdx == 1 && t.ch == [])
    && (!renews ==> t.round == s.round && t.cands == s.cands && t.nextIdx == s.nextIdx + (if relays then 1 else 0))
    && t.nextIdx <= |t.cands| && Launched(t, t.round) == set u | u in t.cands[..t.nextIdx] :: Key(t.round, u)
  }

  /** What one step from any reachable state does, as long as the race goes on.  The delay is running
    * whenever an exit is left to launch. */
  lemma TurnsLaunch(uris: seq<Uri>, maxRetries: nat, token: RequestToken.TokenState, inputs: seq<Input>, e: Input)
    requires Ready(uris, token)
    requires Reached(uris, maxRetries, token, inputs).outcome == Running
    ensures var s := Reached(uris, maxRetries, token, inputs);
            var t, heard := Step(s, e), Heard(Start(uris, maxRetries, token), inputs);
            && s.nextIdx <= |s.cands| && (s.nextIdx < |s.cands| ==> Possible(s, Timer))
            && (s.parentDone && (Takes(s, e) || e.SeeDone?) ==> t.outcome == ContextDone)
            && (t.outcome == Running ==>
                  && Launches(s, t, Renews(s, e, heard), Relays(s, e))
                  && t.budget == s.budget - (if Renews(s, e, heard) && !Invalid(s.ch[0]) then 1 else 0)
                  && (!Renews(s, e, heard) ==> t.ch == Queue(s, e)))
  {
    hide Heard, Run;
    RacesAreExplained(uris, maxRetries, token, inputs);
    ReachedSettled(uris, maxRetries, token, inputs);
    var s, heard := Reached(uris, maxRetries, token, inputs), Heard(Start(uris, maxRetries, token), inputs);
    StepKeeps(s, e, Exits(uris), maxRetries);
    TurnIs(s, e, Initial(uris), heard, Exits(uris), maxRetries);
  }

  /** The channel while the round lasts. */
  function Queue(s: State, e: Input): seq<Result> {
    if Takes(s, e) then s.ch[1..]
    else if e.Send? && Possible(s, e) && e.key.round == s.round then s.ch + [e.result]
    else s.ch
  }

  lemma LaunchedAre(s: State, n: nat, maxRetries: nat)
    requires Inv(s, n, maxRetries)
    ensures Launched(s, s.round) == set u | u in s.cands[..s.nextIdx] :: Key(s.round, u)
  {
    hide Distinct, Channel, TokensAgree;
    var keys := set u | u in s.cands[..s.nextIdx] :: Key(s.round, u);
    forall k ensures k in Launched(s, s.round) <==> k in keys {
      if k in Launched(s, s.round) {
        assert k == Key(s.round, k.uri);
      }
    }
  }

  /** The drain check: nothing while somebody is out, then the next exit, then the same list once more. */
  lemma DrainIs(s: State, n: nat, maxRetries: nat)
    requires Sound(s, n, maxRetries) && s.cands != []
    ensures var t := Drain(s);
            && (s.active != 0 ==> t == s)
            && (s.active == 0 && s.nextIdx < |s.cands| ==>
                  t.round == s.round && t.cands == s.cands && t.nextIdx == s.nextIdx + 1 && t.budget == s.budget &&
                  t.ch == s.ch)
            && (s.active == 0 && s.nextIdx == |s.cands| && t.outcome == Running ==>
                  && s.collected == [] && t.round == s.round + 1 && t.nextIdx == 1 && t.ch == []
                  && t.budget == s.budget - 1)
  {
    hide Distinct, Keys, Channel, TokensAgree, RequestToken.SingleFlight;
    if s.active == 0 && s.nextIdx == |s.cands| && !s.parentDone && s.collected == [] && s.budget > 0 {
      EndRoundIsAgain(s);
    }
  }

  lemma InvalidIs(s: State, uri: Uri, err: Failure, n: nat, maxRetries: nat)
    requires Sound(s, n, maxRetries) && uri in s.cands && Names(s, Bad(uri, err)) && Invalid(Bad(uri, err))
    requires OnFailure(s, uri, err).outcome == Running
    ensures var t := OnFailure(s, uri, err);
            t.round == s.round + 1 && t.nextIdx == 1 && t.ch == [] && t.budget == s.budget
  {
    hide Distinct, Keys, Channel, TokensAgree;
    WithoutOne(s.cands, uri);
  }

  /** Where a result that is taken leads, as long as the race goes on. */
  ghost predicate Led(s: State, t: State, heard: seq<Result>)
    requires s.nextIdx <= |s.cands| && s.ch != []
  {
    && (if Renews(s, Receive, heard) then t.round == s.round + 1 && t.nextIdx == 1 && t.ch == []
        else t.round == s.round && t.cands == s.cands && t.ch == s.ch[1..] &&
             t.nextIdx == s.nextIdx + (if Relays(s, Receive) then 1 else 0))
    && t.budget == s.budget - (if Renews(s, Receive, heard) && !Invalid(s.ch[0]) then 1 else 0)
  }

  /** The books of a result that ends in the drain check. */
  lemma DrainedIs(s: State, x: State, heard: seq<Result>, n: nat, maxRetries: nat)
    requires Inv(s, n, maxRetries) && s.ch != [] && !Invalid(s.ch[0]) && Sound(x, n, maxRetries) && s.cands != []
    requires x == Taken(s).(failures := x.failures, collected := SuccessesOf(heard + [s.ch[0]]))
    requires Drain(x).outcome == Running
    ensures Led(s, Drain(x), heard)
  {
    hide Drain, SuccessesOf, Distinct, Keys, TokensAgree, RequestToken.SingleFlight;
    DrainIs(x, n, maxRetries);
    assert |Working(s)| == 0 ==> Working(s) == {};
  }

  lemma ResultIs(s: State, uris: seq<Uri>, heard: seq<Result>, n: nat, maxRetries: nat)
    requires Inv(s, n, maxRetries) && Books(s, uris, heard) && s.ch != [] && OnResult(s).outcome == Running
    ensures Led(s, OnResult(s), heard)
  {
    hide Drain, Sound, Names, OnResult, SuccessesOf, FailuresOf, Led, Keys, Channel;
    TakenKeeps(s, n, maxRetries);
    OnResultCases(s);
    var r := s.ch[0];
    TakenBooks(s, uris, heard, r);
    HeardSnoc(heard, r, uris);
    if r.Bad? {
      IsBad(r, r.uri, r.err);
      if Invalid(r) {
        RefusedIs(s, heard, n, maxRetries);
      } else {
        assert SuccessesOf(heard) + [] == SuccessesOf(heard);
        if Fails(r) {
          LoggedIsSound(Taken(s), r.err, n, maxRetries);
          DrainedIs(s, Logged(Taken(s), r.err), heard, n, maxRetries);
        } else {
          DrainedIs(s, Taken(s), heard, n, maxRetries);
        }
      }
    } else {
      CollectKeeps(Taken(s), r, n, maxRetries);
      DrainedIs(s, Collect(Taken(s), r), heard, n, maxRetries);
    }
  }

  lemma RefusedIs(s: State, heard: seq<Result>, n: nat, maxRetries: nat)
    requires Inv(s, n, maxRetries) && s.ch != [] && Invalid(s.ch[0])
    requires var r := s.ch[0]; OnFailure(Taken(s), r.uri, r.err).outcome == Running
    requires Sound(Taken(s), n, maxRetries) && Names(Taken(s), s.ch[0]) && s.ch[0].uri in s.cands
    ensures Led(s, OnFailure(Taken(s), s.ch[0].uri, s.ch[0].err), heard)
  {
    hide OnFailure, Sound, SuccessesOf;
    IsBad(s.ch[0], s.ch[0].uri, s.ch[0].err);
    InvalidIs(Taken(s), s.ch[0].uri, s.ch[0].err, n, maxRetries);
  }

  lemma TurnIs(s: State, e: Input, uris: seq<Uri>, heard: seq<Result>, n: nat, maxRetries: nat)
    requires Inv(s, n, maxRetries) && Books(s, uris, heard) && Settled(Step(s, e), n, maxRetries)
    ensures var t := Step(s, e);
            && s.nextIdx <= |s.cands| && (s.nextIdx < |s.cands| ==> Possible(s, Timer))
            && (s.parentDone && (Takes(s, e) || e.SeeDone?) ==> t.outcome == ContextDone)
            && (t.outcome == Running ==>
                  && Launches(s, t, Renews(s, e, heard), Relays(s, e))
                  && t.budget == s.budget - (if Renews(s, e, heard) && !Invalid(s.ch[0]) then 1 else 0)
                  && (!Renews(s, e, heard) ==> t.ch == Queue(s, e)))
  {
    hide OnResult, SuccessesOf, FailuresOf, Remaining, Refusals, Working, Launched;
    hide Keys, Channel, TokensAgree, Distinct, RequestToken.SingleFlight;
    var t := Step(s, e);
    if t.outcome == Running {
      LaunchedAre(t, n, maxRetries);
    }
    if Takes(s, e) {
      OnResultCases(s);
      if t.outcome == Running {
        ResultIs(s, uris, heard, n, maxRetries);
      }
    } else {
      OtherIs(s, e, uris, heard);
    }
  }

  lemma OtherIs(s: State, e: Input, uris: seq<Uri>, heard: seq<Result>)
    requires Books(s, uris, heard) && s.outcome == Running && s.nextIdx <= |s.cands| && !Takes(s, e)
    ensures var t := Step(s, e);
            && t.round == s.round && t.cands == s.cands && t.budget == s.budget && t.ch == Queue(s, e)
            && t.nextIdx == s.nextIdx + (if Relays(s, e) then 1 else 0)
            && (s.parentDone && e.SeeDone? ==> t.outcome == ContextDone)
  {
    hide OnResult, SuccessesOf, FailuresOf, Remaining, Refusals, Working, NoneDecisive;
  }
}
