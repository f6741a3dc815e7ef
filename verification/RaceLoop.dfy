/** The race as the source runs it: one object whose fields the event loop updates in place, next
  * to the shared token object, proved to follow `Race.Step` turn by turn. */
module RaceLoop {
  import opened Common
  import opened RequestToken
  import opened Race

  class Racer {
    const token: RequestTokenState
    var cands: seq<Uri>
    var used: set<Uri>
    var budget: nat
    var round: nat
    var nextIdx: nat
    var active: int
    var armed: bool
    var ch: seq<Result>
    var collected: seq<Result>
    var failures: seq<Failure>
    var parentDone: bool
    var sent: set<Key>
    var callers: map<Key, Phase>
    var fetches: nat
    var outcome: Outcome

    function View(): State
      reads this, token
    {
      State(cands, used, budget, round, nextIdx, active, armed, ch, collected, failures, parentDone,
            sent, Sys(token.Value(), callers, fetches), outcome)
    }

    constructor (uris: seq<Uri>, maxRetries: nat, token: RequestTokenState)
      modifies token
      ensures this.token == token
      ensures View() == Start(uris, maxRetries, old(token.Value()))
    {
      this.token := token;
      cands := if uris == [] then [""] else uris;
      used := {};
      budget := maxRetries;
      round := 0;
      nextIdx, active, armed, ch := 0, 0, false, [];
      collected, failures := [], [];
      parentDone := false;
      sent, callers, fetches := {}, map[], 1;
      outcome := Running;
      new;
      token.SetRefreshLimit(|cands| - 1);
      BeginRound();
    }

    method LaunchNext()
      modifies this
      ensures View() == Launch(old(View()))
      ensures token.Value() == old(token.Value())
    {
      if nextIdx >= |cands| {
        return;
      }
      var candidate := cands[nextIdx];
      nextIdx := nextIdx + 1;
      used := used + {candidate};
      active := active + 1;
      callers := callers[Key(round, candidate) := Idle];
    }

    method RestartTimer()
      modifies this`armed
      ensures View() == ResetTimer(old(View()))
    {
      if nextIdx < |cands| {
        armed := true;
      }
    }

    method BeginRound()
      modifies this
      ensures View() == StartRound(old(View()))
    {
      ghost var before := View();
      ch := [];
      active := 0;
      nextIdx := 0;
      assert View() == before.(ch := [], active := 0, nextIdx := 0);
      LaunchNext();
      ghost var launched := View();
      armed := true;
      if nextIdx >= |cands| {
        armed := false;
      }
      assert View() == launched.(armed := launched.nextIdx < |launched.cands|);
    }

    method LaunchOneMore()
      modifies this
      ensures View() == LaunchAnother(old(View()))
    {
      LaunchNext();
      RestartTimer();
    }

    method FireTimer()
      modifies this
      ensures View() == OnTimer(old(View()))
    {
      armed := false;
      if nextIdx < |cands| {
        LaunchOneMore();
      }
    }

    /** The candidates that pass the filter for exits not used yet. */
    method UnusedCandidates() returns (next: seq<Uri>)
      ensures next == Unused(cands, used)
    {
      next := [];
      for i := 0 to |cands|
        invariant next + Unused(cands[i..], used) == Unused(cands, used)
      {
        assert cands[i..][1..] == cands[i + 1..];
        if cands[i] !in used {
          next := next + [cands[i]];
        }
      }
    }

    method Remaining(uri: Uri) returns (remaining: seq<Uri>)
      ensures remaining == Without(cands, uri)
    {
      hide Without;
      remaining := [];
      assert cands[0..] == cands;
      for i := 0 to |cands|
        invariant remaining + Without(cands[i..], uri) == Without(cands, uri)
      {
        WithoutHead(cands, i, uri);
        if cands[i] != uri {
          remaining := remaining + [cands[i]];
        }
      }
      assert cands[|cands|..] == [];
      NothingWithout(uri);
    }

    method Reuse()
      modifies this
      ensures View() == Recycle(old(View()))
    {
      var next := UnusedCandidates();
      if |next| == 0 {
        // Every exit has been tried: forget which were used and start over.
        used := {};
        next := next + cands;
        assert next == cands;
      }
      cands := next;
    }

    method FinishRound()
      modifies this
      ensures View() == EndRound(old(View()))
    {
      hide StartRound, Unused, Verdict;
      if parentDone {
        outcome := ContextDone;
        return;
      }
      if |collected| > 0 {
        outcome := Collected(collected);
        return;
      }
      if budget > 0 {
        Reuse();
        if |cands| > 0 {
          budget := budget - 1;
          round := round + 1;
          BeginRound();
          return;
        }
      }
      outcome := PickBestError(failures);
    }

    method DrainCheck()
      modifies this
      ensures View() == Drain(old(View()))
    {
      hide LaunchAnother, EndRound;
      if active == 0 && nextIdx < |cands| {
        LaunchOneMore();
      } else if active == 0 {
        FinishRound();
      }
    }

    method InvalidToken(uri: Uri, reported: string)
      modifies this, token
      ensures View() == OnInvalidToken(old(View()), uri, reported)
    {
      hide StartRound, Without;
      var invalidated := token.InvalidateToken(reported);
      if invalidated == Exhausted {
        outcome := RecoveryFailed;
      } else if invalidated == Refreshed {
        cands := Remaining(uri);
        if |cands| == 0 {
          outcome := RecoveryFailed;
        } else {
          round := round + 1;
          BeginRound();
        }
      }
    }

    method FailedResult(uri: Uri, err: Failure)
      modifies this, token
      ensures View() == OnFailure(old(View()), uri, err)
    {
      hide Drain, OnInvalidToken;
      match err
      case Cancelled =>
        DrainCheck();
      case Plain(_) =>
        failures := failures + [err];
        DrainCheck();
      case Vertex(_, _, _, hard, control) =>
        match control {
          case TokenTerminal =>
            outcome := Failed(err);
          case TokenInvalid(t) =>
            InvalidToken(uri, t);
          case NoControl =>
            failures := failures + [err];
            if hard {
              outcome := Failed(err);
            } else {
              DrainCheck();
            }
        }
    }

    method TakeResult()
      requires ch != []
      modifies this, token
      ensures View() == OnResult(old(View()))
    {
      hide Drain, OnFailure;
      var res := ch[0];
      ch := ch[1..];
      active := active - 1;
      if parentDone {
        outcome := ContextDone;
        return;
      }
      match res
      case Good(_, _, winning) =>
        if winning {
          outcome := Won(res);
        } else {
          collected := collected + [res];
          DrainCheck();
        }
      case Bad(uri, err) =>
        FailedResult(uri, err);
    }

    /** Work of a candidate on the shared token object. */
    method TokenWork(e: RequestToken.Event<Key>)
      requires Possible(View(), Token(e)) && outcome == Running
      modifies this, token
      ensures View() == Race.Step(old(View()), Token(e))
    {
      match e
      case Get(k) =>
        var g := token.Begin();
        match g {
          case Ready(t) => callers := callers[k := Holding(t)];
          case MustWait => callers := callers[k := Waiting(fetches)];
          case Broken => callers := callers[k := TurnedAway];
          case MustFetch =>
            callers := callers[k := Fetching];
            fetches := fetches + 1;
        }
      case Fetched(k, t) =>
        token.Finish(t);
        callers := callers[k := if t != "" then Holding(t) else TurnedAway];
      case Wake(k) =>
        var seen, failed := token.token, token.failed;
        callers := callers[k := if failed then TurnedAway else if seen == "" then Idle else Holding(seen)];
    }

    method Turn(e: Input)
      requires Possible(View(), e) && outcome == Running
      modifies this, token
      ensures View() == Race.Step(old(View()), e)
    {
      match e
      case Timer => FireTimer();
      case Receive => TakeResult();
      case SeeDone => outcome := ContextDone;
      case ParentDone => parentDone := true;
      case Token(t) => TokenWork(t);
      case Send(key, result) =>
        sent := sent + {key};
        if key.round == round {
          ch := ch + [result];
        }
    }

    method Loop(inputs: seq<Input>)
      modifies this, token
      ensures View() == Race.Run(old(View()), inputs)
    {
      for i := 0 to |inputs|
        invariant Race.Run(View(), inputs[i..]) == Race.Run(old(View()), inputs)
      {
        assert inputs[i..][1..] == inputs[i + 1..];
        if outcome == Running && Possible(View(), inputs[i]) {
          Turn(inputs[i]);
        }
      }
    }
  }

  lemma WithoutHead(cands: seq<Uri>, i: nat, uri: Uri)
    requires i < |cands|
    ensures Without(cands[i..], uri) == if cands[i] != uri
            then [cands[i]] + Without(cands[i + 1..], uri) else Without(cands[i + 1..], uri)
  {
    assert cands[i..][1..] == cands[i + 1..];
    assert [] + Without(cands[i + 1..], uri) == Without(cands[i + 1..], uri);
  }

  lemma NothingWithout(uri: Uri)
    ensures Without([], uri) == []
  {
  }

  /** One whole race over the exits of a request, under any schedule of what happens around it. */
  method RunRaceURIs(uris: seq<Uri>, maxRetries: nat, token: RequestTokenState, inputs: seq<Input>)
    returns (outcome: Outcome)
    modifies token
    ensures var end := Race.Run(Start(uris, maxRetries, old(token.Value())), inputs);
            outcome == end.outcome && token.Value() == end.sys.tok
  {
    var racer := new Racer(uris, maxRetries, token);
    racer.Loop(inputs);
    outcome := racer.outcome;
  }
}
