/** The retry loop around one exit's streaming request: which frames of which attempt reach the
  * consumer, when a token is refreshed, and why the loop ends. */
module StreamRetry {
  import opened Common
  import opened RequestToken

  /** A frame with generated content or a real safety block is `valid`; default enums and empty
    * stop frames are not. */
  datatype Frame = Frame(id: nat, valid: bool)

  datatype AttemptError =
    | WarmupRejected      // the service refuses a first evaluation of the token
    | TokenRejected       // the token is stale
    | OtherAuth(id: nat)
    | RateLimited(id: nat)
    | Upstream(id: nat, final: bool)   // final: internal or not retryable
    | Foreign(id: nat)

  /** One request: the frames it emits, then how it ends. */
  datatype Attempt = Attempt(frames: seq<Frame>, err: Option<AttemptError>)

  datatype Error =
    | CallerGone
    | NoToken
    | OfAttempt(err: AttemptError)
    | MarkedInvalid(token: string)
    | TokenSpent
    | NoSession

  datatype Chunk = Data(frame: Frame) | Err(error: Error)

  /** `Shared(true)`: the race above replaces stale tokens; `Shared(false)`: this loop does. */
  datatype Route = NoRoute | Shared(raceOwnsToken: bool)

  datatype Config = Config(maxRetries: nat, route: Route)

  /** What the surroundings answer during one turn of the loop.  Others may work on the shared token:
    * `found` and `meanwhile` are what they have made of it when the turn begins and while the attempt
    * runs, None if it is as this loop left it. */
  datatype World = World(
    found: Option<TokenState>,
    meanwhile: Option<TokenState>,
    fetched: string,      // result of a token fetch, "" for a failure
    waited: string,       // what waiting for the fetch of another gives, "" for nothing
    callerGone: bool,     // the context is found done when a token cannot be had
    attempt: Attempt,
    sessionOk: bool,      // a new session can be opened
    sleepOk: bool)        // the pause before the next turn is not cut short

  /** An attempt that was made, with which token, and whether on its first evaluation. */
  datatype Try = Try(attempt: Attempt, first: bool, token: string)

  datatype Loop = Loop(
    shared: TokenState,
    token: string,
    first: bool,
    attempt: nat,
    content: bool,
    lastError: Option<Error>,
    out: seq<Chunk>,
    tries: seq<Try>)

  datatype Move = Again(s: Loop) | Break(s: Loop) | Return(s: Loop)

  predicate HasContent(frames: seq<Frame>) {
    exists i :: 0 <= i < |frames| && frames[i].valid
  }

  function DataOf(frames: seq<Frame>): (r: seq<Chunk>)
    ensures |r| == |frames| && forall i :: 0 <= i < |r| ==> r[i] == Data(frames[i])
  {
    seq(|frames|, i requires 0 <= i < |frames| => Data(frames[i]))
  }

  // ---------------------------------------------------------------- one turn

  /** A whole `get`. */
  function Get(s: TokenState, w: World): (TokenState, string) {
    var (s', g) := BeginGet(s);
    match g
    case Ready(t) => (s', t)
    case MustFetch => (FinishFetch(s', w.fetched), w.fetched)
    case MustWait => (s', w.waited)
    case Broken => (s', "")
  }

  /** The shared token as the others have left it. */
  function Seen(s: Loop, shared: Option<TokenState>): Loop {
    if shared.Some? then s.(shared := shared.value) else s
  }

  /** The token for the coming attempt; `Break` when the caller is gone. */
  function Obtain(cfg: Config, s: Loop, w: World): Move {
    if s.token != "" then Again(s)
    else
      var (shared', t) := if cfg.route.Shared? then Get(s.shared, w) else (s.shared, w.fetched);
      var s1 := s.(shared := shared');
      if t == "" && w.callerGone then Break(s1.(lastError := Some(CallerGone)))
      else if t == "" then Again(s1.(lastError := Some(NoToken), first := if cfg.route.Shared? then s.first else true))
      else Again(s1.(token := t, first := true))
  }

  function Pause(s: Loop, w: World): Move {
    if w.sleepOk then Again(s) else Break(s)
  }

  function OnError(cfg: Config, s: Loop, err: AttemptError, w: World): Move {
    match err
    case WarmupRejected =>
      if s.first then Pause(s.(first := false), w) else OnStaleToken(cfg, s, err, w)
    case TokenRejected => OnStaleToken(cfg, s, err, w)
    case OtherAuth(_) => OnRetryable(cfg, s, err, w)
    case RateLimited(_) =>
      var s1 := s.(lastError := Some(OfAttempt(err)));
      if s.content || s.attempt >= cfg.maxRetries then Break(s1)
      else if !w.sessionOk then Return(s1.(out := s.out + [Err(NoSession)]))
      else Pause(s1.(attempt := s.attempt + 1), w)
    case Upstream(_, final) =>
      if final then Break(s.(lastError := Some(OfAttempt(err)))) else OnRetryable(cfg, s, err, w)
    case Foreign(_) => Break(s.(lastError := Some(OfAttempt(err))))
  }

  function OnRetryable(cfg: Config, s: Loop, err: AttemptError, w: World): Move {
    var s1 := s.(lastError := Some(OfAttempt(err)));
    if s.content || s.attempt >= cfg.maxRetries then Break(s1)
    else Pause(s1.(attempt := s.attempt + 1), w)
  }

  function OnStaleToken(cfg: Config, s: Loop, err: AttemptError, w: World): Move {
    if cfg.route.NoRoute? then OnRetryable(cfg, s, err, w)
    else if s.content then Break(s.(lastError := Some(OfAttempt(err))))
    else if cfg.route.raceOwnsToken then Break(s.(lastError := Some(MarkedInvalid(s.token))))
    else
      var (shared', inv) := Invalidate(s.shared, s.token);
      if inv.Exhausted? then Break(s.(shared := shared', lastError := Some(TokenSpent)))
      else Again(s.(shared := shared', token := "", first := true, lastError := Some(OfAttempt(err))))
  }

  /** What the attempt adds: nothing until it shows content, then every frame it emits. */
  function Emit(s: Loop, frames: seq<Frame>): Loop {
    if s.content || HasContent(frames)
    then s.(content := true, out := s.out + DataOf(frames))
    else s
  }

  /** Right after an attempt. */
  function Tried(s: Loop, w: World): Loop {
    Seen(Emit(s, w.attempt.frames).(tries := s.tries + [Try(w.attempt, s.first, s.token)]), w.meanwhile)
  }

  /** What the end of the attempt leads to. */
  function AfterTry(cfg: Config, s: Loop, w: World): Move {
    match w.attempt.err
    case Some(err) => OnError(cfg, s, err, w)
    case None =>
      if !HasContent(w.attempt.frames) && s.first then Pause(s.(first := false), w) else Return(s)
  }

  function Turn(cfg: Config, s: Loop, w: World): Move {
    match Obtain(cfg, Seen(s, w.found), w)
    case Break(s1) => Break(s1)
    case Return(s1) => Return(s1)
    case Again(s1) =>
      if s1.token == "" then
        if s1.attempt == cfg.maxRetries
          then Break(s1.(lastError := if s1.lastError.None? then Some(NoToken) else s1.lastError))
        else Pause(s1.(attempt := s1.attempt + 1), w)
      else
        AfterTry(cfg, Tried(s1, w), w)
  }

  /** With the token held by this loop alone, the private copy is the shared one. */
  ghost predicate Alone(cfg: Config, s: Loop) {
    && s.shared.refreshes <= s.shared.Limit()
    && !s.shared.refreshing
    && (cfg.route.Shared? && s.token != "" ==> s.shared.token == s.token)
  }

  /** Refreshes left, retries left, and what is left of the token's first evaluation. */
  function Refreshes(s: Loop): int {
    s.shared.Limit() - s.shared.refreshes
  }

  function Freshness(s: Loop): nat {
    if s.token == "" then 2 else if s.first then 1 else 0
  }

  ghost predicate Less(cfg: Config, s: Loop, s': Loop) {
    || Refreshes(s') < Refreshes(s)
    || (Refreshes(s') == Refreshes(s) && s'.attempt > s.attempt)
    || (Refreshes(s') == Refreshes(s) && s'.attempt == s.attempt && Freshness(s') < Freshness(s))
  }

  /** Nobody else works on the token during the turn. */
  predicate Undisturbed(w: World) {
    w.found.None? && w.meanwhile.None?
  }

  ghost predicate Exclusive(env: nat -> World) {
    forall i :: Undisturbed(env(i))
  }

  /** Whatever the others do, getting a token shows nothing, and leaves an error when there is none. */
  lemma ObtainShowsNothing(cfg: Config, s: Loop, w: World)
    ensures var s1 := Obtain(cfg, s, w).s;
            && !Obtain(cfg, s, w).Return? && s1.attempt == s.attempt
            && s1.content == s.content && s1.out == s.out && s1.tries == s.tries
            && (s1.token == "" ==> s1.lastError.Some?)
            && (s.token != "" ==> Obtain(cfg, s, w) == Again(s))
  {
  }

  lemma ObtainKeeps(cfg: Config, s: Loop, w: World)
    requires Alone(cfg, s)
    ensures var s1 := Obtain(cfg, s, w).s;
            && Alone(cfg, s1) && Refreshes(s1) == Refreshes(s)
            && Freshness(s1) <= Freshness(s)
            && (s.token == "" && s1.token != "" ==> Freshness(s1) < Freshness(s))
  {
  }

  lemma OnErrorAdvances(cfg: Config, s: Loop, err: AttemptError, w: World)
    requires Alone(cfg, s) && s.token != ""
    ensures var m := OnError(cfg, s, err, w); m.Again? ==> Alone(cfg, m.s) && Less(cfg, s, m.s)
  {
  }

  lemma TurnAdvances(cfg: Config, s: Loop, w: World)
    requires Alone(cfg, s) && Undisturbed(w)
    ensures var m := Turn(cfg, s, w); m.Again? ==> Alone(cfg, m.s) && Less(cfg, s, m.s)
  {
    hide Obtain;
    ObtainKeeps(cfg, s, w);
    ObtainShowsNothing(cfg, s, w);
    var s1 := Obtain(cfg, s, w).s;
    if s1.token != "" && w.attempt.err.Some? {
      OnErrorAdvances(cfg, Tried(s1, w), w.attempt.err.value, w);
    }
  }

  // ---------------------------------------------------------------- the whole loop

  /** The closing step: an error goes out only if no content did. */
  function Close(s: Loop, callerGone: bool): Loop {
    if s.content || s.lastError.None? then s
    else s.(out := s.out + [Err(if callerGone then CallerGone else s.lastError.value)])
  }

  /** The loop from turn `i` on.  That this function is defined is the termination result: every
    * turn that goes round again spends a refresh, a retry or the first evaluation of a token. */
  ghost function Run(cfg: Config, s: Loop, env: nat -> World, i: nat, callerGone: bool): Loop
    requires Alone(cfg, s) && Exclusive(env)
    decreases Refreshes(s), cfg.maxRetries + 1 - s.attempt, Freshness(s)
  {
    if s.attempt > cfg.maxRetries then Close(s, callerGone)
    else
      assert Undisturbed(env(i));
      TurnAdvances(cfg, s, env(i));
      match Turn(cfg, s, env(i))
      case Again(s') => Run(cfg, s', env, i + 1, callerGone)
      case Break(s') => Close(s', callerGone)
      case Return(s') => s'
  }

  /** The loop entered with a usable session and the outcome of a first `get`. */
  function Begin(shared: TokenState, token: string): Loop {
    Loop(shared, token, true, 0, false, None, [], [])
  }

  // ---------------------------------------------------------------- which frames get out

  /** Nothing shown yet; or one attempt shown, refused as a warm-up, and about to be repeated. */
  ghost predicate Shown(s: Loop) {
    if !s.content then s.out == [] && forall t :: t in s.tries ==> !HasContent(t.attempt.frames)
    else
      && s.tries != [] && !s.first && s.token != ""
      && s.out == DataOf(Last(s).attempt.frames)
      && HasContent(Last(s).attempt.frames) && Last(s).first && Last(s).attempt.err == Some(WarmupRejected)
      && forall t :: t in s.tries[..|s.tries| - 1] ==> !HasContent(t.attempt.frames)
  }

  function Last(s: Loop): Try
    requires s.tries != []
  {
    s.tries[|s.tries| - 1]
  }

  /** The attempt before the last showed content, was refused as a warm-up on the token's first
    * evaluation, and was repeated all the same. */
  ghost predicate Repeated(s: Loop) {
    && |s.tries| >= 2
    && HasContent(s.tries[|s.tries| - 2].attempt.frames)
    && s.tries[|s.tries| - 2].first
    && s.tries[|s.tries| - 2].attempt.err == Some(WarmupRejected)
  }

  /** All that can have reached the consumer when the loop is over. */
  ghost predicate Settled(s: Loop) {
    if Repeated(s) then
      && s.out == DataOf(s.tries[|s.tries| - 2].attempt.frames) + DataOf(Last(s).attempt.frames)
      && forall t :: t in s.tries[..|s.tries| - 2] ==> !HasContent(t.attempt.frames)
    else if s.tries != [] && HasContent(Last(s).attempt.frames) then
      s.out == DataOf(Last(s).attempt.frames)
    else
      s.out == [] || (|s.out| == 1 && s.out[0].Err?)
  }

  /** No attempt so far has shown content, and nothing has been given to the consumer. */
  ghost predicate Quiet(s: Loop) {
    !s.content && s.out == [] && forall t :: t in s.tries ==> !HasContent(t.attempt.frames)
  }

  lemma QuietIsSettled(s: Loop, out: seq<Chunk>)
    requires Quiet(s) && (out == [] || (|out| == 1 && out[0].Err?))
    ensures Settled(s.(out := out))
  {
    assert |s.tries| >= 2 ==> s.tries[|s.tries| - 2] in s.tries;
    assert s.tries != [] ==> Last(s) in s.tries;
  }

  /** How a turn may leave the loop: quiet, or with all there is to show. */
  ghost predicate TurnOk(m: Move) {
    match m
    case Again(s) => Shown(s)
    case Break(s) => Quiet(s) || (s.content && Settled(s))
    case Return(s) => Settled(s)
  }

  /** State right after an attempt: quiet, showing the last attempt, or showing the last two. */
  ghost predicate JustTried(s: Loop) {
    && s.tries != [] && s.token != ""
    && (if s.content then
          || (Repeated(s) && !s.first && Settled(s))
          || (!Repeated(s) && HasContent(Last(s).attempt.frames) && Last(s).first == s.first &&
              s.out == DataOf(Last(s).attempt.frames) &&
              forall t :: t in s.tries[..|s.tries| - 1] ==> !HasContent(t.attempt.frames))
        else Quiet(s) && Last(s).first == s.first)
  }

  lemma TryShows(s: Loop, w: World)
    requires Shown(s) && s.token != ""
    ensures JustTried(Tried(s, w))
  {
    var s2 := Tried(s, w);
    assert s2.tries[..|s2.tries| - 1] == s.tries;
    assert [] + DataOf(w.attempt.frames) == DataOf(w.attempt.frames);
    if s.content {
      assert s2.tries[..|s2.tries| - 2] == s.tries[..|s.tries| - 1];
    } else {
      assert |s2.tries| >= 2 ==> s2.tries[|s2.tries| - 2] in s.tries;
    }
  }

  lemma ErrorShows(cfg: Config, s: Loop, err: AttemptError, w: World)
    requires JustTried(s) && Last(s).attempt.err == Some(err)
    ensures TurnOk(OnError(cfg, s, err, w))
  {
    hide HasContent, DataOf;
    if !s.content {
      QuietIsSettled(s, s.out);
      QuietIsSettled(s, s.out + [Err(NoSession)]);
    }
  }

  /** What has been shown stands in order after every turn, whatever others do with the token. */
  lemma TurnShows(cfg: Config, s: Loop, w: World)
    requires Shown(s)
    ensures TurnOk(Turn(cfg, s, w))
  {
    hide Obtain;
    var s0 := Seen(s, w.found);
    ObtainShowsNothing(cfg, s0, w);
    var s1 := Obtain(cfg, s0, w).s;
    assert Shown(s1);
    if s1.token != "" {
      TryShows(s1, w);
      var s2 := Tried(s1, w);
      if w.attempt.err.Some? {
        ErrorShows(cfg, s2, w.attempt.err.value, w);
      } else if !s2.content {
        QuietIsSettled(s2, s2.out);
      }
    }
  }

  lemma CloseSettles(s: Loop, callerGone: bool)
    requires Quiet(s)
    ensures Settled(Close(s, callerGone))
  {
    QuietIsSettled(s, Close(s, callerGone).out);
    assert s.(out := Close(s, callerGone).out) == Close(s, callerGone);
  }

  /** What the consumer has been given comes from one attempt, whole and in order; or it is one
    * error, or nothing. */
  ghost predicate FromOneAttempt(s: Loop) {
    || s.out == []
    || (|s.out| == 1 && s.out[0].Err?)
    || (exists k :: 0 <= k < |s.tries| && s.out == DataOf(s.tries[k].attempt.frames))
  }

  /** On its log: frames are mixed exactly if an attempt was repeated and its repetition emitted
    * anything at all. */
  lemma MixedIsRepeated(r: Loop)
    requires Settled(r)
    ensures FromOneAttempt(r) <==> !(Repeated(r) && Last(r).attempt.frames != [])
  {
    if Repeated(r) {
      var a, b := r.tries[|r.tries| - 2].attempt.frames, Last(r).attempt.frames;
      if b == [] {
        assert r.out == DataOf(a);
      } else {
        forall k | 0 <= k < |r.tries| ensures r.out != DataOf(r.tries[k].attempt.frames) {
          var c := r.tries[k].attempt.frames;
          if k < |r.tries| - 2 {
            assert r.tries[..|r.tries| - 2][k] == r.tries[k];
            var j :| 0 <= j < |a| && a[j].valid;
            assert r.out[j] == Data(a[j]);
            assert |c| > j ==> !c[j].valid && DataOf(c)[j] == Data(c[j]);
          }
        }
        assert r.out[0] == Data(a[0]);
      }
    } else if r.tries != [] && HasContent(Last(r).attempt.frames) {
      assert r.out == DataOf(r.tries[|r.tries| - 1].attempt.frames);
    }
  }

  // ---------------------------------------------------------------- any number of turns, any interference

  /** The loop after some turns: still going, or over. */
  datatype Stage = Going(s: Loop) | Over(s: Loop)

  function After(m: Move, callerGone: bool): Stage {
    match m
    case Again(s) => Going(s)
    case Break(s) => Over(Close(s, callerGone))
    case Return(s) => Over(s)
  }

  /** The first n turns, whatever others do with the token before and during each of them. */
  function Prefix(cfg: Config, s: Loop, env: nat -> World, callerGone: bool, n: nat): Stage {
    if n == 0 then Going(s)
    else
      var stage := Prefix(cfg, s, env, callerGone, n - 1);
      if stage.Over? then stage
      else if stage.s.attempt > cfg.maxRetries then Over(Close(stage.s, callerGone))
      else After(Turn(cfg, stage.s, env(n - 1)), callerGone)
  }

  /** An attempt is made with a token on its first evaluation. */
  predicate FirstEvaluation(cfg: Config, s: Loop, w: World) {
    var m := Obtain(cfg, Seen(s, w.found), w);
    m.Again? && m.s.token != "" && m.s.first
  }

  /** The answer shows content and is a warm-up refusal nevertheless. */
  predicate RefusesAfterContent(w: World) {
    HasContent(w.attempt.frames) && w.attempt.err == Some(WarmupRejected)
  }

  /** In this turn content is shown and refused on a first evaluation, and the pause is not cut short. */
  predicate Repeats(cfg: Config, s: Loop, w: World) {
    s.attempt <= cfg.maxRetries && FirstEvaluation(cfg, s, w) && RefusesAfterContent(w) && w.sleepOk
  }

  /** That happens in turn i, and the answer of the next turn, which is among the first n, has a frame. */
  predicate MixesAt(cfg: Config, s: Loop, env: nat -> World, callerGone: bool, n: nat, i: nat) {
    var stage := Prefix(cfg, s, env, callerGone, i);
    i + 2 <= n && stage.Going? && Repeats(cfg, stage.s, env(i)) && env(i + 1).attempt.frames != []
  }

  ghost predicate Mixes(cfg: Config, s: Loop, env: nat -> World, callerGone: bool, n: nat) {
    exists i: nat :: MixesAt(cfg, s, env, callerGone, n, i)
  }

  lemma ErrorMoves(cfg: Config, s: Loop, err: AttemptError, w: World)
    ensures var m, again := OnError(cfg, s, err, w), s.first && err == WarmupRejected && w.sleepOk;
            && m.s.tries == s.tries && m.s.content == s.content
            && (again ==> m == Again(s.(first := false)))
            && (s.content && !again ==> !m.Again?)
  {
  }

  /** A turn before any content: an attempt refused after content goes round again, any other content
    * ends the loop. */
  lemma QuietTurn(cfg: Config, s: Loop, w: World)
    requires Shown(s) && !s.content && s.attempt <= cfg.maxRetries
    ensures var m := Turn(cfg, s, w);
            && (Repeats(cfg, s, w) ==> m.Again? && m.s.content && m.s.attempt == s.attempt)
            && (!Repeats(cfg, s, w) && m.Again? ==> !m.s.content)
            && (!m.Again? ==> !Repeated(m.s))
  {
    hide HasContent, DataOf, OnError, Obtain;
    var s0 := Seen(s, w.found);
    var s1 := Obtain(cfg, s0, w).s;
    ObtainShowsNothing(cfg, s0, w);
    assert Shown(s1) && !s1.content && s1.tries == s.tries;
    assert forall t :: t in s.tries ==> !HasContent(t.attempt.frames);
    if s1.token != "" {
      var tries := s1.tries + [Try(w.attempt, s1.first, s1.token)];
      assert |tries| >= 2 ==> tries[|tries| - 2] in s.tries;
      if w.attempt.err.Some? {
        ErrorMoves(cfg, Tried(s1, w), w.attempt.err.value, w);
      }
    } else {
      assert |s.tries| >= 2 ==> s.tries[|s.tries| - 2] in s.tries;
    }
  }

  /** The repetition after content is the last turn. */
  lemma LastTurn(cfg: Config, s: Loop, w: World)
    requires Shown(s) && s.content
    ensures var m := Turn(cfg, s, w);
            && !m.Again? && m.s.content && Repeated(m.s) && Last(m.s).attempt == w.attempt
            && !Repeats(cfg, s, w)
  {
    hide HasContent, DataOf;
    var tries := s.tries + [Try(w.attempt, s.first, s.token)];
    assert tries[|tries| - 2] == Last(s);
  }

  lemma CloseKeepsTries(s: Loop, callerGone: bool)
    ensures Close(s, callerGone).tries == s.tries
    ensures s.content ==> Close(s, callerGone) == s
  {
  }

  /** Where the loop stands after n turns: what is shown is in order, content is up for repetition only if
    * the last turn repeats, and the log tells whether frames were mixed. */
  ghost predicate Stands(cfg: Config, s: Loop, env: nat -> World, callerGone: bool, n: nat) {
    var stage := Prefix(cfg, s, env, callerGone, n);
    if stage.Going? then
      && Shown(stage.s) && !Mixes(cfg, s, env, callerGone, n)
      && (stage.s.content <==> n > 0 && RepeatsAt(cfg, s, env, callerGone, n - 1))
      && (stage.s.content ==> stage.s.attempt <= cfg.maxRetries)
    else
      && n > 0 && !RepeatsAt(cfg, s, env, callerGone, n - 1) && Settled(stage.s)
      && (Mixes(cfg, s, env, callerGone, n) <==> Repeated(stage.s) && Last(stage.s).attempt.frames != [])
  }

  predicate RepeatsAt(cfg: Config, s: Loop, env: nat -> World, callerGone: bool, i: nat) {
    var stage := Prefix(cfg, s, env, callerGone, i);
    stage.Going? && Repeats(cfg, stage.s, env(i))
  }

  lemma MixesSnoc(cfg: Config, s: Loop, env: nat -> World, callerGone: bool, n: nat)
    ensures Mixes(cfg, s, env, callerGone, n + 1) <==>
            || Mixes(cfg, s, env, callerGone, n)
            || (n > 0 && RepeatsAt(cfg, s, env, callerGone, n - 1) && env(n).attempt.frames != [])
  {
    hide Prefix, Repeats;
    if Mixes(cfg, s, env, callerGone, n) {
      var i: nat :| MixesAt(cfg, s, env, callerGone, n, i);
      assert MixesAt(cfg, s, env, callerGone, n + 1, i);
    }
    if Mixes(cfg, s, env, callerGone, n + 1) {
      var i: nat :| MixesAt(cfg, s, env, callerGone, n + 1, i);
      assert i + 2 <= n ==> MixesAt(cfg, s, env, callerGone, n, i);
    }
    if n > 0 && RepeatsAt(cfg, s, env, callerGone, n - 1) && env(n).attempt.frames != [] {
      assert MixesAt(cfg, s, env, callerGone, n + 1, n - 1);
    }
  }

  /** After the loop is over nothing repeats. */
  lemma OverRepeatsNothing(cfg: Config, s: Loop, env: nat -> World, callerGone: bool, n: nat)
    ensures Prefix(cfg, s, env, callerGone, n).Over? ==> !RepeatsAt(cfg, s, env, callerGone, n)
  {
  }

  /** One turn from a stage that stands. */
  lemma StageStep(cfg: Config, s: Loop, w: World, callerGone: bool)
    requires Shown(s) && s.attempt <= cfg.maxRetries
    ensures var stage := After(Turn(cfg, s, w), callerGone);
            if s.content then
              && stage.Over? && Settled(stage.s) && Repeated(stage.s) && Last(stage.s).attempt == w.attempt
              && !Repeats(cfg, s, w)
            else if stage.Going? then
              && Shown(stage.s) && (stage.s.content <==> Repeats(cfg, s, w))
              && (stage.s.content ==> stage.s.attempt <= cfg.maxRetries)
            else Settled(stage.s) && !Repeated(stage.s) && !Repeats(cfg, s, w)
  {
    hide Turn, HasContent, DataOf, Repeats;
    TurnShows(cfg, s, w);
    var m := Turn(cfg, s, w);
    CloseKeepsTries(m.s, callerGone);
    if s.content {
      LastTurn(cfg, s, w);
    } else {
      QuietTurn(cfg, s, w);
      if m.Break? && Quiet(m.s) {
        CloseSettles(m.s, callerGone);
      }
    }
  }

  /** Without a turn left and without content. */
  lemma StageEnds(s: Loop, callerGone: bool)
    requires Shown(s) && !s.content
    ensures Settled(Close(s, callerGone)) && !Repeated(Close(s, callerGone))
  {
    hide HasContent, DataOf;
    CloseSettles(s, callerGone);
    CloseKeepsTries(s, callerGone);
    assert |s.tries| >= 2 ==> s.tries[|s.tries| - 2] in s.tries;
  }

  lemma NoTurns(cfg: Config, s: Loop, env: nat -> World, callerGone: bool)
    ensures !Mixes(cfg, s, env, callerGone, 0)
  {
  }

  lemma {:induction false} PrefixStands(cfg: Config, s: Loop, env: nat -> World, callerGone: bool, n: nat)
    requires Shown(s) && !s.content
    ensures Stands(cfg, s, env, callerGone, n)
    decreases n
  {
    hide Turn, Repeats, Mixes, Settled, Shown, Repeated, Close, After;
    if n == 0 {
      NoTurns(cfg, s, env, callerGone);
    } else {
      PrefixStands(cfg, s, env, callerGone, n - 1);
      MixesSnoc(cfg, s, env, callerGone, n - 1);
      OverRepeatsNothing(cfg, s, env, callerGone, n - 1);
      var stage := Prefix(cfg, s, env, callerGone, n - 1);
      if stage.Going? {
        if stage.s.attempt > cfg.maxRetries {
          StageEnds(stage.s, callerGone);
          LateRepeatsNothing(cfg, stage.s, env(n - 1));
        } else {
          StageStep(cfg, stage.s, env(n - 1), callerGone);
        }
      }
    }
  }

  lemma LateRepeatsNothing(cfg: Config, s: Loop, w: World)
    requires s.attempt > cfg.maxRetries
    ensures !Repeats(cfg, s, w)
  {
  }

  lemma BeginsShown(shared: TokenState, token: string)
    ensures Shown(Begin(shared, token)) && !Begin(shared, token).content
  {
  }

  lemma ShownIsOneAttempt(s: Loop)
    requires Shown(s)
    ensures FromOneAttempt(s)
  {
    if s.content {
      assert s.out == DataOf(s.tries[|s.tries| - 1].attempt.frames);
    }
  }

  /** After any number of turns, and whatever others do with the shared token in the meantime: what the
    * consumer has been given comes from one attempt, is one error, or nothing, if and only if in none of
    * the turns content was shown, refused as a warm-up on a token's first evaluation, and repeated with a
    * frame. */
  lemma AttemptsMixOnlyAfterWarmup(cfg: Config, shared: TokenState, token: string, env: nat -> World, callerGone: bool,
                                   n: nat)
    ensures FromOneAttempt(Prefix(cfg, Begin(shared, token), env, callerGone, n).s) <==>
            !Mixes(cfg, Begin(shared, token), env, callerGone, n)
  {
    hide Prefix, Mixes, Shown, Settled, Repeated, FromOneAttempt, RepeatsAt;
    BeginsShown(shared, token);
    PrefixStands(cfg, Begin(shared, token), env, callerGone, n);
    var stage := Prefix(cfg, Begin(shared, token), env, callerGone, n);
    if stage.Going? {
      ShownIsOneAttempt(stage.s);
    } else {
      MixedIsRepeated(stage.s);
    }
  }

  /** As long as upstream never refuses an attempt as a warm-up after content, the consumer is given one
    * attempt, one error, or nothing. */
  lemma OneAttemptWithoutLateRefusal(cfg: Config, shared: TokenState, token: string, env: nat -> World,
                                     callerGone: bool, n: nat)
    requires forall i :: !RefusesAfterContent(env(i))
    ensures FromOneAttempt(Prefix(cfg, Begin(shared, token), env, callerGone, n).s)
  {
    hide Prefix, RefusesAfterContent, FromOneAttempt;
    AttemptsMixOnlyAfterWarmup(cfg, shared, token, env, callerGone, n);
  }

  /** An error is never added to content, and content never to an error: whoever is given an error is given
    * nothing else, after any number of turns and whatever others do with the token. */
  lemma ErrorsStandAlone(cfg: Config, shared: TokenState, token: string, env: nat -> World, callerGone: bool, n: nat,
                         i: nat)
    requires var out := Prefix(cfg, Begin(shared, token), env, callerGone, n).s.out; i < |out| && out[i].Err?
    ensures |Prefix(cfg, Begin(shared, token), env, callerGone, n).s.out| == 1
  {
    hide Prefix, Mixes, RepeatsAt;
    BeginsShown(shared, token);
    PrefixStands(cfg, Begin(shared, token), env, callerGone, n);
  }

  /** The loop with the token to itself is one of these, at its end. */
  lemma {:induction false} RunIsPrefix(cfg: Config, start: Loop, s: Loop, env: nat -> World, i: nat, callerGone: bool)
    returns (n: nat)
    requires Alone(cfg, s) && Exclusive(env) && Prefix(cfg, start, env, callerGone, i) == Going(s)
    ensures Prefix(cfg, start, env, callerGone, n) == Over(Run(cfg, s, env, i, callerGone))
    decreases Refreshes(s), cfg.maxRetries + 1 - s.attempt, Freshness(s)
  {
    hide Turn, Close;
    n := i + 1;
    if s.attempt <= cfg.maxRetries {
      assert Undisturbed(env(i));
      TurnAdvances(cfg, s, env(i));
      var m := Turn(cfg, s, env(i));
      if m.Again? {
        n := RunIsPrefix(cfg, start, m.s, env, i + 1, callerGone);
      }
    }
  }

  // ---------------------------------------------------------------- when the loop goes on

  ghost predicate ContentIn(tries: seq<Try>) {
    exists i :: 0 <= i < |tries| && HasContent(tries[i].attempt.frames)
  }

  /** Refused as a warm-up on the first evaluation of the token. */
  predicate Warms(t: Try) {
    t.first && t.attempt.err == Some(WarmupRejected)
  }

  /** Neither content nor an error on the first evaluation. */
  predicate Silent(t: Try) {
    t.first && t.attempt.err.None? && !HasContent(t.attempt.frames)
  }

  predicate Refused(t: Try) {
    t.attempt.err == Some(TokenRejected) || (t.attempt.err == Some(WarmupRejected) && !t.first)
  }

  /** An error that a retry may cure; after a rate limit only in a new session. */
  predicate Curable(cfg: Config, t: Try, w: World) {
    match t.attempt.err
    case Some(OtherAuth(_)) => true
    case Some(TokenRejected) => cfg.route.NoRoute?
    case Some(WarmupRejected) => Refused(t) && cfg.route.NoRoute?
    case Some(RateLimited(_)) => w.sessionOk
    case Some(Upstream(_, final)) => !final
    case _ => false
  }

  /** The shared token when the answer has come. */
  function SharedThen(cfg: Config, s: Loop, w: World): TokenState {
    if w.meanwhile.Some? then w.meanwhile.value else Obtain(cfg, Seen(s, w.found), w).s.shared
  }

  /** The shared token may be refreshed on behalf of this loop, or was already. */
  predicate Granted(cfg: Config, s: Loop, t: Try, w: World) {
    cfg.route == Shared(false) && !Invalidate(SharedThen(cfg, s, w), t.token).1.Exhausted?
  }

  /** After this attempt there is to be another one, or a try to get a token for it. */
  ghost predicate Due(cfg: Config, s: Loop, tries: seq<Try>, w: World)
    requires tries != []
  {
    var t := tries[|tries| - 1];
    if Warms(t) || Silent(t) then w.sleepOk
    else
      && !ContentIn(tries)
      && ((Refused(t) && Granted(cfg, s, t, w)) || (Curable(cfg, t, w) && s.attempt < cfg.maxRetries && w.sleepOk))
  }

  /** The token the next attempt is made with, "" if it is to be had first. */
  ghost function Kept(cfg: Config, token0: string, tries: seq<Try>): string {
    if tries == [] then token0
    else if Refused(tries[|tries| - 1]) && cfg.route == Shared(false) then ""
    else tries[|tries| - 1].token
  }

  /** That attempt is the first with its token. */
  ghost predicate Fresh(cfg: Config, token0: string, tries: seq<Try>) {
    if Kept(cfg, token0, tries) == "" || tries == [] then true
    else !Warms(tries[|tries| - 1]) && !Silent(tries[|tries| - 1]) && tries[|tries| - 1].first
  }

  /** The state of a loop that goes on is what its attempts say. */
  ghost predicate Follows(cfg: Config, token0: string, s: Loop) {
    && s.token == Kept(cfg, token0, s.tries)
    && (s.token != "" ==> s.first == Fresh(cfg, token0, s.tries))
    && (s.content <==> ContentIn(s.tries))
    && s.attempt <= cfg.maxRetries
    && (s.tries == [] ==> s.out == [])
  }

  /** The error the consumer is told when the loop ends after an attempt without content, if there is one. */
  function ToTell(cfg: Config, s: Loop, t: Try, w: World): Option<Error> {
    if Warms(t) || Silent(t) then s.lastError
    else if t.attempt.err.None? then None
    else if Refused(t) && cfg.route == Shared(true) then Some(MarkedInvalid(t.token))
    else if Refused(t) && cfg.route == Shared(false) then Some(TokenSpent)
    else Some(OfAttempt(t.attempt.err.value))
  }

  /** As the consumer sees it. */
  function Errors(error: Option<Error>, callerGone: bool): seq<Chunk> {
    if error.None? then [] else [Err(if callerGone then CallerGone else error.value)]
  }

  /** What comes after it is no retry. */
  predicate Uncounted(cfg: Config, t: Try) {
    Warms(t) || Silent(t) || (Refused(t) && cfg.route.Shared?)
  }

  /** A rate limit that would be retried, but for the new session. */
  predicate Stranded(cfg: Config, s: Loop, t: Try, w: World) {
    t.attempt.err.Some? && t.attempt.err.value.RateLimited? && s.attempt < cfg.maxRetries && !w.sessionOk
  }

  /** What getting a token gives. */
  function Got(cfg: Config, s: Loop, w: World): string {
    if cfg.route.Shared? then Get(Seen(s, w.found).shared, w).1 else w.fetched
  }

  /** The attempt made in this turn: with the token at hand, or the first one with a new token. */
  function Made(cfg: Config, s: Loop, w: World): Try {
    if s.token != "" then Try(w.attempt, s.first, s.token) else Try(w.attempt, true, Got(cfg, s, w))
  }

  /** A turn in which attempt `t` is made. */
  ghost predicate Attempted(cfg: Config, s: Loop, w: World, callerGone: bool, stage: Stage, t: Try) {
    var tries := s.tries + [t];
    var data := if ContentIn(tries) then DataOf(t.attempt.frames) else [];
    && stage.s.tries == tries
    && (stage.Going? <==> Due(cfg, s, tries, w))
    && (stage.Going? ==>
          && stage.s.out == s.out + data
          && stage.s.attempt == s.attempt + (if Uncounted(cfg, t) then 0 else 1)
          && stage.s.lastError == if Warms(t) || Silent(t) then s.lastError else Some(OfAttempt(t.attempt.err.value)))
    && (stage.Over? ==>
          stage.s.out == s.out + data +
            (if ContentIn(tries) then []
             else if Stranded(cfg, s, t, w) then [Err(NoSession)]
             else Errors(ToTell(cfg, s, t, w), callerGone)))
  }

  /** A turn in which no token was to be had. */
  ghost predicate Tokenless(cfg: Config, s: Loop, w: World, callerGone: bool, stage: Stage) {
    && stage.s.tries == s.tries
    && (stage.Going? <==> !w.callerGone && s.attempt < cfg.maxRetries && w.sleepOk)
    && (stage.Going? ==>
          stage.s.out == s.out && stage.s.attempt == s.attempt + 1 && stage.s.lastError == Some(NoToken))
    && (stage.Over? && !ContentIn(s.tries) ==>
          stage.s.out == s.out + Errors(Some(if w.callerGone then CallerGone else NoToken), callerGone))
  }

  /** One turn of the loop. */
  ghost predicate TurnOf(cfg: Config, s: Loop, w: World, callerGone: bool, stage: Stage) {
    if s.token != "" || Got(cfg, s, w) != "" then Attempted(cfg, s, w, callerGone, stage, Made(cfg, s, w))
    else Tokenless(cfg, s, w, callerGone, stage)
  }

  lemma ContentSnoc(tries: seq<Try>, t: Try)
    ensures ContentIn(tries + [t]) <==> ContentIn(tries) || HasContent(t.attempt.frames)
  {
    hide HasContent;
    var all := tries + [t];
    assert all[|tries|] == t && forall i :: 0 <= i < |tries| ==> all[i] == tries[i];
  }

  /** The loop right after the attempt. */
  ghost predicate JustMade(cfg: Config, s: Loop, w: World, s2: Loop) {
    var t := Made(cfg, s, w);
    && s2.tries == s.tries + [t]
    && s2.token == t.token != "" && s2.first == t.first && t.attempt == w.attempt
    && (s2.content <==> ContentIn(s2.tries))
    && s2.out == s.out + (if s2.content then DataOf(w.attempt.frames) else [])
    && s2.attempt == s.attempt && s2.lastError == s.lastError && s2.shared == SharedThen(cfg, s, w)
  }

  lemma AttemptIsMade(cfg: Config, token0: string, s: Loop, w: World)
    requires Follows(cfg, token0, s) && (s.token != "" || Got(cfg, s, w) != "")
    ensures var m := Obtain(cfg, Seen(s, w.found), w);
            m.Again? && m.s.token != "" && JustMade(cfg, s, w, Tried(m.s, w))
  {
    hide HasContent, DataOf, ContentIn, Get, Kept, Fresh;
    ContentSnoc(s.tries, Made(cfg, s, w));
    assert s.out + [] == s.out;
  }

  /** The turn is as described, and if the loop goes on its state is what its attempts say. */
  ghost predicate Leads(cfg: Config, token0: string, s: Loop, w: World, stage: Stage, callerGone: bool) {
    Attempted(cfg, s, w, callerGone, stage, Made(cfg, s, w)) && (stage.Going? ==> Follows(cfg, token0, stage.s))
  }

  /** A first evaluation refused, or answered by nothing. */
  lemma FirstLeads(cfg: Config, token0: string, s: Loop, w: World, s2: Loop, callerGone: bool)
    requires JustMade(cfg, s, w, s2) && s.attempt <= cfg.maxRetries
    requires Warms(Made(cfg, s, w)) || Silent(Made(cfg, s, w))
    ensures Leads(cfg, token0, s, w, After(AfterTry(cfg, s2, w), callerGone), callerGone)
  {
    hide HasContent, DataOf, ContentIn, Get, Got, SharedThen, Obtain, OnStaleToken, OnRetryable;
    var t := Made(cfg, s, w);
    assert s2.tries[|s2.tries| - 1] == t && s2.tries != [];
    assert s2.out + [] == s2.out;
  }

  lemma CleanLeads(cfg: Config, token0: string, s: Loop, w: World, s2: Loop, callerGone: bool)
    requires JustMade(cfg, s, w, s2) && s.attempt <= cfg.maxRetries
    requires w.attempt.err.None? && !Silent(Made(cfg, s, w))
    ensures Leads(cfg, token0, s, w, After(AfterTry(cfg, s2, w), callerGone), callerGone)
  {
    hide HasContent, DataOf, ContentIn, Get, Got, SharedThen, Obtain, OnError;
    var t := Made(cfg, s, w);
    assert s2.tries[|s2.tries| - 1] == t && s2.tries != [];
    assert s2.out + [] == s2.out;
  }

  /** A stale token. */
  lemma RefusedLeads(cfg: Config, token0: string, s: Loop, w: World, s2: Loop, callerGone: bool)
    requires JustMade(cfg, s, w, s2) && s.attempt <= cfg.maxRetries
    requires Refused(Made(cfg, s, w))
    ensures Leads(cfg, token0, s, w, After(AfterTry(cfg, s2, w), callerGone), callerGone)
  {
    hide HasContent, DataOf, ContentIn, Get, Got, SharedThen, Obtain;
    var t := Made(cfg, s, w);
    assert s2.tries[|s2.tries| - 1] == t && s2.tries != [];
    assert s2.out + [] == s2.out;
  }

  /** Any other error. */
  lemma FailedLeads(cfg: Config, token0: string, s: Loop, w: World, s2: Loop, callerGone: bool)
    requires JustMade(cfg, s, w, s2) && s.attempt <= cfg.maxRetries
    requires w.attempt.err.Some? && !Warms(Made(cfg, s, w)) && !Refused(Made(cfg, s, w))
    ensures Leads(cfg, token0, s, w, After(AfterTry(cfg, s2, w), callerGone), callerGone)
  {
    hide HasContent, DataOf, ContentIn, Get, Got, SharedThen, Obtain, OnStaleToken;
    var t := Made(cfg, s, w);
    assert s2.tries[|s2.tries| - 1] == t && s2.tries != [];
    assert s2.out + [] == s2.out;
  }

  lemma AttemptLeads(cfg: Config, token0: string, s: Loop, w: World, s2: Loop, callerGone: bool)
    requires JustMade(cfg, s, w, s2) && s.attempt <= cfg.maxRetries
    ensures Leads(cfg, token0, s, w, After(AfterTry(cfg, s2, w), callerGone), callerGone)
  {
    hide Leads, JustMade, AfterTry, After;
    var t := Made(cfg, s, w);
    if Warms(t) || Silent(t) {
      FirstLeads(cfg, token0, s, w, s2, callerGone);
    } else if w.attempt.err.None? {
      CleanLeads(cfg, token0, s, w, s2, callerGone);
    } else if Refused(t) {
      RefusedLeads(cfg, token0, s, w, s2, callerGone);
    } else {
      FailedLeads(cfg, token0, s, w, s2, callerGone);
    }
  }

  lemma NoTokenLeads(cfg: Config, token0: string, s: Loop, w: World, callerGone: bool)
    requires Follows(cfg, token0, s) && s.token == "" && Got(cfg, s, w) == ""
    ensures var stage := After(Turn(cfg, s, w), callerGone);
            Tokenless(cfg, s, w, callerGone, stage) && (stage.Going? ==> Follows(cfg, token0, stage.s))
  {
    hide HasContent, DataOf, ContentIn, Get, AfterTry, Kept, Fresh;
    assert s.out + [] == s.out;
  }

  lemma TurnGoesOn(cfg: Config, token0: string, s: Loop, w: World, callerGone: bool)
    requires Follows(cfg, token0, s)
    ensures var stage := After(Turn(cfg, s, w), callerGone);
            TurnOf(cfg, s, w, callerGone, stage) && (stage.Going? ==> Follows(cfg, token0, stage.s))
  {
    hide Attempted, Tokenless, Obtain, AfterTry, Tried, JustMade, Got, Follows;
    FollowsFits(cfg, token0, s);
    if s.token != "" || Got(cfg, s, w) != "" {
      AttemptIsMade(cfg, token0, s, w);
      AttemptLeads(cfg, token0, s, w, Tried(Obtain(cfg, Seen(s, w.found), w).s, w), callerGone);
    } else {
      NoTokenLeads(cfg, token0, s, w, callerGone);
    }
  }

  lemma FollowsFits(cfg: Config, token0: string, s: Loop)
    requires Follows(cfg, token0, s)
    ensures s.attempt <= cfg.maxRetries
  {
  }

  lemma BeginFollows(cfg: Config, shared: TokenState, token: string)
    ensures Follows(cfg, token, Begin(shared, token))
  {
  }

  /** When the loop goes on and when it is over, whatever upstream answers and whatever others do with the
    * shared token.  An attempt is followed by another one, or a try to get a token for it, exactly
    * after a warm-up refusal or silence on a first evaluation; after a stale token that this loop may
    * refresh, without content so far; and after an error a retry may cure, without content and with
    * retries left.  Except for the refresh, the pause must not be cut short.  Otherwise the consumer is told
    * the error that ended the loop, unless it has content. */
  lemma {:induction false} RetriesAreMadeWhenDue(cfg: Config, shared: TokenState, token: string, env: nat -> World,
                                                 callerGone: bool, n: nat)
    ensures var before := Prefix(cfg, Begin(shared, token), env, callerGone, n);
            var after := Prefix(cfg, Begin(shared, token), env, callerGone, n + 1);
            if before.Over? then after == before
            else Follows(cfg, token, before.s) && TurnOf(cfg, before.s, env(n), callerGone, after)
    ensures var after := Prefix(cfg, Begin(shared, token), env, callerGone, n + 1);
            after.Going? ==> Follows(cfg, token, after.s)
    decreases n
  {
    hide Turn, After, TurnOf, Follows, Begin;
    if n == 0 {
      BeginFollows(cfg, shared, token);
    } else {
      RetriesAreMadeWhenDue(cfg, shared, token, env, callerGone, n - 1);
    }
    var before := Prefix(cfg, Begin(shared, token), env, callerGone, n);
    if before.Going? {
      FollowsFits(cfg, token, before.s);
      TurnGoesOn(cfg, token, before.s, env(n), callerGone);
    }
  }

  /** The mixing does happen: two attempts of one content frame each, the first refused as a
    * warm-up after its content, and the consumer is given both frames. */
  lemma WarmupAfterContentMixes()
    ensures var a, b := Frame(1, true), Frame(2, true);
            var env: nat -> World := (i: nat) =>
              World(None, None, "t", "", false,
                if i == 0 then Attempt([a], Some(WarmupRejected)) else Attempt([b], None), true, true);
            var shared := SetLimit(FRESH_STATE, 0).(token := "t");
            Run(Config(0, Shared(true)), Begin(shared, "t"), env, 0, false).out == [Data(a), Data(b)]
  {
    var a, b := Frame(1, true), Frame(2, true);
    var env: nat -> World := (i: nat) =>
      World(None, None, "t", "", false,
        if i == 0 then Attempt([a], Some(WarmupRejected)) else Attempt([b], None), true, true);
    var shared := SetLimit(FRESH_STATE, 0).(token := "t");
    var cfg := Config(0, Shared(true));
    var s0 := Begin(shared, "t");
    assert [a][0].valid && [b][0].valid;
    assert HasContent([a]) && HasContent([b]);
    var s1 := Turn(cfg, s0, env(0)).s;
    assert Turn(cfg, s0, env(0)).Again? && s1.out == [Data(a)] && s1.content && !s1.first && s1.token == "t";
    var s2 := Turn(cfg, s1, env(1)).s;
    assert Turn(cfg, s1, env(1)).Return? && s2.out == [Data(a), Data(b)];
    assert Run(cfg, s1, env, 1, false) == s2;
  }

  // ---------------------------------------------------------------- the loop as it runs

  /** The emit callback over one attempt: frames without content wait until content shows. */
  method EmitFrames(frames: seq<Frame>, content0: bool, out0: seq<Chunk>)
    returns (content: bool, out: seq<Chunk>, validChunkCount: nat)
    ensures content == (content0 || HasContent(frames))
    ensures out == if content then out0 + DataOf(frames) else out0
    ensures validChunkCount == 0 <==> !HasContent(frames)
  {
    content, out, validChunkCount := content0, out0, 0;
    var pending: seq<Frame> := [];
    for i := 0 to |frames|
      invariant content == (content0 || exists j :: 0 <= j < i && frames[j].valid)
      invariant validChunkCount == 0 <==> forall j :: 0 <= j < i ==> !frames[j].valid
      invariant content ==> pending == [] && out == out0 + DataOf(frames[..i])
      invariant !content ==> pending == frames[..i] && out == out0
    {
      assert DataOf(frames[..i + 1]) == DataOf(frames[..i]) + [Data(frames[i])];
      if frames[i].valid {
        ghost var before := out;
        for j := 0 to |pending|
          invariant out == before + DataOf(pending[..j])
        {
          assert DataOf(pending[..j + 1]) == DataOf(pending[..j]) + [Data(pending[j])];
          out := out + [Data(pending[j])];
        }
        assert pending[..|pending|] == pending;
        pending := [];
        validChunkCount := validChunkCount + 1;
        content := true;
        out := out + [Data(frames[i])];
      } else if content {
        out := out + [Data(frames[i])];
      } else {
        pending := pending + [frames[i]];
      }
    }
    assert frames[..|frames|] == frames;
  }

  /** How a turn of the loop ends: `continue`, `break retryLoop` or `return`. */
  datatype Signal = GoOn | Leave | Done

  function Signalled(m: Move): Signal {
    match m
    case Again(_) => GoOn
    case Break(_) => Leave
    case Return(_) => Done
  }

  /** The variables of the loop. */
  class Retrier {
    const cfg: Config
    var shared: TokenState
    var token: string
    var isFirstAuth: bool
    var attempt: nat
    var contentYielded: bool
    var lastError: Option<Error>
    var out: seq<Chunk>
    ghost var tries: seq<Try>

    ghost function View(): Loop
      reads this
    {
      Loop(shared, token, isFirstAuth, attempt, contentYielded, lastError, out, tries)
    }

    constructor (cfg: Config, shared: TokenState, token: string)
      ensures View() == Begin(shared, token) && this.cfg == cfg
    {
      this.cfg, this.shared, this.token := cfg, shared, token;
      isFirstAuth, attempt, contentYielded, lastError := true, 0, false, None;
      out, tries := [], [];
    }

    /** Lines that fetch the token for the coming attempt, when none is at hand. */
    method ObtainToken(w: World) returns (signal: Signal)
      requires token == ""
      modifies this
      ensures signal == Signalled(Obtain(cfg, old(View()), w)) && View() == Obtain(cfg, old(View()), w).s
    {
      signal := GoOn;
      var got := w.fetched;
      if cfg.route.Shared? {
        var (begun, g) := BeginGet(shared);
        shared := begun;
        match g {
          case Ready(t) => got := t;
          case MustFetch => shared := FinishFetch(shared, w.fetched);
          case MustWait => got := w.waited;
          case Broken => got := "";
        }
      }
      if got == "" && w.callerGone {
        lastError := Some(CallerGone);
        return Leave;
      }
      if got == "" {
        lastError := Some(NoToken);
        if cfg.route.NoRoute? {
          isFirstAuth := true;
        }
      } else {
        token := got;
        isFirstAuth := true;
      }
    }

    /** The switch over the error an attempt ended with. */
    method HandleError(err: AttemptError, w: World) returns (signal: Signal)
      modifies this
      ensures signal == Signalled(OnError(cfg, old(View()), err, w)) && View() == OnError(cfg, old(View()), err, w).s
    {
      if err.WarmupRejected? && isFirstAuth {
        isFirstAuth := false;
        return if w.sleepOk then GoOn else Leave;
      }
      lastError := Some(OfAttempt(err));
      if (err.WarmupRejected? || err.TokenRejected?) && cfg.route.Shared? {
        if contentYielded {
          return Leave;
        }
        if cfg.route.raceOwnsToken {
          lastError := Some(MarkedInvalid(token));
          return Leave;
        }
        var (invalidated, result) := Invalidate(shared, token);
        shared := invalidated;
        if result.Exhausted? {
          lastError := Some(TokenSpent);
          return Leave;
        }
        token := "";
        isFirstAuth := true;
        return GoOn;
      }
      if err.Foreign? || (err.Upstream? && err.final) || contentYielded || attempt >= cfg.maxRetries {
        return Leave;
      }
      if err.RateLimited? && !w.sessionOk {
        out := out + [Err(NoSession)];
        return Done;
      }
      attempt := attempt + 1;
      return if w.sleepOk then GoOn else Leave;
    }

    /** One attempt with the token at hand, whose outcome is `w.attempt`. */
    method MakeAttempt(w: World) returns (signal: Signal)
      modifies this
      ensures signal == Signalled(AfterTry(cfg, Tried(old(View()), w), w))
      ensures View() == AfterTry(cfg, Tried(old(View()), w), w).s
    {
      hide OnError, HasContent, DataOf;
      var validChunkCount;
      contentYielded, out, validChunkCount := EmitFrames(w.attempt.frames, contentYielded, out);
      tries := tries + [Try(w.attempt, isFirstAuth, token)];
      if w.meanwhile.Some? {
        shared := w.meanwhile.value;
      }
      assert View() == Tried(old(View()), w);
      if w.attempt.err.None? {
        if validChunkCount == 0 && isFirstAuth {
          isFirstAuth := false;
          return if w.sleepOk then GoOn else Leave;
        }
        return Done;
      }
      signal := HandleError(w.attempt.err.value, w);
    }

    /** The body of the loop. */
    method TakeTurn(w: World) returns (signal: Signal)
      modifies this
      ensures signal == Signalled(Turn(cfg, old(View()), w)) && View() == Turn(cfg, old(View()), w).s
    {
      hide AfterTry, Tried, Obtain;
      if w.found.Some? {
        shared := w.found.value;
      }
      ghost var found := View();
      assert found == Seen(old(View()), w.found);
      ObtainShowsNothing(cfg, found, w);
      if token == "" {
        signal := ObtainToken(w);
        if signal == Leave {
          return;
        }
      }
      assert Obtain(cfg, found, w) == Again(View());
      if token == "" {
        if attempt == cfg.maxRetries {
          if lastError.None? {
            assert false;  // a token that cannot be had has left its error
          }
          return Leave;
        }
        attempt := attempt + 1;
        return if w.sleepOk then GoOn else Leave;
      }
      signal := MakeAttempt(w);
    }
  }

  /** The retry loop, ended by the same measure as `Run` and producing the same chunks. */
  method ExecuteStreamingWithRetries(cfg: Config, shared0: TokenState, token0: string, env: nat -> World,
                                     callerGone: bool)
    returns (out: seq<Chunk>, shared: TokenState)
    requires Alone(cfg, Begin(shared0, token0)) && Exclusive(env)
    ensures var r := Run(cfg, Begin(shared0, token0), env, 0, callerGone);
            out == r.out && shared == r.shared
  {
    hide Turn;
    var loop := new Retrier(cfg, shared0, token0);
    var i: nat := 0;
    while loop.attempt <= cfg.maxRetries
      invariant fresh(loop) && loop.cfg == cfg && Alone(cfg, loop.View())
      invariant Run(cfg, loop.View(), env, i, callerGone) == Run(cfg, Begin(shared0, token0), env, 0, callerGone)
      decreases Refreshes(loop.View()), cfg.maxRetries + 1 - loop.attempt, Freshness(loop.View())
    {
      assert Undisturbed(env(i));
      TurnAdvances(cfg, loop.View(), env(i));
      var signal := loop.TakeTurn(env(i));
      i := i + 1;
      if signal == Leave {
        break;
      }
      if signal == Done {
        return loop.out, loop.shared;
      }
    }
    if !loop.contentYielded && loop.lastError.Some? {
      loop.out := loop.out + [Err(if callerGone then CallerGone else loop.lastError.value)];
    }
    return loop.out, loop.shared;
  }
}
