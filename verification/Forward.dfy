/** Forwarding one request: attempts over distinct exits, and at most one answer to the client. */
module Forward {
  import opened Common
  import opened Cooldown
  import opened ExitSlots
  import Rp = ResponsesRepair
  import Rs = ResponsesStream
  import Chat = ChatStream

  datatype Provider = OpenCode | Cline | TokenRouter

  datatype Config = Config(provider: Provider, maxRetries: int, base: nat, max: nat, streamFailure: nat,
    freeModelsOnly: bool)

  datatype Path = Models | ChatCompletions | Responses | OtherPath

  datatype Request = Request(path: Path, model: string, streaming: bool, deadline: nat)

  /** Reading a whole body: it came, it broke off, or it was cut at the limit. */
  datatype Buffered = Whole(data: string) | Truncated | TooLarge(data: string)

  /** What upstream answers to an attempt, in every form in which it might be read. */
  datatype Reply =
    | Unreachable
    | Reply(status: nat, retryAfter: nat, body: Buffered, emptyInference: bool,
            id: string, frames: seq<Rp.Frame>, lines: seq<Chat.Line>, end: Rs.ReadEnd)

  /** One attempt as the world decides it. */
  datatype Exchange = Exchange(canceled: bool, buildable: bool, elapsed: nat, reply: Reply)

  datatype StreamBody = Events(out: seq<Rp.Out>) | Lines(sent: seq<Chat.Sent>)

  /** What the client is sent. */
  datatype Answer =
    | Refusal(status: nat)
    | Data(attempt: nat, status: nat, data: string)
    | Stream(attempt: nat, status: nat, body: StreamBody)

  // ---------------------------------------------------------------- what one exchange comes to

  predicate Success(status: nat) {
    200 <= status < 300
  }

  /** Limits of these providers belong to one exit, not to the account. */
  predicate LimitsPerExit(c: Config) {
    c.provider == OpenCode || c.provider == Cline
  }

  predicate Filtered(c: Config, q: Request, r: Reply) {
    r.Reply? && c.freeModelsOnly && q.path == Models && r.status == 200
  }

  /** Did the stream show anything before it ended? */
  predicate Shown(q: Request, r: Reply)
    requires r.Reply?
  {
    if q.path == Responses then Rs.AnyOutput(r.frames) else Chat.Shows(r.lines)
  }

  ghost function RepairedBody(q: Request, r: Reply): StreamBody
    requires r.Reply?
  {
    if q.path == Responses then Events(if r.frames == [] then [] else Rp.Output(Rp.NewState(r.id), r.frames))
    else Lines(Chat.Repaired(r.lines))
  }

  /** Exchanges after which another exit may be tried: nothing of them can have reached the client. */
  predicate Retryable(c: Config, q: Request, r: Reply) {
    if r.Unreachable? then true
    else if r.status == 429 then LimitsPerExit(c)
    else if r.status >= 500 then !r.body.Whole? || !(c.provider == Cline && r.emptyInference)
    else if Filtered(c, q, r) then false
    else if !q.streaming then r.body.Truncated?
    else Success(r.status) && !Shown(q, r)
  }

  /** What the client gets from the exchange that ends the request. */
  ghost function Delivered(c: Config, q: Request, r: Reply, attempt: nat): Answer {
    if r.Unreachable? then Refusal(502)
    else if r.status == 429 then Stream(attempt, 429, RepairedBody(q, r))
    else if r.status >= 500 then (if r.body.Whole? then Data(attempt, r.status, r.body.data) else Refusal(502))
    else if Filtered(c, q, r) then (if r.body.Truncated? then Refusal(502) else Data(attempt, r.status, r.body.data))
    else if !q.streaming then (if r.body.Whole? then Data(attempt, r.status, r.body.data) else Refusal(502))
    else if Success(r.status) && !Shown(q, r) then Refusal(502)
    else Stream(attempt, r.status, RepairedBody(q, r))
  }

  /** A client that was answered from a retryable exchange got a whole error body or a refusal. */
  lemma RetryableShowsNothing(c: Config, q: Request, r: Reply, attempt: nat)
    requires Retryable(c, q, r)
    ensures var a := Delivered(c, q, r, attempt);
            a == Refusal(502) || (!a.Refusal? && (a.status == 429 || a.status >= 500))
  {
    hide RepairedBody, Shown;
  }

  // ---------------------------------------------------------------- what an exit is held to account for

  /** How reading the body of a stream went: to its end; to a failure upstream reports itself; it broke off;
    * or nothing to show came in time or at all. */
  datatype Flow = Sound | Reported | Broken | Empty

  predicate Delayed(q: Request, r: Reply)
    requires r.Reply?
  {
    q.streaming && Success(r.status)
  }

  function FlowOf(q: Request, r: Reply): Flow
    requires r.Reply?
  {
    if r.end == Rs.FirstOutputTimeout then Empty
    else if r.end == Rs.ReadError then Broken
    else if Delayed(q, r) && !Shown(q, r) then Empty
    else if q.path == Responses && (Rs.AnyKind(r.frames, Rp.Failed) || Rs.AnyKind(r.frames, Rp.Incomplete))
    then Reported
    else if !Delayed(q, r) then Sound
    else if (if q.path == Responses then Rs.AnyKind(r.frames, Rp.Completed) else Chat.Ends(r.lines)) then Sound
    else Broken
  }

  /** What an exit is marked with: it is cleared of everything; or it pauses, for all models, for the one
    * asked for, or both, and for no less than the minimum. */
  datatype Mark = Unmarked | Cleared | Paused(minimum: nat) | ModelPaused(minimum: nat) | BothPaused(minimum: nat)

  /** A body that broke off. */
  function FailureMark(model: string, minimum: nat): Mark {
    if model != "" then BothPaused(minimum) else Paused(minimum)
  }

  /** For the status, or for not answering at all. */
  function StatusMark(c: Config, q: Request, r: Reply): Mark {
    if r.Unreachable? then Paused(0)
    else if r.status == 429 then
      if LimitsPerExit(c) then BothPaused(r.retryAfter)
      else if q.model == "" then Unmarked
      else ModelPaused(if r.retryAfter == 0 then c.max else r.retryAfter)
    else if r.status >= 500 && r.body.Whole? && !(c.provider == Cline && r.emptyInference) then Paused(r.retryAfter)
    else Unmarked
  }

  /** For the body, as far as it is read; that of a rate limit is read only to answer with it. */
  function BodyMark(c: Config, q: Request, r: Reply, answered: bool): Mark {
    if r.Unreachable? then Unmarked
    else if r.status == 429 then (if answered then FlowMark(c, q, r) else Unmarked)
    else if r.status >= 500 then
      if r.body.Truncated? then FailureMark(q.model, 0)
      else if r.body.Whole? && c.provider == Cline && r.emptyInference then Cleared
      else Unmarked
    else if Filtered(c, q, r) then (if r.body.Truncated? then FailureMark(q.model, 0) else Cleared)
    else if !q.streaming then
      (match r.body
       case Whole(_) => Cleared
       case Truncated => FailureMark(q.model, 0)
       case TooLarge(_) => Unmarked)
    else FlowMark(c, q, r)
  }

  function FlowMark(c: Config, q: Request, r: Reply): Mark
    requires r.Reply?
  {
    match FlowOf(q, r)
    case Sound => if r.status != 429 && r.status < 500 then Cleared else Unmarked
    case Reported => Unmarked
    case Broken => FailureMark(q.model, 0)
    case Empty => FailureMark(q.model, c.streamFailure)
  }

  /** The request is reported as failed, although it was answered. */
  predicate Fails(c: Config, q: Request, r: Reply) {
    r.Reply? &&
    if r.status == 429 then FlowOf(q, r) != Sound
    else if r.status >= 500 then !r.body.Whole?
    else if Filtered(c, q, r) then r.body.Truncated?
    else if !q.streaming then !r.body.Whole?
    else FlowOf(q, r) != Sound
  }

  /** The exit does not serve for a while. */
  predicate Pausing(m: Mark) {
    m.Paused? || m.BothPaused?
  }

  /** What is tried elsewhere is held against the exit, but for an error body beyond the limit; and what is held
    * against it is tried elsewhere, unless it was a list of models or part of an answer has been shown. */
  lemma BlamedIsRetried(c: Config, q: Request, r: Reply)
    requires r.Reply? ==> !r.body.TooLarge?
    ensures Retryable(c, q, r) ==> Pausing(StatusMark(c, q, r)) || Pausing(BodyMark(c, q, r, false))
    ensures (Pausing(StatusMark(c, q, r)) || Pausing(BodyMark(c, q, r, false))) && !Filtered(c, q, r) &&
            (r.Reply? && q.streaming && r.status < 500 && r.status != 429 ==> Success(r.status) && !Shown(q, r)) ==>
              Retryable(c, q, r)
  {
    hide Shown, Rs.AnyKind, Chat.Ends;
    if r.Reply? {
      UnshownIsEmpty(q, r);
    }
  }

  /** A limit of an account pauses the model everywhere and is passed on; a limit of an exit pauses that exit
    * alone, for at least the time asked, and is tried elsewhere. */
  lemma RateLimits(c: Config, q: Request, r: Reply)
    requires r.Reply? && r.status == 429
    ensures c.provider == TokenRouter ==>
              && !Retryable(c, q, r) && OtherMark(c, q, r) == StatusMark(c, q, r)
              && (q.model != "" && r.retryAfter > 0 ==> OtherMark(c, q, r) == ModelPaused(r.retryAfter))
              && (q.model != "" && r.retryAfter == 0 ==> OtherMark(c, q, r) == ModelPaused(c.max))
    ensures c.provider == OpenCode || c.provider == Cline ==>
              Retryable(c, q, r) && OtherMark(c, q, r) == Unmarked && StatusMark(c, q, r) == BothPaused(r.retryAfter)
  {
  }

  /** What is remembered of an exit; of the models, those still cooling. */
  datatype Memory = Memory(fails: nat, until: nat, models: Table)

  ghost function MemoryOf(s: ProxySlot, now: nat): Memory
    reads s
  {
    Memory(s.fails, s.until, Live(s.modelCooldowns, now))
  }

  ghost predicate Pauses(c: Config, now: nat, before: Memory, after: Memory, minimum: nat) {
    && after.fails == before.fails + 1
    && exists jitter: nat :: jitter <= Backoff(after.fails, c.base, c.max) / 5 &&
         after.until == now + Pause(after.fails, c.base, c.max, minimum, jitter)
  }

  ghost predicate ModelPauses(c: Config, model: string, now: nat, before: Table, after: Table, minimum: nat) {
    exists op: Op :: op.Hit? && HitBy(c, model, now, before, after, minimum, op)
  }

  ghost predicate HitBy(c: Config, model: string, now: nat, before: Table, after: Table, minimum: nat, op: Op)
    requires op.Hit?
  {
    && op == Hit(model, now, now, c.base, c.max, minimum, op.jitter, op.victim)
    && MayEvict(before, op) && op.jitter <= Backoff(CountAt(before, op), c.base, c.max) / 5
    && after == Live(AfterHit(before, op), now)
  }

  ghost predicate Marked(c: Config, model: string, now: nat, before: Memory, after: Memory, mark: Mark) {
    match mark
    case Unmarked => after == before
    case Cleared => after == Memory(0, 0, before.models - {model})
    case Paused(minimum) => Pauses(c, now, before, after, minimum) && after.models == before.models
    case ModelPaused(minimum) =>
      && after.fails == before.fails && after.until == before.until
      && ModelPauses(c, model, now, before.models, after.models, minimum)
    case BothPaused(minimum) =>
      && Pauses(c, now, before, after, minimum)
      && ModelPauses(c, model, now, before.models, after.models, minimum)
  }

  lemma HitIsPause(c: Config, model: string, now: nat, t: Table, minimum: nat, op: Op)
    requires op.Hit? && op == Hit(model, now, now, c.base, c.max, minimum, op.jitter, op.victim)
    requires MayEvict(t, op) && op.jitter <= Backoff(CountAt(t, op), c.base, c.max) / 5
    ensures ModelPauses(c, model, now, Live(t, now), Live(AfterHit(t, op), now), minimum)
  {
    hide Live, Pause, Backoff, AfterHit;
    LiveTwice(t, now);
    LiveHit(t, Live(t, now), op);
    assert CountAt(t, op) == CountAt(Live(t, now), op);
    assert HitBy(c, model, now, Live(t, now), Live(AfterHit(t, op), now), minimum, op);
  }

  lemma LiveTwice(t: Table, now: nat)
    ensures Live(Live(t, now), now) == Live(t, now)
  {
  }

  // ---------------------------------------------------------------- one attempt

  /** Marks an exit that is to pause. */
  method PauseSlot(c: Config, slot: ProxySlot, model: string, minimum: nat, now: nat)
    modifies slot`fails, slot`until, slot`modelCooldowns
    ensures Marked(c, model, now, old(MemoryOf(slot, now)), MemoryOf(slot, now), BothPaused(minimum))
  {
    hide Live, Pause, Backoff, AfterHit, ProxySlot.ReadyAt, MayEvict, CountAt, ModelPauses;
    var d, jitter := slot.Cooldown(c.base, c.max, minimum, now);
    ghost var t := slot.modelCooldowns;
    var p, op := slot.CooldownModel(model, c.base, c.max, minimum, now, now);
    HitIsPause(c, model, now, t, minimum, op);
  }

  /** Cools the exit after a broken body, and moves on to another one. */
  method HandleUpstreamBodyFailure(g: Gateway, c: Config, slot: ProxySlot, model: string, transport: bool,
                                   noOutput: bool, now: nat)
    requires slot in g.slots
    modifies g`active, Elems(g.slots)`fails, Elems(g.slots)`until, Elems(g.slots)`modelCooldowns
    ensures Marked(c, model, now, old(MemoryOf(slot, now)), MemoryOf(slot, now),
                   if transport then FailureMark(model, if noOutput then c.streamFailure else 0) else Unmarked)
    ensures !transport ==> g.active == old(g.active)
    ensures forall s :: s in g.slots && (s != slot || !transport) ==> MemoryOf(s, now) == old(MemoryOf(s, now))
  {
    hide Live, Pause, Backoff, IsSelection, Views, ProxySlot.ReadyAt, ModelPauses;
    if !transport {
      return;
    }
    var minimum := if noOutput then c.streamFailure else 0;
    if model != "" {
      PauseSlot(c, slot, model, minimum, now);
    } else {
      var d, jitter := slot.Cooldown(c.base, c.max, minimum, now);
    }
    var next, wait := g.SelectSlotExcluding(model, {slot.Identity()}, now);
  }

  /** A limit of the account: the model pauses on every exit. */
  method CooldownModelAllSlots(g: Gateway, c: Config, model: string, retryAfter: nat, now: nat)
    modifies Elems(g.slots)`modelCooldowns
    ensures model == "" || AllDifferent(g.slots) ==> forall s :: s in g.slots ==>
              Marked(c, model, now, old(MemoryOf(s, now)), MemoryOf(s, now),
                     if model == "" then Unmarked else ModelPaused(if retryAfter == 0 then c.max else retryAfter))
  {
    hide Live, Pause, Backoff, AfterHit, ProxySlot.ReadyAt, MayEvict, CountAt, ModelPauses;
    if model == "" {
      return;
    }
    var minimum := if retryAfter == 0 then c.max else retryAfter;
    for i := 0 to |g.slots|
      invariant AllDifferent(g.slots) ==> forall j :: i <= j < |g.slots| ==>
                  g.slots[j].modelCooldowns == old(g.slots[j].modelCooldowns)
      invariant AllDifferent(g.slots) ==> forall j :: 0 <= j < i ==>
                  ModelPauses(c, model, now, old(Live(g.slots[j].modelCooldowns, now)),
                              Live(g.slots[j].modelCooldowns, now), minimum)
    {
      ghost var t := g.slots[i].modelCooldowns;
      var d, op := g.slots[i].CooldownModel(model, c.base, c.max, minimum, now, now);
      HitIsPause(c, model, now, t, minimum, op);
    }
  }

  ghost predicate AnyUntried(slots: seq<ProxySlot>, tried: set<string>)
    reads slots
  {
    exists s :: s in slots && Untried(s, tried)
  }

  method MayRetry(g: Gateway, c: Config, model: string, attempt: nat, tried: set<string>, now: nat)
    returns (retry: bool)
    modifies Elems(g.slots)`modelCooldowns
    ensures retry <==> attempt < c.maxRetries && AnyUntried(g.slots, tried)
    ensures forall s :: s in g.slots ==> MemoryOf(s, now) == old(MemoryOf(s, now))
  {
    hide Live, ProxySlot.ReadyAt;
    if attempt >= c.maxRetries {
      return false;
    }
    retry := g.HasUntriedSlot(model, tried, now);
  }

  /** How an attempt leaves the request: answered, or to be tried elsewhere. */
  ghost predicate Settles(c: Config, q: Request, r: Reply, attempt: nat, more: bool, answer: Option<Answer>) {
    if answer.None? then Retryable(c, q, r) && more
    else answer.value == Delivered(c, q, r, attempt) && (Retryable(c, q, r) ==> !more)
  }

  /** What all other exits are marked with: nothing, unless the limit is one of the account. */
  function OtherMark(c: Config, q: Request, r: Reply): Mark {
    if r.Reply? && r.status == 429 && !LimitsPerExit(c) then StatusMark(c, q, r) else Unmarked
  }

  method ClearSlot(slot: ProxySlot, model: string, now: nat)
    modifies slot`fails, slot`until, slot`modelCooldowns
    ensures MemoryOf(slot, now) == Memory(0, 0, old(MemoryOf(slot, now)).models - {model})
  {
    LiveClear(slot.modelCooldowns, model, now);
    slot.Success(model);
  }

  /** One exchange ends the request, or it is tried elsewhere.  Its exit is marked for the status and for the
    * body, in this order, `mid` being what is remembered in between. */
  method Attempt(g: Gateway, c: Config, q: Request, slot: ProxySlot, r: Reply, attempt: nat, tried: set<string>,
                 now: nat)
    returns (answer: Option<Answer>, failed: bool, ghost mid: Memory)
    requires slot in g.slots
    modifies g`active, Elems(g.slots)`fails, Elems(g.slots)`until, Elems(g.slots)`modelCooldowns
    ensures Settles(c, q, r, attempt, attempt < c.maxRetries && AnyUntried(g.slots, tried), answer)
    ensures failed <==> answer.Some? && Fails(c, q, r)
    ensures OtherMark(c, q, r).Unmarked? || AllDifferent(g.slots) ==>
              && Marked(c, q.model, now, old(MemoryOf(slot, now)), mid, StatusMark(c, q, r))
              && Marked(c, q.model, now, mid, MemoryOf(slot, now), BodyMark(c, q, r, answer.Some?))
              && forall s :: s in g.slots && s != slot ==>
                   Marked(c, q.model, now, old(MemoryOf(s, now)), MemoryOf(s, now), OtherMark(c, q, r))
  {
    hide AnyUntried, Rp.Output, Chat.Repaired, Rs.AnyOutput, Chat.Shows, FlowOf;
    hide Live, Pause, Backoff, ModelPauses, ProxySlot.ReadyAt;
    failed := false;
    mid := MemoryOf(slot, now);
    if r.Unreachable? {
      var d, jitter := slot.Cooldown(c.base, c.max, 0, now);
      mid := MemoryOf(slot, now);
      var again := MayRetry(g, c, q.model, attempt, tried, now);
      return if again then None else Some(Refusal(502)), false, mid;
    }
    if r.status == 429 {
      if LimitsPerExit(c) {
        PauseSlot(c, slot, q.model, r.retryAfter, now);
        mid := MemoryOf(slot, now);
        var again := MayRetry(g, c, q.model, attempt, tried, now);
        if again {
          return None, false, mid;
        }
      } else {
        CooldownModelAllSlots(g, c, q.model, r.retryAfter, now);
        mid := MemoryOf(slot, now);
      }
    } else if r.status >= 500 {
      if !r.body.Whole? {
        HandleUpstreamBodyFailure(g, c, slot, q.model, r.body.Truncated?, false, now);
        var again := MayRetry(g, c, q.model, attempt, tried, now);
        return if again then None else Some(Refusal(502)), !again, mid;
      }
      if c.provider == Cline && r.emptyInference {
        ClearSlot(slot, q.model, now);
        return Some(Data(attempt, r.status, r.body.data)), false, mid;
      }
      var d, jitter := slot.Cooldown(c.base, c.max, r.retryAfter, now);
      mid := MemoryOf(slot, now);
      var again := MayRetry(g, c, q.model, attempt, tried, now);
      return if again then None else Some(Data(attempt, r.status, r.body.data)), false, mid;
    }
    if Filtered(c, q, r) {
      if r.body.Truncated? {
        HandleUpstreamBodyFailure(g, c, slot, q.model, true, false, now);
        return Some(Refusal(502)), true, mid;
      }
      ClearSlot(slot, q.model, now);
      return Some(Data(attempt, r.status, r.body.data)), false, mid;
    }
    if !q.streaming && r.status != 429 && r.status < 500 {
      if !r.body.Whole? {
        HandleUpstreamBodyFailure(g, c, slot, q.model, r.body.Truncated?, false, now);
        var again := MayRetry(g, c, q.model, attempt, tried, now);
        if again && r.body.Truncated? {
          return None, false, mid;
        }
        return Some(Refusal(502)), true, mid;
      }
      ClearSlot(slot, q.model, now);
      return Some(Data(attempt, r.status, r.body.data)), false, mid;
    }
    answer, failed := AttemptStream(g, c, q, slot, r, attempt, tried, now);
  }

  /** Copies the body of a stream; a successful one is committed only with its first output. */
  method CopyStreamResponse(q: Request, r: Reply) returns (body: StreamBody, committed: bool, flow: Flow)
    requires r.Reply?
    ensures flow == FlowOf(q, r)
    ensures Delayed(q, r) ==> committed == Shown(q, r)
    ensures committed || !Delayed(q, r) ==> body == RepairedBody(q, r)
  {
    hide Rp.Output, Rp.StateAfter, Chat.Repaired, Rs.AnyOutput, Chat.Shows, Chat.Ends, Rs.AnyKind;
    var delay := q.streaming && Success(r.status);
    if q.path == Responses {
      var written, done, err := Rs.CopyResponsesStream(r.id, r.frames, r.end, delay);
      NoFramesNoOutput(r.frames);
      body, committed := Events(written), done;
      if err.None? {
        flow := Sound;
      } else if err.value == Rs.TerminalFailure {
        flow := Reported;
      } else {
        flow := if err.value == Rs.StreamEmpty || err.value == Rs.TimedOut then Empty else Broken;
      }
    } else {
      var written, done, err := Chat.CopyChatStream(r.lines, r.end, delay);
      NoLinesNoShow(r.lines);
      body, committed := Lines(written), done;
      if err.None? {
        flow := Sound;
      } else {
        flow := if err.value == Chat.NothingShown || r.end == Rs.FirstOutputTimeout then Empty else Broken;
      }
    }
  }

  /** Copies the body of an attempt; a stream is committed only with its first output. */
  method AttemptStream(g: Gateway, c: Config, q: Request, slot: ProxySlot, r: Reply, attempt: nat,
                       tried: set<string>, now: nat)
    returns (answer: Option<Answer>, failed: bool)
    requires slot in g.slots && r.Reply?
    requires r.status == 429 || (r.status < 500 && q.streaming)
    modifies g`active, Elems(g.slots)`fails, Elems(g.slots)`until, Elems(g.slots)`modelCooldowns
    ensures answer.None? ==> Success(r.status) && !Shown(q, r) && attempt < c.maxRetries && AnyUntried(g.slots, tried)
    ensures answer.Some? ==>
              if Success(r.status) && !Shown(q, r)
              then answer.value == Refusal(502) && !(attempt < c.maxRetries && AnyUntried(g.slots, tried))
              else answer.value == Stream(attempt, r.status, RepairedBody(q, r))
    ensures AnyUntried(g.slots, tried) == old(AnyUntried(g.slots, tried))
    ensures failed <==> answer.Some? && FlowOf(q, r) != Sound
    ensures Marked(c, q.model, now, old(MemoryOf(slot, now)), MemoryOf(slot, now), FlowMark(c, q, r))
    ensures forall s :: s in g.slots && s != slot ==> MemoryOf(s, now) == old(MemoryOf(s, now))
  {
    hide Live, Pause, Backoff, ModelPauses, ProxySlot.ReadyAt, FlowOf, RepairedBody, Shown;
    var delay := q.streaming && Success(r.status);
    var body, committed, flow := CopyStreamResponse(q, r);
    if flow != Sound {
      HandleUpstreamBodyFailure(g, c, slot, q.model, flow != Reported, flow == Empty, now);
      var again := MayRetry(g, c, q.model, attempt, tried, now);
      UnshownIsEmpty(q, r);
      if delay && !committed && again {
        return None, false;
      }
      if delay && !committed {
        return Some(Refusal(502)), true;
      }
      return Some(Stream(attempt, r.status, body)), true;
    }
    UnshownIsEmpty(q, r);
    if r.status != 429 && r.status < 500 {
      ClearSlot(slot, q.model, now);
    }
    return Some(Stream(attempt, r.status, body)), false;
  }

  /** A successful stream that showed nothing did not come to its end. */
  lemma UnshownIsEmpty(q: Request, r: Reply)
    requires r.Reply?
    ensures Delayed(q, r) && !Shown(q, r) ==> FlowOf(q, r) == Empty || FlowOf(q, r) == Broken
  {
  }

  lemma NoFramesNoOutput(frames: seq<Rp.Frame>)
    ensures Rs.AnyOutput(frames) ==> frames != []
  {
  }

  lemma NoLinesNoShow(lines: seq<Chat.Line>)
    ensures lines == [] ==> Chat.Repaired(lines) == []
    ensures Chat.Shows(lines) ==> lines != []
  {
  }

  // ---------------------------------------------------------------- the whole request

  /** How a request ends: canceled or not sendable, without an exit in time, or answered by the
    * exchange of the last attempt. */
  datatype End = Stopped | Starved | Replied

  /** The attempts before the last came to nothing the client could have seen. */
  ghost predicate OnlyRetried(c: Config, q: Request, world: nat -> Exchange, n: nat) {
    forall a: nat :: a < n ==> Retryable(c, q, world(a).reply)
  }

  /** Every open slot is cooling, or there are no slots. */
  ghost predicate Cooling(views: seq<View>, now: nat) {
    views == [] ||
    ((exists k :: 0 <= k < |views| && views[k].From?) && forall k :: 0 <= k < |views| ==> !Now(views[k], now))
  }

  ghost predicate AllShut(views: seq<View>) {
    views != [] && forall k :: 0 <= k < |views| ==> views[k].Shut?
  }

  /** The status with which a request is refused before anything is sent: one provider does not wait for
    * cooling exits, the others do until the deadline. */
  ghost function RefusalOf(c: Config, views: seq<View>, now: nat, deadline: nat): Option<nat> {
    if c.provider == Cline && Cooling(views, now) then Some(429)
    else if AllShut(views) then Some(502)
    else if NoneInTime(views, now, deadline) then Some(504)
    else None
  }

  /** An exit of an identity not tried yet, as soon as one can be had, or the refusal to send. */
  method AcquireExit(g: Gateway, c: Config, q: Request, tried: set<string>, now: nat)
    returns (refusal: Option<Answer>, chosen: nat, at: nat)
    modifies g`active, Elems(g.slots)`modelCooldowns
    ensures at >= now
    ensures refusal.None? ==> chosen < |g.slots| && Untried(g.slots[chosen], tried)
    ensures var known := old(AllKnown(g.slots, tried));
            var views := ViewsIn(known, q.model, now);
            && refusal == (match RefusalOf(c, views, now, q.deadline)
                           case None => None
                           case Some(status) => Some(Refusal(status)))
            && (refusal.None? ==>
                  && IsMoment(views, now, at) && (at > now ==> at < q.deadline)
                  && IsSelection(ViewsIn(known, q.model, at), old(g.active) % |g.slots|, at, Some(chosen), 0))
            && (refusal.Some? ==> Alike(known, AllKnown(g.slots, tried), now))
    ensures (old(AnyUntried(g.slots, tried)) && refusal.Some?) ==> refusal.value.status != 502
  {
    hide IsSelection, Views, Live, ViewsIn, AllKnown, Alike, NoneInTime, IsMoment, ProxySlot.ReadyAt, Now;
    hide Cooling, AllShut;
    at, chosen := now, 0;
    ghost var known := AllKnown(g.slots, tried);
    ghost var start := if g.slots == [] then 0 else g.active % |g.slots|;
    ghost var first: Option<nat> := None;
    AlikeAtFirst(known, now);
    ShutIs(g.slots, tried, q.model, now);
    if c.provider == Cline {
      var idle, wait := g.TrySlot(q.model, tried, now, known);
      LookMeans(ViewsIn(known, q.model, now), start, now, idle, wait, q.deadline);
      if idle.None? && wait >= 0 {
        return Some(Refusal(429)), 0, now;
      }
      first := idle;
    }
    ghost var seen := AllKnown(g.slots, tried);
    AlikeViews(known, seen, q.model, now);
    var found, ready := g.WaitForSlotExcluding(q.model, tried, now, q.deadline);
    AlikeLater(known, seen, now, ready);
    AlikeViews(known, seen, q.model, ready);
    match found
    case Got(index) =>
      GotMeans(ViewsIn(known, q.model, now), now, ready, q.deadline);
      if first.Some? {
        SameSlot(ViewsIn(known, q.model, now), start, now, first.value, index, ready);
      }
      return None, index, ready;
    case NoneUntried =>
      AlikeTwice(known, seen, AllKnown(g.slots, tried), now);
      return Some(Refusal(502)), 0, ready;
    case TimedOut =>
      AlikeTwice(known, seen, AllKnown(g.slots, tried), now);
      return Some(Refusal(504)), 0, ready;
  }

  lemma ShutIs(slots: seq<ProxySlot>, tried: set<string>, model: string, now: nat)
    ensures AllShut(ViewsIn(AllKnown(slots, tried), model, now)) <==>
            slots != [] && forall s :: s in slots ==> !Untried(s, tried)
    ensures slots == [] ==> NoneInTime(ViewsIn(AllKnown(slots, tried), model, now), now, now)
  {
    hide Live, ViewsIn, AllKnown, Views, ProxySlot.ReadyAt;
    var views := ViewsIn(AllKnown(slots, tried), model, now);
    ViewsAreKnown(slots, model, tried, now);
    ViewsShut(slots, views, model, tried, now);
  }

  lemma LookMeans(views: seq<View>, start: nat, now: nat, slot: Option<nat>, wait: int, deadline: nat)
    requires IsSelection(views, start, now, slot, wait)
    ensures Cooling(views, now) <==> slot.None? && wait >= 0
    ensures slot.Some? ==> views != [] && !NoneInTime(views, now, deadline) && !AllShut(views)
    ensures slot.None? && wait < 0 ==> AllShut(views) && !NoneInTime(views, now, deadline)
  {
    hide Around;
    FirstTry(views, start, now, slot, wait, deadline);
    if slot.Some? {
      assert Now(views[slot.value], now);
    }
  }

  lemma GotMeans(views: seq<View>, now: nat, at: nat, deadline: nat)
    requires IsMoment(views, now, at)
    ensures !AllShut(views)
  {
  }

  /** The slot found at the first look is found again. */
  lemma SameSlot(views: seq<View>, start: nat, now: nat, first: nat, index: nat, at: nat)
    requires views != [] && IsSelection(views, start, now, Some(first), 0) && IsMoment(views, now, at)
    requires at == now ==> IsSelection(views, first % |views|, now, Some(index), 0)
    ensures at == now && index == first
  {
    assert Now(views[first], now);
    Wraps(first, |views|);
    assert Around(first, 0, |views|) == first;
    SelectionIsUnique(views, first, now, Some(first), 0, Some(index), 0);
  }

  lemma AlikeTwice(a: seq<Known>, b: seq<Known>, d: seq<Known>, now: nat)
    requires Alike(a, b, now) && Alike(b, d, now)
    ensures Alike(a, d, now)
  {
  }

  lemma RetriedMore(c: Config, q: Request, world: nat -> Exchange, n: nat)
    requires OnlyRetried(c, q, world, n) && Retryable(c, q, world(n).reply)
    ensures OnlyRetried(c, q, world, n + 1)
  {
  }

  /** Forwards a request.  `world(a)` is what attempt number a meets; `asked` is when an exit was last asked
    * for. */
  method ForwardRequest(g: Gateway, c: Config, q: Request, world: nat -> Exchange, start: nat)
    returns (sent: seq<Answer>, failed: bool, end: End, ghost exits: seq<string>, ghost asked: nat)
    modifies g`active, Elems(g.slots)`fails, Elems(g.slots)`until, Elems(g.slots)`modelCooldowns
    ensures Distinct(exits) && |exits| <= Max(0, c.maxRetries + 1)
    ensures |sent| == (if end == Stopped then 0 else 1)
    ensures asked >= start && (exits == [] ==> asked == start)
    ensures end == Stopped ==>
              || (c.maxRetries < 0 && !failed)
              || (failed && (world(|exits|).canceled || (exits != [] && !world(|exits| - 1).buildable)))
    ensures end == Starved ==>
              var refusal := RefusalOf(c, ViewsIn(AllKnown(g.slots, Elems(exits)), q.model, asked), asked, q.deadline);
              && !failed && refusal.Some? && sent == [Refusal(refusal.value)] && OnlyRetried(c, q, world, |exits|)
              && (sent[0].status == 502 ==> exits == [])
    ensures end == Replied ==>
              var last := |exits| - 1;
              && last >= 0 && OnlyRetried(c, q, world, last)
              && sent == [Delivered(c, q, world(last).reply, last)] && failed == Fails(c, q, world(last).reply)
              && (Retryable(c, q, world(last).reply) ==> last == c.maxRetries || !AnyUntried(g.slots, Elems(exits)))
  {
    hide Retryable, Delivered, Distinct, AnyUntried, OnlyRetried, Elems, Fails, RefusalOf, ViewsIn, AllKnown, Alike;
    hide Marked, StatusMark, BodyMark, OtherMark, IsSelection, IsMoment, Live, ProxySlot.ReadyAt;
    sent, failed, end, exits, asked := [], false, Stopped, [], start;
    var tried: set<string> := {};
    var now: nat := start;
    NoneYet();
    var attempt: nat := 0;
    while attempt <= c.maxRetries
      invariant 0 <= attempt <= Max(0, c.maxRetries + 1) && |exits| == attempt
      invariant tried == Elems(exits) && Distinct(exits)
      invariant now >= asked >= start && (exits == [] ==> now == asked == start)
      invariant OnlyRetried(c, q, world, attempt)
      invariant attempt > 0 ==> attempt <= c.maxRetries && AnyUntried(g.slots, tried)
    {
      var x := world(attempt);
      if x.canceled {
        return [], true, Stopped, exits, asked;
      }
      asked := now;
      ghost var known := AllKnown(g.slots, tried);
      var refusal, chosen, at := AcquireExit(g, c, q, tried, now);
      now := at;
      if refusal.Some? {
        AlikeViews(known, AllKnown(g.slots, tried), q.model, asked);
        return [refusal.value], false, Starved, exits, asked;
      }
      var slot := g.slots[chosen];
      var identity := slot.Identity();
      OneMore(exits, identity);
      tried := tried + {identity};
      exits := exits + [identity];
      if !x.buildable {
        return [], true, Stopped, exits, asked;
      }
      now := now + x.elapsed;
      var answer, bad, _ := Attempt(g, c, q, slot, x.reply, attempt, tried, now);
      if answer.Some? {
        return [answer.value], bad, Replied, exits, asked;
      }
      RetriedMore(c, q, world, attempt);
      attempt := attempt + 1;
    }
  }

  lemma NoneYet()
    ensures Distinct<string>([]) && Elems<string>([]) == {}
    ensures forall c, q, world :: OnlyRetried(c, q, world, 0)
  {
  }

  lemma OneMore(exits: seq<string>, identity: string)
    requires Distinct(exits) && identity !in Elems(exits)
    ensures Distinct(exits + [identity]) && Elems(exits + [identity]) == Elems(exits) + {identity}
  {
  }
}
