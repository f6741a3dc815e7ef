/** Cooling of an exit slot, in general and per model.  Times and durations are counted from a fixed
  * origin; 0 is the zero time. */
module Cooldown {
  import opened Common

  const MAX_MODELS: nat := 256

  datatype Entry = Entry(fails: nat, until: nat)

  type Table = map<string, Entry>

  function Pow2(n: nat): (r: nat)
    ensures r >= 1
  {
    if n == 0 then 1 else 2 * Pow2(n - 1)
  }

  /** Exponential back-off, before the random addition. */
  function Backoff(fails: nat, base: nat, max: nat): nat
    requires fails > 0
  {
    Min(base * Pow2(fails - 1), max)
  }

  function Pause(fails: nat, base: nat, max: nat, minimum: nat, jitter: nat): nat
    requires fails > 0
  {
    Max(Backoff(fails, base, max) + jitter, minimum)
  }

  /** Doubles until the limit or the count of failures is reached. */
  method NextCooldown(fails: nat, base: nat, max: nat, minimum: nat, now: nat)
    returns (count: nat, until: nat, d: nat, ghost jitter: nat)
    ensures count == fails + 1 && until == now + d
    ensures d == Pause(count, base, max, minimum, jitter) && jitter <= Backoff(count, base, max) / 5
  {
    count := fails + 1;
    d := base;
    var i := 1;
    while i < count && d < max
      invariant 1 <= i <= count && d == base * Pow2(i - 1)
      decreases count - i
    {
      d := d * 2;
      assert Pow2(i) == 2 * Pow2(i - 1);
      assert base * (2 * Pow2(i - 1)) == base * Pow2(i - 1) * 2;
      i := i + 1;
    }
    GrowsWithCount(base, i - 1, count - 1);
    if d > max {
      d := max;
    }
    assert d == Backoff(count, base, max);
    var extra: nat :| extra <= d / 5;
    jitter := extra;
    d := d + extra;
    if minimum > d {
      d := minimum;
    }
    until := now + d;
  }

  lemma {:induction false} GrowsWithCount(base: nat, i: nat, j: nat)
    requires i <= j
    ensures base * Pow2(i) <= base * Pow2(j)
    decreases j
  {
    if i < j {
      GrowsWithCount(base, i, j - 1);
      assert base * Pow2(j) == base * Pow2(j - 1) + base * Pow2(j - 1);
    }
  }

  /** A pause grows with the failures, never undercuts the back-off or the minimum, and exceeds the
    * larger of the two by at most a fifth of the back-off. */
  lemma PauseBounds(fails: nat, base: nat, max: nat, minimum: nat, jitter: nat)
    requires fails > 0 && jitter <= Backoff(fails, base, max) / 5
    ensures var p, b := Pause(fails, base, max, minimum, jitter), Backoff(fails, base, max);
            && p >= b && p >= minimum && (p == minimum || 5 * p <= 6 * b)
            && 5 * p <= Max(6 * max, 5 * minimum)
    ensures Backoff(fails, base, max) <= Backoff(fails + 1, base, max)
  {
    GrowsWithCount(base, fails - 1, fails);
  }

  // ---------------------------------------------------------------- the table of one slot

  /** The entries still cooling. */
  function Live(t: Table, now: nat): (r: Table)
    ensures forall k :: k in r <==> k in t && now < t[k].until
    ensures forall k :: k in r ==> r[k] == t[k]
  {
    map k | k in t && now < t[k].until :: t[k]
  }

  ghost predicate IsEarliest(t: Table, k: string) {
    k in t && forall j :: j in t ==> t[k].until <= t[j].until
  }

  datatype Op =
    | Ask(model: string, now: nat)
    | Hit(model: string, now: nat, later: nat, base: nat, max: nat, minimum: nat, jitter: nat, victim: string)
    | Clear(model: string)

  /** The cooling entries with room for one more model. */
  function Room(t: Table, op: Op): Table
    requires op.Hit?
  {
    var live := Live(t, op.now);
    if op.model !in live && |live| >= MAX_MODELS then live - {op.victim} else live
  }

  function CountAt(t: Table, op: Op): nat
    requires op.Hit?
  {
    var room := Room(t, op);
    (if op.model in room then room[op.model].fails else 0) + 1
  }

  function AfterHit(t: Table, op: Op): Table
    requires op.Hit?
  {
    Room(t, op)[op.model := Entry(CountAt(t, op), op.later + PauseAt(t, op))]
  }

  function PauseAt(t: Table, op: Op): nat
    requires op.Hit?
  {
    Pause(CountAt(t, op), op.base, op.max, op.minimum, op.jitter)
  }

  /** The table as kept: reading an expired entry drops it. */
  function Lazy(t: Table, op: Op): Table {
    match op
    case Ask(model, now) => if model in t && now >= t[model].until then t - {model} else t
    case Hit(_, _, _, _, _, _, _, _) => AfterHit(t, op)
    case Clear(model) => t - {model}
  }

  /** A table that reading never changes. */
  function Untouched(t: Table, op: Op): Table {
    if op.Ask? then t else Lazy(t, op)
  }

  /** When the model is usable again as far as the table says, or the length of the new pause. */
  function Answer(t: Table, op: Op): nat {
    match op
    case Ask(model, now) => if model in t && now < t[model].until then t[model].until else 0
    case Hit(_, _, _, _, _, _, _, _) => PauseAt(t, op)
    case Clear(_) => 0
  }

  function TimeOf(op: Op, clock: nat): nat {
    match op
    case Ask(_, now) => now
    case Hit(_, now, later, _, _, _, _, _) => later
    case Clear(_) => clock
  }

  /** The clock never runs backwards, across operations and within one. */
  ghost predicate Clocked(ops: seq<Op>, clock: nat)
    decreases |ops|
  {
    ops == [] ||
    (var op := ops[0];
     && (!op.Clear? ==> clock <= op.now)
     && (op.Hit? ==> op.now <= op.later)
     && Clocked(ops[1..], TimeOf(op, clock)))
  }

  function LazyAnswers(t: Table, ops: seq<Op>): (r: seq<nat>)
    decreases |ops|
  {
    if ops == [] then [] else [Answer(t, ops[0])] + LazyAnswers(Lazy(t, ops[0]), ops[1..])
  }

  function UntouchedAnswers(t: Table, ops: seq<Op>): (r: seq<nat>)
    decreases |ops|
  {
    if ops == [] then [] else [Answer(t, ops[0])] + UntouchedAnswers(Untouched(t, ops[0]), ops[1..])
  }

  lemma LiveLater(a: Table, b: Table, t: nat, u: nat)
    requires Live(a, t) == Live(b, t) && t <= u
    ensures Live(a, u) == Live(b, u)
  {
    assert Live(a, u) == Live(Live(a, t), u);
    assert Live(b, u) == Live(Live(b, t), u);
  }

  lemma LiveStep(a: Table, b: Table, clock: nat, op: Op)
    requires Live(a, clock) == Live(b, clock)
    requires !op.Clear? ==> clock <= op.now
    requires op.Hit? ==> op.now <= op.later
    ensures Answer(a, op) == Answer(b, op)
    ensures Live(Lazy(a, op), TimeOf(op, clock)) == Live(Untouched(b, op), TimeOf(op, clock))
  {
    hide Live, Pause, AfterHit, PauseAt;
    match op
    case Ask(model, now) =>
      LiveLater(a, b, clock, now);
      LiveAsk(a, model, now);
      LiveAsk(b, model, now);
    case Hit(_, now, _, _, _, _, _, _) =>
      LiveLater(a, b, clock, now);
      LiveHit(a, b, op);
    case Clear(model) =>
      LiveClear(a, model, clock);
      LiveClear(b, model, clock);
  }

  lemma LiveAsk(t: Table, model: string, now: nat)
    ensures Live(Lazy(t, Ask(model, now)), now) == Live(t, now)
    ensures Answer(t, Ask(model, now)) == if model in Live(t, now) then Live(t, now)[model].until else 0
  {
  }

  lemma LiveClear(t: Table, model: string, now: nat)
    ensures Live(t - {model}, now) == Live(t, now) - {model}
  {
  }

  lemma RoomIsLive(a: Table, b: Table, op: Op)
    requires op.Hit? && Live(a, op.now) == Live(b, op.now)
    ensures Room(a, op) == Room(b, op)
  {
    hide Live;
  }

  lemma LiveHit(a: Table, b: Table, op: Op)
    requires op.Hit? && Live(a, op.now) == Live(b, op.now)
    ensures AfterHit(a, op) == AfterHit(b, op) && PauseAt(a, op) == PauseAt(b, op)
  {
    hide Live, Pause, Room;
    RoomIsLive(a, b, op);
  }

  /** Dropping expired entries on reading never shows: under a clock that does not run backwards every
    * run gives the answers of a table that reading leaves alone. */
  lemma {:induction false} ReadingNeverShows(a: Table, b: Table, clock: nat, ops: seq<Op>)
    requires Live(a, clock) == Live(b, clock) && Clocked(ops, clock)
    ensures LazyAnswers(a, ops) == UntouchedAnswers(b, ops)
    decreases |ops|
  {
    if ops != [] {
      var op := ops[0];
      LiveStep(a, b, clock, op);
      ReadingNeverShows(Lazy(a, op), Untouched(b, op), TimeOf(op, clock), ops[1..]);
    }
  }

  function LazyRun(t: Table, ops: seq<Op>): (r: Table)
    decreases |ops|
  {
    if ops == [] then t else LazyRun(Lazy(t, ops[0]), ops[1..])
  }

  /** Whenever a table is full the operation names an entry to give up. */
  ghost predicate Evicting(t: Table, ops: seq<Op>)
    decreases |ops|
  {
    ops == [] || (MayEvict(t, ops[0]) && Evicting(Lazy(t, ops[0]), ops[1..]))
  }

  ghost predicate MayEvict(t: Table, op: Op) {
    op.Hit? ==>
      var live := Live(t, op.now);
      op.model !in live && |live| >= MAX_MODELS ==> IsEarliest(live, op.victim)
  }

  lemma SubTable(a: Table, b: Table)
    requires forall k :: k in a ==> k in b
    ensures |a| <= |b|
  {
    assert a.Keys <= b.Keys;
    var rest := b.Keys - a.Keys;
    assert b.Keys == a.Keys + rest;
    assert |a| == |a.Keys| && |b| == |b.Keys|;
  }

  lemma StaysSmall(t: Table, op: Op)
    requires |t| <= MAX_MODELS && MayEvict(t, op)
    ensures |Lazy(t, op)| <= MAX_MODELS
  {
    if op.Hit? {
      var live := Live(t, op.now);
      SubTable(live, t);
      var room := Room(t, op);
      if op.model !in live && |live| >= MAX_MODELS {
        assert room.Keys == live.Keys - {op.victim};
        assert |room| == |room.Keys| && |live| == |live.Keys|;
      }
      var after := AfterHit(t, op);
      assert after.Keys == room.Keys + {op.model};
      assert |after| == |after.Keys| && |room| == |room.Keys|;
      if op.model in room {
        assert after.Keys == room.Keys;
      }
    } else {
      SubTable(Lazy(t, op), t);
    }
  }

  lemma {:induction false} NeverMoreThanMax(t: Table, ops: seq<Op>)
    requires |t| <= MAX_MODELS && Evicting(t, ops)
    ensures |LazyRun(t, ops)| <= MAX_MODELS
    decreases |ops|
  {
    if ops != [] {
      StaysSmall(t, ops[0]);
      NeverMoreThanMax(Lazy(t, ops[0]), ops[1..]);
    }
  }

  /** A hit forgets no cooling model other than the earliest to end, and that only when full. */
  lemma OnlyTheEarliestGoes(t: Table, op: Op, k: string)
    requires op.Hit? && MayEvict(t, op) && k in Live(t, op.now) && k !in AfterHit(t, op)
    ensures IsEarliest(Live(t, op.now), k) && |Live(t, op.now)| >= MAX_MODELS && op.model !in Live(t, op.now)
  {
  }
}
