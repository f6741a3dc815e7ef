/** The exit slots of a gateway: cooling, selection and rotation. */
module ExitSlots {
  import opened Common
  import opened Cooldown

  const SECOND: nat := 1_000_000_000

  class ProxySlot {
    const url: string
    var egress: string
    var disabled: bool
    var fails: nat
    var until: nat
    var modelCooldowns: Table

    constructor (url: string, egress: string)
      ensures this.url == url && this.egress == egress && !disabled && fails == 0 && until == 0 &&
              modelCooldowns == map[]
    {
      this.url, this.egress := url, egress;
      disabled, fails, until, modelCooldowns := false, 0, 0, map[];
    }

    function Identity(): string
      reads this`egress
    {
      if egress != "" then "egress:" + egress else if url != "" then "proxy:" + url else "direct"
    }

    /** The time from which the slot serves `model`, as far as is known at `now`. */
    ghost function ReadyAt(model: string, now: nat): nat
      reads this`until, this`modelCooldowns
    {
      var live := Live(modelCooldowns, now);
      if model in live then Max(until, live[model].until) else until
    }

    method Cooldown(base: nat, max: nat, minimum: nat, now: nat) returns (d: nat, ghost jitter: nat)
      modifies this`fails, this`until
      ensures fails == old(fails) + 1 && until == now + d
      ensures d == Pause(fails, base, max, minimum, jitter) && jitter <= Backoff(fails, base, max) / 5
      ensures d >= minimum && forall m, t :: ReadyAt(m, t) >= now + d
    {
      fails, until, d, jitter := NextCooldown(fails, base, max, minimum, now);
    }

    /** Drops what has ended and looks for the entry that ends first. */
    method Purge(now: nat) returns (oldest: string)
      modifies this`modelCooldowns
      ensures modelCooldowns == Live(old(modelCooldowns), now)
      ensures modelCooldowns != map[] ==> IsEarliest(modelCooldowns, oldest)
    {
      ghost var before := modelCooldowns;
      oldest := "";
      var oldestUntil := 0;
      var rest := modelCooldowns.Keys;
      while rest != {}
        invariant rest <= before.Keys
        invariant forall k :: k in modelCooldowns <==> k in before && (k in rest || now < before[k].until)
        invariant forall k :: k in modelCooldowns ==> modelCooldowns[k] == before[k]
        invariant oldestUntil == 0 ==> forall k :: k in modelCooldowns ==> k in rest
        invariant oldestUntil != 0 ==>
                  oldest in modelCooldowns && oldest !in rest && modelCooldowns[oldest].until == oldestUntil
        invariant oldestUntil != 0 ==> forall k :: k in modelCooldowns && k !in rest ==>
                  oldestUntil <= modelCooldowns[k].until
        decreases |rest|
      {
        ghost var some := Pick(rest);
        var k :| k in rest;
        rest := rest - {k};
        var current := modelCooldowns[k];
        if now >= current.until {
          modelCooldowns := modelCooldowns - {k};
        } else if oldestUntil == 0 || current.until < oldestUntil {
          oldest, oldestUntil := k, current.until;
        }
      }
      assert modelCooldowns == Live(before, now);
    }

    /** Drops what has ended, makes room if need be, and cools `model`. */
    method CooldownModel(model: string, base: nat, max: nat, minimum: nat, now: nat, later: nat)
      returns (d: nat, ghost op: Op)
      requires now <= later
      modifies this`modelCooldowns
      ensures op.Hit? && op == Hit(model, now, later, base, max, minimum, op.jitter, op.victim)
      ensures MayEvict(old(modelCooldowns), op)
      ensures modelCooldowns == Lazy(old(modelCooldowns), op) && d == Answer(old(modelCooldowns), op)
      ensures op.jitter <= Backoff(CountAt(old(modelCooldowns), op), base, max) / 5
      ensures d >= minimum && (d > 0 ==> ReadyAt(model, later) >= later + d)
    {
      hide Live, Pause, ReadyAt;
      ghost var before := modelCooldowns;
      var oldest := Purge(now);
      if model !in modelCooldowns && |modelCooldowns| >= MAX_MODELS {
        modelCooldowns := modelCooldowns - {oldest};
      }
      var fails := if model in modelCooldowns then modelCooldowns[model].fails else 0;
      ghost var room := modelCooldowns;
      var count, until, pause, jitter := NextCooldown(fails, base, max, minimum, later);
      d := pause;
      op := Hit(model, now, later, base, max, minimum, jitter, oldest);
      assert room == Room(before, op);
      modelCooldowns := modelCooldowns[model := Entry(count, until)];
      ServesAgain(this, model, later);
      AtLeastMinimum(count, base, max, minimum, jitter);
    }

    method Success(model: string)
      modifies this`fails, this`until, this`modelCooldowns
      ensures fails == 0 && until == 0 && modelCooldowns == Lazy(old(modelCooldowns), Clear(model))
      ensures forall t :: ReadyAt(model, t) == 0
    {
      fails, until := 0, 0;
      modelCooldowns := modelCooldowns - {model};
    }

    method Readiness(model: string, now: nat) returns (off: bool, ready: nat)
      modifies this`modelCooldowns
      ensures off == disabled && ready == old(ReadyAt(model, now))
      ensures modelCooldowns == Lazy(old(modelCooldowns), Ask(model, now))
      ensures Live(modelCooldowns, now) == old(Live(modelCooldowns, now))
    {
      LiveAsk(modelCooldowns, model, now);
      ready := until;
      if model in modelCooldowns {
        var state := modelCooldowns[model];
        if now < state.until && state.until > ready {
          ready := state.until;
        } else if now >= state.until {
          modelCooldowns := modelCooldowns - {model};
        }
      }
      off := disabled;
    }
  }

  lemma ServesAgain(s: ProxySlot, model: string, now: nat)
    requires model in s.modelCooldowns
    ensures now < s.modelCooldowns[model].until ==> s.ReadyAt(model, now) >= s.modelCooldowns[model].until
  {
  }

  lemma AtLeastMinimum(fails: nat, base: nat, max: nat, minimum: nat, jitter: nat)
    requires fails > 0
    ensures Pause(fails, base, max, minimum, jitter) >= minimum
  {
  }

  /** Two slots are one exit if they are known to leave under one address, or, as long as neither address is
    * known, have one proxy. */
  lemma SameIdentity(a: ProxySlot, b: ProxySlot)
    ensures a.Identity() == b.Identity() <==>
            if a.egress == "" && b.egress == "" then a.url == b.url else a.egress == b.egress
  {
    var x, y := a.Identity(), b.Identity();
    assert a.egress != "" ==> x[0] == 'e' && x[7..] == a.egress;
    assert b.egress != "" ==> y[0] == 'e' && y[7..] == b.egress;
    assert a.egress == "" && a.url != "" ==> x[0] == 'p' && x[6..] == a.url;
    assert b.egress == "" && b.url != "" ==> y[0] == 'p' && y[6..] == b.url;
    assert a.egress == "" && a.url == "" ==> x[0] == 'd';
    assert b.egress == "" && b.url == "" ==> y[0] == 'd';
  }

  /** Position `i` of the walk around `n` slots that starts at `start`. */
  function Around(start: nat, i: nat, n: nat): (r: nat)
    requires n > 0
    ensures r < n
  {
    (start + i) % n
  }

  /** The walk meets every slot. */
  lemma AroundMeets(start: nat, n: nat, index: nat) returns (i: nat)
    requires index < n && start < n
    ensures i < n && Around(start, i, n) == index
    ensures index != start ==> i > 0
  {
    i := if index >= start then index - start else index + n - start;
    Wraps(index, n);
  }

  lemma Wraps(a: nat, n: nat)
    requires a < n
    ensures a % n == a && (a + n) % n == a
  {
  }

  /** What a selection sees of a slot: nothing, or the time from which it serves. */
  datatype View = Shut | From(ready: nat)

  predicate Now(v: View, now: nat) {
    v.From? && v.ready <= now
  }

  /** The slots met in the first `i` steps of the walk: none is ready, and the first to be is at
    * `earliest`, 0 for none. */
  ghost predicate Waits(views: seq<View>, start: nat, i: nat, now: nat, earliest: nat)
    requires views != []
  {
    && (forall j :: 0 <= j < i ==> !Now(views[Around(start, j, |views|)], now))
    && (earliest == 0 ==> forall j :: 0 <= j < i ==> views[Around(start, j, |views|)].Shut?)
    && (earliest != 0 ==>
          && (forall j :: 0 <= j < i ==> var v := views[Around(start, j, |views|)]; v.From? ==> earliest <= v.ready)
          && (exists j :: 0 <= j < i && views[Around(start, j, |views|)] == From(earliest)))
  }

  lemma WaitsOne(views: seq<View>, start: nat, i: nat, now: nat, earliest: nat)
    requires views != [] && Waits(views, start, i, now, earliest) && !Now(views[Around(start, i, |views|)], now)
    ensures var v := views[Around(start, i, |views|)];
            Waits(views, start, i + 1, now, if v.From? && (earliest == 0 || v.ready < earliest)
              then v.ready else earliest)
  {
    var v := views[Around(start, i, |views|)];
    if earliest != 0 {
      var j :| 0 <= j < i && views[Around(start, j, |views|)] == From(earliest);
      assert 0 <= j < i + 1;
    }
    if v.From? {
      assert views[Around(start, i, |views|)] == From(v.ready);
    }
  }

  /** The exact outcome of a selection. */
  ghost predicate IsSelection(views: seq<View>, start: nat, now: nat, slot: Option<nat>, wait: int) {
    if views == [] then slot == None && wait == SECOND
    else if slot.Some? then
      && wait == 0 && slot.value < |views| && Now(views[slot.value], now)
      && exists i: nat :: i < |views| && slot.value == Around(start, i, |views|) &&
           forall j :: 0 <= j < i ==> !Now(views[Around(start, j, |views|)], now)
    else if forall k :: 0 <= k < |views| ==> views[k].Shut? then wait == -1
    else
      && wait > 0
      && (forall k :: 0 <= k < |views| && views[k].From? ==> now + wait <= views[k].ready)
      && (exists k :: 0 <= k < |views| && views[k] == From(now + wait))
  }

  lemma NothingReady(views: seq<View>, start: nat, now: nat, earliest: nat)
    requires views != [] && start < |views| && Waits(views, start, |views|, now, earliest)
    ensures IsSelection(views, start, now, None, if earliest == 0 then -1 else earliest - now)
  {
    hide Around;
    forall k | 0 <= k < |views|
      ensures !Now(views[k], now) && (earliest == 0 ==> views[k].Shut?)
      ensures earliest != 0 && views[k].From? ==> earliest <= views[k].ready
    {
      var i := AroundMeets(start, |views|, k);
    }
    if earliest != 0 {
      var j :| 0 <= j < |views| && views[Around(start, j, |views|)] == From(earliest);
      assert 0 <= Around(start, j, |views|) < |views|;
    }
  }

  /** A selection is determined by what it sees. */
  lemma SelectionIsUnique(views: seq<View>, start: nat, now: nat, a: Option<nat>, u: int, b: Option<nat>, v: int)
    requires start < |views| || views == []
    requires IsSelection(views, start, now, a, u) && IsSelection(views, start, now, b, v)
    ensures a == b && u == v
  {
    hide Around;
    if views != [] {
      if a.Some? && b.Some? {
        var i: nat :| i < |views| && a.value == Around(start, i, |views|) &&
                 forall j :: 0 <= j < i ==> !Now(views[Around(start, j, |views|)], now);
        var k: nat :| k < |views| && b.value == Around(start, k, |views|) &&
                 forall j :: 0 <= j < k ==> !Now(views[Around(start, j, |views|)], now);
        assert !(i < k) && !(k < i);
      }
    }
  }

  ghost function ViewOf(s: ProxySlot, model: string, excluded: set<string>, now: nat): View
    reads s
  {
    if s.disabled || s.Identity() in excluded then Shut else From(s.ReadyAt(model, now))
  }

  ghost function Views(slots: seq<ProxySlot>, model: string, excluded: set<string>, now: nat): (r: seq<View>)
    reads slots
    ensures |r| == |slots| && forall k :: 0 <= k < |slots| ==> r[k] == ViewOf(slots[k], model, excluded, now)
  {
    if slots == [] then []
    else Views(slots[..|slots| - 1], model, excluded, now) + [ViewOf(slots[|slots| - 1], model, excluded, now)]
  }

  const MILLISECOND: nat := 1_000_000

  predicate Untried(s: ProxySlot, excluded: set<string>)
    reads s
  {
    !s.disabled && s.Identity() !in excluded
  }

  /** What is known of a slot, apart from the time of asking. */
  datatype Known = Known(shut: bool, until: nat, models: Table)

  function ViewIn(k: Known, model: string, now: nat): View {
    var live := Live(k.models, now);
    if k.shut then Shut else From(if model in live then Max(k.until, live[model].until) else k.until)
  }

  function ViewsIn(known: seq<Known>, model: string, now: nat): (r: seq<View>)
    ensures |r| == |known| && forall k :: 0 <= k < |known| ==> r[k] == ViewIn(known[k], model, now)
  {
    seq(|known|, k requires 0 <= k < |known| => ViewIn(known[k], model, now))
  }

  ghost function AllKnown(slots: seq<ProxySlot>, excluded: set<string>): (r: seq<Known>)
    reads slots
    ensures |r| == |slots|
    ensures forall k :: 0 <= k < |slots| ==>
              var s := slots[k]; r[k] == Known(s.disabled || s.Identity() in excluded, s.until, s.modelCooldowns)
  {
    if slots == [] then []
    else
      var s := slots[|slots| - 1];
      AllKnown(slots[..|slots| - 1], excluded) +
      [Known(s.disabled || s.Identity() in excluded, s.until, s.modelCooldowns)]
  }

  lemma ViewsAreKnown(slots: seq<ProxySlot>, model: string, excluded: set<string>, now: nat)
    ensures Views(slots, model, excluded, now) == ViewsIn(AllKnown(slots, excluded), model, now)
  {
    hide Live, ViewsIn, Views, AllKnown;
  }

  /** Alike at a time and after: entries that have ended by then make no difference. */
  ghost predicate Alike(a: seq<Known>, b: seq<Known>, now: nat) {
    |a| == |b| && forall k :: 0 <= k < |a| ==>
      a[k].shut == b[k].shut && a[k].until == b[k].until && Live(a[k].models, now) == Live(b[k].models, now)
  }

  lemma AlikeViews(a: seq<Known>, b: seq<Known>, model: string, now: nat)
    requires Alike(a, b, now)
    ensures ViewsIn(a, model, now) == ViewsIn(b, model, now)
  {
    hide Live;
  }

  lemma AlikeLater(a: seq<Known>, b: seq<Known>, now: nat, later: nat)
    requires Alike(a, b, now) && now <= later
    ensures Alike(a, b, later)
  {
    hide Live;
    forall k | 0 <= k < |a| ensures Live(a[k].models, later) == Live(b[k].models, later) {
      LiveLater(a[k].models, b[k].models, now, later);
    }
  }

  /** The moment at which an open slot is had: now, if one is ready, or as soon as the first one is, but
    * never in less than a millisecond. */
  ghost predicate IsMoment(views: seq<View>, now: nat, at: nat) {
    if exists k :: 0 <= k < |views| && Now(views[k], now) then at == now
    else exists k :: 0 <= k < |views| && IsNext(views, k) && at == Max(views[k].ready, now + MILLISECOND)
  }

  /** The open slot that is ready before the others. */
  ghost predicate IsNext(views: seq<View>, k: nat)
    requires k < |views|
  {
    views[k].From? && forall j :: 0 <= j < |views| && views[j].From? ==> views[k].ready <= views[j].ready
  }

  /** There are no slots at all, or open ones of which none is ready now or can be had in time. */
  ghost predicate NoneInTime(views: seq<View>, now: nat, deadline: nat) {
    || views == []
    || ((exists k :: 0 <= k < |views| && views[k].From?) &&
        forall k :: 0 <= k < |views| && views[k].From? ==>
          views[k].ready > now && Max(views[k].ready, now + MILLISECOND) >= deadline)
  }

  /** The first try either finds a slot or tells when to try again. */
  lemma FirstTry(views: seq<View>, start: nat, now: nat, slot: Option<nat>, wait: int, deadline: nat)
    requires IsSelection(views, start, now, slot, wait)
    ensures slot.Some? ==> IsMoment(views, now, now) && !NoneInTime(views, now, deadline)
    ensures slot.None? && wait < 0 ==>
              views != [] && (forall k :: 0 <= k < |views| ==> views[k].Shut?) && !NoneInTime(views, now, deadline)
    ensures slot.None? && wait >= 0 && views != [] ==>
              && (exists k :: 0 <= k < |views| && views[k].From?)
              && (forall k :: 0 <= k < |views| ==> !Now(views[k], now))
              && IsMoment(views, now, now + Max(wait, MILLISECOND))
              && (NoneInTime(views, now, deadline) <==> now + Max(wait, MILLISECOND) >= deadline)
  {
    hide Around;
    if slot.None? && wait >= 0 && views != [] {
      var k :| 0 <= k < |views| && views[k] == From(now + wait);
      assert IsNext(views, k);
    }
  }

  /** The second finds the slot that was waited for. */
  lemma SecondTry(known: seq<Known>, model: string, now: nat, at: nat, start: nat, slot: Option<nat>, wait: int)
    requires known != [] && now < at && IsMoment(ViewsIn(known, model, now), now, at)
    requires IsSelection(ViewsIn(known, model, at), start, at, slot, wait)
    ensures slot.Some?
  {
    hide Around, ViewsIn;
    var views, later := ViewsIn(known, model, now), ViewsIn(known, model, at);
    var k :| 0 <= k < |views| && IsNext(views, k) && at == Max(views[k].ready, now + MILLISECOND);
    assert later[k] == ViewIn(known[k], model, at) && views[k] == ViewIn(known[k], model, now);
    assert Now(later[k], at);
  }

  /** No slot is listed twice. */
  predicate AllDifferent(slots: seq<ProxySlot>) {
    forall i, j :: 0 <= i < j < |slots| ==> slots[i] != slots[j]
  }

  datatype Wait = Got(index: nat) | NoneUntried | TimedOut

  lemma SelectionMeans(views: seq<View>, start: nat, now: nat, slot: Option<nat>, wait: int)
    requires IsSelection(views, start, now, slot, wait)
    ensures slot.Some? ==>
              slot.value < |views| && views[slot.value].From? && views[slot.value].ready <= now && wait == 0
    ensures slot.None? ==> (wait < 0 <==> views != [] && forall k :: 0 <= k < |views| ==> views[k].Shut?)
    ensures slot.None? && views != [] && wait >= 0 ==>
              && (exists k :: 0 <= k < |views| && views[k] == From(now + wait))
              && (forall k :: 0 <= k < |views| && views[k].From? ==> now < now + wait <= views[k].ready)
  {
  }

  lemma ViewsShut(slots: seq<ProxySlot>, views: seq<View>, model: string, excluded: set<string>, now: nat)
    requires |views| == |slots| && forall k :: 0 <= k < |slots| ==>
             views[k].Shut? == ViewOf(slots[k], model, excluded, now).Shut?
    ensures (forall k :: 0 <= k < |views| ==> views[k].Shut?) <==> (forall s :: s in slots ==> !Untried(s, excluded))
    ensures forall k :: 0 <= k < |slots| ==> (views[k].From? <==> Untried(slots[k], excluded))
  {
    forall k | 0 <= k < |slots| ensures views[k].From? <==> Untried(slots[k], excluded) {
      assert ViewOf(slots[k], model, excluded, now).From? <==> Untried(slots[k], excluded);
    }
    if forall k :: 0 <= k < |views| ==> views[k].Shut? {
      forall s | s in slots ensures !Untried(s, excluded) {
        var k :| 0 <= k < |slots| && slots[k] == s;
        assert views[k].Shut?;
      }
    }
  }

  class Gateway {
    var slots: seq<ProxySlot>
    var active: nat

    constructor (slots: seq<ProxySlot>)
      ensures this.slots == slots && active == 0
    {
      this.slots, active := slots, 0;
    }

    /** The first ready slot of the walk that starts at the active one; without one, how long until
      * the first open slot is ready, or -1 when there is none to wait for.  Only entries that have
      * ended are dropped. */
    method SelectSlotExcluding(model: string, excluded: set<string>, now: nat) returns (slot: Option<nat>, wait: int)
      modifies this`active, Elems(slots)`modelCooldowns
      ensures IsSelection(old(Views(slots, model, excluded, now)), if slots == []
              then 0 else old(active) % |slots|, now, slot, wait)
      ensures active == if slot.Some? then slot.value else old(active)
      ensures forall s :: s in slots ==> Live(s.modelCooldowns, now) == old(Live(s.modelCooldowns, now))
    {
      hide Live, Waits, IsSelection, Around, Views;
      if |slots| == 0 {
        NoSlots(now);
        return None, SECOND;
      }
      var n := |slots|;
      var start := active % n;
      var earliest: nat := 0;
      ghost var views := Views(slots, model, excluded, now);
      WaitsNothing(views, start, now);
      for i := 0 to n
        invariant forall s :: s in slots ==> Live(s.modelCooldowns, now) == old(Live(s.modelCooldowns, now))
        invariant forall s :: s in slots ==> s.ReadyAt(model, now) == old(s.ReadyAt(model, now))
        invariant active == old(active)
        invariant Waits(views, start, i, now, earliest)
      {
        var index := (start + i) % n;
        assert index == Around(start, i, n) by { AroundIs(start, i, n); }
        var s := slots[index];
        assert views[index] == old(ViewOf(s, model, excluded, now));
        if s.Identity() in excluded {
          WaitsOne(views, start, i, now, earliest);
          continue;
        }
        var off, ready := s.Readiness(model, now);
        if off {
          WaitsOne(views, start, i, now, earliest);
          continue;
        }
        if now >= ready {
          active := index;
          Found(views, start, i, now, earliest);
          return Some(index), 0;
        }
        WaitsOne(views, start, i, now, earliest);
        if earliest == 0 || ready < earliest {
          earliest := ready;
        }
      }
      NothingReady(views, start, now, earliest);
      if earliest == 0 {
        return None, -1;
      }
      return None, earliest - now;
    }

    /** Is there an enabled slot whose identity has not been tried? */
    method HasUntriedSlot(model: string, excluded: set<string>, now: nat) returns (found: bool)
      modifies Elems(slots)`modelCooldowns
      ensures found <==> exists s :: s in slots && Untried(s, excluded)
      ensures forall s :: s in slots ==> Live(s.modelCooldowns, now) == old(Live(s.modelCooldowns, now))
    {
      hide Live;
      for i := 0 to |slots|
        invariant forall s :: s in slots ==> Live(s.modelCooldowns, now) == old(Live(s.modelCooldowns, now))
        invariant forall j :: 0 <= j < i ==> !Untried(slots[j], excluded)
      {
        var off, _ := slots[i].Readiness(model, now);
        if off {
          continue;
        }
        if slots[i].Identity() !in excluded {
          assert Untried(slots[i], excluded);
          return true;
        }
      }
      return false;
    }

    /** One look at the slots, which may have changed since `known` only by entries that have ended. */
    method TrySlot(model: string, excluded: set<string>, now: nat, ghost known: seq<Known>)
      returns (slot: Option<nat>, wait: int)
      requires Alike(known, AllKnown(slots, excluded), now)
      modifies this`active, Elems(slots)`modelCooldowns
      ensures IsSelection(ViewsIn(known, model, now), if slots == [] then 0 else old(active) % |slots|, now, slot, wait)
      ensures active == if slot.Some? then slot.value else old(active)
      ensures slot.Some? ==>
                && wait == 0 && slot.value < |slots| && Untried(slots[slot.value], excluded)
                && slots[slot.value].ReadyAt(model, now) <= now
      ensures slot.None? ==> (wait < 0 <==> slots != [] && forall s :: s in slots ==> !Untried(s, excluded))
      ensures Alike(known, AllKnown(slots, excluded), now)
      ensures forall s :: s in slots ==> Live(s.modelCooldowns, now) == old(Live(s.modelCooldowns, now))
    {
      hide Live, Views, IsSelection, ProxySlot.ReadyAt, AllKnown, ViewsIn, Now;
      ViewsAreKnown(slots, model, excluded, now);
      AlikeViews(known, AllKnown(slots, excluded), model, now);
      ghost var start := if slots == [] then 0 else active % |slots|;
      slot, wait := SelectSlotExcluding(model, excluded, now);
      ghost var views := ViewsIn(known, model, now);
      SelectionMeans(views, start, now, slot, wait);
      ViewsAreKnown(slots, model, excluded, now);
      AlikeViews(known, AllKnown(slots, excluded), model, now);
      ViewsShut(slots, views, model, excluded, now);
      if slot.Some? {
        ReadyThen(slots[slot.value], model, excluded, now);
      }
    }

    /** Waits for a slot until `deadline`; a wait is never shorter than a millisecond.  An untried slot that
      * is ready is taken at once; else the first one to be ready, as soon as it is; and there is a timeout
      * only if none will be ready in time.  Nothing changes but that entries that have ended are dropped. */
    method WaitForSlotExcluding(model: string, excluded: set<string>, now: nat, deadline: nat)
      returns (found: Wait, at: nat)
      modifies this`active, Elems(slots)`modelCooldowns
      ensures at >= now
      ensures found.Got? ==> found.index < |slots| && Untried(slots[found.index], excluded) && active == found.index
      ensures found.Got? ==> slots[found.index].ReadyAt(model, at) <= at
      ensures var known := old(AllKnown(slots, excluded));
              && (found.Got? ==>
                    && IsMoment(ViewsIn(known, model, now), now, at) && (at > now ==> at < deadline)
                    && IsSelection(ViewsIn(known, model, at), old(active) % |slots|, at, Some(found.index), 0))
              && (found.TimedOut? <==> NoneInTime(ViewsIn(known, model, now), now, deadline))
              && Alike(known, AllKnown(slots, excluded), if found.Got? then at else now)
      ensures found.NoneUntried? <==> slots != [] && forall s :: s in slots ==> !Untried(s, excluded)
      ensures found.TimedOut? ==> at == Max(now, deadline)
      ensures !found.Got? ==> active == old(active)
    {
      hide Live, Views, IsSelection, ProxySlot.ReadyAt, AllKnown, ViewsIn, IsMoment, NoneInTime, IsNext, Now, Alike;
      ghost var known := AllKnown(slots, excluded);
      ghost var start := if slots == [] then 0 else active % |slots|;
      at := now;
      AlikeAtFirst(known, now);
      while true
        invariant at >= now && active == old(active)
        invariant Alike(known, AllKnown(slots, excluded), at)
        invariant at > now ==> at < deadline
        invariant at > now ==>
                    slots == [] ||
                    (var views := ViewsIn(known, model, now);
                     IsMoment(views, now, at) && !NoneInTime(views, now, deadline))
        invariant slots == [] ==> Alike(known, AllKnown(slots, excluded), now)
        decreases Max(0, deadline - at)
      {
        var got, wait := TrySlot(model, excluded, at, known);
        if slots == [] {
          NoSlotsNoViews(slots, excluded, model, now, deadline);
        } else if at == now {
          FirstTry(ViewsIn(known, model, now), start, now, got, wait, deadline);
        } else {
          SecondTry(known, model, now, at, start, got, wait);
        }
        if got.Some? {
          return Got(got.value), at;
        }
        if wait < 0 {
          return NoneUntried, at;
        }
        if wait < MILLISECOND {
          wait := MILLISECOND;
        }
        if at + wait >= deadline {
          return TimedOut, Max(at, deadline);
        }
        AlikeLater(known, AllKnown(slots, excluded), at, at + wait);
        at := at + wait;
      }
    }
  }

  lemma NoSlotsNoViews(slots: seq<ProxySlot>, excluded: set<string>, model: string, now: nat, deadline: nat)
    requires slots == []
    ensures NoneInTime(ViewsIn(AllKnown(slots, excluded), model, now), now, deadline)
    ensures Alike(AllKnown(slots, excluded), AllKnown(slots, excluded), now) && AllKnown(slots, excluded) == []
  {
  }

  lemma ReadyThen(s: ProxySlot, model: string, excluded: set<string>, now: nat)
    requires Now(ViewOf(s, model, excluded, now), now)
    ensures Untried(s, excluded) && s.ReadyAt(model, now) <= now
  {
  }

  lemma AlikeAtFirst(known: seq<Known>, now: nat)
    ensures Alike(known, known, now)
  {
  }

  lemma NoSlots(now: nat)
    ensures IsSelection([], 0, now, None, SECOND)
  {
  }

  lemma AroundIs(start: nat, i: nat, n: nat)
    requires n > 0
    ensures Around(start, i, n) == (start + i) % n
  {
  }

  lemma WaitsNothing(views: seq<View>, start: nat, now: nat)
    requires views != []
    ensures Waits(views, start, 0, now, 0)
  {
  }

  lemma Found(views: seq<View>, start: nat, i: nat, now: nat, earliest: nat)
    requires i < |views| && Waits(views, start, i, now, earliest) && Now(views[Around(start, i, |views|)], now)
    ensures IsSelection(views, start, now, Some(Around(start, i, |views|)), 0)
  {
  }
}
