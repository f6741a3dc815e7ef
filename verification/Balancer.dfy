/** Spreading requests over gateway instances: least load first, failing instances set aside. */
module Balancer {
  import opened Common
  import opened Cooldown
  import opened ExitSlots

  const FIRST_PAUSE: nat := 15 * SECOND
  const LONGEST_PAUSE: nat := 120 * SECOND
  const RATE_PAUSE: nat := 60 * SECOND

  datatype Circuit = Circuit(failures: nat, until: nat)

  type Loads = map<string, nat>

  function LoadOf(loads: Loads, name: string): nat {
    if name in loads then loads[name] else 0
  }

  /** An instance is set aside while its circuit is open. */
  predicate Closed(circuits: map<string, Circuit>, name: string, now: nat) {
    name in circuits ==> circuits[name].until <= now
  }

  function Available(names: seq<string>, circuits: map<string, Circuit>, now: nat): (r: seq<string>)
    ensures forall n :: n in r <==> n in names && Closed(circuits, n, now)
  {
    if names == [] then []
    else
      var n := names[|names| - 1];
      var front := Available(names[..|names| - 1], circuits, now);
      if Closed(circuits, n, now) then front + [n] else front
  }

  lemma AvailableSnoc(names: seq<string>, i: nat, circuits: map<string, Circuit>, now: nat)
    requires i < |names|
    ensures Available(names[..i + 1], circuits, now) ==
            if Closed(circuits, names[i], now)
              then Available(names[..i], circuits, now) + [names[i]] else Available(names[..i], circuits, now)
  {
    assert names[..i + 1][..i] == names[..i];
  }

  lemma {:induction false} AvailableSame(names: seq<string>, a: map<string, Circuit>, b: map<string, Circuit>, now: nat)
    requires forall n :: n in names ==> Closed(a, n, now) == Closed(b, n, now)
    ensures Available(names, a, now) == Available(names, b, now)
    decreases |names|
  {
    if names != [] {
      AvailableSame(names[..|names| - 1], a, b, now);
    }
  }

  /** The first least loaded instance on the walk from the cursor. */
  ghost predicate IsChoice(available: seq<string>, loads: Loads, cursor: nat, chosen: string) {
    available != [] &&
    exists i: nat :: i < |available| && IsLeastFrom(available, loads, cursor % |available|, i, |available|) &&
      chosen == available[Around(cursor % |available|, i, |available|)]
  }

  function LoadAt(available: seq<string>, loads: Loads, start: nat, i: nat): nat
    requires available != []
  {
    LoadOf(loads, available[Around(start, i, |available|)])
  }

  /** Position i of the walk carries the least load of the first n, and the earlier ones carry more. */
  ghost predicate IsLeastFrom(available: seq<string>, loads: Loads, start: nat, i: nat, n: nat)
    requires available != []
  {
    && i < n
    && (forall j :: 0 <= j < n ==> LoadAt(available, loads, start, i) <= LoadAt(available, loads, start, j))
    && (forall j :: 0 <= j < i ==> LoadAt(available, loads, start, i) < LoadAt(available, loads, start, j))
  }

  /** No available instance carries less. */
  lemma ChoiceIsLeast(available: seq<string>, loads: Loads, cursor: nat, chosen: string)
    requires IsChoice(available, loads, cursor, chosen)
    ensures chosen in available && forall n :: n in available ==> LoadOf(loads, chosen) <= LoadOf(loads, n)
  {
    hide Around;
    var start := cursor % |available|;
    var i: nat :| i < |available| && IsLeastFrom(available, loads, start, i, |available|) &&
             chosen == available[Around(start, i, |available|)];
    forall n | n in available ensures LoadOf(loads, chosen) <= LoadOf(loads, n) {
      var k :| 0 <= k < |available| && available[k] == n;
      var j := AroundMeets(start, |available|, k);
      assert LoadAt(available, loads, start, i) <= LoadAt(available, loads, start, j);
    }
  }

  class LeastConnections {
    var inflight: Loads
    var circuits: map<string, Circuit>
    var cursor: nat

    constructor ()
      ensures inflight == map[] && circuits == map[] && cursor == 0
    {
      inflight, circuits, cursor := map[], map[], 0;
    }

    /** Finds the instances whose circuit is closed; circuits that have run out are forgotten. */
    method Purge(names: seq<string>, now: nat) returns (available: seq<string>)
      modifies this`circuits
      ensures available == Available(names, old(circuits), now)
      ensures forall n :: n in circuits <==> n in old(circuits) && (n in names ==> now < old(circuits)[n].until)
      ensures forall n :: n in circuits ==> circuits[n] == old(circuits)[n]
    {
      available := [];
      assert names[..0] == [];
      for i := 0 to |names|
        invariant available == Available(names[..i], old(circuits), now)
        invariant forall n :: n in circuits <==>
                  n in old(circuits) && (n in names[..i] ==> now < old(circuits)[n].until)
        invariant forall n :: n in circuits ==> circuits[n] == old(circuits)[n]
      {
        var name := names[i];
        AvailableSnoc(names, i, old(circuits), now);
        assert names[..i + 1] == names[..i] + [name];
        var open := name in circuits;
        if open && now >= circuits[name].until {
          circuits := circuits - {name};
          open := false;
        }
        if !open {
          available := available + [name];
        }
      }
      assert names[..|names|] == names;
    }

    method Acquire(names: seq<string>, now: nat) returns (selected: Option<string>)
      modifies this
      ensures var available := Available(names, old(circuits), now);
              if available == [] then selected == None && inflight == old(inflight) && cursor == old(cursor)
              else
                && selected.Some? && IsChoice(available, old(inflight), old(cursor), selected.value)
                && inflight == old(inflight)[selected.value := LoadOf(old(inflight), selected.value) + 1]
                && cursor == old(cursor) + 1
      ensures forall n :: n in circuits <==> n in old(circuits) && (n in names ==> now < old(circuits)[n].until)
      ensures forall n :: n in circuits ==> circuits[n] == old(circuits)[n]
    {
      hide Around;
      var available := Purge(names, now);
      if |available| == 0 {
        return None;
      }
      var start := cursor % |available|;
      cursor := cursor + 1;
      var best := available[Around(start, 0, |available|)];
      ghost var at: nat := 0;
      for i := 1 to |available|
        invariant at < i && best == available[Around(start, at, |available|)] &&
                  IsLeastFrom(available, inflight, start, at, i)
      {
        var name := available[Around(start, i, |available|)];
        if LoadOf(inflight, name) < LoadOf(inflight, best) {
          best, at := name, i;
        }
      }
      assert IsLeastFrom(available, inflight, start, at, |available|);
      inflight := inflight[best := LoadOf(inflight, best) + 1];
      return Some(best);
    }

    method Release(name: string)
      modifies this`inflight
      ensures inflight == Released(old(inflight), name)
    {
      if name in inflight && inflight[name] > 1 {
        inflight := inflight[name := inflight[name] - 1];
      } else {
        inflight := inflight - {name};
      }
    }

    method MarkFailure(name: string, now: nat)
      modifies this`circuits
      ensures circuits == old(circuits)[name := Failed(old(circuits), name, now)]
    {
      var failures := (if name in circuits then circuits[name].failures else 0) + 1;
      var cooldown := FIRST_PAUSE;
      var step := 1;
      while step < failures && cooldown < LONGEST_PAUSE
        invariant 1 <= step <= failures && cooldown == FIRST_PAUSE * Pow2(step - 1)
        decreases failures - step
      {
        cooldown := cooldown * 2;
        step := step + 1;
      }
      GrowsWithCount(FIRST_PAUSE, step - 1, failures - 1);
      if cooldown > LONGEST_PAUSE {
        cooldown := LONGEST_PAUSE;
      }
      circuits := circuits[name := Circuit(failures, now + cooldown)];
    }

    method MarkRateLimit(name: string, retryAfter: nat, now: nat)
      modifies this`circuits
      ensures circuits == old(circuits)[name := Limited(old(circuits), name, retryAfter, now)]
    {
      var cooldown := RATE_PAUSE;
      if retryAfter > 0 {
        cooldown := retryAfter * SECOND;
      }
      var failures := (if name in circuits then circuits[name].failures else 0) + 1;
      circuits := circuits[name := Circuit(failures, now + cooldown)];
    }

    method MarkSuccess(name: string)
      modifies this`circuits
      ensures circuits == old(circuits) - {name}
    {
      circuits := circuits - {name};
    }
  }

  function Released(loads: Loads, name: string): Loads {
    if LoadOf(loads, name) > 1 then loads[name := loads[name] - 1] else loads - {name}
  }

  /** The circuit after a rate limit: one more failure, and the pause asked for, or a minute. */
  function Limited(circuits: map<string, Circuit>, name: string, retryAfter: nat, now: nat): Circuit {
    var pause := if retryAfter > 0 then retryAfter * SECOND else RATE_PAUSE;
    Circuit(Failed(circuits, name, now).failures, now + pause)
  }

  /** The circuit after one more failure. */
  function Failed(circuits: map<string, Circuit>, name: string, now: nat): Circuit {
    var failures := (if name in circuits then circuits[name].failures else 0) + 1;
    Circuit(failures, now + Backoff(failures, FIRST_PAUSE, LONGEST_PAUSE))
  }
}
