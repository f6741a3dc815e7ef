/** The balancer over whole runs. */
module BalancerRuns {
  import opened Common
  import opened Cooldown
  import opened ExitSlots
  import opened Balancer

  datatype Books = Books(inflight: Loads, circuits: map<string, Circuit>, cursor: nat)

  datatype Event =
    | Acquired(now: nat, selected: Option<string>)
    | Releasing(name: string)
    | Failing(name: string, now: nat)
    | Succeeding(name: string)

  /** One operation of the balancer over the instances `names`. */
  ghost predicate Step(names: seq<string>, a: Books, e: Event, b: Books) {
    match e
    case Acquired(now, selected) =>
      && AcquireStep(Available(names, a.circuits, now), a, selected, b)
      && (forall n :: n in b.circuits <==> n in a.circuits && (n in names ==> now < a.circuits[n].until))
      && (forall n :: n in b.circuits ==> b.circuits[n] == a.circuits[n])
    case Releasing(name) => b == a.(inflight := Released(a.inflight, name))
    case Failing(name, now) => b == a.(circuits := a.circuits[name := Failed(a.circuits, name, now)])
    case Succeeding(name) => b == a.(circuits := a.circuits - {name})
  }

  ghost predicate AcquireStep(available: seq<string>, a: Books, selected: Option<string>, b: Books) {
    if available == [] then selected == None && b.inflight == a.inflight && b.cursor == a.cursor
    else
      && selected.Some? && IsChoice(available, a.inflight, a.cursor, selected.value)
      && b.inflight == a.inflight[selected.value := LoadOf(a.inflight, selected.value) + 1]
      && b.cursor == a.cursor + 1
  }

  /** The object makes the steps of the model. */
  method AcquireIsStep(s: LeastConnections, names: seq<string>, now: nat) returns (selected: Option<string>)
    modifies s
    ensures Step(names, old(Books(s.inflight, s.circuits, s.cursor)), Acquired(now, selected),
            Books(s.inflight, s.circuits, s.cursor))
  {
    hide Available, IsChoice;
    selected := s.Acquire(names, now);
  }

  ghost predicate Run(names: seq<string>, states: seq<Books>, events: seq<Event>) {
    && |states| == |events| + 1
    && forall i :: 0 <= i < |events| ==> Step(names, states[i], events[i], states[i + 1])
  }

  // ---------------------------------------------------------------- counting

  function Acquires(events: seq<Event>, name: string): (r: nat) {
    if events == [] then 0
    else
      var e := events[|events| - 1];
      Acquires(events[..|events| - 1], name) + (if e.Acquired? && e.selected == Some(name) then 1 else 0)
  }

  function Releases(events: seq<Event>, name: string): (r: nat) {
    if events == [] then 0
    else
      var e := events[|events| - 1];
      Releases(events[..|events| - 1], name) + (if e == Releasing(name) then 1 else 0)
  }

  /** Every release has its own acquire before it. */
  ghost predicate Paired(events: seq<Event>, name: string) {
    forall i :: 0 <= i <= |events| ==> Releases(events[..i], name) <= Acquires(events[..i], name)
  }

  ghost predicate NoZero(loads: Loads) {
    forall n :: n in loads ==> loads[n] > 0
  }

  lemma StepCounts(names: seq<string>, a: Books, e: Event, b: Books, name: string)
    requires Step(names, a, e, b) && NoZero(a.inflight)
    ensures NoZero(b.inflight)
    ensures LoadOf(b.inflight, name) ==
            if e.Acquired? && e.selected == Some(name) then LoadOf(a.inflight, name) + 1
            else if e == Releasing(name) then Max(0, LoadOf(a.inflight, name) - 1)
            else LoadOf(a.inflight, name)
  {
    hide Available, IsChoice;
  }

  ghost predicate BalancedAt(states: seq<Books>, events: seq<Event>, name: string, i: nat)
    requires i < |states| && i <= |events|
  {
    LoadOf(states[i].inflight, name) == Acquires(events[..i], name) - Releases(events[..i], name)
  }

  lemma CountsSnoc(events: seq<Event>, i: nat, name: string)
    requires i < |events|
    ensures Acquires(events[..i + 1], name) == Acquires(events[..i], name) + if events[i].Acquired? &&
            events[i].selected == Some(name) then 1 else 0
    ensures Releases(events[..i + 1], name) == Releases(events[..i], name) + if events[i] == Releasing(name)
            then 1 else 0
  {
    assert events[..i + 1][..i] == events[..i];
  }

  lemma {:induction false} NeverZero(names: seq<string>, states: seq<Books>, events: seq<Event>, i: nat)
    requires Run(names, states, events) && states[0].inflight == map[] && i < |states|
    ensures NoZero(states[i].inflight)
    decreases i
  {
    hide Step, NoZero;
    if i == 0 {
      assert NoZero(map[]) by { EmptyLoads(); }
    } else {
      NeverZero(names, states, events, i - 1);
      assert Step(names, states[i - 1], events[i - 1], states[i - 1 + 1]);
      StepCounts(names, states[i - 1], events[i - 1], states[i], "");
    }
  }

  lemma EmptyLoads()
    ensures NoZero(map[])
  {
  }

  lemma {:induction false} PairedIsBalanced(names: seq<string>, states: seq<Books>, events: seq<Event>, name: string,
                                            i: nat)
    requires Run(names, states, events) && states[0].inflight == map[] && i < |states| && Paired(events, name)
    ensures BalancedAt(states, events, name, i)
    decreases i
  {
    hide Step, NoZero, Acquires, Releases;
    if i == 0 {
      assert events[..0] == [];
      assert Acquires([], name) == 0 && Releases([], name) == 0 by { NothingCounted(name); }
    } else {
      PairedIsBalanced(names, states, events, name, i - 1);
      NeverZero(names, states, events, i - 1);
      assert Step(names, states[i - 1], events[i - 1], states[i - 1 + 1]);
      StepCounts(names, states[i - 1], events[i - 1], states[i], name);
      CountsSnoc(events, i - 1, name);
      assert Releases(events[..i], name) <= Acquires(events[..i], name);
    }
  }

  lemma NothingCounted(name: string)
    ensures Acquires([], name) == 0 && Releases([], name) == 0
  {
  }

  /** What is counted in flight for an instance is what was acquired and not released: exactly that at
    * every moment of a run if and only if releases are paired with acquires. */
  lemma InflightIsTheBalance(names: seq<string>, states: seq<Books>, events: seq<Event>, name: string)
    requires Run(names, states, events) && states[0].inflight == map[]
    ensures forall i :: 0 <= i < |states| ==> NoZero(states[i].inflight)
    ensures Paired(events, name) <==> forall i :: 0 <= i < |states| ==> BalancedAt(states, events, name, i)
  {
    hide Step, NoZero, Acquires, Releases;
    forall i | 0 <= i < |states| ensures NoZero(states[i].inflight) {
      NeverZero(names, states, events, i);
    }
    if Paired(events, name) {
      forall i | 0 <= i < |states| ensures BalancedAt(states, events, name, i) {
        PairedIsBalanced(names, states, events, name, i);
      }
    }
    if forall i :: 0 <= i < |states| ==> BalancedAt(states, events, name, i) {
      forall i | 0 <= i <= |events| ensures Releases(events[..i], name) <= Acquires(events[..i], name) {
        assert BalancedAt(states, events, name, i);
      }
    }
  }

  // ---------------------------------------------------------------- evenness

  /** No two instances differ by more than one. */
  ghost predicate Even(names: seq<string>, loads: Loads, m: nat) {
    forall n :: n in names ==> m <= LoadOf(loads, n) <= m + 1
  }

  function Total(names: seq<string>, loads: Loads): (r: nat) {
    if names == [] then 0 else Total(names[..|names| - 1], loads) + LoadOf(loads, names[|names| - 1])
  }

  lemma AcquireKeepsEven(names: seq<string>, a: Books, selected: Option<string>, b: Books, m: nat)
    returns (m': nat)
    requires names != [] && AcquireStep(names, a, selected, b) && Even(names, a.inflight, m)
    ensures Even(names, b.inflight, m')
  {
    ChoiceIsLeast(names, a.inflight, a.cursor, selected.value);
    if LoadOf(a.inflight, selected.value) == m {
      m' := m;
    } else {
      m' := m + 1;
    }
  }

  lemma {:induction false} TotalGrows(names: seq<string>, loads: Loads, name: string)
    requires Distinct(names)
    ensures Total(names, loads[name := LoadOf(loads, name) + 1]) == Total(names, loads) + if name in names then 1 else 0
    decreases |names|
  {
    if names != [] {
      var front, last := names[..|names| - 1], names[|names| - 1];
      assert Distinct(front) && last !in front;
      assert names == front + [last];
      TotalGrows(front, loads, name);
    }
  }

  /** The total lies between the two even loads, and strictly so as soon as one instance differs. */
  lemma {:induction false} TotalBounds(names: seq<string>, loads: Loads, m: nat, name: string)
    requires Even(names, loads, m)
    ensures |names| * m <= Total(names, loads) <= |names| * (m + 1)
    ensures name in names && LoadOf(loads, name) == m ==> Total(names, loads) < |names| * (m + 1)
    ensures name in names && LoadOf(loads, name) == m + 1 ==> Total(names, loads) > |names| * m
    decreases |names|
  {
    if names != [] {
      var front, last := names[..|names| - 1], names[|names| - 1];
      assert names == front + [last];
      TotalBounds(front, loads, m, name);
      OneMoreFactor(|front|, m);
      OneMoreFactor(|front|, m + 1);
    }
  }

  lemma OneMoreFactor(k: nat, m: nat)
    ensures (k + 1) * m == k * m + m
  {
  }

  /** The instance is available to every request of the run, and nothing of it is released. */
  ghost predicate InPlay(states: seq<Books>, events: seq<Event>, name: string)
    requires |states| == |events| + 1
  {
    forall i :: 0 <= i < |events| ==>
      && events[i] != Releasing(name)
      && (events[i].Acquired? ==> Closed(states[i].circuits, name, events[i].now))
  }

  /** Loads differ by at most one. */
  predicate Close(loads: Loads, x: string, y: string) {
    -1 <= LoadOf(loads, x) - LoadOf(loads, y) <= 1
  }

  lemma StepStaysClose(names: seq<string>, a: Books, e: Event, b: Books, x: string, y: string)
    requires Step(names, a, e, b) && x in names && y in names && Close(a.inflight, x, y)
    requires e != Releasing(x) && e != Releasing(y)
    requires e.Acquired? ==> Closed(a.circuits, x, e.now) && Closed(a.circuits, y, e.now)
    ensures Close(b.inflight, x, y)
  {
    if e.Acquired? {
      var available := Available(names, a.circuits, e.now);
      assert x in available && y in available;
      ChoiceIsLeast(available, a.inflight, a.cursor, e.selected.value);
    }
  }

  /** Whatever other instances come and go, fail, succeed or give requests back: two instances that stay
    * in play and whose loads differ by at most one keep loads that differ by at most one. */
  lemma {:induction false} LoadsStayClose(names: seq<string>, states: seq<Books>, events: seq<Event>, x: string,
                                          y: string)
    requires Run(names, states, events) && x in names && y in names && Close(states[0].inflight, x, y)
    requires InPlay(states, events, x) && InPlay(states, events, y)
    ensures Close(states[|events|].inflight, x, y)
    decreases |events|
  {
    hide Step, Close;
    if events != [] {
      var n := |events| - 1;
      LoadsStayClose(names, states[..n + 1], events[..n], x, y);
      assert Step(names, states[n], events[n], states[n + 1]);
      StepStaysClose(names, states[n], events[n], states[n + 1], x, y);
    }
  }

  /** Exactly the instances of `field` are available to every request, and none of them gives any back. */
  ghost predicate Field(names: seq<string>, states: seq<Books>, events: seq<Event>, field: seq<string>)
    requires |states| == |events| + 1
  {
    forall i :: 0 <= i < |events| ==>
      if events[i].Acquired? then Available(names, states[i].circuits, events[i].now) == field
      else events[i].Releasing? ==> events[i].name !in field
  }

  function Requests(events: seq<Event>): (r: nat) {
    if events == [] then 0
    else Requests(events[..|events| - 1]) + (if events[|events| - 1].Acquired? then 1 else 0)
  }

  lemma {:induction false} TotalSame(names: seq<string>, a: Loads, b: Loads)
    requires forall n :: n in names ==> LoadOf(a, n) == LoadOf(b, n)
    ensures Total(names, a) == Total(names, b)
    decreases |names|
  {
    if names != [] {
      TotalSame(names[..|names| - 1], a, b);
    }
  }

  lemma {:induction false} TotalOfEqual(names: seq<string>, loads: Loads, level: nat)
    requires forall n :: n in names ==> LoadOf(loads, n) == level
    ensures Total(names, loads) == |names| * level
    decreases |names|
  {
    if names != [] {
      TotalOfEqual(names[..|names| - 1], loads, level);
      OneMoreFactor(|names| - 1, level);
    }
  }

  lemma OtherKeepsLoads(names: seq<string>, a: Books, e: Event, b: Books, name: string)
    requires Step(names, a, e, b) && !e.Acquired? && (e.Releasing? ==> e.name != name)
    ensures LoadOf(b.inflight, name) == LoadOf(a.inflight, name)
  {
  }

  lemma AcquireOnField(names: seq<string>, a: Books, e: Event, b: Books, field: seq<string>)
    requires Step(names, a, e, b) && e.Acquired? && Available(names, a.circuits, e.now) == field
    ensures AcquireStep(field, a, e.selected, b)
  {
  }

  lemma {:induction false} StaysEven(names: seq<string>, states: seq<Books>, events: seq<Event>, field: seq<string>,
                                     level: nat)
    returns (m: nat)
    requires Run(names, states, events) && Field(names, states, events, field) && field != [] && Distinct(field)
    requires forall n :: n in field ==> LoadOf(states[0].inflight, n) == level
    ensures var last := states[|events|];
            Even(field, last.inflight, m) && Total(field, last.inflight) == |field| * level + Requests(events)
    decreases |events|
  {
    hide Step, Available, Distinct;
    if events == [] {
      m := level;
      TotalOfEqual(field, states[0].inflight, level);
    } else {
      var n := |events| - 1;
      var before := StaysEven(names, states[..n + 1], events[..n], field, level);
      var a, e, b := states[n], events[n], states[n + 1];
      assert Step(names, a, e, b);
      if e.Acquired? {
        AcquireOnField(names, a, e, b, field);
        m := AcquireKeepsEven(field, a, e.selected, b, before);
        ChoiceIsLeast(field, a.inflight, a.cursor, e.selected.value);
        TotalGrows(field, a.inflight, e.selected.value);
      } else {
        m := before;
        forall x | x in field ensures LoadOf(b.inflight, x) == LoadOf(a.inflight, x) {
          OtherKeepsLoads(names, a, e, b, x);
        }
        TotalSame(field, a.inflight, b.inflight);
      }
    }
  }

  /** From equal loads and without a release, t requests are spread evenly over the k instances that are
    * available to all of them: each takes t / k, rounded down or up, while the others are set aside. */
  lemma RequestsAreSpread(names: seq<string>, states: seq<Books>, events: seq<Event>, field: seq<string>, level: nat,
                          name: string)
    requires Run(names, states, events) && Field(names, states, events, field) && Distinct(field) && name in field
    requires forall n :: n in field ==> LoadOf(states[0].inflight, n) == level
    ensures var taken, t, k := LoadOf(states[|events|].inflight, name) - level, Requests(events), |field|;
            t / k <= taken <= (t + k - 1) / k
  {
    hide Run, Total, Field, Requests, Distinct;
    assert |states| == |events| + 1 by { StatesCount(names, states, events); }
    var m := StaysEven(names, states, events, field, level);
    var load, t, k := LoadOf(states[|events|].inflight, name), Requests(events), |field|;
    TotalBounds(field, states[|events|].inflight, m, name);
    Rounding(k * level + t, k, m);
    Shifted(t, k, level);
    Shifted(t + k - 1, k, level);
  }

  lemma Shifted(t: nat, k: nat, level: nat)
    requires k > 0
    ensures (k * level + t) / k == level + t / k
  {
    var q := t / k;
    assert k * q <= t < k * q + k;
    assert k * (level + q) == k * level + k * q;
    assert k * (level + q + 1) == k * (level + q) + k;
    Quotient(k * level + t, k, level + q);
  }

  lemma StatesCount(names: seq<string>, states: seq<Books>, events: seq<Event>)
    requires Run(names, states, events)
    ensures |states| == |events| + 1
  {
  }

  lemma Rounding(t: nat, k: nat, m: nat)
    requires k > 0 && k * m <= t <= k * (m + 1)
    ensures t < k * (m + 1) ==> t / k == m
    ensures t == k * (m + 1) ==> t / k == m + 1
    ensures t > k * m ==> (t + k - 1) / k == m + 1
    ensures t == k * m ==> (t + k - 1) / k == m
  {
    Quotient(t, k, m);
    Quotient(t, k, m + 1);
    Quotient(t + k - 1, k, m);
    Quotient(t + k - 1, k, m + 1);
    assert k * (m + 1) == k * m + k && k * (m + 1 + 1) == k * (m + 1) + k;
  }

  lemma Quotient(t: nat, k: nat, m: nat)
    requires k > 0
    ensures k * m <= t < k * (m + 1) ==> t / k == m
  {
    if k * m <= t < k * (m + 1) {
      var q := t / k;
      assert k * q <= t < k * (q + 1);
      if q < m {
        Monotone(k, q + 1, m);
      } else if q > m {
        Monotone(k, m + 1, q);
      }
    }
  }

  lemma Monotone(k: nat, a: nat, b: nat)
    requires a <= b
    ensures k * a <= k * b
  {
  }

  // ---------------------------------------------------------------- circuits

  function Failures(events: seq<Event>, name: string): (r: nat) {
    if events == [] then 0
    else
      var e := events[|events| - 1];
      Failures(events[..|events| - 1], name) + (if e.Failing? && e.name == name then 1 else 0)
  }

  /** Nothing forgets the failures of an instance: it never succeeds, and no request is placed after
    * its circuit has run out. */
  ghost predicate Unforgiven(states: seq<Books>, events: seq<Event>, name: string)
    requires |states| == |events| + 1
  {
    && (forall i :: 0 <= i < |events| ==> events[i] != Succeeding(name))
    && (forall i :: 0 <= i < |events| && events[i].Acquired? && name in states[i].circuits ==>
      events[i].now < states[i].circuits[name].until)
  }

  lemma {:induction false} FailuresAdd(names: seq<string>, states: seq<Books>, events: seq<Event>, name: string)
    requires Run(names, states, events) && states[0].circuits == map[] && Unforgiven(states, events, name)
    ensures var k, circuits := Failures(events, name), states[|events|].circuits;
            if name in circuits then k == circuits[name].failures > 0 else k == 0
    decreases |events|
  {
    hide Step;
    if events != [] {
      var n := |events| - 1;
      FailuresAdd(names, states[..n + 1], events[..n], name);
      assert Step(names, states[n], events[n], states[n + 1]);
      StepFailures(names, states[n], events[n], states[n + 1], name);
    }
  }

  lemma StepFailures(names: seq<string>, a: Books, e: Event, b: Books, name: string)
    requires Step(names, a, e, b) && e != Succeeding(name)
    requires e.Acquired? && name in a.circuits ==> e.now < a.circuits[name].until
    ensures if e.Failing? && e.name == name then b.circuits == a.circuits[name := Failed(a.circuits, name, e.now)]
            else
              && (name in b.circuits <==> name in a.circuits)
              && (name in a.circuits ==> b.circuits[name] == a.circuits[name])
  {
    hide Available, IsChoice;
  }

  /** The pause after the k-th failure in a row: 15, 30, 60, and then always 120 seconds; the instance
    * is set aside for exactly that long. */
  lemma KthFailurePause(names: seq<string>, states: seq<Books>, events: seq<Event>, name: string, at: nat, now: nat)
    requires Run(names, states, events) && states[0].circuits == map[] && Unforgiven(states, events, name)
    requires events != [] && events[|events| - 1] == Failing(name, at)
    ensures var k := Failures(events, name);
            var pause := (if k == 1 then 15 else if k == 2 then 30 else if k == 3 then 60 else 120) * SECOND;
            Closed(states[|events|].circuits, name, now) <==> now >= at + pause
  {
    hide Run, Failures, Step;
    StatesCount(names, states, events);
    FailuresAdd(names, states, events, name);
    LastFailure(names, states, events, name, at);
    PauseTable(states[|events|].circuits[name].failures);
  }

  lemma LastFailure(names: seq<string>, states: seq<Books>, events: seq<Event>, name: string, at: nat)
    requires Run(names, states, events) && events != [] && events[|events| - 1] == Failing(name, at)
    ensures var circuits := states[|events|].circuits;
            name in circuits && circuits[name].failures > 0 &&
            circuits[name].until == at + Backoff(circuits[name].failures, FIRST_PAUSE, LONGEST_PAUSE)
  {
    hide Backoff;
    var n := |events| - 1;
    assert Step(names, states[n], events[n], states[n + 1]);
  }

  lemma PauseTable(k: nat)
    requires k > 0
    ensures Backoff(k, FIRST_PAUSE, LONGEST_PAUSE) ==
            (if k == 1 then 15 else if k == 2 then 30 else if k == 3 then 60 else 120) * SECOND
  {
    assert Pow2(0) == 1 && Pow2(1) == 2 && Pow2(2) == 4 && Pow2(3) == 8;
    if k >= 4 {
      GrowsWithCount(FIRST_PAUSE, 3, k - 1);
    }
  }
}
