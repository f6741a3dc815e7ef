/** Moving an instance to another exit address: the gateway walks its slots, the control plane walks
  * the nodes of a proxy group.  Both take the first address that is free. */
module Rotation {
  import opened Common
  import opened Cooldown
  import opened ExitSlots

  predicate Free(offer: Option<string>, previous: string, forbidden: set<string>) {
    offer.Some? && offer.value != previous && offer.value !in forbidden
  }

  /** `taken` is the position of the first free offer, if there is one. */
  ghost predicate IsFirstFree(offers: seq<Option<string>>, previous: string, forbidden: set<string>,
                              taken: Option<nat>) {
    if taken.Some? then
      && taken.value < |offers| && Free(offers[taken.value], previous, forbidden)
      && forall j :: 0 <= j < taken.value ==> !Free(offers[j], previous, forbidden)
    else forall j :: 0 <= j < |offers| ==> !Free(offers[j], previous, forbidden)
  }

  // ---------------------------------------------------------------- the slots of one gateway

  /** What is recorded of a slot. */
  datatype SlotState = SlotState(egress: string, disabled: bool, until: nat, cooldowns: Table)

  ghost function StateOf(s: ProxySlot): SlotState
    reads s
  {
    SlotState(s.egress, s.disabled, s.until, s.modelCooldowns)
  }

  /** The slots of a gateway and the place of the active one, as they stand at some moment. */
  datatype Desk = Desk(slots: seq<SlotState>, active: nat)

  ghost function States(slots: seq<ProxySlot>): (r: seq<SlotState>)
    reads slots
    ensures |r| == |slots| && forall k :: 0 <= k < |slots| ==> r[k] == StateOf(slots[k])
  {
    if slots == [] then [] else States(slots[..|slots| - 1]) + [StateOf(slots[|slots| - 1])]
  }

  ghost function DeskOf(g: Gateway): (r: Desk)
    reads g, g.slots
  {
    Desk(States(g.slots), g.active)
  }

  function ReadyIn(s: SlotState, now: nat): nat {
    var live := Live(s.cooldowns, now);
    if "" in live then Max(s.until, live[""].until) else s.until
  }

  /** The address a slot would give: the one on record, or else what a probe finds. */
  function OfferIn(s: SlotState, now: nat, answer: Option<string>): Option<string> {
    if s.disabled || ReadyIn(s, now) > now then None
    else if s.egress != "" then Some(s.egress)
    else answer
  }

  /** What the next n slots of the walk would give. */
  function Offers(slots: seq<SlotState>, current: nat, n: nat, now: nat,
                  probes: nat -> Option<string>): (r: seq<Option<string>>)
    requires slots != []
    ensures |r| == n
    ensures forall i :: 0 <= i < n ==>
              var k := Around(current, i + 1, |slots|);
              r[i] == OfferIn(slots[k], now, probes(k))
  {
    if n == 0 then []
    else
      var k := Around(current, n, |slots|);
      Offers(slots, current, n - 1, now, probes) + [OfferIn(slots[k], now, probes(k))]
  }

  /** All a gateway could move to. */
  function AllOffers(d: Desk, now: nat, probes: nat -> Option<string>): (r: seq<Option<string>>) {
    if |d.slots| < 2 then [] else Offers(d.slots, d.active % |d.slots|, |d.slots| - 1, now, probes)
  }

  /** The desk was turned to the first free offer of the walk, or nothing was free.  Slots the walk did
    * not come to are as before, the one that was active among them; and a known address stays. */
  ghost predicate Turned(before: Desk, after: Desk, forbidden: set<string>, now: nat, probes: nat -> Option<string>,
                         moved: Option<nat>) {
    var n := |before.slots|;
    && |after.slots| == n
    && (n < 2 ==> moved == None && after == before)
    && (n >= 2 ==>
          var current := before.active % n;
          && IsFirstFree(AllOffers(before, now, probes), before.slots[current].egress, forbidden, moved)
          && after.active == (if moved.Some? then Around(current, moved.value + 1, n) else before.active)
          && (moved.Some? ==>
                AllOffers(before, now, probes)[moved.value] == Some(after.slots[after.active].egress))
          && after.slots[current] == before.slots[current]
          && (forall j :: moved.Some? && moved.value + 1 < j < n ==>
                after.slots[Around(current, j, n)] == before.slots[Around(current, j, n)])
          && (forall k :: 0 <= k < n && after.slots[k].egress != before.slots[k].egress ==>
                before.slots[k].egress == ""))
  }

  lemma AroundOnce(start: nat, i: nat, j: nat, n: nat)
    requires n > 0 && i < n && j < n && start < n && Around(start, i, n) == Around(start, j, n)
    ensures i == j
  {
    AroundIs(start, i, n);
    AroundIs(start, j, n);
    WrapOne(start, i, n);
    WrapOne(start, j, n);
  }

  lemma WrapOne(start: nat, i: nat, n: nat)
    requires start < n && i < n
    ensures (start + i) % n == if start + i < n then start + i else start + i - n
  {
    if start + i >= n {
      Wraps(start + i - n, n);
    }
  }

  /** Tries to learn the current exit address of a slot; None when the probe fails. */
  method RefreshSlotEgress(slot: ProxySlot, answer: Option<string>) returns (egress: Option<string>)
    modifies slot
    ensures egress == answer
    ensures answer.Some? ==> slot.egress == answer.value && !slot.disabled
    ensures answer.None? ==> slot.disabled && slot.egress == old(slot.egress)
  {
    if answer.None? {
      slot.disabled := true;
      return None;
    }
    if slot.egress != answer.value {
      slot.modelCooldowns := map[];
    }
    slot.egress, slot.fails, slot.until, slot.disabled := answer.value, 0, 0, false;
    return answer;
  }

  /** The address of one slot, asked for when it is its turn. */
  method AskSlot(slot: ProxySlot, now: nat, answer: Option<string>) returns (egress: Option<string>)
    modifies slot
    ensures egress == old(OfferIn(StateOf(slot), now, answer))
    ensures egress.Some? ==> slot.egress == egress.value
    ensures slot.egress != old(slot.egress) ==> old(slot.egress) == ""
  {
    hide Live;
    var off, ready := slot.Readiness("", now);
    if off || now < ready {
      return None;
    }
    if slot.egress != "" {
      return Some(slot.egress);
    }
    egress := RefreshSlotEgress(slot, answer);
  }

  /** One slot of the list; the others stay as they are. */
  method AskAt(slots: seq<ProxySlot>, index: nat, now: nat, answer: Option<string>) returns (egress: Option<string>)
    requires AllDifferent(slots) && index < |slots|
    modifies slots[index]
    ensures egress == OfferIn(old(States(slots))[index], now, answer)
    ensures States(slots) == old(States(slots))[index := StateOf(slots[index])]
    ensures egress.Some? ==> slots[index].egress == egress.value
    ensures slots[index].egress != old(States(slots))[index].egress ==> old(States(slots))[index].egress == ""
  {
    hide Live, OfferIn;
    egress := AskSlot(slots[index], now, answer);
  }

  /** Moves a gateway to the next slot whose exit address is free. */
  method RotateActive(g: Gateway, forbidden: set<string>, now: nat, probes: nat -> Option<string>)
    returns (moved: Option<nat>, egress: string)
    requires AllDifferent(g.slots)
    modifies g`active, g.slots
    ensures Turned(old(DeskOf(g)), DeskOf(g), forbidden, now, probes, moved)
    ensures moved.Some? ==> g.active < |g.slots| && g.slots[g.active].egress == egress
  {
    hide Live, Around, OfferIn, Offers, States, AllDifferent, Turned, IsFirstFree;
    moved, egress := None, "";
    var slots := g.slots;
    ghost var before := DeskOf(g);
    if |slots| < 2 {
      NeverTurned(before, forbidden, now, probes);
      return;
    }
    var n := |slots|;
    var current := g.active % n;
    var previousEgress := slots[current].egress;
    ghost var offers := AllOffers(before, now, probes);
    for offset := 1 to n
      invariant g.active == old(g.active)
      invariant Walked(before, States(slots), current, offset)
      invariant forall j :: 0 <= j < offset - 1 ==> !Free(offers[j], previousEgress, forbidden)
    {
      var index := (current + offset) % n;
      assert index == Around(current, offset, n) by { AroundIs(current, offset, n); }
      ghost var states := States(slots);
      var offer := AskAt(slots, index, now, probes(index));
      WalkedOn(before, states, States(slots), current, offset);
      assert offer == offers[offset - 1];
      if offer.None? || offer.value == previousEgress || offer.value in forbidden {
        continue;
      }
      g.active := index;
      TurnedHere(before, DeskOf(g), forbidden, now, probes, offset);
      return Some(offset - 1), offer.value;
    }
    TurnedNowhere(before, DeskOf(g), forbidden, now, probes);
  }

  /** The walk has asked the slots in front of `offset`; the one it began at and those to come are as they
    * were, and no known address has changed. */
  ghost predicate Walked(before: Desk, slots: seq<SlotState>, current: nat, offset: nat) {
    var n := |before.slots|;
    && |slots| == n && current < n
    && slots[current] == before.slots[current]
    && (forall j :: offset <= j < n ==> slots[Around(current, j, n)] == before.slots[Around(current, j, n)])
    && (forall k :: 0 <= k < n && slots[k].egress != before.slots[k].egress ==> before.slots[k].egress == "")
  }

  lemma NeverTurned(before: Desk, forbidden: set<string>, now: nat, probes: nat -> Option<string>)
    requires |before.slots| < 2
    ensures Turned(before, before, forbidden, now, probes, None)
  {
  }

  lemma TurnedHere(before: Desk, after: Desk, forbidden: set<string>, now: nat, probes: nat -> Option<string>,
                   offset: nat)
    requires var n := |before.slots|;
             && 1 <= offset < n && Walked(before, after.slots, before.active % n, offset + 1)
             && after.active == Around(before.active % n, offset, n)
    requires var offers := AllOffers(before, now, probes);
             var previous := before.slots[before.active % |before.slots|].egress;
             && (forall j :: 0 <= j < offset - 1 ==> !Free(offers[j], previous, forbidden))
             && Free(offers[offset - 1], previous, forbidden)
             && offers[offset - 1] == Some(after.slots[after.active].egress)
    ensures Turned(before, after, forbidden, now, probes, Some(offset - 1))
  {
    hide Offers, Around;
  }

  lemma TurnedNowhere(before: Desk, after: Desk, forbidden: set<string>, now: nat, probes: nat -> Option<string>)
    requires var n := |before.slots|;
             n >= 2 && Walked(before, after.slots, before.active % n, n) && after.active == before.active
    requires var offers := AllOffers(before, now, probes);
             var previous := before.slots[before.active % |before.slots|].egress;
             forall j :: 0 <= j < |before.slots| - 1 ==> !Free(offers[j], previous, forbidden)
    ensures Turned(before, after, forbidden, now, probes, None)
  {
    hide Offers, Around;
  }

  lemma CurrentIsStart(current: nat, n: nat)
    requires current < n
    ensures Around(current, 0, n) == current
  {
    AroundIs(current, 0, n);
    Wraps(current, n);
  }

  lemma WalkedOn(before: Desk, slots: seq<SlotState>, after: seq<SlotState>, current: nat, offset: nat)
    requires Walked(before, slots, current, offset) && 1 <= offset < |slots|
    requires var index := Around(current, offset, |slots|);
             && |after| == |slots| && after == slots[index := after[index]]
             && (after[index].egress != slots[index].egress ==> slots[index].egress == "")
    ensures Walked(before, after, current, offset + 1)
    ensures slots[Around(current, offset, |slots|)] == before.slots[Around(current, offset, |slots|)]
  {
    hide Around;
    var n := |slots|;
    CurrentIsStart(current, n);
    forall j | 0 <= j < n && j != offset ensures Around(current, j, n) != Around(current, offset, n) {
      if Around(current, j, n) == Around(current, offset, n) {
        AroundOnce(current, j, offset, n);
      }
    }
    assert Around(current, 0, n) != Around(current, offset, n);
  }

  // ---------------------------------------------------------------- the nodes of one proxy group

  const MAX_ATTEMPTS: nat := 8

  predicate IsNode(value: string) {
    value != "" && value != "DIRECT" && value != "REJECT"
  }

  /** The nodes named, trimmed, each where it is named first. */
  function NodesOf(values: seq<string>): (r: seq<string>) {
    if values == [] then []
    else
      var front, value := NodesOf(values[..|values| - 1]), TrimSpace(values[|values| - 1]);
      if IsNode(value) && value !in front then front + [value] else front
  }

  lemma {:induction false} NodesAreDistinct(values: seq<string>)
    ensures Distinct(NodesOf(values))
    ensures forall x :: x in NodesOf(values) <==> IsNode(x) && exists v :: v in values && TrimSpace(v) == x
    decreases |values|
  {
    hide TrimSpace, IsNode;
    if values != [] {
      var front, last := values[..|values| - 1], values[|values| - 1];
      assert values == front + [last];
      NodesAreDistinct(front);
    }
  }

  /** Trims the names, and drops those that are no nodes and repetitions. */
  method UniqueNodes(values: seq<string>) returns (nodes: seq<string>)
    ensures nodes == NodesOf(values)
  {
    hide TrimSpace;
    nodes := [];
    var seen: set<string> := {};
    assert values[..0] == [];
    for i := 0 to |values|
      invariant nodes == NodesOf(values[..i]) && seen == Elems(nodes)
    {
      var value := TrimSpace(values[i]);
      assert values[..i + 1][..i] == values[..i];
      if value == "" || value == "DIRECT" || value == "REJECT" || value in seen {
        continue;
      }
      assert Elems(nodes + [value]) == Elems(nodes) + {value};
      seen := seen + {value};
      nodes := nodes + [value];
    }
    assert values[..|values|] == values;
  }

  /** Where the current node stands among the nodes, -1 for nowhere. */
  ghost predicate IsPlace(nodes: seq<string>, now: string, start: int) {
    if now in nodes then 0 <= start < |nodes| && nodes[start] == now else start == -1
  }

  method FindNode(nodes: seq<string>, now: string) returns (start: int)
    ensures -1 <= start < |nodes| && IsPlace(nodes, now, start)
  {
    for index := 0 to |nodes|
      invariant forall j :: 0 <= j < index ==> nodes[j] != now
    {
      if nodes[index] == now {
        return index;
      }
    }
    return -1;
  }

  /** The nodes to switch to, in the order they are tried. */
  function Alternatives(nodes: seq<string>, start: int): (r: seq<string>)
    requires -1 <= start < |nodes|
    ensures |r| >= |nodes| - 1
  {
    if start == -1 then nodes else nodes[start + 1..] + nodes[..start]
  }

  /** Every node but the current one, each once. */
  lemma AlternativesAreTheOthers(nodes: seq<string>, now: string, start: int)
    requires Distinct(nodes) && IsPlace(nodes, now, start)
    ensures Distinct(Alternatives(nodes, start)) && Elems(Alternatives(nodes, start)) == Elems(nodes) - {now}
  {
    var others := Alternatives(nodes, start);
    if start >= 0 {
      assert nodes == nodes[..start] + [now] + nodes[start + 1..];
      assert forall i :: 0 <= i < |others| ==>
                others[i] == if i < |nodes| - start - 1 then nodes[start + 1 + i] else nodes[i - (|nodes| - start - 1)];
      forall x | x in nodes && x != now ensures x in others {
        var i :| 0 <= i < |nodes| && nodes[i] == x;
        if i < start {
          assert others[|nodes| - start - 1 + i] == x;
        } else {
          assert others[i - start - 1] == x;
        }
      }
    }
  }

  function OffersOf(nodes: seq<string>, reach: string -> Option<string>): (r: seq<Option<string>>)
    ensures |r| == |nodes| && forall i :: 0 <= i < |nodes| ==> r[i] == reach(nodes[i])
  {
    seq(|nodes|, i requires 0 <= i < |nodes| => reach(nodes[i]))
  }

  function Limit(nodes: seq<string>): nat
    requires |nodes| >= 2
  {
    Min(|nodes| - 1, MAX_ATTEMPTS)
  }

  /** The switches of a group, in order: to one other node after the other, up to the first whose address
    * is free; or, when none is, to all within the limit and back. */
  ghost predicate GroupTurned(nodes: seq<string>, now: string, reach: string -> Option<string>, previous: string,
                              forbidden: set<string>, taken: Option<nat>, switches: seq<string>, start: int) {
    && -1 <= start < |nodes| && IsPlace(nodes, now, start)
    && (|nodes| < 2 ==> taken == None && switches == [])
    && (|nodes| >= 2 ==>
          var others := Alternatives(nodes, start)[..Limit(nodes)];
          && IsFirstFree(OffersOf(others, reach), previous, forbidden, taken)
          && switches == if taken.Some? then others[..taken.value + 1]
                         else if now != "" then others + [now] else others)
  }

  /** Switches a proxy group to the first other node whose exit address is free, after at most eight
    * attempts; `reach` says which address a node gives, if switching and probing succeed.  Without
    * success the group is switched back.  `switches` lists the switches in order. */
  method RotateGroup(nodes: seq<string>, now: string, reach: string -> Option<string>, previousEgress: string,
                     forbidden: set<string>)
    returns (taken: Option<nat>, egress: string, attempts: nat, switches: seq<string>, ghost start: int)
    requires Distinct(nodes)
    ensures GroupTurned(nodes, now, reach, previousEgress, forbidden, taken, switches, start)
    ensures attempts == if |nodes| < 2 then 0 else if taken.Some? then taken.value + 1 else Limit(nodes)
    ensures taken.Some? ==> switches != [] && reach(switches[|switches| - 1]) == Some(egress)
  {
    hide Alternatives, OffersOf, Distinct;
    taken, egress, attempts, switches := None, "", 0, [];
    var place := FindNode(nodes, now);
    start := place;
    if |nodes| < 2 {
      return;
    }
    var limit := Limit(nodes);
    ghost var others := Alternatives(nodes, place)[..limit];
    ghost var offers := OffersOf(others, reach);
    var offset := 1;
    while offset <= |nodes| && attempts < limit
      invariant 1 <= offset && attempts == offset - 1 <= limit
      invariant switches == others[..attempts]
      invariant forall j :: 0 <= j < attempts ==> !Free(offers[j], previousEgress, forbidden)
    {
      var index := (place + offset + |nodes|) % |nodes|;
      NodeAt(nodes, now, place, offset);
      var node := nodes[index];
      offset := offset + 1;
      if node == now {
        continue;
      }
      attempts := attempts + 1;
      switches := switches + [node];
      var found := reach(node);
      if found.None? || found.value in forbidden || found.value == previousEgress {
        continue;
      }
      return Some(attempts - 1), found.value, attempts, switches, place;
    }
    if now != "" {
      switches := switches + [now];
    }
  }

  /** Where the walk from `start` stands after some steps. */
  function Step(start: int, offset: nat, n: nat): int {
    if start + offset < n then start + offset else start + offset - n
  }

  lemma StepIs(start: int, offset: nat, n: nat)
    requires n > 0 && -1 <= start < n && 1 <= offset <= n
    ensures 0 <= Step(start, offset, n) < n && (start + offset + n) % n == Step(start, offset, n)
  {
    Wraps(Step(start, offset, n), n);
    if start + offset >= n {
      TwiceWraps(start + offset - n, n);
    }
  }

  lemma NodeAt(nodes: seq<string>, now: string, start: int, offset: nat)
    requires |nodes| >= 2 && Distinct(nodes) && IsPlace(nodes, now, start) && 1 <= offset <= Limit(nodes)
    ensures 0 <= (start + offset + |nodes|) % |nodes| < |nodes|
    ensures nodes[(start + offset + |nodes|) % |nodes|] == Alternatives(nodes, start)[..Limit(nodes)][offset - 1] != now
  {
    StepIs(start, offset, |nodes|);
    AlternativeAt(nodes, now, start, offset);
  }

  lemma AlternativeAt(nodes: seq<string>, now: string, start: int, offset: nat)
    requires |nodes| >= 2 && Distinct(nodes) && IsPlace(nodes, now, start) && 1 <= offset <= Limit(nodes)
    requires 0 <= Step(start, offset, |nodes|) < |nodes|
    ensures nodes[Step(start, offset, |nodes|)] == Alternatives(nodes, start)[..Limit(nodes)][offset - 1] != now
  {
    var at, n := Step(start, offset, |nodes|), |nodes|;
    assert at != start;
    assert start >= 0 ==> nodes[at] != nodes[start];
    var others := Alternatives(nodes, start);
    assert others[..Limit(nodes)][offset - 1] == others[offset - 1];
  }

  lemma TwiceWraps(a: nat, n: nat)
    requires a < n
    ensures (a + n + n) % n == a
  {
  }
}
