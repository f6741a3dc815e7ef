/** Keeping the exit addresses of one provider's instances apart. */
module Egress {
  import opened Common
  import opened ExitSlots
  import opened Rotation

  /** A slot as an instance reports it; `egress` is None when the report names no valid address. */
  datatype Slot = Slot(url: string, active: bool, enabled: bool, healthy: bool, direct: bool, egress: Option<string>)

  datatype Summary = Summary(instance: string, provider: string, slots: seq<Slot>)

  function ActiveIn(slots: seq<Slot>): (r: seq<Slot>) {
    if slots == [] then []
    else
      var s := slots[|slots| - 1];
      ActiveIn(slots[..|slots| - 1]) + (if s.active && s.enabled && s.healthy then [s] else [])
  }

  /** The slots that count: the active ones, else the first usable one, else the first. */
  method ActiveSummarySlots(summary: Summary) returns (active: seq<Slot>)
    ensures active == ActiveSlots(summary)
  {
    hide ActiveIn;
    var slots := summary.slots;
    active := [];
    assert ActiveIn(slots[..0]) == [] by { ActiveInNothing(); }
    for i := 0 to |slots|
      invariant active == ActiveIn(slots[..i])
    {
      ActiveInSnoc(slots, i);
      if slots[i].active && slots[i].enabled && slots[i].healthy {
        active := active + [slots[i]];
      }
    }
    assert slots[..|slots|] == slots;
    if active != [] {
      return active;
    }
    for i := 0 to |slots|
      invariant forall j :: 0 <= j < i ==> !Usable(slots[j])
    {
      if slots[i].enabled && slots[i].healthy {
        FirstUsable(slots, i);
        return [slots[i]];
      }
    }
    NoUsable(slots);
    if |slots| > 0 {
      return slots[..1];
    }
    return [];
  }

  predicate Usable(s: Slot) {
    s.enabled && s.healthy
  }

  function UsableIn(slots: seq<Slot>): (r: seq<Slot>) {
    if slots == [] then [] else (if Usable(slots[0]) then [slots[0]] else []) + UsableIn(slots[1..])
  }

  function ActiveSlots(summary: Summary): (r: seq<Slot>)
    ensures forall s :: s in r ==> s in summary.slots
  {
    ActiveAreSlots(summary.slots);
    var active, usable := ActiveIn(summary.slots), UsableIn(summary.slots);
    if active != [] then active
    else if usable != [] then usable[..1]
    else if summary.slots != [] then summary.slots[..1] else []
  }

  lemma {:induction false} ActiveAreSlots(slots: seq<Slot>)
    ensures forall s :: s in ActiveIn(slots) ==> s in slots
    ensures forall s :: s in UsableIn(slots) ==> s in slots
    decreases |slots|
  {
    if slots != [] {
      ActiveAreSlots(slots[..|slots| - 1]);
      ActiveAreSlots(slots[1..]);
    }
  }

  lemma ActiveInNothing()
    ensures ActiveIn([]) == []
  {
  }

  lemma ActiveInSnoc(slots: seq<Slot>, i: nat)
    requires i < |slots|
    ensures var s := slots[i];
            ActiveIn(slots[..i + 1]) == if s.active && s.enabled && s.healthy
              then ActiveIn(slots[..i]) + [s] else ActiveIn(slots[..i])
  {
    assert slots[..i + 1][..i] == slots[..i];
    assert ActiveIn(slots[..i]) + [] == ActiveIn(slots[..i]);
  }

  lemma {:induction false} FirstUsable(slots: seq<Slot>, i: nat)
    requires i < |slots| && Usable(slots[i]) && forall j :: 0 <= j < i ==> !Usable(slots[j])
    ensures UsableIn(slots) != [] && UsableIn(slots)[..1] == [slots[i]]
    decreases i
  {
    if i > 0 {
      assert !Usable(slots[0]);
      FirstUsable(slots[1..], i - 1);
      assert [] + UsableIn(slots[1..]) == UsableIn(slots[1..]);
    }
  }

  lemma {:induction false} NoUsable(slots: seq<Slot>)
    requires forall j :: 0 <= j < |slots| ==> !Usable(slots[j])
    ensures UsableIn(slots) == []
    decreases |slots|
  {
    if slots != [] {
      assert !Usable(slots[0]);
      NoUsable(slots[1..]);
    }
  }

  predicate InUse(s: Slot) {
    s.active && Usable(s)
  }

  lemma {:induction false} ActiveAreInUse(slots: seq<Slot>, s: Slot)
    ensures s in ActiveIn(slots) <==> s in slots && InUse(s)
    decreases |slots|
  {
    if slots != [] {
      var front, last := slots[..|slots| - 1], slots[|slots| - 1];
      assert slots == front + [last];
      ActiveAreInUse(front, s);
    }
  }

  /** Which slots of an instance count: every active usable one; without any, the first usable one alone;
    * without that, the first; so none only if there is none. */
  lemma SlotsThatCount(summary: Summary)
    ensures var slots, r := summary.slots, ActiveSlots(summary);
            if exists s :: s in slots && InUse(s) then forall s :: s in r <==> s in slots && InUse(s)
            else if exists s :: s in slots && Usable(s) then
              exists i :: 0 <= i < |slots| && r == [slots[i]] && Usable(slots[i]) &&
                forall j :: 0 <= j < i ==> !Usable(slots[j])
            else r == if slots == [] then [] else [slots[0]]
  {
    var slots, r := summary.slots, ActiveSlots(summary);
    forall s ensures s in ActiveIn(slots) <==> s in slots && InUse(s) {
      ActiveAreInUse(slots, s);
    }
    if s :| s in slots && InUse(s) {
      assert s in ActiveIn(slots);
    } else {
      SomeOrNone(ActiveIn(slots));
      if s :| s in slots && Usable(s) {
        var i := FindUsable(slots, s);
        FirstUsable(slots, i);
      } else {
        NoUsable(slots);
      }
    }
  }

  lemma SomeOrNone<T(!new)>(s: seq<T>)
    ensures s != [] ==> exists x :: x in s
  {
    if s != [] {
      assert s[0] in s;
    }
  }

  lemma FindUsable(slots: seq<Slot>, s: Slot) returns (i: nat)
    requires s in slots && Usable(s)
    ensures i < |slots| && Usable(slots[i]) && forall j :: 0 <= j < i ==> !Usable(slots[j])
  {
    i := 0;
    while !Usable(slots[i])
      invariant i < |slots| && (exists k :: i <= k < |slots| && slots[k] == s)
      invariant forall j :: 0 <= j < i ==> !Usable(slots[j])
      decreases |slots| - i
    {
      i := i + 1;
    }
  }

  // ---------------------------------------------------------------- routes

  ghost predicate OnRoute(active: seq<Slot>, url: string) {
    exists s :: s in active && s.url == url
  }

  /** The instances with a counted slot on a route. */
  ghost function OwnersOf(summaries: seq<Summary>, url: string): (r: set<string>) {
    if summaries == [] then {}
    else WithSlots(OwnersOf(summaries[..|summaries| - 1], url), summaries[|summaries| - 1].instance,
      ActiveSlots(summaries[|summaries| - 1]), url)
  }

  ghost function WithSlots(owners: set<string>, instance: string, active: seq<Slot>, url: string): set<string> {
    if OnRoute(active, url) then owners + {instance} else owners
  }

  lemma {:induction false} OwnersAre(summaries: seq<Summary>, url: string, name: string)
    ensures name in OwnersOf(summaries, url) <==>
            exists i :: 0 <= i < |summaries| && summaries[i].instance == name && OnRoute(ActiveSlots(summaries[i]), url)
    decreases |summaries|
  {
    hide OnRoute, ActiveSlots;
    if summaries != [] {
      var front, last := summaries[..|summaries| - 1], summaries[|summaries| - 1];
      OwnersAre(front, url, name);
      if name in OwnersOf(front, url) {
        var i :| 0 <= i < |front| && front[i].instance == name && OnRoute(ActiveSlots(front[i]), url);
        assert summaries[i] == front[i];
      }
      if exists i :: 0 <= i < |summaries| && summaries[i].instance == name && OnRoute(ActiveSlots(summaries[i]), url) {
        var i :| 0 <= i < |summaries| && summaries[i].instance == name && OnRoute(ActiveSlots(summaries[i]), url);
        if i < |front| {
          assert front[i] == summaries[i];
        }
      }
    }
  }

  type Table = map<string, set<string>>

  /** The table lists the owners of the managed routes. */
  ghost predicate Lists(table: Table, summaries: seq<Summary>, instance: string, active: seq<Slot>,
                        managed: string -> bool) {
    forall url {:trigger url in table} {:trigger OwnersOf(summaries, url)} ::
      && (url in table ==> managed(url))
      && (managed(url) ==>
            (if url in table then table[url] else {}) == WithSlots(OwnersOf(summaries, url), instance, active, url))
  }

  method RouteOwners(summaries: seq<Summary>, managed: string -> bool) returns (table: Table)
    ensures Lists(table, summaries, "", [], managed)
  {
    hide OwnersOf, ActiveSlots, OnRoute;
    table := map[];
    assert summaries[..0] == [];
    assert Lists(table, [], "", [], managed) by { NoOwners(); }
    for i := 0 to |summaries|
      invariant Lists(table, summaries[..i], "", [], managed)
    {
      var instance := summaries[i].instance;
      var active := ActiveSummarySlots(summaries[i]);
      NoOwners();
      for j := 0 to |active|
        invariant Lists(table, summaries[..i], instance, active[..j], managed)
      {
        var url := active[j].url;
        OneSlot(active, j);
        if !managed(url) {
          continue;
        }
        var owners := if url in table then table[url] else {};
        table := table[url := owners + {instance}];
      }
      assert active[..|active|] == active;
      OneSummary(table, summaries, i, managed);
    }
    assert summaries[..|summaries|] == summaries;
  }

  lemma NoOwners()
    ensures forall url :: OwnersOf([], url) == {} && !OnRoute([], url)
  {
  }

  lemma OneSlot(active: seq<Slot>, j: nat)
    requires j < |active|
    ensures forall url :: OnRoute(active[..j + 1], url) <==> OnRoute(active[..j], url) || active[j].url == url
    ensures active[..0] == []
  {
    forall url ensures OnRoute(active[..j + 1], url) <==> OnRoute(active[..j], url) || active[j].url == url {
      assert active[..j + 1] == active[..j] + [active[j]];
      if active[j].url == url {
        assert active[j] in active[..j + 1];
      }
      if OnRoute(active[..j], url) {
        var s :| s in active[..j] && s.url == url;
        assert s in active[..j + 1];
      }
    }
  }

  lemma OneSummary(table: Table, summaries: seq<Summary>, i: nat, managed: string -> bool)
    requires i < |summaries| && Lists(table, summaries[..i], summaries[i].instance, ActiveSlots(summaries[i]), managed)
    ensures Lists(table, summaries[..i + 1], "", [], managed)
  {
    hide ActiveSlots;
    assert summaries[..i + 1][..i] == summaries[..i];
    assert forall url :: !OnRoute([], url);
    forall url
      ensures OwnersOf(summaries[..i + 1], url) ==
              WithSlots(OwnersOf(summaries[..i], url), summaries[i].instance, ActiveSlots(summaries[i]), url)
    {
    }
  }

  // ---------------------------------------------------------------- one slot

  /** What the world outside answers while one slot is being rotated. */
  datatype Outside = Outside(online: bool, clock: nat, probes: nat -> Option<string>,
                             now: string, all: seq<string>, reach: string -> Option<string>)

  type Owners = map<string, string>

  /** Nothing that was owned changes hands. */
  ghost predicate Extends(before: Owners, after: Owners) {
    forall e :: e in before ==> e in after && after[e] == before[e]
  }

  /** What became of one slot: the address it ends with, and whether a rotation failed. */
  datatype Holding = Holding(provider: string, instance: string, egress: string, failed: bool)

  /** The slot is owned by its instance afterwards, or its rotation failed and another instance owns
    * the address it still has. */
  ghost predicate Settled(before: Owners, after: Owners, h: Holding, first: string) {
    && Extends(before, after)
    && (!h.failed ==> h.egress in after && after[h.egress] == h.instance && after.Keys == before.Keys + {h.egress})
    && (h.failed ==> after == before && h.egress == first && first in before && before[first] != h.instance)
    && (h.egress != first ==> h.egress !in before && first in before && before[first] != h.instance)
  }

  /** What a gateway did for a slot: its desk was turned, and the slot holds the address of the slot now
    * active; or nothing was free. */
  ghost predicate ByGateway(before: Desk, after: Desk, out: Outside, forbidden: set<string>, first: string,
                            h: Holding) {
    exists moved :: Turned(before, after, forbidden, out.clock, out.probes, moved) &&
      if moved.Some? then
        !h.failed && after.active < |after.slots| && after.slots[after.active].egress == h.egress
      else h.failed && h.egress == first
  }

  /** What a proxy group did for a slot: the node switched to last gives the address the slot holds; or
    * none within the limit was free. */
  ghost predicate ByNodes(out: Outside, forbidden: set<string>, first: string, h: Holding, nodes: seq<string>) {
    exists taken, start ::
      GroupTurned(NodesOf(out.all), out.now, out.reach, first, forbidden, taken, nodes, start) &&
      if taken.Some? then !h.failed && nodes != [] && out.reach(nodes[|nodes| - 1]) == Some(h.egress)
      else h.failed && h.egress == first
  }

  /** The whole story of one slot: it keeps its address if no other instance owns it; it fails if its
    * route is shared, not managed, or out of reach; and otherwise the gateway, or the group, decides. */
  ghost predicate Explained(summary: Summary, first: string, books: Owners, managed: bool, shared: bool, out: Outside,
                            before: Desk, after: Desk, h: Holding, nodes: seq<string>) {
    && h.provider == summary.provider && h.instance == summary.instance
    && (if first !in books || books[first] == summary.instance then
          !h.failed && h.egress == first && after == before && nodes == []
        else if (shared && |summary.slots| < 2) || !out.online || (|summary.slots| < 2 && !managed) then
          h.failed && h.egress == first && after == before && nodes == []
        else if |summary.slots| >= 2 then
          nodes == [] && ByGateway(before, after, out, books.Keys, first, h)
        else
          after == before && ByNodes(out, books.Keys, first, h, nodes))
  }

  /** Settles one slot with a valid address.  `shared` says that its managed route has several owners;
    * such a route is never switched. */
  method SettleSlot(summary: Summary, slot: Slot, occupied: Owners, managed: bool, shared: bool, g: Gateway,
                    out: Outside)
    returns (after: Owners, h: Holding, switches: seq<string>)
    requires slot.egress.Some? && AllDifferent(g.slots)
    modifies g`active, g.slots
    ensures Settled(occupied, after, h, slot.egress.value)
    ensures Explained(summary, slot.egress.value, occupied, managed, shared, out, old(DeskOf(g)), DeskOf(g), h,
                      switches)
    ensures switches != [] ==> managed && !shared
  {
    hide Turned, GroupTurned, Distinct, States, NodesOf;
    var egress := slot.egress.value;
    after, switches := occupied, [];
    if egress !in occupied {
      after := occupied[egress := summary.instance];
      return after, Holding(summary.provider, summary.instance, egress, false), [];
    }
    if occupied[egress] == summary.instance {
      return after, Holding(summary.provider, summary.instance, egress, false), [];
    }
    h := Holding(summary.provider, summary.instance, egress, true);
    if shared && |summary.slots| < 2 {
      return;
    }
    var forbidden := occupied.Keys;
    if |summary.slots| > 1 {
      if !out.online {
        return;
      }
      ghost var before := DeskOf(g);
      var moved, address := RotateActive(g, forbidden, out.clock, out.probes);
      if moved.None? {
        return;
      }
      TurnedIsFree(before, DeskOf(g), forbidden, out, moved);
      h := Holding(summary.provider, summary.instance, address, false);
    } else {
      if !managed || !out.online {
        return;
      }
      var nodes := UniqueNodes(out.all);
      NodesAreDistinct(out.all);
      var taken, address, attempts, switched, start := RotateGroup(nodes, out.now, out.reach, egress, forbidden);
      switches := switched;
      if taken.None? {
        return;
      }
      GroupIsFree(nodes, out, egress, forbidden, taken, switches, start);
      h := Holding(summary.provider, summary.instance, address, false);
    }
    after := occupied[h.egress := summary.instance];
  }

  lemma TurnedIsFree(before: Desk, after: Desk, forbidden: set<string>, out: Outside, moved: Option<nat>)
    requires Turned(before, after, forbidden, out.clock, out.probes, moved) && moved.Some?
    ensures |before.slots| == |after.slots| >= 2 && after.active < |after.slots|
    ensures after.slots[after.active].egress !in forbidden
  {
    hide Offers;
  }

  lemma GroupIsFree(nodes: seq<string>, out: Outside, previous: string, forbidden: set<string>, taken: Option<nat>,
                    switches: seq<string>, start: int)
    requires GroupTurned(nodes, out.now, out.reach, previous, forbidden, taken, switches, start) && taken.Some?
    ensures switches != [] && out.reach(switches[|switches| - 1]).Some?
    ensures out.reach(switches[|switches| - 1]).value !in forbidden
  {
    hide Alternatives;
  }
}
