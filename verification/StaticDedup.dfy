/** Probing a fixed list of slots and keeping one slot per exit address. */
module StaticDedup {
  import opened Common
  import opened ExitSlots

  /** A slot after probing; `egress` is None when the slot is off or its address is not known. */
  datatype Seen = Seen(url: string, egress: Option<string>)

  /** Slot i goes before slot j: an explicit proxy before a direct exit, then the earlier one. */
  predicate Before(seen: seq<Seen>, i: nat, j: nat)
    requires i < |seen| && j < |seen|
  {
    if (seen[i].url == "") == (seen[j].url == "") then i < j else seen[i].url != ""
  }

  predicate SameExit(seen: seq<Seen>, i: nat, j: nat)
    requires i < |seen| && j < |seen|
  {
    seen[i].egress.Some? && seen[i].egress == seen[j].egress
  }

  /** Slot i is the first of its address. */
  predicate Keeps(seen: seq<Seen>, i: nat)
    requires i < |seen|
  {
    seen[i].egress.Some? && forall j :: 0 <= j < |seen| && j != i && SameExit(seen, i, j) ==> Before(seen, i, j)
  }

  lemma {:induction false} SomeSlotKeeps(seen: seq<Seen>, i: nat) returns (k: nat)
    requires i < |seen| && seen[i].egress.Some?
    ensures k < |seen| && SameExit(seen, i, k) && Keeps(seen, k)
  {
    k := FirstOf(seen, i, |seen|);
  }

  lemma {:induction false} FirstOf(seen: seq<Seen>, i: nat, n: nat) returns (k: nat)
    requires i < |seen| && seen[i].egress.Some? && n <= |seen|
    ensures k < |seen| && SameExit(seen, i, k)
    ensures forall j :: 0 <= j < n && j != k && SameExit(seen, k, j) ==> Before(seen, k, j)
    decreases n
  {
    if n == 0 {
      k := i;
    } else {
      var l := FirstOf(seen, i, n - 1);
      k := l;
      if n - 1 != l && SameExit(seen, l, n - 1) && !Before(seen, l, n - 1) {
        k := n - 1;
        forall j | 0 <= j < n - 1 && SameExit(seen, k, j) ensures Before(seen, k, j) {
          assert j != l ==> SameExit(seen, l, j);
        }
      }
    }
  }

  lemma BeforeOneWay(seen: seq<Seen>, a: nat, b: nat)
    requires a < |seen| && b < |seen| && a != b
    ensures Before(seen, a, b) <==> !Before(seen, b, a)
  {
  }

  /** Every observed address has exactly one keeper, and it is a proxy whenever a proxy has the address. */
  lemma OneKeeper(seen: seq<Seen>, i: nat)
    requires i < |seen| && seen[i].egress.Some?
    ensures exists k :: 0 <= k < |seen| && SameExit(seen, i, k) && Keeps(seen, k)
    ensures forall k, l :: 0 <= k < |seen| && 0 <= l < |seen| && SameExit(seen, k, l) ==>
              (Keeps(seen, k) && Keeps(seen, l) ==> k == l)
    ensures forall k :: 0 <= k < |seen| && SameExit(seen, i, k) && Keeps(seen, k) ==>
              (seen[i].url != "" ==> seen[k].url != "")
  {
    var k := SomeSlotKeeps(seen, i);
    forall a, b | 0 <= a < |seen| && 0 <= b < |seen| && SameExit(seen, a, b) && Keeps(seen, a) && Keeps(seen, b)
      ensures a == b
    {
      if a != b {
        assert SameExit(seen, b, a);
        BeforeOneWay(seen, a, b);
      }
    }
    forall a | 0 <= a < |seen| && SameExit(seen, i, a) && Keeps(seen, a) && seen[i].url != ""
      ensures seen[a].url != "" {
      assert SameExit(seen, a, i);
    }
  }

  // ---------------------------------------------------------------- the walk

  /** `first` names, for every address among the first n slots, the keeper of that part. */
  ghost predicate Leads(seen: seq<Seen>, n: nat, first: map<string, nat>)
    requires n <= |seen|
  {
    && (forall e :: e in first ==> first[e] < n && seen[first[e]].egress == Some(e) && Keeps(seen[..n], first[e]))
    && (forall j :: 0 <= j < n && seen[j].egress.Some? ==> seen[j].egress.value in first)
  }

  lemma LeadsNew(seen: seq<Seen>, n: nat, first: map<string, nat>, e: string)
    requires n < |seen| && Leads(seen, n, first) && seen[n].egress == Some(e) && e !in first
    ensures Leads(seen, n + 1, first[e := n])
  {
    KeepsOn(seen, n, first);
    var part := seen[..n + 1];
    assert Keeps(part, n);
  }

  lemma LeadsOff(seen: seq<Seen>, n: nat, first: map<string, nat>)
    requires n < |seen| && Leads(seen, n, first) && seen[n].egress.None?
    ensures Leads(seen, n + 1, first)
  {
    KeepsOn(seen, n, first);
  }

  lemma LeadsMore(seen: seq<Seen>, n: nat, first: map<string, nat>, e: string)
    requires n < |seen| && Leads(seen, n, first) && seen[n].egress == Some(e) && e in first
    ensures Leads(seen, n + 1, if seen[first[e]].url == "" && seen[n].url != "" then first[e := n] else first)
  {
    KeepsOn(seen, n, first);
    var part := seen[..n + 1];
    var k := first[e];
    if seen[k].url == "" && seen[n].url != "" {
      forall j | 0 <= j < n && SameExit(part, n, j) ensures Before(part, n, j) {
        assert j != k ==> SameExit(seen[..n], k, j) && Before(seen[..n], k, j);
      }
      assert Keeps(part, n);
    } else {
      assert Before(part, k, n);
      assert Keeps(part, k);
    }
  }

  /** Keepers of other addresses stay when one slot is added. */
  lemma KeepsOn(seen: seq<Seen>, n: nat, first: map<string, nat>)
    requires n < |seen| && Leads(seen, n, first)
    ensures forall e :: e in first && seen[n].egress != Some(e) ==> Keeps(seen[..n + 1], first[e])
    ensures forall e, j :: e in first && 0 <= j < n && j != first[e] && seen[j].egress == Some(e) ==>
            Before(seen[..n + 1], first[e], j)
  {
    var part, all := seen[..n], seen[..n + 1];
    forall e | e in first && seen[n].egress != Some(e) ensures Keeps(all, first[e]) {
      forall j | 0 <= j < |all| && j != first[e] && SameExit(all, first[e], j) ensures Before(all, first[e], j) {
        assert j < n && SameExit(part, first[e], j);
      }
    }
    forall e, j | e in first && 0 <= j < n && j != first[e] && seen[j].egress == Some(e)
      ensures Before(all, first[e], j) {
      assert SameExit(part, first[e], j);
    }
  }

  function SeenOf(s: ProxySlot): Seen
    reads s
  {
    Seen(s.url, if s.disabled || s.egress == "" then None else Some(s.egress))
  }

  /** What a probe makes of a slot. */
  function Probed(s: ProxySlot, answer: Option<string>): Seen {
    Seen(s.url, if answer.None? || answer.value == "" then None else answer)
  }

  /** Every slot reports once, in any order. */
  ghost predicate Covers(order: seq<nat>, n: nat) {
    && Distinct(order)
    && (forall j :: 0 <= j < |order| ==> order[j] < n)
    && (forall k: nat :: k < n ==> k in order)
  }

  /** Takes the probe results in the order they arrive. */
  method ApplyProbes(slots: seq<ProxySlot>, order: seq<nat>, probes: nat -> Option<string>)
    requires AllDifferent(slots) && Covers(order, |slots|)
    modifies Elems(slots)`egress, Elems(slots)`disabled
    ensures forall k :: 0 <= k < |slots| ==>
            SeenOf(slots[k]) == Probed(slots[k], probes(k)) && (slots[k].disabled <==> probes(k).None?)
  {
    for i := 0 to |order|
      invariant forall j :: 0 <= j < i ==>
                  SeenOf(slots[order[j]]) == Probed(slots[order[j]], probes(order[j])) &&
                    (slots[order[j]].disabled <==> probes(order[j]).None?)
    {
      var slot := slots[order[i]];
      var answer := probes(order[i]);
      if answer.None? {
        slot.disabled := true;
      } else {
        slot.egress := answer.value;
        slot.disabled := false;
      }
    }
    forall k | 0 <= k < |slots|
      ensures SeenOf(slots[k]) == Probed(slots[k], probes(k)) && (slots[k].disabled <==> probes(k).None?)
    {
      var index: nat := k;
      assert index in order;
      var j :| 0 <= j < |order| && order[j] == index;
    }
  }

  /** Switches off every slot but the keeper of each address.  The list keeps its members and order. */
  method Deduplicate(slots: seq<ProxySlot>, ghost seen: seq<Seen>) returns (deduplicated: seq<ProxySlot>)
    requires AllDifferent(slots) && |seen| == |slots| && forall k :: 0 <= k < |slots| ==>
             seen[k] == SeenOf(slots[k])
    modifies Elems(slots)`disabled
    ensures deduplicated == slots
    ensures forall k :: 0 <= k < |slots| ==>
            slots[k].disabled == if seen[k].egress.Some? then !Keeps(seen, k) else old(slots[k].disabled)
  {
    hide Leads, Keeps, Before, SameExit, AllDifferent;
    assert forall i, j :: 0 <= i < |slots| && 0 <= j < |slots| && i != j ==>
      slots[i] != slots[j] by { Different(slots); }
    var first: map<string, nat> := map[];
    deduplicated := [];
    assert Leads(seen, 0, first) by { LeadsNone(seen); }
    for n := 0 to |slots|
      invariant deduplicated == slots[..n] && Leads(seen, n, first)
      invariant forall e :: e in first ==> first[e] < n && seen[first[e]].egress == Some(e)
      invariant forall k :: n <= k < |slots| ==> slots[k].disabled == old(slots[k].disabled)
      invariant forall k :: 0 <= k < n && seen[k].egress.None? ==> slots[k].disabled == old(slots[k].disabled)
      invariant forall k :: 0 <= k < n && seen[k].egress.Some? ==>
                  seen[k].egress.value in first && slots[k].disabled == (first[seen[k].egress.value] != k)
    {
      var slot := slots[n];
      assert seen[n] == old(SeenOf(slots[n]));
      deduplicated := deduplicated + [slot];
      if slot.disabled || slot.egress == "" {
        LeadsOff(seen, n, first);
        continue;
      }
      var key := slot.egress;
      if key !in first {
        LeadsNew(seen, n, first, key);
        first := first[key := n];
        continue;
      }
      LeadsMore(seen, n, first, key);
      var holder := slots[first[key]];
      if holder.url == "" && slot.url != "" {
        holder.disabled := true;
        first := first[key := n];
      } else {
        slot.disabled := true;
      }
    }
    assert slots[..|slots|] == slots;
    LeadersKeep(seen, first);
  }

  lemma Different(slots: seq<ProxySlot>)
    requires AllDifferent(slots)
    ensures forall i, j :: 0 <= i < |slots| && 0 <= j < |slots| && i != j ==> slots[i] != slots[j]
  {
  }

  lemma LeadsNone(seen: seq<Seen>)
    ensures Leads(seen, 0, map[])
  {
  }

  /** At the end the leaders are the keepers. */
  lemma LeadersKeep(seen: seq<Seen>, first: map<string, nat>)
    requires Leads(seen, |seen|, first)
    ensures forall k :: 0 <= k < |seen| && seen[k].egress.Some? ==>
              seen[k].egress.value in first && (Keeps(seen, k) <==> first[seen[k].egress.value] == k)
  {
    hide Keeps;
    assert seen[..|seen|] == seen;
    forall k | 0 <= k < |seen| && seen[k].egress.Some?
      ensures seen[k].egress.value in first && (Keeps(seen, k) <==> first[seen[k].egress.value] == k)
    {
      OneKeeper(seen, k);
      assert SameExit(seen, k, first[seen[k].egress.value]);
    }
  }

  /** Probing and deduplication together. */
  method ProbeAndDeduplicate(g: Gateway, order: seq<nat>, probes: nat -> Option<string>) returns (ghost seen: seq<Seen>)
    requires AllDifferent(g.slots) && Covers(order, |g.slots|)
    modifies g`slots, Elems(g.slots)`egress, Elems(g.slots)`disabled
    ensures g.slots == old(g.slots) && |seen| == |g.slots|
    ensures forall k :: 0 <= k < |seen| ==> seen[k] == Probed(g.slots[k], probes(k))
    ensures forall k :: 0 <= k < |seen| ==>
              g.slots[k].disabled == if seen[k].egress.Some? then !Keeps(seen, k) else probes(k).None?
  {
    hide Keeps;
    var slots := g.slots;
    ApplyProbes(slots, order, probes);
    seen := seq(|slots|, k requires 0 <= k < |slots| => Probed(slots[k], probes(k)));
    var deduplicated := Deduplicate(slots, seen);
    g.slots := deduplicated;
  }
}
