/** The phase of the reconciliation that keeps the exit addresses of one provider's instances apart. */
module Reconcile {
  import opened Common
  import opened ExitSlots
  import opened Rotation
  import opened Egress

  // ---------------------------------------------------------------- the books

  /** The books agree with what became of the slots so far. */
  ghost predicate Booked(occupied: map<string, Owners>, held: seq<Holding>) {
    && (forall i :: 0 <= i < |held| ==>
          var h := held[i];
          && h.provider in occupied && h.egress in occupied[h.provider]
          && (occupied[h.provider][h.egress] == h.instance <==> !h.failed))
    && (forall p, e :: p in occupied && e in occupied[p] ==> Holds(held, p, e))
  }

  ghost predicate Holds(held: seq<Holding>, p: string, e: string) {
    exists i :: 0 <= i < |held| && held[i].provider == p && held[i].egress == e && !held[i].failed
  }

  /** No two instances of a provider hold one address. */
  ghost predicate Unique(held: seq<Holding>) {
    forall i, j :: 0 <= i < |held| && 0 <= j < |held| ==> Compatible(held[i], held[j])
  }

  predicate Compatible(a: Holding, b: Holding) {
    a.provider == b.provider && a.egress == b.egress ==> a.instance == b.instance
  }

  ghost predicate AnyFailed(held: seq<Holding>) {
    exists i :: 0 <= i < |held| && held[i].failed
  }

  /** The addresses are unique exactly when no rotation failed. */
  lemma UniqueUnlessFailed(occupied: map<string, Owners>, held: seq<Holding>)
    requires Booked(occupied, held)
    ensures Unique(held) <==> !AnyFailed(held)
  {
    if AnyFailed(held) {
      var i :| 0 <= i < |held| && held[i].failed;
      var h := held[i];
      assert Holds(held, h.provider, h.egress);
      var j :| 0 <= j < |held| && held[j].provider == h.provider && held[j].egress == h.egress && !held[j].failed;
      assert held[j].instance != h.instance;
    }
  }

  lemma HoldsMore(held: seq<Holding>, h: Holding, p: string, e: string)
    ensures Holds(held + [h], p, e) <==> Holds(held, p, e) || (h.provider == p && h.egress == e && !h.failed)
  {
    var all := held + [h];
    assert all[|held|] == h;
    if Holds(held, p, e) {
      var i :| 0 <= i < |held| && held[i].provider == p && held[i].egress == e && !held[i].failed;
      assert all[i] == held[i];
    }
  }

  lemma BookedOne(occupied: map<string, Owners>, held: seq<Holding>, after: Owners, h: Holding, first: string)
    requires Booked(occupied, held) && h.provider in occupied && Settled(occupied[h.provider], after, h, first)
    ensures Booked(occupied[h.provider := after], held + [h])
  {
    hide Holds;
    var books, all := occupied[h.provider := after], held + [h];
    forall p, e | p in books && e in books[p] ensures Holds(all, p, e) {
      HoldsMore(held, h, p, e);
      if p == h.provider && e !in occupied[p] {
        assert e in occupied[h.provider].Keys + {h.egress};
      }
    }
    forall i | 0 <= i < |all|
      ensures all[i].provider in books && all[i].egress in books[all[i].provider]
      ensures books[all[i].provider][all[i].egress] == all[i].instance <==> !all[i].failed
    {
      assert i < |held| ==> all[i] == held[i];
    }
  }

  // ---------------------------------------------------------------- the slots to keep apart

  /** Slot j of instance i, to be kept apart from the others. */
  datatype Seat = Seat(i: nat, j: nat, provider: string, instance: string, egress: string)

  predicate Counts(s: Slot) {
    !s.direct && s.egress.Some?
  }

  function Seats(summary: Summary, i: nat, slots: seq<Slot>): (r: seq<Seat>) {
    if slots == [] then []
    else
      var j := |slots| - 1;
      var front := Seats(summary, i, slots[..j]);
      if Counts(slots[j])
      then front + [Seat(i, j, summary.provider, summary.instance, slots[j].egress.value)] else front
  }

  function Roster(summaries: seq<Summary>): (r: seq<Seat>) {
    if summaries == [] then []
    else
      var i := |summaries| - 1;
      Roster(summaries[..i]) + Seats(summaries[i], i, ActiveSlots(summaries[i]))
  }

  /** A slot was moved, or its rotation failed, only because another instance held its address. */
  ghost predicate Placed(before: seq<Holding>, h: Holding, seat: Seat) {
    && h.provider == seat.provider && h.instance == seat.instance
    && (h.failed ==> h.egress == seat.egress)
    && ((h.failed || h.egress != seat.egress) ==> Foreign(before, seat))
  }

  ghost predicate Foreign(held: seq<Holding>, seat: Seat) {
    exists i :: 0 <= i < |held| && held[i].provider == seat.provider && held[i].egress == seat.egress &&
      held[i].instance != seat.instance && !held[i].failed
  }

  ghost predicate AllPlaced(held: seq<Holding>, roster: seq<Seat>) {
    |held| == |roster| && forall i :: 0 <= i < |held| ==> Placed(held[..i], held[i], roster[i])
  }

  lemma PlacedOne(occupied: map<string, Owners>, held: seq<Holding>, roster: seq<Seat>, after: Owners, h: Holding,
                  seat: Seat)
    requires Booked(occupied, held) && h.provider in occupied && Settled(occupied[h.provider], after, h, seat.egress)
    requires AllPlaced(held, roster) && h.provider == seat.provider && h.instance == seat.instance
    ensures AllPlaced(held + [h], roster + [seat])
  {
    if h.failed || h.egress != seat.egress {
      assert Holds(held, h.provider, seat.egress);
      var i :| 0 <= i < |held| && held[i].provider == h.provider && held[i].egress == seat.egress && !held[i].failed;
      assert held[i].instance != seat.instance;
      assert Foreign(held, seat);
    }
    var all, seats := held + [h], roster + [seat];
    forall i | 0 <= i < |all| ensures Placed(all[..i], all[i], seats[i]) {
      if i < |held| {
        assert all[..i] == held[..i];
      } else {
        assert all[..i] == held;
      }
    }
  }

  lemma RosterNothing(summary: Summary, i: nat)
    ensures Roster([]) == [] && Seats(summary, i, []) == []
  {
  }

  lemma SeatsOne(summary: Summary, i: nat, slots: seq<Slot>, j: nat)
    requires j < |slots|
    ensures Seats(summary, i, slots[..j + 1]) ==
            if Counts(slots[j])
            then Seats(summary, i, slots[..j]) + [Seat(i, j, summary.provider, summary.instance, slots[j].egress.value)]
            else Seats(summary, i, slots[..j])
  {
    assert slots[..j + 1][..j] == slots[..j];
  }

  lemma RosterOne(summaries: seq<Summary>, i: nat)
    requires i < |summaries|
    ensures Roster(summaries[..i + 1]) == Roster(summaries[..i]) + Seats(summaries[i], i, ActiveSlots(summaries[i]))
  {
    assert summaries[..i + 1][..i] == summaries[..i];
  }

  // ---------------------------------------------------------------- the whole phase

  /** One slot of the phase: the books it was settled with, the desk of its gateway before and after, and
    * the nodes its group was switched to. */
  datatype Turn = Turn(books: Owners, before: Desk, after: Desk, nodes: seq<string>)

  /** What is given: the reports, and the world outside for each slot. */
  datatype World = World(summaries: seq<Summary>, managed: string -> bool, outside: (nat, nat) -> Outside)

  /** The books of a provider list exactly the addresses held by the slots before. */
  ghost predicate BooksOf(books: Owners, held: seq<Holding>, provider: string) {
    && (forall e :: e in books <==> Holds(held, provider, e))
    && (forall i :: 0 <= i < |held| && held[i].provider == provider && !held[i].failed ==>
          held[i].egress in books && books[held[i].egress] == held[i].instance)
  }

  ghost predicate SharedRoute(w: World, url: string) {
    w.managed(url) && |OwnersOf(w.summaries, url)| > 1
  }

  ghost predicate TurnIs(w: World, seat: Seat, before: seq<Holding>, t: Turn, h: Holding) {
    && seat.i < |w.summaries| && seat.j < |ActiveSlots(w.summaries[seat.i])|
    && var slot := ActiveSlots(w.summaries[seat.i])[seat.j];
    && slot.egress == Some(seat.egress)
    && BooksOf(t.books, before, w.summaries[seat.i].provider)
    && Explained(w.summaries[seat.i], seat.egress, t.books, w.managed(slot.url), SharedRoute(w, slot.url),
                 w.outside(seat.i, seat.j), t.before, t.after, h, t.nodes)
    && (t.nodes != [] ==>
          w.managed(slot.url) && OwnersOf(w.summaries, slot.url) == {w.summaries[seat.i].instance})
  }

  /** The desk of gateway i after some turns. */
  function DeskAfter(roster: seq<Seat>, turns: seq<Turn>, i: nat, start: Desk): Desk
    requires |roster| == |turns|
  {
    if turns == [] then start
    else
      var n := |turns| - 1;
      if roster[n].i == i then turns[n].after else DeskAfter(roster[..n], turns[..n], i, start)
  }

  /** The turns follow one another: each begins with the desk the one before has left. */
  ghost predicate IsRun(w: World, start: seq<Desk>, roster: seq<Seat>, held: seq<Holding>, turns: seq<Turn>) {
    && |start| == |w.summaries| && |roster| == |held| == |turns|
    && (held == [] ||
        var n := |held| - 1;
        && IsRun(w, start, roster[..n], held[..n], turns[..n])
        && TurnIs(w, roster[n], held[..n], turns[n], held[n])
        && turns[n].before == DeskAfter(roster[..n], turns[..n], roster[n].i, start[roster[n].i]))
  }

  lemma RunSnoc(w: World, start: seq<Desk>, roster: seq<Seat>, held: seq<Holding>, turns: seq<Turn>, seat: Seat,
                h: Holding, t: Turn)
    requires IsRun(w, start, roster, held, turns) && TurnIs(w, seat, held, t, h)
    requires t.before == DeskAfter(roster, turns, seat.i, start[seat.i])
    ensures IsRun(w, start, roster + [seat], held + [h], turns + [t])
  {
    hide TurnIs;
    var n := |held|;
    assert (roster + [seat])[..n] == roster && (held + [h])[..n] == held && (turns + [t])[..n] == turns;
  }

  lemma AfterSnoc(roster: seq<Seat>, turns: seq<Turn>, seat: Seat, t: Turn, i: nat, start: Desk)
    requires |roster| == |turns|
    ensures DeskAfter(roster + [seat], turns + [t], i, start) ==
            if seat.i == i then t.after else DeskAfter(roster, turns, i, start)
  {
    var n := |roster|;
    assert (roster + [seat])[..n] == roster && (turns + [t])[..n] == turns;
  }

  lemma EmptyBooks()
    ensures Booked(map[], []) && !AnyFailed([]) && AllPlaced([], [])
  {
  }

  lemma FailedMore(held: seq<Holding>, h: Holding)
    ensures AnyFailed(held + [h]) <==> AnyFailed(held) || h.failed
  {
    var all := held + [h];
    assert all[|held|] == h;
    if AnyFailed(held) {
      var i :| 0 <= i < |held| && held[i].failed;
      assert all[i].failed;
    }
  }

  method OpenBook(occupied: map<string, Owners>, ghost held: seq<Holding>, provider: string)
    returns (books: map<string, Owners>)
    requires Booked(occupied, held) && provider !in occupied
    ensures Booked(books, held) && provider in books
  {
    hide Holds;
    books := occupied[provider := map[]];
  }

  /** A managed route that is not shared belongs to the instance whose slot uses it. */
  lemma SoleOwner(table: Table, summaries: seq<Summary>, i: nat, slot: Slot, managed: string -> bool)
    requires Lists(table, summaries, "", [], managed) && managed(slot.url)
    requires i < |summaries| && slot in ActiveSlots(summaries[i])
    requires !(slot.url in table && |table[slot.url]| > 1)
    ensures OwnersOf(summaries, slot.url) == {summaries[i].instance}
  {
    hide ActiveSlots, OwnersOf;
    var owners, name := OwnersOf(summaries, slot.url), summaries[i].instance;
    assert !OnRoute([], slot.url);
    assert WithSlots(owners, "", [], slot.url) == owners;
    assert OnRoute(ActiveSlots(summaries[i]), slot.url);
    OwnersAre(summaries, slot.url, name);
    assert owners == {name} + (owners - {name});
    assert |owners| == 1 + |owners - {name}|;
    assert |owners - {name}| == 0;
  }

  /** Every instance has a gateway of its own. */
  ghost predicate Separate(gateways: seq<Gateway>)
    reads gateways
  {
    && (forall g :: g in gateways ==> AllDifferent(g.slots))
    && (forall i, j :: 0 <= i < |gateways| && 0 <= j < |gateways| && i != j ==>
          gateways[i] != gateways[j] && forall s :: s in gateways[i].slots ==> s !in gateways[j].slots)
  }

  ghost function AllSlots(gateways: seq<Gateway>): (r: set<ProxySlot>)
    reads gateways
  {
    set g, s | g in gateways && s in g.slots :: s
  }

  lemma SharedIs(table: Table, w: World, url: string)
    requires Lists(table, w.summaries, "", [], w.managed)
    ensures SharedRoute(w, url) <==> url in table && |table[url]| > 1
  {
    hide OwnersOf;
    assert !OnRoute([], url);
    assert WithSlots(OwnersOf(w.summaries, url), "", [], url) == OwnersOf(w.summaries, url);
  }

  lemma BooksAre(occupied: map<string, Owners>, held: seq<Holding>, provider: string)
    requires Booked(occupied, held) && provider in occupied
    ensures BooksOf(occupied[provider], held, provider)
  {
    forall e ensures e in occupied[provider] <==> Holds(held, provider, e) {
      if Holds(held, provider, e) {
        var i :| 0 <= i < |held| && held[i].provider == provider && held[i].egress == e && !held[i].failed;
      }
    }
  }

  /** The gateways, with all their slots, stand as these desks say. */
  ghost predicate Kept(gateways: seq<Gateway>, all: set<ProxySlot>, desks: seq<Desk>)
    reads gateways, all
  {
    && Separate(gateways) && |desks| == |gateways|
    && (forall k, s :: 0 <= k < |gateways| && s in gateways[k].slots ==> s in all)
    && forall k :: 0 <= k < |gateways| ==> desks[k] == DeskOf(gateways[k])
  }

  /** Settles slot j of instance i; the other gateways are not touched. */
  method SettleSeat(w: World, gateways: seq<Gateway>, g: Gateway, table: Table, i: nat, j: nat, active: seq<Slot>,
                    occupied: map<string, Owners>, ghost held: seq<Holding>)
    returns (after: Owners, h: Holding, nodes: seq<string>, ghost t: Turn, ghost seat: Seat)
    requires |gateways| == |w.summaries| && i < |w.summaries| && Separate(gateways) && g == gateways[i]
    requires active == ActiveSlots(w.summaries[i]) && j < |active| && Counts(active[j])
    requires Lists(table, w.summaries, "", [], w.managed)
    requires Booked(occupied, held) && w.summaries[i].provider in occupied
    modifies g`active, g.slots
    ensures seat == Seat(i, j, w.summaries[i].provider, w.summaries[i].instance, active[j].egress.value)
    ensures Settled(occupied[seat.provider], after, h, seat.egress)
    ensures h.provider == seat.provider && h.instance == seat.instance
    ensures t.before == old(DeskOf(gateways[i])) && t.after == DeskOf(gateways[i]) && t.nodes == nodes
    ensures TurnIs(w, seat, held, t, h)
    ensures forall k :: 0 <= k < |gateways| && k != i ==> DeskOf(gateways[k]) == old(DeskOf(gateways[k]))
    ensures Separate(gateways)
  {
    hide ActiveSlots, OwnersOf, Booked, Settled, Lists, BooksOf, Turned, GroupTurned, States;
    var summary, slot := w.summaries[i], active[j];
    var shared := slot.url in table && |table[slot.url]| > 1;
    SharedIs(table, w, slot.url);
    BooksAre(occupied, held, summary.provider);
    ghost var before := DeskOf(gateways[i]);
    after, h, nodes := SettleSlot(summary, slot, occupied[summary.provider], w.managed(slot.url), shared,
                                  gateways[i], w.outside(i, j));
    seat := Seat(i, j, summary.provider, summary.instance, slot.egress.value);
    t := Turn(occupied[summary.provider], before, DeskOf(gateways[i]), nodes);
    if nodes != [] {
      SoleOwner(table, w.summaries, i, slot, w.managed);
    }
    forall k | 0 <= k < |gateways| && k != i ensures DeskOf(gateways[k]) == old(DeskOf(gateways[k])) {
      assert gateways[k] != g && forall s :: s in gateways[k].slots ==> s !in g.slots;
      var slots := gateways[k].slots;
      assert slots == old(gateways[k].slots);
      forall m | 0 <= m < |slots| ensures StateOf(slots[m]) == old(StateOf(slots[m])) {
        assert slots[m] in slots;
      }
      assert States(slots) == old(States(slots));
    }
  }

  /** A managed route was switched to some nodes, in order, for an instance. */
  datatype Switch = Switch(url: string, instance: string, nodes: seq<string>)

  /** The switches of the phase, in order. */
  function SwitchesOf(w: World, roster: seq<Seat>, turns: seq<Turn>): (r: seq<Switch>)
    requires |roster| == |turns|
  {
    if turns == [] then []
    else
      var n := |turns| - 1;
      var front, seat := SwitchesOf(w, roster[..n], turns[..n]), roster[n];
      if turns[n].nodes != [] && seat.i < |w.summaries| && seat.j < |ActiveSlots(w.summaries[seat.i])|
      then front + [Switch(ActiveSlots(w.summaries[seat.i])[seat.j].url, seat.instance, turns[n].nodes)] else front
  }

  lemma SwitchesSnoc(w: World, roster: seq<Seat>, turns: seq<Turn>, seat: Seat, t: Turn)
    requires |roster| == |turns| && seat.i < |w.summaries| && seat.j < |ActiveSlots(w.summaries[seat.i])|
    ensures SwitchesOf(w, roster + [seat], turns + [t]) ==
            if t.nodes != []
            then SwitchesOf(w, roster, turns) +
                 [Switch(ActiveSlots(w.summaries[seat.i])[seat.j].url, seat.instance, t.nodes)]
            else SwitchesOf(w, roster, turns)
  {
    var n := |turns|;
    assert (roster + [seat])[..n] == roster && (turns + [t])[..n] == turns;
  }

  /** The phase after some seats: its books, how it came about, and the desks as they stand. */
  ghost predicate Upto(w: World, start: seq<Desk>, desks: seq<Desk>, roster: seq<Seat>, held: seq<Holding>,
                       turns: seq<Turn>, occupied: map<string, Owners>, failures: nat) {
    && |start| == |desks| == |w.summaries|
    && Booked(occupied, held) && (failures == 0 <==> !AnyFailed(held))
    && AllPlaced(held, roster) && IsRun(w, start, roster, held, turns)
    && forall k :: 0 <= k < |desks| ==> desks[k] == DeskAfter(roster, turns, k, start[k])
  }

  lemma UptoNothing(w: World, start: seq<Desk>)
    requires |start| == |w.summaries|
    ensures Upto(w, start, start, [], [], [], map[], 0) && SwitchesOf(w, [], []) == []
  {
    EmptyBooks();
  }

  lemma UptoOpen(w: World, start: seq<Desk>, desks: seq<Desk>, roster: seq<Seat>, held: seq<Holding>, turns: seq<Turn>,
                 occupied: map<string, Owners>, failures: nat, books: map<string, Owners>)
    requires Upto(w, start, desks, roster, held, turns, occupied, failures) && Booked(books, held)
    ensures Upto(w, start, desks, roster, held, turns, books, failures)
  {
    hide Booked, AllPlaced, IsRun, DeskAfter;
  }

  lemma UptoSnoc(w: World, start: seq<Desk>, desks: seq<Desk>, roster: seq<Seat>, held: seq<Holding>, turns: seq<Turn>,
                 occupied: map<string, Owners>, failures: nat, seat: Seat, h: Holding, t: Turn, after: Owners)
    requires Upto(w, start, desks, roster, held, turns, occupied, failures) && TurnIs(w, seat, held, t, h)
    requires t.before == desks[seat.i] && seat.provider in occupied
    requires Settled(occupied[seat.provider], after, h, seat.egress)
    requires h.provider == seat.provider && h.instance == seat.instance
    ensures Upto(w, start, desks[seat.i := t.after], roster + [seat], held + [h], turns + [t],
                 occupied[seat.provider := after], failures + if h.failed then 1 else 0)
  {
    hide Booked, AllPlaced, IsRun, DeskAfter, Settled, Explained, BooksOf, AnyFailed;
    BookedOne(occupied, held, after, h, seat.egress);
    PlacedOne(occupied, held, roster, after, h, seat);
    FailedMore(held, h);
    RunLengths(w, start, roster, held, turns);
    RunSnoc(w, start, roster, held, turns, seat, h, t);
    forall k | 0 <= k < |desks|
      ensures desks[seat.i := t.after][k] == DeskAfter(roster + [seat], turns + [t], k, start[k])
    {
      AfterSnoc(roster, turns, seat, t, k, start[k]);
    }
  }

  lemma RunLengths(w: World, start: seq<Desk>, roster: seq<Seat>, held: seq<Holding>, turns: seq<Turn>)
    requires IsRun(w, start, roster, held, turns)
    ensures |roster| == |held| == |turns|
  {
  }

  lemma UptoLengths(w: World, start: seq<Desk>, desks: seq<Desk>, roster: seq<Seat>, held: seq<Holding>,
                    turns: seq<Turn>, occupied: map<string, Owners>, failures: nat)
    requires Upto(w, start, desks, roster, held, turns, occupied, failures)
    ensures |roster| == |held| == |turns| && Booked(occupied, held)
  {
    RunLengths(w, start, roster, held, turns);
  }

  /** The log lists the switches, all of routes with a single owner. */
  ghost predicate Logged(w: World, roster: seq<Seat>, turns: seq<Turn>, switches: seq<Switch>) {
    && |roster| == |turns| && switches == SwitchesOf(w, roster, turns)
    && forall s :: s in switches ==> w.managed(s.url) && OwnersOf(w.summaries, s.url) == {s.instance}
  }

  lemma LoggedSnoc(w: World, roster: seq<Seat>, held: seq<Holding>, turns: seq<Turn>, switches: seq<Switch>, seat: Seat,
                   h: Holding, t: Turn)
    requires Logged(w, roster, turns, switches) && TurnIs(w, seat, held, t, h)
    requires seat.instance == w.summaries[seat.i].instance
    ensures var url := ActiveSlots(w.summaries[seat.i])[seat.j].url;
            Logged(w, roster + [seat], turns + [t],
                   if t.nodes != [] then switches + [Switch(url, seat.instance, t.nodes)] else switches)
  {
    hide ActiveSlots, OwnersOf, Explained, BooksOf, SwitchesOf;
    SwitchesSnoc(w, roster, turns, seat, t);
  }

  /** Rotates every counted slot whose address another instance of its provider already holds.  Every
    * holding is explained by what its gateway, or its proxy group, did for it, each gateway going on from
    * where it was left; and no two instances of a provider hold one address exactly when no rotation
    * failed. */
  method ReconcileDuplicates(w: World, gateways: seq<Gateway>)
    returns (held: seq<Holding>, failures: nat, switches: seq<Switch>, ghost start: seq<Desk>, ghost turns: seq<Turn>)
    requires |gateways| == |w.summaries| && Separate(gateways)
    modifies Elems(gateways)`active, AllSlots(gateways)
    ensures failures == 0 <==> Unique(held)
    ensures AllPlaced(held, Roster(w.summaries))
    ensures |start| == |gateways| && forall i :: 0 <= i < |gateways| ==> start[i] == old(DeskOf(gateways[i]))
    ensures IsRun(w, start, Roster(w.summaries), held, turns)
    ensures forall i :: 0 <= i < |gateways| ==>
              && DeskOf(gateways[i]) == DeskAfter(Roster(w.summaries), turns, i, start[i])
              && (LastMoved(w, Roster(w.summaries), held, i).Some? ==>
                    Shows(DeskOf(gateways[i]), LastMoved(w, Roster(w.summaries), held, i).value))
    ensures switches == SwitchesOf(w, Roster(w.summaries), turns)
    ensures forall s :: s in switches ==> w.managed(s.url) && OwnersOf(w.summaries, s.url) == {s.instance}
  {
    hide ActiveSlots, OwnersOf, Booked, Settled, Lists, Roster, Seats, Upto, TurnIs, SwitchesOf, States;
    hide AllPlaced, IsRun, DeskAfter, LastMoved, Shows, Unique, AllDifferent, Kept;
    ghost var all := AllSlots(gateways);
    var table := RouteOwners(w.summaries, w.managed);
    var occupied: map<string, Owners> := map[];
    held, failures, switches, turns := [], 0, [], [];
    start := seq(|gateways|, k requires 0 <= k < |gateways| => old(DeskOf(gateways[k])));
    KeptAtFirst(gateways, all, start);
    ghost var desks := start;
    UptoNothing(w, start);
    assert w.summaries[..0] == [];
    RosterNothing(Summary("", "", []), 0);
    for i := 0 to |w.summaries|
      invariant Kept(gateways, all, desks)
      invariant forall g :: g in gateways ==> g.slots == old(g.slots)
      invariant Upto(w, start, desks, Roster(w.summaries[..i]), held, turns, occupied, failures)
      invariant Logged(w, Roster(w.summaries[..i]), turns, switches)
    {
      assert gateways[i] in Elems(gateways) && gateways[i].slots == old(gateways[i].slots);
      assert forall s :: s in gateways[i].slots ==> s in old(AllSlots(gateways));
      occupied, held, failures, switches, desks, turns :=
        ReconcileInstance(w, gateways, gateways[i], table, i, all, start, desks, occupied, held, failures, switches,
                          turns);
      RosterOne(w.summaries, i);
    }
    assert w.summaries[..|w.summaries|] == w.summaries;
    KeptIs(gateways, all, desks);
    Conclude(w, start, desks, Roster(w.summaries), held, turns, occupied, failures);
  }

  lemma KeptAtFirst(gateways: seq<Gateway>, all: set<ProxySlot>, desks: seq<Desk>)
    requires Separate(gateways) && |desks| == |gateways| && all == AllSlots(gateways)
    requires forall k :: 0 <= k < |gateways| ==> desks[k] == DeskOf(gateways[k])
    ensures Kept(gateways, all, desks)
  {
    assert forall k :: 0 <= k < |gateways| ==> gateways[k] in gateways;
  }

  lemma KeptIs(gateways: seq<Gateway>, all: set<ProxySlot>, desks: seq<Desk>)
    requires Kept(gateways, all, desks)
    ensures |desks| == |gateways| && forall k :: 0 <= k < |gateways| ==> desks[k] == DeskOf(gateways[k])
  {
  }

  lemma Conclude(w: World, start: seq<Desk>, desks: seq<Desk>, roster: seq<Seat>, held: seq<Holding>,
                 turns: seq<Turn>, occupied: map<string, Owners>, failures: nat)
    requires Upto(w, start, desks, roster, held, turns, occupied, failures)
    ensures failures == 0 <==> Unique(held)
    ensures AllPlaced(held, roster) && IsRun(w, start, roster, held, turns)
    ensures |roster| == |turns| == |held| && |start| == |desks|
    ensures forall k :: 0 <= k < |desks| ==>
              && desks[k] == DeskAfter(roster, turns, k, start[k])
              && (LastMoved(w, roster, held, k).Some? ==> Shows(desks[k], LastMoved(w, roster, held, k).value))
  {
    hide Booked, AllPlaced, DeskAfter, Unique, AnyFailed, LastMoved, Shows;
    UniqueUnlessFailed(occupied, held);
    RunLengths(w, start, roster, held, turns);
    forall k | 0 <= k < |desks|
      ensures LastMoved(w, roster, held, k).Some? ==> Shows(desks[k], LastMoved(w, roster, held, k).value)
    {
      LastMoveIsActive(w, start, roster, held, turns, k);
    }
  }

  /** One slot, with the books and the log that go on. */
  method SettleNext(w: World, gateways: seq<Gateway>, g: Gateway, table: Table, i: nat, j: nat, active: seq<Slot>,
                    ghost all: set<ProxySlot>, ghost roster: seq<Seat>, ghost start: seq<Desk>, ghost desks0: seq<Desk>,
                    occupied0: map<string, Owners>, held0: seq<Holding>, failures0: nat, switches0: seq<Switch>,
                    ghost turns0: seq<Turn>)
    returns (occupied: map<string, Owners>, held: seq<Holding>, failures: nat, switches: seq<Switch>,
             ghost desks: seq<Desk>, ghost turns: seq<Turn>, ghost seat: Seat)
    requires |gateways| == |w.summaries| && i < |w.summaries| && Kept(gateways, all, desks0) && g == gateways[i]
    requires active == ActiveSlots(w.summaries[i]) && j < |active| && Counts(active[j])
    requires Lists(table, w.summaries, "", [], w.managed) && w.summaries[i].provider in occupied0
    requires Upto(w, start, desks0, roster, held0, turns0, occupied0, failures0)
    requires Logged(w, roster, turns0, switches0)
    modifies g`active, g.slots
    ensures seat == Seat(i, j, w.summaries[i].provider, w.summaries[i].instance, active[j].egress.value)
    ensures Kept(gateways, all, desks) && w.summaries[i].provider in occupied
    ensures Upto(w, start, desks, roster + [seat], held, turns, occupied, failures)
    ensures Logged(w, roster + [seat], turns, switches)
  {
    hide ActiveSlots, OwnersOf, Booked, Settled, Lists, Upto, SwitchesOf, States, Logged, TurnIs, DeskOf;
    UptoLengths(w, start, desks0, roster, held0, turns0, occupied0, failures0);
    var after, h, nodes, t, place := SettleSeat(w, gateways, g, table, i, j, active, occupied0, held0);
    seat := place;
    UptoSnoc(w, start, desks0, roster, held0, turns0, occupied0, failures0, seat, h, t, after);
    LoggedSnoc(w, roster, held0, turns0, switches0, seat, h, t);
    desks := desks0[i := t.after];
    held, turns := held0 + [h], turns0 + [t];
    occupied := occupied0[w.summaries[i].provider := after];
    failures := if h.failed then failures0 + 1 else failures0;
    switches := switches0;
    if nodes != [] {
      switches := switches + [Switch(active[j].url, w.summaries[i].instance, nodes)];
    }
  }

  /** The slots of one instance. */
  method ReconcileInstance(w: World, gateways: seq<Gateway>, g: Gateway, table: Table, i: nat,
                           ghost all: set<ProxySlot>, ghost start: seq<Desk>, ghost desks0: seq<Desk>,
                           occupied0: map<string, Owners>, held0: seq<Holding>, failures0: nat, switches0: seq<Switch>,
                           ghost turns0: seq<Turn>)
    returns (occupied: map<string, Owners>, held: seq<Holding>, failures: nat, switches: seq<Switch>,
             ghost desks: seq<Desk>, ghost turns: seq<Turn>)
    requires |gateways| == |w.summaries| && i < |w.summaries| && Kept(gateways, all, desks0) && g == gateways[i]
    requires Lists(table, w.summaries, "", [], w.managed)
    requires Upto(w, start, desks0, Roster(w.summaries[..i]), held0, turns0, occupied0, failures0)
    requires Logged(w, Roster(w.summaries[..i]), turns0, switches0)
    modifies g`active, g.slots
    ensures Kept(gateways, all, desks)
    ensures Upto(w, start, desks, Roster(w.summaries[..i]) + Seats(w.summaries[i], i, ActiveSlots(w.summaries[i])),
                 held, turns, occupied, failures)
    ensures Logged(w, Roster(w.summaries[..i]) + Seats(w.summaries[i], i, ActiveSlots(w.summaries[i])), turns, switches)
  {
    hide ActiveSlots, OwnersOf, Booked, Settled, Lists, Roster, Seats, Upto, SwitchesOf, States, Logged, TurnIs;
    hide Kept;
    occupied, held, failures, switches, desks, turns := occupied0, held0, failures0, switches0, desks0, turns0;
    var summary := w.summaries[i];
    var active := ActiveSummarySlots(summary);
    ghost var before := Roster(w.summaries[..i]);
    UptoLengths(w, start, desks, before, held, turns, occupied, failures);
    if summary.provider !in occupied {
      var books := OpenBook(occupied, held, summary.provider);
      UptoOpen(w, start, desks, before, held, turns, occupied, failures, books);
      occupied := books;
    }
    assert active[..0] == [];
    RosterNothing(summary, i);
    assert before + [] == before;
    for j := 0 to |active|
      invariant Kept(gateways, all, desks) && summary.provider in occupied
      invariant Upto(w, start, desks, before + Seats(summary, i, active[..j]), held, turns, occupied, failures)
      invariant Logged(w, before + Seats(summary, i, active[..j]), turns, switches)
    {
      SeatsOne(summary, i, active, j);
      if active[j].direct || active[j].egress.None? {
        continue;
      }
      ghost var roster := before + Seats(summary, i, active[..j]);
      ghost var seat;
      occupied, held, failures, switches, desks, turns, seat :=
        SettleNext(w, gateways, g, table, i, j, active, all, roster, start, desks, occupied, held, failures, switches,
                   turns);
      assert roster + [seat] == before + Seats(summary, i, active[..j + 1]);
    }
    assert active[..|active|] == active;
  }

  // ---------------------------------------------------------------- where the gateways stand

  /** The address of the last slot of instance i that was moved through its gateway. */
  function LastMoved(w: World, roster: seq<Seat>, held: seq<Holding>, i: nat): Option<string>
    requires |roster| == |held| && i < |w.summaries|
  {
    if held == [] then None
    else
      var n := |held| - 1;
      if roster[n].i == i && |w.summaries[i].slots| >= 2 && held[n].egress != roster[n].egress then Some(held[n].egress)
      else LastMoved(w, roster[..n], held[..n], i)
  }

  /** What is recorded of the active slot. */
  ghost predicate Shows(d: Desk, egress: string) {
    d.active < |d.slots| && d.slots[d.active].egress == egress
  }

  lemma TurnShows(w: World, seat: Seat, before: seq<Holding>, t: Turn, h: Holding, egress: string)
    requires TurnIs(w, seat, before, t, h)
    ensures (|w.summaries[seat.i].slots| >= 2 && h.egress != seat.egress) ==> Shows(t.after, h.egress)
    ensures !(|w.summaries[seat.i].slots| >= 2 && h.egress != seat.egress) && Shows(t.before, egress) ==>
              Shows(t.after, egress)
  {
    hide ActiveSlots, OwnersOf, ByNodes;
    var url := ActiveSlots(w.summaries[seat.i])[seat.j].url;
    if t.after != t.before {
      var out := w.outside(seat.i, seat.j);
      var moved :| Turned(t.before, t.after, t.books.Keys, out.clock, out.probes, moved) &&
        if moved.Some? then
          !h.failed && t.after.active < |t.after.slots| && t.after.slots[t.after.active].egress == h.egress
        else h.failed && h.egress == seat.egress;
      if moved.Some? {
        TurnedIsFree(t.before, t.after, t.books.Keys, out, moved);
      } else if Shows(t.before, egress) {
        SmallModulo(t.before.active, |t.before.slots|);
      }
    }
  }

  lemma SmallModulo(a: nat, n: nat)
    requires a < n
    ensures a % n == a
  {
    Wraps(a, n);
  }

  /** At the end the active slot of a gateway has the address of the last slot moved through it. */
  lemma {:induction false} LastMoveIsActive(w: World, start: seq<Desk>, roster: seq<Seat>, held: seq<Holding>,
                                            turns: seq<Turn>, i: nat)
    requires IsRun(w, start, roster, held, turns) && i < |w.summaries|
    ensures LastMoved(w, roster, held, i).Some? ==>
              Shows(DeskAfter(roster, turns, i, start[i]), LastMoved(w, roster, held, i).value)
    decreases |held|
  {
    hide TurnIs, Shows;
    if held != [] {
      var n := |held| - 1;
      LastMoveIsActive(w, start, roster[..n], held[..n], turns[..n], i);
      if roster[n].i == i {
        var last := LastMoved(w, roster[..n], held[..n], i);
        TurnShows(w, roster[n], held[..n], turns[n], held[n], if last.Some? then last.value else "");
      }
    }
  }
}
