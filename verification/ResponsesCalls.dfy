/** The arguments of a single-call Responses stream, as a client puts them together. */
module ResponsesCalls {
  import opened Common
  import opened ResponsesRepair
  import opened ResponsesText
  import opened ResponsesTheorems

  /** What an announced item says of the arguments so far. */
  function Announces(o: Out): Option<string> {
    if o.NewItemAdded? then Some(o.item.arguments)
    else if o.Through? && o.frame.Event? && o.frame.kind == ItemAdded && o.frame.item.Some?
    then Some(o.frame.item.value.arguments)
    else None
  }

  /** The arguments a client holds: those announced, and the deltas after that. */
  function Told(out: seq<Out>): (r: string) {
    if out == [] then ""
    else
      var o := out[|out| - 1];
      var before := Told(out[..|out| - 1]);
      if Announces(o).Some? then Announces(o).value
      else if IsArgsDelta(o) then before + o.frame.delta
      else before
  }

  predicate Adds(f: Frame) {
    f.Event? && f.kind == ItemAdded
  }

  predicate Extends(f: Frame) {
    f.Event? && f.kind == ArgsDelta
  }

  /** What upstream's announcements and deltas of the call come to. */
  function Given(frames: seq<Frame>): (r: string) {
    if frames == [] then ""
    else
      var f := frames[|frames| - 1];
      var before := Given(frames[..|frames| - 1]);
      if Adds(f) && f.item.Some? then f.item.value.arguments
      else if Extends(f) then before + f.delta
      else before
  }

  function Or(given: Option<string>): string {
    if given.Some? then given.value else ""
  }

  /** The latest description of the item by upstream, announced or finished, and the deltas since. */
  function Held(frames: seq<Frame>): (r: Option<string>) {
    if frames == [] then None
    else
      var f := frames[|frames| - 1];
      HeldThen(Held(frames[..|frames| - 1]), f)
  }

  function HeldThen(held: Option<string>, f: Frame): Option<string> {
    if TakesItem(f) then Some(f.item.value.arguments)
    else if Extends(f) then Some(Or(held) + f.delta)
    else held
  }

  /** Upstream has announced the item itself. */
  predicate Announced(frames: seq<Frame>) {
    exists i :: 0 <= i < |frames| && Adds(frames[i])
  }

  predicate Called(frames: seq<Frame>) {
    exists i :: 0 <= i < |frames| && (Adds(frames[i]) || Extends(frames[i]))
  }

  /** Upstream has closed the arguments in a way that can be noted. */
  predicate ArgsClosed(frames: seq<Frame>) {
    exists i :: 0 <= i < |frames| && Noted(frames[i], ArgsDone)
  }

  predicate ItemClosed(frames: seq<Frame>) {
    exists i :: 0 <= i < |frames| && Noted(frames[i], ItemDone)
  }

  /** What is held of the call after its first delta. */
  function AtFirstDelta(frames: seq<Frame>): (r: Option<string>) {
    if frames == [] then None
    else
      var before := AtFirstDelta(frames[..|frames| - 1]);
      if before.Some? then before else if Extends(frames[|frames| - 1]) then Held(frames) else None
  }

  /** A frame of a stream that speaks of one call only, at output position k. */
  predicate OneCall(f: Frame, k: int) {
    f.Event? ==>
      && (f.outputIndex == Some(k) || f.outputIndex == None)
      && f.kind != TextDelta && f.kind != Completed
      && (Adds(f) || Extends(f) ==> f.typed && f.decodes)
      && (Adds(f) ==> f.item.Some?)
      && (TakesItem(f) ==> f.item.value.typ == "function_call")
  }

  /** A frame need not name the position; but unless it is 0 some frame has named it when the call is
    * described. */
  ghost predicate SingleCall(frames: seq<Frame>, k: int) {
    frames == [] ||
    (var n := |frames| - 1;
     && SingleCall(frames[..n], k)
     && OneCall(frames[n], k)
     && (Files(frames[n]) ==> k == 0 || Placed(frames, k)))
  }

  /** What the repairer holds of the call. */
  ghost predicate Holds(s: State, k: int, placed: bool, called: bool, closed: bool, held: Option<string>) {
    && s.flags.outputAdded == called
    && s.flags.argsDone == closed
    && (s.core.outputIndex == 0 || s.core.outputIndex == k)
    && (placed ==> s.core.outputIndex == k)
    && (held.None? ==> s.core.items == map[])
    && (held.Some? ==>
      s.core.outputIndex == k && s.core.items.Keys == {k} && s.core.items[k].typ == "function_call" &&
        s.core.items[k].arguments == held.value)
  }

  lemma HoldsStep(s: State, f: Frame, k: int, placed: bool, called: bool, closed: bool, held: Option<string>)
    requires Holds(s, k, placed, called, closed, held) && OneCall(f, k)
    requires Files(f) ==> k == 0 || placed || Places(f, k)
    ensures Holds(Process(s, f), k, placed || Places(f, k), called || Adds(f) || Extends(f),
                  closed || Noted(f, ArgsDone), HeldThen(held, f))
  {
    hide FrameItemID, MessageID, CloseAll;
    if f.Event? && f.kind != Created {
      if Files(f) {
        FiledStep(s, f, k, placed, called, closed, held);
      } else {
        UnrelatedStep(s, f);
      }
    }
  }

  lemma FiledStep(s: State, f: Frame, k: int, placed: bool, called: bool, closed: bool, held: Option<string>)
    requires Holds(s, k, placed, called, closed, held) && OneCall(f, k) && Files(f)
    requires k == 0 || placed || Places(f, k)
    ensures Holds(Process(s, f), k, placed || Places(f, k), called || Adds(f) || Extends(f), closed, HeldThen(held, f))
  {
    hide Process, ObserveCore, HeldThen, OneCall, Files, Adds, Extends;
    FiledFlags(s, f, k);
    FiledCore(s.core, f, k, placed, held);
  }

  lemma FiledFlags(s: State, f: Frame, k: int)
    requires OneCall(f, k) && Files(f)
    ensures var r := Process(s, f);
            && r.core == ObserveCore(s.core, f) && r.flags.argsDone == s.flags.argsDone
            && r.flags.outputAdded == (s.flags.outputAdded || Adds(f) || Extends(f))
  {
    hide ObserveCore, CloseAll;
  }

  /** What the item table holds then. */
  lemma FiledCore(c: Core, f: Frame, k: int, placed: bool, held: Option<string>)
    requires OneCall(f, k) && Files(f) && (k == 0 || placed || Places(f, k))
    requires (c.outputIndex == 0 || c.outputIndex == k) && (placed ==> c.outputIndex == k)
    requires held.None? ==> c.items == map[]
    requires held.Some? ==> c.outputIndex == k && c.items.Keys == {k} && c.items[k].typ == "function_call" &&
                            c.items[k].arguments == held.value
    ensures var c1 := ObserveCore(c, f);
            && c1.outputIndex == k && c1.items.Keys == {k} && c1.items[k].typ == "function_call"
            && HeldThen(held, f) == Some(c1.items[k].arguments)
  {
    hide FrameItemID;
    var c1 := ObserveIndexes(c, f);
    assert c1.outputIndex == k && c1.items == c.items;
    assert ObserveItems(c1, f).Keys == {k};
    assert held.None? && Extends(f) ==> "" + f.delta == f.delta;
  }

  lemma UnrelatedStep(s: State, f: Frame)
    requires f.Event? && f.kind != Created && f.kind != TextDelta && f.kind != Completed && !Files(f)
    requires Adds(f) || Extends(f) ==> f.typed && f.decodes
    requires Adds(f) ==> f.item.Some?
    ensures var r := Process(s, f);
            && r.flags.outputAdded == s.flags.outputAdded
            && r.flags.argsDone == (s.flags.argsDone || Noted(f, ArgsDone))
            && r.core.items == s.core.items
            && r.core.outputIndex == if f.decodes && f.outputIndex.Some?
                                     then f.outputIndex.value else s.core.outputIndex
  {
    hide FrameItemID, MessageID, CloseAll;
  }

  lemma ToldAppend(out: seq<Out>, more: seq<Out>)
    requires |more| == 1
    ensures Told(out + more) ==
            if Announces(more[0]).Some? then Announces(more[0]).value
            else if IsArgsDelta(more[0]) then Told(out) + more[0].frame.delta
            else Told(out)
  {
    assert (out + more)[..|out|] == out && (out + more)[|out|] == more[0];
  }

  /** What one frame tells the client. */
  lemma ToldOfFrame(out: seq<Out>, s: State, f: Frame, k: int, placed: bool, called: bool, closed: bool,
                    held: Option<string>)
    requires Holds(s, k, placed, called, closed, held) && OneCall(f, k)
    requires Files(f) ==> k == 0 || placed || Places(f, k)
    ensures Told(out + Sent(s, f)) ==
            if Adds(f) then f.item.value.arguments
            else if Extends(f) then (if called then Told(out) else Or(HeldThen(held, f))) + f.delta
            else Told(out)
  {
    hide Told, FrameItemID, MessageID, Observe, Holds, HeldThen, Places;
    if !f.Event? || f.kind == Created {
      assert Sent(s, f) == [Through(f)];
      ToldAppend(out, [Through(f)]);
    } else {
      var s1 := Observe(s, f);
      var opening := Opening(s1);
      if opening != [] {
        ToldAppend(out, opening);
      }
      assert opening == [] ==> out + opening == out;
      if Extends(f) {
        ExtendedState(s, f, k, placed, called, closed, held);
        ToldOfDelta(out + opening, s1, f, called, Or(HeldThen(held, f)));
        assert out + Sent(s, f) == out + opening + (EnsureOutput(s1) + [Through(f)]);
      } else {
        assert Sent(s, f) == opening + [Through(f)];
        ToldAppend(out + opening, [Through(f)]);
        assert out + Sent(s, f) == out + opening + [Through(f)];
      }
    }
  }

  lemma ToldOfDelta(out: seq<Out>, s: State, f: Frame, called: bool, held: string)
    requires Extends(f) && s.flags.outputAdded == called && CurrentItem(s.core).arguments == held
    ensures Told(out + (EnsureOutput(s) + [Through(f)])) == (if called then Told(out) else held) + f.delta
  {
    hide Told, CurrentItem;
    var made := EnsureOutput(s);
    if made != [] {
      ToldAppend(out, made);
    }
    assert made == [] ==> out + made == out;
    ToldAppend(out + made, [Through(f)]);
    assert out + (made + [Through(f)]) == out + made + [Through(f)];
  }

  lemma ExtendedState(s: State, f: Frame, k: int, placed: bool, called: bool, closed: bool, held: Option<string>)
    requires Holds(s, k, placed, called, closed, held) && OneCall(f, k) && Extends(f)
    requires k == 0 || placed || Places(f, k)
    ensures var s1 := Observe(s, f);
            && s1.flags.outputAdded == called
            && CurrentItem(s1.core).arguments == Or(HeldThen(held, f))
  {
    hide FrameItemID, MessageID;
    var c := ObserveIndexes(s.core, f);
    assert c.outputIndex == k;
  }

  /** Where the client stands: an item made up along with the first delta already carries what is held
    * of the call then. */
  ghost predicate ClientHolds(out: seq<Out>, frames: seq<Frame>) {
    Told(out) == (if Announced(frames) then "" else Or(AtFirstDelta(frames))) + Given(frames)
  }

  /** What repairer and client hold after every beginning of a single-call stream. */
  lemma {:induction false} ClientFollows(id: string, frames: seq<Frame>, k: int)
    requires SingleCall(frames, k)
    ensures Holds(StateAfter(NewState(id), frames), k, Placed(frames, k), Called(frames), ArgsClosed(frames),
                  Held(frames))
    ensures ClientHolds(Output(NewState(id), frames), frames)
    ensures Called(frames) <==> Announced(frames) || AtFirstDelta(frames).Some?
    ensures !Called(frames) ==> Given(frames) == ""
    decreases |frames|
  {
    hide Process, Sent, Holds, Told, OneCall, Given, Held, HeldThen, AtFirstDelta, Announced, Called, ArgsClosed;
    hide Adds, Extends, Placed, Places, Files, Noted;
    if frames == [] {
      NothingCalled(id, k);
    } else {
      var front, f := frames[..|frames| - 1], frames[|frames| - 1];
      assert frames == front + [f] && OneCall(f, k) && SingleCall(front, k);
      AddsItem(f, k);
      ClientFollows(id, front, k);
      CalledSnoc(front, f);
      PlacedSnoc(front, f, k);
      GivenSnoc(front, f);
      var s, out := StateAfter(NewState(id), front), Output(NewState(id), front);
      var placed, called, closed, held := Placed(front, k), Called(front), ArgsClosed(front), Held(front);
      HoldsStep(s, f, k, placed, called, closed, held);
      ToldOfFrame(out, s, f, k, placed, called, closed, held);
      ClientStep(front, f, Told(out), Told(Output(NewState(id), frames)));
    }
  }

  /** What the client holds goes on as it stood. */
  lemma ClientStep(front: seq<Frame>, f: Frame, told: string, now: string)
    requires Adds(f) ==> f.item.Some?
    requires told == (if Announced(front) then "" else Or(AtFirstDelta(front))) + Given(front)
    requires now == if Adds(f) then f.item.value.arguments
                    else if Extends(f) then (if Called(front) then told else Or(Held(front + [f]))) + f.delta
                    else told
    requires Called(front) <==> Announced(front) || AtFirstDelta(front).Some?
    requires !Called(front) ==> Given(front) == ""
    ensures var frames := front + [f];
            && now == (if Announced(frames) then "" else Or(AtFirstDelta(frames))) + Given(frames)
            && (Called(frames) <==> Announced(frames) || AtFirstDelta(frames).Some?)
            && (!Called(frames) ==> Given(frames) == "")
  {
    CalledSnoc(front, f);
    GivenSnoc(front, f);
    hide Given, Held, AtFirstDelta, Announced, Called;
    if Adds(f) {
      assert "" + now == now;
    } else if Extends(f) && Called(front) {
      var carried := if Announced(front) then "" else Or(AtFirstDelta(front));
      assert carried + Given(front) + f.delta == carried + (Given(front) + f.delta);
    } else if Extends(f) {
      assert "" + f.delta == f.delta;
    }
  }

  lemma GivenSnoc(front: seq<Frame>, f: Frame)
    ensures Given(front + [f]) == if Adds(f) && f.item.Some? then f.item.value.arguments
                                  else if Extends(f) then Given(front) + f.delta else Given(front)
    ensures Held(front + [f]) == HeldThen(Held(front), f)
    ensures Extends(f) ==> Held(front + [f]).Some?
    ensures AtFirstDelta(front + [f]) == if AtFirstDelta(front).Some? then AtFirstDelta(front)
                                         else if Extends(f) then Held(front + [f]) else None
  {
    assert (front + [f])[..|front|] == front;
  }

  lemma AddsItem(f: Frame, k: int)
    requires OneCall(f, k)
    ensures Adds(f) ==> f.item.Some?
  {
  }

  lemma NothingCalled(id: string, k: int)
    ensures Holds(NewState(id), k, Placed([], k), false, false, None) && Told([]) == ""
    ensures Given([]) == "" && Held([]) == None && AtFirstDelta([]) == None
    ensures !Called([]) && !Announced([]) && !ArgsClosed([])
  {
  }

  lemma CalledSnoc(front: seq<Frame>, f: Frame)
    ensures Called(front + [f]) <==> Called(front) || Adds(f) || Extends(f)
    ensures Announced(front + [f]) <==> Announced(front) || Adds(f)
    ensures ArgsClosed(front + [f]) <==> ArgsClosed(front) || Noted(f, ArgsDone)
    ensures ItemClosed(front + [f]) <==> ItemClosed(front) || Noted(f, ItemDone)
  {
    hide Adds, Extends, Noted;
    var frames := front + [f];
    assert frames[|front|] == f && forall i :: 0 <= i < |front| ==> frames[i] == front[i];
  }

  /** Unless upstream finishes the item itself, what is held is what announcements and deltas come to. */
  lemma {:induction false} HeldIsGiven(frames: seq<Frame>, k: int)
    requires SingleCall(frames, k) && !ItemClosed(frames)
    ensures Or(Held(frames)) == Given(frames)
    decreases |frames|
  {
    hide Given, Held, ItemClosed, Called, Announced, ArgsClosed, AtFirstDelta;
    if frames == [] {
      NothingCalled("", k);
    } else {
      var front, f := frames[..|frames| - 1], frames[|frames| - 1];
      assert frames == front + [f];
      CalledSnoc(front, f);
      GivenSnoc(front, f);
      HeldIsGiven(front, k);
    }
  }

  /** A single-call stream that ends in a bare response.completed: the arguments are closed by the repairer
    * if and only if upstream has not closed them, and with what upstream gave: the latest description of
    * the item and the deltas since.  A client that starts from the announced arguments and adds the deltas
    * holds what announcements and deltas come to if and only if upstream announced the item itself, or
    * nothing was held of the call after its first delta. */
  lemma AnnouncedCallsAddUp(id: string, frames: seq<Frame>, last: Frame, k: int)
    requires SingleCall(frames, k) && Held(frames).Some?
    requires last.Event? && last.kind == Completed && (last.outputIndex == Some(k) || last.outputIndex == None)
    ensures var more := Sent(StateAfter(NewState(id), frames), last);
            && ((exists i :: 0 <= i < |more| && more[i].NewArgsDone?) <==> !ArgsClosed(frames))
            && (forall i :: 0 <= i < |more| && more[i].NewArgsDone? ==> more[i].arguments == Held(frames).value)
    ensures !ItemClosed(frames) ==> Held(frames).value == Given(frames)
    ensures Told(Output(NewState(id), frames)) == Given(frames) <==>
            Announced(frames) || Or(AtFirstDelta(frames)) == ""
  {
    hide Sent, Holds, Told, StateAfter, Output, SingleCall, Called, Given, Held, AtFirstDelta, Announced, ArgsClosed;
    hide ItemClosed, Placed;
    ClientFollows(id, frames, k);
    ClosesCall(StateAfter(NewState(id), frames), last, k, Placed(frames, k), Called(frames), ArgsClosed(frames),
      Held(frames).value);
    if !ItemClosed(frames) {
      HeldIsGiven(frames, k);
    }
    assert "" + Given(frames) == Given(frames);
    Longer(Or(AtFirstDelta(frames)), Given(frames));
  }

  lemma Longer(a: string, b: string)
    ensures a + b == b <==> a == ""
  {
    assert a == "" ==> a + b == b;
    assert |a + b| == |a| + |b|;
  }

  lemma ClosesCall(s: State, last: Frame, k: int, placed: bool, called: bool, closed: bool, held: string)
    requires Holds(s, k, placed, called, closed, Some(held))
    requires last.Event? && last.kind == Completed && (last.outputIndex == Some(k) || last.outputIndex == None)
    ensures var more := Sent(s, last);
            && ((exists i :: 0 <= i < |more| && more[i].NewArgsDone?) <==> !closed)
            && (forall i :: 0 <= i < |more| && more[i].NewArgsDone? ==> more[i].arguments == held)
  {
    hide FrameItemID, OutputSnapshot, Finished, MessageID, CompletionEvents;
    var s1 := Observe(s, last);
    assert s1.core.outputIndex == k && s1.core.items == s.core.items && s1.flags.argsDone == closed;
    var made := CompletionEvents(s1.flags, s1.core);
    assert Sent(s, last) == Opening(s1) + made + [Terminal(s1, last)];
    ClosesArgs(s1.flags, s1.core);
    assert forall i :: 0 <= i < |made| ==> Sent(s, last)[|Opening(s1)| + i] == made[i];
  }

  lemma ClosesArgs(g: Flags, c: Core)
    requires c.outputIndex in c.items && c.items[c.outputIndex].typ == "function_call"
    ensures var made := CompletionEvents(g, c);
            && ((exists i :: 0 <= i < |made| && made[i].NewArgsDone?) <==> !g.argsDone)
            && (forall i :: 0 <= i < |made| && made[i].NewArgsDone? ==>
                  made[i].arguments == c.items[c.outputIndex].arguments)
  {
    hide Finished;
    var before, args := CloseText(g, c) + ClosePart(g, c), CloseArgs(g, c);
    assert CompletionEvents(g, c) == before + args + CloseItem(g, c);
    if !g.argsDone {
      assert CompletionEvents(g, c)[|before|] == args[0] && args[0].NewArgsDone?;
    }
  }

  /** The smallest such stream: one delta "x" makes the client hold "xx". */
  lemma FirstDeltaCountsTwice()
    ensures var frames := [Plain(ArgsDelta, true, "x")];
            Told(Output(NewState("r"), frames)) == "xx" && Given(frames) == "x"
  {
    hide Output, Told, StateAfter;
    var f := Plain(ArgsDelta, true, "x");
    var frames := [f];
    assert [] + [f] == frames && "" + "x" == "x" && "x" + "x" == "xx";
    assert frames[..0] == [] && SingleCall(frames, 0);
    ClientFollows("r", frames, 0);
    GivenSnoc([], f);
    NothingCalled("r", 0);
    assert !Adds(frames[0]) && !Announced(frames);
  }
}
