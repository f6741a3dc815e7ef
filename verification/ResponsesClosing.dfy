/** The closing events of a Responses stream: which are made up, and what the client sees of them. */
module ResponsesClosing {
  import opened Common
  import opened ResponsesRepair
  import opened ResponsesText
  import opened ResponsesTheorems

  // ---------------------------------------------------------------- what the repairer knows

  datatype Closing = OfText | OfPart | OfArgs | OfItem

  function Flag(g: Flags, c: Closing): bool {
    match c
    case OfText => g.textDone
    case OfPart => g.contentDone
    case OfArgs => g.argsDone
    case OfItem => g.outputDone
  }

  function KindOf(c: Closing): Kind {
    match c
    case OfText => TextDone
    case OfPart => PartDone
    case OfArgs => ArgsDone
    case OfItem => ItemDone
  }

  predicate Invented(o: Out, c: Closing) {
    match c
    case OfText => o.NewTextDone?
    case OfPart => o.NewPartDone?
    case OfArgs => o.NewArgsDone?
    case OfItem => o.NewItemDone?
  }

  /** A closing event the repairer knows of: made up, or upstream's own if the repairer could note it. */
  predicate KnownDone(o: Out, c: Closing) {
    Invented(o, c) || (o.Through? && Noted(o.frame, KindOf(c)))
  }

  /** A made-up closing event is the first of its kind the repairer knows of. */
  ghost predicate FirstKnown(out: seq<Out>, c: Closing) {
    forall i, j :: 0 <= i < j < |out| && Invented(out[j], c) ==> !KnownDone(out[i], c)
  }

  ghost predicate NoneKnown(out: seq<Out>, c: Closing) {
    forall i :: 0 <= i < |out| ==> !KnownDone(out[i], c)
  }

  ghost predicate NoneInvented(out: seq<Out>, c: Closing) {
    forall i :: 0 <= i < |out| ==> !Invented(out[i], c)
  }

  ghost predicate StepCloses(g: Flags, g': Flags, more: seq<Out>, c: Closing) {
    && (Flag(g, c) ==> Flag(g', c) && NoneInvented(more, c))
    && FirstKnown(more, c)
    && (!Flag(g', c) ==> NoneKnown(more, c))
  }

  function PartFor(c: Closing, a: seq<Out>, b: seq<Out>, x: seq<Out>, d: seq<Out>): (seq<Out>, nat) {
    match c
    case OfText => (a, 0)
    case OfPart => (b, |a|)
    case OfArgs => (x, |a| + |b|)
    case OfItem => (d, |a| + |b| + |x|)
  }

  /** Among the events made up at the end, those of one kind stand at one place only. */
  lemma ClosingPlaces(g: Flags, k: Core, c: Closing)
    ensures var (own, at) := PartFor(c, CloseText(g, k), ClosePart(g, k), CloseArgs(g, k), CloseItem(g, k));
            var e := CompletionEvents(g, k);
            forall i :: 0 <= i < |e| && KnownDone(e[i], c) ==> !Blank(k) && own != [] && i == at
  {
    hide Finished, CurrentItem, Noted;
    var a, b, x, d := CloseText(g, k), ClosePart(g, k), CloseArgs(g, k), CloseItem(g, k);
    var e := CompletionEvents(g, k);
    if !Blank(k) {
      forall i | 0 <= i < |e| && KnownDone(e[i], c)
        ensures PartFor(c, a, b, x, d).0 != [] && i == PartFor(c, a, b, x, d).1 {
        FourParts(a, b, x, d, i);
      }
    }
  }

  lemma FourParts(a: seq<Out>, b: seq<Out>, x: seq<Out>, d: seq<Out>, i: nat)
    requires |a| <= 1 && |b| <= 1 && |x| <= 1 && |d| <= 1 && i < |a| + |b| + |x| + |d|
    ensures var e := a + b + x + d;
            || (a != [] && i == 0 && e[i] == a[0])
            || (b != [] && i == |a| && e[i] == b[0])
            || (x != [] && i == |a| + |b| && e[i] == x[0])
            || (d != [] && i == |a| + |b| + |x| && e[i] == d[0])
  {
  }

  lemma CompletionCloses(g: Flags, k: Core, c: Closing)
    ensures StepCloses(g, CloseAll(g, k), CompletionEvents(g, k), c)
  {
    hide Finished, CompletionEvents, KnownDone;
    ClosingPlaces(g, k, c);
    InventedIsKnown(c);
  }

  lemma InventedIsKnown(c: Closing)
    ensures forall o :: Invented(o, c) ==> KnownDone(o, c)
  {
  }

  lemma ClosesAround(g: Flags, g': Flags, more: seq<Out>, before: seq<Out>, after: Out, c: Closing)
    requires StepCloses(g, g', more, c) && NoneKnown(before, c) && !KnownDone(after, c)
    ensures StepCloses(g, g', before + more + [after], c)
  {
    var all := before + more + [after];
    forall i | 0 <= i < |all| && Invented(all[i], c)
      ensures |before| <= i < |before| + |more| && all[i] == more[i - |before|]
    {
    }
  }

  /** A closing flag records exactly the noted closing events, and those made up at the end. */
  lemma ClosingFlags(s: State, f: Frame, c: Closing)
    requires f.Event?
    ensures Flag(Observe(s, f).flags, c) == (Flag(s.flags, c) || Noted(f, KindOf(c)))
    ensures f.kind == Created ==> Process(s, f).flags == s.flags
    ensures f.kind == Completed ==>
              Process(s, f).flags == CloseAll(Observe(s, f).flags, Observe(s, f).core)
    ensures f.kind != Created && f.kind != Completed ==> Flag(Process(s, f).flags, c) == Flag(Observe(s, f).flags, c)
  {
    hide ObserveCore, CloseAll, MessageID;
  }

  lemma CompletedCloses(s: State, f: Frame, c: Closing)
    requires f.Event? && f.kind == Completed
    ensures StepCloses(s.flags, Process(s, f).flags, Sent(s, f), c)
  {
    hide Observe, CompletionEvents, CloseAll, OutputSnapshot, Process;
    var s1 := Observe(s, f);
    ClosingFlags(s, f, c);
    CompletionCloses(s1.flags, s1.core, c);
    ClosesAround(s1.flags, CloseAll(s1.flags, s1.core), CompletionEvents(s1.flags, s1.core), Opening(s1),
      Terminal(s1, f), c);
    assert Sent(s, f) == Opening(s1) + CompletionEvents(s1.flags, s1.core) + [Terminal(s1, f)];
  }

  lemma OtherCloses(s: State, f: Frame, c: Closing)
    requires f.Event? ==> f.kind != Completed
    ensures StepCloses(s.flags, Process(s, f).flags, Sent(s, f), c)
  {
    hide Observe, CurrentItem, Process, CompletionEvents;
    if f.Event? {
      ClosingFlags(s, f, c);
    } else {
      RawKeeps(s, f);
    }
    var more := Sent(s, f);
    forall i | 0 <= i < |more|
      ensures !Invented(more[i], c) && (KnownDone(more[i], c) ==> f.Event? && Noted(f, KindOf(c))) {
    }
  }

  lemma RawKeeps(s: State, f: Frame)
    requires f.Raw?
    ensures Process(s, f) == s
  {
  }

  lemma ProcessCloses(s: State, f: Frame, c: Closing)
    ensures StepCloses(s.flags, Process(s, f).flags, Sent(s, f), c)
  {
    hide Process, Sent, StepCloses;
    if f.Event? && f.kind == Completed {
      CompletedCloses(s, f, c);
    } else {
      OtherCloses(s, f, c);
    }
  }

  ghost predicate Closed(s: State, out: seq<Out>, c: Closing) {
    FirstKnown(out, c) && (!Flag(s.flags, c) ==> NoneKnown(out, c))
  }

  lemma ClosedStep(s: State, out: seq<Out>, f: Frame, c: Closing)
    requires Closed(s, out, c)
    ensures Closed(Process(s, f), out + Sent(s, f), c)
  {
    hide Process, Sent;
    ProcessCloses(s, f, c);
  }

  /** For every upstream stream, each closing event is made up at most once, and only if the repairer
    * has noted none from upstream. */
  lemma {:induction false} LifecycleCloses(id: string, frames: seq<Frame>, c: Closing)
    ensures Closed(StateAfter(NewState(id), frames), Output(NewState(id), frames), c)
    decreases |frames|
  {
    if frames != [] {
      var front := frames[..|frames| - 1];
      LifecycleCloses(id, front, c);
      ClosedStep(StateAfter(NewState(id), front), Output(NewState(id), front), frames[|frames| - 1], c);
    }
  }

  // ---------------------------------------------------------------- the client's view of closing

  /** A frame of the kind, whether the payload or only the header names it. */
  predicate OfKind(f: Frame, c: Closing) {
    f.Event? && f.kind == KindOf(c)
  }

  predicate Forwarded(o: Out, c: Closing) {
    o.Through? && OfKind(o.frame, c)
  }

  /** A closing event as the client sees it. */
  predicate IsDone(o: Out, c: Closing) {
    Invented(o, c) || Forwarded(o, c)
  }

  ghost predicate InventedFirst(out: seq<Out>, c: Closing) {
    forall i, j :: 0 <= i < j < |out| && Invented(out[j], c) ==> !IsDone(out[i], c)
  }

  ghost predicate AnyDone(out: seq<Out>, c: Closing) {
    exists i :: 0 <= i < |out| && IsDone(out[i], c)
  }

  ghost predicate AnyInvented(out: seq<Out>, c: Closing) {
    exists i :: 0 <= i < |out| && Invented(out[i], c)
  }

  /** The repairer makes the closing event up: the guards of the code, on what it knows. */
  predicate MakesUp(s: State, f: Frame, c: Closing) {
    f.Event? && f.kind == Completed &&
    var s1 := Observe(s, f);
    && !Flag(s1.flags, c) && !Blank(s1.core)
    && match c
       case OfText => s1.core.text != ""
       case OfPart => s1.core.text != ""
       case OfArgs => CurrentItem(s1.core).typ == "function_call"
       case OfItem => true
  }

  /** An upstream closing event the repairer could not note: named by the header only, or unreadable. */
  predicate Unnoted(f: Frame, c: Closing) {
    OfKind(f, c) && !Noted(f, KindOf(c))
  }

  /** Upstream closes at a, unnoted, and the first completed event with something to close is b. */
  ghost predicate DoneTwice(frames: seq<Frame>, c: Closing) {
    exists a, b :: 0 <= a < b < |frames| && TwiceAt(frames, a, b, c)
  }

  ghost predicate TwiceAt(frames: seq<Frame>, a: nat, b: nat, c: Closing)
    requires a < b < |frames|
  {
    Unnoted(frames[a], c) && FirstDue(frames[..b], frames[b], c)
  }

  ghost predicate AnyOfKind(frames: seq<Frame>, c: Closing) {
    exists a :: 0 <= a < |frames| && OfKind(frames[a], c)
  }

  ghost predicate AnyUnnoted(frames: seq<Frame>, c: Closing) {
    exists a :: 0 <= a < |frames| && Unnoted(frames[a], c)
  }

  lemma SentDone(s: State, f: Frame, c: Closing)
    ensures AnyInvented(Sent(s, f), c) <==> MakesUp(s, f, c)
    ensures AnyDone(Sent(s, f), c) <==> MakesUp(s, f, c) || OfKind(f, c)
    ensures InventedFirst(Sent(s, f), c)
  {
    hide Sent, MakesUp;
    if f.Event? && f.kind == Completed {
      SentLast(s, f, c);
    } else if f.Event? && f.kind != Created {
      SentOther(s, f, c);
      NotMadeUp(s, f, c);
    } else {
      SentAsIs(s, f, c);
      NotMadeUp(s, f, c);
    }
  }

  lemma NotMadeUp(s: State, f: Frame, c: Closing)
    ensures (f.Event? && f.kind == Completed) || !MakesUp(s, f, c)
  {
  }

  lemma SentAsIs(s: State, f: Frame, c: Closing)
    requires f.Event? ==> f.kind == Created
    ensures !AnyInvented(Sent(s, f), c) && !AnyDone(Sent(s, f), c) && !OfKind(f, c)
  {
  }

  lemma SentLast(s: State, f: Frame, c: Closing)
    requires f.Event? && f.kind == Completed
    ensures AnyInvented(Sent(s, f), c) <==> MakesUp(s, f, c)
    ensures AnyDone(Sent(s, f), c) <==> MakesUp(s, f, c)
    ensures InventedFirst(Sent(s, f), c) && !OfKind(f, c)
  {
    hide Observe, CompletionEvents, OutputSnapshot, Finished, CurrentItem;
    var s1 := Observe(s, f);
    var e := CompletionEvents(s1.flags, s1.core);
    var more := Opening(s1) + e + [Terminal(s1, f)];
    assert Sent(s, f) == more;
    CompletionMakes(s1.flags, s1.core, c);
    if MakesUp(s, f, c) {
      var i :| 0 <= i < |e| && Invented(e[i], c);
      assert more[|Opening(s1)| + i] == e[i];
    }
    forall i | 0 <= i < |more| && IsDone(more[i], c)
      ensures |Opening(s1)| <= i < |Opening(s1)| + |e| && more[i] == e[i - |Opening(s1)|]
    {
    }
  }

  lemma SentOther(s: State, f: Frame, c: Closing)
    requires f.Event? && f.kind != Completed && f.kind != Created
    ensures !AnyInvented(Sent(s, f), c)
    ensures AnyDone(Sent(s, f), c) <==> OfKind(f, c)
  {
    hide Observe, CurrentItem;
    var s1 := Observe(s, f);
    var more := Sent(s, f);
    assert more == Opening(s1) + Body(s1, f);
    if OfKind(f, c) {
      BodyForwards(s1, f);
      assert IsDone(more[|more| - 1], c);
    }
  }

  lemma CompletionMakes(g: Flags, k: Core, c: Closing)
    ensures var e := CompletionEvents(g, k);
            && (AnyInvented(e, c) <==>
                  && !Flag(g, c) && !Blank(k)
                  && match c
                     case OfText => k.text != ""
                     case OfPart => k.text != ""
                     case OfArgs => CurrentItem(k).typ == "function_call"
                     case OfItem => true)
            && (forall i :: 0 <= i < |e| ==> !Forwarded(e[i], c))
            && (forall i, j :: 0 <= i < j < |e| && Invented(e[j], c) ==> !IsDone(e[i], c))
  {
    hide Finished, CurrentItem;
    var a, b, x, d := CloseText(g, k), ClosePart(g, k), CloseArgs(g, k), CloseItem(g, k);
    var e := CompletionEvents(g, k);
    if !Blank(k) {
      var (own, at) := PartFor(c, a, b, x, d);
      if own != [] {
        assert e[at] == own[0];
        assert Invented(e[at], c);
      }
      forall i | 0 <= i < |e| ensures !Forwarded(e[i], c) && (IsDone(e[i], c) ==> own != [] && i == at) {
        FourParts(a, b, x, d, i);
      }
    }
  }

  lemma {:induction false} OutputDone(id: string, frames: seq<Frame>, c: Closing)
    ensures AnyOfKind(frames, c) ==> AnyDone(Output(NewState(id), frames), c)
    ensures AnyDone(Output(NewState(id), frames), c) ==>
              AnyOfKind(frames, c) || AnyInvented(Output(NewState(id), frames), c)
    decreases |frames|
  {
    hide Sent, StateAfter, MakesUp, Observe;
    if frames != [] {
      var n := |frames| - 1;
      var front, f := frames[..n], frames[n];
      var s, out := StateAfter(NewState(id), front), Output(NewState(id), front);
      OutputDone(id, front, c);
      SentDone(s, f, c);
      DoneAppend(out, Sent(s, f), c);
      KindSnoc(front, f, c);
      assert frames == front + [f];
    }
  }

  lemma DoneAppend(out: seq<Out>, more: seq<Out>, c: Closing)
    ensures AnyDone(out + more, c) <==> AnyDone(out, c) || AnyDone(more, c)
    ensures AnyInvented(out + more, c) <==> AnyInvented(out, c) || AnyInvented(more, c)
    ensures InventedFirst(out + more, c) <==>
            InventedFirst(out, c) && InventedFirst(more, c) && (AnyInvented(more, c) ==> !AnyDone(out, c))
  {
    hide IsDone, Invented;
    var all := out + more;
    assert forall i :: 0 <= i < |out| ==> all[i] == out[i];
    assert forall i :: 0 <= i < |more| ==> all[|out| + i] == more[i];
    assert forall i :: |out| <= i < |all| ==> all[i] == more[i - |out|];
    if InventedFirst(all, c) {
      forall i, j | 0 <= i < j < |out| && Invented(out[j], c) ensures !IsDone(out[i], c) {
        assert all[i] == out[i] && all[j] == out[j];
      }
      forall i, j | 0 <= i < j < |more| && Invented(more[j], c) ensures !IsDone(more[i], c) {
        assert all[|out| + i] == more[i] && all[|out| + j] == more[j];
      }
    }
  }

  lemma KindSnoc(front: seq<Frame>, f: Frame, c: Closing)
    ensures AnyOfKind(front + [f], c) <==> AnyOfKind(front, c) || OfKind(f, c)
    ensures AnyUnnoted(front + [f], c) <==> AnyUnnoted(front, c) || Unnoted(f, c)
  {
    hide OfKind, Unnoted;
    var frames := front + [f];
    assert frames[|front|] == f && forall i :: 0 <= i < |front| ==> frames[i] == front[i];
  }

  /** Without its flag the repairer has neither made the event up nor noted one. */
  lemma {:induction false} UnflaggedIsUnnoted(id: string, frames: seq<Frame>, c: Closing)
    requires !Flag(StateAfter(NewState(id), frames).flags, c)
    ensures AnyOfKind(frames, c) <==> AnyUnnoted(frames, c)
    decreases |frames|
  {
    hide Process, OfKind, Observe;
    if frames != [] {
      var n := |frames| - 1;
      var front, f := frames[..n], frames[n];
      assert frames == front + [f];
      ProcessCloses(StateAfter(NewState(id), front), f, c);
      UnflaggedIsUnnoted(id, front, c);
      KindSnoc(front, f, c);
      if f.Event? {
        FlagNotes(StateAfter(NewState(id), front), f, c);
      }
      UnnotedIsOfKind(f, c);
    }
  }

  lemma UnnotedIsOfKind(f: Frame, c: Closing)
    ensures Unnoted(f, c) ==> OfKind(f, c)
    ensures OfKind(f, c) && !Unnoted(f, c) ==>
            f.Event? && Noted(f, KindOf(c)) && f.kind != Created && f.kind != Completed
  {
  }

  lemma FlagNotes(s: State, f: Frame, c: Closing)
    requires f.Event?
    ensures Noted(f, KindOf(c)) && f.kind != Created && f.kind != Completed ==> Flag(Process(s, f).flags, c)
  {
    ClosingFlags(s, f, c);
  }

  // ---------------------------------------------------------------- the guards, said on frames

  /** The output position last named by a frame that could be read. */
  function Position(frames: seq<Frame>): (r: int) {
    if frames == [] then 0
    else
      var f := frames[|frames| - 1];
      if f.Event? && f.decodes && f.kind != Created && f.outputIndex.Some? then f.outputIndex.value
      else Position(frames[..|frames| - 1])
  }

  /** The type of the item last described at position k; one known by its arguments only is a call. */
  function TypeAt(frames: seq<Frame>, k: int): (r: Option<string>) {
    if frames == [] then None
    else
      var f, before := frames[|frames| - 1], TypeAt(frames[..|frames| - 1], k);
      if Position(frames) != k || !Files(f) then before
      else if TakesItem(f) then Some(f.item.value.typ)
      else if before.Some? then before
      else Some("function_call")
  }

  ghost predicate AnyFiled(frames: seq<Frame>) {
    exists i :: 0 <= i < |frames| && Files(frames[i])
  }

  /** The frames leave something to close. */
  ghost predicate Leaves(frames: seq<Frame>, c: Closing) {
    match c
    case OfText => Heard(frames) != ""
    case OfPart => Heard(frames) != ""
    case OfArgs => TypeAt(frames, Position(frames)) == Some("function_call")
    case OfItem => Heard(frames) != "" || AnyFiled(frames)
  }

  /** A completed event that finds something to close. */
  ghost predicate Due(front: seq<Frame>, f: Frame, c: Closing) {
    f.Event? && f.kind == Completed && Leaves(front + [f], c)
  }

  /** Upstream has closed in a way that can be noted, or an earlier completed event found something to
    * close. */
  ghost predicate Over(frames: seq<Frame>, c: Closing) {
    exists i :: 0 <= i < |frames| && OverAt(frames, i, c)
  }

  ghost predicate OverAt(frames: seq<Frame>, i: nat, c: Closing)
    requires i < |frames|
  {
    Noted(frames[i], KindOf(c)) || Due(frames[..i], frames[i], c)
  }

  ghost predicate FirstDue(front: seq<Frame>, f: Frame, c: Closing) {
    Due(front, f, c) && !Over(front, c)
  }

  ghost predicate Mirrors(c: Core, frames: seq<Frame>) {
    && c.outputIndex == Position(frames)
    && c.text == Heard(frames)
    && (c.items == map[] <==> !AnyFiled(frames))
    && forall k :: TypeAt(frames, k) == if k in c.items then Some(c.items[k].typ) else None
  }

  lemma FiledSnoc(front: seq<Frame>, f: Frame)
    ensures AnyFiled(front + [f]) <==> AnyFiled(front) || Files(f)
  {
    hide Files;
    var frames := front + [f];
    assert frames[|front|] == f && forall i :: 0 <= i < |front| ==> frames[i] == front[i];
  }

  lemma FramesSnoc(front: seq<Frame>, f: Frame)
    ensures Position(front + [f]) == if f.Event? && f.decodes && f.kind != Created && f.outputIndex.Some?
                                     then f.outputIndex.value else Position(front)
    ensures forall k :: TypeAt(front + [f], k) ==
              if Position(front + [f]) != k || !Files(f) then TypeAt(front, k)
              else if TakesItem(f) then Some(f.item.value.typ)
              else if TypeAt(front, k).Some? then TypeAt(front, k)
              else Some("function_call")
  {
    hide Files, TakesItem;
    assert (front + [f])[..|front|] == front;
  }

  lemma MirrorsObserved(s: State, front: seq<Frame>, f: Frame)
    requires Mirrors(s.core, front)
    ensures f.Event? && f.kind != Created ==> Mirrors(Observe(s, f).core, front + [f])
    ensures Mirrors(Process(s, f).core, front + [f])
  {
    hide MessageID, ObserveCore, ObserveFlags, CloseAll, Heard, TypeAt, Position, AnyFiled, Mirrors;
    if f.Event? && f.kind != Created {
      SameCore(s, f);
    }
    if f.Event? && f.kind != Created && f.decodes {
      MirrorsCore(s.core, front, f);
    } else {
      MirrorsUnread(s.core, Process(s, f).core, front, f);
    }
  }

  lemma MirrorsUnread(c: Core, d: Core, front: seq<Frame>, f: Frame)
    requires Mirrors(c, front) && (f.Event? ==> f.kind == Created || !f.decodes)
    requires d.outputIndex == c.outputIndex && d.text == c.text && d.items == c.items
    ensures Mirrors(d, front + [f])
  {
    hide Heard, TypeAt, Position, AnyFiled;
    TextSnoc(front, f);
    FiledSnoc(front, f);
    FramesSnoc(front, f);
  }

  lemma MirrorsCore(c: Core, front: seq<Frame>, f: Frame)
    requires Mirrors(c, front) && f.Event? && f.kind != Created && f.decodes
    ensures Mirrors(ObserveCore(c, f), front + [f])
  {
    hide FrameItemID, Heard, TypeAt, Position, AnyFiled;
    TextSnoc(front, f);
    FiledSnoc(front, f);
    FramesSnoc(front, f);
    var c1, frames := ObserveCore(c, f), front + [f];
    assert c1.outputIndex == Position(frames);
    assert Files(f) ==> c1.outputIndex in c1.items;
    forall k ensures TypeAt(frames, k) == if k in c1.items then Some(c1.items[k].typ) else None {
      assert TypeAt(front, k) == if k in c.items then Some(c.items[k].typ) else None;
    }
  }

  lemma {:induction false} MirrorsAll(id: string, frames: seq<Frame>)
    ensures Mirrors(StateAfter(NewState(id), frames).core, frames)
    decreases |frames|
  {
    hide Mirrors, Process;
    if frames == [] {
      MirrorsNothing(id);
    } else {
      var front, f := frames[..|frames| - 1], frames[|frames| - 1];
      assert frames == front + [f];
      MirrorsAll(id, front);
      MirrorsObserved(StateAfter(NewState(id), front), front, f);
    }
  }

  lemma MirrorsNothing(id: string)
    ensures Mirrors(NewState(id).core, [])
  {
  }

  /** The guards of the code, on the state and on the frames. */
  lemma GuardsAreDue(s: State, front: seq<Frame>, f: Frame, c: Closing)
    requires Mirrors(s.core, front)
    ensures MakesUp(s, f, c) <==> Due(front, f, c) && !Flag(s.flags, c)
    ensures Flag(Process(s, f).flags, c) <==>
            Flag(s.flags, c) || Noted(f, KindOf(c)) || Due(front, f, c)
  {
    hide Observe, Process, Heard, TypeAt, Position, AnyFiled;
    MirrorsObserved(s, front, f);
    if f.Event? {
      ClosingFlags(s, f, c);
    } else {
      RawKeeps(s, f);
    }
  }

  lemma {:induction false} FlagIsOver(id: string, frames: seq<Frame>, c: Closing)
    ensures Flag(StateAfter(NewState(id), frames).flags, c) <==> Over(frames, c)
    decreases |frames|
  {
    hide Process, Due, OverAt, Mirrors;
    if frames != [] {
      var front, f := frames[..|frames| - 1], frames[|frames| - 1];
      assert frames == front + [f];
      MirrorsAll(id, front);
      FlagIsOver(id, front, c);
      GuardsAreDue(StateAfter(NewState(id), front), front, f, c);
      OverSnoc(front, f, c);
    }
  }

  lemma OverSnoc(front: seq<Frame>, f: Frame, c: Closing)
    ensures Over(front + [f], c) <==> Over(front, c) || Noted(f, KindOf(c)) || Due(front, f, c)
  {
    hide Noted, Due;
    var frames, n := front + [f], |front|;
    assert frames[n] == f && frames[..n] == front;
    forall i | 0 <= i < n ensures OverAt(frames, i, c) == OverAt(front, i, c) {
      assert frames[..i] == front[..i] && frames[i] == front[i];
    }
    assert OverAt(frames, n, c) == (Noted(f, KindOf(c)) || Due(front, f, c));
    hide OverAt;
    if Over(front, c) {
      var i :| 0 <= i < n && OverAt(front, i, c);
      assert OverAt(frames, i, c);
    }
  }

  /** A closing event is made up exactly at the first completed event that finds something to close,
    * unless upstream has closed before in a way that can be noted. */
  lemma MadeUpWhenDue(id: string, front: seq<Frame>, f: Frame, c: Closing)
    ensures MakesUp(StateAfter(NewState(id), front), f, c) <==> FirstDue(front, f, c)
  {
    hide MakesUp, Due, Over, Mirrors, StateAfter;
    MirrorsAll(id, front);
    GuardsAreDue(StateAfter(NewState(id), front), front, f, c);
    FlagIsOver(id, front, c);
  }

  /** What the client sees: a made-up closing event is the first of its kind in the whole stream unless
    * upstream sends one that cannot be noted, none that can, and then the first completed event that
    * finds something to close; and only then. */
  lemma {:induction false} MadeUpIsFirst(id: string, frames: seq<Frame>, c: Closing)
    ensures InventedFirst(Output(NewState(id), frames), c) <==> !DoneTwice(frames, c)
    decreases |frames|
  {
    hide Sent, StateAfter, MakesUp, Process, InventedFirst, AnyDone, AnyInvented, AnyOfKind, AnyUnnoted, Unnoted;
    hide FirstDue, DoneTwice;
    if frames == [] {
      NoFrames(id, c);
    } else {
      var n := |frames| - 1;
      var front, f := frames[..n], frames[n];
      var s, out := StateAfter(NewState(id), front), Output(NewState(id), front);
      assert frames == front + [f];
      MadeUpIsFirst(id, front, c);
      SentDone(s, f, c);
      DoneAppend(out, Sent(s, f), c);
      TwiceSnoc(front, f, c);
      MadeUpWhenDue(id, front, f, c);
      if MakesUp(s, f, c) {
        MadeUpUnflagged(s, f, c);
        LifecycleCloses(id, front, c);
        UnflaggedIsUnnoted(id, front, c);
        OutputDone(id, front, c);
        KnownAreInvented(s, out, c);
      }
    }
  }

  lemma NoFrames(id: string, c: Closing)
    ensures InventedFirst(Output(NewState(id), []), c) && !DoneTwice([], c)
  {
  }

  lemma MadeUpUnflagged(s: State, f: Frame, c: Closing)
    requires MakesUp(s, f, c)
    ensures !Flag(s.flags, c)
  {
    ClosingFlags(s, f, c);
  }

  lemma KnownAreInvented(s: State, out: seq<Out>, c: Closing)
    requires Closed(s, out, c) && !Flag(s.flags, c)
    ensures !AnyInvented(out, c)
  {
    InventedIsKnown(c);
  }

  lemma TwiceSnoc(front: seq<Frame>, f: Frame, c: Closing)
    ensures DoneTwice(front + [f], c) <==> DoneTwice(front, c) || (AnyUnnoted(front, c) && FirstDue(front, f, c))
  {
    hide FirstDue, Unnoted;
    var frames, n := front + [f], |front|;
    assert frames[n] == f && frames[..n] == front;
    forall a, b | 0 <= a < b < n ensures TwiceAt(frames, a, b, c) == TwiceAt(front, a, b, c) {
      assert frames[..b] == front[..b];
    }
    forall a | 0 <= a < n ensures TwiceAt(frames, a, n, c) <==> Unnoted(front[a], c) && FirstDue(front, f, c) {
    }
    hide TwiceAt;
    if DoneTwice(front, c) {
      var a, b :| 0 <= a < b < n && TwiceAt(front, a, b, c);
      assert TwiceAt(frames, a, b, c);
    }
    if AnyUnnoted(front, c) && FirstDue(front, f, c) {
      var a :| 0 <= a < n && Unnoted(front[a], c);
      assert TwiceAt(frames, a, n, c);
    }
  }

  /** It does happen: the text is closed by upstream under the header's name alone, and again by the
    * repairer. */
  lemma DoneTwiceHappens()
    ensures var frames := [Plain(TextDelta, true, "a"), Plain(TextDone, false, ""), Plain(Completed, true, "")];
            DoneTwice(frames, OfText) && !InventedFirst(Output(NewState("r"), frames), OfText)
  {
    var f0, f1, f2 := Plain(TextDelta, true, "a"), Plain(TextDone, false, ""), Plain(Completed, true, "");
    var frames := [f0, f1, f2];
    assert frames == [f0, f1] + [f2] && frames[..2] == [f0, f1] == [f0] + [f1] && [f0] == [] + [f0];
    TextSnoc([], f0);
    TextSnoc([f0], f1);
    TextSnoc([f0, f1], f2);
    assert "" + "a" == "a";
    OverSnoc([], f0, OfText);
    OverSnoc([f0], f1, OfText);
    assert TwiceAt(frames, 1, 2, OfText);
    MadeUpIsFirst("r", frames, OfText);
  }
}
