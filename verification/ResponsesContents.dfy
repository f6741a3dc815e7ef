/** What stands in the events a client is sent: upstream's own frames come through, and every made-up event
  * tells what upstream's frames said so far. */
module ResponsesContents {
  import opened Common
  import opened ResponsesRepair
  import opened ResponsesText
  import opened ResponsesTheorems
  import opened ResponsesClosing

  // ---------------------------------------------------------------- what the frames say

  /** The identifier of the response: that of the last created event that could be read, else the one made
    * up. */
  function ResponseNamed(id: string, frames: seq<Frame>): (r: string) {
    if frames == [] then id
    else
      var f := frames[|frames| - 1];
      if Recreates(f) then f.responseID else ResponseNamed(id, frames[..|frames| - 1])
  }

  predicate Recreates(f: Frame) {
    f.Event? && f.kind == Created && f.decodes && f.responseID != ""
  }

  /** The identifier a frame gives to the item it speaks of. */
  function NameIn(f: Frame): string {
    if f.Raw? || !f.decodes || f.kind == Created then ""
    else if f.itemID.Some? && f.itemID.value != "" then f.itemID.value
    else if f.item.Some? then f.item.value.id
    else ""
  }

  /** The item last named; a created event starts over with the message of the response. */
  function ItemNamed(id: string, frames: seq<Frame>): (r: string) {
    if frames == [] then "msg_" + id
    else
      var f := frames[|frames| - 1];
      if Recreates(f) then "msg_" + f.responseID
      else if NameIn(f) != "" then NameIn(f)
      else ItemNamed(id, frames[..|frames| - 1])
  }

  /** The content part last named by a frame that could be read. */
  function PartNamed(frames: seq<Frame>): (r: int) {
    if frames == [] then 0
    else
      var f := frames[|frames| - 1];
      if f.Event? && f.decodes && f.kind != Created && f.contentIndex.Some? then f.contentIndex.value
      else PartNamed(frames[..|frames| - 1])
  }

  /** The item at position k: its latest description, and the argument deltas since. */
  function ItemAt(id: string, frames: seq<Frame>, k: int): (r: Option<Item>) {
    if frames == [] then None
    else
      var f, before := frames[|frames| - 1], ItemAt(id, frames[..|frames| - 1], k);
      if Position(frames) != k || !Files(f) then before
      else if TakesItem(f) then f.item
      else if before.Some? then Some(before.value.(arguments := before.value.arguments + f.delta))
      else Some(Item(ItemNamed(id, frames), "function_call", "in_progress", f.delta, []))
  }

  /** The item spoken of now; a message until something else is known. */
  function Current(id: string, frames: seq<Frame>): Item {
    var item := ItemAt(id, frames, Position(frames));
    if item.Some? then item.value else Item(ItemNamed(id, frames), "message", "in_progress", "", [])
  }

  /** A finished item; a message has the text heard, if any was. */
  function Done(item: Item, text: string): Item {
    Item(item.id, item.typ, "completed", item.arguments,
      if item.typ == "message" && text != "" then [text] else item.texts)
  }

  /** The rebuilt output: all items in ascending order of position, the current one with the text. */
  ghost predicate IsOutput(output: seq<Item>, id: string, frames: seq<Frame>) {
    if !AnyFiled(frames) then
      output == if Heard(frames) == "" then []
                else [Item(ItemNamed(id, frames), "message", "completed", "", [Heard(frames)])]
    else
      exists positions :: IsListed(output, positions, id, frames)
  }

  ghost predicate IsListed(output: seq<Item>, positions: seq<int>, id: string, frames: seq<Frame>) {
    && Ascending(positions) && |output| == |positions|
    && (forall k :: k in positions <==> ItemAt(id, frames, k).Some?)
    && (forall i :: 0 <= i < |output| ==>
          ItemAt(id, frames, positions[i]).Some? &&
          output[i] == Done(ItemAt(id, frames, positions[i]).value,
                            if positions[i] == Position(frames) then Heard(frames) else ""))
  }

  ghost predicate AnyCreated(frames: seq<Frame>) {
    exists i :: 0 <= i < |frames| && frames[i].Event? && frames[i].kind == Created
  }

  // ---------------------------------------------------------------- what is sent

  /** The last frame as the client gets it: a text delta says which item, output and part it belongs to; a
    * completed event after a made-up created one has the identifier made up; all others are as they were. */
  ghost function Passed(id: string, frames: seq<Frame>): Frame
    requires frames != []
  {
    var f := frames[|frames| - 1];
    if f.Event? && f.kind == TextDelta then
      f.(itemID := if f.itemID.Some? then f.itemID else Some(ItemNamed(id, frames)),
         outputIndex := if f.outputIndex.Some? then f.outputIndex else Some(Position(frames)),
         contentIndex := if f.contentIndex.Some? then f.contentIndex else Some(PartNamed(frames)))
    else if f.Event? && f.kind == Completed && !AnyCreated(frames) then f.(responseID := ResponseNamed(id, frames))
    else f
  }

  /** A completed event whose output upstream left out. */
  predicate Bare(f: Frame) {
    f.Event? && f.kind == Completed && !f.hasSnapshot
  }

  /** What is to come through: every frame but those, in order. */
  ghost function PassedAll(id: string, frames: seq<Frame>): (r: seq<Frame>) {
    if frames == [] then []
    else
      PassedAll(id, frames[..|frames| - 1]) + if Bare(frames[|frames| - 1]) then [] else [Passed(id, frames)]
  }

  /** Upstream's frames among the events the client is sent. */
  function Forwards(out: seq<Out>): (r: seq<Frame>) {
    if out == [] then []
    else Forwards(out[..|out| - 1]) + if out[|out| - 1].Through? then [out[|out| - 1].frame] else []
  }

  /** The identifier of the response the client was told last. */
  function ToldID(id: string, out: seq<Out>): (r: string) {
    if out == [] then id
    else
      match out[|out| - 1]
      case NewCreated(name) => name
      case Through(f) => if Recreates(f) then f.responseID else ToldID(id, out[..|out| - 1])
      case _ => ToldID(id, out[..|out| - 1])
  }

  /** An event says what the frames said, up to the one it was sent for. */
  ghost predicate Says(o: Out, id: string, frames: seq<Frame>)
    requires frames != []
  {
    var at, item, part := Position(frames), ItemNamed(id, frames), PartNamed(frames);
    match o
    case Through(g) => g == Passed(id, frames)
    case NewCreated(name) => name == ResponseNamed(id, frames)
    case NewItemAdded(index, new_) => index == at && new_ == Current(id, frames)
    case NewPartAdded(name, index, content) => name == item && index == at && content == part
    case NewTextDone(name, index, content, text) =>
      name == item && index == at && content == part && text == Heard(frames)
    case NewPartDone(name, index, content, text) =>
      name == item && index == at && content == part && text == Heard(frames)
    case NewArgsDone(name, index, arguments) =>
      name == Current(id, frames).id && index == at && arguments == Current(id, frames).arguments
    case NewItemDone(index, new_) => index == at && new_ == Done(Current(id, frames), Heard(frames))
    case NewCompleted(name, output) => name == ResponseNamed(id, frames) && IsOutput(output, id, frames)
  }

  // ---------------------------------------------------------------- the state tells the same

  ghost predicate Knows(s: State, id: string, frames: seq<Frame>) {
    && s.id == ResponseNamed(id, frames)
    && (s.upstreamCreated <==> AnyCreated(frames))
    && KnowsCore(s.core, id, frames)
  }

  ghost predicate KnowsCore(c: Core, id: string, frames: seq<Frame>) {
    && c.outputIndex == Position(frames) && c.contentIndex == PartNamed(frames) && c.itemID == ItemNamed(id, frames)
    && c.text == Heard(frames)
    && (c.items == map[] <==> !AnyFiled(frames))
    && forall k :: ItemAt(id, frames, k) == if k in c.items then Some(c.items[k]) else None
  }

  lemma ContentsSnoc(id: string, front: seq<Frame>, f: Frame)
    ensures var frames := front + [f];
            && ItemNamed(id, frames) == (if Recreates(f) then "msg_" + f.responseID
                                         else if NameIn(f) != "" then NameIn(f) else ItemNamed(id, front))
            && PartNamed(frames) == (if f.Event? && f.decodes && f.kind != Created && f.contentIndex.Some?
                                     then f.contentIndex.value else PartNamed(front))
    ensures forall k :: ItemAt(id, front + [f], k) ==
              if Position(front + [f]) != k || !Files(f) then ItemAt(id, front, k)
              else if TakesItem(f) then f.item
              else if ItemAt(id, front, k).Some?
              then Some(ItemAt(id, front, k).value.(arguments := ItemAt(id, front, k).value.arguments + f.delta))
              else Some(Item(ItemNamed(id, front + [f]), "function_call", "in_progress", f.delta, []))
  {
    hide Files, TakesItem, Recreates, NameIn;
    assert (front + [f])[..|front|] == front;
  }

  lemma RenamedSnoc(id: string, front: seq<Frame>, f: Frame)
    ensures ResponseNamed(id, front + [f]) == if Recreates(f) then f.responseID else ResponseNamed(id, front)
  {
    assert (front + [f])[..|front|] == front;
  }

  lemma CreatedSnoc(front: seq<Frame>, f: Frame)
    ensures AnyCreated(front + [f]) <==> AnyCreated(front) || (f.Event? && f.kind == Created)
  {
    var frames := front + [f];
    assert frames[|front|] == f && forall i :: 0 <= i < |front| ==> frames[i] == front[i];
  }

  lemma KnowsRead(c: Core, id: string, front: seq<Frame>, f: Frame)
    requires KnowsCore(c, id, front) && f.Event? && f.kind != Created && f.decodes
    ensures KnowsCore(ObserveCore(c, f), id, front + [f])
  {
    hide Heard, ItemAt, ItemNamed, PartNamed, Position, AnyFiled;
    TextSnoc(front, f);
    FiledSnoc(front, f);
    FramesSnoc(front, f);
    ContentsSnoc(id, front, f);
    var c1, frames := ObserveCore(c, f), front + [f];
    assert NameIn(f) == FrameItemID(f);
    assert c1.outputIndex == Position(frames) && c1.itemID == ItemNamed(id, frames);
    assert Files(f) ==> c1.outputIndex in c1.items;
    assert "" + f.delta == f.delta;
    forall k ensures ItemAt(id, frames, k) == if k in c1.items then Some(c1.items[k]) else None {
      assert ItemAt(id, front, k) == if k in c.items then Some(c.items[k]) else None;
    }
  }

  lemma KnowsUnread(c: Core, id: string, front: seq<Frame>, f: Frame)
    requires KnowsCore(c, id, front) && (f.Event? ==> !f.decodes)
    ensures KnowsCore(c, id, front + [f])
  {
    hide Heard, ItemAt, ItemNamed, PartNamed, Position, AnyFiled;
    TextSnoc(front, f);
    FiledSnoc(front, f);
    FramesSnoc(front, f);
    ContentsSnoc(id, front, f);
  }

  lemma KnowsCreated(c: Core, id: string, front: seq<Frame>, f: Frame)
    requires KnowsCore(c, id, front) && f.Event? && f.kind == Created
    ensures KnowsCore(if Recreates(f) then c.(itemID := MessageID(f.responseID)) else c, id, front + [f])
  {
    hide Heard, ItemAt, ItemNamed, PartNamed, Position, AnyFiled;
    TextSnoc(front, f);
    FiledSnoc(front, f);
    FramesSnoc(front, f);
    ContentsSnoc(id, front, f);
  }

  lemma KnowsStep(s: State, id: string, front: seq<Frame>, f: Frame)
    requires Knows(s, id, front)
    ensures Knows(Process(s, f), id, front + [f])
    ensures f.Event? && f.kind != Created ==> Knows(Observe(s, f), id, front + [f])
  {
    hide KnowsCore, ObserveCore, ObserveFlags, CloseAll, MessageID, AnyCreated, ResponseNamed;
    CreatedSnoc(front, f);
    RenamedSnoc(id, front, f);
    if f.Raw? || (f.kind != Created && !f.decodes) {
      KnowsUnread(s.core, id, front, f);
    } else if f.kind == Created {
      KnowsCreated(s.core, id, front, f);
    } else {
      KnowsRead(s.core, id, front, f);
    }
  }

  lemma KnowsNothing(id: string)
    ensures Knows(NewState(id), id, [])
  {
  }

  lemma {:induction false} KnowsAll(id: string, frames: seq<Frame>)
    ensures Knows(StateAfter(NewState(id), frames), id, frames)
    decreases |frames|
  {
    hide Knows, Process;
    if frames == [] {
      KnowsNothing(id);
    } else {
      var front, f := frames[..|frames| - 1], frames[|frames| - 1];
      assert frames == front + [f];
      KnowsAll(id, front);
      KnowsStep(StateAfter(NewState(id), front), id, front, f);
    }
  }

  // ---------------------------------------------------------------- and so do the events

  lemma DoneIsFinished(item: Item, text: string)
    ensures Finished(item, text) == Done(item, text)
    ensures item.(status := "completed") == Done(item, "")
  {
  }

  lemma SnapshotSays(c: Core, id: string, frames: seq<Frame>)
    requires KnowsCore(c, id, frames)
    ensures IsOutput(OutputSnapshot(c), id, frames)
  {
    hide Heard, ItemAt, ItemNamed, Position, AnyFiled, Finished, Done;
    var output := OutputSnapshot(c);
    if c.items == map[] {
      DoneIsFinished(Item(c.itemID, "message", "completed", "", []), c.text);
    } else {
      var keys := Sorted(c.items.Keys);
      assert Elems(keys) == c.items.Keys;
      forall k ensures k in keys <==> ItemAt(id, frames, k).Some? {
        assert k in keys <==> k in Elems(keys);
        assert ItemAt(id, frames, k) == if k in c.items then Some(c.items[k]) else None;
      }
      forall i | 0 <= i < |output|
        ensures ItemAt(id, frames, keys[i]).Some?
        ensures output[i] == Done(ItemAt(id, frames, keys[i]).value,
                                  if keys[i] == Position(frames) then Heard(frames) else "")
      {
        assert keys[i] in Elems(keys);
        DoneIsFinished(c.items[keys[i]], c.text);
      }
      assert IsListed(output, keys, id, frames);
    }
  }

  lemma CurrentSays(c: Core, id: string, frames: seq<Frame>)
    requires KnowsCore(c, id, frames)
    ensures CurrentItem(c) == Current(id, frames)
  {
    hide Heard, ItemAt, ItemNamed, Position, PartNamed, AnyFiled;
    assert ItemAt(id, frames, c.outputIndex) ==
           if c.outputIndex in c.items then Some(c.items[c.outputIndex]) else None;
  }

  ghost predicate AllSay(out: seq<Out>, id: string, frames: seq<Frame>)
    requires frames != []
  {
    forall i :: 0 <= i < |out| ==> Says(out[i], id, frames)
  }

  /** None of upstream's frames is among these. */
  predicate MadeUp(out: seq<Out>) {
    forall i :: 0 <= i < |out| ==> !out[i].Through?
  }

  lemma ClosingSays(g: Flags, c: Core, id: string, frames: seq<Frame>)
    requires KnowsCore(c, id, frames) && frames != []
    ensures AllSay(CompletionEvents(g, c), id, frames) && MadeUp(CompletionEvents(g, c))
  {
    hide Heard, ItemAt, ItemNamed, Position, PartNamed, AnyFiled, Finished, Done, CurrentItem, Current;
    CurrentSays(c, id, frames);
    DoneIsFinished(CurrentItem(c), c.text);
  }

  lemma OpeningSays(s: State, id: string, frames: seq<Frame>)
    requires Knows(s, id, frames) && frames != []
    ensures AllSay(Opening(s), id, frames) && MadeUp(Opening(s))
    ensures AllSay(EnsureOutput(s), id, frames) && MadeUp(EnsureOutput(s))
    ensures AllSay(EnsureText(s), id, frames) && MadeUp(EnsureText(s))
  {
    hide Heard, ItemAt, ItemNamed, Position, PartNamed, AnyFiled, CurrentItem, Current, AnyCreated, ResponseNamed;
    CurrentSays(s.core, id, frames);
  }

  /** What ends the events sent for a frame: the frame itself, or the answer rebuilt. */
  ghost function Final(id: string, frames: seq<Frame>, s: State): Out
    requires frames != []
  {
    if Bare(frames[|frames| - 1]) then NewCompleted(s.id, OutputSnapshot(s.core)) else Through(Passed(id, frames))
  }

  lemma FinalSays(s: State, id: string, frames: seq<Frame>)
    requires Knows(s, id, frames) && frames != []
    ensures Says(Final(id, frames, s), id, frames)
  {
    hide KnowsCore, IsOutput, OutputSnapshot, Passed, AnyCreated;
    SnapshotSays(s.core, id, frames);
  }

  lemma SentIs(s: State, id: string, front: seq<Frame>, f: Frame)
    requires Knows(s, id, front)
    ensures var frames := front + [f];
            var s1 := if f.Event? && f.kind != Created then Observe(s, f) else Process(s, f);
            exists made: seq<Out> ::
              && Sent(s, f) == made + [Final(id, frames, s1)]
              && AllSay(made, id, frames) && MadeUp(made) && Knows(s1, id, frames)
  {
    hide Observe, Process, CompletionEvents, OutputSnapshot, AnyCreated, ItemNamed, PartNamed, Position, AllSay, MadeUp;
    hide ResponseNamed;
    var frames := front + [f];
    KnowsStep(s, id, front, f);
    if f.Raw? || f.kind == Created {
      assert Sent(s, f) == [] + [Final(id, frames, Process(s, f))];
      NothingSays(id, frames);
    } else {
      var s1 := Observe(s, f);
      OpeningSays(s1, id, frames);
      ClosingSays(s1.flags, s1.core, id, frames);
      var more := match f.kind
        case TextDelta => EnsureText(s1)
        case ArgsDelta => EnsureOutput(s1)
        case Completed => CompletionEvents(s1.flags, s1.core)
        case _ => [];
      NothingSays(id, frames);
      BothSay(Opening(s1), more, id, frames);
      assert Body(s1, f) == more + [Final(id, frames, s1)];
      assert Sent(s, f) == (Opening(s1) + more) + [Final(id, frames, s1)];
    }
  }

  lemma NothingSays(id: string, frames: seq<Frame>)
    requires frames != []
    ensures AllSay([], id, frames) && MadeUp([])
  {
  }

  lemma BothSay(a: seq<Out>, b: seq<Out>, id: string, frames: seq<Frame>)
    requires frames != [] && AllSay(a, id, frames) && AllSay(b, id, frames) && MadeUp(a) && MadeUp(b)
    ensures AllSay(a + b, id, frames) && MadeUp(a + b)
  {
    hide Says;
  }

  /** Every event sent for a frame says what upstream's frames have said up to it: identifiers, positions,
    * text and arguments; the last of them is the frame itself or the answer rebuilt from them. */
  lemma EventsSayTheFrames(id: string, front: seq<Frame>, f: Frame, i: nat)
    requires i < |Sent(StateAfter(NewState(id), front), f)|
    ensures Says(Sent(StateAfter(NewState(id), front), f)[i], id, front + [f])
    ensures var sent := Sent(StateAfter(NewState(id), front), f);
            if Bare(f) then sent[|sent| - 1].NewCompleted? else sent[|sent| - 1] == Through(Passed(id, front + [f]))
  {
    hide Sent, StateAfter, Says, Knows, MadeUp, Passed, Observe, Process, Final;
    var s, frames := StateAfter(NewState(id), front), front + [f];
    KnowsAll(id, front);
    SentIs(s, id, front, f);
    var s1 := if f.Event? && f.kind != Created then Observe(s, f) else Process(s, f);
    var made :| Sent(s, f) == made + [Final(id, frames, s1)] && AllSay(made, id, frames) && MadeUp(made) &&
      Knows(s1, id, frames);
    FinalSays(s1, id, frames);
    FinalIs(s1, id, frames);
  }

  lemma FinalIs(s: State, id: string, frames: seq<Frame>)
    requires frames != []
    ensures if Bare(frames[|frames| - 1]) then Final(id, frames, s).NewCompleted?
            else Final(id, frames, s) == Through(Passed(id, frames))
  {
  }

  lemma ForwardsAppend(id: string, out: seq<Out>, made: seq<Out>, last: Out)
    requires MadeUp(made)
    ensures Forwards(out + (made + [last])) == Forwards(out) + if last.Through? then [last.frame] else []
    decreases |made|
  {
    assert (out + (made + [last]))[..|out| + |made|] == out + made;
    MadeUpForwards(out, made);
  }

  lemma {:induction false} MadeUpForwards(out: seq<Out>, made: seq<Out>)
    requires MadeUp(made)
    ensures Forwards(out + made) == Forwards(out)
    decreases |made|
  {
    if made == [] {
      assert out + made == out;
    } else {
      var front, o := made[..|made| - 1], made[|made| - 1];
      assert (out + made)[..|out + made| - 1] == out + front && (out + made)[|out + made| - 1] == o;
      MadeUpForwards(out, front);
      assert Forwards(out + front) + [] == Forwards(out + front);
    }
  }

  /** For every upstream stream: the client is sent all of upstream's frames but bare completed events, once
    * each and in order, raw ones included; unchanged, but for the item and positions a text delta leaves
    * open and the identifier of a completed event whose created event was made up. */
  lemma {:induction false} FramesComeThrough(id: string, frames: seq<Frame>)
    ensures Forwards(Output(NewState(id), frames)) == PassedAll(id, frames)
    decreases |frames|
  {
    hide Sent, StateAfter, Passed, Knows, MadeUp, AllSay, Observe, Process, Final;
    if frames != [] {
      var front, f := frames[..|frames| - 1], frames[|frames| - 1];
      assert frames == front + [f];
      FramesComeThrough(id, front);
      var s := StateAfter(NewState(id), front);
      KnowsAll(id, front);
      SentIs(s, id, front, f);
      var s1 := if f.Event? && f.kind != Created then Observe(s, f) else Process(s, f);
      var made :| Sent(s, f) == made + [Final(id, frames, s1)] && AllSay(made, id, frames) && MadeUp(made) &&
        Knows(s1, id, frames);
      FinalIs(s1, id, frames);
      ForwardsAppend(id, Output(NewState(id), front), made, Final(id, frames, s1));
    }
  }

  lemma {:induction false} MadeUpTells(id: string, out: seq<Out>, made: seq<Out>, frames: seq<Frame>)
    requires frames != [] && AllSay(made, id, frames) && MadeUp(made)
    ensures ToldID(id, out + made) == ToldID(id, out) || ToldID(id, out + made) == ResponseNamed(id, frames)
    decreases |made|
  {
    if made == [] {
      assert out + made == out;
    } else {
      var front, o := made[..|made| - 1], made[|made| - 1];
      assert (out + made)[..|out + made| - 1] == out + front && (out + made)[|out + made| - 1] == o;
      MadeUpTells(id, out, front, frames);
      assert Says(o, id, frames);
    }
  }

  lemma LastTells(id: string, out: seq<Out>, last: Out)
    ensures ToldID(id, out + [last]) ==
            match last
            case NewCreated(name) => name
            case Through(f) => if Recreates(f) then f.responseID else ToldID(id, out)
            case _ => ToldID(id, out)
  {
    assert (out + [last])[..|out|] == out;
  }

  /** The identifier of the response in every event made up, and in a completed event whose created event
    * was made up, is the one the client was told: by the created event it was sent, or by the last one of
    * upstream that could be read. */
  lemma {:induction false} IdentifierIsTold(id: string, frames: seq<Frame>)
    ensures ToldID(id, Output(NewState(id), frames)) == ResponseNamed(id, frames)
    decreases |frames|
  {
    hide Sent, StateAfter, Knows, MadeUp, AllSay, Observe, Process, Final, Passed, ResponseNamed, ToldID;
    if frames == [] {
      NothingTold(id);
    } else {
      var front, f := frames[..|frames| - 1], frames[|frames| - 1];
      assert frames == front + [f];
      IdentifierIsTold(id, front);
      var s, out := StateAfter(NewState(id), front), Output(NewState(id), front);
      KnowsAll(id, front);
      SentIs(s, id, front, f);
      var s1 := if f.Event? && f.kind != Created then Observe(s, f) else Process(s, f);
      var made :| Sent(s, f) == made + [Final(id, frames, s1)] && AllSay(made, id, frames) && MadeUp(made) &&
        Knows(s1, id, frames);
      IdentifierStep(id, front, f, out, made, s1);
      assert out + (made + [Final(id, frames, s1)]) == (out + made) + [Final(id, frames, s1)];
    }
  }

  lemma NothingTold(id: string)
    ensures ToldID(id, []) == ResponseNamed(id, []) == id
  {
  }

  lemma IdentifierStep(id: string, front: seq<Frame>, f: Frame, out: seq<Out>, made: seq<Out>, s: State)
    requires var frames := front + [f]; AllSay(made, id, frames) && MadeUp(made)
    requires ToldID(id, out) == ResponseNamed(id, front)
    ensures ToldID(id, out + made + [Final(id, front + [f], s)]) == ResponseNamed(id, front + [f])
  {
    hide ToldID, ResponseNamed, ItemNamed, PartNamed, ItemAt, Position, AllSay, MadeUp, OutputSnapshot, AnyCreated;
    var frames := front + [f];
    MadeUpTells(id, out, made, frames);
    LastTells(id, out + made, Final(id, frames, s));
    RenamedSnoc(id, front, f);
    FinalIs(s, id, frames);
  }

  // ---------------------------------------------------------------- when opening events are made up

  predicate IsEvent(f: Frame) {
    f.Event?
  }

  /** Announces an item, or has one announced before it. */
  predicate OpensItem(f: Frame) {
    Noted(f, ItemAdded) || (f.Event? && (f.kind == TextDelta || f.kind == ArgsDelta))
  }

  predicate OpensPart(f: Frame) {
    Noted(f, PartAdded) || (f.Event? && f.kind == TextDelta)
  }

  ghost predicate Had(frames: seq<Frame>, what: Frame -> bool) {
    exists i :: 0 <= i < |frames| && what(frames[i])
  }

  lemma HadSnoc(front: seq<Frame>, f: Frame, what: Frame -> bool)
    ensures Had(front + [f], what) <==> Had(front, what) || what(f)
  {
    var frames := front + [f];
    assert frames[|front|] == f && forall i :: 0 <= i < |front| ==> frames[i] == front[i];
  }

  lemma {:induction false} OpenedBefore(id: string, frames: seq<Frame>)
    ensures var s := StateAfter(NewState(id), frames);
            && (s.created <==> Had(frames, IsEvent))
            && (s.flags.outputAdded <==> Had(frames, OpensItem))
            && (s.flags.contentAdded <==> Had(frames, OpensPart))
    decreases |frames|
  {
    hide Process, Had;
    if frames == [] {
      NothingHad();
    } else {
      var front, f := frames[..|frames| - 1], frames[|frames| - 1];
      assert frames == front + [f];
      OpenedBefore(id, front);
      ProcessFlags(StateAfter(NewState(id), front), f);
      HadSnoc(front, f, IsEvent);
      HadSnoc(front, f, OpensItem);
      HadSnoc(front, f, OpensPart);
    }
  }

  lemma NothingHad()
    ensures forall what: Frame -> bool :: !Had([], what)
  {
  }

  /** How many of the events announce the response, an item or a part. */
  function Announcements(out: seq<Out>, what: Out -> bool): (r: nat) {
    if out == [] then 0
    else Announcements(out[..|out| - 1], what) + if what(out[|out| - 1]) then 1 else 0
  }

  lemma {:induction false} AnnouncementsAppend(a: seq<Out>, b: seq<Out>, what: Out -> bool)
    ensures Announcements(a + b, what) == Announcements(a, what) + Announcements(b, what)
    decreases |b|
  {
    if b == [] {
      assert a + b == a;
    } else {
      assert (a + b)[..|a + b| - 1] == a + b[..|b| - 1];
      AnnouncementsAppend(a, b[..|b| - 1], what);
    }
  }

  lemma {:induction false} NoAnnouncements(out: seq<Out>, what: Out -> bool)
    requires forall i :: 0 <= i < |out| ==> !what(out[i])
    ensures Announcements(out, what) == 0
    decreases |out|
  {
    if out != [] {
      NoAnnouncements(out[..|out| - 1], what);
    }
  }

  lemma OneAnnouncement(o: Out, what: Out -> bool)
    ensures Announcements([o], what) == if what(o) then 1 else 0
  {
    assert [o][..0] == [];
  }

  predicate TellsResponse(o: Out) {
    o.NewCreated?
  }

  predicate TellsItem(o: Out) {
    o.NewItemAdded?
  }

  predicate TellsPart(o: Out) {
    o.NewPartAdded?
  }

  lemma EnsuresCount(s: State)
    ensures Announcements(EnsureOutput(s), TellsItem) == if s.flags.outputAdded then 0 else 1
    ensures Announcements(EnsureText(s), TellsItem) == if s.flags.outputAdded then 0 else 1
    ensures Announcements(EnsureText(s), TellsPart) == if s.flags.contentAdded then 0 else 1
    ensures Announcements(EnsureOutput(s), TellsPart) == 0
    ensures Announcements(EnsureOutput(s), TellsResponse) == 0 && Announcements(EnsureText(s), TellsResponse) == 0
    ensures Announcements(Opening(s), TellsResponse) == if s.created then 0 else 1
    ensures Announcements(Opening(s), TellsItem) == 0 && Announcements(Opening(s), TellsPart) == 0
  {
    hide CurrentItem, Announcements;
    var item := NewItemAdded(s.core.outputIndex, CurrentItem(s.core));
    var part := NewPartAdded(s.core.itemID, s.core.outputIndex, s.core.contentIndex);
    forall what | what == TellsResponse || what == TellsItem || what == TellsPart
      ensures Announcements([], what) == 0 && Announcements([item], what) == (if what(item) then 1 else 0)
      ensures Announcements([part], what) == (if what(part) then 1 else 0)
      ensures Announcements([NewCreated(s.id)], what) == (if what(NewCreated(s.id)) then 1 else 0)
      ensures Announcements(EnsureText(s), what) ==
              Announcements(EnsureOutput(s), what) + Announcements(if s.flags.contentAdded then [] else [part], what)
    {
      NoAnnouncements([], what);
      OneAnnouncement(item, what);
      OneAnnouncement(part, what);
      OneAnnouncement(NewCreated(s.id), what);
      AnnouncementsAppend(EnsureOutput(s), if s.flags.contentAdded then [] else [part], what);
    }
  }

  lemma ClosingAnnouncesNothing(g: Flags, c: Core, what: Out -> bool)
    requires what == TellsResponse || what == TellsItem || what == TellsPart
    ensures Announcements(CompletionEvents(g, c), what) == 0
  {
    hide CurrentItem, Finished;
    NoAnnouncements(CompletionEvents(g, c), what);
  }

  /** What of a kind is announced for a frame: what comes first, and what the frame itself needs. */
  lemma SentAnnounces(s: State, f: Frame, what: Out -> bool)
    requires f.Event? && f.kind != Created && (what == TellsResponse || what == TellsItem || what == TellsPart)
    ensures var s1 := Observe(s, f);
            Announcements(Sent(s, f), what) ==
              Announcements(Opening(s1), what) +
              (if f.kind == TextDelta then Announcements(EnsureText(s1), what)
               else if f.kind == ArgsDelta then Announcements(EnsureOutput(s1), what) else 0)
  {
    hide Announcements, Opening, EnsureText, EnsureOutput, CompletionEvents, OutputSnapshot, Observe;
    var s1 := Observe(s, f);
    var made := match f.kind
      case TextDelta => EnsureText(s1)
      case ArgsDelta => EnsureOutput(s1)
      case Completed => CompletionEvents(s1.flags, s1.core)
      case _ => [];
    var last := match f.kind
      case TextDelta => Through(NormalizeDelta(s1.core, f))
      case Completed => Terminal(s1, f)
      case _ => Through(f);
    assert Sent(s, f) == Opening(s1) + (made + [last]);
    AnnouncementsAppend(Opening(s1), made + [last], what);
    AnnouncementsAppend(made, [last], what);
    OneAnnouncement(last, what);
    NoAnnouncements([], what);
    ClosingAnnouncesNothing(s1.flags, s1.core, what);
  }

  /** An opening event is made up exactly when it is due, and then once: a created event for the first
    * response event if that is no created event itself; an item for the first delta of text or arguments
    * unless upstream has announced one; a part for the first delta of text unless upstream has announced
    * one. */
  lemma OpenedWhenDue(id: string, front: seq<Frame>, f: Frame)
    ensures var sent := Sent(StateAfter(NewState(id), front), f);
            && Announcements(sent, TellsResponse) ==
               (if f.Event? && f.kind != Created && !Had(front, IsEvent) then 1 else 0)
            && Announcements(sent, TellsItem) ==
               (if f.Event? && (f.kind == TextDelta || f.kind == ArgsDelta) && !Had(front, OpensItem) then 1 else 0)
            && Announcements(sent, TellsPart) ==
               (if f.Event? && f.kind == TextDelta && !Had(front, OpensPart) then 1 else 0)
  {
    hide Announcements, Sent, StateAfter, Had, EnsureOutput, EnsureText, Opening, ObserveCore;
    var s := StateAfter(NewState(id), front);
    OpenedBefore(id, front);
    if f.Event? && f.kind != Created {
      SentAnnounces(s, f, TellsResponse);
      SentAnnounces(s, f, TellsItem);
      SentAnnounces(s, f, TellsPart);
      EnsuresCount(Observe(s, f));
    } else {
      SentPlain(s, f);
      OneAnnouncement(Through(f), TellsResponse);
      OneAnnouncement(Through(f), TellsItem);
      OneAnnouncement(Through(f), TellsPart);
    }
  }

  lemma SentPlain(s: State, f: Frame)
    requires f.Event? ==> f.kind == Created
    ensures Sent(s, f) == [Through(f)]
  {
  }
}
