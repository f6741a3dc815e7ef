/** The repairer as an object, and the copy loop that feeds it and decides when the client's
  * response is committed. */
module ResponsesStream {
  import opened Common
  import opened ResponsesRepair
  import ResponsesText

  class ResponsesStreamState {
    var id: string
    var created: bool
    var upstreamCreated: bool
    var outputAdded: bool
    var contentAdded: bool
    var textDone: bool
    var contentDone: bool
    var outputDone: bool
    var argsDone: bool
    var outputIndex: int
    var contentIndex: int
    var itemID: string
    var text: string
    var items: map<int, Item>

    function Marks(): Flags
      reads this
    {
      Flags(outputAdded, contentAdded, textDone, contentDone, outputDone, argsDone)
    }

    function Known(): Core
      reads this
    {
      Core(outputIndex, contentIndex, itemID, text, items)
    }

    function View(): State
      reads this
    {
      State(id, created, upstreamCreated, Marks(), Known())
    }

    constructor (id: string)
      ensures View() == NewState(id)
    {
      this.id := id;
      created, upstreamCreated, outputAdded, contentAdded := false, false, false, false;
      textDone, contentDone, outputDone, argsDone := false, false, false, false;
      outputIndex, contentIndex := 0, 0;
      itemID := MessageID(id);
      text := "";
      items := map[];
    }

    method NoteCreated(f: Frame)
      requires f.Event?
      modifies this
      ensures View() == ObserveCreated(old(View()), f)
    {
      if f.decodes && f.responseID != "" {
        id := f.responseID;
        itemID := MessageID(id);
      }
    }

    method NoteIndexes(f: Frame)
      requires f.Event?
      modifies this`itemID, this`outputIndex, this`contentIndex
      ensures Known() == ObserveIndexes(old(Known()), f)
    {
      if f.itemID.Some? && f.itemID.value != "" {
        itemID := f.itemID.value;
      } else if f.item.Some? && f.item.value.id != "" {
        itemID := f.item.value.id;
      }
      if f.outputIndex.Some? {
        outputIndex := f.outputIndex.value;
      }
      if f.contentIndex.Some? {
        contentIndex := f.contentIndex.value;
      }
    }

    method NoteItem(f: Frame)
      requires f.Event? && f.decodes && f.typed
      modifies this`items
      ensures items == ObserveItems(old(Known()), f)
    {
      match f.kind
      case ItemAdded =>
        if f.item.Some? {
          items := items[outputIndex := f.item.value];
        }
      case ItemDone =>
        if f.item.Some? {
          items := items[outputIndex := f.item.value];
        }
      case ArgsDelta =>
        if outputIndex !in items {
          items := items[outputIndex := Item(itemID, "function_call", "in_progress", "", [])];
        }
        items := items[outputIndex := items[outputIndex].(arguments := items[outputIndex].arguments + f.delta)];
      case _ =>
    }

    method NoteKind(f: Frame)
      requires f.Event? && f.decodes && f.typed
      modifies this`outputAdded, this`contentAdded, this`textDone, this`contentDone, this`outputDone, this`argsDone,
        this`text
      ensures Marks() == ObserveFlags(old(Marks()), f)
      ensures text == if Noted(f, TextDelta) then old(text) + f.delta else old(text)
    {
      match f.kind
      case ItemAdded => outputAdded := true;
      case PartAdded => contentAdded := true;
      case TextDelta => text := text + f.delta;
      case TextDone => textDone := true;
      case PartDone => contentDone := true;
      case ItemDone => outputDone := true;
      case ArgsDone => argsDone := true;
      case _ =>
    }

    method Note(f: Frame)
      requires f.Event?
      modifies this
      ensures View() == Observe(old(View()), f)
    {
      hide FrameItemID, ObserveItems, ObserveFlags, ObserveIndexes;
      Unread(View(), f);
      if !f.decodes {
        return;
      }
      NoteIndexes(f);
      if !f.typed {
        return;
      }
      NoteItem(f);
      NoteKind(f);
    }

    method CurrentEntry() returns (item: Item)
      ensures item == CurrentItem(Known())
    {
      if outputIndex in items {
        return items[outputIndex];
      }
      return Item(itemID, "message", "in_progress", "", []);
    }

    method EnsureOutputLifecycle() returns (events: seq<Out>)
      modifies this`outputAdded
      ensures events == EnsureOutput(old(View())) && outputAdded
    {
      if outputAdded {
        return [];
      }
      outputAdded := true;
      var item := CurrentEntry();
      return [NewItemAdded(outputIndex, item)];
    }

    method EnsureTextLifecycle() returns (events: seq<Out>)
      modifies this`outputAdded, this`contentAdded
      ensures events == EnsureText(old(View())) && outputAdded && contentAdded
    {
      events := EnsureOutputLifecycle();
      if !contentAdded {
        events := events + [NewPartAdded(itemID, outputIndex, contentIndex)];
        contentAdded := true;
      }
    }

    method MakeCompletionEvents() returns (events: seq<Out>)
      modifies this`textDone, this`contentDone, this`outputDone, this`argsDone
      ensures events == CompletionEvents(old(Marks()), Known())
      ensures Marks() == CloseAll(old(Marks()), Known())
    {
      hide CurrentItem;
      events := [];
      if items == map[] && text == "" {
        return;
      }
      if text != "" && !textDone {
        events := events + [NewTextDone(itemID, outputIndex, contentIndex, text)];
        textDone := true;
      }
      assert events == CloseText(old(Marks()), Known());
      if text != "" && !contentDone {
        events := events + [NewPartDone(itemID, outputIndex, contentIndex, text)];
        contentDone := true;
      }
      assert events == CloseText(old(Marks()), Known()) + ClosePart(old(Marks()), Known());
      ghost var textual := events;
      var current := CurrentEntry();
      if current.typ == "function_call" && !argsDone {
        events := events + [NewArgsDone(current.id, outputIndex, current.arguments)];
        argsDone := true;
      }
      assert events == textual + CloseArgs(old(Marks()), Known());
      if !outputDone {
        var item := current.(status := "completed");
        if item.typ == "message" && text != "" {
          item := item.(texts := [text]);
        }
        events := events + [NewItemDone(outputIndex, item)];
        outputDone := true;
      }
      assert events == textual + CloseArgs(old(Marks()), Known()) + CloseItem(old(Marks()), Known());
    }

    method Snapshot() returns (output: seq<Item>)
      ensures output == OutputSnapshot(Known())
    {
      hide Sorted;
      if items == map[] {
        if text != "" {
          return [Item(itemID, "message", "completed", "", [text])];
        }
        return [];
      }
      var indexes := SortInts(items.Keys);
      output := [];
      for i := 0 to |indexes|
        invariant |output| == i && indexes == Sorted(items.Keys) && Elems(indexes) == items.Keys
        invariant forall j :: 0 <= j < i ==> indexes[j] in items && output[j] == SnapshotItem(Known(), indexes[j])
      {
        assert indexes[i] in Elems(indexes);
        var item := items[indexes[i]].(status := "completed");
        if indexes[i] == outputIndex && item.typ == "message" && text != "" {
          item := item.(texts := [text]);
        }
        output := output + [item];
      }
    }

    /** What follows the opening event for an observed frame. */
    method Answer(f: Frame) returns (events: seq<Out>)
      requires f.Event? && f.kind != Created
      modifies this`outputAdded, this`contentAdded, this`textDone, this`contentDone, this`outputDone, this`argsDone
      ensures events == Body(old(View()), f)
      ensures Marks() == match f.kind
                         case TextDelta => old(Marks()).(outputAdded := true, contentAdded := true)
                         case ArgsDelta => old(Marks()).(outputAdded := true)
                         case Completed => CloseAll(old(Marks()), Known())
                         case _ => old(Marks())
    {
      hide CloseAll, CompletionEvents, OutputSnapshot, CurrentItem, EnsureText, EnsureOutput;
      match f.kind
      case TextDelta =>
        events := EnsureTextLifecycle();
        events := events + [Through(NormalizeDelta(Known(), f))];
      case ArgsDelta =>
        events := EnsureOutputLifecycle();
        events := events + [Through(f)];
      case Completed =>
        events := MakeCompletionEvents();
        if !f.hasSnapshot {
          var output := Snapshot();
          events := events + [NewCompleted(id, output)];
        } else {
          events := events + [Through(if upstreamCreated then f else f.(responseID := id))];
        }
      case _ =>
        events := [Through(f)];
    }

    /** One upstream frame: what is sent for it, with the events it needs in front. */
    method Handle(f: Frame) returns (out: seq<Out>)
      modifies this
      ensures View() == Process(old(View()), f) && out == ResponsesRepair.Sent(old(View()), f)
    {
      hide Observe, CloseAll, CompletionEvents, OutputSnapshot, CurrentItem;
      if f.Raw? {
        return [Through(f)];
      }
      if f.kind == Created {
        created := true;
        upstreamCreated := true;
        NoteCreated(f);
        return [Through(f)];
      }
      Note(f);
      var injected: seq<Out> := [];
      if !created {
        injected := [NewCreated(id)];
        created := true;
      }
      out := Answer(f);
      out := injected + out;
    }
  }

  /** A frame without a readable type changes neither items nor flags. */
  lemma Unread(s: State, f: Frame)
    requires f.Event?
    ensures !f.decodes || !f.typed ==> forall g :: ObserveFlags(g, f) == g
    ensures !f.decodes || !f.typed ==> forall c: Core :: ObserveItems(c, f) == c.items
    ensures !f.decodes ==> Observe(s, f) == s
  {
  }

  // ---------------------------------------------------------------- the copy loop

  /** An event the client can be shown as output. */
  predicate HasOutput(f: Frame) {
    f.Event? && f.readable &&
    if !f.typed then f.choice
    else match f.kind
      case TextDelta => f.delta != ""
      case ReasoningDelta => f.delta != ""
      case ArgsDelta => f.delta != ""
      case ItemAdded => true
      case PartAdded => true
      case ArgsDone => true
      case TextDone => true
      case Completed => true
      case Failed => true
      case Incomplete => true
      case _ => f.choice
  }

  predicate AnyOutput(frames: seq<Frame>) {
    exists i :: 0 <= i < |frames| && HasOutput(frames[i])
  }

  predicate AnyKind(frames: seq<Frame>, kind: Kind) {
    exists i :: 0 <= i < |frames| && frames[i].Event? && frames[i].kind == kind
  }

  /** How reading from upstream ended. */
  datatype ReadEnd = Eof | ReadError | FirstOutputTimeout

  datatype CopyError = StreamEmpty | Unreadable | TimedOut | TerminalFailure | Unfinished

  /** Copies one upstream stream.  With `delay`, nothing is written before the first frame with
    * output; from then on the writer has been given everything the repairer produced, in order. */
  method CopyResponsesStream(id: string, frames: seq<Frame>, end: ReadEnd, delay: bool)
    returns (written: seq<Out>, committed: bool, err: Option<CopyError>)
    ensures committed == if delay then AnyOutput(frames) else frames != []
    ensures written == if committed then Output(NewState(id), frames) else []
    ensures err == Some(TimedOut) <==> end == FirstOutputTimeout
    ensures err == Some(Unreadable) <==> end == ReadError
    ensures err == Some(StreamEmpty) <==> end == Eof && delay && !AnyOutput(frames)
    ensures err == Some(TerminalFailure) <==>
            end == Eof && (delay ==> AnyOutput(frames)) && (AnyKind(frames, Failed) || AnyKind(frames, Incomplete))
    ensures err == Some(Unfinished) <==>
            && end == Eof && delay && AnyOutput(frames)
            && !AnyKind(frames, Failed) && !AnyKind(frames, Incomplete) && !AnyKind(frames, Completed)
  {
    hide Process, ResponsesRepair.Sent, HasOutput, AnyOutput, AnyKind, Output, StateAfter;
    NoneOfAny(id);
    var responses := new ResponsesStreamState(id);
    written, committed := [], false;
    var pending: seq<Out> := [];
    var seenCompleted, seenTerminalFailure := false, false;
    assert frames[..0] == [];
    for i := 0 to |frames|
      invariant responses.View() == StateAfter(NewState(id), frames[..i])
      invariant committed == if delay then AnyOutput(frames[..i]) else i > 0
      invariant committed ==> written == Output(NewState(id), frames[..i])
      invariant !committed ==> written == [] && pending == Output(NewState(id), frames[..i])
      invariant seenCompleted == AnyKind(frames[..i], Completed)
      invariant seenTerminalFailure == (AnyKind(frames[..i], Failed) || AnyKind(frames[..i], Incomplete))
    {
      AnyOneMore(frames, i);
      OutputOneMore(id, frames, i);
      var frame := frames[i];
      var out := responses.Handle(frame);
      if frame.Event? && frame.kind == Completed {
        seenCompleted := true;
      }
      if frame.Event? && (frame.kind == Failed || frame.kind == Incomplete) {
        seenTerminalFailure := true;
      }
      if delay && !committed {
        pending := pending + out;
        if HasOutput(frame) {
          written := written + pending;
          pending := [];
          committed := true;
        }
      } else {
        written := written + out;
        committed := true;
      }
    }
    assert frames[..|frames|] == frames;
    if end == FirstOutputTimeout {
      return written, committed, Some(TimedOut);
    }
    if end == ReadError {
      return written, committed, Some(Unreadable);
    }
    if delay && !committed {
      return written, committed, Some(StreamEmpty);
    }
    if seenTerminalFailure {
      return written, committed, Some(TerminalFailure);
    }
    if delay && !seenCompleted {
      return written, committed, Some(Unfinished);
    }
    return written, committed, None;
  }

  lemma NoneOfAny(id: string)
    ensures !AnyOutput([]) && forall kind :: !AnyKind([], kind)
    ensures StateAfter(NewState(id), []) == NewState(id) && Output(NewState(id), []) == []
  {
  }

  lemma OutputOneMore(id: string, frames: seq<Frame>, i: nat)
    requires i < |frames|
    ensures var s := StateAfter(NewState(id), frames[..i]);
            && StateAfter(NewState(id), frames[..i + 1]) == Process(s, frames[i])
            && Output(NewState(id), frames[..i + 1]) ==
               Output(NewState(id), frames[..i]) + ResponsesRepair.Sent(s, frames[i])
  {
    hide Process, ResponsesRepair.Sent;
    var front := frames[..i + 1];
    assert front[..|front| - 1] == frames[..i] && front[|front| - 1] == frames[i];
  }

  lemma AnyOneMore(frames: seq<Frame>, i: nat)
    requires i < |frames|
    ensures AnyOutput(frames[..i + 1]) == (AnyOutput(frames[..i]) || HasOutput(frames[i]))
    ensures forall kind ::
              AnyKind(frames[..i + 1], kind) ==
                (AnyKind(frames[..i], kind) || (frames[i].Event? && frames[i].kind == kind))
  {
    var a, b := frames[..i], frames[..i + 1];
    assert b == a + [frames[i]];
    assert forall j :: 0 <= j < i ==> a[j] == b[j];
    assert b[i] == frames[i];
  }

  /** Says nothing a client would show or act on. */
  predicate Mute(f: Frame) {
    f.Event? ==>
      match f.kind
      case Created => true
      case ItemDone => true
      case PartDone => true
      case Other(_) => true
      case _ => (f.kind == TextDelta || f.kind == ReasoningDelta || f.kind == ArgsDelta) && f.delta == ""
  }

  /** What is held back says nothing: of a stream of plain frames nothing is written in delay mode exactly if
    * no frame carries text, reasoning or arguments, announces an item or part, closes text or arguments,
    * or ends the response. */
  lemma WithheldIsMute(frames: seq<Frame>)
    requires forall i :: 0 <= i < |frames| && frames[i].Event? ==>
               frames[i].typed && frames[i].readable && !frames[i].choice
    ensures !AnyOutput(frames) <==> forall i :: 0 <= i < |frames| ==> Mute(frames[i])
    ensures !AnyOutput(frames) ==> ResponsesText.Said(frames) == ""
  {
    forall i | 0 <= i < |frames| ensures HasOutput(frames[i]) <==> !Mute(frames[i]) {
    }
    hide HasOutput, Mute;
    if !AnyOutput(frames) {
      MuteSaysNothing(frames);
    }
  }

  lemma {:induction false} MuteSaysNothing(frames: seq<Frame>)
    requires forall i :: 0 <= i < |frames| ==> Mute(frames[i])
    ensures ResponsesText.Said(frames) == ""
    decreases |frames|
  {
    if frames != [] {
      var front, f := frames[..|frames| - 1], frames[|frames| - 1];
      MuteSaysNothing(front);
      assert Mute(f);
      assert f.Event? && f.kind == TextDelta ==> "" + f.delta == "";
    }
  }
}
