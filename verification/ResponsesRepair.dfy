/** Repair of a Responses event stream: lifecycle events an upstream left out are put in, and
  * nothing is written to the client before the first event that carries output. */
module ResponsesRepair {
  import opened Common

  datatype Kind =
    | Created | ItemAdded | ItemDone | PartAdded | PartDone | TextDelta | TextDone
    | ArgsDelta | ArgsDone | ReasoningDelta | Completed | Failed | Incomplete | Other(name: string)

  /** `texts` are the output_text parts of the content. */
  datatype Item = Item(id: string, typ: string, status: string, arguments: string, texts: seq<string>)

  /** One upstream SSE frame.  A frame that is not a response.* event is forwarded untouched.
    * `typed`: the payload itself names the type, rather than only the event header;
    * `decodes`: the payload fits the fields the repairer reads;
    * `readable`: it fits the fields the output test reads, `choice` being the test on `choices`. */
  datatype Frame =
    | Raw(text: string)
    | Event(kind: Kind, typed: bool, decodes: bool, readable: bool, choice: bool, delta: string,
            itemID: Option<string>, outputIndex: Option<int>, contentIndex: Option<int>,
            item: Option<Item>, responseID: string, hasSnapshot: bool)

  /** What the client is sent: upstream frames, and events made up by the repairer. */
  datatype Out =
    | Through(frame: Frame)
    | NewCreated(id: string)
    | NewItemAdded(index: int, item: Item)
    | NewPartAdded(itemID: string, index: int, contentIndex: int)
    | NewTextDone(itemID: string, index: int, contentIndex: int, text: string)
    | NewPartDone(itemID: string, index: int, contentIndex: int, text: string)
    | NewArgsDone(itemID: string, index: int, arguments: string)
    | NewItemDone(index: int, item: Item)
    | NewCompleted(id: string, output: seq<Item>)

  /** Which lifecycle events the client has been sent. */
  datatype Flags = Flags(outputAdded: bool, contentAdded: bool, textDone: bool, contentDone: bool, outputDone: bool,
    argsDone: bool)

  /** What is known of the answer itself. */
  datatype Core = Core(outputIndex: int, contentIndex: int, itemID: string, text: string, items: map<int, Item>)

  datatype State = State(id: string, created: bool, upstreamCreated: bool, flags: Flags, core: Core)

  function MessageID(id: string): string {
    "msg_" + id
  }

  function NewState(id: string): State {
    State(id, false, false, Flags(false, false, false, false, false, false), Core(0, 0, MessageID(id), "", map[]))
  }

  // ---------------------------------------------------------------- one frame

  /** The repairer takes note of a frame only if it can read it; of its kind only if typed. */
  predicate Noted(f: Frame, kind: Kind) {
    f.Event? && f.decodes && f.typed && f.kind == kind
  }

  function FrameItemID(f: Frame): string
    requires f.Event?
  {
    if f.itemID.Some? && f.itemID.value != "" then f.itemID.value
    else if f.item.Some? then f.item.value.id
    else ""
  }

  function ObserveCreated(s: State, f: Frame): State
    requires f.Event?
  {
    if f.decodes && f.responseID != "" then s.(id := f.responseID, core := s.core.(itemID := MessageID(f.responseID)))
    else s
  }

  function ObserveIndexes(c: Core, f: Frame): Core
    requires f.Event?
  {
    c.(itemID := if FrameItemID(f) != "" then FrameItemID(f) else c.itemID,
       outputIndex := if f.outputIndex.Some? then f.outputIndex.value else c.outputIndex,
       contentIndex := if f.contentIndex.Some? then f.contentIndex.value else c.contentIndex)
  }

  /** The item table after a frame: an announced or finished item replaces the entry, argument
    * deltas extend it. */
  function ObserveItems(c: Core, f: Frame): map<int, Item>
    requires f.Event?
  {
    if (Noted(f, ItemAdded) || Noted(f, ItemDone)) && f.item.Some? then c.items[c.outputIndex := f.item.value]
    else if Noted(f, ArgsDelta) then
      var current := if c.outputIndex in c.items then c.items[c.outputIndex]
                     else Item(c.itemID, "function_call", "in_progress", "", []);
      c.items[c.outputIndex := current.(arguments := current.arguments + f.delta)]
    else c.items
  }

  function ObserveCore(c: Core, f: Frame): Core
    requires f.Event?
  {
    var c1 := ObserveIndexes(c, f);
    c1.(text := if Noted(f, TextDelta) then c.text + f.delta else c.text, items := ObserveItems(c1, f))
  }

  function ObserveFlags(g: Flags, f: Frame): Flags {
    Flags(g.outputAdded || Noted(f, ItemAdded), g.contentAdded || Noted(f, PartAdded),
          g.textDone || Noted(f, TextDone), g.contentDone || Noted(f, PartDone),
          g.outputDone || Noted(f, ItemDone), g.argsDone || Noted(f, ArgsDone))
  }

  function Observe(s: State, f: Frame): State
    requires f.Event?
  {
    if !f.decodes then s else s.(flags := ObserveFlags(s.flags, f), core := ObserveCore(s.core, f))
  }

  function CurrentItem(c: Core): Item {
    if c.outputIndex in c.items then c.items[c.outputIndex]
    else Item(c.itemID, "message", "in_progress", "", [])
  }

  function EnsureOutput(s: State): seq<Out> {
    if s.flags.outputAdded then [] else [NewItemAdded(s.core.outputIndex, CurrentItem(s.core))]
  }

  function EnsureText(s: State): seq<Out> {
    EnsureOutput(s) +
    (if s.flags.contentAdded then [] else [NewPartAdded(s.core.itemID, s.core.outputIndex, s.core.contentIndex)])
  }

  /** The item as it stands at the end: completed, with the text if it is the message. */
  function Finished(item: Item, text: string): Item {
    var done := item.(status := "completed");
    if done.typ == "message" && text != "" then done.(texts := [text]) else done
  }

  function CloseText(g: Flags, c: Core): seq<Out> {
    if c.text != "" && !g.textDone then [NewTextDone(c.itemID, c.outputIndex, c.contentIndex, c.text)] else []
  }

  function ClosePart(g: Flags, c: Core): seq<Out> {
    if c.text != "" && !g.contentDone then [NewPartDone(c.itemID, c.outputIndex, c.contentIndex, c.text)] else []
  }

  function CloseArgs(g: Flags, c: Core): seq<Out> {
    var current := CurrentItem(c);
    if current.typ == "function_call" && !g.argsDone
    then [NewArgsDone(current.id, c.outputIndex, current.arguments)] else []
  }

  function CloseItem(g: Flags, c: Core): seq<Out> {
    if !g.outputDone then [NewItemDone(c.outputIndex, Finished(CurrentItem(c), c.text))] else []
  }

  predicate Blank(c: Core) {
    c.items == map[] && c.text == ""
  }

  function CompletionEvents(g: Flags, c: Core): seq<Out> {
    if Blank(c) then [] else CloseText(g, c) + ClosePart(g, c) + CloseArgs(g, c) + CloseItem(g, c)
  }

  function CloseAll(g: Flags, c: Core): Flags {
    if Blank(c) then g
    else g.(textDone := g.textDone || c.text != "",
            contentDone := g.contentDone || c.text != "",
            argsDone := g.argsDone || CurrentItem(c).typ == "function_call",
            outputDone := true)
  }

  function SnapshotItem(c: Core, index: int): Item
    requires index in c.items
  {
    if index == c.outputIndex then Finished(c.items[index], c.text) else c.items[index].(status := "completed")
  }

  ghost function OutputSnapshot(c: Core): seq<Item> {
    if c.items == map[] then
      if c.text != "" then [Item(c.itemID, "message", "completed", "", [c.text])] else []
    else
      var keys := Sorted(c.items.Keys);
      assert forall i :: 0 <= i < |keys| ==> keys[i] in Elems(keys);
      seq(|keys|, i requires 0 <= i < |keys| => SnapshotItem(c, keys[i]))
  }

  function NormalizeDelta(c: Core, f: Frame): Frame
    requires f.Event?
  {
    f.(itemID := if f.itemID.Some? then f.itemID else Some(c.itemID),
       outputIndex := if f.outputIndex.Some? then f.outputIndex else Some(c.outputIndex),
       contentIndex := if f.contentIndex.Some? then f.contentIndex else Some(c.contentIndex))
  }

  /** The terminal event: rebuilt when upstream left its output out, else forwarded. */
  ghost function Terminal(s: State, f: Frame): Out
    requires f.Event?
  {
    if !f.hasSnapshot then NewCompleted(s.id, OutputSnapshot(s.core))
    else Through(if s.upstreamCreated then f else f.(responseID := s.id))
  }

  function Opening(s: State): seq<Out> {
    if s.created then [] else [NewCreated(s.id)]
  }

  /** The state after one frame. */
  function Process(s: State, f: Frame): State {
    if f.Raw? then s
    else if f.kind == Created then ObserveCreated(s.(created := true, upstreamCreated := true), f)
    else
      var s1 := Observe(s, f).(created := true);
      match f.kind
      case TextDelta => s1.(flags := s1.flags.(outputAdded := true, contentAdded := true))
      case ArgsDelta => s1.(flags := s1.flags.(outputAdded := true))
      case Completed => s1.(flags := CloseAll(s1.flags, s1.core))
      case _ => s1
  }

  /** What follows the opening event, for a frame already observed. */
  ghost function Body(s: State, f: Frame): seq<Out>
    requires f.Event?
  {
    match f.kind
    case TextDelta => EnsureText(s) + [Through(NormalizeDelta(s.core, f))]
    case ArgsDelta => EnsureOutput(s) + [Through(f)]
    case Completed => CompletionEvents(s.flags, s.core) + [Terminal(s, f)]
    case _ => [Through(f)]
  }

  /** What the client is sent for one frame. */
  ghost function Sent(s: State, f: Frame): seq<Out> {
    if f.Raw? || f.kind == Created then [Through(f)]
    else Opening(Observe(s, f)) + Body(Observe(s, f), f)
  }

  function StateAfter(s: State, frames: seq<Frame>): (r: State) {
    if frames == [] then s else Process(StateAfter(s, frames[..|frames| - 1]), frames[|frames| - 1])
  }

  ghost function Output(s: State, frames: seq<Frame>): (r: seq<Out>) {
    if frames == [] then []
    else Output(s, frames[..|frames| - 1]) + Sent(StateAfter(s, frames[..|frames| - 1]), frames[|frames| - 1])
  }
}
