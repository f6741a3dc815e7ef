/** The Responses event stream built from FreeBuff events, and the client that reads it. */
module FreeBuffStream {
  import opened Common
  import opened FreeBuff

  datatype Out =
    | Created
    | InProgress
    | CallAdded(index: int, key: int, call: Call)
    | ArgumentsDelta(index: int, key: int, delta: string)
    | ArgumentsDone(index: int, key: int, arguments: string)
    | CallDone(index: int, key: int, call: Call)
    | MessageAdded(index: int)
    | PartAdded(index: int)
    | TextDelta(index: int, delta: string)
    | TextDone(index: int, text: string)
    | PartDone(index: int, text: string)
    | MessageDone(index: int, text: string)
    | Completed(answer: Answer)

  // ---------------------------------------------------------------- the client

  datatype ClientCall =
    | CallOpen(index: int, id: CallId, arguments: string)
    | CallSettled(index: int, id: CallId, arguments: string)
    | CallClosed(index: int)

  datatype ClientMessage =
    | NoMessage
    | MessageOpen
    | PartOpen(text: string)
    | TextSettled(text: string)
    | PartSettled(text: string)
    | MessageClosed

  /** What a client has put together: `closed` lists the items finished so far, and `steady` says that
    * every event of the message has named the output index the message was added at. */
  datatype Client = Client(started: nat, calls: map<int, ClientCall>, message: ClientMessage, messageIndex: int,
                           steady: bool, closed: seq<Item>, answer: Option<Answer>)

  const START := Client(0, map[], NoMessage, 0, true, [], None)

  /** Reads one event; None when the event breaks the protocol or contradicts earlier deltas.  This
    * client looks at the index of every event of a call, but follows the message by kind alone. */
  function Feed(c: Client, e: Out): (r: Option<Client>) {
    if e.Created? then
      if c.started == 0 then Some(c.(started := 1)) else None
    else if e.InProgress? then
      if c.started == 1 then Some(c.(started := 2)) else None
    else if c.started != 2 || c.answer.Some? then None
    else if e.CallAdded? || e.ArgumentsDelta? || e.ArgumentsDone? || e.CallDone? then FeedCall(c, e)
    else if e.Completed? then
      if e.answer.output == c.closed && (c.message.NoMessage? || c.message.MessageClosed?) &&
         forall k :: k in c.calls ==> c.calls[k].CallClosed?
      then Some(c.(answer := Some(e.answer))) else None
    else FeedMessage(c, e)
  }

  function FeedCall(c: Client, e: Out): (r: Option<Client>)
    requires e.CallAdded? || e.ArgumentsDelta? || e.ArgumentsDone? || e.CallDone?
  {
    if e.CallAdded? then
      if e.key !in c.calls && e.call.arguments == ""
        then Some(c.(calls := c.calls[e.key := CallOpen(e.index, e.call.id, "")])) else None
    else if e.key !in c.calls || c.calls[e.key].index != e.index then None
    else
      var call := c.calls[e.key];
      match e
      case ArgumentsDelta(_, _, delta) =>
        if call.CallOpen?
          then Some(c.(calls := c.calls[e.key := CallOpen(e.index, call.id, call.arguments + delta)])) else None
      case ArgumentsDone(_, _, arguments) =>
        if call.CallOpen? && call.arguments == arguments
        then Some(c.(calls := c.calls[e.key := CallSettled(e.index, call.id, arguments)])) else None
      case CallDone(_, _, done) =>
        if call.CallSettled? && call.arguments == done.arguments && call.id == done.id
        then Some(c.(calls := c.calls[e.key := CallClosed(e.index)], closed := c.closed + [Function(e.key, done)]))
          else None
  }

  function FeedMessage(c: Client, e: Out): (r: Option<Client>)
    requires e.MessageAdded? || e.PartAdded? || e.TextDelta? || e.TextDone? || e.PartDone? || e.MessageDone?
  {
    match e
    case MessageAdded(i) =>
      if c.message.NoMessage? then Some(c.(message := MessageOpen, messageIndex := i)) else None
    case PartAdded(_) =>
      if c.message.MessageOpen? then Some(At(c, e).(message := PartOpen(""))) else None
    case TextDelta(_, delta) =>
      if c.message.PartOpen? then Some(At(c, e).(message := PartOpen(c.message.text + delta))) else None
    case TextDone(_, text) =>
      if c.message == PartOpen(text) then Some(At(c, e).(message := TextSettled(text))) else None
    case PartDone(_, text) =>
      if c.message == TextSettled(text) then Some(At(c, e).(message := PartSettled(text))) else None
    case MessageDone(_, text) =>
      if c.message == PartSettled(text)
      then Some(At(c, e).(message := MessageClosed, closed := c.closed + [Message(text)])) else None
  }

  /** Takes note of the index an event of the message names. */
  function At(c: Client, e: Out): Client
    requires e.PartAdded? || e.TextDelta? || e.TextDone? || e.PartDone? || e.MessageDone?
  {
    c.(steady := c.steady && e.index == c.messageIndex)
  }

  predicate OfMessage(e: Out) {
    e.PartAdded? || e.TextDelta? || e.TextDone? || e.PartDone? || e.MessageDone?
  }

  /** The strict client also refuses an event of the message that names another output index than the
    * one the message was added at. */
  function FeedStrict(c: Client, e: Out): (r: Option<Client>) {
    if OfMessage(e) && e.index != c.messageIndex then None else Feed(c, e)
  }

  function ReadStrict(out: seq<Out>): (r: Option<Client>) {
    if out == [] then Some(START)
    else
      var before := ReadStrict(out[..|out| - 1]);
      if before.None? then None else FeedStrict(before.value, out[|out| - 1])
  }

  /** The strict client follows exactly the streams on which the message keeps its index. */
  lemma {:induction false} StrictIsSteady(out: seq<Out>)
    ensures ReadStrict(out) == if Read(out).Some? && Read(out).value.steady then Read(out) else None
    decreases |out|
  {
    hide Feed;
    if out != [] {
      var front, e := out[..|out| - 1], out[|out| - 1];
      StrictIsSteady(front);
      if Read(front).Some? {
        SteadyStep(Read(front).value, e);
      }
    }
  }

  lemma SteadyStep(c: Client, e: Out)
    ensures Feed(c, e).Some? ==>
              (Feed(c, e).value.steady <==> c.steady && !(OfMessage(e) && e.index != c.messageIndex))
  {
  }

  function Read(out: seq<Out>): (r: Option<Client>) {
    if out == [] then Some(START)
    else
      var before := Read(out[..|out| - 1]);
      if before.None? then None else Feed(before.value, out[|out| - 1])
  }

  lemma ReadSnoc(out: seq<Out>, e: Out)
    ensures Read(out + [e]) == if Read(out).None? then None else Feed(Read(out).value, e)
  {
    assert (out + [e])[..|out|] == out;
  }

  /** Reading stops at the first event that breaks the protocol. */
  lemma {:induction false} PrefixesAreReadable(out: seq<Out>, n: nat)
    requires n <= |out| && Read(out).Some?
    ensures Read(out[..n]).Some?
    decreases |out|
  {
    if n < |out| {
      PrefixesAreReadable(out[..|out| - 1], n);
      assert out[..|out| - 1][..n] == out[..n];
    } else {
      assert out[..n] == out;
    }
  }

  // ---------------------------------------------------------------- the writer

  /** The variables of one conversion. */
  class Writer {
    var content: string
    var reasoning: string
    var upstreamModel: string
    var messageStarted: bool
    var tools: map<int, Tool>
    var nextOutputIndex: nat
    var out: seq<Out>
    ghost var client: Client

    /** The client has followed so far, and knows what the writer knows. */
    ghost predicate Following() reads this {
      && Read(out) == Some(client)
      && client.started == 2 && client.answer.None?
    }

    /** What the client knows while upstream is still sending. */
    ghost predicate Open() reads this {
      && Following()
      && CallsOpen(client.calls, tools) && client.closed == []
      && client.message == (if messageStarted then PartOpen(content) else NoMessage)
      && (messageStarted <==> content != "")
      && (!messageStarted ==> client.steady)
    }

    /** Tool calls take the output indexes in order of appearance. */
    ghost predicate Indexed() reads this {
      && IndexesFill(tools, nextOutputIndex)
      && (messageStarted ==> 0 <= client.messageIndex <= nextOutputIndex)
    }

    constructor ()
      ensures Following() && Open() && Indexed() && fresh(this)
      ensures content == "" && reasoning == "" && upstreamModel == "" && tools == map[] && nextOutputIndex == 0
      ensures !messageStarted
    {
      content, reasoning, upstreamModel := "", "", "";
      messageStarted := false;
      tools := map[];
      nextOutputIndex := 0;
      out := [Created, InProgress];
      client := START.(started := 2);
      new;
      ReadSnoc([], Created);
      ReadSnoc([Created], InProgress);
      assert [] + [Created] == [Created] && [Created] + [InProgress] == [Created, InProgress];
    }

    method WriteEvent(e: Out)
      requires Read(out) == Some(client) && Feed(client, e).Some?
      modifies this`out, this`client
      ensures out == old(out) + [e] && Some(client) == Feed(old(client), e)
      ensures Read(out) == Some(client)
    {
      hide Read, Feed;
      ReadSnoc(out, e);
      client := Feed(client, e).value;
      out := out + [e];
    }

    /** Registers a call on its first piece. */
    method AddTool(item: ToolDelta) returns (tool: Tool)
      requires Open() && Indexed() && item.index !in tools
      modifies this`tools, this`nextOutputIndex, this`out, this`client
      ensures Open() && Indexed() && tools == old(tools)[item.index := tool]
      ensures tool.call == Call(IdOf(item), item.name, "")
      ensures nextOutputIndex == old(nextOutputIndex) + 1 && client.messageIndex == old(client.messageIndex)
      ensures client.steady == old(client.steady)
    {
      hide Read, IndexesFill, Feed, CallsOpen;
      tool := Tool(Call(IdOf(item), item.name, ""), nextOutputIndex);
      IndexTaken(tools, nextOutputIndex, item.index, tool);
      ClientAdds(client, tools, item.index, tool);
      nextOutputIndex := nextOutputIndex + 1;
      tools := tools[item.index := tool];
      WriteEvent(CallAdded(tool.outputIndex, item.index, tool.call));
    }

    /** Extends the arguments of a registered call. */
    method Extend(key: int, tool: Tool, arguments: string)
      requires Following() && CallsOpen(client.calls, tools) && key in tools && tools[key] == tool
      modifies this`tools, this`out, this`client
      ensures Following() && CallsOpen(client.calls, tools) && client == old(client).(calls := client.calls)
      ensures tools == old(tools)[key := tool.(call := tool.call.(arguments := tool.call.arguments + arguments))]
    {
      hide Read, Feed, CallsOpen;
      var tool := tool.(call := tool.call.(arguments := tool.call.arguments + arguments));
      ClientExtends(client, tools, key, arguments);
      tools := tools[key := tool];
      WriteEvent(ArgumentsDelta(tool.outputIndex, key, arguments));
    }

    method OnTool(item: ToolDelta, ghost deltas: seq<ToolDelta>)
      requires Open() && Indexed() && Held(tools, deltas)
      modifies this`tools, this`nextOutputIndex, this`out, this`client
      ensures Open() && Indexed() && Held(tools, deltas + [item])
      ensures nextOutputIndex >= old(nextOutputIndex) && client.messageIndex == old(client.messageIndex)
      ensures client.steady == old(client.steady)
    {
      hide Read, Held, CallsOpen, IndexesFill;
      ghost var before := tools;
      var tool: Tool;
      if item.index in tools {
        tool := tools[item.index];
      } else {
        tool := AddTool(item);
      }
      ghost var mid := tools;
      if item.name != "" {
        tool := tool.(call := tool.call.(name := item.name));
        RenameKeeps(client.calls, tools, item.index, tool);
        tools := tools[item.index := tool];
      }
      if item.arguments != "" {
        Extend(item.index, tool, item.arguments);
      }
      assert "" + item.arguments == item.arguments;
      assert tools[item.index].call == Told(before, item).call;
      assert tools == before[item.index := tools[item.index]];
      HeldStep(before, deltas, item, tools[item.index]);
      IndexKept(mid, nextOutputIndex, item.index, tools[item.index]);
      assert tools == mid[item.index := tools[item.index]];
    }

    method StartMessage()
      requires Following() && client.message == NoMessage
      modifies this`out, this`client, this`messageStarted
      ensures Following() && messageStarted && client.message == PartOpen("") && client.messageIndex == nextOutputIndex
      ensures client.calls == old(client.calls) && client.closed == old(client.closed)
      ensures client.steady == old(client.steady)
      ensures out == old(out) + [MessageAdded(nextOutputIndex), PartAdded(nextOutputIndex)]
    {
      hide Read;
      messageStarted := true;
      WriteEvent(MessageAdded(nextOutputIndex));
      WriteEvent(PartAdded(nextOutputIndex));
    }

    method OnContent(text: string)
      requires Open() && Indexed()
      modifies this`out, this`client, this`messageStarted, this`content
      ensures Open() && Indexed() && content == old(content) + text
      ensures messageStarted && !old(messageStarted) ==> client.messageIndex == nextOutputIndex
      ensures old(messageStarted) ==> client.messageIndex == old(client.messageIndex)
      ensures client.steady == (old(client.steady) && (text == "" || client.messageIndex == nextOutputIndex))
      ensures text != "" ==> out[|out| - 1] == TextDelta(nextOutputIndex, text)
    {
      hide Read, IndexesFill;
      if text != "" {
        if !messageStarted {
          StartMessage();
        }
        content := content + text;
        WriteEvent(TextDelta(nextOutputIndex, text));
      } else {
        assert content + text == content;
      }
    }

    method OnTools(items: seq<ToolDelta>, ghost deltas: seq<ToolDelta>)
      requires Open() && Indexed() && Held(tools, deltas)
      modifies this`tools, this`nextOutputIndex, this`out, this`client
      ensures Open() && Indexed() && Held(tools, deltas + items)
      ensures nextOutputIndex >= old(nextOutputIndex) && client.messageIndex == old(client.messageIndex)
      ensures client.steady == old(client.steady)
    {
      hide Read, Held, CallsOpen, IndexesFill;
      assert deltas + items[..0] == deltas;
      for i := 0 to |items|
        invariant Open() && Indexed() && Held(tools, deltas + items[..i])
        invariant nextOutputIndex >= old(nextOutputIndex) && client.messageIndex == old(client.messageIndex)
        invariant client.steady == old(client.steady)
      {
        OnTool(items[i], deltas + items[..i]);
        assert deltas + items[..i] + [items[i]] == deltas + items[..i + 1];
      }
      assert items[..|items|] == items;
    }

    /** Closes every call, in ascending order of tool index. */
    method CloseTools(ghost deltas: seq<ToolDelta>) returns (output: seq<Item>)
      requires Following() && CallsOpen(client.calls, tools) && client.closed == [] && Held(tools, deltas)
      modifies this`out, this`client
      ensures Following() && IsCalls(output, deltas) && client.closed == output
      ensures client.message == old(client.message) && client.messageIndex == old(client.messageIndex)
      ensures AllClosed(client.calls, tools)
      ensures client.steady == old(client.steady)
    {
      hide Read, Sorted, CallOf, Feed, KeysOf, ClosedUpTo;
      var keys := SortInts(tools.Keys);
      ClosingStarts(client.calls, tools, keys);
      output := [];
      for i := 0 to |keys|
        invariant Following() && client.closed == output && |output| == i
        invariant client.message == old(client.message) && client.messageIndex == old(client.messageIndex)
        invariant client.steady == old(client.steady)
        invariant ClosedUpTo(client.calls, tools, keys, i)
        invariant forall j :: 0 <= j < i ==>
                  keys[j] in KeysOf(deltas) && output[j] == Function(keys[j], CallOf(deltas, keys[j]))
      {
        var key := keys[i];
        assert key in Elems(keys);
        CloseTool(key, tools[key], keys, i);
        output := output + [Function(key, tools[key].call)];
      }
      AllAreClosed(client.calls, tools, keys);
    }

    method CloseTool(key: int, tool: Tool, ghost keys: seq<int>, ghost i: nat)
      requires Following() && ClosedUpTo(client.calls, tools, keys, i)
      requires i < |keys| && keys[i] == key && key in tools && tools[key] == tool
      modifies this`out, this`client
      ensures Following() && ClosedUpTo(client.calls, tools, keys, i + 1)
      ensures client.message == old(client.message) && client.messageIndex == old(client.messageIndex)
      ensures client.closed == old(client.closed) + [Function(key, tool.call)]
      ensures client.steady == old(client.steady)
    {
      hide Read, Feed, ClosedUpTo;
      ClientCloses(client, tools, keys, i);
      WriteEvent(ArgumentsDone(tool.outputIndex, key, tool.call.arguments));
      WriteEvent(CallDone(tool.outputIndex, key, tool.call));
    }

    method CloseMessage()
      requires Following() && client.message == PartOpen(content)
      modifies this`out, this`client
      ensures Following() && client.message == MessageClosed && client.closed == old(client.closed) + [Message(content)]
      ensures client.calls == old(client.calls) && client.messageIndex == old(client.messageIndex)
      ensures client.steady == (old(client.steady) && client.messageIndex == nextOutputIndex)
    {
      hide Read;
      WriteEvent(TextDone(nextOutputIndex, content));
      WriteEvent(PartDone(nextOutputIndex, content));
      WriteEvent(MessageDone(nextOutputIndex, content));
    }
  }

  ghost predicate ClosedUpTo(calls: map<int, ClientCall>, tools: map<int, Tool>, keys: seq<int>, i: nat) {
    && calls.Keys == tools.Keys && Elems(keys) == tools.Keys && Ascending(keys) && i <= |keys|
    && (forall j :: 0 <= j < i ==> keys[j] in calls && calls[keys[j]] == CallClosed(tools[keys[j]].outputIndex))
    && (forall j :: i <= j < |keys| ==> keys[j] in calls && calls[keys[j]] == Opened(tools[keys[j]]))
  }

  ghost predicate AllClosed(calls: map<int, ClientCall>, tools: map<int, Tool>) {
    && calls.Keys == tools.Keys
    && forall k :: k in tools ==> calls[k] == CallClosed(tools[k].outputIndex)
  }

  lemma AllAreClosed(calls: map<int, ClientCall>, tools: map<int, Tool>, keys: seq<int>)
    requires ClosedUpTo(calls, tools, keys, |keys|)
    ensures AllClosed(calls, tools)
  {
    forall k | k in tools ensures calls[k] == CallClosed(tools[k].outputIndex) {
      assert k in Elems(keys);
    }
  }

  lemma ClosingStarts(calls: map<int, ClientCall>, tools: map<int, Tool>, keys: seq<int>)
    requires CallsOpen(calls, tools) && Elems(keys) == tools.Keys && Ascending(keys)
    ensures ClosedUpTo(calls, tools, keys, 0)
  {
    assert forall j :: 0 <= j < |keys| ==> keys[j] in Elems(keys);
  }

  /** The two events that close a call are in order. */
  lemma ClientCloses(c: Client, tools: map<int, Tool>, keys: seq<int>, i: nat)
    requires c.started == 2 && c.answer.None? && i < |keys| && ClosedUpTo(c.calls, tools, keys, i)
    requires keys[i] in tools
    ensures var k, t := keys[i], tools[keys[i]];
            var d := Feed(c, ArgumentsDone(t.outputIndex, k, t.call.arguments));
            d.Some? && d.value == c.(calls := d.value.calls) &&
            var f := Feed(d.value, CallDone(t.outputIndex, k, t.call));
            f.Some? && f.value == c.(calls := f.value.calls, closed := c.closed + [Function(k, t.call)]) &&
            ClosedUpTo(f.value.calls, tools, keys, i + 1)
  {
  }

  function Opened(t: Tool): ClientCall {
    CallOpen(t.outputIndex, t.call.id, t.call.arguments)
  }

  /** Writer and client hold the same calls. */
  ghost predicate CallsOpen(calls: map<int, ClientCall>, tools: map<int, Tool>) {
    && calls.Keys == tools.Keys
    && forall k :: k in tools ==> calls[k] == Opened(tools[k])
  }

  lemma ClientAdds(c: Client, tools: map<int, Tool>, key: int, tool: Tool)
    requires CallsOpen(c.calls, tools) && c.started == 2 && c.answer.None?
    requires key !in tools && tool.call.arguments == ""
    ensures var d := Feed(c, CallAdded(tool.outputIndex, key, tool.call));
            d.Some? && d.value == c.(calls := d.value.calls) && CallsOpen(d.value.calls, tools[key := tool])
  {
  }

  lemma ClientExtends(c: Client, tools: map<int, Tool>, key: int, arguments: string)
    requires CallsOpen(c.calls, tools) && c.started == 2 && c.answer.None? && key in tools
    ensures var t := tools[key];
            var grown := t.(call := t.call.(arguments := t.call.arguments + arguments));
            var d := Feed(c, ArgumentsDelta(t.outputIndex, key, arguments));
            d.Some? && d.value == c.(calls := d.value.calls) && CallsOpen(d.value.calls, tools[key := grown])
  {
  }

  lemma RenameKeeps(calls: map<int, ClientCall>, tools: map<int, Tool>, key: int, t: Tool)
    requires CallsOpen(calls, tools) && key in tools
    requires t.outputIndex == tools[key].outputIndex && t.call.id == tools[key].call.id &&
             t.call.arguments == tools[key].call.arguments
    ensures CallsOpen(calls, tools[key := t])
  {
  }

  /** The record after a piece of its call. */
  ghost function Told(tools: map<int, Tool>, d: ToolDelta): (t: Tool)
  {
    if d.index !in tools then Tool(Call(IdOf(d), d.name, d.arguments), |tools|)
    else
      var t := tools[d.index];
      Tool(Grown(t.call, d), t.outputIndex)
  }

  ghost predicate Taken(tools: map<int, Tool>, i: int) {
    exists k :: k in tools && tools[k].outputIndex == i
  }

  ghost predicate IndexesFill(tools: map<int, Tool>, n: nat) {
    && n == |tools|
    && (forall k :: k in tools ==> 0 <= tools[k].outputIndex < n)
    && (forall j, k :: j in tools && k in tools && j != k ==> tools[j].outputIndex != tools[k].outputIndex)
    && (forall i :: 0 <= i < n ==> Taken(tools, i))
  }

  lemma IndexTaken(tools: map<int, Tool>, n: nat, k: int, t: Tool)
    requires IndexesFill(tools, n) && k !in tools && t.outputIndex == n
    ensures IndexesFill(tools[k := t], n + 1)
  {
    var after := tools[k := t];
    assert after.Keys == tools.Keys + {k};
    forall i | 0 <= i < n + 1 ensures Taken(after, i) {
      if i < n {
        assert Taken(tools, i);
        var j :| j in tools && tools[j].outputIndex == i;
        assert after[j] == tools[j];
      } else {
        assert after[k].outputIndex == i;
      }
    }
  }

  lemma IndexKept(tools: map<int, Tool>, n: nat, k: int, t: Tool)
    requires IndexesFill(tools, n) && k in tools && t.outputIndex == tools[k].outputIndex
    ensures IndexesFill(tools[k := t], n)
  {
    var after := tools[k := t];
    assert after.Keys == tools.Keys;
    assert |after| == |after.Keys| && |tools| == |tools.Keys|;
    forall i | 0 <= i < n ensures Taken(after, i) {
      assert Taken(tools, i);
      var j :| j in tools && tools[j].outputIndex == i;
      assert after[j].outputIndex == i;
    }
  }

  // ---------------------------------------------------------------- the whole conversion

  /** Some call shares the output index of the message. */
  ghost predicate Clash(c: Client) {
    exists k :: k in c.calls && c.calls[k].index == c.messageIndex
  }

  /** A new call appears after the text has begun. */
  ghost predicate LateCall(events: seq<Event>) {
    exists i :: 0 <= i <= |events| && TextBegun(events, i) && CallsSeen(events, i) != KeysOf(DeltasOf(events))
  }

  ghost predicate TextBegun(events: seq<Event>, i: nat)
    requires i <= |events|
  {
    ContentOf(events[..i]) != ""
  }

  ghost function CallsSeen(events: seq<Event>, i: nat): set<int>
    requires i <= |events|
  {
    KeysOf(DeltasOf(events[..i]))
  }

  lemma KeysAppend(a: seq<ToolDelta>, b: seq<ToolDelta>)
    ensures KeysOf(a + b) == KeysOf(a) + KeysOf(b)
  {
  }

  lemma {:induction false} SeenGrows(events: seq<Event>, i: nat, j: nat)
    requires i <= j <= |events|
    ensures TextBegun(events, i) ==> TextBegun(events, j)
    ensures CallsSeen(events, i) <= CallsSeen(events, j)
    decreases j
  {
    hide ContentOf, DeltasOf, KeysOf;
    if i < j {
      SeenGrows(events, i, j - 1);
      EventsSnoc(events, j - 1);
      var e := events[j - 1];
      if e.delta.Some? {
        KeysAppend(DeltasOf(events[..j - 1]), e.delta.value.tools);
      }
    }
  }

  /** The message took its index when `first` events had been read. */
  ghost predicate TookIndex(events: seq<Event>, first: nat, i: nat, index: int) {
    && 0 < first <= i <= |events|
    && TextBegun(events, first) && !TextBegun(events, first - 1)
    && index == |CallsSeen(events, first)|
  }

  lemma LateIsLess(events: seq<Event>, first: nat, index: int)
    requires TookIndex(events, first, |events|, index)
    ensures LateCall(events) <==> index < |KeysOf(DeltasOf(events))|
    ensures index <= |KeysOf(DeltasOf(events))|
  {
    hide TextBegun, CallsSeen, KeysOf, DeltasOf;
    var n := |events|;
    assert CallsSeen(events, n) == KeysOf(DeltasOf(events)) by { SeenAtEnd(events); }
    SeenGrows(events, first, n);
    SmallerSet(CallsSeen(events, first), CallsSeen(events, n));
    if LateCall(events) {
      var i :| 0 <= i <= n && TextBegun(events, i) && CallsSeen(events, i) != KeysOf(DeltasOf(events));
      if i < first {
        SeenGrows(events, i, first - 1);
      } else {
        SeenGrows(events, first, i);
        SeenGrows(events, i, n);
      }
    }
  }

  /** The event says something of the message itself. */
  predicate SaysText(e: Event) {
    e.delta.Some? && e.delta.value.content != ""
  }

  /** Among the first n events text is said after a call that came later than the beginning of the text. */
  ghost predicate MovedUpTo(events: seq<Event>, n: nat)
    requires n <= |events|
  {
    exists i, j :: 0 <= i <= j < n && MovedAt(events, i, j)
  }

  ghost predicate MovedAt(events: seq<Event>, i: nat, j: nat)
    requires i <= j < |events|
  {
    TextBegun(events, i) && SaysText(events[j]) && CallsSeen(events, i) != CallsSeen(events, j + 1)
  }

  /** A call appears after the text has begun, and another event of the message follows it.  Whatever
    * ends unbroken has such events: those that close the message. */
  ghost predicate MessageMoves(events: seq<Event>, broken: bool) {
    if broken then MovedUpTo(events, |events|) else LateCall(events)
  }

  lemma MovedStep(events: seq<Event>, first: nat, i: nat, index: int)
    requires i < |events| && TookIndex(events, first, i, index)
    ensures MovedUpTo(events, i + 1) <==>
            MovedUpTo(events, i) || (SaysText(events[i]) && index != |CallsSeen(events, i + 1)|)
  {
    hide TextBegun, CallsSeen, SaysText;
    SeenGrows(events, first, i + 1);
    SmallerSet(CallsSeen(events, first), CallsSeen(events, i + 1));
    if MovedUpTo(events, i) {
      var a, b :| 0 <= a <= b < i && MovedAt(events, a, b);
      assert MovedAt(events, a, b);
    } else if MovedUpTo(events, i + 1) {
      var a, b :| 0 <= a <= b < i + 1 && MovedAt(events, a, b);
      if a < first {
        SeenGrows(events, a, first - 1);
      } else {
        SeenGrows(events, first, a);
        SeenGrows(events, a, i + 1);
      }
    }
    if SaysText(events[i]) && index != |CallsSeen(events, i + 1)| {
      assert MovedAt(events, first, i);
    }
  }

  lemma NotMoved(events: seq<Event>, i: nat)
    requires i < |events| && !TextBegun(events, i)
    ensures !MovedUpTo(events, i + 1)
  {
    hide TextBegun, CallsSeen, SaysText;
    forall a, b | 0 <= a <= b < i + 1 ensures !MovedAt(events, a, b) {
      SeenGrows(events, a, i);
    }
  }

  lemma MovedIsLate(events: seq<Event>)
    ensures MovedUpTo(events, |events|) ==> LateCall(events)
  {
    hide TextBegun, CallsSeen, SaysText;
    SeenAtEnd(events);
    if MovedUpTo(events, |events|) {
      var a, b :| 0 <= a <= b < |events| && MovedAt(events, a, b);
      SeenGrows(events, a, b + 1);
      SeenGrows(events, b + 1, |events|);
    }
  }

  lemma SeenAtEnd(events: seq<Event>)
    ensures CallsSeen(events, |events|) == KeysOf(DeltasOf(events))
    ensures TextBegun(events, |events|) <==> ContentOf(events) != ""
  {
    assert events[..|events|] == events;
  }

  lemma SmallerSet(a: set<int>, b: set<int>)
    requires a <= b
    ensures |a| <= |b| && (|a| == |b| <==> a == b)
  {
    var rest := b - a;
    assert b == a + rest;
    if |rest| == 0 {
      assert rest == {};
    }
  }

  lemma ClashIsLess(c: Client, tools: map<int, Tool>, n: nat)
    requires AllClosed(c.calls, tools) && IndexesFill(tools, n) && c.messageIndex >= 0
    ensures Clash(c) <==> c.messageIndex < n
  {
    if c.messageIndex < n {
      assert Taken(tools, c.messageIndex);
      var k :| k in tools && tools[k].outputIndex == c.messageIndex;
      assert c.calls[k].index == c.messageIndex;
    }
  }

  /** Without content no call is late. */
  lemma NoLateCall(events: seq<Event>)
    requires ContentOf(events) == ""
    ensures !LateCall(events)
  {
    hide TextBegun, CallsSeen, ContentOf;
    SeenAtEnd(events);
    forall i | 0 <= i <= |events| ensures !TextBegun(events, i) {
      SeenGrows(events, i, |events|);
    }
  }

  /** The writer holds what `i` events say. */
  ghost predicate Tracks(w: Writer, events: seq<Event>, i: nat, first: nat, model: string)
    requires i <= |events|
    reads w
  {
    && w.Open() && w.Indexed()
    && w.content == ContentOf(events[..i]) && w.reasoning == ReasoningOf(events[..i])
    && Held(w.tools, DeltasOf(events[..i]))
    && ModelOf(events[..i], model) == (if w.upstreamModel != "" then w.upstreamModel else model)
    && (w.messageStarted ==> TookIndex(events, first, i, w.client.messageIndex))
    && (w.client.steady <==> !MovedUpTo(events, i))
  }

  /** The whole stream.  Order, calls and joined deltas can be followed to the end, whatever upstream
    * sent, and lead to the completed answer exactly when there is one.  The strict client can follow
    * exactly if the message does not move; and the message shares its output index with a call exactly
    * when a call appeared after the text had begun. */
  method CopyResponsesStream(events: seq<Event>, broken: bool, model: string) returns (w: Writer, r: Result)
    ensures Read(w.out) == Some(w.client)
    ensures IsStreamed(r, events, broken, model)
    ensures w.client.answer == if r.Ok? then Some(r.answer) else None
    ensures ReadStrict(w.out) == if MessageMoves(events, broken) then None else Some(w.client)
    ensures (r.Ok? && TextOf(events) != "") ==> (Clash(w.client) <==> LateCall(events))
  {
    hide Read, ReadStrict, ContentOf, ReasoningOf, DeltasOf, ModelOf, Held, IsCalls, CallsOpen, IndexesFill;
    hide TookIndex, LateCall, Clash, Feed, AllClosed;
    w := new Writer();
    Nothing();
    HeldNothing();
    ModelStart(model);
    assert events[..0] == [];
    ghost var first := 0;
    for i := 0 to |events|
      invariant fresh(w) && Tracks(w, events, i, first, model)
    {
      first := OnEvent(w, events, i, first, model);
    }
    assert events[..|events|] == events;
    if broken {
      StrictIsSteady(w.out);
      return w, Broken;
    }
    r := Complete(w, events, first, model);
    StrictIsSteady(w.out);
  }

  method OnEvent(w: Writer, events: seq<Event>, i: nat, ghost first0: nat, ghost model: string)
    returns (ghost first: nat)
    requires i < |events| && Tracks(w, events, i, first0, model)
    modifies w
    ensures Tracks(w, events, i + 1, first, model)
  {
    hide Read, ContentOf, ReasoningOf, DeltasOf, ModelOf, Held, CallsOpen, IndexesFill;
    hide TookIndex, Feed, TextBegun, CallsSeen, KeysOf, CallOf, TextOf, MovedUpTo;
    first := first0;
    var e := events[i];
    EventsSnoc(events, i);
    ModelSnoc(events, i, model);
    if e.model != "" {
      w.upstreamModel := e.model;
    }
    ghost var started := w.messageStarted;
    if e.delta.Some? {
      w.reasoning := w.reasoning + e.delta.value.reasoning;
      w.OnTools(e.delta.value.tools, DeltasOf(events[..i]));
      w.OnContent(e.delta.value.content);
    }
    SeenCount(w.tools, events, i + 1, w.nextOutputIndex);
    if started {
      MovedStep(events, first, i, w.client.messageIndex);
      TookLater(events, first, i, w.client.messageIndex);
    } else {
      assert !TextBegun(events, i) by { BegunIs(events, i); }
      NotMoved(events, i);
      MovedLess(events, i);
      if w.messageStarted {
        first := i + 1;
        IndexTook(events, first, w.tools, w.nextOutputIndex);
      }
    }
  }

  lemma BegunIs(events: seq<Event>, i: nat)
    requires i <= |events|
    ensures TextBegun(events, i) <==> ContentOf(events[..i]) != ""
  {
  }

  lemma MovedLess(events: seq<Event>, i: nat)
    requires i < |events| && !MovedUpTo(events, i + 1)
    ensures !MovedUpTo(events, i)
  {
  }

  lemma SeenCount(tools: map<int, Tool>, events: seq<Event>, i: nat, n: nat)
    requires i <= |events| && Held(tools, DeltasOf(events[..i])) && IndexesFill(tools, n)
    ensures n == |CallsSeen(events, i)|
  {
    hide CallOf, KeysOf, DeltasOf;
    assert |tools| == |tools.Keys|;
  }

  lemma IndexTook(events: seq<Event>, first: nat, tools: map<int, Tool>, n: nat)
    requires 0 < first <= |events|
    requires ContentOf(events[..first]) != "" && ContentOf(events[..first - 1]) == ""
    requires Held(tools, DeltasOf(events[..first])) && IndexesFill(tools, n)
    ensures TookIndex(events, first, first, n)
  {
    hide CallOf, ContentOf, DeltasOf, KeysOf;
    assert |tools| == |tools.Keys|;
  }

  lemma TookLater(events: seq<Event>, first: nat, i: nat, index: int)
    requires TookIndex(events, first, i, index) && i < |events|
    ensures TookIndex(events, first, i + 1, index)
  {
    hide TextBegun, CallsSeen;
  }

  /** What is sent when upstream has ended. */
  method Complete(w: Writer, ghost events: seq<Event>, ghost first: nat, model: string) returns (r: Result)
    requires w.Open() && w.Indexed()
    requires w.content == ContentOf(events) && w.reasoning == ReasoningOf(events) && Held(w.tools, DeltasOf(events))
    requires ModelOf(events, model) == if w.upstreamModel != "" then w.upstreamModel else model
    requires w.messageStarted ==> TookIndex(events, first, |events|, w.client.messageIndex)
    requires w.client.steady <==> !MovedUpTo(events, |events|)
    modifies w
    ensures Read(w.out) == Some(w.client)
    ensures IsStreamed(r, events, false, model)
    ensures w.client.answer == if r.Ok? then Some(r.answer) else None
    ensures w.client.steady <==> !LateCall(events)
    ensures (r.Ok? && TextOf(events) != "") ==> (Clash(w.client) <==> LateCall(events))
  {
    hide Read, ContentOf, ReasoningOf, DeltasOf, ModelOf, Held, IsCalls, CallsOpen, IndexesFill;
    hide TookIndex, LateCall, Feed, AllClosed, MovedUpTo;
    MovedIsLate(events);
    ghost var n := w.nextOutputIndex;
    if w.messageStarted {
      LateIsLess(events, first, w.client.messageIndex);
    } else {
      NoLateCall(events);
    }
    KeysCount(w.tools, DeltasOf(events), n);
    if !w.messageStarted && w.content == "" && w.reasoning != "" {
      w.StartMessage();
      w.content := w.reasoning;
      TextInOne(w.client, w.nextOutputIndex, w.content);
      w.WriteEvent(TextDelta(w.nextOutputIndex, w.content));
    }
    assert w.content == TextOf(events);
    assert w.messageStarted ==> (LateCall(events) <==> w.client.messageIndex < n);
    var output := w.CloseTools(DeltasOf(events));
    ghost var calls := output;
    if w.messageStarted {
      w.CloseMessage();
      output := output + [Message(w.content)];
      ClashIsLess(w.client, w.tools, n);
    }
    assert output == calls + Texts(TextOf(events));
    CallsEmpty(calls, DeltasOf(events));
    if |output| == 0 {
      return Empty;
    }
    var answer := Answer(if w.upstreamModel != "" then w.upstreamModel else model, output);
    CanComplete(w.client, w.tools, answer);
    w.WriteEvent(Completed(answer));
    r := Ok(answer);
    assert r.answer.output == calls + Texts(TextOf(events));
  }

  lemma KeysCount(tools: map<int, Tool>, deltas: seq<ToolDelta>, n: nat)
    requires Held(tools, deltas) && IndexesFill(tools, n)
    ensures n == |KeysOf(deltas)|
  {
    hide CallOf, KeysOf;
    assert |tools| == |tools.Keys|;
  }

  lemma TextInOne(c: Client, index: int, text: string)
    requires c.started == 2 && c.answer.None? && c.message == PartOpen("")
    ensures Feed(c, TextDelta(index, text)) == Some(At(c, TextDelta(index, text)).(message := PartOpen(text)))
  {
    assert "" + text == text;
  }

  lemma CanComplete(c: Client, tools: map<int, Tool>, answer: Answer)
    requires c.started == 2 && c.answer.None? && AllClosed(c.calls, tools)
    requires c.closed == answer.output && (c.message == NoMessage || c.message == MessageClosed)
    ensures Feed(c, Completed(answer)) == Some(c.(answer := Some(answer)))
  {
  }

  /** What is written for the text "a" and then a call: the strict client refuses it, the other one
    * does not. */
  lemma TextThenCallIsRefused(k: int, call: Call)
    requires call.arguments == ""
    ensures var answer := Answer("m", [Function(k, call), Message("a")]);
            var out := [Created, InProgress, MessageAdded(0), PartAdded(0), TextDelta(0, "a"),
                        CallAdded(0, k, call), ArgumentsDone(0, k, ""), CallDone(0, k, call),
                        TextDone(1, "a"), PartDone(1, "a"), MessageDone(1, "a"), Completed(answer)];
            Read(out).Some? && ReadStrict(out).None?
  {
    hide Feed, Read, ReadStrict;
    var answer := Answer("m", [Function(k, call), Message("a")]);
    var opening := [Created, InProgress, MessageAdded(0), PartAdded(0), TextDelta(0, "a")];
    var calls := [CallAdded(0, k, call), ArgumentsDone(0, k, ""), CallDone(0, k, call)];
    var closing := [TextDone(1, "a"), PartDone(1, "a"), MessageDone(1, "a"), Completed(answer)];
    var c0 := START.(started := 2);
    var c1 := c0.(message := PartOpen("a"));
    var c2 := c1.(calls := map[k := CallClosed(0)], closed := [Function(k, call)]);
    var c3 := c2.(message := MessageClosed, steady := false, closed := answer.output, answer := Some(answer));
    OpeningReads(opening, c1);
    CallReads(c1, k, call, c2);
    ClosingReads(c2, answer, c3);
    ReadAppend(opening, calls);
    ReadAppend(opening + calls, closing);
    StrictIsSteady(opening + calls + closing);
    assert opening + calls + closing ==
           [Created, InProgress, MessageAdded(0), PartAdded(0), TextDelta(0, "a"),
            CallAdded(0, k, call), ArgumentsDone(0, k, ""), CallDone(0, k, call),
            TextDone(1, "a"), PartDone(1, "a"), MessageDone(1, "a"), Completed(answer)];
  }

  /** Reading on from a client. */
  function ReadOn(c: Client, out: seq<Out>): (r: Option<Client>)
    decreases |out|
  {
    if out == [] then Some(c)
    else if Feed(c, out[0]).None? then None
    else ReadOn(Feed(c, out[0]).value, out[1..])
  }

  lemma {:induction false} ReadAppend(a: seq<Out>, b: seq<Out>)
    requires Read(a).Some?
    ensures Read(a + b) == ReadOn(Read(a).value, b)
    decreases |b|
  {
    hide Feed;
    if b == [] {
      assert a + b == a;
    } else {
      ReadSnoc(a, b[0]);
      assert a + b == (a + [b[0]]) + b[1..];
      if Read(a + [b[0]]).Some? {
        ReadAppend(a + [b[0]], b[1..]);
      } else {
        NeverAgain(a + [b[0]], b[1..]);
      }
    }
  }

  lemma NeverAgain(a: seq<Out>, b: seq<Out>)
    ensures Read(a).None? ==> Read(a + b).None?
  {
    if Read(a + b).Some? {
      PrefixesAreReadable(a + b, |a|);
      assert (a + b)[..|a|] == a;
    }
  }

  lemma OpeningFeeds()
    ensures Feed(START, Created) == Some(START.(started := 1))
    ensures Feed(START.(started := 1), InProgress) == Some(START.(started := 2))
    ensures Feed(START.(started := 2), MessageAdded(0)) == Some(START.(started := 2, message := MessageOpen))
    ensures Feed(START.(started := 2, message := MessageOpen), PartAdded(0)) ==
            Some(START.(started := 2, message := PartOpen("")))
    ensures Feed(START.(started := 2, message := PartOpen("")), TextDelta(0, "a")) ==
            Some(START.(started := 2, message := PartOpen("a")))
  {
    assert "" + "a" == "a";
  }

  lemma OpeningReads(out: seq<Out>, c: Client)
    requires out == [Created, InProgress, MessageAdded(0), PartAdded(0), TextDelta(0, "a")]
    requires c == START.(started := 2, message := PartOpen("a"))
    ensures Read(out) == Some(c)
  {
    hide Read, Feed;
    ReadsNothing();
    ReadAppend([], out);
    assert [] + out == out;
    OpeningFeeds();
    OnOne(START.(started := 2, message := PartOpen("")), c, out, 4);
    OnOne(START.(started := 2, message := MessageOpen), START.(started := 2, message := PartOpen("")), out, 3);
    OnOne(START.(started := 2), START.(started := 2, message := MessageOpen), out, 2);
    OnOne(START.(started := 1), START.(started := 2), out, 1);
    OnOne(START, START.(started := 1), out, 0);
    assert out[5..] == [] && out[0..] == out;
  }

  lemma OnOne(c: Client, d: Client, out: seq<Out>, i: nat)
    requires i < |out| && Feed(c, out[i]) == Some(d)
    ensures ReadOn(c, out[i..]) == ReadOn(d, out[i + 1..])
  {
    assert out[i..][1..] == out[i + 1..];
  }

  lemma ReadsNothing()
    ensures Read([]) == Some(START)
  {
  }

  lemma CallReads(c: Client, k: int, call: Call, d: Client)
    requires c == START.(started := 2, message := PartOpen("a")) && call.arguments == ""
    requires d == c.(calls := map[k := CallClosed(0)], closed := [Function(k, call)])
    ensures ReadOn(c, [CallAdded(0, k, call), ArgumentsDone(0, k, ""), CallDone(0, k, call)]) == Some(d)
  {
    var out := [CallAdded(0, k, call), ArgumentsDone(0, k, ""), CallDone(0, k, call)];
    var d0 := c.(calls := map[k := CallOpen(0, call.id, "")]);
    var d1 := c.(calls := map[k := CallSettled(0, call.id, "")]);
    assert map[][k := CallOpen(0, call.id, "")] == d0.calls;
    assert d0.calls[k := CallSettled(0, call.id, "")] == d1.calls;
    assert d1.calls[k := CallClosed(0)] == d.calls;
    assert [] + [Function(k, call)] == [Function(k, call)];
    assert Feed(c, out[0]) == Some(d0);
    assert Feed(d0, out[1]) == Some(d1);
    assert Feed(d1, out[2]) == Some(d);
    OnOne(c, d0, out, 0);
    OnOne(d0, d1, out, 1);
    OnOne(d1, d, out, 2);
    assert out[3..] == [] && out[0..] == out;
  }

  lemma ClosingReads(c: Client, answer: Answer, d: Client)
    requires c.started == 2 && c.answer.None? && c.message == PartOpen("a") && c.messageIndex == 0
    requires forall k :: k in c.calls ==> c.calls[k].CallClosed?
    requires answer.output == c.closed + [Message("a")]
    requires d == c.(message := MessageClosed, steady := false, closed := answer.output, answer := Some(answer))
    ensures ReadOn(c, [TextDone(1, "a"), PartDone(1, "a"), MessageDone(1, "a"), Completed(answer)]) == Some(d)
  {
    var out := [TextDone(1, "a"), PartDone(1, "a"), MessageDone(1, "a"), Completed(answer)];
    var d0 := c.(message := TextSettled("a"), steady := false);
    var d1 := c.(message := PartSettled("a"), steady := false);
    var d2 := c.(message := MessageClosed, steady := false, closed := answer.output);
    assert Feed(c, out[0]) == Some(d0);
    assert Feed(d0, out[1]) == Some(d1);
    assert Feed(d1, out[2]) == Some(d2);
    assert Feed(d2, out[3]) == Some(d);
    OnOne(c, d0, out, 0);
    OnOne(d0, d1, out, 1);
    OnOne(d1, d2, out, 2);
    OnOne(d2, d, out, 3);
    assert out[4..] == [] && out[0..] == out;
  }

  /** Text and then a call: the smallest stream with a clash. */
  lemma TextThenCallIsLate(d: ToolDelta)
    ensures LateCall([Event("", Some(Delta("a", "", []))), Event("", Some(Delta("", "", [d])))])
  {
    hide ContentOf, DeltasOf, ReasoningOf;
    var text, call := Delta("a", "", []), Delta("", "", [d]);
    var events := [Event("", Some(text)), Event("", Some(call))];
    EventsSnoc(events, 0);
    EventsSnoc(events, 1);
    Nothing();
    assert events[..0] == [] && events[..2] == events;
    assert ContentOf(events[..1]) == "" + "a" == "a";
    assert DeltasOf(events[..1]) == [] + [] == [];
    assert DeltasOf(events) == [] + [d] == [d];
    assert d.index in KeysOf([d]) && KeysOf([]) == {};
    assert TextBegun(events, 1) && CallsSeen(events, 1) == {};
  }

  // ---------------------------------------------------------------- what following means

  function TextDeltas(out: seq<Out>): (r: string) {
    if out == [] then ""
    else
      var e := out[|out| - 1];
      if e.TextDelta? then TextDeltas(out[..|out| - 1]) + e.delta else TextDeltas(out[..|out| - 1])
  }

  function ArgumentDeltas(out: seq<Out>, k: int): (r: string) {
    if out == [] then ""
    else
      var e := out[|out| - 1];
      if e.ArgumentsDelta? && e.key == k then ArgumentDeltas(out[..|out| - 1], k) + e.delta
      else ArgumentDeltas(out[..|out| - 1], k)
  }

  /** What a client holds of the message and of a call is what the deltas said. */
  ghost predicate MessageTold(m: ClientMessage, text: string) {
    && ((m.NoMessage? || m.MessageOpen?) ==> text == "")
    && ((m.PartOpen? || m.TextSettled? || m.PartSettled?) ==> m.text == text)
  }

  ghost predicate CallTold(c: Client, k: int, arguments: string) {
    && (k !in c.calls ==> arguments == "")
    && (k in c.calls && !c.calls[k].CallClosed? ==> c.calls[k].arguments == arguments)
  }

  ghost predicate ItemTold(item: Item, out: seq<Out>) {
    match item
    case Message(text) => text == TextDeltas(out)
    case Function(k, call) => call.arguments == ArgumentDeltas(out, k)
  }

  ghost predicate Faithful(c: Client, out: seq<Out>) {
    && MessageTold(c.message, TextDeltas(out))
    && (forall k :: CallTold(c, k, ArgumentDeltas(out, k)))
    && (forall i :: 0 <= i < |c.closed| ==> ItemTold(c.closed[i], out))
    && (forall i :: 0 <= i < |c.closed| && c.closed[i].Function? ==>
      c.closed[i].key in c.calls && c.calls[c.closed[i].key].CallClosed?)
    && (forall i :: 0 <= i < |c.closed| && c.closed[i].Message? ==> c.message.MessageClosed?)
    && (c.answer.Some? ==> c.answer.value.output == c.closed)
  }

  lemma DeltasSnoc(out: seq<Out>, e: Out)
    ensures TextDeltas(out + [e]) == if e.TextDelta? then TextDeltas(out) + e.delta else TextDeltas(out)
    ensures forall k :: ArgumentDeltas(out + [e], k) ==
                        if e.ArgumentsDelta? && e.key == k
                          then ArgumentDeltas(out, k) + e.delta else ArgumentDeltas(out, k)
  {
    assert (out + [e])[..|out|] == out;
  }

  /** Whoever can follow the stream ends with exactly what the deltas said: the done events and the
    * completed answer repeat the joined deltas, call by call and for the text. */
  lemma {:induction false} FollowedIsFaithful(out: seq<Out>)
    requires Read(out).Some?
    ensures Faithful(Read(out).value, out)
    decreases |out|
  {
    hide Feed, Faithful, TextDeltas, ArgumentDeltas;
    if out == [] {
      StartIsFaithful();
    } else {
      var front, e := out[..|out| - 1], out[|out| - 1];
      assert out == front + [e];
      FollowedIsFaithful(front);
      if e.CallAdded? || e.ArgumentsDelta? || e.ArgumentsDone? || e.CallDone? {
        CallStep(Read(front).value, front, e);
      } else {
        OtherStep(Read(front).value, front, e);
      }
    }
  }

  lemma StartIsFaithful()
    ensures Faithful(START, [])
  {
  }

  lemma CallStep(c: Client, out: seq<Out>, e: Out)
    requires Faithful(c, out) && Feed(c, e).Some?
    requires e.CallAdded? || e.ArgumentsDelta? || e.ArgumentsDone? || e.CallDone?
    ensures Faithful(Feed(c, e).value, out + [e])
  {
    hide TextDeltas, ArgumentDeltas;
    DeltasSnoc(out, e);
    assert CallTold(c, e.key, ArgumentDeltas(out, e.key));
  }

  lemma OtherStep(c: Client, out: seq<Out>, e: Out)
    requires Faithful(c, out) && Feed(c, e).Some?
    requires !(e.CallAdded? || e.ArgumentsDelta? || e.ArgumentsDone? || e.CallDone?)
    ensures Faithful(Feed(c, e).value, out + [e])
  {
    hide TextDeltas, ArgumentDeltas;
    DeltasSnoc(out, e);
  }
}
