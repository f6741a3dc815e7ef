/** One FreeBuff answer in two forms: a Responses event stream, and one aggregated response.  A client
  * that follows the event protocol is the judge of the stream. */
module FreeBuff {
  import opened Common

  // ---------------------------------------------------------------- what upstream sends

  /** A piece of a tool call; an absent field reads as its zero value. */
  datatype ToolDelta = ToolDelta(index: int, id: string, name: string, arguments: string)

  datatype Delta = Delta(content: string, reasoning: string, tools: seq<ToolDelta>)

  /** A readable event: the model it names, if any, and the delta of its first choice. */
  datatype Event = Event(model: string, delta: Option<Delta>)

  /** The identifier of a call: the one upstream gave first, or a generated one. */
  datatype CallId = Given(id: string) | Generated

  datatype Call = Call(id: CallId, name: string, arguments: string)

  datatype Item = Function(key: int, call: Call) | Message(text: string)

  datatype Answer = Answer(model: string, output: seq<Item>)

  datatype Result = Ok(answer: Answer) | Empty | Broken

  // ---------------------------------------------------------------- what it means

  function ContentOf(events: seq<Event>): (r: string) {
    if events == [] then ""
    else
      var e := events[|events| - 1];
      ContentOf(events[..|events| - 1]) + (if e.delta.Some? then e.delta.value.content else "")
  }

  function ReasoningOf(events: seq<Event>): (r: string) {
    if events == [] then ""
    else
      var e := events[|events| - 1];
      ReasoningOf(events[..|events| - 1]) + (if e.delta.Some? then e.delta.value.reasoning else "")
  }

  function DeltasOf(events: seq<Event>): (r: seq<ToolDelta>) {
    if events == [] then []
    else
      var e := events[|events| - 1];
      DeltasOf(events[..|events| - 1]) + (if e.delta.Some? then e.delta.value.tools else [])
  }

  function ModelOf(events: seq<Event>, model: string): (r: string) {
    if events == [] then model
    else
      var e := events[|events| - 1];
      if e.model != "" then e.model else ModelOf(events[..|events| - 1], model)
  }

  function KeysOf(deltas: seq<ToolDelta>): (r: set<int>) {
    set d | d in deltas :: d.index
  }

  function IdOf(d: ToolDelta): CallId {
    if d.id == "" then Generated else Given(d.id)
  }

  /** The first delta of a call fixes its identifier, the last name that is not empty its name, and
    * its arguments are joined in order. */
  function CallOf(deltas: seq<ToolDelta>, k: int): (r: Call)
    requires k in KeysOf(deltas)
  {
    var n := |deltas| - 1;
    var d := deltas[n];
    if d.index != k then CallOf(deltas[..n], k)
    else if k !in KeysOf(deltas[..n]) then Call(IdOf(d), d.name, d.arguments)
    else Grown(CallOf(deltas[..n], k), d)
  }

  /** A call after one more piece. */
  function Grown(c: Call, d: ToolDelta): Call {
    Call(c.id, if d.name != "" then d.name else c.name, c.arguments + d.arguments)
  }

  /** The text of the answer: its content, or its reasoning when there is no content. */
  function TextOf(events: seq<Event>): (r: string) {
    if ContentOf(events) != "" then ContentOf(events) else ReasoningOf(events)
  }

  ghost predicate IsCalls(items: seq<Item>, deltas: seq<ToolDelta>) {
    var keys := Sorted(KeysOf(deltas));
    && |items| == |keys|
    && forall i :: 0 <= i < |items| ==>
      keys[i] in KeysOf(deltas) && items[i] == Function(keys[i], CallOf(deltas, keys[i]))
  }

  function Texts(text: string): seq<Item> {
    if text != "" then [Message(text)] else []
  }

  ghost predicate IsEmpty(events: seq<Event>) {
    TextOf(events) == "" && DeltasOf(events) == []
  }

  ghost predicate Ends(r: Result, events: seq<Event>, broken: bool, model: string) {
    && (r.Broken? <==> broken)
    && (r.Empty? <==> !broken && IsEmpty(events))
    && (r.Ok? ==> r.answer.model == ModelOf(events, model))
  }

  /** The aggregated response names the message first, then the calls. */
  ghost predicate IsAggregated(r: Result, events: seq<Event>, broken: bool, model: string) {
    && Ends(r, events, broken, model)
    && (r.Ok? ==> exists calls :: IsCalls(calls, DeltasOf(events)) && r.answer.output == Texts(TextOf(events)) + calls)
  }

  /** The completed event of the stream names the calls first, then the message. */
  ghost predicate IsStreamed(r: Result, events: seq<Event>, broken: bool, model: string) {
    && Ends(r, events, broken, model)
    && (r.Ok? ==> exists calls :: IsCalls(calls, DeltasOf(events)) && r.answer.output == calls + Texts(TextOf(events)))
  }

  // ---------------------------------------------------------------- steps of the meaning

  lemma Nothing()
    ensures ContentOf([]) == "" && ReasoningOf([]) == "" && DeltasOf([]) == []
    ensures KeysOf([]) == {}
  {
  }

  lemma EventsSnoc(events: seq<Event>, i: nat)
    requires i < |events|
    ensures var e := events[i];
            && ContentOf(events[..i + 1]) ==
              (if e.delta.Some? then ContentOf(events[..i]) + e.delta.value.content else ContentOf(events[..i]))
            && ReasoningOf(events[..i + 1]) ==
              (if e.delta.Some? then ReasoningOf(events[..i]) + e.delta.value.reasoning else ReasoningOf(events[..i]))
            && DeltasOf(events[..i + 1]) ==
              (if e.delta.Some? then DeltasOf(events[..i]) + e.delta.value.tools else DeltasOf(events[..i]))
  {
    assert events[..i + 1][..i] == events[..i];
    assert ContentOf(events[..i]) + "" == ContentOf(events[..i]);
    assert ReasoningOf(events[..i]) + "" == ReasoningOf(events[..i]);
    assert DeltasOf(events[..i]) + [] == DeltasOf(events[..i]);
  }

  lemma ModelSnoc(events: seq<Event>, i: nat, model: string)
    requires i < |events|
    ensures ModelOf(events[..i + 1], model) ==
            if events[i].model != "" then events[i].model else ModelOf(events[..i], model)
  {
    assert events[..i + 1][..i] == events[..i];
  }

  lemma KeysSnoc(deltas: seq<ToolDelta>, d: ToolDelta)
    ensures KeysOf(deltas + [d]) == KeysOf(deltas) + {d.index}
  {
  }

  lemma CallSnoc(deltas: seq<ToolDelta>, d: ToolDelta, k: int)
    requires k in KeysOf(deltas) || k == d.index
    ensures k in KeysOf(deltas + [d])
    ensures CallOf(deltas + [d], k) ==
            if d.index != k then CallOf(deltas, k)
            else if k !in KeysOf(deltas) then Call(IdOf(d), d.name, d.arguments)
            else Grown(CallOf(deltas, k), d)
  {
    KeysSnoc(deltas, d);
    assert (deltas + [d])[..|deltas|] == deltas;
  }

  /** The pieces of one call, in order. */
  function PiecesOf(deltas: seq<ToolDelta>, k: int): (r: seq<ToolDelta>) {
    if deltas == [] then []
    else
      var d := deltas[|deltas| - 1];
      PiecesOf(deltas[..|deltas| - 1], k) + if d.index == k then [d] else []
  }

  function ArgumentsIn(pieces: seq<ToolDelta>): (r: seq<string>)
    ensures |r| == |pieces| && forall i :: 0 <= i < |r| ==> r[i] == pieces[i].arguments
  {
    seq(|pieces|, i requires 0 <= i < |pieces| => pieces[i].arguments)
  }

  /** The last name that is not empty. */
  ghost predicate IsLastName(name: string, pieces: seq<ToolDelta>) {
    if forall i :: 0 <= i < |pieces| ==> pieces[i].name == "" then name == ""
    else exists i :: 0 <= i < |pieces| && name == pieces[i].name != "" &&
           forall j :: i < j < |pieces| ==> pieces[j].name == ""
  }

  lemma LastNameSnoc(name: string, pieces: seq<ToolDelta>, d: ToolDelta)
    requires IsLastName(name, pieces)
    ensures IsLastName(if d.name != "" then d.name else name, pieces + [d])
  {
    var all := pieces + [d];
    assert all[|pieces|] == d && forall i :: 0 <= i < |pieces| ==> all[i] == pieces[i];
    if d.name == "" && !(forall i :: 0 <= i < |pieces| ==> pieces[i].name == "") {
      var i :| 0 <= i < |pieces| && name == pieces[i].name != "" &&
        forall j :: i < j < |pieces| ==> pieces[j].name == "";
      assert name == all[i].name;
    }
  }

  /** The pieces make the call: the identifier of the first, made up if that has none; the last name given;
    * and all arguments, joined. */
  ghost predicate Makes(pieces: seq<ToolDelta>, c: Call) {
    && pieces != []
    && c.id == (if pieces[0].id == "" then Generated else Given(pieces[0].id))
    && IsLastName(c.name, pieces)
    && c.arguments == Flatten(ArgumentsIn(pieces))
  }

  /** Every call is what its pieces make it. */
  lemma {:induction false} CallsAreTold(deltas: seq<ToolDelta>, k: int)
    requires k in KeysOf(deltas)
    ensures Makes(PiecesOf(deltas, k), CallOf(deltas, k))
    decreases |deltas|
  {
    hide CallOf, Makes, PiecesOf, KeysOf, Grown, IdOf;
    if deltas == [] {
      Nothing();
    } else {
      var front, d := deltas[..|deltas| - 1], deltas[|deltas| - 1];
      assert deltas == front + [d];
      KeysSnoc(front, d);
      CallSnoc(front, d, k);
      PiecesSnoc(front, d, k);
      if k in KeysOf(front) {
        CallsAreTold(front, k);
        NextPiece(PiecesOf(front, k), CallOf(front, k), d);
      } else {
        NoPieces(front, k);
        FirstPiece(d);
      }
    }
  }

  lemma PiecesSnoc(front: seq<ToolDelta>, d: ToolDelta, k: int)
    ensures PiecesOf(front + [d], k) == if d.index == k then PiecesOf(front, k) + [d] else PiecesOf(front, k)
  {
    assert (front + [d])[..|front|] == front;
    assert PiecesOf(front, k) + [] == PiecesOf(front, k);
  }

  lemma NextPiece(pieces: seq<ToolDelta>, c: Call, d: ToolDelta)
    requires Makes(pieces, c)
    ensures Makes(pieces + [d], Grown(c, d))
  {
    hide IsLastName;
    LastNameSnoc(c.name, pieces, d);
    assert ArgumentsIn(pieces + [d]) == ArgumentsIn(pieces) + [d.arguments];
    FlattenSnoc(ArgumentsIn(pieces), d.arguments);
  }

  lemma FirstPiece(d: ToolDelta)
    ensures Makes([] + [d], Call(IdOf(d), d.name, d.arguments))
  {
    hide IsLastName;
    assert [] + [d] == [d] && ArgumentsIn([d]) == [d.arguments];
    FirstName(d);
    FlattenSnoc([], d.arguments);
    assert [] + [d.arguments] == [d.arguments] && Flatten<char>([]) + d.arguments == d.arguments;
  }

  lemma FirstName(d: ToolDelta)
    ensures IsLastName(d.name, [d])
  {
    assert d.name != "" ==> [d][0].name == d.name;
  }

  lemma {:induction false} NoPieces(deltas: seq<ToolDelta>, k: int)
    requires k !in KeysOf(deltas)
    ensures PiecesOf(deltas, k) == []
    decreases |deltas|
  {
    if deltas != [] {
      var front, d := deltas[..|deltas| - 1], deltas[|deltas| - 1];
      assert deltas == front + [d];
      KeysSnoc(front, d);
      NoPieces(front, k);
    }
  }

  /** The model is the last one upstream names, else the one asked for. */
  lemma {:induction false} ModelIsLastNamed(events: seq<Event>, model: string)
    ensures if forall i :: 0 <= i < |events| ==> events[i].model == "" then ModelOf(events, model) == model
            else exists i :: 0 <= i < |events| && ModelOf(events, model) == events[i].model != "" &&
                   forall j :: i < j < |events| ==> events[j].model == ""
    decreases |events|
  {
    if events != [] {
      var front, e := events[..|events| - 1], events[|events| - 1];
      ModelIsLastNamed(front, model);
      assert events[|events| - 1] == e && forall i :: 0 <= i < |front| ==> events[i] == front[i];
      if e.model == "" && !(forall i :: 0 <= i < |front| ==> front[i].model == "") {
        var i :| 0 <= i < |front| && ModelOf(front, model) == front[i].model != "" &&
          forall j :: i < j < |front| ==> front[j].model == "";
        assert ModelOf(events, model) == events[i].model;
      }
    }
  }

  // ---------------------------------------------------------------- records shared by both forms

  datatype Tool = Tool(call: Call, outputIndex: int)

  /** The records tell the calls the deltas make. */
  ghost predicate Held(tools: map<int, Tool>, deltas: seq<ToolDelta>) {
    && tools.Keys == KeysOf(deltas)
    && forall k :: k in tools ==> tools[k].call == CallOf(deltas, k)
  }

  lemma HeldStep(tools: map<int, Tool>, deltas: seq<ToolDelta>, d: ToolDelta, t: Tool)
    requires Held(tools, deltas)
    requires t.call == if d.index !in tools then Call(IdOf(d), d.name, d.arguments)
                       else Grown(tools[d.index].call, d)
    ensures Held(tools[d.index := t], deltas + [d])
  {
    hide CallOf, KeysOf;
    KeysSnoc(deltas, d);
    forall k | k in tools[d.index := t] ensures tools[d.index := t][k].call == CallOf(deltas + [d], k) {
      CallSnoc(deltas, d, k);
    }
  }

  // ---------------------------------------------------------------- the aggregated form

  method CollectToolCalls(target0: map<int, Tool>, items: seq<ToolDelta>, ghost deltas: seq<ToolDelta>)
    returns (target: map<int, Tool>)
    requires Held(target0, deltas)
    ensures Held(target, deltas + items)
  {
    hide Held;
    target := target0;
    assert deltas + items[..0] == deltas;
    for i := 0 to |items|
      invariant Held(target, deltas + items[..i])
    {
      var item := items[i];
      ghost var before := target;
      var tool: Tool;
      if item.index in target {
        tool := target[item.index];
      } else {
        tool := Tool(Call(IdOf(item), "", ""), item.index);
      }
      if item.name != "" {
        tool := tool.(call := tool.call.(name := item.name));
      }
      tool := tool.(call := tool.call.(arguments := tool.call.arguments + item.arguments));
      target := target[item.index := tool];
      assert "" + item.arguments == item.arguments;
      HeldStep(before, deltas + items[..i], item, tool);
      assert deltas + items[..i] + [item] == deltas + items[..i + 1];
    }
    assert items[..|items|] == items;
  }

  method AggregateResponses(events: seq<Event>, broken: bool, model: string) returns (r: Result)
    ensures IsAggregated(r, events, broken, model)
  {
    hide ContentOf, ReasoningOf, DeltasOf, ModelOf, Held, IsCalls;
    var content, reasoning, upstreamModel := "", "", "";
    var tools: map<int, Tool> := map[];
    Nothing();
    HeldNothing();
    ModelStart(model);
    assert events[..0] == [];
    for i := 0 to |events|
      invariant content == ContentOf(events[..i]) && reasoning == ReasoningOf(events[..i])
      invariant Held(tools, DeltasOf(events[..i]))
      invariant ModelOf(events[..i], model) == if upstreamModel != "" then upstreamModel else model
    {
      var e := events[i];
      EventsSnoc(events, i);
      ModelSnoc(events, i, model);
      if e.model != "" {
        upstreamModel := e.model;
      }
      if e.delta.Some? {
        content := content + e.delta.value.content;
        reasoning := reasoning + e.delta.value.reasoning;
        tools := CollectToolCalls(tools, e.delta.value.tools, DeltasOf(events[..i]));
      }
    }
    assert events[..|events|] == events;
    if broken {
      return Broken;
    }
    if content == "" && reasoning != "" {
      content := reasoning;
    }
    assert content == TextOf(events);
    var output: seq<Item> := [];
    if content != "" {
      output := output + [Message(content)];
    }
    assert output == Texts(content);
    var calls := ItemsOf(tools, DeltasOf(events));
    output := output + calls;
    CallsEmpty(calls, DeltasOf(events));
    if |output| == 0 {
      return Empty;
    }
    if upstreamModel == "" {
      upstreamModel := model;
    }
    r := Ok(Answer(upstreamModel, output));
  }

  lemma ModelStart(model: string)
    ensures ModelOf([], model) == model
  {
  }

  lemma HeldNothing()
    ensures Held(map[], [])
  {
  }

  /** The records as items, in ascending order of tool index. */
  method ItemsOf(tools: map<int, Tool>, ghost deltas: seq<ToolDelta>) returns (items: seq<Item>)
    requires Held(tools, deltas)
    ensures IsCalls(items, deltas)
  {
    hide Sorted, CallOf, KeysOf;
    var keys := SortInts(tools.Keys);
    items := [];
    for i := 0 to |keys|
      invariant |items| == i
      invariant forall j :: 0 <= j < i ==>
                keys[j] in KeysOf(deltas) && items[j] == Function(keys[j], CallOf(deltas, keys[j]))
    {
      assert keys[i] in Elems(keys);
      items := items + [Function(keys[i], tools[keys[i]].call)];
    }
  }

  lemma SomethingIn(keys: seq<int>)
    ensures keys != [] ==> Elems(keys) != {}
  {
    if keys != [] {
      assert keys[0] in Elems(keys);
    }
  }

  lemma CallsEmpty(items: seq<Item>, deltas: seq<ToolDelta>)
    requires IsCalls(items, deltas)
    ensures items == [] <==> deltas == []
  {
    var keys := Sorted(KeysOf(deltas));
    if deltas != [] {
      assert deltas[0].index in KeysOf(deltas);
      assert deltas[0].index in Elems(keys);
    } else {
      SomethingIn(keys);
    }
  }

  lemma CallsUnique(a: seq<Item>, b: seq<Item>, deltas: seq<ToolDelta>)
    requires IsCalls(a, deltas) && IsCalls(b, deltas)
    ensures a == b
  {
    hide Sorted, CallOf, KeysOf;
  }

  lemma CallsAreFunctions(calls: seq<Item>, deltas: seq<ToolDelta>)
    requires IsCalls(calls, deltas)
    ensures forall i :: 0 <= i < |calls| ==> calls[i].Function?
  {
    hide Sorted, CallOf, KeysOf;
  }

  /** Both forms fail on the same inputs and otherwise name the same model and the same items.  The
    * order of the items is the same exactly when text and tool calls do not both occur. */
  lemma FormsAgree(events: seq<Event>, broken: bool, model: string, a: Result, s: Result)
    requires IsAggregated(a, events, broken, model) && IsStreamed(s, events, broken, model)
    ensures (a.Broken? <==> s.Broken?) && (a.Empty? <==> s.Empty?)
    ensures a.Ok? ==>
              && a.answer.model == s.answer.model
              && multiset(a.answer.output) == multiset(s.answer.output)
    ensures a == s <==> (!a.Ok? || TextOf(events) == "" || DeltasOf(events) == [])
  {
    hide TextOf, DeltasOf, ModelOf, IsEmpty, IsCalls, Texts;
    if a.Ok? {
      var calls :| IsCalls(calls, DeltasOf(events)) && a.answer.output == Texts(TextOf(events)) + calls;
      var others :| IsCalls(others, DeltasOf(events)) && s.answer.output == others + Texts(TextOf(events));
      CallsUnique(calls, others, DeltasOf(events));
      CallsEmpty(calls, DeltasOf(events));
      CallsAreFunctions(calls, DeltasOf(events));
      TextsEmpty(TextOf(events));
      Swapped(Texts(TextOf(events)), calls);
    }
  }

  lemma TextsEmpty(text: string)
    ensures Texts(text) == [] <==> text == ""
    ensures forall i :: 0 <= i < |Texts(text)| ==> Texts(text)[i].Message?
  {
  }

  lemma Swapped(text: seq<Item>, calls: seq<Item>)
    requires forall i :: 0 <= i < |text| ==> text[i].Message?
    requires forall i :: 0 <= i < |calls| ==> calls[i].Function?
    ensures multiset(text + calls) == multiset(calls + text)
    ensures text + calls == calls + text <==> (text == [] || calls == [])
  {
    if text != [] && calls != [] {
      assert (text + calls)[0].Message? && (calls + text)[0].Function?;
    } else if calls == [] {
      assert text + calls == text && calls + text == text;
    } else {
      assert text + calls == calls && calls + text == calls;
    }
  }

  /** One event with text and a call: the two forms list message and call in opposite order. */
  lemma OrderDiffers(d: ToolDelta, a: Result, s: Result)
    requires var events := [Event("", Some(Delta("a", "", [d])))];
             IsAggregated(a, events, false, "m") && IsStreamed(s, events, false, "m")
    ensures var call := Function(d.index, Call(IdOf(d), d.name, d.arguments));
            && a == Ok(Answer("m", [Message("a"), call]))
            && s == Ok(Answer("m", [call, Message("a")]))
  {
    hide ContentOf, DeltasOf, ReasoningOf, ModelOf, Sorted, CallOf, KeysOf, IsCalls, IsEmpty;
    var events := [Event("", Some(Delta("a", "", [d])))];
    OneEvent(d);
    OneCall(d);
    CallsEmpty([Function(d.index, Call(IdOf(d), d.name, d.arguments))], [d]);
    NotEmpty(events);
    var calls := [Function(d.index, Call(IdOf(d), d.name, d.arguments))];
    var given :| IsCalls(given, [d]) && a.answer.output == Texts("a") + given;
    CallsUnique(calls, given, [d]);
    var other :| IsCalls(other, [d]) && s.answer.output == other + Texts("a");
    CallsUnique(calls, other, [d]);
  }

  lemma NotEmpty(events: seq<Event>)
    ensures DeltasOf(events) != [] ==> !IsEmpty(events)
  {
  }

  lemma OneEvent(d: ToolDelta)
    ensures var events := [Event("", Some(Delta("a", "", [d])))];
            ContentOf(events) == "a" && DeltasOf(events) == [d] && ModelOf(events, "m") == "m"
  {
    hide ContentOf, DeltasOf, ReasoningOf, ModelOf;
    var events := [Event("", Some(Delta("a", "", [d])))];
    EventsSnoc(events, 0);
    ModelSnoc(events, 0, "m");
    Nothing();
    ModelStart("m");
    assert events[..0] == [] && events[..1] == events;
    assert "" + "a" == "a" && [] + [d] == [d];
  }

  lemma OneCall(d: ToolDelta)
    ensures IsCalls([Function(d.index, Call(IdOf(d), d.name, d.arguments))], [d])
  {
    assert [d][..0] == [];
    assert KeysOf([d]) == {d.index};
    assert Ascending([d.index]) && Elems([d.index]) == {d.index};
    SortedIsUnique(Sorted(KeysOf([d])), [d.index]);
  }
}
