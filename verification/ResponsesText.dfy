/** The text of a single-message Responses stream: what the deltas say, what the repairer hears of them,
  * and what it tells at the end. */
module ResponsesText {
  import opened Common
  import opened ResponsesRepair
  import opened ResponsesTheorems

  predicate IsDelta(f: Frame) {
    f.Event? && f.kind == TextDelta
  }

  /** All text deltas of upstream, joined. */
  function Said(frames: seq<Frame>): (r: string) {
    if frames == [] then ""
    else
      var f := frames[|frames| - 1];
      var before := Said(frames[..|frames| - 1]);
      if IsDelta(f) then before + f.delta else before
  }

  /** Those the repairer takes note of. */
  function Heard(frames: seq<Frame>): (r: string) {
    if frames == [] then ""
    else
      var f := frames[|frames| - 1];
      var before := Heard(frames[..|frames| - 1]);
      if Noted(f, TextDelta) then before + f.delta else before
  }

  /** The text deltas the client is sent, joined. */
  function SentText(out: seq<Out>): (r: string) {
    if out == [] then ""
    else
      var o := out[|out| - 1];
      var before := SentText(out[..|out| - 1]);
      if IsTextDelta(o) then before + o.frame.delta else before
  }

  lemma {:induction false} SentTextAppend(a: seq<Out>, b: seq<Out>)
    ensures SentText(a + b) == SentText(a) + SentText(b)
    decreases |b|
  {
    if b == [] {
      assert a + b == a;
    } else {
      var front, o := b[..|b| - 1], b[|b| - 1];
      SentTextAppend(a, front);
      assert (a + b)[..|a + b| - 1] == a + front && (a + b)[|a + b| - 1] == o;
    }
  }

  lemma {:induction false} NoDeltas(out: seq<Out>)
    requires forall i :: 0 <= i < |out| ==> !IsTextDelta(out[i])
    ensures SentText(out) == ""
    decreases |out|
  {
    if out != [] {
      NoDeltas(out[..|out| - 1]);
    }
  }

  /** One frame sends its own delta and no other. */
  lemma SentOfFrame(s: State, f: Frame)
    ensures SentText(Sent(s, f)) == if IsDelta(f) then f.delta else ""
  {
    hide Observe, CompletionEvents, OutputSnapshot, CurrentItem, SentText;
    var more := Sent(s, f);
    if IsDelta(f) {
      var n := |more| - 1;
      assert !IsTextDelta(NewCreated(Observe(s, f).id));
      assert forall i :: 0 <= i < n ==> !IsTextDelta(more[i]);
      NoDeltas(more[..n]);
      assert more == more[..n] + [more[n]];
      SentTextAppend(more[..n], [more[n]]);
      OneDelta(more[n]);
      assert "" + f.delta == f.delta;
    } else {
      if f.Event? && f.kind == Completed {
        ClosingsOnly(Observe(s, f));
      }
      assert forall i :: 0 <= i < |more| ==> !IsTextDelta(more[i]);
      NoDeltas(more);
    }
  }

  lemma OneDelta(o: Out)
    requires IsTextDelta(o)
    ensures SentText([o]) == o.frame.delta
  {
    assert [o][..0] == [];
    assert "" + o.frame.delta == o.frame.delta;
  }

  /** The client is sent every delta of upstream. */
  lemma {:induction false} AllIsSent(id: string, frames: seq<Frame>)
    ensures SentText(Output(NewState(id), frames)) == Said(frames)
    decreases |frames|
  {
    hide Sent, StateAfter;
    if frames != [] {
      var front, f := frames[..|frames| - 1], frames[|frames| - 1];
      AllIsSent(id, front);
      SentTextAppend(Output(NewState(id), front), Sent(StateAfter(NewState(id), front), f));
      SentOfFrame(StateAfter(NewState(id), front), f);
      assert Said(front) + "" == Said(front);
    }
  }

  ghost predicate AllHeard(frames: seq<Frame>) {
    forall i :: 0 <= i < |frames| ==> Hears(frames[i])
  }

  /** A delta with text names its type in the payload and can be read. */
  predicate Hears(f: Frame) {
    IsDelta(f) && f.delta != "" ==> Noted(f, TextDelta)
  }

  lemma {:induction false} HeardIsLess(frames: seq<Frame>)
    ensures AllHeard(frames) ==> Heard(frames) == Said(frames)
    ensures |Heard(frames)| <= |Said(frames)|
    ensures !AllHeard(frames) ==> |Heard(frames)| < |Said(frames)|
    decreases |frames|
  {
    if frames != [] {
      var front, f := frames[..|frames| - 1], frames[|frames| - 1];
      HeardIsLess(front);
      HeardSnoc(front, f);
      assert frames == front + [f];
      assert IsDelta(f) && f.delta == "" ==>
        Said(front) + f.delta == Said(front) && Heard(front) + f.delta == Heard(front);
    }
  }

  lemma TextSnoc(front: seq<Frame>, f: Frame)
    ensures Said(front + [f]) == if IsDelta(f) then Said(front) + f.delta else Said(front)
    ensures Heard(front + [f]) == if Noted(f, TextDelta) then Heard(front) + f.delta else Heard(front)
    ensures Said([]) == "" && Heard([]) == ""
  {
    assert (front + [f])[..|front|] == front;
  }

  lemma HeardSnoc(front: seq<Frame>, f: Frame)
    ensures AllHeard(front + [f]) <==> AllHeard(front) && Hears(f)
  {
    var frames := front + [f];
    assert frames[|front|] == f && forall i :: 0 <= i < |front| ==> frames[i] == front[i];
    if AllHeard(frames) {
      forall i | 0 <= i < |front| ensures Hears(front[i]) {
        assert Hears(frames[i]);
      }
    }
  }

  /** What the repairer hears is all there is exactly if every delta with text can be heard. */
  lemma HeardIsAll(frames: seq<Frame>)
    ensures Heard(frames) == Said(frames) <==> AllHeard(frames)
  {
    HeardIsLess(frames);
  }

  lemma {:induction false} StateHears(id: string, frames: seq<Frame>)
    ensures StateAfter(NewState(id), frames).core.text == Heard(frames)
    decreases |frames|
  {
    if frames != [] {
      StateHears(id, frames[..|frames| - 1]);
      ProcessFlags(StateAfter(NewState(id), frames[..|frames| - 1]), frames[|frames| - 1]);
    }
  }

  // ---------------------------------------------------------------- one message

  predicate TakesItem(f: Frame) {
    (Noted(f, ItemAdded) || Noted(f, ItemDone)) && f.item.Some?
  }

  /** The frame puts something into the item table. */
  predicate Files(f: Frame) {
    TakesItem(f) || Noted(f, ArgsDelta)
  }

  /** The frame fixes the output position. */
  predicate Places(f: Frame, k: int) {
    f.Event? && f.decodes && f.kind != Created && f.outputIndex == Some(k)
  }

  ghost predicate Placed(frames: seq<Frame>, k: int) {
    exists i :: 0 <= i < |frames| && Places(frames[i], k)
  }

  predicate OneMessage(f: Frame, k: int) {
    f.Event? ==>
      && (f.outputIndex == Some(k) || f.outputIndex == None)
      && f.kind != ArgsDelta
      && (f.item.Some? ==> f.item.value.typ == "message")
  }

  /** A stream that speaks of one message only, at output position k.  A frame need not name the
    * position; but unless it is 0 some frame has named it when the item is described. */
  ghost predicate SingleMessage(frames: seq<Frame>, k: int) {
    frames == [] ||
    (var n := |frames| - 1;
     && SingleMessage(frames[..n], k)
     && OneMessage(frames[n], k)
     && (TakesItem(frames[n]) ==> k == 0 || Placed(frames, k)))
  }

  lemma SingleSnoc(front: seq<Frame>, f: Frame, k: int)
    ensures SingleMessage(front + [f], k) <==>
            SingleMessage(front, k) && OneMessage(f, k) && (TakesItem(f) ==> k == 0 || Placed(front + [f], k))
    ensures SingleMessage([], k)
  {
    assert (front + [f])[..|front|] == front;
  }

  /** The text upstream itself put into its latest description of the message. */
  function OwnTexts(frames: seq<Frame>): (r: seq<string>) {
    if frames == [] then []
    else
      var f := frames[|frames| - 1];
      if TakesItem(f) then f.item.value.texts else OwnTexts(frames[..|frames| - 1])
  }

  ghost predicate OneItem(c: Core, k: int, placed: bool, own: seq<string>) {
    && (c.outputIndex == 0 || c.outputIndex == k)
    && (placed ==> c.outputIndex == k)
    && (c.items == map[] ==> own == [])
    && (c.items != map[] ==>
          c.outputIndex == k && c.items.Keys == {k} && c.items[k].typ == "message" && c.items[k].texts == own)
  }

  lemma PlacedSnoc(front: seq<Frame>, f: Frame, k: int)
    ensures Placed(front + [f], k) <==> Placed(front, k) || Places(f, k)
  {
    hide Places;
    var frames := front + [f];
    assert frames[|front|] == f && forall i :: 0 <= i < |front| ==> frames[i] == front[i];
  }

  lemma OneItemStep(s: State, f: Frame, k: int, placed: bool, own: seq<string>)
    requires OneItem(s.core, k, placed, own) && OneMessage(f, k)
    requires TakesItem(f) ==> k == 0 || placed || Places(f, k)
    ensures var p, o := placed || Places(f, k), if TakesItem(f) then f.item.value.texts else own;
            && OneItem(Process(s, f).core, k, p, o)
            && (f.Event? && f.kind != Created ==> OneItem(Observe(s, f).core, k, p, o))
  {
    hide FrameItemID, MessageID, ObserveFlags, CloseAll, OneItem;
    if f.Event? && f.kind != Created {
      ObservedItem(s, f, k, placed, own);
      SameCore(s, f);
      CoreMatters(Observe(s, f).core, Process(s, f).core, k, placed || Places(f, k), if TakesItem(f)
        then f.item.value.texts else own);
    } else {
      CoreMatters(s.core, Process(s, f).core, k, placed, own);
    }
  }

  lemma SameCore(s: State, f: Frame)
    requires f.Event? && f.kind != Created
    ensures Process(s, f).core == Observe(s, f).core
  {
    hide ObserveCore, ObserveFlags, CloseAll;
  }

  lemma CoreMatters(c: Core, d: Core, k: int, placed: bool, own: seq<string>)
    requires OneItem(c, k, placed, own) && c.outputIndex == d.outputIndex && c.items == d.items
    ensures OneItem(d, k, placed, own)
  {
  }

  lemma ObservedItem(s: State, f: Frame, k: int, placed: bool, own: seq<string>)
    requires OneItem(s.core, k, placed, own) && OneMessage(f, k) && f.Event? && f.kind != Created
    requires TakesItem(f) ==> k == 0 || placed || Places(f, k)
    ensures OneItem(Observe(s, f).core, k, placed || Places(f, k), if TakesItem(f) then f.item.value.texts else own)
  {
    hide FrameItemID, ObserveFlags;
    var c := Observe(s, f).core;
    if TakesItem(f) {
      assert c.outputIndex == k;
      assert c.items == s.core.items[k := f.item.value];
      assert c.items.Keys == {k};
    }
  }

  lemma {:induction false} OneItemAll(id: string, frames: seq<Frame>, k: int)
    requires SingleMessage(frames, k)
    ensures OneItem(StateAfter(NewState(id), frames).core, k, Placed(frames, k), OwnTexts(frames))
    decreases |frames|
  {
    hide OneItem, Process, Placed, TakesItem, OneMessage;
    if frames == [] {
      NothingYet(id, k);
    } else {
      var front, f := frames[..|frames| - 1], frames[|frames| - 1];
      assert frames == front + [f];
      OneItemAll(id, front, k);
      PlacedSnoc(front, f, k);
      OneItemStep(StateAfter(NewState(id), front), f, k, Placed(front, k), OwnTexts(front));
    }
  }

  lemma NothingYet(id: string, k: int)
    ensures OneItem(NewState(id).core, k, Placed([], k), [])
  {
  }

  function TextIn(output: seq<Item>): (r: string) {
    if output == [] then "" else TextIn(output[..|output| - 1]) + Flatten(output[|output| - 1].texts)
  }

  /** What a made-up closing event tells, `whole` being the text of the answer. */
  predicate Tells(o: Out, heard: string, whole: string) {
    match o
    case NewTextDone(_, _, _, t) => t == heard != ""
    case NewPartDone(_, _, _, t) => t == heard != ""
    case NewItemDone(_, item) => item.typ == "message" && Flatten(item.texts) == whole && item.status == "completed"
    case NewArgsDone(_, _, _) => false
    case _ => true
  }

  ghost predicate IsAnswer(output: seq<Item>, whole: string) {
    && |output| <= 1 && TextIn(output) == whole
    && forall i :: 0 <= i < |output| ==> output[i].typ == "message" && output[i].status == "completed"
  }

  /** A single-message stream that ends in a bare response.completed is answered by at most one
    * completed message.  Its text, and that of every closing event made up, is what the repairer heard;
    * or, if it heard nothing, what upstream itself put into the item.  That is what the client was sent
    * as deltas if and only if every delta with text could be heard; or, if nothing was heard and the
    * item has a text of its own, if that text happens to be the same. */
  lemma SnapshotTellsTheDeltas(id: string, frames: seq<Frame>, last: Frame, k: int)
    requires SingleMessage(frames + [last], k)
    requires last.Event? && last.kind == Completed && !last.hasSnapshot
    ensures var sent := SentText(Output(NewState(id), frames + [last]));
            var more := Sent(StateAfter(NewState(id), frames), last);
            var heard, own := Heard(frames), Flatten(OwnTexts(frames));
            var whole := if heard != "" then heard else own;
            && more != [] && more[|more| - 1].NewCompleted? && IsAnswer(more[|more| - 1].output, whole)
            && (forall i :: 0 <= i < |more| ==> Tells(more[i], heard, whole))
            && (whole == sent <==> if heard == "" && own != "" then own == sent else AllHeard(frames))
  {
    hide Observe, CompletionEvents, OutputSnapshot, StateAfter, Sent, OneItem, Heard, Said, SentText, Output, AllHeard;
    hide TextIn, IsAnswer, OneMessage;
    var all, s := frames + [last], StateAfter(NewState(id), frames);
    assert all[..|all| - 1] == frames && all[|all| - 1] == last;
    StateHears(id, frames);
    OneItemAll(id, frames, k);
    PlacedSnoc(frames, last, k);
    OneItemStep(s, last, k, Placed(frames, k), OwnTexts(frames));
    var s1 := Observe(s, last);
    ObservedText(s, last);
    CompletionTells(s1.flags, s1.core, k, Placed(all, k), OwnTexts(frames));
    SnapshotOfOne(s1.core, k, Placed(all, k), OwnTexts(frames));
    SentAtTheEnd(s, last);
    AllIsSent(id, all);
    TextSnoc(frames, last);
    HeardIsAll(frames);
    HeardIsLess(frames);
  }

  lemma ObservedText(s: State, last: Frame)
    requires last.Event? && last.kind == Completed
    ensures Observe(s, last).core.text == s.core.text
  {
    hide ObserveItems, FrameItemID;
  }

  lemma SentAtTheEnd(s: State, last: Frame)
    requires last.Event? && last.kind == Completed && !last.hasSnapshot
    ensures var s1 := Observe(s, last);
            Sent(s, last) ==
              Opening(s1) + CompletionEvents(s1.flags, s1.core) + [NewCompleted(s1.id, OutputSnapshot(s1.core))]
  {
    hide Observe, CompletionEvents, OutputSnapshot;
  }

  lemma OneText(t: string)
    ensures Flatten([t]) == t && Flatten<char>([]) == ""
  {
  }

  lemma CompletionTells(g: Flags, c: Core, k: int, placed: bool, own: seq<string>)
    requires OneItem(c, k, placed, own)
    ensures var whole := if c.text != "" then c.text else Flatten(own);
            forall i :: 0 <= i < |CompletionEvents(g, c)| ==> Tells(CompletionEvents(g, c)[i], c.text, whole)
  {
    hide Flatten;
    OneText(c.text);
  }

  lemma SnapshotOfOne(c: Core, k: int, placed: bool, own: seq<string>)
    requires OneItem(c, k, placed, own)
    ensures IsAnswer(OutputSnapshot(c), if c.text != "" then c.text else Flatten(own))
  {
    hide Flatten;
    OneText(c.text);
    var out := OutputSnapshot(c);
    if c.items != map[] {
      assert Ascending([k]) && Elems([k]) == {k};
      SortedIsUnique(Sorted(c.items.Keys), [k]);
    }
    if out != [] {
      TextInOne(out[0]);
      assert out == [out[0]];
    }
  }

  lemma TextInOne(item: Item)
    ensures TextIn([item]) == Flatten(item.texts)
  {
    assert [item][..0] == [];
    assert "" + Flatten(item.texts) == Flatten(item.texts);
  }

  /** A delta only the header names reaches the client and nobody else: the answer tells "a" where the
    * client was sent "ab". */
  lemma UnheardTextIsLost()
    ensures var frames := [Plain(TextDelta, true, "a"), Plain(TextDelta, false, "b")];
            var last := Plain(Completed, true, "");
            var more := Sent(StateAfter(NewState("r"), frames), last);
            && SentText(Output(NewState("r"), frames + [last])) == "ab"
            && more != [] && more[|more| - 1].NewCompleted? && TextIn(more[|more| - 1].output) == "a"
  {
    hide StateAfter, Sent, TextIn, Output, SentText;
    var f0, f1, last := Plain(TextDelta, true, "a"), Plain(TextDelta, false, "b"), Plain(Completed, true, "");
    var frames := [f0, f1];
    assert frames[..1] == [f0] && [f0][..0] == [];
    assert (frames + [last])[..2] == frames && (frames + [last])[2] == last;
    assert [] + [f0] == [f0] && [f0] + [f1] == frames;
    TextSnoc([], f0);
    TextSnoc([f0], f1);
    assert "" + "a" == "a" && "a" + "b" == "ab";
    SingleSnoc([], f0, 0);
    SingleSnoc([f0], f1, 0);
    SingleSnoc(frames, last, 0);
    hide Heard, Said, SingleMessage, OwnTexts;
    SnapshotTellsTheDeltas("r", frames, last, 0);
    AllIsSent("r", frames + [last]);
    TextSnoc(frames, last);
  }

  /** Alone, such a delta is answered by nothing. */
  lemma UnheardAnswerIsEmpty()
    ensures var frames, last := [Plain(TextDelta, false, "b")], Plain(Completed, true, "");
            var more := Sent(StateAfter(NewState("r"), frames), last);
            && SentText(Output(NewState("r"), frames + [last])) == "b"
            && more != [] && more[|more| - 1].NewCompleted? && TextIn(more[|more| - 1].output) == ""
  {
    hide StateAfter, Sent, TextIn, Output, SentText;
    var f0, last := Plain(TextDelta, false, "b"), Plain(Completed, true, "");
    var frames := [f0];
    assert frames[..0] == [];
    assert (frames + [last])[..1] == frames && (frames + [last])[1] == last;
    assert [] + [f0] == frames && "" + "b" == "b";
    TextSnoc([], f0);
    assert OwnTexts(frames) == [] && Flatten<char>([]) == "" by { OneText(""); }
    SingleSnoc([], f0, 0);
    SingleSnoc(frames, last, 0);
    hide Heard, Said, SingleMessage, OwnTexts;
    SnapshotTellsTheDeltas("r", frames, last, 0);
    AllIsSent("r", frames + [last]);
    TextSnoc(frames, last);
  }
}
