/** What a strict Responses client can rely on, whatever the upstream sends. */
module ResponsesTheorems {
  import opened Common
  import opened ResponsesRepair

  // ---------------------------------------------------------------- classes of events

  predicate IsCreated(o: Out) {
    o.NewCreated? || (o.Through? && o.frame.Event? && o.frame.kind == Created)
  }

  /** A response.* event other than response.created. */
  predicate NeedsCreated(o: Out) {
    !IsCreated(o) && !(o.Through? && o.frame.Raw?)
  }

  predicate IsItemAdded(o: Out) {
    o.NewItemAdded? || (o.Through? && Noted(o.frame, ItemAdded))
  }

  predicate IsPartAdded(o: Out) {
    o.NewPartAdded? || (o.Through? && Noted(o.frame, PartAdded))
  }

  predicate IsTextDelta(o: Out) {
    o.Through? && o.frame.Event? && o.frame.kind == TextDelta
  }

  predicate IsArgsDelta(o: Out) {
    o.Through? && o.frame.Event? && o.frame.kind == ArgsDelta
  }

  ghost predicate Has(out: seq<Out>, a: Out -> bool) {
    exists j :: 0 <= j < |out| && a(out[j])
  }

  /** Every `b` in the stream comes after some `a`. */
  ghost predicate Precedes(out: seq<Out>, a: Out -> bool, b: Out -> bool) {
    forall i :: 0 <= i < |out| && b(out[i]) ==> Has(out[..i], a)
  }

  lemma HasAppend(out: seq<Out>, more: seq<Out>, a: Out -> bool)
    ensures Has(out + more, a) <==> Has(out, a) || Has(more, a)
  {
    if Has(out, a) {
      var j :| 0 <= j < |out| && a(out[j]);
      assert a((out + more)[j]);
    }
    if Has(more, a) {
      var j :| 0 <= j < |more| && a(more[j]);
      assert a((out + more)[|out| + j]);
    }
  }

  lemma PrecedesAppend(out: seq<Out>, more: seq<Out>, a: Out -> bool, b: Out -> bool)
    requires Precedes(out, a, b) && (Has(out, a) || Precedes(more, a, b))
    ensures Precedes(out + more, a, b)
  {
    forall i | 0 <= i < |out + more| && b((out + more)[i]) ensures Has((out + more)[..i], a) {
      if i < |out| {
        assert (out + more)[..i] == out[..i];
      } else {
        assert (out + more)[..i] == out + more[..i - |out|];
        HasAppend(out, more[..i - |out|], a);
      }
    }
  }

  /** A frame without item and indexes. */
  function Plain(kind: Kind, typed: bool, delta: string): Frame {
    Event(kind, typed, true, true, false, delta, None, None, None, None, "", false)
  }

  // ---------------------------------------------------------------- one frame

  /** The opening flags and the text after a frame, whatever it was. */
  lemma ProcessFlags(s: State, f: Frame)
    ensures var r := Process(s, f);
            && r.created == (s.created || f.Event?)
            && r.flags.outputAdded == (s.flags.outputAdded || Noted(f, ItemAdded) ||
                                       (f.Event? && (f.kind == TextDelta || f.kind == ArgsDelta)))
            && r.flags.contentAdded ==
              (s.flags.contentAdded || Noted(f, PartAdded) || (f.Event? && f.kind == TextDelta))
            && r.core.text == if Noted(f, TextDelta) then s.core.text + f.delta else s.core.text
  {
    hide ObserveItems, FrameItemID, MessageID, CurrentItem;
  }

  /** An event that announces or closes something is forwarded as it is. */
  lemma BodyForwards(s: State, f: Frame)
    requires f.Event? && f.kind != TextDelta && f.kind != ArgsDelta && f.kind != Completed
    ensures Body(s, f) == [Through(f)]
  {
  }

  lemma StepCreates(s: State, f: Frame)
    ensures Process(s, f).created ==> s.created || Has(Sent(s, f), IsCreated)
    ensures s.created || Precedes(Sent(s, f), IsCreated, NeedsCreated)
  {
    hide Body, Process;
    ProcessFlags(s, f);
    var more := Sent(s, f);
    if !s.created && f.Event? {
      assert IsCreated(more[0]);
      assert Has(more, IsCreated);
      forall i | 0 <= i < |more| && NeedsCreated(more[i]) ensures Has(more[..i], IsCreated) {
        assert more[..i][0] == more[0];
      }
    }
  }

  /** Nothing is announced by the opening event, and nothing in it needs an announcement. */
  lemma OpeningIsNeutral(s: State, more: seq<Out>, a: Out -> bool, b: Out -> bool)
    requires Precedes(more, a, b) && !b(NewCreated(s.id))
    ensures Precedes(Opening(s) + more, a, b)
  {
    if s.created {
      assert Opening(s) + more == more;
    } else {
      forall i | 0 <= i < |Opening(s) + more| && b((Opening(s) + more)[i]) ensures Has((Opening(s) + more)[..i], a) {
        assert Has(more[..i - 1], a);
        assert (Opening(s) + more)[..i] == Opening(s) + more[..i - 1];
        HasAppend(Opening(s), more[..i - 1], a);
      }
    }
  }

  lemma BodyAddsItem(s: State, f: Frame)
    requires f.Event?
    ensures (f.kind == TextDelta || f.kind == ArgsDelta) && !s.flags.outputAdded ==> Has(Body(s, f), IsItemAdded)
    ensures s.flags.outputAdded || Precedes(Body(s, f), IsItemAdded, IsTextDelta)
    ensures s.flags.outputAdded || Precedes(Body(s, f), IsItemAdded, IsArgsDelta)
  {
    hide CompletionEvents, OutputSnapshot, CurrentItem, Finished;
    var more := Body(s, f);
    if !s.flags.outputAdded && (f.kind == TextDelta || f.kind == ArgsDelta) {
      assert IsItemAdded(more[0]);
      forall i | 0 <= i < |more| && (IsTextDelta(more[i]) || IsArgsDelta(more[i])) ensures Has(more[..i], IsItemAdded) {
        assert more[..i][0] == more[0];
      }
    } else if f.kind == Completed {
      ClosingsOnly(s);
    }
  }

  lemma ClosingsOnly(s: State)
    ensures forall o :: o in CompletionEvents(s.flags, s.core) ==> !o.Through? && !o.NewCreated?
  {
  }

  lemma BodyAddsPart(s: State, f: Frame)
    requires f.Event?
    ensures f.kind == TextDelta && !s.flags.contentAdded ==> Has(Body(s, f), IsPartAdded)
    ensures s.flags.contentAdded || Precedes(Body(s, f), IsPartAdded, IsTextDelta)
  {
    hide CompletionEvents, OutputSnapshot, CurrentItem, Finished;
    var more := Body(s, f);
    var n := |more|;
    if !s.flags.contentAdded && f.kind == TextDelta {
      assert IsPartAdded(more[n - 2]);
      forall i | 0 <= i < n && IsTextDelta(more[i]) ensures Has(more[..i], IsPartAdded) {
        assert more[..i][n - 2] == more[n - 2];
      }
    } else if f.kind == Completed {
      ClosingsOnly(s);
    }
  }

  lemma StepAddsItem(s: State, f: Frame)
    ensures Process(s, f).flags.outputAdded ==> s.flags.outputAdded || Has(Sent(s, f), IsItemAdded)
    ensures s.flags.outputAdded || (Precedes(Sent(s, f), IsItemAdded, IsTextDelta) &&
            Precedes(Sent(s, f), IsItemAdded, IsArgsDelta))
  {
    hide Body, Process, ObserveCore;
    ProcessFlags(s, f);
    if f.Event? && f.kind != Created {
      var s1 := Observe(s, f);
      BodyAddsItem(s1, f);
      HasAppend(Opening(s1), Body(s1, f), IsItemAdded);
      if Noted(f, ItemAdded) {
        BodyForwards(s1, f);
        assert IsItemAdded(Body(s1, f)[0]);
      } else if !s.flags.outputAdded {
        OpeningIsNeutral(s1, Body(s1, f), IsItemAdded, IsTextDelta);
        OpeningIsNeutral(s1, Body(s1, f), IsItemAdded, IsArgsDelta);
      }
    }
  }

  lemma StepAddsPart(s: State, f: Frame)
    ensures Process(s, f).flags.contentAdded ==> s.flags.contentAdded || Has(Sent(s, f), IsPartAdded)
    ensures s.flags.contentAdded || Precedes(Sent(s, f), IsPartAdded, IsTextDelta)
  {
    hide Body, Process, ObserveCore;
    ProcessFlags(s, f);
    if f.Event? && f.kind != Created {
      var s1 := Observe(s, f);
      BodyAddsPart(s1, f);
      HasAppend(Opening(s1), Body(s1, f), IsPartAdded);
      if Noted(f, PartAdded) {
        BodyForwards(s1, f);
        assert IsPartAdded(Body(s1, f)[0]);
      } else if !s.flags.contentAdded {
        OpeningIsNeutral(s1, Body(s1, f), IsPartAdded, IsTextDelta);
      }
    }
  }

  // ---------------------------------------------------------------- the whole stream: opening

  ghost predicate Opened(s: State, out: seq<Out>) {
    && (s.created ==> Has(out, IsCreated)) && Precedes(out, IsCreated, NeedsCreated)
    && (s.flags.outputAdded ==> Has(out, IsItemAdded))
    && Precedes(out, IsItemAdded, IsTextDelta) && Precedes(out, IsItemAdded, IsArgsDelta)
    && (s.flags.contentAdded ==> Has(out, IsPartAdded)) && Precedes(out, IsPartAdded, IsTextDelta)
  }

  lemma OpenedStep(s: State, out: seq<Out>, f: Frame)
    requires Opened(s, out)
    ensures Opened(Process(s, f), out + Sent(s, f))
  {
    hide Process, Sent;
    var more := Sent(s, f);
    StepCreates(s, f);
    StepAddsItem(s, f);
    StepAddsPart(s, f);
    HasAppend(out, more, IsCreated);
    HasAppend(out, more, IsItemAdded);
    HasAppend(out, more, IsPartAdded);
    PrecedesAppend(out, more, IsCreated, NeedsCreated);
    PrecedesAppend(out, more, IsItemAdded, IsTextDelta);
    PrecedesAppend(out, more, IsItemAdded, IsArgsDelta);
    PrecedesAppend(out, more, IsPartAdded, IsTextDelta);
  }

  lemma {:induction false} OpenedAll(id: string, frames: seq<Frame>)
    ensures Opened(StateAfter(NewState(id), frames), Output(NewState(id), frames))
    decreases |frames|
  {
    if frames != [] {
      var front := frames[..|frames| - 1];
      OpenedAll(id, front);
      OpenedStep(StateAfter(NewState(id), front), Output(NewState(id), front), frames[|frames| - 1]);
    }
  }

  /** For every upstream stream: response.created comes before every other response event, an item
    * and a content part are announced before the first text delta, and an item before the first
    * function-argument delta. */
  lemma LifecycleOpens(id: string, frames: seq<Frame>)
    ensures var out := Output(NewState(id), frames);
            && Precedes(out, IsCreated, NeedsCreated)
            && Precedes(out, IsItemAdded, IsTextDelta)
            && Precedes(out, IsPartAdded, IsTextDelta)
            && Precedes(out, IsItemAdded, IsArgsDelta)
  {
    OpenedAll(id, frames);
  }

  /** The identifier the repairer falls back to when a frame names an empty one. */
  function FallbackID(s: State, f: Frame): string
    requires f.Event?
  {
    if f.item.Some? && f.item.value.id != "" then f.item.value.id else s.core.itemID
  }

  /** Does the delta name what the repairer takes it to name?  A readable one does unless it names an
    * empty identifier; an unreadable one only if it names what is known already, or nothing. */
  predicate NamesItself(s: State, f: Frame)
    requires f.Event?
  {
    if f.decodes then f.itemID != Some("") || FallbackID(s, f) == ""
    else
      && (f.itemID.None? || f.itemID.value == s.core.itemID)
      && (f.outputIndex.None? || f.outputIndex.value == s.core.outputIndex)
      && (f.contentIndex.None? || f.contentIndex.value == s.core.contentIndex)
  }

  /** A delta whose content part was made up names exactly the item, output and part made up, if and
    * only if it names itself. */
  lemma InventedPartMatchesDelta(s: State, f: Frame)
    requires f.Event? && f.kind == TextDelta && !s.flags.contentAdded
    ensures var more := Body(Observe(s, f), f);
            var n := |more|;
            && n >= 2 && more[n - 2].NewPartAdded? && more[n - 1].Through? && more[n - 1].frame.Event?
            && (NamesItself(s, f) <==>
                  && more[n - 1].frame.itemID == Some(more[n - 2].itemID)
                  && more[n - 1].frame.outputIndex == Some(more[n - 2].index)
                  && more[n - 1].frame.contentIndex == Some(more[n - 2].contentIndex))
  {
    var s1 := Observe(s, f);
    assert Body(s1, f) == EnsureOutput(s1) +
                          [NewPartAdded(s1.core.itemID, s1.core.outputIndex, s1.core.contentIndex)] +
                          [Through(NormalizeDelta(s1.core, f))];
  }
}
