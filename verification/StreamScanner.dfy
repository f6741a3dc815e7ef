/** The incremental scanner that cuts complete JSON objects out of the upstream byte stream. */
module StreamScanner {
  import opened Common

  const QUOTE: Byte := 34
  const BACKSLASH: Byte := 92
  const OPEN: Byte := 123
  const CLOSE: Byte := 125

  const READ_SIZE := 16 * 1024
  const MAX_BUFFER := 4 * 1024 * 1024

  // ---------------------------------------------------------------- one-pass reference

  datatype Mode = Mode(depth: int, inString: bool, escape: bool)

  const OUTSIDE := Mode(0, false, false)

  function Next(m: Mode, ch: Byte): Mode {
    if m.escape then m.(escape := false)
    else if ch == BACKSLASH then m.(escape := true)
    else if ch == QUOTE then m.(inString := !m.inString)
    else if m.inString then m
    else if ch == OPEN then m.(depth := m.depth + 1)
    else if ch == CLOSE then m.(depth := m.depth - 1)
    else m
  }

  /** Objects found so far, and the text and mode of the object being read, if any. */
  datatype Scan = Scan(found: seq<seq<Byte>>, text: seq<Byte>, mode: Mode)

  const BLANK := Scan([], [], OUTSIDE)

  function Feed(s: Scan, ch: Byte): Scan {
    if s.text == [] && ch != OPEN then s
    else
      var m := Next(s.mode, ch);
      if m.depth == 0 then Scan(s.found + [s.text + [ch]], [], OUTSIDE)
      else Scan(s.found, s.text + [ch], m)
  }

  function FeedAll(s: Scan, bytes: seq<Byte>): (r: Scan)
    decreases |bytes|
  {
    if bytes == [] then s else FeedAll(Feed(s, bytes[0]), bytes[1..])
  }

  /** The object texts of a whole input, read byte by byte in one pass. */
  function Split(bytes: seq<Byte>): seq<seq<Byte>> {
    FeedAll(BLANK, bytes).found
  }

  lemma {:induction false} FeedAllAppend(s: Scan, a: seq<Byte>, b: seq<Byte>)
    ensures FeedAll(s, a + b) == FeedAll(FeedAll(s, a), b)
    decreases |a|
  {
    if a == [] {
      assert a + b == b;
    } else {
      assert (a + b)[1..] == a[1..] + b;
      FeedAllAppend(Feed(s, a[0]), a[1..], b);
    }
  }

  /** Reading on never takes back an object that was found. */
  lemma {:induction false} FoundGrows(s: Scan, bytes: seq<Byte>)
    ensures s.found <= FeedAll(s, bytes).found
    decreases |bytes|
  {
    if bytes != [] {
      FoundGrows(Feed(s, bytes[0]), bytes[1..]);
    }
  }

  lemma FeedOne(s: Scan, ch: Byte)
    ensures FeedAll(s, [ch]) == Feed(s, ch)
  {
    assert [ch][1..] == [];
    assert FeedAll(Feed(s, ch), []) == Feed(s, ch);
  }

  /** The mode after reading `text` of one object, unless the object ends on the way. */
  function Skim(m: Mode, text: seq<Byte>): (r: Option<Mode>)
    decreases |text|
  {
    if text == [] then Some(m)
    else
      var n := Next(m, text[0]);
      if n.depth == 0 then None else Skim(n, text[1..])
  }

  lemma {:induction false} SkimFeeds(s: Scan, text: seq<Byte>)
    requires Skim(s.mode, text).Some? && (s.text == [] && text != [] ==> text[0] == OPEN)
    ensures FeedAll(s, text) == Scan(s.found, s.text + text, Skim(s.mode, text).value)
    decreases |text|
  {
    if text == [] {
      assert s.text + text == s.text;
    } else {
      SkimFeeds(Feed(s, text[0]), text[1..]);
      assert s.text + [text[0]] + text[1..] == s.text + text;
    }
  }

  lemma {:induction false} SkimAppend(m: Mode, a: seq<Byte>, b: seq<Byte>)
    requires Skim(m, a).Some?
    ensures Skim(m, a + b) == Skim(Skim(m, a).value, b)
    decreases |a|
  {
    if a == [] {
      assert a + b == b;
    } else {
      assert (a + b)[1..] == a[1..] + b;
      SkimAppend(Next(m, a[0]), a[1..], b);
    }
  }

  lemma SkimOneMore(m: Mode, buffer: seq<Byte>, lo: nat, hi: nat)
    requires lo <= hi < |buffer| && Skim(m, buffer[lo..hi]).Some?
    ensures var n := Next(Skim(m, buffer[lo..hi]).value, buffer[hi]);
            Skim(m, buffer[lo..hi + 1]) == if n.depth == 0 then None else Some(n)
  {
    assert buffer[lo..hi + 1] == buffer[lo..hi] + [buffer[hi]];
    SkimAppend(m, buffer[lo..hi], [buffer[hi]]);
    assert [buffer[hi]][1..] == [];
  }

  lemma {:induction false} FeedSkips(s: Scan, junk: seq<Byte>)
    requires s.text == [] && OPEN !in junk
    ensures FeedAll(s, junk) == s
    decreases |junk|
  {
    if junk != [] {
      FeedSkips(s, junk[1..]);
    }
  }

  // ---------------------------------------------------------------- delivery

  /** What the consumer says after an object; it may look at everything delivered so far. */
  datatype Verdict = Continue | Stop | Fail(id: nat)

  datatype Delivery<Obj> = Delivery(objects: seq<Obj>, verdict: Verdict)

  function Offer<Obj>(d: Delivery<Obj>, text: seq<Byte>, parse: seq<Byte> -> Option<Obj>,
                      judge: seq<Obj> -> Verdict): Delivery<Obj> {
    if d.verdict != Continue || parse(text).None? then d
    else
      var objects := d.objects + [parse(text).value];
      Delivery(objects, judge(objects))
  }

  /** Objects handed over, in order, until the consumer asks to stop; unparsable texts are skipped. */
  function Deliver<Obj>(texts: seq<seq<Byte>>, parse: seq<Byte> -> Option<Obj>,
                        judge: seq<Obj> -> Verdict): Delivery<Obj> {
    if texts == [] then Delivery([], Continue)
    else Offer(Deliver(texts[..|texts| - 1], parse, judge), texts[|texts| - 1], parse, judge)
  }

  lemma {:induction false} DeliverStops<Obj>(texts: seq<seq<Byte>>, more: seq<seq<Byte>>,
                                             parse: seq<Byte> -> Option<Obj>, judge: seq<Obj> -> Verdict)
    requires texts <= more && Deliver(texts, parse, judge).verdict != Continue
    ensures Deliver(more, parse, judge) == Deliver(texts, parse, judge)
    decreases |more|
  {
    if more != texts {
      DeliverStops(texts, more[..|more| - 1], parse, judge);
    }
  }

  /** The objects among the texts, in order. */
  function Parsed<Obj>(texts: seq<seq<Byte>>, parse: seq<Byte> -> Option<Obj>): (r: seq<Obj>) {
    if texts == [] then []
    else
      var front, last := Parsed(texts[..|texts| - 1], parse), parse(texts[|texts| - 1]);
      if last.Some? then front + [last.value] else front
  }

  /** The consumer has been handed the objects from the first one on; it told to go on after each but the
    * last; after the last it said `verdict`, and if that is to go on there was none left. */
  ghost predicate Handed<Obj>(objects: seq<Obj>, delivered: seq<Obj>, verdict: Verdict, judge: seq<Obj> -> Verdict) {
    && delivered <= objects
    && (forall k :: 0 < k < |delivered| ==> judge(objects[..k]) == Continue)
    && (if verdict == Continue then delivered == objects && (delivered != [] ==> judge(delivered) == Continue)
        else delivered != [] && judge(delivered) == verdict)
  }

  lemma {:induction false} DeliveryIsHanded<Obj>(texts: seq<seq<Byte>>, parse: seq<Byte> -> Option<Obj>,
                                                 judge: seq<Obj> -> Verdict)
    ensures var d := Deliver(texts, parse, judge); Handed(Parsed(texts, parse), d.objects, d.verdict, judge)
    decreases |texts|
  {
    if texts != [] {
      var front, text := texts[..|texts| - 1], texts[|texts| - 1];
      DeliveryIsHanded(front, parse, judge);
      var d, e := Deliver(front, parse, judge), Deliver(texts, parse, judge);
      var before, objects := Parsed(front, parse), Parsed(texts, parse);
      assert forall k :: 0 < k <= |before| ==> objects[..k] == before[..k];
      assert before[..|before|] == before;
    }
  }

  datatype ReadEnd = Eof | ContextDone | ReadError

  datatype ScanResult = Clean | Rejected(id: nat) | ContextFailure | ReadFailure

  function Result(verdict: Verdict, end: ReadEnd): ScanResult {
    match verdict
    case Stop => Clean
    case Fail(id) => Rejected(id)
    case Continue =>
      match end
      case Eof => Clean
      case ContextDone => ContextFailure
      case ReadError => ReadFailure
  }

  // ---------------------------------------------------------------- the scanner

  /** Position of the first `ch`, or -1. */
  method IndexByte(buffer: seq<Byte>, ch: Byte) returns (at: int)
    ensures at == -1 ==> ch !in buffer
    ensures at != -1 ==> 0 <= at < |buffer| && buffer[at] == ch && ch !in buffer[..at]
  {
    at := 0;
    while at < |buffer|
      invariant 0 <= at <= |buffer| && ch !in buffer[..at]
    {
      if buffer[at] == ch {
        return;
      }
      at := at + 1;
    }
    at := -1;
  }

  /** A place from which the scan of one object goes on: its opening brace, or further inside. */
  ghost predicate InObject(buffer: seq<Byte>, scanPos: nat, mode: Mode) {
    scanPos <= |buffer| && (mode.depth >= 1 || (mode == OUTSIDE && scanPos < |buffer| && buffer[scanPos] == OPEN))
  }

  /** Scans on from `scanPos` for the brace that ends the object. */
  method FindEnd(buffer: seq<Byte>, scanPos: nat, mode: Mode)
    returns (endIdx: int, braceCount: int, inString: bool, escape: bool)
    requires InObject(buffer, scanPos, mode)
    ensures endIdx == -1 ==>
            braceCount >= 1 && Skim(mode, buffer[scanPos..]) == Some(Mode(braceCount, inString, escape))
    ensures endIdx != -1 ==>
              && scanPos <= endIdx < |buffer| && Skim(mode, buffer[scanPos..endIdx]).Some?
              && Next(Skim(mode, buffer[scanPos..endIdx]).value, buffer[endIdx]).depth == 0
  {
    braceCount, inString, escape := mode.depth, mode.inString, mode.escape;
    var i := scanPos;
    assert buffer[scanPos..i] == [];
    while i < |buffer|
      invariant scanPos <= i <= |buffer|
      invariant InObject(buffer, i, Mode(braceCount, inString, escape))
      invariant Skim(mode, buffer[scanPos..i]) == Some(Mode(braceCount, inString, escape))
    {
      var ch := buffer[i];
      SkimOneMore(mode, buffer, scanPos, i);
      if escape {
        escape := false;
      } else if ch == BACKSLASH {
        escape := true;
      } else if ch == QUOTE {
        inString := !inString;
      } else if !inString {
        if ch == OPEN {
          braceCount := braceCount + 1;
        } else if ch == CLOSE {
          braceCount := braceCount - 1;
          if braceCount == 0 {
            return i, braceCount, inString, escape;
          }
        }
      }
      i := i + 1;
    }
    assert buffer[scanPos..i] == buffer[scanPos..];
    endIdx := -1;
  }

  /** The reference does the same with an object that goes on past the buffer ... */
  lemma Unfinished(texts: seq<seq<Byte>>, buffer: seq<Byte>, startIdx: nat, scanPos: nat, mode: Mode)
    requires startIdx <= scanPos <= |buffer| && InObject(buffer, scanPos, mode)
    requires Skim(mode, buffer[scanPos..]).Some? && (scanPos == startIdx ==> mode == OUTSIDE)
    ensures FeedAll(Scan(texts, buffer[startIdx..scanPos], mode), buffer[scanPos..]) ==
            Scan(texts, buffer[startIdx..], Skim(mode, buffer[scanPos..]).value)
  {
    SkimFeeds(Scan(texts, buffer[startIdx..scanPos], mode), buffer[scanPos..]);
    assert buffer[startIdx..scanPos] + buffer[scanPos..] == buffer[startIdx..];
  }

  /** ... and with an object that ends at `endIdx`. */
  lemma Finished(texts: seq<seq<Byte>>, buffer: seq<Byte>, startIdx: nat, scanPos: nat, mode: Mode, endIdx: nat)
    requires startIdx <= scanPos <= endIdx < |buffer| && InObject(buffer, scanPos, mode)
    requires scanPos == startIdx ==> mode == OUTSIDE
    requires Skim(mode, buffer[scanPos..endIdx]).Some?
    requires Next(Skim(mode, buffer[scanPos..endIdx]).value, buffer[endIdx]).depth == 0
    ensures FeedAll(Scan(texts, buffer[startIdx..scanPos], mode), buffer[scanPos..]) ==
            FeedAll(Scan(texts + [buffer[startIdx..endIdx + 1]], [], OUTSIDE), buffer[endIdx + 1..])
  {
    var s := Scan(texts, buffer[startIdx..scanPos], mode);
    var a, ch, b := buffer[scanPos..endIdx], buffer[endIdx], buffer[endIdx + 1..];
    assert buffer[scanPos..] == a + ([ch] + b);
    FeedAllAppend(s, a, [ch] + b);
    SkimFeeds(s, a);
    var s1 := FeedAll(s, a);
    FeedAllAppend(s1, [ch], b);
    FeedOne(s1, ch);
    assert s1.text == buffer[startIdx..endIdx];
    assert s1.text + [ch] == buffer[startIdx..endIdx + 1];
  }

  /** Bytes before the first opening brace belong to no object. */
  method FindStart(buffer: seq<Byte>, ghost texts: seq<seq<Byte>>) returns (startIdx: int)
    ensures startIdx == -1 ==> FeedAll(Scan(texts, [], OUTSIDE), buffer) == Scan(texts, [], OUTSIDE)
    ensures startIdx != -1 ==>
              && 0 <= startIdx < |buffer| && buffer[startIdx] == OPEN
              && FeedAll(Scan(texts, [], OUTSIDE), buffer) == FeedAll(Scan(texts, [], OUTSIDE), buffer[startIdx..])
  {
    startIdx := IndexByte(buffer, OPEN);
    ghost var at := if startIdx == -1 then |buffer| else startIdx;
    assert buffer == buffer[..at] + buffer[at..];
    FeedAllAppend(Scan(texts, [], OUTSIDE), buffer[..at], buffer[at..]);
    FeedSkips(Scan(texts, [], OUTSIDE), buffer[..at]);
  }

  /** What the scanner's variables stand for: the objects found and the text scanned of the next. */
  ghost function View(texts: seq<seq<Byte>>, buffer: seq<Byte>, startIdx: int, scanPos: nat, mode: Mode): Scan
    requires scanPos > 0 ==> 0 <= startIdx < scanPos <= |buffer|
  {
    if scanPos == 0 then Scan(texts, [], OUTSIDE) else Scan(texts, buffer[startIdx..scanPos], mode)
  }

  /** Between reads the buffer is empty, or it ends with one unfinished object scanned to its end. */
  ghost predicate AtRest(buffer: seq<Byte>, startIdx: int, scanPos: nat, mode: Mode) {
    && scanPos == |buffer|
    && (scanPos > 0 ==> 0 <= startIdx < scanPos && mode.depth >= 1)
  }

  /** Looks for the end of the next object: cuts the object off the buffer, or leaves the buffer
    * at rest. */
  method NextObject(buffer0: seq<Byte>, startIdx0: int, scanPos0: nat, mode0: Mode, ghost texts: seq<seq<Byte>>)
    returns (text: Option<seq<Byte>>, buffer: seq<Byte>, startIdx: int, scanPos: nat, mode: Mode)
    requires scanPos0 <= |buffer0|
    requires scanPos0 > 0 ==> 0 <= startIdx0 < scanPos0 && mode0.depth >= 1
    ensures var fed := FeedAll(View(texts, buffer0, startIdx0, scanPos0, mode0), buffer0[scanPos0..]);
            match text
            case Some(t) =>
              scanPos == 0 && |buffer| < |buffer0| && fed == FeedAll(Scan(texts + [t], [], OUTSIDE), buffer)
            case None =>
              AtRest(buffer, startIdx, scanPos, mode) && fed == View(texts, buffer, startIdx, scanPos, mode)
  {
    hide FeedAll;
    buffer, startIdx, scanPos, mode := buffer0, startIdx0, scanPos0, mode0;
    if scanPos == 0 {
      assert buffer[0..] == buffer;
      startIdx := FindStart(buffer, texts);
      if startIdx == -1 {
        buffer := [];
        return None, buffer, startIdx, scanPos, mode;
      }
      scanPos := startIdx;
      mode := OUTSIDE;
      assert buffer[startIdx..scanPos] == [];
    }
    var endIdx, braceCount, inString, escape := FindEnd(buffer, scanPos, mode);
    if endIdx == -1 {
      Unfinished(texts, buffer, startIdx, scanPos, mode);
      scanPos := |buffer|;
      mode := Mode(braceCount, inString, escape);
      assert buffer[startIdx..scanPos] == buffer[startIdx..];
      return None, buffer, startIdx, scanPos, mode;
    }
    Finished(texts, buffer, startIdx, scanPos, mode, endIdx);
    text := Some(buffer[startIdx..endIdx + 1]);
    buffer := buffer[endIdx + 1..];
    scanPos := 0;
    mode := Mode(braceCount, inString, escape);
  }

  /** Handles what one read has appended: hands over every object completed by it. */
  method Absorb<Obj>(buffer0: seq<Byte>, startIdx0: int, scanPos0: nat, mode0: Mode, delivered0: seq<Obj>,
                     parse: seq<Byte> -> Option<Obj>, judge: seq<Obj> -> Verdict, ghost texts0: seq<seq<Byte>>)
    returns (buffer: seq<Byte>, startIdx: int, scanPos: nat, mode: Mode, delivered: seq<Obj>, verdict: Verdict,
             ghost texts: seq<seq<Byte>>)
    requires scanPos0 <= |buffer0|
    requires scanPos0 > 0 ==> 0 <= startIdx0 < scanPos0 && mode0.depth >= 1
    requires Deliver(texts0, parse, judge) == Delivery(delivered0, Continue)
    ensures Deliver(texts, parse, judge) == Delivery(delivered, verdict)
    ensures Handed(Parsed(texts, parse), delivered, verdict, judge)
    ensures var fed := FeedAll(View(texts0, buffer0, startIdx0, scanPos0, mode0), buffer0[scanPos0..]);
            && texts <= fed.found
            && (verdict == Continue ==>
                  AtRest(buffer, startIdx, scanPos, mode) && fed == View(texts, buffer, startIdx, scanPos, mode))
  {
    buffer, startIdx, scanPos, mode, delivered, texts := buffer0, startIdx0, scanPos0, mode0, delivered0, texts0;
    ghost var fed := FeedAll(View(texts, buffer, startIdx, scanPos, mode), buffer[scanPos..]);
    verdict := Continue;
    var text;
    text, buffer, startIdx, scanPos, mode := NextObject(buffer, startIdx, scanPos, mode, texts);
    while text.Some?
      invariant verdict == Continue && Deliver(texts, parse, judge) == Delivery(delivered, Continue)
      invariant text.Some? ==> scanPos == 0 && fed == FeedAll(Scan(texts + [text.value], [], OUTSIDE), buffer)
      invariant text.None? ==>
                  AtRest(buffer, startIdx, scanPos, mode) && fed == View(texts, buffer, startIdx, scanPos, mode)
      decreases text.Some?, |buffer|
    {
      FoundGrows(Scan(texts + [text.value], [], OUTSIDE), buffer);
      var parsed := parse(text.value);
      texts := texts + [text.value];
      assert texts[..|texts| - 1] + [text.value] == texts;
      if parsed.Some? {
        delivered := delivered + [parsed.value];
        verdict := judge(delivered);
        if verdict != Continue {
          DeliveryIsHanded(texts, parse, judge);
          return;
        }
      }
      assert buffer[0..] == buffer;
      text, buffer, startIdx, scanPos, mode := NextObject(buffer, startIdx, scanPos, mode, texts);
    }
    DeliveryIsHanded(texts, parse, judge);
  }

  /** `scanStream` over the given network reads, the last of which reports `end`.  However the
    * bytes were cut into reads, the consumer is handed the objects of a one-pass split of the whole
    * input, each in turn, up to and including the one on which it stops; and the scan ends cleanly if it
    * was told to stop, with the consumer's error if there is one, and otherwise as reading ended. */
  method ScanStream<Obj>(chunks: seq<seq<Byte>>, end: ReadEnd,
                         parse: seq<Byte> -> Option<Obj>, judge: seq<Obj> -> Verdict)
    returns (delivered: seq<Obj>, result: ScanResult)
    requires forall i :: 0 <= i < |chunks| ==> |chunks[i]| <= READ_SIZE
    ensures var whole := Deliver(Split(Flatten(chunks)), parse, judge);
            delivered == whole.objects && result == Result(whole.verdict, end)
    ensures var objects := Parsed(Split(Flatten(chunks)), parse);
            if delivered == [] || judge(delivered) == Continue then
              && Handed(objects, delivered, Continue, judge)
              && (end == Eof ==> result == Clean)
              && (end == ContextDone ==> result == ContextFailure)
              && (end == ReadError ==> result == ReadFailure)
            else
              && Handed(objects, delivered, judge(delivered), judge)
              && result == (if judge(delivered) == Stop then Clean else Rejected(judge(delivered).id))
  {
    hide Parsed;
    DeliveryIsHanded(Split(Flatten(chunks)), parse, judge);
    delivered := [];
    var buffer: seq<Byte> := [];
    var scanPos: nat, startIdx, mode := 0, 0, OUTSIDE;
    ghost var texts: seq<seq<Byte>> := [];
    assert chunks[..0] == [];
    for r := 0 to |chunks|
      invariant AtRest(buffer, startIdx, scanPos, mode)
      invariant FeedAll(BLANK, Flatten(chunks[..r])) == View(texts, buffer, startIdx, scanPos, mode)
      invariant Deliver(texts, parse, judge) == Delivery(delivered, Continue)
    {
      assert chunks[..r + 1] == chunks[..r] + [chunks[r]];
      FlattenSnoc(chunks[..r], chunks[r]);
      FeedAllAppend(BLANK, Flatten(chunks[..r]), chunks[r]);
      ghost var before := buffer;
      buffer := buffer + chunks[r];
      assert buffer[scanPos..] == chunks[r];
      assert scanPos > 0 ==> buffer[startIdx..scanPos] == before[startIdx..scanPos];
      if |buffer| > MAX_BUFFER && mode.depth == 0 {
        assert false;  // the buffer is never reset, so no byte is ever dropped
      }
      var verdict;
      buffer, startIdx, scanPos, mode, delivered, verdict, texts :=
        Absorb(buffer, startIdx, scanPos, mode, delivered, parse, judge, texts);
      if verdict != Continue {
        StoppedEarly(chunks, r, texts, parse, judge);
        if verdict.Fail? {
          return delivered, Rejected(verdict.id);
        }
        return delivered, Clean;
      }
    }
    assert chunks[..|chunks|] == chunks;
    match end
    case Eof => return delivered, Clean;
    case ContextDone => return delivered, ContextFailure;
    case ReadError => return delivered, ReadFailure;
  }

  /** A consumer that stops within read `r` has seen what it would have seen of the whole input. */
  lemma StoppedEarly<Obj>(chunks: seq<seq<Byte>>, r: nat, texts: seq<seq<Byte>>,
                          parse: seq<Byte> -> Option<Obj>, judge: seq<Obj> -> Verdict)
    requires r < |chunks|
    requires texts <= FeedAll(BLANK, Flatten(chunks[..r + 1])).found
    requires Deliver(texts, parse, judge).verdict != Continue
    ensures Deliver(Split(Flatten(chunks)), parse, judge) == Deliver(texts, parse, judge)
  {
    var first, rest := chunks[..r + 1], chunks[r + 1..];
    assert chunks == first + rest;
    FlattenAppend(first, rest);
    FeedAllAppend(BLANK, Flatten(first), Flatten(rest));
    FoundGrows(FeedAll(BLANK, Flatten(first)), Flatten(rest));
    DeliverStops(texts, Split(Flatten(chunks)), parse, judge);
  }
}
