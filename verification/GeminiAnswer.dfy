/** One Gemini answer in its two client forms: a stream of deltas, and one response built from the
  * collected chunks.  The module models both and says exactly when they agree. */
module GeminiAnswer {
  import opened Common

  // ---------------------------------------------------------------- parts

  datatype Code = NoCode | Unreadable | Listing(text: string)

  /** The facts about a part the conversion looks at.  `call` is the name of a function call,
    * `image` the rendered inline image, `code` and `result` the rendered code parts. */
  datatype Part = Part(text: string, thought: bool, call: Option<string>, image: Option<string>,
                       code: Code, result: Code, extra: bool)

  predicate Blank(s: string) {
    forall c :: c in s ==> IsWhiteSpace(c)
  }

  predicate Named(p: Part) {
    p.call.Some? && !Blank(p.call.value)
  }

  function Shown(c: Code): string {
    if c.Listing? then c.text else ""
  }

  /** What a part adds to the content, to the reasoning and to the images of a message. */
  function TextOf(p: Part): string {
    if Named(p) || p.image.Some? || (p.thought && p.text != "") then ""
    else if p.text != "" then p.text
    else if p.code != NoCode then Shown(p.code)
    else Shown(p.result)
  }

  function ThoughtOf(p: Part): string {
    if !Named(p) && p.image.None? && p.thought then p.text else ""
  }

  function ImageOf(p: Part): string {
    if !Named(p) && p.image.Some? then p.image.value else ""
  }

  /** The contributions of a list of parts, joined in order. */
  function Join(f: Part -> string, parts: seq<Part>): (r: string)
  {
    if parts == [] then "" else Join(f, parts[..|parts| - 1]) + f(parts[|parts| - 1])
  }

  lemma JoinSnoc(f: Part -> string, parts: seq<Part>, p: Part)
    ensures Join(f, parts + [p]) == Join(f, parts) + f(p)
  {
    assert (parts + [p])[..|parts|] == parts;
  }

  lemma JoinNothing(f: Part -> string)
    ensures Join(f, []) == ""
  {
  }

  lemma {:induction false} JoinAppend(f: Part -> string, a: seq<Part>, b: seq<Part>)
    ensures Join(f, a + b) == Join(f, a) + Join(f, b)
    decreases |b|
  {
    hide Join;
    if b == [] {
      assert a + b == a;
      JoinNothing(f);
    } else {
      var front, last := b[..|b| - 1], b[|b| - 1];
      JoinAppend(f, a, front);
      JoinSnoc(f, a + front, last);
      JoinSnoc(f, front, last);
      assert b == front + [last];
      assert a + b == (a + front) + [last];
    }
  }

  /** Walks the parts of one message. */
  method ExtractParts(parts: seq<Part>) returns (content: string, reasoning: string, calls: nat)
    ensures content == Join(TextOf, parts) + Join(ImageOf, parts)
    ensures reasoning == Join(ThoughtOf, parts)
  {
    var texts, thoughts, images := "", "", "";
    calls := 0;
    for i := 0 to |parts|
      invariant texts == Join(TextOf, parts[..i])
      invariant thoughts == Join(ThoughtOf, parts[..i])
      invariant images == Join(ImageOf, parts[..i])
    {
      var p := parts[i];
      assert parts[..i + 1] == parts[..i] + [p];
      JoinSnoc(TextOf, parts[..i], p);
      JoinSnoc(ThoughtOf, parts[..i], p);
      JoinSnoc(ImageOf, parts[..i], p);
      if Named(p) {
        calls := calls + 1;
      } else if p.image.Some? {
        images := images + p.image.value;
      } else if p.thought && p.text != "" {
        thoughts := thoughts + p.text;
      } else if p.text != "" {
        texts := texts + p.text;
      } else if p.code != NoCode {
        if p.code.Listing? {
          texts := texts + p.code.text;
        }
      } else if p.result.Listing? {
        texts := texts + p.result.text;
      }
    }
    assert parts[..|parts|] == parts;
    content := texts + images;
    reasoning := thoughts;
  }

  // ---------------------------------------------------------------- merged parts

  /** A part the merger treats as text, whatever else it carries. */
  predicate IsBlock(p: Part) {
    !Blank(p.text)
  }

  /** What a part contributes once the merger has been over it. */
  function MergedText(p: Part): string {
    if IsBlock(p) then (if p.thought then "" else p.text) else TextOf(p)
  }

  function MergedThought(p: Part): string {
    if IsBlock(p) then (if p.thought then p.text else "") else ThoughtOf(p)
  }

  function MergedImage(p: Part): string {
    if IsBlock(p) then "" else ImageOf(p)
  }

  /** The light cleaning in front of the merger: drops unnamed calls, and parts left empty. */
  function CleanSimple(p: Part): Option<Part> {
    var c := if p.call.Some? && Blank(p.call.value) then p.(call := None) else p;
    if c.text == "" && !c.thought && c.call.None? && c.image.None? && c.code == NoCode && c.result == NoCode && !c.extra
    then None else Some(c)
  }

  function TextBlock(text: string, thought: bool): Part {
    Part(text, thought, None, None, NoCode, NoCode, false)
  }

  lemma BlockGrows(a: string, b: string)
    requires !Blank(a)
    ensures !Blank(a + b)
  {
    var c :| c in a && !IsWhiteSpace(c);
    assert c in a + b;
  }

  /** Cleaning changes nothing a part contributes. */
  lemma CleanKeeps(p: Part)
    ensures var c := CleanSimple(p);
            if c.None? then MergedText(p) == "" && MergedThought(p) == "" && MergedImage(p) == ""
            else
              && c.value.text == p.text && c.value.thought == p.thought
              && (!IsBlock(p) ==> TextOf(c.value) == MergedText(p) && ThoughtOf(c.value) == MergedThought(p) &&
                                  ImageOf(c.value) == MergedImage(p))
  {
  }

  ghost predicate Apart(merged: seq<Part>) {
    forall i :: 0 <= i < |merged| - 1 ==>
      !(IsBlock(merged[i]) && IsBlock(merged[i + 1]) && merged[i].thought == merged[i + 1].thought)
  }

  /** The merged list contributes what the parts would, text class by text class. */
  ghost predicate Stands(merged: seq<Part>, parts: seq<Part>) {
    && Join(TextOf, merged) == Join(MergedText, parts)
    && Join(ThoughtOf, merged) == Join(MergedThought, parts)
    && Join(ImageOf, merged) == Join(MergedImage, parts)
    && Apart(merged)
  }

  lemma StandsEmpty()
    ensures Stands([], [])
  {
  }

  lemma StandsWithout(merged: seq<Part>, parts: seq<Part>, p: Part)
    requires Stands(merged, parts) && CleanSimple(p).None?
    ensures Stands(merged, parts + [p])
  {
    CleanKeeps(p);
    JoinSnoc(MergedText, parts, p);
    JoinSnoc(MergedThought, parts, p);
    JoinSnoc(MergedImage, parts, p);
  }

  lemma StandsWith(merged: seq<Part>, parts: seq<Part>, p: Part, q: Part)
    requires Stands(merged, parts)
    requires TextOf(q) == MergedText(p) && ThoughtOf(q) == MergedThought(p) && ImageOf(q) == MergedImage(p)
    requires merged != [] && IsBlock(merged[|merged| - 1]) && IsBlock(q) ==> merged[|merged| - 1].thought != q.thought
    ensures Stands(merged + [q], parts + [p])
  {
    JoinSnoc(TextOf, merged, q);
    JoinSnoc(ThoughtOf, merged, q);
    JoinSnoc(ImageOf, merged, q);
    JoinSnoc(MergedText, parts, p);
    JoinSnoc(MergedThought, parts, p);
    JoinSnoc(MergedImage, parts, p);
  }

  /** Lengthening the last entry by what a part contributes. */
  lemma Lengthen(f: Part -> string, g: Part -> string, front: seq<Part>, last: Part, q: Part, parts: seq<Part>, p: Part)
    requires Join(f, front + [last]) == Join(g, parts) && f(q) == f(last) + g(p)
    ensures Join(f, front + [q]) == Join(g, parts + [p])
  {
    hide Join;
    JoinSnoc(f, front, last);
    JoinSnoc(f, front, q);
    JoinSnoc(g, parts, p);
    assert Join(f, front) + (f(last) + g(p)) == (Join(f, front) + f(last)) + g(p);
  }

  lemma ApartGrown(front: seq<Part>, last: Part, q: Part)
    requires IsBlock(last) && IsBlock(q) && last.thought == q.thought
    ensures Apart(front + [last]) ==> Apart(front + [q])
  {
    hide IsBlock;
    if Apart(front + [last]) {
      var a, b := front + [last], front + [q];
      forall i | 0 <= i < |b| - 1 ensures !(IsBlock(b[i]) && IsBlock(b[i + 1]) && b[i].thought == b[i + 1].thought) {
        assert !(IsBlock(a[i]) && IsBlock(a[i + 1]) && a[i].thought == a[i + 1].thought);
        assert b[i] == a[i] && (if i + 1 < |front| then b[i + 1] == a[i + 1] else a[i + 1] == last && b[i + 1] == q);
      }
    }
  }

  lemma StandsGrown(merged: seq<Part>, parts: seq<Part>, p: Part)
    requires merged != [] && Stands(merged, parts) && IsBlock(p)
    requires var last := merged[|merged| - 1]; IsBlock(last) && last == TextBlock(last.text, p.thought)
    ensures var q := TextBlock(merged[|merged| - 1].text + p.text, p.thought);
            IsBlock(q) && Stands(merged[..|merged| - 1] + [q], parts + [p])
  {
    var front, last := merged[..|merged| - 1], merged[|merged| - 1];
    var q := TextBlock(last.text + p.text, p.thought);
    BlockGrows(last.text, p.text);
    BlockSays(last.text, p.thought);
    BlockSays(q.text, p.thought);
    BlockSays(p.text, p.thought);
    BlockContributes(p);
    ApartGrown(front, last, q);
    hide Blank, IsBlock, Apart, TextOf, ThoughtOf, ImageOf, MergedText, MergedThought, MergedImage, Join;
    assert merged == front + [last];
    assert ImageOf(last) == "" && ImageOf(q) == "" && MergedImage(p) == "";
    Lengthen(TextOf, MergedText, front, last, q, parts, p);
    Lengthen(ThoughtOf, MergedThought, front, last, q, parts, p);
    Lengthen(ImageOf, MergedImage, front, last, q, parts, p);
  }

  /** A block says its text, in its own class. */
  lemma BlockSays(text: string, thought: bool)
    requires !Blank(text)
    ensures var q := TextBlock(text, thought);
            TextOf(q) == (if thought then "" else text) && ThoughtOf(q) == (if thought then text else "") &&
              ImageOf(q) == ""
  {
    NonEmpty(text);
  }

  lemma NonEmpty(s: string)
    requires !Blank(s)
    ensures s != ""
  {
  }

  lemma BlockContributes(p: Part)
    requires IsBlock(p)
    ensures var q := TextBlock(p.text, p.thought);
            IsBlock(q) && TextOf(q) == MergedText(p) && ThoughtOf(q) == MergedThought(p) && ImageOf(q) == MergedImage(p)
  {
    NonEmpty(p.text);
  }

  /** Joins neighbouring text parts of one class; `open` says that the last merged part may grow. */
  method MergeContentBlocks(parts: seq<Part>) returns (merged: seq<Part>)
    ensures Stands(merged, parts)
  {
    hide Stands, TextOf, ThoughtOf, ImageOf, MergedText, MergedThought, MergedImage, CleanSimple, Blank;
    merged := [];
    var open := false;
    StandsEmpty();
    for i := 0 to |parts|
      invariant Stands(merged, parts[..i])
      invariant merged != [] && IsBlock(merged[|merged| - 1]) ==> open
      invariant open ==> merged != [] && IsBlock(merged[|merged| - 1]) &&
                         merged[|merged| - 1] == TextBlock(merged[|merged| - 1].text, merged[|merged| - 1].thought)
    {
      var p := parts[i];
      assert parts[..i + 1] == parts[..i] + [p];
      var cleaned := CleanSimple(p);
      CleanKeeps(p);
      if cleaned.None? {
        StandsWithout(merged, parts[..i], p);
      } else if !IsBlock(cleaned.value) {
        StandsWith(merged, parts[..i], p, cleaned.value);
        merged := merged + [cleaned.value];
        open := false;
      } else if open && merged[|merged| - 1].thought == p.thought {
        StandsGrown(merged, parts[..i], p);
        merged := merged[..|merged| - 1] + [TextBlock(merged[|merged| - 1].text + p.text, p.thought)];
      } else {
        BlockContributes(p);
        StandsWith(merged, parts[..i], p, TextBlock(p.text, p.thought));
        merged := merged + [TextBlock(p.text, p.thought)];
        open := true;
      }
    }
    assert parts[..|parts|] == parts;
  }
}
