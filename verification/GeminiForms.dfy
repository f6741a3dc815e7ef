/** The streamed and the collected form of one Gemini answer, and exactly when they agree. */
module GeminiForms {
  import opened Common
  import opened GeminiAnswer

  /** `index` as upstream gave it, if it did. */
  datatype Candidate = Candidate(index: Option<int>, parts: seq<Part>)

  type Chunk = seq<Candidate>

  function IndexOf(c: Candidate, position: int): int {
    if c.index.Some? then c.index.value else position
  }

  /** The part lists a chunk, or a stream of chunks, holds for candidate `k`, in order. */
  function Lists(chunk: Chunk, k: int): (r: seq<seq<Part>>) {
    if chunk == [] then []
    else
      var n := |chunk| - 1;
      Lists(chunk[..n], k) + (if IndexOf(chunk[n], n) == k then [chunk[n].parts] else [])
  }

  function AllLists(chunks: seq<Chunk>, k: int): (r: seq<seq<Part>>) {
    if chunks == [] then []
    else AllLists(chunks[..|chunks| - 1], k) + Lists(chunks[|chunks| - 1], k)
  }

  lemma ListsSnoc(chunk: Chunk, i: nat, k: int)
    requires i < |chunk|
    ensures Lists(chunk[..i + 1], k) ==
            Lists(chunk[..i], k) + (if IndexOf(chunk[i], i) == k then [chunk[i].parts] else [])
  {
    assert chunk[..i + 1][..i] == chunk[..i];
  }

  lemma AllListsSnoc(chunks: seq<Chunk>, i: nat, k: int)
    requires i < |chunks|
    ensures AllLists(chunks[..i + 1], k) == AllLists(chunks[..i], k) + Lists(chunks[i], k)
  {
    assert chunks[..i + 1][..i] == chunks[..i];
  }

  // ---------------------------------------------------------------- the streamed form

  datatype Delta = Reasoning(index: int, text: string) | Content(index: int, text: string) | Calls(index: int)

  function ContentIn(events: seq<Delta>, k: int): (r: string) {
    if events == [] then ""
    else
      var e := events[|events| - 1];
      ContentIn(events[..|events| - 1], k) + (if e.Content? && e.index == k then e.text else "")
  }

  function ReasoningIn(events: seq<Delta>, k: int): (r: string) {
    if events == [] then ""
    else
      var e := events[|events| - 1];
      ReasoningIn(events[..|events| - 1], k) + (if e.Reasoning? && e.index == k then e.text else "")
  }

  lemma InSnoc(a: seq<Delta>, e: Delta, k: int)
    ensures ContentIn(a + [e], k) == ContentIn(a, k) + (if e.Content? && e.index == k then e.text else "")
    ensures ReasoningIn(a + [e], k) == ReasoningIn(a, k) + (if e.Reasoning? && e.index == k then e.text else "")
  {
    assert (a + [e])[..|a|] == a;
  }

  lemma InNothing(k: int)
    ensures ContentIn([], k) == "" && ReasoningIn([], k) == ""
  {
  }

  lemma {:induction false} InAppend(a: seq<Delta>, b: seq<Delta>, k: int)
    ensures ContentIn(a + b, k) == ContentIn(a, k) + ContentIn(b, k)
    ensures ReasoningIn(a + b, k) == ReasoningIn(a, k) + ReasoningIn(b, k)
    decreases |b|
  {
    hide ContentIn, ReasoningIn;
    if b == [] {
      assert a + b == a;
      InNothing(k);
    } else {
      var front, e := b[..|b| - 1], b[|b| - 1];
      InAppend(a, front, k);
      InSnoc(front, e, k);
      InSnoc(a + front, e, k);
      assert b == front + [e];
      assert a + b == (a + front) + [e];
    }
  }

  function StreamContent(lists: seq<seq<Part>>): (r: string) {
    if lists == [] then ""
    else
      var l := lists[|lists| - 1];
      StreamContent(lists[..|lists| - 1]) + (Join(TextOf, l) + Join(ImageOf, l))
  }

  function StreamReasoning(lists: seq<seq<Part>>): (r: string) {
    if lists == [] then ""
    else StreamReasoning(lists[..|lists| - 1]) + Join(ThoughtOf, lists[|lists| - 1])
  }

  lemma {:induction false} StreamAppend(a: seq<seq<Part>>, b: seq<seq<Part>>)
    ensures StreamContent(a + b) == StreamContent(a) + StreamContent(b)
    ensures StreamReasoning(a + b) == StreamReasoning(a) + StreamReasoning(b)
    decreases |b|
  {
    hide StreamContent, StreamReasoning, Join;
    if b == [] {
      assert a + b == a;
      Empties();
    } else {
      var front, l := b[..|b| - 1], b[|b| - 1];
      StreamAppend(a, front);
      OneList(front, l);
      OneList(a + front, l);
      assert b == front + [l];
      assert a + b == (a + front) + [l];
    }
  }

  /** The deltas say, for every candidate, what its part lists say. */
  ghost predicate Tells(events: seq<Delta>, chunks: seq<Chunk>, k: int) {
    && ContentIn(events, k) == StreamContent(AllLists(chunks, k))
    && ReasoningIn(events, k) == StreamReasoning(AllLists(chunks, k))
  }

  /** The events of one candidate: empty deltas are not sent. */
  function CandidateEvents(k: int, content: string, reasoning: string, calls: nat): seq<Delta> {
    (if reasoning != "" then [Reasoning(k, reasoning)] else []) +
    (if content != "" then [Content(k, content)] else []) +
    (if calls > 0 then [Calls(k)] else [])
  }

  lemma CandidateTells(k: int, content: string, reasoning: string, calls: nat, j: int)
    ensures ContentIn(CandidateEvents(k, content, reasoning, calls), j) == if j == k then content else ""
    ensures ReasoningIn(CandidateEvents(k, content, reasoning, calls), j) == if j == k then reasoning else ""
  {
    hide ContentIn, ReasoningIn;
    var a := if reasoning != "" then [Reasoning(k, reasoning)] else [];
    var b := if content != "" then [Content(k, content)] else [];
    var c := if calls > 0 then [Calls(k)] else [];
    InAppend(a + b, c, j);
    InAppend(a, b, j);
    InNothing(j);
    SingleIn(Reasoning(k, reasoning), j);
    SingleIn(Content(k, content), j);
    SingleIn(Calls(k), j);
  }

  lemma SingleIn(e: Delta, j: int)
    ensures ContentIn([e], j) == if e.Content? && e.index == j then e.text else ""
    ensures ReasoningIn([e], j) == if e.Reasoning? && e.index == j then e.text else ""
  {
    assert [e][..0] == [];
  }

  method ConvertRealtimeChunk(chunk: Chunk) returns (events: seq<Delta>)
    ensures forall k :: ContentIn(events, k) == StreamContent(Lists(chunk, k))
    ensures forall k :: ReasoningIn(events, k) == StreamReasoning(Lists(chunk, k))
  {
    hide ContentIn, ReasoningIn, StreamContent, StreamReasoning, Lists;
    events := [];
    forall k ensures ContentIn([], k) == StreamContent(Lists([], k)) &&
      ReasoningIn([], k) == StreamReasoning(Lists([], k)) {
      Nothing(k);
    }
    assert chunk[..0] == [];
    for position := 0 to |chunk|
      invariant forall k :: ContentIn(events, k) == StreamContent(Lists(chunk[..position], k))
      invariant forall k :: ReasoningIn(events, k) == StreamReasoning(Lists(chunk[..position], k))
    {
      var candidateIndex := IndexOf(chunk[position], position);
      var content, reasoning, calls := ExtractParts(chunk[position].parts);
      ghost var before := events;
      var own: seq<Delta> := [];
      if reasoning != "" {
        own := own + [Reasoning(candidateIndex, reasoning)];
      }
      if content != "" {
        own := own + [Content(candidateIndex, content)];
      }
      if calls > 0 {
        own := own + [Calls(candidateIndex)];
      }
      assert own == CandidateEvents(candidateIndex, content, reasoning, calls);
      events := events + own;
      forall k ensures ContentIn(events, k) == StreamContent(Lists(chunk[..position + 1], k))
               ensures ReasoningIn(events, k) == StreamReasoning(Lists(chunk[..position + 1], k)) {
        InAppend(before, own, k);
        CandidateTells(candidateIndex, content, reasoning, calls, k);
        ListsSnoc(chunk, position, k);
        OneList(Lists(chunk[..position], k), chunk[position].parts);
      }
    }
    assert chunk[..|chunk|] == chunk;
  }

  lemma Nothing(k: int)
    ensures ContentIn([], k) == StreamContent(Lists([], k)) && ReasoningIn([], k) == StreamReasoning(Lists([], k))
  {
  }

  lemma OneList(lists: seq<seq<Part>>, l: seq<Part>)
    ensures StreamContent(lists + [l]) == StreamContent(lists) + (Join(TextOf, l) + Join(ImageOf, l))
    ensures StreamReasoning(lists + [l]) == StreamReasoning(lists) + Join(ThoughtOf, l)
    ensures lists + [] == lists
    ensures StreamContent(lists) + "" == StreamContent(lists) && StreamReasoning(lists) + "" == StreamReasoning(lists)
  {
    assert (lists + [l])[..|lists|] == lists;
  }

  method StreamAnswer(chunks: seq<Chunk>) returns (events: seq<Delta>)
    ensures forall k :: Tells(events, chunks, k)
  {
    hide ContentIn, ReasoningIn, StreamContent, StreamReasoning, Lists, AllLists;
    events := [];
    forall k ensures Tells([], [], k) {
      NothingAtAll(k);
    }
    assert chunks[..0] == [];
    for i := 0 to |chunks|
      invariant forall k :: Tells(events, chunks[..i], k)
    {
      var own := ConvertRealtimeChunk(chunks[i]);
      ghost var before := events;
      events := events + own;
      var upTo := chunks[..i + 1];
      forall k ensures Tells(events, upTo, k) {
        assert Tells(before, chunks[..i], k);
        InAppend(before, own, k);
        AllListsSnoc(chunks, i, k);
        StreamAppend(AllLists(chunks[..i], k), Lists(chunks[i], k));
      }
    }
    assert chunks[..|chunks|] == chunks;
  }

  lemma NothingAtAll(k: int)
    ensures Tells([], [], k)
  {
  }

  // ---------------------------------------------------------------- the collected form

  function PartsOf(chunks: seq<Chunk>, k: int): seq<Part> {
    Flatten(AllLists(chunks, k))
  }

  /** Collectors hold, for every candidate seen, all its parts in order. */
  ghost predicate Gathered(collectors: map<int, seq<Part>>, lists: int -> seq<seq<Part>>) {
    forall k :: (k in collectors <==> lists(k) != []) && (k in collectors ==> collectors[k] == Flatten(lists(k)))
  }

  method CollectChunk(collectors0: map<int, seq<Part>>, chunk: Chunk, ghost before: int -> seq<seq<Part>>)
    returns (collectors: map<int, seq<Part>>)
    requires Gathered(collectors0, before)
    ensures Gathered(collectors, (k: int) => before(k) + Lists(chunk, k))
  {
    hide Lists, Flatten;
    collectors := collectors0;
    assert Gathered(collectors, (k: int) => before(k) + Lists(chunk[..0], k)) by {
      forall k ensures before(k) + Lists(chunk[..0], k) == before(k) {
        NoLists(chunk, k);
      }
    }
    for position := 0 to |chunk|
      invariant Gathered(collectors, (k: int) => before(k) + Lists(chunk[..position], k))
    {
      var index := IndexOf(chunk[position], position);
      if index !in collectors {
        collectors := collectors[index := []];
      }
      collectors := collectors[index := collectors[index] + chunk[position].parts];
      forall k ensures var l := before(k) + Lists(chunk[..position + 1], k);
                       (k in collectors <==> l != []) && (k in collectors ==> collectors[k] == Flatten(l)) {
        var l0 := before(k) + Lists(chunk[..position], k);
        ListsSnoc(chunk, position, k);
        FlattenSnoc(l0, chunk[position].parts);
        FlattenNothing();
        assert k == index ==> before(k) + Lists(chunk[..position + 1], k) == l0 + [chunk[position].parts];
        assert k != index ==> before(k) + Lists(chunk[..position + 1], k) == l0;
      }
    }
    assert chunk[..|chunk|] == chunk;
  }

  lemma NoLists(chunk: Chunk, k: int)
    ensures Lists(chunk[..0], k) == []
  {
  }

  lemma FlattenNothing()
    ensures Flatten<Part>([]) == []
  {
  }

  method CollectChunks(chunks: seq<Chunk>) returns (collectors: map<int, seq<Part>>)
    ensures forall k :: k in collectors <==> AllLists(chunks, k) != []
    ensures forall k :: k in collectors ==> collectors[k] == PartsOf(chunks, k)
  {
    hide Lists, Flatten;
    collectors := map[];
    assert chunks[..0] == [];
    for i := 0 to |chunks|
      invariant Gathered(collectors, (k: int) => AllLists(chunks[..i], k))
    {
      ghost var before := (k: int) => AllLists(chunks[..i], k);
      collectors := CollectChunk(collectors, chunks[i], before);
      forall k ensures AllLists(chunks[..i + 1], k) == before(k) + Lists(chunks[i], k) {
        AllListsSnoc(chunks, i, k);
      }
    }
    assert chunks[..|chunks|] == chunks;
  }

  function BatchContent(parts: seq<Part>): string {
    Join(MergedText, parts) + Join(MergedImage, parts)
  }

  function BatchReasoning(parts: seq<Part>): string {
    Join(MergedThought, parts)
  }

  /** A candidate of the collected response: its own index, and its merged parts. */
  datatype Gathering = Gathering(index: int, parts: seq<Part>)

  /** A choice of the response given to the client, numbered by its position. */
  datatype Choice = Choice(index: nat, content: string, reasoning: string)

  ghost predicate Collected(c: Choice, chunks: seq<Chunk>, k: int) {
    var parts := PartsOf(chunks, k);
    c.content == BatchContent(parts) && c.reasoning == BatchReasoning(parts)
  }

  /** `seen` lists exactly the candidates that occur, in ascending order. */
  ghost predicate IsSeen(seen: seq<int>, chunks: seq<Chunk>) {
    Ascending(seen) && forall k :: k in Elems(seen) <==> AllLists(chunks, k) != []
  }

  /** The collected response: one candidate per index seen, in ascending order of index. */
  method CollectCandidates(chunks: seq<Chunk>) returns (candidates: seq<Gathering>, ghost seen: seq<int>)
    ensures IsSeen(seen, chunks) && |candidates| == |seen|
    ensures forall i :: 0 <= i < |seen| ==>
              candidates[i].index == seen[i] && Stands(candidates[i].parts, PartsOf(chunks, seen[i]))
  {
    hide Sorted, PartsOf, AllLists, Stands;
    var collectors := CollectChunks(chunks);
    var indices := SortInts(collectors.Keys);
    seen := indices;
    assert Elems(indices) == collectors.Keys && Ascending(indices);
    candidates := [];
    for i := 0 to |indices|
      invariant |candidates| == i
      invariant forall j :: 0 <= j < i ==>
                  candidates[j].index == indices[j] && Stands(candidates[j].parts, PartsOf(chunks, indices[j]))
    {
      assert indices[i] in Elems(indices);
      var merged := MergeContentBlocks(collectors[indices[i]]);
      candidates := candidates + [Gathering(indices[i], merged)];
    }
  }

  /** The choices of the collected response, numbered by position. */
  method BatchAnswer(chunks: seq<Chunk>) returns (choices: seq<Choice>, ghost seen: seq<int>)
    ensures IsSeen(seen, chunks) && |choices| == |seen|
    ensures forall i :: 0 <= i < |choices| ==> choices[i].index == i && Collected(choices[i], chunks, seen[i])
  {
    hide IsSeen, PartsOf, Collected, Stands;
    var candidates;
    candidates, seen := CollectCandidates(chunks);
    choices := [];
    for i := 0 to |candidates|
      invariant |choices| == i
      invariant forall j :: 0 <= j < i ==> choices[j].index == j && Collected(choices[j], chunks, seen[j])
    {
      var choice := ToChoice(candidates[i].parts, i, chunks, seen[i]);
      choices := choices + [choice];
    }
  }

  method ToChoice(parts: seq<Part>, index: nat, ghost chunks: seq<Chunk>, ghost k: int) returns (choice: Choice)
    requires Stands(parts, PartsOf(chunks, k))
    ensures choice.index == index && Collected(choice, chunks, k)
  {
    hide PartsOf, TextOf, ThoughtOf, ImageOf, MergedText, MergedThought, MergedImage, Join;
    var content, reasoning, calls := ExtractParts(parts);
    choice := Choice(index, content, reasoning);
  }

  // ---------------------------------------------------------------- agreement

  /** A part the two forms read differently: the stream sees its call, the collector its text. */
  predicate Ambiguous(p: Part) {
    Named(p) && IsBlock(p)
  }

  ghost predicate NoImages(parts: seq<Part>) {
    forall i :: 0 <= i < |parts| ==> parts[i].image.None?
  }

  ghost predicate NoneAmbiguous(parts: seq<Part>) {
    forall i :: 0 <= i < |parts| ==> !Ambiguous(parts[i])
  }

  lemma NoImagesSplit(a: seq<Part>, b: seq<Part>)
    requires NoImages(a + b)
    ensures NoImages(a) && NoImages(b)
  {
    assert forall i :: 0 <= i < |a| ==> (a + b)[i] == a[i];
    assert forall i :: 0 <= i < |b| ==> (a + b)[|a| + i] == b[i];
  }

  lemma {:induction false} StreamIsJoin(lists: seq<seq<Part>>)
    requires NoImages(Flatten(lists))
    ensures StreamContent(lists) == Join(TextOf, Flatten(lists))
    ensures StreamReasoning(lists) == Join(ThoughtOf, Flatten(lists))
    decreases |lists|
  {
    hide NoImages, TextOf, ThoughtOf, ImageOf, StreamContent, StreamReasoning, Flatten, Join;
    if lists == [] {
      Empties();
    } else {
      var front, last := lists[..|lists| - 1], lists[|lists| - 1];
      assert lists == front + [last];
      FlattenSnoc(front, last);
      NoImagesSplit(Flatten(front), last);
      StreamIsJoin(front);
      JoinAppend(TextOf, Flatten(front), last);
      JoinAppend(ThoughtOf, Flatten(front), last);
      NoImageText(last);
      OneList(front, last);
    }
  }

  lemma Empties()
    ensures StreamContent([]) == "" && StreamReasoning([]) == "" && Flatten<Part>([]) == []
    ensures Join(TextOf, []) == "" && Join(ThoughtOf, []) == ""
  {
  }

  lemma {:induction false} NoImageText(parts: seq<Part>)
    requires NoImages(parts)
    ensures Join(ImageOf, parts) == "" && Join(MergedImage, parts) == ""
    decreases |parts|
  {
    if parts != [] {
      NoImageText(parts[..|parts| - 1]);
    }
  }

  /** The collector never shows less, and shows more exactly when a part is ambiguous. */
  lemma {:induction false} Compare(parts: seq<Part>)
    requires NoImages(parts)
    ensures NoneAmbiguous(parts) ==>
              Join(TextOf, parts) == Join(MergedText, parts) && Join(ThoughtOf, parts) == Join(MergedThought, parts)
    ensures |Join(MergedText, parts)| + |Join(MergedThought, parts)| >= |Join(TextOf, parts)| + |Join(ThoughtOf, parts)|
    ensures !NoneAmbiguous(parts) ==>
              |Join(MergedText, parts)| + |Join(MergedThought, parts)| > |Join(TextOf, parts)| +
                |Join(ThoughtOf, parts)|
    decreases |parts|
  {
    hide NoneAmbiguous, Ambiguous, TextOf, ThoughtOf, MergedText, MergedThought;
    if parts == [] {
      NothingAmbiguous();
    } else {
      var front, p := parts[..|parts| - 1], parts[|parts| - 1];
      assert parts == front + [p];
      Compare(front);
      ComparePart(p);
      NoneAmbiguousSnoc(front, p);
    }
  }

  lemma NothingAmbiguous()
    ensures NoneAmbiguous([])
  {
  }

  lemma NoneAmbiguousSnoc(front: seq<Part>, p: Part)
    ensures NoneAmbiguous(front + [p]) <==> NoneAmbiguous(front) && !Ambiguous(p)
  {
    var parts := front + [p];
    assert parts[|front|] == p && forall i :: 0 <= i < |front| ==> parts[i] == front[i];
    if NoneAmbiguous(front) && !Ambiguous(p) {
      forall i | 0 <= i < |parts| ensures !Ambiguous(parts[i]) {
        assert parts[i] == if i < |front| then front[i] else p;
      }
    }
    if NoneAmbiguous(parts) {
      forall i | 0 <= i < |front| ensures !Ambiguous(front[i]) {
        assert !Ambiguous(parts[i]);
      }
    }
  }

  lemma ComparePart(p: Part)
    requires p.image.None?
    ensures !Ambiguous(p) ==> TextOf(p) == MergedText(p) && ThoughtOf(p) == MergedThought(p)
    ensures Ambiguous(p) ==>
              TextOf(p) == "" && ThoughtOf(p) == "" && |MergedText(p)| + |MergedThought(p)| > 0
  {
    if IsBlock(p) {
      NonEmpty(p.text);
    }
  }

  /** The two forms of an answer without inline images say the same for a candidate if and only if
    * none of its parts carries text together with a named function call. */
  lemma FormsAgree(chunks: seq<Chunk>, events: seq<Delta>, choice: Choice, k: int)
    requires NoImages(PartsOf(chunks, k)) && Tells(events, chunks, k) && Collected(choice, chunks, k)
    ensures (ContentIn(events, k) == choice.content && ReasoningIn(events, k) == choice.reasoning)
            <==> NoneAmbiguous(PartsOf(chunks, k))
  {
    hide TextOf, ThoughtOf, MergedText, MergedThought, Named, Blank;
    var lists, parts := AllLists(chunks, k), PartsOf(chunks, k);
    StreamIsJoin(lists);
    NoImageText(parts);
    Compare(parts);
    assert BatchContent(parts) == Join(MergedText, parts);
  }

  /** The stream names a candidate by its own index, the response by its position.  The two are the same
    * for every candidate exactly when the indexes seen are 0 to n - 1. */
  lemma {:induction false} IndexesAgree(seen: seq<int>)
    requires Ascending(seen)
    ensures (forall i :: 0 <= i < |seen| ==> seen[i] == i) <==> (forall k :: k in Elems(seen) <==> 0 <= k < |seen|)
  {
    var first := seq(|seen|, i => i);
    assert forall i :: 0 <= i < |seen| ==> first[i] == i;
    assert Ascending(first);
    forall k ensures k in Elems(first) <==> 0 <= k < |seen| {
      if 0 <= k < |seen| {
        assert first[k] == k;
      }
    }
    if forall k :: k in Elems(seen) <==> 0 <= k < |seen| {
      assert Elems(seen) == Elems(first);
      SortedIsUnique(seen, first);
    }
    if forall i :: 0 <= i < |seen| ==> seen[i] == i {
      assert seen == first;
    }
  }

  /** A single candidate with index 1 is the first choice of the response. */
  lemma IndexesDiffer(part: Part, seen: seq<int>)
    requires IsSeen(seen, [[Candidate(Some(1), [part])]])
    ensures seen == [1]
  {
    var c: Chunk := [Candidate(Some(1), [part])];
    var chunks: seq<Chunk> := [c];
    assert c[..0] == [] && c[..1] == c && chunks[..0] == [] && chunks[..1] == chunks;
    assert IsSeen(seen, chunks);
    forall k ensures k in Elems(seen) <==> k == 1 {
      ListsSnoc(c, 0, k);
      AllListsSnoc(chunks, 0, k);
      assert AllLists(chunks, k) == if k == 1 then [[part]] else [];
    }
    assert Ascending([1]) && Elems([1]) == {1};
    assert Elems(seen) == {1};
    SortedIsUnique(seen, [1]);
  }

  /** Whole answers: without images and ambiguous parts, and with the indexes 0 to n - 1, every choice of
    * the response says what the stream said under the same index. */
  lemma AnswersAgree(chunks: seq<Chunk>, events: seq<Delta>, choices: seq<Choice>, seen: seq<int>)
    requires IsSeen(seen, chunks) && |choices| == |seen| && forall k :: k in Elems(seen) <==> 0 <= k < |seen|
    requires forall i :: 0 <= i < |choices| ==> choices[i].index == i && Collected(choices[i], chunks, seen[i])
    requires forall k :: Tells(events, chunks, k)
    requires forall k :: 0 <= k < |seen| ==> NoImages(PartsOf(chunks, k)) && NoneAmbiguous(PartsOf(chunks, k))
    ensures forall i :: 0 <= i < |choices| ==>
              ContentIn(events, choices[i].index) == choices[i].content &&
              ReasoningIn(events, choices[i].index) == choices[i].reasoning
  {
    hide PartsOf, Tells, Collected, NoImages, NoneAmbiguous, ContentIn, ReasoningIn;
    IndexesAgree(seen);
    forall i | 0 <= i < |choices|
      ensures ContentIn(events, choices[i].index) == choices[i].content
      ensures ReasoningIn(events, choices[i].index) == choices[i].reasoning
    {
      assert Tells(events, chunks, i);
      FormsAgree(chunks, events, choices[i], i);
    }
  }

  /** The smallest answer on which the forms differ: a text together with a named call. */
  lemma TextWithCallDiffers()
    ensures var part := Part("t", false, Some("f"), None, NoCode, NoCode, false);
            var chunks: seq<Chunk> := [[Candidate(Some(0), [part])]];
            StreamContent(AllLists(chunks, 0)) == "" && BatchContent(PartsOf(chunks, 0)) == "t"
  {
    hide TextOf, ImageOf, MergedText, MergedImage, Join, StreamContent, Lists, AllLists, Flatten;
    var part := Part("t", false, Some("f"), None, NoCode, NoCode, false);
    var chunks: seq<Chunk> := [[Candidate(Some(0), [part])]];
    OneCandidate(part);
    AllListsSnoc(chunks, 0, 0);
    assert chunks[..0] == [] && chunks[..1] == chunks;
    NothingAtAllYet();
    var none: seq<seq<Part>> := [];
    assert AllLists(chunks, 0) == none + [[part]] == [[part]];
    OneList(none, [part]);
    FlattenSnoc(none, [part]);
    FlattenNothing();
    Empties();
    TextAndCall(part);
    JoinOfTwo(TextOf, part, part);
    JoinOfTwo(ImageOf, part, part);
    JoinOfTwo(MergedText, part, part);
    JoinOfTwo(MergedImage, part, part);
    assert StreamContent([[part]]) == "" + ("" + "");
    assert Flatten([[part]]) == [] + [part] == [part];
    assert BatchContent([part]) == "t" + "";
  }

  lemma NothingAtAllYet()
    ensures AllLists([], 0) == []
  {
  }

  lemma TextAndCall(part: Part)
    requires part == Part("t", false, Some("f"), None, NoCode, NoCode, false)
    ensures TextOf(part) == "" && ImageOf(part) == "" && MergedText(part) == "t" && MergedImage(part) == ""
  {
    assert 't' in part.text && !IsWhiteSpace('t');
    assert 'f' in part.call.value && !IsWhiteSpace('f');
  }

  // ---------------------------------------------------------------- plain answers

  /** A part that is nothing but text. */
  predicate OnlyText(p: Part) {
    p.call.None? && p.image.None? && p.code == NoCode && p.result == NoCode
  }

  ghost predicate AllText(parts: seq<Part>) {
    forall i :: 0 <= i < |parts| ==> OnlyText(parts[i])
  }

  /** The texts of the thoughts among the parts, or of the others. */
  function TextsOf(parts: seq<Part>, thought: bool): (r: seq<string>) {
    if parts == [] then []
    else
      var p := parts[|parts| - 1];
      TextsOf(parts[..|parts| - 1], thought) + if p.thought == thought then [p.text] else []
  }

  lemma {:induction false} TextsAreJoined(parts: seq<Part>)
    requires AllText(parts)
    ensures Join(TextOf, parts) == Flatten(TextsOf(parts, false))
    ensures Join(ThoughtOf, parts) == Flatten(TextsOf(parts, true))
    ensures Join(ImageOf, parts) == ""
    decreases |parts|
  {
    if parts != [] {
      var front, p := parts[..|parts| - 1], parts[|parts| - 1];
      TextsAreJoined(front);
      assert OnlyText(p);
      FlattenSnoc(TextsOf(front, p.thought), p.text);
      assert TextsOf(front, !p.thought) + [] == TextsOf(front, !p.thought);
      assert Join(TextOf, front) + "" == Join(TextOf, front) && Join(ThoughtOf, front) + "" == Join(ThoughtOf, front);
    }
  }

  /** Of an answer in text parts the client is told, in both forms, all texts that are no thoughts as the
    * content, and all thoughts as the reasoning, in order. */
  lemma PlainAnswersAreTold(chunks: seq<Chunk>, events: seq<Delta>, choice: Choice, k: int)
    requires AllText(PartsOf(chunks, k)) && Tells(events, chunks, k) && Collected(choice, chunks, k)
    ensures ContentIn(events, k) == choice.content == Flatten(TextsOf(PartsOf(chunks, k), false))
    ensures ReasoningIn(events, k) == choice.reasoning == Flatten(TextsOf(PartsOf(chunks, k), true))
  {
    hide TextOf, ThoughtOf, ImageOf, MergedText, MergedThought, Blank, Join, Flatten, TextsOf, AllLists;
    var parts := PartsOf(chunks, k);
    NotNamed(parts);
    FormsAgree(chunks, events, choice, k);
    StreamIsJoin(AllLists(chunks, k));
    TextsAreJoined(parts);
  }

  lemma NotNamed(parts: seq<Part>)
    requires AllText(parts)
    ensures NoImages(parts) && NoneAmbiguous(parts)
  {
  }

  // ---------------------------------------------------------------- with images

  /** A part that carries nothing beside its text, or no text: both forms read it alike. */
  predicate Clear(p: Part) {
    IsBlock(p) ==> !Named(p) && p.image.None?
  }

  ghost predicate AllClear(parts: seq<Part>) {
    forall i :: 0 <= i < |parts| ==> Clear(parts[i])
  }

  /** No part list with an image is followed by one with text. */
  ghost predicate ImagesLast(lists: seq<seq<Part>>) {
    forall i, j :: 0 <= i < j < |lists| && Join(ImageOf, lists[i]) != "" ==> Join(TextOf, lists[j]) == ""
  }

  lemma ImagesLastFront(front: seq<seq<Part>>, last: seq<Part>)
    requires ImagesLast(front + [last])
    ensures ImagesLast(front)
    ensures Join(TextOf, last) == "" || forall i :: 0 <= i < |front| ==> Join(ImageOf, front[i]) == ""
  {
    var lists := front + [last];
    assert lists[|front|] == last && forall i :: 0 <= i < |front| ==> lists[i] == front[i];
    forall i, j | 0 <= i < j < |front| && Join(ImageOf, front[i]) != "" ensures Join(TextOf, front[j]) == "" {
      assert Join(ImageOf, lists[i]) != "" && lists[j] == front[j];
    }
    if Join(TextOf, last) != "" {
      forall i | 0 <= i < |front| ensures Join(ImageOf, front[i]) == "" {
        assert Join(TextOf, lists[|front|]) != "" && lists[i] == front[i];
      }
    }
  }

  lemma {:induction false} NoImagesYet(lists: seq<seq<Part>>)
    requires forall i :: 0 <= i < |lists| ==> Join(ImageOf, lists[i]) == ""
    ensures Join(ImageOf, Flatten(lists)) == ""
    decreases |lists|
  {
    hide Join, Flatten;
    if lists == [] {
      JoinNothing(ImageOf);
      FlattenNothing();
    } else {
      var front, last := lists[..|lists| - 1], lists[|lists| - 1];
      assert lists == front + [last];
      NoImagesYet(front);
      FlattenSnoc(front, last);
      JoinAppend(ImageOf, Flatten(front), last);
    }
  }

  /** With the images last, the stream reads like the joined parts. */
  lemma {:induction false} StreamWithImages(lists: seq<seq<Part>>)
    requires ImagesLast(lists)
    ensures StreamContent(lists) == Join(TextOf, Flatten(lists)) + Join(ImageOf, Flatten(lists))
    ensures StreamReasoning(lists) == Join(ThoughtOf, Flatten(lists))
    decreases |lists|
  {
    hide TextOf, ThoughtOf, ImageOf, StreamContent, StreamReasoning, Flatten, Join, ImagesLast;
    if lists == [] {
      Empties();
      JoinNothing(ImageOf);
    } else {
      var front, last := lists[..|lists| - 1], lists[|lists| - 1];
      assert lists == front + [last];
      FlattenSnoc(front, last);
      ImagesLastFront(front, last);
      StreamWithImages(front);
      JoinAppend(TextOf, Flatten(front), last);
      JoinAppend(ThoughtOf, Flatten(front), last);
      JoinAppend(ImageOf, Flatten(front), last);
      OneList(front, last);
      var text, image := Join(TextOf, Flatten(front)), Join(ImageOf, Flatten(front));
      var t, i := Join(TextOf, last), Join(ImageOf, last);
      if t != "" {
        NoImagesYet(front);
        assert text + "" == text && "" + i == i;
        assert text + (t + i) == (text + t) + i;
      } else {
        assert "" + i == i && text + "" == text;
        assert (text + image) + i == text + (image + i);
      }
    }
  }

  lemma ClearIsSame(p: Part)
    requires Clear(p)
    ensures TextOf(p) == MergedText(p) && ThoughtOf(p) == MergedThought(p) && ImageOf(p) == MergedImage(p)
  {
    if IsBlock(p) {
      NonEmpty(p.text);
    }
  }

  lemma {:induction false} ClearJoins(parts: seq<Part>)
    requires AllClear(parts)
    ensures Join(TextOf, parts) == Join(MergedText, parts) && Join(ImageOf, parts) == Join(MergedImage, parts)
    ensures Join(ThoughtOf, parts) == Join(MergedThought, parts)
    decreases |parts|
  {
    hide TextOf, ThoughtOf, ImageOf, MergedText, MergedThought, MergedImage, Clear;
    if parts != [] {
      ClearJoins(parts[..|parts| - 1]);
      assert Clear(parts[|parts| - 1]);
      ClearIsSame(parts[|parts| - 1]);
    }
  }

  /** An answer with images still reads the same in both forms when no part list with an image is followed
    * by one with text and no part carries text beside a call or an image. */
  lemma FormsAgreeWithImages(chunks: seq<Chunk>, events: seq<Delta>, choice: Choice, k: int)
    requires ImagesLast(AllLists(chunks, k)) && AllClear(PartsOf(chunks, k))
    requires Tells(events, chunks, k) && Collected(choice, chunks, k)
    ensures ContentIn(events, k) == choice.content && ReasoningIn(events, k) == choice.reasoning
  {
    hide ImagesLast, AllClear, AllLists, Join, Flatten, StreamContent, StreamReasoning;
    StreamWithImages(AllLists(chunks, k));
    ClearJoins(PartsOf(chunks, k));
  }

  /** Images are rendered as links on a line of their own, which an exclamation mark begins. */
  predicate IsLink(s: string) {
    |s| >= 2 && s[0] == '\n' && s[1] == '!'
  }

  predicate LinkAt(s: string, p: nat) {
    p + 1 < |s| && s[p] == '\n' && s[p + 1] == '!'
  }

  /** No line after the first begins like a link. */
  ghost predicate Unmarked(text: string) {
    forall p: nat :: !LinkAt(text, p)
  }

  ghost predicate AllLinks(parts: seq<Part>) {
    forall i :: 0 <= i < |parts| && parts[i].image.Some? ==> IsLink(parts[i].image.value)
  }

  lemma {:induction false} LinksStand(parts: seq<Part>)
    requires AllLinks(parts)
    ensures Join(ImageOf, parts) == "" || IsLink(Join(ImageOf, parts))
    decreases |parts|
  {
    if parts != [] {
      LinksStand(parts[..|parts| - 1]);
    }
  }

  lemma LinksSplit(a: seq<Part>, b: seq<Part>)
    requires AllLinks(a + b)
    ensures AllLinks(a)
  {
    assert forall i :: 0 <= i < |a| ==> (a + b)[i] == a[i];
  }

  lemma {:induction false} NoImageIn(lists: seq<seq<Part>>)
    ensures Join(ImageOf, Flatten(lists)) == "" ==> forall i :: 0 <= i < |lists| ==> Join(ImageOf, lists[i]) == ""
    decreases |lists|
  {
    hide Join, Flatten;
    if lists != [] {
      var front, last := lists[..|lists| - 1], lists[|lists| - 1];
      assert lists == front + [last];
      NoImageIn(front);
      FlattenSnoc(front, last);
      JoinAppend(ImageOf, Flatten(front), last);
      assert forall i :: 0 <= i < |front| ==> lists[i] == front[i];
    }
  }

  /** Otherwise the stream shows an image among the text. */
  lemma {:induction false} ImageAmongText(lists: seq<seq<Part>>) returns (p: nat)
    requires AllLinks(Flatten(lists)) && !ImagesLast(lists)
    ensures p < |Join(TextOf, Flatten(lists))| && LinkAt(StreamContent(lists), p)
    decreases |lists|
  {
    hide TextOf, ImageOf, StreamContent, Flatten, Join, AllLinks;
    var front, last := lists[..|lists| - 1], lists[|lists| - 1];
    assert lists == front + [last];
    FlattenSnoc(front, last);
    LinksSplit(Flatten(front), last);
    JoinAppend(TextOf, Flatten(front), last);
    OneList(front, last);
    if !ImagesLast(front) {
      p := ImageAmongText(front);
    } else {
      StreamWithImages(front);
      NoImageIn(front);
      LastIsText(front, last);
      LinksStand(Flatten(front));
      p := |Join(TextOf, Flatten(front))|;
    }
  }

  lemma LastIsText(front: seq<seq<Part>>, last: seq<Part>)
    requires ImagesLast(front) && !ImagesLast(front + [last])
    ensures Join(TextOf, last) != "" && exists i :: 0 <= i < |front| && Join(ImageOf, front[i]) != ""
  {
    hide Join;
    var lists := front + [last];
    assert forall m :: 0 <= m < |front| ==> lists[m] == front[m];
    var i, j :| 0 <= i < j < |lists| && Join(ImageOf, lists[i]) != "" && Join(TextOf, lists[j]) != "";
    assert lists[i] == front[i];
  }

  /** When images are links and no line of the text looks like one, an answer without parts of two kinds
    * reads the same in both forms if and only if no part list with an image is followed by one with text. */
  lemma FormsAgreeOnImages(chunks: seq<Chunk>, k: int)
    requires AllClear(PartsOf(chunks, k)) && AllLinks(PartsOf(chunks, k))
    requires Unmarked(Join(TextOf, PartsOf(chunks, k)))
    ensures StreamContent(AllLists(chunks, k)) == BatchContent(PartsOf(chunks, k)) <==> ImagesLast(AllLists(chunks, k))
  {
    hide ImagesLast, AllClear, AllLinks, AllLists, Join, Flatten, StreamContent;
    var lists, parts := AllLists(chunks, k), PartsOf(chunks, k);
    ClearJoins(parts);
    if ImagesLast(lists) {
      StreamWithImages(lists);
    } else {
      var p := ImageAmongText(lists);
      LinksStand(parts);
      NoLinkBefore(Join(TextOf, parts), Join(ImageOf, parts), p);
    }
  }

  lemma NoLinkBefore(text: string, image: string, p: nat)
    requires Unmarked(text) && (image == "" || IsLink(image)) && p < |text|
    ensures !LinkAt(text + image, p)
  {
    assert !LinkAt(text, p);
  }

  /** With inline images the order can differ: the stream puts an image after the text of its own
    * chunk, the collected response after all text. */
  lemma ImagesMove()
    ensures var image := Part("", false, None, Some("i"), NoCode, NoCode, false);
            var text := Part("t", false, None, None, NoCode, NoCode, false);
            var chunks := [[Candidate(Some(0), [image])], [Candidate(Some(0), [text])]];
            && StreamContent(AllLists(chunks, 0)) == "it"
            && BatchContent(PartsOf(chunks, 0)) == "ti"
  {
    hide TextOf, ImageOf, MergedText, MergedImage, Join, StreamContent, Lists, AllLists, Flatten;
    var image := Part("", false, None, Some("i"), NoCode, NoCode, false);
    var text := Part("t", false, None, None, NoCode, NoCode, false);
    var chunks := [[Candidate(Some(0), [image])], [Candidate(Some(0), [text])]];
    TwoChunks(image, text);
    StreamOfTwo(image, text);
    JoinOfTwo(MergedText, image, text);
    JoinOfTwo(MergedImage, image, text);
    ImageAndText(image, text);
  }

  lemma ImageAndText(image: Part, text: Part)
    requires image == Part("", false, None, Some("i"), NoCode, NoCode, false)
    requires text == Part("t", false, None, None, NoCode, NoCode, false)
    ensures TextOf(image) == "" && ImageOf(image) == "i" && MergedText(image) == "" && MergedImage(image) == "i"
    ensures TextOf(text) == "t" && ImageOf(text) == "" && MergedText(text) == "t" && MergedImage(text) == ""
  {
    assert 't' in text.text && !IsWhiteSpace('t');
  }

  lemma JoinOfTwo(f: Part -> string, p: Part, q: Part)
    ensures Join(f, [p]) == f(p) && Join(f, [p, q]) == f(p) + f(q)
  {
    JoinSnoc(f, [], p);
    JoinSnoc(f, [p], q);
    assert [] + [p] == [p] && [p] + [q] == [p, q];
  }

  lemma StreamOfTwo(p: Part, q: Part)
    ensures StreamContent([[p], [q]]) == (TextOf(p) + ImageOf(p)) + (TextOf(q) + ImageOf(q))
    ensures Flatten([[p], [q]]) == [p, q]
  {
    hide TextOf, ImageOf, Join, Flatten;
    OneList([], [p]);
    OneList([[p]], [q]);
    JoinOfTwo(TextOf, p, q);
    JoinOfTwo(ImageOf, p, q);
    JoinOfTwo(TextOf, q, p);
    JoinOfTwo(ImageOf, q, p);
    FlattenSnoc([], [p]);
    FlattenSnoc([[p]], [q]);
    FlattenNothing();
    assert [] + [[p]] == [[p]] && [[p]] + [[q]] == [[p], [q]];
    assert StreamContent([]) == "";
  }

  lemma TwoChunks(p: Part, q: Part)
    ensures AllLists([[Candidate(Some(0), [p])], [Candidate(Some(0), [q])]], 0) == [[p], [q]]
  {
    OneCandidate(p);
    OneCandidate(q);
    var c, d: Chunk := [Candidate(Some(0), [p])], [Candidate(Some(0), [q])];
    var chunks := [c, d];
    AllListsSnoc(chunks, 0, 0);
    AllListsSnoc(chunks, 1, 0);
    assert chunks[..0] == [] && chunks[..2] == chunks;
  }

  lemma OneCandidate(p: Part)
    ensures Lists([Candidate(Some(0), [p])], 0) == [[p]]
  {
    var c: Chunk := [Candidate(Some(0), [p])];
    ListsSnoc(c, 0, 0);
    assert c[..0] == [] && c[..1] == c;
  }
}
