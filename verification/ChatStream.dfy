/** Copying a chat completion stream to the client. */
module ChatStream {
  import opened Common
  import opened ResponsesStream

  /** A line: a readable chunk, the end mark, or anything else. */
  datatype Line =
    | Chunk(text: string, finish: bool, output: bool)
    | Done(text: string)
    | Other(text: string)

  datatype Sent = Passed(line: Line) | InventedFinish

  predicate Finishes(l: Line) {
    l.Chunk? && l.finish
  }

  predicate Outputs(l: Line) {
    l.Chunk? && l.output
  }

  /** Has a finish reason been seen, from upstream or invented? */
  predicate Finished(lines: seq<Line>) {
    exists i :: 0 <= i < |lines| && (Finishes(lines[i]) || lines[i].Done?)
  }

  predicate Shows(lines: seq<Line>) {
    exists i :: 0 <= i < |lines| && Outputs(lines[i])
  }

  predicate Ends(lines: seq<Line>) {
    exists i :: 0 <= i < |lines| && lines[i].Done?
  }

  /** What the client gets for the lines: a finish chunk is put before the end mark when none came. */
  function Repaired(lines: seq<Line>): (r: seq<Sent>) {
    if lines == [] then []
    else
      var front, l := lines[..|lines| - 1], lines[|lines| - 1];
      if l.Done? && !Finished(front)
        then Repaired(front) + [InventedFinish, Passed(l)] else Repaired(front) + [Passed(l)]
  }

  datatype ChatError = NothingShown | NoEndMark | BrokenRead

  method CopyChatStream(lines: seq<Line>, end: ReadEnd, delay: bool)
    returns (written: seq<Sent>, committed: bool, err: Option<ChatError>)
    ensures committed == if delay then Shows(lines) else lines != []
    ensures written == if committed then Repaired(lines) else []
    ensures err.None? <==> end == Eof && (delay ==> Shows(lines) && Ends(lines))
    ensures err == Some(BrokenRead) <==> end != Eof
    ensures err == Some(NothingShown) <==> end == Eof && delay && !Shows(lines)
    ensures err == Some(NoEndMark) <==> end == Eof && delay && Shows(lines) && !Ends(lines)
  {
    hide Repaired, Finished, Shows, Ends;
    written, committed := [], false;
    var pending: seq<Sent> := [];
    var seenFinishReason, seenDone := false, false;
    assert lines[..0] == [];
    NoLines();
    for i := 0 to |lines|
      invariant seenFinishReason == Finished(lines[..i]) && seenDone == Ends(lines[..i])
      invariant committed == if delay then Shows(lines[..i]) else i > 0
      invariant committed ==> written == Repaired(lines[..i])
      invariant !committed ==> written == [] && pending == Repaired(lines[..i])
    {
      OneLine(lines, i);
      var l := lines[i];
      var out := [Passed(l)];
      if Finishes(l) {
        seenFinishReason := true;
      }
      if l.Done? && !seenFinishReason {
        out := [InventedFinish, Passed(l)];
        seenFinishReason := true;
      }
      if l.Done? {
        seenDone := true;
      }
      if delay && !committed {
        pending := pending + out;
        if Outputs(l) {
          written, pending, committed := pending, [], true;
        }
      } else {
        written := written + out;
        committed := true;
      }
    }
    assert lines[..|lines|] == lines;
    if end != Eof {
      return written, committed, Some(BrokenRead);
    }
    if delay && !committed {
      return written, committed, Some(NothingShown);
    }
    if delay && !seenDone {
      return written, committed, Some(NoEndMark);
    }
    return written, committed, None;
  }

  lemma NoLines()
    ensures Repaired([]) == [] && !Finished([]) && !Shows([]) && !Ends([])
  {
  }

  lemma OneLine(lines: seq<Line>, i: nat)
    requires i < |lines|
    ensures var l, before, after := lines[i], lines[..i], lines[..i + 1];
            && (Finished(after) <==> Finished(before) || Finishes(l) || l.Done?)
            && (Shows(after) <==> Shows(before) || Outputs(l))
            && (Ends(after) <==> Ends(before) || l.Done?)
            && Repaired(after) ==
              Repaired(before) + (if l.Done? && !Finished(before) then [InventedFinish, Passed(l)] else [Passed(l)])
  {
    var after := lines[..i + 1];
    assert after[..i] == lines[..i] && after[i] == lines[i];
    assert forall j :: 0 <= j < i ==> after[j] == lines[..i][j];
  }

  // ---------------------------------------------------------------- what the client reads

  predicate TellsFinish(s: Sent) {
    s == InventedFinish || (s.Passed? && Finishes(s.line))
  }

  function Upstream(sent: seq<Sent>): (r: seq<Line>) {
    if sent == [] then []
    else
      var last := sent[|sent| - 1];
      if last.Passed? then Upstream(sent[..|sent| - 1]) + [last.line] else Upstream(sent[..|sent| - 1])
  }

  lemma UpstreamSnoc(sent: seq<Sent>, s: Sent)
    ensures Upstream(sent + [s]) == if s.Passed? then Upstream(sent) + [s.line] else Upstream(sent)
  {
    assert (sent + [s])[..|sent|] == sent;
  }

  ghost predicate EndsAreTold(sent: seq<Sent>) {
    forall i :: 0 <= i < |sent| && sent[i].Passed? && sent[i].line.Done? ==>
      exists j :: 0 <= j < i && TellsFinish(sent[j])
  }

  ghost predicate InventedAt(sent: seq<Sent>, i: nat) {
    i < |sent| && sent[i] == InventedFinish
  }

  ghost predicate OneInvented(sent: seq<Sent>) {
    forall i: nat, j: nat :: InventedAt(sent, i) && InventedAt(sent, j) ==> i == j
  }

  ghost predicate ToldFinish(sent: seq<Sent>) {
    exists i :: 0 <= i < |sent| && TellsFinish(sent[i])
  }

  /** Upstream's lines all arrive in order; every end mark comes after a finish reason; at most one
    * finish chunk is invented, and none once upstream has given a reason. */
  lemma {:induction false} EveryEndIsFinished(lines: seq<Line>)
    ensures Upstream(Repaired(lines)) == lines
    ensures EndsAreTold(Repaired(lines)) && OneInvented(Repaired(lines))
    ensures ToldFinish(Repaired(lines)) <==> Finished(lines)
    ensures InventedFinish in Repaired(lines) ==>
              exists i :: 0 <= i < |lines| && lines[i].Done? && forall j :: 0 <= j < i ==> !Finishes(lines[j])
    decreases |lines|
  {
    hide Upstream, Finished, ToldFinish, EndsAreTold, OneInvented, Repaired;
    if lines == [] {
      NothingSent();
    } else {
      var n := |lines| - 1;
      var front, l := lines[..n], lines[n];
      EveryEndIsFinished(front);
      OneLine(lines, n);
      assert lines[..n + 1] == lines && lines == front + [l];
      var sent := Repaired(front);
      if l.Done? && !Finished(front) {
        SentOne(sent, InventedFinish);
        SentOne(sent + [InventedFinish], Passed(l));
        assert sent + [InventedFinish] + [Passed(l)] == sent + [InventedFinish, Passed(l)];
        NotFinished(front);
        assert lines[n].Done? && forall j :: 0 <= j < n ==> !Finishes(lines[j]) by {
          assert forall j :: 0 <= j < n ==> lines[j] == front[j];
        }
      } else {
        SentOne(sent, Passed(l));
        if InventedFinish in sent {
          var i :| 0 <= i < |front| && front[i].Done? && forall j :: 0 <= j < i ==> !Finishes(front[j]);
          assert lines[i].Done? && forall j :: 0 <= j < i ==> lines[j] == front[j];
        }
      }
    }
  }

  lemma NotFinished(lines: seq<Line>)
    requires !Finished(lines)
    ensures forall j :: 0 <= j < |lines| ==> !Finishes(lines[j])
  {
  }

  lemma NothingSent()
    ensures Repaired([]) == [] && Upstream([]) == [] && EndsAreTold([]) && OneInvented([]) && !ToldFinish([]) &&
            !Finished([])
  {
  }

  lemma InventedTells(sent: seq<Sent>)
    ensures forall i: nat :: InventedAt(sent, i) ==> ToldFinish(sent)
  {
    forall i: nat | InventedAt(sent, i) ensures ToldFinish(sent) {
      assert TellsFinish(sent[i]);
    }
  }

  lemma SentOne(sent: seq<Sent>, s: Sent)
    requires EndsAreTold(sent) && OneInvented(sent)
    ensures Upstream(sent + [s]) == if s.Passed? then Upstream(sent) + [s.line] else Upstream(sent)
    ensures (s.Passed? && s.line.Done? ==> ToldFinish(sent)) ==> EndsAreTold(sent + [s])
    ensures (s == InventedFinish ==> !ToldFinish(sent)) ==> OneInvented(sent + [s])
    ensures ToldFinish(sent + [s]) <==> ToldFinish(sent) || TellsFinish(s)
  {
    UpstreamSnoc(sent, s);
    var all := sent + [s];
    assert all[|sent|] == s && forall i :: 0 <= i < |sent| ==> all[i] == sent[i];
    InventedTells(sent);
    forall i: nat | InventedAt(all, i) ensures InventedAt(sent, i) || (i == |sent| && s == InventedFinish) {
    }
    if s.Passed? && s.line.Done? && ToldFinish(sent) {
      var j :| 0 <= j < |sent| && TellsFinish(sent[j]);
      assert TellsFinish(all[j]);
    }
  }
}
