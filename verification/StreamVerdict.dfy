/** How every streamed reply ends, said of the whole stream: the first line that
    is at fault, and without one what the content and the ends of its frames
    amount to. The reader gets there line by line. */
module StreamVerdict {
  import opened Options
  import opened PythonText
  import opened StreamReader

  /** The content of the frames, joined. */
  function TextOf(lines: seq<Line>): string {
    if lines == [] then ""
    else
      var last := lines[|lines| - 1];
      TextOf(lines[..|lines| - 1]) + if last.Data? then last.frame.content else ""
  }

  function ContentChunks(lines: seq<Line>): nat {
    if lines == [] then 0
    else ContentChunks(lines[..|lines| - 1]) + if lines[|lines| - 1].Data? then lines[|lines| - 1].frame.contentChunks else 0
  }

  function ReasoningChunks(lines: seq<Line>): nat {
    if lines == [] then 0
    else ReasoningChunks(lines[..|lines| - 1]) + if lines[|lines| - 1].Data? then lines[|lines| - 1].frame.reasoningChunks else 0
  }

  function ReasoningChars(lines: seq<Line>): nat {
    if lines == [] then 0
    else ReasoningChars(lines[..|lines| - 1]) + if lines[|lines| - 1].Data? then lines[|lines| - 1].frame.reasoningChars else 0
  }

  /** The stream has only reasoned, and for too long. */
  predicate TooMuchReasoning(lines: seq<Line>, thinkingDisabled: bool) {
    && ContentChunks(lines) == 0
    && if thinkingDisabled then ReasoningChunks(lines) >= 64 || ReasoningChars(lines) >= 256
       else ReasoningChunks(lines) >= 64_000 || ReasoningChars(lines) >= 128_000
  }

  /** What is wrong with line k, given the lines before it. */
  function Fault(lines: seq<Line>, k: nat, thinkingDisabled: bool): Option<Failure>
    requires k < |lines|
  {
    match lines[k]
    case Interrupted => Some(Cancelled)
    case NotJson => Some(ParseFailure)
    case ServiceError(retryable) => Some(ServiceFailure(retryable))
    case Data(frame) =>
      if TooMuchReasoning(lines[..k + 1], thinkingDisabled) then Some(ReasoningOnly)
      else if frame.content != "" && (|TextOf(lines[..k + 1])| > 1_048_576 || Repeats(TextOf(lines[..k + 1]))) then Some(OutputLimit)
      else None
    case _ => None
  }

  predicate NoFault(lines: seq<Line>, n: nat, thinkingDisabled: bool)
    requires n <= |lines|
  {
    forall k :: 0 <= k < n ==> Fault(lines, k, thinkingDisabled) == None
  }

  /** How a faultless stream ends. */
  predicate EndsAs(lines: seq<Line>, o: Outcome) {
    var text := Strip(TextOf(lines));
    if text == "" then o == Failed(if ReasoningChunks(lines) > 0 then ReasoningOnly else Empty)
    else if NoAbnormalEnd(lines) && EndsNormally(lines) then o == Ok(text)
    else o == Failed(IncompleteReply(text))
  }

  /** How any stream ends: the first fault decides, and without one the end does. */
  ghost predicate OutcomeIs(lines: seq<Line>, o: Outcome, thinkingDisabled: bool) {
    if NoFault(lines, |lines|, thinkingDisabled) then EndsAs(lines, o)
    else exists k :: 0 <= k < |lines| && NoFault(lines, k, thinkingDisabled)
           && Fault(lines, k, thinkingDisabled).Some? && o == Failed(Fault(lines, k, thinkingDisabled).value)
  }

  // ---- the reader keeps track ---------------------------------------------------------------------

  /** What the reader holds is what the lines before say. */
  ghost predicate Tracks(s: Seen, before: seq<Line>) {
    && s.text == TextOf(before) && s.contentChunks == ContentChunks(before)
    && s.reasoningChunks == ReasoningChunks(before) && s.reasoningChars == ReasoningChars(before)
    && (s.done <==> Done in before)
    && (s.full <==> exists l :: l in before && l.Data? && l.frame.fullMessage)
    && (forall r :: r in s.finish <==> exists l :: l in before && l.Data? && r in l.frame.finish)
  }

  lemma InSnoc(before: seq<Line>, l: Line, x: Line)
    ensures x in before + [l] <==> x in before || x == l
  {
  }

  lemma SnocSums(before: seq<Line>, l: Line)
    ensures var more := before + [l];
      && more[..|before|] == before
      && TextOf(more) == TextOf(before) + (if l.Data? then l.frame.content else "")
      && ContentChunks(more) == ContentChunks(before) + (if l.Data? then l.frame.contentChunks else 0)
      && ReasoningChunks(more) == ReasoningChunks(before) + (if l.Data? then l.frame.reasoningChunks else 0)
      && ReasoningChars(more) == ReasoningChars(before) + (if l.Data? then l.frame.reasoningChars else 0)
  {
    assert (before + [l])[..|before|] == before;
  }

  lemma TracksFinish(s: Seen, before: seq<Line>, l: Line, r: string)
    requires Tracks(s, before)
    ensures (r in s.finish || (l.Data? && r in l.frame.finish)) <==> exists x :: x in before + [l] && x.Data? && r in x.frame.finish
  {
    assert l in before + [l];
    if r in s.finish { var x :| x in before && x.Data? && r in x.frame.finish; InSnoc(before, l, x); }
  }

  lemma TracksFull(s: Seen, before: seq<Line>, l: Line)
    requires Tracks(s, before)
    ensures (s.full || (l.Data? && l.frame.fullMessage)) <==> exists x :: x in before + [l] && x.Data? && x.frame.fullMessage
  {
    assert l in before + [l];
    if s.full { var x :| x in before && x.Data? && x.frame.fullMessage; InSnoc(before, l, x); }
  }

  /** After a line, with the content of a frame taken. */
  function Taken(s: Seen, l: Line): Seen {
    if l.Data? then Observe(s, l.frame).(text := s.text + l.frame.content) else if l.Done? then s.(done := true) else s
  }

  lemma TakenTracks(s: Seen, before: seq<Line>, l: Line)
    requires Tracks(s, before)
    ensures Tracks(Taken(s, l), before + [l])
  {
    SnocSums(before, l);
    TracksFull(s, before, l);
    forall r ensures r in Taken(s, l).finish <==> exists x :: x in before + [l] && x.Data? && r in x.frame.finish {
      TracksFinish(s, before, l, r);
    }
  }

  /** One line, by its fault. */
  lemma TurnByFault(s: Seen, before: seq<Line>, l: Line, thinkingDisabled: bool)
    requires Tracks(s, before)
    ensures var fault := Fault(before + [l], |before|, thinkingDisabled);
      TakeLine(s, l, LimitsFor(thinkingDisabled)) ==
        if fault.Some? then Abort(fault.value) else if l.Done? then Stop(Taken(s, l)) else More(Taken(s, l))
  {
    SnocSums(before, l);
    assert (before + [l])[..|before| + 1] == before + [l];
    assert s.text + "" == s.text;
  }

  lemma NormalEnd(s: Seen, before: seq<Line>)
    requires Tracks(s, before) && s.finish - {"stop"} == {}
    ensures EndsNormally(before) <==> s.done || s.full || s.finish != {}
  {
    if s.finish != {} {
      var r :| r in s.finish;
      assert r != "stop" ==> r in s.finish - {"stop"};
      var l :| l in before && l.Data? && "stop" in l.frame.finish;
    }
  }

  lemma FinishMeans(s: Seen, before: seq<Line>)
    requires Tracks(s, before)
    ensures EndsAs(before, Finish(s))
  {
    assert NoAbnormalEnd(before) <==> s.finish - {"stop"} == {} by {
      if s.finish - {"stop"} != {} {
        var r :| r in s.finish - {"stop"};
        var l :| l in before && l.Data? && r in l.frame.finish;
      } else {
        forall l, r | l in before && l.Data? && r in l.frame.finish ensures r == "stop" {
          assert r != "stop" ==> r in s.finish - {"stop"};
        }
      }
    }
    if s.finish - {"stop"} == {} { NormalEnd(s, before); }
  }

  // ---- the whole stream ------------------------------------------------------------------------------

  lemma PrefixFault(lines: seq<Line>, before: seq<Line>, k: nat, thinkingDisabled: bool)
    requires k < |before| <= |lines| && lines[..|before|] == before
    ensures Fault(lines, k, thinkingDisabled) == Fault(before, k, thinkingDisabled)
  {
    assert lines[..k + 1] == before[..k + 1] && lines[k] == before[k];
  }

  lemma PrefixNoFault(lines: seq<Line>, before: seq<Line>, l: Line, thinkingDisabled: bool)
    requires |before| < |lines| && lines[..|before| + 1] == before + [l] && NoFault(lines, |before|, thinkingDisabled)
    ensures Fault(lines, |before|, thinkingDisabled) == Fault(before + [l], |before|, thinkingDisabled)
    ensures Fault(before + [l], |before|, thinkingDisabled) == None ==> NoFault(lines, |before| + 1, thinkingDisabled)
  {
    PrefixFault(lines, before + [l], |before|, thinkingDisabled);
  }

  /** From any point: `all` are the lines read and those that are left up to the end. */
  lemma {:induction false} ReadsOn(s: Seen, before: seq<Line>, lines: seq<Line>, all: seq<Line>, thinkingDisabled: bool)
    requires Tracks(s, before) && all == before + Ending(lines) && NoFault(all, |before|, thinkingDisabled)
    ensures OutcomeIs(all, ReadAll(s, lines, LimitsFor(thinkingDisabled)), thinkingDisabled)
    decreases |lines|
  {
    if lines == [] {
      assert all == before;
      FinishMeans(s, before);
    } else {
      var l := lines[0];
      assert all[..|before| + 1] == before + [l];
      TurnByFault(s, before, l, thinkingDisabled);
      PrefixNoFault(all, before, l, thinkingDisabled);
      TakenTracks(s, before, l);
      if Fault(all, |before|, thinkingDisabled) == None {
        if l.Done? {
          assert all == before + [l];
          FinishMeans(Taken(s, l), all);
        } else {
          assert all == before + [l] + Ending(lines[1..]);
          ReadsOn(Taken(s, l), before + [l], lines[1..], all, thinkingDisabled);
        }
      }
    }
  }

  /** The outcome of every stream: of the lines up to its end, the first that is
      at fault decides; without one the reply is complete exactly when there is
      text, every frame ended by "stop" or not at all, and the stream ended by
      itself, by a frame, or held a full message. */
  lemma EveryStreamEnds(lines: seq<Line>, thinkingDisabled: bool)
    ensures OutcomeIs(Ending(lines), ReadAll(NOTHING, lines, LimitsFor(thinkingDisabled)), thinkingDisabled)
  {
    assert [] + Ending(lines) == Ending(lines);
    ReadsOn(NOTHING, [], lines, Ending(lines), thinkingDisabled);
  }

  /** Exactly the streams without a fault that have text and end well succeed. */
  lemma SucceedsExactly(lines: seq<Line>, thinkingDisabled: bool)
    ensures var all := Ending(lines);
      ReadAll(NOTHING, lines, LimitsFor(thinkingDisabled)).Ok? <==>
        && NoFault(all, |all|, thinkingDisabled) && Strip(TextOf(all)) != "" && NoAbnormalEnd(all) && EndsNormally(all)
  {
    EveryStreamEnds(lines, thinkingDisabled);
  }
}
