/** The reader of a streamed model reply (app/models/client.py:
    _read_stream_lines), which keeps only a short tail of the content. */
module StreamReader {
  import opened Collections
  import opened PythonText

  const MAX_CONTENT: nat := 1_048_576
  const WINDOW_COUNT: nat := 3
  const WINDOW_SIZES: seq<nat> := [16, 32, 64, 128, 256]
  const TAIL: nat := 768

  /** A parsed line. `content` is the text for the caller; the counts are what
      the diagnostics see in all choices of the frame. */
  datatype Frame = Frame(
    content: string, contentChunks: nat, reasoningChunks: nat, reasoningChars: nat, finish: set<string>, fullMessage: bool)

  datatype Line = Skipped | Done | NotJson | ServiceError(retryable: bool) | Data(frame: Frame) | Interrupted

  datatype Failure =
    | Cancelled | ParseFailure | ServiceFailure(retryable: bool) | ReasoningOnly | OutputLimit | Empty
    | IncompleteReply(partial: string)

  datatype Outcome = Ok(content: string) | Failed(failure: Failure)

  datatype Limits = Limits(chunks: nat, chars: nat)

  function LimitsFor(thinkingDisabled: bool): Limits {
    if thinkingDisabled then Limits(64, 256) else Limits(64_000, 128_000)
  }

  // ---- repetition ------------------------------------------------------------------------------

  function Same(a: string, b: string): (n: nat)
    requires |a| == |b|
    ensures n <= |a|
  {
    if a == "" then 0 else Same(a[1..], b[1..]) + if a[0] == b[0] then 1 else 0
  }

  /** same / len >= 0.9, exact for windows whose length is a power of two. */
  predicate Similar(a: string, b: string) {
    a != "" && |a| == |b| && 10 * Same(a, b) >= 9 * |a|
  }

  /** The last three windows of size w are alike. */
  predicate RepeatsAt(text: string, w: nat) {
    && w > 0 && |text| >= w * 3
    && var n := |text|;
      Similar(text[n - 3 * w..n - 2 * w], text[n - 2 * w..n - w]) && Similar(text[n - 3 * w..n - 2 * w], text[n - w..])
  }

  predicate RepeatsAny(text: string, sizes: seq<nat>) {
    sizes != [] && (RepeatsAt(text, sizes[0]) || RepeatsAny(text, sizes[1..]))
  }

  /** `_repeated_content_tail` */
  predicate Repeats(text: string) { RepeatsAny(text, WINDOW_SIZES) }

  function Last(text: string, n: nat): string {
    if |text| <= n then text else text[|text| - n..]
  }

  lemma TailRepeatsAt(text: string, w: nat, n: nat)
    requires 3 * w <= n
    ensures RepeatsAt(Last(text, n), w) <==> RepeatsAt(text, w)
  {
    if |text| > n && w > 0 {
      var tail := Last(text, n);
      var cut := |text| - n;
      assert tail[n - 3 * w..n - 2 * w] == text[cut + n - 3 * w..cut + n - 2 * w];
      assert tail[n - 2 * w..n - w] == text[cut + n - 2 * w..cut + n - w];
      assert tail[n - w..] == text[cut + n - w..];
    }
  }

  predicate Fit(sizes: seq<nat>, n: nat) { sizes == [] || (3 * sizes[0] <= n && Fit(sizes[1..], n)) }

  lemma {:induction false} TailRepeatsAny(text: string, sizes: seq<nat>, n: nat)
    requires Fit(sizes, n)
    ensures RepeatsAny(Last(text, n), sizes) <==> RepeatsAny(text, sizes)
  {
    if sizes != [] {
      TailRepeatsAt(text, sizes[0], n);
      TailRepeatsAny(text, sizes[1..], n);
    }
  }

  /** The 768-character tail gives the verdict of the whole content. */
  lemma TailDecides(text: string)
    ensures Repeats(Last(text, TAIL)) <==> Repeats(text)
  {
    assert Fit([256], TAIL) && Fit([128, 256], TAIL) && Fit([64, 128, 256], TAIL);
    assert WINDOW_SIZES[1..][1..] == [64, 128, 256];
    TailRepeatsAny(text, WINDOW_SIZES, TAIL);
  }

  lemma TailExtends(text: string, delta: string)
    ensures Last(Last(text, TAIL) + delta, TAIL) == Last(text + delta, TAIL)
  {
  }

  lemma {:induction false} SameOfEqual(a: string)
    ensures Same(a, a) == |a|
  {
    if a != "" { SameOfEqual(a[1..]); }
  }

  lemma {:induction false} OneSizeIsEnough(text: string, sizes: seq<nat>, w: nat)
    requires w in sizes && RepeatsAt(text, w)
    ensures RepeatsAny(text, sizes)
  {
    if sizes[0] != w { OneSizeIsEnough(text, sizes[1..], w); }
  }

  lemma {:induction false} NoRoom(text: string, sizes: seq<nat>)
    requires forall i :: 0 <= i < |sizes| ==> |text| < 3 * sizes[i]
    ensures !RepeatsAny(text, sizes)
  {
    if sizes != [] { NoRoom(text, sizes[1..]); }
  }

  /** Nothing shorter than three of the smallest windows is taken for a repetition. */
  lemma ShortNeverRepeats(text: string)
    requires |text| < 48
    ensures !Repeats(text)
  {
    NoRoom(text, WINDOW_SIZES);
  }

  lemma LastWindows(prefix: string, a: string)
    ensures var text := prefix + a + a + a;
      var n, w := |text|, |a|;
      text[n - 3 * w..n - 2 * w] == a && text[n - 2 * w..n - w] == a && text[n - w..] == a
  {
  }

  lemma RepeatsThrice(prefix: string, a: string)
    requires a != ""
    ensures RepeatsAt(prefix + a + a + a, |a|)
  {
    SameOfEqual(a);
    LastWindows(prefix, a);
  }

  /** Text that repeats one window three times is caught, whatever came before. */
  lemma ThreeEqualWindowsAreCaught(prefix: string, a: string)
    requires |a| in WINDOW_SIZES
    ensures Repeats(prefix + a + a + a)
  {
    RepeatsThrice(prefix, a);
    OneSizeIsEnough(prefix + a + a + a, WINDOW_SIZES, |a|);
  }

  // ---- the meaning of a stream -----------------------------------------------------------------------

  /** Everything read so far, with the whole content. */
  datatype Seen = Seen(text: string, contentChunks: nat, reasoningChunks: nat, reasoningChars: nat, finish: set<string>, full: bool, done: bool)

  function Observe(s: Seen, f: Frame): Seen {
    s.(contentChunks := s.contentChunks + f.contentChunks, reasoningChunks := s.reasoningChunks + f.reasoningChunks,
       reasoningChars := s.reasoningChars + f.reasoningChars, finish := s.finish + f.finish, full := s.full || f.fullMessage)
  }

  predicate OnlyReasons(s: Seen, limits: Limits) {
    s.contentChunks == 0 && (s.reasoningChunks >= limits.chunks || s.reasoningChars >= limits.chars)
  }

  datatype Turn = More(seen: Seen) | Stop(seen: Seen) | Abort(failure: Failure)

  /** One line, judged on the whole content. */
  function TakeLine(s: Seen, line: Line, limits: Limits): Turn {
    match line
    case Interrupted => Abort(Cancelled)
    case Skipped => More(s)
    case Done => Stop(s.(done := true))
    case NotJson => Abort(ParseFailure)
    case ServiceError(retryable) => Abort(ServiceFailure(retryable))
    case Data(f) =>
      var seen := Observe(s, f);
      if OnlyReasons(seen, limits) then Abort(ReasoningOnly)
      else if f.content == "" then More(seen)
      else if |s.text| + |f.content| > MAX_CONTENT then Abort(OutputLimit)
      else if Repeats(s.text + f.content) then Abort(OutputLimit)
      else More(seen.(text := s.text + f.content))
  }

  /** The verdict once the lines have ended. */
  function Finish(s: Seen): Outcome {
    var content := Strip(s.text);
    if content == "" then Failed(if s.reasoningChunks > 0 then ReasoningOnly else Empty)
    else if s.finish - {"stop"} != {} then Failed(IncompleteReply(content))
    else if !s.done && s.finish == {} && !s.full then Failed(IncompleteReply(content))
    else Ok(content)
  }

  /** The whole stream, judged on the whole content. */
  function ReadAll(s: Seen, lines: seq<Line>, limits: Limits): Outcome
    decreases |lines|
  {
    if lines == [] then Finish(s)
    else match TakeLine(s, lines[0], limits)
      case More(next) => ReadAll(next, lines[1..], limits)
      case Stop(next) => Finish(next)
      case Abort(failure) => Failed(failure)
  }

  const NOTHING: Seen := Seen("", 0, 0, 0, {}, false, false)

  function Piece(l: Line): seq<string> {
    if l.Data? && l.frame.content != "" then [l.frame.content] else []
  }

  /** The pieces handed to on_delta. */
  function Deltas(s: Seen, lines: seq<Line>, limits: Limits): seq<string>
    decreases |lines|
  {
    if lines == [] then []
    else match TakeLine(s, lines[0], limits)
      case More(next) =>
        Piece(lines[0]) + Deltas(next, lines[1..], limits)
      case _ => []
  }

  // ---- the reader ------------------------------------------------------------------------------------

  /** What a frame does to the count and the tail; the verdict is that on the whole content. */
  method TakeFrame(seen: Seen, chars: nat, tail: string, f: Frame, limits: Limits) returns (turn: Turn, count: nat, end: string)
    requires chars == |seen.text| && tail == Last(seen.text, TAIL)
    ensures turn == TakeLine(seen, Data(f), limits)
    ensures turn.More? ==> count == |turn.seen.text| && end == Last(turn.seen.text, TAIL)
  {
    var next := Observe(seen, f);
    count, end := chars, tail;
    if OnlyReasons(next, limits) { return Abort(ReasoningOnly), count, end; }
    if f.content == "" { return More(next), count, end; }
    count := count + |f.content|;
    if count > MAX_CONTENT { return Abort(OutputLimit), count, end; }
    end := Last(tail + f.content, TAIL);
    TailExtends(seen.text, f.content);
    TailDecides(seen.text + f.content);
    if Repeats(end) { return Abort(OutputLimit), count, end; }
    turn := More(next.(text := seen.text + f.content));
  }

  method TakeTurn(seen: Seen, chars: nat, tail: string, line: Line, limits: Limits) returns (turn: Turn, count: nat, end: string)
    requires chars == |seen.text| && tail == Last(seen.text, TAIL)
    ensures turn == TakeLine(seen, line, limits)
    ensures turn.More? ==> count == |turn.seen.text| && end == Last(turn.seen.text, TAIL)
  {
    if line.Data? {
      turn, count, end := TakeFrame(seen, chars, tail, line.frame, limits);
    } else {
      turn, count, end := TakeLine(seen, line, limits), chars, tail;
    }
  }

  lemma ReadTurn(s: Seen, lines: seq<Line>, i: nat, limits: Limits)
    requires i < |lines|
    ensures var turn := TakeLine(s, lines[i], limits);
      && ReadAll(s, lines[i..], limits) == (match turn case More(next) => ReadAll(next, lines[i + 1..], limits)
                                                  case Stop(next) => Finish(next) case Abort(failure) => Failed(failure))
      && Deltas(s, lines[i..], limits) == (if turn.More? then Piece(lines[i]) + Deltas(turn.seen, lines[i + 1..], limits) else [])
  {
    assert lines[i..][0] == lines[i] && lines[i..][1..] == lines[i + 1..];
  }

  /** The loop, which counts characters and keeps a tail instead of asking the
      whole content; it decides exactly as if it had asked it. */
  method ReadLines(lines: seq<Line>, thinkingDisabled: bool) returns (o: Outcome, deltas: seq<string>)
    ensures o == ReadAll(NOTHING, lines, LimitsFor(thinkingDisabled))
    ensures deltas == Deltas(NOTHING, lines, LimitsFor(thinkingDisabled))
  {
    var limits := LimitsFor(thinkingDisabled);
    var seen := NOTHING;
    var chars: nat, tail := 0, "";
    deltas := [];
    var i := 0;
    assert lines[i..] == lines;
    while i < |lines|
      invariant 0 <= i <= |lines| && chars == |seen.text| && tail == Last(seen.text, TAIL)
      invariant ReadAll(NOTHING, lines, limits) == ReadAll(seen, lines[i..], limits)
      invariant Deltas(NOTHING, lines, limits) == deltas + Deltas(seen, lines[i..], limits)
    {
      ReadTurn(seen, lines, i, limits);
      var turn;
      turn, chars, tail := TakeTurn(seen, chars, tail, lines[i], limits);
      match turn {
        case Abort(failure) => return Failed(failure), deltas;
        case Stop(last) => return Finish(last), deltas;
        case More(next) =>
          Associative(deltas, Piece(lines[i]), Deltas(next, lines[i + 1..], limits));
          deltas := deltas + Piece(lines[i]);
          seen := next;
      }
      i := i + 1;
    }
    assert lines[i..] == [];
    o := Finish(seen);
  }

  // ---- what a good reply guarantees ----------------------------------------------------------------------

  function Join(deltas: seq<string>): string {
    if deltas == [] then "" else deltas[0] + Join(deltas[1..])
  }

  /** The frames up to the end of the stream. */
  function Ending(lines: seq<Line>): seq<Line> {
    if lines == [] then [] else if lines[0].Done? then [Done] else [lines[0]] + Ending(lines[1..])
  }

  /** Why a stream may be taken as complete. */
  predicate EndsNormally(lines: seq<Line>) {
    exists l <- lines :: l.Done? || (l.Data? && ("stop" in l.frame.finish || l.frame.fullMessage))
  }

  predicate NoAbnormalEnd(lines: seq<Line>) {
    forall l <- lines :: l.Data? ==> l.frame.finish <= {"stop"}
  }

  ghost predicate Consistent(s: Seen, before: seq<Line>) {
    && (s.done || s.finish != {} || s.full ==> exists l :: l in before && (l.Done? || (l.Data? && (l.frame.finish != {} || l.frame.fullMessage))))
    && (forall l <- before :: l.Data? ==> l.frame.finish <= s.finish)
  }

  lemma {:induction false} GoodText(s: Seen, lines: seq<Line>, limits: Limits)
    requires ReadAll(s, lines, limits).Ok?
    ensures ReadAll(s, lines, limits).content == Strip(s.text + Join(Deltas(s, lines, limits))) != ""
    decreases |lines|
  {
    if lines == [] {
      assert s.text + "" == s.text;
    } else {
      var turn := TakeLine(s, lines[0], limits);
      if turn.Stop? { assert s.text + "" == s.text; }
      if turn.More? {
        GoodText(turn.seen, lines[1..], limits);
        PieceJoins(s, lines[0], limits, Deltas(turn.seen, lines[1..], limits));
      }
    }
  }

  /** An incomplete reply brings the text that was delivered, and there is some. */
  lemma {:induction false} IncompleteHasText(s: Seen, lines: seq<Line>, limits: Limits)
    requires ReadAll(s, lines, limits).Failed? && ReadAll(s, lines, limits).failure.IncompleteReply?
    ensures ReadAll(s, lines, limits).failure.partial == Strip(s.text + Join(Deltas(s, lines, limits))) != ""
    decreases |lines|
  {
    if lines == [] {
      assert s.text + "" == s.text;
    } else {
      var turn := TakeLine(s, lines[0], limits);
      if turn.Stop? { assert s.text + "" == s.text; }
      if turn.More? {
        IncompleteHasText(turn.seen, lines[1..], limits);
        PieceJoins(s, lines[0], limits, Deltas(turn.seen, lines[1..], limits));
      }
    }
  }

  function Letter(): Frame { Frame("x", 1, 0, 0, {}, false) }

  lemma LetterIsTaken()
    ensures TakeLine(NOTHING, Data(Letter()), LimitsFor(false)) == More(Seen("x", 1, 0, 0, {}, false, false))
  {
    assert "" + "x" == "x";
    ShortNeverRepeats("x");
  }

  /** A stream that breaks off after one letter. */
  lemma LetterIsIncomplete()
    ensures ReadAll(NOTHING, [Data(Letter())], LimitsFor(false)) == Failed(IncompleteReply("x"))
  {
    LetterIsTaken();
    assert [Data(Letter())][1..] == [];
    assert Finish(Seen("x", 1, 0, 0, {}, false, false)) == Failed(IncompleteReply("x"));
  }

  lemma {:induction false} GoodLines(s: Seen, lines: seq<Line>, limits: Limits, before: seq<Line>)
    requires ReadAll(s, lines, limits).Ok? && Consistent(s, before)
    ensures NoAbnormalEnd(before + Ending(lines)) && EndsNormally(before + Ending(lines))
    decreases |lines|
  {
    if lines == [] {
      GoodEnd(s, before);
      assert before + [] == before;
    } else {
      var turn := TakeLine(s, lines[0], limits);
      if turn.Stop? {
        ConsistentStop(s, before);
        GoodEnd(turn.seen, before + [Done]);
      } else {
        ConsistentNext(s, lines[0], limits, before);
        GoodLines(turn.seen, lines[1..], limits, before + [lines[0]]);
        assert before + [lines[0]] + Ending(lines[1..]) == before + Ending(lines);
      }
    }
  }

  lemma ConsistentStop(s: Seen, before: seq<Line>)
    requires Consistent(s, before)
    ensures Consistent(s.(done := true), before + [Done])
  {
    assert Done in before + [Done];
  }

  lemma GoodEnd(s: Seen, before: seq<Line>)
    requires Finish(s).Ok? && Consistent(s, before)
    ensures NoAbnormalEnd(before) && EndsNormally(before)
  {
    forall l | l in before && l.Data? ensures l.frame.finish <= {"stop"} {
      assert l.frame.finish <= s.finish;
      assert s.finish - {"stop"} == {};
    }
    var l :| l in before && (l.Done? || (l.Data? && (l.frame.finish != {} || l.frame.fullMessage)));
    if l.Data? && l.frame.finish != {} {
      var r :| r in l.frame.finish;
      assert r in s.finish && r !in s.finish - {"stop"};
    }
  }

  lemma ConsistentNext(s: Seen, l: Line, limits: Limits, before: seq<Line>)
    requires Consistent(s, before) && TakeLine(s, l, limits).More?
    ensures Consistent(TakeLine(s, l, limits).seen, before + [l])
    ensures |s.text| <= MAX_CONTENT ==> |TakeLine(s, l, limits).seen.text| <= MAX_CONTENT
  {
    var next := TakeLine(s, l, limits).seen;
    var more := before + [l];
    assert l in more;
    forall k | k in before ensures k in more { }
  }

  lemma PieceJoins(s: Seen, l: Line, limits: Limits, rest: seq<string>)
    requires TakeLine(s, l, limits).More?
    ensures TakeLine(s, l, limits).seen.text + Join(rest) == s.text + Join(Piece(l) + rest)
  {
    if Piece(l) == [] {
      assert Piece(l) + rest == rest;
    } else {
      assert (Piece(l) + rest)[1..] == rest;
      assert s.text + (l.frame.content + Join(rest)) == s.text + l.frame.content + Join(rest);
    }
  }

  lemma NothingBefore<T>(s: seq<T>)
    ensures [] + s == s
  {
  }

  /** A returned text is the stripped join of the delivered pieces, is not
      empty and stays under the cap; no frame ended abnormally, and the stream
      did end: it said so, or it held a full message. */
  lemma ReturnedTextIsComplete(lines: seq<Line>, thinkingDisabled: bool)
    requires ReadAll(NOTHING, lines, LimitsFor(thinkingDisabled)).Ok?
    ensures var limits := LimitsFor(thinkingDisabled);
      var text := Join(Deltas(NOTHING, lines, limits));
      && ReadAll(NOTHING, lines, limits).content == Strip(text) != "" && |text| <= MAX_CONTENT
      && NoAbnormalEnd(Ending(lines)) && EndsNormally(Ending(lines))
  {
    var limits := LimitsFor(thinkingDisabled);
    NothingBefore(Ending(lines));
    NothingBefore(Join(Deltas(NOTHING, lines, limits)));
    GoodText(NOTHING, lines, limits);
    GoodLines(NOTHING, lines, limits, []);
    DeliveredIsBounded(NOTHING, lines, limits);
  }

  /** Whatever happens, the pieces delivered never join to more than the cap,
      and no join of them repeats itself. */
  lemma {:induction false} DeliveredIsBounded(s: Seen, lines: seq<Line>, limits: Limits)
    requires |s.text| <= MAX_CONTENT && (s.text == "" || !Repeats(s.text))
    ensures var text := s.text + Join(Deltas(s, lines, limits)); |text| <= MAX_CONTENT && (text == "" || !Repeats(text))
    decreases |lines|
  {
    if lines == [] || !TakeLine(s, lines[0], limits).More? {
      assert s.text + "" == s.text;
    } else {
      var next := TakeLine(s, lines[0], limits).seen;
      ReadTurn(s, lines, 0, limits);
      assert lines[0..] == lines;
      DeliveredIsBounded(next, lines[1..], limits);
      PieceJoins(s, lines[0], limits, Deltas(next, lines[1..], limits));
    }
  }
}
