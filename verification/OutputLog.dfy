/** The append-only log of model output (app/tasks/model_output.py): a recorder
    that merges and splits pieces, and a reader that follows a byte cursor. */
module OutputLog {
  import opened Options
  import opened Collections
  import JsonText

  const READ_BYTES: nat := 65536
  const TEXT_CHARS: nat := 4096

  datatype Kind = Start | End | Content | Thinking

  datatype Event = Event(stream: string, kind: Kind, codes: seq<string>, title: string, text: string)

  // ---- pieces -----------------------------------------------------------------------------------

  /** The text in stretches of at most 4096 characters; one even when it is empty. */
  function Parts(text: string): (r: seq<string>)
    ensures r != []
    decreases |text|
  {
    if |text| <= TEXT_CHARS then [text] else [text[..TEXT_CHARS]] + Parts(text[TEXT_CHARS..])
  }

  predicate Joins(previous: Event, e: Event, part: string) {
    part != "" && previous.stream == e.stream && previous.kind == e.kind && |previous.text| + |part| <= TEXT_CHARS
  }

  /** A part goes to the last pending record when that is of the same stream and
      kind and has room, and to a record of its own otherwise. */
  function AddPart(pending: seq<Event>, e: Event, part: string): seq<Event> {
    if pending != [] && Joins(pending[|pending| - 1], e, part) then
      var last := pending[|pending| - 1];
      pending[..|pending| - 1] + [last.(text := last.text + part)]
    else pending + [e.(text := part)]
  }

  function AddParts(pending: seq<Event>, e: Event, parts: seq<string>): seq<Event>
    decreases |parts|
  {
    if parts == [] then pending else AddParts(AddPart(pending, e, parts[0]), e, parts[1..])
  }

  function AddEvent(pending: seq<Event>, e: Event): seq<Event> { AddParts(pending, e, Parts(e.text)) }

  // ---- what a log says ------------------------------------------------------------------------------

  /** All text of one stream and kind, in order. */
  function TextOf(records: seq<Event>, stream: string, kind: Kind): string {
    if records == [] then ""
    else
      var last := records[|records| - 1];
      TextOf(records[..|records| - 1], stream, kind) + if last.stream == stream && last.kind == kind then last.text else ""
  }

  /** Records small enough to be read back. */
  predicate Short(records: seq<Event>) {
    forall r <- records :: |r.text| <= TEXT_CHARS
  }

  function Chars(records: seq<Event>): nat {
    if records == [] then 0 else Chars(records[..|records| - 1]) + |records[|records| - 1].text|
  }

  function Own(e: Event, stream: string, kind: Kind, text: string): string {
    if e.stream == stream && e.kind == kind then text else ""
  }

  lemma AddPartText(pending: seq<Event>, e: Event, part: string, stream: string, kind: Kind)
    requires Short(pending) && |part| <= TEXT_CHARS
    ensures TextOf(AddPart(pending, e, part), stream, kind) == TextOf(pending, stream, kind) + Own(e, stream, kind, part)
    ensures Short(AddPart(pending, e, part)) && Chars(AddPart(pending, e, part)) == Chars(pending) + |part|
    ensures AddPart(pending, e, part) != []
  {
    var after := AddPart(pending, e, part);
    var n := |after| - 1;
    if pending != [] && Joins(pending[|pending| - 1], e, part) {
      assert after[..n] == pending[..n];
    } else {
      assert after[..n] == pending;
    }
  }

  lemma {:induction false} PartsAreShort(text: string)
    ensures forall p <- Parts(text) :: |p| <= TEXT_CHARS
    decreases |text|
  {
    if |text| > TEXT_CHARS { PartsAreShort(text[TEXT_CHARS..]); }
  }

  function Flat(parts: seq<string>): string {
    if parts == [] then "" else parts[0] + Flat(parts[1..])
  }

  lemma {:induction false} PartsMakeText(text: string)
    ensures Flat(Parts(text)) == text
    decreases |text|
  {
    if |text| > TEXT_CHARS {
      PartsMakeText(text[TEXT_CHARS..]);
      assert Parts(text)[1..] == Parts(text[TEXT_CHARS..]);
      assert text == text[..TEXT_CHARS] + text[TEXT_CHARS..];
    } else {
      assert Parts(text)[1..] == [];
    }
  }

  lemma {:induction false} AddPartsText(pending: seq<Event>, e: Event, parts: seq<string>, stream: string, kind: Kind)
    requires Short(pending) && forall p <- parts :: |p| <= TEXT_CHARS
    ensures TextOf(AddParts(pending, e, parts), stream, kind) == TextOf(pending, stream, kind) + Own(e, stream, kind, Flat(parts))
    ensures Short(AddParts(pending, e, parts)) && Chars(AddParts(pending, e, parts)) == Chars(pending) + |Flat(parts)|
    decreases |parts|
  {
    if parts != [] {
      var more := AddPart(pending, e, parts[0]);
      AddPartText(pending, e, parts[0], stream, kind);
      AddPartsText(more, e, parts[1..], stream, kind);
      OwnAll(TextOf(pending, stream, kind), e, stream, kind, parts[0], Flat(parts[1..]));
    }
  }

  lemma OwnAll(before: string, e: Event, stream: string, kind: Kind, a: string, b: string)
    ensures before + Own(e, stream, kind, a) + Own(e, stream, kind, b) == before + Own(e, stream, kind, a + b)
  {
  }

  /** Merging and splitting keep every stream's text, and every record short. */
  lemma AddEventText(pending: seq<Event>, e: Event, stream: string, kind: Kind)
    requires Short(pending)
    ensures TextOf(AddEvent(pending, e), stream, kind) == TextOf(pending, stream, kind) + Own(e, stream, kind, e.text)
    ensures Short(AddEvent(pending, e)) && Chars(AddEvent(pending, e)) == Chars(pending) + |e.text|
    ensures e.text == "" ==> AddEvent(pending, e) == pending + [e]
  {
    PartsAreShort(e.text);
    PartsMakeText(e.text);
    AddPartsText(pending, e, Parts(e.text), stream, kind);
    if e.text == "" {
      assert Parts("") == [""] && AddParts(pending, e, [""]) == AddPart(pending, e, "");
      assert e.(text := "") == e;
    }
  }

  lemma {:induction false} TextOfJoin(a: seq<Event>, b: seq<Event>, stream: string, kind: Kind)
    ensures TextOf(a + b, stream, kind) == TextOf(a, stream, kind) + TextOf(b, stream, kind)
  {
    if b == [] {
      assert a + b == a;
    } else {
      var start, last := b[..|b| - 1], b[|b| - 1];
      TextOfJoin(a, start, stream, kind);
      assert (a + b)[..|a + b| - 1] == a + start && (a + b)[|a + b| - 1] == last;
      Associative(TextOf(a, stream, kind), TextOf(start, stream, kind), if last.stream == stream && last.kind == kind then last.text else "");
    }
  }

  function FirstPart(text: string): string {
    if |text| <= TEXT_CHARS then text else text[..TEXT_CHARS]
  }

  function LaterParts(text: string, offset: nat): seq<string> {
    if offset < |text| then Parts(text[offset..]) else []
  }

  lemma NextPart(records: seq<Event>, e: Event, offset: nat)
    requires offset <= |e.text|
    ensures AddParts(records, e, Parts(e.text[offset..]))
         == AddParts(AddPart(records, e, FirstPart(e.text[offset..])), e, LaterParts(e.text, offset + TEXT_CHARS))
  {
    var text := e.text[offset..];
    var parts := Parts(text);
    assert parts[0] == FirstPart(text);
    if |text| > TEXT_CHARS { assert text[TEXT_CHARS..] == e.text[offset + TEXT_CHARS..]; }
    assert parts[1..] == LaterParts(e.text, offset + TEXT_CHARS);
  }

  lemma AddEventShape(pending: seq<Event>, e: Event)
    requires Short(pending)
    ensures Short(AddEvent(pending, e)) && Chars(AddEvent(pending, e)) == Chars(pending) + |e.text|
  {
    AddEventText(pending, e, e.stream, e.kind);
  }

  /** The loop over the parts of an event. */
  method MergeParts(pending: seq<Event>, e: Event) returns (records: seq<Event>)
    ensures records == AddEvent(pending, e)
  {
    assert e.text[0..] == e.text;
    NextPart(pending, e, 0);
    var offset := TEXT_CHARS;
    records := AddPart(pending, e, FirstPart(e.text));
    while offset < |e.text|
      invariant 0 <= offset
      invariant AddParts(records, e, LaterParts(e.text, offset)) == AddEvent(pending, e)
    {
      NextPart(records, e, offset);
      records := AddPart(records, e, FirstPart(e.text[offset..]));
      offset := offset + TEXT_CHARS;
    }
  }

  // ---- the recorder ------------------------------------------------------------------------------------

  class ModelOutputRecorder {
    var pending: seq<Event>
    var chars: nat
    var timer: bool
    var disabled: bool
    var file: seq<Event>

    /** Nothing is pending without a flush to come. */
    ghost predicate Valid()
      reads this
    {
      Short(file) && Short(pending) && chars == Chars(pending) && (pending != [] ==> timer)
    }

    ghost function Contents(): seq<Event>
      reads this
    {
      file + pending
    }

    constructor ()
      ensures Valid() && Contents() == [] && !disabled
    {
      pending, chars, timer, disabled, file := [], 0, false, false, [];
    }

    /** Appends what is pending; a write that fails disables the recorder. */
    method Flush(writeOk: bool)
      requires Short(file) && Short(pending)
      modifies this
      ensures Valid() && pending == [] && !timer
      ensures file == if writeOk then old(file) + old(pending) else old(file)
      ensures disabled == (old(disabled) || !writeOk)
    {
      timer := false;
      if writeOk { file := file + pending; } else { disabled := true; }
      pending, chars := [], 0;
    }

    /** Records one event; a start, an end or a full buffer is written at once. */
    method Record(e: Event, writeOk: bool)
      requires Valid()
      modifies this
      ensures Valid()
      ensures old(disabled) ==> Contents() == old(Contents()) && disabled
      ensures !old(disabled) && !disabled ==> Contents() == old(file) + AddEvent(old(pending), e)
      ensures !old(disabled) && disabled ==> !writeOk && file == old(file) && pending == []
      ensures !disabled ==> (old(disabled) || chars < TEXT_CHARS) && (e.kind.Start? || e.kind.End? ==> pending == [])
    {
      if disabled { return; }
      AddEventShape(pending, e);
      pending := MergeParts(pending, e);
      chars := chars + |e.text|;
      if e.kind.Start? || e.kind.End? || chars >= TEXT_CHARS {
        Flush(writeOk);
        assert file + [] == file;
      } else {
        timer := true;
      }
    }
  }

  // ---- whole runs ------------------------------------------------------------------------------------------

  datatype Log = Log(file: seq<Event>, pending: seq<Event>)

  datatype Step = Add(event: Event) | Write

  function Replay(steps: seq<Step>): Log {
    if steps == [] then Log([], [])
    else
      var l := Replay(steps[..|steps| - 1]);
      match steps[|steps| - 1]
      case Add(e) => l.(pending := AddEvent(l.pending, e))
      case Write => Log(l.file + l.pending, [])
  }

  function Said(steps: seq<Step>, stream: string, kind: Kind): string {
    if steps == [] then ""
    else
      var last := steps[|steps| - 1];
      Said(steps[..|steps| - 1], stream, kind) + if last.Add? then Own(last.event, stream, kind, last.event.text) else ""
  }

  /** However events and writes interleave, the log holds each stream's text of
      each kind unchanged, in records of at most 4096 characters. */
  lemma {:induction false} LogKeepsText(steps: seq<Step>, stream: string, kind: Kind)
    ensures var l := Replay(steps);
      TextOf(l.file + l.pending, stream, kind) == Said(steps, stream, kind) && Short(l.file) && Short(l.pending)
  {
    if steps != [] {
      LogKeepsText(steps[..|steps| - 1], stream, kind);
      var l := Replay(steps[..|steps| - 1]);
      match steps[|steps| - 1]
      case Add(e) => AddToLog(l, e, stream, kind);
      case Write => assert l.file + l.pending + [] == l.file + l.pending;
    }
  }

  lemma AddToLog(l: Log, e: Event, stream: string, kind: Kind)
    requires Short(l.pending)
    ensures TextOf(l.file + AddEvent(l.pending, e), stream, kind) == TextOf(l.file + l.pending, stream, kind) + Own(e, stream, kind, e.text)
    ensures Short(AddEvent(l.pending, e))
  {
    AddEventText(l.pending, e, stream, kind);
    Lengthen(l.file, l.pending, AddEvent(l.pending, e), stream, kind, Own(e, stream, kind, e.text));
  }

  lemma Lengthen(file: seq<Event>, before: seq<Event>, after: seq<Event>, stream: string, kind: Kind, text: string)
    requires TextOf(after, stream, kind) == TextOf(before, stream, kind) + text
    ensures TextOf(file + after, stream, kind) == TextOf(file + before, stream, kind) + text
  {
    TextOfJoin(file, before, stream, kind);
    TextOfJoin(file, after, stream, kind);
    Associative(TextOf(file, stream, kind), TextOf(before, stream, kind), text);
  }

  // ---- the reader --------------------------------------------------------------------------------------------

  type Bytes = seq<bv8>

  const BREAK: bv8 := 10

  /** data.rfind(b"\n") + 1 */
  function Complete(data: Bytes): (n: nat)
    ensures n <= |data| && (n > 0 ==> data[n - 1] == BREAK)
    ensures BREAK !in data[n..]
  {
    if data == [] then 0
    else if data[|data| - 1] == BREAK then |data|
    else
      var n := Complete(data[..|data| - 1]);
      assert data[n..] == data[..|data| - 1][n..] + [data[|data| - 1]];
      n
  }

  /** Where the first line ends. */
  function FirstBreak(data: Bytes): (i: nat)
    ensures i <= |data| && (i < |data| ==> data[i] == BREAK)
  {
    if data == [] || data[0] == BREAK then 0 else 1 + FirstBreak(data[1..])
  }

  /** The complete lines of a stretch of the file, breaks included. */
  function Lines(data: Bytes): seq<Bytes>
    decreases |data|
  {
    var i := FirstBreak(data);
    if i == |data| then [] else [data[..i + 1]] + Lines(data[i + 1..])
  }

  datatype Page = Page(lines: seq<Bytes>, cursor: nat, more: bool, reset: bool)

  function Window(file: Bytes, cursor: nat): Bytes
    requires cursor <= |file|
  {
    if |file| - cursor <= READ_BYTES then file[cursor..] else file[cursor..cursor + READ_BYTES]
  }

  /** `read_model_output` for an existing file. */
  function Read(file: Bytes, cursor: nat): Page {
    var at := if cursor > |file| then 0 else cursor;
    var data := Window(file, at);
    var n := Complete(data);
    Page(Lines(data[..n]), at + n, n > 0 && at + n < |file|, cursor > |file|)
  }

  /** A cursor stands at the start of a line. */
  predicate AtLine(file: Bytes, cursor: nat) {
    cursor <= |file| && (cursor > 0 ==> file[cursor - 1] == BREAK)
  }

  lemma {:induction false} BreakIsFound(data: Bytes, k: nat)
    requires k < |data| && data[k] == BREAK
    ensures FirstBreak(data) <= k
  {
    if data[0] != BREAK { BreakIsFound(data[1..], k - 1); }
  }

  lemma {:induction false} BreakStays(a: Bytes, b: Bytes)
    requires FirstBreak(a) < |a|
    ensures FirstBreak(a + b) == FirstBreak(a)
  {
    if a[0] != BREAK {
      assert (a + b)[1..] == a[1..] + b;
      BreakStays(a[1..], b);
    }
  }

  lemma {:induction false} NoBreakNoLine(data: Bytes)
    requires BREAK !in data
    ensures FirstBreak(data) == |data| && Lines(data) == []
  {
    if data != [] { NoBreakNoLine(data[1..]); }
  }

  /** Reading a file in two stretches, cut at the start of a line, gives the
      lines of the whole. */
  lemma {:induction false} LinesJoin(a: Bytes, b: Bytes)
    requires a == [] || a[|a| - 1] == BREAK
    ensures Lines(a + b) == Lines(a) + Lines(b)
    decreases |a|
  {
    if a == [] {
      assert a + b == b;
    } else {
      BreakIsFound(a, |a| - 1);
      var n := FirstBreak(a) + 1;
      SameEnd(a, n);
      LinesJoin(a[n..], b);
      JoinFirst(a, b, n);
    }
  }

  lemma SameEnd(a: Bytes, n: nat)
    requires n <= |a|
    ensures a[n..] == [] || a[n..][|a[n..]| - 1] == a[|a| - 1]
  {
  }

  lemma FirstLine(data: Bytes, n: nat)
    requires FirstBreak(data) < |data| && n == FirstBreak(data) + 1
    ensures Lines(data) == [data[..n]] + Lines(data[n..])
  {
    LinesFrom(data, n, data[..n], data[n..]);
  }

  lemma LinesFrom(data: Bytes, n: nat, line: Bytes, rest: Bytes)
    requires FirstBreak(data) < |data| && n == FirstBreak(data) + 1 && line == data[..n] && rest == data[n..]
    ensures Lines(data) == [line] + Lines(rest)
  {
  }

  lemma JoinCut(a: Bytes, b: Bytes, n: nat)
    requires n <= |a|
    ensures (a + b)[..n] == a[..n] && (a + b)[n..] == a[n..] + b
  {
  }

  lemma JoinFirst(a: Bytes, b: Bytes, n: nat)
    requires FirstBreak(a) < |a| && n == FirstBreak(a) + 1 && Lines(a[n..] + b) == Lines(a[n..]) + Lines(b)
    ensures Lines(a + b) == Lines(a) + Lines(b)
  {
    BreakStays(a, b);
    FirstLine(a, n);
    FirstLine(a + b, n);
    JoinCut(a, b, n);
    Associative([a[..n]], Lines(a[n..]), Lines(b));
  }

  /** One poll hands out the lines between the cursors and moves on to the start of a line. */
  lemma PollDelivers(file: Bytes, cursor: nat)
    requires AtLine(file, cursor)
    ensures var page := Read(file, cursor);
      && !page.reset && cursor <= page.cursor && AtLine(file, page.cursor)
      && Lines(file[..cursor]) + page.lines == Lines(file[..page.cursor])
  {
    var n := Complete(Window(file, cursor));
    WindowPrefix(file, cursor, n);
    LinesJoin(file[..cursor], Window(file, cursor)[..n]);
  }

  lemma WindowPrefix(file: Bytes, cursor: nat, n: nat)
    requires cursor <= |file| && n <= |Window(file, cursor)|
    ensures cursor + n <= |file| && file[..cursor] + Window(file, cursor)[..n] == file[..cursor + n]
    ensures n > 0 ==> file[cursor + n - 1] == Window(file, cursor)[n - 1]
  {
    assert Window(file, cursor)[..n] == file[cursor..cursor + n];
  }

  /** A poll moves on exactly when a line ends within the next 65536 bytes; a
      line that fits is therefore never waited for. */
  lemma PollAdvances(file: Bytes, cursor: nat)
    requires AtLine(file, cursor)
    ensures Read(file, cursor).cursor > cursor <==> BREAK in Window(file, cursor)
  {
    var data := Window(file, cursor);
    var n := Complete(data);
    if n == 0 { assert data[0..] == data; } else { assert data[n - 1] in data; }
  }

  /** When the rest of the file fits and a poll does not move, every complete
      line has been handed out. */
  lemma NothingLeft(file: Bytes, cursor: nat)
    requires AtLine(file, cursor) && Read(file, cursor).cursor == cursor && |file| - cursor <= READ_BYTES
    ensures Lines(file[..cursor]) == Lines(file)
  {
    var data := Window(file, cursor);
    PollAdvances(file, cursor);
    NoBreakNoLine(data);
    LinesJoin(file[..cursor], data);
    assert file == file[..cursor] + data;
  }

  /** A cursor past the end, as after a new run emptied the file, starts over. */
  lemma ResetStartsOver(file: Bytes, cursor: nat)
    ensures Read(file, cursor).reset <==> cursor > |file|
    ensures cursor > |file| ==> Read(file, cursor) == Read(file, 0).(reset := true)
  {
  }

  /** When a poll says there is no more, every complete line has been handed
      out, unless the next line alone is longer than one read. */
  lemma NoMoreMeansAll(file: Bytes, cursor: nat)
    requires AtLine(file, cursor) && !Read(file, cursor).more
    ensures Lines(file[..Read(file, cursor).cursor]) == Lines(file) || (|file| - cursor > READ_BYTES && BREAK !in Window(file, cursor))
  {
    if BREAK in Window(file, cursor) {
      NoMoreIsEnd(file, cursor, Read(file, cursor).cursor);
    } else if |file| - cursor <= READ_BYTES {
      PollAdvances(file, cursor);
      NothingLeft(file, cursor);
    }
  }

  lemma NoMoreIsEnd(file: Bytes, cursor: nat, next: nat)
    requires AtLine(file, cursor) && !Read(file, cursor).more && BREAK in Window(file, cursor) && next == Read(file, cursor).cursor
    ensures next == |file| && file[..next] == file
  {
    PollAdvances(file, cursor);
    PollDelivers(file, cursor);
  }

  /** Every line can be read at once, as the recorder's can. */
  ghost predicate LinesFit(file: Bytes) {
    forall c: nat :: AtLine(file, c) && |file| - c > READ_BYTES ==> BREAK in Window(file, c)
  }

  /** Polling for as long as there is more. */
  function Drain(file: Bytes, cursor: nat): seq<Bytes>
    requires AtLine(file, cursor)
    decreases |file| - cursor
  {
    var page := Read(file, cursor);
    PollDelivers(file, cursor);
    if page.more then page.lines + Drain(file, page.cursor) else page.lines
  }

  /** It gives all complete lines after the cursor. */
  lemma {:induction false} DrainDelivers(file: Bytes, cursor: nat)
    requires AtLine(file, cursor) && LinesFit(file)
    ensures Lines(file[..cursor]) + Drain(file, cursor) == Lines(file)
    decreases |file| - cursor
  {
    var page := Read(file, cursor);
    PollDelivers(file, cursor);
    if page.more {
      DrainDelivers(file, page.cursor);
      Associative(Lines(file[..cursor]), page.lines, Drain(file, page.cursor));
    } else {
      NoMoreMeansAll(file, cursor);
    }
  }

  // ---- following a growing file ------------------------------------------------------------------------------

  datatype Reader = Reader(file: Bytes, cursor: nat, got: seq<Bytes>)

  datatype Move = Append(data: Bytes) | Poll

  function Follow(moves: seq<Move>): Reader {
    if moves == [] then Reader([], 0, [])
    else
      var r := Follow(moves[..|moves| - 1]);
      match moves[|moves| - 1]
      case Append(data) => r.(file := r.file + data)
      case Poll =>
        var page := Read(r.file, r.cursor);
        r.(cursor := page.cursor, got := r.got + page.lines)
  }

  /** Whatever is appended, whole records or parts of them, polling from the
      start hands out each complete line before the cursor once, in order. */
  lemma {:induction false} FollowingDelivers(moves: seq<Move>)
    ensures var r := Follow(moves); AtLine(r.file, r.cursor) && r.got == Lines(r.file[..r.cursor])
  {
    if moves != [] {
      FollowingDelivers(moves[..|moves| - 1]);
      var r := Follow(moves[..|moves| - 1]);
      match moves[|moves| - 1]
      case Append(data) => assert (r.file + data)[..r.cursor] == r.file[..r.cursor];
      case Poll => PollDelivers(r.file, r.cursor);
    }
  }

  // ---- a record always fits ------------------------------------------------------------------------------------

  /** Bytes of a text in UTF-8. */
  function Utf8Size(s: string): nat {
    if s == "" then 0
    else
      var c := s[0] as int;
      (if c < 0x80 then 1 else if c < 0x800 then 2 else if c < 0x10000 then 3 else 4) + Utf8Size(s[1..])
  }

  lemma {:induction false} SizeOfJoin(a: string, b: string)
    ensures Utf8Size(a + b) == Utf8Size(a) + Utf8Size(b)
  {
    if a == "" {
      assert a + b == b;
    } else {
      SizeOfJoin(a[1..], b);
      assert (a + b)[1..] == a[1..] + b;
    }
  }

  lemma {:induction false} SizeOfPlain(s: string)
    requires forall c <- s :: c as int < 0x80
    ensures Utf8Size(s) == |s|
  {
    if s != "" {
      assert s[0] in s && forall c :: c in s[1..] ==> c in s;
      SizeOfPlain(s[1..]);
    }
  }

  lemma SizeOfEscape(c: char)
    ensures Utf8Size(JsonText.Escape(c)) <= 6
  {
    var e := JsonText.Escape(c);
    if |e| > 1 {
      assert forall d <- e :: d as int < 0x80;
      SizeOfPlain(e);
    } else {
      assert e[1..] == "";
    }
  }

  lemma {:induction false} SizeOfPrinted(s: string)
    ensures Utf8Size(JsonText.EscapeAll(s)) <= 6 * |s|
  {
    if s != "" {
      SizeOfEscape(s[0]);
      SizeOfPrinted(s[1..]);
      SizeOfJoin(JsonText.Escape(s[0]), JsonText.EscapeAll(s[1..]));
    }
  }

  /** A record of the recorder, whose other fields take up to 40957 bytes, fits
      one read whatever its text is: the reader always gets past it. */
  lemma RecordFits(otherFields: nat, text: string)
    requires |text| <= TEXT_CHARS && otherFields <= 40957
    ensures otherFields + Utf8Size(JsonText.Print(text)) + 1 <= READ_BYTES
  {
    SizeOfPrinted(text);
    SizeOfJoin([JsonText.QUOTE], JsonText.EscapeAll(text));
    SizeOfJoin([JsonText.QUOTE] + JsonText.EscapeAll(text), [JsonText.QUOTE]);
    SizeOfPlain([JsonText.QUOTE]);
  }
}
