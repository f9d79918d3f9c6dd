/** Spreadsheet-style cell references: the reader in
    app/models/document_input.py and the writer in app/checks/guardrails.py. */
module CellNames {
  import opened Options

  datatype Pos = Pos(row: nat, column: nat)

  predicate IsLetter(c: char) { 'A' <= c <= 'Z' }

  predicate IsLetters(s: string) {
    s == "" || (IsLetter(s[|s| - 1]) && IsLetters(s[..|s| - 1]))
  }

  // ---- decimal digits, as the pattern \d and int() understand them ---------------------

  // Zeros of the decimal digit runs of Unicode other than ASCII, in three stretches.

  const LOW_ZEROS: seq<int> := [0x660] + [
    0x6F0, 0x7C0, 0x966, 0x9E6, 0xA66, 0xAE6, 0xB66, 0xBE6, 0xC66, 0xCE6, 0xD66, 0xDE6, 0xE50, 0xED0, 0xF20, 0x1040, 0x1090
  ]

  const MIDDLE_ZEROS: seq<int> := [
    0x17E0, 0x1810, 0x1946, 0x19D0, 0x1A80, 0x1A90, 0x1B50, 0x1BB0, 0x1C40, 0x1C50
  ]

  const HIGH_ZEROS: seq<int> := [
    0xA620, 0xA8D0, 0xA900, 0xA9D0, 0xA9F0, 0xAA50, 0xABF0, 0xFF10, 0x104A0, 0x10D30, 0x11066, 0x110F0, 0x11136,
    0x111D0, 0x112F0, 0x11450, 0x114D0, 0x11650, 0x116C0, 0x11730, 0x118E0, 0x11950, 0x11C50, 0x11D50, 0x11DA0,
    0x11F50, 0x16A60, 0x16AC0, 0x16B50, 0x1D7CE, 0x1D7D8, 0x1D7E2, 0x1D7EC, 0x1D7F6, 0x1E140, 0x1E2F0, 0x1E4F0,
    0x1E950, 0x1FBF0
  ]

  function DigitIn(zeros: seq<int>, code: int): (r: Option<nat>)
    ensures r.Some? ==> r.value < 10
  {
    if zeros == [] then None
    else if zeros[0] <= code < zeros[0] + 10 then Some(code - zeros[0])
    else DigitIn(zeros[1..], code)
  }

  predicate IsAscii(c: char) { '0' <= c <= '9' }

  function DigitValue(c: char): (r: Option<nat>)
    ensures r.Some? ==> r.value < 10 && c >= '0' && !IsLetter(c) && c != ':' && c != '='
    ensures IsAscii(c) ==> r == Some((c - '0') as nat)
  {
    if IsAscii(c) then Some((c - '0') as nat)
    else if 0x660 <= c as int < 0x10A0 then DigitIn(LOW_ZEROS, c as int)
    else if 0x17E0 <= c as int < 0x1C60 then DigitIn(MIDDLE_ZEROS, c as int)
    else if 0xA620 <= c as int then DigitIn(HIGH_ZEROS, c as int)
    else None
  }

  /** [1-9]\d* */
  predicate IsNumber(s: string) {
    s != "" && '1' <= s[0] <= '9' && AllDigits(s)
  }

  predicate AllDigits(s: string) {
    s == "" || (DigitValue(s[|s| - 1]).Some? && AllDigits(s[..|s| - 1]))
  }

  predicate AllAscii(s: string) {
    s == "" || (IsAscii(s[|s| - 1]) && AllAscii(s[..|s| - 1]))
  }

  function Value(s: string): nat
    requires AllDigits(s)
  {
    if s == "" then 0 else Value(s[..|s| - 1]) * 10 + DigitValue(s[|s| - 1]).value
  }

  /** str(n) */
  function Decimal(n: nat): string {
    (if n < 10 then "" else Decimal(n / 10)) + [(n % 10) as char + '0']
  }

  lemma {:induction false} DecimalReadsBack(n: nat)
    requires n > 0
    ensures IsNumber(Decimal(n)) && AllAscii(Decimal(n)) && Value(Decimal(n)) == n
  {
    var s := Decimal(n);
    if n >= 10 {
      DecimalReadsBack(n / 10);
      assert s[..|s| - 1] == Decimal(n / 10);
    } else {
      assert s[..|s| - 1] == "";
    }
  }

  lemma {:induction false} ValuePositive(s: string)
    requires IsNumber(s)
    ensures Value(s) > 0 && (|s| > 1 ==> Value(s) >= 10 && IsNumber(s[..|s| - 1]))
  {
    if |s| > 1 { ValuePositive(s[..|s| - 1]); }
    else { assert s[..0] == "" && IsAscii(s[0]); }
  }

  lemma PrefixPositive(s: string, start: string)
    requires IsNumber(s) && |s| > 1 && start == s[..|s| - 1]
    ensures IsNumber(start) && Value(start) > 0 && Value(s) == Value(start) * 10 + DigitValue(s[|s| - 1]).value
  {
    ValuePositive(s);
    ValuePositive(start);
  }

  lemma DecimalAppend(n: nat, c: char)
    requires n > 0 && IsAscii(c)
    ensures Decimal(n * 10 + DigitValue(c).value) == Decimal(n) + [c]
  {
    var d := DigitValue(c).value;
    assert (n * 10 + d) / 10 == n && (n * 10 + d) % 10 == d;
  }

  /** A number is spelled back when its digits are the ASCII ones. */
  lemma {:induction false} NumberWritesBack(s: string)
    requires IsNumber(s) && AllAscii(s)
    ensures Decimal(Value(s)) == s
  {
    var n := |s| - 1;
    var start, last := s[..n], s[n];
    assert s == start + [last] && IsAscii(last);
    if n > 0 {
      PrefixPositive(s, start);
      NumberWritesBack(start);
      DecimalAppend(Value(start), last);
    } else {
      assert start == "" && Value(start) == 0;
      assert Decimal(DigitValue(last).value) == [last];
    }
  }

  // ---- columns in base 26 without a zero digit ---------------------------------------------

  function LetterValue(c: char): nat
    requires IsLetter(c)
  {
    c as nat - 'A' as nat + 1
  }

  function Letter(remainder: nat): (c: char)
    requires remainder < 26
    ensures IsLetter(c) && LetterValue(c) == remainder + 1
  {
    (remainder + 'A' as nat) as char
  }

  function ColumnNumber(letters: string): nat
    requires IsLetters(letters)
  {
    if letters == "" then 0
    else ColumnNumber(letters[..|letters| - 1]) * 26 + LetterValue(letters[|letters| - 1])
  }

  function ColumnLetters(value: nat): string {
    if value == 0 then "" else ColumnLetters((value - 1) / 26) + [Letter((value - 1) % 26)]
  }

  lemma {:induction false} LettersReadBack(value: nat)
    ensures IsLetters(ColumnLetters(value)) && ColumnNumber(ColumnLetters(value)) == value
    ensures value > 0 <==> ColumnLetters(value) != ""
  {
    if value > 0 {
      var s := ColumnLetters(value);
      LettersReadBack((value - 1) / 26);
      assert s[..|s| - 1] == ColumnLetters((value - 1) / 26);
    }
  }

  lemma {:induction false} LettersWriteBack(s: string)
    requires IsLetters(s)
    ensures ColumnLetters(ColumnNumber(s)) == s
  {
    if s != "" {
      var n := |s| - 1;
      LettersWriteBack(s[..n]);
      var q, r := ColumnNumber(s[..n]), LetterValue(s[n]) - 1;
      assert ColumnNumber(s) - 1 == q * 26 + r;
      assert (q * 26 + r) / 26 == q && (q * 26 + r) % 26 == r;
      assert s == s[..n] + [s[n]];
    }
  }

  /** 26 + 26*26 + 26*26*26 columns have names of at most three letters. */
  const NAMED_COLUMNS: nat := 18278

  lemma MoreLetters(value: nat)
    requires value > 0
    ensures |ColumnLetters(value)| == 1 + |ColumnLetters((value - 1) / 26)|
    ensures |ColumnLetters(value)| == 1 <==> (value - 1) / 26 == 0
  {
    LettersReadBack((value - 1) / 26);
  }

  lemma ThreeLetters(value: nat)
    requires value > 0
    ensures |ColumnLetters(value)| <= 3 <==> value <= NAMED_COLUMNS
  {
    MoreLetters(value);
    var a := (value - 1) / 26;
    if a > 0 {
      MoreLetters(a);
      var b := (a - 1) / 26;
      if b > 0 { MoreLetters(b); }
    }
  }

  // ---- references -----------------------------------------------------------------------------

  /** How many letters a reference starts with. */
  function LetterCount(s: string): (n: nat)
    ensures n <= |s|
  {
    if s == "" || !IsLetter(s[0]) then 0 else 1 + LetterCount(s[1..])
  }

  /** ([A-Z]+)([1-9]\d*) matches the whole text. */
  predicate IsReference(s: string) {
    var n := LetterCount(s);
    n > 0 && IsLetters(s[..n]) && IsNumber(s[n..])
  }

  lemma {:induction false} LettersAppend(letters: string, more: string)
    requires IsLetters(letters) && IsLetters(more)
    ensures IsLetters(letters + more)
  {
    if more == "" {
      assert letters + more == letters;
    } else {
      LettersAppend(letters, more[..|more| - 1]);
      assert (letters + more)[..|letters + more| - 1] == letters + more[..|more| - 1];
    }
  }

  /** The letters counted are the longest run of letters at the start. */
  lemma {:induction false} CountedLetters(s: string)
    ensures IsLetters(s[..LetterCount(s)])
    ensures LetterCount(s) < |s| ==> !IsLetter(s[LetterCount(s)])
  {
    if s != "" && IsLetter(s[0]) {
      CountedLetters(s[1..]);
      var n := LetterCount(s[1..]);
      assert [s[0]][..0] == "";
      LettersAppend([s[0]], s[1..][..n]);
      assert s[..n + 1] == [s[0]] + s[1..][..n];
    }
  }

  function Position(s: string): Pos
    requires IsReference(s)
  {
    ValuePositive(s[LetterCount(s)..]);
    LettersWriteBack(s[..LetterCount(s)]);
    Pos(Value(s[LetterCount(s)..]) - 1, ColumnNumber(s[..LetterCount(s)]) - 1)
  }

  predicate AsciiReference(s: string) { forall c <- s :: c <= 'Z' }

  function Name(p: Pos): string { ColumnLetters(p.column + 1) + Decimal(p.row + 1) }

  lemma {:induction false} LettersPrefix(letters: string, i: nat)
    requires IsLetters(letters) && i <= |letters|
    ensures IsLetters(letters[..i]) && (i < |letters| ==> IsLetter(letters[i]))
  {
    var n := |letters| - 1;
    if i <= n {
      LettersPrefix(letters[..n], i);
      assert letters[..n][..i] == letters[..i];
    } else {
      assert letters[..i] == letters;
    }
  }

  /** Reads a reference as `_cell_position` does. */
  method ReadPosition(reference: string) returns (p: Option<Pos>)
    ensures p == if IsReference(reference) then Some(Position(reference)) else None
  {
    var n := LetterCount(reference);
    CountedLetters(reference);
    if n == 0 || !IsNumber(reference[n..]) { return None; }
    var letters := reference[..n];
    var column: nat := 0;
    var i := 0;
    while i < n
      invariant 0 <= i <= n
      invariant IsLetters(letters[..i]) && column == ColumnNumber(letters[..i])
    {
      var next := letters[..i + 1];
      assert next[..i] == letters[..i] && next[i] == letters[i];
      LettersPrefix(letters, i + 1);
      column := column * 26 + LetterValue(letters[i]);
      i := i + 1;
    }
    assert letters[..n] == letters;
    LettersWriteBack(letters);
    ValuePositive(reference[n..]);
    p := Some(Pos(Value(reference[n..]) - 1, column - 1));
  }

  function Reverse(s: string): string {
    if s == "" then "" else Reverse(s[1..]) + [s[0]]
  }

  lemma {:induction false} ReverseAppend(s: string, c: char)
    ensures Reverse(s + [c]) == [c] + Reverse(s)
  {
    if s != "" {
      assert (s + [c])[1..] == s[1..] + [c];
      ReverseAppend(s[1..], c);
    }
  }

  lemma MoreColumnLetters(value: nat, letters: string)
    requires value > 0
    ensures ColumnLetters((value - 1) / 26) + Reverse(letters + [Letter((value - 1) % 26)]) == ColumnLetters(value) + Reverse(letters)
  {
    ReverseAppend(letters, Letter((value - 1) % 26));
  }

  function AtLeastOne(n: int): nat { if n < 1 then 1 else n }

  /** The divmod loop, which finds the letters from the last to the first. */
  method WriteLetters(column: nat) returns (letters: string)
    ensures Reverse(letters) == ColumnLetters(column)
  {
    letters := "";
    var value := column;
    while value != 0
      invariant ColumnLetters(value) + Reverse(letters) == ColumnLetters(column)
      decreases value
    {
      MoreColumnLetters(value, letters);
      var remainder := (value - 1) % 26;
      value := (value - 1) / 26;
      letters := letters + [Letter(remainder)];
    }
  }

  /** Writes a reference as `_pdf_cell_name` does; rows and columns count from 1
      and smaller ones are taken as 1. */
  method WriteName(row: int, column: int) returns (name: string)
    ensures name == Name(Pos(AtLeastOne(row) - 1, AtLeastOne(column) - 1))
  {
    var letters := WriteLetters(AtLeastOne(column));
    name := Reverse(letters) + Decimal(AtLeastOne(row));
  }

  lemma {:induction false} LetterCountOf(s: string, n: nat)
    requires n < |s| && !IsLetter(s[n]) && forall i :: 0 <= i < n ==> IsLetter(s[i])
    ensures LetterCount(s) == n
  {
    if n > 0 { LetterCountOf(s[1..], n - 1); }
  }

  lemma LetterAt(letters: string, i: nat)
    requires IsLetters(letters) && i < |letters|
    ensures IsLetter(letters[i])
  {
    LettersPrefix(letters, i);
  }

  lemma NameSplits(letters: string, digits: string)
    requires IsLetters(letters) && IsNumber(digits)
    ensures LetterCount(letters + digits) == |letters|
  {
    forall i | 0 <= i < |letters| ensures IsLetter((letters + digits)[i]) { LetterAt(letters, i); }
    LetterCountOf(letters + digits, |letters|);
  }

  /** Reading a written name gives the position back. */
  lemma NamesReadBack(p: Pos)
    ensures IsReference(Name(p)) && Position(Name(p)) == p
    ensures LetterCount(Name(p)) == |ColumnLetters(p.column + 1)|
  {
    var letters, digits := ColumnLetters(p.column + 1), Decimal(p.row + 1);
    LettersReadBack(p.column + 1);
    DecimalReadsBack(p.row + 1);
    NameSplits(letters, digits);
    assert Name(p)[..|letters|] == letters && Name(p)[|letters|..] == digits;
  }

  lemma NamesAreDistinct(p: Pos, q: Pos)
    requires Name(p) == Name(q)
    ensures p == q
  {
    NamesReadBack(p);
    NamesReadBack(q);
  }

  lemma NameParts(s: string)
    requires IsReference(s)
    ensures IsLetters(s[..LetterCount(s)]) && IsNumber(s[LetterCount(s)..])
    ensures Name(Position(s)) == ColumnLetters(ColumnNumber(s[..LetterCount(s)])) + Decimal(Value(s[LetterCount(s)..]))
  {
  }

  lemma PartsWriteBack(letters: string, digits: string)
    requires IsLetters(letters) && IsNumber(digits) && AsciiReference(digits)
    ensures ColumnLetters(ColumnNumber(letters)) + Decimal(Value(digits)) == letters + digits
  {
    AsciiDigits(digits);
    NumberWritesBack(digits);
    LettersWriteBack(letters);
  }

  lemma AsciiEnd(s: string, n: nat)
    requires n <= |s| && AsciiReference(s)
    ensures AsciiReference(s[n..])
  {
    forall c | c in s[n..] ensures c <= 'Z' { assert c in s; }
  }

  lemma AsciiWritesBack(s: string)
    requires IsReference(s) && AsciiReference(s)
    ensures Name(Position(s)) == s
  {
    var n := LetterCount(s);
    NameParts(s);
    AsciiEnd(s, n);
    PartsWriteBack(s[..n], s[n..]);
    assert s == s[..n] + s[n..];
  }

  lemma {:induction false} AsciiDigits(digits: string)
    requires AllDigits(digits) && AsciiReference(digits)
    ensures AllAscii(digits)
  {
    if digits != "" {
      var start := digits[..|digits| - 1];
      assert digits[|digits| - 1] in digits;
      assert forall c :: c in start ==> c in digits;
      AsciiDigits(start);
    }
  }

  lemma {:induction false} AsciiMembers(s: string)
    requires AllAscii(s) || IsLetters(s)
    ensures AsciiReference(s)
  {
    if s != "" {
      AsciiMembers(s[..|s| - 1]);
      assert s == s[..|s| - 1] + [s[|s| - 1]];
    }
  }

  lemma NameIsAscii(p: Pos)
    ensures AsciiReference(Name(p))
  {
    LettersReadBack(p.column + 1);
    DecimalReadsBack(p.row + 1);
    AsciiMembers(ColumnLetters(p.column + 1));
    AsciiMembers(Decimal(p.row + 1));
  }

  /** Writing the position of a reference gives the reference back exactly when
      all its digits are ASCII ones. */
  lemma ReferencesWriteBack(s: string)
    requires IsReference(s)
    ensures Name(Position(s)) == s <==> AsciiReference(s)
  {
    NameIsAscii(Position(s));
    if AsciiReference(s) { AsciiWritesBack(s); }
  }

  /** The reader accepts digits the writer never produces. */
  lemma ForeignDigitsAreRead()
    ensures var s := ['A', '1', 0x662 as char];
      IsReference(s) && Position(s) == Pos(11, 0) && Name(Position(s)) != s
  {
    var s := ['A', '1', 0x662 as char];
    assert s[1..] == ['1', 0x662 as char];
    assert LetterCount(s[1..]) == 0 && LetterCount(s) == 1;
    assert DigitIn(LOW_ZEROS, 0x662) == Some(2);
    var digits := s[1..];
    assert digits[..1] == ['1'] && digits[..1][..0] == "";
    assert Value(digits[..1]) == 1;
    assert Value(digits) == 12;
    assert s[..1] == "A" && s[..1][..0] == "";
    assert ColumnNumber(s[..1]) == 1;
    assert IsReference(s);
    assert s[2] in s;
    ReferencesWriteBack(s);
  }
}
