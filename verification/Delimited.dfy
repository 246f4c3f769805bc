/** The delimited export of rollups, and a reader for it. */
module Delimited {
  import opened Common

  /** A value of a row: missing, printed as text, or an object printed as its JSON text. */
  datatype Value = Missing | Primitive(text: string) | Object(json: string)

  const QUOTE := '\"'
  const LF := '\n'
  const CR := '\r'

  const HEADERS := ["bucket", "metricName", "metricValue", "bucketStart", "bucketEnd", "dimensions", "createdAt"]

  /** Each line feed, with a carriage return before it if there is one, becomes a space. */
  function Squash(s: string): string {
    if s == "" then ""
    else if s[0] == LF then " " + Squash(s[1..])
    else if |s| > 1 && s[0] == CR && s[1] == LF then " " + Squash(s[2..])
    else [s[0]] + Squash(s[1..])
  }

  function Escape(s: string): string {
    if s == "" then ""
    else if s[0] == QUOTE then [QUOTE, QUOTE] + Escape(s[1..])
    else [s[0]] + Escape(s[1..])
  }

  function Quote(v: Value): string {
    match v
    case Missing => ""
    case Primitive(text) => [QUOTE] + Escape(Squash(text)) + [QUOTE]
    case Object(json) => [QUOTE] + Escape(json) + [QUOTE]
  }

  function Join(parts: seq<string>, separator: char): string {
    if parts == [] then ""
    else if |parts| == 1 then parts[0]
    else parts[0] + [separator] + Join(parts[1..], separator)
  }

  function QuoteAll(row: seq<Value>): seq<string> {
    seq(|row|, i requires 0 <= i < |row| => Quote(row[i]))
  }

  function Lines(rows: seq<seq<Value>>, delimiter: char): seq<string> {
    [Join(HEADERS, delimiter)] + seq(|rows|, i requires 0 <= i < |rows| => Join(QuoteAll(rows[i]), delimiter))
  }

  method ToDelimited(rows: seq<seq<Value>>, delimiter: char) returns (text: string)
    ensures text == Join(Lines(rows, delimiter), LF)
  {
    hide Join, Quote;
    var lines := [Join(HEADERS, delimiter)];
    var i := 0;
    while i < |rows|
      invariant 0 <= i <= |rows| && lines == Lines(rows, delimiter)[..i + 1]
    {
      lines := lines + [Join(QuoteAll(rows[i]), delimiter)];
      i := i + 1;
    }
    assert Lines(rows, delimiter)[..|rows| + 1] == Lines(rows, delimiter);
    text := Join(lines, LF);
  }

  // ---------------------------------------------------------------------------------------------
  // A reader after section 2 of RFC 4180, with line feeds as line ends
  // ---------------------------------------------------------------------------------------------

  /** A field as written: bare, or enclosed in quotes with its quotes doubled. */
  datatype Field = Bare(text: string) | Enclosed(text: string)

  /** After the opening quote, up to the closing one. */
  function ReadEnclosed(s: string): (r: Option<(string, string)>)
    ensures r.Some? ==> |r.value.1| < |s|
  {
    if s == "" then None
    else if s[0] != QUOTE then Prepend(s[0], ReadEnclosed(s[1..]))
    else if |s| > 1 && s[1] == QUOTE then Prepend(QUOTE, ReadEnclosed(s[2..]))
    else Some(("", s[1..]))
  }

  function Prepend(c: char, r: Option<(string, string)>): Option<(string, string)> {
    if r.None? then None else Some(([c] + r.value.0, r.value.1))
  }

  /** Up to a delimiter or a line feed; a quote inside a bare field is an error. */
  function ReadBare(s: string, delimiter: char): (r: Option<(string, string)>)
    ensures r.Some? ==> |r.value.1| <= |s|
  {
    if s == "" || s[0] == delimiter || s[0] == LF then Some(("", s))
    else if s[0] == QUOTE then None
    else Prepend(s[0], ReadBare(s[1..], delimiter))
  }

  function ReadField(s: string, delimiter: char): (r: Option<(Field, string)>)
    ensures r.Some? ==> |r.value.1| <= |s|
  {
    if s != "" && s[0] == QUOTE then
      var r := ReadEnclosed(s[1..]);
      if r.None? then None else Some((Enclosed(r.value.0), r.value.1))
    else
      var r := ReadBare(s, delimiter);
      if r.None? then None else Some((Bare(r.value.0), r.value.1))
  }

  /** One record and what follows its line feed, or nothing at the end of the text. */
  function ReadRecord(s: string, delimiter: char): (r: Option<(seq<Field>, Option<string>)>)
    ensures r.Some? && r.value.1.Some? ==> |r.value.1.value| < |s|
    decreases |s|
  {
    var f := ReadField(s, delimiter);
    if f.None? then None
    else
      var (field, rest) := f.value;
      if rest == "" then Some(([field], None))
      else if rest[0] == LF then Some(([field], Some(rest[1..])))
      else if rest[0] != delimiter then None
      else
        var more := ReadRecord(rest[1..], delimiter);
        if more.None? then None else Some(([field] + more.value.0, more.value.1))
  }

  function Read(s: string, delimiter: char): Option<seq<seq<Field>>>
    decreases |s|
  {
    var r := ReadRecord(s, delimiter);
    if r.None? then None
    else if r.value.1.None? then Some([r.value.0])
    else
      var more := Read(r.value.1.value, delimiter);
      if more.None? then None else Some([r.value.0] + more.value)
  }

  // ---------------------------------------------------------------------------------------------
  // The round trip
  // ---------------------------------------------------------------------------------------------

  /** What a value is read back as: a missing value is bare and empty, any other is enclosed. */
  function FieldOf(v: Value): Field {
    match v
    case Missing => Bare("")
    case Primitive(text) => Enclosed(Squash(text))
    case Object(json) => Enclosed(json)
  }

  function Shown(f: Field): string {
    match f
    case Bare(text) => text
    case Enclosed(text) => [QUOTE] + Escape(text) + [QUOTE]
  }

  predicate Readable(f: Field, delimiter: char) {
    f.Bare? ==> forall c <- f.text :: c != delimiter && c != LF && c != QUOTE
  }

  function ShownAll(fields: seq<Field>): seq<string> {
    seq(|fields|, i requires 0 <= i < |fields| => Shown(fields[i]))
  }

  predicate Ends(tail: string, delimiter: char) { tail == "" || tail[0] == delimiter || tail[0] == LF }

  lemma {:induction false} EnclosedRoundTrip(text: string, tail: string)
    requires tail == "" || tail[0] != QUOTE
    ensures ReadEnclosed(Escape(text) + [QUOTE] + tail) == Some((text, tail))
  {
    var s := Escape(text) + [QUOTE] + tail;
    if text == "" {
      assert s == [QUOTE] + tail && s[1..] == tail;
    } else {
      var more := Escape(text[1..]) + [QUOTE] + tail;
      EnclosedRoundTrip(text[1..], tail);
      assert text == [text[0]] + text[1..];
      if text[0] == QUOTE {
        assert s == [QUOTE, QUOTE] + more && s[2..] == more;
      } else {
        assert s == [text[0]] + more && s[1..] == more;
      }
    }
  }

  lemma {:induction false} BareRoundTrip(text: string, tail: string, delimiter: char)
    requires Readable(Bare(text), delimiter) && Ends(tail, delimiter)
    ensures ReadBare(text + tail, delimiter) == Some((text, tail))
  {
    var s := text + tail;
    if text == "" {
      assert s == tail;
    } else {
      assert text[0] in text && s[0] == text[0];
      assert s[1..] == text[1..] + tail;
      assert forall c <- text[1..] :: c in text;
      BareRoundTrip(text[1..], tail, delimiter);
      assert text == [text[0]] + text[1..];
    }
  }

  lemma {:induction false} FieldRoundTrip(f: Field, tail: string, delimiter: char)
    requires Readable(f, delimiter) && Ends(tail, delimiter) && delimiter != QUOTE
    ensures ReadField(Shown(f) + tail, delimiter) == Some((f, tail))
  {
    var s := Shown(f) + tail;
    hide Escape, ReadEnclosed, ReadBare;
    match f
    case Bare(text) =>
      BareRoundTrip(text, tail, delimiter);
      if text != "" {
        assert text[0] in text && s[0] == text[0];
      }
    case Enclosed(text) =>
      EnclosedRoundTrip(text, tail);
      EnclosedTail(Escape(text), tail);
  }

  lemma {:induction false} EnclosedTail(inner: string, tail: string)
    ensures var s := [QUOTE] + inner + [QUOTE] + tail;
      s[0] == QUOTE && s[1..] == inner + [QUOTE] + tail
  {
  }

  lemma {:induction false} RecordRoundTrip(fields: seq<Field>, tail: string, delimiter: char)
    requires fields != [] && (forall f <- fields :: Readable(f, delimiter))
    requires delimiter != QUOTE && delimiter != LF && (tail == "" || tail[0] == LF)
    ensures ReadRecord(Join(ShownAll(fields), delimiter) + tail, delimiter)
         == Some((fields, if tail == "" then None else Some(tail[1..])))
    decreases |fields|
  {
    hide Shown, ReadField, Readable;
    var parts := ShownAll(fields);
    var s := Join(parts, delimiter) + tail;
    assert fields[0] in fields;
    if |fields| == 1 {
      FieldRoundTrip(fields[0], tail, delimiter);
      assert fields == [fields[0]];
    } else {
      var rest := Join(parts[1..], delimiter) + tail;
      assert parts[1..] == ShownAll(fields[1..]);
      assert s == parts[0] + ([delimiter] + rest);
      FieldRoundTrip(fields[0], [delimiter] + rest, delimiter);
      assert ([delimiter] + rest)[1..] == rest;
      RecordRoundTrip(fields[1..], tail, delimiter);
      assert fields == [fields[0]] + fields[1..];
    }
  }

  function ShownLines(records: seq<seq<Field>>, delimiter: char): seq<string> {
    seq(|records|, i requires 0 <= i < |records| => Join(ShownAll(records[i]), delimiter))
  }

  lemma {:induction false} RecordsRoundTrip(records: seq<seq<Field>>, delimiter: char)
    requires records != [] && delimiter != QUOTE && delimiter != LF
    requires forall r <- records :: r != [] && forall f <- r :: Readable(f, delimiter)
    ensures Read(Join(ShownLines(records, delimiter), LF), delimiter) == Some(records)
    decreases |records|
  {
    hide ReadRecord, Shown, Readable;
    var lines := ShownLines(records, delimiter);
    var s := Join(lines, LF);
    assert records[0] in records;
    if |records| == 1 {
      RecordRoundTrip(records[0], "", delimiter);
      assert s == lines[0] + "";
      assert records == [records[0]];
    } else {
      var rest := Join(lines[1..], LF);
      assert lines[1..] == ShownLines(records[1..], delimiter);
      assert s == lines[0] + ([LF] + rest);
      RecordRoundTrip(records[0], [LF] + rest, delimiter);
      assert ([LF] + rest)[1..] == rest;
      assert forall r <- records[1..] :: r in records;
      RecordsRoundTrip(records[1..], delimiter);
      assert records == [records[0]] + records[1..];
    }
  }

  function HeaderFields(): seq<Field> {
    seq(|HEADERS|, i requires 0 <= i < |HEADERS| => Bare(HEADERS[i]))
  }

  function FieldsOf(row: seq<Value>): seq<Field> {
    seq(|row|, i requires 0 <= i < |row| => FieldOf(row[i]))
  }

  function RecordsOf(rows: seq<seq<Value>>): seq<seq<Field>> {
    [HeaderFields()] + seq(|rows|, i requires 0 <= i < |rows| => FieldsOf(rows[i]))
  }

  lemma {:induction false} QuoteShows(v: Value)
    ensures Quote(v) == Shown(FieldOf(v))
  {
  }

  lemma {:induction false} HeadersReadable(delimiter: char)
    requires delimiter == ',' || delimiter == '\t'
    ensures forall f <- HeaderFields() :: Readable(f, delimiter)
  {
    forall f | f in HeaderFields() ensures Readable(f, delimiter) {
      var i :| 0 <= i < |HEADERS| && f == Bare(HEADERS[i]);
      LettersOnly(i);
    }
  }

  lemma {:induction false} LettersOnly(i: nat)
    requires i < |HEADERS|
    ensures forall c <- HEADERS[i] :: c != ',' && c != '\t' && c != LF && c != QUOTE
  {
  }

  lemma {:induction false} LinesShow(rows: seq<seq<Value>>, delimiter: char)
    ensures Lines(rows, delimiter) == ShownLines(RecordsOf(rows), delimiter)
  {
    hide Join, Quote, Shown;
    forall row: seq<Value> ensures QuoteAll(row) == ShownAll(FieldsOf(row)) {
      forall i | 0 <= i < |row| ensures Quote(row[i]) == Shown(FieldsOf(row)[i]) {
        QuoteShows(row[i]);
      }
    }
    assert ShownAll(HeaderFields()) == HEADERS by {
      HeadersShow();
    }
  }

  lemma {:induction false} HeadersShow()
    ensures ShownAll(HeaderFields()) == HEADERS
  {
  }

  /**
   * Reading an export back gives the header line and every cell of every row, for either delimiter
   * and any text: only line breaks inside primitive values are lost, to spaces.
   */
  lemma {:induction false} ExportRoundTrip(rows: seq<seq<Value>>, delimiter: char)
    requires delimiter == ',' || delimiter == '\t'
    requires forall row <- rows :: row != []
    ensures Read(Join(Lines(rows, delimiter), LF), delimiter) == Some(RecordsOf(rows))
  {
    hide Join, Lines, Read, Readable;
    LinesShow(rows, delimiter);
    HeadersReadable(delimiter);
    var records := RecordsOf(rows);
    forall r | r in records ensures r != [] && forall f <- r :: Readable(f, delimiter) {
      var i :| 0 <= i < |records| && r == records[i];
      if i > 0 {
        assert rows[i - 1] in rows;
        forall f | f in FieldsOf(rows[i - 1]) ensures Readable(f, delimiter) {
          ValueReadable(f, rows[i - 1], delimiter);
        }
      }
    }
    RecordsRoundTrip(records, delimiter);
  }

  lemma {:induction false} ValueReadable(f: Field, row: seq<Value>, delimiter: char)
    requires f in FieldsOf(row)
    ensures Readable(f, delimiter)
  {
  }

  /** Two exports are the same text only if their rows agree up to those line breaks. */
  lemma {:induction false} ExportIsInjective(a: seq<seq<Value>>, b: seq<seq<Value>>, delimiter: char)
    requires delimiter == ',' || delimiter == '\t'
    requires (forall row <- a :: row != []) && (forall row <- b :: row != [])
    ensures Join(Lines(a, delimiter), LF) == Join(Lines(b, delimiter), LF)
       <==> RecordsOf(a) == RecordsOf(b)
  {
    ExportRoundTrip(a, delimiter);
    ExportRoundTrip(b, delimiter);
    LinesShow(a, delimiter);
    LinesShow(b, delimiter);
    hide Join, Lines, Read, RecordsOf;
  }

  /** A primitive value survives unchanged exactly when it holds no line feed. */
  lemma {:induction false} SquashKeepsIff(s: string)
    ensures LF !in Squash(s)
    ensures Squash(s) == s <==> LF !in s
    ensures |Squash(s)| <= |s|
  {
    if s == "" {
    } else if s[0] == LF {
      SquashKeepsIff(s[1..]);
      assert Squash(s)[0] == ' ';
    } else if |s| > 1 && s[0] == CR && s[1] == LF {
      SquashKeepsIff(s[2..]);
      assert s[1] in s;
    } else {
      SquashKeepsIff(s[1..]);
      assert s == [s[0]] + s[1..];
      assert Squash(s)[1..] == Squash(s[1..]);
    }
  }

  lemma {:induction false} SquashStep(s: string)
    requires s != "" && s[0] != LF && !(|s| > 1 && s[0] == CR && s[1] == LF)
    ensures Squash(s) == [s[0]] + Squash(s[1..])
  {
  }

  lemma {:induction false} SquashBreak(rest: string)
    ensures Squash([LF] + rest) == " " + Squash(rest)
    ensures Squash([CR, LF] + rest) == " " + Squash(rest)
  {
    assert ([LF] + rest)[1..] == rest && ([CR, LF] + rest)[2..] == rest;
  }

  /** What is left of a line when its end goes. */
  function Stripped(line: string): string {
    if line != "" && line[|line| - 1] == CR then line[..|line| - 1] else line
  }

  lemma {:induction false} StrippedTail(line: string)
    requires |line| > 1 || (|line| == 1 && line[0] != CR)
    ensures Stripped(line) == [line[0]] + Stripped(line[1..])
  {
    var tail := line[1..];
    assert line == [line[0]] + tail;
    if tail != "" && tail[|tail| - 1] == CR {
      assert line[..|line| - 1] == [line[0]] + tail[..|tail| - 1];
    }
  }

  /** A line and its end: the line feed becomes a space, and a carriage return before it goes with it. */
  lemma {:induction false} SquashLine(line: string, rest: string)
    requires LF !in line
    ensures Squash(line + [LF] + rest) == Stripped(line) + " " + Squash(rest)
  {
    hide Squash;
    SquashBreak(rest);
    var s := line + [LF] + rest;
    if line == "" {
      assert s == [LF] + rest;
    } else if line == [CR] {
      assert s == [CR, LF] + rest && line[..0] == "";
    } else {
      hide Stripped;
      var tail := line[1..];
      assert s == [line[0]] + (tail + [LF] + rest) && line[0] in line && (tail != "" ==> line[1] in line);
      SquashStep(s);
      SquashLine(tail, rest);
      StrippedTail(line);
      assert s[1..] == tail + [LF] + rest;
    }
  }

  /** The first line of an export. */
  lemma {:induction false} HeaderLine(rows: seq<seq<Value>>, delimiter: char)
    ensures |Lines(rows, delimiter)| == 1 + |rows|
    ensures RecordsOf(rows)[0] == [
              Bare("bucket"), Bare("metricName"), Bare("metricValue"), Bare("bucketStart"), Bare("bucketEnd"),
              Bare("dimensions"), Bare("createdAt")]
  {
  }
}
