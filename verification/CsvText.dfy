/** The text of a CSV export and a reader for it: RFC 4180 section 2, with LF as the
    record separator. */
module CsvText {
  import opened Common

  // ----------------------------------------------------------------------- the writer

  predicate FormulaStart(v: string) {
    v != "" && v[0] in {'=', '+', '-', '@', '\t', '\r'}
  }

  /** A value as the export hands it to the reader: never the start of a formula. */
  function Neutralise(v: string): (r: string)
    ensures !FormulaStart(r)
    ensures r == v || (FormulaStart(v) && r == "'" + v)
  {
    if FormulaStart(v) then "'" + v else v
  }

  /** Every quote doubled. */
  function Doubled(v: string): string {
    if v == "" then ""
    else (if v[0] == '"' then "\"\"" else [v[0]]) + Doubled(v[1..])
  }

  /** Doubles the quotes first, then looks for a leading formula character. */
  function Escape(v: string): string {
    var text := Doubled(v);
    "\"" + (if FormulaStart(text) then "'" + text else text) + "\""
  }

  /** Doubling quotes hides no formula character: escaping is quoting the neutralised value. */
  lemma EscapeQuotesNeutralised(v: string)
    ensures Escape(v) == "\"" + Doubled(Neutralise(v)) + "\""
  {
    if FormulaStart(v) {
      assert ("'" + v)[1..] == v;
      assert Doubled("'" + v) == "'" + Doubled(v);
    }
  }

  function Digit(d: nat): char
    requires d < 10
  {
    '0' + d as char
  }

  function Digits(n: nat): (r: string)
    ensures r != "" && forall c :: c in r ==> '0' <= c <= '9'
  {
    if n < 10 then [Digit(n)] else Digits(n / 10) + [Digit(n % 10)]
  }

  /** `toFixed(2)` on a whole number of cents. */
  function FormatCents(cents: int): string {
    var n := if cents < 0 then -cents else cents;
    (if cents < 0 then "-" else "") + Digits(n / 100) + "." + [Digit(n / 10 % 10), Digit(n % 10)]
  }

  /** Four text fields and a total make a line. */
  datatype Line = Line(name: string, email: string, reference: string, currency: string, total: int)

  function LineText(l: Line): string {
    Escape(l.name) + "," + Escape(l.email) + "," + Escape(l.reference) + "," + Escape(l.currency) + ","
    + FormatCents(l.total)
  }

  function Quote(v: string): string {
    "\"" + v + "\""
  }

  const HEADER := ["Agent", "Email", "IBAN/Reference", "Currency", "Total"]

  /** The header words, each in quotes, with commas between them. */
  function HeaderText(h: seq<string>): string
    requires |h| == 5
  {
    Quote(h[0]) + "," + Quote(h[1]) + "," + Quote(h[2]) + "," + Quote(h[3]) + "," + Quote(h[4])
  }

  /** The header and the lines, joined by line feeds. */
  function DocumentText(lines: seq<Line>): string {
    if lines == [] then HeaderText(HEADER)
    else DocumentText(lines[..|lines| - 1]) + "\n" + LineText(lines[|lines| - 1])
  }

  // ----------------------------------------------------------------------- the reader

  datatype Mode = FieldStart | Plain | Quoted | QuoteSeen

  /** Where the reader stands: the records read, the fields of the current record, the
      current field. */
  datatype Reader = Reader(mode: Mode, field: string, record: seq<string>, records: seq<seq<string>>) {
    function EndField(): Reader {
      Reader(FieldStart, "", record + [field], records)
    }

    function EndRecord(): Reader {
      Reader(FieldStart, "", [], records + [record + [field]])
    }
  }

  /** One character. None: the text breaks the rules (a bare quote, or text after a
      closing quote). */
  function Advance(r: Reader, c: char): Option<Reader> {
    match r.mode
    case FieldStart =>
      if c == '"' then Some(r.(mode := Quoted))
      else if c == ',' then Some(r.EndField())
      else if c == '\n' then Some(r.EndRecord())
      else Some(r.(mode := Plain, field := [c]))
    case Plain =>
      if c == '"' then None
      else if c == ',' then Some(r.EndField())
      else if c == '\n' then Some(r.EndRecord())
      else Some(r.(field := r.field + [c]))
    case Quoted =>
      if c == '"' then Some(r.(mode := QuoteSeen)) else Some(r.(field := r.field + [c]))
    case QuoteSeen =>
      if c == '"' then Some(r.(mode := Quoted, field := r.field + [c]))
      else if c == ',' then Some(r.EndField())
      else if c == '\n' then Some(r.EndRecord())
      else None
  }

  function Scan(r: Reader, text: string): Option<Reader>
    decreases |text|
  {
    if text == "" then Some(r)
    else
      match Advance(r, text[0])
      case None => None
      case Some(next) => Scan(next, text[1..])
  }

  /** All records of a text; the last one may do without its line feed. */
  function ReadCsv(text: string): Option<seq<seq<string>>> {
    match Scan(Reader(FieldStart, "", [], []), text)
    case None => None
    case Some(r) =>
      if r.mode == Quoted then None
      else if r.mode == FieldStart && r.record == [] then Some(r.records)
      else Some(r.EndRecord().records)
  }

  // ------------------------------------------------------------------------ round trip

  lemma {:induction false} ScanAppend(r: Reader, a: string, b: string)
    ensures Scan(r, a + b) == (match Scan(r, a) case None => None case Some(next) => Scan(next, b))
    decreases |a|
  {
    if a == "" {
      assert a + b == b;
    } else {
      assert (a + b)[0] == a[0] && (a + b)[1..] == a[1..] + b;
      match Advance(r, a[0])
      case None =>
      case Some(next) => ScanAppend(next, a[1..], b);
    }
  }

  /** Inside quotes, doubled text reads back as the text. */
  lemma {:induction false} ScanDoubled(r: Reader, v: string)
    requires r.mode == Quoted
    ensures Scan(r, Doubled(v)) == Some(r.(field := r.field + v))
    decreases |v|
  {
    if v == "" {
      assert r.field + v == r.field;
    } else {
      var head, next := if v[0] == '"' then "\"\"" else [v[0]], r.(field := r.field + [v[0]]);
      ScanAppend(r, head, Doubled(v[1..]));
      ScanHead(r, v[0]);
      ScanDoubled(next, v[1..]);
      assert r.field + [v[0]] + v[1..] == r.field + v;
    }
  }

  lemma ScanHead(r: Reader, c: char)
    requires r.mode == Quoted
    ensures Scan(r, if c == '"' then "\"\"" else [c]) == Some(r.(field := r.field + [c]))
  {
    if c == '"' {
      var once := r.(mode := QuoteSeen);
      assert "\"\""[1..] == "\"";
      assert Scan(once, "\"") == Some(r.(field := r.field + [c])) by {
        assert "\""[1..] == "";
      }
    } else {
      assert [c][1..] == "";
    }
  }

  /** A quoted field followed by a comma becomes one field. */
  lemma ScanQuoted(r: Reader, v: string)
    requires r.mode == FieldStart && r.field == ""
    ensures Scan(r, "\"" + Doubled(v) + "\"") == Some(r.(mode := QuoteSeen, field := v))
  {
    var inside := r.(mode := Quoted);
    ScanAppend(r, "\"" + Doubled(v), "\"");
    ScanAppend(r, "\"", Doubled(v));
    ScanDoubled(inside, v);
    assert "" + v == v;
  }

  lemma ScanTextField(r: Reader, v: string)
    requires r.mode == FieldStart && r.field == ""
    ensures Scan(r, Escape(v) + ",") == Some(r.(record := r.record + [Neutralise(v)]))
  {
    EscapeQuotesNeutralised(v);
    ScanQuoted(r, Neutralise(v));
    ScanAppend(r, Escape(v), ",");
  }

  /** A text field and its comma, with the rest of the text after them. */
  lemma ScanStep(r: Reader, v: string, rest: string)
    requires r.mode == FieldStart && r.field == ""
    ensures Scan(r, Escape(v) + "," + rest) == Scan(r.(record := r.record + [Neutralise(v)]), rest)
  {
    ScanTextField(r, v);
    ScanAppend(r, Escape(v) + ",", rest);
  }

  lemma ScanTwo(r: Reader, a: string, b: string, rest: string)
    requires r.mode == FieldStart && r.field == ""
    ensures Scan(r, Escape(a) + "," + (Escape(b) + "," + rest))
            == Scan(r.(record := r.record + [Neutralise(a), Neutralise(b)]), rest)
  {
    var next := r.(record := r.record + [Neutralise(a)]);
    ScanStep(r, a, Escape(b) + "," + rest);
    ScanStep(next, b, rest);
    assert next.record + [Neutralise(b)] == r.record + [Neutralise(a), Neutralise(b)];
  }

  function FourFields(a: string, b: string, c: string, d: string, rest: string): string {
    Escape(a) + "," + (Escape(b) + "," + (Escape(c) + "," + (Escape(d) + "," + rest)))
  }

  lemma ScanFour(r: Reader, a: string, b: string, c: string, d: string, rest: string)
    requires r.mode == FieldStart && r.field == "" && r.record == []
    ensures Scan(r, FourFields(a, b, c, d, rest)) ==
            Scan(r.(record := [Neutralise(a), Neutralise(b), Neutralise(c), Neutralise(d)]), rest)
  {
    var mid := r.(record := r.record + [Neutralise(a), Neutralise(b)]);
    ScanTwo(r, a, b, Escape(c) + "," + (Escape(d) + "," + rest));
    ScanTwo(mid, c, d, rest);
    assert mid.record + [Neutralise(c), Neutralise(d)] == [Neutralise(a), Neutralise(b), Neutralise(c), Neutralise(d)];
  }

  predicate PlainText(v: string) {
    forall c :: c in v ==> c !in {'"', ',', '\n'}
  }

  lemma {:induction false} ScanPlain(r: Reader, v: string)
    requires r.mode == Plain && PlainText(v)
    ensures Scan(r, v) == Some(r.(field := r.field + v))
    decreases |v|
  {
    if v == "" {
      assert r.field + v == r.field;
    } else {
      var next := r.(field := r.field + [v[0]]);
      assert v[0] in v;
      assert forall c :: c in v[1..] ==> c in v;
      ScanPlain(next, v[1..]);
      assert r.field + [v[0]] + v[1..] == r.field + v;
    }
  }

  lemma ScanBareField(r: Reader, v: string)
    requires r.mode == FieldStart && v != "" && PlainText(v)
    ensures Scan(r, v) == Some(r.(mode := Plain, field := v))
  {
    var next := r.(mode := Plain, field := [v[0]]);
    assert v[0] in v;
    assert forall c :: c in v[1..] ==> c in v;
    ScanPlain(next, v[1..]);
    assert [v[0]] + v[1..] == v;
  }

  function LineFields(l: Line): seq<string> {
    [Neutralise(l.name), Neutralise(l.email), Neutralise(l.reference), Neutralise(l.currency), FormatCents(l.total)]
  }

  /** Where the reader stands when a line has just been read. */
  predicate LineDone(r: Reader, fields: seq<string>, records: seq<seq<string>>) {
    r.mode in {Plain, QuoteSeen} && r.record + [r.field] == fields && r.records == records
  }

  lemma ScanLine(records: seq<seq<string>>, l: Line)
    ensures var r := Scan(Reader(FieldStart, "", [], records), LineText(l));
            r.Some? && LineDone(r.value, LineFields(l), records)
  {
    var r := Reader(FieldStart, "", [], records);
    LineTextShape(l);
    ScanFour(r, l.name, l.email, l.reference, l.currency, FormatCents(l.total));
    var last := r.(record := [Neutralise(l.name), Neutralise(l.email), Neutralise(l.reference),
                              Neutralise(l.currency)]);
    ScanBareField(last, FormatCents(l.total));
  }

  lemma LineTextShape(l: Line)
    ensures LineText(l) == FourFields(l.name, l.email, l.reference, l.currency, FormatCents(l.total))
  {
    JoinShape(Escape(l.name), Escape(l.email), Escape(l.reference), Escape(l.currency), FormatCents(l.total));
  }

  lemma JoinShape(a: string, b: string, c: string, d: string, e: string)
    ensures a + "," + b + "," + c + "," + d + "," + e == a + "," + (b + "," + (c + "," + (d + "," + e)))
  {
  }

  lemma {:induction false} DoubledPlain(v: string)
    requires PlainText(v)
    ensures Doubled(v) == v
  {
    if v != "" {
      assert v[0] in v && forall c :: c in v[1..] ==> c in v;
      DoubledPlain(v[1..]);
    }
  }

  predicate HeaderWord(v: string) {
    PlainText(v) && !FormulaStart(v)
  }

  lemma EscapeWord(v: string)
    requires HeaderWord(v)
    ensures Escape(v) == Quote(v) == "\"" + Doubled(v) + "\"" && Neutralise(v) == v
  {
    DoubledPlain(v);
  }

  lemma ScanWords(h: seq<string>)
    requires |h| == 5 && forall i :: 0 <= i < 5 ==> HeaderWord(h[i])
    ensures Scan(Reader(FieldStart, "", [], []), HeaderText(h)) == Some(Reader(QuoteSeen, h[4], h[..4], []))
  {
    var r := Reader(FieldStart, "", [], []);
    forall i | 0 <= i < 5
      ensures Escape(h[i]) == Quote(h[i]) == "\"" + Doubled(h[i]) + "\"" && Neutralise(h[i]) == h[i]
    {
      EscapeWord(h[i]);
    }
    JoinShape(Quote(h[0]), Quote(h[1]), Quote(h[2]), Quote(h[3]), Quote(h[4]));
    ScanFour(r, h[0], h[1], h[2], h[3], Quote(h[4]));
    assert [h[0], h[1], h[2], h[3]] == h[..4];
    ScanQuoted(r.(record := h[..4]), h[4]);
  }

  lemma ScanHeader()
    ensures var r := Scan(Reader(FieldStart, "", [], []), HeaderText(HEADER));
            r.Some? && LineDone(r.value, HEADER, [])
  {
    assert HeaderWord("Agent") && HeaderWord("Email") && HeaderWord("IBAN/Reference") && HeaderWord("Currency")
           && HeaderWord("Total");
    ScanWords(HEADER);
    assert HEADER[..4] + [HEADER[4]] == HEADER;
  }

  function Records(lines: seq<Line>): seq<seq<string>> {
    if lines == [] then [HEADER] else Records(lines[..|lines| - 1]) + [LineFields(lines[|lines| - 1])]
  }

  /** Where the reader stands after a whole text: one record per line, the header first. */
  lemma {:induction false} ScanLines(lines: seq<Line>)
    ensures var r := Scan(Reader(FieldStart, "", [], []), DocumentText(lines));
            r.Some? && r.value.mode in {Plain, QuoteSeen}
            && r.value.records + [r.value.record + [r.value.field]] == Records(lines)
  {
    if lines == [] {
      ScanHeader();
    } else {
      var n := |lines| - 1;
      ScanLines(lines[..n]);
      var start := Reader(FieldStart, "", [], []);
      var before := Scan(start, DocumentText(lines[..n])).value;
      ScanAppend(start, DocumentText(lines[..n]) + "\n", LineText(lines[n]));
      ScanAppend(start, DocumentText(lines[..n]), "\n");
      ScanLine(before.EndRecord().records, lines[n]);
    }
  }

  // ------------------------------------------------------------ totals read back, too

  function DigitValue(c: char): int {
    c as int - '0' as int
  }

  function DigitsValue(s: string): int {
    if s == "" then 0 else DigitsValue(s[..|s| - 1]) * 10 + DigitValue(s[|s| - 1])
  }

  function ReadUnsigned(s: string): int {
    if |s| < 3 then 0 else DigitsValue(s[..|s| - 3]) * 100 + DigitsValue(s[|s| - 2..])
  }

  /** The cents a formatted total stands for. */
  function ReadTotal(s: string): int {
    if s != "" && s[0] == '-' then -ReadUnsigned(s[1..]) else ReadUnsigned(s)
  }

  lemma {:induction false} DigitsReadBack(n: nat)
    ensures DigitsValue(Digits(n)) == n
  {
    if n < 10 {
      assert [Digit(n)][..0] == "";
    } else {
      DigitsReadBack(n / 10);
      var s := Digits(n);
      assert s[..|s| - 1] == Digits(n / 10);
    }
  }

  /** Reading the exported text returns the header and exactly the lines, in order. */
  lemma CsvRoundTrip(lines: seq<Line>)
    ensures ReadCsv(DocumentText(lines)) == Some(Records(lines))
  {
    ScanLines(lines);
  }

  predicate SafeTexts(fields: seq<string>) {
    |fields| == 5 && forall f :: 0 <= f < 4 ==> !FormulaStart(fields[f])
  }

  /** Record k holds the neutralised texts of the k-th line and its total; none of the text
      fields can start a formula. */
  lemma {:induction false} RecordsAreTheLines(lines: seq<Line>)
    ensures |Records(lines)| == |lines| + 1 && Records(lines)[0] == HEADER
    ensures forall k :: 1 <= k < |Records(lines)| ==>
              Records(lines)[k] == LineFields(lines[k - 1]) && SafeTexts(Records(lines)[k])
  {
    if lines != [] {
      RecordsAreTheLines(lines[..|lines| - 1]);
    }
  }

  lemma TotalReadsBack(cents: int)
    ensures ReadTotal(FormatCents(cents)) == cents
  {
    var n := if cents < 0 then -cents else cents;
    var whole, tail := Digits(n / 100), [Digit(n / 10 % 10), Digit(n % 10)];
    var u := whole + "." + tail;
    assert FormatCents(cents) == if cents < 0 then "-" + u else u;
    assert u[..|u| - 3] == whole && u[|u| - 2..] == tail;
    DigitsReadBack(n / 100);
    assert tail[..1] == [Digit(n / 10 % 10)] && tail[..1][..0] == "";
    assert DigitValue(Digit(n / 10 % 10)) == n / 10 % 10 && DigitValue(Digit(n % 10)) == n % 10;
    assert DigitsValue(tail[..1]) == n / 10 % 10;
    assert DigitsValue(tail) == n / 10 % 10 * 10 + n % 10;
    assert n == n / 100 * 100 + (n / 10 % 10 * 10 + n % 10);
    assert ReadUnsigned(u) == n;
    assert u[0] in whole;
  }
}
