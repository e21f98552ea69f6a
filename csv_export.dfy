/**
 * The CSV export of the idea list: one header line, then one line per idea
 * whose fields are quoted with inner quotes doubled (the quoting rule of
 * section 2 of RFC 4180) and separated by ';', the whole text preceded by a
 * byte-order mark.
 */
module CsvExport {
  import opened Wrappers
  import opened Text
  import opened Ideas
  import opened BusinessModel

  /** A value placed in a CSV field: absent, a string or a number. */
  datatype Cell = Missing | TextCell(text: string) | NumberCell(n: int)

  /** `String(value)` for a present value. */
  function Rendered(c: Cell): string
    requires !c.Missing?
  {
    match c
    case TextCell(s) => s
    case NumberCell(n) => IntToString(n)
  }

  /** `str.replace(/"/g, '""')`. */
  function DoubleQuotes(s: string): (r: string)
    ensures |r| >= |s|
  {
    if s == [] then [] else (if s[0] == '"' then "\"\"" else [s[0]]) + DoubleQuotes(s[1..])
  }

  /** `escapeAndQuote`: '' for an absent value, otherwise the doubled text between quotes. */
  function EscapeAndQuote(c: Cell): (r: string)
    ensures c.Missing? <==> r == ""
    ensures !c.Missing? ==> |r| >= 2 && r[0] == '"' && r[|r| - 1] == '"'
  {
    if c.Missing? then "" else "\"" + DoubleQuotes(Rendered(c)) + "\""
  }

  /**
   * Reads the rest of a quoted field (after its opening quote) the way a
   * CSV reader does: `""` stands for one quote, a single quote ends the
   * field. Yields the field's text and what follows the closing quote.
   */
  function ReadQuoted(t: string): Option<(string, string)>
  {
    if t == [] then None
    else if t[0] == '"' then
      if |t| >= 2 && t[1] == '"' then
        match ReadQuoted(t[2..])
        case Some(p) => Some(("\"" + p.0, p.1))
        case None => None
      else Some(([], t[1..]))
    else
      match ReadQuoted(t[1..])
      case Some(p) => Some(([t[0]] + p.0, p.1))
      case None => None
  }

  /** Reads a whole quoted field from the start of `t`. */
  function ReadField(t: string): Option<(string, string)>
  {
    if t != [] && t[0] == '"' then ReadQuoted(t[1..]) else None
  }

  lemma {:induction false} ReadQuotedDoubled(s: string, rest: string)
    requires rest == [] || rest[0] != '"'
    ensures ReadQuoted(DoubleQuotes(s) + "\"" + rest) == Some((s, rest))
  {
    var t := DoubleQuotes(s) + "\"" + rest;
    if s == [] {
      assert t == "\"" + rest;
    } else if s[0] == '"' {
      ReadQuotedDoubled(s[1..], rest);
      assert t == "\"\"" + (DoubleQuotes(s[1..]) + "\"" + rest);
      assert t[2..] == DoubleQuotes(s[1..]) + "\"" + rest;
      assert s == "\"" + s[1..];
    } else {
      ReadQuotedDoubled(s[1..], rest);
      assert t == [s[0]] + (DoubleQuotes(s[1..]) + "\"" + rest);
      assert t[1..] == DoubleQuotes(s[1..]) + "\"" + rest;
      assert s == [s[0]] + s[1..];
    }
  }

  /**
   * Escaping is undone by a CSV reader: whatever the value holds (quotes,
   * ';', line breaks), reading the quoted field back yields exactly its
   * text, and the separator or line that follows is left intact.
   */
  lemma EscapeRoundTrip(c: Cell, rest: string)
    requires !c.Missing? && (rest == [] || rest[0] != '"')
    ensures ReadField(EscapeAndQuote(c) + rest) == Some((Rendered(c), rest))
  {
    var d := DoubleQuotes(Rendered(c));
    QuotedSplit(d, rest);
    ReadQuotedDoubled(Rendered(c), rest);
  }

  /** A quoted text followed by more text opens with the quote, and the rest is the text, the closing quote and what follows. */
  lemma QuotedSplit(d: string, rest: string)
    ensures var q := "\"" + d + "\"" + rest; |q| > 0 && q[0] == '"' && q[1..] == d + "\"" + rest
  {
    var q := "\"" + d + "\"" + rest;
    assert q == "\"" + (d + "\"" + rest);
  }

  /** The column titles, in order: nine fixed ones, the criteria, revenue and total. */
  const Headers: seq<string> :=
    ["ID", "Serviço", "Benefício Principal", "Público-Alvo", "Cluster", "Modelo de Negócio", "Status",
     "Criador", "Data de Criação"]
    + CriteriaTitles + ["Estimativa Faturamento", "Pontuação Total"]

  predicate IsDigit(c: char)
  {
    '0' <= c <= '9'
  }

  /** The number written by two decimal digits. */
  function TwoDigitValue(tens: char, units: char): int
  {
    10 * (tens as int - '0' as int) + (units as int - '0' as int)
  }

  /**
   * A text that begins with an ISO 8601 date, `yyyy-mm-dd`, whose month is
   * 01 to 12 and whose day is 01 to 31.
   */
  predicate IsIsoDate(s: string)
  {
    |s| >= 10 && s[4] == '-' && s[7] == '-'
    && (forall i :: 0 <= i < 10 && i != 4 && i != 7 ==> IsDigit(s[i]))
    && 1 <= TwoDigitValue(s[5], s[6]) <= 12
    && 1 <= TwoDigitValue(s[8], s[9]) <= 31
  }

  /**
   * `new Date(s).toLocaleDateString('pt-BR')`: the `dd/mm/yyyy` form of an
   * ISO date, and "Invalid Date" for a text that is not one.
   */
  function FormatDate(s: string): (r: string)
    ensures IsIsoDate(s) ==> |r| == 10 && r[2] == '/' && r[5] == '/' && r[6..] == s[..4]
    ensures IsIsoDate(s) ==> r[0] == s[8] && r[1] == s[9] && r[3] == s[5] && r[4] == s[6]
    ensures IsIsoDate(s) ==> 1 <= TwoDigitValue(r[3], r[4]) <= 12 && 1 <= TwoDigitValue(r[0], r[1]) <= 31
    ensures !IsIsoDate(s) ==> r == "Invalid Date"
  {
    if IsIsoDate(s) then s[8..10] + "/" + s[5..7] + "/" + s[..4] else "Invalid Date"
  }

  /** The date column: the pt-BR form of the creation date, '' when it is absent or empty. */
  function DateText(date: Option<string>): string
  {
    if date.Some? && date.value != "" then FormatDate(date.value) else ""
  }

  /** A month past December is no date: "2023-13-45" is formatted as "Invalid Date". */
  lemma ImpossibleMonthIsInvalid()
    ensures FormatDate("2023-13-45") == "Invalid Date"
  {
    assert TwoDigitValue("2023-13-45"[5], "2023-13-45"[6]) == 13;
  }

  /** The nine values before the scores, given the idea's category and date texts. */
  function FixedCells(s: Service, category: string, date: string): (cells: seq<Cell>)
    ensures |cells| == 9
    ensures cells[0] == NumberCell(s.id)
    ensures cells[5] == TextCell(category)
    ensures forall i :: 0 <= i < 9 ==> !cells[i].Missing?
  {
    var texts := [s.service, s.need, OrElse(s.targetAudience, ""), s.cluster, category,
                  StatusName(OrElse(s.status, Evaluation)), OrElse(s.creatorName, ""), date];
    [NumberCell(s.id)] + seq(|texts|, i requires 0 <= i < |texts| => TextCell(texts[i]))
  }

  /** The fixed values, then one value per score, then the revenue and the total. */
  function Assemble(fixed: seq<Cell>, scores: seq<int>, revenue: int): (cells: seq<Cell>)
    ensures |cells| == |fixed| + |scores| + 2
    ensures forall i :: 0 <= i < |fixed| ==> cells[i] == fixed[i]
    ensures forall k :: 0 <= k < |scores| ==> cells[|fixed| + k] == NumberCell(scores[k])
    ensures cells[|cells| - 2] == NumberCell(revenue) && cells[|cells| - 1] == NumberCell(Sum(scores))
    ensures (forall i :: 0 <= i < |fixed| ==> !fixed[i].Missing?) ==> forall i :: 0 <= i < |cells| ==> !cells[i].Missing?
  {
    fixed + seq(|scores|, k requires 0 <= k < |scores| => NumberCell(scores[k])) + [NumberCell(revenue), NumberCell(Sum(scores))]
  }

  /** The values of one idea's line, in column order. */
  function RowCells(s: Service): (cells: seq<Cell>)
    ensures |cells| == 11 + |s.scores|
    ensures cells[0] == NumberCell(s.id)
    ensures cells[5] == TextCell(MapBusinessModel(s.businessModel))
    ensures forall k :: 0 <= k < |s.scores| ==> cells[9 + k] == NumberCell(s.scores[k])
    ensures cells[|cells| - 1] == NumberCell(Sum(s.scores))
    ensures forall i :: 0 <= i < |cells| ==> !cells[i].Missing?
  {
    Assemble(FixedCells(s, MapBusinessModel(s.businessModel), DateText(s.creationDate)), s.scores, OrElse(s.revenueEstimate, 0))
  }

  /** A line with one entry per criterion has exactly one value under each column title. */
  lemma HeaderMatchesRow(s: Service)
    requires |s.scores| == CriteriaCount
    ensures |RowCells(s)| == |Headers|
  {
  }

  /** Escapes every value of a line. */
  function QuoteAll(cells: seq<Cell>): (r: seq<string>)
    ensures |r| == |cells|
    ensures forall i :: 0 <= i < |cells| ==> r[i] == EscapeAndQuote(cells[i])
  {
    if cells == [] then [] else [EscapeAndQuote(cells[0])] + QuoteAll(cells[1..])
  }

  /** One idea's line: its values escaped and joined with ';'. */
  function RowLine(s: Service): string
  {
    Join(";", QuoteAll(RowCells(s)))
  }

  /** The lines of all ideas, in list order. */
  function RowLines(services: seq<Service>): (r: seq<string>)
    ensures |r| == |services|
    ensures forall i :: 0 <= i < |services| ==> r[i] == RowLine(services[i])
  {
    seq(|services|, i requires 0 <= i < |services| => RowLine(services[i]))
  }

  /** A mark followed by a header and a body starts with the mark, then the header. */
  lemma MarkThenHeader(mark: string, header: string, body: string, joined: string)
    requires |mark| == 1 && joined == header + body
    ensures var r := mark + joined; |r| > 0 && r[0] == mark[0] && header <= r[1..]
    ensures mark + joined == mark + header + body
  {
    var r := mark + header + body;
    assert r[1..] == header + body;
  }

  /** Each part preceded by the separator, one after the other. */
  function EachPrefixed(sep: string, parts: seq<string>): string
  {
    if parts == [] then "" else sep + parts[0] + EachPrefixed(sep, parts[1..])
  }

  /** Joining a first part with more parts: the first part, then each further part after a separator. */
  lemma {:induction false} JoinFirstThenRest(sep: string, first: string, rest: seq<string>)
    ensures Join(sep, [first] + rest) == first + EachPrefixed(sep, rest)
    decreases |rest|
  {
    if rest != [] {
      JoinFirstThenRest(sep, rest[0], rest[1..]);
      assert [rest[0]] + rest[1..] == rest;
      assert ([first] + rest)[1..] == rest;
    }
  }

  /**
   * The file text: a byte-order mark, the header line, then for each idea,
   * in list order, a line break followed by that idea's line.
   */
  function CsvContent(services: seq<Service>): (r: string)
    ensures |r| > 0 && r[0] == '\U{FEFF}'
    ensures Join(";", Headers) <= r[1..]
    ensures r == "\U{FEFF}" + Join(";", Headers) + EachPrefixed("\n", RowLines(services))
  {
    var header := Join(";", Headers);
    var body := EachPrefixed("\n", RowLines(services));
    var joined := Join("\n", [header] + RowLines(services));
    JoinFirstThenRest("\n", header, RowLines(services));
    MarkThenHeader("\U{FEFF}", header, body, joined);
    "\U{FEFF}" + joined
  }

  /** `s.endsWith(t)`. */
  predicate EndsWith(s: string, t: string)
  {
    |t| <= |s| && s[|s| - |t|..] == t
  }

  /** A text that ends with `t` still does once something is put before it. */
  lemma EndsWithAfter(a: string, b: string, t: string)
    requires EndsWith(b, t)
    ensures EndsWith(a + b, t)
  {
    var w := a + b;
    assert w[|w| - |t|..] == b[|b| - |t|..];
  }

  /** A joined text ends with its last part. */
  lemma {:induction false} JoinEndsWithLast(sep: string, parts: seq<string>)
    requires parts != []
    ensures EndsWith(Join(sep, parts), parts[|parts| - 1])
  {
    if |parts| > 1 {
      JoinEndsWithLast(sep, parts[1..]);
      EndsWithAfter(parts[0] + sep, Join(sep, parts[1..]), parts[|parts| - 1]);
    }
  }

  /** Every idea's line ends with its score total between quotes. */
  lemma RowEndsWithTotal(s: Service)
    ensures EndsWith(RowLine(s), "\"" + IntToString(Sum(s.scores)) + "\"")
  {
    var cells := RowCells(s);
    var parts := QuoteAll(cells);
    JoinEndsWithLast(";", parts);
    assert cells[|cells| - 1] == NumberCell(Sum(s.scores));
    assert parts[|parts| - 1] == EscapeAndQuote(NumberCell(Sum(s.scores)));
    NoQuotesInNumbers(Sum(s.scores));
  }

  /** Decimal text has no quote, so doubling leaves it as it is. */
  lemma NoQuotesInNumbers(n: int)
    ensures DoubleQuotes(IntToString(n)) == IntToString(n)
  {
    NoQuoteDigits(if n < 0 then -n else n);
    if n < 0 {
      DoubleQuotesAppend("-", NatToString(-n));
    }
  }

  lemma {:induction false} NoQuoteDigits(n: nat)
    ensures DoubleQuotes(NatToString(n)) == NatToString(n)
  {
    if n >= 10 {
      NoQuoteDigits(n / 10);
      DoubleQuotesAppend(NatToString(n / 10), [DigitChar(n % 10)]);
    }
  }

  lemma {:induction false} DoubleQuotesAppend(a: string, b: string)
    ensures DoubleQuotes(a + b) == DoubleQuotes(a) + DoubleQuotes(b)
  {
    if a != [] {
      assert (a + b)[1..] == a[1..] + b;
      DoubleQuotesAppend(a[1..], b);
    } else {
      assert a + b == b;
    }
  }
}
