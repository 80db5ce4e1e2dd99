/**
 * The CSV export of `exportCSV` (App.jsx): every value of a roster row is rendered
 * with `String(v || '')`, wrapped in double quotes with inner quotes doubled (the
 * quoting of RFC 4180, section 2, rules 5 to 7), and joined with commas under a
 * fixed thirteen-column header. A byte-order mark precedes the document.
 */
module Csv {
  import opened Wrappers
  import opened Text
  import opened Aggregation
  import opened Scoring

  // ---------------------------------------------------------------------------
  // Values
  // ---------------------------------------------------------------------------

  /** A row value before rendering: a string, a number, or `undefined`. */
  datatype CsvValue = Str(s: string) | Num(n: int) | Missing

  /** `String(v || '')`: the falsy values `""`, `0` and `undefined` all become the empty string. */
  function Display(v: CsvValue): (r: string)
    ensures v.Missing? || v == Str("") || v == Num(0) ==> r == ""
    ensures v.Str? ==> r == v.s
    ensures v.Num? && v.n != 0 ==> r != "" && (v.n < 0 <==> r[0] == '-')
    ensures v.Num? && v.n > 0 ==> (forall i :: 0 <= i < |r| ==> IsDigit(r[i])) && ParseNat(r) == v.n
    ensures v.Num? && v.n < 0 ==> |r| >= 2 && (forall i :: 1 <= i < |r| ==> IsDigit(r[i])) && ParseNat(r[1..]) == -v.n
  {
    match v
    case Str(s) => s
    case Num(n) =>
      if n == 0 then ""
      else
        ParseNatToString(if n > 0 then n else -n);
        assert n < 0 ==> IntToString(n)[1..] == NatToString(-n);
        IntToString(n)
    case Missing => ""
  }

  // ---------------------------------------------------------------------------
  // Quoting
  // ---------------------------------------------------------------------------

  function CountQuotes(s: string): nat {
    if s == [] then 0 else (if s[0] == '"' then 1 else 0) + CountQuotes(s[1..])
  }

  /** `replace(/"/g, '""')`. */
  function Escape(s: string): (e: string)
    ensures |e| == |s| + CountQuotes(s)
  {
    if s == [] then [] else (if s[0] == '"' then "\"\"" else [s[0]]) + Escape(s[1..])
  }

  /** A field: the escaped text between two quotes. */
  function Quote(s: string): (q: string)
    ensures |q| == |s| + CountQuotes(s) + 2 && q[0] == '"' && q[|q| - 1] == '"'
  {
    "\"" + Escape(s) + "\""
  }

  /**
   * Reads the inside of a quoted field up to its closing quote: a doubled quote
   * stands for one quote, a single one ends the field. Gives the text and what
   * follows the closing quote.
   */
  function ReadQuoted(s: string): (r: Option<(string, string)>)
    ensures r.Some? ==> |r.value.1| < |s|
    decreases |s|
  {
    if s == [] then None
    else if s[0] == '"' then
      if |s| >= 2 && s[1] == '"' then
        match ReadQuoted(s[2..])
        case None => None
        case Some(p) => Some(("\"" + p.0, p.1))
      else Some(("", s[1..]))
    else
      match ReadQuoted(s[1..])
      case None => None
      case Some(p) => Some(([s[0]] + p.0, p.1))
  }

  /** Every quote inside a field is doubled, so reading it back gives the text and stops at the closing quote. */
  lemma {:induction false} ReadEscaped(s: string, tail: string)
    requires tail == [] || tail[0] != '"'
    ensures ReadQuoted(Escape(s) + "\"" + tail) == Some((s, tail))
    decreases |s|
  {
    if s == [] {
      assert Escape(s) + "\"" + tail == "\"" + tail;
    } else {
      ReadEscaped(s[1..], tail);
      var rest := Escape(s[1..]) + "\"" + tail;
      if s[0] == '"' {
        assert Escape(s) + "\"" + tail == "\"\"" + rest;
        assert ("\"\"" + rest)[2..] == rest;
        assert "\"" + s[1..] == s;
      } else {
        assert Escape(s) + "\"" + tail == [s[0]] + rest;
        assert ([s[0]] + rest)[1..] == rest;
        assert [s[0]] + s[1..] == s;
      }
    }
  }

  /** Un-quoting a field gives back the displayed value. */
  lemma QuoteRoundTrip(s: string)
    ensures ReadQuoted(Quote(s)[1..]) == Some((s, ""))
  {
    ReadEscaped(s, "");
    assert Quote(s)[1..] == Escape(s) + "\"" + "";
  }

  // ---------------------------------------------------------------------------
  // Rows
  // ---------------------------------------------------------------------------

  function QuoteAll(vs: seq<string>): (qs: seq<string>)
    ensures |qs| == |vs|
    ensures forall i :: 0 <= i < |vs| ==> qs[i] == Quote(vs[i])
  {
    if vs == [] then [] else [Quote(vs[0])] + QuoteAll(vs[1..])
  }

  /** A comma-separated line of quoted fields, read back into the field texts. */
  function ParseFields(line: string): Option<seq<string>>
    decreases |line|
  {
    if line == [] || line[0] != '"' then None
    else
      match ReadQuoted(line[1..])
      case None => None
      case Some(p) =>
        if p.1 == [] then Some([p.0])
        else if p.1[0] == ',' then
          match ParseFields(p.1[1..])
          case None => None
          case Some(more) => Some([p.0] + more)
        else None
  }

  /** Joining quoted fields with commas and reading them back gives the fields. */
  lemma {:induction false} ParseJoined(vs: seq<string>)
    requires vs != []
    ensures ParseFields(Join(QuoteAll(vs), ",")) == Some(vs)
    decreases |vs|
  {
    var qs := QuoteAll(vs);
    if |vs| == 1 {
      QuoteRoundTrip(vs[0]);
      assert Join(qs, ",") == Quote(vs[0]);
      assert Quote(vs[0])[0] == '"';
      assert vs == [vs[0]];
    } else {
      var rest := Join(qs[1..], ",");
      assert qs[1..] == QuoteAll(vs[1..]);
      ParseJoined(vs[1..]);
      var line := Join(qs, ",");
      assert line == Quote(vs[0]) + "," + rest;
      ReadEscaped(vs[0], "," + rest);
      assert line[1..] == Escape(vs[0]) + "\"" + ("," + rest);
      assert ("," + rest)[1..] == rest;
      assert [vs[0]] + vs[1..] == vs;
    }
  }

  /** The thirteen header columns. */
  const Columns: seq<string> := ["Nome", "Tipo", "Paese", "Score", "Consensus", "AUM", "Ticket", "Focus",
                                 "Relevance", "News", "DataNews", "FonteNews", "LLM"]

  /** The header line: the column names joined by commas. */
  const Header: string := Join(Columns, ",")

  /** No column name holds a comma or a quote, so the header line has exactly thirteen fields. */
  lemma ColumnsArePlain()
    ensures |Columns| == 13
    ensures forall i :: 0 <= i < |Columns| ==> ',' !in Columns[i] && '"' !in Columns[i]
  {
  }

  /** `i.allNews?.[0]?.<field>`: the first news item's field, or `undefined`. */
  function FirstNews(inv: Investor, field: NewsItem -> string): CsvValue {
    if inv.allNews == [] then Missing else Str(field(inv.allNews[0]))
  }

  function SourceLlms(sources: seq<Source>): (r: seq<string>)
    ensures |r| == |sources|
    ensures forall i :: 0 <= i < |r| ==> r[i] == sources[i].llm
  {
    seq(|sources|, i requires 0 <= i < |sources| => sources[i].llm)
  }

  /** The thirteen values of one roster entry, in header order. */
  function RowValues(r: Ranked): (vs: seq<CsvValue>)
    ensures |vs| == |Columns|
  {
    var m := r.inv.first;
    [Str(m.name), Str(m.investorType), Str(m.country), Num(r.score), Num(r.inv.consensus), Str(m.aum),
     Str(m.ticketSize), Str(Join(m.focus, ";")), Str(m.relevance),
     FirstNews(r.inv, (n: NewsItem) => n.text), FirstNews(r.inv, (n: NewsItem) => n.date),
     FirstNews(r.inv, (n: NewsItem) => n.source),
     Str(Join(SourceLlms(r.inv.sources), ";"))]
  }

  function Displayed(vs: seq<CsvValue>): (ds: seq<string>)
    ensures |ds| == |vs|
    ensures forall i :: 0 <= i < |vs| ==> ds[i] == Display(vs[i])
  {
    seq(|vs|, i requires 0 <= i < |vs| => Display(vs[i]))
  }

  /** One CSV line per roster entry. */
  function Row(r: Ranked): string {
    Join(QuoteAll(Displayed(RowValues(r))), ",")
  }

  /** Every row reads back as exactly thirteen fields, one per column, holding the displayed values. */
  lemma RowRoundTrip(r: Ranked)
    ensures ParseFields(Row(r)) == Some(Displayed(RowValues(r)))
    ensures |Displayed(RowValues(r))| == |Columns| == 13
  {
    ParseJoined(Displayed(RowValues(r)));
  }

  function Rows(s: seq<Ranked>): (rows: seq<string>)
    ensures |rows| == |s|
    ensures forall i :: 0 <= i < |s| ==> rows[i] == Row(s[i])
  {
    seq(|s|, i requires 0 <= i < |s| => Row(s[i]))
  }

  /** The exported text: nothing without results, otherwise the mark, the header line and the rows. */
  function Document(agg: Option<Aggregated>): Option<string> {
    match agg
    case None => None
    case Some(a) => Some("\U{FEFF}" + Header + "\n" + Join(Rows(a.investors), "\n"))
  }

  /** A CSV document exists exactly when there are results, and begins with the mark and the header line. */
  lemma DocumentShape(agg: Option<Aggregated>)
    ensures Document(agg).Some? <==> agg.Some?
    ensures Document(agg).Some? ==> StartsWith(Document(agg).value, "\U{FEFF}" + Header + "\n")
  {
    if agg.Some? {
      var d := Document(agg).value;
      var p := "\U{FEFF}" + Header + "\n";
      assert d == p + Join(Rows(agg.value.investors), "\n");
      assert d[..|p|] == p;
    }
  }

  /** Score and consensus are never falsy for a roster entry, so they always appear in the row. */
  lemma ScoreAndConsensusShown(r: Ranked)
    requires r.score >= 30 && r.inv.consensus >= 1
    ensures Display(RowValues(r)[3]) == IntToString(r.score)
    ensures Display(RowValues(r)[4]) == IntToString(r.inv.consensus)
  {
  }
}
