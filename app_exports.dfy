/**
 * The two documents app.py offers for download once a plan exists: the
 * combined report (served both as text and as Markdown) and the CSV summary.
 * Both are fixed layouts over the trip request, the three stored responses
 * and a timestamp; the timestamp is a parameter here.
 */
module AppExports {
  import opened PyValues
  import opened FStrings
  import opened Dates

  /** The form's values once every field has passed the input check. */
  datatype TripRequest = TripRequest(
    fromCity: string, destinationCity: string, dateFrom: Date, dateTo: Date, interests: string)

  const SeeItinerary := "See full itinerary below"
  const SectionBreak := "\n\n---\n\n"
  const LocationHeading := "## 📍 LOCATION INFORMATION\n"
  const GuideHeading := "## 🎯 LOCAL GUIDE RECOMMENDATIONS\n"
  const ItineraryHeading := "## ✈️ COMPLETE TRAVEL ITINERARY\n"
  const TitlePrefix := "\n# 🌍 AI-POWERED TRIP PLAN TO "

  /** `str.upper()` on the ASCII letters; every other character is kept. */
  function Upper(s: string): (r: string)
    ensures |r| == |s|
    ensures forall k :: 0 <= k < |s| ==>
              r[k] == if 'a' <= s[k] <= 'z' then (s[k] as int - 32) as char else s[k]
  {
    if s == [] then "" else [UpperChar(s[0])] + Upper(s[1..])
  }

  function UpperChar(c: char): char {
    if 'a' <= c <= 'z' then (c as int - 32) as char else c
  }

  /** Upper-casing twice is upper-casing once, and leaves no lower-case ASCII letter. */
  lemma {:induction false} UpperIdempotent(s: string)
    ensures Upper(Upper(s)) == Upper(s)
    ensures forall k :: 0 <= k < |s| ==> !('a' <= Upper(s)[k] <= 'z')
  {
    var u := Upper(s);
    forall k | 0 <= k < |u|
      ensures Upper(u)[k] == u[k]
    {
      assert !('a' <= u[k] <= 'z');
    }
    assert Upper(u) == u;
  }

  /** A response section: the stored value when it is truthy, else the fallback text. */
  function SectionBody(response: PyVal): string {
    Str(Or(response, PyStr(SeeItinerary)))
  }

  /** The title line: the destination in upper case. */
  function Title(destination: string): string {
    TitlePrefix + Upper(destination)
  }

  /** The opening block: title, generation time and trip dates. */
  function ReportHeader(req: TripRequest, generatedAt: string): string {
    Title(req.destinationCity) + HeaderDetails(req, generatedAt)
  }

  /** The generation time and the trip dates under the title, closed by a rule. */
  function HeaderDetails(req: TripRequest, generatedAt: string): string {
    "\n\n" + Stamp(req, generatedAt) + SectionBreak
  }

  /** The two lines naming the generation time and the trip dates. */
  function Stamp(req: TripRequest, generatedAt: string): string {
    "**Generated on:** " + generatedAt + "\n**Trip Duration:** " + IsoFormat(req.dateFrom) + " to " + IsoFormat(req.dateTo)
  }

  /** A headed section, closed by a rule. */
  function Section(heading: string, body: string): string {
    heading + body + SectionBreak
  }

  /** The closing block: interests, origin and destination. */
  function ReportFooter(req: TripRequest): string {
    ("**Interests:** " + req.interests + "\n**Traveling from:** " + req.fromCity) +
    ("\n**Destination:** " + req.destinationCity + "\n")
  }

  /** `combined_report`: the Markdown/text export. */
  function CombinedReport(req: TripRequest, location: PyVal, guide: PyVal, planner: PyVal, generatedAt: string): string {
    ReportHeader(req, generatedAt) +
    (Section(LocationHeading, SectionBody(location)) +
     Section(GuideHeading, SectionBody(guide)) +
     Section(ItineraryHeading, Str(planner))) +
    ReportFooter(req)
  }

  /** The report opens with a title naming the destination in upper case. */
  lemma ReportTitle(req: TripRequest, location: PyVal, guide: PyVal, planner: PyVal, generatedAt: string)
    ensures Title(req.destinationCity) <= CombinedReport(req, location, guide, planner, generatedAt)
  {
    var l, g, i := Section(LocationHeading, SectionBody(location)), Section(GuideHeading, SectionBody(guide)),
                   Section(ItineraryHeading, Str(planner));
    PrefixOfBlocks(Title(req.destinationCity), HeaderDetails(req, generatedAt), l + g + i, ReportFooter(req));
  }

  /**
   * Under the title the report states when it was generated and the trip's
   * dates, each in ISO form, departure first.
   */
  lemma ReportHeaderDetails(req: TripRequest, location: PyVal, guide: PyVal, planner: PyVal, generatedAt: string)
    ensures IsInfix("**Generated on:** " + generatedAt + "\n**Trip Duration:** " +
                    IsoFormat(req.dateFrom) + " to " + IsoFormat(req.dateTo),
                    CombinedReport(req, location, guide, planner, generatedAt))
  {
    var l, g, i := Section(LocationHeading, SectionBody(location)), Section(GuideHeading, SectionBody(guide)),
                   Section(ItineraryHeading, Str(planner));
    FramedBlock(Title(req.destinationCity), "\n\n", Stamp(req, generatedAt), SectionBreak, l + g + i, ReportFooter(req));
  }

  /** A block framed inside the second of the assembled pieces occurs in the whole. */
  lemma FramedBlock(t: string, a: string, s: string, b: string, m: string, f: string)
    ensures IsInfix(s, t + (a + s + b) + m + f)
  {
    InfixOfConcat(t + a, s, b + m + f);
    assert t + a + s + (b + m + f) == t + (a + s + b) + m + f;
  }

  /** The first block opens whatever is assembled from it. */
  lemma PrefixOfBlocks(t: string, d: string, m: string, f: string)
    ensures t <= t + d + m + f
  {
    assert (t + d + m + f)[..|t|] == t;
  }

  /**
   * The location section holds the stored location response when that is
   * truthy, and "See full itinerary below" when it is empty or None.
   */
  lemma ReportLocationSection(req: TripRequest, location: PyVal, guide: PyVal, planner: PyVal, generatedAt: string)
    ensures var r := CombinedReport(req, location, guide, planner, generatedAt);
            && (Truthy(location) ==> IsInfix(LocationHeading + Str(location) + SectionBreak, r))
            && (!Truthy(location) ==> IsInfix(LocationHeading + SeeItinerary + SectionBreak, r))
  {
    var h, l, g, i, f := ReportHeader(req, generatedAt), Section(LocationHeading, SectionBody(location)),
                         Section(GuideHeading, SectionBody(guide)), Section(ItineraryHeading, Str(planner)),
                         ReportFooter(req);
    BlocksAreInfixes(h, l, g, i, f);
  }

  /**
   * The guide section holds the stored guide response when that is truthy,
   * and "See full itinerary below" when it is empty or None.
   */
  lemma ReportGuideSection(req: TripRequest, location: PyVal, guide: PyVal, planner: PyVal, generatedAt: string)
    ensures var r := CombinedReport(req, location, guide, planner, generatedAt);
            && (Truthy(guide) ==> IsInfix(GuideHeading + Str(guide) + SectionBreak, r))
            && (!Truthy(guide) ==> IsInfix(GuideHeading + SeeItinerary + SectionBreak, r))
  {
    var h, l, g, i, f := ReportHeader(req, generatedAt), Section(LocationHeading, SectionBody(location)),
                         Section(GuideHeading, SectionBody(guide)), Section(ItineraryHeading, Str(planner)),
                         ReportFooter(req);
    BlocksAreInfixes(h, l, g, i, f);
  }

  /**
   * The itinerary section holds `str` of the stored planner response, with no
   * fallback; a string response appears verbatim.
   */
  lemma ReportItinerarySection(req: TripRequest, location: PyVal, guide: PyVal, planner: PyVal, generatedAt: string)
    ensures IsInfix(ItineraryHeading + Str(planner) + SectionBreak, CombinedReport(req, location, guide, planner, generatedAt))
    ensures planner.PyStr? ==>
              IsInfix(ItineraryHeading + planner.s + SectionBreak, CombinedReport(req, location, guide, planner, generatedAt))
  {
    var h, l, g, i, f := ReportHeader(req, generatedAt), Section(LocationHeading, SectionBody(location)),
                         Section(GuideHeading, SectionBody(guide)), Section(ItineraryHeading, Str(planner)),
                         ReportFooter(req);
    BlocksAreInfixes(h, l, g, i, f);
  }

  /** The three sections follow one another in the order location, guide, itinerary. */
  lemma ReportSectionsInOrder(req: TripRequest, location: PyVal, guide: PyVal, planner: PyVal, generatedAt: string)
    ensures IsInfix(Section(LocationHeading, SectionBody(location)) + Section(GuideHeading, SectionBody(guide)) +
                    Section(ItineraryHeading, Str(planner)),
                    CombinedReport(req, location, guide, planner, generatedAt))
  {
    var l, g, i := Section(LocationHeading, SectionBody(location)), Section(GuideHeading, SectionBody(guide)),
                   Section(ItineraryHeading, Str(planner));
    Middle(ReportHeader(req, generatedAt), l, g, i, ReportFooter(req));
  }

  /** The middle blocks, together and in order, occur in the report assembled from the five. */
  lemma Middle(h: string, l: string, g: string, i: string, f: string)
    ensures IsInfix(l + g + i, h + (l + g + i) + f)
  {
    InfixOfConcat(h, l + g + i, f);
  }

  /** Each of the three middle blocks occurs in the report assembled from the five. */
  lemma BlocksAreInfixes(h: string, l: string, g: string, i: string, f: string)
    ensures IsInfix(l, h + (l + g + i) + f)
    ensures IsInfix(g, h + (l + g + i) + f)
    ensures IsInfix(i, h + (l + g + i) + f)
  {
    InfixOfConcat(h, l, g + i + f);
    assert h + l + (g + i + f) == h + (l + g + i) + f;
    InfixOfConcat(h + l, g, i + f);
    assert h + l + g + (i + f) == h + (l + g + i) + f;
    InfixOfConcat(h + l + g, i, f);
    assert h + l + g + i + f == h + (l + g + i) + f;
  }

  /** The report closes by naming the destination as typed, not upper-cased. */
  lemma ReportClosesWithDestination(req: TripRequest, location: PyVal, guide: PyVal, planner: PyVal, generatedAt: string)
    ensures var r, tail := CombinedReport(req, location, guide, planner, generatedAt),
                           "\n**Destination:** " + req.destinationCity + "\n";
            |tail| <= |r| && r[|r| - |tail|..] == tail
  {
    ReportEndsWithFooter(req, location, guide, planner, generatedAt);
    FooterEndsWithDestination(req);
    SuffixOfSuffix(CombinedReport(req, location, guide, planner, generatedAt), ReportFooter(req),
                   "\n**Destination:** " + req.destinationCity + "\n");
  }

  /** The report closes with the footer lines naming the interests, the origin and the destination. */
  lemma ReportEndsWithFooter(req: TripRequest, location: PyVal, guide: PyVal, planner: PyVal, generatedAt: string)
    ensures var r, f := CombinedReport(req, location, guide, planner, generatedAt), ReportFooter(req);
            |f| <= |r| && r[|r| - |f|..] == f
  {
  }

  /** The footer's last line names the destination. */
  lemma FooterEndsWithDestination(req: TripRequest)
    ensures var f, tail := ReportFooter(req), "\n**Destination:** " + req.destinationCity + "\n";
            |tail| <= |f| && f[|f| - |tail|..] == tail
  {
  }

  lemma SuffixOfSuffix(r: string, f: string, tail: string)
    requires |f| <= |r| && r[|r| - |f|..] == f
    requires |tail| <= |f| && f[|f| - |tail|..] == tail
    ensures |tail| <= |r| && r[|r| - |tail|..] == tail
  {
    assert r[|r| - |tail|..] == r[|r| - |f|..][|f| - |tail|..];
  }

  // The CSV summary

  /** One CSV line: the attribute, a comma, the value. */
  function Row(attribute: string, value: string): string {
    attribute + "," + value
  }

  /** The attributes of the CSV summary, in row order. */
  const CsvAttributes: seq<string> :=
    ["From City", "Destination", "Departure Date", "Return Date", "Interests", "Generated"]

  /** The values of the CSV summary, in row order: the request's fields and the timestamp. */
  function CsvValues(req: TripRequest, generatedAt: string): seq<string> {
    [req.fromCity, req.destinationCity, IsoFormat(req.dateFrom), IsoFormat(req.dateTo), req.interests, generatedAt]
  }

  /** The lines of the CSV summary: the header `Attribute,Value`, then one row per attribute. */
  function CsvRows(req: TripRequest, generatedAt: string): seq<string> {
    [Row("Attribute", "Value")] + Rows(CsvAttributes, CsvValues(req, generatedAt))
  }

  /** One row per attribute, pairing it with the value at the same position. */
  function Rows(attributes: seq<string>, values: seq<string>): (r: seq<string>)
    requires |attributes| == |values|
    ensures |r| == |attributes|
    ensures forall k :: 0 <= k < |r| ==> r[k] == Row(attributes[k], values[k])
  {
    seq(|attributes|, k requires 0 <= k < |attributes| => Row(attributes[k], values[k]))
  }

  /** Each line followed by a newline. */
  function JoinLines(rows: seq<string>): string {
    if rows == [] then "" else rows[0] + "\n" + JoinLines(rows[1..])
  }

  /** `csv_data`: the CSV summary export. */
  function CsvSummary(req: TripRequest, generatedAt: string): string {
    JoinLines(CsvRows(req, generatedAt))
  }

  /** Python's `s.split(sep)`: the pieces between separators, empty ones included. */
  function Split(s: string, sep: char): (r: seq<string>)
    ensures |r| >= 1
  {
    if s == [] then [""]
    else
      var rest := Split(s[1..], sep);
      if s[0] == sep then [""] + rest else [[s[0]] + rest[0]] + rest[1..]
  }

  /** The number of times `c` occurs in `s`. */
  function Count(s: string, c: char): nat {
    if s == [] then 0 else (if s[0] == c then 1 else 0) + Count(s[1..], c)
  }

  /** Splitting yields one piece more than there are separators. */
  lemma {:induction false} SplitCount(s: string, sep: char)
    ensures |Split(s, sep)| == Count(s, sep) + 1
    decreases |s|
  {
    if s != [] {
      SplitCount(s[1..], sep);
    }
  }

  /** A separator after separator-free text ends the first piece there. */
  lemma {:induction false} SplitAfterPlain(a: string, b: string, sep: char)
    requires sep !in a
    ensures Split(a + [sep] + b, sep) == [a] + Split(b, sep)
    decreases |a|
  {
    var s := a + [sep] + b;
    if a == [] {
      assert s == [sep] + b && s[1..] == b;
    } else {
      assert s[0] == a[0] && s[1..] == a[1..] + [sep] + b;
      SplitAfterPlain(a[1..], b, sep);
      assert [a[0]] + a[1..] == a;
    }
  }

  /** Lines without newlines, joined with newlines, split back into those lines and a last empty one. */
  lemma {:induction false} SplitJoinLines(rows: seq<string>)
    requires forall k :: 0 <= k < |rows| ==> '\n' !in rows[k]
    ensures Split(JoinLines(rows), '\n') == rows + [""]
    decreases |rows|
  {
    if rows != [] {
      SplitAfterPlain(rows[0], JoinLines(rows[1..]), '\n');
      SplitJoinLines(rows[1..]);
      assert rows == [rows[0]] + rows[1..];
    }
  }

  /**
   * When no field holds a newline, the CSV summary reads back, line by line,
   * as its header and attribute rows, followed by the empty piece after the
   * final newline.
   */
  lemma CsvSummaryLines(req: TripRequest, generatedAt: string)
    requires '\n' !in req.fromCity && '\n' !in req.destinationCity
    requires '\n' !in req.interests && '\n' !in generatedAt
    ensures Split(CsvSummary(req, generatedAt), '\n') == CsvRows(req, generatedAt) + [""]
  {
    AttributesPlain();
    ValuesWithout(req, generatedAt, '\n');
    TableLines(CsvAttributes, CsvValues(req, generatedAt));
  }

  /** A table whose cells hold no newline splits on newlines back into its lines, then the empty piece. */
  lemma TableLines(attributes: seq<string>, values: seq<string>)
    requires |attributes| == |values|
    requires forall k :: 0 <= k < |attributes| ==> '\n' !in attributes[k] && '\n' !in values[k]
    ensures var rows := [Row("Attribute", "Value")] + Rows(attributes, values);
            Split(JoinLines(rows), '\n') == rows + [""]
  {
    var rows := [Row("Attribute", "Value")] + Rows(attributes, values);
    RowFree("Attribute", "Value", '\n');
    RowsFree(attributes, values, '\n');
    assert forall k :: 0 <= k < |rows| ==> '\n' !in rows[k];
    SplitJoinLines(rows);
  }

  /** No attribute name holds a comma or a newline. */
  lemma AttributesPlain()
    ensures forall k :: 0 <= k < |CsvAttributes| ==> ',' !in CsvAttributes[k] && '\n' !in CsvAttributes[k]
  {
  }

  /** A row holds a character only if its attribute, its value or the comma does. */
  lemma RowFree(attribute: string, value: string, c: char)
    requires c != ',' && c !in attribute && c !in value
    ensures c !in Row(attribute, value)
  {
  }

  /** Rows over attributes and values without `c` hold no `c`, when `c` is not the comma. */
  lemma RowsFree(attributes: seq<string>, values: seq<string>, c: char)
    requires |attributes| == |values| && c != ','
    requires forall k :: 0 <= k < |attributes| ==> c !in attributes[k] && c !in values[k]
    ensures forall k :: 0 <= k < |attributes| ==> c !in Rows(attributes, values)[k]
  {
    forall k | 0 <= k < |attributes|
      ensures c !in Rows(attributes, values)[k]
    {
      RowFree(attributes[k], values[k], c);
    }
  }

  /** An ISO date holds only digits and dashes. */
  lemma IsoFormatDigits(d: Date, c: char)
    requires c != '-' && !('0' <= c <= '9')
    ensures c !in IsoFormat(d)
  {
    var year, month, day := ZeroPad(d.year, 4), ZeroPad(d.month, 2), ZeroPad(d.day, 2);
    assert c !in year && c !in month && c !in day;
    assert IsoFormat(d) == year + "-" + month + "-" + day;
  }

  /**
   * Values are written unquoted: when no value holds a comma, the header
   * splits on commas into `Attribute` and `Value`, and every later row into
   * exactly its attribute and its value.
   */
  lemma CsvRowsTwoColumns(req: TripRequest, generatedAt: string)
    requires ',' !in req.fromCity && ',' !in req.destinationCity
    requires ',' !in req.interests && ',' !in generatedAt
    ensures var rows := CsvRows(req, generatedAt);
            && Split(rows[0], ',') == ["Attribute", "Value"]
            && forall k :: 1 <= k < |rows| ==>
                 Split(rows[k], ',') == [CsvAttributes[k - 1], CsvValues(req, generatedAt)[k - 1]]
  {
    AttributesPlain();
    ValuesWithout(req, generatedAt, ',');
    HeaderSplits();
    TableTwoColumns("Attribute", "Value", CsvAttributes, CsvValues(req, generatedAt));
  }

  /** The header line splits into the two column titles. */
  lemma HeaderSplits()
    ensures Split(Row("Attribute", "Value"), ',') == ["Attribute", "Value"]
  {
    SplitCell("Attribute", "Value");
  }

  /** In a table whose cells hold no comma, every line splits on commas into exactly its two cells. */
  lemma TableTwoColumns(first: string, second: string, attributes: seq<string>, values: seq<string>)
    requires ',' !in first && ',' !in second && |attributes| == |values|
    requires forall k :: 0 <= k < |attributes| ==> ',' !in attributes[k] && ',' !in values[k]
    ensures var rows := [Row(first, second)] + Rows(attributes, values);
            && Split(rows[0], ',') == [first, second]
            && forall k :: 1 <= k < |rows| ==> Split(rows[k], ',') == [attributes[k - 1], values[k - 1]]
  {
    var rows := [Row(first, second)] + Rows(attributes, values);
    SplitCell(first, second);
    forall k | 1 <= k < |rows|
      ensures Split(rows[k], ',') == [attributes[k - 1], values[k - 1]]
    {
      SplitCell(attributes[k - 1], values[k - 1]);
    }
  }

  /** A character that is neither a digit nor a dash is in a value only if it is in one of the typed fields. */
  lemma ValuesWithout(req: TripRequest, generatedAt: string, c: char)
    requires c != '-' && !('0' <= c <= '9')
    requires c !in req.fromCity && c !in req.destinationCity && c !in req.interests && c !in generatedAt
    ensures forall k :: 0 <= k < |CsvValues(req, generatedAt)| ==> c !in CsvValues(req, generatedAt)[k]
  {
    IsoFormatDigits(req.dateFrom, c);
    IsoFormatDigits(req.dateTo, c);
    SixWithout(req.fromCity, req.destinationCity, IsoFormat(req.dateFrom), IsoFormat(req.dateTo),
               req.interests, generatedAt, c);
  }

  lemma SixWithout(a: string, b: string, d: string, e: string, f: string, g: string, c: char)
    requires c !in a && c !in b && c !in d && c !in e && c !in f && c !in g
    ensures forall k :: 0 <= k < 6 ==> c !in [a, b, d, e, f, g][k]
  {
  }

  lemma SplitCell(attribute: string, value: string)
    requires ',' !in attribute && ',' !in value
    ensures Split(Row(attribute, value), ',') == [attribute, value]
  {
    SplitAfterPlain(attribute, value, ',');
    SplitPlain(value, ',');
  }

  /** Text without the separator is a single piece. */
  lemma {:induction false} SplitPlain(s: string, sep: char)
    requires sep !in s
    ensures Split(s, sep) == [s]
    decreases |s|
  {
    if s != [] {
      SplitPlain(s[1..], sep);
      assert [s[0]] + s[1..] == s;
    }
  }

  /**
   * A comma inside the interests is not quoted: the Interests row then has
   * more than two cells.
   */
  lemma CsvCommaAddsCell(req: TripRequest, generatedAt: string)
    requires ',' in req.interests
    ensures |Split(CsvRows(req, generatedAt)[5], ',')| >= 3
  {
    var row := CsvRows(req, generatedAt)[5];
    assert row == ("Interests" + ",") + req.interests;
    SplitCount(row, ',');
    CountAppend("Interests" + ",", req.interests, ',');
    CountPositive(req.interests, ',');
    CountPositive("Interests" + ",", ',');
  }

  /**
   * A newline inside the interests (a multi-line text area) is not escaped:
   * the summary then splits into more lines than the header and six rows.
   */
  lemma CsvNewlineAddsLine(req: TripRequest, generatedAt: string)
    requires '\n' in req.interests
    ensures |Split(CsvSummary(req, generatedAt), '\n')| > 8
  {
    var rows := CsvRows(req, generatedAt);
    SplitCount(CsvSummary(req, generatedAt), '\n');
    JoinLinesCount(rows);
    CountPositive(req.interests, '\n');
    CountAppend("Interests" + ",", req.interests, '\n');
    CountAtLeastLines(rows, 5);
  }

  lemma {:induction false} CountAppend(a: string, b: string, c: char)
    ensures Count(a + b, c) == Count(a, c) + Count(b, c)
    decreases |a|
  {
    if a != [] {
      assert (a + b)[0] == a[0] && (a + b)[1..] == a[1..] + b;
      CountAppend(a[1..], b, c);
    } else {
      assert a + b == b;
    }
  }

  lemma {:induction false} CountPositive(s: string, c: char)
    requires c in s
    ensures Count(s, c) >= 1
    decreases |s|
  {
    if s[0] != c {
      CountPositive(s[1..], c);
    }
  }

  /** The newlines of joined lines: one per line plus those inside the lines. */
  function LinesCount(rows: seq<string>, c: char): nat {
    if rows == [] then 0 else Count(rows[0], c) + LinesCount(rows[1..], c)
  }

  lemma {:induction false} JoinLinesCount(rows: seq<string>)
    ensures Count(JoinLines(rows), '\n') == |rows| + LinesCount(rows, '\n')
    decreases |rows|
  {
    if rows != [] {
      CountAppend(rows[0] + "\n", JoinLines(rows[1..]), '\n');
      CountAppend(rows[0], "\n", '\n');
      JoinLinesCount(rows[1..]);
    }
  }

  lemma {:induction false} CountAtLeastLines(rows: seq<string>, k: nat)
    requires k < |rows|
    ensures LinesCount(rows, '\n') >= Count(rows[k], '\n')
    decreases k
  {
    if k > 0 {
      CountAtLeastLines(rows[1..], k - 1);
    }
  }
}
