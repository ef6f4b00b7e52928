/** The `search_web` tool: every record the search provider returns becomes a
    fixed three-line text block, and the blocks are joined by a blank line. */
module SearchWeb {
  import opened Text

  /** One provider result, a dictionary of string fields. */
  type Record = map<string, string>

  /** The search provider, opaque to the pipeline: query in, records out. */
  type Provider = string -> seq<Record>

  const Separator: string := "\n\n"
  const TitleLabel: string := "Title: "
  const UrlLabel: string := "\nURL: "
  const SummaryLabel: string := "\nSummary: "

  /** `rec.get(key, "")`. */
  function Field(rec: Record, key: string): string
  {
    if key in rec then rec[key] else ""
  }

  /** The block one record renders as. */
  function FormatRecord(rec: Record): (block: string)
    ensures |block| == 24 + |Field(rec, "title")| + |Field(rec, "href")| + |Field(rec, "body")|
    ensures block[..7] == TitleLabel && block[|block| - 1] == '\n'
  {
    TitleLabel + Field(rec, "title") + UrlLabel + Field(rec, "href")
      + SummaryLabel + Field(rec, "body") + "\n"
  }

  /** The block of every record, in provider order. */
  function Blocks(records: seq<Record>): (blocks: seq<string>)
    ensures |blocks| == |records|
    ensures forall i :: 0 <= i < |records| ==> blocks[i] == FormatRecord(records[i])
  {
    seq(|records|, i requires 0 <= i < |records| => FormatRecord(records[i]))
  }

  /** What the tool returns for the given provider records. */
  function SearchText(records: seq<Record>): (text: string)
    ensures text == "" <==> |records| == 0
  {
    Join(Separator, Blocks(records))
  }

  /** The tool's loop: format each record, collect the blocks, join them. */
  method Search(records: seq<Record>) returns (text: string)
    ensures text == SearchText(records)
  {
    var results: seq<string> := [];
    var i := 0;
    while i < |records|
      invariant 0 <= i <= |records|
      invariant |results| == i
      invariant forall k :: 0 <= k < i ==> results[k] == FormatRecord(records[k])
    {
      results := results + [FormatRecord(records[i])];
      i := i + 1;
    }
    assert results == Blocks(records);
    text := Join(Separator, results);
  }

  /** A block is the three labelled fields at fixed places, in the order
      title, URL, summary, ending in a newline; its length is the fields'
      lengths plus the 24 characters of the labels. */
  lemma FormatRecordLayout(rec: Record)
    ensures var b, t, h, y := FormatRecord(rec), Field(rec, "title"), Field(rec, "href"), Field(rec, "body");
      |b| == 24 + |t| + |h| + |y|
      && b[..7] == "Title: "
      && b[7..7 + |t|] == t
      && b[7 + |t|..13 + |t|] == "\nURL: "
      && b[13 + |t|..13 + |t| + |h|] == h
      && b[13 + |t| + |h|..23 + |t| + |h|] == "\nSummary: "
      && b[23 + |t| + |h|..23 + |t| + |h| + |y|] == y
      && b[|b| - 1] == '\n'
  {
  }

  /** A missing `title`, `href` or `body` renders as the empty string. */
  lemma MissingFieldIsEmpty(rec: Record, key: string)
    requires key == "title" || key == "href" || key == "body"
    requires key !in rec
    ensures FormatRecord(rec) == FormatRecord(rec[key := ""])
  {
  }

  /** Only the three rendered fields matter: records that agree on them,
      absence included, render identically. */
  lemma OnlyRenderedFieldsMatter(a: Record, b: Record)
    requires forall key :: key == "title" || key == "href" || key == "body" ==> Field(a, key) == Field(b, key)
    ensures FormatRecord(a) == FormatRecord(b)
  {
  }

  /** No records give the empty string; one record gives exactly its block,
      with no separator. */
  lemma SearchTextSmall(records: seq<Record>)
    ensures |records| == 0 ==> SearchText(records) == ""
    ensures |records| == 1 ==> SearchText(records) == FormatRecord(records[0])
  {
  }

  /** Each further record adds one separator and its block at the end. */
  lemma SearchTextSnoc(records: seq<Record>, rec: Record)
    requires |records| > 0
    ensures SearchText(records + [rec]) == SearchText(records) + Separator + FormatRecord(rec)
  {
    assert Blocks(records + [rec]) == Blocks(records) + [FormatRecord(rec)];
    JoinSnoc(Separator, Blocks(records), FormatRecord(rec));
  }

  /** The text is the first block, then a blank line and the text of the
      remaining records: the records appear in provider order. */
  lemma SearchTextFront(records: seq<Record>)
    requires |records| >= 2
    ensures SearchText(records) == FormatRecord(records[0]) + Separator + SearchText(records[1..])
  {
    assert Blocks(records)[1..] == Blocks(records[1..]);
    JoinFront(Separator, Blocks(records));
  }
}
