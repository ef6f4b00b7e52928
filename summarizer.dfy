/** The `write_summary` tool: a fixed header, at most the first 500
    characters of the content, and an ellipsis. */
module Summarizer {

  const Header: string := "Summary of findings:\n\n"
  const Ellipsis: string := "..."
  const Limit: nat := 500

  function Min(a: nat, b: nat): nat
  {
    if a <= b then a else b
  }

  /** The header (22 characters), the kept prefix of the content, and "..."
      whether or not anything was cut. */
  function WriteSummary(content: string): (summary: string)
    ensures |summary| == 25 + Min(|content|, Limit) <= 525
    ensures summary[..22] == Header
    ensures summary[22..|summary| - 3] == content[..Min(|content|, Limit)]
    ensures summary[|summary| - 3..] == Ellipsis
    ensures |content| <= Limit ==> summary[22..|summary| - 3] == content
  {
    var body := if |content| <= Limit then content else content[..Limit];
    assert |Header| == 22;
    var summary := Header + body + Ellipsis;
    assert summary[..22] == Header;
    assert summary[22..|summary| - 3] == body;
    summary
  }

  /** The body of a summary, between the header and the ellipsis. */
  function SummaryBody(summary: string): string
    requires |summary| >= 25
  {
    summary[22..|summary| - 3]
  }

  /** The summary of content of at most 500 characters gives the content back;
      longer content comes back as its first 500 characters, and summarising
      that prefix again gives the same summary. */
  lemma SummaryBodyRoundTrip(content: string)
    ensures |content| <= Limit ==> SummaryBody(WriteSummary(content)) == content
    ensures |content| > Limit ==> SummaryBody(WriteSummary(content)) == content[..Limit]
    ensures |content| > Limit ==> WriteSummary(content[..Limit]) == WriteSummary(content)
  {
  }
}
