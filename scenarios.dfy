/** Worked examples of the renderer on concrete records and lookup answers. */
module Scenarios {
  import opened Records
  import opened Decimal
  import opened AlertTitle
  import opened MarkdownRender
  import opened MarkdownProperties

  /** A record with a severity and no lists, comment or links. */
  lemma SeverityOnlyRecord(fetch: string -> Response)
    ensures Render(Fundamental("evil.example.com", "2020-01-01", "2020-02-01", Some(7), None, None, None, None), fetch)
      == Document(("# " + "evil.example.com" + "\n\n") + "## Properties\n"
        + ("- Created on: " + "2020-01-01" + "\n") + ("- Modified on: " + "2020-02-01" + "\n")
        + ("- Severity: " + "7" + "\n"))
    ensures Requests(Fundamental("evil.example.com", "2020-01-01", "2020-02-01", Some(7), None, None, None, None), fetch) == []
  {
    var d := Fundamental("evil.example.com", "2020-01-01", "2020-02-01", Some(7), None, None, None, None);
    NoLinksKey(d, fetch);
    assert Properties(d) == Preamble(d) + [Severity(7)];
    JoinSnoc(Preamble(d), Severity(7));
    PreambleText(d);
    SeveritySevenText();
  }

  lemma SeveritySevenText()
    ensures Text(Severity(7)) == "- Severity: " + "7" + "\n"
  {
    assert FormatDecimal(7) == "7";
  }

  /** An alert whose lookup finds nothing is shown with the placeholder title, with no line break after it. */
  lemma MissingAlertLink(fetch: string -> Response)
    requires fetch(AlertRequestUrl("abc-123")).totalSize == 0
    ensures Render(Fundamental("k", "c", "m", None, None, None, None,
        Some([Link("intelligence_alert", "abc-123", "x", "y")])), fetch)
      == Document(("# " + "k" + "\n\n") + "## Properties\n"
        + ("- Created on: " + "c" + "\n") + ("- Modified on: " + "m" + "\n")
        + "\n## Relationships\n"
        + ("- Intelligence Alert: [" + "Missing Intelligence Alert" + "]("
          + "https://intelgraph.idefense.com/#/node/intelligence_alert/view/" + "abc-123" + ")"))
    ensures Requests(Fundamental("k", "c", "m", None, None, None, None,
        Some([Link("intelligence_alert", "abc-123", "x", "y")])), fetch)
      == ["https://api.intelgraph.idefense.com/rest/" + "document/v0?uuid.values=" + "abc-123"]
  {
    var l := Link("intelligence_alert", "abc-123", "x", "y");
    var d := Fundamental("k", "c", "m", None, None, None, None, Some([l]));
    var alert := AlertLink("Missing Intelligence Alert", "abc-123");
    assert [l][1..] == [];
    assert LinkLines([l], fetch) == [alert];
    assert Layout(d, fetch) == Preamble(d) + [RelationshipsHeading] + [alert];
    JoinSnoc(Preamble(d), RelationshipsHeading);
    JoinSnoc(Preamble(d) + [RelationshipsHeading], alert);
    PreambleText(d);
  }

  /** A non-success status on a lookup that found something ends the run after that one request. */
  lemma BadStatusEndsRun(fetch: string -> Response)
    requires fetch(AlertRequestUrl("abc-123")) == Response(500, 1, [])
    ensures Render(Fundamental("k", "c", "m", None, None, None, None,
        Some([Link("intelligence_alert", "abc-123", "x", "y"), Link("intelligence_alert", "def-456", "x", "y")])), fetch)
      == Aborted(BadStatus(500))
    ensures Requests(Fundamental("k", "c", "m", None, None, None, None,
        Some([Link("intelligence_alert", "abc-123", "x", "y"), Link("intelligence_alert", "def-456", "x", "y")])), fetch)
      == ["https://api.intelgraph.idefense.com/rest/" + "document/v0?uuid.values=" + "abc-123"]
  {
  }

  /** With several matching alerts the first one's title is used. */
  lemma FirstOfSeveralResults()
    ensures ClassifyTitle(Response(200, 2, [AlertDoc("first"), AlertDoc("second")])) == Title("first")
  {
  }
}
