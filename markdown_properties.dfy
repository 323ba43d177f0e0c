/**
 * What the Markdown section promises, stated about `Render`, `Requests` and `Layout`:
 * the fixed order of the lines, which lines a present or absent key produces, one bullet
 * per list item and one line per link, the title each alert line shows, when the run
 * ends instead, which lookups are issued, and that nothing but the record and the
 * lookup outcomes decides the result.
 */
module MarkdownProperties {
  import opened Records
  import opened AlertTitle
  import opened MarkdownRender

  /** The lines of rank `r`, in their order. */
  function Section(ls: seq<Line>, r: nat): (s: seq<Line>)
    ensures forall l :: l in s <==> l in ls && Rank(l) == r
  {
    if ls == [] then []
    else (if Rank(ls[0]) == r then [ls[0]] else []) + Section(ls[1..], r)
  }

  lemma {:induction false} SectionAppend(a: seq<Line>, b: seq<Line>, r: nat)
    ensures Section(a + b, r) == Section(a, r) + Section(b, r)
  {
    if a == [] {
      assert a + b == b;
    } else {
      assert (a + b)[1..] == a[1..] + b;
      SectionAppend(a[1..], b, r);
    }
  }

  lemma {:induction false} SectionUniform(ls: seq<Line>, q: nat, r: nat)
    requires forall i :: 0 <= i < |ls| ==> Rank(ls[i]) == q
    ensures Section(ls, r) == if r == q then ls else []
  {
    if ls != [] {
      SectionUniform(ls[1..], q, r);
      if r == q {
        assert [ls[0]] + ls[1..] == ls;
      }
    }
  }

  ghost predicate Sorted(ls: seq<Line>) {
    forall i, j :: 0 <= i < j < |ls| ==> Rank(ls[i]) <= Rank(ls[j])
  }

  ghost predicate AtMost(ls: seq<Line>, m: nat) {
    forall i :: 0 <= i < |ls| ==> Rank(ls[i]) <= m
  }

  ghost predicate AtLeast(ls: seq<Line>, m: nat) {
    forall i :: 0 <= i < |ls| ==> m <= Rank(ls[i])
  }

  lemma SortedConcat(a: seq<Line>, b: seq<Line>, m: nat)
    requires Sorted(a) && Sorted(b) && AtMost(a, m) && AtLeast(b, m)
    ensures Sorted(a + b)
  {
    forall i, j | 0 <= i < j < |a + b|
      ensures Rank((a + b)[i]) <= Rank((a + b)[j])
    {
      if j < |a| {
      } else if i >= |a| {
        assert (a + b)[i] == b[i - |a|] && (a + b)[j] == b[j - |a|];
      } else {
        assert (a + b)[i] == a[i] && (a + b)[j] == b[j - |a|];
      }
    }
  }

  lemma {:induction false} BulletLinesShape(list: ListKind, xs: seq<string>)
    ensures |BulletLines(list, xs)| == |xs|
    ensures forall k :: 0 <= k < |xs| ==> BulletLines(list, xs)[k] == Bullet(list, xs[k])
  {
    if xs != [] {
      BulletLinesShape(list, xs[1..]);
    }
  }

  lemma {:induction false} LinkLinesShape(ls: seq<Link>, fetch: string -> Response)
    ensures |LinkLines(ls, fetch)| == |ls|
    ensures forall k :: 0 <= k < |ls| ==> LinkLines(ls, fetch)[k] == LinkLine(ls[k], fetch)
  {
    if ls != [] {
      LinkLinesShape(ls[1..], fetch);
    }
  }

  function LinksOf(d: Fundamental): seq<Link> {
    d.links.GetOr([])
  }

  function HeadingRank(list: ListKind): nat {
    if list == ThreatTypesList then 5 else 7
  }

  function BulletRank(list: ListKind): nat {
    HeadingRank(list) + 1
  }

  /** `ls` at the ranks where `c` holds, nothing elsewhere. */
  function When(c: bool, ls: seq<Line>): seq<Line> {
    if c then ls else []
  }

  // ---------------------------------------------------------------------------
  // The parts of the layout, one rank range each

  lemma ChainSorted(a: seq<Line>, b: seq<Line>, m: nat, hi: nat)
    requires Sorted(a) && Sorted(b) && AtMost(a, m) && AtLeast(b, m) && AtMost(b, hi) && m <= hi
    ensures Sorted(a + b) && AtMost(a + b, hi)
  {
    SortedConcat(a, b, m);
  }

  lemma UniformSorted(ls: seq<Line>, q: nat)
    requires forall i :: 0 <= i < |ls| ==> Rank(ls[i]) == q
    ensures Sorted(ls) && AtLeast(ls, q) && AtMost(ls, q)
  {
  }

  lemma PreambleSorted(d: Fundamental)
    ensures Sorted(Preamble(d)) && AtMost(Preamble(d), 4)
  {
  }

  lemma ListPartSorted(list: ListKind, items: Option<seq<string>>)
    ensures Sorted(ListPart(list, items))
    ensures AtLeast(ListPart(list, items), HeadingRank(list)) && AtMost(ListPart(list, items), BulletRank(list))
  {
    if items.Some? {
      BulletLinesShape(list, items.value);
    }
  }

  lemma LinkLinesRank(ls: seq<Link>, fetch: string -> Response)
    ensures forall i :: 0 <= i < |LinkLines(ls, fetch)| ==> Rank(LinkLines(ls, fetch)[i]) == 11
  {
    LinkLinesShape(ls, fetch);
  }

  lemma RelationshipsPartSorted(d: Fundamental, fetch: string -> Response)
    ensures Sorted(RelationshipsPart(d, fetch))
    ensures AtLeast(RelationshipsPart(d, fetch), 10) && AtMost(RelationshipsPart(d, fetch), 11)
  {
    if d.links.Some? {
      LinkLinesRank(d.links.value, fetch);
    }
  }

  lemma SectionSingleton(x: Line, r: nat)
    ensures Section([x], r) == When(Rank(x) == r, [x])
  {
    assert [x][1..] == [];
  }

  lemma PreambleSection(d: Fundamental, r: nat)
    ensures Section(Preamble(d), r) ==
      When(r == 0, [Heading(d.key)]) + When(r == 1, [PropertiesHeading])
      + When(r == 2, [CreatedOn(d.createdOn)]) + When(r == 3, [ModifiedOn(d.lastModified)])
  {
    var h, p, c, m := Heading(d.key), PropertiesHeading, CreatedOn(d.createdOn), ModifiedOn(d.lastModified);
    assert Preamble(d) == [h] + [p] + [c] + [m];
    SectionAppend([h] + [p] + [c], [m], r);
    SectionAppend([h] + [p], [c], r);
    SectionAppend([h], [p], r);
    SectionSingleton(h, r);
    SectionSingleton(p, r);
    SectionSingleton(c, r);
    SectionSingleton(m, r);
  }

  lemma SeveritySection(d: Fundamental, r: nat)
    ensures Section(SeverityPart(d), r) == if r == 4 && d.severity.Some? then [Severity(d.severity.value)] else []
  {
    SectionUniform(SeverityPart(d), 4, r);
  }

  lemma ListPartSection(list: ListKind, items: Option<seq<string>>, r: nat)
    ensures Section(ListPart(list, items), r) ==
      (if r == HeadingRank(list) && items.Some? then [ListHeading(list)] else [])
      + When(r == BulletRank(list), BulletLines(list, items.GetOr([])))
  {
    if items.Some? {
      var b := BulletLines(list, items.value);
      BulletLinesShape(list, items.value);
      SectionAppend([ListHeading(list)], b, r);
      SectionUniform([ListHeading(list)], HeadingRank(list), r);
      SectionUniform(b, BulletRank(list), r);
    }
  }

  lemma CommentSection(d: Fundamental, r: nat)
    ensures Section(CommentPart(d), r) == if r == 9 && d.metaData.Some? then [Comment(d.metaData.value)] else []
  {
    SectionUniform(CommentPart(d), 9, r);
  }

  lemma RelationshipsPartSection(d: Fundamental, fetch: string -> Response, r: nat)
    ensures Section(RelationshipsPart(d, fetch), r) ==
      (if r == 10 && d.links.Some? then [RelationshipsHeading] else [])
      + When(r == 11, LinkLines(LinksOf(d), fetch))
  {
    if d.links.Some? {
      var b := LinkLines(d.links.value, fetch);
      LinkLinesRank(d.links.value, fetch);
      SectionAppend([RelationshipsHeading], b, r);
      SectionUniform([RelationshipsHeading], 10, r);
      SectionUniform(b, 11, r);
    }
  }

  /** The lines of one rank come from one part of the layout only. */
  lemma LayoutSplit(d: Fundamental, fetch: string -> Response, r: nat)
    ensures Section(Layout(d, fetch), r) ==
      Section(Preamble(d), r) + Section(SeverityPart(d), r)
      + Section(ListPart(ThreatTypesList, d.threatTypes), r) + Section(ListPart(LastSeenAsList, d.lastSeenAs), r)
      + Section(CommentPart(d), r) + Section(RelationshipsPart(d, fetch), r)
  {
    var p, s, t, l, c := Preamble(d), SeverityPart(d), ListPart(ThreatTypesList, d.threatTypes),
      ListPart(LastSeenAsList, d.lastSeenAs), CommentPart(d);
    SectionAppend(p + s + t + l + c, RelationshipsPart(d, fetch), r);
    SectionAppend(p + s + t + l, c, r);
    SectionAppend(p + s + t, l, r);
    SectionAppend(p + s, t, r);
    SectionAppend(p, s, r);
  }

  /**
   * The lines of rank `r`, line kind by line kind in the order the source emits them:
   * each kind is there at its own rank only, an optional one only when its key is
   * present, and the bullets and link lines are one per list item and per link.
   */
  function ExpectedSection(d: Fundamental, fetch: string -> Response, r: nat): seq<Line> {
    (When(r == 0, [Heading(d.key)]) + When(r == 1, [PropertiesHeading])
      + When(r == 2, [CreatedOn(d.createdOn)]) + When(r == 3, [ModifiedOn(d.lastModified)]))
    + (if r == 4 && d.severity.Some? then [Severity(d.severity.value)] else [])
    + ((if r == 5 && d.threatTypes.Some? then [ListHeading(ThreatTypesList)] else [])
      + When(r == 6, BulletLines(ThreatTypesList, d.threatTypes.GetOr([]))))
    + ((if r == 7 && d.lastSeenAs.Some? then [ListHeading(LastSeenAsList)] else [])
      + When(r == 8, BulletLines(LastSeenAsList, d.lastSeenAs.GetOr([]))))
    + (if r == 9 && d.metaData.Some? then [Comment(d.metaData.value)] else [])
    + ((if r == 10 && d.links.Some? then [RelationshipsHeading] else [])
      + When(r == 11, LinkLines(LinksOf(d), fetch)))
  }

  // ---------------------------------------------------------------------------
  // The properties

  /** Every line comes no earlier than the lines of smaller rank: the order is fixed. */
  lemma LayoutOrdered(d: Fundamental, fetch: string -> Response)
    ensures Sorted(Layout(d, fetch))
  {
    var p, s, t, l, c, rel := Preamble(d), SeverityPart(d), ListPart(ThreatTypesList, d.threatTypes),
      ListPart(LastSeenAsList, d.lastSeenAs), CommentPart(d), RelationshipsPart(d, fetch);
    PreambleSorted(d);
    UniformSorted(s, 4);
    ListPartSorted(ThreatTypesList, d.threatTypes);
    ListPartSorted(LastSeenAsList, d.lastSeenAs);
    UniformSorted(c, 9);
    RelationshipsPartSorted(d, fetch);
    ChainSorted(p, s, 4, 4);
    ChainSorted(p + s, t, 5, 6);
    ChainSorted(p + s + t, l, 7, 8);
    ChainSorted(p + s + t + l, c, 9, 9);
    ChainSorted(p + s + t + l + c, rel, 10, 11);
  }

  /** Each rank of the layout holds exactly the lines the reference says. */
  lemma LayoutSections(d: Fundamental, fetch: string -> Response, r: nat)
    ensures Section(Layout(d, fetch), r) == ExpectedSection(d, fetch, r)
  {
    LayoutSplit(d, fetch, r);
    PreambleSection(d, r);
    SeveritySection(d, r);
    ListPartSection(ThreatTypesList, d.threatTypes, r);
    ListPartSection(LastSeenAsList, d.lastSeenAs, r);
    CommentSection(d, r);
    RelationshipsPartSection(d, fetch, r);
  }

  /** The reference at the ranks of the fixed lines. */
  lemma ExpectedFixed(d: Fundamental, fetch: string -> Response)
    ensures ExpectedSection(d, fetch, 0) == [Heading(d.key)]
    ensures ExpectedSection(d, fetch, 1) == [PropertiesHeading]
    ensures ExpectedSection(d, fetch, 2) == [CreatedOn(d.createdOn)]
    ensures ExpectedSection(d, fetch, 3) == [ModifiedOn(d.lastModified)]
  {
  }

  /** The reference at the ranks of the Severity line and the list headings. */
  lemma ExpectedOptional(d: Fundamental, fetch: string -> Response)
    ensures ExpectedSection(d, fetch, 4) == if d.severity.Some? then [Severity(d.severity.value)] else []
    ensures ExpectedSection(d, fetch, 5) == if d.threatTypes.Some? then [ListHeading(ThreatTypesList)] else []
    ensures ExpectedSection(d, fetch, 7) == if d.lastSeenAs.Some? then [ListHeading(LastSeenAsList)] else []
  {
  }

  /** The reference at the ranks of the Comment line and the Relationships heading. */
  lemma ExpectedTrailing(d: Fundamental, fetch: string -> Response)
    ensures ExpectedSection(d, fetch, 9) == if d.metaData.Some? then [Comment(d.metaData.value)] else []
    ensures ExpectedSection(d, fetch, 10) == if d.links.Some? then [RelationshipsHeading] else []
  {
  }

  /** The reference at the ranks of the per-item lines. */
  lemma ExpectedItems(d: Fundamental, fetch: string -> Response)
    ensures ExpectedSection(d, fetch, 6) == BulletLines(ThreatTypesList, d.threatTypes.GetOr([]))
    ensures ExpectedSection(d, fetch, 8) == BulletLines(LastSeenAsList, d.lastSeenAs.GetOr([]))
    ensures ExpectedSection(d, fetch, 11) == LinkLines(LinksOf(d), fetch)
  {
  }

  /** The text of one link's line. */
  lemma LinkLineText(l: Link, fetch: string -> Response)
    ensures Text(LinkLine(l, fetch)) ==
      if l.linkType == "intelligence_alert" then
        "- Intelligence Alert: [" + TitleOrBlank(GetIaTitle(l.uuid, fetch)) + "]("
        + "https://intelgraph.idefense.com/#/node/intelligence_alert/view/" + l.uuid + ")"
      else
        "- " + l.key + " (" + l.linkType + "): " + l.relationship + "\n"
  {
  }

  /** The heading, "## Properties", Created-on and Modified-on lines occur exactly once. */
  lemma FixedLinesOnce(d: Fundamental, fetch: string -> Response)
    ensures Section(Layout(d, fetch), 0) == [Heading(d.key)]
    ensures Section(Layout(d, fetch), 1) == [PropertiesHeading]
    ensures Section(Layout(d, fetch), 2) == [CreatedOn(d.createdOn)]
    ensures Section(Layout(d, fetch), 3) == [ModifiedOn(d.lastModified)]
  {
    ExpectedFixed(d, fetch);
    LayoutSections(d, fetch, 0);
    LayoutSections(d, fetch, 1);
    LayoutSections(d, fetch, 2);
    LayoutSections(d, fetch, 3);
  }

  /**
   * The Severity line, each list's heading, the Comment line and the Relationships
   * heading occur once when their key is present and not at all when it is absent.
   */
  lemma OptionalLinesIffKey(d: Fundamental, fetch: string -> Response)
    ensures Section(Layout(d, fetch), 4) == if d.severity.Some? then [Severity(d.severity.value)] else []
    ensures Section(Layout(d, fetch), 5) == if d.threatTypes.Some? then [ListHeading(ThreatTypesList)] else []
    ensures Section(Layout(d, fetch), 7) == if d.lastSeenAs.Some? then [ListHeading(LastSeenAsList)] else []
    ensures Section(Layout(d, fetch), 9) == if d.metaData.Some? then [Comment(d.metaData.value)] else []
    ensures Section(Layout(d, fetch), 10) == if d.links.Some? then [RelationshipsHeading] else []
  {
    ExpectedOptional(d, fetch);
    ExpectedTrailing(d, fetch);
    LayoutSections(d, fetch, 4);
    LayoutSections(d, fetch, 5);
    LayoutSections(d, fetch, 7);
    LayoutSections(d, fetch, 9);
    LayoutSections(d, fetch, 10);
  }

  /** The bullets of a list: one `"    - x\n"` line per element, in order. */
  lemma BulletTexts(list: ListKind, xs: seq<string>)
    ensures |BulletLines(list, xs)| == |xs|
    ensures forall k :: 0 <= k < |xs| ==>
      BulletLines(list, xs)[k] == Bullet(list, xs[k]) && Text(BulletLines(list, xs)[k]) == "    - " + xs[k] + "\n"
  {
    BulletLinesShape(list, xs);
  }

  /** Each list key gives exactly one "    - x" line per element, in the list's order. */
  lemma BulletsOnePerItem(d: Fundamental, fetch: string -> Response)
    ensures Section(Layout(d, fetch), 6) == BulletLines(ThreatTypesList, d.threatTypes.GetOr([]))
    ensures Section(Layout(d, fetch), 8) == BulletLines(LastSeenAsList, d.lastSeenAs.GetOr([]))
  {
    ExpectedItems(d, fetch);
    LayoutSections(d, fetch, 6);
    LayoutSections(d, fetch, 8);
  }

  /**
   * One line per link, in order. A non-alert link shows its key, type and
   * relationship; an alert link shows the title looked up for its uuid and the view
   * link, with no line break after it.
   */
  lemma LinkLinesOnePerLink(d: Fundamental, fetch: string -> Response)
    ensures |Section(Layout(d, fetch), 11)| == |LinksOf(d)|
    ensures forall k :: 0 <= k < |LinksOf(d)| ==>
      Text(Section(Layout(d, fetch), 11)[k]) ==
        if LinksOf(d)[k].linkType == "intelligence_alert" then
          "- Intelligence Alert: [" + TitleOrBlank(GetIaTitle(LinksOf(d)[k].uuid, fetch)) + "]("
          + "https://intelgraph.idefense.com/#/node/intelligence_alert/view/" + LinksOf(d)[k].uuid + ")"
        else
          "- " + LinksOf(d)[k].key + " (" + LinksOf(d)[k].linkType + "): " + LinksOf(d)[k].relationship + "\n"
  {
    ExpectedItems(d, fetch);
    LayoutSections(d, fetch, 11);
    LinkLinesShape(LinksOf(d), fetch);
    forall k | 0 <= k < |LinksOf(d)| {
      LinkLineText(LinksOf(d)[k], fetch);
    }
  }

  // ---------------------------------------------------------------------------
  // The text

  lemma JoinSingleton(x: Line)
    ensures Join([x]) == Text(x)
  {
    assert [x][1..] == [];
  }

  lemma PreambleText(d: Fundamental)
    ensures Join(Preamble(d)) ==
      ("# " + d.key + "\n\n") + "## Properties\n"
      + ("- Created on: " + d.createdOn + "\n") + ("- Modified on: " + d.lastModified + "\n")
  {
    var h, p, c, m := Heading(d.key), PropertiesHeading, CreatedOn(d.createdOn), ModifiedOn(d.lastModified);
    assert Preamble(d) == [h] + [p] + [c] + [m];
    JoinAppend([h] + [p] + [c], [m]);
    JoinAppend([h] + [p], [c]);
    JoinAppend([h], [p]);
    JoinSingleton(h);
    JoinSingleton(p);
    JoinSingleton(c);
    JoinSingleton(m);
  }

  lemma JoinPrefix(a: seq<Line>, b: seq<Line>, s: string)
    requires s <= Join(a)
    ensures s <= Join(a + b)
  {
    JoinAppend(a, b);
    assert Join(a + b)[..|Join(a)|] == Join(a);
  }

  /**
   * A finished document starts with the record's key as heading, the Properties
   * heading and the Created-on and Modified-on lines, in that order.
   */
  lemma DocumentStartsWithPreamble(d: Fundamental, fetch: string -> Response)
    requires Render(d, fetch).Document?
    ensures ("# " + d.key + "\n\n") + "## Properties\n"
      + ("- Created on: " + d.createdOn + "\n") + ("- Modified on: " + d.lastModified + "\n")
      <= Render(d, fetch).text
  {
    PreambleText(d);
    var pre := Join(Preamble(d));
    var p, s, t, l, c := Preamble(d), SeverityPart(d), ListPart(ThreatTypesList, d.threatTypes),
      ListPart(LastSeenAsList, d.lastSeenAs), CommentPart(d);
    JoinPrefix(p, s, pre);
    JoinPrefix(p + s, t, pre);
    JoinPrefix(p + s + t, l, pre);
    JoinPrefix(p + s + t + l, c, pre);
    JoinPrefix(p + s + t + l + c, RelationshipsPart(d, fetch), pre);
  }

  /** Without a links key there is no Relationships section and no lookup. */
  lemma NoLinksKey(d: Fundamental, fetch: string -> Response)
    requires d.links.None?
    ensures Render(d, fetch) == Document(Join(Properties(d)))
    ensures Requests(d, fetch) == []
  {
    assert RelationshipsPart(d, fetch) == [];
    assert Layout(d, fetch) == Properties(d) + [] == Properties(d);
  }

  /** An empty links list still gives the Relationships heading, and the text ends with it. */
  lemma EmptyLinksStillHeaded(d: Fundamental, fetch: string -> Response)
    requires d.links == Some([])
    ensures Render(d, fetch) == Document(Join(Properties(d)) + "\n## Relationships\n")
    ensures Requests(d, fetch) == []
  {
    assert RelationshipsPart(d, fetch) == [RelationshipsHeading];
    JoinSnoc(Properties(d), RelationshipsHeading);
  }

  lemma LastOfAppend(a: string, b: string)
    requires |b| > 0
    ensures |a + b| > 0 && (a + b)[|a + b| - 1] == b[|b| - 1]
  {
  }

  lemma LinkLineLastChar(l: Link, fetch: string -> Response)
    ensures |Text(LinkLine(l, fetch))| > 0
    ensures Text(LinkLine(l, fetch))[|Text(LinkLine(l, fetch))| - 1] == if IsAlert(l) then ')' else '\n'
  {
    if IsAlert(l) {
      var t := TitleOrBlank(GetIaTitle(l.uuid, fetch));
      LastOfAppend("- Intelligence Alert: [" + t + "](" + AlertViewUrl + l.uuid, ")");
    } else {
      LastOfAppend("- " + l.key + " (" + l.linkType + "): " + l.relationship, "\n");
    }
  }

  /** The text of the link lines ends with the last link's line. */
  lemma LinkLinesLastChar(ls: seq<Link>, fetch: string -> Response)
    requires |ls| > 0
    ensures |Join(LinkLines(ls, fetch))| > 0
    ensures Join(LinkLines(ls, fetch))[|Join(LinkLines(ls, fetch))| - 1] == if IsAlert(ls[|ls| - 1]) then ')' else '\n'
  {
    var n := |ls| - 1;
    assert ls == ls[..n] + [ls[n]];
    LinkLinesSnoc(ls[..n], ls[n], fetch);
    JoinSnoc(LinkLines(ls[..n], fetch), LinkLine(ls[n], fetch));
    LinkLineLastChar(ls[n], fetch);
    LastOfAppend(Join(LinkLines(ls[..n], fetch)), Text(LinkLine(ls[n], fetch)));
  }

  /** The relationships part is its heading followed by the link lines. */
  lemma RelationshipsText(d: Fundamental, fetch: string -> Response)
    requires d.links.Some?
    ensures Join(RelationshipsPart(d, fetch)) == "\n## Relationships\n" + Join(LinkLines(d.links.value, fetch))
  {
    JoinAppend([RelationshipsHeading], LinkLines(d.links.value, fetch));
    JoinSingleton(RelationshipsHeading);
  }

  /**
   * The document ends with the last link's line: an alert line ends with its closing
   * parenthesis and no line break, any other link line with a line break.
   */
  lemma DocumentLastCharacter(d: Fundamental, fetch: string -> Response)
    requires Render(d, fetch).Document? && d.links.Some? && |d.links.value| > 0
    ensures |Render(d, fetch).text| > 0
    ensures Render(d, fetch).text[|Render(d, fetch).text| - 1] ==
      if IsAlert(d.links.value[|d.links.value| - 1]) then ')' else '\n'
  {
    var links := Join(LinkLines(d.links.value, fetch));
    JoinAppend(Properties(d), RelationshipsPart(d, fetch));
    RelationshipsText(d, fetch);
    LinkLinesLastChar(d.links.value, fetch);
    LastOfAppend("\n## Relationships\n", links);
    LastOfAppend(Join(Properties(d)), Join(RelationshipsPart(d, fetch)));
  }
}
