/**
 * `output_markdown`: the Markdown section built from one fundamental record.
 *
 * The specification is a list of `Line`s, one per `md +=` step of the source, each with
 * its exact text; `Render` is that list's text, or the abort of the first failing
 * alert lookup. `OutputMarkdown` builds the string step by step, as the source does,
 * and is proved to produce `Render` and to issue exactly the requests `Requests` names.
 */
module MarkdownRender {
  import opened Records
  import opened Decimal
  import opened AlertTitle

  const AlertLinkType := "intelligence_alert"
  const AlertViewUrl := "https://intelgraph.idefense.com/#/node/intelligence_alert/view/"

  /** The two bulleted sub-lists of the properties section. */
  datatype ListKind = ThreatTypesList | LastSeenAsList

  /** One piece of output, named after the record field it shows. */
  datatype Line =
    | Heading(key: string)
    | PropertiesHeading
    | CreatedOn(stamp: string)
    | ModifiedOn(stamp: string)
    | Severity(level: int)
    | ListHeading(list: ListKind)
    | Bullet(list: ListKind, name: string)
    | Comment(text: string)
    | RelationshipsHeading
    | AlertLink(title: string, uuid: string)
    | Relation(key: string, linkType: string, relationship: string)

  /** The exact characters each step appends; an alert link has no newline after it. */
  function Text(l: Line): string {
    match l
    case Heading(k) => "# " + k + "\n\n"
    case PropertiesHeading => "## Properties\n"
    case CreatedOn(s) => "- Created on: " + s + "\n"
    case ModifiedOn(s) => "- Modified on: " + s + "\n"
    case Severity(n) => "- Severity: " + FormatDecimal(n) + "\n"
    case ListHeading(ThreatTypesList) => "- Threat Types:\n"
    case ListHeading(LastSeenAsList) => "- Last seen as:\n"
    case Bullet(_, x) => "    - " + x + "\n"
    case Comment(c) => "- Comment: " + c + "\n"
    case RelationshipsHeading => "\n## Relationships\n"
    case AlertLink(t, u) => "- Intelligence Alert: [" + t + "](" + AlertViewUrl + u + ")"
    case Relation(k, ty, rel) => "- " + k + " (" + ty + "): " + rel + "\n"
  }

  /** The position of a line's kind in the fixed output order. */
  function Rank(l: Line): nat {
    match l
    case Heading(_) => 0
    case PropertiesHeading => 1
    case CreatedOn(_) => 2
    case ModifiedOn(_) => 3
    case Severity(_) => 4
    case ListHeading(ThreatTypesList) => 5
    case Bullet(ThreatTypesList, _) => 6
    case ListHeading(LastSeenAsList) => 7
    case Bullet(LastSeenAsList, _) => 8
    case Comment(_) => 9
    case RelationshipsHeading => 10
    case AlertLink(_, _) => 11
    case Relation(_, _, _) => 11
  }

  /** The text of a list of lines, concatenated with nothing in between. */
  function Join(ls: seq<Line>): string {
    if ls == [] then "" else Text(ls[0]) + Join(ls[1..])
  }

  lemma {:induction false} JoinAppend(a: seq<Line>, b: seq<Line>)
    ensures Join(a + b) == Join(a) + Join(b)
  {
    if a == [] {
      assert a + b == b;
    } else {
      assert (a + b)[1..] == a[1..] + b;
      JoinAppend(a[1..], b);
    }
  }

  lemma JoinSnoc(ls: seq<Line>, l: Line)
    ensures Join(ls + [l]) == Join(ls) + Text(l)
  {
    JoinAppend(ls, [l]);
    assert [l][1..] == [];
  }

  lemma AppendAssoc(a: seq<Line>, b: seq<Line>, c: seq<Line>)
    ensures a + b + c == a + (b + c)
  {
  }

  lemma TakeSnoc<T>(s: seq<T>, i: nat)
    requires i < |s|
    ensures s[..i + 1] == s[..i] + [s[i]]
  {
  }

  predicate IsAlert(l: Link) {
    l.linkType == AlertLinkType
  }

  function TitleOrBlank(o: TitleOutcome): string {
    match o
    case Title(t) => t
    case Abort(_) => ""
  }

  /** The line for one link; an alert shows the title its lookup returned. */
  function LinkLine(l: Link, fetch: string -> Response): Line {
    if IsAlert(l) then AlertLink(TitleOrBlank(GetIaTitle(l.uuid, fetch)), l.uuid)
    else Relation(l.key, l.linkType, l.relationship)
  }

  /** One bullet per item, in list order. */
  function BulletLines(list: ListKind, xs: seq<string>): seq<Line> {
    if xs == [] then [] else [Bullet(list, xs[0])] + BulletLines(list, xs[1..])
  }

  lemma {:induction false} BulletLinesSnoc(list: ListKind, xs: seq<string>, x: string)
    ensures BulletLines(list, xs + [x]) == BulletLines(list, xs) + [Bullet(list, x)]
  {
    if xs == [] {
      assert [x][1..] == [];
    } else {
      assert (xs + [x])[1..] == xs[1..] + [x];
      BulletLinesSnoc(list, xs[1..], x);
    }
  }

  /** One line per link, in list order. */
  function LinkLines(ls: seq<Link>, fetch: string -> Response): seq<Line> {
    if ls == [] then [] else [LinkLine(ls[0], fetch)] + LinkLines(ls[1..], fetch)
  }

  lemma {:induction false} LinkLinesSnoc(ls: seq<Link>, l: Link, fetch: string -> Response)
    ensures LinkLines(ls + [l], fetch) == LinkLines(ls, fetch) + [LinkLine(l, fetch)]
  {
    if ls == [] {
      assert [l][1..] == [];
    } else {
      assert (ls + [l])[1..] == ls[1..] + [l];
      LinkLinesSnoc(ls[1..], l, fetch);
    }
  }

  function Preamble(d: Fundamental): seq<Line> {
    [Heading(d.key), PropertiesHeading, CreatedOn(d.createdOn), ModifiedOn(d.lastModified)]
  }

  function SeverityPart(d: Fundamental): seq<Line> {
    if d.severity.Some? then [Severity(d.severity.value)] else []
  }

  function ListPart(list: ListKind, items: Option<seq<string>>): seq<Line> {
    if items.Some? then [ListHeading(list)] + BulletLines(list, items.value) else []
  }

  function CommentPart(d: Fundamental): seq<Line> {
    if d.metaData.Some? then [Comment(d.metaData.value)] else []
  }

  /** The lines before the relationships section. */
  function Properties(d: Fundamental): seq<Line> {
    Preamble(d) + SeverityPart(d) + ListPart(ThreatTypesList, d.threatTypes)
      + ListPart(LastSeenAsList, d.lastSeenAs) + CommentPart(d)
  }

  /** Present whenever the `links` key is, even for an empty list. */
  function RelationshipsPart(d: Fundamental, fetch: string -> Response): seq<Line> {
    if d.links.Some? then [RelationshipsHeading] + LinkLines(d.links.value, fetch) else []
  }

  /** The lines of the section, with each alert's title as its lookup returned it. */
  function Layout(d: Fundamental, fetch: string -> Response): seq<Line> {
    Properties(d) + RelationshipsPart(d, fetch)
  }

  /** The reason of the first alert link, in list order, whose lookup ends the run. */
  function FirstAbort(ls: seq<Link>, fetch: string -> Response): Option<AbortReason> {
    if ls == [] then None
    else if IsAlert(ls[0]) && GetIaTitle(ls[0].uuid, fetch).Abort? then
      Some(GetIaTitle(ls[0].uuid, fetch).reason)
    else FirstAbort(ls[1..], fetch)
  }

  /** The request URLs issued while walking `ls`: one per alert link, up to and including an aborting one. */
  function Queried(ls: seq<Link>, fetch: string -> Response): seq<string> {
    if ls == [] then []
    else if !IsAlert(ls[0]) then Queried(ls[1..], fetch)
    else if GetIaTitle(ls[0].uuid, fetch).Abort? then [AlertRequestUrl(ls[0].uuid)]
    else [AlertRequestUrl(ls[0].uuid)] + Queried(ls[1..], fetch)
  }

  lemma {:induction false} FirstAbortAppend(a: seq<Link>, b: seq<Link>, fetch: string -> Response)
    ensures FirstAbort(a + b, fetch) == if FirstAbort(a, fetch).Some? then FirstAbort(a, fetch) else FirstAbort(b, fetch)
    ensures Queried(a + b, fetch) == if FirstAbort(a, fetch).Some? then Queried(a, fetch) else Queried(a, fetch) + Queried(b, fetch)
  {
    if a == [] {
      assert a + b == b;
    } else {
      assert (a + b)[0] == a[0];
      assert (a + b)[1..] == a[1..] + b;
      FirstAbortAppend(a[1..], b, fetch);
    }
  }

  /** Once a prefix of the links has ended the run, the rest of the list changes nothing. */
  lemma AbortedPrefix(links: seq<Link>, j: nat, fetch: string -> Response)
    requires j <= |links| && FirstAbort(links[..j], fetch).Some?
    ensures FirstAbort(links, fetch) == FirstAbort(links[..j], fetch)
    ensures Queried(links, fetch) == Queried(links[..j], fetch)
  {
    assert links == links[..j] + links[j..];
    FirstAbortAppend(links[..j], links[j..], fetch);
  }

  datatype Rendered = Document(text: string) | Aborted(reason: AbortReason)

  /** What `output_markdown(data)` returns, or how the run ends inside it. */
  function Render(d: Fundamental, fetch: string -> Response): Rendered {
    if d.links.Some? && FirstAbort(d.links.value, fetch).Some? then
      Aborted(FirstAbort(d.links.value, fetch).value)
    else
      Document(Join(Layout(d, fetch)))
  }

  /** The lookups `output_markdown(data)` issues, in order. */
  function Requests(d: Fundamental, fetch: string -> Response): seq<string> {
    if d.links.Some? then Queried(d.links.value, fetch) else []
  }

  /**
   * The renderer as the source writes it: `md` starts empty and grows one piece at a
   * time; each alert link issues its own lookup, and a lookup that ends the run ends
   * the rendering there. `requested` is the log of lookups issued.
   */
  method OutputMarkdown(data: Fundamental, fetch: string -> Response) returns (r: Rendered, requested: seq<string>)
    ensures r == Render(data, fetch)
    ensures requested == Requests(data, fetch)
  {
    var md := AppendProperties(data);
    requested := [];
    if data.links.Some? {
      ghost var head := Properties(data) + [RelationshipsHeading];
      JoinSnoc(Properties(data), RelationshipsHeading);
      md := md + "\n## Relationships\n";
      var aborted: Option<AbortReason>;
      md, aborted, requested := AppendLinks(md, data.links.value, fetch, head);
      if aborted.Some? {
        r := Aborted(aborted.value);
        return;
      }
      AppendAssoc(Properties(data), [RelationshipsHeading], LinkLines(data.links.value, fetch));
    } else {
      assert Layout(data, fetch) == Properties(data);
    }
    r := Document(md);
  }

  /** Lines 43-59 of the source: `md` starts empty and receives the heading and the properties. */
  method AppendProperties(data: Fundamental) returns (md: string)
    ensures md == Join(Properties(data))
  {
    ghost var lines: seq<Line> := [];
    md := "";
    md := md + ("# " + data.key + "\n\n");
    JoinSnoc(lines, Heading(data.key));
    lines := lines + [Heading(data.key)];
    assert md == Join(lines);
    md := md + "## Properties\n";
    JoinSnoc(lines, PropertiesHeading);
    lines := lines + [PropertiesHeading];
    assert md == Join(lines);
    md := md + ("- Created on: " + data.createdOn + "\n");
    JoinSnoc(lines, CreatedOn(data.createdOn));
    lines := lines + [CreatedOn(data.createdOn)];
    assert md == Join(lines);
    md := md + ("- Modified on: " + data.lastModified + "\n");
    JoinSnoc(lines, ModifiedOn(data.lastModified));
    lines := lines + [ModifiedOn(data.lastModified)];
    assert md == Join(lines);
    assert lines == Preamble(data);

    if data.severity.Some? {
      md := md + ("- Severity: " + FormatDecimal(data.severity.value) + "\n");
      JoinSnoc(lines, Severity(data.severity.value));
    } else {
      assert lines + SeverityPart(data) == lines;
    }
    lines := lines + SeverityPart(data);
    assert md == Join(lines);

    if data.threatTypes.Some? {
      md := md + "- Threat Types:\n";
      JoinSnoc(lines, ListHeading(ThreatTypesList));
      md := AppendBullets(md, ThreatTypesList, data.threatTypes.value, lines + [ListHeading(ThreatTypesList)]);
      AppendAssoc(lines, [ListHeading(ThreatTypesList)], BulletLines(ThreatTypesList, data.threatTypes.value));
    } else {
      assert lines + ListPart(ThreatTypesList, data.threatTypes) == lines;
    }
    lines := lines + ListPart(ThreatTypesList, data.threatTypes);
    assert md == Join(lines);

    if data.lastSeenAs.Some? {
      md := md + "- Last seen as:\n";
      JoinSnoc(lines, ListHeading(LastSeenAsList));
      md := AppendBullets(md, LastSeenAsList, data.lastSeenAs.value, lines + [ListHeading(LastSeenAsList)]);
      AppendAssoc(lines, [ListHeading(LastSeenAsList)], BulletLines(LastSeenAsList, data.lastSeenAs.value));
    } else {
      assert lines + ListPart(LastSeenAsList, data.lastSeenAs) == lines;
    }
    lines := lines + ListPart(LastSeenAsList, data.lastSeenAs);
    assert md == Join(lines);

    if data.metaData.Some? {
      md := md + ("- Comment: " + data.metaData.value + "\n");
      JoinSnoc(lines, Comment(data.metaData.value));
    } else {
      assert lines + CommentPart(data) == lines;
    }
    lines := lines + CommentPart(data);
    assert md == Join(lines);
  }

  /** The loops of lines 52-53 and 56-57: one `"    - x\n"` per item, appended to `md0` (the text of `lines0`). */
  method AppendBullets(md0: string, list: ListKind, items: seq<string>, ghost lines0: seq<Line>) returns (md: string)
    requires md0 == Join(lines0)
    ensures md == Join(lines0 + BulletLines(list, items))
  {
    md := md0;
    assert lines0 + BulletLines(list, items[..0]) == lines0;
    for i := 0 to |items|
      invariant md == Join(lines0 + BulletLines(list, items[..i]))
    {
      md := md + ("    - " + items[i] + "\n");
      assert Text(Bullet(list, items[i])) == "    - " + items[i] + "\n";
      TakeSnoc(items, i);
      BulletStep(lines0, list, items[..i], items[i]);
    }
    assert items[..|items|] == items;
  }

  /** Appending one bullet to the rendered text. */
  lemma BulletStep(lines0: seq<Line>, list: ListKind, xs: seq<string>, x: string)
    ensures Join(lines0 + BulletLines(list, xs + [x])) == Join(lines0 + BulletLines(list, xs)) + Text(Bullet(list, x))
  {
    BulletLinesSnoc(list, xs, x);
    AppendAssoc(lines0, BulletLines(list, xs), [Bullet(list, x)]);
    JoinSnoc(lines0 + BulletLines(list, xs), Bullet(list, x));
  }

  /** Walking one more link: its line is appended, and an alert link adds its request and may end the run. */
  lemma LinkStep(lines0: seq<Line>, links: seq<Link>, i: nat, fetch: string -> Response)
    requires i < |links| && FirstAbort(links[..i], fetch) == None
    ensures Join(lines0 + LinkLines(links[..i + 1], fetch)) == Join(lines0 + LinkLines(links[..i], fetch)) + Text(LinkLine(links[i], fetch))
    ensures FirstAbort(links[..i + 1], fetch) ==
      if IsAlert(links[i]) && GetIaTitle(links[i].uuid, fetch).Abort? then Some(GetIaTitle(links[i].uuid, fetch).reason) else None
    ensures Queried(links[..i + 1], fetch) ==
      Queried(links[..i], fetch) + (if IsAlert(links[i]) then [AlertRequestUrl(links[i].uuid)] else [])
  {
    var each := links[i];
    TakeSnoc(links, i);
    FirstAbortAppend(links[..i], [each], fetch);
    assert [each][1..] == [];
    LinkLinesSnoc(links[..i], each, fetch);
    AppendAssoc(lines0, LinkLines(links[..i], fetch), [LinkLine(each, fetch)]);
    JoinSnoc(lines0 + LinkLines(links[..i], fetch), LinkLine(each, fetch));
  }

  /**
   * Lines 63-67 of the source, for one link: an alert link issues its lookup and either
   * ends the run or appends its line; any other link appends its line.
   */
  method AppendLink(md0: string, each: Link, fetch: string -> Response)
    returns (md: string, aborted: Option<AbortReason>, request: seq<string>)
    ensures request == if IsAlert(each) then [AlertRequestUrl(each.uuid)] else []
    ensures aborted ==
      if IsAlert(each) && GetIaTitle(each.uuid, fetch).Abort? then Some(GetIaTitle(each.uuid, fetch).reason) else None
    ensures aborted.None? ==> md == md0 + Text(LinkLine(each, fetch))
  {
    md, aborted, request := md0, None, [];
    if each.linkType == "intelligence_alert" {
      var url := AlertRequestUrl(each.uuid);
      var response := fetch(url);
      request := [url];
      var outcome := ClassifyTitle(response);
      match outcome
      case Abort(reason) =>
        aborted := Some(reason);
      case Title(title) =>
        md := md + ("- Intelligence Alert: [" + title + "](" + AlertViewUrl + each.uuid + ")");
    } else {
      md := md + ("- " + each.key + " (" + each.linkType + "): " + each.relationship + "\n");
    }
  }

  /**
   * Lines 62-67 of the source: the loop over the links, appended to `md0` (the text of
   * `lines0`). Returns the abort reason of the first failing lookup, if any, and the
   * lookups issued.
   */
  method AppendLinks(md0: string, links: seq<Link>, fetch: string -> Response, ghost lines0: seq<Line>)
    returns (md: string, aborted: Option<AbortReason>, requested: seq<string>)
    requires md0 == Join(lines0)
    ensures aborted == FirstAbort(links, fetch)
    ensures requested == Queried(links, fetch)
    ensures aborted.None? ==> md == Join(lines0 + LinkLines(links, fetch))
  {
    md := md0;
    requested := [];
    assert lines0 + LinkLines(links[..0], fetch) == lines0;
    for i := 0 to |links|
      invariant md == Join(lines0 + LinkLines(links[..i], fetch))
      invariant FirstAbort(links[..i], fetch) == None
      invariant requested == Queried(links[..i], fetch)
    {
      LinkStep(lines0, links, i, fetch);
      var next, stop, request := AppendLink(md, links[i], fetch);
      requested := requested + request;
      if stop.Some? {
        AbortedPrefix(links, i + 1, fetch);
        aborted := stop;
        return;
      }
      md := next;
    }
    assert links[..|links|] == links;
    aborted := None;
  }
}
