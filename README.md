# ig-query Markdown renderer, modelled in Dafny

`ig-query.py` asks iDefense IntelGraph about one indicator and can print the
answer as Markdown. This project models the Markdown part. `output_markdown`
renders one *fundamental* record: a heading with its key, a Properties list, and a
Relationships list with one line per link. A link of type `intelligence_alert` is
shown with the title of the alert it points to. That title comes from one document
lookup per alert, made by `get_ia_title`, and a failed lookup can end the whole run.

Modules:

- `Records` — the JSON shapes read: the fundamental record, its links, and a
  lookup response. A key the code tests with `in` becomes an `Option`.
- `Decimal` — Python's `"%d"` for the severity.
- `AlertTitle` — the decision `get_ia_title` takes on a lookup response
  (`ClassifyTitle`), and the lookup URL. The HTTP GET is a parameter
  `fetch: string -> Response` that maps a request URL to its response.
- `MarkdownRender` — the specification and the code:
  - The specification is a list of `Line`s, one per `md +=` step, each with its
    exact text. `Render` is that text, or the abort of the first failing lookup.
    `Requests` is the list of lookups made, in order.
  - `OutputMarkdown` is the imperative renderer. It grows `md` step by step with
    the same loops as the source. It is proved to return `Render` and to make
    exactly the lookups in `Requests`.
- `MarkdownProperties` — the output order, the presence of each line, the lines
  per list element and per link, the exact texts, and how the document starts and ends.
- `LookupProperties` — which lookups are made and when a run aborts. It also proves
  that the output depends on `fetch` only through the alert lookups.
- `Scenarios` — concrete records and lookup answers, with their exact output.

"Lookups made" means the log the renderer keeps of the URLs it requests. The log
grows by one URL next to each `fetch(url)` call in `AppendLink`. Because `fetch` is a
pure function, the proofs are about this log, not about the calls themselves.

Behaviours of the code worth knowing, all of which the model keeps:

- The heading shows `key` only; a `title` field is never used.
- The Relationships heading appears whenever the `links` key exists, even for an
  empty list.
- An alert line has no line break after it. The next link line, if any, continues
  on the same line.
- `total_size == 0` is tested before the status. So an empty answer gives the
  placeholder title whatever its status.
- With several results, the first result's title is used. There is no abort for an
  ambiguous answer.
- A non-zero `total_size` with an empty `results` list fails on `results[0]`
  (a Python `IndexError`). The model treats it as an abort, `NoResultEntry`.
- Nothing renders abstract, analysis or mitigation text, inlines assets, or writes
  a trailing delimiter.

## Model

| member | source | states |
|---|---|---|
| `MarkdownRender.OutputMarkdown` | ig-query.py:42-68 | The result is `Render` of the record: the full document, or the first failing lookup's abort. The lookups made are exactly `Requests`. |
| `MarkdownRender.AppendProperties` | ig-query.py:43-59 | Starting from the empty string, the text built is exactly the heading, Properties, Created-on and Modified-on lines, then the Severity line, the two lists and the Comment line, each only if its key is present. |
| `MarkdownRender.AppendBullets` | ig-query.py:50-57 | The list loop appends exactly one bullet per element, in the list's order, to the text built so far. |
| `MarkdownRender.AppendLink` | ig-query.py:63-67 | An alert link makes exactly one lookup, of its own uuid's URL. Any other link makes none. The run aborts iff the link is an alert whose lookup aborts, and then with that reason. Otherwise exactly that link's line is appended. |
| `MarkdownRender.AppendLinks` | ig-query.py:62-67 | The links loop aborts with the first failing alert lookup's reason, if there is one. Its lookups are one per alert link, in order, up to and including the failing one. Without an abort, the text is the link lines in list order. |
| `MarkdownRender.AbortedPrefix` | ig-query.py:62-64 | Once an alert lookup among the first links has aborted, the later links change neither the outcome nor the lookups made. |
| `AlertTitle.ClassifyTitle` | ig-query.py:28-33 | `total_size == 0` gives "Missing Intelligence Alert" whatever the status. Otherwise a non-200 status aborts with that status, and a 200 gives `results[0].title`. A 200 with no result entry (the `IndexError` of `results[0]`) aborts with `NoResultEntry`. It aborts iff `total_size != 0` and (status != 200 or no result entry). |
| `AlertTitle.AlertRequestUrlInjective` | ig-query.py:22 | Different alert uuids are looked up with different request URLs. |
| `Decimal.FormatDecimal` | ig-query.py:49 | The `%d` text of the severity is non-empty. It begins with '-' iff the value is negative, and every other character is a decimal digit. The digits have no leading zero: a first digit '0' means the value is 0 and the text is "0". |
| `Decimal.ParseFormatDecimal` | ig-query.py:49 | The `%d` text is a well-formed decimal, and reading it back gives the severity: formatting loses nothing. |
| `MarkdownProperties.LayoutOrdered` | ig-query.py:44-67 | The output lines always come in the fixed order: heading, Properties, Created on, Modified on, Severity, Threat Types, Last seen as, Comment, Relationships, links. This holds whatever the record holds. |
| `MarkdownProperties.LayoutSections` | ig-query.py:44-67 | For each line kind, the lines of that kind in the output are exactly those the independent reference `ExpectedSection` predicts from the record. |
| `MarkdownProperties.FixedLinesOnce` | ig-query.py:44-47 | The heading (with the key), "## Properties", Created-on and Modified-on lines each occur exactly once, for every record. |
| `MarkdownProperties.OptionalLinesIffKey` | ig-query.py:48-61 | The Severity, Threat Types, Last seen as, Comment and Relationships heading lines each appear, exactly once, iff their key is present. Otherwise they are absent. |
| `MarkdownProperties.BulletsOnePerItem` | ig-query.py:50-57 | The Threat Types and Last seen as bullets are exactly one per list element, in list order. There are none when the key is absent. |
| `MarkdownProperties.BulletTexts` | ig-query.py:52-57 | The bullets of a list are as many as its elements. The k-th bullet's text is `"    - " + xs[k] + "\n"`. |
| `MarkdownProperties.LinkLinesOnePerLink` | ig-query.py:62-67 | There is one relationship line per link, in order. An alert's line is `- Intelligence Alert: [title](viewer URL + uuid)`, with the title its lookup returned. Any other link's line is `- key (type): relationship` and a newline. |
| `MarkdownProperties.LinkLineText` | ig-query.py:63-67 | The exact text of one link's line in each of the two branches, including the missing newline after an alert. |
| `MarkdownProperties.PreambleText` | ig-query.py:44-47 | The first four steps produce exactly `# key`, a blank line, `## Properties`, and the Created-on and Modified-on lines. |
| `MarkdownProperties.DocumentStartsWithPreamble` | ig-query.py:44-47 | Every rendered document begins with those four lines' exact text. |
| `MarkdownProperties.NoLinksKey` | ig-query.py:60-61 | Without a `links` key the document is the properties text alone, with no Relationships heading, and no lookup is made. |
| `MarkdownProperties.EmptyLinksStillHeaded` | ig-query.py:60-62 | With `links` an empty list, the document is the properties text followed by "\n## Relationships\n", and no lookup is made. |
| `MarkdownProperties.RelationshipsText` | ig-query.py:60-67 | The relationships text is its heading followed by the link lines, in order. |
| `MarkdownProperties.LinkLineLastChar` | ig-query.py:63-67 | An alert link's line ends in ')'; any other link's line ends in a newline. |
| `MarkdownProperties.DocumentLastCharacter` | ig-query.py:65-67 | A document with links ends in ')' if its last link is an alert. Otherwise it ends in a newline. |
| `LookupProperties.AlertUrlsOnePerAlert` | ig-query.py:62-64 | The alert request URLs are one per alert link, and the i-th is the i-th alert link's request URL. |
| `LookupProperties.NoAbortIff` | ig-query.py:62-64 | The links loop does not abort iff every alert lookup gives a title. In that case the lookups made are exactly the alert request URLs, in order. |
| `LookupProperties.FailureDecides` | ig-query.py:62-64 | If link k is the first alert whose lookup aborts, the loop aborts with k's reason. The lookups made are then those of the alerts up to and including k. |
| `LookupProperties.FindFailure` | ig-query.py:62-64 | An aborted links loop always has a first failing alert link. |
| `LookupProperties.AbortsExactlyAtFirstFailure` | ig-query.py:60-64 | The rendering aborts iff some alert link is a first failure. It then carries that link's reason, and the lookups stop after it. |
| `LookupProperties.DocumentRequests` | ig-query.py:62-65 | A rendered document looked up every alert link once, in order, and each of those lookups gave a title. |
| `LookupProperties.SameLookupsSameLinks` | ig-query.py:62-67 | Two fetches that answer every alert lookup alike give the same link lines, the same abort and the same lookups. |
| `LookupProperties.RenderDependsOnlyOnLookups` | ig-query.py:42-68 | The output and the lookups made depend only on the record and on the answers to its alert lookups. |
| `Scenarios.SeverityOnlyRecord` | ig-query.py:44-49 | The record with key evil.example.com and severity 7 gives exactly its heading, Properties, dates and `- Severity: 7` lines. There is no Threat Types or Relationships section, and no lookup. |
| `Scenarios.MissingAlertLink` | ig-query.py:28-29 | An alert whose lookup reports `total_size` 0 is shown as `[Missing Intelligence Alert](…)`, with no newline after it, after one lookup. |
| `Scenarios.BadStatusEndsRun` | ig-query.py:30-31 | A lookup that finds something but answers status 500 ends the run with that status, after one lookup. |
| `Scenarios.FirstOfSeveralResults` | ig-query.py:33 | With two results, the first result's title is taken. |

## Left out

- The HTTP request itself (lines 18-26): headers, the API key from the `IDEF_TOKEN`
  environment variable, and connection or HTTP exceptions. The lookup is the `fetch`
  parameter. A transport failure is outside the model.
- `sys.exit` messages (lines 24, 26, 31): an abort keeps its cause (`BadStatus(status)`
  or `NoResultEntry`) but not its message text or exit code.
- `main` (line 71 onward): argument parsing, the first fundamental lookup, `--debug`
  and the JSON output are not part of this model.
- `output_html` (lines 36-39): it hands the Markdown to the `markdown` library, which
  is not part of this model.
- A record that lacks `key`, `created_on` or `last_modified` raises `KeyError` in
  the source. The record type always has these fields, so that error path is not
  modelled.
- A link's fields: `uuid`, `key` and `relationship` are always present in the model's
  link type. The source reads `uuid` only for an alert link (lines 64-65) and `key` and
  `relationship` only for other links (line 67). `LinkLine` also reads only those
  fields, so a link lacking a field its branch does not read renders the same as in the
  source. A link without `type` (line 63), or lacking a field its branch reads, raises
  `KeyError` in the source; that error path is not modelled.
- A lookup body without `total_size` (line 28), or a first result without `title`
  (line 33), also raises `KeyError`. The response type always has these fields, so
  that error path is not modelled.
- Repeated lookups of one uuid: the `fetch` parameter gives one fixed answer per URL. So two
  alert links with the same uuid always get the same response in the model. The
  source makes a separate `requests.get` for each alert link (lines 22, 62-64), and
  the two answers could differ, for example 200 then 500. The model does not capture
  such a run.
- JSON values of another type than the model's (`%s` of a number or a list, `%d`
  of a string), and a lookup body that is not JSON, are not modelled. Every field
  has the one type the code expects.
