/** The JSON shapes the renderer consumes, as values. */
module Records {

  /** An optional record field: `None` when the key is absent from the JSON mapping. */
  datatype Option<+T> = None | Some(value: T) {
    function GetOr(default: T): T {
      match this
      case Some(v) => v
      case None => default
    }
  }

  /** One entry of a fundamental's `links` list: a typed edge to another entity. */
  datatype Link = Link(linkType: string, uuid: string, key: string, relationship: string)

  /**
   * A fundamental record (one element of `results` from the fundamental endpoint).
   * `key`, `created_on` and `last_modified` are always read; the others are read only
   * when their key is present, so they are options.
   */
  datatype Fundamental = Fundamental(
    key: string,
    createdOn: string,
    lastModified: string,
    severity: Option<int>,
    threatTypes: Option<seq<string>>,
    lastSeenAs: Option<seq<string>>,
    metaData: Option<string>,
    links: Option<seq<Link>>)

  /** One intelligence-alert document in a lookup response; only its title is read. */
  datatype AlertDoc = AlertDoc(title: string)

  /** An HTTP response of the document endpoint, with its JSON body already parsed. */
  datatype Response = Response(status: int, totalSize: int, results: seq<AlertDoc>)
}
