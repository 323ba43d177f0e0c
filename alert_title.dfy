/**
 * The decision `get_ia_title` takes on the response of one alert lookup. The HTTP GET
 * itself is a parameter: `fetch` maps a request URL to the response it gets.
 */
module AlertTitle {
  import opened Records

  const RequestBaseUrl := "https://api.intelgraph.idefense.com/rest/"
  /** `requests.codes.ok` */
  const StatusOk := 200
  const MissingAlertTitle := "Missing Intelligence Alert"

  /** The URL of the document lookup for one alert uuid. */
  function AlertRequestUrl(uuid: string): string {
    RequestBaseUrl + "document/v0?uuid.values=" + uuid
  }

  /** Why the run ends instead of rendering: `sys.exit` on a bad status, or the IndexError of `results[0]`. */
  datatype AbortReason = BadStatus(status: int) | NoResultEntry

  datatype TitleOutcome = Title(title: string) | Abort(reason: AbortReason)

  /**
   * `total_size` is tested before the status, so an empty answer gives the placeholder
   * whatever its status; otherwise a non-OK status ends the run and an OK one gives the
   * first result's title.
   */
  function ClassifyTitle(r: Response): (o: TitleOutcome)
    ensures r.totalSize == 0 ==> o == Title(MissingAlertTitle)
    ensures r.totalSize != 0 && r.status != StatusOk ==> o == Abort(BadStatus(r.status))
    ensures r.totalSize != 0 && r.status == StatusOk && |r.results| > 0 ==> o == Title(r.results[0].title)
    ensures r.totalSize != 0 && r.status == StatusOk && |r.results| == 0 ==> o == Abort(NoResultEntry)
    ensures o.Abort? <==> r.totalSize != 0 && (r.status != StatusOk || |r.results| == 0)
  {
    if r.totalSize == 0 then
      Title(MissingAlertTitle)
    else if r.status != StatusOk then
      Abort(BadStatus(r.status))
    else if |r.results| == 0 then
      Abort(NoResultEntry)
    else
      Title(r.results[0].title)
  }

  /** `get_ia_title(uuid)` with its one request answered by `fetch`. */
  function GetIaTitle(uuid: string, fetch: string -> Response): TitleOutcome {
    ClassifyTitle(fetch(AlertRequestUrl(uuid)))
  }

  /** Different uuids are looked up with different requests. */
  lemma AlertRequestUrlInjective(u1: string, u2: string)
    ensures AlertRequestUrl(u1) == AlertRequestUrl(u2) ==> u1 == u2
  {
    var p := RequestBaseUrl + "document/v0?uuid.values=";
    if AlertRequestUrl(u1) == AlertRequestUrl(u2) {
      assert u1 == AlertRequestUrl(u1)[|p|..];
      assert u2 == AlertRequestUrl(u2)[|p|..];
    }
  }
}
