/**
 * The lookups behind alert links: which link ends the run, which requests are issued
 * and in what order, and that the rendering depends on the fetch only through the
 * outcomes of those lookups.
 */
module LookupProperties {
  import opened Records
  import opened AlertTitle
  import opened MarkdownRender

  /** Link `k` is the first alert link whose lookup ends the run. */
  ghost predicate FirstFailure(ls: seq<Link>, fetch: string -> Response, k: int) {
    && 0 <= k < |ls|
    && IsAlert(ls[k]) && GetIaTitle(ls[k].uuid, fetch).Abort?
    && forall j :: 0 <= j < k && IsAlert(ls[j]) ==> GetIaTitle(ls[j].uuid, fetch).Title?
  }

  /** The request URLs of the alert links of `ls`, in order; other links give none. */
  function AlertUrls(ls: seq<Link>): (urls: seq<string>)
    ensures |urls| <= |ls|
  {
    if ls == [] then []
    else (if IsAlert(ls[0]) then [AlertRequestUrl(ls[0].uuid)] else []) + AlertUrls(ls[1..])
  }

  /** The alert links, in order. */
  function Alerts(ls: seq<Link>): (alerts: seq<Link>)
    ensures |alerts| <= |ls|
    ensures forall i :: 0 <= i < |alerts| ==> IsAlert(alerts[i])
  {
    if ls == [] then []
    else (if IsAlert(ls[0]) then [ls[0]] else []) + Alerts(ls[1..])
  }

  /** One request per alert link, in order: the i-th URL is the i-th alert link's. */
  lemma {:induction false} AlertUrlsOnePerAlert(ls: seq<Link>)
    ensures |AlertUrls(ls)| == |Alerts(ls)|
    ensures forall i :: 0 <= i < |Alerts(ls)| ==> AlertUrls(ls)[i] == AlertRequestUrl(Alerts(ls)[i].uuid)
  {
    if ls != [] {
      AlertUrlsOnePerAlert(ls[1..]);
    }
  }

  /** Without a failing lookup every alert link is looked up, and nothing else is. */
  lemma {:induction false} NoAbortIff(ls: seq<Link>, fetch: string -> Response)
    ensures FirstAbort(ls, fetch).None? <==>
      forall k :: 0 <= k < |ls| && IsAlert(ls[k]) ==> GetIaTitle(ls[k].uuid, fetch).Title?
    ensures FirstAbort(ls, fetch).None? ==> Queried(ls, fetch) == AlertUrls(ls)
  {
    if ls != [] {
      NoAbortIff(ls[1..], fetch);
      assert forall k :: 1 <= k < |ls| ==> ls[k] == ls[1..][k - 1];
    }
  }

  /** The first failing lookup decides the outcome, and the requests stop right after it. */
  lemma {:induction false} FailureDecides(ls: seq<Link>, fetch: string -> Response, k: int)
    requires FirstFailure(ls, fetch, k)
    ensures FirstAbort(ls, fetch) == Some(GetIaTitle(ls[k].uuid, fetch).reason)
    ensures Queried(ls, fetch) == AlertUrls(ls[..k + 1])
  {
    if k == 0 {
      assert ls[..1][1..] == [];
    } else {
      assert FirstFailure(ls[1..], fetch, k - 1) by {
        forall j | 0 <= j < k - 1 && IsAlert(ls[1..][j])
          ensures GetIaTitle(ls[1..][j].uuid, fetch).Title?
        {
          assert ls[1..][j] == ls[j + 1];
        }
      }
      FailureDecides(ls[1..], fetch, k - 1);
      assert ls[..k + 1][1..] == ls[1..][..k];
      assert ls[..k + 1][0] == ls[0];
    }
  }

  /** A run that ends inside the links ends at a first failure. */
  lemma {:induction false} FindFailure(ls: seq<Link>, fetch: string -> Response) returns (k: int)
    requires FirstAbort(ls, fetch).Some?
    ensures FirstFailure(ls, fetch, k)
  {
    if IsAlert(ls[0]) && GetIaTitle(ls[0].uuid, fetch).Abort? {
      k := 0;
    } else {
      var k' := FindFailure(ls[1..], fetch);
      k := k' + 1;
      forall j | 0 <= j < k && IsAlert(ls[j])
        ensures GetIaTitle(ls[j].uuid, fetch).Title?
      {
        if j > 0 {
          assert ls[j] == ls[1..][j - 1];
        }
      }
    }
  }

  /**
   * The rendering is cut short exactly when some alert link's lookup fails, and then
   * with the reason of the first such link, after the requests of the alert links up
   * to and including it.
   */
  lemma AbortsExactlyAtFirstFailure(d: Fundamental, fetch: string -> Response)
    ensures Render(d, fetch).Aborted? <==> exists k :: FirstFailure(d.links.GetOr([]), fetch, k)
    ensures forall k :: FirstFailure(d.links.GetOr([]), fetch, k) ==>
      Render(d, fetch) == Aborted(GetIaTitle(d.links.GetOr([])[k].uuid, fetch).reason)
      && Requests(d, fetch) == AlertUrls(d.links.GetOr([])[..k + 1])
  {
    var ls := d.links.GetOr([]);
    if Render(d, fetch).Aborted? {
      var k := FindFailure(ls, fetch);
    }
    forall k | FirstFailure(ls, fetch, k)
      ensures Render(d, fetch) == Aborted(GetIaTitle(ls[k].uuid, fetch).reason)
      ensures Requests(d, fetch) == AlertUrls(ls[..k + 1])
    {
      FailureDecides(ls, fetch, k);
    }
  }

  /**
   * A finished document looked up every alert link once, in order, and no other link,
   * and every one of those lookups gave a title.
   */
  lemma DocumentRequests(d: Fundamental, fetch: string -> Response)
    requires Render(d, fetch).Document?
    ensures Requests(d, fetch) == AlertUrls(d.links.GetOr([]))
    ensures forall k :: 0 <= k < |d.links.GetOr([])| && IsAlert(d.links.GetOr([])[k]) ==>
      GetIaTitle(d.links.GetOr([])[k].uuid, fetch).Title?
  {
    NoAbortIff(d.links.GetOr([]), fetch);
  }

  // ---------------------------------------------------------------------------
  // The fetch matters only through the lookups of alert links

  ghost predicate SameLookups(ls: seq<Link>, f1: string -> Response, f2: string -> Response) {
    forall k :: 0 <= k < |ls| && IsAlert(ls[k]) ==> GetIaTitle(ls[k].uuid, f1) == GetIaTitle(ls[k].uuid, f2)
  }

  lemma {:induction false} SameLookupsSameLinks(ls: seq<Link>, f1: string -> Response, f2: string -> Response)
    requires SameLookups(ls, f1, f2)
    ensures LinkLines(ls, f1) == LinkLines(ls, f2)
    ensures FirstAbort(ls, f1) == FirstAbort(ls, f2)
    ensures Queried(ls, f1) == Queried(ls, f2)
  {
    if ls != [] {
      assert SameLookups(ls[1..], f1, f2) by {
        forall k | 0 <= k < |ls[1..]| && IsAlert(ls[1..][k])
          ensures GetIaTitle(ls[1..][k].uuid, f1) == GetIaTitle(ls[1..][k].uuid, f2)
        {
          assert ls[1..][k] == ls[k + 1];
        }
      }
      SameLookupsSameLinks(ls[1..], f1, f2);
    }
  }

  /**
   * Two fetches that answer the alert links' lookups alike give the same result and
   * the same requests: nothing else of the fetch, and nothing but the record, matters.
   */
  lemma RenderDependsOnlyOnLookups(d: Fundamental, f1: string -> Response, f2: string -> Response)
    requires SameLookups(d.links.GetOr([]), f1, f2)
    ensures Render(d, f1) == Render(d, f2)
    ensures Requests(d, f1) == Requests(d, f2)
  {
    SameLookupsSameLinks(d.links.GetOr([]), f1, f2);
    assert Layout(d, f1) == Layout(d, f2);
  }
}
