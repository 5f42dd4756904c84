/**
 * The HTTP routes the backend serves and the frontend requests: one
 * endpoint per report, the two filter lists and the health check.
 */
module Routes {
  import opened Wrappers

  datatype Endpoint =
    | Health
    | OverviewReport
    | SalesByDateReport
    | TopProductsReport
    | SalesByChannelReport
    | SalesByHourReport
    | SalesByWeekdayReport
    | TopCustomersReport
    | InactiveCustomersReport
    | StoreList
    | ChannelList

  /** The piece of an endpoint's path after the API prefix. */
  function Name(e: Endpoint): string {
    match e
    case Health => "health"
    case OverviewReport => "overview"
    case SalesByDateReport => "sales-by-date"
    case TopProductsReport => "top-products"
    case SalesByChannelReport => "sales-by-channel"
    case SalesByHourReport => "sales-by-hour"
    case SalesByWeekdayReport => "sales-by-weekday"
    case TopCustomersReport => "top-customers"
    case InactiveCustomersReport => "inactive-customers"
    case StoreList => "stores"
    case ChannelList => "channels"
  }

  /** The path the server registers for an endpoint: /health, and /api/<name> for the rest. */
  function Path(e: Endpoint): string {
    if e == Health then "/health" else "/api/" + Name(e)
  }

  const Endpoints: seq<Endpoint> := [
    Health, OverviewReport, SalesByDateReport, TopProductsReport, SalesByChannelReport, SalesByHourReport,
    SalesByWeekdayReport, TopCustomersReport, InactiveCustomersReport, StoreList, ChannelList
  ]

  function Match(path: string, es: seq<Endpoint>): (r: Option<Endpoint>)
    ensures r.Some? ==> r.value in es && Path(r.value) == path
    ensures r.None? ==> forall e :: e in es ==> Path(e) != path
  {
    if |es| == 0 then None
    else if Path(es[0]) == path then Some(es[0])
    else Match(path, es[1..])
  }

  /** ASCII case folding; a route pattern without the `u` flag folds no other letter onto ASCII. */
  function Lower(c: char): (l: char)
    ensures 'A' <= c <= 'Z' ==> l as int == c as int + 32
    ensures !('A' <= c <= 'Z') ==> l == c
  {
    if 'A' <= c <= 'Z' then (c as int + 32) as char else c
  }

  function LowerText(s: string): (r: string)
    ensures |r| == |s|
    ensures forall i :: 0 <= i < |s| ==> r[i] == Lower(s[i])
  {
    seq(|s|, i requires 0 <= i < |s| => Lower(s[i]))
  }

  /** Non-strict routing: one trailing slash is optional. */
  function Trimmed(p: string): (r: string)
    ensures |p| > 1 && p[|p| - 1] == '/' ==> r == p[..|p| - 1]
    ensures !(|p| > 1 && p[|p| - 1] == '/') ==> r == p
  {
    if |p| > 1 && p[|p| - 1] == '/' then p[..|p| - 1] else p
  }

  /**
   * Express's default router: a path reaches an endpoint when it equals the
   * registered path up to the letter case and one trailing slash.
   */
  predicate Reaches(path: string, e: Endpoint) {
    LowerText(Trimmed(path)) == Path(e)
  }

  function Route(path: string): (r: Option<Endpoint>)
    ensures r.Some? ==> Reaches(path, r.value)
    ensures r.None? ==> forall e :: !Reaches(path, e)
  {
    EveryEndpointListed();
    Match(LowerText(Trimmed(path)), Endpoints)
  }

  lemma EveryEndpointListed()
    ensures forall e: Endpoint :: e in Endpoints
  {
    forall e: Endpoint ensures e in Endpoints {
      var i := match e
        case Health => 0
        case OverviewReport => 1
        case SalesByDateReport => 2
        case TopProductsReport => 3
        case SalesByChannelReport => 4
        case SalesByHourReport => 5
        case SalesByWeekdayReport => 6
        case TopCustomersReport => 7
        case InactiveCustomersReport => 8
        case StoreList => 9
        case ChannelList => 10;
      assert Endpoints[i] == e;
    }
  }

  /** A registered path has no upper-case letter and no trailing slash. */
  lemma PathIsNormal(e: Endpoint)
    ensures LowerText(Path(e)) == Path(e) && Trimmed(Path(e)) == Path(e)
  {
    var p := Path(e);
    assert p[|p| - 1] != '/';
    forall i | 0 <= i < |p| ensures !('A' <= p[i] <= 'Z') {
    }
  }

  /** Every endpoint is reached by its own path. */
  lemma RouteOfPath(e: Endpoint)
    ensures Route(Path(e)) == Some(e)
  {
    PathIsNormal(e);
    var r := Route(Path(e));
    if r.value != e {
      PathsDistinct(r.value, e);
    }
  }

  /** One trailing slash reaches the same endpoint. */
  lemma RouteOfPathWithSlash(e: Endpoint)
    ensures Route(Path(e) + "/") == Some(e)
  {
    var p := Path(e);
    assert (p + "/")[..|p|] == p;
    RouteOfPath(e);
  }

  /** A path that starts with two slashes reaches no endpoint, whatever follows. */
  lemma DoubleSlashReachesNothing(t: string)
    requires |t| >= 2 && t[0] == '/' && t[1] == '/'
    ensures Route(t).None?
  {
    var n := LowerText(Trimmed(t));
    assert |n| == 1 || n[1] == '/' by {
      if |t| > 2 {
        assert Trimmed(t)[1] == '/';
      }
    }
    forall e: Endpoint ensures n != Path(e) {
      PathShape(e);
    }
  }

  lemma PathShape(e: Endpoint)
    ensures |Path(e)| >= 5 && Path(e)[1] != '/'
  {
    if e != Health {
      assert Path(e)[..5] == "/api/";
    }
  }

  /** Letter case does not matter: any spelling that folds to an endpoint's path reaches it. */
  lemma RouteIgnoresCase(e: Endpoint, t: string)
    requires |t| == |Path(e)|
    requires forall i :: 0 <= i < |t| ==> Lower(t[i]) == Path(e)[i]
    ensures Route(t) == Some(e)
  {
    PathIsNormal(e);
    assert t[|t| - 1] != '/';
    assert LowerText(t) == Path(e);
    RouteOfPath(e);
  }

  lemma PathsDistinct(a: Endpoint, b: Endpoint)
    requires a != b
    ensures Path(a) != Path(b)
  {
    if a != Health && b != Health {
      assert Path(a)[5..] == Name(a);
      assert Path(b)[5..] == Name(b);
    } else if a == Health {
      assert Path(a)[1] == 'h' && Path(b)[1] == 'a';
    } else {
      assert Path(b)[1] == 'h' && Path(a)[1] == 'a';
    }
  }
}
