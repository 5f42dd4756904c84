/**
 * The frontend's API client: the query string built from a parameter
 * object, and the request each fetch function issues.
 */
module Api {
  import opened Wrappers
  import opened JsText
  import opened Routes

  /** The JavaScript values a parameter object holds here. */
  datatype JsValue = Null | Undefined | Str(s: string) | Numeric(x: JsNumber) | IntArray(xs: seq<int>)

  /** `value !== null && value !== undefined && value !== ''`: an empty array is kept. */
  predicate Kept(v: JsValue) {
    !v.Null? && !v.Undefined? && v != Str("")
  }

  /** The text URLSearchParams appends: arrays joined with commas, numbers in decimal. */
  function Render(v: JsValue): string {
    match v
    case Str(s) => s
    case Numeric(x) => if x.NaN? then "NaN" else IntToString(x.n)
    case IntArray(xs) => Join(Strings(xs))
    case _ => ""
  }

  type Entry = (string, JsValue)

  /** The pairs appended for `entries`, in order. */
  function QueryPairs(entries: seq<Entry>): seq<(string, string)> {
    if |entries| == 0 then []
    else
      var last := entries[|entries| - 1];
      QueryPairs(entries[..|entries| - 1]) + (if Kept(last.1) then [(last.0, Render(last.1))] else [])
  }

  /** A pair is appended exactly for each kept entry, with its rendered value. */
  lemma {:induction false} QueryPairsKept(entries: seq<Entry>, key: string, text: string)
    ensures (key, text) in QueryPairs(entries) <==>
              exists i :: 0 <= i < |entries| && entries[i].0 == key && Kept(entries[i].1) && Render(entries[i].1) == text
  {
    if |entries| > 0 {
      var init := entries[..|entries| - 1];
      QueryPairsKept(init, key, text);
      assert forall i :: 0 <= i < |init| ==> init[i] == entries[i];
    }
  }

  /** buildQueryString: the forEach over Object.entries, appending each kept value. */
  method BuildQueryString(entries: seq<Entry>) returns (query: seq<(string, string)>)
    ensures query == QueryPairs(entries)
    ensures |query| <= |entries|
  {
    query := [];
    var i := 0;
    while i < |entries|
      invariant 0 <= i <= |entries|
      invariant query == QueryPairs(entries[..i])
      invariant |query| <= i
    {
      var (key, value) := entries[i];
      if Kept(value) {
        query := query + [(key, Render(value))];
      }
      assert entries[..i + 1][..i] == entries[..i];
      i := i + 1;
    }
    assert entries[..i] == entries;
  }

  /** The dashboard's filter object, keys in the order the dashboard creates them. */
  datatype UiFilters = UiFilters(startDate: string, endDate: string, storeIds: seq<int>, channelIds: seq<int>)

  function FilterEntries(f: UiFilters): seq<Entry> {
    [("startDate", Str(f.startDate)), ("endDate", Str(f.endDate)), ("storeIds", IntArray(f.storeIds)), ("channelIds", IntArray(f.channelIds))]
  }

  /** A GET request: the endpoint and the query string's pairs. */
  datatype Request = Request(endpoint: Endpoint, query: seq<(string, string)>)

  function FetchOverview(f: UiFilters): Request {
    Request(OverviewReport, QueryPairs(FilterEntries(f)))
  }

  function FetchSalesByDate(f: UiFilters): Request {
    Request(SalesByDateReport, QueryPairs(FilterEntries(f)))
  }

  /** `{ ...filters, limit }` with `limit = 10` when the argument is omitted. */
  function FetchTopProducts(f: UiFilters, limit: Option<JsNumber>): Request {
    Request(TopProductsReport, QueryPairs(FilterEntries(f) + [("limit", Numeric(if limit.Some? then limit.value else Num(10)))]))
  }

  function FetchSalesByChannel(f: UiFilters): Request {
    Request(SalesByChannelReport, QueryPairs(FilterEntries(f)))
  }

  function FetchSalesByHour(f: UiFilters): Request {
    Request(SalesByHourReport, QueryPairs(FilterEntries(f)))
  }

  function FetchSalesByWeekday(f: UiFilters): Request {
    Request(SalesByWeekdayReport, QueryPairs(FilterEntries(f)))
  }

  function FetchTopCustomers(f: UiFilters, limit: Option<JsNumber>): Request {
    Request(TopCustomersReport, QueryPairs(FilterEntries(f) + [("limit", Numeric(if limit.Some? then limit.value else Num(20)))]))
  }

  /** `?days=${days}` written directly into the URL, `days = 30` when omitted. */
  function FetchInactiveCustomers(days: Option<JsNumber>): Request {
    Request(InactiveCustomersReport, [("days", Render(Numeric(if days.Some? then days.value else Num(30))))])
  }

  function FetchStores(): Request {
    Request(StoreList, [])
  }

  function FetchChannels(): Request {
    Request(ChannelList, [])
  }

  /** The key-value pairs of the four filters that reach the server (the dates may be empty). */
  lemma FilterPairs(f: UiFilters)
    ensures QueryPairs(FilterEntries(f)) ==
              (if f.startDate == "" then [] else [("startDate", f.startDate)])
              + (if f.endDate == "" then [] else [("endDate", f.endDate)])
              + [("storeIds", Join(Strings(f.storeIds))), ("channelIds", Join(Strings(f.channelIds)))]
  {
    var e := FilterEntries(f);
    var start := if f.startDate == "" then [] else [("startDate", f.startDate)];
    var end := if f.endDate == "" then [] else [("endDate", f.endDate)];
    assert e[..1][..0] == [];
    assert QueryPairs(e[..1]) == start;
    assert e[..2][..1] == e[..1];
    assert QueryPairs(e[..2]) == start + end;
    assert e[..3][..2] == e[..2];
    assert QueryPairs(e[..3]) == start + end + [("storeIds", Join(Strings(f.storeIds)))];
    assert e[..4][..3] == e[..3] && e[..4] == e;
  }

  // ---------------------------------------------------------------------
  // The base URL

  /** API_BASE in development: the dev server's proxy path. */
  const DevBase: string := "/api"

  /** The host part of the production API_BASE. */
  const ProdHost: string := "https://restaurant-analytics.onrender.com"

  /** API_BASE in production, as written: the host, a slash, and no /api. */
  const ProdBaseAsWritten: string := ProdHost + "/"

  /** API_BASE as evidently intended in production: the host's /api. */
  const ProdBase: string := ProdHost + "/api"

  /** `${API_BASE}/<name>`: the URL of an endpoint before the query string. */
  function Url(base: string, e: Endpoint): string {
    base + "/" + Name(e)
  }

  /** The path the server sees for a URL: everything after the host. */
  function PathAt(host: string, url: string): Option<string> {
    if |host| <= |url| && url[..|host|] == host then Some(url[|host|..]) else None
  }
}
