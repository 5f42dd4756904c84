/**
 * The frontend and the backend together: what a request built by the API
 * client becomes once the server has read its query string, and which
 * route its URL reaches.
 */
module Wire {
  import opened Wrappers
  import opened JsText
  import opened Routes
  import opened Server
  import opened Api

  /** The server's map of the query string's pairs (a later pair for the same key wins). */
  function QueryMap(pairs: seq<(string, string)>): Query {
    if |pairs| == 0 then map[]
    else
      var n := |pairs| - 1;
      QueryMap(pairs[..n])[pairs[n].0 := pairs[n].1]
  }

  predicate DistinctKeys(entries: seq<Entry>) {
    forall i, j :: 0 <= i < j < |entries| ==> entries[i].0 != entries[j].0
  }

  /** The text the client sends for `key`: None when the key is absent or its value is dropped. */
  function Sent(entries: seq<Entry>, key: string): (r: Option<string>)
    ensures (forall i :: 0 <= i < |entries| ==> entries[i].0 != key) ==> r.None?
  {
    if |entries| == 0 then None
    else
      var n := |entries| - 1;
      var last := entries[n];
      if last.0 == key then (if Kept(last.1) then Some(Render(last.1)) else None)
      else
        var r := Sent(entries[..n], key);
        assert forall i :: 0 <= i < n ==> entries[..n][i] == entries[i];
        r
  }

  /** Each key the client sends reaches the server with the text the client rendered. */
  lemma {:induction false} ReadBack(entries: seq<Entry>, key: string)
    requires DistinctKeys(entries)
    ensures Lookup(QueryMap(QueryPairs(entries)), key) == Sent(entries, key)
  {
    if |entries| > 0 {
      var n := |entries| - 1;
      var init := entries[..n];
      var last := entries[n];
      assert DistinctKeys(init);
      ReadBack(init, key);
      var pairs := QueryPairs(init);
      if Kept(last.1) {
        var p := (last.0, Render(last.1));
        assert QueryPairs(entries) == pairs + [p];
        assert (pairs + [p])[..|pairs|] == pairs;
      } else {
        assert QueryPairs(entries) == pairs + [];
        assert pairs + [] == pairs;
      }
      if last.0 == key {
        assert forall i :: 0 <= i < n ==> init[i].0 != key;
      }
    }
  }

  /** The filters the server extracts from what the dashboard sends. */
  function Received(f: UiFilters, now: int): Filters {
    Filters(
      if f.startDate == "" then IsoOf(now - ThirtyDaysMs) else Text(f.startDate),
      if f.endDate == "" then IsoOf(now) else Text(f.endDate),
      if |f.storeIds| == 0 then None else Some(Nums(f.storeIds)),
      if |f.channelIds| == 0 then None else Some(Nums(f.channelIds)))
  }

  lemma IdsRoundTrip(ids: seq<int>)
    ensures var q := map["k" := Join(Strings(ids))];
            IdsOf(q, "k") == if |ids| == 0 then None else Some(Nums(ids))
  {
    JoinEmptyIffEmpty(ids);
    if |ids| > 0 {
      IntListRoundTrip(ids);
    }
  }

  lemma IdsOfLookup(q1: Query, q2: Query, k1: string, k2: string)
    requires Lookup(q1, k1) == Lookup(q2, k2)
    ensures IdsOf(q1, k1) == IdsOf(q2, k2)
  {
  }

  /** What the dashboard sends for each filter key. */
  lemma FilterSent(f: UiFilters)
    ensures Sent(FilterEntries(f), "startDate") == if f.startDate == "" then None else Some(f.startDate)
    ensures Sent(FilterEntries(f), "endDate") == if f.endDate == "" then None else Some(f.endDate)
    ensures Sent(FilterEntries(f), "storeIds") == Some(Join(Strings(f.storeIds)))
    ensures Sent(FilterEntries(f), "channelIds") == Some(Join(Strings(f.channelIds)))
  {
    var e := FilterEntries(f);
    assert e[..3][..2][..1] == e[..1];
    assert e[..2][..1] == e[..1];
    assert e[..3][..2] == e[..2];
    var start := if f.startDate == "" then None else Some(f.startDate);
    assert Sent(e[..1], "startDate") == start;
    assert Sent(e[..2], "startDate") == start;
    assert Sent(e[..3], "startDate") == start;
    var end := if f.endDate == "" then None else Some(f.endDate);
    assert Sent(e[..2], "endDate") == end;
    assert Sent(e[..3], "endDate") == end;
  }

  /**
   * The filters survive the trip: dates as typed (an empty date falls back
   * to the server's default), a non-empty id list as the same numbers, and an
   * empty list — sent as an empty value — as no restriction.
   */
  lemma FiltersRoundTrip(f: UiFilters, extra: seq<Entry>, now: int)
    requires DistinctKeys(FilterEntries(f) + extra)
    requires forall i :: 0 <= i < |extra| ==> extra[i].0 !in {"startDate", "endDate", "storeIds", "channelIds"}
    ensures ExtractFilters(QueryMap(QueryPairs(FilterEntries(f) + extra)), now) == Received(f, now)
  {
    var entries := FilterEntries(f) + extra;
    var q := QueryMap(QueryPairs(entries));
    FilterSent(f);
    ReadAt(f, extra, "startDate");
    ReadAt(f, extra, "endDate");
    ReadAt(f, extra, "storeIds");
    ReadAt(f, extra, "channelIds");
    IdsRoundTrip(f.storeIds);
    IdsRoundTrip(f.channelIds);
    IdsOfLookup(q, map["k" := Join(Strings(f.storeIds))], "storeIds", "k");
    IdsOfLookup(q, map["k" := Join(Strings(f.channelIds))], "channelIds", "k");
  }

  lemma ReadAt(f: UiFilters, extra: seq<Entry>, k: string)
    requires DistinctKeys(FilterEntries(f) + extra)
    requires forall i :: 0 <= i < |extra| ==> extra[i].0 != k
    ensures Lookup(QueryMap(QueryPairs(FilterEntries(f) + extra)), k) == Sent(FilterEntries(f), k)
  {
    ReadBack(FilterEntries(f) + extra, k);
    SentPrefix(FilterEntries(f), extra, k);
  }

  /** Keys sent after the filters do not disturb what is sent for the filters. */
  lemma {:induction false} SentPrefix(entries: seq<Entry>, extra: seq<Entry>, key: string)
    requires forall i :: 0 <= i < |extra| ==> extra[i].0 != key
    ensures Sent(entries + extra, key) == Sent(entries, key)
  {
    if |extra| > 0 {
      var n := |extra| - 1;
      var all := entries + extra;
      assert all[|all| - 1] == extra[n];
      assert all[..|all| - 1] == entries + extra[..n];
      assert Sent(all, key) == Sent(entries + extra[..n], key);
      SentPrefix(entries, extra[..n], key);
    } else {
      assert entries + extra == entries;
    }
  }

  /** What the server makes of a number the client sent as a limit. */
  function LimitReceived(x: JsNumber, fallback: int): int {
    if x.Num? && x.n != 0 then x.n else fallback
  }

  lemma LimitRoundTrip(x: JsNumber, fallback: int)
    ensures LimitOr(Some(Render(Numeric(x))), fallback) == LimitReceived(x, fallback)
  {
    if x.Num? {
      ParseIntOfIntToString(x.n);
    } else {
      assert !IsDigit('N');
    }
  }

  function LimitEntry(f: UiFilters, x: JsNumber): seq<Entry> {
    FilterEntries(f) + [("limit", Numeric(x))]
  }

  lemma LimitEntryDistinct(f: UiFilters, x: JsNumber)
    ensures DistinctKeys(LimitEntry(f, x))
  {
  }

  /**
   * The dashboard's top-products request reaches the query with its filters
   * and limit; a limit of 0 or NaN becomes the server's 10.
   */
  lemma TopProductsRequestRoundTrip(f: UiFilters, limit: JsNumber, now: int)
    ensures var r := FetchTopProducts(f, Some(limit));
            Handle(r.endpoint, QueryMap(r.query), now)
              == Run(TopProductsReport, FilterArgs(Received(f, now)) + [IntValue(LimitReceived(limit, TopProductsLimit))])
  {
    var entries := LimitEntry(f, limit);
    LimitEntryDistinct(f, limit);
    FiltersRoundTrip(f, [("limit", Numeric(limit))], now);
    ReadBack(entries, "limit");
    LimitRoundTrip(limit, TopProductsLimit);
  }

  /** The top-customers request's limit arrives; its id lists are sent but not used. */
  lemma TopCustomersRequestRoundTrip(f: UiFilters, limit: JsNumber, now: int)
    ensures var r := FetchTopCustomers(f, Some(limit));
            Handle(r.endpoint, QueryMap(r.query), now)
              == Run(TopCustomersReport, [DateValue(Received(f, now).startDate), DateValue(Received(f, now).endDate),
                                          IntValue(LimitReceived(limit, TopCustomersLimit))])
  {
    var entries := LimitEntry(f, limit);
    LimitEntryDistinct(f, limit);
    FiltersRoundTrip(f, [("limit", Numeric(limit))], now);
    ReadBack(entries, "limit");
    LimitRoundTrip(limit, TopCustomersLimit);
  }

  /** The inactive-customers request carries only the number of days. */
  lemma InactiveRequestRoundTrip(days: JsNumber, now: int)
    ensures var r := FetchInactiveCustomers(Some(days));
            Handle(r.endpoint, QueryMap(r.query), now) == Run(InactiveCustomersReport, [IntValue(LimitReceived(days, InactiveDays))])
  {
    LimitRoundTrip(days, InactiveDays);
    assert QueryMap([("days", Render(Numeric(days)))])["days"] == Render(Numeric(days));
  }

  /** A request with the dashboard's filters reaches its report with those filters. */
  lemma FilterRequestRoundTrip(e: Endpoint, f: UiFilters, now: int)
    requires e in {OverviewReport, SalesByDateReport, SalesByHourReport, SalesByWeekdayReport}
    ensures Handle(e, QueryMap(QueryPairs(FilterEntries(f))), now) == Run(e, FilterArgs(Received(f, now)))
  {
    FiltersRoundTrip(f, [], now);
    assert FilterEntries(f) + [] == FilterEntries(f);
  }

  /** The sales-by-channel request sends the channel list, which the server drops. */
  lemma ChannelRequestRoundTrip(f: UiFilters, now: int)
    ensures var r := FetchSalesByChannel(f);
            Handle(r.endpoint, QueryMap(r.query), now)
              == Run(SalesByChannelReport, [DateValue(Received(f, now).startDate), DateValue(Received(f, now).endDate),
                                            IdsValue(Received(f, now).storeIds)])
  {
    FiltersRoundTrip(f, [], now);
    assert FilterEntries(f) + [] == FilterEntries(f);
  }

  // ---------------------------------------------------------------------
  // Which route a URL reaches

  /** In development every request reaches its own route (the dev proxy keeps the path). */
  lemma DevUrlRoutes(e: Endpoint)
    requires e != Health
    ensures Route(Url(DevBase, e)) == Some(e)
  {
    assert Url(DevBase, e) == Path(e);
    RouteOfPath(e);
  }

  /** As written, a production URL has the path //<name>, which no route serves. */
  lemma ProdUrlAsWrittenMisses(e: Endpoint)
    ensures PathAt(ProdHost, Url(ProdBaseAsWritten, e)) == Some("//" + Name(e))
    ensures Route("//" + Name(e)).None?
  {
    var url := Url(ProdBaseAsWritten, e);
    assert url == ProdHost + ("//" + Name(e));
    assert url[..|ProdHost|] == ProdHost;
    assert url[|ProdHost|..] == "//" + Name(e);
    DoubleSlashReachesNothing("//" + Name(e));
  }

  /** With the /api base each production request reaches its own route. */
  lemma ProdUrlRoutes(e: Endpoint)
    requires e != Health
    ensures PathAt(ProdHost, Url(ProdBase, e)) == Some(Path(e))
    ensures Route(Path(e)) == Some(e)
  {
    var url := Url(ProdBase, e);
    assert url == ProdHost + Path(e);
    assert url[..|ProdHost|] == ProdHost;
    assert url[|ProdHost|..] == Path(e);
    RouteOfPath(e);
  }
}
