/**
 * The backend's request handling: reading the filters and limits from the
 * query string, the arguments each route passes to its report query, and
 * the reply (the rows as JSON, or status 500 when the query fails).
 */
module Server {
  import opened Wrappers
  import opened JsText
  import opened Routes

  /** The parsed query string: each key with its (single) value. */
  type Query = map<string, string>

  /** A date passed to the database: the client's text, or the ISO form of an instant in ms. */
  datatype DateArg = Text(s: string) | IsoOf(ms: int)

  const ThirtyDaysMs: int := 30 * 24 * 60 * 60 * 1000

  /** The value of `key`, stated and non-empty (a JavaScript truthy string). */
  predicate Given(q: Query, key: string) {
    key in q && q[key] != ""
  }

  function Lookup(q: Query, key: string): (r: Option<string>)
    ensures r.Some? <==> key in q
  {
    if key in q then Some(q[key]) else None
  }

  /** `value || fallback` for a date. */
  function DateOr(q: Query, key: string, fallback: int): (d: DateArg)
    ensures d.Text? <==> Given(q, key)
    ensures d.Text? ==> d.s == q[key] && d.s != ""
    ensures d.IsoOf? ==> d.ms == fallback
  {
    if Given(q, key) then Text(q[key]) else IsoOf(fallback)
  }

  /** `value ? value.split(',').map(Number) : null`. */
  function IdsOf(q: Query, key: string): (r: Option<seq<JsNumber>>)
    ensures r.Some? <==> Given(q, key)
    ensures r.Some? ==> |r.value| >= 1
    ensures r.Some? ==> r.value == Numbers(Split(q[key]))
  {
    if Given(q, key) then Some(Numbers(Split(q[key]))) else None
  }

  datatype Filters = Filters(startDate: DateArg, endDate: DateArg, storeIds: Option<seq<JsNumber>>, channelIds: Option<seq<JsNumber>>)

  /** extractFilters: missing dates default to the thirty days before `now`; missing lists to null. */
  function ExtractFilters(q: Query, now: int): (f: Filters)
    ensures f.startDate == DateOr(q, "startDate", now - ThirtyDaysMs)
    ensures f.endDate == DateOr(q, "endDate", now)
    ensures f.storeIds == IdsOf(q, "storeIds") && f.channelIds == IdsOf(q, "channelIds")
  {
    Filters(DateOr(q, "startDate", now - ThirtyDaysMs), DateOr(q, "endDate", now), IdsOf(q, "storeIds"), IdsOf(q, "channelIds"))
  }

  /** Without dates the range is the thirty days up to now. */
  lemma DefaultRange(q: Query, now: int)
    requires !Given(q, "startDate") && !Given(q, "endDate")
    ensures ExtractFilters(q, now).startDate.IsoOf? && ExtractFilters(q, now).endDate.IsoOf?
    ensures ExtractFilters(q, now).endDate.ms - ExtractFilters(q, now).startDate.ms == 30 * 86400000
  {
  }

  /** `parseInt(value) || fallback`: NaN and 0 both fall back. */
  function LimitOr(v: Option<string>, fallback: int): (n: int)
    ensures fallback != 0 ==> n != 0
    ensures v.None? ==> n == fallback
    ensures n == fallback <==> v.None? || ParseInt(v.value) in {None, Some(0), Some(fallback)}
    ensures n != fallback ==> v.Some? && ParseInt(v.value) == Some(n)
  {
    if v.None? then fallback
    else match ParseInt(v.value)
      case None => fallback
      case Some(k) => if k == 0 then fallback else k
  }

  const TopProductsLimit: int := 10
  const TopCustomersLimit: int := 20
  const InactiveDays: int := 30

  /** A positional argument of a report query. */
  datatype Arg = DateValue(d: DateArg) | IdsValue(ids: Option<seq<JsNumber>>) | IntValue(n: int)

  /** What a route does: run a report query with these arguments, or answer the health check. */
  datatype Call = Run(report: Endpoint, args: seq<Arg>) | HealthCheck(at: int)

  function FilterArgs(f: Filters): seq<Arg> {
    [DateValue(f.startDate), DateValue(f.endDate), IdsValue(f.storeIds), IdsValue(f.channelIds)]
  }

  /** The route handlers: which query each calls and with what. */
  function Handle(e: Endpoint, q: Query, now: int): (c: Call)
    ensures e == Health <==> c.HealthCheck?
    ensures c.Run? ==> c.report == e
    ensures c.Run? ==> |c.args| == Arity(e)
  {
    var f := ExtractFilters(q, now);
    match e
    case Health => HealthCheck(now)
    case OverviewReport => Run(e, FilterArgs(f))
    case SalesByDateReport => Run(e, FilterArgs(f))
    case TopProductsReport => Run(e, FilterArgs(f) + [IntValue(LimitOr(Lookup(q, "limit"), TopProductsLimit))])
    case SalesByChannelReport => Run(e, [DateValue(f.startDate), DateValue(f.endDate), IdsValue(f.storeIds)])
    case SalesByHourReport => Run(e, FilterArgs(f))
    case SalesByWeekdayReport => Run(e, FilterArgs(f))
    case TopCustomersReport =>
      Run(e, [DateValue(f.startDate), DateValue(f.endDate), IntValue(LimitOr(Lookup(q, "limit"), TopCustomersLimit))])
    case InactiveCustomersReport => Run(e, [IntValue(LimitOr(Lookup(q, "days"), InactiveDays))])
    case StoreList => Run(e, [])
    case ChannelList => Run(e, [])
  }

  /** The number of arguments of each report query in queries.js. */
  function Arity(e: Endpoint): nat {
    match e
    case TopProductsReport => 5
    case SalesByChannelReport => 3
    case TopCustomersReport => 3
    case InactiveCustomersReport => 1
    case StoreList => 0
    case ChannelList => 0
    case Health => 0
    case _ => 4
  }

  /** The query-string keys a route reads. */
  function ReadKeys(e: Endpoint): set<string> {
    match e
    case Health => {}
    case TopProductsReport => {"startDate", "endDate", "storeIds", "channelIds", "limit"}
    case SalesByChannelReport => {"startDate", "endDate", "storeIds"}
    case TopCustomersReport => {"startDate", "endDate", "limit"}
    case InactiveCustomersReport => {"days"}
    case StoreList => {}
    case ChannelList => {}
    case _ => {"startDate", "endDate", "storeIds", "channelIds"}
  }

  predicate SameOn(q1: Query, q2: Query, keys: set<string>) {
    forall k :: k in keys ==> Lookup(q1, k) == Lookup(q2, k)
  }

  /**
   * A route depends on its own keys only: sales-by-channel ignores
   * channelIds, top-customers ignores both id lists, inactive-customers
   * reads nothing but days.
   */
  lemma HandleReadsOnly(e: Endpoint, q1: Query, q2: Query, now: int)
    requires SameOn(q1, q2, ReadKeys(e))
    ensures Handle(e, q1, now) == Handle(e, q2, now)
  {
    forall k | k in ReadKeys(e) ensures (k in q1 <==> k in q2) && (k in q1 ==> q1[k] == q2[k]) {
      assert Lookup(q1, k) == Lookup(q2, k);
    }
  }

  /** The body of a reply. */
  datatype Body<P> = Rows(data: P) | Error(message: string) | Status(status: string, timestamp: DateArg) | NotFound

  datatype Response<P> = Response(code: nat, body: Body<P>)

  /**
   * One GET request: route it, run the query through `run` (None when the
   * database rejects it), and reply with the rows or with status 500.
   */
  function Serve<P>(path: string, q: Query, now: int, run: Call -> Option<P>): (r: Response<P>)
    ensures r.code in {200, 404, 500}
    ensures r.code == 404 <==> Route(path).None?
    ensures r.code == 500 <==> Route(path).Some? && Route(path).value != Health && run(Handle(Route(path).value, q, now)).None?
    ensures r.code == 500 ==> r.body == Error("Internal server error")
    ensures r.code == 200 && Route(path).value != Health ==> r.body == Rows(run(Handle(Route(path).value, q, now)).value)
  {
    match Route(path)
    case None => Response(404, NotFound)
    case Some(e) =>
      if e == Health then Response(200, Status("ok", IsoOf(now)))
      else match run(Handle(e, q, now))
        case Some(rows) => Response(200, Rows(rows))
        case None => Response(500, Error("Internal server error"))
  }
}
