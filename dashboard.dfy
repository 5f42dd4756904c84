/**
 * The dashboard component: the draft and applied filters, the draft and
 * applied product limit, the active tab, the loading flag and the report
 * slots, with the transitions its handlers and effects perform.
 */
module Dashboard {
  import opened Wrappers
  import opened JsText
  import opened Routes
  import opened Server
  import opened Api
  import opened Wire

  datatype Tab = OverviewTab | ProductsTab | ChannelsTab | TemporalTab | CustomersTab

  /** A reply body as the component stores it. */
  type Payload = string

  /**
   * A filters object and its identity: React compares effect dependencies by
   * reference, so two objects with equal fields still differ.
   */
  datatype FilterState = FilterState(ref: nat, value: UiFilters)

  /** defaultFilters: the thirty days up to `today`, formatted by `fmt`, and no store or channel. */
  function DefaultFilters(today: int, fmt: int -> string): UiFilters {
    UiFilters(fmt(today - 30), fmt(today), [], [])
  }

  /** The report slots; None is the initial value (null or an empty list). */
  datatype Slots = Slots(
    overview: Option<Payload>, salesByDate: Option<Payload>, topProducts: Option<Payload>,
    salesByChannel: Option<Payload>, salesByHour: Option<Payload>, salesByWeekday: Option<Payload>,
    topCustomers: Option<Payload>, inactiveCustomers: Option<Payload>)

  const NoData: Slots := Slots(None, None, None, None, None, None, None, None)

  /** The reports a tab shows, in the order it fetches them. */
  function TabReports(tab: Tab): seq<Endpoint> {
    match tab
    case OverviewTab => [OverviewReport, SalesByDateReport]
    case ProductsTab => [TopProductsReport]
    case ChannelsTab => [SalesByChannelReport]
    case TemporalTab => [SalesByHourReport, SalesByWeekdayReport]
    case CustomersTab => [TopCustomersReport, InactiveCustomersReport]
  }

  /** The slots a tab fills, in the same order. */
  function TabSlots(s: Slots, tab: Tab): (r: seq<Option<Payload>>)
    ensures |r| == |TabReports(tab)|
  {
    match tab
    case OverviewTab => [s.overview, s.salesByDate]
    case ProductsTab => [s.topProducts]
    case ChannelsTab => [s.salesByChannel]
    case TemporalTab => [s.salesByHour, s.salesByWeekday]
    case CustomersTab => [s.topCustomers, s.inactiveCustomers]
  }

  function Somes(vs: seq<Payload>): (r: seq<Option<Payload>>)
    ensures |r| == |vs|
  {
    seq(|vs|, i requires 0 <= i < |vs| => Some(vs[i]))
  }

  /** The setter calls after a tab's fetches all resolved: that tab's slots and no others. */
  function Stored(s: Slots, tab: Tab, vs: seq<Payload>): (r: Slots)
    requires |vs| == |TabReports(tab)|
    ensures TabSlots(r, tab) == Somes(vs)
    ensures forall t :: t != tab ==> TabSlots(r, t) == TabSlots(s, t)
  {
    match tab
    case OverviewTab => s.(overview := Some(vs[0]), salesByDate := Some(vs[1]))
    case ProductsTab => s.(topProducts := Some(vs[0]))
    case ChannelsTab => s.(salesByChannel := Some(vs[0]))
    case TemporalTab => s.(salesByHour := Some(vs[0]), salesByWeekday := Some(vs[1]))
    case CustomersTab => s.(topCustomers := Some(vs[0]), inactiveCustomers := Some(vs[1]))
  }

  /** The requests loadData issues for a tab. */
  function TabRequests(tab: Tab, f: UiFilters, limit: JsNumber): (rs: seq<Request>)
    ensures |rs| == |TabReports(tab)|
    ensures forall i :: 0 <= i < |rs| ==> rs[i].endpoint == TabReports(tab)[i]
  {
    match tab
    case OverviewTab => [FetchOverview(f), FetchSalesByDate(f)]
    case ProductsTab => [FetchTopProducts(f, Some(limit))]
    case ChannelsTab => [FetchSalesByChannel(f)]
    case TemporalTab => [FetchSalesByHour(f), FetchSalesByWeekday(f)]
    case CustomersTab => [FetchTopCustomers(f, Some(Num(20))), FetchInactiveCustomers(Some(Num(30)))]
  }

  predicate ShownBy(e: Endpoint, tab: Tab) {
    e in TabReports(tab)
  }

  /** Every report endpoint belongs to exactly one tab; the health check and the two lists to none. */
  lemma TabsPartitionReports(e: Endpoint)
    ensures e in {Health, StoreList, ChannelList} <==> forall t :: !ShownBy(e, t)
    ensures forall t1, t2 :: ShownBy(e, t1) && ShownBy(e, t2) ==> t1 == t2
  {
    var owner := match e
      case OverviewReport => OverviewTab
      case SalesByDateReport => OverviewTab
      case TopProductsReport => ProductsTab
      case SalesByChannelReport => ChannelsTab
      case SalesByHourReport => TemporalTab
      case SalesByWeekdayReport => TemporalTab
      case TopCustomersReport => CustomersTab
      case InactiveCustomersReport => CustomersTab
      case _ => OverviewTab;
    if e !in {Health, StoreList, ChannelList} {
      assert ShownBy(e, owner);
    }
  }

  /**
   * The products tab's request reaches the top-products query with the
   * applied filters and the applied limit (0 or NaN becoming 10).
   */
  lemma ProductsTabRequest(f: UiFilters, limit: JsNumber, now: int)
    ensures var r := TabRequests(ProductsTab, f, limit)[0];
            Handle(r.endpoint, QueryMap(r.query), now)
              == Run(TopProductsReport, FilterArgs(Received(f, now)) + [IntValue(LimitReceived(limit, TopProductsLimit))])
  {
    TopProductsRequestRoundTrip(f, limit, now);
  }

  /** The customers tab asks for the top 20 and for customers inactive for 30 days. */
  lemma CustomersTabRequests(f: UiFilters, limit: JsNumber, now: int)
    ensures var rs := TabRequests(CustomersTab, f, limit);
            && Handle(rs[0].endpoint, QueryMap(rs[0].query), now)
                 == Run(TopCustomersReport, [DateValue(Received(f, now).startDate), DateValue(Received(f, now).endDate), IntValue(20)])
            && Handle(rs[1].endpoint, QueryMap(rs[1].query), now) == Run(InactiveCustomersReport, [IntValue(30)])
  {
    TopCustomersRequestRoundTrip(f, Num(20), now);
    InactiveRequestRoundTrip(Num(30), now);
  }

  /** A load in flight: the tab it was started for and the requests it issued. */
  datatype Pending = Pending(tab: Tab, requests: seq<Request>)

  /** The values of an effect's dependency list. */
  datatype Deps = Deps(filters: nat, tab: Tab, limit: JsNumber)

  class Dashboard {
    var activeTab: Tab
    var loading: bool
    var currentFilters: FilterState
    var appliedFilters: FilterState
    /** The `defaultFilters` object of the latest render, which resetFilters hands to both setters. */
    var defaults: FilterState
    /** The identity the next filters object gets. */
    var nextRef: nat
    var productLimit: JsNumber
    var appliedProductLimit: JsNumber
    var stores: Option<Payload>
    var channels: Option<Payload>
    var data: Slots
    /** The dependencies at the last commit; None before the first. */
    var committed: Option<Deps>
    var mounted: bool

    /** Every filters object so far has an identity below nextRef. */
    ghost predicate Valid()
      reads this
    {
      currentFilters.ref < nextRef && appliedFilters.ref < nextRef && defaults.ref < nextRef
    }

    function Draft(): (FilterState, JsNumber)
      reads this
    {
      (currentFilters, productLimit)
    }

    function Applied(): (FilterState, JsNumber)
      reads this
    {
      (appliedFilters, appliedProductLimit)
    }

    function Loaded(): (Option<Payload>, Option<Payload>, Slots)
      reads this
    {
      (stores, channels, data)
    }

    /** [appliedFilters, activeTab, appliedProductLimit]. */
    function CurrentDeps(): Deps
      reads this
    {
      Deps(appliedFilters.ref, activeTab, appliedProductLimit)
    }

    /** The first render: both filters are the same defaults object. */
    constructor(today: int, fmt: int -> string)
      ensures Valid()
      ensures activeTab == OverviewTab && loading
      ensures currentFilters == appliedFilters == defaults && defaults.value == DefaultFilters(today, fmt)
      ensures productLimit == Num(10) && appliedProductLimit == Num(10)
      ensures stores.None? && channels.None? && data == NoData
      ensures committed.None? && !mounted
    {
      activeTab := OverviewTab;
      loading := true;
      currentFilters := FilterState(0, DefaultFilters(today, fmt));
      appliedFilters := currentFilters;
      defaults := currentFilters;
      nextRef := 1;
      productLimit := Num(10);
      appliedProductLimit := Num(10);
      stores := None;
      channels := None;
      data := NoData;
      committed := None;
      mounted := false;
    }

    /** A tab button. */
    method SetActiveTab(t: Tab)
      requires Valid()
      modifies this
      ensures Valid()
      ensures defaults == old(defaults)
      ensures activeTab == t && loading == old(loading) && nextRef == old(nextRef)
      ensures Draft() == old(Draft()) && Applied() == old(Applied()) && Loaded() == old(Loaded())
      ensures committed == old(committed) && mounted == old(mounted)
      ensures CurrentDeps() != old(CurrentDeps()) <==> t != old(activeTab)
    {
      activeTab := t;
    }

    /** `setCurrentFilters({ ...currentFilters, <field>: v })`: a new draft object. */
    method EditDraft(f: UiFilters)
      requires Valid()
      modifies this
      ensures Valid()
      ensures defaults == old(defaults)
      ensures currentFilters == FilterState(old(nextRef), f) && currentFilters.ref != appliedFilters.ref
      ensures nextRef == old(nextRef) + 1
      ensures productLimit == old(productLimit) && Applied() == old(Applied()) && Loaded() == old(Loaded())
      ensures activeTab == old(activeTab) && loading == old(loading)
      ensures committed == old(committed) && mounted == old(mounted)
      ensures CurrentDeps() == old(CurrentDeps())
    {
      currentFilters := FilterState(nextRef, f);
      nextRef := nextRef + 1;
    }

    /** The start-date input. */
    method EditStartDate(s: string)
      requires Valid()
      modifies this
      ensures Valid()
      ensures defaults == old(defaults)
      ensures currentFilters == FilterState(old(nextRef), old(currentFilters.value).(startDate := s))
      ensures nextRef == old(nextRef) + 1
      ensures productLimit == old(productLimit) && Applied() == old(Applied()) && Loaded() == old(Loaded())
      ensures activeTab == old(activeTab) && loading == old(loading)
      ensures committed == old(committed) && mounted == old(mounted)
      ensures CurrentDeps() == old(CurrentDeps())
    {
      EditDraft(currentFilters.value.(startDate := s));
    }

    /** The end-date input. */
    method EditEndDate(s: string)
      requires Valid()
      modifies this
      ensures Valid()
      ensures defaults == old(defaults)
      ensures currentFilters == FilterState(old(nextRef), old(currentFilters.value).(endDate := s))
      ensures nextRef == old(nextRef) + 1
      ensures productLimit == old(productLimit) && Applied() == old(Applied()) && Loaded() == old(Loaded())
      ensures activeTab == old(activeTab) && loading == old(loading)
      ensures committed == old(committed) && mounted == old(mounted)
      ensures CurrentDeps() == old(CurrentDeps())
    {
      EditDraft(currentFilters.value.(endDate := s));
    }

    /** The store multi-select: the selected options' values as numbers. */
    method EditStoreIds(ids: seq<int>)
      requires Valid()
      modifies this
      ensures Valid()
      ensures defaults == old(defaults)
      ensures currentFilters == FilterState(old(nextRef), old(currentFilters.value).(storeIds := ids))
      ensures nextRef == old(nextRef) + 1
      ensures productLimit == old(productLimit) && Applied() == old(Applied()) && Loaded() == old(Loaded())
      ensures activeTab == old(activeTab) && loading == old(loading)
      ensures committed == old(committed) && mounted == old(mounted)
      ensures CurrentDeps() == old(CurrentDeps())
    {
      EditDraft(currentFilters.value.(storeIds := ids));
    }

    /** The channel multi-select. */
    method EditChannelIds(ids: seq<int>)
      requires Valid()
      modifies this
      ensures Valid()
      ensures defaults == old(defaults)
      ensures currentFilters == FilterState(old(nextRef), old(currentFilters.value).(channelIds := ids))
      ensures nextRef == old(nextRef) + 1
      ensures productLimit == old(productLimit) && Applied() == old(Applied()) && Loaded() == old(Loaded())
      ensures activeTab == old(activeTab) && loading == old(loading)
      ensures committed == old(committed) && mounted == old(mounted)
      ensures CurrentDeps() == old(CurrentDeps())
    {
      EditDraft(currentFilters.value.(channelIds := ids));
    }

    /** applyFilters: the applied filters become the draft object itself. */
    method ApplyFilters()
      requires Valid()
      modifies this
      ensures Valid()
      ensures defaults == old(defaults)
      ensures appliedFilters == old(currentFilters) && Draft() == old(Draft())
      ensures appliedProductLimit == old(appliedProductLimit) && Loaded() == old(Loaded())
      ensures activeTab == old(activeTab) && loading == old(loading) && nextRef == old(nextRef)
      ensures committed == old(committed) && mounted == old(mounted)
      ensures CurrentDeps() != old(CurrentDeps()) <==> old(currentFilters.ref) != old(appliedFilters.ref)
    {
      appliedFilters := currentFilters;
    }

    /**
     * A re-render: the component body builds a new `defaultFilters` object
     * for `today`; no state changes.
     */
    method Render(today: int, fmt: int -> string)
      requires Valid()
      modifies this
      ensures Valid()
      ensures defaults == FilterState(old(nextRef), DefaultFilters(today, fmt)) && nextRef == old(nextRef) + 1
      ensures defaults.ref != currentFilters.ref && defaults.ref != appliedFilters.ref
      ensures Draft() == old(Draft()) && Applied() == old(Applied()) && Loaded() == old(Loaded())
      ensures activeTab == old(activeTab) && loading == old(loading)
      ensures committed == old(committed) && mounted == old(mounted)
      ensures CurrentDeps() == old(CurrentDeps())
    {
      defaults := FilterState(nextRef, DefaultFilters(today, fmt));
      nextRef := nextRef + 1;
    }

    /**
     * resetFilters: both filters become the latest render's defaults object.
     * A reload follows exactly when the applied filters are another object,
     * which holds after any re-render but not on the first render.
     */
    method ResetFilters()
      requires Valid()
      modifies this
      ensures Valid()
      ensures currentFilters == appliedFilters == defaults == old(defaults)
      ensures nextRef == old(nextRef)
      ensures productLimit == old(productLimit) && appliedProductLimit == old(appliedProductLimit)
      ensures Loaded() == old(Loaded()) && activeTab == old(activeTab) && loading == old(loading)
      ensures committed == old(committed) && mounted == old(mounted)
      ensures CurrentDeps() != old(CurrentDeps()) <==> old(appliedFilters.ref) != defaults.ref
    {
      currentFilters := defaults;
      appliedFilters := defaults;
    }

    /** The limit input: `Number(e.target.value)`. */
    method EditProductLimit(text: string)
      requires Valid()
      modifies this
      ensures Valid()
      ensures defaults == old(defaults)
      ensures productLimit == Number(text) && currentFilters == old(currentFilters)
      ensures Applied() == old(Applied()) && Loaded() == old(Loaded())
      ensures activeTab == old(activeTab) && loading == old(loading) && nextRef == old(nextRef)
      ensures committed == old(committed) && mounted == old(mounted)
      ensures CurrentDeps() == old(CurrentDeps())
    {
      productLimit := Number(text);
    }

    /** The update button: `setAppliedProductLimit(productLimit)`. */
    method UpdateProductLimit()
      requires Valid()
      modifies this
      ensures Valid()
      ensures defaults == old(defaults)
      ensures appliedProductLimit == old(productLimit) && appliedFilters == old(appliedFilters)
      ensures Draft() == old(Draft()) && Loaded() == old(Loaded())
      ensures activeTab == old(activeTab) && loading == old(loading) && nextRef == old(nextRef)
      ensures committed == old(committed) && mounted == old(mounted)
      ensures CurrentDeps() != old(CurrentDeps()) <==> old(productLimit) != old(appliedProductLimit)
    {
      appliedProductLimit := productLimit;
    }

    /**
     * The effects after a render: loadFilters on the first commit only, and
     * loadData when the dependency list differs from the last commit's.
     */
    method Commit() returns (loadFilters: bool, reload: bool)
      requires Valid()
      modifies this
      ensures Valid()
      ensures defaults == old(defaults)
      ensures loadFilters <==> !old(mounted)
      ensures reload <==> old(committed) != Some(old(CurrentDeps()))
      ensures mounted && committed == Some(CurrentDeps())
      ensures Draft() == old(Draft()) && Applied() == old(Applied()) && Loaded() == old(Loaded())
      ensures activeTab == old(activeTab) && loading == old(loading) && nextRef == old(nextRef)
    {
      loadFilters := !mounted;
      reload := committed != Some(CurrentDeps());
      mounted := true;
      committed := Some(CurrentDeps());
    }

    /** The start of loadData: `setLoading(true)` and the tab's fetches. */
    method StartLoad() returns (p: Pending)
      requires Valid()
      modifies this
      ensures Valid()
      ensures defaults == old(defaults)
      ensures loading
      ensures p == Pending(activeTab, TabRequests(activeTab, appliedFilters.value, appliedProductLimit))
      ensures activeTab == old(activeTab) && Draft() == old(Draft()) && Applied() == old(Applied())
      ensures Loaded() == old(Loaded()) && nextRef == old(nextRef)
      ensures committed == old(committed) && mounted == old(mounted)
    {
      loading := true;
      p := Pending(activeTab, TabRequests(activeTab, appliedFilters.value, appliedProductLimit));
    }

    /**
     * The end of loadData: if every fetch resolved, the started tab's slots
     * take the replies; otherwise nothing is stored. Either way loading ends.
     */
    method FinishLoad(p: Pending, replies: seq<Option<Payload>>)
      requires |replies| == |TabReports(p.tab)|
      requires Valid()
      modifies this
      ensures Valid()
      ensures defaults == old(defaults)
      ensures !loading
      ensures data == if AllResolved(replies) then Stored(old(data), p.tab, Values(replies)) else old(data)
      ensures stores == old(stores) && channels == old(channels)
      ensures activeTab == old(activeTab) && Draft() == old(Draft()) && Applied() == old(Applied()) && nextRef == old(nextRef)
      ensures committed == old(committed) && mounted == old(mounted)
    {
      if AllResolved(replies) {
        data := Stored(data, p.tab, Values(replies));
      }
      loading := false;
    }

    /** loadData as one step, with `fetch` answering each request (None: the promise rejects). */
    method LoadData(fetch: Request -> Option<Payload>) returns (issued: seq<Request>)
      requires Valid()
      modifies this
      ensures Valid()
      ensures defaults == old(defaults)
      ensures !loading
      ensures issued == TabRequests(old(activeTab), old(appliedFilters.value), old(appliedProductLimit))
      ensures data == if AllResolved(Answers(issued, fetch)) then Stored(old(data), old(activeTab), Values(Answers(issued, fetch))) else old(data)
      ensures stores == old(stores) && channels == old(channels)
      ensures activeTab == old(activeTab) && Draft() == old(Draft()) && Applied() == old(Applied()) && nextRef == old(nextRef)
      ensures committed == old(committed) && mounted == old(mounted)
    {
      var p := StartLoad();
      issued := p.requests;
      FinishLoad(p, Answers(issued, fetch));
    }

    /** loadFilters: the store and channel lists, stored only when both fetches resolve. */
    method LoadFilters(fetch: Request -> Option<Payload>)
      requires Valid()
      modifies this
      ensures Valid()
      ensures defaults == old(defaults)
      ensures fetch(FetchStores()).Some? && fetch(FetchChannels()).Some? ==>
                stores == fetch(FetchStores()) && channels == fetch(FetchChannels())
      ensures fetch(FetchStores()).None? || fetch(FetchChannels()).None? ==>
                stores == old(stores) && channels == old(channels)
      ensures data == old(data) && loading == old(loading)
      ensures activeTab == old(activeTab) && Draft() == old(Draft()) && Applied() == old(Applied()) && nextRef == old(nextRef)
      ensures committed == old(committed) && mounted == old(mounted)
    {
      var s := fetch(FetchStores());
      var c := fetch(FetchChannels());
      if s.Some? && c.Some? {
        stores := s;
        channels := c;
      }
    }
  }

  /** Promise.all resolves when every fetch does. */
  predicate AllResolved(replies: seq<Option<Payload>>) {
    forall i :: 0 <= i < |replies| ==> replies[i].Some?
  }

  function Values(replies: seq<Option<Payload>>): (vs: seq<Payload>)
    ensures |vs| == |replies|
    ensures AllResolved(replies) ==> Somes(vs) == replies
  {
    seq(|replies|, i requires 0 <= i < |replies| => if replies[i].Some? then replies[i].value else "")
  }

  function Answers(rs: seq<Request>, fetch: Request -> Option<Payload>): (replies: seq<Option<Payload>>)
    ensures |replies| == |rs|
  {
    seq(|rs|, i requires 0 <= i < |rs| => fetch(rs[i]))
  }

  /** A completed load shows its replies in its tab's slots and leaves the other tabs' slots as they were. */
  lemma StoredShowsReplies(s: Slots, tab: Tab, replies: seq<Option<Payload>>)
    requires |replies| == |TabReports(tab)| && AllResolved(replies)
    ensures TabSlots(Stored(s, tab, Values(replies)), tab) == replies
    ensures forall t :: t != tab ==> TabSlots(Stored(s, tab, Values(replies)), t) == TabSlots(s, t)
  {
  }
}
