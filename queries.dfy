/**
 * The query layer of the backend: the sales data each report reads, the
 * optional store and channel filters, and how each statement's `$k`
 * placeholders and its positional parameter list are assembled.
 */
module Queries {
  import opened Wrappers

  /** A timestamp, in milliseconds since the epoch. */
  type Instant = int
  /** Money, in integer cents. */
  type Cents = int
  type Hour = h: int | 0 <= h < 24
  /** Day of the week as EXTRACT(DOW) numbers it: 0 is Sunday, 6 is Saturday. */
  type Weekday = d: int | 0 <= d < 7

  /** `sale_status_desc`: COMPLETED, CANCELLED or any other description. */
  datatype Status = Completed | Cancelled | Other

  /**
   * What DATE(created_at), EXTRACT(HOUR ...) and EXTRACT(DOW ...) yield for a
   * sale in the database session's time zone; the extraction itself is an input.
   */
  datatype Local = Local(day: int, hour: Hour, weekday: Weekday)

  datatype Sale = Sale(
    id: int,
    storeId: int,
    channelId: int,
    customerId: Option<int>,
    createdAt: Instant,
    local: Local,
    totalAmount: Cents,
    totalDiscount: Cents,
    status: Status)

  /** `ids?.length` is truthy: the list is present and not empty. */
  predicate HasIds(ids: Option<seq<int>>) {
    ids.Some? && |ids.value| > 0
  }

  /** The date range (both ends inclusive) and the optional store and channel lists. */
  datatype Filter = Filter(start: Instant, end: Instant, storeIds: Option<seq<int>>, channelIds: Option<seq<int>>)

  /** The WHERE clause shared by the filtered reports. */
  predicate Matches(s: Sale, f: Filter) {
    && f.start <= s.createdAt <= f.end
    && (HasIds(f.storeIds) ==> s.storeId in f.storeIds.value)
    && (HasIds(f.channelIds) ==> s.channelId in f.channelIds.value)
  }

  /** The sales the WHERE clause keeps, in their original order. */
  function Selected(sales: seq<Sale>, f: Filter): (r: seq<Sale>)
    ensures forall s :: s in r <==> s in sales && Matches(s, f)
    ensures |r| <= |sales|
  {
    if |sales| == 0 then []
    else (if Matches(sales[0], f) then [sales[0]] else []) + Selected(sales[1..], f)
  }

  lemma {:induction false} SelectedAppend(sales: seq<Sale>, s: Sale, f: Filter)
    ensures Selected(sales + [s], f) == Selected(sales, f) + (if Matches(s, f) then [s] else [])
  {
    if |sales| > 0 {
      assert (sales + [s])[1..] == sales[1..] + [s];
      SelectedAppend(sales[1..], s, f);
    }
  }

  /** An absent list and an empty list both leave the reports unrestricted by stores or channels. */
  lemma {:induction false} NoListNoRestriction(sales: seq<Sale>, start: Instant, end: Instant, stores: Option<seq<int>>, channels: Option<seq<int>>)
    requires !HasIds(stores) && !HasIds(channels)
    ensures Selected(sales, Filter(start, end, stores, channels)) == Selected(sales, Filter(start, end, None, None))
    ensures forall s :: s in Selected(sales, Filter(start, end, stores, channels)) <==> s in sales && start <= s.createdAt <= end
  {
    if |sales| > 0 {
      NoListNoRestriction(sales[1..], start, end, stores, channels);
    }
  }

  // ---------------------------------------------------------------------
  // Placeholders and parameters

  /** A positional parameter value sent with a statement. */
  datatype Param = DateParam(at: Instant) | IdsParam(ids: seq<int>) | LimitParam(n: int)

  /** Which argument a placeholder is meant to stand for. */
  datatype Slot = StartSlot | EndSlot | StoreSlot | ChannelSlot | LimitSlot

  /** `$index` written in the statement text, meant to stand for `slot`. */
  datatype Placeholder = Placeholder(slot: Slot, index: nat)

  /** The arguments of a report function. */
  datatype Args = Args(start: Instant, end: Instant, storeIds: Option<seq<int>>, channelIds: Option<seq<int>>, limit: int)

  function SlotValue(slot: Slot, a: Args): Param {
    match slot
    case StartSlot => DateParam(a.start)
    case EndSlot => DateParam(a.end)
    case StoreSlot => IdsParam(if a.storeIds.Some? then a.storeIds.value else [])
    case ChannelSlot => IdsParam(if a.channelIds.Some? then a.channelIds.value else [])
    case LimitSlot => LimitParam(a.limit)
  }

  predicate Referenced(phs: seq<Placeholder>, k: nat) {
    exists p :: p in phs && p.index == k
  }

  predicate Mentions(phs: seq<Placeholder>, slot: Slot) {
    exists p :: p in phs && p.slot == slot
  }

  /**
   * The statement and its parameter list agree: every `$k` names an existing
   * parameter holding the value it is meant to stand for, and every parameter
   * is referred to by some `$k`.
   */
  predicate Binds(phs: seq<Placeholder>, params: seq<Param>, a: Args) {
    && (forall p :: p in phs ==> 1 <= p.index <= |params| && params[p.index - 1] == SlotValue(p.slot, a))
    && (forall k :: 1 <= k <= |params| ==> Referenced(phs, k))
  }

  /** `created_at >= $1 AND created_at <= $2`. */
  function DateClause(): seq<Placeholder> {
    [Placeholder(StartSlot, 1), Placeholder(EndSlot, 2)]
  }

  /** `AND s.store_id = ANY($3::int[])`, emitted only for a non-empty store list. */
  function StoreClause(storeIds: Option<seq<int>>): seq<Placeholder> {
    if HasIds(storeIds) then [Placeholder(StoreSlot, 3)] else []
  }

  /** `AND s.channel_id = ANY($4::int[])` as written: always `$4`. */
  function ChannelClauseAsWritten(channelIds: Option<seq<int>>): seq<Placeholder> {
    if HasIds(channelIds) then [Placeholder(ChannelSlot, 4)] else []
  }

  /** The channel clause numbered after the parameters that precede it. */
  function ChannelClause(storeIds: Option<seq<int>>, channelIds: Option<seq<int>>): seq<Placeholder> {
    if HasIds(channelIds) then [Placeholder(ChannelSlot, if HasIds(storeIds) then 4 else 3)] else []
  }

  /** Placeholders of the overview, sales-by-date, -hour and -weekday statements as written. */
  function FilterPlaceholdersAsWritten(a: Args): seq<Placeholder> {
    DateClause() + StoreClause(a.storeIds) + ChannelClauseAsWritten(a.channelIds)
  }

  /** The same statements with the channel placeholder numbered correctly. */
  function FilterPlaceholders(a: Args): seq<Placeholder> {
    DateClause() + StoreClause(a.storeIds) + ChannelClause(a.storeIds, a.channelIds)
  }

  /** The number in `LIMIT $n` of the top-products statement. */
  function LimitIndex(a: Args): nat {
    if HasIds(a.storeIds) && HasIds(a.channelIds) then 5
    else if HasIds(a.storeIds) || HasIds(a.channelIds) then 4
    else 3
  }

  function TopProductsPlaceholdersAsWritten(a: Args): seq<Placeholder> {
    FilterPlaceholdersAsWritten(a) + [Placeholder(LimitSlot, LimitIndex(a))]
  }

  function TopProductsPlaceholders(a: Args): seq<Placeholder> {
    FilterPlaceholders(a) + [Placeholder(LimitSlot, LimitIndex(a))]
  }

  /** The sales-by-channel statement has a store clause only. */
  function ChannelReportPlaceholders(a: Args): seq<Placeholder> {
    DateClause() + StoreClause(a.storeIds)
  }

  /** The top-customers statement: the dates and `LIMIT $3`. */
  function TopCustomersPlaceholders(): seq<Placeholder> {
    DateClause() + [Placeholder(LimitSlot, 3)]
  }

  function IdsIf(ids: Option<seq<int>>): seq<Param> {
    if HasIds(ids) then [IdsParam(ids.value)] else []
  }

  /** The parameters of the filtered reports: both dates, then each list that is present and not empty. */
  function FilterParams(a: Args): seq<Param> {
    [DateParam(a.start), DateParam(a.end)] + IdsIf(a.storeIds) + IdsIf(a.channelIds)
  }

  /** `xs.splice(i, 0, x)`. */
  function Splice(xs: seq<Param>, i: nat, x: Param): (r: seq<Param>)
    requires i <= |xs|
    ensures |r| == |xs| + 1
  {
    xs[..i] + [x] + xs[i..]
  }

  /** `params` of getOverview, getSalesByDate, getSalesByHour and getSalesByWeekday, built by `push`. */
  method BuildFilterParams(a: Args) returns (params: seq<Param>)
    ensures params == FilterParams(a)
    ensures params[..2] == [DateParam(a.start), DateParam(a.end)]
    ensures Binds(FilterPlaceholders(a), params, a)
  {
    params := [DateParam(a.start), DateParam(a.end)];
    if HasIds(a.storeIds) {
      params := params + [IdsParam(a.storeIds.value)];
    }
    if HasIds(a.channelIds) {
      params := params + [IdsParam(a.channelIds.value)];
    }
    FilterPlaceholdersBind(a);
  }

  /** `params` of getSalesByChannel: the dates, then the store list when present. */
  method BuildChannelReportParams(a: Args) returns (params: seq<Param>)
    ensures params == [DateParam(a.start), DateParam(a.end)] + IdsIf(a.storeIds)
    ensures Binds(ChannelReportPlaceholders(a), params, a)
  {
    params := [DateParam(a.start), DateParam(a.end)];
    if HasIds(a.storeIds) {
      params := params + [IdsParam(a.storeIds.value)];
    }
    assert Referenced(ChannelReportPlaceholders(a), 1) && Referenced(ChannelReportPlaceholders(a), 2);
    if HasIds(a.storeIds) {
      assert Referenced(ChannelReportPlaceholders(a), 3);
    }
  }

  /**
   * `params` of getTopProducts: `[startDate, endDate, limit]`, the store list
   * spliced in at 2, the channel list at 3 or 2. The limit ends up last, at the
   * position `LIMIT $n` names.
   */
  method BuildTopProductsParams(a: Args) returns (params: seq<Param>)
    ensures params == FilterParams(a) + [LimitParam(a.limit)]
    ensures params[|params| - 1] == LimitParam(a.limit) && LimitIndex(a) == |params|
    ensures Binds(TopProductsPlaceholders(a), params, a)
  {
    params := [DateParam(a.start), DateParam(a.end), LimitParam(a.limit)];
    if HasIds(a.storeIds) {
      params := Splice(params, 2, IdsParam(a.storeIds.value));
    }
    if HasIds(a.channelIds) {
      params := Splice(params, if HasIds(a.storeIds) then 3 else 2, IdsParam(a.channelIds.value));
    }
    TopProductsPlaceholdersBind(a);
  }

  /** `[startDate, endDate, limit]` of getTopCustomers. */
  method BuildTopCustomersParams(a: Args) returns (params: seq<Param>)
    ensures params == [DateParam(a.start), DateParam(a.end), LimitParam(a.limit)]
    ensures Binds(TopCustomersPlaceholders(), params, a)
  {
    params := [DateParam(a.start), DateParam(a.end), LimitParam(a.limit)];
    assert Referenced(TopCustomersPlaceholders(), 1);
    assert Referenced(TopCustomersPlaceholders(), 2);
    assert Referenced(TopCustomersPlaceholders(), 3);
  }

  /** The store clause is emitted exactly when the store list is non-empty, likewise the channel clause. */
  lemma ClausesEmittedIff(a: Args)
    ensures Mentions(FilterPlaceholders(a), StoreSlot) <==> HasIds(a.storeIds)
    ensures Mentions(FilterPlaceholders(a), ChannelSlot) <==> HasIds(a.channelIds)
    ensures Mentions(FilterPlaceholdersAsWritten(a), StoreSlot) <==> HasIds(a.storeIds)
    ensures Mentions(FilterPlaceholdersAsWritten(a), ChannelSlot) <==> HasIds(a.channelIds)
  {
    var phs, w := FilterPlaceholders(a), FilterPlaceholdersAsWritten(a);
    if HasIds(a.storeIds) {
      assert phs[2].slot == StoreSlot && w[2].slot == StoreSlot;
    }
    if HasIds(a.channelIds) {
      assert phs[|phs| - 1].slot == ChannelSlot && w[|w| - 1].slot == ChannelSlot;
    }
  }

  /** The parameter list: the dates first, each non-empty list after them, and nothing else. */
  lemma FilterParamsShape(a: Args)
    ensures FilterParams(a)[..2] == [DateParam(a.start), DateParam(a.end)]
    ensures |FilterParams(a)| == 2 + (if HasIds(a.storeIds) then 1 else 0) + (if HasIds(a.channelIds) then 1 else 0)
    ensures HasIds(a.storeIds) ==> FilterParams(a)[2] == IdsParam(a.storeIds.value)
    ensures HasIds(a.channelIds) ==> FilterParams(a)[|FilterParams(a)| - 1] == IdsParam(a.channelIds.value)
    ensures forall k :: 2 <= k < |FilterParams(a)| ==> FilterParams(a)[k].IdsParam?
  {
  }

  lemma FilterPlaceholdersBind(a: Args)
    ensures Binds(FilterPlaceholders(a), FilterParams(a), a)
  {
    var phs := FilterPlaceholders(a);
    assert Referenced(phs, 1) && Referenced(phs, 2);
    if HasIds(a.storeIds) {
      assert Referenced(phs, 3);
    }
    if HasIds(a.channelIds) {
      assert phs[|phs| - 1] in phs;
    }
  }

  lemma TopProductsPlaceholdersBind(a: Args)
    ensures Binds(TopProductsPlaceholders(a), FilterParams(a) + [LimitParam(a.limit)], a)
  {
    var phs := TopProductsPlaceholders(a);
    assert Referenced(phs, 1) && Referenced(phs, 2);
    assert phs[|phs| - 1] in phs;
    if HasIds(a.storeIds) {
      assert phs[2] in phs;
    }
    if HasIds(a.channelIds) {
      assert phs[|phs| - 2] in phs;
    }
  }

  /**
   * As written, the filtered statements bind correctly exactly when a store
   * list is present or no channel list is: a channel-only filter says `$4`.
   */
  lemma FilterPlaceholdersAsWrittenBindIff(a: Args)
    ensures Binds(FilterPlaceholdersAsWritten(a), FilterParams(a), a) <==> HasIds(a.storeIds) || !HasIds(a.channelIds)
  {
    if HasIds(a.storeIds) || !HasIds(a.channelIds) {
      assert FilterPlaceholdersAsWritten(a) == FilterPlaceholders(a);
      FilterPlaceholdersBind(a);
    } else {
      var phs := FilterPlaceholdersAsWritten(a);
      assert phs[2] == Placeholder(ChannelSlot, 4) && |FilterParams(a)| == 3;
      assert phs[2] in phs;
    }
  }

  /** The same for top products: with channels only, `$4` is the limit. */
  lemma TopProductsPlaceholdersAsWrittenBindIff(a: Args)
    ensures Binds(TopProductsPlaceholdersAsWritten(a), FilterParams(a) + [LimitParam(a.limit)], a)
            <==> HasIds(a.storeIds) || !HasIds(a.channelIds)
  {
    if HasIds(a.storeIds) || !HasIds(a.channelIds) {
      assert TopProductsPlaceholdersAsWritten(a) == TopProductsPlaceholders(a);
      TopProductsPlaceholdersBind(a);
    } else {
      var phs := TopProductsPlaceholdersAsWritten(a);
      var params := FilterParams(a) + [LimitParam(a.limit)];
      assert phs[2] == Placeholder(ChannelSlot, 4) && params[3] == LimitParam(a.limit);
      assert phs[2] in phs;
    }
  }

  /** A channel-only filter, concretely: `$4` has no parameter; in top products `$4` is the limit 10 and `$3` is unused. */
  lemma ChannelOnlyCounterexample()
    ensures var a := Args(0, 1, None, Some([7]), 10);
      && FilterParams(a) == [DateParam(0), DateParam(1), IdsParam([7])]
      && Placeholder(ChannelSlot, 4) in FilterPlaceholdersAsWritten(a)
      && !Binds(FilterPlaceholdersAsWritten(a), FilterParams(a), a)
      && (FilterParams(a) + [LimitParam(10)])[4 - 1] == LimitParam(10)
      && !Referenced(TopProductsPlaceholdersAsWritten(a), 3)
  {
    var a := Args(0, 1, None, Some([7]), 10);
    FilterPlaceholdersAsWrittenBindIff(a);
    var phs := TopProductsPlaceholdersAsWritten(a);
    assert phs == [Placeholder(StartSlot, 1), Placeholder(EndSlot, 2), Placeholder(ChannelSlot, 4), Placeholder(LimitSlot, 4)];
  }
}
