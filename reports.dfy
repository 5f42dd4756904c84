/**
 * What each report statement of the backend returns, stated over sequences of
 * rows: WHERE, COUNT ... FILTER, SUM, GROUP BY, HAVING, ORDER BY and LIMIT.
 */
module Reports {
  import opened Wrappers
  import opened Queries
  import opened Ordering

  // ---------------------------------------------------------------------
  // Counts and sums

  function CountStatus(ss: seq<Sale>, st: Status): nat {
    if |ss| == 0 then 0 else (if ss[0].status == st then 1 else 0) + CountStatus(ss[1..], st)
  }

  function SumOf(ss: seq<Sale>, m: Sale -> int): int {
    if |ss| == 0 then 0 else m(ss[0]) + SumOf(ss[1..], m)
  }

  function CompletedAmount(s: Sale): Cents {
    if s.status == Completed then s.totalAmount else 0
  }

  function CompletedDiscount(s: Sale): Cents {
    if s.status == Completed then s.totalDiscount else 0
  }

  /** SUM(total_amount) FILTER (WHERE COMPLETED), with an empty sum as 0. */
  function Revenue(ss: seq<Sale>): Cents {
    SumOf(ss, CompletedAmount)
  }

  /** SQL's SUM ... FILTER: NULL when no row passes the filter. */
  function CompletedSum(ss: seq<Sale>, total: Cents): Option<Cents> {
    if CountStatus(ss, Completed) == 0 then None else Some(total)
  }

  function OrZero(x: Option<Cents>): Cents {
    if x.Some? then x.value else 0
  }

  lemma {:induction false} StatusCountsBound(ss: seq<Sale>)
    ensures CountStatus(ss, Completed) + CountStatus(ss, Cancelled) <= |ss|
  {
    if |ss| > 0 {
      StatusCountsBound(ss[1..]);
    }
  }

  lemma {:induction false} NoCompletedNoRevenue(ss: seq<Sale>)
    requires CountStatus(ss, Completed) == 0
    ensures Revenue(ss) == 0 && SumOf(ss, CompletedDiscount) == 0
  {
    if |ss| > 0 {
      NoCompletedNoRevenue(ss[1..]);
    }
  }

  lemma {:induction false} AggregatesAppend(ss: seq<Sale>, s: Sale, m: Sale -> int, st: Status)
    ensures CountStatus(ss + [s], st) == CountStatus(ss, st) + (if s.status == st then 1 else 0)
    ensures SumOf(ss + [s], m) == SumOf(ss, m) + m(s)
  {
    if |ss| > 0 {
      assert (ss + [s])[1..] == ss[1..] + [s];
      AggregatesAppend(ss[1..], s, m, st);
    } else {
      assert ss + [s] == [s];
    }
  }

  // ---------------------------------------------------------------------
  // Overview

  datatype OverviewRow = OverviewRow(
    totalSales: nat,
    completedSales: nat,
    cancelledSales: nat,
    totalRevenue: Option<Cents>,
    totalDiscounts: Option<Cents>)

  /** getOverview: counts over every matching sale; money over the completed ones only. */
  function Overview(sales: seq<Sale>, f: Filter): (r: OverviewRow)
    ensures r.completedSales + r.cancelledSales <= r.totalSales
    ensures r.totalRevenue.Some? <==> r.completedSales > 0
    ensures r.totalDiscounts.Some? <==> r.completedSales > 0
  {
    var sel := Selected(sales, f);
    StatusCountsBound(sel);
    OverviewRow(
      |sel|,
      CountStatus(sel, Completed),
      CountStatus(sel, Cancelled),
      CompletedSum(sel, Revenue(sel)),
      CompletedSum(sel, SumOf(sel, CompletedDiscount)))
  }

  /**
   * One more sale changes the overview as follows: not at all when it falls
   * outside the filter; only the counts when it is not completed; revenue and
   * discounts by its own amounts when it is completed.
   */
  lemma OverviewAppend(sales: seq<Sale>, s: Sale, f: Filter)
    ensures var before, after := Overview(sales, f), Overview(sales + [s], f);
      && (!Matches(s, f) ==> after == before)
      && (Matches(s, f) ==>
            && after.totalSales == before.totalSales + 1
            && after.completedSales == before.completedSales + (if s.status == Completed then 1 else 0)
            && after.cancelledSales == before.cancelledSales + (if s.status == Cancelled then 1 else 0))
      && (Matches(s, f) && s.status != Completed ==>
            after.totalRevenue == before.totalRevenue && after.totalDiscounts == before.totalDiscounts)
      && (Matches(s, f) && s.status == Completed ==>
            && after.totalRevenue == Some(OrZero(before.totalRevenue) + s.totalAmount)
            && after.totalDiscounts == Some(OrZero(before.totalDiscounts) + s.totalDiscount))
  {
    var sel := Selected(sales, f);
    SelectedAppend(sales, s, f);
    if Matches(s, f) {
      AggregatesAppend(sel, s, CompletedAmount, Completed);
      AggregatesAppend(sel, s, CompletedDiscount, Cancelled);
      if CountStatus(sel, Completed) == 0 {
        NoCompletedNoRevenue(sel);
      }
    } else {
      assert Selected(sales + [s], f) == sel;
    }
  }

  // ---------------------------------------------------------------------
  // Grouping by a key

  function DayKey(s: Sale): int { s.local.day }
  function HourKey(s: Sale): int { s.local.hour }
  function WeekdayKey(s: Sale): int { s.local.weekday }

  /** Some sale of ss has key k. */
  predicate Occurs(ss: seq<Sale>, key: Sale -> int, k: int) {
    exists s :: s in ss && key(s) == k
  }

  function KeysOf(ss: seq<Sale>, key: Sale -> int): (r: seq<int>)
    ensures forall k :: k in r <==> Occurs(ss, key, k)
  {
    if |ss| == 0 then []
    else
      assert forall s :: s in ss <==> s == ss[0] || s in ss[1..];
      [key(ss[0])] + KeysOf(ss[1..], key)
  }

  /** The sales of one group. */
  function Group(ss: seq<Sale>, key: Sale -> int, k: int): (g: seq<Sale>)
    ensures forall s :: s in g <==> s in ss && key(s) == k
  {
    if |ss| == 0 then []
    else (if key(ss[0]) == k then [ss[0]] else []) + Group(ss[1..], key, k)
  }

  /** A row of sales-by-date or sales-by-hour: a date or hour, completed sales and their revenue. */
  datatype TimeRow = TimeRow(key: int, totalSales: nat, revenue: Option<Cents>)

  /** Some row is the one for key k. */
  predicate Listed(rows: seq<TimeRow>, k: int) {
    exists i :: 0 <= i < |rows| && rows[i].key == k
  }

  /** One group's row: COUNT(*) and SUM(total_amount), each FILTER (WHERE COMPLETED). */
  function TimeRowOf(ss: seq<Sale>, key: Sale -> int, k: int): TimeRow {
    var g := Group(ss, key, k);
    TimeRow(k, CountStatus(g, Completed), CompletedSum(g, Revenue(g)))
  }

  function RowsFor(ss: seq<Sale>, key: Sale -> int, ks: seq<int>): (rows: seq<TimeRow>)
    ensures |rows| == |ks|
    ensures forall i :: 0 <= i < |ks| ==> rows[i] == TimeRowOf(ss, key, ks[i])
  {
    seq(|ks|, i requires 0 <= i < |ks| => TimeRowOf(ss, key, ks[i]))
  }

  /** GROUP BY key ORDER BY key: one row per key that occurs, ascending. */
  function GroupedRows(ss: seq<Sale>, key: Sale -> int): (rows: seq<TimeRow>)
    ensures forall i, j :: 0 <= i < j < |rows| ==> rows[i].key < rows[j].key
    ensures forall k :: Listed(rows, k) <==> Occurs(ss, key, k)
    ensures forall i :: 0 <= i < |rows| ==> rows[i] == TimeRowOf(ss, key, rows[i].key) && Occurs(ss, key, rows[i].key)
  {
    var ks := Keys(KeysOf(ss, key));
    var rows := RowsFor(ss, key, ks);
    forall k ensures Listed(rows, k) <==> k in ks {
      if k in ks {
        var i :| 0 <= i < |ks| && ks[i] == k;
        assert rows[i].key == k;
      }
    }
    rows
  }

  lemma {:induction false} NoCompletedCountZero(ss: seq<Sale>)
    requires forall s :: s in ss ==> s.status != Completed
    ensures CountStatus(ss, Completed) == 0
  {
    if |ss| > 0 {
      assert ss[0] in ss;
      assert forall s :: s in ss[1..] ==> s in ss;
      NoCompletedCountZero(ss[1..]);
    }
  }

  lemma {:induction false} AllCompletedCountAll(ss: seq<Sale>)
    requires forall s :: s in ss ==> s.status == Completed
    ensures CountStatus(ss, Completed) == |ss|
  {
    if |ss| > 0 {
      assert ss[0] in ss;
      assert forall s :: s in ss[1..] ==> s in ss;
      AllCompletedCountAll(ss[1..]);
    }
  }

  /** A group whose sales are all not completed is still listed, with count 0 and a NULL revenue. */
  lemma NonCompletedGroupListed(ss: seq<Sale>, key: Sale -> int, s: Sale)
    requires s in ss
    requires forall t :: t in ss && key(t) == key(s) ==> t.status != Completed
    ensures TimeRow(key(s), 0, None) in GroupedRows(ss, key)
  {
    var rows := GroupedRows(ss, key);
    assert Occurs(ss, key, key(s));
    var i :| 0 <= i < |rows| && rows[i].key == key(s);
    NoCompletedCountZero(Group(ss, key, key(s)));
  }

  // ---------------------------------------------------------------------
  // Sales by date, hour and weekday

  /** getSalesByDate: every matching sale's day is listed, ascending; counts and revenue of completed ones. */
  function SalesByDate(sales: seq<Sale>, f: Filter): (rows: seq<TimeRow>)
    ensures forall i, j :: 0 <= i < j < |rows| ==> rows[i].key < rows[j].key
    ensures forall d :: Listed(rows, d) <==> exists s :: s in Selected(sales, f) && s.local.day == d
    ensures forall i :: 0 <= i < |rows| ==> rows[i] == TimeRowOf(Selected(sales, f), DayKey, rows[i].key)
  {
    var rows := GroupedRows(Selected(sales, f), DayKey);
    assert forall d :: Occurs(Selected(sales, f), DayKey, d) <==> exists s :: s in Selected(sales, f) && s.local.day == d;
    rows
  }

  /** A day whose matching sales are all not completed appears with 0 sales and NULL revenue. */
  lemma SalesByDateKeepsNonCompletedDays(sales: seq<Sale>, f: Filter, s: Sale)
    requires s in sales && Matches(s, f)
    requires forall t :: t in sales && Matches(t, f) && t.local.day == s.local.day ==> t.status != Completed
    ensures TimeRow(s.local.day, 0, None) in SalesByDate(sales, f)
  {
    NonCompletedGroupListed(Selected(sales, f), DayKey, s);
  }

  function CompletedOnly(ss: seq<Sale>): (r: seq<Sale>)
    ensures forall s :: s in r <==> s in ss && s.status == Completed
  {
    if |ss| == 0 then []
    else (if ss[0].status == Completed then [ss[0]] else []) + CompletedOnly(ss[1..])
  }

  /** getSalesByHour: the WHERE clause keeps completed sales only, so every row counts at least one. */
  function SalesByHour(sales: seq<Sale>, f: Filter): (rows: seq<TimeRow>)
    ensures forall i, j :: 0 <= i < j < |rows| ==> rows[i].key < rows[j].key
    ensures forall h :: Listed(rows, h) <==> exists s :: s in Selected(sales, f) && s.status == Completed && s.local.hour == h
    ensures forall i :: 0 <= i < |rows| ==> 0 <= rows[i].key < 24 && rows[i].totalSales >= 1 && rows[i].revenue.Some?
    ensures forall i :: 0 <= i < |rows| ==> rows[i] == TimeRowOf(CompletedOnly(Selected(sales, f)), HourKey, rows[i].key)
  {
    var sel := CompletedOnly(Selected(sales, f));
    var rows := GroupedRows(sel, HourKey);
    assert forall h :: Occurs(sel, HourKey, h) <==> exists s :: s in Selected(sales, f) && s.status == Completed && s.local.hour == h;
    forall i | 0 <= i < |rows|
      ensures 0 <= rows[i].key < 24 && rows[i].totalSales >= 1 && rows[i].revenue.Some?
    {
      assert Listed(rows, rows[i].key);
      var s :| s in sel && HourKey(s) == rows[i].key;
      var g := Group(sel, HourKey, rows[i].key);
      assert s in g;
      AllCompletedCountAll(g);
    }
    rows
  }

  /** The CASE of the weekday report; a number outside 0..6 matches no WHEN and gives NULL. */
  function WeekdayName(d: int): (name: Option<string>)
    ensures name.Some? <==> 0 <= d < 7
  {
    if d == 0 then Some("Domingo")
    else if d == 1 then Some("Segunda")
    else if d == 2 then Some("Terça")
    else if d == 3 then Some("Quarta")
    else if d == 4 then Some("Quinta")
    else if d == 5 then Some("Sexta")
    else if d == 6 then Some("Sábado")
    else None
  }

  lemma WeekdayNamesDistinct(d: int, e: int)
    requires 0 <= d < 7 && 0 <= e < 7 && d != e
    ensures WeekdayName(d) != WeekdayName(e)
  {
  }

  datatype WeekdayRow = WeekdayRow(weekday: int, weekdayName: Option<string>, totalSales: nat, revenue: Option<Cents>)

  function Labelled(t: TimeRow): WeekdayRow {
    WeekdayRow(t.key, WeekdayName(t.key), t.totalSales, t.revenue)
  }

  predicate HasWeekday(rows: seq<WeekdayRow>, d: int) {
    exists i :: 0 <= i < |rows| && rows[i].weekday == d
  }

  lemma WeekdayKeyInRange(ss: seq<Sale>, d: int)
    requires Occurs(ss, WeekdayKey, d)
    ensures 0 <= d < 7
  {
    var s :| s in ss && WeekdayKey(s) == d;
  }

  function LabelRows(t: seq<TimeRow>): (rows: seq<WeekdayRow>)
    ensures |rows| == |t|
    ensures forall i :: 0 <= i < |t| ==> rows[i] == Labelled(t[i])
  {
    seq(|t|, i requires 0 <= i < |t| => Labelled(t[i]))
  }

  /** getSalesByWeekday: like sales-by-date, grouped by weekday 0..6 and labelled. */
  function SalesByWeekday(sales: seq<Sale>, f: Filter): (rows: seq<WeekdayRow>)
    ensures forall i, j :: 0 <= i < j < |rows| ==> rows[i].weekday < rows[j].weekday
    ensures forall d :: HasWeekday(rows, d) <==> exists s :: s in Selected(sales, f) && s.local.weekday == d
    ensures forall i :: 0 <= i < |rows| ==> 0 <= rows[i].weekday < 7 && rows[i].weekdayName.Some?
    ensures forall i :: 0 <= i < |rows| ==> rows[i] == Labelled(TimeRowOf(Selected(sales, f), WeekdayKey, rows[i].weekday))
  {
    var sel := Selected(sales, f);
    var t := GroupedRows(sel, WeekdayKey);
    var rows := LabelRows(t);
    forall d ensures HasWeekday(rows, d) <==> Listed(t, d) {
      if Listed(t, d) {
        var i :| 0 <= i < |t| && t[i].key == d;
        assert rows[i].weekday == d;
      }
    }
    assert forall d :: Occurs(sel, WeekdayKey, d) <==> exists s :: s in sel && s.local.weekday == d;
    forall i | 0 <= i < |rows| ensures 0 <= rows[i].weekday < 7 {
      WeekdayKeyInRange(sel, t[i].key);
    }
    rows
  }

  /** A weekday whose matching sales are all not completed appears with 0 sales and NULL revenue. */
  lemma SalesByWeekdayKeepsNonCompletedDays(sales: seq<Sale>, f: Filter, s: Sale)
    requires s in sales && Matches(s, f)
    requires forall t :: t in sales && Matches(t, f) && t.local.weekday == s.local.weekday ==> t.status != Completed
    ensures WeekdayRow(s.local.weekday, WeekdayName(s.local.weekday), 0, None) in SalesByWeekday(sales, f)
  {
    var sel := Selected(sales, f);
    NonCompletedGroupListed(sel, WeekdayKey, s);
    var t := GroupedRows(sel, WeekdayKey);
    var i :| 0 <= i < |t| && t[i] == TimeRow(s.local.weekday, 0, None);
    assert SalesByWeekday(sales, f)[i] == Labelled(t[i]);
  }

  // ---------------------------------------------------------------------
  // Per-group revenue adds up to the overview's revenue

  function RowsRevenue(rows: seq<TimeRow>): Cents {
    if |rows| == 0 then 0 else OrZero(rows[0].revenue) + RowsRevenue(rows[1..])
  }

  function GroupSum(ss: seq<Sale>, key: Sale -> int, ks: seq<int>): Cents {
    if |ks| == 0 then 0 else Revenue(Group(ss, key, ks[0])) + GroupSum(ss, key, ks[1..])
  }

  lemma {:induction false} RowsRevenueIsGroupSum(ss: seq<Sale>, key: Sale -> int, ks: seq<int>)
    ensures RowsRevenue(RowsFor(ss, key, ks)) == GroupSum(ss, key, ks)
  {
    if |ks| > 0 {
      assert RowsFor(ss, key, ks)[1..] == RowsFor(ss, key, ks[1..]);
      RowsRevenueIsGroupSum(ss, key, ks[1..]);
      var g := Group(ss, key, ks[0]);
      if CountStatus(g, Completed) == 0 {
        NoCompletedNoRevenue(g);
      }
    }
  }

  lemma {:induction false} GroupSumOfNone(key: Sale -> int, ks: seq<int>)
    ensures GroupSum([], key, ks) == 0
  {
    if |ks| > 0 {
      GroupSumOfNone(key, ks[1..]);
    }
  }

  lemma {:induction false} GroupSumCons(s: Sale, rest: seq<Sale>, key: Sale -> int, ks: seq<int>)
    requires Increasing(ks)
    ensures GroupSum([s] + rest, key, ks) == (if key(s) in ks then CompletedAmount(s) else 0) + GroupSum(rest, key, ks)
  {
    if |ks| > 0 {
      GroupSumCons(s, rest, key, ks[1..]);
      var ss := [s] + rest;
      assert ss[0] == s && ss[1..] == rest;
      var g := Group(rest, key, ks[0]);
      if key(s) == ks[0] {
        assert Group(ss, key, ks[0]) == [s] + g;
        assert ([s] + g)[1..] == g;
        assert key(s) !in ks[1..];
      } else {
        assert Group(ss, key, ks[0]) == g;
      }
      assert key(s) in ks <==> key(s) == ks[0] || key(s) in ks[1..];
    }
  }

  /** Groups keyed by distinct keys that cover every sale split the revenue without loss or overlap. */
  lemma {:induction false} GroupsPartitionRevenue(ss: seq<Sale>, key: Sale -> int, ks: seq<int>)
    requires Increasing(ks)
    requires forall s :: s in ss ==> key(s) in ks
    ensures GroupSum(ss, key, ks) == Revenue(ss)
  {
    if |ss| == 0 {
      GroupSumOfNone(key, ks);
    } else {
      assert ss == [ss[0]] + ss[1..];
      assert ss[0] in ss;
      GroupSumCons(ss[0], ss[1..], key, ks);
      assert forall s :: s in ss[1..] ==> s in ss;
      GroupsPartitionRevenue(ss[1..], key, ks);
    }
  }

  lemma GroupedRowsRevenue(ss: seq<Sale>, key: Sale -> int)
    ensures RowsRevenue(GroupedRows(ss, key)) == Revenue(ss)
  {
    var ks := Keys(KeysOf(ss, key));
    RowsRevenueIsGroupSum(ss, key, ks);
    forall s | s in ss ensures key(s) in ks {
      assert Occurs(ss, key, key(s));
    }
    GroupsPartitionRevenue(ss, key, ks);
  }

  lemma OverviewRevenueIsRevenue(sales: seq<Sale>, f: Filter)
    ensures OrZero(Overview(sales, f).totalRevenue) == Revenue(Selected(sales, f))
  {
    var sel := Selected(sales, f);
    if CountStatus(sel, Completed) == 0 {
      NoCompletedNoRevenue(sel);
    }
  }

  /** Summing revenue over the sales-by-date rows gives the overview's revenue (NULL read as 0). */
  lemma DateRevenueMatchesOverview(sales: seq<Sale>, f: Filter)
    ensures RowsRevenue(SalesByDate(sales, f)) == OrZero(Overview(sales, f).totalRevenue)
  {
    GroupedRowsRevenue(Selected(sales, f), DayKey);
    OverviewRevenueIsRevenue(sales, f);
  }

  lemma {:induction false} CompletedOnlyRevenue(ss: seq<Sale>)
    ensures Revenue(CompletedOnly(ss)) == Revenue(ss)
  {
    if |ss| > 0 {
      CompletedOnlyRevenue(ss[1..]);
      if ss[0].status == Completed {
        assert CompletedOnly(ss) == [ss[0]] + CompletedOnly(ss[1..]);
        assert ([ss[0]] + CompletedOnly(ss[1..]))[1..] == CompletedOnly(ss[1..]);
      } else {
        assert CompletedOnly(ss) == CompletedOnly(ss[1..]);
      }
    }
  }

  /** The same holds for the sales-by-hour rows. */
  lemma HourRevenueMatchesOverview(sales: seq<Sale>, f: Filter)
    ensures RowsRevenue(SalesByHour(sales, f)) == OrZero(Overview(sales, f).totalRevenue)
  {
    var sel := Selected(sales, f);
    GroupedRowsRevenue(CompletedOnly(sel), HourKey);
    CompletedOnlyRevenue(sel);
    OverviewRevenueIsRevenue(sales, f);
  }

  // ---------------------------------------------------------------------
  // Top products

  datatype ProductSale = ProductSale(id: int, saleId: int, productId: int, quantity: int, totalPrice: Cents)
  datatype Product = Product(id: int, name: string)

  /** A top-products row; productId is the GROUP BY key, which the statement does not select. */
  datatype ProductRow = ProductRow(productId: int, productName: string, timesSold: nat, totalQuantity: int, totalRevenue: Cents)

  /**
   * A JOIN on a primary key: the first row whose id is `id` (ids are
   * unique, so the first match is the only one).
   */
  function FindBy<T>(rows: seq<T>, idOf: T -> int, id: int): (r: Option<T>)
    ensures r.Some? ==> r.value in rows && idOf(r.value) == id
    ensures r.None? ==> forall t :: t in rows ==> idOf(t) != id
  {
    if |rows| == 0 then None else if idOf(rows[0]) == id then Some(rows[0]) else FindBy(rows[1..], idOf, id)
  }

  function SaleId(s: Sale): int { s.id }
  function ProductId(p: Product): int { p.id }

  /** The joins and the WHERE clause of the top-products statement. */
  predicate LineQualifies(l: ProductSale, sales: seq<Sale>, products: seq<Product>, f: Filter) {
    var s := FindBy(sales, SaleId, l.saleId);
    && FindBy(products, ProductId, l.productId).Some?
    && s.Some? && s.value.status == Completed && Matches(s.value, f)
  }

  function QualifyingLines(lines: seq<ProductSale>, sales: seq<Sale>, products: seq<Product>, f: Filter): (r: seq<ProductSale>)
    ensures forall l :: l in r <==> l in lines && LineQualifies(l, sales, products, f)
  {
    if |lines| == 0 then []
    else (if LineQualifies(lines[0], sales, products, f) then [lines[0]] else []) + QualifyingLines(lines[1..], sales, products, f)
  }

  function LinesOf(ls: seq<ProductSale>, pid: int): (r: seq<ProductSale>)
    ensures forall l :: l in r <==> l in ls && l.productId == pid
  {
    if |ls| == 0 then []
    else (if ls[0].productId == pid then [ls[0]] else []) + LinesOf(ls[1..], pid)
  }

  predicate Sold(ls: seq<ProductSale>, pid: int) {
    exists l :: l in ls && l.productId == pid
  }

  function ProductIds(ls: seq<ProductSale>): (r: seq<int>)
    ensures forall k :: k in r <==> Sold(ls, k)
  {
    if |ls| == 0 then []
    else
      assert forall l :: l in ls <==> l == ls[0] || l in ls[1..];
      [ls[0].productId] + ProductIds(ls[1..])
  }

  function QuantitySum(ls: seq<ProductSale>): int {
    if |ls| == 0 then 0 else ls[0].quantity + QuantitySum(ls[1..])
  }

  function PriceSum(ls: seq<ProductSale>): Cents {
    if |ls| == 0 then 0 else ls[0].totalPrice + PriceSum(ls[1..])
  }

  function ProductName(products: seq<Product>, pid: int): string {
    match FindBy(products, ProductId, pid)
    case Some(p) => p.name
    case None => ""
  }

  function ProductRowOf(ls: seq<ProductSale>, products: seq<Product>, pid: int): ProductRow {
    var g := LinesOf(ls, pid);
    ProductRow(pid, ProductName(products, pid), |g|, QuantitySum(g), PriceSum(g))
  }

  /** Some row is the one for product pid. */
  predicate HasProduct(rows: seq<ProductRow>, pid: int) {
    exists i :: 0 <= i < |rows| && rows[i].productId == pid
  }

  /**
   * GROUP BY p.id: one row for each product with at least one qualifying
   * line and for no other, holding COUNT, SUM(quantity) and SUM(total_price)
   * over that product's lines.
   */
  function ProductGroups(lines: seq<ProductSale>, sales: seq<Sale>, products: seq<Product>, f: Filter): (rows: seq<ProductRow>)
    ensures forall i, j :: 0 <= i < j < |rows| ==> rows[i].productId < rows[j].productId
    ensures forall pid :: HasProduct(rows, pid) <==> Sold(QualifyingLines(lines, sales, products, f), pid)
    ensures forall i :: 0 <= i < |rows| ==> rows[i] == ProductRowOf(QualifyingLines(lines, sales, products, f), products, rows[i].productId)
    ensures forall i :: 0 <= i < |rows| ==> rows[i].timesSold >= 1
  {
    var ls := QualifyingLines(lines, sales, products, f);
    var ks := Keys(ProductIds(ls));
    var rows := seq(|ks|, i requires 0 <= i < |ks| => ProductRowOf(ls, products, ks[i]));
    assert forall i :: 0 <= i < |rows| ==> rows[i].productId == ks[i];
    forall pid | Sold(ls, pid) ensures HasProduct(rows, pid) {
      assert pid in ks;
      var i :| 0 <= i < |ks| && ks[i] == pid;
      assert rows[i].productId == pid;
    }
    forall i | 0 <= i < |rows| ensures rows[i].timesSold >= 1 && Sold(ls, rows[i].productId) {
      assert rows[i].productId == ks[i];
      assert ks[i] in ks;
      assert Sold(ls, ks[i]);
      var l :| l in ls && l.productId == ks[i];
      assert l in LinesOf(ls, ks[i]);
    }
    rows
  }

  /** ORDER BY total_revenue DESC. */
  predicate RevenueFirst(a: ProductRow, b: ProductRow) {
    a.totalRevenue >= b.totalRevenue
  }

  lemma RevenueFirstOrders()
    ensures TotalPreorder(RevenueFirst)
  {
  }

  /**
   * getTopProducts: the product groups by revenue, highest first, cut at
   * `limit`; a negative LIMIT is a database error (None).
   */
  function TopProducts(lines: seq<ProductSale>, sales: seq<Sale>, products: seq<Product>, f: Filter, limit: int): (r: Option<seq<ProductRow>>)
    ensures r.Some? <==> limit >= 0
    ensures r.Some? ==> |r.value| <= limit
    ensures r.Some? ==> |r.value| == var n := |ProductGroups(lines, sales, products, f)|; if limit < n then limit else n
    ensures r.Some? ==> SortedBy(r.value, RevenueFirst)
    ensures r.Some? ==> multiset(r.value) <= multiset(ProductGroups(lines, sales, products, f))
    ensures r.Some? ==> forall i :: 0 <= i < |r.value| ==> r.value[i] in ProductGroups(lines, sales, products, f)
  {
    if limit < 0 then None
    else
      RevenueFirstOrders();
      Some(TopBy(ProductGroups(lines, sales, products, f), RevenueFirst, limit))
  }

  /** A product group that is not listed earned no more than any listed one. */
  lemma TopProductsRankFirst(lines: seq<ProductSale>, sales: seq<Sale>, products: seq<Product>, f: Filter, limit: int, g: ProductRow)
    requires limit >= 0
    requires g in ProductGroups(lines, sales, products, f)
    requires g !in TopProducts(lines, sales, products, f, limit).value
    ensures forall i :: 0 <= i < |TopProducts(lines, sales, products, f, limit).value| ==>
              TopProducts(lines, sales, products, f, limit).value[i].totalRevenue >= g.totalRevenue
  {
    var groups := ProductGroups(lines, sales, products, f);
    RevenueFirstOrders();
    assert multiset(TopBy(groups, RevenueFirst, limit))[g] == 0;
    TopRowsRankFirst(groups, limit, RevenueFirst, g);
  }

  // ---------------------------------------------------------------------
  // Sales by channel

  datatype Channel = Channel(id: int, name: string, channelType: string)

  /** A sales-by-channel row (channelId is the GROUP BY key; averages are not modelled). */
  datatype ChannelRow = ChannelRow(channelId: int, channelName: string, channelType: string, totalSales: nat, revenue: Option<Cents>)

  function ChannelId(c: Channel): int { c.id }

  /** JOIN channels: the sales whose channel exists. */
  function WithChannel(ss: seq<Sale>, channels: seq<Channel>): (r: seq<Sale>)
    ensures forall s :: s in r <==> s in ss && FindBy(channels, ChannelId, s.channelId).Some?
  {
    if |ss| == 0 then []
    else (if FindBy(channels, ChannelId, ss[0].channelId).Some? then [ss[0]] else []) + WithChannel(ss[1..], channels)
  }

  function ChannelKey(s: Sale): int { s.channelId }

  function ChannelRowOf(ss: seq<Sale>, channels: seq<Channel>, c: int): (row: ChannelRow)
    ensures row.revenue.None? <==> row.totalSales == 0
  {
    var g := Group(ss, ChannelKey, c);
    var ch := FindBy(channels, ChannelId, c);
    ChannelRow(c, if ch.Some? then ch.value.name else "", if ch.Some? then ch.value.channelType else "",
               CountStatus(g, Completed), CompletedSum(g, Revenue(g)))
  }

  /** The store filter only: the statement has no channel clause. */
  function ChannelFilter(start: Instant, end: Instant, storeIds: Option<seq<int>>): Filter {
    Filter(start, end, storeIds, None)
  }

  /** The sales the channel statement groups: in the range and stores, joined to a channel. */
  function ChannelSales(sales: seq<Sale>, channels: seq<Channel>, start: Instant, end: Instant, storeIds: Option<seq<int>>): seq<Sale> {
    WithChannel(Selected(sales, ChannelFilter(start, end, storeIds)), channels)
  }

  /** Some row is the one for channel c. */
  predicate HasChannel(rows: seq<ChannelRow>, c: int) {
    exists i :: 0 <= i < |rows| && rows[i].channelId == c
  }

  /**
   * GROUP BY c.id: one row for each channel with at least one joined sale
   * of any status and for no other, holding the completed count and the
   * completed revenue of that channel's sales.
   */
  function ChannelGroups(sales: seq<Sale>, channels: seq<Channel>, start: Instant, end: Instant, storeIds: Option<seq<int>>): (rows: seq<ChannelRow>)
    ensures forall i, j :: 0 <= i < j < |rows| ==> rows[i].channelId < rows[j].channelId
    ensures forall c :: HasChannel(rows, c) <==> Occurs(ChannelSales(sales, channels, start, end, storeIds), ChannelKey, c)
    ensures forall i :: 0 <= i < |rows| ==> rows[i] == ChannelRowOf(ChannelSales(sales, channels, start, end, storeIds), channels, rows[i].channelId)
    ensures forall i :: 0 <= i < |rows| ==> (rows[i].revenue.None? <==> rows[i].totalSales == 0)
  {
    var ss := ChannelSales(sales, channels, start, end, storeIds);
    var ks := Keys(KeysOf(ss, ChannelKey));
    var rows := seq(|ks|, i requires 0 <= i < |ks| => ChannelRowOf(ss, channels, ks[i]));
    assert forall i :: 0 <= i < |rows| ==> rows[i].channelId == ks[i];
    forall c | Occurs(ss, ChannelKey, c) ensures HasChannel(rows, c) {
      assert c in ks;
      var i :| 0 <= i < |ks| && ks[i] == c;
      assert rows[i].channelId == c;
    }
    rows
  }

  /** ORDER BY revenue DESC; PostgreSQL sorts NULL first in descending order. */
  predicate RevenueDescNullsFirst(a: ChannelRow, b: ChannelRow) {
    a.revenue.None? || (b.revenue.Some? && a.revenue.value >= b.revenue.value)
  }

  lemma RevenueDescNullsFirstOrders()
    ensures TotalPreorder(RevenueDescNullsFirst)
  {
  }

  /** getSalesByChannel: the channel groups ordered by revenue, channels without completed sales first. */
  function SalesByChannel(sales: seq<Sale>, channels: seq<Channel>, start: Instant, end: Instant, storeIds: Option<seq<int>>): (rows: seq<ChannelRow>)
    ensures multiset(rows) == multiset(ChannelGroups(sales, channels, start, end, storeIds))
    ensures SortedBy(rows, RevenueDescNullsFirst)
    ensures forall i, j :: 0 <= i < j < |rows| && rows[j].revenue.None? ==> rows[i].revenue.None?
    ensures forall i :: 0 <= i < |rows| ==> (rows[i].revenue.None? <==> rows[i].totalSales == 0)
  {
    var groups := ChannelGroups(sales, channels, start, end, storeIds);
    RevenueDescNullsFirstOrders();
    SortBySorted(groups, RevenueDescNullsFirst);
    var rows := SortBy(groups, RevenueDescNullsFirst);
    forall i | 0 <= i < |rows| ensures rows[i].revenue.None? <==> rows[i].totalSales == 0 {
      assert rows[i] in multiset(groups);
      var j :| 0 <= j < |groups| && groups[j] == rows[i];
    }
    rows
  }

  // ---------------------------------------------------------------------
  // Customers

  datatype Customer = Customer(id: int, name: string, email: string, phoneNumber: string)

  /** One customer's completed purchases: COUNT(s.id), SUM(total_amount) and MAX(created_at). */
  datatype CustomerStats = CustomerStats(customer: Customer, totalPurchases: nat, lifetimeValue: Cents, lastPurchase: Option<Instant>)

  function CustomerId(c: Customer): int { c.id }

  /** JOIN customers and WHERE COMPLETED. */
  predicate Purchase(s: Sale, customers: seq<Customer>) {
    s.status == Completed && s.customerId.Some? && FindBy(customers, CustomerId, s.customerId.value).Some?
  }

  function Purchases(ss: seq<Sale>, customers: seq<Customer>): (r: seq<Sale>)
    ensures forall s :: s in r <==> s in ss && Purchase(s, customers)
  {
    if |ss| == 0 then []
    else (if Purchase(ss[0], customers) then [ss[0]] else []) + Purchases(ss[1..], customers)
  }

  function CustomerKey(s: Sale): int {
    if s.customerId.Some? then s.customerId.value else 0
  }

  function AmountOf(s: Sale): Cents { s.totalAmount }

  /** MAX(created_at): NULL over no rows. */
  function Latest(ss: seq<Sale>): (r: Option<Instant>)
    ensures r.Some? <==> |ss| > 0
    ensures r.Some? ==> forall s :: s in ss ==> s.createdAt <= r.value
    ensures r.Some? ==> exists s :: s in ss && s.createdAt == r.value
  {
    if |ss| == 0 then None
    else
      var rest := Latest(ss[1..]);
      assert forall s :: s in ss <==> s == ss[0] || s in ss[1..];
      if rest.None? || ss[0].createdAt >= rest.value then Some(ss[0].createdAt) else rest
  }

  function StatsOf(ps: seq<Sale>, customers: seq<Customer>, c: int): CustomerStats {
    var g := Group(ps, CustomerKey, c);
    var who := FindBy(customers, CustomerId, c);
    CustomerStats(if who.Some? then who.value else Customer(c, "", "", ""), |g|, SumOf(g, AmountOf), Latest(g))
  }

  /** Some row is the one for customer c. */
  predicate HasCustomer(rows: seq<CustomerStats>, c: int) {
    exists i :: 0 <= i < |rows| && rows[i].customer.id == c
  }

  /**
   * GROUP BY c.id over the given purchases: one row for each buying
   * customer and for no other, holding COUNT, SUM(total_amount) and
   * MAX(created_at) over that customer's purchases.
   */
  function CustomerGroups(ps: seq<Sale>, customers: seq<Customer>): (rows: seq<CustomerStats>)
    ensures forall i, j :: 0 <= i < j < |rows| ==> rows[i].customer.id < rows[j].customer.id
    ensures forall c :: HasCustomer(rows, c) <==> Occurs(ps, CustomerKey, c)
    ensures forall i :: 0 <= i < |rows| ==> rows[i] == StatsOf(ps, customers, rows[i].customer.id)
    ensures forall i :: 0 <= i < |rows| ==> rows[i].totalPurchases >= 1 && rows[i].lastPurchase.Some?
  {
    var ks := Keys(KeysOf(ps, CustomerKey));
    var rows := seq(|ks|, i requires 0 <= i < |ks| => StatsOf(ps, customers, ks[i]));
    forall c | Occurs(ps, CustomerKey, c) ensures HasCustomer(rows, c) {
      assert c in ks;
      var i :| 0 <= i < |ks| && ks[i] == c;
      assert rows[i].customer.id == c;
    }
    forall i | 0 <= i < |rows|
      ensures rows[i].totalPurchases >= 1 && rows[i].lastPurchase.Some? && rows[i].customer.id == ks[i]
    {
      assert Occurs(ps, CustomerKey, ks[i]);
      var s :| s in ps && CustomerKey(s) == ks[i];
      assert s in Group(ps, CustomerKey, ks[i]);
    }
    rows
  }

  /** ORDER BY lifetime_value DESC. */
  predicate ValueFirst(a: CustomerStats, b: CustomerStats) {
    a.lifetimeValue >= b.lifetimeValue
  }

  lemma ValueFirstOrders()
    ensures TotalPreorder(ValueFirst)
  {
  }

  /** The customers who bought within the range, before ordering. */
  function RangeCustomers(sales: seq<Sale>, customers: seq<Customer>, start: Instant, end: Instant): seq<CustomerStats> {
    CustomerGroups(Purchases(Selected(sales, Filter(start, end, None, None)), customers), customers)
  }

  /**
   * getTopCustomers: completed purchases within the range (no store or
   * channel filter), by lifetime value, highest first, cut at `limit`.
   */
  function TopCustomers(sales: seq<Sale>, customers: seq<Customer>, start: Instant, end: Instant, limit: int): (r: Option<seq<CustomerStats>>)
    ensures r.Some? <==> limit >= 0
    ensures r.Some? ==> |r.value| == var n := |RangeCustomers(sales, customers, start, end)|; if limit < n then limit else n
    ensures r.Some? ==> SortedBy(r.value, ValueFirst)
    ensures r.Some? ==> multiset(r.value) <= multiset(RangeCustomers(sales, customers, start, end))
    ensures r.Some? ==> forall i :: 0 <= i < |r.value| ==> r.value[i] in RangeCustomers(sales, customers, start, end)
  {
    if limit < 0 then None
    else
      ValueFirstOrders();
      Some(TopBy(RangeCustomers(sales, customers, start, end), ValueFirst, limit))
  }

  /** Cutting customer rows by value: one left out spent no more than any kept. */
  lemma ValueRankFirst(groups: seq<CustomerStats>, limit: nat, c: CustomerStats)
    requires TotalPreorder(ValueFirst)
    requires c in groups
    requires c !in TopBy(groups, ValueFirst, limit)
    ensures forall i :: 0 <= i < |TopBy(groups, ValueFirst, limit)| ==> TopBy(groups, ValueFirst, limit)[i].lifetimeValue >= c.lifetimeValue
  {
    assert multiset(TopBy(groups, ValueFirst, limit))[c] == 0;
    TopRowsRankFirst(groups, limit, ValueFirst, c);
  }

  /** The top customers are the most valuable: one left out spent no more than any listed. */
  lemma TopCustomersRankFirst(sales: seq<Sale>, customers: seq<Customer>, start: Instant, end: Instant, limit: int, c: CustomerStats)
    requires limit >= 0
    requires c in RangeCustomers(sales, customers, start, end)
    requires c !in TopCustomers(sales, customers, start, end, limit).value
    ensures forall i :: 0 <= i < |TopCustomers(sales, customers, start, end, limit).value| ==>
              TopCustomers(sales, customers, start, end, limit).value[i].lifetimeValue >= c.lifetimeValue
  {
    ValueFirstOrders();
    ValueRankFirst(RangeCustomers(sales, customers, start, end), limit, c);
  }

  /** One day in milliseconds (INTERVAL '1 day', without daylight-saving shifts). */
  const DayMs: int := 24 * 60 * 60 * 1000

  /** Integer division rounding toward zero, as the day field of an interval counts whole days. */
  function TruncDiv(x: int, d: int): int
    requires d > 0
  {
    if x >= 0 then x / d else -((-x) / d)
  }

  lemma MulCancel(a: int, b: int, d: int)
    requires d > 0 && a * d < b * d
    ensures a < b
  {
    assert (b - a) * d == b * d - a * d;
  }

  /** More than k whole days is at least k days once truncated. */
  lemma TruncDivAtLeast(x: int, k: int, d: int)
    requires d > 0 && x > k * d
    ensures TruncDiv(x, d) >= k
  {
    if x >= 0 {
      var q, r := x / d, x % d;
      assert x == q * d + r && 0 <= r < d;
      assert (q + 1) * d == q * d + d;
      MulCancel(k, q + 1, d);
    } else {
      var y := -x;
      var p, r := y / d, y % d;
      assert y == p * d + r && 0 <= r < d;
      assert (-k) * d == -(k * d);
      MulCancel(p, -k, d);
    }
  }

  /** HAVING MAX(created_at) < NOW() - INTERVAL '1 day' * days AND COUNT(s.id) >= 3. */
  predicate Inactive(c: CustomerStats, days: int, now: Instant) {
    c.lastPurchase.Some? && c.lastPurchase.value < now - days * DayMs && c.totalPurchases >= 3
  }

  function Lapsed(cs: seq<CustomerStats>, days: int, now: Instant): (r: seq<CustomerStats>)
    ensures forall c :: c in r <==> c in cs && Inactive(c, days, now)
    ensures forall i :: 0 <= i < |r| ==> Inactive(r[i], days, now)
  {
    if |cs| == 0 then []
    else (if Inactive(cs[0], days, now) then [cs[0]] else []) + Lapsed(cs[1..], days, now)
  }

  /** An inactive-customers row: the stats and EXTRACT(DAY FROM NOW() - MAX(created_at)). */
  datatype InactiveRow = InactiveRow(stats: CustomerStats, daysSincePurchase: Option<int>)

  const InactiveLimit: nat := 50

  /** Every customer with a completed purchase, whatever its date. */
  function AllCustomers(sales: seq<Sale>, customers: seq<Customer>): seq<CustomerStats> {
    CustomerGroups(Purchases(sales, customers), customers)
  }

  function Lapse(c: CustomerStats, now: Instant): InactiveRow {
    InactiveRow(c, if c.lastPurchase.Some? then Some(TruncDiv(now - c.lastPurchase.value, DayMs)) else None)
  }

  /** The days-since-purchase of an inactive customer is at least `days`. */
  lemma LapseAtLeast(c: CustomerStats, days: int, now: Instant)
    requires Inactive(c, days, now)
    ensures Lapse(c, now).daysSincePurchase.Some? && Lapse(c, now).daysSincePurchase.value >= days
  {
    TruncDivAtLeast(now - c.lastPurchase.value, days, DayMs);
  }

  /** The customers the statement lists, before the days column is added. */
  function InactiveStats(sales: seq<Sale>, customers: seq<Customer>, days: int, now: Instant): (r: seq<CustomerStats>)
    ensures |r| == var n := |Lapsed(AllCustomers(sales, customers), days, now)|; if InactiveLimit < n then InactiveLimit else n
    ensures forall i :: 0 <= i < |r| ==> Inactive(r[i], days, now)
    ensures SortedBy(r, ValueFirst)
    ensures multiset(r) <= multiset(Lapsed(AllCustomers(sales, customers), days, now))
  {
    ValueFirstOrders();
    TopBy(Lapsed(AllCustomers(sales, customers), days, now), ValueFirst, InactiveLimit)
  }

  /** An inactive customer who is not listed is worth no more than any listed one. */
  lemma InactiveRankFirst(sales: seq<Sale>, customers: seq<Customer>, days: int, now: Instant, c: CustomerStats)
    requires c in Lapsed(AllCustomers(sales, customers), days, now)
    requires c !in InactiveStats(sales, customers, days, now)
    ensures forall i :: 0 <= i < |InactiveStats(sales, customers, days, now)| ==>
              InactiveStats(sales, customers, days, now)[i].lifetimeValue >= c.lifetimeValue
  {
    ValueFirstOrders();
    ValueRankFirst(Lapsed(AllCustomers(sales, customers), days, now), InactiveLimit, c);
  }

  function Lapses(top: seq<CustomerStats>, days: int, now: Instant): (rows: seq<InactiveRow>)
    requires forall c :: c in top ==> Inactive(c, days, now)
    ensures |rows| == |top|
    ensures forall i :: 0 <= i < |rows| ==> rows[i].stats == top[i]
    ensures forall i :: 0 <= i < |rows| ==> rows[i] == Lapse(top[i], now)
    ensures forall i :: 0 <= i < |rows| ==>
              top[i].lastPurchase.Some? && rows[i].daysSincePurchase == Some(TruncDiv(now - top[i].lastPurchase.value, DayMs))
    ensures forall i :: 0 <= i < |rows| ==> rows[i].daysSincePurchase.Some? && rows[i].daysSincePurchase.value >= days
  {
    if |top| == 0 then []
    else
      LapseAtLeast(top[0], days, now);
      assert forall c :: c in top[1..] ==> c in top;
      [Lapse(top[0], now)] + Lapses(top[1..], days, now)
  }

  /**
   * getInactiveCustomers: customers with at least three completed purchases
   * none of which is newer than `days` days, most valuable first, at most 50,
   * each with the whole days since the last purchase.
   */
  function InactiveCustomers(sales: seq<Sale>, customers: seq<Customer>, days: int, now: Instant): (rows: seq<InactiveRow>)
    ensures |rows| == |InactiveStats(sales, customers, days, now)| <= InactiveLimit
    ensures forall i :: 0 <= i < |rows| ==> rows[i].stats == InactiveStats(sales, customers, days, now)[i]
    ensures forall i :: 0 <= i < |rows| ==> rows[i] == Lapse(rows[i].stats, now)
    ensures forall i :: 0 <= i < |rows| ==> rows[i].daysSincePurchase.Some? && rows[i].daysSincePurchase.value >= days
  {
    var top := InactiveStats(sales, customers, days, now);
    forall c | c in top ensures Inactive(c, days, now) {
      var i :| 0 <= i < |top| && top[i] == c;
    }
    Lapses(top, days, now)
  }

  // ---------------------------------------------------------------------
  // Stores and channels

  datatype Store = Store(id: int, name: string, city: string, state: string, isActive: bool)

  function ActiveStores(stores: seq<Store>): (r: seq<Store>)
    ensures forall s :: s in r <==> s in stores && s.isActive
  {
    if |stores| == 0 then []
    else (if stores[0].isActive then [stores[0]] else []) + ActiveStores(stores[1..])
  }

  predicate StoreNameLe(a: Store, b: Store) { LexLe(a.name, b.name) }

  predicate ChannelNameLe(a: Channel, b: Channel) { LexLe(a.name, b.name) }

  lemma StoreNameLeOrders()
    ensures TotalPreorder(StoreNameLe)
  {
    forall a: Store, b: Store ensures StoreNameLe(a, b) || StoreNameLe(b, a) {
      LexLeTotal(a.name, b.name);
    }
    forall a: Store, b: Store, c: Store | StoreNameLe(a, b) && StoreNameLe(b, c) ensures StoreNameLe(a, c) {
      LexLeTransitive(a.name, b.name, c.name);
    }
  }

  lemma ChannelNameLeOrders()
    ensures TotalPreorder(ChannelNameLe)
  {
    forall a: Channel, b: Channel ensures ChannelNameLe(a, b) || ChannelNameLe(b, a) {
      LexLeTotal(a.name, b.name);
    }
    forall a: Channel, b: Channel, c: Channel | ChannelNameLe(a, b) && ChannelNameLe(b, c) ensures ChannelNameLe(a, c) {
      LexLeTransitive(a.name, b.name, c.name);
    }
  }

  /** getStores: the active stores, ordered by name. */
  function Stores(stores: seq<Store>): (r: seq<Store>)
    ensures multiset(r) == multiset(ActiveStores(stores))
    ensures forall s :: s in r <==> s in stores && s.isActive
    ensures SortedBy(r, StoreNameLe)
  {
    var active := ActiveStores(stores);
    StoreNameLeOrders();
    SortBySorted(active, StoreNameLe);
    var r := SortBy(active, StoreNameLe);
    assert forall s :: s in r <==> s in multiset(r);
    assert forall s :: s in active <==> s in multiset(active);
    r
  }

  /** getChannels: every channel, ordered by name. */
  function Channels(channels: seq<Channel>): (r: seq<Channel>)
    ensures multiset(r) == multiset(channels)
    ensures SortedBy(r, ChannelNameLe)
  {
    ChannelNameLeOrders();
    SortBySorted(channels, ChannelNameLe);
    SortBy(channels, ChannelNameLe)
  }
}
