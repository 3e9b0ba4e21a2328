/**
 * The admin routes: the dashboard figures (order count, revenue of paid orders,
 * active product count, the five newest orders, at most ten active products low on
 * stock, the order count per status), the unclamped order listing, and the order
 * status update. Orders are held in creation order, so "newest first" is the reverse.
 */
module Admin {
  import opened Common
  import opened ProductModel
  import opened OrderModel
  import opened Store

  /** The sequence read backwards. */
  function Reverse<T>(s: seq<T>): (r: seq<T>)
    ensures |r| == |s|
    ensures forall i :: 0 <= i < |s| ==> r[i] == s[|s| - 1 - i]
  {
    if s == [] then [] else [s[|s| - 1]] + Reverse(s[..|s| - 1])
  }

  // ---------------------------------------------------------------- revenue

  /** `$match: { isPaid: true }` then `$sum: '$totalAmount'`, with `|| 0` for no paid order. */
  function TotalRevenue(orders: seq<Order>): int
  {
    if orders == [] then 0
    else TotalRevenue(orders[..|orders| - 1]) + (if orders[|orders| - 1].isPaid then orders[|orders| - 1].totalAmount else 0)
  }

  /** With no paid order the revenue is 0. */
  lemma {:induction false} NoPaidOrderNoRevenue(orders: seq<Order>)
    requires forall i :: 0 <= i < |orders| ==> !orders[i].isPaid
    ensures TotalRevenue(orders) == 0
  {
    if orders != [] {
      NoPaidOrderNoRevenue(orders[..|orders| - 1]);
    }
  }

  /** Revenue adds up over a split of the orders, so an unpaid order adds nothing and a paid one its total. */
  lemma {:induction false} RevenueAppend(a: seq<Order>, b: seq<Order>)
    ensures TotalRevenue(a + b) == TotalRevenue(a) + TotalRevenue(b)
    decreases |b|
  {
    if b == [] {
      assert a + b == a;
    } else {
      assert (a + b)[..|a + b| - 1] == a + b[..|b| - 1];
      RevenueAppend(a, b[..|b| - 1]);
    }
  }

  /** Paid orders with non-negative totals give non-negative revenue, at most the sum of all totals. */
  lemma {:induction false} RevenueBounds(orders: seq<Order>)
    requires forall i :: 0 <= i < |orders| ==> orders[i].totalAmount >= 0
    ensures 0 <= TotalRevenue(orders) <= SumTotals(orders)
  {
    if orders != [] {
      RevenueBounds(orders[..|orders| - 1]);
    }
  }

  function SumTotals(orders: seq<Order>): int
  {
    if orders == [] then 0 else SumTotals(orders[..|orders| - 1]) + orders[|orders| - 1].totalAmount
  }

  // ---------------------------------------------------------------- low stock

  /** A product the low-stock query selects: active with fewer than 10 in stock. */
  predicate LowOnStock(p: Product) { p.isActive && p.stock < 10 }

  function LowStockCandidates(catalogue: seq<Product>): (r: seq<Product>)
    ensures forall p :: p in r ==> p in catalogue && LowOnStock(p)
    ensures forall p :: p in catalogue && LowOnStock(p) ==> p in r
    ensures multiset(r) <= multiset(catalogue)
  {
    if catalogue == [] then []
    else
      var init := catalogue[..|catalogue| - 1];
      var last := catalogue[|catalogue| - 1];
      assert catalogue == init + [last];
      if LowOnStock(last) then LowStockCandidates(init) + [last] else LowStockCandidates(init)
  }

  predicate SortedByStock(s: seq<Product>)
  {
    forall i, j :: 0 <= i < j < |s| ==> s[i].stock <= s[j].stock
  }

  /** Put `x` before the first product with at least its stock. */
  function InsertByStock(x: Product, s: seq<Product>): (r: seq<Product>)
    ensures |r| == |s| + 1
    ensures multiset(r) == multiset(s) + multiset{x}
  {
    if s == [] || x.stock <= s[0].stock then
      [x] + s
    else
      assert s == [s[0]] + s[1..];
      [s[0]] + InsertByStock(x, s[1..])
  }

  lemma {:induction false} InsertKeepsSorted(x: Product, s: seq<Product>)
    requires SortedByStock(s)
    ensures SortedByStock(InsertByStock(x, s))
  {
    if s != [] && x.stock > s[0].stock {
      var rest := InsertByStock(x, s[1..]);
      InsertKeepsSorted(x, s[1..]);
      forall i | 0 <= i < |rest| ensures s[0].stock <= rest[i].stock {
        assert rest[i] in multiset(s[1..]) + multiset{x};
        if rest[i] != x {
          assert rest[i] in s[1..];
        }
      }
    }
  }

  /** `.sort('stock')`: ascending stock, the same products. */
  function SortByStock(s: seq<Product>): (r: seq<Product>)
    ensures SortedByStock(r)
    ensures multiset(r) == multiset(s)
  {
    if s == [] then []
    else
      assert s == [s[0]] + s[1..];
      InsertKeepsSorted(s[0], SortByStock(s[1..]));
      InsertByStock(s[0], SortByStock(s[1..]))
  }

  /** `Product.find({ stock: { $lt: 10 }, isActive: true }).sort('stock').limit(10)`. */
  function LowStock(catalogue: seq<Product>): (r: seq<Product>)
    ensures |r| <= 10
    ensures SortedByStock(r)
    ensures forall p :: p in r ==> p in catalogue && LowOnStock(p)
    ensures |r| == if |LowStockCandidates(catalogue)| <= 10 then |LowStockCandidates(catalogue)| else 10
    ensures multiset(r) <= multiset(LowStockCandidates(catalogue))
  {
    var sorted := SortByStock(LowStockCandidates(catalogue));
    assert |sorted| == |multiset(sorted)| == |LowStockCandidates(catalogue)|;
    var r := if |sorted| <= 10 then sorted else sorted[..10];
    assert sorted == r + sorted[|r|..];
    assert multiset(r) <= multiset(sorted);
    assert forall p :: p in r ==> p in multiset(sorted);
    r
  }

  /** When at most ten products are low on stock, all of them are listed. */
  lemma LowStockComplete(catalogue: seq<Product>)
    requires |LowStockCandidates(catalogue)| <= 10
    ensures multiset(LowStock(catalogue)) == multiset(LowStockCandidates(catalogue))
  {
  }

  /** A low-stock product left off the list has at least the stock of every listed one. */
  lemma LowStockKeepsSmallest(catalogue: seq<Product>, p: Product)
    requires p in catalogue && LowOnStock(p)
    requires p !in LowStock(catalogue)
    ensures forall j :: 0 <= j < |LowStock(catalogue)| ==> LowStock(catalogue)[j].stock <= p.stock
  {
    var sorted := SortByStock(LowStockCandidates(catalogue));
    assert p in multiset(sorted);
    var k :| 0 <= k < |sorted| && sorted[k] == p;
    assert k >= 10;
  }

  // ---------------------------------------------------------------- per-status counts

  datatype StatusCount = StatusCount(status: string, count: nat)

  /** How many orders carry a status. */
  function CountStatus(orders: seq<Order>, s: string): nat
  {
    if orders == [] then 0
    else CountStatus(orders[..|orders| - 1], s) + (if orders[|orders| - 1].status == s then 1 else 0)
  }

  /** The entry of a status in a tally, or -1. */
  function StatusIndex(g: seq<StatusCount>, s: string): (k: int)
    ensures -1 <= k < |g|
    ensures k >= 0 ==> g[k].status == s
    ensures k == -1 ==> forall i :: 0 <= i < |g| ==> g[i].status != s
  {
    if g == [] then -1
    else if g[|g| - 1].status == s then |g| - 1
    else StatusIndex(g[..|g| - 1], s)
  }

  /** Count one more order of status `s`: bump its entry, or open one with count 1. */
  function Bump(g: seq<StatusCount>, s: string): seq<StatusCount>
  {
    var k := StatusIndex(g, s);
    if k == -1 then g + [StatusCount(s, 1)] else g[k := StatusCount(s, g[k].count + 1)]
  }

  /** `$group: { _id: '$status', count: { $sum: 1 } }`, groups in order of first appearance. */
  function StatusCounts(orders: seq<Order>): seq<StatusCount>
  {
    if orders == [] then [] else Bump(StatusCounts(orders[..|orders| - 1]), orders[|orders| - 1].status)
  }

  predicate DistinctStatuses(g: seq<StatusCount>)
  {
    forall i, j :: 0 <= i < j < |g| ==> g[i].status != g[j].status
  }

  function SumCounts(g: seq<StatusCount>): int
  {
    if g == [] then 0 else SumCounts(g[..|g| - 1]) + g[|g| - 1].count
  }

  lemma {:induction false} SumCountsAppend(a: seq<StatusCount>, b: seq<StatusCount>)
    ensures SumCounts(a + b) == SumCounts(a) + SumCounts(b)
    decreases |b|
  {
    if b == [] {
      assert a + b == a;
    } else {
      assert (a + b)[..|a + b| - 1] == a + b[..|b| - 1];
      SumCountsAppend(a, b[..|b| - 1]);
    }
  }

  lemma SumCountsBump(g: seq<StatusCount>, s: string)
    ensures SumCounts(Bump(g, s)) == SumCounts(g) + 1
  {
    var k := StatusIndex(g, s);
    if k == -1 {
      SumCountsAppend(g, [StatusCount(s, 1)]);
    } else {
      var x := g[k];
      var y := StatusCount(s, x.count + 1);
      assert g == g[..k] + [x] + g[k + 1..];
      assert g[k := y] == g[..k] + [y] + g[k + 1..];
      SumCountsAppend(g[..k] + [x], g[k + 1..]);
      SumCountsAppend(g[..k], [x]);
      SumCountsAppend(g[..k] + [y], g[k + 1..]);
      SumCountsAppend(g[..k], [y]);
      assert [x][..0] == [] && [y][..0] == [];
    }
  }

  /** Bumping `s` gives `s` an entry and leaves the entries of other statuses where they were. */
  lemma BumpEntries(g: seq<StatusCount>, s: string)
    ensures var b := Bump(g, s);
      && StatusIndex(b, s) >= 0
      && (forall t :: t != s ==> (StatusIndex(b, t) == -1 <==> StatusIndex(g, t) == -1))
      && (DistinctStatuses(g) ==> DistinctStatuses(b))
  {
    var b := Bump(g, s);
    var k := StatusIndex(g, s);
    if k == -1 {
      assert b[|g|].status == s;
    } else {
      assert b[k].status == s;
    }
    forall t | t != s ensures StatusIndex(b, t) == -1 <==> StatusIndex(g, t) == -1 {
      if StatusIndex(g, t) >= 0 {
        assert b[StatusIndex(g, t)].status == t;
      }
    }
  }

  /** The tally lists each status once, and each entry counts exactly its orders (at least one). */
  lemma {:induction false} StatusCountsCorrect(orders: seq<Order>)
    ensures var g := StatusCounts(orders);
      && DistinctStatuses(g)
      && (forall i :: 0 <= i < |g| ==> g[i].count == CountStatus(orders, g[i].status) >= 1)
      && (forall t :: StatusIndex(g, t) == -1 <==> CountStatus(orders, t) == 0)
  {
    if orders != [] {
      var init := orders[..|orders| - 1];
      var s := orders[|orders| - 1].status;
      StatusCountsCorrect(init);
      var g0 := StatusCounts(init);
      var g := Bump(g0, s);
      var k := StatusIndex(g0, s);
      BumpEntries(g0, s);
      forall i | 0 <= i < |g| ensures g[i].count == CountStatus(orders, g[i].status) >= 1 {
        if i == k || i == |g0| {
        } else {
          assert g[i] == g0[i];
        }
      }
    }
  }

  /** The per-status counts add up to the number of orders. */
  lemma {:induction false} StatusCountsSum(orders: seq<Order>)
    ensures SumCounts(StatusCounts(orders)) == |orders|
  {
    if orders != [] {
      StatusCountsSum(orders[..|orders| - 1]);
      SumCountsBump(StatusCounts(orders[..|orders| - 1]), orders[|orders| - 1].status);
    }
  }

  // ---------------------------------------------------------------- dashboard

  datatype Dashboard = Dashboard(
    totalOrders: nat,
    totalRevenue: int,
    totalProducts: nat,
    recentOrders: seq<Order>,
    lowStockProducts: seq<Product>,
    ordersByStatus: seq<StatusCount>)

  function CountActive(catalogue: seq<Product>): (n: nat)
    ensures n <= |catalogue|
  {
    if catalogue == [] then 0
    else CountActive(catalogue[..|catalogue| - 1]) + (if catalogue[|catalogue| - 1].isActive then 1 else 0)
  }

  /** Counting distributes over concatenation, so a catalogue's count is the sum of its parts'. */
  lemma {:induction false} CountActiveAppend(a: seq<Product>, b: seq<Product>)
    ensures CountActive(a + b) == CountActive(a) + CountActive(b)
    decreases |b|
  {
    if b == [] {
      assert a + b == a;
    } else {
      assert (a + b)[..|a + b| - 1] == a + b[..|b| - 1];
      CountActiveAppend(a, b[..|b| - 1]);
    }
  }

  /** A single product counts 1 exactly when it is active. */
  lemma CountActiveSingle(p: Product)
    ensures CountActive([p]) == if p.isActive then 1 else 0
  {
    assert [p][..0] == [];
  }

  /** `Order.find().sort('-createdAt').limit(5)`: the five newest orders, newest first. */
  function RecentOrders(orders: seq<Order>): (r: seq<Order>)
    ensures |r| == if |orders| < 5 then |orders| else 5
    ensures forall i :: 0 <= i < |r| ==> r[i] == orders[|orders| - 1 - i]
  {
    Reverse(if |orders| <= 5 then orders else orders[|orders| - 5..])
  }

  /** GET /api/admin/dashboard over the catalogue and the orders (the user count is not modelled). */
  function GetDashboard(catalogue: seq<Product>, orders: seq<Order>): (d: Dashboard)
    ensures d.totalOrders == |orders|
    ensures d.totalRevenue == TotalRevenue(orders)
    ensures d.totalProducts == CountActive(catalogue)
    ensures d.recentOrders == RecentOrders(orders)
    ensures d.lowStockProducts == LowStock(catalogue)
    ensures d.ordersByStatus == StatusCounts(orders)
  {
    Dashboard(|orders|, TotalRevenue(orders), CountActive(catalogue), RecentOrders(orders),
              LowStock(catalogue), StatusCounts(orders))
  }

  /** The dashboard's per-status counts add up to its order count. */
  lemma DashboardCountsAgree(catalogue: seq<Product>, orders: seq<Order>)
    ensures SumCounts(GetDashboard(catalogue, orders).ordersByStatus) == GetDashboard(catalogue, orders).totalOrders
  {
    StatusCountsSum(orders);
  }

  // ---------------------------------------------------------------- order listing

  /** The orders carrying a status ("" = every order), in creation order. */
  function WithStatus(orders: seq<Order>, status: string): (r: seq<Order>)
    ensures |r| <= |orders|
    ensures status == "" ==> r == orders
    ensures forall o :: o in r <==> o in orders && (status != "" ==> o.status == status)
  {
    if orders == [] then []
    else
      var init := WithStatus(orders[..|orders| - 1], status);
      var last := orders[|orders| - 1];
      assert orders == orders[..|orders| - 1] + [last];
      if status == "" || last.status == status then init + [last] else init
  }
  /** A single order is kept exactly when it carries the status, or when no status is asked for. */
  lemma WithStatusSingle(o: Order, status: string)
    ensures WithStatus([o], status) == if status == "" || o.status == status then [o] else []
  {
    assert [o][..0] == [];
  }

  /** The status filter keeps creation order and multiplicity: it distributes over concatenation. */
  lemma {:induction false} WithStatusAppend(a: seq<Order>, b: seq<Order>, status: string)
    ensures WithStatus(a + b, status) == WithStatus(a, status) + WithStatus(b, status)
    decreases |b|
  {
    if b == [] {
      assert a + b == a;
    } else {
      var b' := b[..|b| - 1];
      assert (a + b)[..|a + b| - 1] == a + b';
      assert (a + b)[|a + b| - 1] == b[|b| - 1];
      WithStatusAppend(a, b', status);
    }
  }


  datatype OrderPage = OrderPage(orders: seq<Order>, total: nat, pages: Option<int>)

  /** `Math.ceil(total / limit)`; None for a zero limit (Infinity or NaN, sent as null). */
  function CeilDiv(total: nat, limit: int): (r: Option<int>)
    ensures r.None? <==> limit == 0
    ensures limit > 0 ==> r.value >= 0 && r.value * limit >= total && (total > 0 ==> (r.value - 1) * limit < total)
  {
    if limit == 0 then None
    else if limit > 0 then
      var q := (total + limit - 1) / limit;
      assert total + limit - 1 == q * limit + (total + limit - 1) % limit;
      Some(q)
    else Some(-(total / -limit))
  }

  /** `.limit(n)`: 0 means no limit and a negative limit counts as its absolute value. */
  function LimitCount(limit: int, available: nat): (n: nat)
    ensures n <= available
    ensures limit == 0 ==> n == available
  {
    var want := if limit < 0 then -limit else limit;
    if limit == 0 || want >= available then available else want
  }

  /**
   * GET /api/admin/orders: page and limit are used as given, without clamping. A
   * negative skip is refused by the database (None: the handler answers 500).
   */
  function AdminOrders(orders: seq<Order>, status: string, page: int, limit: int): (r: Option<OrderPage>)
    ensures r.None? <==> (page - 1) * limit < 0
    ensures r.Some? ==>
      var newest := Reverse(WithStatus(orders, status));
      var skip := (page - 1) * limit;
      && r.value.total == |WithStatus(orders, status)|
      && r.value.pages == CeilDiv(r.value.total, limit)
      && (skip >= |newest| ==> r.value.orders == [])
      && (skip < |newest| ==> r.value.orders == newest[skip..skip + LimitCount(limit, |newest| - skip)])
  {
    var newest := Reverse(WithStatus(orders, status));
    var skip := (page - 1) * limit;
    if skip < 0 then None
    else
      var window := if skip >= |newest| then [] else newest[skip..skip + LimitCount(limit, |newest| - skip)];
      Some(OrderPage(window, |newest|, CeilDiv(|newest|, limit)))
  }

  /** Every listed order has the requested status. */
  lemma AdminOrdersMatchStatus(orders: seq<Order>, status: string, page: int, limit: int, o: Order)
    requires AdminOrders(orders, status, page, limit).Some?
    requires o in AdminOrders(orders, status, page, limit).value.orders
    ensures o in orders
    ensures status != "" ==> o.status == status
  {
    var newest := Reverse(WithStatus(orders, status));
    var w := AdminOrders(orders, status, page, limit).value.orders;
    var i :| 0 <= i < |w| && w[i] == o;
    var skip := (page - 1) * limit;
    assert w[i] == newest[skip + i];
    assert newest[skip + i] in WithStatus(orders, status);
  }

  /** Unlike the catalogue listing, a limit above 100 is honoured: page 1 with limit 500 lists up to 500 orders. */
  lemma AdminLimitNotClamped(orders: seq<Order>)
    requires |orders| >= 500
    ensures AdminOrders(orders, "", 1, 500).Some?
    ensures |AdminOrders(orders, "", 1, 500).value.orders| == 500
  {
  }

  // ---------------------------------------------------------------- status update

  /** The update record: status always, trackingNumber when given, delivery when delivered. */
  datatype Update = Update(status: string, trackingNumber: Option<string>, deliveredAt: Option<int>)

  function BuildUpdate(status: string, trackingNumber: string, now: int): (u: Update)
    ensures u.status == status
    ensures u.trackingNumber.Some? <==> trackingNumber != ""
    ensures u.trackingNumber.Some? ==> u.trackingNumber.value == trackingNumber
    ensures u.deliveredAt.Some? <==> status == "delivered"
    ensures u.deliveredAt.Some? ==> u.deliveredAt.value == now
  {
    Update(status,
           if trackingNumber != "" then Some(trackingNumber) else None,
           if status == "delivered" then Some(now) else None)
  }

  /** `findByIdAndUpdate` with the record: only the fields it holds are set. No enum check runs. */
  function ApplyUpdate(o: Order, u: Update): (r: Order)
  {
    o.(status := u.status,
       trackingNumber := if u.trackingNumber.Some? then u.trackingNumber else o.trackingNumber,
       isDelivered := if u.deliveredAt.Some? then true else o.isDelivered,
       deliveredAt := if u.deliveredAt.Some? then u.deliveredAt else o.deliveredAt)
  }

  /**
   * The effect of a status update on an order: the status is the new one; the tracking
   * number changes only when one is given; "delivered" marks the order delivered now,
   * any other status leaves both delivery fields; nothing else changes.
   */
  lemma StatusUpdateEffect(o: Order, status: string, trackingNumber: string, now: int)
    ensures var r := ApplyUpdate(o, BuildUpdate(status, trackingNumber, now));
      && r.status == status
      && r.trackingNumber == (if trackingNumber != "" then Some(trackingNumber) else o.trackingNumber)
      && (status == "delivered" ==> r.isDelivered && r.deliveredAt == Some(now))
      && (status != "delivered" ==> r.isDelivered == o.isDelivered && r.deliveredAt == o.deliveredAt)
      && r == o.(status := r.status, trackingNumber := r.trackingNumber, isDelivered := r.isDelivered, deliveredAt := r.deliveredAt)
  {
  }

  /** Without validators, a status outside the seven is stored as given. */
  lemma UnlistedStatusIsStored(o: Order)
    ensures ApplyUpdate(o, BuildUpdate("lost", "", 0)).status == "lost"
    ensures "lost" !in Statuses
  {
  }

  /** PUT /api/admin/orders/:id/status; an order's id is its position. */
  method UpdateOrderStatus(db: Database, id: nat, status: string, trackingNumber: string, now: int)
    returns (reply: Reply)
    requires db.Valid()
    modifies db`orders
    ensures db.Valid()
    ensures id >= |old(db.orders)| ==> reply == Failure(404, "Order not found") && db.orders == old(db.orders)
    ensures id < |old(db.orders)| ==>
      && reply == Success(200)
      && db.orders == old(db.orders)[id := ApplyUpdate(old(db.orders)[id], BuildUpdate(status, trackingNumber, now))]
  {
    if id >= |db.orders| {
      return Failure(404, "Order not found");
    }
    var update := BuildUpdate(status, trackingNumber, now);
    db.orders := db.orders[id := ApplyUpdate(db.orders[id], update)];
    reply := Success(200);
  }
}
