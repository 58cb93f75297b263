/**
 * The order list of the dashboard: the tenant, status and text filters, the
 * newest-first sort, the per-status counters and revenue, the detail-view
 * lookups and the status badge.
 */
module Orders {
  import opened Seqs
  import opened Text
  import opened Domain

  /** The customers the order view looks names and e-mails up in. */
  const MockCustomers: seq<Customer> := [
    Customer("cust-1", "web-1", "Budi Santoso", "budi@example.com"),
    Customer("cust-2", "web-1", "Ani Wijaya", "ani@example.com"),
    Customer("cust-3", "web-1", "Citra Dewi", "citra@example.com")
  ]

  /** The order lines the detail view reads. */
  const MockOrderItems: seq<OrderItem> := [
    OrderItem("oi-1", "order-1", "prod-1", 2, 450000),
    OrderItem("oi-2", "order-1", "prod-3", 1, 380000),
    OrderItem("oi-3", "order-2", "prod-2", 3, 150000),
    OrderItem("oi-4", "order-2", "prod-5", 1, 320000),
    OrderItem("oi-5", "order-3", "prod-1", 1, 450000)
  ]

  /** The fixture orders, with their creation times in milliseconds since the epoch. */
  const MockOrders: seq<Order> := [
    Order("order-1", "web-1", "cust-1", 1100000, Delivered, 1768746600000),
    Order("order-2", "web-1", "cust-2", 730000, Processing, 1768900500000),
    Order("order-3", "web-1", "cust-3", 450000, Shipped, 1768995900000)
  ]

  /** The status selector: every status, or one of the five. */
  datatype StatusFilter = AllStatuses | Only(status: OrderStatus)

  /** An optional website id restricts the list only when it is a non-empty string. */
  predicate IsGiven(websiteId: Option<string>)
  {
    websiteId.Some? && websiteId.value != ""
  }

  // ----- lookups -----

  function IsCustomer(id: string): Customer -> bool
  {
    (c: Customer) => c.customerId == id
  }

  function CustomerOf(customers: seq<Customer>, id: string): Option<Customer>
  {
    Find(customers, IsCustomer(id))
  }

  function IsProduct(id: string): Product -> bool
  {
    (p: Product) => p.productId == id
  }

  function ProductOf(products: seq<Product>, id: string): Option<Product>
  {
    Find(products, IsProduct(id))
  }

  /** A lookup finds the first record with the id, and nothing exactly when no record has it. */
  lemma LookupSpec(customers: seq<Customer>, products: seq<Product>, customerId: string, productId: string)
    ensures CustomerOf(customers, customerId).None? <==> forall i :: 0 <= i < |customers| ==> customers[i].customerId != customerId
    ensures CustomerOf(customers, customerId).Some? ==> CustomerOf(customers, customerId).value.customerId == customerId
    ensures forall i :: (0 <= i < |customers| && customers[i].customerId == customerId &&
      (forall j :: 0 <= j < i ==> customers[j].customerId != customerId)) ==> CustomerOf(customers, customerId) == Some(customers[i])
    ensures ProductOf(products, productId).None? <==> forall i :: 0 <= i < |products| ==> products[i].productId != productId
    ensures ProductOf(products, productId).Some? ==> ProductOf(products, productId).value.productId == productId
    ensures forall i :: (0 <= i < |products| && products[i].productId == productId &&
      (forall j :: 0 <= j < i ==> products[j].productId != productId)) ==> ProductOf(products, productId) == Some(products[i])
  {
    forall i | 0 <= i < |customers| && customers[i].customerId == customerId &&
      (forall j :: 0 <= j < i ==> customers[j].customerId != customerId)
      ensures CustomerOf(customers, customerId) == Some(customers[i])
    {
      FindFirst(customers, IsCustomer(customerId), i);
    }
    forall i | 0 <= i < |products| && products[i].productId == productId &&
      (forall j :: 0 <= j < i ==> products[j].productId != productId)
      ensures ProductOf(products, productId) == Some(products[i])
    {
      FindFirst(products, IsProduct(productId), i);
    }
    var c := CustomerOf(customers, customerId);
    if c.Some? {
      var i :| 0 <= i < |customers| && customers[i] == c.value && IsCustomer(customerId)(customers[i]) &&
        forall j :: 0 <= j < i ==> !IsCustomer(customerId)(customers[j]);
    }
    var p := ProductOf(products, productId);
    if p.Some? {
      var i :| 0 <= i < |products| && products[i] == p.value && IsProduct(productId)(products[i]) &&
        forall j :: 0 <= j < i ==> !IsProduct(productId)(products[j]);
    }
  }

  /**
   * Every fixture order finds its customer record, so on the fixtures the
   * search always reaches the customer's name and e-mail.
   */
  lemma FixtureCustomersFound()
    ensures forall i :: 0 <= i < |MockOrders| ==> CustomerOf(MockCustomers, MockOrders[i].customerId) == Some(MockCustomers[i])
  {
    forall i | 0 <= i < |MockOrders| ensures CustomerOf(MockCustomers, MockOrders[i].customerId) == Some(MockCustomers[i]) {
      FixtureCustomerAt(i);
    }
  }

  lemma FixtureCustomerAt(i: nat)
    requires i < |MockOrders|
    ensures CustomerOf(MockCustomers, MockOrders[i].customerId) == Some(MockCustomers[i])
  {
    var id := MockOrders[i].customerId;
    assert id == MockCustomers[i].customerId;
    forall j | 0 <= j < i ensures !IsCustomer(id)(MockCustomers[j]) {
      assert MockCustomers[j].customerId[5] != id[5];
    }
    FindFirst(MockCustomers, IsCustomer(id), i);
  }

  function IsItemOf(orderId: string): OrderItem -> bool
  {
    (item: OrderItem) => item.orderId == orderId
  }

  /** The lines of one order, in their original order. */
  function OrderItemsOf(items: seq<OrderItem>, orderId: string): seq<OrderItem>
  {
    Filter(items, IsItemOf(orderId))
  }

  /** Exactly the lines of the order, none dropped, in order. */
  lemma OrderItemsSpec(items: seq<OrderItem>, orderId: string)
    ensures var r := OrderItemsOf(items, orderId);
      (forall i :: 0 <= i < |r| ==> r[i].orderId == orderId) &&
      (forall i :: 0 <= i < |items| && items[i].orderId == orderId ==> items[i] in r) &&
      IsSubsequence(r, items) &&
      (forall x :: multiset(r)[x] == if x.orderId == orderId then multiset(items)[x] else 0)
  {
    FilterIsSubsequence(items, IsItemOf(orderId));
    FilterCounts(items, IsItemOf(orderId));
  }

  const LineAmount := (item: OrderItem) => item.qty * item.price

  /** The total the detail view shows: the stored amount of the order, not a sum over its lines. */
  function DetailTotal(order: Order): int
  {
    order.totalAmount
  }

  /**
   * On the fixtures the two disagree: the lines of `order-1` come to
   * 1280000 while the view shows the stored 1100000.
   */
  lemma DetailTotalIsStored()
    ensures SumOf(OrderItemsOf(MockOrderItems, "order-1"), LineAmount) == 1280000
    ensures DetailTotal(MockOrders[0]) == 1100000
  {
    var items, p := MockOrderItems, IsItemOf("order-1");
    assert Filter(items[4..], p) == [] by {
      assert items[4..][1..] == [];
    }
    assert Filter(items[3..], p) == [] by {
      assert items[3..][1..] == items[4..];
    }
    assert Filter(items[2..], p) == [] by {
      assert items[2..][1..] == items[3..];
    }
    assert Filter(items[1..], p) == [items[1]] by {
      assert items[1..][1..] == items[2..];
    }
    assert Filter(items, p) == [items[0], items[1]];
    SumOfCons(items[0], [items[1]], LineAmount);
    SumOfSingle(items[1], LineAmount);
  }

  // ----- filters -----

  /** The text search: the order id, or the name or e-mail of its customer, contains the query. */
  predicate MatchesSearch(order: Order, query: string, customers: seq<Customer>)
  {
    var q := Lower(query);
    Includes(Lower(order.orderId), q) ||
    match CustomerOf(customers, order.customerId)
    case Some(c) => Includes(Lower(c.name), q) || Includes(Lower(c.email), q)
    case None => false
  }

  predicate MatchesStatus(order: Order, filter: StatusFilter)
  {
    filter.AllStatuses? || order.status == filter.status
  }

  /** Whether an order is listed for the website, the status selector and the search text. */
  predicate Matches(order: Order, customers: seq<Customer>, websiteId: Option<string>, filter: StatusFilter, query: string)
  {
    if IsGiven(websiteId) && order.websiteId != websiteId.value then false
    else MatchesStatus(order, filter) && MatchesSearch(order, query, customers)
  }

  function MatchesFor(customers: seq<Customer>, websiteId: Option<string>, filter: StatusFilter, query: string): Order -> bool
  {
    (o: Order) => Matches(o, customers, websiteId, filter, query)
  }

  /** An order without a customer record matches the search through its own id only. */
  lemma NoCustomerSearch(order: Order, query: string, customers: seq<Customer>)
    requires forall i :: 0 <= i < |customers| ==> customers[i].customerId != order.customerId
    ensures MatchesSearch(order, query, customers) <==> Includes(Lower(order.orderId), Lower(query))
  {
    assert CustomerOf(customers, order.customerId).None?;
  }

  // ----- newest first -----

  /** Newest first: creation times never increase along the list. */
  predicate NewestFirst(s: seq<Order>)
  {
    forall i, j :: 0 <= i < j < |s| ==> s[i].createdAt >= s[j].createdAt
  }

  /** `x` placed before the first order not newer than it. */
  function InsertNewest(x: Order, s: seq<Order>): (r: seq<Order>)
    ensures |r| == |s| + 1
    ensures multiset(r) == multiset(s) + multiset{x}
  {
    if s == [] || s[0].createdAt <= x.createdAt then [x] + s
    else
      assert s == [s[0]] + s[1..];
      [s[0]] + InsertNewest(x, s[1..])
  }

  /**
   * The `sort` by descending creation time. The JavaScript sort is stable,
   * so orders created at the same time keep their relative order: each
   * order is placed before the equally old orders that followed it.
   */
  function SortNewestFirst(s: seq<Order>): (r: seq<Order>)
    ensures |r| == |s|
  {
    if s == [] then [] else InsertNewest(s[0], SortNewestFirst(s[1..]))
  }

  /** Inserting into orders none newer than `t` an order not newer than `t` gives orders none newer than `t`. */
  lemma {:induction false} InsertNoNewer(x: Order, s: seq<Order>, t: int)
    requires x.createdAt <= t
    requires forall i :: 0 <= i < |s| ==> s[i].createdAt <= t
    ensures forall i :: 0 <= i < |InsertNewest(x, s)| ==> InsertNewest(x, s)[i].createdAt <= t
    decreases |s|
  {
    if s != [] && s[0].createdAt > x.createdAt {
      InsertNoNewer(x, s[1..], t);
      assert InsertNewest(x, s) == [s[0]] + InsertNewest(x, s[1..]);
    }
  }

  lemma {:induction false} InsertKeepsNewestFirst(x: Order, s: seq<Order>)
    requires NewestFirst(s)
    ensures NewestFirst(InsertNewest(x, s))
    decreases |s|
  {
    if s != [] && s[0].createdAt > x.createdAt {
      var tail := InsertNewest(x, s[1..]);
      InsertKeepsNewestFirst(x, s[1..]);
      InsertNoNewer(x, s[1..], s[0].createdAt);
      var r := InsertNewest(x, s);
      assert r == [s[0]] + tail;
      forall i, j | 0 <= i < j < |r| ensures r[i].createdAt >= r[j].createdAt {
        if i == 0 {
          assert r[j] == tail[j - 1];
        } else {
          assert r[i] == tail[i - 1] && r[j] == tail[j - 1];
        }
      }
    }
  }

  /** The sort yields a newest-first permutation of its input. */
  lemma {:induction false} SortSpec(s: seq<Order>)
    ensures NewestFirst(SortNewestFirst(s))
    ensures multiset(SortNewestFirst(s)) == multiset(s)
    decreases |s|
  {
    if s != [] {
      SortSpec(s[1..]);
      InsertKeepsNewestFirst(s[0], SortNewestFirst(s[1..]));
      assert s == [s[0]] + s[1..];
    }
  }

  /** Sums do not depend on where the order was inserted. */
  lemma {:induction false} SumOfInsert(x: Order, s: seq<Order>, f: Order -> int)
    ensures SumOf(InsertNewest(x, s), f) == f(x) + SumOf(s, f)
    decreases |s|
  {
    if s == [] || s[0].createdAt <= x.createdAt {
      SumOfCons(x, s, f);
    } else {
      SumOfInsert(x, s[1..], f);
      SumOfCons(s[0], InsertNewest(x, s[1..]), f);
      SumOfCons(s[0], s[1..], f);
      assert s == [s[0]] + s[1..];
    }
  }

  /** Sorting does not change a sum. */
  lemma {:induction false} SumOfSort(s: seq<Order>, f: Order -> int)
    ensures SumOf(SortNewestFirst(s), f) == SumOf(s, f)
    decreases |s|
  {
    if s != [] {
      SumOfSort(s[1..], f);
      SumOfInsert(s[0], SortNewestFirst(s[1..]), f);
      SumOfCons(s[0], s[1..], f);
      assert s == [s[0]] + s[1..];
    }
  }

  /** The fixture orders are listed newest first: order-3, order-2, order-1. */
  lemma MockOrdersNewestFirst()
    ensures SortNewestFirst(MockOrders) == [MockOrders[2], MockOrders[1], MockOrders[0]]
  {
    assert MockOrders[1..][1..] == [MockOrders[2]];
    assert MockOrders[2..] == [MockOrders[2]];
  }

  // ----- the listed orders -----

  /** The orders the table lists: the matching ones, newest first. */
  function FilteredOrders(orders: seq<Order>, customers: seq<Customer>, websiteId: Option<string>, filter: StatusFilter, query: string): seq<Order>
  {
    SortNewestFirst(Filter(orders, MatchesFor(customers, websiteId, filter, query)))
  }

  /**
   * The listed orders are the matching orders, each as often as in the
   * input, newest first; with a website given they all belong to it, and
   * with a status selected they all have it.
   */
  lemma FilteredOrdersSpec(orders: seq<Order>, customers: seq<Customer>, websiteId: Option<string>, filter: StatusFilter, query: string)
    ensures var r := FilteredOrders(orders, customers, websiteId, filter, query);
      NewestFirst(r) &&
      multiset(r) == multiset(Filter(orders, MatchesFor(customers, websiteId, filter, query))) &&
      (forall x :: multiset(r)[x] == if Matches(x, customers, websiteId, filter, query) then multiset(orders)[x] else 0) &&
      (forall i :: 0 <= i < |r| ==> Matches(r[i], customers, websiteId, filter, query)) &&
      (forall i :: 0 <= i < |orders| && Matches(orders[i], customers, websiteId, filter, query) ==> orders[i] in r) &&
      (IsGiven(websiteId) ==> forall i :: 0 <= i < |r| ==> r[i].websiteId == websiteId.value) &&
      (filter.Only? ==> forall i :: 0 <= i < |r| ==> r[i].status == filter.status)
  {
    var p := MatchesFor(customers, websiteId, filter, query);
    var kept := Filter(orders, p);
    var r := FilteredOrders(orders, customers, websiteId, filter, query);
    SortSpec(kept);
    FilterCounts(orders, p);
    forall i | 0 <= i < |r| ensures Matches(r[i], customers, websiteId, filter, query) {
      assert multiset(r)[r[i]] > 0;
      assert multiset(kept)[r[i]] > 0;
      assert p(r[i]);
    }
    forall i | 0 <= i < |orders| && Matches(orders[i], customers, websiteId, filter, query) ensures orders[i] in r {
      assert p(orders[i]);
      assert multiset(orders)[orders[i]] > 0;
      assert multiset(r)[orders[i]] > 0;
    }
  }

  /** With no website, every status and an empty search, the table lists every order. */
  lemma FilteredEverything(orders: seq<Order>, customers: seq<Customer>, websiteId: Option<string>)
    requires !IsGiven(websiteId)
    ensures multiset(FilteredOrders(orders, customers, websiteId, AllStatuses, "")) == multiset(orders)
  {
    var p := MatchesFor(customers, websiteId, AllStatuses, "");
    forall i | 0 <= i < |orders| ensures p(orders[i]) {
      IncludesEmpty(Lower(orders[i].orderId));
    }
    FilterKeepsAll(orders, p);
    SortSpec(orders);
  }

  // ----- counters -----

  datatype OrderStats = OrderStats(
    total: int,
    pending: int,
    processing: int,
    shipped: int,
    delivered: int,
    cancelled: int,
    totalRevenue: int)

  function HasStatus(status: OrderStatus): Order -> bool
  {
    (o: Order) => o.status == status
  }

  function CountOf(s: seq<Order>, status: OrderStatus): nat
  {
    |Filter(s, HasStatus(status))|
  }

  const TotalAmount := (o: Order) => o.totalAmount

  /** The counters over the listed orders. */
  function Stats(listed: seq<Order>): OrderStats
  {
    OrderStats(
      |listed|,
      CountOf(listed, Pending),
      CountOf(listed, Processing),
      CountOf(listed, Shipped),
      CountOf(listed, Delivered),
      CountOf(listed, Cancelled),
      SumOf(listed, TotalAmount))
  }

  /** Every order has exactly one of the five statuses, so the five counts add up to the total. */
  lemma {:induction false} CountsAddUp(s: seq<Order>)
    ensures CountOf(s, Pending) + CountOf(s, Processing) + CountOf(s, Shipped) +
            CountOf(s, Delivered) + CountOf(s, Cancelled) == |s|
    decreases |s|
  {
    if s != [] {
      CountsAddUp(s[1..]);
    }
  }

  /**
   * The counters of the listed orders: the five counts add up to the total,
   * and the revenue is the sum of the stored amounts of the matching
   * orders, whatever their order.
   */
  lemma StatsSpec(orders: seq<Order>, customers: seq<Customer>, websiteId: Option<string>, filter: StatusFilter, query: string)
    ensures var kept := Filter(orders, MatchesFor(customers, websiteId, filter, query));
      var st := Stats(FilteredOrders(orders, customers, websiteId, filter, query));
      st.total == |kept| &&
      st.pending + st.processing + st.shipped + st.delivered + st.cancelled == st.total &&
      st.totalRevenue == SumOf(kept, TotalAmount)
  {
    var kept := Filter(orders, MatchesFor(customers, websiteId, filter, query));
    CountsAddUp(SortNewestFirst(kept));
    SumOfSort(kept, TotalAmount);
  }

  /** With a status selected, every listed order counts under that status and under no other. */
  lemma StatsOfOneStatus(orders: seq<Order>, customers: seq<Customer>, websiteId: Option<string>, status: OrderStatus, query: string)
    ensures var listed := FilteredOrders(orders, customers, websiteId, Only(status), query);
      CountOf(listed, status) == |listed|
  {
    var listed := FilteredOrders(orders, customers, websiteId, Only(status), query);
    FilteredOrdersSpec(orders, customers, websiteId, Only(status), query);
    FilterKeepsAll(listed, HasStatus(status));
  }

  // ----- status badge -----

  datatype BadgeVariant = DefaultBadge | Secondary | Outline | Destructive

  /** The wire name of a status. */
  function StatusKey(status: OrderStatus): string
  {
    match status
    case Pending => "pending"
    case Processing => "processing"
    case Shipped => "shipped"
    case Delivered => "delivered"
    case Cancelled => "cancelled"
  }

  const Variants: map<string, BadgeVariant> := map[
    "pending" := Secondary,
    "processing" := DefaultBadge,
    "shipped" := DefaultBadge,
    "delivered" := DefaultBadge,
    "cancelled" := Destructive]

  /** The badge of a status name, `outline` for a name the table does not know. */
  function BadgeVariantOf(status: string): BadgeVariant
  {
    if status in Variants then Variants[status] else Outline
  }

  /**
   * The badge table: `pending` is secondary, `processing`, `shipped` and
   * `delivered` are default, `cancelled` is destructive, none is the
   * fallback; every other name falls back to `outline`.
   */
  lemma BadgeVariantSpec(status: string)
    ensures forall st: OrderStatus :: BadgeVariantOf(StatusKey(st)) != Outline
    ensures BadgeVariantOf(StatusKey(Pending)) == Secondary
    ensures BadgeVariantOf(StatusKey(Processing)) == DefaultBadge
    ensures BadgeVariantOf(StatusKey(Shipped)) == DefaultBadge
    ensures BadgeVariantOf(StatusKey(Delivered)) == DefaultBadge
    ensures BadgeVariantOf(StatusKey(Cancelled)) == Destructive
    ensures (forall st: OrderStatus :: status != StatusKey(st)) ==> BadgeVariantOf(status) == Outline
  {
    if forall st: OrderStatus :: status != StatusKey(st) {
      assert status != StatusKey(Pending) && status != StatusKey(Processing) && status != StatusKey(Shipped);
      assert status != StatusKey(Delivered) && status != StatusKey(Cancelled);
    }
  }
}
