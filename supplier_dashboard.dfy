/**
 * The supplier's dashboard (street-share-hub-main/src/pages/SupplierDashboard.tsx):
 * the supplier's own products and orders, the status buckets, the revenue and
 * per-product totals, and the badge and action buttons of an order card.
 */
module SupplierDashboard {
  import opened Wrappers
  import opened Seqs
  import opened Types
  import OrdersPage

  function ProductOfSupplier(userId: Option<string>): Product -> bool {
    (p: Product) => userId.Some? && p.supplierId == userId.value
  }

  function OrderOfSupplier(userId: Option<string>): GroupOrder -> bool {
    (o: GroupOrder) => userId.Some? && o.supplierId == userId.value
  }

  /** `supplierProducts`. */
  function SupplierProducts(products: seq<Product>, userId: Option<string>): seq<Product> {
    Filter(ProductOfSupplier(userId), products)
  }

  /** `supplierOrders`. */
  function SupplierOrders(orders: seq<GroupOrder>, userId: Option<string>): seq<GroupOrder> {
    Filter(OrderOfSupplier(userId), orders)
  }

  /** The dashboard shows exactly the signed-in supplier's products and orders, in order. */
  lemma SupplierItems(products: seq<Product>, orders: seq<GroupOrder>, userId: string, p: Product, o: GroupOrder)
    ensures p in SupplierProducts(products, Some(userId)) <==> p in products && p.supplierId == userId
    ensures o in SupplierOrders(orders, Some(userId)) <==> o in orders && o.supplierId == userId
    ensures IsSubsequence(SupplierProducts(products, Some(userId)), products)
    ensures IsSubsequence(SupplierOrders(orders, Some(userId)), orders)
  {
    FilterMembership(ProductOfSupplier(Some(userId)), products, p);
    FilterMembership(OrderOfSupplier(Some(userId)), orders, o);
    FilterIsSubsequence(ProductOfSupplier(Some(userId)), products);
    FilterIsSubsequence(OrderOfSupplier(Some(userId)), orders);
  }

  /** The active, processing and completed buckets of the supplier's orders never overlap. */
  lemma SupplierBucketsDisjoint(orders: seq<GroupOrder>, userId: Option<string>)
    ensures forall o :: o in WithStatus(SupplierOrders(orders, userId), StatusOpen) ==>
                          o !in WithStatus(SupplierOrders(orders, userId), StatusClosed)
                          && o !in WithStatus(SupplierOrders(orders, userId), StatusDelivered)
    ensures forall o :: o in WithStatus(SupplierOrders(orders, userId), StatusClosed) ==>
                          o !in WithStatus(SupplierOrders(orders, userId), StatusDelivered)
  {
    var mine := SupplierOrders(orders, userId);
    BucketsDisjoint(mine, StatusOpen, StatusClosed);
    BucketsDisjoint(mine, StatusOpen, StatusDelivered);
    BucketsDisjoint(mine, StatusClosed, StatusDelivered);
  }

  /**
   * The revenue reduction `sum + currentQty * pricePerKg`, starting at 0. An
   * order without a price contributes NaN, which absorbs the whole sum: the
   * result is then None.
   */
  function Revenue(orders: seq<GroupOrder>): (r: Option<int>)
    ensures r.Some? <==> forall k :: 0 <= k < |orders| ==> orders[k].pricePerKg.Some?
    ensures r.Some? && (forall k :: 0 <= k < |orders| ==> orders[k].currentQty >= 0 && orders[k].pricePerKg.value >= 0)
            ==> r.value >= 0
  {
    if orders == [] then Some(0)
    else match (orders[0].pricePerKg, Revenue(orders[1..]))
      case (Some(price), Some(rest)) => Some(orders[0].currentQty * price + rest)
      case _ => None
  }

  /** `totalRevenue`: the revenue of the supplier's delivered orders. */
  function TotalRevenue(orders: seq<GroupOrder>, userId: Option<string>): Option<int> {
    Revenue(WithStatus(SupplierOrders(orders, userId), StatusDelivered))
  }

  lemma {:induction false} RevenueConcat(a: seq<GroupOrder>, b: seq<GroupOrder>)
    ensures Revenue(a + b) == (if Revenue(a).Some? && Revenue(b).Some? then Some(Revenue(a).value + Revenue(b).value) else None)
    decreases |a|
  {
    if a == [] {
      assert a + b == b;
    } else {
      RevenueConcat(a[1..], b);
      assert (a + b)[1..] == a[1..] + b;
    }
  }

  /** With no delivered orders the revenue is 0. */
  lemma NoDeliveriesNoRevenue(orders: seq<GroupOrder>, userId: Option<string>)
    requires forall k :: 0 <= k < |orders| ==> orders[k].status != StatusDelivered
    ensures TotalRevenue(orders, userId) == Some(0)
  {
    var mine := SupplierOrders(orders, userId);
    forall k | 0 <= k < |mine| ensures mine[k].status != StatusDelivered {
      FilterMembership(OrderOfSupplier(userId), orders, mine[k]);
    }
    FilterKeepsNone(HasStatus(StatusDelivered), mine);
  }

  /** Inserting an order that is not delivered anywhere in the list leaves the revenue as it was. */
  lemma InsertUndeliveredKeepsRevenue(orders: seq<GroupOrder>, i: nat, o: GroupOrder, userId: Option<string>)
    requires i <= |orders|
    requires o.status != StatusDelivered
    ensures TotalRevenue(orders[..i] + [o] + orders[i..], userId) == TotalRevenue(orders, userId)
  {
    var s, d := OrderOfSupplier(userId), HasStatus(StatusDelivered);
    var a, b := orders[..i], orders[i..];
    assert orders == a + b;
    if s(o) {
      FilterKeepsInserted(s, a, o, b);
      FilterSkipsRejected(d, Filter(s, a), o, Filter(s, b));
      FilterConcat(s, a, b);
    } else {
      FilterSkipsRejected(s, a, o, b);
    }
  }

  /** Changing an order that is not delivered into another that is not delivered leaves the revenue as it was. */
  lemma ReplaceUndeliveredKeepsRevenue(orders: seq<GroupOrder>, i: nat, o: GroupOrder, userId: Option<string>)
    requires i < |orders|
    requires orders[i].status != StatusDelivered && o.status != StatusDelivered
    ensures TotalRevenue(orders[i := o], userId) == TotalRevenue(orders, userId)
  {
    var rest := orders[..i] + orders[i + 1..];
    assert orders[..i] + [orders[i]] + orders[i + 1..] == orders;
    assert orders[..i] + [o] + orders[i + 1..] == orders[i := o];
    assert rest[..i] == orders[..i] && rest[i..] == orders[i + 1..];
    InsertUndeliveredKeepsRevenue(rest, i, orders[i], userId);
    InsertUndeliveredKeepsRevenue(rest, i, o, userId);
  }

  /** The reduction `sum + currentQty`, starting at 0. */
  function QuantitySum(orders: seq<GroupOrder>): (r: int)
    ensures (forall k :: 0 <= k < |orders| ==> orders[k].currentQty >= 0) ==> r >= 0
  {
    if orders == [] then 0 else orders[0].currentQty + QuantitySum(orders[1..])
  }

  /** A product card's "Total Sold": the quantity of that product's delivered orders. */
  function TotalSold(supplierOrders: seq<GroupOrder>, productId: string): int {
    QuantitySum(WithStatus(ForProduct(supplierOrders, productId), StatusDelivered))
  }

  /** A product card's "Active Orders": how many of that product's orders are open. */
  function ActiveCount(supplierOrders: seq<GroupOrder>, productId: string): nat {
    |WithStatus(ForProduct(supplierOrders, productId), StatusOpen)|
  }

  lemma {:induction false} QuantitySumConcat(a: seq<GroupOrder>, b: seq<GroupOrder>)
    ensures QuantitySum(a + b) == QuantitySum(a) + QuantitySum(b)
    decreases |a|
  {
    if a == [] {
      assert a + b == b;
    } else {
      QuantitySumConcat(a[1..], b);
      assert (a + b)[1..] == a[1..] + b;
    }
  }

  /**
   * "Total Sold" counts only delivered orders of the product: appending an
   * order that is not delivered, or that is for another product, changes nothing,
   * and appending a delivered order of the product adds its quantity.
   */
  lemma TotalSoldAppend(orders: seq<GroupOrder>, o: GroupOrder, productId: string)
    ensures TotalSold(orders + [o], productId) ==
            TotalSold(orders, productId)
            + (if o.productId == productId && o.status == StatusDelivered then o.currentQty else 0)
  {
    FilterConcat(OfProduct(productId), orders, [o]);
    var mine := ForProduct(orders, productId);
    FilterConcat(HasStatus(StatusDelivered), mine, Filter(OfProduct(productId), [o]));
    QuantitySumConcat(WithStatus(mine, StatusDelivered),
                      Filter(HasStatus(StatusDelivered), Filter(OfProduct(productId), [o])));
  }

  /** A product's active count never exceeds the dashboard's active-order count. */
  lemma ActiveCountBounded(supplierOrders: seq<GroupOrder>, productId: string)
    ensures ActiveCount(supplierOrders, productId) <= |WithStatus(supplierOrders, StatusOpen)|
    ensures ActiveCount(supplierOrders, productId) == |ForProduct(WithStatus(supplierOrders, StatusOpen), productId)|
  {
    ProductBucket(supplierOrders, productId, StatusOpen);
  }

  /** The badge text of an order card. */
  function BadgeLabel(status: string): string {
    if status == StatusOpen then "Collecting Orders"
    else if status == StatusClosed then "Ready to Ship"
    else "Delivered"
  }

  /** The badge variant of an order card. */
  function BadgeVariantOf(status: string): OrdersPage.BadgeVariant {
    if status == StatusOpen then OrdersPage.Default
    else if status == StatusClosed then OrdersPage.Secondary
    else OrdersPage.Outline
  }

  predicate ShowsCloseOrder(status: string) {
    status == StatusOpen
  }

  predicate ShowsMarkShipped(status: string) {
    status == StatusClosed
  }

  /**
   * Badge and buttons agree: "Close Order" appears exactly on cards labelled
   * "Collecting Orders", "Mark as Shipped" exactly on cards labelled "Ready to
   * Ship", never both; any other status, known or not, reads "Delivered".
   */
  lemma BadgeMatchesActions(status: string)
    ensures ShowsCloseOrder(status) <==> BadgeLabel(status) == "Collecting Orders"
    ensures ShowsMarkShipped(status) <==> BadgeLabel(status) == "Ready to Ship"
    ensures !(ShowsCloseOrder(status) && ShowsMarkShipped(status))
    ensures !ShowsCloseOrder(status) && !ShowsMarkShipped(status) ==> BadgeLabel(status) == "Delivered"
  {
  }

  /**
   * The dashboard's badge variant and the Orders page's status colour agree on
   * the three known statuses and on nothing else: an unknown status is
   * "outline" here and "secondary" there.
   */
  lemma VariantAgreesWithOrdersPage(status: string)
    ensures KnownStatus(status) <==> BadgeVariantOf(status) == OrdersPage.StatusColor(status)
  {
  }
}
