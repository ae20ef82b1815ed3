/**
 * The join dialog (street-share-hub-main/src/components/JoinOrderDialog.tsx):
 * the quantity field and its clamp to the product's minimum, the total, the
 * product's existing group orders, and the join / create requests.
 */
module JoinOrderDialog {
  import opened Wrappers
  import opened Types
  import Seqs

  /** The quantity the field starts with. */
  const InitialQuantity: int := 10

  /** The target every new group order is created with. */
  const NewOrderTarget: int := 100

  /**
   * The quantity after an edit: `Math.max(minOrderQty, parseInt(text) || 0)`.
   * `parsed` is what `parseInt` made of the text, None for NaN.
   */
  function Clamp(minOrderQty: int, parsed: Option<int>): (q: int)
    ensures q >= minOrderQty
    ensures q == minOrderQty || q == parsed.GetOr(0)
    ensures parsed.Some? && parsed.value >= minOrderQty ==> q == parsed.value
    ensures parsed.None? ==> q == (if minOrderQty > 0 then minOrderQty else 0)
  {
    var typed := parsed.GetOr(0);
    if minOrderQty > typed then minOrderQty else typed
  }

  /** `calculateTotal`. */
  function Total(quantity: int, pricePerKg: int): int {
    quantity * pricePerKg
  }

  /** After any edit, the total is at least the cost of the minimum order. */
  lemma TotalCoversMinimumOrder(p: Product, parsed: Option<int>)
    requires p.pricePerKg >= 0
    ensures Total(Clamp(p.minOrderQty, parsed), p.pricePerKg) >= p.minOrderQty * p.pricePerKg
  {
    var q := Clamp(p.minOrderQty, parsed);
    assert (q - p.minOrderQty) * p.pricePerKg >= 0;
  }

  /**
   * The clamp only runs on an edit: a product whose minimum is above 10, such
   * as the 25 kg minimum of the demonstration rice, opens with a quantity
   * below its minimum, one that no edit of the field could produce.
   */
  lemma InitialQuantityMayBeBelowMinimum(p: Product, parsed: Option<int>)
    requires p.minOrderQty > InitialQuantity
    ensures Clamp(p.minOrderQty, parsed) != InitialQuantity
  {
  }

  datatype JoinRequest = JoinRequest(groupOrderId: string, quantity: int)

  datatype CreateRequest = CreateRequest(productId: string, targetQty: int, quantity: int)

  /** `handleJoinOrder`'s guard: no request without a user or an order id. */
  function JoinRequestFor(user: Option<User>, groupOrderId: Option<string>, quantity: int): (r: Option<JoinRequest>)
    ensures r.Some? <==> user.Some? && groupOrderId.Some? && groupOrderId.value != ""
    ensures r.Some? ==> r.value == JoinRequest(groupOrderId.value, quantity)
  {
    if user.None? || groupOrderId.None? || groupOrderId.value == "" then None
    else Some(JoinRequest(groupOrderId.value, quantity))
  }

  /** `handleCreateNewOrder`: with a user, a new order of target 100 seeded with the current quantity. */
  function CreateRequestFor(user: Option<User>, p: Product, quantity: int): (r: Option<CreateRequest>)
    ensures r.Some? <==> user.Some?
    ensures r.Some? ==> r.value.productId == p.id && r.value.targetQty == 100 && r.value.quantity == quantity
  {
    if user.None? then None else Some(CreateRequest(p.id, NewOrderTarget, quantity))
  }

  /**
   * The dialog's state. One dialog stays mounted while the page hands it
   * different products, so `product` changes under the other fields.
   */
  class JoinDialog {
    var product: Product
    var quantity: int
    var isLoading: bool
    var existingOrders: seq<GroupOrder>

    constructor (product: Product)
      ensures this.product == product
      ensures quantity == InitialQuantity && !isLoading && existingOrders == []
    {
      this.product := product;
      quantity := InitialQuantity;
      isLoading := false;
      existingOrders := [];
    }

    /**
     * A new `product` prop. The state hooks live above the early return for a
     * missing product, so the quantity, the loading flag and the listed
     * orders all survive the change; only a later fetch replaces the list.
     */
    method ShowProduct(p: Product)
      modifies this
      ensures product == p
      ensures quantity == old(quantity) && isLoading == old(isLoading) && existingOrders == old(existingOrders)
    {
      product := p;
    }

    /** The quantity field's `onChange`. */
    method EditQuantity(parsed: Option<int>)
      modifies this
      ensures quantity == Clamp(product.minOrderQty, parsed)
      ensures product == old(product) && isLoading == old(isLoading) && existingOrders == old(existingOrders)
    {
      quantity := Clamp(product.minOrderQty, parsed);
    }

    /**
     * `fetchOrders`: the product's orders of the response, in response order;
     * on an error the previous list stays. Loading ends either way.
     */
    method FetchOrders(response: Loaded<Option<seq<GroupOrder>>>)
      modifies this
      ensures response.Loaded? ==> existingOrders == ForProduct(response.body.GetOr([]), product.id)
      ensures response.LoadFailed? ==> existingOrders == old(existingOrders)
      ensures !isLoading && product == old(product) && quantity == old(quantity)
    {
      // The loading window around the awaited request is not modelled: only
      // the state once the handler has finished is.
      if response.Loaded? {
        existingOrders := ForProduct(response.body.GetOr([]), product.id);
      }
      isLoading := false;
    }

    /**
     * `handleJoinOrder`: the request sent, if any, and whether the dialog
     * closes. `succeeded` is the outcome of the service call.
     */
    method HandleJoin(user: Option<User>, groupOrderId: Option<string>, succeeded: bool)
      returns (request: Option<JoinRequest>, closes: bool)
      modifies this
      ensures request == JoinRequestFor(user, groupOrderId, quantity)
      ensures closes <==> request.Some? && succeeded
      ensures request.Some? ==> !isLoading
      ensures request.None? ==> isLoading == old(isLoading)
      ensures product == old(product) && quantity == old(quantity) && existingOrders == old(existingOrders)
    {
      request := JoinRequestFor(user, groupOrderId, quantity);
      if request.None? {
        return request, false;
      }
      // `isLoading` is on only while the request is awaited, which is not
      // modelled; it is off once the handler has finished.
      closes := succeeded;
      isLoading := false;
    }

    /** `handleCreateNewOrder`. */
    method HandleCreate(user: Option<User>, succeeded: bool)
      returns (request: Option<CreateRequest>, closes: bool)
      modifies this
      ensures request == CreateRequestFor(user, product, quantity)
      ensures closes <==> request.Some? && succeeded
      ensures request.Some? ==> !isLoading
      ensures request.None? ==> isLoading == old(isLoading)
      ensures product == old(product) && quantity == old(quantity) && existingOrders == old(existingOrders)
    {
      request := CreateRequestFor(user, product, quantity);
      if request.None? {
        return request, false;
      }
      // `isLoading` is on only while the request is awaited, which is not
      // modelled; it is off once the handler has finished.
      closes := succeeded;
      isLoading := false;
    }
  }

  /**
   * A product change whose refetch fails: the first product's orders stay
   * listed under the second product, and a new group order for the second
   * product is requested with the quantity clamped to the first product's
   * minimum, which can lie below the second product's minimum.
   */
  method StateCarriesAcrossProducts(first: Product, second: Product, orders: seq<GroupOrder>,
                                    parsed: Option<int>, user: User, succeeded: bool)
    returns (listed: seq<GroupOrder>, request: Option<CreateRequest>)
    requires first.id != second.id
    ensures listed == ForProduct(orders, first.id)
    ensures forall o :: o in listed ==> o.productId != second.id
    ensures request == Some(CreateRequest(second.id, NewOrderTarget, Clamp(first.minOrderQty, parsed)))
    ensures parsed.Some? && first.minOrderQty <= parsed.value < second.minOrderQty ==>
              request.value.quantity < second.minOrderQty
  {
    var d := new JoinDialog(first);
    d.EditQuantity(parsed);
    d.FetchOrders(Loaded(Some(orders)));
    d.ShowProduct(second);
    d.FetchOrders(LoadFailed);
    listed := d.existingOrders;
    forall o | o in listed
      ensures o.productId != second.id
    {
      Seqs.FilterMembership(OfProduct(first.id), orders, o);
    }
    var closes;
    request, closes := d.HandleCreate(Some(user), succeeded);
  }


  /** The listed orders are exactly the fetched orders of the product, in fetched order. */
  lemma ExistingOrdersAreTheProducts(orders: seq<GroupOrder>, p: Product, o: GroupOrder)
    ensures o in ForProduct(orders, p.id) <==> o in orders && o.productId == p.id
    ensures Seqs.IsSubsequence(ForProduct(orders, p.id), orders)
  {
    Seqs.FilterMembership(OfProduct(p.id), orders, o);
    Seqs.FilterIsSubsequence(OfProduct(p.id), orders);
  }
}
