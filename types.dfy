/**
 * The client's data model (street-share-hub-main/src/types/index.ts) and the
 * status vocabulary the pages share.
 */
module Types {
  import opened Wrappers
  import opened Seqs

  datatype Role = Vendor | Supplier

  /** A signed-in user as the client sees it: never carries a password. */
  datatype User = User(
    id: string,
    name: string,
    email: string,
    role: Role,
    location: string,
    phone: Option<string>)

  /** A catalog item as the client receives it; prices are whole rupees. */
  datatype Product = Product(
    id: string,
    name: string,
    pricePerKg: int,
    supplierId: string,
    supplierName: string,
    category: string,
    unit: string,
    minOrderQty: int,
    description: Option<string>,
    imageUrl: Option<string>)

  /**
   * One entry of a group order's `participants`: the server sends either a
   * bare user id or an object `{user, quantity}`.
   */
  datatype Participant = Bare(id: string) | Obj(user: string, quantity: int)

  datatype ParticipantDetail = ParticipantDetail(vendorId: string, vendorName: string, quantity: int)

  /**
   * A group order. `mongoId` and `id` are the `_id` and `id` keys, either of
   * which may be absent; `pricePerKg` may be absent on data from the server.
   * An absent `participants` list behaves exactly like an empty one in every
   * use (`?.some`, `?.find`), so it is modelled as one.
   */
  datatype GroupOrder = GroupOrder(
    mongoId: Option<string>,
    id: Option<string>,
    productId: string,
    productName: string,
    supplierId: string,
    supplierName: string,
    participants: seq<Participant>,
    currentQty: int,
    targetQty: int,
    pricePerKg: Option<int>,
    status: string,
    createdAt: string,
    deliveryDate: Option<string>,
    participantsDetails: Option<seq<ParticipantDetail>>)

  /** The outcome of a request to the API: the body it returned, or a failure. */
  datatype Loaded<T> = Loaded(body: T) | LoadFailed

  const StatusOpen: string := "open"
  const StatusClosed: string := "closed"
  const StatusDelivered: string := "delivered"

  predicate KnownStatus(status: string) {
    status == StatusOpen || status == StatusClosed || status == StatusDelivered
  }

  function HasStatus(status: string): GroupOrder -> bool {
    (o: GroupOrder) => o.status == status
  }

  /** `orders.filter(order => order.status === status)`. */
  function WithStatus(orders: seq<GroupOrder>, status: string): seq<GroupOrder> {
    Filter(HasStatus(status), orders)
  }

  function OfProduct(productId: string): GroupOrder -> bool {
    (o: GroupOrder) => o.productId == productId
  }

  /** `orders.filter(order => order.productId === productId)`. */
  function ForProduct(orders: seq<GroupOrder>, productId: string): seq<GroupOrder> {
    Filter(OfProduct(productId), orders)
  }

  /** A status bucket holds exactly the orders of that status, in order. */
  lemma WithStatusMembers(orders: seq<GroupOrder>, status: string, o: GroupOrder)
    ensures o in WithStatus(orders, status) <==> o in orders && o.status == status
    ensures IsSubsequence(WithStatus(orders, status), orders)
  {
    FilterMembership(HasStatus(status), orders, o);
    FilterIsSubsequence(HasStatus(status), orders);
  }

  /** No order lies in two buckets of different statuses. */
  lemma BucketsDisjoint(orders: seq<GroupOrder>, s1: string, s2: string)
    requires s1 != s2
    ensures forall o :: o in WithStatus(orders, s1) ==> o !in WithStatus(orders, s2)
  {
    forall o | o in WithStatus(orders, s1)
      ensures o !in WithStatus(orders, s2)
    {
      WithStatusMembers(orders, s1, o);
      WithStatusMembers(orders, s2, o);
    }
  }

  /**
   * When every status is one of open, closed and delivered, the three buckets
   * together account for every order exactly once.
   */
  lemma {:induction false} BucketsPartition(orders: seq<GroupOrder>)
    requires forall k :: 0 <= k < |orders| ==> KnownStatus(orders[k].status)
    ensures |WithStatus(orders, StatusOpen)| + |WithStatus(orders, StatusClosed)|
            + |WithStatus(orders, StatusDelivered)| == |orders|
    decreases |orders|
  {
    if orders != [] {
      BucketsPartition(orders[1..]);
    }
  }

  /** One bucket of one product's orders is the product's share of that bucket. */
  lemma ProductBucket(orders: seq<GroupOrder>, productId: string, status: string)
    ensures WithStatus(ForProduct(orders, productId), status)
            == ForProduct(WithStatus(orders, status), productId)
    ensures |WithStatus(ForProduct(orders, productId), status)| <= |WithStatus(orders, status)|
  {
    FilterCommutes(HasStatus(status), OfProduct(productId), orders);
  }
}
