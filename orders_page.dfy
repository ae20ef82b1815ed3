/**
 * The vendor's "My Orders" page (street-share-hub-main/src/pages/Orders.tsx):
 * which fetched group orders the signed-in user takes part in, the user's own
 * contribution to each, and the three status tabs.
 */
module OrdersPage {
  import opened Wrappers
  import opened Seqs
  import opened Types

  /** One element of the fetched `data` array: an object, or something that is not one. */
  datatype RawEntry = NotAnObject | Entry(order: GroupOrder)

  /** `isGroupOrder`: an object carrying an `_id` or an `id` key. */
  predicate IsGroupOrder(e: RawEntry) {
    e.Entry? && (e.order.mongoId.Some? || e.order.id.Some?)
  }

  /**
   * `data.filter(isGroupOrder)`: the orders of the object entries carrying an
   * id, in response order and with their multiplicity.
   */
  function KeepGroupOrders(data: seq<RawEntry>): (orders: seq<GroupOrder>)
    ensures |orders| <= |data|
    ensures seq(|orders|, k requires 0 <= k < |orders| => Entry(orders[k])) == Filter(IsGroupOrder, data)
    ensures forall o :: o in orders <==> Entry(o) in data && (o.mongoId.Some? || o.id.Some?)
  {
    var kept := Filter(IsGroupOrder, data);
    assert forall k :: 0 <= k < |kept| ==> kept[k] == Entry(kept[k].order);
    var orders := seq(|kept|, k requires 0 <= k < |kept| => kept[k].order);
    forall o ensures o in orders <==> Entry(o) in data && (o.mongoId.Some? || o.id.Some?) {
      FilterMembership(IsGroupOrder, data, Entry(o));
      if Entry(o) in kept {
        var k :| 0 <= k < |kept| && kept[k] == Entry(o);
        assert orders[k] == o;
      }
    }
    orders
  }

  /**
   * The `orders` state after `fetchOrders`: the group orders of the response,
   * an empty list when the response has no data, and an empty list on error.
   */
  function OrdersAfterFetch(response: Loaded<Option<seq<RawEntry>>>): (orders: seq<GroupOrder>)
    ensures response.LoadFailed? || response.body.None? ==> orders == []
    ensures response.Loaded? && response.body.Some? ==> orders == KeepGroupOrders(response.body.value)
  {
    match response
    case LoadFailed => []
    case Loaded(body) => KeepGroupOrders(body.GetOr([]))
  }

  /**
   * The membership test of `userOrders` and `userParticipation`: an object
   * participant matches on its `user` field, a bare id on itself. With nobody
   * signed in (`user?.id` is undefined) no participant matches.
   */
  function ParticipantIsUser(userId: Option<string>): Participant -> bool {
    (p: Participant) =>
      userId.Some? &&
      match p
      case Obj(u, _) => u == userId.value
      case Bare(id) => id == userId.value
  }

  /** The user named `userId` appears among the order's participants, in either form. */
  predicate Takes(o: GroupOrder, userId: string) {
    exists k :: 0 <= k < |o.participants| &&
      (o.participants[k] == Bare(userId) || (o.participants[k].Obj? && o.participants[k].user == userId))
  }

  function IsMemberOf(userId: Option<string>): GroupOrder -> bool {
    (o: GroupOrder) => Any(ParticipantIsUser(userId), o.participants)
  }

  /** `userOrders`. */
  function UserOrders(orders: seq<GroupOrder>, userId: Option<string>): seq<GroupOrder> {
    Filter(IsMemberOf(userId), orders)
  }

  lemma MemberOfIffTakes(o: GroupOrder, userId: string)
    ensures IsMemberOf(Some(userId))(o) <==> Takes(o, userId)
  {
    if IsMemberOf(Some(userId))(o) {
      var k :| 0 <= k < |o.participants| && ParticipantIsUser(Some(userId))(o.participants[k]);
      assert o.participants[k] == Bare(userId) || (o.participants[k].Obj? && o.participants[k].user == userId);
    }
    if Takes(o, userId) {
      var k :| 0 <= k < |o.participants| &&
        (o.participants[k] == Bare(userId) || (o.participants[k].Obj? && o.participants[k].user == userId));
      assert ParticipantIsUser(Some(userId))(o.participants[k]);
    }
  }

  /** `userOrders` is exactly the fetched orders the user takes part in, in fetched order. */
  lemma UserOrdersMembers(orders: seq<GroupOrder>, userId: string, o: GroupOrder)
    ensures o in UserOrders(orders, Some(userId)) <==> o in orders && Takes(o, userId)
    ensures IsSubsequence(UserOrders(orders, Some(userId)), orders)
  {
    FilterMembership(IsMemberOf(Some(userId)), orders, o);
    MemberOfIffTakes(o, userId);
    FilterIsSubsequence(IsMemberOf(Some(userId)), orders);
  }

  /** With nobody signed in the page lists no orders. */
  lemma SignedOutSeesNoOrders(orders: seq<GroupOrder>)
    ensures UserOrders(orders, None) == []
  {
    FilterKeepsNone(IsMemberOf(None), orders);
  }

  /** `userParticipation`: the first participant entry that is the user. */
  function UserParticipation(o: GroupOrder, userId: Option<string>): (r: Option<Participant>)
    ensures r.Some? <==> IsMemberOf(userId)(o)
    ensures r.Some? ==> r.value in o.participants && ParticipantIsUser(userId)(r.value)
    ensures r.Some? ==>
              exists k :: (0 <= k < |o.participants| && o.participants[k] == r.value &&
                forall j :: 0 <= j < k ==> !ParticipantIsUser(userId)(o.participants[j]))
  {
    Find(ParticipantIsUser(userId), o.participants)
  }

  /** Every order listed on the page has a participation entry for the user. */
  lemma ListedOrdersHaveParticipation(orders: seq<GroupOrder>, userId: Option<string>, o: GroupOrder)
    requires o in UserOrders(orders, userId)
    ensures UserParticipation(o, userId).Some?
  {
    FilterMembership(IsMemberOf(userId), orders, o);
  }

  /**
   * The "Your Contribution" amount: shown only when the user's entry is an
   * object, and then its quantity times the order's price, with an absent
   * price read as 0.
   */
  function Contribution(o: GroupOrder, userId: Option<string>): (r: Option<int>)
    ensures r.Some? <==> UserParticipation(o, userId).Some? && UserParticipation(o, userId).value.Obj?
    ensures r.Some? ==> r.value == UserParticipation(o, userId).value.quantity * o.pricePerKg.GetOr(0)
    ensures r.Some? ==> exists q :: Obj(userId.value, q) in o.participants && r.value == q * o.pricePerKg.GetOr(0)
    ensures r.Some? && o.pricePerKg.None? ==> r.value == 0
  {
    match UserParticipation(o, userId)
    case Some(Obj(u, q)) => Some(q * o.pricePerKg.GetOr(0))
    case _ => None
  }

  /**
   * When the user appears twice, the first entry decides the contribution:
   * with entries of 5 and then 7, at 3 per kg, the card shows 15.
   */
  lemma FirstEntryDecidesContribution(o: GroupOrder, userId: string, k: nat, q: int)
    requires k < |o.participants| && o.participants[k] == Obj(userId, q)
    requires forall j :: 0 <= j < k ==>
               o.participants[j] != Bare(userId) && !(o.participants[j].Obj? && o.participants[j].user == userId)
    ensures Contribution(o, Some(userId)) == Some(q * o.pricePerKg.GetOr(0))
  {
    assert ParticipantIsUser(Some(userId))(o.participants[k]);
    var r := FindFirst(ParticipantIsUser(Some(userId)), o.participants);
    assert r == Some(k) by {
      forall j | 0 <= j < k
        ensures !ParticipantIsUser(Some(userId))(o.participants[j])
      {
      }
    }
  }

  function ActiveOrders(userOrders: seq<GroupOrder>): seq<GroupOrder> {
    WithStatus(userOrders, StatusOpen)
  }

  function ProcessingOrders(userOrders: seq<GroupOrder>): seq<GroupOrder> {
    WithStatus(userOrders, StatusClosed)
  }

  function CompletedOrders(userOrders: seq<GroupOrder>): seq<GroupOrder> {
    WithStatus(userOrders, StatusDelivered)
  }

  /**
   * The three tabs never share an order, and when every status is one of the
   * three known ones their counts add up to the number of the user's orders.
   */
  lemma TabsPartitionUserOrders(orders: seq<GroupOrder>, userId: Option<string>)
    ensures forall o :: o in ActiveOrders(UserOrders(orders, userId)) ==> o !in ProcessingOrders(UserOrders(orders, userId))
    ensures forall o :: o in ActiveOrders(UserOrders(orders, userId)) ==> o !in CompletedOrders(UserOrders(orders, userId))
    ensures forall o :: o in ProcessingOrders(UserOrders(orders, userId)) ==> o !in CompletedOrders(UserOrders(orders, userId))
    ensures (forall k :: 0 <= k < |orders| ==> KnownStatus(orders[k].status)) ==>
              |ActiveOrders(UserOrders(orders, userId))| + |ProcessingOrders(UserOrders(orders, userId))|
              + |CompletedOrders(UserOrders(orders, userId))| == |UserOrders(orders, userId)|
  {
    var mine := UserOrders(orders, userId);
    BucketsDisjoint(mine, StatusOpen, StatusClosed);
    BucketsDisjoint(mine, StatusOpen, StatusDelivered);
    BucketsDisjoint(mine, StatusClosed, StatusDelivered);
    if forall k :: 0 <= k < |orders| ==> KnownStatus(orders[k].status) {
      forall k | 0 <= k < |mine| ensures KnownStatus(mine[k].status) {
        FilterMembership(IsMemberOf(userId), orders, mine[k]);
      }
      BucketsPartition(mine);
    }
  }

  /** The "Modify Order" button of an order card. */
  predicate OffersModify(o: GroupOrder) {
    o.status == StatusOpen
  }

  /** Cards in the Active tab offer "Modify Order"; cards in the other two tabs never do. */
  lemma ModifyOnlyInActiveTab(userOrders: seq<GroupOrder>, o: GroupOrder)
    ensures o in ActiveOrders(userOrders) ==> OffersModify(o)
    ensures o in ProcessingOrders(userOrders) || o in CompletedOrders(userOrders) ==> !OffersModify(o)
  {
    WithStatusMembers(userOrders, StatusOpen, o);
    WithStatusMembers(userOrders, StatusClosed, o);
    WithStatusMembers(userOrders, StatusDelivered, o);
  }

  datatype BadgeVariant = Default | Secondary | Outline

  /** `getStatusColor`. */
  function StatusColor(status: string): BadgeVariant {
    if status == StatusOpen then Default
    else if status == StatusClosed then Secondary
    else if status == StatusDelivered then Outline
    else Secondary
  }
}
