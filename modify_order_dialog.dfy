/**
 * The modify dialog (street-share-hub-main/src/components/ModifyOrderDialog.tsx):
 * the user's current quantity in an order, the new-quantity field, when
 * "Save changes" is enabled and when a modify request is really sent.
 */
module ModifyOrderDialog {
  import opened Wrappers
  import opened Seqs
  import opened Types

  function DetailOfVendor(userId: Option<string>): ParticipantDetail -> bool {
    (d: ParticipantDetail) => userId.Some? && d.vendorId == userId.value
  }

  /**
   * `currentUserQuantity`: the quantity of the first `participants_details`
   * entry for the user, or 0 when there is no order, no details, no user or
   * no entry.
   */
  function CurrentUserQuantity(order: Option<GroupOrder>, userId: Option<string>): (q: int)
    ensures q != 0 ==> order.Some? && userId.Some? && order.value.participantsDetails.Some?
    ensures q != 0 ==>
              exists k :: (0 <= k < |order.value.participantsDetails.value| &&
                order.value.participantsDetails.value[k] == ParticipantDetail(
                  userId.value, order.value.participantsDetails.value[k].vendorName, q))
  {
    if order.None? || order.value.participantsDetails.None? then 0
    else match Find(DetailOfVendor(userId), order.value.participantsDetails.value)
      case None => 0
      case Some(d) => d.quantity
  }

  /** The first entry for the user decides, even when a later entry repeats the vendor. */
  lemma FirstEntryDecides(o: GroupOrder, userId: string, details: seq<ParticipantDetail>, k: nat)
    requires o.participantsDetails == Some(details)
    requires k < |details| && details[k].vendorId == userId
    requires forall j :: 0 <= j < k ==> details[j].vendorId != userId
    ensures CurrentUserQuantity(Some(o), Some(userId)) == details[k].quantity
  {
    assert DetailOfVendor(Some(userId))(details[k]);
  }

  /** A user without an entry in the order's details is shown a current quantity of 0. */
  lemma NoEntryMeansZero(o: GroupOrder, userId: Option<string>)
    requires o.participantsDetails.Some?
    requires forall k :: 0 <= k < |o.participantsDetails.value| ==>
               userId.None? || o.participantsDetails.value[k].vendorId != userId.value
    ensures CurrentUserQuantity(Some(o), userId) == 0
  {
  }

  /** The new-quantity field's `onChange`: `parseInt(text) || 0`. */
  function ParseQuantity(parsed: Option<int>): int {
    parsed.GetOr(0)
  }

  /** The "Save changes" button is enabled. */
  predicate SaveEnabled(isLoading: bool, newQuantity: int, currentQuantity: int) {
    !isLoading && newQuantity > 0 && newQuantity != currentQuantity
  }

  /** Text that is not a number, and an empty field, disable "Save changes". */
  lemma NonNumericDisablesSave(isLoading: bool, currentQuantity: int)
    ensures !SaveEnabled(isLoading, ParseQuantity(None), currentQuantity)
  {
  }

  datatype ModifyRequest = ModifyRequest(groupOrderId: Option<string>, quantity: int)

  /**
   * `handleModify`'s short-circuit: without an order or a user, or when the
   * quantity has not changed, no request is sent and the dialog just closes.
   */
  function ModifyRequestFor(order: Option<GroupOrder>, user: Option<User>, newQuantity: int, currentQuantity: int)
    : (r: Option<ModifyRequest>)
    ensures r.Some? <==> order.Some? && user.Some? && newQuantity != currentQuantity
    ensures r.Some? ==> r.value == ModifyRequest(order.value.mongoId, newQuantity)
  {
    if order.None? || user.None? || newQuantity == currentQuantity then None
    else Some(ModifyRequest(order.value.mongoId, newQuantity))
  }

  /** Pressing an enabled "Save changes" with an order and a user always sends a request. */
  lemma EnabledSaveSends(order: GroupOrder, user: User, newQuantity: int, currentQuantity: int)
    requires SaveEnabled(false, newQuantity, currentQuantity)
    ensures ModifyRequestFor(Some(order), Some(user), newQuantity, currentQuantity) == Some(ModifyRequest(order.mongoId, newQuantity))
    ensures newQuantity > 0
  {
  }

  /**
   * The dialog's state. The page keeps one dialog mounted and hands it the
   * selected order, which is none at first, so `order` changes under the
   * new-quantity field.
   */
  class ModifyDialog {
    var order: Option<GroupOrder>
    const user: Option<User>
    var newQuantity: int
    var isLoading: bool

    function CurrentQuantity(): int
      reads this
    {
      CurrentUserQuantity(order, if user.Some? then Some(user.value.id) else None)
    }

    /**
     * The first mount: the field starts at the user's current quantity in
     * the order it is mounted with, which is 0 when there is no order.
     */
    constructor (order: Option<GroupOrder>, user: Option<User>)
      ensures this.order == order && this.user == user
      ensures newQuantity == CurrentQuantity() && !isLoading
      ensures order.None? ==> newQuantity == 0
    {
      this.order := order;
      this.user := user;
      newQuantity := CurrentUserQuantity(order, if user.Some? then Some(user.value.id) else None);
      isLoading := false;
    }

    /**
     * A new `order` prop. `useState` runs only on the first mount, so the
     * field keeps whatever it held for the previous order.
     */
    method ShowOrder(o: Option<GroupOrder>)
      modifies this
      ensures order == o
      ensures newQuantity == old(newQuantity) && isLoading == old(isLoading)
    {
      order := o;
    }

    method EditQuantity(parsed: Option<int>)
      modifies this
      ensures newQuantity == ParseQuantity(parsed) && isLoading == old(isLoading)
      ensures order == old(order)
    {
      newQuantity := ParseQuantity(parsed);
    }

    /**
     * `handleModify`: the request sent, if any, and whether the dialog closes.
     * `succeeded` is the outcome of the service call.
     */
    method HandleModify(succeeded: bool) returns (request: Option<ModifyRequest>, closes: bool)
      modifies this
      ensures request == ModifyRequestFor(order, user, newQuantity, CurrentQuantity())
      ensures request.None? ==> closes && isLoading == old(isLoading)
      ensures request.Some? ==> (closes <==> succeeded) && !isLoading
      ensures newQuantity == old(newQuantity) && order == old(order)
    {
      request := ModifyRequestFor(order, user, newQuantity, CurrentQuantity());
      if request.None? {
        return request, true;
      }
      // `isLoading` is on only while the request is awaited, which is not
      // modelled; it is off once the handler has finished.
      closes := succeeded;
      isLoading := false;
    }
  }

  /**
   * The page mounts the dialog before any order is selected, so the field
   * starts at 0 whatever the user's quantity in the first order opened. A
   * quantity typed for one order stays in the field when another order is
   * opened, and pressing "Save changes" there sends it for that order.
   */
  method TypedQuantityCarriesAcrossOrders(u: User, a: GroupOrder, c: GroupOrder, typed: int, succeeded: bool)
    returns (initial: int, request: Option<ModifyRequest>)
    requires typed > 0 && typed != CurrentUserQuantity(Some(c), Some(u.id))
    ensures initial == 0
    ensures request == Some(ModifyRequest(c.mongoId, typed))
  {
    var d := new ModifyDialog(None, Some(u));
    d.ShowOrder(Some(a));
    initial := d.newQuantity;
    d.EditQuantity(Some(typed));
    d.ShowOrder(Some(c));
    var closes;
    request, closes := d.HandleModify(succeeded);
  }
}
