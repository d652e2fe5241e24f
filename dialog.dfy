/** The ingredient dialog's effects as pure functions of its state: what the
    "start production" button does and which requests "confirm" sends. */
module Dialog {
  import opened Domain

  /** The order item the dialog records ingredients for. */
  datatype Target = Target(orderId: string, itemId: string)

  /** Either the dialog opens for a target, or a request is sent. */
  datatype StartOutcome = OpenFor(target: Target) | Send(request: Request)

  /** The "start production" click: when the order has a first item and the
      dialog is not already on that item, the dialog opens for it; otherwise
      the order is moved to "preparing" directly. */
  function OnStartProduction(open: Option<Target>, view: OrderView): (r: StartOutcome)
    ensures r.OpenFor? <==> |view.items| > 0 && (open.None? || open.value.itemId != view.items[0].id)
    ensures r.OpenFor? ==> r.target.orderId == view.order.id && r.target.itemId == view.items[0].id
    ensures r.Send? ==> r.request.UpdateStatus? && r.request.orderId == view.order.id && r.request.status == Preparing
  {
    if |view.items| > 0 && (open.None? || open.value.itemId != view.items[0].id) then
      OpenFor(Target(view.order.id, view.items[0].id))
    else
      Send(UpdateStatus(view.order.id, Preparing))
  }

  /** The request recording one staged ingredient against the target item. */
  function IngredientRequest(t: Target, ing: SelectedIngredient): Request
  {
    AddIngredient(t.orderId, t.itemId, ing.productId, ing.quantity, ing.shouldDeductStock)
  }

  /** One add-ingredient request per staged ingredient, in selection order. */
  function IngredientRequests(t: Target, sel: seq<SelectedIngredient>): (r: seq<Request>)
    ensures |r| == |sel|
    ensures forall k :: 0 <= k < |r| ==>
      r[k].AddIngredient? && r[k].orderId == t.orderId && r[k].itemId == t.itemId
      && r[k].ingredientProductId == sel[k].productId && r[k].quantity == sel[k].quantity
      && r[k].shouldDeductStock == sel[k].shouldDeductStock
    decreases |sel|
  {
    if sel == [] then [] else [IngredientRequest(t, sel[0])] + IngredientRequests(t, sel[1..])
  }

  /** Requests for a selection extended by one ingredient end with that
      ingredient's request. */
  lemma IngredientRequestsAppend(t: Target, sel: seq<SelectedIngredient>, ing: SelectedIngredient)
    ensures IngredientRequests(t, sel + [ing]) == IngredientRequests(t, sel) + [IngredientRequest(t, ing)]
  {
  }

  /** What "confirm" sends: nothing when the dialog is closed; one
      add-ingredient request per staged ingredient when some are staged;
      otherwise a single "preparing" status request for the target's order. */
  function Confirmation(open: Option<Target>, sel: seq<SelectedIngredient>): (r: seq<Request>)
    ensures open.None? ==> r == []
    ensures open.Some? && |sel| > 0 ==> r == IngredientRequests(open.value, sel)
    ensures open.Some? && |sel| == 0 ==> r == [UpdateStatus(open.value.orderId, Preparing)]
  {
    match open
    case None => []
    case Some(t) => if |sel| > 0 then IngredientRequests(t, sel) else [UpdateStatus(t.orderId, Preparing)]
  }

  /** Number of status requests in a request list. */
  function StatusRequests(rs: seq<Request>): nat
    decreases |rs|
  {
    if rs == [] then 0 else (if rs[0].UpdateStatus? then 1 else 0) + StatusRequests(rs[1..])
  }

  /** A list that holds no status request counts zero of them. */
  lemma {:induction false} NoStatusRequests(rs: seq<Request>)
    requires forall k :: 0 <= k < |rs| ==> rs[k].AddIngredient?
    ensures StatusRequests(rs) == 0
    decreases |rs|
  {
    if rs != [] {
      assert forall k :: 0 <= k < |rs[1..]| ==> rs[1..][k] == rs[k + 1];
      NoStatusRequests(rs[1..]);
    }
  }

  /** Confirming an open dialog sends either exactly N ingredient requests and
      no status request (N >= 1 staged), or exactly one status request. */
  lemma ConfirmationCounts(t: Target, sel: seq<SelectedIngredient>)
    ensures |sel| > 0 ==> |Confirmation(Some(t), sel)| == |sel| && StatusRequests(Confirmation(Some(t), sel)) == 0
    ensures |sel| == 0 ==> |Confirmation(Some(t), sel)| == 1 && StatusRequests(Confirmation(Some(t), sel)) == 1
  {
    if |sel| > 0 {
      NoStatusRequests(IngredientRequests(t, sel));
    } else {
      assert StatusRequests([UpdateStatus(t.orderId, Preparing)]) == 1;
    }
  }

  /** Starting production on an order with items while the dialog is closed,
      then confirming with selection `sel`, sends requests only for that order
      and its first item: one "preparing" status request when nothing was
      staged, and one ingredient request per staged ingredient otherwise. */
  lemma StartThenConfirm(view: OrderView, sel: seq<SelectedIngredient>)
    requires |view.items| > 0
    ensures OnStartProduction(None, view) == OpenFor(Target(view.order.id, view.items[0].id))
    ensures var rs := Confirmation(Some(Target(view.order.id, view.items[0].id)), sel);
      && (forall r :: r in rs ==> r.orderId == view.order.id)
      && (|sel| == 0 ==> rs == [UpdateStatus(view.order.id, Preparing)])
      && (|sel| > 0 ==> |rs| == |sel| && forall r :: r in rs ==> r.AddIngredient? && r.itemId == view.items[0].id)
  {
  }
}
