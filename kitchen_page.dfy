/** The kitchen page's mutable state and its event handlers. Requests the
    page would send and notifications it would show are appended to logs,
    in the order they happen. */
module KitchenPage {
  import opened Domain
  import opened Board
  import opened Selection
  import opened Dialog
  import opened Channel

  class Dashboard {
    /** Whether the live order channel is up. */
    var connected: bool
    /** The order item the ingredient dialog is open for, if any. */
    var target: Option<Target>
    /** The ingredients staged in the dialog. */
    var selected: seq<SelectedIngredient>
    /** The dialog's search text. */
    var search: string
    /** A status request is in flight: the action buttons are disabled. */
    var statusPending: bool
    /** An ingredient request is in flight: the confirm button is disabled. */
    var ingredientPending: bool
    /** Every request sent so far. */
    var requests: seq<Request>
    /** Every notification shown so far. */
    var notifications: seq<Notification>

    /** Staged ids are unique with quantity 1, and a closed dialog has
        nothing staged and no search text. */
    ghost predicate Valid()
      reads this
    {
      && UniqueIds(selected)
      && UnitQuantities(selected)
      && (target.None? ==> selected == [] && search == "")
    }

    constructor ()
      ensures Valid()
      ensures !connected && target.None? && selected == [] && search == ""
      ensures !statusPending && !ingredientPending && requests == [] && notifications == []
    {
      connected := false;
      target := None;
      selected := [];
      search := "";
      statusPending := false;
      ingredientPending := false;
      requests := [];
      notifications := [];
    }

    /** A live-channel event: connection events set `connected`, order events
        raise their notifications. */
    method OnEvent(e: Event)
      requires Valid()
      modifies this`connected, this`notifications
      ensures Valid()
      ensures connected == (if e.Connected? then true else if e.Disconnected? then false else old(connected))
      ensures notifications == old(notifications) + Reaction(e)
    {
      if e.Connected? {
        connected := true;
      } else if e.Disconnected? {
        connected := false;
      }
      notifications := notifications + Reaction(e);
    }

    /** Send a status request and mark the status mutation as pending. */
    method SendStatus(orderId: string, status: string)
      modifies this`requests, this`statusPending
      ensures requests == old(requests) + [UpdateStatus(orderId, status)]
      ensures statusPending
    {
      requests := requests + [UpdateStatus(orderId, status)];
      statusPending := true;
    }

    /** The "start production" click on an accepted order. */
    method StartProductionClick(view: OrderView)
      requires Valid()
      requires !statusPending
      modifies this`target, this`requests, this`statusPending
      ensures Valid()
      ensures match OnStartProduction(old(target), view)
        case OpenFor(t) => target == Some(t) && requests == old(requests) && !statusPending
        case Send(req) => target == old(target) && requests == old(requests) + [req] && statusPending
    {
      match OnStartProduction(target, view)
      case OpenFor(t) =>
        target := Some(t);
      case Send(req) =>
        SendStatus(req.orderId, req.status);
    }

    /** A click on the action button of `view`, shown in the column of
        `status`. While a status request is in flight the button is disabled
        and the click does nothing. */
    method ActionClick(view: OrderView, status: string)
      requires Valid()
      modifies this`target, this`requests, this`statusPending
      ensures Valid()
      ensures old(statusPending) || NextAction(status, view.order.orderType).None? ==>
        target == old(target) && requests == old(requests) && statusPending == old(statusPending)
      ensures !old(statusPending) && NextAction(status, view.order.orderType) == Some(StartProduction) ==>
        match OnStartProduction(old(target), view)
        case OpenFor(t) => target == Some(t) && requests == old(requests)
        case Send(req) => target == old(target) && requests == old(requests) + [req]
      ensures !old(statusPending) && NextAction(status, view.order.orderType) == Some(MarkReady) ==>
        target == old(target) && requests == old(requests) + [UpdateStatus(view.order.id, Ready)]
      ensures !old(statusPending) && NextAction(status, view.order.orderType) == Some(CustomerPickedUp) ==>
        target == old(target) && requests == old(requests) + [UpdateStatus(view.order.id, Delivered)]
      ensures statusPending == (old(statusPending) || |requests| > |old(requests)|)
    {
      if statusPending {
        return;
      }
      match NextAction(status, view.order.orderType)
      case None =>
      case Some(StartProduction) =>
        StartProductionClick(view);
      case Some(MarkReady) =>
        SendStatus(view.order.id, Ready);
      case Some(CustomerPickedUp) =>
        SendStatus(view.order.id, Delivered);
    }

    /** Selecting a listed product in the open dialog. */
    method Toggle(productId: string)
      requires Valid() && target.Some?
      modifies this`selected
      ensures Valid()
      ensures selected == Toggled(old(selected), productId)
    {
      ToggledKeepsInvariant(selected, productId);
      selected := Toggled(selected, productId);
    }

    /** The remove button of a staged ingredient. */
    method Remove(productId: string)
      requires Valid() && target.Some?
      modifies this`selected
      ensures Valid()
      ensures selected == Removed(old(selected), productId)
    {
      RemovedKeepsUnique(selected, productId);
      selected := Removed(selected, productId);
    }

    /** The deduct-stock checkbox of a staged ingredient. */
    method SetDeduct(productId: string, checked: bool)
      requires Valid() && target.Some?
      modifies this`selected
      ensures Valid()
      ensures selected == WithDeduct(old(selected), productId, checked)
    {
      WithDeductKeepsInvariant(selected, productId, checked);
      selected := WithDeduct(selected, productId, checked);
    }

    /** Typing in the dialog's search box. */
    method SetSearch(text: string)
      requires Valid() && target.Some?
      modifies this`search
      ensures Valid()
      ensures search == text
    {
      search := text;
    }

    /** Closing the dialog discards the target, the selection and the search. */
    method Close()
      requires Valid()
      modifies this`target, this`selected, this`search
      ensures Valid()
      ensures target.None? && selected == [] && search == ""
    {
      target := None;
      selected := [];
      search := "";
    }

    /** The confirm button. While an ingredient request is in flight it is
        disabled. Otherwise, with the dialog open, it sends one add-ingredient
        request per staged ingredient (or a "preparing" request when nothing
        is staged) and resets the dialog; with the dialog closed it does
        nothing. */
    method Confirm()
      requires Valid()
      modifies this`target, this`selected, this`search, this`requests, this`statusPending, this`ingredientPending
      ensures Valid()
      ensures old(ingredientPending) || old(target).None? ==>
        target == old(target) && selected == old(selected) && search == old(search)
        && requests == old(requests) && statusPending == old(statusPending) && ingredientPending == old(ingredientPending)
      ensures !old(ingredientPending) && old(target).Some? ==>
        && requests == old(requests) + Confirmation(old(target), old(selected))
        && target.None? && selected == [] && search == ""
        && ingredientPending == (old(ingredientPending) || |old(selected)| > 0)
        && statusPending == (old(statusPending) || |old(selected)| == 0)
    {
      if ingredientPending || target.None? {
        return;
      }
      var t := target.value;
      var sel := selected;
      if |sel| > 0 {
        var sent: seq<Request> := [];
        var i := 0;
        while i < |sel|
          invariant 0 <= i <= |sel|
          invariant sent == IngredientRequests(t, sel[..i])
          invariant unchanged(this)
        {
          assert sel[..i + 1] == sel[..i] + [sel[i]];
          IngredientRequestsAppend(t, sel[..i], sel[i]);
          sent := sent + [IngredientRequest(t, sel[i])];
          i := i + 1;
        }
        assert sel[..i] == sel;
        requests := requests + sent;
        ingredientPending := true;
      } else {
        SendStatus(t.orderId, Preparing);
      }
      target := None;
      selected := [];
      search := "";
    }

    /** The pending status request settled (success or failure). */
    method StatusSettled()
      modifies this`statusPending
      ensures !statusPending
    {
      statusPending := false;
    }

    /** The pending ingredient requests settled. */
    method IngredientsSettled()
      modifies this`ingredientPending
      ensures !ingredientPending
    {
      ingredientPending := false;
    }
  }

  /** Clicking "order ready" twice before the first request settles sends
      one request: the button is disabled while it is in flight. */
  method DuplicateClickSendsOnce(view: OrderView) returns (sent: seq<Request>)
    ensures sent == [UpdateStatus(view.order.id, Ready)]
  {
    var page := new Dashboard();
    assert NextAction(Preparing, view.order.orderType) == Some(MarkReady);
    page.ActionClick(view, Preparing);
    page.ActionClick(view, Preparing);
    sent := page.requests;
  }

  /** "Start production" on an accepted order with items opens the dialog and
      sends nothing; staging two ingredients and confirming then sends two
      ingredient requests for the order's first item, in staging order, and
      no status request. Confirming with nothing staged sends "preparing". */
  method StartProductionFlow(view: OrderView, a: string, b: string, stage: bool) returns (onStart: seq<Request>, sent: seq<Request>)
    requires |view.items| > 0 && a != b
    ensures onStart == []
    ensures var t := Target(view.order.id, view.items[0].id);
      sent == if stage then [IngredientRequest(t, NewEntry(a)), IngredientRequest(t, NewEntry(b))]
              else [UpdateStatus(view.order.id, Preparing)]
  {
    var page := new Dashboard();
    page.ActionClick(view, Accepted);
    onStart := page.requests;
    if stage {
      page.Toggle(a);
      assert page.selected == [NewEntry(a)];
      assert !IsSelected(page.selected, b);
      page.Toggle(b);
    }
    page.Confirm();
    sent := page.requests;
  }
}
