/** The order board: joining orders with their items and users, the three
    status columns and the next action offered for an order. */
module Board {
  import opened Domain
  import opened Seqs

  /** `users.find(u => u.id === id)`: the first user with that id. */
  function FindUser(users: seq<User>, id: string): (r: Option<User>)
    ensures r.Some? <==> exists u :: u in users && u.id == id
    ensures r.Some? ==> r.value.id == id
    ensures r.Some? ==>
      exists k :: 0 <= k < |users| && users[k] == r.value && (forall j :: 0 <= j < k ==> users[j].id != id)
    decreases |users|
  {
    if users == [] then None
    else if users[0].id == id then Some(users[0])
    else
      var r := FindUser(users[1..], id);
      if r.Some? then
        var k :| 0 <= k < |users[1..]| && users[1..][k] == r.value &&
          forall j :: 0 <= j < k ==> users[1..][j].id != id;
        assert users[k + 1] == r.value;
        r
      else r
  }

  /** The items of the order with id `orderId`, in the order the item query
      returned them. */
  function ItemsOf(items: seq<OrderItem>, orderId: string): (r: seq<OrderItem>)
    ensures forall it :: it in r <==> it in items && it.orderId == orderId
  {
    Filter(items, (it: OrderItem) => it.orderId == orderId)
  }

  /** The items of an order keep the order the item query returned them in:
      ItemsOf distributes over concatenation and keeps a single item exactly
      when it belongs to the order, so `items[0]` of a view is the first item
      of that order in the response. */
  lemma ItemsOfKeepsOrder(a: seq<OrderItem>, b: seq<OrderItem>, orderId: string)
    ensures ItemsOf(a + b, orderId) == ItemsOf(a, orderId) + ItemsOf(b, orderId)
    ensures forall it :: ItemsOf([it], orderId) == if it.orderId == orderId then [it] else []
  {
    FilterConcat(a, b, (it: OrderItem) => it.orderId == orderId);
  }

  /** One order with its items and its user's name and WhatsApp number. */
  function Attach(order: Order, items: seq<OrderItem>, users: seq<User>): (v: OrderView)
    ensures v.order == order
    ensures forall it :: it in v.items <==> it in items && it.orderId == order.id
    ensures v.items == ItemsOf(items, order.id)
    ensures v.userName.Some? <==> exists u :: u in users && u.id == order.userId
    ensures v.userName.Some? <==> v.userWhatsapp.Some?
    ensures v.userName.Some? ==>
      exists k :: 0 <= k < |users| && users[k].id == order.userId
        && users[k].name == v.userName.value && users[k].whatsapp == v.userWhatsapp.value
        && (forall j :: 0 <= j < k ==> users[j].id != order.userId)
  {
    var user := FindUser(users, order.userId);
    OrderView(
      order,
      ItemsOf(items, order.id),
      if user.Some? then Some(user.value.name) else None,
      if user.Some? then Some(user.value.whatsapp) else None)
  }

  /** `ordersWithItems`: every order, in list order, joined with its items and user. */
  function Join(orders: seq<Order>, items: seq<OrderItem>, users: seq<User>): (r: seq<OrderView>)
    ensures |r| == |orders|
    ensures forall i :: 0 <= i < |r| ==> r[i].order == orders[i]
    ensures forall i, it :: 0 <= i < |r| && it in r[i].items ==> it in items && it.orderId == orders[i].id
    ensures forall i, it :: 0 <= i < |r| && it in items && it.orderId == orders[i].id ==> it in r[i].items
    ensures forall i :: 0 <= i < |r| ==> r[i] == Attach(orders[i], items, users)
  {
    seq(|orders|, i requires 0 <= i < |orders| => Attach(orders[i], items, users))
  }

  /** The column of the board holding the orders whose status is `status`. */
  function Column(views: seq<OrderView>, status: string): (r: seq<OrderView>)
    ensures forall v :: v in r <==> v in views && v.order.status == status
  {
    Filter(views, (v: OrderView) => v.order.status == status)
  }

  predicate OnBoard(status: string)
  {
    status == Accepted || status == Preparing || status == Ready
  }

  /** The orders that appear in no column (delivered, cancelled, ...). */
  function OffBoard(views: seq<OrderView>): (r: seq<OrderView>)
    ensures forall v :: v in r <==> v in views && !OnBoard(v.order.status)
  {
    Filter(views, (v: OrderView) => !OnBoard(v.order.status))
  }

  /** A column keeps list order: it distributes over concatenation and keeps a
      single order exactly when the order has that status. */
  lemma ColumnKeepsOrder(a: seq<OrderView>, b: seq<OrderView>, status: string)
    ensures Column(a + b, status) == Column(a, status) + Column(b, status)
    ensures forall v :: Column([v], status) == if v.order.status == status then [v] else []
  {
    FilterConcat(a, b, (v: OrderView) => v.order.status == status);
  }

  /** Each order is counted in exactly one of the three columns or in none of
      them, so the column sizes and the off-board count add up to the list. */
  lemma {:induction false} ColumnsPartition(views: seq<OrderView>)
    ensures |Column(views, Accepted)| + |Column(views, Preparing)| + |Column(views, Ready)|
            + |OffBoard(views)| == |views|
    decreases |views|
  {
    if views != [] {
      ColumnsPartition(views[1..]);
    }
  }

  /** No order is in two columns. */
  lemma ColumnsDisjoint(views: seq<OrderView>, v: OrderView, s1: string, s2: string)
    requires s1 != s2
    ensures !(v in Column(views, s1) && v in Column(views, s2))
  {
  }

  /** The action button an order shows. */
  datatype Action = StartProduction | MarkReady | CustomerPickedUp

  /** The status the action requests. */
  function TargetStatus(a: Action): string
  {
    match a
    case StartProduction => Preparing
    case MarkReady => Ready
    case CustomerPickedUp => Delivered
  }

  /** Position of a status in accepted → preparing → ready → delivered. */
  function Rank(status: string): Option<nat>
  {
    if status == Accepted then Some(0)
    else if status == Preparing then Some(1)
    else if status == Ready then Some(2)
    else if status == Delivered then Some(3)
    else None
  }

  /** `renderOrderActions`: the action offered for an order in the column of
      `status`. Every action moves the order exactly one step forward; a ready
      delivery order and every other status get no action. */
  function NextAction(status: string, orderType: string): (r: Option<Action>)
    ensures r.Some? ==> Rank(status).Some? && Rank(TargetStatus(r.value)) == Some(Rank(status).value + 1)
    ensures r.None? <==> status != Accepted && status != Preparing && (status != Ready || orderType == Delivery)
    ensures r.Some? && TargetStatus(r.value) == Delivered ==> orderType != Delivery
  {
    if status == Accepted then Some(StartProduction)
    else if status == Preparing then Some(MarkReady)
    else if status == Ready then
      if orderType != Delivery then Some(CustomerPickedUp) else None
    else None
  }

  /** Following the offered actions from "accepted" walks through preparing and
      ready; a pickup order then reaches delivered, a delivery order stops at ready. */
  lemma Lifecycle(orderType: string)
    ensures NextAction(Accepted, orderType) == Some(StartProduction) && TargetStatus(StartProduction) == Preparing
    ensures NextAction(Preparing, orderType) == Some(MarkReady) && TargetStatus(MarkReady) == Ready
    ensures orderType != Delivery ==> NextAction(Ready, orderType) == Some(CustomerPickedUp)
    ensures orderType == Delivery ==> NextAction(Ready, orderType) == None
    ensures NextAction(Delivered, orderType) == None
  {
  }

  /** Outcome of `fetch('/api/order-items?...')`. */
  datatype FetchOutcome = NotOk | Ok(items: seq<OrderItem>)

  /** `orders.map(o => o.id).join(',')` */
  function JoinIds(ids: seq<string>): string
  {
    if ids == [] then "" else if |ids| == 1 then ids[0] else ids[0] + "," + JoinIds(ids[1..])
  }

  function Ids(orders: seq<Order>): (r: seq<string>)
    ensures |r| == |orders|
    ensures forall i :: 0 <= i < |r| ==> r[i] == orders[i].id
  {
    seq(|orders|, i requires 0 <= i < |orders| => orders[i].id)
  }

  /** The items the dashboard works with: none when there are no orders (the
      query is disabled), when the joined id list is empty, or when the
      response is not ok; otherwise what the server returned. */
  function OrderItemsQuery(orders: seq<Order>, response: FetchOutcome): (r: seq<OrderItem>)
    ensures orders == [] ==> r == []
    ensures response.NotOk? ==> r == []
    ensures r != [] ==> response == Ok(r)
    ensures JoinIds(Ids(orders)) == "" ==> r == []
    ensures orders != [] && JoinIds(Ids(orders)) != "" && response.Ok? ==> r == response.items
  {
    if |orders| == 0 then []
    else if JoinIds(Ids(orders)) == "" then []
    else if response.NotOk? then []
    else response.items
  }

  /** The joined id list is empty only when there are no orders, or when the
      one order there is has an empty id; two or more orders always give at
      least a comma. */
  lemma JoinIdsEmpty(orders: seq<Order>)
    ensures JoinIds(Ids(orders)) == "" <==> orders == [] || (|orders| == 1 && orders[0].id == "")
  {
  }
}
