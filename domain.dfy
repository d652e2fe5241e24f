/** The records the kitchen dashboard reads from the server and the requests
    it sends back. Only the fields the dashboard's logic looks at are kept. */
module Domain {

  datatype Option<T> = None | Some(value: T)

  // Order statuses, in workflow order, and the one order type that matters.
  const Accepted: string := "accepted"
  const Preparing: string := "preparing"
  const Ready: string := "ready"
  const Delivered: string := "delivered"
  const Delivery: string := "delivery"

  /** An order as listed by `GET /api/orders`; `status` and `orderType` are
      compared as strings, so any other value is representable. */
  datatype Order = Order(id: string, userId: string, orderType: string, status: string)

  /** An order item as listed by `GET /api/order-items`. */
  datatype OrderItem = OrderItem(id: string, orderId: string)

  datatype User = User(id: string, name: string, whatsapp: string)

  /** An order joined with its items and with the name and WhatsApp number
      of its user, when one was found. */
  datatype OrderView = OrderView(
    order: Order,
    items: seq<OrderItem>,
    userName: Option<string>,
    userWhatsapp: Option<string>)

  datatype Product = Product(id: string, name: string, categoryId: string, stock: int)

  datatype Category = Category(id: string, name: string)

  /** One ingredient staged in the ingredient dialog. */
  datatype SelectedIngredient = SelectedIngredient(productId: string, quantity: int, shouldDeductStock: bool)

  /** A request the dashboard sends: `PATCH /api/orders/{orderId}/status` or
      `POST /api/orders/{orderId}/items/{itemId}/ingredients`. */
  datatype Request =
    | UpdateStatus(orderId: string, status: string)
    | AddIngredient(orderId: string, itemId: string, ingredientProductId: string, quantity: int, shouldDeductStock: bool)
}
