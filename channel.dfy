/** The live order channel as the dashboard consumes it: which event gives
    which notification, and how often the order lists are polled. */
module Channel {
  import opened Domain

  datatype Event =
    | Connected
    | Disconnected
    | OrderCreated
    | OrderStatusChanged(orderId: string, status: string)

  /** A toast with its sound cue: `tones` beeps (`playMultiple(3)` or `playOnce()`). */
  datatype Notification = Notification(tones: nat, title: string)

  const NewOrderTitle: string := "Novo pedido recebido!"
  const QueuedTitle: string := "Novo pedido na fila!"
  const ReadyTitle: string := "Pedido pronto para entrega!"

  /** Refetch interval of the order and order-item queries, in milliseconds. */
  const ConnectedPollMs: nat := 30000
  const DisconnectedPollMs: nat := 5000

  /** The notifications an event raises. A new order gets one three-tone
      cue; a status change to "accepted" or to "ready" gets one single-tone
      cue; every other event gets none. */
  function Reaction(e: Event): (r: seq<Notification>)
    ensures e.OrderCreated? ==> r == [Notification(3, NewOrderTitle)]
    ensures e.OrderStatusChanged? ==> |r| == (if e.status == Accepted || e.status == Ready then 1 else 0)
    ensures e.OrderStatusChanged? ==> forall n :: n in r ==> n.tones == 1
    ensures e.OrderStatusChanged? && e.status == Accepted ==> r == [Notification(1, QueuedTitle)]
    ensures e.OrderStatusChanged? && e.status == Ready ==> r == [Notification(1, ReadyTitle)]
    ensures e.Connected? || e.Disconnected? ==> r == []
  {
    match e
    case OrderCreated => [Notification(3, NewOrderTitle)]
    case OrderStatusChanged(_, status) =>
      (if status == Accepted then [Notification(1, QueuedTitle)] else [])
      + (if status == Ready then [Notification(1, ReadyTitle)] else [])
    case _ => []
  }

  /** Polling is slow while the live channel is up and fast while it is down. */
  function PollInterval(connected: bool): (r: nat)
    ensures r == ConnectedPollMs <==> connected
    ensures r == DisconnectedPollMs <==> !connected
  {
    if connected then ConnectedPollMs else DisconnectedPollMs
  }
}
