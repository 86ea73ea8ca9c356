/**
 * The surface of the HashiCups API client the provider consumes. The
 * client's HTTP, authentication and JSON handling are not modelled: the
 * remote service is a deterministic oracle whose answer to each request is a
 * function of the requests it has received before and of the request's own
 * arguments. The record of requests received is the service's state.
 */
module HashiCupsClient {
  import opened Wrappers

  /** A coffee as the API reports it. */
  datatype Coffee = Coffee(
    id: int,
    name: string,
    teaser: string,
    description: string,
    price: int,
    image: string)

  /** Go's zero value of a coffee: every field empty. */
  const ZeroCoffee := Coffee(0, "", "", "", 0, "")

  datatype OrderItem = OrderItem(coffee: Coffee, quantity: int)

  datatype Order = Order(id: int, items: seq<OrderItem>)

  /** A request as the remote service receives it. */
  datatype Call =
    | GetOrder(orderId: string)
    | CreateOrder(items: seq<OrderItem>)
    | UpdateOrder(orderId: string, items: seq<OrderItem>)
    | DeleteOrder(orderId: string)

  class Client {
    /** How the service answers each request, given the requests before it. */
    const getOrder: (seq<Call>, string) -> Result<Order, Err>
    const createOrder: (seq<Call>, seq<OrderItem>) -> Result<Order, Err>
    const updateOrder: (seq<Call>, string, seq<OrderItem>) -> Result<Order, Err>
    const deleteOrder: (seq<Call>, string) -> Option<Err>

    /** Every request the service has received, oldest first. */
    var history: seq<Call>

    constructor (
      getOrder: (seq<Call>, string) -> Result<Order, Err>,
      createOrder: (seq<Call>, seq<OrderItem>) -> Result<Order, Err>,
      updateOrder: (seq<Call>, string, seq<OrderItem>) -> Result<Order, Err>,
      deleteOrder: (seq<Call>, string) -> Option<Err>)
      ensures this.getOrder == getOrder && this.createOrder == createOrder
      ensures this.updateOrder == updateOrder && this.deleteOrder == deleteOrder
      ensures history == []
    {
      this.getOrder := getOrder;
      this.createOrder := createOrder;
      this.updateOrder := updateOrder;
      this.deleteOrder := deleteOrder;
      history := [];
    }

    method GetOrder(orderId: string) returns (r: Result<Order, Err>)
      modifies this`history
      ensures r == getOrder(old(history), orderId)
      ensures history == old(history) + [Call.GetOrder(orderId)]
    {
      r := getOrder(history, orderId);
      history := history + [Call.GetOrder(orderId)];
    }

    method CreateOrder(items: seq<OrderItem>) returns (r: Result<Order, Err>)
      modifies this`history
      ensures r == createOrder(old(history), items)
      ensures history == old(history) + [Call.CreateOrder(items)]
    {
      r := createOrder(history, items);
      history := history + [Call.CreateOrder(items)];
    }

    method UpdateOrder(orderId: string, items: seq<OrderItem>) returns (r: Result<Order, Err>)
      modifies this`history
      ensures r == updateOrder(old(history), orderId, items)
      ensures history == old(history) + [Call.UpdateOrder(orderId, items)]
    {
      r := updateOrder(history, orderId, items);
      history := history + [Call.UpdateOrder(orderId, items)];
    }

    method DeleteOrder(orderId: string) returns (err: Option<Err>)
      modifies this`history
      ensures err == deleteOrder(old(history), orderId)
      ensures history == old(history) + [Call.DeleteOrder(orderId)]
    {
      err := deleteOrder(history, orderId);
      history := history + [Call.DeleteOrder(orderId)];
    }
  }
}
