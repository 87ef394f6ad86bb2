/** The order records both order views receive from the warehouse orders
    endpoint, the shapes its body can take, and the six status names. */
module Orders {
  import opened Common

  /** One line of an order. Prices are modelled as integers (minor units). */
  datatype OrderItem = OrderItem(medicineId: int, medicineName: string, quantity: int, price: int)

  /** An order as the API returns it; `status` is the status NAME, a string. */
  datatype Order = Order(
    orderId: int,
    totalPrice: int,
    quantity: int,
    status: string,
    pharmacyId: int,
    pharmacyName: string,
    orderDate: Option<string>,
    medicines: seq<OrderItem>)

  /** The parsed JSON body of the orders endpoint, by the shape the two views
      test for. A `null` body is not here: reading `data.result` on it throws,
      so it reaches the views as a failed response. */
  datatype OrdersPayload =
    | ObjectBody(result: Option<seq<Order>>)  // an object; `result` is `Some` when it holds an array
    | ArrayBody(items: seq<Order>)            // a bare array
    | ScalarBody                              // a number, string or boolean

  /** The six status names the API uses. */
  const StatusNames: seq<string> := ["Ordered", "Preparing", "Delivering", "Delivered", "Cancelled", "Returned"]

  predicate IsKnownStatus(s: string) {
    s in StatusNames
  }

  /** The array both views look for in the body: `data.result` when it is an
      array, else `data` itself when it is an array; `None` for any other shape. */
  function OrdersFromBody(body: OrdersPayload): (r: Option<seq<Order>>)
    ensures body.ObjectBody? ==> r == body.result
    ensures body.ArrayBody? ==> r == Some(body.items)
    ensures r.None? <==> body.ScalarBody? || body == ObjectBody(None)
  {
    match body
    case ObjectBody(result) => result
    case ArrayBody(items) => Some(items)
    case ScalarBody => None
  }

  /** `orders.find(o => o.orderId === id)`. */
  function FindOrder(orders: seq<Order>, id: JsNumber): (r: Option<Order>)
    ensures r.Some? ==> r.value in orders && id == Finite(r.value.orderId)
    ensures r.None? <==> forall o :: o in orders ==> id != Finite(o.orderId)
    ensures r.Some? ==> exists k :: 0 <= k < |orders| && orders[k] == r.value &&
                                    forall j :: 0 <= j < k ==> id != Finite(orders[j].orderId)
  {
    var p := (o: Order) => id.StrictEquals(o.orderId);
    FindAtFindIndex(p, orders);
    Find(p, orders)
  }
}
