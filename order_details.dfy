/** The order-detail view: it reads an order id from the route, loads the
    warehouse's orders and picks that one out, translates status names, and
    sends status updates. */
module OrderDetailsPage {
  import opened Common
  import opened Orders

  const InvalidIdMessage: string := "رقم الطلب غير صحيح"
  const NotFoundMessage: string := "لم يتم العثور على الطلب المطلوب"
  const UnexpectedShapeMessage: string := "Unexpected data structure"

  /** The Arabic label of a status name; any other string is shown as it is. */
  function OrderStatusText(status: string): (r: string)
    ensures !IsKnownStatus(status) ==> r == status
    ensures IsKnownStatus(status) ==> r != status
  {
    match status
    case "Ordered" => "تم الطلب"
    case "Preparing" => "قيد التحضير"
    case "Delivering" => "قيد التوصيل"
    case "Delivered" => "تم التوصيل"
    case "Cancelled" => "ملغي"
    case "Returned" => "مرتجع"
    case _ => status
  }

  /** The six labels are pairwise distinct. */
  lemma StatusLabelsDistinct(i: int, j: int)
    requires 0 <= i < |StatusNames| && 0 <= j < |StatusNames| && i != j
    ensures OrderStatusText(StatusNames[i]) != OrderStatusText(StatusNames[j])
  {
  }

  /** The status names in the order of the API's numeric status enumeration. */
  const ApiStatusOrder: seq<string> := ["Ordered", "Delivered", "Cancelled", "Returned", "Preparing", "Delivering"]

  /** The numeric enumeration value the update endpoint expects for a status
      name; an unrecognised name is sent as `Ordered`. */
  function StatusEnumValue(status: string): (r: int)
    ensures 0 <= r < |ApiStatusOrder|
    ensures IsKnownStatus(status) ==> ApiStatusOrder[r] == status
    ensures !IsKnownStatus(status) ==> ApiStatusOrder[r] == "Ordered"
  {
    match status
    case "Ordered" => 0
    case "Delivered" => 1
    case "Cancelled" => 2
    case "Returned" => 3
    case "Preparing" => 4
    case "Delivering" => 5
    case _ => 0
  }

  /** Distinct known names are sent as distinct values, and every value of the
      enumeration is the image of one known name. */
  lemma StatusEnumValueBijective(a: string, b: string, n: int)
    requires IsKnownStatus(a) && IsKnownStatus(b)
    requires 0 <= n < |ApiStatusOrder|
    ensures StatusEnumValue(a) == StatusEnumValue(b) ==> a == b
    ensures IsKnownStatus(ApiStatusOrder[n]) && StatusEnumValue(ApiStatusOrder[n]) == n
  {
  }

  /** The order as the view keeps it once found: an order whose date is
      missing or empty gets the current time `now` (an ISO string). */
  function WithDefaultDate(o: Order, now: string): (r: Order)
    ensures TruthyString(o.orderDate) ==> r == o
    ensures !TruthyString(o.orderDate) ==> r.orderDate == Some(now)
    ensures r.(orderDate := o.orderDate) == o
  {
    if TruthyString(o.orderDate) then o else o.(orderDate := Some(now))
  }

  /** The request `updateOrderStatus` sends: the order's id and the status's
      enumeration value. */
  datatype StatusRequest = StatusRequest(orderId: int, newStatus: int)

  class OrderDetails {
    var orderId: JsNumber
    var order: Option<Order>
    var loading: bool
    var error: Option<string>
    var showAdditionalDetails: bool
    var showAllDetails: bool

    constructor ()
      ensures orderId == Finite(0) && order == None && !loading && error == None
      ensures !showAdditionalDetails && !showAllDetails
    {
      orderId := Finite(0);
      order := None;
      loading := false;
      error := None;
      showAdditionalDetails := false;
      showAllDetails := false;
    }

    /** The route-parameter handler: keep the id, and load when it is a
        non-zero number; otherwise report an invalid id. */
    method OnRouteParams(idParam: JsNumber) returns (loadStarted: bool)
      modifies this`orderId, this`loading, this`error
      ensures orderId == idParam
      ensures loadStarted <==> idParam.Truthy()
      ensures loadStarted ==> loading && error == None
      ensures !loadStarted ==> loading == old(loading) && error == Some(InvalidIdMessage)
    {
      orderId := idParam;
      if orderId.Truthy() {
        LoadOrderDetails();
        loadStarted := true;
      } else {
        error := Some(InvalidIdMessage);
        loadStarted := false;
      }
    }

    /** Start loading: the request itself is the caller's; its outcome comes
        back through `OnOrdersLoaded`. */
    method LoadOrderDetails()
      modifies this`loading, this`error
      ensures loading && error == None
    {
      loading := true;
      error := None;
    }

    /** The outcome of the orders request. */
    method OnOrdersLoaded(resp: Response<OrdersPayload>, now: string)
      modifies this`order, this`error, this`loading
      ensures !loading
      ensures resp.Failed? ==> order == old(order) && error == Some(resp.message)
      ensures resp.Ok? && OrdersFromBody(resp.body).None? ==>
                order == old(order) && error == Some(UnexpectedShapeMessage)
      ensures resp.Ok? && OrdersFromBody(resp.body).Some? ==>
                var found := FindOrder(OrdersFromBody(resp.body).value, orderId);
                (found.None? ==> order == None && error == Some(NotFoundMessage)) &&
                (found.Some? ==> order == Some(WithDefaultDate(found.value, now)) && error == old(error))
    {
      match resp
      case Failed(message) =>
        error := Some(message);
        loading := false;
      case Ok(body) =>
        var orders := OrdersFromBody(body);
        if orders.None? {
          error := Some(UnexpectedShapeMessage);
          loading := false;
        } else {
          var found := FindOrder(orders.value, orderId);
          if found.None? {
            order := None;
            error := Some(NotFoundMessage);
          } else {
            order := Some(WithDefaultDate(found.value, now));
          }
          loading := false;
        }
    }

    method ToggleAdditionalDetails()
      modifies this`showAdditionalDetails
      ensures showAdditionalDetails == !old(showAdditionalDetails)
    {
      showAdditionalDetails := !showAdditionalDetails;
    }

    method ToggleAllDetails()
      modifies this`showAllDetails
      ensures showAllDetails == !old(showAllDetails)
    {
      showAllDetails := !showAllDetails;
    }

    /** The request `updateOrderStatus` sends, if any: none without a loaded
        order. Any status name is accepted; there is no transition check. */
    method UpdateOrderStatus(newStatus: string) returns (req: Option<StatusRequest>)
      ensures req.None? <==> order.None?
      ensures req.Some? ==> req.value.orderId == order.value.orderId &&
                            0 <= req.value.newStatus < |ApiStatusOrder| &&
                            ApiStatusOrder[req.value.newStatus] == (if IsKnownStatus(newStatus) then newStatus else "Ordered")
    {
      if order.None? {
        return None;
      }
      req := Some(StatusRequest(order.value.orderId, StatusEnumValue(newStatus)));
    }

    /** The outcome of the status update: on success the loaded order, if
        any, takes the new status name and nothing else about it changes. */
    method OnStatusUpdated(newStatus: string, ok: bool)
      modifies this`order
      ensures !ok || old(order).None? ==> order == old(order)
      ensures ok && old(order).Some? ==>
                order.Some? && order.value.status == newStatus &&
                order.value.(status := old(order).value.status) == old(order).value
    {
      if ok && order.Some? {
        order := Some(order.value.(status := newStatus));
      }
    }
  }

  /** Toggling a panel twice leaves it as it was, and leaves the other alone. */
  method ToggleTwiceRestores(v: OrderDetails)
    modifies v
    ensures v.showAdditionalDetails == old(v.showAdditionalDetails)
    ensures v.showAllDetails == old(v.showAllDetails)
    ensures v.order == old(v.order) && v.orderId == old(v.orderId)
  {
    v.ToggleAdditionalDetails();
    v.ToggleAdditionalDetails();
    assert v.showAllDetails == old(v.showAllDetails);
    v.ToggleAllDetails();
    assert v.showAllDetails == !old(v.showAllDetails);
    v.ToggleAllDetails();
  }
}
