/** The dashboard home view: the warehouse's order list, reloaded on demand
    and patched in place when the order-detail view reports an update. */
module HomePage {
  import opened Common
  import opened Orders
  import OrderDetailsPage

  /** The Arabic label of a status name; any other string is shown as it is.
      The home view keeps its own copy of the table. */
  function OrderStatusText(status: string): (r: string)
    ensures !IsKnownStatus(status) ==> r == status
    ensures r == OrderDetailsPage.OrderStatusText(status)
  {
    match status
    case "Ordered" => "تم الطلب"
    case "Preparing" => "قيد التحضير"
    case "Delivering" => "قيد التوصيل"
    case "Delivered" => "تم التوصيل"
    case "Cancelled" => "ملغي"
    case "Returned" => "مرتجع"
    case _ => status
  }

  /** What `fetchSingleOrder` resolves to for a given body of the orders
      endpoint: the first order with the id when the body is a bare array.
      For any other shape `data.find` is not a function and the promise
      rejects, so the update handler writes nothing; that is `None` here too. */
  function FetchSingleOrder(body: OrdersPayload, orderId: int): (r: Option<Order>)
    ensures r.Some? ==> body.ArrayBody? && r.value in body.items && r.value.orderId == orderId
    ensures body.ArrayBody? && r.None? ==> forall o :: o in body.items ==> o.orderId != orderId
    ensures body.ArrayBody? && (exists o :: o in body.items && o.orderId == orderId) ==> r.Some?
    ensures r.Some? ==> exists k :: 0 <= k < |body.items| && body.items[k] == r.value &&
                                    forall j :: 0 <= j < k ==> body.items[j].orderId != orderId
  {
    match body
    case ArrayBody(items) => FindOrder(items, Finite(orderId))
    case _ => None
  }

  /** The list as `fetchOrders` sets it from a successful body: the array it
      finds there, or the empty list for any other shape. */
  function OrdersOrEmpty(body: OrdersPayload): (r: seq<Order>)
    ensures body.ObjectBody? && body.result.Some? ==> r == body.result.value
    ensures body.ArrayBody? ==> r == body.items
    ensures body.ScalarBody? || body == ObjectBody(None) ==> r == []
  {
    OrdersFromBody(body).GetOr([])
  }

  datatype Tab = Medicines | OrdersTab

  class Home {
    /** Whether the view runs in a browser (and not during server-side rendering). */
    const isBrowser: bool
    var orders: seq<Order>
    var loading: bool
    var error: Option<string>
    var activeTab: Tab

    constructor (isBrowser: bool)
      ensures this.isBrowser == isBrowser
      ensures orders == [] && !loading && error == None && activeTab == Medicines
    {
      this.isBrowser := isBrowser;
      orders := [];
      loading := false;
      error := None;
      activeTab := Medicines;
    }

    /** Initial load, in a browser only. */
    method NgOnInit() returns (fetchStarted: bool)
      modifies this`loading, this`error
      ensures fetchStarted == isBrowser
      ensures isBrowser ==> loading && error == None
      ensures !isBrowser ==> loading == old(loading) && error == old(error)
    {
      fetchStarted := false;
      if isBrowser {
        fetchStarted := FetchOrders();
      }
    }

    /** Start `fetchOrders`: outside a browser it only clears `loading`. */
    method FetchOrders() returns (started: bool)
      modifies this`loading, this`error
      ensures started == isBrowser
      ensures started ==> loading && error == None
      ensures !started ==> !loading && error == old(error)
    {
      if !isBrowser {
        loading := false;
        return false;
      }
      loading := true;
      error := None;
      started := true;
    }

    /** The outcome of the orders request: the list is replaced on success and
        kept on failure; `loading` ends false either way. */
    method OnOrdersFetched(resp: Response<OrdersPayload>)
      modifies this`orders, this`loading, this`error
      ensures !loading
      ensures resp.Ok? ==> orders == OrdersOrEmpty(resp.body) && error == old(error)
      ensures resp.Failed? ==> orders == old(orders) && error == Some(resp.message)
    {
      match resp
      case Ok(body) =>
        orders := OrdersOrEmpty(body);
        loading := false;
      case Failed(message) =>
        error := Some(message);
        loading := false;
    }

    /** The "order updated" handler: when the order is in the list, the order
        `fetchSingleOrder` came back with (if any) replaces it at its position;
        when it is not, the whole list is reloaded. */
    method OnOrderUpdated(orderId: int, fetched: Option<Order>) returns (reloadStarted: bool)
      modifies this`orders, this`loading, this`error
      ensures var index := FindIndex((o: Order) => o.orderId == orderId, old(orders));
              index != -1 ==>
                !reloadStarted && loading == old(loading) && error == old(error) &&
                |orders| == |old(orders)| &&
                (forall j :: 0 <= j < |orders| && j != index ==> orders[j] == old(orders)[j]) &&
                orders[index] == (if fetched.Some? then fetched.value else old(orders)[index])
      ensures (forall o :: o in old(orders) ==> o.orderId != orderId) ==>
                orders == old(orders) && reloadStarted == isBrowser &&
                (isBrowser ==> loading && error == None) &&
                (!isBrowser ==> !loading && error == old(error))
    {
      var index := FindIndex((o: Order) => o.orderId == orderId, orders);
      if index != -1 {
        if fetched.Some? {
          orders := orders[index := fetched.value];
        }
        reloadStarted := false;
      } else {
        reloadStarted := FetchOrders();
      }
    }

    /** Switch tabs; only the orders tab reloads. */
    method SetActiveTab(tab: Tab) returns (fetchStarted: bool)
      modifies this`activeTab, this`loading, this`error
      ensures activeTab == tab
      ensures fetchStarted <==> tab == OrdersTab && isBrowser
      ensures tab != OrdersTab ==> loading == old(loading) && error == old(error)
      ensures tab == OrdersTab && isBrowser ==> loading && error == None
      ensures tab == OrdersTab && !isBrowser ==> !loading && error == old(error)
    {
      activeTab := tab;
      fetchStarted := false;
      if tab == OrdersTab {
        fetchStarted := FetchOrders();
      }
    }
  }
}
