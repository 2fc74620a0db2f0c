/** The account page's order history and its refresh. */
module OrdersSection {
  import opened Common
  import opened Entities
  import opened Remote

  const LoadFallback := "Failed to load orders"

  class OrdersPanel {
    const api: Backend
    var orders: seq<Order>
    var loading: bool
    var error: Option<string>

    constructor (api: Backend)
      ensures this.api == api && orders == [] && !loading && error == None
    {
      this.api := api;
      orders, loading, error := [], false, None;
    }

    /** `getOrders()`; orders become the data if it is an array and `[]`
        otherwise. On failure the orders are kept and the error shown. */
    method Refresh(data: Payload<Order>)
      modifies this`orders, this`loading, this`error, api
      ensures api.log == old(api.log) + [GetOrders] && api.script == Rest(old(api.script))
      ensures !loading
      ensures OutcomeAt(old(api.script), 0).Pass? ==> orders == AsList(data) && error == None
      ensures OutcomeAt(old(api.script), 0).Fail? ==>
        && orders == old(orders)
        && error == Some(MessageOr(OutcomeAt(old(api.script), 0).message, LoadFallback))
    {
      loading := true;
      error := None;
      var o := api.Send(GetOrders);
      if o.Pass? {
        orders := AsList(data);
      } else {
        error := Some(MessageOr(o.message, LoadFallback));
      }
      loading := false;
    }
  }
}
