/** The account page's subscription list: refresh, cancel, and the
    `loading` / `error` state around each awaited call. */
module SubscriptionsSection {
  import opened Common
  import opened Entities
  import opened Remote

  const RefreshFallback := "Failed to refresh subscriptions"
  const CancelFallback := "Failed to cancel subscription"

  function HasOtherId(id: string): Subscription -> bool {
    (s: Subscription) => s.id != id
  }

  /** `prev.filter(s => s.id !== id)` */
  function WithoutSubscription(subs: seq<Subscription>, id: string): (r: seq<Subscription>)
    ensures forall s :: s in r <==> s in subs && s.id != id
  {
    forall s | s in subs && s.id != id ensures s in Filter(subs, HasOtherId(id)) {
      FilterKeeps(subs, HasOtherId(id), s);
    }
    Filter(subs, HasOtherId(id))
  }

  /** Cancelling keeps the other subscriptions in their order, and
      cancelling the same id again changes nothing. */
  lemma CancelKeepsOrder(xs: seq<Subscription>, ys: seq<Subscription>, id: string)
    ensures WithoutSubscription(xs + ys, id) == WithoutSubscription(xs, id) + WithoutSubscription(ys, id)
    ensures WithoutSubscription(WithoutSubscription(xs, id), id) == WithoutSubscription(xs, id)
  {
    FilterConcat(xs, ys, HasOtherId(id));
    var once := WithoutSubscription(xs, id);
    forall i | 0 <= i < |once| ensures HasOtherId(id)(once[i]) {
      assert once[i] in once;
    }
    FilterAll(once, HasOtherId(id));
  }

  class SubscriptionsPanel {
    const api: Backend
    var loading: bool
    var error: Option<string>
    var subscriptions: seq<Subscription>

    constructor (api: Backend)
      ensures this.api == api && loading && error == None && subscriptions == []
    {
      this.api := api;
      loading, error, subscriptions := true, None, [];
    }

    /** `getSubscriptions()`; the list becomes the data if it is an array and
        `[]` otherwise; on failure the list is emptied and the error shown. */
    method Refresh(data: Payload<Subscription>)
      modifies this`loading, this`error, this`subscriptions, api
      ensures api.log == old(api.log) + [GetSubscriptions] && api.script == Rest(old(api.script))
      ensures !loading
      ensures OutcomeAt(old(api.script), 0).Pass? ==> subscriptions == AsList(data) && error == None
      ensures OutcomeAt(old(api.script), 0).Fail? ==>
        && subscriptions == []
        && error == Some(MessageOr(OutcomeAt(old(api.script), 0).message, RefreshFallback))
    {
      loading := true;
      error := None;
      var o := api.Send(GetSubscriptions);
      if o.Pass? {
        subscriptions := AsList(data);
      } else {
        error := Some(MessageOr(o.message, RefreshFallback));
        subscriptions := [];
      }
      loading := false;
    }

    /** `cancelSubscription(id)`; without an id nothing happens. On success
        exactly the subscriptions with that id are dropped; on failure the
        list is kept and the error shown. */
    method Cancel(id: string)
      modifies this`loading, this`error, this`subscriptions, api
      ensures id == "" ==>
        && api.log == old(api.log) && api.script == old(api.script)
        && loading == old(loading) && error == old(error) && subscriptions == old(subscriptions)
      ensures id != "" ==>
        && api.log == old(api.log) + [CancelSubscription(id)] && api.script == Rest(old(api.script))
        && !loading
        && (OutcomeAt(old(api.script), 0).Pass? ==>
              subscriptions == WithoutSubscription(old(subscriptions), id) && error == None)
        && (OutcomeAt(old(api.script), 0).Fail? ==>
              && subscriptions == old(subscriptions)
              && error == Some(MessageOr(OutcomeAt(old(api.script), 0).message, CancelFallback)))
    {
      if id == "" {
        return;
      }
      loading := true;
      error := None;
      var o := api.Send(CancelSubscription(id));
      if o.Pass? {
        subscriptions := WithoutSubscription(subscriptions, id);
      } else {
        error := Some(MessageOr(o.message, CancelFallback));
      }
      loading := false;
    }
  }
}
