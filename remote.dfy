/** The remote commerce API, seen only as the calls the storefront issues
    and whether each one resolves or rejects. HTTP, headers and bodies are
    not modelled. */
module Remote {
  import opened Common
  import opened Entities

  datatype Call =
    | ViewInit
    | ClearCart
    | AddToCart(variantId: string, quantity: int)
    | ConvertCart
    | CreateAddress(address: Address)
    | DeleteAddress(addressId: string)
    | SetCartAddress(addressId: string)
    | SetCartCard(cardId: string)
    | AddSubscription(variantId: string, quantity: int)
    | CancelSubscription(subscriptionId: string)
    | GetSubscriptions
    | GetOrders

  /** The outcome the backend gives to the `i`-th call from now; calls past
      the end of the script resolve. */
  function OutcomeAt(script: seq<Outcome>, i: nat): Outcome {
    if i < |script| then script[i] else Pass
  }

  /** The script once one call has been answered. */
  function Rest(script: seq<Outcome>): seq<Outcome> {
    if script == [] then [] else script[1..]
  }

  lemma RestShifts(script: seq<Outcome>, i: nat)
    ensures OutcomeAt(Rest(script), i) == OutcomeAt(script, i + 1)
  {
  }

  /** What a run of awaited calls does: the calls actually issued, and
      whether every one of them resolved. */
  datatype Trace = Trace(issued: seq<Call>, completed: bool)

  /** Issue `calls` one after another, each awaiting the previous one; the
      first rejection ends the run and no later call is issued. */
  function Run(calls: seq<Call>, script: seq<Outcome>): Trace {
    if calls == [] then Trace([], true)
    else if OutcomeAt(script, 0).Fail? then Trace([calls[0]], false)
    else
      var t := Run(calls[1..], Rest(script));
      Trace([calls[0]] + t.issued, t.completed)
  }

  /** A run completes exactly when none of its calls is answered with a
      rejection, and then every call is issued. */
  lemma {:induction false} RunCompletes(calls: seq<Call>, script: seq<Outcome>)
    ensures Run(calls, script).completed <==>
            forall j :: 0 <= j < |calls| ==> OutcomeAt(script, j).Pass?
    ensures Run(calls, script).completed ==> Run(calls, script).issued == calls
  {
    if calls != [] && OutcomeAt(script, 0).Pass? {
      RunCompletes(calls[1..], Rest(script));
      assert calls == [calls[0]] + calls[1..];
      if Run(calls, script).completed {
        forall j | 0 <= j < |calls| ensures OutcomeAt(script, j).Pass? {
          if j > 0 {
            RestShifts(script, j - 1);
          }
        }
      } else {
        var j :| 0 <= j < |calls| - 1 && OutcomeAt(Rest(script), j).Fail?;
        RestShifts(script, j);
      }
    }
  }

  /** A run issues a prefix of its calls. When it fails, the last call issued
      is the one that was rejected, every earlier one resolved, and nothing
      after it was issued. */
  lemma {:induction false} RunStopsAtFirstRejection(calls: seq<Call>, script: seq<Outcome>)
    ensures var t := Run(calls, script);
      && |t.issued| <= |calls|
      && t.issued == calls[..|t.issued|]
      && (!t.completed ==>
            && |t.issued| > 0
            && OutcomeAt(script, |t.issued| - 1).Fail?
            && forall j :: 0 <= j < |t.issued| - 1 ==> OutcomeAt(script, j).Pass?)
  {
    if calls != [] && OutcomeAt(script, 0).Pass? {
      RunStopsAtFirstRejection(calls[1..], Rest(script));
      var t := Run(calls[1..], Rest(script));
      assert calls[..|t.issued| + 1] == [calls[0]] + calls[1..][..|t.issued|];
      forall j | 1 <= j <= |t.issued|
        ensures OutcomeAt(script, j) == OutcomeAt(Rest(script), j - 1)
      {
        RestShifts(script, j - 1);
      }
    }
  }

  /** The backend: the calls issued so far, in order, and the outcomes it
      will give to the next calls. */
  class Backend {
    var log: seq<Call>
    var script: seq<Outcome>

    constructor (script: seq<Outcome>)
      ensures this.log == [] && this.script == script
    {
      this.log := [];
      this.script := script;
    }

    /** Issue one call and await its outcome. */
    method Send(c: Call) returns (o: Outcome)
      modifies this
      ensures log == old(log) + [c]
      ensures o == OutcomeAt(old(script), 0)
      ensures script == Rest(old(script))
    {
      log := log + [c];
      o := OutcomeAt(script, 0);
      script := Rest(script);
    }
  }
}
