/** From the coordinator's subscription to the node's input shares. */
module EndToEnd {
  import opened Base
  import opened Topology
  import opened Streams
  import opened ExecutionModel
  import opened ExecutionRuns
  import opened SubscriptionProps
  import opened ClientInputs
  import opened ClientInputProps

  /**
   * A node that subscribed to the masked inputs at any point of any run, and to which no send failed, obtains from what
   * its own subscription was sent, once all inputs are in and no batch repeated an index, exactly the clients that hold
   * slots and, for each, one unmasked share per slot in ascending order.
   */
  lemma {:induction false} SubscribedNodeGetsEveryInput(c: Config, reg: Registration, before: seq<Action>,
                                                        later: seq<Action>, l: Local)
    requires Accepted(c, reg)
    requires forall k :: 0 <= k < |later| ==> !SendFails(later[k], After(c, reg, before).nextSink)
    requires var w := After(c, reg, before + [Watch(MaskedInputs, true)] + later);
      && w.flight.None? && AllSubmitted(w.e)
      && AllGood(l, w.e.maskedStream.log) && NoRepeatedInput(w.e.maskedStream.log)
    ensures var w := After(c, reg, before + [Watch(MaskedInputs, true)] + later);
      var r := Inputs(l, reg.nInputs, Flatten(Received(w.maskedWire, After(c, reg, before).nextSink)));
      r.Ok? && forall client :: ResultFor(l, w.e, r.value, client)
  {
    var all := before + [Watch(MaskedInputs, true)] + later;
    UndisturbedSubscriberHasTheLog(c, reg, before, later, MaskedInputs);
    FlattenSingly(After(c, reg, all).e.maskedStream.log);
    hide After, Singly, Flatten, AllGood, NoRepeatedInput, AllSubmitted, Inputs, ResultFor, SendFails, New;
    NodeGetsEveryInput(c, reg, all, l);
  }
}
