/** A subscription leaves a stream only when a send to it fails, so an undisturbed subscriber has the whole log. */
module SubscriptionProps {
  import opened Base
  import opened Rounds
  import opened Topology
  import opened Streams
  import opened ExecutionModel
  import opened ExecutionRuns
  import opened DeliveryProps

  /** The send to `s` of the submission in flight has failed. */
  predicate FailedInFlight(fl: InFlight, s: SinkId) {
    s in fl.done && !fl.done[s]
  }

  /** `s` is on the stream: in its list, or held by the submission in flight and not lost there. */
  predicate OnStream(w: World, kind: StreamKind, s: SinkId) {
    match kind
    case ReservedIndices => s in w.e.reservedStream.sinks
    case AssignedReservedIndices => s in w.e.assignedReservedStream.sinks
    case MaskedInputs =>
      || s in w.e.maskedStream.sinks
      || (w.flight.Some? && s in w.flight.value.f.sinks && !FailedInFlight(w.flight.value, s))
    case AssignedMaskedInputs =>
      || s in w.e.assignedMaskedStream.sinks
      || (w.flight.Some? && s in w.flight.value.f.assignedSinks && !FailedInFlight(w.flight.value, s))
  }

  /** The step includes a failed send to `s`. */
  predicate SendFails(a: Action, s: SinkId) {
    match a
    case ReserveBatch(_, _, delivered) => s !in delivered
    case SendDone(sink, ok) => sink == s && !ok
    case _ => false
  }

  /** Nobody leaves a list. */
  ghost predicate MoreLists(e: Exec, e': Exec) {
    && e.reservedStream.sinks <= e'.reservedStream.sinks
      && e.assignedReservedStream.sinks <= e'.assignedReservedStream.sinks
    && e.maskedStream.sinks <= e'.maskedStream.sinks && e.assignedMaskedStream.sinks <= e'.assignedMaskedStream.sinks
  }

  lemma {:induction false} VoteLists(c: Config, w: World, party: Identity, next: Round)
    requires ValidConfig(c) && Sized(w.e)
    ensures MoreLists(w.e, StepVote(c, w, party, next).e) && StepVote(c, w, party, next).flight == w.flight
  {
    hide Advance, Notify, TransitionQuorum;
    AdvanceFrame(w.e.(votes := w.e.votes[next := Votes(w.e, next) + {party}]), TransitionQuorum(c), c.nodes[0]);
    hide ValidConfig;
  }

  lemma {:induction false} ReserveStays(w: World, a: Action, kind: StreamKind, s: SinkId)
    requires Sized(w.e) && a.ReserveBatch? && OnStream(w, kind, s) && !SendFails(a, s)
    ensures OnStream(StepReserve(w, a.client, a.indices, a.delivered), kind, s)
  {
    hide CheckReserve, AssignedReservations, ApplyReserved, SendAll;
  }

  lemma {:induction false} SubmitStays(w: World, a: Action, kind: StreamKind, s: SinkId)
    requires Sized(w.e) && a.SubmitBatch? && OnStream(w, kind, s)
    ensures OnStream(StepSubmit(w, a.client, a.inputs, a.indices), kind, s)
  {
    hide CheckSubmit, AssignedInputs, ApplyMasked, Zip;
  }

  lemma {:induction false} RestoreStays(c: Config, w: World, kind: StreamKind, s: SinkId)
    requires ValidConfig(c) && Sized(w.e) && OnStream(w, kind, s)
    ensures OnStream(StepRestore(c, w), kind, s)
  {
    if w.flight.Some? && AllSent(w.flight.value) {
      var fl := w.flight.value;
      AdvanceFrame(Restored(w.e, fl.f, Reached(fl)), TransitionQuorum(c), c.nodes[0]);
      hide Advance, Notify, ValidConfig, TransitionQuorum;
      assert (s in fl.f.sinks || s in fl.f.assignedSinks) && !FailedInFlight(fl, s) ==> s in Reached(fl);
    }
  }

  lemma {:induction false} SendStays(w: World, a: Action, kind: StreamKind, s: SinkId)
    requires a.SendDone? && OnStream(w, kind, s) && !SendFails(a, s)
    ensures OnStream(StepSendDone(w, a.sink, a.ok), kind, s)
  {
    hide SendAll;
  }

  lemma {:induction false} WatchLists(w: World, kind: StreamKind, replayed: bool)
    ensures MoreLists(w.e, StepWatch(w, kind, replayed).e) && StepWatch(w, kind, replayed).flight == w.flight
  {
    hide Singly, AsBatch;
  }

  lemma {:induction false} SubscribeRoundLists(e: Exec, sink: SinkId, r: Round)
    ensures MoreLists(e, SubscribeRound(e, sink, r).1)
  {
    hide Waiting;
  }

  lemma {:induction false} WatchRoundLists(w: World, r: Round)
    ensures MoreLists(w.e, StepWatchRound(w, r).e) && StepWatchRound(w, r).flight == w.flight
  {
    assert MoreLists(w.e, w.e);
    SubscribeRoundLists(w.e, w.nextSink, r);
    hide SendAll, SubscribeRound, MoreLists;
  }

  lemma {:induction false} ListsStay(w: World, w': World, kind: StreamKind, s: SinkId)
    requires MoreLists(w.e, w'.e) && w'.flight == w.flight && OnStream(w, kind, s)
    ensures OnStream(w', kind, s)
  {
  }

  lemma {:induction false} StepStays(c: Config, w: World, a: Action, kind: StreamKind, s: SinkId)
    requires ValidConfig(c) && Sized(w.e) && OnStream(w, kind, s) && !SendFails(a, s)
    ensures OnStream(Step(c, w, a), kind, s)
  {
    hide StepVote, StepReserve, StepSubmit, StepRestore, StepSendDone, StepWatch, StepWatchRound, OnStream, MoreLists,
      SendFails, ValidConfig, Sized;
    match a
    case Vote(party, next) =>
      VoteLists(c, w, party, next);
      ListsStay(w, StepVote(c, w, party, next), kind, s);
    case ReserveBatch(_, _, _) => ReserveStays(w, a, kind, s);
    case SubmitBatch(_, _, _) => SubmitStays(w, a, kind, s);
    case SubmitRestore => RestoreStays(c, w, kind, s);
    case SendDone(_, _) => SendStays(w, a, kind, s);
    case Watch(watched, replayed) =>
      WatchLists(w, watched, replayed);
      ListsStay(w, StepWatch(w, watched, replayed), kind, s);
    case WatchRound(r) =>
      WatchRoundLists(w, r);
      ListsStay(w, StepWatchRound(w, r), kind, s);
  }

  /** A subscription stays on its stream through every run in which no send to it fails. */
  lemma {:induction false} SubscriptionsStay(c: Config, reg: Registration, before: seq<Action>, later: seq<Action>,
                                             kind: StreamKind, s: SinkId)
    requires Accepted(c, reg) && OnStream(After(c, reg, before), kind, s)
    requires forall k :: 0 <= k < |later| ==> !SendFails(later[k], s)
    ensures OnStream(After(c, reg, before + later), kind, s)
  {
    hide Step, OnStream;
    if later == [] {
      assert before + later == before;
    } else {
      var front := later[..|later| - 1];
      SubscriptionsStay(c, reg, before, front, kind, s);
      assert (before + later)[..|before + later| - 1] == before + front;
      StepStays(c, After(c, reg, before + front), later[|later| - 1], kind, s);
    }
  }

  lemma {:induction false} WatchRegisters(w: World, kind: StreamKind)
    ensures OnStream(StepWatch(w, kind, true), kind, w.nextSink)
  {
    hide Singly, AsBatch;
  }

  /** `s` has been sent exactly the log of its stream, one event per message on the plain streams. */
  ghost predicate HasTheLog(w: World, kind: StreamKind, s: SinkId) {
    match kind
    case ReservedIndices => Received(w.reservedWire, s) == Singly(w.e.reservedStream.log)
    case AssignedReservedIndices => Flatten(Received(w.assignedReservedWire, s)) == w.e.assignedReservedStream.log
    case MaskedInputs => Received(w.maskedWire, s) == Singly(w.e.maskedStream.log)
    case AssignedMaskedInputs => Flatten(Received(w.assignedMaskedWire, s)) == w.e.assignedMaskedStream.log
  }

  lemma {:induction false} OnStreamHasTheLog(c: Config, reg: Registration, actions: seq<Action>, kind: StreamKind,
                                             s: SinkId)
    requires Accepted(c, reg) && After(c, reg, actions).flight.None? && OnStream(After(c, reg, actions), kind, s)
    ensures HasTheLog(After(c, reg, actions), kind, s)
  {
    SubscribersSeeTheLog(c, reg, actions);
    hide After, Singly;
  }

  /**
   * A subscription to any of the four streams, made at any point of any run, to which no send ever fails, has been sent
   * exactly the whole log, from before and after it subscribed, whenever no submission is in flight.
   */
  lemma {:induction false} UndisturbedSubscriberHasTheLog(c: Config, reg: Registration, before: seq<Action>,
                                                          later: seq<Action>, kind: StreamKind)
    requires Accepted(c, reg)
    requires forall k :: 0 <= k < |later| ==> !SendFails(later[k], After(c, reg, before).nextSink)
    requires After(c, reg, before + [Watch(kind, true)] + later).flight.None?
    ensures HasTheLog(After(c, reg, before + [Watch(kind, true)] + later), kind, After(c, reg, before).nextSink)
  {
    var watch, s := Watch(kind, true), After(c, reg, before).nextSink;
    assert (before + [watch])[..|before|] == before;
    WatchRegisters(After(c, reg, before), kind);
    assert After(c, reg, before + [watch]) == StepWatch(After(c, reg, before), kind, true);
    hide After, StepWatch, OnStream, HasTheLog;
    SubscriptionsStay(c, reg, before + [watch], later, kind, s);
    OnStreamHasTheLog(c, reg, before + [watch] + later, kind, s);
  }
}
