/** No subscriber ever misses, repeats or reorders an event, under every interleaving. */
module DeliveryProps {
  import opened Base
  import opened Rounds
  import opened Topology
  import opened Streams
  import opened ExecutionModel
  import opened ExecutionRuns

  function PlainPending(w: World): seq<SinkId> {
    if w.flight.Some? then w.flight.value.f.sinks else []
  }

  function PlainMessage(w: World): seq<MaskedEvent> {
    if w.flight.Some? then [w.flight.value.f.event] else []
  }

  function AssignedPending(w: World): seq<SinkId> {
    if w.flight.Some? then w.flight.value.f.assignedSinks else []
  }

  function AssignedMessage(w: World): seq<AssignedMasked> {
    if w.flight.Some? then w.flight.value.f.tagged else []
  }

  function Done(w: World): map<SinkId, bool> {
    if w.flight.Some? then w.flight.value.done else map[]
  }

  /** The send of the submission in flight to `s` has succeeded. */
  predicate Reaches(w: World, s: SinkId) {
    s in Done(w) && Done(w)[s]
  }

  ghost predicate ReservedOk(w: World) {
    StreamOk(w.reservedWire, w.e.reservedStream, [], [], map[], w.nextSink, true)
  }

  ghost predicate AssignedReservedOk(w: World) {
    StreamOk(w.assignedReservedWire, w.e.assignedReservedStream, [], [], map[], w.nextSink, false)
  }

  ghost predicate MaskedOk(w: World) {
    StreamOk(w.maskedWire, w.e.maskedStream, PlainPending(w), PlainMessage(w), Done(w), w.nextSink, true)
  }

  ghost predicate AssignedMaskedOk(w: World) {
    && StreamOk(w.assignedMaskedWire, w.e.assignedMaskedStream, AssignedPending(w), AssignedMessage(w), Done(w),
                w.nextSink, false)
    && (AssignedMessage(w) == [] ==> AssignedPending(w) == [])
  }

  ghost predicate DeliveryOk(w: World) {
    ReservedOk(w) && AssignedReservedOk(w) && MaskedOk(w) && AssignedMaskedOk(w)
  }

  // ---------------------------------------------------------------- one lemma per kind of step

  lemma {:induction false} VoteKeeps(c: Config, w: World, party: Identity, next: Round)
    requires ValidConfig(c) && Sized(w.e) && DeliveryOk(w)
    ensures DeliveryOk(StepVote(c, w, party, next))
  {
    hide StreamOk, Advance, Notify;
    AdvanceFrame(w.e.(votes := w.e.votes[next := Votes(w.e, next) + {party}]), TransitionQuorum(c), c.nodes[0]);
  }

  lemma {:induction false} ReserveKeeps(w: World, client: Identity, indices: seq<u64>, delivered: set<SinkId>)
    requires Sized(w.e) && DeliveryOk(w)
    ensures DeliveryOk(StepReserve(w, client, indices, delivered))
  {
    hide StreamOk, CheckReserve, AssignedReservations, ApplyReserved, Kept, SendAll;
    if Reserve(w.e, client, indices, delivered).0.Ok? {
      StreamBroadcast(w.reservedWire, w.e.reservedStream, w.nextSink, true, [ReservedEvent(client, indices)],
                      delivered);
      var tagged := AssignedReservations(w.e.slots, client, indices);
      if tagged != [] {
        StreamBroadcast(w.assignedReservedWire, w.e.assignedReservedStream, w.nextSink, false, tagged, delivered);
      }
    }
  }

  lemma {:induction false} PlainSubmit(w: World, client: Identity, inputs: seq<Bytes>, indices: seq<u64>)
    requires Sized(w.e) && w.flight.None? && MaskedOk(w)
    ensures MaskedOk(StepSubmit(w, client, inputs, indices))
  {
    hide StreamOk, CheckSubmit, AssignedInputs, ApplyMasked, Zip;
    var r := SubmitBegin(w.e, client, inputs, indices);
    if r.0.Ok? {
      StreamTake(w.maskedWire, w.e.maskedStream, w.nextSink, true, [r.0.value.event]);
    }
  }

  lemma {:induction false} AssignedSubmit(w: World, client: Identity, inputs: seq<Bytes>, indices: seq<u64>)
    requires Sized(w.e) && w.flight.None? && AssignedMaskedOk(w)
    ensures AssignedMaskedOk(StepSubmit(w, client, inputs, indices))
  {
    hide StreamOk, CheckSubmit, AssignedInputs, ApplyMasked, Zip;
    var r := SubmitBegin(w.e, client, inputs, indices);
    if r.0.Ok? && r.0.value.tagged != [] {
      StreamTake(w.assignedMaskedWire, w.e.assignedMaskedStream, w.nextSink, false, r.0.value.tagged);
    }
  }

  lemma {:induction false} SubmitKeeps(w: World, client: Identity, inputs: seq<Bytes>, indices: seq<u64>)
    requires Sized(w.e) && DeliveryOk(w)
    ensures DeliveryOk(StepSubmit(w, client, inputs, indices))
  {
    hide StreamOk, CheckSubmit, AssignedInputs, ApplyMasked, Zip;
    if w.flight.None? {
      PlainSubmit(w, client, inputs, indices);
      AssignedSubmit(w, client, inputs, indices);
    }
  }

  lemma {:induction false} SendDoneKeeps(w: World, sink: SinkId, ok: bool)
    requires DeliveryOk(w)
    ensures DeliveryOk(StepSendDone(w, sink, ok))
  {
    hide StreamOk;
    if w.flight.Some? {
      var fl := w.flight.value;
      if sink !in fl.done && (sink in fl.f.sinks || sink in fl.f.assignedSinks) {
        PlainSendDone(w, fl, sink, ok);
        AssignedSendDone(w, fl, sink, ok);
      }
    }
  }

  lemma {:induction false} PlainSendDone(w: World, fl: InFlight, sink: SinkId, ok: bool)
    requires MaskedOk(w) && w.flight == Some(fl) && sink !in fl.done
    requires sink in fl.f.sinks || sink in fl.f.assignedSinks
    ensures MaskedOk(StepSendDone(w, sink, ok))
  {
    hide StreamOk;
    if sink !in fl.f.sinks {
      StreamDoneElsewhere(w.maskedWire, w.e.maskedStream, fl.f.sinks, [fl.f.event], fl.done, w.nextSink, true, sink,
                          ok);
    } else if ok {
      StreamDelivered(w.maskedWire, w.e.maskedStream, fl.f.sinks, [fl.f.event], fl.done, w.nextSink, true, sink);
    } else {
      StreamDeliveryFailed(w.maskedWire, w.e.maskedStream, fl.f.sinks, [fl.f.event], fl.done, w.nextSink, true, sink);
    }
  }

  lemma {:induction false} AssignedSendDone(w: World, fl: InFlight, sink: SinkId, ok: bool)
    requires AssignedMaskedOk(w) && w.flight == Some(fl) && sink !in fl.done
    requires sink in fl.f.sinks || sink in fl.f.assignedSinks
    ensures AssignedMaskedOk(StepSendDone(w, sink, ok))
  {
    hide StreamOk;
    var st := w.e.assignedMaskedStream;
    if sink !in fl.f.assignedSinks {
      StreamDoneElsewhere(w.assignedMaskedWire, st, fl.f.assignedSinks, fl.f.tagged, fl.done, w.nextSink, false, sink,
                          ok);
    } else if ok {
      StreamDelivered(w.assignedMaskedWire, st, fl.f.assignedSinks, fl.f.tagged, fl.done, w.nextSink, false, sink);
    } else {
      StreamDeliveryFailed(w.assignedMaskedWire, st, fl.f.assignedSinks, fl.f.tagged, fl.done, w.nextSink, false, sink);
    }
  }

  lemma {:induction false} RestoreKeeps(c: Config, w: World)
    requires ValidConfig(c) && Sized(w.e) && DeliveryOk(w)
    ensures DeliveryOk(StepRestore(c, w))
  {
    hide StreamOk, Advance, Notify, Kept;
    if w.flight.Some? && AllSent(w.flight.value) {
      var fl := w.flight.value;
      AdvanceFrame(Restored(w.e, fl.f, Reached(fl)), TransitionQuorum(c), c.nodes[0]);
      StreamRestore(w.maskedWire, w.e.maskedStream, fl.f.sinks, [fl.f.event], fl.done, w.nextSink, true, Reached(fl));
      StreamRestore(w.assignedMaskedWire, w.e.assignedMaskedStream, fl.f.assignedSinks, fl.f.tagged, fl.done,
                    w.nextSink, false, Reached(fl));
    }
  }

  lemma {:induction false} NextSinkKeeps(w: World)
    requires DeliveryOk(w)
    ensures DeliveryOk(w.(nextSink := w.nextSink + 1))
  {
    hide StreamOk;
    var n := w.nextSink;
    StreamBound(w.reservedWire, w.e.reservedStream, [], [], map[], n, n + 1, true);
    StreamBound(w.assignedReservedWire, w.e.assignedReservedStream, [], [], map[], n, n + 1, false);
    StreamBound(w.maskedWire, w.e.maskedStream, PlainPending(w), PlainMessage(w), Done(w), n, n + 1, true);
    StreamBound(w.assignedMaskedWire, w.e.assignedMaskedStream, AssignedPending(w), AssignedMessage(w), Done(w), n,
                n + 1, false);
  }

  lemma {:induction false} WatchRoundKeeps(w: World, r: Round)
    requires DeliveryOk(w)
    ensures DeliveryOk(StepWatchRound(w, r))
  {
    hide StreamOk;
    NextSinkKeeps(w);
  }

  lemma {:induction false} WatchReserved(w: World)
    requires ReservedOk(w)
    ensures ReservedOk(StepWatch(w, ReservedIndices, true))
  {
    hide StreamOk;
    var st := w.e.reservedStream;
    FlattenSingly(st.log);
    StreamSubscribe(w.reservedWire, st, [], [], map[], w.nextSink, true, Singly(st.log));
  }

  lemma {:induction false} WatchAssignedReserved(w: World)
    requires AssignedReservedOk(w)
    ensures AssignedReservedOk(StepWatch(w, AssignedReservedIndices, true))
  {
    hide StreamOk;
    var st := w.e.assignedReservedStream;
    FlattenAsBatch(st.log);
    StreamSubscribe(w.assignedReservedWire, st, [], [], map[], w.nextSink, false, AsBatch(st.log));
  }

  lemma {:induction false} WatchMasked(w: World)
    requires MaskedOk(w)
    ensures MaskedOk(StepWatch(w, MaskedInputs, true))
  {
    hide StreamOk;
    var st := w.e.maskedStream;
    FlattenSingly(st.log);
    StreamSubscribe(w.maskedWire, st, PlainPending(w), PlainMessage(w), Done(w), w.nextSink, true, Singly(st.log));
  }

  lemma {:induction false} WatchAssignedMasked(w: World)
    requires AssignedMaskedOk(w)
    ensures AssignedMaskedOk(StepWatch(w, AssignedMaskedInputs, true))
  {
    hide StreamOk;
    var st := w.e.assignedMaskedStream;
    FlattenAsBatch(st.log);
    StreamSubscribe(w.assignedMaskedWire, st, AssignedPending(w), AssignedMessage(w), Done(w), w.nextSink, false,
                    AsBatch(st.log));
  }

  lemma {:induction false} WatchKeeps(w: World, kind: StreamKind, replayed: bool)
    requires DeliveryOk(w)
    ensures DeliveryOk(StepWatch(w, kind, replayed))
  {
    hide StreamOk;
    NextSinkKeeps(w);
    if replayed {
      match kind
      case ReservedIndices => WatchReserved(w);
      case AssignedReservedIndices => WatchAssignedReserved(w);
      case MaskedInputs => WatchMasked(w);
      case AssignedMaskedInputs => WatchAssignedMasked(w);
    }
  }

  lemma {:induction false} StepKeepsDelivery(c: Config, w: World, a: Action)
    requires ValidConfig(c) && Sized(w.e) && DeliveryOk(w)
    ensures DeliveryOk(Step(c, w, a))
  {
    hide DeliveryOk, StepVote, StepReserve, StepSubmit, StepSendDone, StepRestore, StepWatchRound, StepWatch;
    match a
    case Vote(party, next) => VoteKeeps(c, w, party, next);
    case ReserveBatch(client, indices, delivered) => ReserveKeeps(w, client, indices, delivered);
    case SubmitBatch(client, inputs, indices) => SubmitKeeps(w, client, inputs, indices);
    case SendDone(sink, ok) => SendDoneKeeps(w, sink, ok);
    case SubmitRestore => RestoreKeeps(c, w);
    case WatchRound(r) => WatchRoundKeeps(w, r);
    case Watch(kind, replayed) => WatchKeeps(w, kind, replayed);
  }

  lemma {:induction false} AlwaysDelivered(c: Config, reg: Registration, actions: seq<Action>)
    requires Accepted(c, reg)
    ensures DeliveryOk(After(c, reg, actions))
  {
    assert DeliveryOk(Start(Initial(reg)));
    hide StreamOk, Step;
    if actions != [] {
      var front := actions[..|actions| - 1];
      AlwaysDelivered(c, reg, front);
      StepKeepsDelivery(c, After(c, reg, front), actions[|actions| - 1]);
    }
  }

  /**
   * In every reachable state every registered subscription has been sent exactly its log: message by message on the
   * two plain streams, up to batching on the two assigned streams. A subscription that a submission holds in flight
   * has been sent the log if its send has succeeded, and otherwise the log without the submission. No subscription is
   * registered twice.
   */
  lemma {:induction false} SubscribersSeeTheLog(c: Config, reg: Registration, actions: seq<Action>)
    requires Accepted(c, reg)
    ensures var w := After(c, reg, actions);
      && (forall s :: s in w.e.reservedStream.sinks ==> Received(w.reservedWire, s) == Singly(w.e.reservedStream.log))
      && (forall s :: s in w.e.assignedReservedStream.sinks ==>
            Flatten(Received(w.assignedReservedWire, s)) == w.e.assignedReservedStream.log)
      && (forall s :: s in w.e.maskedStream.sinks ==> Received(w.maskedWire, s) == Singly(w.e.maskedStream.log))
      && (forall s :: s in w.e.assignedMaskedStream.sinks ==>
            Flatten(Received(w.assignedMaskedWire, s)) == w.e.assignedMaskedStream.log)
    ensures var w := After(c, reg, actions);
      w.flight.Some? ==>
        var f, plain, other := w.flight.value.f, w.e.maskedStream.log, w.e.assignedMaskedStream.log;
        && plain != [] && |f.tagged| <= |other|
        && (forall s :: s in f.sinks ==>
              Received(w.maskedWire, s) == Singly(if Reaches(w, s) then plain else plain[..|plain| - 1]))
        && (forall s :: s in f.assignedSinks ==>
              Flatten(Received(w.assignedMaskedWire, s)) == if Reaches(w, s) then other
                else other[..|other| - |f.tagged|])
    ensures var e := After(c, reg, actions).e;
      NoDup(e.reservedStream.sinks) && NoDup(e.assignedReservedStream.sinks) && NoDup(e.maskedStream.sinks)
      && NoDup(e.assignedMaskedStream.sinks)
  {
    AlwaysDelivered(c, reg, actions);
    var w := After(c, reg, actions);
    forall s | s in w.e.reservedStream.sinks ensures Received(w.reservedWire, s) == Singly(w.e.reservedStream.log) {
      SingleMessages(Received(w.reservedWire, s));
    }
    forall s | s in w.e.maskedStream.sinks || s in PlainPending(w)
      ensures Received(w.maskedWire, s) == Singly(Flatten(Received(w.maskedWire, s)))
    {
      SingleMessages(Received(w.maskedWire, s));
    }
    NoDupParts(w.e.reservedStream.sinks, []);
    NoDupParts(w.e.assignedReservedStream.sinks, []);
    NoDupParts(w.e.maskedStream.sinks, PlainPending(w));
    NoDupParts(w.e.assignedMaskedStream.sinks, AssignedPending(w));
  }
}
