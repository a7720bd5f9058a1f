/**
 * Runs of one execution: every interleaving of the handlers' lock sections with the sends between them.
 *
 * A submission holds the execution's delivery guard from its first lock section to its second; while it does, no
 * other submission and no vote can take its lock section. Everything else may run in between. A step that the
 * guard or the protocol makes impossible leaves the world as it is.
 */
module ExecutionRuns {
  import opened Base
  import opened Rounds
  import opened Topology
  import opened Streams
  import opened ExecutionModel

  datatype RoundNote = RoundNote(round: Round, event: RoundEvent)

  /** A submission between its two lock sections, with the sends that have finished and how. */
  datatype InFlight = InFlight(f: Flight, done: map<SinkId, bool>)

  /** The execution, the submission in flight, and what every subscription has been sent. */
  datatype World = World(
    e: Exec,
    flight: Option<InFlight>,
    nextSink: SinkId,
    reservedWire: Wire<ReservedEvent>,
    assignedReservedWire: Wire<AssignedReservation>,
    maskedWire: Wire<MaskedEvent>,
    assignedMaskedWire: Wire<AssignedMasked>,
    roundWire: Wire<RoundNote>,
    roundSubs: map<SinkId, Round>)

  datatype Action =
    | Vote(party: Identity, next: Round)
    | ReserveBatch(client: Identity, indices: seq<u64>, delivered: set<SinkId>)
    | SubmitBatch(client: Identity, inputs: seq<Bytes>, indices: seq<u64>)
    | SendDone(sink: SinkId, ok: bool)
    | SubmitRestore
    | WatchRound(round: Round)
    | Watch(kind: StreamKind, replayed: bool)

  predicate Sized(e: Exec) {
    |e.reserved| == |e.masked| == e.reg.nInputs
  }

  function Start(e: Exec): World {
    World(e, None, 0, map[], map[], map[], map[], map[], map[])
  }

  /** The sends of `deliver_transitions`. */
  function Notify(w: Wire<RoundNote>, ds: seq<Delivery>): Wire<RoundNote>
    decreases |ds|
  {
    if ds == [] then w
    else
      var d := ds[0];
      Notify(SendAll(w, d.sinks, [RoundNote(d.round, d.event)]), ds[1..])
  }

  lemma {:induction false} AdvanceFrame(e: Exec, quorum: nat, head: Identity)
    ensures var a := Advance(e, quorum, head).0;
      a == e.(round := a.round, events := a.events, roundSinks := a.roundSinks)
    decreases 6 - RoundIndex(e.round)
  {
    NextIsLater(e, quorum);
    var next := NextQuorumRound(e, quorum);
    if next.Some? && !Blocked(e, next.value) {
      AdvanceFrame(Transition(e, next.value, head), quorum, head);
    }
  }

  function StepVote(c: Config, w: World, party: Identity, next: Round): (w': World)
    requires ValidConfig(c) && Sized(w.e)
    ensures Sized(w'.e)
  {
    if w.flight.Some? then w
    else
      var r := Propose(c, w.e, party, next);
      AdvanceFrame(w.e.(votes := w.e.votes[next := Votes(w.e, next) + {party}]), TransitionQuorum(c), c.nodes[0]);
      w.(e := r.1, roundWire := Notify(w.roundWire, r.2))
  }

  function StepReserve(w: World, client: Identity, indices: seq<u64>, delivered: set<SinkId>): (w': World)
    requires Sized(w.e)
    ensures Sized(w'.e)
    ensures w'.flight == w.flight
  {
    var r := Reserve(w.e, client, indices, delivered);
    if r.0.Err? then w
    else
      var tagged := AssignedReservations(w.e.slots, client, indices);
      w.(e := r.1,
         reservedWire := SendAll(w.reservedWire, Kept(w.e.reservedStream.sinks, delivered),
                                 [ReservedEvent(client, indices)]),
         assignedReservedWire :=
           if tagged == [] then w.assignedReservedWire
           else SendAll(w.assignedReservedWire, Kept(w.e.assignedReservedStream.sinks, delivered), tagged))
  }

  function StepSubmit(w: World, client: Identity, inputs: seq<Bytes>, indices: seq<u64>): (w': World)
    requires Sized(w.e)
    ensures Sized(w'.e)
  {
    if w.flight.Some? then w
    else
      var r := SubmitBegin(w.e, client, inputs, indices);
      if r.0.Err? then w else w.(e := r.1, flight := Some(InFlight(r.0.value, map[])))
  }

  /** One send of the submission in flight finishes. */
  function StepSendDone(w: World, sink: SinkId, ok: bool): (w': World)
    ensures w'.e == w.e
    ensures w'.flight.None? <==> w.flight.None?
  {
    if w.flight.None? then w
    else
      var fl := w.flight.value;
      if sink in fl.done || (sink !in fl.f.sinks && sink !in fl.f.assignedSinks) then w
      else
        w.(flight := Some(fl.(done := fl.done[sink := ok])),
           maskedWire := if ok && sink in fl.f.sinks then SendAll(w.maskedWire, [sink], [fl.f.event]) else w.maskedWire,
           assignedMaskedWire :=
             if ok && sink in fl.f.assignedSinks then SendAll(w.assignedMaskedWire, [sink], fl.f.tagged)
             else w.assignedMaskedWire)
  }

  function Reached(fl: InFlight): set<SinkId> {
    set s | s in fl.done && fl.done[s]
  }

  predicate AllSent(fl: InFlight) {
    (forall s :: s in fl.f.sinks ==> s in fl.done) && (forall s :: s in fl.f.assignedSinks ==> s in fl.done)
  }

  function StepRestore(c: Config, w: World): (w': World)
    requires ValidConfig(c) && Sized(w.e)
    ensures Sized(w'.e)
  {
    if w.flight.None? || !AllSent(w.flight.value) then w
    else
      var fl := w.flight.value;
      var r := SubmitEnd(w.e, fl.f, Reached(fl), TransitionQuorum(c), c.nodes[0]);
      AdvanceFrame(Restored(w.e, fl.f, Reached(fl)), TransitionQuorum(c), c.nodes[0]);
      w.(e := r.0, flight := None, roundWire := Notify(w.roundWire, r.1))
  }

  function StepWatchRound(w: World, r: Round): (w': World)
    ensures Sized(w.e) ==> Sized(w'.e)
    ensures w'.flight == w.flight
  {
    if r == Idle then w
    else
      var s := SubscribeRound(w.e, w.nextSink, r);
      w.(e := s.1, nextSink := w.nextSink + 1, roundSubs := w.roundSubs[w.nextSink := r],
         roundWire := if s.0.None? then w.roundWire else SendAll(w.roundWire, [w.nextSink], [RoundNote(r, s.0.value)]))
  }

  /** A subscription whose replay fails is dropped; otherwise it is registered in the same lock section. */
  function StepWatch(w: World, kind: StreamKind, replayed: bool): (w': World)
    ensures Sized(w.e) ==> Sized(w'.e)
    ensures w'.flight == w.flight
  {
    var s, e, w1 := w.nextSink, w.e, w.(nextSink := w.nextSink + 1);
    if !replayed then w1
    else
      var w2 := w1.(e := Subscribe(e, kind, s));
      match kind
      case ReservedIndices => w2.(reservedWire := w.reservedWire[s := Singly(e.reservedStream.log)])
      case AssignedReservedIndices =>
        w2.(assignedReservedWire := w.assignedReservedWire[s := AsBatch(e.assignedReservedStream.log)])
      case MaskedInputs => w2.(maskedWire := w.maskedWire[s := Singly(e.maskedStream.log)])
      case AssignedMaskedInputs =>
        w2.(assignedMaskedWire := w.assignedMaskedWire[s := AsBatch(e.assignedMaskedStream.log)])
  }

  function Step(c: Config, w: World, a: Action): (w': World)
    requires ValidConfig(c) && Sized(w.e)
    ensures Sized(w'.e)
  {
    match a
    case Vote(party, next) => StepVote(c, w, party, next)
    case ReserveBatch(client, indices, delivered) => StepReserve(w, client, indices, delivered)
    case SubmitBatch(client, inputs, indices) => StepSubmit(w, client, inputs, indices)
    case SendDone(sink, ok) => StepSendDone(w, sink, ok)
    case SubmitRestore => StepRestore(c, w)
    case WatchRound(r) => StepWatchRound(w, r)
    case Watch(kind, replayed) => StepWatch(w, kind, replayed)
  }

  function Run(c: Config, w: World, actions: seq<Action>): (w': World)
    requires ValidConfig(c) && Sized(w.e)
    ensures Sized(w'.e)
  {
    if actions == [] then w
    else Step(c, Run(c, w, actions[..|actions| - 1]), actions[|actions| - 1])
  }

  /** A registration accepted by this coordinator. */
  ghost predicate Accepted(c: Config, reg: Registration) {
    ValidConfig(c) && New(reg, c.n).Ok?
  }

  /** The world after `actions`, from registration on. */
  function After(c: Config, reg: Registration, actions: seq<Action>): (w: World)
    requires Accepted(c, reg)
    ensures Sized(w.e)
  {
    Run(c, Start(Initial(reg)), actions)
  }

  lemma {:induction false} RunAppend(c: Config, w: World, a: seq<Action>, b: seq<Action>)
    requires ValidConfig(c) && Sized(w.e)
    ensures Run(c, w, a + b) == Run(c, Run(c, w, a), b)
  {
    if b == [] {
      assert a + b == a;
    } else {
      assert (a + b)[..|a + b| - 1] == a + b[..|b| - 1];
      RunAppend(c, w, a, b[..|b| - 1]);
    }
  }
}
