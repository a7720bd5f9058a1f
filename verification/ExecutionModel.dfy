/**
 * The state of one execution and, for every request handler, what its lock section does to that state.
 *
 * Retirement acknowledgements and output shares, which never interact with the rest, are modelled in `Registry`
 * and `Outputs`.
 */
module ExecutionModel {
  import opened Base
  import opened Rounds
  import opened Topology
  import opened Assignments
  import opened Streams

  datatype RoundEvent =
    | PreprocessingStarted(designatedParty: Identity)
    | InputMaskReservationStarted
    | InputCollectionStarted
    | MPCStarted
    | OutputSendingStarted
    | ExecutionDone

  datatype ReservedEvent = ReservedEvent(client: Identity, indices: seq<u64>)

  datatype MaskedEvent = MaskedEvent(client: Identity, pairs: seq<(u64, Bytes)>)

  datatype AssignedReservation = AssignedReservation(client: Identity, index: u64, ordinal: u64)

  datatype AssignedMasked = AssignedMasked(client: Identity, index: u64, ordinal: u64, input: Bytes)

  datatype Registration = Registration(
    executionId: ExecutionId, programHash: Bytes, nInputs: u64, outputClients: seq<Identity>,
    assignment: InputAssignment, minOutputShares: u64)

  datatype RegistrationError =
    | ZeroExecutionId | ZeroProgramHash | RangeSumOverflow | RangeTotalMismatch | BadClientIndex | BadOutputQuorum

  datatype RpcError =
    | NotParty | InvalidRound | WrongRound | MismatchedBatchLengths | EmptyBatch | IndexOutOfBounds | BadId
    | MaskedInputAlreadySubmitted | IndexNotReserved | IndexAlreadyReserved | ClientAlreadyReserved
    | UnauthorizedClientIo

  datatype Exec = Exec(
    reg: Registration,
    slots: seq<InputSlot>,
    round: Round,
    votes: map<Round, set<Identity>>,
    events: map<Round, RoundEvent>,
    roundSinks: map<Round, seq<SinkId>>,
    nReserved: nat,
    reserved: seq<Option<Identity>>,
    masked: seq<Option<Bytes>>,
    reservedStream: Stream<ReservedEvent>,
    assignedReservedStream: Stream<AssignedReservation>,
    maskedStream: Stream<MaskedEvent>,
    assignedMaskedStream: Stream<AssignedMasked>)

  // ---------------------------------------------------------------- registration

  predicate KnownClients(a: InputAssignment) {
    forall k :: 0 <= k < |a.ranges| ==> a.ranges[k].clientIndex < |a.clients|
  }

  /** The checks on identifier and hash come first, then the input layout, then the output quorum. */
  function New(reg: Registration, n: u64): Result<Exec, RegistrationError> {
    var ranges := reg.assignment.ranges;
    if IsZero(reg.executionId) then Err(ZeroExecutionId)
    else if IsZero(reg.programHash) then Err(ZeroProgramHash)
    else if Total(ranges) >= 0x1_0000_0000_0000_0000 then Err(RangeSumOverflow)
    else if ranges != [] && reg.nInputs != Total(ranges) then Err(RangeTotalMismatch)
    else if !KnownClients(reg.assignment) then Err(BadClientIndex)
    else if reg.minOutputShares == 0 || reg.minOutputShares > n then Err(BadOutputQuorum)
    else Ok(Initial(reg))
  }

  function Initial(reg: Registration): Exec {
    Exec(reg, Expand(reg.assignment.ranges), Idle, map[], map[], map[], 0,
         seq(reg.nInputs, _ => None), seq(reg.nInputs, _ => None),
         Stream([], []), Stream([], []), Stream([], []), Stream([], []))
  }

  function SlotClient(reg: Registration, slot: InputSlot): Option<Identity> {
    if slot.clientIndex < |reg.assignment.clients| then Some(reg.assignment.clients[slot.clientIndex]) else None
  }

  // ---------------------------------------------------------------- rounds

  function Votes(e: Exec, r: Round): set<Identity> {
    if r in e.votes then e.votes[r] else {}
  }

  /** `next` may follow the current round and enough parties proposed it. */
  predicate Supported(e: Exec, quorum: nat, next: Round) {
    Follows(e.round, next) && next in e.votes && |e.votes[next]| >= quorum
  }

  function FirstSupported(e: Exec, quorum: nat, rounds: seq<Round>): Option<Round> {
    if rounds == [] then None
    else if Supported(e, quorum, rounds[0]) then Some(rounds[0])
    else FirstSupported(e, quorum, rounds[1..])
  }

  function NextQuorumRound(e: Exec, quorum: nat): Option<Round> {
    FirstSupported(e, quorum, ORDERED_ROUNDS)
  }

  predicate AllSubmitted(e: Exec) {
    forall i :: 0 <= i < |e.masked| ==> e.masked[i].Some?
  }

  /** The slots without an input. */
  ghost function Unfilled(masked: seq<Option<Bytes>>): set<nat> {
    set i: nat | i < |masked| && masked[i].None?
  }

  /** Entering `MPCExecution` waits for every masked input, unless it is entered by the skip edge. */
  predicate Blocked(e: Exec, next: Round) {
    next == MPCExecution && !SkipsInputRounds(e.round, next) && !AllSubmitted(e)
  }

  function EventFor(r: Round, head: Identity): RoundEvent
    requires r != Idle
  {
    match r
    case Preprocessing => PreprocessingStarted(head)
    case InputMaskReservation => InputMaskReservationStarted
    case InputCollection => InputCollectionStarted
    case MPCExecution => MPCStarted
    case OutputDistribution => OutputSendingStarted
    case ProgramFinished => ExecutionDone
  }

  /** One applied round: its event and the subscriptions to notify. */
  datatype Delivery = Delivery(round: Round, event: RoundEvent, sinks: seq<SinkId>)

  function Waiting(e: Exec, r: Round): seq<SinkId> {
    if r in e.roundSinks then e.roundSinks[r] else []
  }

  function Transition(e: Exec, next: Round, head: Identity): Exec
    requires next != Idle
  {
    e.(roundSinks := e.roundSinks - {next}, events := e.events[next := EventFor(next, head)], round := next)
  }

  lemma {:induction false} FirstSupportedIs(e: Exec, quorum: nat, rounds: seq<Round>)
    ensures match FirstSupported(e, quorum, rounds)
            case Some(r) => r in rounds && Supported(e, quorum, r)
            case None => forall r :: r in rounds ==> !Supported(e, quorum, r)
  {
    if rounds != [] {
      assert rounds == [rounds[0]] + rounds[1..];
      FirstSupportedIs(e, quorum, rounds[1..]);
    }
  }

  /** The next round, if any, is later than the current one and supported; otherwise no round is supported. */
  lemma {:induction false} NextIsLater(e: Exec, quorum: nat)
    ensures match NextQuorumRound(e, quorum)
            case Some(r) => Supported(e, quorum, r) && r != Idle && RoundIndex(r) > RoundIndex(e.round)
            case None => forall r :: !Supported(e, quorum, r)
  {
    FirstSupportedIs(e, quorum, ORDERED_ROUNDS);
    if NextQuorumRound(e, quorum).None? {
      forall r ensures !Supported(e, quorum, r) {
        if r != Idle { OrderedHasAll(r); }
      }
    }
  }

  lemma {:induction false} OrderedHasAll(r: Round)
    requires r != Idle
    ensures r in ORDERED_ROUNDS
  {
    assert ORDERED_ROUNDS[RoundIndex(r) - 1] == r;
  }

  /** `try_advance`: apply rounds until the next one is absent or blocked. */
  function Advance(e: Exec, quorum: nat, head: Identity): (Exec, seq<Delivery>)
    decreases 6 - RoundIndex(e.round)
  {
    NextIsLater(e, quorum);
    match NextQuorumRound(e, quorum)
    case None => (e, [])
    case Some(next) =>
      if Blocked(e, next) then (e, [])
      else
        var rest := Advance(Transition(e, next, head), quorum, head);
        (rest.0, [Delivery(next, EventFor(next, head), Waiting(e, next))] + rest.1)
  }

  /** The `transition` handler, once it holds the delivery guard. A vote for a passed round is dropped. */
  function Propose(c: Config, e: Exec, party: Identity, next: Round): (Result<(), RpcError>, Exec, seq<Delivery>)
    requires ValidConfig(c)
  {
    if party !in c.nodes then (Err(NotParty), e, [])
    else if next == Idle then (Err(InvalidRound), e, [])
    else if RoundIndex(next) <= RoundIndex(e.round) then (Ok(()), e, [])
    else
      var voted := e.(votes := e.votes[next := Votes(e, next) + {party}]);
      var advanced := Advance(voted, TransitionQuorum(c), c.nodes[0]);
      (Ok(()), advanced.0, advanced.1)
  }

  /** `sub_round`: replay the event of an applied round, otherwise wait for it. */
  function SubscribeRound(e: Exec, sink: SinkId, r: Round): (Option<RoundEvent>, Exec) {
    if r in e.events then (Some(e.events[r]), e)
    else (None, e.(roundSinks := e.roundSinks[r := Waiting(e, r) + [sink]]))
  }

  // ---------------------------------------------------------------- reservations

  function CheckReserveIndex(e: Exec, client: Identity, i: u64): Option<RpcError> {
    if i >= |e.reserved| then Some(IndexOutOfBounds)
    else if e.reserved[i].Some? then Some(IndexAlreadyReserved)
    else if i < |e.slots| && SlotClient(e.reg, e.slots[i]) != Some(client) then Some(UnauthorizedClientIo)
    else None
  }

  /** The error of the first index that fails its check. */
  function FirstReserveError(e: Exec, client: Identity, indices: seq<u64>): Option<RpcError> {
    if indices == [] then None
    else
      var err := CheckReserveIndex(e, client, indices[0]);
      if err.Some? then err else FirstReserveError(e, client, indices[1..])
  }

  lemma {:induction false} ReserveChecked(e: Exec, client: Identity, indices: seq<u64>, i: u64)
    requires FirstReserveError(e, client, indices).None? && i in indices
    ensures CheckReserveIndex(e, client, i).None?
  {
    if i != indices[0] {
      assert indices == [indices[0]] + indices[1..];
      ReserveChecked(e, client, indices[1..], i);
    }
  }

  function CheckReserve(e: Exec, client: Identity, indices: seq<u64>): Option<RpcError> {
    if e.round != InputMaskReservation then Some(WrongRound)
    else if indices == [] then Some(EmptyBatch)
    else if Some(client) in e.reserved then Some(ClientAlreadyReserved)
    else FirstReserveError(e, client, indices)
  }

  /** The reservation table after one reservation event. */
  function ApplyReserved(table: seq<Option<Identity>>, evt: ReservedEvent): (r: seq<Option<Identity>>)
    ensures |r| == |table|
  {
    seq(|table|, i requires 0 <= i < |table| => if i in evt.indices then Some(evt.client) else table[i])
  }

  function AssignedReservations(slots: seq<InputSlot>, client: Identity, indices: seq<u64>): seq<AssignedReservation> {
    if indices == [] then []
    else
      var front, i := AssignedReservations(slots, client, indices[..|indices| - 1]), indices[|indices| - 1];
      if i < |slots| then front + [AssignedReservation(client, i, slots[i].ordinal)] else front
  }

  /** `reserve_mask_indices`. `delivered` are the subscriptions whose send succeeds; the others are pruned. */
  function Reserve(e: Exec, client: Identity, indices: seq<u64>, delivered: set<SinkId>): (Result<(), RpcError>, Exec) {
    var err := CheckReserve(e, client, indices);
    if err.Some? then (Err(err.value), e)
    else
      var evt := ReservedEvent(client, indices);
      var tagged := AssignedReservations(e.slots, client, indices);
      (Ok(()), e.(reserved := ApplyReserved(e.reserved, evt),
                  nReserved := e.nReserved + |indices|,
                  reservedStream := Stream(e.reservedStream.log + [evt], Kept(e.reservedStream.sinks, delivered)),
                  assignedReservedStream :=
                    if tagged == [] then e.assignedReservedStream
                    else Stream(e.assignedReservedStream.log + tagged,
                                Kept(e.assignedReservedStream.sinks, delivered))))
  }

  /** `available_input_masks`: an unsigned subtraction, `None` when it would go below zero. */
  function AvailableInputMasks(e: Exec): Option<nat> {
    if e.nReserved <= |e.masked| then Some(|e.masked| - e.nReserved) else None
  }

  // ---------------------------------------------------------------- masked inputs

  function CheckSubmitIndex(e: Exec, client: Identity, i: u64): Option<RpcError>
    requires |e.reserved| == |e.masked|
  {
    if i >= |e.masked| then Some(IndexOutOfBounds)
    else if e.reserved[i].None? then Some(IndexNotReserved)
    else if e.reserved[i] != Some(client) then Some(BadId)
    else if e.masked[i].Some? then Some(MaskedInputAlreadySubmitted)
    else None
  }

  function FirstSubmitError(e: Exec, client: Identity, indices: seq<u64>): Option<RpcError>
    requires |e.reserved| == |e.masked|
  {
    if indices == [] then None
    else
      var err := CheckSubmitIndex(e, client, indices[0]);
      if err.Some? then err else FirstSubmitError(e, client, indices[1..])
  }

  lemma {:induction false} SubmitChecked(e: Exec, client: Identity, indices: seq<u64>, i: u64)
    requires |e.reserved| == |e.masked| && FirstSubmitError(e, client, indices).None? && i in indices
    ensures CheckSubmitIndex(e, client, i).None?
  {
    if i != indices[0] {
      assert indices == [indices[0]] + indices[1..];
      SubmitChecked(e, client, indices[1..], i);
    }
  }

  function CheckSubmit(e: Exec, client: Identity, inputs: seq<Bytes>, indices: seq<u64>): Option<RpcError>
    requires |e.reserved| == |e.masked|
  {
    if e.round != InputCollection then Some(WrongRound)
    else if |inputs| != |indices| then Some(MismatchedBatchLengths)
    else if indices == [] then Some(EmptyBatch)
    else FirstSubmitError(e, client, indices)
  }

  function Zip(indices: seq<u64>, inputs: seq<Bytes>): (r: seq<(u64, Bytes)>)
    requires |indices| == |inputs|
    ensures |r| == |indices|
    ensures forall k :: 0 <= k < |r| ==> r[k] == (indices[k], inputs[k])
  {
    seq(|indices|, k requires 0 <= k < |indices| => (indices[k], inputs[k]))
  }

  /** The last input a batch gives for slot `i`. */
  function LastInput(pairs: seq<(u64, Bytes)>, i: nat): Option<Bytes> {
    if pairs == [] then None
    else if pairs[|pairs| - 1].0 == i then Some(pairs[|pairs| - 1].1)
    else LastInput(pairs[..|pairs| - 1], i)
  }

  /** The masked-input table after one masked-input event. */
  function ApplyMasked(table: seq<Option<Bytes>>, evt: MaskedEvent): (r: seq<Option<Bytes>>)
    ensures |r| == |table|
  {
    seq(|table|, i requires 0 <= i < |table| =>
      if LastInput(evt.pairs, i).Some? then LastInput(evt.pairs, i) else table[i])
  }

  function AssignedInputs(slots: seq<InputSlot>, client: Identity, pairs: seq<(u64, Bytes)>): seq<AssignedMasked> {
    if pairs == [] then []
    else
      var front, p := AssignedInputs(slots, client, pairs[..|pairs| - 1]), pairs[|pairs| - 1];
      if p.0 < |slots| then front + [AssignedMasked(client, p.0, slots[p.0].ordinal, p.1)] else front
  }

  /** What a submission carries from its first lock section to its second. */
  datatype Flight = Flight(event: MaskedEvent, tagged: seq<AssignedMasked>, sinks: seq<SinkId>,
                           assignedSinks: seq<SinkId>)

  /** First lock section of `submit_masked_inputs`: record the batch and take the subscriptions. */
  function SubmitBegin(e: Exec, client: Identity, inputs: seq<Bytes>,
                       indices: seq<u64>): (Result<Flight, RpcError>, Exec)
    requires |e.reserved| == |e.masked|
  {
    var err := CheckSubmit(e, client, inputs, indices);
    if err.Some? then (Err(err.value), e)
    else
      var evt := MaskedEvent(client, Zip(indices, inputs));
      var tagged := AssignedInputs(e.slots, client, evt.pairs);
      var plain, other := e.maskedStream, e.assignedMaskedStream;
      (Ok(Flight(evt, tagged, plain.sinks, if tagged == [] then [] else other.sinks)),
       e.(masked := ApplyMasked(e.masked, evt),
          maskedStream := Stream(plain.log + [evt], []),
          assignedMaskedStream := if tagged == [] then other else Stream(other.log + tagged, [])))
  }

  /** Second lock section: put back the subscriptions that were reached, then advance. */
  function SubmitEnd(e: Exec, f: Flight, delivered: set<SinkId>, quorum: nat, head: Identity): (Exec, seq<Delivery>) {
    Advance(Restored(e, f, delivered), quorum, head)
  }

  function Restored(e: Exec, f: Flight, delivered: set<SinkId>): Exec {
    e.(maskedStream := e.maskedStream.(sinks := e.maskedStream.sinks + Kept(f.sinks, delivered)),
       assignedMaskedStream :=
         e.assignedMaskedStream.(sinks := e.assignedMaskedStream.sinks + Kept(f.assignedSinks, delivered)))
  }

  // ---------------------------------------------------------------- event streams

  datatype StreamKind = ReservedIndices | AssignedReservedIndices | MaskedInputs | AssignedMaskedInputs

  /** The end of `subscribe_*`, once the history has been replayed: the subscription joins the stream's list. */
  function Subscribe(e: Exec, kind: StreamKind, sink: SinkId): Exec {
    match kind
    case ReservedIndices => e.(reservedStream := Joined(e.reservedStream, sink))
    case AssignedReservedIndices => e.(assignedReservedStream := Joined(e.assignedReservedStream, sink))
    case MaskedInputs => e.(maskedStream := Joined(e.maskedStream, sink))
    case AssignedMaskedInputs => e.(assignedMaskedStream := Joined(e.assignedMaskedStream, sink))
  }

  function Joined<E>(st: Stream<E>, sink: SinkId): Stream<E> {
    st.(sinks := st.sinks + [sink])
  }
}
