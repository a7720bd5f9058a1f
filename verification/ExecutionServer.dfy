/**
 * `CoordinatorExecutionState` as the mutable object it is: its fields, and one method per lock section. Every method
 * is proved to do to `State()` exactly what `ExecutionModel` says.
 */
module ExecutionServer {
  import opened Base
  import opened Rounds
  import opened Topology
  import opened Assignments
  import opened Streams
  import opened ExecutionModel

  /** The sends that succeeded, in order: the loop that puts subscriptions back after a broadcast. */
  method KeepReached(sinks: seq<SinkId>, delivered: set<SinkId>) returns (kept: seq<SinkId>)
    ensures kept == Kept(sinks, delivered)
  {
    kept := [];
    for k := 0 to |sinks|
      invariant kept == Kept(sinks[..k], delivered)
    {
      assert sinks[..k + 1][..k] == sinks[..k];
      if sinks[k] in delivered {
        kept := kept + [sinks[k]];
      }
    }
    assert sinks[..|sinks|] == sinks;
  }

  lemma {:induction false} LastInputPush(pairs: seq<(u64, Bytes)>, p: (u64, Bytes))
    ensures forall i: nat :: LastInput(pairs + [p], i) == if p.0 == i then Some(p.1) else LastInput(pairs, i)
  {
    assert (pairs + [p])[..|pairs|] == pairs;
  }

  lemma {:induction false} AssignedPush(slots: seq<InputSlot>, client: Identity, pairs: seq<(u64, Bytes)>,
                                        p: (u64, Bytes))
    ensures AssignedInputs(slots, client, pairs + [p]) == AssignedInputs(slots, client, pairs)
      + (if p.0 < |slots| then [AssignedMasked(client, p.0, slots[p.0].ordinal, p.1)] else [])
  {
    assert (pairs + [p])[..|pairs|] == pairs;
  }

  lemma {:induction false} ZipPush(indices: seq<u64>, inputs: seq<Bytes>, k: nat)
    requires |indices| == |inputs| && k < |indices|
    ensures Zip(indices[..k + 1], inputs[..k + 1]) == Zip(indices[..k], inputs[..k]) + [(indices[k], inputs[k])]
  {
    assert indices[..k + 1] == indices[..k] + [indices[k]] && inputs[..k + 1] == inputs[..k] + [inputs[k]];
  }

  lemma {:induction false} UnfilledPush(masked: seq<Option<Bytes>>)
    requires masked != []
    ensures var last := |masked| - 1;
      |Unfilled(masked)| == |Unfilled(masked[..last])| + (if masked[last].None? then 1 else 0)
  {
    var last := |masked| - 1;
    assert Unfilled(masked) == Unfilled(masked[..last]) + (if masked[last].None? then {last} else {});
  }

  lemma {:induction false} UnfilledNone(masked: seq<Option<Bytes>>)
    ensures |Unfilled(masked)| == 0 <==> forall i :: 0 <= i < |masked| ==> masked[i].Some?
  {
    if i :| 0 <= i < |masked| && masked[i].None? { assert i in Unfilled(masked); }
    assert |Unfilled(masked)| == 0 <==> Unfilled(masked) == {};
  }

  class CoordinatorExecutionState {
    const registration: Registration
    const inputAssignments: seq<InputSlot>
    var round: Round
    var transitionVotes: map<Round, set<Identity>>
    var transEvents: map<Round, RoundEvent>
    var sinks: map<Round, seq<SinkId>>
    var nReserved: nat
    const reservedIndices: array<Option<Identity>>
    const maskedInputs: array<Option<Bytes>>
    var reservedIndexEvents: seq<ReservedEvent>
    var reservedIndexSinks: seq<SinkId>
    var assignedReservedIndexEvents: seq<AssignedReservation>
    var assignedReservedIndexSinks: seq<SinkId>
    var maskedInputEvents: seq<MaskedEvent>
    var maskedInputSinks: seq<SinkId>
    var assignedMaskedInputEvents: seq<AssignedMasked>
    var assignedMaskedInputSinks: seq<SinkId>

    ghost predicate Valid()
      reads this
    {
      && reservedIndices != maskedInputs
      && reservedIndices.Length == maskedInputs.Length == registration.nInputs
    }

    ghost function State(): Exec
      reads this, reservedIndices, maskedInputs
    {
      Exec(registration, inputAssignments, round, transitionVotes, transEvents, sinks, nReserved,
           reservedIndices[..], maskedInputs[..],
           Stream(reservedIndexEvents, reservedIndexSinks),
           Stream(assignedReservedIndexEvents, assignedReservedIndexSinks),
           Stream(maskedInputEvents, maskedInputSinks),
           Stream(assignedMaskedInputEvents, assignedMaskedInputSinks))
    }

    constructor (reg: Registration, slots: seq<InputSlot>)
      requires slots == Expand(reg.assignment.ranges)
      ensures Valid() && State() == Initial(reg)
      ensures fresh(reservedIndices) && fresh(maskedInputs)
    {
      registration := reg;
      inputAssignments := slots;
      round := Idle;
      transitionVotes, transEvents, sinks := map[], map[], map[];
      nReserved := 0;
      var owners := new Option<Identity>[reg.nInputs](_ => None);
      var inputs := new Option<Bytes>[reg.nInputs](_ => None);
      reservedIndices, maskedInputs := owners, inputs;
      reservedIndexEvents, reservedIndexSinks := [], [];
      assignedReservedIndexEvents, assignedReservedIndexSinks := [], [];
      maskedInputEvents, maskedInputSinks := [], [];
      assignedMaskedInputEvents, assignedMaskedInputSinks := [], [];
    }

    // -------------------------------------------------------------- rounds

    /** The search over the ordered rounds. */
    method NextQuorum(quorum: nat) returns (next: Option<Round>)
      ensures next == NextQuorumRound(State(), quorum)
    {
      ghost var e := State();
      for k := 0 to |ORDERED_ROUNDS|
        invariant FirstSupported(e, quorum, ORDERED_ROUNDS) == FirstSupported(e, quorum, ORDERED_ROUNDS[k..])
      {
        var candidate := ORDERED_ROUNDS[k];
        assert ORDERED_ROUNDS[k..][1..] == ORDERED_ROUNDS[k + 1..];
        if Follows(round, candidate) && candidate in transitionVotes && |transitionVotes[candidate]| >= quorum {
          return Some(candidate);
        }
      }
      return None;
    }

    /** `blocking_precondition`: the number of masked inputs that still hold `next` back. */
    method CountMissing(next: Round) returns (missing: nat)
      ensures missing > 0 <==> Blocked(State(), next)
      ensures missing > 0 ==> missing == |Unfilled(maskedInputs[..])|
    {
      missing := 0;
      if next == MPCExecution && !SkipsInputRounds(round, next) {
        for i := 0 to maskedInputs.Length
          invariant missing == |Unfilled(maskedInputs[..i])|
        {
          assert maskedInputs[..i + 1][..i] == maskedInputs[..i];
          UnfilledPush(maskedInputs[..i + 1]);
          if maskedInputs[i].None? {
            missing := missing + 1;
          }
        }
        assert maskedInputs[..maskedInputs.Length] == maskedInputs[..];
        ghost var e := State();
        assert e.masked == maskedInputs[..];
        UnfilledNone(e.masked);
      }
    }

    method ApplyRound(event: RoundEvent, next: Round) returns (waiting: seq<SinkId>)
      requires next != Idle
      modifies this
      ensures waiting == Waiting(old(State()), next)
      ensures State() == old(State()).(roundSinks := old(sinks) - {next}, events := old(transEvents)[next := event],
                                       round := next)
    {
      waiting := if next in sinks then sinks[next] else [];
      sinks := sinks - {next};
      transEvents := transEvents[next := event];
      round := next;
    }

    /** `try_advance`: the cascading loop. */
    method TryAdvance(quorum: nat, head: Identity) returns (deliveries: seq<Delivery>)
      requires Valid()
      modifies this
      ensures Valid() && (State(), deliveries) == old(Advance(State(), quorum, head))
    {
      deliveries := [];
      ghost var all := Advance(State(), quorum, head);
      assert [] + all.1 == all.1;
      while true
        invariant Valid()
        invariant all.0 == Advance(State(), quorum, head).0 && all.1 == deliveries + Advance(State(), quorum, head).1
        decreases 6 - RoundIndex(round)
      {
        NextIsLater(State(), quorum);
        var next := NextQuorum(quorum);
        assert deliveries + [] == deliveries;
        if next.None? {
          return;
        }
        var missing := CountMissing(next.value);
        if missing > 0 {
          return;
        }
        var event := EventFor(next.value, head);
        ghost var before := State();
        var waiting := ApplyRound(event, next.value);
        assert State() == Transition(before, next.value, head);
        var d := Delivery(next.value, event, waiting);
        assert deliveries + ([d] + Advance(State(), quorum, head).1)
            == (deliveries + [d]) + Advance(State(), quorum, head).1;
        deliveries := deliveries + [d];
      }
    }

    /** The `transition` handler. */
    method ProposeRound(c: Config, party: Identity, next: Round)
      returns (r: Result<(), RpcError>, deliveries: seq<Delivery>)
      requires Valid() && ValidConfig(c)
      modifies this
      ensures Valid() && (r, State(), deliveries) == old(Propose(c, State(), party, next))
    {
      if party !in c.nodes {
        return Err(NotParty), [];
      }
      if next == Idle {
        return Err(InvalidRound), [];
      }
      if RoundIndex(next) <= RoundIndex(round) {
        return Ok(()), [];
      }
      var voters := if next in transitionVotes then transitionVotes[next] else {};
      transitionVotes := transitionVotes[next := voters + {party}];
      assert State() == old(State().(votes := State().votes[next := Votes(State(), next) + {party}]));
      deliveries := TryAdvance(TransitionQuorum(c), c.nodes[0]);
      r := Ok(());
    }

    /** `sub_round`: replay and registration happen in one lock section. */
    method WatchForRound(sink: SinkId, r: Round) returns (replay: Option<RoundEvent>)
      requires Valid()
      modifies this`sinks
      ensures Valid() && (replay, State()) == old(SubscribeRound(State(), sink, r))
    {
      if r in transEvents {
        return Some(transEvents[r]);
      }
      var waiting := if r in sinks then sinks[r] else [];
      sinks := sinks[r := waiting + [sink]];
      replay := None;
    }

    // -------------------------------------------------------------- reservations

    method ValidateReservation(client: Identity, indices: seq<u64>) returns (err: Option<RpcError>)
      requires Valid()
      ensures err == CheckReserve(State(), client, indices)
    {
      if round != InputMaskReservation {
        return Some(WrongRound);
      }
      if indices == [] {
        return Some(EmptyBatch);
      }
      ghost var e := State();
      for i := 0 to reservedIndices.Length
        invariant forall k :: 0 <= k < i ==> e.reserved[k] != Some(client)
      {
        if reservedIndices[i] == Some(client) {
          assert e.reserved[i] == Some(client);
          return Some(ClientAlreadyReserved);
        }
      }
      for k := 0 to |indices|
        invariant FirstReserveError(e, client, indices) == FirstReserveError(e, client, indices[k..])
      {
        assert indices[k..][1..] == indices[k + 1..];
        var i := indices[k];
        if i >= reservedIndices.Length {
          return Some(IndexOutOfBounds);
        }
        if reservedIndices[i].Some? {
          return Some(IndexAlreadyReserved);
        }
        if i < |inputAssignments| && SlotClient(registration, inputAssignments[i]) != Some(client) {
          return Some(UnauthorizedClientIo);
        }
      }
      return None;
    }

    method RecordReservation(client: Identity, indices: seq<u64>) returns (tagged: seq<AssignedReservation>)
      requires Valid() && forall i :: i in indices ==> i < reservedIndices.Length
      modifies this`nReserved, reservedIndices
      ensures tagged == AssignedReservations(inputAssignments, client, indices)
      ensures nReserved == old(nReserved) + |indices|
      ensures reservedIndices[..] == ApplyReserved(old(reservedIndices[..]), ReservedEvent(client, indices))
      ensures maskedInputs[..] == old(maskedInputs[..])
    {
      tagged := [];
      for k := 0 to |indices|
        invariant tagged == AssignedReservations(inputAssignments, client, indices[..k])
        invariant nReserved == old(nReserved) + k
        invariant forall i :: 0 <= i < reservedIndices.Length ==>
                    reservedIndices[i] == if i in indices[..k] then Some(client) else old(reservedIndices[i])
        invariant maskedInputs[..] == old(maskedInputs[..])
      {
        var i := indices[k];
        assert i in indices;
        assert indices[..k + 1][..k] == indices[..k] && indices[..k + 1][k] == i;
        assert indices[..k + 1] == indices[..k] + [i];
        if i < |inputAssignments| {
          tagged := tagged + [AssignedReservation(client, i, inputAssignments[i].ordinal)];
        }
        reservedIndices[i] := Some(client);
        nReserved := nReserved + 1;
      }
      assert indices[..|indices|] == indices;
    }

    /** `reserve_mask_indices`: validate everything, then apply everything, then broadcast inside the lock. */
    method ReserveMaskIndices(client: Identity, indices: seq<u64>, delivered: set<SinkId>)
      returns (r: Result<(), RpcError>)
      requires Valid()
      modifies this, reservedIndices
      ensures Valid() && (r, State()) == old(Reserve(State(), client, indices, delivered))
    {
      hide FirstReserveError, ApplyReserved, AssignedReservations, Kept;
      var err := ValidateReservation(client, indices);
      if err.Some? {
        return Err(err.value);
      }
      ghost var e := State();
      forall i | i in indices ensures i < reservedIndices.Length { ReserveChecked(e, client, indices, i); }
      var tagged := RecordReservation(client, indices);
      reservedIndexEvents := reservedIndexEvents + [ReservedEvent(client, indices)];
      assert assignedReservedIndexEvents + [] == assignedReservedIndexEvents;
      assignedReservedIndexEvents := assignedReservedIndexEvents + tagged;
      reservedIndexSinks := KeepReached(reservedIndexSinks, delivered);
      if tagged != [] {
        assignedReservedIndexSinks := KeepReached(assignedReservedIndexSinks, delivered);
      }
      r := Ok(());
    }

    /** `available_input_masks`. */
    method CountAvailable() returns (free: Option<nat>)
      requires Valid()
      ensures free == AvailableInputMasks(State())
    {
      free := if nReserved <= maskedInputs.Length then Some(maskedInputs.Length - nReserved) else None;
    }

    // -------------------------------------------------------------- masked inputs

    method ValidateSubmission(client: Identity, inputs: seq<Bytes>, indices: seq<u64>) returns (err: Option<RpcError>)
      requires Valid()
      ensures err == CheckSubmit(State(), client, inputs, indices)
    {
      if round != InputCollection {
        return Some(WrongRound);
      }
      if |inputs| != |indices| {
        return Some(MismatchedBatchLengths);
      }
      if indices == [] {
        return Some(EmptyBatch);
      }
      ghost var e := State();
      for k := 0 to |indices|
        invariant FirstSubmitError(e, client, indices) == FirstSubmitError(e, client, indices[k..])
      {
        assert indices[k..][1..] == indices[k + 1..];
        var i := indices[k];
        if i >= maskedInputs.Length {
          return Some(IndexOutOfBounds);
        }
        match reservedIndices[i]
        case Some(owner) =>
          if owner != client {
            return Some(BadId);
          }
          if maskedInputs[i].Some? {
            return Some(MaskedInputAlreadySubmitted);
          }
        case None =>
          return Some(IndexNotReserved);
      }
      return None;
    }

    method RecordInputs(client: Identity, inputs: seq<Bytes>, indices: seq<u64>)
      returns (pairs: seq<(u64, Bytes)>, tagged: seq<AssignedMasked>)
      requires Valid() && |inputs| == |indices| && forall i :: i in indices ==> i < maskedInputs.Length
      modifies maskedInputs
      ensures pairs == Zip(indices, inputs)
      ensures tagged == AssignedInputs(inputAssignments, client, pairs)
      ensures maskedInputs[..] == ApplyMasked(old(maskedInputs[..]), MaskedEvent(client, pairs))
      ensures reservedIndices[..] == old(reservedIndices[..])
    {
      pairs, tagged := [], [];
      assert AssignedInputs(inputAssignments, client, []) == [] && forall i: nat :: LastInput([], i).None?;
      hide AssignedInputs, LastInput;
      for k := 0 to |indices|
        invariant pairs == Zip(indices[..k], inputs[..k])
        invariant tagged == AssignedInputs(inputAssignments, client, pairs)
        invariant forall i :: 0 <= i < maskedInputs.Length ==>
                    maskedInputs[i] == if LastInput(pairs, i).Some? then LastInput(pairs, i) else old(maskedInputs[i])
        invariant reservedIndices[..] == old(reservedIndices[..])
      {
        var i := indices[k];
        assert i in indices;
        maskedInputs[i] := Some(inputs[k]);
        if i < |inputAssignments| {
          tagged := tagged + [AssignedMasked(client, i, inputAssignments[i].ordinal, inputs[k])];
        }
        LastInputPush(pairs, (i, inputs[k]));
        AssignedPush(inputAssignments, client, pairs, (i, inputs[k]));
        ZipPush(indices, inputs, k);
        pairs := pairs + [(i, inputs[k])];
      }
      assert indices[..|indices|] == indices && inputs[..|indices|] == inputs;
    }

    /** First lock section of `submit_masked_inputs`. */
    method BeginSubmission(client: Identity, inputs: seq<Bytes>, indices: seq<u64>)
      returns (r: Result<Flight, RpcError>)
      requires Valid()
      modifies this, maskedInputs
      ensures Valid() && (r, State()) == old(SubmitBegin(State(), client, inputs, indices))
    {
      hide ApplyMasked, AssignedInputs, FirstSubmitError;
      var err := ValidateSubmission(client, inputs, indices);
      if err.Some? {
        return Err(err.value);
      }
      ghost var e := State();
      forall i | i in indices ensures i < maskedInputs.Length { SubmitChecked(e, client, indices, i); }
      var pairs, tagged := RecordInputs(client, inputs, indices);
      var event := MaskedEvent(client, pairs);
      maskedInputEvents := maskedInputEvents + [event];
      assert assignedMaskedInputEvents + [] == assignedMaskedInputEvents;
      assignedMaskedInputEvents := assignedMaskedInputEvents + tagged;
      var taken, assignedTaken := maskedInputSinks, [];
      maskedInputSinks := [];
      if tagged != [] {
        assignedTaken := assignedMaskedInputSinks;
        assignedMaskedInputSinks := [];
      }
      r := Ok(Flight(event, tagged, taken, assignedTaken));
    }

    /** Second lock section: restore the reached subscriptions and advance. */
    method EndSubmission(f: Flight, delivered: set<SinkId>, quorum: nat, head: Identity)
      returns (deliveries: seq<Delivery>)
      requires Valid()
      modifies this
      ensures Valid() && (State(), deliveries) == old(SubmitEnd(State(), f, delivered, quorum, head))
    {
      var plain := KeepReached(f.sinks, delivered);
      var other := KeepReached(f.assignedSinks, delivered);
      maskedInputSinks := maskedInputSinks + plain;
      assignedMaskedInputSinks := assignedMaskedInputSinks + other;
      assert State() == old(Restored(State(), f, delivered));
      deliveries := TryAdvance(quorum, head);
    }

    // -------------------------------------------------------------- subscriptions

    /** `subscribe_*`: the messages to replay, and registration once every one of them was sent. */
    method SubscribeReserved(sink: SinkId, replayed: bool) returns (replay: seq<seq<ReservedEvent>>)
      modifies this`reservedIndexSinks
      ensures replay == Singly(reservedIndexEvents)
      ensures State() == if replayed then Subscribe(old(State()), ReservedIndices, sink) else old(State())
    {
      replay := ReplaySingly(reservedIndexEvents);
      if replayed {
        reservedIndexSinks := reservedIndexSinks + [sink];
      }
    }

    method SubscribeMasked(sink: SinkId, replayed: bool) returns (replay: seq<seq<MaskedEvent>>)
      modifies this`maskedInputSinks
      ensures replay == Singly(maskedInputEvents)
      ensures State() == if replayed then Subscribe(old(State()), MaskedInputs, sink) else old(State())
    {
      replay := ReplaySingly(maskedInputEvents);
      if replayed {
        maskedInputSinks := maskedInputSinks + [sink];
      }
    }

    method SubscribeAssignedReserved(sink: SinkId, replayed: bool) returns (replay: seq<seq<AssignedReservation>>)
      modifies this`assignedReservedIndexSinks
      ensures replay == AsBatch(assignedReservedIndexEvents)
      ensures State() == if replayed then Subscribe(old(State()), AssignedReservedIndices, sink) else old(State())
    {
      replay := if assignedReservedIndexEvents == [] then [] else [assignedReservedIndexEvents];
      if replayed {
        assignedReservedIndexSinks := assignedReservedIndexSinks + [sink];
      }
    }

    method SubscribeAssignedMasked(sink: SinkId, replayed: bool) returns (replay: seq<seq<AssignedMasked>>)
      modifies this`assignedMaskedInputSinks
      ensures replay == AsBatch(assignedMaskedInputEvents)
      ensures State() == if replayed then Subscribe(old(State()), AssignedMaskedInputs, sink) else old(State())
    {
      replay := if assignedMaskedInputEvents == [] then [] else [assignedMaskedInputEvents];
      if replayed {
        assignedMaskedInputSinks := assignedMaskedInputSinks + [sink];
      }
    }
  }

  method ReplaySingly<E>(log: seq<E>) returns (replay: seq<seq<E>>)
    ensures replay == Singly(log)
  {
    replay := [];
    for k := 0 to |log|
      invariant |replay| == k && forall j :: 0 <= j < k ==> replay[j] == [log[j]]
    {
      replay := replay + [[log[k]]];
    }
  }

  // ---------------------------------------------------------------- creation

  /** The `u64` sum of the range counts, `None` when it overflows. */
  method SumRanges(ranges: seq<InputClientRange>) returns (total: Option<nat>)
    ensures total == if Total(ranges) < 0x1_0000_0000_0000_0000 then Some(Total(ranges)) else None
  {
    var sum := 0;
    for k := 0 to |ranges|
      invariant sum == Total(ranges[..k]) < 0x1_0000_0000_0000_0000
    {
      assert ranges[..k + 1][..k] == ranges[..k];
      TotalMonotone(ranges, k + 1, |ranges|);
      assert ranges[..|ranges|] == ranges;
      if sum + ranges[k].count >= 0x1_0000_0000_0000_0000 {
        return None;
      }
      sum := sum + ranges[k].count;
    }
    assert ranges[..|ranges|] == ranges;
    total := Some(sum);
  }

  /** `CoordinatorExecutionState::new`. */
  method Create(reg: Registration, n: u64) returns (r: Result<CoordinatorExecutionState, RegistrationError>)
    ensures match New(reg, n)
            case Ok(e) => r.Ok? && fresh(r.value) && r.value.Valid() && r.value.State() == e
            case Err(error) => r == Err(error)
  {
    if IsZero(reg.executionId) {
      return Err(ZeroExecutionId);
    }
    if IsZero(reg.programHash) {
      return Err(ZeroProgramHash);
    }
    var ranges := reg.assignment.ranges;
    var total := SumRanges(ranges);
    if total.None? {
      return Err(RangeSumOverflow);
    }
    if ranges != [] && reg.nInputs != total.value {
      return Err(RangeTotalMismatch);
    }
    for k := 0 to |ranges|
      invariant forall j :: 0 <= j < k ==> ranges[j].clientIndex < |reg.assignment.clients|
    {
      if ranges[k].clientIndex >= |reg.assignment.clients| {
        return Err(BadClientIndex);
      }
    }
    if reg.minOutputShares == 0 || reg.minOutputShares > n {
      return Err(BadOutputQuorum);
    }
    var slots := ExpandInputRanges(ranges);
    var state := new CoordinatorExecutionState(reg, slots);
    return Ok(state);
  }
}
