/** Small runs, with one party and one client, in which a promise that is not unconditional fails. */
module Counterexamples {
  import opened Base
  import opened Rounds
  import opened Topology
  import opened Assignments
  import opened Streams
  import opened ExecutionModel
  import opened ExecutionRuns
  import opened InputProps
  import opened ClientInputs
  import opened ClientInputProps
  import opened Completion
  import opened Requests

  const NODE: Identity := [9]
  const CLIENT: Identity := [7]
  const ALONE := Config(1, 0, [NODE])

  /** One slot, no ranges, the client admitted for output. */
  const REG := Registration(ALL_ONES, ALL_ONES, 1, [CLIENT], InputAssignment([], []), 1)

  /** Two slots, both assigned to the client. */
  const RANGED := Registration(ALL_ONES, ALL_ONES, 2, [CLIENT], InputAssignment([CLIENT], [InputClientRange(0, 2)]), 1)

  const ALL_ONES: Bytes := [
    1, 1, 1, 1, 1, 1, 1, 1, 1, 1, 1, 1, 1, 1, 1, 1, 1, 1, 1, 1, 1, 1, 1, 1, 1, 1, 1, 1, 1, 1, 1, 1]

  predicate Small(reg: Registration) {
    reg == REG || reg == RANGED
  }

  lemma {:induction false} AloneIsValid()
    ensures ValidConfig(ALONE) && TransitionQuorum(ALONE) == 1
    ensures forall reg :: Small(reg) ==> Accepted(ALONE, reg)
  {
    assert ALL_ONES[0] != 0;
    assert RANGED.assignment.ranges[..0] == [];
  }

  // ---------------------------------------------------------------- steps of such a run

  /** Nobody has proposed a round that is still ahead, and nobody subscribes. */
  ghost predicate Quiet(w: World) {
    && (forall r :: r in w.e.votes ==> RoundIndex(r) <= RoundIndex(w.e.round))
    && w.e.maskedStream.sinks == [] && w.e.assignedMaskedStream.sinks == []
  }

  /** The part of a world these runs are about. */
  datatype View = View(
    reg: Registration, round: Round, reserved: seq<Option<Identity>>, masked: seq<Option<Bytes>>, nReserved: nat)

  ghost predicate At(w: World, v: View) {
    && Sized(w.e) && Quiet(w) && w.e.reg == v.reg && w.e.slots == Expand(v.reg.assignment.ranges)
    && w.e.round == v.round && w.e.reserved == v.reserved && w.e.masked == v.masked && w.e.nReserved == v.nReserved
  }

  lemma {:induction false} NoVotesAhead(e: Exec)
    requires forall r :: r in e.votes ==> RoundIndex(r) <= RoundIndex(e.round)
    ensures Advance(e, 1, NODE) == (e, [])
  {
    NextIsLater(e, 1);
  }

  lemma {:induction false} OneVote(e: Exec, next: Round)
    requires forall r :: r in e.votes ==> RoundIndex(r) <= RoundIndex(e.round)
    requires next != Idle && RoundIndex(next) > RoundIndex(e.round)
    ensures var voted := e.(votes := e.votes[next := {NODE}]);
      Advance(voted, 1, NODE).0
      == if Follows(e.round, next) && !Blocked(e, next) then Transition(voted, next, NODE) else voted
  {
    var voted := e.(votes := e.votes[next := {NODE}]);
    NextIsLater(voted, 1);
    if Follows(e.round, next) {
      assert Supported(voted, 1, next);
      assert NextQuorumRound(voted, 1) == Some(next);
      if !Blocked(e, next) { NoVotesAhead(Transition(voted, next, NODE)); }
    } else {
      assert forall r :: !Supported(voted, 1, r);
    }
  }

  /** What a proposal of the only party does to the execution. */
  lemma {:induction false} VoteExec(w: World, next: Round)
    requires ValidConfig(ALONE) && TransitionQuorum(ALONE) == 1 && Sized(w.e) && w.flight.None?
    requires next != Idle && RoundIndex(next) > RoundIndex(w.e.round)
    requires forall r :: r in w.e.votes ==> RoundIndex(r) <= RoundIndex(w.e.round)
    ensures var w' := Step(ALONE, w, Vote(NODE, next));
      w'.flight.None? && w'.e == Advance(w.e.(votes := w.e.votes[next := {NODE}]), 1, NODE).0
  {
    assert Votes(w.e, next) + {NODE} == {NODE};
    hide Advance, Notify, TransitionQuorum, ValidConfig, Sized;
  }

  /** The only party proposes `next`: the round moves there if it may follow, and otherwise stays. */
  lemma {:induction false} VoteStep(w: World, next: Round, v: View)
    requires ValidConfig(ALONE) && TransitionQuorum(ALONE) == 1
    requires At(w, v) && w.flight.None?
    requires next != Idle && RoundIndex(next) > RoundIndex(v.round)
    ensures var w' := Step(ALONE, w, Vote(NODE, next));
      && w'.flight.None?
      && (Follows(v.round, next) && !Blocked(w.e, next) ==> At(w', v.(round := next)))
      && (!Follows(v.round, next) ==> w'.e.round == v.round)
  {
    VoteExec(w, next);
    OneVote(w.e, next);
    hide Step, Advance, TransitionQuorum, ValidConfig, Follows, Blocked, EventFor;
  }

  lemma {:induction false} LateVote(w: World, next: Round)
    requires ValidConfig(ALONE) && Sized(w.e) && RoundIndex(next) <= RoundIndex(w.e.round)
    ensures Step(ALONE, w, Vote(NODE, next)).e == w.e
  {
    hide Advance, Notify, ValidConfig;
  }

  lemma {:induction false} AllReservable(e: Exec, indices: seq<u64>)
    requires forall k :: 0 <= k < |indices| ==> CheckReserveIndex(e, CLIENT, indices[k]) == None
    ensures FirstReserveError(e, CLIENT, indices) == None
  {
    if indices != [] { AllReservable(e, indices[1..]); }
  }

  lemma {:induction false} AllSubmittable(e: Exec, indices: seq<u64>)
    requires |e.reserved| == |e.masked|
    requires forall k :: 0 <= k < |indices| ==> CheckSubmitIndex(e, CLIENT, indices[k]) == None
    ensures FirstSubmitError(e, CLIENT, indices) == None
  {
    if indices != [] { AllSubmittable(e, indices[1..]); }
  }

  lemma {:induction false} ReserveStep(w: World, indices: seq<u64>, v: View)
    requires ValidConfig(ALONE) && At(w, v) && w.flight.None?
    requires v.round == InputMaskReservation && indices != [] && Some(CLIENT) !in v.reserved
    requires forall k :: 0 <= k < |indices| ==> CheckReserveIndex(w.e, CLIENT, indices[k]) == None
    ensures var w' := Step(ALONE, w, ReserveBatch(CLIENT, indices, {}));
      && At(w', v.(reserved := ApplyReserved(v.reserved, ReservedEvent(CLIENT, indices)),
                   nReserved := v.nReserved + |indices|))
      && w'.flight.None?
  {
    AllReservable(w.e, indices);
    hide AssignedReservations, Kept, SendAll, FirstReserveError, ApplyReserved, ValidConfig;
  }

  lemma {:induction false} SubmitStep(w: World, inputs: seq<Bytes>, indices: seq<u64>, v: View)
    requires ValidConfig(ALONE) && At(w, v) && w.flight.None?
    requires v.round == InputCollection && |inputs| == |indices| && indices != []
    requires forall k :: 0 <= k < |indices| ==> CheckSubmitIndex(w.e, CLIENT, indices[k]) == None
    ensures var evt := MaskedEvent(CLIENT, Zip(indices, inputs));
      var w' := Step(ALONE, w, SubmitBatch(CLIENT, inputs, indices));
      && w'.flight.Some? && w'.flight.value.f.sinks == [] && w'.flight.value.f.assignedSinks == []
      && w'.e.maskedStream.log == w.e.maskedStream.log + [evt]
      && At(w', v.(masked := ApplyMasked(v.masked, evt)))
  {
    AllSubmittable(w.e, indices);
    hide AssignedInputs, FirstSubmitError, ApplyMasked, LastInput, ValidConfig;
  }

  lemma {:induction false} AfterPush(reg: Registration, actions: seq<Action>, a: Action)
    requires Accepted(ALONE, reg)
    ensures After(ALONE, reg, actions + [a]) == Step(ALONE, After(ALONE, reg, actions), a)
  {
    assert (actions + [a])[..|actions|] == actions;
    hide Step;
  }

  function FreshView(reg: Registration, round: Round): (v: View)
    ensures |v.reserved| == |v.masked| == reg.nInputs
  {
    View(reg, round, Initial(reg).reserved, Initial(reg).masked, 0)
  }

  /** One more proposal, from a run that has only seen proposals. */
  lemma {:induction false} VoteOn(reg: Registration, actions: seq<Action>, round: Round, next: Round)
    requires ValidConfig(ALONE) && TransitionQuorum(ALONE) == 1 && Accepted(ALONE, reg)
    requires At(After(ALONE, reg, actions), FreshView(reg, round)) && After(ALONE, reg, actions).flight.None?
    requires Follows(round, next) && !Blocked(After(ALONE, reg, actions).e, next)
    ensures var w := After(ALONE, reg, actions + [Vote(NODE, next)]); At(w, FreshView(reg, next)) && w.flight.None?
  {
    assert next != Idle && RoundIndex(next) > RoundIndex(round);
    AfterPush(reg, actions, Vote(NODE, next));
    hide Step, After, ValidConfig, TransitionQuorum, Blocked, Follows;
    VoteStep(After(ALONE, reg, actions), next, FreshView(reg, round));
  }

  lemma {:induction false} Beginning(reg: Registration)
    requires Accepted(ALONE, reg)
    ensures At(After(ALONE, reg, []), FreshView(reg, Idle)) && After(ALONE, reg, []).flight.None?
  {
    assert After(ALONE, reg, []) == Start(Initial(reg));
  }

  const PREPARING := [Vote(NODE, Preprocessing)]

  lemma {:induction false} FirstVote(reg: Registration)
    requires Small(reg)
    ensures ValidConfig(ALONE) && Accepted(ALONE, reg)
    ensures var w := After(ALONE, reg, PREPARING); At(w, FreshView(reg, Preprocessing)) && w.flight.None?
  {
    AloneIsValid();
    Beginning(reg);
    assert [] + [Vote(NODE, Preprocessing)] == PREPARING;
    hide After, ValidConfig, TransitionQuorum, New, At;
    VoteOn(reg, [], Idle, Preprocessing);
  }

  // ---------------------------------------------------------------- MPC on missing inputs

  const SKIPPING := PREPARING + [Vote(NODE, MPCExecution)]

  /** Two proposals start MPC although the execution has a slot and nobody filled it. */
  lemma {:induction false} SkipStartsOnMissingInput()
    ensures Accepted(ALONE, REG)
    ensures var w := After(ALONE, REG, SKIPPING);
      At(w, FreshView(REG, MPCExecution)) && w.flight.None? && !AllSubmitted(w.e) && REG.nInputs == 1
  {
    FirstVote(REG);
    AloneIsValid();
    assert !Blocked(After(ALONE, REG, PREPARING).e, MPCExecution);
    hide After, ValidConfig, TransitionQuorum, New;
    VoteOn(REG, PREPARING, Preprocessing, MPCExecution);
    assert After(ALONE, REG, SKIPPING).e.masked[0].None?;
  }

  /** One more proposal finishes the program without an output round. */
  lemma {:induction false} SkipEndsWithoutOutput()
    ensures Accepted(ALONE, REG)
    ensures var e := After(ALONE, REG, SKIPPING + [Vote(NODE, ProgramFinished)]).e;
      e.round == ProgramFinished && OutputDistribution !in e.events
  {
    hide After, ValidConfig, TransitionQuorum, New, AllSubmitted, At;
    AloneIsValid();
    SkipStartsOnMissingInput();
    VoteOn(REG, SKIPPING, MPCExecution, ProgramFinished);
    assert At(After(ALONE, REG, SKIPPING + [Vote(NODE, ProgramFinished)]), FreshView(REG, ProgramFinished));
    RoundAt(After(ALONE, REG, SKIPPING + [Vote(NODE, ProgramFinished)]), FreshView(REG, ProgramFinished));
    if OutputDistribution in After(ALONE, REG, SKIPPING + [Vote(NODE, ProgramFinished)]).e.events {
      var n := AppliedWasProposed(ALONE, REG, SKIPPING + [Vote(NODE, ProgramFinished)], OutputDistribution);
      assert false;
    }
  }

  lemma {:induction false} RoundAt(w: World, v: View)
    requires At(w, v)
    ensures w.e.round == v.round
  {
  }

  lemma {:induction false} SkipThenReserve()
    ensures Accepted(ALONE, REG)
    ensures After(ALONE, REG, SKIPPING + [Vote(NODE, InputMaskReservation)]).e.round == MPCExecution
  {
    hide Step, After, New, ValidConfig, AllSubmitted;
    SkipStartsOnMissingInput();
    AfterPush(REG, SKIPPING, Vote(NODE, InputMaskReservation));
    LateVote(After(ALONE, REG, SKIPPING), InputMaskReservation);
  }

  lemma {:induction false} ReserveThenSkip()
    ensures Accepted(ALONE, REG)
    ensures After(ALONE, REG, RESERVING + [Vote(NODE, MPCExecution)]).e.round == InputMaskReservation
  {
    hide Step, After, New, ValidConfig, TransitionQuorum, At;
    AloneIsValid();
    ReservationOpens(REG);
    AfterPush(REG, RESERVING, Vote(NODE, MPCExecution));
    VoteStep(After(ALONE, REG, RESERVING), MPCExecution, FreshView(REG, InputMaskReservation));
  }

  /** The same three proposals in two orders end in different rounds, because in one of them a skip fires. */
  lemma {:induction false} SkipMakesOrderMatter()
    ensures Accepted(ALONE, REG)
    ensures After(ALONE, REG, SKIPPING + [Vote(NODE, InputMaskReservation)]).e.round == MPCExecution
    ensures After(ALONE, REG, RESERVING + [Vote(NODE, MPCExecution)]).e.round == InputMaskReservation
  {
    hide After, New, ValidConfig;
    SkipThenReserve();
    ReserveThenSkip();
  }

  // ---------------------------------------------------------------- a slot left free

  const RESERVING := PREPARING + [Vote(NODE, InputMaskReservation)]

  lemma {:induction false} ReservationOpens(reg: Registration)
    requires Small(reg)
    ensures ValidConfig(ALONE) && Accepted(ALONE, reg)
    ensures var w := After(ALONE, reg, RESERVING); At(w, FreshView(reg, InputMaskReservation)) && w.flight.None?
  {
    FirstVote(reg);
    AloneIsValid();
    hide After, ValidConfig, TransitionQuorum, New, At;
    VoteOn(reg, PREPARING, Preprocessing, InputMaskReservation);
  }

  const CLOSED_EARLY := RESERVING + [Vote(NODE, InputCollection)]

  /** Three proposals close reservation before anybody has reserved the only slot, and then MPC can never start. */
  lemma {:induction false} FreeSlotStopsCollection()
    ensures Accepted(ALONE, REG)
    ensures At(After(ALONE, REG, CLOSED_EARLY), FreshView(REG, InputCollection))
    ensures !exists later :: StartsMpc(ALONE, REG, CLOSED_EARLY + later)
  {
    ReservationOpens(REG);
    AloneIsValid();
    hide After, ValidConfig, TransitionQuorum, New, StartsMpc;
    VoteOn(REG, RESERVING, InputMaskReservation, InputCollection);
    assert After(ALONE, REG, CLOSED_EARLY).e.reserved[0].None?;
    CollectionCompletesIff(ALONE, REG, CLOSED_EARLY);
  }

  // ---------------------------------------------------------------- batches that repeat an index

  lemma {:induction false} Reserving(reg: Registration, indices: seq<u64>)
    requires Small(reg) && indices != [] && forall k :: 0 <= k < |indices| ==> indices[k] < reg.nInputs
    ensures ValidConfig(ALONE) && Accepted(ALONE, reg)
    ensures var w := After(ALONE, reg, RESERVING + [ReserveBatch(CLIENT, indices, {})]);
      && At(w, FreshView(reg, InputMaskReservation)
                 .(reserved := ApplyReserved(Initial(reg).reserved, ReservedEvent(CLIENT, indices)),
                   nReserved := |indices|))
      && w.flight.None?
  {
    ReservationOpens(reg);
    var w := After(ALONE, reg, RESERVING);
    assert RANGED.assignment.ranges[..0] == [];
    assert forall k :: 0 <= k < |indices| ==> CheckReserveIndex(w.e, CLIENT, indices[k]) == None;
    hide Step, After, New, ValidConfig;
    ReserveStep(w, indices, FreshView(reg, InputMaskReservation));
    AfterPush(reg, RESERVING, ReserveBatch(CLIENT, indices, {}));
  }

  /** Reserving index 0 twice in one batch counts two reservations for one slot, and the free count goes below zero. */
  lemma {:induction false} RepeatedReservationUnderflows()
    ensures Accepted(ALONE, REG)
    ensures var e := After(ALONE, REG, RESERVING + [ReserveBatch(CLIENT, [0, 0], {})]).e;
      e.nReserved == 2 && |e.reserved| == 1 && AvailableInputMasks(e) == None
  {
    Reserving(REG, [0, 0]);
    hide After;
  }

  function Collecting(indices: seq<u64>): seq<Action> {
    RESERVING + [ReserveBatch(CLIENT, indices, {})] + [Vote(NODE, InputCollection)]
  }

  /** Input collection, with all slots reserved by the client. */
  function CollectingView(reg: Registration): View {
    FreshView(reg, InputCollection).(reserved := seq(reg.nInputs, _ => Some(CLIENT)), nReserved := reg.nInputs)
  }

  ghost predicate AllOf(reg: Registration, indices: seq<u64>) {
    (reg == REG && indices == [0]) || (reg == RANGED && indices == [0, 1])
  }

  lemma {:induction false} AllReservedView(reg: Registration, indices: seq<u64>)
    requires AllOf(reg, indices)
    ensures |indices| == reg.nInputs
    ensures ApplyReserved(Initial(reg).reserved, ReservedEvent(CLIENT, indices)) == CollectingView(reg).reserved
  {
    assert forall i :: 0 <= i < reg.nInputs ==> indices[i] == i && i in indices;
  }

  lemma {:induction false} CollectionOpens(reg: Registration, indices: seq<u64>)
    requires AllOf(reg, indices)
    ensures ValidConfig(ALONE) && Accepted(ALONE, reg)
    ensures var w := After(ALONE, reg, Collecting(indices));
      At(w, CollectingView(reg)) && w.flight.None? && w.e.maskedStream.log == []
  {
    assert Small(reg) && indices != [] && forall k :: 0 <= k < |indices| ==> indices[k] < reg.nInputs;
    AllReservedView(reg, indices);
    hide Step, After, New, ApplyReserved, TransitionQuorum, ValidConfig, Small, AllOf, At, Initial;
    Reserving(reg, indices);
    AloneIsValid();
    var before := RESERVING + [ReserveBatch(CLIENT, indices, {})];
    VoteStep(After(ALONE, reg, before), InputCollection, CollectingView(reg).(round := InputMaskReservation));
    AfterPush(reg, before, Vote(NODE, InputCollection));
    NothingSubmitted(reg, Collecting(indices));
  }

  /** A run without submissions leaves the masked-input log empty. */
  lemma {:induction false} NothingSubmitted(reg: Registration, actions: seq<Action>)
    requires Accepted(ALONE, reg) && forall k :: 0 <= k < |actions| ==> !actions[k].SubmitBatch?
    ensures After(ALONE, reg, actions).e.maskedStream.log == []
  {
    if actions != [] {
      var front := actions[..|actions| - 1];
      NothingSubmitted(reg, front);
      InputFrame(ALONE, After(ALONE, reg, front), actions[|actions| - 1]);
      hide Step, CheckReserve;
    }
  }

  const SUBMITTED_TWICE := Collecting([0]) + [SubmitBatch(CLIENT, [[1], [2]], [0, 0])]

  lemma {:induction false} SubmittedTwice()
    ensures Accepted(ALONE, REG)
    ensures var e := After(ALONE, REG, SUBMITTED_TWICE).e;
      AllSubmitted(e) && e.maskedStream.log == [MaskedEvent(CLIENT, Zip([0, 0], [[1], [2]]))]
  {
    CollectionOpens(REG, [0]);
    var inputs: seq<Bytes> := [[1], [2]];
    var pairs := Zip([0, 0], inputs);
    assert pairs[0] in pairs && pairs[0].0 == 0;
    LastInputIff(pairs, 0);
    hide Step, After, New, LastInput;
    SubmitStep(After(ALONE, REG, Collecting([0])), inputs, [0, 0], CollectingView(REG));
    AfterPush(REG, Collecting([0]), SubmitBatch(CLIENT, inputs, [0, 0]));
  }

  /** One batch with index 0 twice completes the inputs, yet a node waiting for them holds that input twice. */
  lemma {:induction false} RepeatedInputIsGatheredTwice(l: Local)
    requires LocalOk(l) && |l.masks| == 1 && forall b :: l.decode(b).Some?
    ensures Accepted(ALONE, REG)
    ensures var e := After(ALONE, REG, SUBMITTED_TWICE).e;
      AllSubmitted(e) && AllGood(l, e.maskedStream.log) && !NoRepeatedInput(e.maskedStream.log)
        && !GathersEachOnce(l, e)
  {
    SubmittedTwice();
    var e := After(ALONE, REG, SUBMITTED_TWICE).e;
    var pairs := Zip([0, 0], [[1], [2]]);
    hide Step, After, New;
    assert Indices(pairs)[0] == Indices(pairs)[1];
    assert !NoDup(Indices(e.maskedStream.log[0].pairs));
    assert PairsGood(l, pairs);
    EachOnceIffNoRepeat(ALONE, REG, SUBMITTED_TWICE, l);
  }
}
