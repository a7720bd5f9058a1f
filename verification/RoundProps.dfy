/** Rounds: which are applied, by whose votes, under which precondition, and who is told. */
module RoundProps {
  import opened Base
  import opened Rounds
  import opened Topology
  import opened Streams
  import opened ExecutionModel
  import opened ExecutionRuns
  import opened InputProps

  // ---------------------------------------------------------------- the shape of the applied rounds

  /** The recorded events are those of the rounds passed through: both input rounds or neither. */
  ghost predicate PathOk(e: Exec) {
    && Idle !in e.events
    && (forall r :: r in e.events ==> RoundIndex(r) <= RoundIndex(e.round))
    && (e.round != Idle ==> e.round in e.events)
    && (RoundIndex(e.round) >= 1 ==> Preprocessing in e.events)
    && (e.round == InputCollection ==> InputMaskReservation in e.events)
    && (RoundIndex(e.round) >= 4 ==> MPCExecution in e.events)
    && (RoundIndex(e.round) >= 4 ==> (InputMaskReservation in e.events <==> InputCollection in e.events))
  }

  /** Reservations and inputs exist only if their round was applied, and MPC waits for all of them. */
  ghost predicate FilledOk(e: Exec) {
    && (InputMaskReservation !in e.events ==> e.reservedStream.log == [])
    && (InputCollection !in e.events ==> e.maskedStream.log == [])
    && (RoundIndex(e.round) >= 4 && InputCollection in e.events ==> AllSubmitted(e))
  }

  /** Votes come from the roster, and every applied round has a quorum of them and its own event. */
  ghost predicate VotesOk(c: Config, e: Exec)
    requires ValidConfig(c)
  {
    && (forall r :: r in e.votes ==> e.votes[r] <= Roster(c))
    && (forall r :: r in e.events ==> r != Idle && r in e.votes && |e.votes[r]| >= TransitionQuorum(c))
    && (forall r :: r in e.events ==> r != Idle && e.events[r] == EventFor(r, c.nodes[0]))
  }

  /** Nothing is left to apply: the next supported round is absent or must still wait. */
  ghost predicate Settled(e: Exec, quorum: nat) {
    match NextQuorumRound(e, quorum)
    case None => true
    case Some(next) => Blocked(e, next)
  }

  ghost predicate RoundsOk(c: Config, e: Exec)
    requires ValidConfig(c)
  {
    PathOk(e) && FilledOk(e) && VotesOk(c, e)
  }

  lemma {:induction false} TransitionKeepsPath(e: Exec, next: Round, head: Identity)
    requires PathOk(e) && Follows(e.round, next)
    ensures PathOk(Transition(e, next, head))
  {
  }

  lemma {:induction false} TransitionKeepsFilled(e: Exec, next: Round, head: Identity)
    requires PathOk(e) && FilledOk(e) && Follows(e.round, next) && !Blocked(e, next)
    ensures FilledOk(Transition(e, next, head))
  {
    assert AllSubmitted(Transition(e, next, head)) == AllSubmitted(e);
    hide AllSubmitted;
  }

  lemma {:induction false} TransitionKeepsVotes(c: Config, e: Exec, next: Round)
    requires ValidConfig(c) && VotesOk(c, e) && Supported(e, TransitionQuorum(c), next)
    ensures VotesOk(c, Transition(e, next, c.nodes[0]))
  {
    hide EventFor, ValidConfig, ValidateTopology;
  }

  lemma {:induction false} TransitionKeepsRounds(c: Config, e: Exec, next: Round)
    requires ValidConfig(c) && RoundsOk(c, e)
    requires Supported(e, TransitionQuorum(c), next) && !Blocked(e, next)
    ensures RoundsOk(c, Transition(e, next, c.nodes[0]))
  {
    hide PathOk, FilledOk, VotesOk, Blocked, Transition;
    TransitionKeepsPath(e, next, c.nodes[0]);
    TransitionKeepsFilled(e, next, c.nodes[0]);
    TransitionKeepsVotes(c, e, next);
  }

  /** `try_advance` keeps the invariant, never goes back, and stops only where nothing can be applied. */
  lemma {:induction false} AdvanceKeepsRounds(c: Config, e: Exec)
    requires ValidConfig(c) && RoundsOk(c, e)
    ensures var e' := Advance(e, TransitionQuorum(c), c.nodes[0]).0;
      && RoundsOk(c, e') && Settled(e', TransitionQuorum(c)) && RoundIndex(e'.round) >= RoundIndex(e.round)
    decreases 6 - RoundIndex(e.round)
  {
    hide RoundsOk, Supported, Transition;
    var q := TransitionQuorum(c);
    NextIsLater(e, q);
    var next := NextQuorumRound(e, q);
    if next.Some? && !Blocked(e, next.value) {
      TransitionKeepsRounds(c, e, next.value);
      TransitionRound(e, next.value, c.nodes[0]);
      AdvanceKeepsRounds(c, Transition(e, next.value, c.nodes[0]));
    }
  }

  lemma {:induction false} TransitionRound(e: Exec, next: Round, head: Identity)
    requires next != Idle
    ensures Transition(e, next, head).round == next
  {
  }

  function Voted(e: Exec, party: Identity, next: Round): Exec {
    e.(votes := e.votes[next := Votes(e, next) + {party}])
  }

  lemma {:induction false} BallotKeepsVotes(c: Config, e: Exec, party: Identity, next: Round)
    requires ValidConfig(c) && VotesOk(c, e) && party in c.nodes && next !in e.events
    ensures VotesOk(c, Voted(e, party, next))
  {
    assert party in Roster(c);
    hide EventFor, ValidConfig, Roster;
  }

  lemma {:induction false} BallotKeepsRounds(c: Config, e: Exec, party: Identity, next: Round)
    requires ValidConfig(c) && RoundsOk(c, e) && party in c.nodes && RoundIndex(next) > RoundIndex(e.round)
    ensures RoundsOk(c, Voted(e, party, next))
  {
    hide VotesOk, ValidConfig;
    assert next !in e.events;
    BallotKeepsVotes(c, e, party, next);
    assert AllSubmitted(Voted(e, party, next)) == AllSubmitted(e);
    hide AllSubmitted;
  }

  lemma {:induction false} VoteKeepsRounds(c: Config, e: Exec, party: Identity, next: Round)
    requires ValidConfig(c) && RoundsOk(c, e) && Settled(e, TransitionQuorum(c))
    ensures RoundsOk(c, Propose(c, e, party, next).1)
    ensures Settled(Propose(c, e, party, next).1, TransitionQuorum(c))
    ensures RoundIndex(Propose(c, e, party, next).1.round) >= RoundIndex(e.round)
  {
    hide RoundsOk, Settled, Advance, ValidConfig;
    if party in c.nodes && RoundIndex(next) > RoundIndex(e.round) {
      BallotKeepsRounds(c, e, party, next);
      AdvanceKeepsRounds(c, Voted(e, party, next));
    }
  }

  // ---------------------------------------------------------------- every step

  ghost predicate SameRoundState(e: Exec, e': Exec) {
    e'.round == e.round && e'.votes == e.votes && e'.events == e.events
  }

  lemma {:induction false} ReserveRoundFrame(w: World, client: Identity, indices: seq<u64>, delivered: set<SinkId>)
    requires Sized(w.e)
    ensures SameRoundState(w.e, StepReserve(w, client, indices, delivered).e)
    ensures StepReserve(w, client, indices, delivered).e.masked == w.e.masked
  {
    hide CheckReserve, AssignedReservations, ApplyReserved, Kept, SendAll;
  }

  lemma {:induction false} SubmitBeginFrame(e: Exec, client: Identity, inputs: seq<Bytes>, indices: seq<u64>)
    requires |e.reserved| == |e.masked|
    ensures SameRoundState(e, SubmitBegin(e, client, inputs, indices).1)
    ensures SubmitBegin(e, client, inputs, indices).1.reservedStream == e.reservedStream
    ensures SubmitBegin(e, client, inputs, indices).0.Ok? ==> e.round == InputCollection
  {
    assert CheckSubmit(e, client, inputs, indices).None? ==> e.round == InputCollection;
    hide CheckSubmit, AssignedInputs, ApplyMasked, Zip;
  }

  lemma {:induction false} SubmitRoundFrame(w: World, client: Identity, inputs: seq<Bytes>, indices: seq<u64>)
    requires Sized(w.e)
    ensures SameRoundState(w.e, StepSubmit(w, client, inputs, indices).e)
    ensures StepSubmit(w, client, inputs, indices).e.reservedStream == w.e.reservedStream
    ensures StepSubmit(w, client, inputs, indices) == w
         || (StepSubmit(w, client, inputs, indices).flight.Some? && w.e.round == InputCollection)
  {
    hide SubmitBegin;
    SubmitBeginFrame(w.e, client, inputs, indices);
  }

  lemma {:induction false} WatchRoundFrame(w: World, kind: StreamKind, replayed: bool)
    ensures SameRoundState(w.e, StepWatch(w, kind, replayed).e)
  {
  }

  /** Only a vote and the end of a submission change the round, the votes or the recorded events. */
  lemma {:induction false} RoundFrame(c: Config, w: World, a: Action)
    requires ValidConfig(c) && Sized(w.e) && !a.Vote? && !a.SubmitRestore?
    ensures SameRoundState(w.e, Step(c, w, a).e)
  {
    hide StepReserve, StepSubmit, StepWatch, SendAll;
    match a
    case ReserveBatch(client, indices, delivered) => ReserveRoundFrame(w, client, indices, delivered);
    case SubmitBatch(client, inputs, indices) => SubmitRoundFrame(w, client, inputs, indices);
    case Watch(kind, replayed) => WatchRoundFrame(w, kind, replayed);
    case _ =>
  }

  lemma {:induction false} SettledSame(e: Exec, e': Exec, quorum: nat)
    requires SameRoundState(e, e') && AllSubmitted(e) == AllSubmitted(e')
    ensures Settled(e, quorum) == Settled(e', quorum)
  {
    SupportedSame(e, e', quorum, ORDERED_ROUNDS);
  }

  lemma {:induction false} SupportedSame(e: Exec, e': Exec, quorum: nat, rounds: seq<Round>)
    requires SameRoundState(e, e')
    ensures FirstSupported(e, quorum, rounds) == FirstSupported(e', quorum, rounds)
  {
    if rounds != [] {
      SupportedSame(e, e', quorum, rounds[1..]);
    }
  }

  /** In a settled state the only round that can have its quorum is `MPCExecution`, held back by a missing input. */
  lemma {:induction false} SettledMeans(e: Exec, quorum: nat, next: Round)
    requires Settled(e, quorum) && Supported(e, quorum, next)
    ensures next == MPCExecution && e.round == InputCollection && !AllSubmitted(e)
  {
    NextIsLater(e, quorum);
    hide NextQuorumRound, AllSubmitted;
  }

  /** The invariant of a run. While a submission is in flight the advance it owes is still to come. */
  ghost predicate WorldOk(c: Config, w: World)
    requires ValidConfig(c)
  {
    && Sized(w.e)
    && RoundsOk(c, w.e)
    && (w.flight.None? ==> Settled(w.e, TransitionQuorum(c)))
    && (w.flight.Some? ==> w.e.round == InputCollection)
  }

  lemma {:induction false} RoundsSame(c: Config, e: Exec, e': Exec)
    requires ValidConfig(c) && RoundsOk(c, e) && SameRoundState(e, e')
    requires e'.reservedStream.log == e.reservedStream.log || e.round == InputMaskReservation
    requires e'.maskedStream.log == e.maskedStream.log || e.round == InputCollection
    requires e'.masked == e.masked || e.round == InputCollection
    ensures RoundsOk(c, e')
  {
    hide EventFor, ValidConfig;
  }

  lemma {:induction false} QuietFlight(c: Config, w: World, a: Action)
    requires ValidConfig(c) && Sized(w.e) && (a.SendDone? || a.WatchRound? || a.Watch?)
    ensures Step(c, w, a).flight.None? <==> w.flight.None?
  {
    hide StepSendDone, StepWatchRound, StepWatch;
  }

  lemma {:induction false} QuietKeepsRounds(c: Config, w: World, a: Action)
    requires ValidConfig(c) && WorldOk(c, w) && (a.SendDone? || a.WatchRound? || a.Watch?)
    ensures WorldOk(c, Step(c, w, a)) && Step(c, w, a).e.round == w.e.round
  {
    hide Step, Settled, RoundsOk;
    RoundFrame(c, w, a);
    InputFrame(c, w, a);
    QuietFlight(c, w, a);
    var w' := Step(c, w, a);
    RoundsSame(c, w.e, w'.e);
    SettledSame(w.e, w'.e, TransitionQuorum(c));
  }

  lemma {:induction false} ReserveKeepsRounds(c: Config, w: World, client: Identity, indices: seq<u64>,
                                              delivered: set<SinkId>)
    requires ValidConfig(c) && WorldOk(c, w)
    ensures WorldOk(c, StepReserve(w, client, indices, delivered))
    ensures StepReserve(w, client, indices, delivered).e.round == w.e.round
  {
    ReserveRoundFrame(w, client, indices, delivered);
    var w' := StepReserve(w, client, indices, delivered);
    assert w'.e.maskedStream == w.e.maskedStream by { hide CheckReserve, AssignedReservations, ApplyReserved, Kept; }
    assert w'.e != w.e ==> w.e.round == InputMaskReservation by {
      hide FirstReserveError, AssignedReservations, ApplyReserved, Kept;
    }
    hide Settled, RoundsOk, StepReserve;
    RoundsSame(c, w.e, w'.e);
    SettledSame(w.e, w'.e, TransitionQuorum(c));
  }

  lemma {:induction false} SubmitKeepsRounds(c: Config, w: World, client: Identity, inputs: seq<Bytes>,
                                             indices: seq<u64>)
    requires ValidConfig(c) && WorldOk(c, w)
    ensures WorldOk(c, StepSubmit(w, client, inputs, indices))
    ensures StepSubmit(w, client, inputs, indices).e.round == w.e.round
  {
    hide Settled, RoundsOk, StepSubmit;
    SubmitRoundFrame(w, client, inputs, indices);
    var w' := StepSubmit(w, client, inputs, indices);
    RoundsSame(c, w.e, w'.e);
  }

  lemma {:induction false} VoteStepKeepsRounds(c: Config, w: World, party: Identity, next: Round)
    requires ValidConfig(c) && WorldOk(c, w)
    ensures var w' := StepVote(c, w, party, next);
      WorldOk(c, w') && RoundIndex(w'.e.round) >= RoundIndex(w.e.round)
  {
    hide RoundsOk, Settled, Propose;
    if w.flight.None? {
      VoteKeepsRounds(c, w.e, party, next);
    }
  }

  lemma {:induction false} RestoreKeepsRounds(c: Config, w: World)
    requires ValidConfig(c) && WorldOk(c, w)
    ensures var w' := StepRestore(c, w);
      WorldOk(c, w') && RoundIndex(w'.e.round) >= RoundIndex(w.e.round)
  {
    if w.flight.Some? && AllSent(w.flight.value) {
      var fl := w.flight.value;
      var e1 := Restored(w.e, fl.f, Reached(fl));
      assert RoundsOk(c, e1) by { hide Kept; }
      hide RoundsOk, Settled, Restored, Advance, Notify;
      AdvanceKeepsRounds(c, e1);
    }
  }

  lemma {:induction false} StepKeepsRounds(c: Config, w: World, a: Action)
    requires ValidConfig(c) && WorldOk(c, w)
    ensures WorldOk(c, Step(c, w, a)) && RoundIndex(Step(c, w, a).e.round) >= RoundIndex(w.e.round)
  {
    hide WorldOk, StepVote, StepReserve, StepSubmit, StepSendDone, StepRestore, StepWatchRound, StepWatch;
    match a
    case Vote(party, next) => VoteStepKeepsRounds(c, w, party, next);
    case SubmitRestore => RestoreKeepsRounds(c, w);
    case ReserveBatch(client, indices, delivered) => ReserveKeepsRounds(c, w, client, indices, delivered);
    case SubmitBatch(client, inputs, indices) => SubmitKeepsRounds(c, w, client, inputs, indices);
    case _ => QuietKeepsRounds(c, w, a);
  }

  lemma {:induction false} AlwaysRounds(c: Config, reg: Registration, actions: seq<Action>)
    requires Accepted(c, reg)
    ensures WorldOk(c, After(c, reg, actions))
  {
    if actions == [] {
      StartRounds(c, reg);
    } else {
      hide WorldOk, Step;
      var front := actions[..|actions| - 1];
      AlwaysRounds(c, reg, front);
      StepKeepsRounds(c, After(c, reg, front), actions[|actions| - 1]);
    }
  }

  lemma {:induction false} StartRounds(c: Config, reg: Registration)
    requires Accepted(c, reg)
    ensures WorldOk(c, Start(Initial(reg)))
  {
    NextIsLater(Initial(reg), TransitionQuorum(c));
  }

  // ---------------------------------------------------------------- theorems

  /** Rounds never go back, in any run. */
  lemma {:induction false} RoundsOnlyAdvance(c: Config, reg: Registration, before: seq<Action>, later: seq<Action>)
    requires Accepted(c, reg)
    ensures RoundIndex(After(c, reg, before).e.round) <= RoundIndex(After(c, reg, before + later).e.round)
  {
    hide WorldOk, Step;
    if later == [] {
      assert before + later == before;
    } else {
      var front := later[..|later| - 1];
      RoundsOnlyAdvance(c, reg, before, front);
      assert (before + later)[..|before + later| - 1] == before + front;
      AlwaysRounds(c, reg, before + front);
      StepKeepsRounds(c, After(c, reg, before + front), later[|later| - 1]);
    }
  }

  /** Applied rounds stay applied. */
  lemma {:induction false} EventsStay(c: Config, w: World, a: Action, r: Round)
    requires ValidConfig(c) && Sized(w.e) && r in w.e.events
    ensures r in Step(c, w, a).e.events
  {
    if a.Vote? {
      AdvanceKeepsEvent(Voted(w.e, a.party, a.next), TransitionQuorum(c), c.nodes[0], r);
    } else if a.SubmitRestore? {
      if w.flight.Some? {
        AdvanceKeepsEvent(Restored(w.e, w.flight.value.f, Reached(w.flight.value)), TransitionQuorum(c), c.nodes[0], r);
      }
    } else {
      RoundFrame(c, w, a);
    }
    hide StepReserve, StepSubmit, StepSendDone, StepWatchRound, StepWatch, Advance, Notify;
  }

  lemma {:induction false} AdvanceKeepsEvent(e: Exec, quorum: nat, head: Identity, r: Round)
    requires r in e.events
    ensures r in Advance(e, quorum, head).0.events
    decreases 6 - RoundIndex(e.round)
  {
    NextIsLater(e, quorum);
    var next := NextQuorumRound(e, quorum);
    if next.Some? && !Blocked(e, next.value) {
      AdvanceKeepsEvent(Transition(e, next.value, head), quorum, head, r);
    }
  }

  lemma {:induction false} CompleteOrSkipped(e: Exec)
    requires Sized(e) && PathOk(e) && FilledOk(e) && ReplayOk(e) && RoundIndex(e.round) >= RoundIndex(MPCExecution)
    ensures InputMaskReservation in e.events <==> InputCollection in e.events
    ensures InputCollection in e.events ==> AllSubmitted(e)
    ensures InputCollection !in e.events ==>
              && e.reservedStream.log == [] && e.maskedStream.log == []
              && forall i :: 0 <= i < |e.masked| ==> e.reserved[i].None? && e.masked[i].None?
  {
    hide ReplayAssignedMasked, ReplayAssignedReserved, ApplyMasked, ApplyReserved;
    if InputCollection !in e.events {
      assert e.reserved == ReplayReserved(e.reg.nInputs, []) && e.masked == ReplayMasked(e.reg.nInputs, []);
    }
  }

  /**
   * At or past `MPCExecution`, either both input rounds were applied and every slot is reserved and filled, or both
   * were skipped and nothing was ever reserved or submitted. So every slot is filled exactly when there are no slots or
   * the input rounds were not skipped: the skip edge is the only way to start on missing inputs.
   */
  lemma {:induction false} MpcStartsCompleteOrSkipped(c: Config, reg: Registration, actions: seq<Action>)
    requires Accepted(c, reg) && RoundIndex(After(c, reg, actions).e.round) >= RoundIndex(MPCExecution)
    ensures var e := After(c, reg, actions).e;
      || (InputMaskReservation in e.events && InputCollection in e.events && AllSubmitted(e)
          && forall i :: 0 <= i < |e.reserved| ==> e.reserved[i].Some?)
      || (InputMaskReservation !in e.events && InputCollection !in e.events
          && e.reservedStream.log == [] && e.maskedStream.log == []
          && forall i :: 0 <= i < |e.masked| ==> e.reserved[i].None? && e.masked[i].None?)
    ensures var e := After(c, reg, actions).e;
      AllSubmitted(e) <==> reg.nInputs == 0 || InputCollection in e.events
  {
    AlwaysRounds(c, reg, actions);
    AlwaysTables(c, reg, actions);
    var e := After(c, reg, actions).e;
    hide After, PathOk, FilledOk, ReplayOk, VotesOk, HeldOk, DisjointOk, Settled;
    CompleteOrSkipped(e);
    if InputCollection !in e.events && reg.nInputs > 0 {
      assert e.masked[0].None?;
    }
  }

  lemma {:induction false} ReserveNeedsRound(e: Exec, client: Identity, indices: seq<u64>, delivered: set<SinkId>)
    requires Reserve(e, client, indices, delivered).0.Ok?
    ensures e.round == InputMaskReservation
  {
    assert CheckReserve(e, client, indices).None? ==> e.round == InputMaskReservation;
    hide CheckReserve, AssignedReservations, ApplyReserved, Kept;
  }

  lemma {:induction false} StepFreezesTable(c: Config, w: World, a: Action)
    requires ValidConfig(c) && Sized(w.e) && RoundIndex(w.e.round) >= RoundIndex(InputCollection)
    ensures Step(c, w, a).e.reserved == w.e.reserved
  {
    InputFrame(c, w, a);
    hide Step, Reserve;
    match a
    case ReserveBatch(client, indices, delivered) =>
      if Reserve(w.e, client, indices, delivered).0.Ok? { ReserveNeedsRound(w.e, client, indices, delivered); }
    case SubmitBatch(client, inputs, indices) => hide CheckSubmit, AssignedInputs, ApplyMasked;
    case _ =>
  }

  lemma {:induction false} TableFrozen(c: Config, reg: Registration, before: seq<Action>, later: seq<Action>)
    requires Accepted(c, reg) && RoundIndex(After(c, reg, before).e.round) >= RoundIndex(InputCollection)
    ensures After(c, reg, before + later).e.reserved == After(c, reg, before).e.reserved
  {
    hide Step;
    if later == [] {
      assert before + later == before;
    } else {
      var front := later[..|later| - 1];
      TableFrozen(c, reg, before, front);
      assert (before + later)[..|before + later| - 1] == before + front;
      RoundsOnlyAdvance(c, reg, before, front);
      StepFreezesTable(c, After(c, reg, before + front), later[|later| - 1]);
    }
  }

  /** If MPC starts after input collection, every slot was already reserved when collection began. */
  lemma {:induction false} ReservedBeforeCollection(c: Config, reg: Registration, before: seq<Action>,
                                                    later: seq<Action>)
    requires Accepted(c, reg) && After(c, reg, before).e.round == InputCollection
    requires RoundIndex(After(c, reg, before + later).e.round) >= RoundIndex(MPCExecution)
    ensures var e := After(c, reg, before).e; forall i :: 0 <= i < |e.reserved| ==> e.reserved[i].Some?
  {
    TableFrozen(c, reg, before, later);
    AlwaysRounds(c, reg, before);
    assert InputCollection in After(c, reg, before).e.events;
    hide WorldOk;
    RunKeepsEvent(c, reg, before, later, InputCollection);
    MpcStartsCompleteOrSkipped(c, reg, before + later);
  }

  lemma {:induction false} RunKeepsEvent(c: Config, reg: Registration, before: seq<Action>, later: seq<Action>,
                                         r: Round)
    requires Accepted(c, reg) && r in After(c, reg, before).e.events
    ensures r in After(c, reg, before + later).e.events
  {
    hide Step;
    if later == [] {
      assert before + later == before;
    } else {
      var front := later[..|later| - 1];
      RunKeepsEvent(c, reg, before, front, r);
      assert (before + later)[..|before + later| - 1] == before + front;
      EventsStay(c, After(c, reg, before + front), later[|later| - 1], r);
    }
  }

  /**
   * Whenever no submission is in flight, a round that may follow and has its quorum can only be `MPCExecution` waiting
   * for a missing input. So votes that arrived early are never stranded, and the last input releases them by itself.
   */
  lemma {:induction false} NothingStranded(c: Config, reg: Registration, actions: seq<Action>, next: Round)
    requires Accepted(c, reg) && After(c, reg, actions).flight.None?
    requires Supported(After(c, reg, actions).e, TransitionQuorum(c), next)
    ensures var e := After(c, reg, actions).e;
      next == MPCExecution && e.round == InputCollection && !AllSubmitted(e)
  {
    hide RoundsOk, After, Settled, Supported;
    AlwaysRounds(c, reg, actions);
    SettledMeans(After(c, reg, actions).e, TransitionQuorum(c), next);
  }

  /** Any `n - t` roster parties that proposed the next round have advanced it, unless an input is still missing. */
  lemma {:induction false} LivePartiesSuffice(c: Config, reg: Registration, actions: seq<Action>, live: set<Identity>,
                                              next: Round)
    requires Accepted(c, reg) && After(c, reg, actions).flight.None?
    requires |live| >= c.n - c.t && live <= Votes(After(c, reg, actions).e, next)
    ensures RoundBefore(next) == Some(After(c, reg, actions).e.round) ==>
              next == MPCExecution && !AllSubmitted(After(c, reg, actions).e)
  {
    var e := After(c, reg, actions).e;
    SubsetCard(live, Votes(e, next));
    hide After;
    if RoundBefore(next) == Some(e.round) {
      NothingStranded(c, reg, actions, next);
    }
  }

  /**
   * Every applied round carries its own event and was proposed by a quorum of roster parties, so by a party outside any
   * given set of `t`. When `n <= 4t + 1`, the proposers of any two applied rounds have a party in common.
   */
  lemma {:induction false} AppliedByQuorum(c: Config, reg: Registration, actions: seq<Action>, r: Round)
    requires Accepted(c, reg) && r in After(c, reg, actions).e.events
    ensures var e := After(c, reg, actions).e;
      && r != Idle && e.events[r] == EventFor(r, c.nodes[0])
      && IsQuorum(c, Votes(e, r))
      && Votes(e, r) <= Roster(c) && (OutvotesFaults(c, Votes(e, r)) || |Votes(e, r)| >= c.n - c.t)
      && (forall faulty :: |faulty| <= c.t ==> Votes(e, r) - faulty != {})
      && (c.n <= 4 * c.t + 1 ==> forall s :: s in e.events ==> !Disjoint(Votes(e, r), Votes(e, s)))
  {
    AlwaysRounds(c, reg, actions);
    var e := After(c, reg, actions).e;
    assert forall s :: s in e.events ==> IsQuorum(c, Votes(e, s));
    hide WorldOk, After, IsQuorum, OutvotesFaults;
    QuorumIs(c, Votes(e, r));
    forall faulty: set<Identity> | |faulty| <= c.t ensures Votes(e, r) - faulty != {} {
      assert |Votes(e, r)| >= TransitionQuorum(c) by { assert IsQuorum(c, Votes(e, r)); }
      QuorumEscapesFaults(c, Votes(e, r), faulty);
    }
    QuorumsMeetIff(c);
  }
}
