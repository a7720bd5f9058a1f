/**
 * What the requests of parties and clients are answered, and what is recorded of them, in every run of an execution:
 * told from the logs and the range layout alone.
 */
module Requests {
  import opened Base
  import opened Rounds
  import opened Topology
  import opened Assignments
  import opened Streams
  import opened ExecutionModel
  import opened ExecutionRuns
  import opened InputProps
  import opened RoundProps
  import opened AssignedLogs

  // ---------------------------------------------------------------- proposals

  /** Action `n` is a proposal of `r` by `party` that was still ahead of the execution and did not have to wait. */
  ghost predicate Proposes(c: Config, reg: Registration, actions: seq<Action>, n: int, party: Identity, r: Round)
    requires Accepted(c, reg)
  {
    && 0 <= n < |actions| && actions[n] == Vote(party, r)
    && After(c, reg, actions[..n]).flight.None?
    && RoundIndex(After(c, reg, actions[..n]).e.round) < RoundIndex(r)
  }

  ghost predicate Counted(c: Config, w: World, a: Action, w': World, party: Identity, r: Round) {
    party in Votes(w'.e, r) <==>
      || party in Votes(w.e, r)
      || (a == Vote(party, r) && w.flight.None? && RoundIndex(w.e.round) < RoundIndex(r) && party in c.nodes)
  }

  lemma {:induction false} VoteStepCounts(c: Config, w: World, p: Identity, next: Round, party: Identity, r: Round)
    requires ValidConfig(c) && Sized(w.e)
    ensures Counted(c, w, Vote(p, next), StepVote(c, w, p, next), party, r)
  {
    hide Propose, Notify, ValidConfig, Sized;
    ProposeVotes(c, w.e, p, next);
  }

  lemma {:induction false} VoteCounts(c: Config, w: World, a: Action, party: Identity, r: Round)
    requires ValidConfig(c) && Sized(w.e)
    ensures Counted(c, w, a, Step(c, w, a), party, r)
  {
    match a {
      case Vote(p, next) =>
        hide StepVote, ValidConfig, Sized, Counted;
        VoteStepCounts(c, w, p, next, party, r);
      case SubmitRestore =>
        hide StepRestore, ValidConfig, Sized;
        RestoreVotes(c, w);
      case _ =>
        hide Step, ValidConfig, Sized;
        RoundFrame(c, w, a);
    }
  }

  lemma {:induction false} ProposeVotes(c: Config, e: Exec, party: Identity, next: Round)
    requires ValidConfig(c)
    ensures Propose(c, e, party, next).1.votes
         == if party in c.nodes && RoundIndex(e.round) < RoundIndex(next)
            then e.votes[next := Votes(e, next) + {party}] else e.votes
  {
    var voted := e.(votes := e.votes[next := Votes(e, next) + {party}]);
    AdvanceFrame(voted, TransitionQuorum(c), c.nodes[0]);
    hide Advance, ValidConfig, TransitionQuorum;
  }

  lemma {:induction false} RestoreVotes(c: Config, w: World)
    requires ValidConfig(c) && Sized(w.e)
    ensures StepRestore(c, w).e.votes == w.e.votes
  {
    if w.flight.Some? {
      var fl := w.flight.value;
      AdvanceFrame(Restored(w.e, fl.f, Reached(fl)), TransitionQuorum(c), c.nodes[0]);
    }
    hide Advance, Notify, ValidConfig, TransitionQuorum, Kept;
  }

  lemma {:induction false} ProposesPush(c: Config, reg: Registration, actions: seq<Action>, party: Identity, r: Round)
    requires Accepted(c, reg) && actions != []
    ensures var last := |actions| - 1;
      (exists n :: Proposes(c, reg, actions, n, party, r)) <==>
        (exists n :: Proposes(c, reg, actions[..last], n, party, r)) || Proposes(c, reg, actions, last, party, r)
  {
    hide After, New;
    var last := |actions| - 1;
    var front := actions[..last];
    assert forall n :: 0 <= n < last ==> front[..n] == actions[..n] && front[n] == actions[n];
    if n :| Proposes(c, reg, front, n, party, r) { assert Proposes(c, reg, actions, n, party, r); }
    if n :| Proposes(c, reg, actions, n, party, r) {
      if n < last { assert Proposes(c, reg, front, n, party, r); }
    }
  }

  /** The recorded proposals of a round are exactly those that roster parties made while it was still ahead. */
  lemma {:induction false} VotesAreProposals(c: Config, reg: Registration, actions: seq<Action>, party: Identity,
                                             r: Round)
    requires Accepted(c, reg)
    ensures party in Votes(After(c, reg, actions).e, r) <==>
      party in Roster(c) && exists n :: Proposes(c, reg, actions, n, party, r)
  {
    if actions != [] {
      var front, a := actions[..|actions| - 1], actions[|actions| - 1];
      VotesAreProposals(c, reg, front, party, r);
      VoteCounts(c, After(c, reg, front), a, party, r);
      ProposesPush(c, reg, actions, party, r);
      hide Step, Votes;
    }
  }

  /** No round is applied that nobody proposed. */
  lemma {:induction false} AppliedWasProposed(c: Config, reg: Registration, actions: seq<Action>, r: Round)
    returns (n: nat)
    requires Accepted(c, reg) && r in After(c, reg, actions).e.events
    ensures n < |actions| && actions[n].Vote? && actions[n].next == r && actions[n].party in Roster(c)
  {
    hide After, New, Roster, ValidConfig, OutvotesFaults;
    AppliedByQuorum(c, reg, actions, r);
    var none: set<Identity> := {};
    assert |none| <= c.t;
    var party :| party in Votes(After(c, reg, actions).e, r) - none;
    VotesAreProposals(c, reg, actions, party, r);
    n :| Proposes(c, reg, actions, n, party, r);
  }

  /** A proposal is refused only to strangers and only for `Idle`; a late one is accepted and does nothing. */
  lemma {:induction false} ProposalIsAnswered(c: Config, reg: Registration, actions: seq<Action>, party: Identity,
                                              next: Round)
    requires Accepted(c, reg)
    ensures var e := After(c, reg, actions).e;
      && Propose(c, e, party, next).0
         == (if party !in Roster(c) then Err(NotParty) else if next == Idle then Err(InvalidRound) else Ok(()))
      && (Propose(c, e, party, next).0.Err? || RoundIndex(next) <= RoundIndex(e.round) ==>
            Propose(c, e, party, next).1 == e && Propose(c, e, party, next).2 == [])
  {
    hide After, Advance, TransitionQuorum;
  }

  /** The rounds applied on the way to `round`. */
  predicate OnTheWay(round: Round, applied: set<Round>) {
    var short := {Preprocessing, MPCExecution};
    var long := {Preprocessing, InputMaskReservation, InputCollection, MPCExecution};
    match round
    case Idle => applied == {}
    case Preprocessing => applied == {Preprocessing}
    case InputMaskReservation => applied == {Preprocessing, InputMaskReservation}
    case InputCollection => applied == {Preprocessing, InputMaskReservation, InputCollection}
    case MPCExecution => applied == short || applied == long
    case OutputDistribution => applied == short + {OutputDistribution} || applied == long + {OutputDistribution}
    case ProgramFinished =>
      var rest := applied - {OutputDistribution};
      rest == short + {ProgramFinished} || rest == long + {ProgramFinished}
  }

  lemma {:induction false} PathIsOnTheWay(e: Exec)
    requires PathOk(e)
    ensures OnTheWay(e.round, e.events.Keys)
  {
    var keys := e.events.Keys;
    assert forall r :: r in keys ==> RoundIndex(r) <= RoundIndex(e.round) && r != Idle;
    assert e.round != Idle ==> e.round in keys;
    var late := keys - {OutputDistribution, ProgramFinished};
    if RoundIndex(e.round) >= 4 {
      if InputCollection in keys {
        assert late == {Preprocessing, InputMaskReservation, InputCollection, MPCExecution};
      } else {
        assert late == {Preprocessing, MPCExecution};
      }
    }
    match e.round {
      case Idle => assert keys == {};
      case Preprocessing => assert keys == {Preprocessing};
      case InputMaskReservation => assert keys == {Preprocessing, InputMaskReservation};
      case InputCollection => assert keys == {Preprocessing, InputMaskReservation, InputCollection};
      case MPCExecution => assert late == keys;
      case OutputDistribution => assert late + {OutputDistribution} == keys;
      case ProgramFinished => assert late + {ProgramFinished} == keys - {OutputDistribution};
    }
  }

  /**
   * Which rounds have been applied, in every run: all up to the current one, except that the two input rounds may both
   * be missing, and at the end the output round may.
   */
  lemma {:induction false} AppliedRounds(c: Config, reg: Registration, actions: seq<Action>)
    requires Accepted(c, reg)
    ensures OnTheWay(After(c, reg, actions).e.round, After(c, reg, actions).e.events.Keys)
  {
    AlwaysRounds(c, reg, actions);
    hide After, OnTheWay, PathOk;
    PathIsOnTheWay(After(c, reg, actions).e);
  }

  // ---------------------------------------------------------------- the tables, from the logs

  /** Event `j` reserves slot `i`. */
  predicate ReservesAt(log: seq<ReservedEvent>, j: int, i: u64) {
    0 <= j < |log| && i in log[j].indices
  }

  predicate FillsAt(log: seq<MaskedEvent>, j: int, i: u64) {
    0 <= j < |log| && exists k :: 0 <= k < |log[j].pairs| && log[j].pairs[k].0 == i
  }

  ghost predicate Taken(log: seq<ReservedEvent>, i: u64) {
    exists j :: ReservesAt(log, j, i)
  }

  ghost predicate TakenBy(log: seq<ReservedEvent>, client: Identity, i: u64) {
    exists j :: ReservesAt(log, j, i) && log[j].client == client
  }

  ghost predicate HasReserved(log: seq<ReservedEvent>, client: Identity) {
    exists j :: 0 <= j < |log| && log[j].client == client
  }

  ghost predicate Filled(log: seq<MaskedEvent>, i: u64) {
    exists j :: FillsAt(log, j, i)
  }

  lemma {:induction false} ReplaySource(n: nat, log: seq<ReservedEvent>, i: u64)
    requires i < n && ReplayReserved(n, log)[i].Some?
    ensures TakenBy(log, ReplayReserved(n, log)[i].value, i)
  {
    if log != [] {
      var front, evt := log[..|log| - 1], log[|log| - 1];
      if i in evt.indices {
        assert ReservesAt(log, |log| - 1, i);
      } else {
        ReplaySource(n, front, i);
        var j :| ReservesAt(front, j, i) && front[j].client == ReplayReserved(n, front)[i].value;
        assert ReservesAt(log, j, i) && log[j].client == front[j].client;
      }
    }
  }

  lemma {:induction false} MaskedSource(n: nat, log: seq<MaskedEvent>, i: u64)
    requires i < n
    ensures ReplayMasked(n, log)[i].Some? <==> Filled(log, i)
  {
    if log != [] {
      var front, evt := log[..|log| - 1], log[|log| - 1];
      MaskedSource(n, front, i);
      LastInputIff(evt.pairs, i);
      assert (exists p :: p in evt.pairs && p.0 == i) <==> FillsAt(log, |log| - 1, i);
      if j :| FillsAt(front, j, i) { assert FillsAt(log, j, i); }
      if j :| FillsAt(log, j, i) {
        if j < |log| - 1 { assert front[j] == log[j] && FillsAt(front, j, i); }
      }
    }
  }

  /** Who holds a slot and whether it is filled, from the logs. */
  lemma {:induction false} TablesFromLogs(e: Exec, i: u64, client: Identity)
    requires TablesOk(e) && i < |e.reserved|
    ensures |e.masked| == |e.reserved|
    ensures e.reserved[i].Some? <==> Taken(e.reservedStream.log, i)
    ensures e.reserved[i] == Some(client) <==> TakenBy(e.reservedStream.log, client, i)
    ensures e.masked[i].Some? <==> Filled(e.maskedStream.log, i)
  {
    var log := e.reservedStream.log;
    MaskedSource(e.reg.nInputs, e.maskedStream.log, i);
    if e.reserved[i].Some? { ReplaySource(e.reg.nInputs, log, i); }
    hide ReplayReserved, ReplayMasked, DisjointOk, OwnedOk, Filled;
    if j :| ReservesAt(log, j, i) { assert ReservationHeld(e, log[j]); }
    if TakenBy(log, client, i) {
      var j :| ReservesAt(log, j, i) && log[j].client == client;
      assert ReservationHeld(e, log[j]);
    }
  }

  /** The last input of a batch for a slot stays on record for it. */
  lemma {:induction false} ReplayedInput(n: nat, log: seq<MaskedEvent>, j: nat, k: nat)
    requires forall x, y :: 0 <= x < y < |log| ==> DisjointSubmissions(log[x], log[y])
    requires j < |log| && k < |log[j].pairs| && log[j].pairs[k].0 < n
    requires forall x :: k < x < |log[j].pairs| ==> log[j].pairs[x].0 != log[j].pairs[k].0
    ensures ReplayMasked(n, log)[log[j].pairs[k].0] == Some(log[j].pairs[k].1)
  {
    var front, evt, p := log[..|log| - 1], log[|log| - 1], log[j].pairs[k];
    if j < |log| - 1 {
      ReplayedInput(n, front, j, k);
      assert DisjointSubmissions(log[j], evt) && p in log[j].pairs;
      LastInputIff(evt.pairs, p.0);
    } else {
      LastWins(evt.pairs, k);
    }
  }

  lemma {:induction false} LastWins(pairs: seq<(u64, Bytes)>, k: nat)
    requires k < |pairs| && forall x :: k < x < |pairs| ==> pairs[x].0 != pairs[k].0
    ensures LastInput(pairs, pairs[k].0) == Some(pairs[k].1)
  {
    if k < |pairs| - 1 { LastWins(pairs[..|pairs| - 1], k); }
  }

  /** Which input is on record, in every run: of the batch that filled the slot, the last one given for it. */
  lemma {:induction false} InputOnRecord(c: Config, reg: Registration, actions: seq<Action>, j: nat, k: nat)
    requires Accepted(c, reg) && j < |After(c, reg, actions).e.maskedStream.log|
    requires var pairs := After(c, reg, actions).e.maskedStream.log[j].pairs;
      k < |pairs| && forall x :: k < x < |pairs| ==> pairs[x].0 != pairs[k].0
    ensures var e := After(c, reg, actions).e;
      var p := e.maskedStream.log[j].pairs[k];
      p.0 < |e.masked| && e.masked[p.0] == Some(p.1)
  {
    AlwaysTables(c, reg, actions);
    var e := After(c, reg, actions).e;
    hide After, New, ReplayMasked, ReplayReserved, OwnedOk;
    assert SubmissionHeld(e, e.maskedStream.log[j]);
    assert e.maskedStream.log[j].pairs[k] in e.maskedStream.log[j].pairs;
    ReplayedInput(reg.nInputs, e.maskedStream.log, j, k);
  }

  lemma {:induction false} ReservedOnce(e: Exec, client: Identity)
    requires TablesOk(e)
    ensures Some(client) in e.reserved <==> HasReserved(e.reservedStream.log, client)
  {
    var log := e.reservedStream.log;
    if Some(client) in e.reserved {
      var i :| 0 <= i < |e.reserved| && e.reserved[i] == Some(client);
      TablesFromLogs(e, i, client);
    }
    if j :| 0 <= j < |log| && log[j].client == client {
      assert ReservationHeld(e, log[j]);
      assert log[j].indices[0] in log[j].indices;
      assert e.reserved[log[j].indices[0]] == Some(client);
    }
  }

  // ---------------------------------------------------------------- reservations

  /** Slot `i` lies in a range of `client`. */
  ghost predicate InRangeOf(a: InputAssignment, client: Identity, i: nat) {
    exists ordinal: nat :: SlotNumber(a, i, client, ordinal)
  }

  lemma {:induction false} SlotIsInRange(reg: Registration, client: Identity, i: nat)
    requires KnownClients(reg.assignment) && i < Total(reg.assignment.ranges)
    ensures i < |Expand(reg.assignment.ranges)|
    ensures SlotClient(reg, Expand(reg.assignment.ranges)[i]) == Some(client) <==> InRangeOf(reg.assignment, client, i)
  {
    ExpandLength(reg.assignment.ranges);
    hide Expand, Total, SlotNumber;
    forall ordinal: nat ensures SlotNumber(reg.assignment, i, client, ordinal) <==>
      SlotClient(reg, Expand(reg.assignment.ranges)[i]) == Some(client)
      && ordinal == Expand(reg.assignment.ranges)[i].ordinal
    {
      SlotIsNumbered(reg, i, client, ordinal);
    }
    assert SlotNumber(reg.assignment, i, client, Expand(reg.assignment.ranges)[i].ordinal) <==>
      SlotClient(reg, Expand(reg.assignment.ranges)[i]) == Some(client);
  }

  /** What is wrong with reserving slot `i`, if anything. */
  ghost function ReserveFlaw(reg: Registration, log: seq<ReservedEvent>, client: Identity, i: u64): Option<RpcError> {
    if i >= reg.nInputs then Some(IndexOutOfBounds)
    else if Taken(log, i) then Some(IndexAlreadyReserved)
    else if reg.assignment.ranges != [] && !InRangeOf(reg.assignment, client, i) then Some(UnauthorizedClientIo)
    else None
  }

  lemma {:induction false} ReserveFlawIs(e: Exec, client: Identity, i: u64)
    requires TablesOk(e)
    ensures CheckReserveIndex(e, client, i) == ReserveFlaw(e.reg, e.reservedStream.log, client, i)
  {
    ExpandLength(e.reg.assignment.ranges);
    hide ReplayOk, HeldOk, DisjointOk, OwnedOk, Taken, InRangeOf, Expand;
    if i < |e.reserved| {
      TablesFromLogs(e, i, client);
      if e.reg.assignment.ranges != [] { SlotIsInRange(e.reg, client, i); }
    }
    assert Expand([]) == [] by { NoRanges(); }
  }

  lemma {:induction false} NoRanges()
    ensures Expand([]) == []
  {
  }

  /** `err` is the flaw of the first index that has one. */
  ghost predicate FirstFlaw(flaws: seq<Option<RpcError>>, err: Option<RpcError>) {
    match err
    case None => forall k :: 0 <= k < |flaws| ==> flaws[k].None?
    case Some(_) => exists k :: 0 <= k < |flaws| && flaws[k] == err && forall j :: 0 <= j < k ==> flaws[j].None?
  }

  ghost function ReserveFlaws(reg: Registration, log: seq<ReservedEvent>, client: Identity, indices: seq<u64>)
    : (r: seq<Option<RpcError>>)
    ensures |r| == |indices|
  {
    seq(|indices|, k requires 0 <= k < |indices| => ReserveFlaw(reg, log, client, indices[k]))
  }

  lemma {:induction false} FirstFlawCons(flaws: seq<Option<RpcError>>, err: Option<RpcError>)
    requires flaws != []
    ensures FirstFlaw(flaws, err) <== if flaws[0].Some? then err == flaws[0] else FirstFlaw(flaws[1..], err)
  {
    if flaws[0].None? && FirstFlaw(flaws[1..], err) {
      assert forall k :: 1 <= k < |flaws| ==> flaws[1..][k - 1] == flaws[k];
      if err.Some? {
        var k :| 0 <= k < |flaws| - 1 && flaws[1..][k] == err && forall j :: 0 <= j < k ==> flaws[1..][j].None?;
        assert flaws[k + 1] == err;
      }
    }
  }

  lemma {:induction false} FirstReserveFlaw(e: Exec, client: Identity, indices: seq<u64>)
    requires TablesOk(e)
    ensures FirstFlaw(ReserveFlaws(e.reg, e.reservedStream.log, client, indices), FirstReserveError(e, client, indices))
  {
    hide TablesOk, ReserveFlaw, CheckReserveIndex;
    if indices != [] {
      var log := e.reservedStream.log;
      ReserveFlawIs(e, client, indices[0]);
      FirstReserveFlaw(e, client, indices[1..]);
      var flaws := ReserveFlaws(e.reg, log, client, indices);
      assert flaws[1..] == ReserveFlaws(e.reg, log, client, indices[1..]);
      hide FirstFlaw;
      FirstFlawCons(flaws, FirstReserveError(e, client, indices));
    }
  }

  /** What a reservation is answered. */
  ghost predicate ReserveAnswered(reg: Registration, e: Exec, client: Identity, indices: seq<u64>,
                                  err: Option<RpcError>) {
    var log := e.reservedStream.log;
    if e.round != InputMaskReservation then err == Some(WrongRound)
    else if indices == [] then err == Some(EmptyBatch)
    else if HasReserved(log, client) then err == Some(ClientAlreadyReserved)
    else FirstFlaw(ReserveFlaws(reg, log, client, indices), err)
  }

  lemma {:induction false} ReserveAnswer(e: Exec, client: Identity, indices: seq<u64>)
    requires TablesOk(e)
    ensures ReserveAnswered(e.reg, e, client, indices, CheckReserve(e, client, indices))
  {
    hide TablesOk, ReserveFlaws, FirstFlaw, FirstReserveError, HasReserved;
    ReservedOnce(e, client);
    FirstReserveFlaw(e, client, indices);
  }

  function ErrorOf<T>(r: Result<T, RpcError>): Option<RpcError> {
    if r.Ok? then None else Some(r.error)
  }

  /**
   * What a reservation is answered and leaves behind, in every run: it is refused outside its round, when empty, when
   * the client has reserved before, and otherwise for the first of its slots that does not exist, is taken, or is
   * assigned to somebody else. One that is not refused is logged as it was asked for, and only such requests are.
   */
  lemma {:induction false} ReservationIsAnswered(c: Config, reg: Registration, actions: seq<Action>, client: Identity,
                                                 indices: seq<u64>, delivered: set<SinkId>)
    requires Accepted(c, reg)
    ensures var e := After(c, reg, actions).e;
      var err := ErrorOf(Reserve(e, client, indices, delivered).0);
      && ReserveAnswered(reg, e, client, indices, err)
      && After(c, reg, actions + [ReserveBatch(client, indices, delivered)]).e.reservedStream.log
         == e.reservedStream.log + (if err.None? then [ReservedEvent(client, indices)] else [])
  {
    AlwaysTables(c, reg, actions);
    AfterOne(c, reg, actions, ReserveBatch(client, indices, delivered));
    var w := After(c, reg, actions);
    hide After, New, TablesOk, ReserveAnswered;
    ReserveAnswer(w.e, client, indices);
    ReserveLogs(w, client, indices, delivered);
  }

  lemma {:induction false} AfterOne(c: Config, reg: Registration, actions: seq<Action>, a: Action)
    requires Accepted(c, reg)
    ensures After(c, reg, actions + [a]) == Step(c, After(c, reg, actions), a)
  {
    assert (actions + [a])[..|actions|] == actions;
    hide Step;
  }

  lemma {:induction false} ReserveLogs(w: World, client: Identity, indices: seq<u64>, delivered: set<SinkId>)
    requires Sized(w.e)
    ensures ErrorOf(Reserve(w.e, client, indices, delivered).0) == CheckReserve(w.e, client, indices)
    ensures StepReserve(w, client, indices, delivered).e.reservedStream.log
         == w.e.reservedStream.log
            + (if CheckReserve(w.e, client, indices).None? then [ReservedEvent(client, indices)] else [])
  {
    hide CheckReserve, AssignedReservations, ApplyReserved, Kept, SendAll;
    assert w.e.reservedStream.log + [] == w.e.reservedStream.log;
  }

  // ---------------------------------------------------------------- submissions

  /** What is wrong with submitting an input for slot `i`, if anything. */
  ghost function SubmitFlaw(reg: Registration, e: Exec, client: Identity, i: u64): Option<RpcError> {
    if i >= reg.nInputs then Some(IndexOutOfBounds)
    else if !Taken(e.reservedStream.log, i) then Some(IndexNotReserved)
    else if !TakenBy(e.reservedStream.log, client, i) then Some(BadId)
    else if Filled(e.maskedStream.log, i) then Some(MaskedInputAlreadySubmitted)
    else None
  }

  ghost function SubmitFlaws(reg: Registration, e: Exec, client: Identity,
                             indices: seq<u64>): (r: seq<Option<RpcError>>)
    ensures |r| == |indices|
  {
    seq(|indices|, k requires 0 <= k < |indices| => SubmitFlaw(reg, e, client, indices[k]))
  }

  lemma {:induction false} SubmitFlawIs(e: Exec, client: Identity, i: u64)
    requires TablesOk(e)
    ensures |e.reserved| == |e.masked| && CheckSubmitIndex(e, client, i) == SubmitFlaw(e.reg, e, client, i)
  {
    hide ReplayOk, HeldOk, DisjointOk, OwnedOk, Taken, TakenBy, Filled;
    if i < |e.reserved| { TablesFromLogs(e, i, client); }
  }

  lemma {:induction false} FirstSubmitFlaw(e: Exec, client: Identity, indices: seq<u64>)
    requires TablesOk(e)
    ensures |e.reserved| == |e.masked|
    ensures FirstFlaw(SubmitFlaws(e.reg, e, client, indices), FirstSubmitError(e, client, indices))
  {
    assert |e.reserved| == |e.masked|;
    hide TablesOk, SubmitFlaw, CheckSubmitIndex;
    if indices != [] {
      SubmitFlawIs(e, client, indices[0]);
      FirstSubmitFlaw(e, client, indices[1..]);
      var flaws := SubmitFlaws(e.reg, e, client, indices);
      assert flaws[1..] == SubmitFlaws(e.reg, e, client, indices[1..]);
      hide FirstFlaw;
      FirstFlawCons(flaws, FirstSubmitError(e, client, indices));
    }
  }

  /** What a submission is answered. */
  ghost predicate SubmitAnswered(reg: Registration, e: Exec, client: Identity, inputs: seq<Bytes>, indices: seq<u64>,
                                 err: Option<RpcError>) {
    if e.round != InputCollection then err == Some(WrongRound)
    else if |inputs| != |indices| then err == Some(MismatchedBatchLengths)
    else if indices == [] then err == Some(EmptyBatch)
    else FirstFlaw(SubmitFlaws(reg, e, client, indices), err)
  }

  /** The masked-input log grew by the batch, slot by slot as it was given. */
  ghost predicate Logged(log: seq<MaskedEvent>, log': seq<MaskedEvent>, client: Identity, inputs: seq<Bytes>,
                         indices: seq<u64>) {
    && |log'| == |log| + 1 && log'[..|log|] == log
    && log'[|log|].client == client && |log'[|log|].pairs| == |indices| == |inputs|
    && forall k :: 0 <= k < |indices| ==> log'[|log|].pairs[k] == (indices[k], inputs[k])
  }

  lemma {:induction false} SubmitLogs(w: World, client: Identity, inputs: seq<Bytes>, indices: seq<u64>)
    requires Sized(w.e)
    ensures ErrorOf(SubmitBegin(w.e, client, inputs, indices).0) == CheckSubmit(w.e, client, inputs, indices)
    ensures var log, log' := w.e.maskedStream.log, StepSubmit(w, client, inputs, indices).e.maskedStream.log;
      if w.flight.None? && CheckSubmit(w.e, client, inputs, indices).None?
      then Logged(log, log', client, inputs, indices) else log' == log
  {
    hide FirstSubmitError, AssignedInputs, ApplyMasked;
  }

  lemma {:induction false} SubmitAnswer(e: Exec, client: Identity, inputs: seq<Bytes>, indices: seq<u64>)
    requires TablesOk(e)
    ensures |e.reserved| == |e.masked|
    ensures SubmitAnswered(e.reg, e, client, inputs, indices, CheckSubmit(e, client, inputs, indices))
  {
    FirstSubmitFlaw(e, client, indices);
    hide TablesOk, SubmitFlaws, FirstFlaw, FirstSubmitError;
  }

  /**
   * What a submission is answered and leaves behind, in every run: it is refused outside its round, when its lengths
   * differ, when empty, and otherwise for the first of its slots that does not exist, is not reserved, is reserved by
   * another client, or has an input. One that is not refused, and does not have to wait for another, is logged with
   * every input at its slot, and only such requests are.
   */
  lemma {:induction false} SubmissionIsAnswered(c: Config, reg: Registration, actions: seq<Action>, client: Identity,
                                                inputs: seq<Bytes>, indices: seq<u64>)
    requires Accepted(c, reg)
    ensures var w := After(c, reg, actions);
      && |w.e.reserved| == |w.e.masked|
      && var err := ErrorOf(SubmitBegin(w.e, client, inputs, indices).0);
         var log := w.e.maskedStream.log;
         var log' := After(c, reg, actions + [SubmitBatch(client, inputs, indices)]).e.maskedStream.log;
         && SubmitAnswered(reg, w.e, client, inputs, indices, err)
         && if w.flight.None? && err.None? then Logged(log, log', client, inputs, indices) else log' == log
  {
    AlwaysTables(c, reg, actions);
    AfterOne(c, reg, actions, SubmitBatch(client, inputs, indices));
    var w := After(c, reg, actions);
    hide After, New, TablesOk, SubmitAnswered, Logged;
    SubmitAnswer(w.e, client, inputs, indices);
    SubmitLogs(w, client, inputs, indices);
  }

  /** Nothing else touches the two plain logs. */
  lemma {:induction false} OnlyRequestsAreLogged(c: Config, reg: Registration, actions: seq<Action>, a: Action)
    requires Accepted(c, reg)
    ensures var e, e' := After(c, reg, actions).e, After(c, reg, actions + [a]).e;
      && (!a.ReserveBatch? ==> e'.reservedStream.log == e.reservedStream.log)
      && (!a.SubmitBatch? ==> e'.maskedStream.log == e.maskedStream.log)
  {
    AfterOne(c, reg, actions, a);
    InputFrame(c, After(c, reg, actions), a);
    hide After, Step, CheckSubmit, CheckReserve, AssignedInputs, AssignedReservations, ApplyMasked, ApplyReserved, Kept;
  }
}
