/** The reservation and masked-input tables: replay, write-once, ownership, and the phase they are filled in. */
module InputProps {
  import opened Base
  import opened Rounds
  import opened Topology
  import opened Assignments
  import opened Streams
  import opened ExecutionModel
  import opened ExecutionRuns

  // ---------------------------------------------------------------- replay

  /** The tables a reader rebuilds from the event logs, starting from empty ones. */
  function ReplayReserved(n: nat, log: seq<ReservedEvent>): (r: seq<Option<Identity>>)
    ensures |r| == n
  {
    if log == [] then seq(n, _ => None)
    else ApplyReserved(ReplayReserved(n, log[..|log| - 1]), log[|log| - 1])
  }

  function ReplayMasked(n: nat, log: seq<MaskedEvent>): (r: seq<Option<Bytes>>)
    ensures |r| == n
  {
    if log == [] then seq(n, _ => None)
    else ApplyMasked(ReplayMasked(n, log[..|log| - 1]), log[|log| - 1])
  }

  function CountReserved(log: seq<ReservedEvent>): nat {
    if log == [] then 0 else CountReserved(log[..|log| - 1]) + |log[|log| - 1].indices|
  }

  function ReplayAssignedReserved(slots: seq<InputSlot>, log: seq<ReservedEvent>): seq<AssignedReservation> {
    if log == [] then []
    else
      var evt := log[|log| - 1];
      ReplayAssignedReserved(slots, log[..|log| - 1]) + AssignedReservations(slots, evt.client, evt.indices)
  }

  function ReplayAssignedMasked(slots: seq<InputSlot>, log: seq<MaskedEvent>): seq<AssignedMasked> {
    if log == [] then []
    else
      var evt := log[|log| - 1];
      ReplayAssignedMasked(slots, log[..|log| - 1]) + AssignedInputs(slots, evt.client, evt.pairs)
  }

  // ---------------------------------------------------------------- the invariants

  ghost predicate LayoutOk(e: Exec) {
    && Sized(e)
    && e.slots == Expand(e.reg.assignment.ranges)
    && KnownClients(e.reg.assignment)
    && (e.reg.assignment.ranges != [] ==> e.reg.nInputs == Total(e.reg.assignment.ranges))
  }

  ghost predicate ReplayOk(e: Exec) {
    && e.reserved == ReplayReserved(e.reg.nInputs, e.reservedStream.log)
    && e.masked == ReplayMasked(e.reg.nInputs, e.maskedStream.log)
    && e.nReserved == CountReserved(e.reservedStream.log)
    && e.assignedReservedStream.log == ReplayAssignedReserved(e.slots, e.reservedStream.log)
    && e.assignedMaskedStream.log == ReplayAssignedMasked(e.slots, e.maskedStream.log)
  }

  /** Every index a reservation event carries is reserved by that event's client, and the event is not empty. */
  ghost predicate ReservationHeld(e: Exec, evt: ReservedEvent) {
    evt.indices != [] && forall i :: i in evt.indices ==> i < |e.reserved| && e.reserved[i] == Some(evt.client)
  }

  /** Every index a masked-input event carries is reserved by its client and filled. */
  ghost predicate SubmissionHeld(e: Exec, evt: MaskedEvent) {
    && evt.pairs != []
    && |e.reserved| == |e.masked|
    && forall p :: p in evt.pairs ==> p.0 < |e.masked| && e.reserved[p.0] == Some(evt.client) && e.masked[p.0].Some?
  }

  ghost predicate HeldOk(e: Exec) {
    && (forall j :: 0 <= j < |e.reservedStream.log| ==> ReservationHeld(e, e.reservedStream.log[j]))
    && (forall j :: 0 <= j < |e.maskedStream.log| ==> SubmissionHeld(e, e.maskedStream.log[j]))
  }

  predicate DisjointReservations(a: ReservedEvent, b: ReservedEvent) {
    a.client != b.client && forall i :: i in a.indices ==> i !in b.indices
  }

  predicate DisjointSubmissions(a: MaskedEvent, b: MaskedEvent) {
    forall p, q :: p in a.pairs && q in b.pairs ==> p.0 != q.0
  }

  ghost predicate DisjointOk(e: Exec) {
    && (forall j, k :: 0 <= j < k < |e.reservedStream.log| ==>
          DisjointReservations(e.reservedStream.log[j], e.reservedStream.log[k]))
    && (forall j, k :: 0 <= j < k < |e.maskedStream.log| ==>
          DisjointSubmissions(e.maskedStream.log[j], e.maskedStream.log[k]))
  }

  /** A filled slot is a reserved slot, and an assigned slot is reserved only by the client it is assigned to. */
  ghost predicate OwnedOk(e: Exec) {
    && |e.reserved| == |e.masked|
    && (forall i :: 0 <= i < |e.masked| && e.masked[i].Some? ==> e.reserved[i].Some?)
    && (forall i :: 0 <= i < |e.reserved| && i < |e.slots| && e.reserved[i].Some? ==>
          e.reserved[i] == SlotClient(e.reg, e.slots[i]))
  }

  ghost predicate TablesOk(e: Exec) {
    LayoutOk(e) && ReplayOk(e) && HeldOk(e) && DisjointOk(e) && OwnedOk(e)
  }

  // ---------------------------------------------------------------- what a passed check means

  lemma {:induction false} LastInputIff(pairs: seq<(u64, Bytes)>, i: nat)
    ensures LastInput(pairs, i).Some? <==> exists p :: p in pairs && p.0 == i
    ensures LastInput(pairs, i).Some? ==> (i, LastInput(pairs, i).value) in pairs
  {
    if pairs != [] {
      var front, last := pairs[..|pairs| - 1], pairs[|pairs| - 1];
      assert pairs == front + [last];
      LastInputIff(front, i);
      assert forall p :: p in pairs <==> p in front || p == last;
    }
  }

  // ---------------------------------------------------------------- reservations

  lemma {:induction false} ReserveHolds(e: Exec, client: Identity, indices: seq<u64>, delivered: set<SinkId>)
    requires Sized(e) && HeldOk(e) && OwnedOk(e) && Reserve(e, client, indices, delivered).0.Ok?
    ensures HeldOk(Reserve(e, client, indices, delivered).1) && OwnedOk(Reserve(e, client, indices, delivered).1)
  {
    var e' := Reserve(e, client, indices, delivered).1;
    forall i | i in indices ensures CheckReserveIndex(e, client, i).None? { ReserveChecked(e, client, indices, i); }
    hide FirstReserveError, Kept, AssignedReservations;
    var log' := e'.reservedStream.log;
    forall j | 0 <= j < |log'| ensures ReservationHeld(e', log'[j]) {
      if j < |e.reservedStream.log| {
        assert ReservationHeld(e, log'[j]);
      }
    }
    forall j | 0 <= j < |e.maskedStream.log| ensures SubmissionHeld(e', e'.maskedStream.log[j]) {
      assert SubmissionHeld(e, e.maskedStream.log[j]);
    }
  }

  lemma {:induction false} ReserveDisjoint(e: Exec, client: Identity, indices: seq<u64>, delivered: set<SinkId>)
    requires Sized(e) && HeldOk(e) && DisjointOk(e) && Reserve(e, client, indices, delivered).0.Ok?
    ensures DisjointOk(Reserve(e, client, indices, delivered).1)
  {
    var e' := Reserve(e, client, indices, delivered).1;
    forall i | i in indices ensures CheckReserveIndex(e, client, i).None? { ReserveChecked(e, client, indices, i); }
    assert Some(client) !in e.reserved;
    hide FirstReserveError, Kept, AssignedReservations, ApplyReserved;
    var log, log' := e.reservedStream.log, e'.reservedStream.log;
    forall j, k | 0 <= j < k < |log'| ensures DisjointReservations(log'[j], log'[k]) {
      if k == |log| {
        assert ReservationHeld(e, log[j]);
        assert log[j].indices[0] in log[j].indices;
        assert e.reserved[log[j].indices[0]] == Some(log[j].client);
      }
    }
  }

  lemma {:induction false} ReservedPush(n: nat, slots: seq<InputSlot>, log: seq<ReservedEvent>, evt: ReservedEvent)
    ensures ReplayReserved(n, log + [evt]) == ApplyReserved(ReplayReserved(n, log), evt)
    ensures CountReserved(log + [evt]) == CountReserved(log) + |evt.indices|
    ensures ReplayAssignedReserved(slots, log + [evt])
         == ReplayAssignedReserved(slots, log) + AssignedReservations(slots, evt.client, evt.indices)
  {
    assert (log + [evt])[..|log|] == log;
    hide ApplyReserved, AssignedReservations;
  }

  lemma {:induction false} ReserveReplays(e: Exec, client: Identity, indices: seq<u64>, delivered: set<SinkId>)
    requires ReplayOk(e) && Reserve(e, client, indices, delivered).0.Ok?
    ensures ReplayOk(Reserve(e, client, indices, delivered).1)
  {
    hide CheckReserve, Kept, AssignedReservations, ApplyReserved, ReplayReserved, ReplayAssignedReserved, CountReserved,
      ReplayMasked, ReplayAssignedMasked;
    ReservedPush(e.reg.nInputs, e.slots, e.reservedStream.log, ReservedEvent(client, indices));
    assert e.assignedReservedStream.log + [] == e.assignedReservedStream.log;
  }

  // ---------------------------------------------------------------- submissions

  lemma {:induction false} SubmitHolds(e: Exec, client: Identity, inputs: seq<Bytes>, indices: seq<u64>)
    requires Sized(e) && HeldOk(e) && OwnedOk(e) && SubmitBegin(e, client, inputs, indices).0.Ok?
    ensures HeldOk(SubmitBegin(e, client, inputs, indices).1) && OwnedOk(SubmitBegin(e, client, inputs, indices).1)
  {
    var e' := SubmitBegin(e, client, inputs, indices).1;
    var pairs := Zip(indices, inputs);
    forall p | p in pairs ensures CheckSubmitIndex(e, client, p.0).None? { SubmitChecked(e, client, indices, p.0); }
    forall i: nat ensures LastInput(pairs, i).Some? <==> exists p :: p in pairs && p.0 == i { LastInputIff(pairs, i); }
    hide FirstSubmitError, AssignedInputs, LastInput, Zip;
    var log' := e'.maskedStream.log;
    forall j | 0 <= j < |log'| ensures SubmissionHeld(e', log'[j]) {
      if j < |e.maskedStream.log| {
        assert SubmissionHeld(e, log'[j]);
      }
    }
    forall j | 0 <= j < |e.reservedStream.log| ensures ReservationHeld(e', e'.reservedStream.log[j]) {
      assert ReservationHeld(e, e.reservedStream.log[j]);
    }
  }

  lemma {:induction false} SubmitDisjoint(e: Exec, client: Identity, inputs: seq<Bytes>, indices: seq<u64>)
    requires Sized(e) && HeldOk(e) && DisjointOk(e) && SubmitBegin(e, client, inputs, indices).0.Ok?
    ensures DisjointOk(SubmitBegin(e, client, inputs, indices).1)
  {
    var e' := SubmitBegin(e, client, inputs, indices).1;
    var pairs := Zip(indices, inputs);
    forall p | p in pairs ensures CheckSubmitIndex(e, client, p.0).None? { SubmitChecked(e, client, indices, p.0); }
    hide FirstSubmitError, AssignedInputs, ApplyMasked, Zip;
    var log, log' := e.maskedStream.log, e'.maskedStream.log;
    forall j, k | 0 <= j < k < |log'| ensures DisjointSubmissions(log'[j], log'[k]) {
      if k == |log| {
        assert SubmissionHeld(e, log[j]);
      }
    }
  }

  lemma {:induction false} SubmitReplays(e: Exec, client: Identity, inputs: seq<Bytes>, indices: seq<u64>)
    requires Sized(e) && ReplayOk(e) && SubmitBegin(e, client, inputs, indices).0.Ok?
    ensures ReplayOk(SubmitBegin(e, client, inputs, indices).1)
  {
    var evt := MaskedEvent(client, Zip(indices, inputs));
    hide CheckSubmit, AssignedInputs, ApplyMasked, Zip;
    var log := e.maskedStream.log;
    assert (log + [evt])[..|log|] == log;
    assert e.assignedMaskedStream.log + [] == e.assignedMaskedStream.log;
  }

  // ---------------------------------------------------------------- every step

  /** The parts of the state the tables live in. */
  ghost predicate SameInputState(e: Exec, e': Exec) {
    && e'.reg == e.reg && e'.slots == e.slots && e'.nReserved == e.nReserved
    && e'.reserved == e.reserved && e'.masked == e.masked
    && e'.reservedStream.log == e.reservedStream.log
    && e'.assignedReservedStream.log == e.assignedReservedStream.log
    && e'.maskedStream.log == e.maskedStream.log
    && e'.assignedMaskedStream.log == e.assignedMaskedStream.log
  }

  lemma {:induction false} SameTables(e: Exec, e': Exec)
    requires TablesOk(e) && SameInputState(e, e')
    ensures TablesOk(e')
  {
    assert HeldOk(e') by {
      forall j | 0 <= j < |e.reservedStream.log| ensures ReservationHeld(e', e'.reservedStream.log[j]) {
        assert ReservationHeld(e, e.reservedStream.log[j]);
      }
      forall j | 0 <= j < |e.maskedStream.log| ensures SubmissionHeld(e', e'.maskedStream.log[j]) {
        assert SubmissionHeld(e, e.maskedStream.log[j]);
      }
    }
  }

  lemma {:induction false} AdvanceKeepsInputs(e: Exec, e': Exec)
    requires e' == e.(round := e'.round, events := e'.events, roundSinks := e'.roundSinks, votes := e'.votes)
    ensures SameInputState(e, e')
  {
  }

  lemma {:induction false} ProposeFrame(c: Config, e: Exec, party: Identity, next: Round)
    requires ValidConfig(c)
    ensures SameInputState(e, Propose(c, e, party, next).1)
  {
    assert |c.nodes| > 0;
    hide Advance, TransitionQuorum, ValidConfig, SameInputState;
    var voted := e.(votes := e.votes[next := Votes(e, next) + {party}]);
    AdvanceFrame(voted, TransitionQuorum(c), c.nodes[0]);
    AdvanceKeepsInputs(e, e);
    AdvanceKeepsInputs(e, Advance(voted, TransitionQuorum(c), c.nodes[0]).0);
  }

  lemma {:induction false} VoteFrame(c: Config, w: World, party: Identity, next: Round)
    requires ValidConfig(c) && Sized(w.e)
    ensures SameInputState(w.e, StepVote(c, w, party, next).e)
  {
    ProposeFrame(c, w.e, party, next);
    hide Propose, Notify, ValidConfig;
  }

  lemma {:induction false} RestoreFrame(c: Config, w: World)
    requires ValidConfig(c) && Sized(w.e)
    ensures SameInputState(w.e, StepRestore(c, w).e)
  {
    hide Advance, Notify, Kept;
    if w.flight.Some? {
      var fl := w.flight.value;
      AdvanceFrame(Restored(w.e, fl.f, Reached(fl)), TransitionQuorum(c), c.nodes[0]);
    }
  }

  lemma {:induction false} WatchFrame(w: World, kind: StreamKind, replayed: bool)
    ensures SameInputState(w.e, StepWatch(w, kind, replayed).e)
  {
  }

  lemma {:induction false} ReserveStepIs(w: World, client: Identity, indices: seq<u64>, delivered: set<SinkId>)
    requires Sized(w.e)
    ensures var r, e' := Reserve(w.e, client, indices, delivered), StepReserve(w, client, indices, delivered).e;
      e' == w.e || (r.0.Ok? && r.1 == e')
  {
    hide Reserve, SendAll, Kept, AssignedReservations;
  }

  lemma {:induction false} SubmitStepIs(w: World, client: Identity, inputs: seq<Bytes>, indices: seq<u64>)
    requires Sized(w.e)
    ensures var r, e' := SubmitBegin(w.e, client, inputs, indices), StepSubmit(w, client, inputs, indices).e;
      e' == w.e || (w.flight.None? && r.0.Ok? && r.1 == e')
  {
    hide SubmitBegin;
  }

  lemma {:induction false} SubscribeRoundSame(e: Exec, sink: SinkId, r: Round)
    ensures SameInputState(e, SubscribeRound(e, sink, r).1)
  {
    hide SameInputState;
    AdvanceKeepsInputs(e, e);
    AdvanceKeepsInputs(e, SubscribeRound(e, sink, r).1);
  }

  lemma {:induction false} WatchRoundSame(w: World, r: Round)
    ensures SameInputState(w.e, StepWatchRound(w, r).e)
  {
    AdvanceKeepsInputs(w.e, w.e);
    SubscribeRoundSame(w.e, w.nextSink, r);
    hide SendAll, SubscribeRound, SameInputState;
  }

  /** Only an accepted reservation and an accepted submission touch the tables and the logs. */
  lemma {:induction false} InputFrame(c: Config, w: World, a: Action)
    requires ValidConfig(c) && Sized(w.e)
    ensures match a
      case ReserveBatch(client, indices, delivered) =>
        var r := Reserve(w.e, client, indices, delivered);
        Step(c, w, a).e == w.e || (r.0.Ok? && r.1 == Step(c, w, a).e)
      case SubmitBatch(client, inputs, indices) =>
        var r := SubmitBegin(w.e, client, inputs, indices);
        Step(c, w, a).e == w.e || (w.flight.None? && r.0.Ok? && r.1 == Step(c, w, a).e)
      case _ => SameInputState(w.e, Step(c, w, a).e)
  {
    hide StepVote, StepReserve, StepSubmit, StepSendDone, StepRestore, StepWatchRound, StepWatch, SubmitBegin, Reserve,
      ValidConfig;
    match a
    case Vote(party, next) => VoteFrame(c, w, party, next);
    case ReserveBatch(client, indices, delivered) => ReserveStepIs(w, client, indices, delivered);
    case SubmitBatch(client, inputs, indices) => SubmitStepIs(w, client, inputs, indices);
    case SendDone(_, _) =>
    case SubmitRestore => RestoreFrame(c, w);
    case WatchRound(r) => WatchRoundSame(w, r);
    case Watch(kind, replayed) => WatchFrame(w, kind, replayed);
  }

  lemma {:induction false} StepKeepsTables(c: Config, w: World, a: Action)
    requires ValidConfig(c) && Sized(w.e) && TablesOk(w.e)
    ensures TablesOk(Step(c, w, a).e)
  {
    InputFrame(c, w, a);
    var e' := Step(c, w, a).e;
    hide Step, HeldOk, DisjointOk, OwnedOk, ReplayOk, CheckSubmit, CheckReserve, AssignedInputs, AssignedReservations,
      Kept, ApplyMasked, ApplyReserved;
    match a
    case ReserveBatch(client, indices, delivered) =>
      if e' != w.e {
        ReserveHolds(w.e, client, indices, delivered);
        ReserveDisjoint(w.e, client, indices, delivered);
        ReserveReplays(w.e, client, indices, delivered);
      }
    case SubmitBatch(client, inputs, indices) =>
      if e' != w.e {
        SubmitHolds(w.e, client, inputs, indices);
        SubmitDisjoint(w.e, client, inputs, indices);
        SubmitReplays(w.e, client, inputs, indices);
      }
    case _ => SameTables(w.e, e');
  }

  lemma {:induction false} AlwaysTables(c: Config, reg: Registration, actions: seq<Action>)
    requires Accepted(c, reg)
    ensures TablesOk(After(c, reg, actions).e) && After(c, reg, actions).e.reg == reg
  {
    assert TablesOk(Initial(reg));
    if actions != [] {
      var front, a := actions[..|actions| - 1], actions[|actions| - 1];
      AlwaysTables(c, reg, front);
      StepKeepsTables(c, After(c, reg, front), a);
      InputFrame(c, After(c, reg, front), a);
      hide TablesOk, Step, CheckSubmit, CheckReserve;
    }
  }

  // ---------------------------------------------------------------- theorems

  /**
   * In every reachable state the tables, the reservation counter and the two assigned logs are exactly what a reader
   * rebuilds from the plain logs. No client has two reservation events, no two events share an index, and every index
   * an event carries is held by that event's client.
   */
  lemma {:induction false} TablesAreReplay(c: Config, reg: Registration, actions: seq<Action>)
    requires Accepted(c, reg)
    ensures var e := After(c, reg, actions).e;
      && e.reserved == ReplayReserved(reg.nInputs, e.reservedStream.log)
      && e.masked == ReplayMasked(reg.nInputs, e.maskedStream.log)
      && e.nReserved == CountReserved(e.reservedStream.log)
      && e.assignedReservedStream.log == ReplayAssignedReserved(e.slots, e.reservedStream.log)
      && e.assignedMaskedStream.log == ReplayAssignedMasked(e.slots, e.maskedStream.log)
      && DisjointOk(e) && HeldOk(e)
  {
    AlwaysTables(c, reg, actions);
  }

  lemma {:induction false} StepNeverRewrites(c: Config, w: World, a: Action, i: nat)
    requires ValidConfig(c) && Sized(w.e) && i < w.e.reg.nInputs
    ensures Step(c, w, a).e.reg == w.e.reg
    ensures w.e.reserved[i].Some? ==> Step(c, w, a).e.reserved[i] == w.e.reserved[i]
    ensures w.e.masked[i].Some? ==> Step(c, w, a).e.masked[i] == w.e.masked[i]
  {
    InputFrame(c, w, a);
    hide Step;
    match a
    case ReserveBatch(client, indices, delivered) =>
      if i in indices && CheckReserve(w.e, client, indices).None? { ReserveChecked(w.e, client, indices, i); }
      hide FirstReserveError, AssignedReservations, Kept;
    case SubmitBatch(client, inputs, indices) =>
      if CheckSubmit(w.e, client, inputs, indices).None? {
        if i in indices { SubmitChecked(w.e, client, indices, i); }
        LastInputIff(Zip(indices, inputs), i);
      }
      hide FirstSubmitError, AssignedInputs, LastInput;
    case _ =>
  }

  /** A slot, once reserved or filled, keeps its value for the rest of the run. */
  lemma {:induction false} SlotsAreWriteOnce(c: Config, reg: Registration, before: seq<Action>, later: seq<Action>,
                                             i: nat)
    requires Accepted(c, reg) && i < reg.nInputs
    ensures var e, e' := After(c, reg, before).e, After(c, reg, before + later).e;
      && e.reg == reg && e'.reg == reg
      && (e.reserved[i].Some? ==> e'.reserved[i] == e.reserved[i])
      && (e.masked[i].Some? ==> e'.masked[i] == e.masked[i])
  {
    hide TablesOk, Step;
    AlwaysTables(c, reg, before);
    if later == [] {
      assert before + later == before;
    } else {
      var front := later[..|later| - 1];
      SlotsAreWriteOnce(c, reg, before, front, i);
      assert (before + later)[..|before + later| - 1] == before + front;
      StepNeverRewrites(c, After(c, reg, before + front), later[|later| - 1], i);
    }
  }

  /** Whoever holds an assigned slot is the client the range layout assigns it to. */
  lemma {:induction false} ReservedByItsOwner(c: Config, reg: Registration, actions: seq<Action>, k: nat, i: nat)
    requires Accepted(c, reg) && k < |reg.assignment.ranges|
    requires Total(reg.assignment.ranges[..k]) <= i < Total(reg.assignment.ranges[..k + 1])
    ensures var e := After(c, reg, actions).e;
      && reg.assignment.ranges[k].clientIndex < |reg.assignment.clients|
      && i < |e.reserved|
      && (e.reserved[i].Some? ==> e.reserved[i].value == reg.assignment.clients[reg.assignment.ranges[k].clientIndex])
  {
    AlwaysTables(c, reg, actions);
    ExpandedSlot(reg.assignment.ranges, k, i);
  }

  // ---------------------------------------------------------------- the reservation counter

  function CarriedIndices(log: seq<ReservedEvent>): set<u64> {
    if log == [] then {} else CarriedIndices(log[..|log| - 1]) + Elements(log[|log| - 1].indices)
  }

  ghost predicate NoRepeats(log: seq<ReservedEvent>) {
    forall j :: 0 <= j < |log| ==> NoDup(log[j].indices)
  }

  function Occupied(table: seq<Option<Identity>>): set<u64>
    requires |table| < 0x1_0000_0000_0000_0000
  {
    set i: u64 | i < |table| && table[i].Some?
  }

  lemma {:induction false} CarriedIn(log: seq<ReservedEvent>, i: u64)
    ensures i in CarriedIndices(log) <==> exists j :: 0 <= j < |log| && i in log[j].indices
  {
    if log != [] {
      var front := log[..|log| - 1];
      CarriedIn(front, i);
      assert forall j :: 0 <= j < |front| ==> front[j] == log[j];
    }
  }

  lemma {:induction false} ReplayOccupies(n: u64, log: seq<ReservedEvent>)
    requires forall j, i :: 0 <= j < |log| && i in log[j].indices ==> i < n
    ensures Occupied(ReplayReserved(n, log)) == CarriedIndices(log)
  {
    if log != [] {
      var front := log[..|log| - 1];
      assert forall j :: 0 <= j < |front| ==> front[j] == log[j];
      ReplayOccupies(n, front);
    }
  }

  /** The counter is at least the number of slots carried, with equality exactly when no batch repeats an index. */
  lemma {:induction false} CountIff(log: seq<ReservedEvent>)
    requires forall j, k :: 0 <= j < k < |log| ==> DisjointReservations(log[j], log[k])
    ensures |CarriedIndices(log)| <= CountReserved(log)
    ensures |CarriedIndices(log)| == CountReserved(log) <==> NoRepeats(log)
  {
    if log != [] {
      var front, last := log[..|log| - 1], log[|log| - 1];
      assert forall j :: 0 <= j < |front| ==> front[j] == log[j];
      CountIff(front);
      NoDupCard(last.indices);
      forall i | i in CarriedIndices(front) ensures i !in last.indices {
        CarriedIn(front, i);
        var j :| 0 <= j < |front| && i in front[j].indices;
        assert DisjointReservations(log[j], last);
      }
      assert CarriedIndices(front) !! Elements(last.indices);
      assert |CarriedIndices(log)| == |CarriedIndices(front)| + |Elements(last.indices)|;
      assert NoRepeats(log) <==> NoRepeats(front) && NoDup(last.indices);
    }
  }

  /**
   * `available_input_masks` reports the number of free slots exactly when no reservation batch so far repeats an
   * index; otherwise it reports fewer, or its subtraction goes below zero.
   */
  lemma {:induction false} AvailableIffNoRepeats(c: Config, reg: Registration, actions: seq<Action>)
    requires Accepted(c, reg)
    ensures var e := After(c, reg, actions).e;
      && |Occupied(e.reserved)| <= e.nReserved
      && (AvailableInputMasks(e) == Some(reg.nInputs - |Occupied(e.reserved)|) <==> NoRepeats(e.reservedStream.log))
  {
    AlwaysTables(c, reg, actions);
    hide After, TablesOk, New, Occupied, NoRepeats, AvailableInputMasks;
    AvailableOf(After(c, reg, actions).e);
  }

  lemma {:induction false} AvailableOf(e: Exec)
    requires TablesOk(e)
    ensures Sized(e) && |Occupied(e.reserved)| <= e.nReserved
    ensures AvailableInputMasks(e) == Some(e.reg.nInputs - |Occupied(e.reserved)|) <==> NoRepeats(e.reservedStream.log)
  {
    var log := e.reservedStream.log;
    forall j, i | 0 <= j < |log| && i in log[j].indices ensures i < e.reg.nInputs {
      assert ReservationHeld(e, log[j]);
    }
    hide ReplayReserved, ReplayMasked, ReplayAssignedMasked, ReplayAssignedReserved, CarriedIndices, CountReserved,
      Occupied, HeldOk, OwnedOk, DisjointReservations, DisjointSubmissions, NoRepeats;
    ReplayOccupies(e.reg.nInputs, log);
    CountIff(log);
    OccupiedBound(e.reserved);
  }

  lemma {:induction false} OccupiedBound(table: seq<Option<Identity>>)
    requires |table| < 0x1_0000_0000_0000_0000
    ensures |Occupied(table)| <= |table|
  {
    if table != [] {
      var front := table[..|table| - 1];
      OccupiedBound(front);
      SubsetCard(Occupied(table), Occupied(front) + {|table| - 1});
    }
  }
}
