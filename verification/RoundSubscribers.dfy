/** Each subscriber to a round is told of it exactly once if it is ever applied, and never otherwise. */
module RoundSubscribers {
  import opened Base
  import opened Rounds
  import opened Topology
  import opened Streams
  import opened ExecutionModel
  import opened ExecutionRuns
  import opened RoundProps

  /** What a subscriber to `r` must have been sent so far. */
  function Owed(events: map<Round, RoundEvent>, r: Round): seq<seq<RoundNote>> {
    if r in events then [[RoundNote(r, events[r])]] else []
  }

  /** A waiting list holds each of its subscribers once and holds nobody else's. */
  ghost predicate ListsOk(e: Exec, subs: map<SinkId, Round>) {
    && (forall r :: r in e.roundSinks ==> r !in e.events)
    && (forall r :: r in e.roundSinks ==> NoDup(e.roundSinks[r]))
    && (forall r, s :: r in e.roundSinks && s in e.roundSinks[r] ==> s in subs && subs[s] == r)
    && (forall s :: s in subs && subs[s] !in e.events ==> s in Waiting(e, subs[s]))
  }

  ghost predicate ToldOk(events: map<Round, RoundEvent>, wire: Wire<RoundNote>, subs: map<SinkId, Round>) {
    forall s :: s in subs ==> Received(wire, s) == Owed(events, subs[s])
  }

  ghost predicate NumbersOk(wire: Wire<RoundNote>, subs: map<SinkId, Round>, bound: SinkId) {
    (forall s :: s in subs ==> s < bound) && (forall s :: s in wire ==> s < bound)
  }

  ghost predicate SubsOk(w: World) {
    ListsOk(w.e, w.roundSubs) && ToldOk(w.e.events, w.roundWire, w.roundSubs)
      && NumbersOk(w.roundWire, w.roundSubs, w.nextSink)
  }

  lemma {:induction false} TransitionLists(e: Exec, next: Round, head: Identity, subs: map<SinkId, Round>)
    requires ListsOk(e, subs) && next != Idle
    ensures ListsOk(Transition(e, next, head), subs)
  {
    var e' := Transition(e, next, head);
    forall s | s in subs && subs[s] !in e'.events ensures s in Waiting(e', subs[s]) {
      assert s in Waiting(e, subs[s]);
    }
  }

  lemma {:induction false} TransitionTold(e: Exec, wire: Wire<RoundNote>, next: Round, head: Identity,
                                          subs: map<SinkId, Round>)
    requires ListsOk(e, subs) && ToldOk(e.events, wire, subs) && next != Idle && next !in e.events
    ensures ToldOk(Transition(e, next, head).events,
                   SendAll(wire, Waiting(e, next), [RoundNote(next, EventFor(next, head))]), subs)
  {
    var e' := Transition(e, next, head);
    var list, note := Waiting(e, next), [RoundNote(next, EventFor(next, head))];
    forall s | s in subs ensures Received(SendAll(wire, list, note), s) == Owed(e'.events, subs[s]) {
      SendAllReceived(wire, list, note, s);
    }
  }

  lemma {:induction false} TransitionNumbers(e: Exec, wire: Wire<RoundNote>, next: Round, note: seq<RoundNote>,
                                             subs: map<SinkId, Round>, bound: SinkId)
    requires ListsOk(e, subs) && NumbersOk(wire, subs, bound)
    ensures NumbersOk(SendAll(wire, Waiting(e, next), note), subs, bound)
  {
    var list := Waiting(e, next);
    var wire' := SendAll(wire, list, note);
    assert NoDup(list) && forall s :: s in list ==> s in subs;
    hide SendAll, ListsOk, NoDup;
    forall s | s in wire' ensures s < bound {
      SendAllReceived(wire, list, note, s);
    }
  }

  lemma {:induction false} AdvanceTells(e: Exec, quorum: nat, head: Identity, wire: Wire<RoundNote>,
                                        subs: map<SinkId, Round>, bound: SinkId)
    requires ListsOk(e, subs) && ToldOk(e.events, wire, subs) && NumbersOk(wire, subs, bound)
    requires forall r :: r in e.events ==> RoundIndex(r) <= RoundIndex(e.round)
    ensures var (e', ds) := Advance(e, quorum, head);
      ListsOk(e', subs) && ToldOk(e'.events, Notify(wire, ds), subs) && NumbersOk(Notify(wire, ds), subs, bound)
    decreases 6 - RoundIndex(e.round)
  {
    NextIsLater(e, quorum);
    var next := NextQuorumRound(e, quorum);
    if next.Some? && !Blocked(e, next.value) {
      var r := next.value;
      var note := [RoundNote(r, EventFor(r, head))];
      var e1, wire1 := Transition(e, r, head), SendAll(wire, Waiting(e, r), note);
      TransitionLists(e, r, head, subs);
      TransitionTold(e, wire, r, head, subs);
      TransitionNumbers(e, wire, r, note, subs, bound);
      AdvanceTells(e1, quorum, head, wire1, subs, bound);
      var rest := Advance(e1, quorum, head);
      var d := Delivery(r, EventFor(r, head), Waiting(e, r));
      assert Advance(e, quorum, head) == (rest.0, [d] + rest.1);
      assert ([d] + rest.1)[1..] == rest.1;
      assert Notify(wire, [d] + rest.1) == Notify(wire1, rest.1);
      hide ListsOk, ToldOk, NumbersOk;
    }
  }

  lemma {:induction false} SameLists(e: Exec, e': Exec, subs: map<SinkId, Round>)
    requires ListsOk(e, subs) && e'.roundSinks == e.roundSinks && e'.events == e.events
    ensures ListsOk(e', subs)
  {
    forall s | s in subs && subs[s] !in e'.events ensures s in Waiting(e', subs[s]) {
      assert s in Waiting(e, subs[s]);
    }
  }

  lemma {:induction false} ProposeTells(c: Config, e: Exec, party: Identity, next: Round, wire: Wire<RoundNote>,
                                        subs: map<SinkId, Round>, bound: SinkId)
    requires ValidConfig(c) && PathOk(e)
    requires ListsOk(e, subs) && ToldOk(e.events, wire, subs) && NumbersOk(wire, subs, bound)
    ensures var (_, e', ds) := Propose(c, e, party, next);
      ListsOk(e', subs) && ToldOk(e'.events, Notify(wire, ds), subs) && NumbersOk(Notify(wire, ds), subs, bound)
  {
    hide ListsOk, ToldOk, NumbersOk, Advance;
    var e1 := Voted(e, party, next);
    SameLists(e, e1, subs);
    AdvanceTells(e1, TransitionQuorum(c), c.nodes[0], wire, subs, bound);
  }

  lemma {:induction false} VoteTells(c: Config, w: World, party: Identity, next: Round)
    requires ValidConfig(c) && Sized(w.e) && SubsOk(w) && PathOk(w.e)
    ensures SubsOk(StepVote(c, w, party, next))
  {
    hide ListsOk, ToldOk, NumbersOk, Propose, Notify, PathOk, ValidConfig;
    ProposeTells(c, w.e, party, next, w.roundWire, w.roundSubs, w.nextSink);
  }

  lemma {:induction false} RestoreTells(c: Config, w: World)
    requires ValidConfig(c) && Sized(w.e) && SubsOk(w) && PathOk(w.e)
    ensures SubsOk(StepRestore(c, w))
  {
    if w.flight.Some? {
      var fl := w.flight.value;
      var e1 := Restored(w.e, fl.f, Reached(fl));
      SameLists(w.e, e1, w.roundSubs);
      hide ListsOk;
      AdvanceTells(e1, TransitionQuorum(c), c.nodes[0], w.roundWire, w.roundSubs, w.nextSink);
      hide ListsOk, ToldOk, NumbersOk, PathOk, Advance, Notify, Restored;
    }
  }

  lemma {:induction false} ListsPush(e: Exec, subs: map<SinkId, Round>, r: Round, s0: SinkId)
    requires ListsOk(e, subs) && s0 !in subs && r !in e.events
    ensures ListsOk(e.(roundSinks := e.roundSinks[r := Waiting(e, r) + [s0]]), subs[s0 := r])
  {
    var e', subs' := e.(roundSinks := e.roundSinks[r := Waiting(e, r) + [s0]]), subs[s0 := r];
    NoDupParts(Waiting(e, r), [s0]);
    forall s | s in subs' && subs'[s] !in e'.events ensures s in Waiting(e', subs'[s]) {
      if s != s0 { assert s in Waiting(e, subs'[s]); }
    }
  }

  lemma {:induction false} ListsJoin(e: Exec, subs: map<SinkId, Round>, r: Round, s0: SinkId)
    requires ListsOk(e, subs) && s0 !in subs && r in e.events
    ensures ListsOk(e, subs[s0 := r])
  {
  }

  lemma {:induction false} ToldPush(e: Exec, wire: Wire<RoundNote>, subs: map<SinkId, Round>, r: Round, s0: SinkId)
    requires ToldOk(e.events, wire, subs) && s0 !in subs && s0 !in wire
    ensures r !in e.events ==> ToldOk(e.events, wire, subs[s0 := r])
    ensures r in e.events ==> ToldOk(e.events, SendAll(wire, [s0], [RoundNote(r, e.events[r])]), subs[s0 := r])
  {
    if r in e.events {
      var note := [RoundNote(r, e.events[r])];
      SendOne(wire, s0, note);
      assert Received(wire[s0 := [] + [note]], s0) == [note];
      hide SendAll;
    }
  }

  lemma {:induction false} NumbersPush(wire: Wire<RoundNote>, subs: map<SinkId, Round>, r: Round, s0: SinkId,
                                       note: seq<RoundNote>)
    requires NumbersOk(wire, subs, s0)
    ensures s0 !in subs && s0 !in wire
    ensures NumbersOk(wire, subs[s0 := r], s0 + 1)
    ensures NumbersOk(SendAll(wire, [s0], note), subs[s0 := r], s0 + 1)
  {
    SendOne(wire, s0, note);
    hide SendAll, Received;
  }

  lemma {:induction false} WatchTells(w: World, r: Round)
    requires SubsOk(w)
    ensures SubsOk(StepWatchRound(w, r))
  {
    hide ListsOk, ToldOk, NumbersOk, SendAll, Received, Waiting;
    var s0 := w.nextSink;
    if r != Idle {
      if r in w.e.events {
        NumbersPush(w.roundWire, w.roundSubs, r, s0, [RoundNote(r, w.e.events[r])]);
        ListsJoin(w.e, w.roundSubs, r, s0);
      } else {
        NumbersPush(w.roundWire, w.roundSubs, r, s0, []);
        ListsPush(w.e, w.roundSubs, r, s0);
      }
      ToldPush(w.e, w.roundWire, w.roundSubs, r, s0);
    }
  }

  /** The round books: subscriptions, what they were sent, waiting lists and recorded events. */
  ghost predicate SameBooks(w: World, w': World) {
    && w'.roundSubs == w.roundSubs && w'.roundWire == w.roundWire && w'.nextSink >= w.nextSink
    && w'.e.roundSinks == w.e.roundSinks && w'.e.events == w.e.events
  }

  lemma {:induction false} BooksKeepSubs(w: World, w': World)
    requires SubsOk(w) && SameBooks(w, w')
    ensures SubsOk(w')
  {
    forall s | s in w.roundSubs && w.roundSubs[s] !in w.e.events ensures s in Waiting(w'.e, w.roundSubs[s]) {
      assert s in Waiting(w.e, w.roundSubs[s]);
    }
  }

  lemma {:induction false} ReserveBooks(w: World, client: Identity, indices: seq<u64>, delivered: set<SinkId>)
    requires Sized(w.e)
    ensures SameBooks(w, StepReserve(w, client, indices, delivered))
  {
    hide CheckReserve, AssignedReservations, ApplyReserved, Kept, SendAll;
  }

  lemma {:induction false} SubmitBooks(w: World, client: Identity, inputs: seq<Bytes>, indices: seq<u64>)
    requires Sized(w.e)
    ensures SameBooks(w, StepSubmit(w, client, inputs, indices))
  {
    hide SubmitBegin;
    if w.flight.None? { SubmitBeginBooks(w.e, client, inputs, indices); }
  }

  lemma {:induction false} SubmitBeginBooks(e: Exec, client: Identity, inputs: seq<Bytes>, indices: seq<u64>)
    requires |e.reserved| == |e.masked|
    ensures SubmitBegin(e, client, inputs, indices).1.roundSinks == e.roundSinks
    ensures SubmitBegin(e, client, inputs, indices).1.events == e.events
  {
    hide CheckSubmit, AssignedInputs, ApplyMasked, Zip;
  }

  lemma {:induction false} WatchBooks(w: World, kind: StreamKind, replayed: bool)
    ensures SameBooks(w, StepWatch(w, kind, replayed))
  {
    hide Singly, AsBatch;
  }

  lemma {:induction false} QuietSubs(c: Config, w: World, a: Action)
    requires ValidConfig(c) && Sized(w.e) && SubsOk(w) && !a.Vote? && !a.SubmitRestore? && !a.WatchRound?
    ensures SubsOk(Step(c, w, a))
  {
    hide SubsOk, StepReserve, StepSubmit, StepWatch, SendAll;
    match a {
      case ReserveBatch(client, indices, delivered) => ReserveBooks(w, client, indices, delivered);
      case SubmitBatch(client, inputs, indices) => SubmitBooks(w, client, inputs, indices);
      case Watch(kind, replayed) => WatchBooks(w, kind, replayed);
      case SendDone(_, _) =>
    }
    BooksKeepSubs(w, Step(c, w, a));
  }

  lemma {:induction false} StepKeepsSubs(c: Config, w: World, a: Action)
    requires ValidConfig(c) && Sized(w.e) && SubsOk(w) && PathOk(w.e)
    ensures SubsOk(Step(c, w, a))
  {
    hide SubsOk, StepVote, StepReserve, StepSubmit, StepSendDone, StepRestore, StepWatchRound, StepWatch, PathOk;
    match a
    case Vote(party, next) => VoteTells(c, w, party, next);
    case SubmitRestore => RestoreTells(c, w);
    case WatchRound(r) => WatchTells(w, r);
    case _ => QuietSubs(c, w, a);
  }

  lemma {:induction false} AlwaysTold(c: Config, reg: Registration, actions: seq<Action>)
    requires Accepted(c, reg)
    ensures SubsOk(After(c, reg, actions))
  {
    assert SubsOk(Start(Initial(reg)));
    hide SubsOk, Step;
    if actions != [] {
      var front := actions[..|actions| - 1];
      AlwaysTold(c, reg, front);
      AlwaysRounds(c, reg, front);
      StepKeepsSubs(c, After(c, reg, front), actions[|actions| - 1]);
    }
  }

  /**
   * In every reachable state, a subscriber to round `r`, whenever it subscribed, has been selected for exactly one
   * send, carrying the event of `r`, if `r` has been applied, and for none otherwise; and exactly then it still waits.
   */
  lemma {:induction false} ToldExactlyOnce(c: Config, reg: Registration, actions: seq<Action>, s: SinkId)
    requires Accepted(c, reg) && s in After(c, reg, actions).roundSubs
    ensures var w := After(c, reg, actions); var r := w.roundSubs[s];
      && Received(w.roundWire, s) == (if r in w.e.events then [[RoundNote(r, w.e.events[r])]] else [])
      && (s in Waiting(w.e, r) <==> r !in w.e.events)
      && NoDup(Waiting(w.e, r))
      && w.e.roundSinks.Keys !! w.e.events.Keys
  {
    AlwaysTold(c, reg, actions);
  }

  /** What a subscriber to `r` has been sent once `r` is applied. */
  ghost predicate ToldOnly(w: World, s: SinkId, r: Round, event: RoundEvent) {
    Received(w.roundWire, s) == [[RoundNote(r, event)]]
  }

  /**
   * What subscribers are told, in every run: preprocessing is announced with the first party of the roster, and every
   * other round by its own name.
   */
  lemma {:induction false} EventsAnnounced(c: Config, reg: Registration, actions: seq<Action>, s: SinkId)
    requires Accepted(c, reg) && s in After(c, reg, actions).roundSubs
    requires After(c, reg, actions).roundSubs[s] in After(c, reg, actions).e.events
    ensures var w := After(c, reg, actions);
      match w.roundSubs[s]
      case Idle => false
      case Preprocessing => ToldOnly(w, s, Preprocessing, PreprocessingStarted(c.nodes[0]))
      case InputMaskReservation => ToldOnly(w, s, InputMaskReservation, InputMaskReservationStarted)
      case InputCollection => ToldOnly(w, s, InputCollection, InputCollectionStarted)
      case MPCExecution => ToldOnly(w, s, MPCExecution, MPCStarted)
      case OutputDistribution => ToldOnly(w, s, OutputDistribution, OutputSendingStarted)
      case ProgramFinished => ToldOnly(w, s, ProgramFinished, ExecutionDone)
  {
    hide After, New;
    AppliedByQuorum(c, reg, actions, After(c, reg, actions).roundSubs[s]);
    ToldExactlyOnce(c, reg, actions, s);
  }
}
