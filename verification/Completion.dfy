/** Input collection can still lead to MPC exactly when every slot was reserved before it began. */
module Completion {
  import opened Base
  import opened Rounds
  import opened Topology
  import opened Streams
  import opened ExecutionModel
  import opened ExecutionRuns
  import opened InputProps
  import opened RoundProps
  import opened VoteConfluence
  import opened VoteOrder

  /** A world of a run: what every step keeps. */
  ghost predicate Sound(c: Config, w: World)
    requires ValidConfig(c)
  {
    WorldOk(c, w) && TablesOk(w.e)
  }

  lemma {:induction false} StepStaysSound(c: Config, w: World, a: Action)
    requires ValidConfig(c) && Sound(c, w)
    ensures Sized(w.e) && Sound(c, Step(c, w, a)) && RoundIndex(Step(c, w, a).e.round) >= RoundIndex(w.e.round)
  {
    StepKeepsRounds(c, w, a);
    StepKeepsTables(c, w, a);
    hide Step, TablesOk, RoundsOk, Settled;
  }

  lemma {:induction false} RunStaysSound(c: Config, w: World, acts: seq<Action>)
    requires ValidConfig(c) && Sound(c, w)
    ensures Sized(w.e) && Sound(c, Run(c, w, acts)) && RoundIndex(Run(c, w, acts).e.round) >= RoundIndex(w.e.round)
  {
    assert Sized(w.e);
    hide Sound, Step;
    if acts != [] {
      RunStaysSound(c, w, acts[..|acts| - 1]);
      StepStaysSound(c, Run(c, w, acts[..|acts| - 1]), acts[|acts| - 1]);
    }
  }

  // ---------------------------------------------------------------- ending the submission in flight

  function Sends(sinks: seq<SinkId>): seq<Action> {
    if sinks == [] then [] else Sends(sinks[..|sinks| - 1]) + [SendDone(sinks[|sinks| - 1], true)]
  }

  lemma {:induction false} SendsFinish(c: Config, w: World, sinks: seq<SinkId>)
    requires ValidConfig(c) && Sized(w.e) && w.flight.Some?
    requires forall s :: s in sinks ==> s in w.flight.value.f.sinks || s in w.flight.value.f.assignedSinks
    ensures var w' := Run(c, w, Sends(sinks));
      && w'.e == w.e && w'.flight.Some? && w'.flight.value.f == w.flight.value.f
      && (forall s :: s in sinks ==> s in w'.flight.value.done)
  {
    if sinks != [] {
      var front, s := sinks[..|sinks| - 1], sinks[|sinks| - 1];
      assert sinks == front + [s];
      SendsFinish(c, w, front);
      var acts := Sends(sinks);
      assert acts[..|acts| - 1] == Sends(front) && acts[|acts| - 1] == SendDone(s, true);
      hide SendAll, Sends, ValidConfig;
    }
  }

  lemma {:induction false} RestoreLands(c: Config, w: World)
    requires ValidConfig(c) && Sized(w.e) && w.flight.Some? && AllSent(w.flight.value)
    ensures var w' := Step(c, w, SubmitRestore);
      w'.flight.None? && w'.e.reserved == w.e.reserved && w'.e.masked == w.e.masked
  {
    var fl := w.flight.value;
    AdvanceFrame(Restored(w.e, fl.f, Reached(fl)), TransitionQuorum(c), c.nodes[0]);
    hide Advance, Notify, ValidConfig, TransitionQuorum, Kept;
  }

  /** Every send of the submission in flight succeeds and its second lock section runs. */
  lemma {:induction false} EndFlight(c: Config, w: World) returns (acts: seq<Action>)
    requires ValidConfig(c) && Sized(w.e) && w.flight.Some?
    ensures var w' := Run(c, w, acts); w'.flight.None? && w'.e.reserved == w.e.reserved && w'.e.masked == w.e.masked
  {
    var f := w.flight.value.f;
    var sends := Sends(f.sinks + f.assignedSinks);
    SendsFinish(c, w, f.sinks + f.assignedSinks);
    acts := sends + [SubmitRestore];
    assert acts[..|acts| - 1] == sends;
    hide Sends;
    RestoreLands(c, Run(c, w, sends));
    hide Step;
  }

  // ---------------------------------------------------------------- filling the slots

  ghost predicate AllReserved(e: Exec) {
    forall i :: 0 <= i < |e.reserved| ==> e.reserved[i].Some?
  }

  /** The client that reserved slot `i` submits an input for it. */
  lemma {:induction false} FillSlot(c: Config, w: World, i: u64)
    requires ValidConfig(c) && Sized(w.e) && w.flight.None? && w.e.round == InputCollection
    requires i < |w.e.masked| && w.e.reserved[i].Some? && w.e.masked[i].None?
    ensures var w' := Step(c, w, SubmitBatch(w.e.reserved[i].value, [[]], [i]));
      && w'.flight.Some? && w'.e.reserved == w.e.reserved && |w'.e.masked| == |w.e.masked| && w'.e.masked[i].Some?
      && (forall j :: 0 <= j < |w.e.masked| && w.e.masked[j].Some? ==> w'.e.masked[j].Some?)
  {
    var client, inputs: seq<Bytes> := w.e.reserved[i].value, [[]];
    assert CheckSubmitIndex(w.e, client, i) == None;
    assert [i][1..] == [];
    assert FirstSubmitError(w.e, client, [i]) == None;
    var pairs := Zip([i], inputs);
    assert pairs[0] == (i, []) && pairs[0] in pairs;
    LastInputIff(pairs, i);
    hide FirstSubmitError, AssignedInputs, LastInput, ValidConfig;
  }

  lemma {:induction false} FewerUnfilled(before: seq<Option<Bytes>>, after: seq<Option<Bytes>>, i: nat)
    requires |before| == |after| && i < |before| && before[i].None? && after[i].Some?
    requires forall j :: 0 <= j < |before| && before[j].Some? ==> after[j].Some?
    ensures |Unfilled(after)| < |Unfilled(before)|
  {
    assert i in Unfilled(before) && i !in Unfilled(after);
    assert Unfilled(after) <= Unfilled(before) - {i};
    SubsetCard(Unfilled(after), Unfilled(before) - {i});
  }

  lemma {:induction false} FillAndEnd(c: Config, w: World, i: u64) returns (acts: seq<Action>)
    requires ValidConfig(c) && Sized(w.e) && w.flight.None? && w.e.round == InputCollection
    requires i < |w.e.masked| && w.e.reserved[i].Some? && w.e.masked[i].None?
    ensures var w' := Run(c, w, acts);
      w'.flight.None? && w'.e.reserved == w.e.reserved && |Unfilled(w'.e.masked)| < |Unfilled(w.e.masked)|
  {
    hide Step, Run, ValidConfig, Unfilled;
    var submit := SubmitBatch(w.e.reserved[i].value, [[]], [i]);
    FillSlot(c, w, i);
    var w1 := Step(c, w, submit);
    FewerUnfilled(w.e.masked, w1.e.masked, i);
    var ending := EndFlight(c, w1);
    RunOne(c, w, submit);
    RunAppend(c, w, [submit], ending);
    acts := [submit] + ending;
  }

  lemma {:induction false} OpenSlot(e: Exec) returns (i: u64)
    requires Sized(e) && AllReserved(e) && !AllSubmitted(e)
    ensures i < |e.masked| && e.reserved[i].Some? && e.masked[i].None?
  {
    i :| 0 <= i < |e.masked| && e.masked[i].None?;
  }

  lemma {:induction false} ReservedSame(e: Exec, e': Exec)
    requires AllReserved(e) && e'.reserved == e.reserved
    ensures AllReserved(e')
  {
  }

  /** One more slot filled, and its submission finished. */
  lemma {:induction false} FillOne(c: Config, w: World) returns (acts: seq<Action>)
    requires ValidConfig(c) && Sound(c, w) && Sized(w.e) && w.flight.None? && w.e.round == InputCollection
    requires AllReserved(w.e) && !AllSubmitted(w.e)
    ensures var w' := Run(c, w, acts);
      && Sound(c, w') && w'.flight.None? && RoundIndex(w'.e.round) >= 3 && w'.e.reserved == w.e.reserved
      && |Unfilled(w'.e.masked)| < |Unfilled(w.e.masked)|
  {
    hide AllReserved, AllSubmitted, Sound, Step, Run, ValidConfig, Unfilled;
    var i := OpenSlot(w.e);
    acts := FillAndEnd(c, w, i);
    RunStaysSound(c, w, acts);
  }

  /** Slot by slot, until every input is in or MPC has started. */
  lemma {:induction false} FillAll(c: Config, w: World) returns (acts: seq<Action>)
    requires ValidConfig(c) && Sound(c, w) && w.flight.None? && w.e.round == InputCollection && AllReserved(w.e)
    ensures Sized(w.e)
    ensures var w' := Run(c, w, acts);
      && Sound(c, w') && w'.flight.None? && RoundIndex(w'.e.round) >= 3
      && (w'.e.round == InputCollection ==> AllSubmitted(w'.e))
    decreases |Unfilled(w.e.masked)|
  {
    assert Sized(w.e) && Run(c, w, []) == w;
    hide AllSubmitted, Sound, Step, Run, ValidConfig, Sized, Unfilled;
    if AllSubmitted(w.e) {
      acts := [];
    } else {
      acts := FillOne(c, w);
      var w1 := Run(c, w, acts);
      if w1.e.round == InputCollection {
        var rest := FillAll(c, w1);
        RunAppend(c, w, acts, rest);
        acts := acts + rest;
      }
    }
  }

  lemma {:induction false} NotCollecting(r: Round)
    ensures RoundIndex(r) >= 3 && r != InputCollection ==> RoundIndex(r) >= 4
  {
  }

  lemma {:induction false} RunOne(c: Config, w: World, a: Action)
    requires ValidConfig(c) && Sized(w.e)
    ensures Run(c, w, [a]) == Step(c, w, a)
  {
    assert [a][..0] == [];
    hide Step;
  }

  // ---------------------------------------------------------------- voting

  function Everyone(nodes: seq<Identity>): (bs: seq<Ballot>)
    ensures |bs| == |nodes| && forall k :: 0 <= k < |nodes| ==> bs[k] == Ballot(nodes[k], MPCExecution)
  {
    seq(|nodes|, k requires 0 <= k < |nodes| => Ballot(nodes[k], MPCExecution))
  }

  lemma {:induction false} EveryoneIsEnough(c: Config, e: Exec)
    requires ValidConfig(c)
    ensures HasQuorum(c, e, Everyone(c.nodes), MPCExecution)
  {
    var bs := Everyone(c.nodes);
    RosterSize(c);
    forall p | p in Roster(c) ensures p in AllVotes(c, e, bs, MPCExecution) {
      var k :| 0 <= k < |c.nodes| && c.nodes[k] == p;
      assert bs[k] in bs && bs[k].next == MPCExecution;
    }
    SubsetCard(Roster(c), AllVotes(c, e, bs, MPCExecution));
  }

  lemma {:induction false} EveryoneMoves(c: Config, e: Exec)
    requires ValidConfig(c) && Steady(c, e) && e.round == InputCollection && AllSubmitted(e)
    ensures RoundIndex(Cast(c, e, Everyone(c.nodes)).round) >= 4
  {
    var bs := Everyone(c.nodes);
    EveryoneIsEnough(c, e);
    hide Cast, Everyone, Steady, HasQuorum, AllSubmitted, EndsAt, ValidConfig;
    var e' := Cast(c, e, bs);
    CastEnds(c, e, bs);
    EndPath(c, e, bs, e');
    AllFollows();
    hide Follows, PathOk;
    if e'.round == InputCollection {
      EndStops(c, e, bs, e', MPCExecution);
      assert false;
    }
    NotCollecting(e'.round);
  }

  lemma {:induction false} VotesStartMpc(c: Config, w: World)
    requires ValidConfig(c) && Sound(c, w) && w.flight.None? && w.e.round == InputCollection && AllSubmitted(w.e)
    ensures Sized(w.e) && RoundIndex(Run(c, w, AsActions(Everyone(c.nodes))).e.round) >= 4
  {
    assert Steady(c, w.e) && Sized(w.e);
    hide Run, Cast, Everyone, Steady, AllSubmitted, Sound, AsActions, ValidConfig, Sized;
    EveryoneMoves(c, w.e);
    RunOfVotes(c, w, Everyone(c.nodes));
  }

  lemma {:induction false} EndFirst(c: Config, w: World) returns (acts: seq<Action>)
    requires ValidConfig(c) && Sound(c, w) && Sized(w.e) && w.flight.Some? && w.e.round == InputCollection
      && AllReserved(w.e)
    ensures var w' := Run(c, w, acts);
      Sound(c, w') && w'.flight.None? && RoundIndex(w'.e.round) >= 3 && AllReserved(w'.e)
  {
    hide Step, AllReserved, Sound, ValidConfig, Run;
    acts := EndFlight(c, w);
    RunStaysSound(c, w, acts);
    ReservedSame(w.e, Run(c, w, acts).e);
  }

  /** Finish what is in flight, then fill the slots. */
  lemma {:induction false} FillFirst(c: Config, w: World) returns (acts: seq<Action>)
    requires ValidConfig(c) && Sound(c, w) && w.e.round == InputCollection && AllReserved(w.e)
    ensures Sized(w.e)
    ensures var w' := Run(c, w, acts);
      && Sound(c, w') && RoundIndex(w'.e.round) >= 3
      && (w'.e.round == InputCollection ==> w'.flight.None? && AllSubmitted(w'.e))
  {
    assert Sized(w.e);
    hide Step, AllSubmitted, AllReserved, Sound, ValidConfig, Run;
    if w.flight.None? {
      acts := FillAll(c, w);
    } else {
      acts := EndFirst(c, w);
      var first, w1 := acts, Run(c, w, acts);
      if w1.e.round == InputCollection {
        var fill := FillAll(c, w1);
        RunAppend(c, w, first, fill);
        acts := first + fill;
      }
    }
  }

  /** From a world of a run in input collection with every slot reserved, some continuation starts MPC. */
  lemma {:induction false} CanComplete(c: Config, w: World) returns (later: seq<Action>)
    requires ValidConfig(c) && Sound(c, w) && w.e.round == InputCollection && AllReserved(w.e)
    ensures Sized(w.e) && RoundIndex(Run(c, w, later).e.round) >= 4
  {
    later := FillFirst(c, w);
    var w1 := Run(c, w, later);
    hide Step, AllSubmitted, Sound, ValidConfig, Run, Everyone, AsActions;
    if w1.e.round == InputCollection {
      VotesStartMpc(c, w1);
      RunAppend(c, w, later, AsActions(Everyone(c.nodes)));
      later := later + AsActions(Everyone(c.nodes));
    } else {
      NotCollecting(w1.e.round);
    }
  }

  ghost predicate StartsMpc(c: Config, reg: Registration, actions: seq<Action>)
    requires Accepted(c, reg)
  {
    RoundIndex(After(c, reg, actions).e.round) >= RoundIndex(MPCExecution)
  }

  lemma {:induction false} AfterSound(c: Config, reg: Registration, actions: seq<Action>)
    requires Accepted(c, reg)
    ensures Sound(c, After(c, reg, actions))
  {
    AlwaysRounds(c, reg, actions);
    AlwaysTables(c, reg, actions);
    hide WorldOk, TablesOk, After, New;
  }

  lemma {:induction false} AfterThen(c: Config, reg: Registration, actions: seq<Action>, later: seq<Action>)
    requires Accepted(c, reg)
    ensures After(c, reg, actions + later) == Run(c, After(c, reg, actions), later)
  {
    RunAppend(c, Start(Initial(reg)), actions, later);
    hide Run, New;
  }

  lemma {:induction false} CompletingRun(c: Config, reg: Registration, actions: seq<Action>)
    returns (later: seq<Action>)
    requires Accepted(c, reg) && After(c, reg, actions).e.round == InputCollection
      && AllReserved(After(c, reg, actions).e)
    ensures StartsMpc(c, reg, actions + later)
  {
    hide Sound, Run, New, AllReserved, After, ValidConfig;
    AfterSound(c, reg, actions);
    later := CanComplete(c, After(c, reg, actions));
    AfterThen(c, reg, actions, later);
  }

  /**
   * From every reachable state in input collection, MPC can still be reached, by some continuation, if and only if
   * every slot is reserved. A slot left free when reservation closed can never be filled, and MPC never starts.
   */
  lemma {:induction false} CollectionCompletesIff(c: Config, reg: Registration, actions: seq<Action>)
    requires Accepted(c, reg) && After(c, reg, actions).e.round == InputCollection
    ensures (exists later :: StartsMpc(c, reg, actions + later)) <==> AllReserved(After(c, reg, actions).e)
  {
    if AllReserved(After(c, reg, actions).e) {
      var later := CompletingRun(c, reg, actions);
    }
    hide After, New, AllReserved;
    if later :| StartsMpc(c, reg, actions + later) {
      ReservedBeforeCollection(c, reg, actions, later);
    }
  }
}
