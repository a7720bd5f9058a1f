/** Runs of a whole coordinator: many executions registered, used, retired and evicted in any interleaving. */
module CoordinatorRuns {
  import opened Base
  import opened Topology
  import opened ExecutionModel
  import opened ExecutionRuns
  import opened Registry
  import opened Rounds
  import opened InputProps
  import opened RoundProps

  type Shared = Coordinator<World>

  datatype CoordAction =
    | DoRegister(reg: Registration, pick: Option<ExecutionId>)
    | DoRetire(id: ExecutionId, party: Identity)
    | On(id: ExecutionId, act: Action)

  function Made(c: Config, reg: Registration): Result<World, RegistrationError> {
    match New(reg, c.n)
    case Ok(e) => Ok(Start(e))
    case Err(error) => Err(error)
  }

  /** A standing coordinator starts empty. */
  function Standing(): Shared {
    Coordinator(map[], Retired(map[], []), None)
  }

  /** A one-off coordinator starts with its execution registered and watched. */
  function OneOff(reg: Registration): Shared {
    Coordinator(map[reg.executionId := Live(reg, {}, Start(Initial(reg)))], Retired(map[], []), Some(reg.executionId))
  }

  ghost predicate AllSized(s: Shared) {
    forall id :: id in s.executions ==> Sized(s.executions[id].state.e)
  }

  /** An answer the scan could not have given leaves the coordinator as it is. */
  ghost function CoordStep(c: Config, s: Shared, a: CoordAction): (s': Shared)
    requires ValidConfig(c) && AllSized(s)
    ensures AllSized(s')
  {
    match a
    case DoRegister(reg, pick) =>
      if ScanAnswer(c, s, pick) then Register(s, reg, pick, Made(c, reg)).1 else s
    case DoRetire(id, party) => Retire(c, s, id, party).1
    case On(id, act) =>
      if id !in s.executions then s
      else
        var live := s.executions[id];
        s.(executions := s.executions[id := live.(state := Step(c, live.state, act))])
  }

  ghost function CoordRun(c: Config, s: Shared, actions: seq<CoordAction>): (s': Shared)
    requires ValidConfig(c) && AllSized(s)
    ensures AllSized(s')
  {
    if actions == [] then s
    else CoordStep(c, CoordRun(c, s, actions[..|actions| - 1]), actions[|actions| - 1])
  }

  /** How a coordinator may start. */
  ghost predicate Begins(c: Config, s: Shared) {
    && ValidConfig(c)
    && (s == Standing() || exists reg :: Accepted(c, reg) && s == OneOff(reg))
  }

  // ---------------------------------------------------------------- the registry invariant

  ghost predicate LiveOk<X>(c: Config, executions: map<ExecutionId, Live<X>>) {
    && |executions| <= MAX_CONCURRENT_EXECUTIONS
    && (forall id :: id in executions ==> executions[id].reg.executionId == id && executions[id].acks <= Roster(c))
  }

  ghost predicate TombstonesOk(c: Config, r: Retired)
    requires ValidConfig(c)
  {
    && Listing(r)
    && (forall id :: id in r.acks ==> r.acks[id] <= Roster(c) && |r.acks[id]| >= RetirementQuorum(c))
  }

  ghost predicate BoundsOk(c: Config, s: Shared)
    requires ValidConfig(c)
  {
    LiveOk(c, s.executions) && TombstonesOk(c, s.retired)
  }

  /** A one-off execution is live, and no tombstone stands in for it. */
  ghost predicate PinnedOk(s: Shared) {
    s.oneOff.Some? ==> s.oneOff.value in s.executions && s.oneOff.value !in s.retired.acks
  }

  lemma {:induction false} RemoveLive<X>(c: Config, executions: map<ExecutionId, Live<X>>, id: ExecutionId)
    requires LiveOk(c, executions) && id in executions
    ensures LiveOk(c, executions - {id}) && |executions - {id}| == |executions| - 1
  {
    hide Roster;
    assert (executions - {id}).Keys == executions.Keys - {id};
    assert |executions - {id}| == |(executions - {id}).Keys|;
  }

  lemma {:induction false} InsertLive<X>(c: Config, executions: map<ExecutionId, Live<X>>, id: ExecutionId,
                                         live: Live<X>)
    requires LiveOk(c, executions) && live.reg.executionId == id && live.acks <= Roster(c)
    requires id in executions || |executions| < MAX_CONCURRENT_EXECUTIONS
    ensures LiveOk(c, executions[id := live])
  {
    hide Roster;
    var more := executions[id := live];
    assert more.Keys == executions.Keys + {id};
    assert |more| == |more.Keys|;
    if id in executions { assert more.Keys == executions.Keys; }
  }

  lemma {:induction false} SealTombstone(c: Config, r: Retired, id: ExecutionId, acks: set<Identity>)
    requires ValidConfig(c) && TombstonesOk(c, r) && acks <= Roster(c) && |acks| >= RetirementQuorum(c)
    ensures TombstonesOk(c, Seal(r, id, acks))
  {
    SealKeeps(r, id, acks);
    hide Seal, Listing, Roster, ValidConfig;
  }

  lemma {:induction false} AcknowledgeTombstone(c: Config, r: Retired, id: ExecutionId, party: Identity)
    requires ValidConfig(c) && TombstonesOk(c, r) && party in c.nodes
    ensures TombstonesOk(c, Acknowledge(r, id, party, |c.nodes|).1)
    ensures forall x :: x in Acknowledge(r, id, party, |c.nodes|).1.acks ==> x in r.acks
    ensures Acknowledge(r, id, party, |c.nodes|).0 <==> id in r.acks
  {
    AcknowledgeKeeps(r, id, party, |c.nodes|);
    assert party in Roster(c);
    if id in r.acks { SubsetCard(r.acks[id], r.acks[id] + {party}); }
    hide Listing, Roster, ValidConfig, Without;
  }

  lemma {:induction false} EvictKeeps(c: Config, s: Shared, id: ExecutionId)
    requires ValidConfig(c) && BoundsOk(c, s) && PinnedOk(s) && Evictable(c, s, id)
    ensures BoundsOk(c, Evict(s, id)) && PinnedOk(Evict(s, id)) && |Evict(s, id).executions| == |s.executions| - 1
  {
    RemoveLive(c, s.executions, id);
    SealTombstone(c, s.retired, id, s.executions[id].acks);
    SealKeeps(s.retired, id, s.executions[id].acks);
    hide LiveOk, TombstonesOk, Seal, Roster, ValidConfig;
  }

  lemma {:induction false} RegisterKeeps(c: Config, s: Shared, reg: Registration, pick: Option<ExecutionId>)
    requires ValidConfig(c) && BoundsOk(c, s) && PinnedOk(s) && ScanAnswer(c, s, pick)
    ensures var s' := Register(s, reg, pick, Made(c, reg)).1; BoundsOk(c, s') && PinnedOk(s')
  {
    if reg.executionId !in s.executions && (|s.executions| < MAX_CONCURRENT_EXECUTIONS || pick.Some?) {
      var full := |s.executions| >= MAX_CONCURRENT_EXECUTIONS;
      if full { EvictKeeps(c, s, pick.value); }
      var s1 := if full then Evict(s, pick.value) else s;
      assert |s1.executions| < MAX_CONCURRENT_EXECUTIONS;
      var made := Made(c, reg);
      if made.Ok? { InsertLive(c, s1.executions, reg.executionId, Live(reg, {}, made.value)); }
    }
    hide LiveOk, TombstonesOk, Seal, New, Roster, ValidConfig;
  }

  lemma {:induction false} RetireKeeps(c: Config, s: Shared, id: ExecutionId, party: Identity)
    requires ValidConfig(c) && BoundsOk(c, s) && PinnedOk(s)
    ensures var s' := Retire(c, s, id, party).1; BoundsOk(c, s') && PinnedOk(s')
  {
    if party in c.nodes {
      assert party in Roster(c);
      AcknowledgeTombstone(c, s.retired, id, party);
      if id in s.executions {
        var live := s.executions[id];
        InsertLive(c, s.executions, id, live.(acks := live.acks + {party}));
      }
    }
    hide LiveOk, TombstonesOk, Roster, ValidConfig, Acknowledge;
  }

  lemma {:induction false} OnKeeps(c: Config, s: Shared, id: ExecutionId, act: Action)
    requires ValidConfig(c) && AllSized(s) && BoundsOk(c, s) && PinnedOk(s)
    ensures BoundsOk(c, CoordStep(c, s, On(id, act))) && PinnedOk(CoordStep(c, s, On(id, act)))
  {
    hide TombstonesOk, Roster, Step, ValidConfig;
    if id in s.executions {
      var live := s.executions[id];
      InsertLive(c, s.executions, id, live.(state := Step(c, live.state, act)));
    }
  }

  lemma {:induction false} StepKeepsRegistry(c: Config, s: Shared, a: CoordAction)
    requires ValidConfig(c) && AllSized(s) && BoundsOk(c, s) && PinnedOk(s)
    ensures BoundsOk(c, CoordStep(c, s, a)) && PinnedOk(CoordStep(c, s, a))
  {
    hide BoundsOk, PinnedOk, Register, Retire, Step;
    match a
    case DoRegister(reg, pick) => if ScanAnswer(c, s, pick) { RegisterKeeps(c, s, reg, pick); }
    case DoRetire(id, party) => RetireKeeps(c, s, id, party);
    case On(id, act) => OnKeeps(c, s, id, act);
  }

  lemma {:induction false} BeginsOk(c: Config, s: Shared)
    requires Begins(c, s)
    ensures BoundsOk(c, s) && PinnedOk(s) && AllSized(s)
  {
    assert forall reg: Registration :: |OneOff(reg).executions.Keys| == 1;
    assert forall reg: Registration :: |OneOff(reg).executions| == |OneOff(reg).executions.Keys|;
  }

  /** In every run live executions stay within 1024 and tombstones within 4096, and `order` lists these once each. */
  lemma {:induction false} RegistryStaysBounded(c: Config, start: Shared, actions: seq<CoordAction>)
    requires Begins(c, start)
    ensures AllSized(start) && BoundsOk(c, CoordRun(c, start, actions)) && PinnedOk(CoordRun(c, start, actions))
    ensures var s := CoordRun(c, start, actions); |s.executions| <= 1024 && |s.retired.order| <= 4096
  {
    BeginsOk(c, start);
    if actions != [] {
      hide BoundsOk, PinnedOk, CoordStep, Begins;
      RegistryStaysBounded(c, start, actions[..|actions| - 1]);
      StepKeepsRegistry(c, CoordRun(c, start, actions[..|actions| - 1]), actions[|actions| - 1]);
    }
  }

  // ---------------------------------------------------------------- eviction

  /** The only step that removes an execution is a registration at capacity that picks it. */
  lemma {:induction false} OnlyRegisterEvicts(c: Config, s: Shared, a: CoordAction, id: ExecutionId)
    requires ValidConfig(c) && AllSized(s) && id in s.executions && id !in CoordStep(c, s, a).executions
    ensures a.DoRegister? && a.pick == Some(id) && |s.executions| >= MAX_CONCURRENT_EXECUTIONS
    ensures Evictable(c, s, id)
    ensures CoordStep(c, s, a).retired == Seal(s.retired, id, s.executions[id].acks)
  {
    hide Seal, Acknowledge, New, Step, ValidConfig, RetirementQuorum;
  }

  /**
   * The only way out of the live set is a registration at capacity that picks an execution which at least `n - t`
   * roster parties acknowledged and which is not the one-off execution; its acknowledgements become its tombstone.
   */
  lemma {:induction false} EvictedOnlyByQuorum(c: Config, start: Shared, actions: seq<CoordAction>, a: CoordAction,
                                               id: ExecutionId)
    requires Begins(c, start)
    requires AllSized(start) && id in CoordRun(c, start, actions).executions
    requires id !in CoordStep(c, CoordRun(c, start, actions), a).executions
    ensures var s, s' := CoordRun(c, start, actions), CoordStep(c, CoordRun(c, start, actions), a);
      && a.DoRegister? && a.pick == Some(id) && |s.executions| == MAX_CONCURRENT_EXECUTIONS
      && s.oneOff != Some(id)
      && s.executions[id].acks <= Roster(c) && |s.executions[id].acks| >= c.n - c.t
      && id in s'.retired.acks && s'.retired.acks[id] == s.executions[id].acks
  {
    RegistryStaysBounded(c, start, actions);
    var s := CoordRun(c, start, actions);
    hide CoordRun, CoordStep, Begins, PinnedOk, Listing, Seal, Roster;
    OnlyRegisterEvicts(c, s, a, id);
    SealKeeps(s.retired, id, s.executions[id].acks);
  }

  lemma {:induction false} EvictChanges(s: Shared, id: ExecutionId)
    requires id in s.executions
    ensures id !in Evict(s, id).executions && Evict(s, id) != s
  {
    hide Seal;
  }

  /**
   * Exactly when a refused registration leaves a trace, in every run and for every answer of the scan: the slot is
   * reclaimed before the registration is checked, so a new execution refused at capacity still evicts.
   */
  lemma {:induction false} RefusedRegistrationEvictsIff(c: Config, start: Shared, actions: seq<CoordAction>,
                                                        reg: Registration, pick: Option<ExecutionId>)
    requires Begins(c, start) && AllSized(start) && ScanAnswer(c, CoordRun(c, start, actions), pick)
    requires Register(CoordRun(c, start, actions), reg, pick, Made(c, reg)).0.Err?
    ensures var s := CoordRun(c, start, actions);
      Register(s, reg, pick, Made(c, reg)).1 != s <==>
        reg.executionId !in s.executions && |s.executions| == MAX_CONCURRENT_EXECUTIONS && pick.Some?
  {
    RegistryStaysBounded(c, start, actions);
    var s := CoordRun(c, start, actions);
    assert |s.executions| <= MAX_CONCURRENT_EXECUTIONS;
    if pick.Some? { EvictChanges(s, pick.value); }
    hide CoordRun, Begins, AllSized, BoundsOk, PinnedOk, New, Evict, RetirementQuorum;
  }

  // ---------------------------------------------------------------- the one-off execution

  /** The roster parties that called `retire_execution` for `id`. */
  function Retirers(c: Config, actions: seq<CoordAction>, id: ExecutionId): set<Identity> {
    set a | a in actions && a.DoRetire? && a.id == id && a.party in c.nodes :: a.party
  }

  /** The acknowledgement, if any, that `a` adds to execution `id`. */
  function AddedAck(c: Config, a: CoordAction, id: ExecutionId): set<Identity> {
    if a.DoRetire? && a.id == id && a.party in c.nodes then {a.party} else {}
  }

  lemma {:induction false} RetirersOne(c: Config, actions: seq<CoordAction>, a: CoordAction, id: ExecutionId)
    ensures Retirers(c, actions + [a], id) == Retirers(c, actions, id) + AddedAck(c, a, id)
  {
  }

  lemma {:induction false} OneOffRegister(c: Config, s: Shared, a: CoordAction, id: ExecutionId)
    requires ValidConfig(c) && AllSized(s) && s.oneOff == Some(id) && id in s.executions && a.DoRegister?
    ensures var s' := CoordStep(c, s, a);
      s'.oneOff == s.oneOff && id in s'.executions && s'.executions[id] == s.executions[id]
  {
    hide New, Seal, ValidConfig, RetirementQuorum;
  }

  lemma {:induction false} OneOffRetire(c: Config, s: Shared, a: CoordAction, id: ExecutionId)
    requires ValidConfig(c) && AllSized(s) && s.oneOff == Some(id) && id in s.executions && id !in s.retired.acks
    requires a.DoRetire?
    ensures var s' := CoordStep(c, s, a);
      s'.oneOff == s.oneOff && id in s'.executions
        && s'.executions[id].acks == s.executions[id].acks + AddedAck(c, a, id)
  {
    assert Acknowledge(s.retired, a.id, a.party, |c.nodes|).0 <==> a.id in s.retired.acks;
    hide Acknowledge, ValidConfig;
  }

  lemma {:induction false} OneOffStep(c: Config, s: Shared, a: CoordAction, id: ExecutionId)
    requires ValidConfig(c) && AllSized(s) && PinnedOk(s) && s.oneOff == Some(id)
    ensures var s' := CoordStep(c, s, a);
      s'.oneOff == s.oneOff && id in s'.executions
        && s'.executions[id].acks == s.executions[id].acks + AddedAck(c, a, id)
  {
    hide Register, Retire, Step, ValidConfig;
    match a
    case DoRegister(_, _) => OneOffRegister(c, s, a, id);
    case DoRetire(_, _) => OneOffRetire(c, s, a, id);
    case On(_, _) =>
  }

  lemma {:induction false} OneOffAcks(c: Config, start: Shared, actions: seq<CoordAction>, id: ExecutionId)
    requires ValidConfig(c) && Begins(c, start) && AllSized(start) && start.oneOff == Some(id)
    requires id in start.executions && start.executions[id].acks == {}
    ensures var s := CoordRun(c, start, actions);
      s.oneOff == Some(id) && id in s.executions && s.executions[id].acks == Retirers(c, actions, id)
  {
    hide CoordStep, BoundsOk, Begins, PinnedOk, AllSized, ValidConfig, AddedAck;
    if actions == [] {
      assert Retirers(c, actions, id) == {};
    } else {
      hide Retirers;
      var front, a := actions[..|actions| - 1], actions[|actions| - 1];
      OneOffAcks(c, start, front, id);
      RegistryStaysBounded(c, start, front);
      OneOffStep(c, CoordRun(c, start, front), a, id);
      RetirersOne(c, front, a, id);
      assert front + [a] == actions;
    }
  }

  /**
   * A one-off execution is never evicted, whatever else is registered, and it reports completion exactly when every
   * party of the roster has acknowledged it.
   */
  lemma {:induction false} OneOffCompletes(c: Config, reg: Registration, actions: seq<CoordAction>)
    requires Accepted(c, reg)
    ensures AllSized(OneOff(reg))
    ensures var s, id := CoordRun(c, OneOff(reg), actions), reg.executionId;
      && id in s.executions
      && RetirementProgress(c, s, id).0 == |Retirers(c, actions, id)|
      && (RetirementProgress(c, s, id).2 <==> Retirers(c, actions, id) == Roster(c))
  {
    BeginsOk(c, OneOff(reg));
    OneOffAcks(c, OneOff(reg), actions, reg.executionId);
    RosterSize(c);
    RetirersInRoster(c, actions, reg.executionId);
    hide CoordRun, Retirers, Roster;
    SubsetCard(Retirers(c, actions, reg.executionId), Roster(c));
  }

  lemma {:induction false} RetirersInRoster(c: Config, actions: seq<CoordAction>, id: ExecutionId)
    ensures Retirers(c, actions, id) <= Roster(c)
  {
  }

  // ---------------------------------------------------------------- isolation

  /** The actions `id` itself went through since it was last registered. */
  ghost function OwnTrace(c: Config, start: Shared, actions: seq<CoordAction>, id: ExecutionId): seq<Action>
    requires ValidConfig(c) && AllSized(start)
  {
    if actions == [] then []
    else
      var front, a := actions[..|actions| - 1], actions[|actions| - 1];
      if id !in CoordRun(c, start, front).executions then []
      else if a.On? && a.id == id then OwnTrace(c, start, front, id) + [a.act]
      else OwnTrace(c, start, front, id)
  }

  ghost predicate Isolated(c: Config, live: Live<World>, trace: seq<Action>) {
    Accepted(c, live.reg) && live.state == After(c, live.reg, trace)
  }

  lemma {:induction false} RegisterIsolates(c: Config, s: Shared, a: CoordAction, id: ExecutionId)
    requires ValidConfig(c) && AllSized(s) && a.DoRegister? && id in CoordStep(c, s, a).executions
    ensures var live := CoordStep(c, s, a).executions[id];
      if id in s.executions then live == s.executions[id]
      else New(live.reg, c.n).Ok? && live.state == Start(Initial(live.reg))
  {
    assert forall r: Registration :: New(r, c.n).Ok? ==> New(r, c.n).value == Initial(r);
    hide New, Seal, Evictable, ValidConfig, Initial;
  }

  lemma {:induction false} StepIsolates(c: Config, s: Shared, a: CoordAction, id: ExecutionId, trace: seq<Action>)
    requires ValidConfig(c) && AllSized(s) && id in CoordStep(c, s, a).executions
    requires id in s.executions ==> Isolated(c, s.executions[id], trace)
    ensures Isolated(c, CoordStep(c, s, a).executions[id],
                     if id !in s.executions then [] else if a.On? && a.id == id then trace + [a.act] else trace)
  {
    hide Register, Acknowledge, New, Step, ValidConfig;
    match a
    case DoRegister(_, _) => RegisterIsolates(c, s, a, id);
    case DoRetire(_, _) =>
    case On(other, act) =>
      if other == id { assert (trace + [act])[..|trace|] == trace; }
  }

  /**
   * Executions do not share state: in every run of the coordinator, every live execution is exactly where its own
   * actions since its registration take it. So everything proved of one execution's runs holds of each of them.
   */
  lemma {:induction false} ExecutionsAreIsolated(c: Config, start: Shared, actions: seq<CoordAction>, id: ExecutionId)
    requires Begins(c, start)
    ensures AllSized(start)
    ensures id in CoordRun(c, start, actions).executions ==>
      Isolated(c, CoordRun(c, start, actions).executions[id], OwnTrace(c, start, actions, id))
  {
    BeginsOk(c, start);
    if actions == [] {
      hide New;
    } else if id in CoordRun(c, start, actions).executions {
      var front, a := actions[..|actions| - 1], actions[|actions| - 1];
      ExecutionsAreIsolated(c, start, front, id);
      hide CoordStep, Isolated, Begins;
      StepIsolates(c, CoordRun(c, start, front), a, id, OwnTrace(c, start, front, id));
    }
  }

  /** For instance: no live execution of a coordinator is past MPC on missing inputs, unless it skipped them. */
  lemma {:induction false} LiveExecutionsStartComplete(c: Config, start: Shared, actions: seq<CoordAction>,
                                                       id: ExecutionId)
    requires Begins(c, start)
    ensures AllSized(start)
    ensures id in CoordRun(c, start, actions).executions ==>
      var e := CoordRun(c, start, actions).executions[id].state.e;
      RoundIndex(e.round) >= RoundIndex(MPCExecution) ==>
        (AllSubmitted(e) <==> e.reg.nInputs == 0 || InputCollection in e.events)
  {
    ExecutionsAreIsolated(c, start, actions, id);
    var s := CoordRun(c, start, actions);
    if id in s.executions {
      var live, trace := s.executions[id], OwnTrace(c, start, actions, id);
      hide CoordRun, OwnTrace, Begins, AllSized;
      MpcOf(c, live, trace);
    }
  }

  lemma {:induction false} MpcOf(c: Config, live: Live<World>, trace: seq<Action>)
    requires Isolated(c, live, trace)
    ensures var e := live.state.e;
      RoundIndex(e.round) >= RoundIndex(MPCExecution) ==>
        (AllSubmitted(e) <==> e.reg.nInputs == 0 || InputCollection in e.events)
  {
    AlwaysRounds(c, live.reg, trace);
    if RoundIndex(live.state.e.round) >= RoundIndex(MPCExecution) {
      hide WorldOk;
      MpcStartsCompleteOrSkipped(c, live.reg, trace);
      RegistrationOf(c, live.reg, trace);
    }
  }

  lemma {:induction false} RegistrationOf(c: Config, reg: Registration, trace: seq<Action>)
    requires Accepted(c, reg)
    ensures After(c, reg, trace).e.reg == reg
  {
    AlwaysTables(c, reg, trace);
    hide TablesOk, After;
  }
}
