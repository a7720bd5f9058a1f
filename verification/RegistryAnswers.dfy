/** What registering, retiring and polling are answered, and what they do, in every run of a coordinator. */
module RegistryAnswers {
  import opened Base
  import opened Topology
  import opened Assignments
  import opened ExecutionModel
  import opened ExecutionRuns
  import opened Registry
  import opened CoordinatorRuns

  // ---------------------------------------------------------------- registering

  /** A registration with nothing wrong in it. */
  ghost predicate Flawless(c: Config, reg: Registration) {
    var ranges := reg.assignment.ranges;
    && NonZero(reg.executionId) && NonZero(reg.programHash)
    && Total(ranges) < 0x1_0000_0000_0000_0000
    && (ranges != [] ==> reg.nInputs == Total(ranges))
    && (forall k :: 0 <= k < |ranges| ==> ranges[k].clientIndex < |reg.assignment.clients|)
    && 1 <= reg.minOutputShares <= c.n
  }

  lemma {:induction false} FlawlessIff(c: Config, reg: Registration)
    ensures Made(c, reg).Ok? <==> Flawless(c, reg)
    ensures Flawless(c, reg) ==> Made(c, reg) == Ok(Start(Initial(reg)))
    ensures Made(c, reg).Err? ==> FirstWrong(c, reg, Made(c, reg).error)
  {
    hide Initial, Total;
  }

  predicate NonZero(b: Bytes) {
    exists j :: 0 <= j < |b| && b[j] != 0
  }

  /** `e` names the first thing wrong in the registration. */
  ghost predicate FirstWrong(c: Config, reg: Registration, e: RegistrationError) {
    var ranges := reg.assignment.ranges;
    var sum := Total(ranges) < 0x1_0000_0000_0000_0000;
    var total := ranges == [] || reg.nInputs == Total(ranges);
    var known := forall k :: 0 <= k < |ranges| ==> ranges[k].clientIndex < |reg.assignment.clients|;
    match e
    case ZeroExecutionId => !NonZero(reg.executionId)
    case ZeroProgramHash => NonZero(reg.executionId) && !NonZero(reg.programHash)
    case RangeSumOverflow => NonZero(reg.executionId) && NonZero(reg.programHash) && !sum
    case RangeTotalMismatch => NonZero(reg.executionId) && NonZero(reg.programHash) && sum && !total
    case BadClientIndex => NonZero(reg.executionId) && NonZero(reg.programHash) && sum && total && !known
    case BadOutputQuorum =>
      && NonZero(reg.executionId) && NonZero(reg.programHash) && sum && total && known
      && !(1 <= reg.minOutputShares <= c.n)
  }

  /** At least `n - t` parties are done with a live execution other than the one a one-off coordinator serves. */
  ghost predicate Reclaimable(c: Config, s: Shared, id: ExecutionId) {
    id in s.executions && s.oneOff != Some(id) && |s.executions[id].acks| >= c.n - c.t
  }

  /** What a registration is answered. */
  ghost predicate Answered(c: Config, s: Shared, reg: Registration, answer: Result<(), RegistryError>) {
    var full := |s.executions| >= 1024 && forall id :: !Reclaimable(c, s, id);
    match answer
    case Ok(_) =>
      || (reg.executionId in s.executions && s.executions[reg.executionId].reg == reg)
      || (reg.executionId !in s.executions && !full && Flawless(c, reg))
    case Err(DifferentMetadata) => reg.executionId in s.executions && s.executions[reg.executionId].reg != reg
    case Err(CapacityReached) => reg.executionId !in s.executions && full
    case Err(Invalid(e)) => reg.executionId !in s.executions && !full && !Flawless(c, reg) && FirstWrong(c, reg, e)
    case Err(NotAParty) => false
  }

  /**
   * The answer to every registration, in every run and for every answer of the scan: accepted exactly when the
   * execution is live with this very registration, or is not live, has or can get a slot, and the registration has
   * nothing wrong in it; and refused for the reason that applies.
   */
  lemma {:induction false} RegistrationIsAnswered(c: Config, start: Shared, actions: seq<CoordAction>,
                                                  reg: Registration, pick: Option<ExecutionId>)
    requires Begins(c, start) && AllSized(start) && ScanAnswer(c, CoordRun(c, start, actions), pick)
    ensures Answered(c, CoordRun(c, start, actions), reg,
                     Register(CoordRun(c, start, actions), reg, pick, Made(c, reg)).0)
  {
    FlawlessIff(c, reg);
    var s := CoordRun(c, start, actions);
    hide CoordRun, Begins, AllSized, New, Made, Flawless, FirstWrong, Evict;
    ScanFinds(c, s, pick);
  }

  lemma {:induction false} ScanFinds(c: Config, s: Shared, pick: Option<ExecutionId>)
    requires ValidConfig(c) && ScanAnswer(c, s, pick)
    ensures pick.None? <==> forall id :: !Reclaimable(c, s, id)
    ensures pick.Some? ==> Reclaimable(c, s, pick.value)
  {
    assert forall id :: Reclaimable(c, s, id) <==> Evictable(c, s, id);
  }

  /** The coordinator after an accepted registration of an execution that was not live. */
  ghost predicate Joined<X>(s: Coordinator<X>, s': Coordinator<X>, live: Live<X>, pick: Option<ExecutionId>) {
    var id := live.reg.executionId;
    && id in s'.executions && s'.executions[id] == live
    && if |s.executions| < 1024 then s'.executions - {id} == s.executions && s'.retired == s.retired
       else
         && pick.Some? && pick.value in s.executions && s'.executions - {id} == s.executions - {pick.value}
         && pick.value in s'.retired.acks && s'.retired.acks[pick.value] == s.executions[pick.value].acks
  }

  lemma {:induction false} RegisterJoins<X>(s: Coordinator<X>, reg: Registration, pick: Option<ExecutionId>, x: X)
    requires reg.executionId !in s.executions && Listing(s.retired)
    requires pick.Some? ==> pick.value in s.executions
    requires Register(s, reg, pick, Ok(x)).0.Ok?
    ensures Joined(s, Register(s, reg, pick, Ok(x)).1, Live(reg, {}, x), pick)
  {
    if pick.Some? { SealKeeps(s.retired, pick.value, s.executions[pick.value].acks); }
    hide Seal, Listing;
    var kept := if |s.executions| < 1024 then s.executions else s.executions - {pick.value};
    assert kept[reg.executionId := Live(reg, {}, x)] - {reg.executionId} == kept;
  }

  /**
   * What a registration does, in every run: an accepted one that was not live starts fresh, with no acknowledgement;
   * at capacity it takes the place of the execution the scan picked, whose acknowledgements become its tombstone; and
   * nothing else changes. One for a live execution changes nothing.
   */
  lemma {:induction false} RegistrationDoes(c: Config, start: Shared, actions: seq<CoordAction>, reg: Registration,
                                            pick: Option<ExecutionId>)
    requires Begins(c, start) && AllSized(start) && ScanAnswer(c, CoordRun(c, start, actions), pick)
    ensures var s := CoordRun(c, start, actions);
      var r := Register(s, reg, pick, Made(c, reg));
      && r.1.oneOff == s.oneOff
      && (reg.executionId in s.executions ==> r.1 == s)
      && (reg.executionId !in s.executions && r.0.Ok? ==> Joined(s, r.1, Live(reg, {}, Start(Initial(reg))), pick))
  {
    RegistryStaysBounded(c, start, actions);
    var s := CoordRun(c, start, actions);
    assert Listing(s.retired);
    hide CoordRun, Begins, AllSized, New, Made, Flawless, FirstWrong, Initial, Seal, Listing, RetirementQuorum, Joined,
      BoundsOk;
    FlawlessIff(c, reg);
    if reg.executionId !in s.executions && Register(s, reg, pick, Made(c, reg)).0.Ok? {
      RegisterJoins(s, reg, pick, Start(Initial(reg)));
    }
  }

  // ---------------------------------------------------------------- registering again

  lemma {:induction false} CoordAppend(c: Config, s: Shared, xs: seq<CoordAction>, a: CoordAction)
    requires ValidConfig(c) && AllSized(s)
    ensures CoordRun(c, s, xs + [a]) == CoordStep(c, CoordRun(c, s, xs), a)
  {
    assert (xs + [a])[..|xs|] == xs;
    hide CoordStep;
  }

  lemma {:induction false} RegistrationStays(c: Config, s: Shared, a: CoordAction, id: ExecutionId)
    requires ValidConfig(c) && AllSized(s) && id in s.executions && id in CoordStep(c, s, a).executions
    ensures CoordStep(c, s, a).executions[id].reg == s.executions[id].reg
  {
    hide Step, Seal, Acknowledge, New, ValidConfig, RetirementQuorum;
  }

  /** The execution has been live ever since. */
  ghost predicate LiveThroughout(c: Config, start: Shared, before: seq<CoordAction>, later: seq<CoordAction>,
                                 id: ExecutionId)
    requires ValidConfig(c) && AllSized(start)
  {
    forall n :: 0 <= n <= |later| ==> id in CoordRun(c, start, before + later[..n]).executions
  }

  lemma {:induction false} LiveParts(c: Config, start: Shared, before: seq<CoordAction>, later: seq<CoordAction>,
                                     id: ExecutionId)
    requires ValidConfig(c) && AllSized(start) && LiveThroughout(c, start, before, later, id)
    ensures id in CoordRun(c, start, before).executions && id in CoordRun(c, start, before + later).executions
    ensures later != [] ==> LiveThroughout(c, start, before, later[..|later| - 1], id)
  {
    hide CoordRun, AllSized, ValidConfig;
    assert later[..0] == [] && before + [] == before && later[..|later|] == later;
    if later != [] {
      var front := later[..|later| - 1];
      assert forall n :: 0 <= n <= |front| ==> front[..n] == later[..n];
    }
  }

  lemma {:induction false} StillRegistered(c: Config, start: Shared, before: seq<CoordAction>, later: seq<CoordAction>,
                                           id: ExecutionId)
    requires ValidConfig(c) && AllSized(start) && LiveThroughout(c, start, before, later, id)
    ensures id in CoordRun(c, start, before).executions && id in CoordRun(c, start, before + later).executions
    ensures CoordRun(c, start, before + later).executions[id].reg == CoordRun(c, start, before).executions[id].reg
  {
    hide CoordRun, AllSized, ValidConfig, LiveThroughout, CoordStep;
    LiveParts(c, start, before, later, id);
    if later == [] {
      assert before + later == before;
    } else {
      var front, a := later[..|later| - 1], later[|later| - 1];
      StillRegistered(c, start, before, front, id);
      assert before + later == (before + front) + [a];
      CoordAppend(c, start, before + front, a);
      RegistrationStays(c, CoordRun(c, start, before + front), a, id);
    }
  }

  /**
   * A registration accepted as new is accepted again, by anyone, as long as its execution stays live, and every other
   * registration of that execution is refused; neither changes the coordinator.
   */
  lemma {:induction false} RegisteredAgain(c: Config, start: Shared, before: seq<CoordAction>, reg: Registration,
                                           pick: Option<ExecutionId>, later: seq<CoordAction>, again: Registration,
                                           pick': Option<ExecutionId>)
    requires Begins(c, start) && AllSized(start) && reg.executionId !in CoordRun(c, start, before).executions
    requires LiveThroughout(c, start, before + [DoRegister(reg, pick)], later, reg.executionId)
    requires again.executionId == reg.executionId
    requires ScanAnswer(c, CoordRun(c, start, before + [DoRegister(reg, pick)] + later), pick')
    ensures var s := CoordRun(c, start, before + [DoRegister(reg, pick)] + later);
      Register(s, again, pick', Made(c, again)) == (if again == reg then Ok(()) else Err(DifferentMetadata), s)
  {
    var first := before + [DoRegister(reg, pick)];
    StillRegistered(c, start, first, later, reg.executionId);
    CoordAppend(c, start, before, DoRegister(reg, pick));
    hide CoordRun, AllSized, LiveThroughout, New, Seal, RetirementQuorum, Begins;
    assert CoordRun(c, start, first).executions[reg.executionId].reg == reg;
  }

  // ---------------------------------------------------------------- retiring

  /** What one retirement does: to the tombstone if there is one, else to the live execution if there is one. */
  ghost predicate Acknowledged<X>(c: Config, s: Coordinator<X>, s': Coordinator<X>, id: ExecutionId, party: Identity) {
    && s'.oneOff == s.oneOff
    && (if id in s.retired.acks || id !in s.executions then s'.executions == s.executions
        else s'.executions
             == s.executions[id := s.executions[id].(acks := s.executions[id].acks + {party})])
    && (if id !in s.retired.acks then s'.retired == s.retired
        else if s.retired.acks[id] + {party} == Roster(c) then
          && s'.retired.acks == s.retired.acks - {id}
          && forall k :: 0 <= k < |s.retired.order| && s.retired.order[k] == id ==>
               s'.retired.order == s.retired.order[..k] + s.retired.order[k + 1..]
        else s'.retired == s.retired.(acks := s.retired.acks[id := s.retired.acks[id] + {party}]))
  }

  lemma {:induction false} RetireDoes<X>(c: Config, s: Coordinator<X>, id: ExecutionId, party: Identity)
    requires |Roster(c)| == |c.nodes| && (id in s.retired.acks ==> s.retired.acks[id] <= Roster(c))
      && Listing(s.retired)
    ensures Retire(c, s, id, party).0 == if party in Roster(c) then Ok(()) else Err(NotAParty)
    ensures if party in Roster(c) then Acknowledged(c, s, Retire(c, s, id, party).1, id, party)
            else Retire(c, s, id, party).1 == s
  {
    NodesAreRoster(c, party);
    hide Roster, Without;
    if party in c.nodes && id in s.retired.acks {
      FullIsRoster(c, s.retired.acks[id] + {party});
      forall k | 0 <= k < |s.retired.order| && s.retired.order[k] == id
        ensures Without(s.retired.order, id) == s.retired.order[..k] + s.retired.order[k + 1..]
      {
        WithoutOne(s.retired.order, k);
      }
    }
  }

  /**
   * What a retirement is answered and does, in every run: only roster parties are heard. The acknowledgement goes to
   * the tombstone, if there is one, and the tombstone is forgotten once the whole roster has acknowledged; otherwise it
   * goes to the live execution, if there is one. Nothing else changes.
   */
  lemma {:induction false} RetirementDoes(c: Config, start: Shared, actions: seq<CoordAction>, id: ExecutionId,
                                          party: Identity)
    requires Begins(c, start) && AllSized(start)
    ensures var s := CoordRun(c, start, actions);
      && Retire(c, s, id, party).0 == (if party in Roster(c) then Ok(()) else Err(NotAParty))
      && if party in Roster(c) then Acknowledged(c, s, Retire(c, s, id, party).1, id, party)
         else Retire(c, s, id, party).1 == s
  {
    RegistryStaysBounded(c, start, actions);
    RosterSize(c);
    hide CoordRun, Begins, AllSized, Roster, Listing, RetirementQuorum, Acknowledged, Retire;
    RetireDoes(c, CoordRun(c, start, actions), id, party);
  }

  lemma {:induction false} WithoutOne(order: seq<ExecutionId>, k: nat)
    requires NoDup(order) && k < |order|
    ensures Without(order, order[k]) == order[..k] + order[k + 1..]
  {
    var front, last := order[..|order| - 1], order[|order| - 1];
    NoDupLast(order);
    if k < |order| - 1 {
      WithoutOne(front, k);
      assert front[..k] == order[..k] && front[k + 1..] + [last] == order[k + 1..];
      assert order[..k] + front[k + 1..] + [last] == order[..k] + order[k + 1..];
    } else {
      WithoutNone(front, last);
      assert order[..k] == front && order[k + 1..] == [];
    }
  }

  lemma {:induction false} WithoutNone(order: seq<ExecutionId>, id: ExecutionId)
    requires id !in order
    ensures Without(order, id) == order
  {
    if order != [] {
      assert order == order[..|order| - 1] + [order[|order| - 1]];
      WithoutNone(order[..|order| - 1], id);
    }
  }

  lemma {:induction false} NodesAreRoster(c: Config, party: Identity)
    ensures party in c.nodes <==> party in Roster(c)
  {
  }

  lemma {:induction false} FullIsRoster(c: Config, acks: set<Identity>)
    requires |Roster(c)| == |c.nodes| && acks <= Roster(c)
    ensures |acks| >= |c.nodes| <==> acks == Roster(c)
  {
    hide Roster;
    if |acks| >= |c.nodes| && acks != Roster(c) {
      var x :| x in Roster(c) && x !in acks;
      SubsetCard(acks, Roster(c) - {x});
    }
  }

  /**
   * What a poller is told, in every run: of a live execution the number of acknowledgements, and that it is complete
   * exactly when the whole roster has acknowledged; of a sealed one its number, and never that it is complete; and of
   * one that is neither that everyone is done.
   */
  lemma {:induction false} ProgressMeans(c: Config, start: Shared, actions: seq<CoordAction>, id: ExecutionId)
    requires Begins(c, start) && AllSized(start)
    ensures var s := CoordRun(c, start, actions);
      var (acknowledged, parties, complete) := RetirementProgress(c, s, id);
      && parties == c.n
      && (id in s.executions ==>
            acknowledged == |s.executions[id].acks| && (complete <==> s.executions[id].acks == Roster(c)))
      && (id !in s.executions && id in s.retired.acks ==> acknowledged == |s.retired.acks[id]| && !complete)
      && (id !in s.executions && id !in s.retired.acks ==> acknowledged == c.n && complete)
  {
    RegistryStaysBounded(c, start, actions);
    var s := CoordRun(c, start, actions);
    RosterSize(c);
    hide CoordRun, Begins, AllSized, Roster, Listing, RetirementQuorum;
    if id in s.executions { FullIsRoster(c, s.executions[id].acks); }
  }
}
