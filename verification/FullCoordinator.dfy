/** A coordinator at capacity, reached by a run, in which a refused registration evicts an execution. */
module FullCoordinator {
  import opened Base
  import opened Topology
  import opened Assignments
  import opened ExecutionModel
  import opened ExecutionRuns
  import opened Registry
  import opened CoordinatorRuns

  const ONLY_NODE: Identity := [9]
  const SINGLE := Config(1, 0, [ONLY_NODE])

  function Repeated(b: byte): (r: Bytes)
    ensures |r| == 32 && forall k :: 0 <= k < 32 ==> r[k] == b
  {
    seq(32, _ => b)
  }

  /** The identifier of the `k`-th execution: 32 bytes, none of them all zero. */
  function IdOf(k: nat): (id: ExecutionId)
    requires k < MAX_CONCURRENT_EXECUTIONS
    ensures |id| == 32 && id[0] == 1 && !IsZero(id)
  {
    var id := [1, (k / 256) as byte, (k % 256) as byte] + Repeated(0)[..29];
    assert id[0] != 0;
    id
  }

  lemma {:induction false} IdsDiffer(j: nat, k: nat)
    requires j < MAX_CONCURRENT_EXECUTIONS && k < MAX_CONCURRENT_EXECUTIONS && IdOf(j) == IdOf(k)
    ensures j == k
  {
    assert IdOf(j)[1] == IdOf(k)[1] && IdOf(j)[2] == IdOf(k)[2];
    assert j / 256 == k / 256 && j % 256 == k % 256;
  }

  function RegOf(id: ExecutionId, hash: Bytes): Registration {
    Registration(id, hash, 0, [], InputAssignment([], []), 1)
  }

  lemma {:induction false} SingleIsValid()
    ensures ValidConfig(SINGLE) && RetirementQuorum(SINGLE) == 1
  {
  }

  lemma {:induction false} RegIsAccepted(id: ExecutionId)
    requires !IsZero(id)
    ensures New(RegOf(id, Repeated(1)), SINGLE.n).Ok? && New(RegOf(id, Repeated(0)), SINGLE.n) == Err(ZeroProgramHash)
  {
    assert Repeated(1)[0] != 0;
    assert IsZero(Repeated(0));
  }

  /** Registers the first `k` executions. */
  function Filling(k: nat): seq<CoordAction>
    requires k <= MAX_CONCURRENT_EXECUTIONS
  {
    if k == 0 then [] else Filling(k - 1) + [DoRegister(RegOf(IdOf(k - 1), Repeated(1)), None)]
  }

  /** Exactly the first `k` executions are live, nobody has acknowledged any, and nothing is sealed. */
  ghost predicate FilledTo(s: Shared, k: nat) {
    k <= MAX_CONCURRENT_EXECUTIONS && LiveFirst(s.executions, k) && s.oneOff == None && s.retired.acks == map[]
  }

  ghost predicate Numbered(id: ExecutionId, k: nat)
    requires k <= MAX_CONCURRENT_EXECUTIONS
  {
    exists j :: 0 <= j < k && IdOf(j) == id
  }

  ghost predicate LiveFirst<X>(m: map<ExecutionId, Live<X>>, k: nat)
    requires k <= MAX_CONCURRENT_EXECUTIONS
  {
    && |m| == k
    && (forall j :: 0 <= j < k ==> IdOf(j) in m)
    && (forall id :: id in m ==> m[id].acks == {} && Numbered(id, k))
  }

  lemma {:induction false} RunPush(start: Shared, actions: seq<CoordAction>, a: CoordAction)
    requires ValidConfig(SINGLE) && AllSized(start)
    ensures CoordRun(SINGLE, start, actions + [a]) == CoordStep(SINGLE, CoordRun(SINGLE, start, actions), a)
  {
    assert (actions + [a])[..|actions|] == actions;
    hide CoordStep, AllSized, ValidConfig;
  }

  lemma {:induction false} NothingEvictable(s: Shared, k: nat)
    requires ValidConfig(SINGLE) && RetirementQuorum(SINGLE) == 1 && FilledTo(s, k)
    ensures ScanAnswer(SINGLE, s, None)
  {
    hide ValidConfig, RetirementQuorum, IdOf;
  }

  lemma {:induction false} FreshId(s: Shared, k: nat)
    requires FilledTo(s, k) && k < MAX_CONCURRENT_EXECUTIONS
    ensures IdOf(k) !in s.executions
  {
    hide IdOf;
    if IdOf(k) in s.executions {
      var j :| 0 <= j < k && IdOf(j) == IdOf(k);
      IdsDiffer(j, k);
      assert false;
    }
  }

  /** A registration below capacity that passes its checks adds one fresh execution. */
  lemma {:induction false} RegisterBelow(s: Shared, reg: Registration)
    requires ValidConfig(SINGLE) && AllSized(s) && ScanAnswer(SINGLE, s, None) && New(reg, SINGLE.n).Ok?
    requires reg.executionId !in s.executions && |s.executions| < MAX_CONCURRENT_EXECUTIONS
    ensures CoordStep(SINGLE, s, DoRegister(reg, None))
         == s.(executions := s.executions[reg.executionId := Live(reg, {}, Start(New(reg, SINGLE.n).value))])
  {
    hide ValidConfig, AllSized, ScanAnswer, New, Start;
  }

  lemma {:induction false} AddOne<X>(m: map<ExecutionId, Live<X>>, k: nat, live: Live<X>)
    requires k < MAX_CONCURRENT_EXECUTIONS && LiveFirst(m, k) && IdOf(k) !in m && live.acks == {}
    ensures LiveFirst(m[IdOf(k) := live], k + 1)
  {
    hide IdOf;
    var more := m[IdOf(k) := live];
    assert more.Keys == m.Keys + {IdOf(k)};
    assert |more| == |more.Keys|;
    forall id | id in more ensures more[id].acks == {} && Numbered(id, k + 1) {
      if id != IdOf(k) { assert Numbered(id, k); }
    }
  }

  lemma {:induction false} FillOne(s: Shared, k: nat)
    requires ValidConfig(SINGLE) && RetirementQuorum(SINGLE) == 1 && AllSized(s)
    requires FilledTo(s, k) && k < MAX_CONCURRENT_EXECUTIONS
    ensures FilledTo(CoordStep(SINGLE, s, DoRegister(RegOf(IdOf(k), Repeated(1)), None)), k + 1)
  {
    var reg := RegOf(IdOf(k), Repeated(1));
    FreshId(s, k);
    NothingEvictable(s, k);
    RegIsAccepted(IdOf(k));
    assert |s.executions| < MAX_CONCURRENT_EXECUTIONS;
    hide ValidConfig, RetirementQuorum, IdOf, New, IsZero, ScanAnswer, CoordStep, AllSized, LiveFirst;
    RegisterBelow(s, reg);
    AddOne(s.executions, k, Live(reg, {}, Start(New(reg, SINGLE.n).value)));
  }

  lemma {:induction false} NoneFilled()
    ensures FilledTo(Standing(), 0)
  {
  }

  lemma {:induction false} FillingFills(k: nat)
    requires ValidConfig(SINGLE) && RetirementQuorum(SINGLE) == 1 && k <= MAX_CONCURRENT_EXECUTIONS
      && AllSized(Standing())
    ensures FilledTo(CoordRun(SINGLE, Standing(), Filling(k)), k)
  {
    NoneFilled();
    hide FilledTo, CoordStep, ValidConfig, RetirementQuorum, IdOf, AllSized, Standing;
    if k > 0 {
      FillingFills(k - 1);
      RunPush(Standing(), Filling(k - 1), DoRegister(RegOf(IdOf(k - 1), Repeated(1)), None));
      FillOne(CoordRun(SINGLE, Standing(), Filling(k - 1)), k - 1);
    }
  }

  /** All of them, and one acknowledgement. */
  function Filled(): seq<CoordAction> {
    Filling(MAX_CONCURRENT_EXECUTIONS) + [DoRetire(IdOf(0), ONLY_NODE)]
  }

  /** An acknowledgement for a live execution without a tombstone. */
  lemma {:induction false} RetireLive(s: Shared, id: ExecutionId)
    requires ValidConfig(SINGLE) && AllSized(s) && id in s.executions && id !in s.retired.acks
    ensures CoordStep(SINGLE, s, DoRetire(id, ONLY_NODE))
         == s.(executions := s.executions[id := s.executions[id].(acks := s.executions[id].acks + {ONLY_NODE})])
  {
    assert ONLY_NODE in SINGLE.nodes;
    hide ValidConfig, AllSized, Without;
  }

  lemma {:induction false} NewIdIsFree<X>(m: map<ExecutionId, Live<X>>, k: nat)
    requires k <= MAX_CONCURRENT_EXECUTIONS && LiveFirst(m, k)
    ensures Repeated(2) !in m
  {
    assert forall j :: 0 <= j < k ==> IdOf(j)[0] == 1;
    hide IdOf;
    assert forall id :: id in m ==> Numbered(id, k);
    assert forall id :: Numbered(id, k) ==> |id| == 32 && id[0] == 1;
  }

  /** The acknowledgement of the only party is a quorum, so it makes an execution evictable. */
  lemma {:induction false} RetireOnce(s: Shared, id: ExecutionId)
    requires ValidConfig(SINGLE) && RetirementQuorum(SINGLE) == 1 && AllSized(s) && id in s.executions
    requires s.executions[id].acks == {} && s.oneOff == None && id !in s.retired.acks
    ensures var s' := CoordStep(SINGLE, s, DoRetire(id, ONLY_NODE));
      Evictable(SINGLE, s', id) && s'.executions.Keys == s.executions.Keys
  {
    hide ValidConfig, AllSized, CoordStep, RetirementQuorum;
    RetireLive(s, id);
    var live := s.executions[id].(acks := {} + {ONLY_NODE});
    assert s.executions[id := live].Keys == s.executions.Keys;
  }

  lemma {:induction false} RetireOne(s: Shared)
    requires ValidConfig(SINGLE) && RetirementQuorum(SINGLE) == 1 && AllSized(s)
      && FilledTo(s, MAX_CONCURRENT_EXECUTIONS)
    ensures var s' := CoordStep(SINGLE, s, DoRetire(IdOf(0), ONLY_NODE));
      Evictable(SINGLE, s', IdOf(0)) && |s'.executions| == MAX_CONCURRENT_EXECUTIONS && Repeated(2) !in s'.executions
  {
    NewIdIsFree(s.executions, MAX_CONCURRENT_EXECUTIONS);
    var id, live := IdOf(0), s.executions;
    assert Repeated(2) !in live && |live| == MAX_CONCURRENT_EXECUTIONS && id in live && live[id].acks == {};
    hide ValidConfig, IdOf, AllSized, CoordStep, RetirementQuorum, Repeated, LiveFirst, Evictable;
    RetireOnce(s, id);
    var live' := CoordStep(SINGLE, s, DoRetire(id, ONLY_NODE)).executions;
    assert |live'| == |live'.Keys| == |live.Keys| == |live|;
  }

  lemma {:induction false} FullAndRetired()
    ensures ValidConfig(SINGLE) && AllSized(Standing())
    ensures var s := CoordRun(SINGLE, Standing(), Filled());
      && |s.executions| == MAX_CONCURRENT_EXECUTIONS && Repeated(2) !in s.executions && Evictable(SINGLE, s, IdOf(0))
  {
    SingleIsValid();
    hide CoordStep, FilledTo, ValidConfig, RetirementQuorum, IdOf, Filling, Evictable;
    FillingFills(MAX_CONCURRENT_EXECUTIONS);
    RunPush(Standing(), Filling(MAX_CONCURRENT_EXECUTIONS), DoRetire(IdOf(0), ONLY_NODE));
    RetireOne(CoordRun(SINGLE, Standing(), Filling(MAX_CONCURRENT_EXECUTIONS)));
  }

  /**
   * After 1024 registrations and one acknowledgement, a registration that is refused for its all-zero program hash has
   * evicted an execution.
   */
  lemma {:induction false} RefusedRegistrationEvicts()
    ensures ValidConfig(SINGLE) && AllSized(Standing())
    ensures var s := CoordRun(SINGLE, Standing(), Filled());
      var reg := RegOf(Repeated(2), Repeated(0));
      && ScanAnswer(SINGLE, s, Some(IdOf(0))) && IdOf(0) in s.executions
      && Register(s, reg, Some(IdOf(0)), Made(SINGLE, reg)).0 == Err(Invalid(ZeroProgramHash))
      && IdOf(0) !in CoordRun(SINGLE, Standing(), Filled() + [DoRegister(reg, Some(IdOf(0)))]).executions
  {
    FullAndRetired();
    hide CoordRun, ValidConfig, RetirementQuorum, IdOf, Filled, New, Seal, AllSized;
    var reg := RegOf(Repeated(2), Repeated(0));
    assert Repeated(2)[0] != 0;
    RegIsAccepted(Repeated(2));
    RunPush(Standing(), Filled(), DoRegister(reg, Some(IdOf(0))));
  }
}
