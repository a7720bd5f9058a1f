/** The execution registry: bounded capacity, retirement quorums, eviction into bounded tombstones. */
module Registry {
  import opened Base
  import opened Topology
  import opened ExecutionModel

  const MAX_CONCURRENT_EXECUTIONS: nat := 1024
  const MAX_RETIRED_EXECUTIONS: nat := 4096

  // ---------------------------------------------------------------- tombstones

  /** Sealed executions: who acknowledged each, and the order they were sealed in. */
  datatype Retired = Retired(acks: map<ExecutionId, set<Identity>>, order: seq<ExecutionId>)

  function Trim(r: Retired): Retired
    decreases |r.order|
  {
    if |r.order| <= MAX_RETIRED_EXECUTIONS then r else Trim(Retired(r.acks - {r.order[0]}, r.order[1..]))
  }

  function Seal(r: Retired, id: ExecutionId, acks: set<Identity>): Retired {
    Trim(Retired(r.acks[id := acks], if id in r.acks then r.order else r.order + [id]))
  }

  function Without(order: seq<ExecutionId>, id: ExecutionId): (r: seq<ExecutionId>)
    ensures forall x :: x in r <==> x in order && x != id
  {
    if order == [] then []
    else
      var front, last := order[..|order| - 1], order[|order| - 1];
      assert forall x :: x in order <==> x in front || x == last;
      if last == id then Without(front, id) else Without(front, id) + [last]
  }

  /** One more acknowledgement; a tombstone everyone has acknowledged is forgotten. */
  function Acknowledge(r: Retired, id: ExecutionId, party: Identity, n: nat): (bool, Retired) {
    if id !in r.acks then (false, r)
    else
      var acks := r.acks[id] + {party};
      if |acks| >= n then (true, Retired(r.acks - {id}, Without(r.order, id)))
      else (true, r.(acks := r.acks[id := acks]))
  }

  /** `order` lists the sealed executions, each once, and stays within its bound. */
  ghost predicate Listing(r: Retired) {
    && NoDup(r.order)
    && (forall id :: id in r.order <==> id in r.acks)
    && |r.order| <= MAX_RETIRED_EXECUTIONS
  }

  lemma {:induction false} NoDupLast(order: seq<ExecutionId>)
    requires NoDup(order) && order != []
    ensures NoDup(order[..|order| - 1]) && order[|order| - 1] !in order[..|order| - 1]
  {
    var front := order[..|order| - 1];
    assert forall i :: 0 <= i < |front| ==> front[i] == order[i];
  }

  lemma {:induction false} NoDupAppend(order: seq<ExecutionId>, id: ExecutionId)
    requires NoDup(order) && id !in order
    ensures NoDup(order + [id])
  {
    var more := order + [id];
    forall i, j | 0 <= i < j < |more| ensures more[i] != more[j] {
      assert more[i] == order[i];
    }
  }

  lemma {:induction false} NoDupFirst(order: seq<ExecutionId>)
    requires NoDup(order) && order != []
    ensures NoDup(order[1..]) && order[0] !in order[1..]
    ensures forall x :: x in order[1..] <==> x in order && x != order[0]
  {
    assert order == [order[0]] + order[1..];
    NoDupCons(order[0], order[1..]);
  }

  lemma {:induction false} WithoutShrinks(order: seq<ExecutionId>, id: ExecutionId)
    requires NoDup(order)
    ensures NoDup(Without(order, id)) && |Without(order, id)| <= |order|
  {
    if order != [] {
      var front, last := order[..|order| - 1], order[|order| - 1];
      NoDupLast(order);
      WithoutShrinks(front, id);
      if last != id { NoDupAppend(Without(front, id), last); }
    }
  }

  /** Trimming forgets at most the oldest entry of a listing that is one too long. */
  lemma {:induction false} TrimKeeps(r: Retired)
    requires NoDup(r.order) && (forall x :: x in r.order <==> x in r.acks) && |r.order| <= MAX_RETIRED_EXECUTIONS + 1
    ensures Listing(Trim(r))
    ensures Trim(r) == if |r.order| <= MAX_RETIRED_EXECUTIONS then r else Retired(r.acks - {r.order[0]}, r.order[1..])
  {
    if |r.order| > MAX_RETIRED_EXECUTIONS {
      NoDupFirst(r.order);
      hide NoDup;
      var trimmed := Retired(r.acks - {r.order[0]}, r.order[1..]);
      assert Trim(trimmed) == trimmed;
    }
  }

  /**
   * Sealing keeps the listing and carries the sealed execution's own acknowledgements over untouched. Only beyond 4096
   * tombstones is another one forgotten, and that is the one sealed first.
   */
  lemma {:induction false} SealKeeps(r: Retired, id: ExecutionId, acks: set<Identity>)
    requires Listing(r)
    ensures Listing(Seal(r, id, acks))
    ensures id in Seal(r, id, acks).acks && Seal(r, id, acks).acks[id] == acks
    ensures forall x :: x in Seal(r, id, acks).acks && x != id ==> x in r.acks && Seal(r, id, acks).acks[x] == r.acks[x]
    ensures if id in r.acks then Seal(r, id, acks) == Retired(r.acks[id := acks], r.order)
            else if |r.order| < 4096 then Seal(r, id, acks) == Retired(r.acks[id := acks], r.order + [id])
            else Seal(r, id, acks) == Retired(r.acks[id := acks] - {r.order[0]}, r.order[1..] + [id])
  {
    var full := Retired(r.acks[id := acks], if id in r.acks then r.order else r.order + [id]);
    if id !in r.acks { NoDupAppend(r.order, id); }
    hide NoDup, Trim;
    TrimKeeps(full);
    assert |r.order| >= 4096 ==> (r.order + [id])[1..] == r.order[1..] + [id];
    assert |full.order| > MAX_RETIRED_EXECUTIONS ==> full.order[0] == r.order[0] && r.order[0] in r.order;
    hide Listing;
  }

  lemma {:induction false} AcknowledgeKeeps(r: Retired, id: ExecutionId, party: Identity, n: nat)
    requires Listing(r)
    ensures Listing(Acknowledge(r, id, party, n).1)
  {
    WithoutShrinks(r.order, id);
  }

  class RetiredExecutions {
    var acks: map<ExecutionId, set<Identity>>
    var order: seq<ExecutionId>

    ghost function State(): Retired
      reads this
    {
      Retired(acks, order)
    }

    constructor ()
      ensures State() == Retired(map[], [])
    {
      acks, order := map[], [];
    }

    method SealExecution(id: ExecutionId, received: set<Identity>)
      modifies this
      ensures State() == Seal(old(State()), id, received)
    {
      if id !in acks {
        order := order + [id];
      }
      acks := acks[id := received];
      while |order| > MAX_RETIRED_EXECUTIONS
        invariant Trim(State()) == Seal(old(State()), id, received)
      {
        acks := acks - {order[0]};
        order := order[1..];
      }
    }

    method AcknowledgeParty(id: ExecutionId, party: Identity, n: nat) returns (sealed: bool)
      modifies this
      ensures (sealed, State()) == Acknowledge(old(State()), id, party, n)
    {
      if id !in acks {
        return false;
      }
      var received := acks[id] + {party};
      acks := acks[id := received];
      if |received| >= n {
        acks := acks - {id};
        var kept: seq<ExecutionId> := [];
        for k := 0 to |order|
          invariant kept == Without(order[..k], id)
          invariant order == old(order) && acks == old(acks) - {id}
        {
          assert order[..k + 1][..k] == order[..k];
          if order[k] != id {
            kept := kept + [order[k]];
          }
        }
        assert order[..|order|] == order;
        order := kept;
      }
      sealed := true;
    }
  }

  // ---------------------------------------------------------------- live executions

  /** A live execution: its registration, the parties done with it, and the rest of its state. */
  datatype Live<X> = Live(reg: Registration, acks: set<Identity>, state: X)

  datatype Coordinator<X> = Coordinator(
    executions: map<ExecutionId, Live<X>>, retired: Retired, oneOff: Option<ExecutionId>)

  datatype RegistryError = DifferentMetadata | CapacityReached | Invalid(error: RegistrationError) | NotAParty

  /** An execution whose slot may be reclaimed. */
  predicate Evictable<X>(c: Config, s: Coordinator<X>, id: ExecutionId)
    requires ValidConfig(c)
  {
    && id in s.executions
    && s.oneOff != Some(id)
    && |s.executions[id].acks| >= RetirementQuorum(c)
  }

  function Evict<X>(s: Coordinator<X>, id: ExecutionId): Coordinator<X>
    requires id in s.executions
  {
    s.(executions := s.executions - {id}, retired := Seal(s.retired, id, s.executions[id].acks))
  }

  /** What a hash map scan may answer: some evictable execution if there is one. */
  ghost predicate ScanAnswer<X>(c: Config, s: Coordinator<X>, pick: Option<ExecutionId>)
    requires ValidConfig(c)
  {
    match pick
    case Some(id) => Evictable(c, s, id)
    case None => forall id :: !Evictable(c, s, id)
  }

  /**
   * `register_execution`. `pick` is the scan's answer and `made` what building the execution gives. The slot is
   * reclaimed before the registration is checked, so a refused registration may still evict.
   */
  function Register<X>(s: Coordinator<X>, reg: Registration, pick: Option<ExecutionId>,
                       made: Result<X, RegistrationError>)
    : (Result<(), RegistryError>, Coordinator<X>)
    requires pick.Some? ==> pick.value in s.executions
  {
    if reg.executionId in s.executions then
      (if s.executions[reg.executionId].reg == reg then Ok(()) else Err(DifferentMetadata), s)
    else if |s.executions| >= MAX_CONCURRENT_EXECUTIONS && pick.None? then (Err(CapacityReached), s)
    else
      var s1 := if |s.executions| >= MAX_CONCURRENT_EXECUTIONS then Evict(s, pick.value) else s;
      match made
      case Err(e) => (Err(Invalid(e)), s1)
      case Ok(x) => (Ok(()), s1.(executions := s1.executions[reg.executionId := Live(reg, {}, x)]))
  }

  /** `retire_execution`: a tombstone takes the acknowledgement first; an unknown execution is not an error. */
  function Retire<X>(c: Config, s: Coordinator<X>, id: ExecutionId, party: Identity)
    : (Result<(), RegistryError>, Coordinator<X>)
  {
    if party !in c.nodes then (Err(NotAParty), s)
    else
      var a := Acknowledge(s.retired, id, party, |c.nodes|);
      if a.0 then (Ok(()), s.(retired := a.1))
      else if id !in s.executions then (Ok(()), s)
      else
        var live := s.executions[id];
        (Ok(()), s.(executions := s.executions[id := live.(acks := live.acks + {party})]))
  }

  /** `retirement_progress`: acknowledgements, parties, and whether everyone is done. */
  function RetirementProgress<X>(c: Config, s: Coordinator<X>, id: ExecutionId): (nat, nat, bool) {
    var n := |c.nodes|;
    if id in s.executions then
      var acknowledged := |s.executions[id].acks|;
      (acknowledged, n, acknowledged >= n)
    else if id in s.retired.acks then (|s.retired.acks[id]|, n, false)
    else (n, n, true)
  }

  /** The registry as a mutable object over the execution states of `ExecutionModel`. */
  class CoordinatorShared {
    const config: Config
    var executions: map<ExecutionId, Live<Exec>>
    const retired: RetiredExecutions
    var oneOffExecution: Option<ExecutionId>

    ghost function State(): Coordinator<Exec>
      reads this, retired
    {
      Coordinator(executions, retired.State(), oneOffExecution)
    }

    constructor (c: Config)
      requires ValidConfig(c)
      ensures config == c && State() == Coordinator(map[], Retired(map[], []), None) && fresh(retired)
    {
      config := c;
      executions := map[];
      oneOffExecution := None;
      retired := new RetiredExecutions();
    }

    method WatchForShutdownRequest(id: ExecutionId)
      modifies this`oneOffExecution
      ensures State() == old(State()).(oneOff := Some(id))
    {
      oneOffExecution := Some(id);
    }

    /** The scan for a slot to reclaim, in an unspecified order. */
    method FindEvictable() returns (pick: Option<ExecutionId>)
      requires ValidConfig(config)
      ensures ScanAnswer(config, State(), pick)
    {
      var left := executions.Keys;
      while left != {}
        invariant left <= executions.Keys
        invariant forall id :: id in executions.Keys - left ==> !Evictable(config, State(), id)
        decreases |left|
      {
        var id :| id in left;
        if oneOffExecution != Some(id) && |executions[id].acks| >= RetirementQuorum(config) {
          return Some(id);
        }
        left := left - {id};
      }
      return None;
    }

    method RegisterExecution(reg: Registration) returns (r: Result<(), RegistryError>, ghost pick: Option<ExecutionId>)
      requires ValidConfig(config)
      modifies this, retired
      ensures ScanAnswer(config, old(State()), pick)
      ensures (r, State()) == Register(old(State()), reg, pick, New(reg, config.n))
    {
      pick := ScanWitness(config, State());
      if reg.executionId in executions {
        if executions[reg.executionId].reg == reg {
          return Ok(()), pick;
        }
        return Err(DifferentMetadata), pick;
      }
      if |executions| >= MAX_CONCURRENT_EXECUTIONS {
        var found := FindEvictable();
        pick := found;
        if found.None? {
          return Err(CapacityReached), pick;
        }
        var acks := executions[found.value].acks;
        executions := executions - {found.value};
        retired.SealExecution(found.value, acks);
      }
      var made := New(reg, config.n);
      if made.Err? {
        return Err(Invalid(made.error)), pick;
      }
      executions := executions[reg.executionId := Live(reg, {}, made.value)];
      r := Ok(());
    }

    method RetireExecution(id: ExecutionId, party: Identity) returns (r: Result<(), RegistryError>)
      modifies this, retired
      ensures (r, State()) == old(Retire(config, State(), id, party))
    {
      if party !in config.nodes {
        return Err(NotAParty);
      }
      var sealed := retired.AcknowledgeParty(id, party, |config.nodes|);
      if sealed {
        return Ok(());
      }
      if id !in executions {
        return Ok(());
      }
      var live := executions[id];
      executions := executions[id := live.(acks := live.acks + {party})];
      r := Ok(());
    }

    /** The counts a one-off coordinator polls. */
    method Progress(id: ExecutionId) returns (acknowledged: nat, parties: nat, complete: bool)
      ensures (acknowledged, parties, complete) == RetirementProgress(config, State(), id)
    {
      parties := |config.nodes|;
      if id in executions {
        acknowledged := |executions[id].acks|;
        return acknowledged, parties, acknowledged >= parties;
      }
      if id in retired.acks {
        return |retired.acks[id]|, parties, false;
      }
      return parties, parties, true;
    }
  }

  ghost function ScanWitness<X>(c: Config, s: Coordinator<X>): (pick: Option<ExecutionId>)
    requires ValidConfig(c)
    ensures ScanAnswer(c, s, pick)
  {
    if exists id :: Evictable(c, s, id) then
      var id :| Evictable(c, s, id);
      Some(id)
    else None
  }
}
