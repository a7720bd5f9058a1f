/** A one-off coordinator's start: from the program's client manifest to the slots of the registered execution. */
module Startup {
  import opened Base
  import opened Topology
  import opened Assignments
  import opened ExecutionModel
  import opened ExecutionRuns
  import opened InputProps

  datatype Backend = HoneyBadger | Avss

  /** `min_shares` of the backend's share type. */
  function MinShares(backend: Backend, t: nat): nat {
    match backend
    case HoneyBadger => 2 * t + 1
    case Avss => t + 1
  }

  /** The registration built from a bound manifest. */
  function StartupRegistration(c: Config, id: ExecutionId, hash: Bytes, built: Built, backend: Backend): Registration
    requires ValidConfig(c) && Total(built.assignment.ranges) < 0x1_0000_0000_0000_0000
  {
    Registration(id, hash, Total(built.assignment.ranges), built.outputClients, built.assignment,
                 MinShares(backend, c.t))
  }

  /**
   * A manifest that binds and a roster that validates give a registration that the coordinator accepts, unless the
   * execution id or the program hash is all zero.
   */
  lemma {:induction false} StartupIsAccepted(c: Config, id: ExecutionId, hash: Bytes, manifest: seq<Schema>,
                                             bindings: seq<Binding>, backend: Backend)
    requires ValidConfig(c) && BuildSpec(manifest, bindings).Ok?
    requires ManifestInputs(manifest) < 0x1_0000_0000_0000_0000
    ensures var built := BuildSpec(manifest, bindings).value;
      && Total(built.assignment.ranges) < 0x1_0000_0000_0000_0000
      && (Accepted(c, StartupRegistration(c, id, hash, built, backend)) <==> !IsZero(id) && !IsZero(hash))
      && var reg := StartupRegistration(c, id, hash, built, backend);
         && reg.executionId == id && reg.programHash == hash && reg.nInputs == ManifestInputs(manifest)
         && reg.assignment == built.assignment && reg.outputClients == built.outputClients
  {
    BindingIsFaithful(manifest, bindings);
    hide BuildSpec;
  }

  /** Every slot from `lo` up to `hi` exists, and whoever reserved it is `client`. */
  ghost predicate HeldOnlyBy(e: Exec, lo: nat, hi: nat, client: Identity) {
    hi <= |e.reserved| && forall i :: lo <= i < hi && e.reserved[i].Some? ==> e.reserved[i].value == client
  }

  lemma {:induction false} RangeHeldBy(c: Config, reg: Registration, actions: seq<Action>, r: nat)
    requires Accepted(c, reg) && r < |reg.assignment.ranges| && reg.assignment.ranges[r].count > 0
    ensures reg.assignment.ranges[r].clientIndex < |reg.assignment.clients|
    ensures var ranges := reg.assignment.ranges;
      HeldOnlyBy(After(c, reg, actions).e, Total(ranges[..r]), Total(ranges[..r + 1]),
                 reg.assignment.clients[ranges[r].clientIndex])
  {
    var ranges := reg.assignment.ranges;
    var e := After(c, reg, actions).e;
    assert ranges[..r + 1][..r] == ranges[..r];
    hide After, New, Total;
    ReservedByItsOwner(c, reg, actions, r, Total(ranges[..r + 1]) - 1);
    forall i | Total(ranges[..r]) <= i < Total(ranges[..r + 1]) && i < |e.reserved| && e.reserved[i].Some?
      ensures e.reserved[i].value == reg.assignment.clients[ranges[r].clientIndex]
    {
      ReservedByItsOwner(c, reg, actions, r, i);
    }
  }

  /**
   * From manifest to reservation, in every run: the binding of a manifest entry with inputs has a range exactly as long
   * as the entry says, and no slot of that range is ever reserved by anybody but the bound client.
   */
  lemma {:induction false} SlotsFollowManifest(c: Config, id: ExecutionId, hash: Bytes, manifest: seq<Schema>,
                                               bindings: seq<Binding>, backend: Backend, actions: seq<Action>, k: nat)
    returns (m: nat, r: nat)
    requires ValidConfig(c) && BuildSpec(manifest, bindings).Ok? && k < |bindings|
    requires !IsZero(id) && !IsZero(hash) && ManifestInputs(manifest) < 0x1_0000_0000_0000_0000
    requires forall j :: 0 <= j < |manifest| && manifest[j].slot == bindings[k].slot ==> manifest[j].inputs > 0
    ensures m < |manifest| && manifest[m].slot == bindings[k].slot
    ensures var built := BuildSpec(manifest, bindings).value;
      var ranges := built.assignment.ranges;
      && Total(ranges) < 0x1_0000_0000_0000_0000
      && Accepted(c, StartupRegistration(c, id, hash, built, backend))
      && r < |ranges| && ranges[r].count == manifest[m].inputs
      && HeldOnlyBy(After(c, StartupRegistration(c, id, hash, built, backend), actions).e,
                    Total(ranges[..r]), Total(ranges[..r + 1]), bindings[k].client)
  {
    StartupIsAccepted(c, id, hash, manifest, bindings, backend);
    BindingIsFaithful(manifest, bindings);
    var built := BuildSpec(manifest, bindings).value;
    var a, reg := built.assignment, StartupRegistration(c, id, hash, built, backend);
    hide BuildSpec, New, After, HeldOnlyBy;
    m :| 0 <= m < |manifest| && manifest[m].slot == bindings[k].slot
      && OwnRange(Bound(bindings[k].client, manifest[m]), a);
    r :| 0 <= r < |a.clients| && r < |a.ranges| && a.clients[r] == bindings[k].client
      && a.ranges[r].count == manifest[m].inputs;
    RangeHeldBy(c, reg, actions, r);
  }
}
