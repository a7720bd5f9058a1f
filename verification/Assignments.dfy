/** Input ranges on the wire, their expansion to one entry per slot, and the manifest binding. */
module Assignments {
  import opened Base

  datatype InputClientRange = InputClientRange(clientIndex: u32, count: u64)

  datatype InputAssignment = InputAssignment(clients: seq<Identity>, ranges: seq<InputClientRange>)

  datatype InputSlot = InputSlot(clientIndex: u32, ordinal: u64)

  /** The number of slots covered. Unbounded here; overflow of the `u64` sum is the caller's concern. */
  function Total(ranges: seq<InputClientRange>): nat {
    if ranges == [] then 0 else Total(ranges[..|ranges| - 1]) + ranges[|ranges| - 1].count
  }

  function Block(range: InputClientRange, count: u64): seq<InputSlot>
    requires count <= range.count
  {
    seq(count, k requires 0 <= k < count => InputSlot(range.clientIndex, k))
  }

  function Expand(ranges: seq<InputClientRange>): seq<InputSlot> {
    if ranges == [] then []
    else
      var last := ranges[|ranges| - 1];
      Expand(ranges[..|ranges| - 1]) + Block(last, last.count)
  }

  /** `expand_input_ranges`: two nested loops that push one slot at a time. */
  method ExpandInputRanges(ranges: seq<InputClientRange>) returns (slots: seq<InputSlot>)
    ensures slots == Expand(ranges)
  {
    slots := [];
    for r := 0 to |ranges|
      invariant slots == Expand(ranges[..r])
    {
      var before := slots;
      for ordinal := 0 to ranges[r].count
        invariant slots == before + Block(ranges[r], ordinal)
      {
        slots := slots + [InputSlot(ranges[r].clientIndex, ordinal)];
      }
      assert ranges[..r + 1][..r] == ranges[..r];
    }
    assert ranges[..|ranges|] == ranges;
  }

  lemma {:induction false} TotalMonotone(ranges: seq<InputClientRange>, j: nat, k: nat)
    requires j <= k <= |ranges|
    ensures Total(ranges[..j]) <= Total(ranges[..k])
  {
    if j < k {
      TotalMonotone(ranges, j, k - 1);
      assert ranges[..k][..k - 1] == ranges[..k - 1];
    }
  }

  /** Expanded slot `i` of range `k` is owned by that range's client and labelled `i` minus the range's start. */
  lemma {:induction false} ExpandedSlot(ranges: seq<InputClientRange>, k: nat, i: nat)
    requires k < |ranges|
    requires Total(ranges[..k]) <= i < Total(ranges[..k + 1])
    ensures |Expand(ranges)| == Total(ranges)
    ensures i < |Expand(ranges)|
    ensures i - Total(ranges[..k]) < ranges[k].count
    ensures Expand(ranges)[i] == InputSlot(ranges[k].clientIndex, i - Total(ranges[..k]))
  {
    ExpandLength(ranges);
    TotalMonotone(ranges, k + 1, |ranges|);
    assert ranges[..|ranges|] == ranges;
    assert ranges[..k + 1][..k] == ranges[..k];
    var front := ranges[..|ranges| - 1];
    if k < |front| {
      assert front[..k] == ranges[..k] && front[..k + 1] == ranges[..k + 1];
      ExpandedSlot(front, k, i);
    } else {
      ExpandLength(front);
      assert front == ranges[..k];
    }
  }

  lemma {:induction false} ExpandLength(ranges: seq<InputClientRange>)
    ensures |Expand(ranges)| == Total(ranges)
  {
    if ranges != [] {
      ExpandLength(ranges[..|ranges| - 1]);
    }
  }

  /** Every slot lies in exactly one range, and the search for it is a search for a prefix sum. */
  lemma {:induction false} RangeSearch(ranges: seq<InputClientRange>, i: nat) returns (k: nat)
    requires i < Total(ranges)
    ensures k < |ranges|
    ensures Total(ranges[..k]) <= i < Total(ranges[..k + 1])
    ensures forall j :: 0 <= j < |ranges| && Total(ranges[..j]) <= i < Total(ranges[..j + 1]) ==> j == k
  {
    k := |ranges| - 1;
    assert ranges[..k + 1] == ranges;
    while Total(ranges[..k]) > i
      decreases k
      invariant 0 <= k < |ranges|
      invariant i < Total(ranges[..k + 1])
    {
      k := k - 1;
    }
    forall j | 0 <= j < |ranges| && Total(ranges[..j]) <= i < Total(ranges[..j + 1]) ensures j == k {
      if j < k { TotalMonotone(ranges, j + 1, k); }
      if k < j { TotalMonotone(ranges, k + 1, j); }
    }
  }

  // ---------------------------------------------------------------- manifest binding

  /** One client of the program manifest: its slot and how many inputs and outputs it has. */
  datatype Schema = Schema(slot: u64, inputs: u64, outputs: u64)

  datatype Binding = Binding(slot: u64, client: Identity)

  datatype Bound = Bound(client: Identity, schema: Schema)

  datatype BuildError = DuplicateSlot | UnknownSlot | UnboundSlots | ClientBoundTwice | TooManyClients

  datatype Built = Built(assignment: InputAssignment, outputClients: seq<Identity>)

  /** The third loop of `build_input_assignment`, as a fold over the bound clients. */
  function Lay(bs: seq<Bound>): (r: Result<Built, BuildError>) {
    if bs == [] then Ok(Built(InputAssignment([], []), []))
    else
      var front, b := bs[..|bs| - 1], bs[|bs| - 1];
      match Lay(front)
      case Err(e) => Err(e)
      case Ok(built) =>
        if exists k :: 0 <= k < |front| && front[k].client == b.client then Err(ClientBoundTwice)
        else if b.schema.inputs > 0 && |built.assignment.clients| >= 0x1_0000_0000 then Err(TooManyClients)
        else Ok(LayOne(built, b))
  }

  function LayOne(built: Built, b: Bound): Built
    requires b.schema.inputs > 0 ==> |built.assignment.clients| < 0x1_0000_0000
  {
    var outputs := if b.schema.outputs > 0 then built.outputClients + [b.client] else built.outputClients;
    var a := built.assignment;
    if b.schema.inputs == 0 then Built(a, outputs)
    else Built(InputAssignment(a.clients + [b.client],
                               a.ranges + [InputClientRange(|a.clients|, b.schema.inputs)]), outputs)
  }

  function Slots(manifest: seq<Schema>): seq<u64> {
    seq(|manifest|, k requires 0 <= k < |manifest| => manifest[k].slot)
  }

  function BindingSlots(bindings: seq<Binding>): seq<u64> {
    seq(|bindings|, k requires 0 <= k < |bindings| => bindings[k].slot)
  }

  ghost function SchemaAt(manifest: seq<Schema>, s: u64): (r: Schema)
    requires NoDup(Slots(manifest)) && s in Slots(manifest)
    ensures r in manifest && r.slot == s
    ensures forall k :: 0 <= k < |manifest| && manifest[k].slot == s ==> manifest[k] == r
  {
    var k :| 0 <= k < |manifest| && Slots(manifest)[k] == s;
    assert forall j :: 0 <= j < |manifest| && manifest[j].slot == s ==> Slots(manifest)[j] == Slots(manifest)[k];
    manifest[k]
  }

  /** A binding's slot is looked up and removed, so a slot bound twice is unknown the second time. */
  ghost predicate EveryBindingKnown(manifest: seq<Schema>, bindings: seq<Binding>) {
    NoDup(BindingSlots(bindings)) && forall s :: s in BindingSlots(bindings) ==> s in Slots(manifest)
  }

  ghost function BindAll(manifest: seq<Schema>, bindings: seq<Binding>): seq<Bound>
    requires NoDup(Slots(manifest)) && EveryBindingKnown(manifest, bindings)
  {
    seq(|bindings|, k requires 0 <= k < |bindings| =>
      assert BindingSlots(bindings)[k] == bindings[k].slot;
      Bound(bindings[k].client, SchemaAt(manifest, bindings[k].slot)))
  }

  ghost function BuildSpec(manifest: seq<Schema>, bindings: seq<Binding>): Result<Built, BuildError> {
    if !NoDup(Slots(manifest)) then Err(DuplicateSlot)
    else if !EveryBindingKnown(manifest, bindings) then Err(UnknownSlot)
    else if exists s :: s in Slots(manifest) && s !in BindingSlots(bindings) then Err(UnboundSlots)
    else Lay(BindAll(manifest, bindings))
  }

  ghost predicate Indexed(manifest: seq<Schema>, k: nat, bySlot: map<u64, Schema>)
    requires k <= |manifest|
  {
    && NoDup(Slots(manifest[..k]))
    && (forall s :: s in bySlot <==> s in Slots(manifest[..k]))
    && (forall s :: s in bySlot ==> bySlot[s] == SchemaAt(manifest[..k], s))
  }

  /** First loop: index the manifest by slot, refusing a slot that appears twice. */
  method IndexManifest(manifest: seq<Schema>) returns (ok: bool, bySlot: map<u64, Schema>)
    ensures ok <==> NoDup(Slots(manifest))
    ensures ok ==> Indexed(manifest, |manifest|, bySlot)
  {
    bySlot := map[];
    for k := 0 to |manifest|
      invariant Indexed(manifest, k, bySlot)
    {
      assert Slots(manifest[..k + 1]) == Slots(manifest[..k]) + [manifest[k].slot];
      if manifest[k].slot in bySlot {
        assert Slots(manifest[..k]) == Slots(manifest)[..k];
        DuplicateSlotFound(Slots(manifest), k);
        return false, bySlot;
      }
      bySlot := bySlot[manifest[k].slot := manifest[k]];
    }
    assert manifest[..|manifest|] == manifest;
    return true, bySlot;
  }

  /** Second loop: take each binding's schema out of the index. What is left is unbound. */
  method BindSlots(manifest: seq<Schema>, bindings: seq<Binding>, index: map<u64, Schema>)
    returns (ok: bool, bound: seq<Bound>, rest: map<u64, Schema>)
    requires Indexed(manifest, |manifest|, index)
    ensures NoDup(Slots(manifest))
    ensures ok <==> EveryBindingKnown(manifest, bindings)
    ensures ok ==> bound == BindAll(manifest, bindings)
    ensures ok ==> forall s :: s in rest <==> s in Slots(manifest) && s !in BindingSlots(bindings)
  {
    assert manifest[..|manifest|] == manifest;
    rest, bound := index, [];
    for k := 0 to |bindings|
      invariant EveryBindingKnown(manifest, bindings[..k])
      invariant forall s :: s in rest <==> s in Slots(manifest) && s !in BindingSlots(bindings[..k])
      invariant forall s :: s in rest ==> rest[s] == SchemaAt(manifest, s)
      invariant bound == BindAll(manifest, bindings[..k])
    {
      var slot := bindings[k].slot;
      if slot !in rest {
        UnknownSlotFound(manifest, bindings, k);
        return false, bound, rest;
      }
      KnownSlotExtends(manifest, bindings, k);
      bound := bound + [Bound(bindings[k].client, rest[slot])];
      rest := rest - {slot};
    }
    assert bindings[..|bindings|] == bindings;
    return true, bound, rest;
  }

  ghost function ClientsOf(bs: seq<Bound>): set<Identity> {
    set j | 0 <= j < |bs| :: bs[j].client
  }

  /** Third loop: lay the bound clients out as ranges. */
  method LayRanges(bound: seq<Bound>) returns (r: Result<Built, BuildError>)
    ensures r == Lay(bound)
  {
    var seen: set<Identity> := {};
    var built := Built(InputAssignment([], []), []);
    for k := 0 to |bound|
      invariant seen == ClientsOf(bound[..k])
      invariant Lay(bound[..k]) == Ok(built)
    {
      assert bound[..k + 1][..k] == bound[..k];
      assert bound[k].client in seen <==> exists j :: 0 <= j < k && bound[..k][j].client == bound[k].client;
      if bound[k].client in seen {
        LayFails(bound, k + 1);
        return Err(ClientBoundTwice);
      }
      if bound[k].schema.inputs > 0 && |built.assignment.clients| >= 0x1_0000_0000 {
        LayFails(bound, k + 1);
        return Err(TooManyClients);
      }
      built := LayOne(built, bound[k]);
      ClientsExtend(bound, k);
      seen := seen + {bound[k].client};
    }
    assert bound[..|bound|] == bound;
    return Ok(built);
  }

  lemma {:induction false} ClientsExtend(bs: seq<Bound>, k: nat)
    requires k < |bs|
    ensures ClientsOf(bs[..k + 1]) == ClientsOf(bs[..k]) + {bs[k].client}
  {
    assert bs[..k + 1] == bs[..k] + [bs[k]];
    assert bs[..k + 1][k].client == bs[k].client;
    forall c | c in ClientsOf(bs[..k]) ensures c in ClientsOf(bs[..k + 1]) {
      var j :| 0 <= j < k && bs[..k][j].client == c;
      assert bs[..k + 1][j].client == c;
    }
    forall c | c in ClientsOf(bs[..k + 1]) ensures c in ClientsOf(bs[..k]) + {bs[k].client} {
      var j :| 0 <= j < k + 1 && bs[..k + 1][j].client == c;
      if j < k { assert bs[..k][j].client == c; }
    }
  }

  /** `build_input_assignment`: the three loops, with the leftover check between the second and the third. */
  method BuildInputAssignment(manifest: seq<Schema>, bindings: seq<Binding>) returns (r: Result<Built, BuildError>)
    ensures r == BuildSpec(manifest, bindings)
  {
    var indexed, bySlot := IndexManifest(manifest);
    if !indexed { return Err(DuplicateSlot); }
    var known, bound, rest := BindSlots(manifest, bindings, bySlot);
    if !known { return Err(UnknownSlot); }
    if rest != map[] {
      assert exists s :: s in rest;
      return Err(UnboundSlots);
    }
    r := LayRanges(bound);
  }

  lemma {:induction false} DuplicateSlotFound(slots: seq<u64>, k: nat)
    requires k < |slots| && slots[k] in slots[..k]
    ensures !NoDup(slots)
  {
    var j :| 0 <= j < k && slots[..k][j] == slots[k];
    assert slots[j] == slots[k];
  }

  lemma {:induction false} UnknownSlotFound(manifest: seq<Schema>, bindings: seq<Binding>, k: nat)
    requires k < |bindings|
    requires bindings[k].slot !in Slots(manifest) || bindings[k].slot in BindingSlots(bindings[..k])
    ensures !EveryBindingKnown(manifest, bindings)
  {
    assert BindingSlots(bindings)[k] == bindings[k].slot;
    assert BindingSlots(bindings[..k]) == BindingSlots(bindings)[..k];
    if bindings[k].slot in BindingSlots(bindings[..k]) {
      DuplicateSlotFound(BindingSlots(bindings), k);
    }
  }

  lemma {:induction false} KnownSlotExtends(manifest: seq<Schema>, bindings: seq<Binding>, k: nat)
    requires NoDup(Slots(manifest)) && k < |bindings|
    requires EveryBindingKnown(manifest, bindings[..k])
    requires bindings[k].slot in Slots(manifest) && bindings[k].slot !in BindingSlots(bindings[..k])
    ensures EveryBindingKnown(manifest, bindings[..k + 1])
    ensures BindAll(manifest, bindings[..k + 1])
         == BindAll(manifest, bindings[..k]) + [Bound(bindings[k].client, SchemaAt(manifest, bindings[k].slot))]
    ensures BindingSlots(bindings[..k + 1]) == BindingSlots(bindings[..k]) + [bindings[k].slot]
  {
    var more := BindingSlots(bindings[..k + 1]);
    assert more == BindingSlots(bindings[..k]) + [bindings[k].slot];
  }

  lemma {:induction false} LayFails(bs: seq<Bound>, k: nat)
    requires k <= |bs| && Lay(bs[..k]).Err?
    ensures Lay(bs) == Lay(bs[..k])
  {
    if k == |bs| {
      assert bs[..k] == bs;
    } else {
      assert bs[..|bs| - 1][..k] == bs[..k];
      LayFails(bs[..|bs| - 1], k);
    }
  }

  // ---------------------------------------------------------------- what a successful binding guarantees

  function BoundInputs(bs: seq<Bound>): nat {
    if bs == [] then 0 else BoundInputs(bs[..|bs| - 1]) + bs[|bs| - 1].schema.inputs
  }

  function ManifestInputs(manifest: seq<Schema>): nat {
    if manifest == [] then 0 else ManifestInputs(manifest[..|manifest| - 1]) + manifest[|manifest| - 1].inputs
  }

  /** Well-formed ranges: range `k` belongs to client `k`, is not empty, and no client owns two ranges. */
  ghost predicate WellLaid(a: InputAssignment) {
    && |a.ranges| == |a.clients|
    && NoDup(a.clients)
    && forall k :: 0 <= k < |a.ranges| ==> a.ranges[k].clientIndex == k && a.ranges[k].count > 0
  }

  /** The members of a laid-out assignment are the bound clients with inputs, the output clients those with outputs. */
  lemma {:induction false} LaidMembers(bs: seq<Bound>)
    requires Lay(bs).Ok?
    ensures forall i, j :: 0 <= i < j < |bs| ==> bs[i].client != bs[j].client
    ensures forall c :: c in Lay(bs).value.assignment.clients
              <==> exists k :: 0 <= k < |bs| && bs[k].client == c && bs[k].schema.inputs > 0
    ensures forall c :: c in Lay(bs).value.outputClients
              <==> exists k :: 0 <= k < |bs| && bs[k].client == c && bs[k].schema.outputs > 0
  {
    if bs != [] {
      var front, b := bs[..|bs| - 1], bs[|bs| - 1];
      LaidMembers(front);
      assert forall k :: 0 <= k < |front| ==> front[k] == bs[k];
      assert Lay(bs).value == LayOne(Lay(front).value, b);
    }
  }

  lemma {:induction false} LayOneKeeps(built: Built, b: Bound)
    requires WellLaid(built.assignment) && NoDup(built.outputClients)
    requires b.client !in built.assignment.clients && b.client !in built.outputClients
    requires b.schema.inputs > 0 ==> |built.assignment.clients| < 0x1_0000_0000
    ensures WellLaid(LayOne(built, b).assignment)
    ensures NoDup(LayOne(built, b).outputClients)
    ensures Total(LayOne(built, b).assignment.ranges) == Total(built.assignment.ranges) + b.schema.inputs
  {
    var r, r' := built.assignment.ranges, LayOne(built, b).assignment.ranges;
    assert b.schema.inputs > 0 ==> r'[..|r'| - 1] == r;
  }

  lemma {:induction false} LaidRanges(bs: seq<Bound>)
    requires Lay(bs).Ok?
    ensures WellLaid(Lay(bs).value.assignment)
    ensures NoDup(Lay(bs).value.outputClients)
    ensures Total(Lay(bs).value.assignment.ranges) == BoundInputs(bs)
  {
    if bs != [] {
      var front, b := bs[..|bs| - 1], bs[|bs| - 1];
      LaidRanges(front);
      LaidMembers(front);
      LayOneKeeps(Lay(front).value, b);
    }
  }

  lemma {:induction false} LayOneOwns(built: Built, b: Bound, other: Bound)
    requires |built.assignment.clients| == |built.assignment.ranges|
    requires b.schema.inputs > 0 ==> |built.assignment.clients| < 0x1_0000_0000
    requires OwnRange(other, built.assignment) || other == b
    ensures OwnRange(other, LayOne(built, b).assignment)
  {
    var a, a' := built.assignment, LayOne(built, b).assignment;
    if other.schema.inputs > 0 {
      var j := |a.clients|;
      if OwnRange(other, a) {
        j :| 0 <= j < |a.clients| && a.clients[j] == other.client && a.ranges[j].count == other.schema.inputs;
      }
      assert a'.clients[j] == other.client && a'.ranges[j].count == other.schema.inputs;
    }
  }

  lemma {:induction false} LaidOwnRange(bs: seq<Bound>, k: nat)
    requires Lay(bs).Ok? && k < |bs|
    ensures OwnRange(bs[k], Lay(bs).value.assignment)
  {
    var front, b := bs[..|bs| - 1], bs[|bs| - 1];
    LaidRanges(front);
    var built := Lay(front).value;
    assert Lay(bs).value == LayOne(built, b) && |built.assignment.clients| == |built.assignment.ranges|;
    assert b.schema.inputs > 0 ==> |built.assignment.clients| < 0x1_0000_0000;
    hide LayOne, WellLaid, OwnRange, NoDup, Total, BoundInputs, Lay;
    if k < |front| {
      LaidOwnRange(front, k);
      assert front[k] == bs[k];
    }
    LayOneOwns(built, b, bs[k]);
  }

  /** A bound client with inputs has one range, exactly as long as its schema says. */
  ghost predicate OwnRange(b: Bound, a: InputAssignment) {
    b.schema.inputs > 0 ==>
      exists j :: 0 <= j < |a.clients| && j < |a.ranges| && a.clients[j] == b.client
        && a.ranges[j].count == b.schema.inputs
  }

  lemma {:induction false} SlotsWithout(manifest: seq<Schema>, j: nat)
    requires j < |manifest| && NoDup(Slots(manifest))
    ensures NoDup(Slots(manifest[..j] + manifest[j + 1..]))
  {
    var rest, all := manifest[..j] + manifest[j + 1..], Slots(manifest);
    assert Slots(rest) == all[..j] + all[j + 1..];
    forall a, b | 0 <= a < b < |rest| ensures Slots(rest)[a] != Slots(rest)[b] {
      assert Slots(rest)[a] == all[if a < j then a else a + 1];
      assert Slots(rest)[b] == all[if b < j then b else b + 1];
    }
  }

  lemma {:induction false} StillThere(manifest: seq<Schema>, j: nat, x: Schema)
    requires j < |manifest| && x in manifest && x != manifest[j]
    ensures x in manifest[..j] + manifest[j + 1..]
  {
    var rest := manifest[..j] + manifest[j + 1..];
    var i :| 0 <= i < |manifest| && manifest[i] == x;
    assert rest[if i < j then i else i - 1] == x;
  }

  lemma {:induction false} SameInputs(manifest: seq<Schema>, bs: seq<Bound>)
    requires |manifest| == |bs|
    requires NoDup(Slots(manifest))
    requires forall k :: 0 <= k < |bs| ==> bs[k].schema in manifest
    requires forall i, j :: 0 <= i < j < |bs| ==> bs[i].schema != bs[j].schema
    ensures ManifestInputs(manifest) == BoundInputs(bs)
  {
    hide NoDup, Slots;
    if bs != [] {
      var b, front := bs[|bs| - 1], bs[..|bs| - 1];
      var j :| 0 <= j < |manifest| && manifest[j] == b.schema;
      var rest := manifest[..j] + manifest[j + 1..];
      ManifestWithout(manifest, j);
      SlotsWithout(manifest, j);
      forall k | 0 <= k < |front| ensures front[k].schema in rest {
        StillThere(manifest, j, bs[k].schema);
      }
      SameInputs(rest, front);
    }
  }

  lemma {:induction false} ManifestWithout(manifest: seq<Schema>, j: nat)
    requires j < |manifest|
    ensures ManifestInputs(manifest) == ManifestInputs(manifest[..j] + manifest[j + 1..]) + manifest[j].inputs
  {
    var rest := manifest[..j] + manifest[j + 1..];
    if j == |manifest| - 1 {
      assert rest == manifest[..j];
    } else {
      var front := manifest[..|manifest| - 1];
      ManifestWithout(front, j);
      assert rest[..|rest| - 1] == front[..j] + front[j + 1..];
    }
  }

  lemma {:induction false} BoundCovers(manifest: seq<Schema>, bindings: seq<Binding>)
    requires NoDup(Slots(manifest)) && EveryBindingKnown(manifest, bindings)
    requires forall s :: s in Slots(manifest) ==> s in BindingSlots(bindings)
    ensures |manifest| == |bindings|
    ensures ManifestInputs(manifest) == BoundInputs(BindAll(manifest, bindings))
  {
    var bs := BindAll(manifest, bindings);
    NoDupCard(Slots(manifest));
    NoDupCard(BindingSlots(bindings));
    assert Elements(Slots(manifest)) == Elements(BindingSlots(bindings));
    forall i, j | 0 <= i < j < |bs| ensures bs[i].schema != bs[j].schema {
      assert BindingSlots(bindings)[i] != BindingSlots(bindings)[j];
    }
    SameInputs(manifest, bs);
  }

  /**
   * A successful binding names each client once, gives every manifest slot to exactly one binding, keeps the
   * total number of inputs, and yields ranges that the registration check accepts.
   */
  lemma {:induction false} BindingIsFaithful(manifest: seq<Schema>, bindings: seq<Binding>)
    requires BuildSpec(manifest, bindings).Ok?
    ensures var a := BuildSpec(manifest, bindings).value.assignment;
      && WellLaid(a)
      && Total(a.ranges) == ManifestInputs(manifest)
      && (forall s :: s in Slots(manifest) <==> s in BindingSlots(bindings))
      && NoDup(BindingSlots(bindings))
      && (forall i, j :: 0 <= i < j < |bindings| ==> bindings[i].client != bindings[j].client)
      && (forall k :: 0 <= k < |bindings| ==>
            exists m :: 0 <= m < |manifest| && manifest[m].slot == bindings[k].slot
                     && OwnRange(Bound(bindings[k].client, manifest[m]), a))
  {
    var bs := BindAll(manifest, bindings);
    LaidMembers(bs);
    LaidRanges(bs);
    BoundCovers(manifest, bindings);
    var a := BuildSpec(manifest, bindings).value.assignment;
    assert forall k :: 0 <= k < |bindings| ==> bs[k].client == bindings[k].client;
    forall k | 0 <= k < |bindings|
      ensures exists m :: 0 <= m < |manifest| && manifest[m].slot == bindings[k].slot
                       && OwnRange(Bound(bindings[k].client, manifest[m]), a)
    {
      LaidOwnRange(bs, k);
      var m :| 0 <= m < |manifest| && manifest[m] == bs[k].schema;
      assert BindingSlots(bindings)[k] == bindings[k].slot;
    }
  }
}
