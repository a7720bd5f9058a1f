/** When a manifest binds, and the layout it then gets: the bound clients in the order they were bound. */
module ManifestLayout {
  import opened Base
  import opened Assignments

  function WithInputs(bs: seq<Bound>): seq<Bound> {
    if bs == [] then []
    else
      var front, b := WithInputs(bs[..|bs| - 1]), bs[|bs| - 1];
      if b.schema.inputs > 0 then front + [b] else front
  }

  function WithOutputs(bs: seq<Bound>): seq<Bound> {
    if bs == [] then []
    else
      var front, b := WithOutputs(bs[..|bs| - 1]), bs[|bs| - 1];
      if b.schema.outputs > 0 then front + [b] else front
  }

  /** Client `j` of the layout is the `j`-th with inputs, and range `j` is its own; output clients are in order too. */
  ghost predicate LaidOut(bs: seq<Bound>, built: Built) {
    var a, ins, outs := built.assignment, WithInputs(bs), WithOutputs(bs);
    && |a.clients| == |a.ranges| == |ins| && |built.outputClients| == |outs|
    && (forall j :: 0 <= j < |ins| ==>
          a.clients[j] == ins[j].client && a.ranges[j].clientIndex == j && a.ranges[j].count == ins[j].schema.inputs)
    && (forall j :: 0 <= j < |outs| ==> built.outputClients[j] == outs[j].client)
  }

  lemma {:induction false} LaidIs(bs: seq<Bound>)
    requires Lay(bs).Ok?
    ensures LaidOut(bs, Lay(bs).value)
  {
    if bs != [] {
      LaidIs(bs[..|bs| - 1]);
    }
  }

  /** The first `k` clients can be laid out: none is bound twice and their indices fit 32 bits. */
  ghost predicate Fits(bs: seq<Bound>, k: nat)
    requires k <= |bs|
  {
    && (forall i, j :: 0 <= i < j < k ==> bs[i].client != bs[j].client)
    && |WithInputs(bs[..k])| <= 0x1_0000_0000
  }

  lemma {:induction false} InputsGrow(bs: seq<Bound>, k: nat)
    requires k < |bs|
    ensures |WithInputs(bs[..k + 1])| == |WithInputs(bs[..k])| + (if bs[k].schema.inputs > 0 then 1 else 0)
  {
    assert bs[..k + 1][..k] == bs[..k];
  }

  /** Client `k` is the first that does not fit, because it is bound already. */
  ghost predicate TwiceAt(bs: seq<Bound>, k: int) {
    0 <= k < |bs| && Fits(bs, k) && exists j :: 0 <= j < k && bs[j].client == bs[k].client
  }

  /** Client `k` is the first that does not fit, because no index is left for it. */
  ghost predicate TooManyAt(bs: seq<Bound>, k: int) {
    && 0 <= k < |bs| && Fits(bs, k) && (forall j :: 0 <= j < k ==> bs[j].client != bs[k].client)
    && bs[k].schema.inputs > 0 && |WithInputs(bs[..k])| == 0x1_0000_0000
  }

  /** What laying out is answered: the first client that does not fit, and why. */
  ghost predicate LayAnswered(bs: seq<Bound>, r: Result<Built, BuildError>) {
    match r
    case Ok(built) => Fits(bs, |bs|) && LaidOut(bs, built)
    case Err(ClientBoundTwice) => exists k :: TwiceAt(bs, k)
    case Err(TooManyClients) => exists k :: TooManyAt(bs, k)
    case _ => false
  }

  lemma {:induction false} FrontFits(bs: seq<Bound>, k: nat)
    requires bs != [] && k < |bs|
    ensures Fits(bs[..|bs| - 1], k) <==> Fits(bs, k)
  {
    assert bs[..|bs| - 1][..k] == bs[..k];
    assert forall i :: 0 <= i < k ==> bs[..|bs| - 1][i] == bs[i];
  }

  lemma {:induction false} SameFailure(bs: seq<Bound>, k: int)
    requires bs != [] && k < |bs| - 1
    ensures TwiceAt(bs[..|bs| - 1], k) <==> TwiceAt(bs, k)
    ensures TooManyAt(bs[..|bs| - 1], k) <==> TooManyAt(bs, k)
  {
    if k >= 0 {
      var front := bs[..|bs| - 1];
      FrontFits(bs, k);
      assert front[..k] == bs[..k] && forall i :: 0 <= i <= k ==> front[i] == bs[i];
      hide Fits, WithInputs;
    }
  }

  lemma {:induction false} LayIsAnswered(bs: seq<Bound>)
    ensures LayAnswered(bs, Lay(bs))
  {
    if bs != [] {
      LayIsAnswered(bs[..|bs| - 1]);
      if Lay(bs[..|bs| - 1]).Ok? { LastFitsOrNot(bs); } else { FailsAlike(bs); }
    }
  }

  lemma {:induction false} LastFitsOrNot(bs: seq<Bound>)
    requires bs != [] && Lay(bs[..|bs| - 1]).Ok? && LayAnswered(bs[..|bs| - 1], Lay(bs[..|bs| - 1]))
    ensures LayAnswered(bs, Lay(bs))
  {
    var n := |bs| - 1;
    var front := bs[..n];
    assert forall i :: 0 <= i < n ==> front[i] == bs[i];
    LaidIs(front);
    FrontFits(bs, n);
    assert front[..n] == front && bs[..n + 1] == bs;
    InputsGrow(bs, n);
    if Lay(bs).Ok? {
      LaidIs(bs);
    } else if Lay(bs).error == ClientBoundTwice {
      assert TwiceAt(bs, n);
    } else {
      assert TooManyAt(bs, n);
    }
  }

  lemma {:induction false} FailsAlike(bs: seq<Bound>)
    requires bs != [] && Lay(bs[..|bs| - 1]).Err? && LayAnswered(bs[..|bs| - 1], Lay(bs[..|bs| - 1]))
    ensures LayAnswered(bs, Lay(bs))
  {
    var front := bs[..|bs| - 1];
    assert Lay(bs) == Lay(front);
    hide Lay, TwiceAt, TooManyAt;
    if k :| TwiceAt(front, k) {
      assert k < |front| by { Places(front, k); }
      SameFailure(bs, k);
    }
    if k :| TooManyAt(front, k) {
      assert k < |front| by { Places(front, k); }
      SameFailure(bs, k);
    }
  }

  lemma {:induction false} Places(bs: seq<Bound>, k: int)
    ensures TwiceAt(bs, k) || TooManyAt(bs, k) ==> k < |bs|
  {
  }

  /** The manifest entry each binding refers to, in binding order. */
  ghost predicate Entries(manifest: seq<Schema>, bindings: seq<Binding>, bs: seq<Bound>) {
    && |bs| == |bindings|
    && forall k :: 0 <= k < |bs| ==>
         bs[k].client == bindings[k].client && bs[k].schema in manifest && bs[k].schema.slot == bindings[k].slot
  }

  predicate HasSlot(manifest: seq<Schema>, s: u64) {
    exists m :: 0 <= m < |manifest| && manifest[m].slot == s
  }

  /** One of the first `n` bindings is for slot `s`. */
  predicate BindsSlot(bindings: seq<Binding>, n: nat, s: u64)
    requires n <= |bindings|
  {
    exists j :: 0 <= j < n && bindings[j].slot == s
  }

  ghost predicate RepeatedAt(manifest: seq<Schema>, m: int) {
    0 <= m < |manifest| && HasSlot(manifest[..m], manifest[m].slot)
  }

  ghost predicate UnknownAt(manifest: seq<Schema>, bindings: seq<Binding>, k: int) {
    0 <= k < |bindings| && (!HasSlot(manifest, bindings[k].slot) || BindsSlot(bindings, k, bindings[k].slot))
  }

  ghost predicate UnboundAt(manifest: seq<Schema>, bindings: seq<Binding>, m: int) {
    0 <= m < |manifest| && !BindsSlot(bindings, |bindings|, manifest[m].slot)
  }

  /** What binding a manifest is answered, and the layout when it succeeds. */
  ghost predicate BindAnswered(manifest: seq<Schema>, bindings: seq<Binding>, r: Result<Built, BuildError>) {
    if exists m :: RepeatedAt(manifest, m) then r == Err(DuplicateSlot)
    else if exists k :: UnknownAt(manifest, bindings, k) then r == Err(UnknownSlot)
    else if exists m :: UnboundAt(manifest, bindings, m) then r == Err(UnboundSlots)
    else exists bs :: Entries(manifest, bindings, bs) && LayAnswered(bs, r)
  }

  lemma {:induction false} SlotsHave(manifest: seq<Schema>, s: u64)
    ensures HasSlot(manifest, s) <==> s in Slots(manifest)
  {
    if m :| 0 <= m < |manifest| && manifest[m].slot == s { assert Slots(manifest)[m] == s; }
  }

  lemma {:induction false} BindingsHave(bindings: seq<Binding>, s: u64)
    ensures BindsSlot(bindings, |bindings|, s) <==> s in BindingSlots(bindings)
  {
    if k :| 0 <= k < |bindings| && bindings[k].slot == s { assert BindingSlots(bindings)[k] == s; }
  }

  lemma {:induction false} RepeatedIff(manifest: seq<Schema>)
    ensures NoDup(Slots(manifest)) <==> !exists m :: RepeatedAt(manifest, m)
  {
    var slots := Slots(manifest);
    if m :| RepeatedAt(manifest, m) {
      var i :| 0 <= i < m && manifest[..m][i].slot == manifest[m].slot;
      assert slots[i] == slots[m];
    }
    if !NoDup(slots) {
      var i, m :| 0 <= i < m < |slots| && slots[i] == slots[m];
      assert manifest[..m][i].slot == manifest[m].slot;
      assert RepeatedAt(manifest, m);
    }
  }

  lemma {:induction false} KnownIff(manifest: seq<Schema>, bindings: seq<Binding>)
    ensures EveryBindingKnown(manifest, bindings) <==> !exists k :: UnknownAt(manifest, bindings, k)
  {
    var used := BindingSlots(bindings);
    if k :| UnknownAt(manifest, bindings, k) {
      SlotsHave(manifest, bindings[k].slot);
      assert used[k] in used;
      if BindsSlot(bindings, k, bindings[k].slot) {
        var j :| 0 <= j < k && bindings[j].slot == bindings[k].slot;
        assert used[j] == used[k];
      }
    }
    if !NoDup(used) {
      var j, k :| 0 <= j < k < |used| && used[j] == used[k];
      assert bindings[j].slot == bindings[k].slot;
      assert UnknownAt(manifest, bindings, k);
    } else if !EveryBindingKnown(manifest, bindings) {
      var s :| s in used && s !in Slots(manifest);
      var k :| 0 <= k < |used| && used[k] == s;
      SlotsHave(manifest, s);
      assert UnknownAt(manifest, bindings, k);
    }
  }

  lemma {:induction false} UnboundIff(manifest: seq<Schema>, bindings: seq<Binding>)
    ensures (exists s :: s in Slots(manifest) && s !in BindingSlots(bindings)) <==>
      exists m :: UnboundAt(manifest, bindings, m)
  {
    var slots := Slots(manifest);
    if s :| s in slots && s !in BindingSlots(bindings) {
      var m :| 0 <= m < |slots| && slots[m] == s;
      BindingsHave(bindings, s);
      assert UnboundAt(manifest, bindings, m);
    }
    if m :| UnboundAt(manifest, bindings, m) {
      BindingsHave(bindings, manifest[m].slot);
      assert slots[m] in slots;
    }
  }

  lemma {:induction false} BoundEntries(manifest: seq<Schema>, bindings: seq<Binding>)
    requires NoDup(Slots(manifest)) && EveryBindingKnown(manifest, bindings)
    ensures Entries(manifest, bindings, BindAll(manifest, bindings))
  {
    forall k | 0 <= k < |bindings|
      ensures BindAll(manifest, bindings)[k].schema in manifest
      ensures BindAll(manifest, bindings)[k].schema.slot == bindings[k].slot
    {
      assert BindingSlots(bindings)[k] == bindings[k].slot;
    }
  }

  /**
   * What binding a manifest to clients is answered, for every manifest and binding: refused for a slot that appears
   * twice, for a binding of an unknown or already bound slot, for a slot nobody is bound to, and for the first client
   * that is bound twice or does not fit; and otherwise laid out in the order of the bindings.
   */
  lemma {:induction false} BindingIsAnswered(manifest: seq<Schema>, bindings: seq<Binding>)
    ensures BindAnswered(manifest, bindings, BuildSpec(manifest, bindings))
  {
    RepeatedIff(manifest);
    KnownIff(manifest, bindings);
    UnboundIff(manifest, bindings);
    hide Lay, BindAll, SchemaAt, EveryBindingKnown, LayAnswered, NoDup, Entries, RepeatedAt, UnknownAt, UnboundAt;
    if NoDup(Slots(manifest)) && EveryBindingKnown(manifest, bindings) {
      var bs := BindAll(manifest, bindings);
      BoundEntries(manifest, bindings);
      LayIsAnswered(bs);
    }
  }
}
