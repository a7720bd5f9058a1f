/** What a node has on record, and what an arriving batch is answered. */
module NodeHistory {
  import opened Base
  import opened NodeRendezvous
  import opened NodeProps
  import opened NodeRuns

  /** Position `k` of the batch is its last reservation of index `i`. */
  ghost predicate LastReserved(batch: seq<Arrival>, k: int, i: u64) {
    && 0 <= k < |batch| && batch[k].Reserved? && batch[k].r.index == i
    && forall j :: k < j < |batch| ==> !(batch[j].Reserved? && batch[j].r.index == i)
  }

  ghost predicate LastShared(batch: seq<Arrival>, k: int, i: u64) {
    && 0 <= k < |batch| && batch[k].Shared? && batch[k].s.index == i
    && forall j :: k < j < |batch| ==> !(batch[j].Shared? && batch[j].s.index == i)
  }

  ghost predicate Reserves(batch: seq<Arrival>, i: u64) {
    exists k :: LastReserved(batch, k, i)
  }

  ghost predicate Shares(batch: seq<Arrival>, i: u64) {
    exists k :: LastShared(batch, k, i)
  }

  /** Who owns index `i` after the batch. */
  ghost predicate OwnerAt(m: Maps, batch: seq<Arrival>, m': Maps, i: u64) {
    && (i in m'.owner <==> i in m.owner || Reserves(batch, i))
    && (i in m.owner && !Reserves(batch, i) ==> m'.owner[i] == m.owner[i])
    && (forall k :: LastReserved(batch, k, i) ==> i in m'.owner && m'.owner[i] == batch[k].r.client)
  }

  /** The share of index `i` after the batch. */
  ghost predicate ShareAt(m: Maps, batch: seq<Arrival>, m': Maps, i: u64) {
    && (i in m'.shares <==> i in m.shares || Shares(batch, i))
    && (i in m.shares && !Shares(batch, i) ==> m'.shares[i] == m.shares[i])
    && (forall k :: LastShared(batch, k, i) ==> i in m'.shares && m'.shares[i] == batch[k].s.bytes)
  }

  lemma {:induction false} LastPush(batch: seq<Arrival>, i: u64)
    requires batch != []
    ensures var front, n := batch[..|batch| - 1], |batch| - 1;
      && (forall k :: LastReserved(batch, k, i) <==>
            (if batch[n].Reserved? && batch[n].r.index == i then k == n else LastReserved(front, k, i)))
      && (forall k :: LastShared(batch, k, i) <==>
            (if batch[n].Shared? && batch[n].s.index == i then k == n else LastShared(front, k, i)))
  {
    var front, n := batch[..|batch| - 1], |batch| - 1;
    assert forall j :: 0 <= j < n ==> front[j] == batch[j];
  }

  lemma {:induction false} InsertOwns(m: Maps, batch: seq<Arrival>, i: u64)
    ensures OwnerAt(m, batch, InsertAll(m, batch), i)
  {
    if batch != [] {
      var front, a, n := batch[..|batch| - 1], batch[|batch| - 1], |batch| - 1;
      InsertOwns(m, front, i);
      LastPush(batch, i);
      assert InsertAll(m, batch) == Insert(InsertAll(m, front), a);
      hide LastReserved, LastShared, InsertAll;
      if a.Reserved? && a.r.index == i {
        assert LastReserved(batch, n, i);
      } else if k :| LastReserved(front, k, i) {
        assert LastReserved(batch, k, i) && front[k] == batch[k] by { LastIsPlace(front, k, i); }
      }
      forall k | LastReserved(front, k, i) ensures 0 <= k < n { LastIsPlace(front, k, i); }
    }
  }

  lemma {:induction false} LastIsPlace(batch: seq<Arrival>, k: int, i: u64)
    ensures LastReserved(batch, k, i) || LastShared(batch, k, i) ==> 0 <= k < |batch|
  {
  }

  lemma {:induction false} InsertShares(m: Maps, batch: seq<Arrival>, i: u64)
    ensures ShareAt(m, batch, InsertAll(m, batch), i)
  {
    if batch != [] {
      var front, a, n := batch[..|batch| - 1], batch[|batch| - 1], |batch| - 1;
      InsertShares(m, front, i);
      LastPush(batch, i);
      assert InsertAll(m, batch) == Insert(InsertAll(m, front), a);
      hide LastReserved, LastShared, InsertAll;
      if a.Shared? && a.s.index == i {
        assert LastShared(batch, n, i);
      } else if k :| LastShared(front, k, i) {
        assert LastShared(batch, k, i) && front[k] == batch[k] by { LastIsPlace(front, k, i); }
      }
      forall k | LastShared(front, k, i) ensures 0 <= k < n { LastIsPlace(front, k, i); }
    }
  }

  /** The batch brings something the node already has. */
  ghost predicate Repeats(m: Maps, batch: seq<Arrival>) {
    exists k :: RepeatsAt(m, batch, k)
  }

  ghost predicate RepeatsAt(m: Maps, batch: seq<Arrival>, k: int) {
    && 0 <= k < |batch|
    && (batch[k].Reserved? ==> batch[k].r.index in m.owner) && (batch[k].Shared? ==> batch[k].s.index in m.shares)
  }

  /**
   * What an arriving batch does, in every run: one that repeats an index the node has is refused and changes nothing.
   * Otherwise every index of it is on record as it came, and everything on record before stays as it was.
   */
  lemma {:induction false} ArrivalsAreRecorded(actions: seq<NodeAction>, batch: seq<Arrival>, i: u64)
    ensures var d := NodeRun(actions).node;
      if Repeats(d.maps, batch) then Arrive(d, batch) == (Err(IndexAlreadyAdded), d)
      else
        && OwnerAt(d.maps, batch, Arrive(d, batch).1.maps, i) && ShareAt(d.maps, batch, Arrive(d, batch).1.maps, i)
        && (i in d.maps.owner ==> !Reserves(batch, i)) && (i in d.maps.shares ==> !Shares(batch, i))
  {
    var d := NodeRun(actions).node;
    InsertOwns(d.maps, batch, i);
    InsertShares(d.maps, batch, i);
    hide NodeRun, Settle, InsertAll, OwnerAt, ShareAt;
    if k :| RepeatsAt(d.maps, batch, k) { assert batch[k] in batch && Present(d.maps, batch[k]); }
    if a :| a in batch && Present(d.maps, a) {
      var k :| 0 <= k < |batch| && batch[k] == a;
      assert RepeatsAt(d.maps, batch, k);
    }
    if k :| LastReserved(batch, k, i) && i in d.maps.owner { assert RepeatsAt(d.maps, batch, k); }
    if k :| LastShared(batch, k, i) && i in d.maps.shares { assert RepeatsAt(d.maps, batch, k); }
  }
}
