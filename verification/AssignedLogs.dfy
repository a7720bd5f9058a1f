/** What the two assigned streams carry: the plain events, index by index, with the client's own numbering. */
module AssignedLogs {
  import opened Base
  import opened Topology
  import opened Assignments
  import opened Streams
  import opened ExecutionModel
  import opened ExecutionRuns
  import opened InputProps

  /** Every index of every reservation event, in order. */
  function AllIndices(log: seq<ReservedEvent>): seq<u64> {
    if log == [] then [] else AllIndices(log[..|log| - 1]) + log[|log| - 1].indices
  }

  /** Every slot and input of every masked-input event, in order. */
  function AllPairs(log: seq<MaskedEvent>): seq<(u64, Bytes)> {
    if log == [] then [] else AllPairs(log[..|log| - 1]) + log[|log| - 1].pairs
  }

  /** Slot `i` is number `ordinal` of the range of `client`. */
  ghost predicate SlotNumber(a: InputAssignment, i: nat, client: Identity, ordinal: nat) {
    exists k :: 0 <= k < |a.ranges| && Total(a.ranges[..k]) <= i < Total(a.ranges[..k + 1])
      && a.ranges[k].clientIndex < |a.clients|
      && client == a.clients[a.ranges[k].clientIndex] && ordinal == i - Total(a.ranges[..k])
  }

  lemma {:induction false} SlotIsNumbered(reg: Registration, i: nat, client: Identity, ordinal: nat)
    requires KnownClients(reg.assignment) && i < Total(reg.assignment.ranges)
    ensures i < |Expand(reg.assignment.ranges)|
    ensures var slot := Expand(reg.assignment.ranges)[i];
      SlotNumber(reg.assignment, i, client, ordinal) <==>
        (SlotClient(reg, slot) == Some(client) && ordinal == slot.ordinal)
  {
    var a := reg.assignment;
    var k := RangeSearch(a.ranges, i);
    ExpandedSlot(a.ranges, k, i);
    hide Expand, Total;
  }

  // ---------------------------------------------------------------- one event

  predicate TaggedAs(slots: seq<InputSlot>, client: Identity, i: u64, x: AssignedReservation) {
    i < |slots| && x == AssignedReservation(client, i, slots[i].ordinal)
  }

  predicate InputTaggedAs(slots: seq<InputSlot>, client: Identity, p: (u64, Bytes), x: AssignedMasked) {
    p.0 < |slots| && x == AssignedMasked(client, p.0, slots[p.0].ordinal, p.1)
  }

  predicate Within(slots: seq<InputSlot>, i: u64) {
    i < |slots|
  }

  lemma {:induction false} TaggedReservations(slots: seq<InputSlot>, client: Identity, indices: seq<u64>)
    requires forall j :: 0 <= j < |indices| ==> Within(slots, indices[j])
    ensures var tagged := AssignedReservations(slots, client, indices);
      |tagged| == |indices| && forall j :: 0 <= j < |indices| ==> TaggedAs(slots, client, indices[j], tagged[j])
  {
    if indices != [] {
      var front, i := indices[..|indices| - 1], indices[|indices| - 1];
      assert Within(slots, i) && TaggedAs(slots, client, i, AssignedReservation(client, i, slots[i].ordinal));
      hide TaggedAs;
      TaggedReservations(slots, client, front);
    }
  }

  lemma {:induction false} TaggedInputs(slots: seq<InputSlot>, client: Identity, pairs: seq<(u64, Bytes)>)
    requires forall j :: 0 <= j < |pairs| ==> Within(slots, pairs[j].0)
    ensures var tagged := AssignedInputs(slots, client, pairs);
      |tagged| == |pairs| && forall j :: 0 <= j < |pairs| ==> InputTaggedAs(slots, client, pairs[j], tagged[j])
  {
    if pairs != [] {
      var front, p := pairs[..|pairs| - 1], pairs[|pairs| - 1];
      assert Within(slots, p.0)
        && InputTaggedAs(slots, client, p, AssignedMasked(client, p.0, slots[p.0].ordinal, p.1));
      hide InputTaggedAs;
      TaggedInputs(slots, client, front);
    }
  }

  // ---------------------------------------------------------------- the whole log

  ghost predicate Entry(reg: Registration, x: AssignedReservation, i: u64) {
    x.index == i && SlotNumber(reg.assignment, i, x.client, x.ordinal)
  }

  ghost predicate InputEntry(reg: Registration, x: AssignedMasked, p: (u64, Bytes)) {
    x.index == p.0 && x.input == p.1 && SlotNumber(reg.assignment, p.0, x.client, x.ordinal)
  }

  ghost predicate Owns(reg: Registration, client: Identity, i: u64) {
    var slots := Expand(reg.assignment.ranges);
    i < |slots| && SlotClient(reg, slots[i]) == Some(client)
  }

  /** Every slot an event carries is assigned to the event's client. */
  ghost predicate OwnsAll(reg: Registration, evt: ReservedEvent) {
    forall j :: 0 <= j < |evt.indices| ==> Owns(reg, evt.client, evt.indices[j])
  }

  ghost predicate OwnsInputs(reg: Registration, evt: MaskedEvent) {
    forall j :: 0 <= j < |evt.pairs| ==> Owns(reg, evt.client, evt.pairs[j].0)
  }

  lemma {:induction false} EntriesOf(reg: Registration, evt: ReservedEvent)
    requires KnownClients(reg.assignment) && OwnsAll(reg, evt)
    ensures var tagged := AssignedReservations(Expand(reg.assignment.ranges), evt.client, evt.indices);
      |tagged| == |evt.indices| && forall j :: 0 <= j < |evt.indices| ==> Entry(reg, tagged[j], evt.indices[j])
  {
    var slots := Expand(reg.assignment.ranges);
    ExpandLength(reg.assignment.ranges);
    hide AssignedReservations, SlotNumber, Expand;
    assert forall j :: 0 <= j < |evt.indices| ==> Owns(reg, evt.client, evt.indices[j]);
    TaggedReservations(slots, evt.client, evt.indices);
    var tagged := AssignedReservations(slots, evt.client, evt.indices);
    forall j | 0 <= j < |evt.indices| ensures Entry(reg, tagged[j], evt.indices[j]) {
      assert TaggedAs(slots, evt.client, evt.indices[j], tagged[j]);
      SlotIsNumbered(reg, evt.indices[j], evt.client, slots[evt.indices[j]].ordinal);
    }
  }

  lemma {:induction false} InputEntriesOf(reg: Registration, evt: MaskedEvent)
    requires KnownClients(reg.assignment) && OwnsInputs(reg, evt)
    ensures var tagged := AssignedInputs(Expand(reg.assignment.ranges), evt.client, evt.pairs);
      |tagged| == |evt.pairs| && forall j :: 0 <= j < |evt.pairs| ==> InputEntry(reg, tagged[j], evt.pairs[j])
  {
    var slots := Expand(reg.assignment.ranges);
    ExpandLength(reg.assignment.ranges);
    hide AssignedInputs, SlotNumber, Expand;
    assert forall j :: 0 <= j < |evt.pairs| ==> Owns(reg, evt.client, evt.pairs[j].0);
    TaggedInputs(slots, evt.client, evt.pairs);
    var tagged := AssignedInputs(slots, evt.client, evt.pairs);
    forall j | 0 <= j < |evt.pairs| ensures InputEntry(reg, tagged[j], evt.pairs[j]) {
      assert InputTaggedAs(slots, evt.client, evt.pairs[j], tagged[j]);
      SlotIsNumbered(reg, evt.pairs[j].0, evt.client, slots[evt.pairs[j].0].ordinal);
    }
  }

  lemma {:induction false} ReservedEntries(reg: Registration, log: seq<ReservedEvent>)
    requires KnownClients(reg.assignment)
    requires forall j :: 0 <= j < |log| ==> OwnsAll(reg, log[j])
    ensures var all, out := AllIndices(log), ReplayAssignedReserved(Expand(reg.assignment.ranges), log);
      |out| == |all| && forall j :: 0 <= j < |all| ==> Entry(reg, out[j], all[j])
  {
    if log != [] {
      var front, evt := log[..|log| - 1], log[|log| - 1];
      ReservedEntries(reg, front);
      EntriesOf(reg, evt);
      hide Entry, OwnsAll, AssignedReservations, Expand;
    }
  }

  lemma {:induction false} MaskedEntries(reg: Registration, log: seq<MaskedEvent>)
    requires KnownClients(reg.assignment)
    requires forall j :: 0 <= j < |log| ==> OwnsInputs(reg, log[j])
    ensures var all, out := AllPairs(log), ReplayAssignedMasked(Expand(reg.assignment.ranges), log);
      |out| == |all| && forall j :: 0 <= j < |all| ==> InputEntry(reg, out[j], all[j])
  {
    if log != [] {
      var front, evt := log[..|log| - 1], log[|log| - 1];
      MaskedEntries(reg, front);
      InputEntriesOf(reg, evt);
      hide InputEntry, OwnsInputs, AssignedInputs, Expand;
    }
  }

  lemma {:induction false} HolderOwns(e: Exec, i: u64)
    requires TablesOk(e) && e.reg.assignment.ranges != [] && i < |e.reserved| && e.reserved[i].Some?
    ensures Owns(e.reg, e.reserved[i].value, i)
  {
    hide HeldOk, DisjointOk, ReplayOk;
    ExpandLength(e.reg.assignment.ranges);
  }

  lemma {:induction false} EventsOwn(e: Exec)
    requires TablesOk(e) && e.reg.assignment.ranges != []
    ensures forall j :: 0 <= j < |e.reservedStream.log| ==> OwnsAll(e.reg, e.reservedStream.log[j])
    ensures forall j :: 0 <= j < |e.maskedStream.log| ==> OwnsInputs(e.reg, e.maskedStream.log[j])
  {
    hide Owns, LayoutOk, ReplayOk, DisjointOk, OwnedOk;
    forall j | 0 <= j < |e.reservedStream.log| ensures OwnsAll(e.reg, e.reservedStream.log[j]) {
      var evt := e.reservedStream.log[j];
      assert ReservationHeld(e, evt);
      forall k | 0 <= k < |evt.indices| ensures Owns(e.reg, evt.client, evt.indices[k]) {
        assert evt.indices[k] in evt.indices;
        HolderOwns(e, evt.indices[k]);
      }
    }
    forall j | 0 <= j < |e.maskedStream.log| ensures OwnsInputs(e.reg, e.maskedStream.log[j]) {
      var evt := e.maskedStream.log[j];
      assert SubmissionHeld(e, evt);
      forall k | 0 <= k < |evt.pairs| ensures Owns(e.reg, evt.client, evt.pairs[k].0) {
        assert evt.pairs[k] in evt.pairs;
        HolderOwns(e, evt.pairs[k].0);
      }
    }
  }

  lemma {:induction false} NoSlotsNoReservations(log: seq<ReservedEvent>)
    ensures ReplayAssignedReserved([], log) == []
  {
    if log != [] {
      NoSlotsNoReservations(log[..|log| - 1]);
      UntaggedReservations(log[|log| - 1].client, log[|log| - 1].indices);
    }
  }

  lemma {:induction false} UntaggedReservations(client: Identity, indices: seq<u64>)
    ensures AssignedReservations([], client, indices) == []
  {
    if indices != [] { UntaggedReservations(client, indices[..|indices| - 1]); }
  }

  lemma {:induction false} NoSlotsNoInputs(log: seq<MaskedEvent>)
    ensures ReplayAssignedMasked([], log) == []
  {
    if log != [] {
      NoSlotsNoInputs(log[..|log| - 1]);
      UntaggedInputs(log[|log| - 1].client, log[|log| - 1].pairs);
    }
  }

  lemma {:induction false} UntaggedInputs(client: Identity, pairs: seq<(u64, Bytes)>)
    ensures AssignedInputs([], client, pairs) == []
  {
    if pairs != [] { UntaggedInputs(client, pairs[..|pairs| - 1]); }
  }

  /**
   * In every run the assigned logs hold one entry for every index of the plain logs, in that order, if the registration
   * has ranges, and nothing otherwise. The entry for a slot names the client whose range the slot lies in and the
   * slot's number within that range; a masked-input entry also carries the bytes that were submitted.
   */
  lemma {:induction false} AssignedLogsAre(c: Config, reg: Registration, actions: seq<Action>)
    requires Accepted(c, reg)
    ensures var e := After(c, reg, actions).e;
      var all, out := AllIndices(e.reservedStream.log), e.assignedReservedStream.log;
      if reg.assignment.ranges == [] then out == []
      else |out| == |all| && forall j :: 0 <= j < |all| ==> Entry(reg, out[j], all[j])
    ensures var e := After(c, reg, actions).e;
      var all, out := AllPairs(e.maskedStream.log), e.assignedMaskedStream.log;
      if reg.assignment.ranges == [] then out == []
      else |out| == |all| && forall j :: 0 <= j < |all| ==> InputEntry(reg, out[j], all[j])
  {
    AlwaysTables(c, reg, actions);
    var e := After(c, reg, actions).e;
    hide After, New, Entry, InputEntry, HeldOk, DisjointOk, OwnedOk, OwnsAll, OwnsInputs;
    if reg.assignment.ranges == [] {
      NoSlotsNoReservations(e.reservedStream.log);
      NoSlotsNoInputs(e.maskedStream.log);
    } else {
      EventsOwn(e);
      ReservedEntries(reg, e.reservedStream.log);
      MaskedEntries(reg, e.maskedStream.log);
    }
  }
}
