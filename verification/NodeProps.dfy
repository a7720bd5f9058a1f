/** Every request for mask shares is answered exactly when it becomes complete, and batches refine single arrivals. */
module NodeProps {
  import opened Base
  import opened NodeRendezvous

  // ---------------------------------------------------------------- what arrived stays

  /** Nothing that arrived is changed or forgotten. */
  ghost predicate Extends(m: Maps, m': Maps) {
    && (forall i :: i in m.owner ==> i in m'.owner && m'.owner[i] == m.owner[i])
    && (forall i :: i in m.reservations ==> i in m'.reservations && m'.reservations[i] == m.reservations[i])
    && (forall i :: i in m.shares ==> i in m'.shares && m'.shares[i] == m.shares[i])
  }

  lemma {:induction false} InsertAllExtends(m: Maps, batch: seq<Arrival>)
    requires Keyed(m) && !AnyPresent(m, batch)
    ensures Extends(m, InsertAll(m, batch))
  {
    if batch != [] {
      var front, last := batch[..|batch| - 1], batch[|batch| - 1];
      assert !AnyPresent(m, front) by {
        assert forall a :: a in front ==> a in batch;
      }
      InsertAllExtends(m, front);
      assert last in batch && !Present(m, last);
    }
  }

  /** An index that is reserved or has a share only after the batch got it from some arrival of the batch. */
  lemma {:induction false} InsertedBy(m: Maps, batch: seq<Arrival>, i: u64)
    ensures var m' := InsertAll(m, batch);
      && (i in m'.owner && i !in m.owner ==>
            exists a :: a in batch && a.Reserved? && a.r.index == i && a.r.client == m'.owner[i])
      && (i in m'.shares && i !in m.shares ==> exists a :: a in batch && a.Shared? && a.s.index == i)
  {
    if batch != [] {
      var front, last := batch[..|batch| - 1], batch[|batch| - 1];
      InsertedBy(m, front, i);
      assert forall a :: a in front ==> a in batch;
      assert last in batch;
    }
  }

  lemma {:induction false} CompleteStays(m: Maps, m': Maps, id: Identity, req: Request)
    requires Extends(m, m') && Complete(m, id, req)
    ensures Complete(m', id, req) && Answer(m', id, req) == Answer(m, id, req)
  {
  }

  lemma {:induction false} ForeignStays(m: Maps, m': Maps, id: Identity, req: Request)
    requires Extends(m, m') && Foreign(m, id, req)
    ensures Foreign(m', id, req)
  {
    var i :| req.start <= i < req.start + req.count && i in m.owner && m.owner[i] != id && Met(m, id, req.start, i);
    assert m'.owner[i] != id && Met(m', id, req.start, i);
  }

  /** A request that a batch completes belongs to a client the batch touched. */
  lemma {:induction false} NewlyCompleteIsTouched(m: Maps, batch: seq<Arrival>, id: Identity, req: Request)
    requires Keyed(m) && !AnyPresent(m, batch) && !Complete(m, id, req)
    requires Complete(InsertAll(m, batch), id, req)
    ensures id in Touched(InsertAll(m, batch), batch)
  {
    var m' := InsertAll(m, batch);
    InsertAllExtends(m, batch);
    var i :| req.start <= i < req.start + req.count && !(i in m.owner && m.owner[i] == id && i in m.shares);
    InsertedBy(m, batch, i);
    if i !in m.owner {
      var a :| a in batch && a.Reserved? && a.r.index == i && a.r.client == m'.owner[i];
      TouchedHas(m', batch, a);
    } else {
      var a :| a in batch && a.Shared? && a.s.index == i;
      TouchedHas(m', batch, a);
    }
  }

  // ---------------------------------------------------------------- settling

  /** Stored requests never overflow, and different clients have different subscriptions. */
  ghost predicate PendingOk(pending: map<Identity, Request>) {
    && (forall id :: id in pending ==> pending[id].start + pending[id].count < U64_LIMIT)
    && (forall id, other :: id in pending && other in pending && id != other ==>
        pending[id].sink != pending[other].sink)
  }

  ghost predicate Refused(m: Maps, pending: map<Identity, Request>, touched: seq<Identity>) {
    exists id :: id in touched && id in pending && Foreign(m, id, pending[id])
  }

  ghost function StillWaiting(m: Maps, pending: map<Identity, Request>,
                              touched: seq<Identity>): map<Identity, Request> {
    map id | id in pending && !(id in touched && Complete(m, id, pending[id])) :: pending[id]
  }

  /** The sends for the touched clients whose request is complete, in order. */
  ghost function Answers(m: Maps, pending: map<Identity, Request>, touched: seq<Identity>): seq<Send> {
    if touched == [] then []
    else
      var id, rest := touched[0], Answers(m, pending, touched[1..]);
      if id in pending && Complete(m, id, pending[id]) then
        [Send(pending[id].sink, Answer(m, id, pending[id]))] + rest
      else rest
  }

  lemma {:induction false} AnswersFrame(m: Maps, p: map<Identity, Request>, q: map<Identity, Request>,
                                        touched: seq<Identity>)
    requires forall id :: id in touched ==> (id in p <==> id in q) && (id in p ==> p[id] == q[id])
    ensures Answers(m, p, touched) == Answers(m, q, touched)
  {
    if touched != [] { AnswersFrame(m, p, q, touched[1..]); }
  }

  lemma {:induction false} CompleteNotForeign(m: Maps, id: Identity, req: Request)
    requires Complete(m, id, req)
    ensures !Foreign(m, id, req)
  {
  }

  /**
   * The second phase, for every order of the touched clients: it fails exactly when one of them asked for a range
   * whose first unserved index is reserved by somebody else; otherwise it answers the complete requests, keeps the
   * rest, and does nothing else.
   */
  lemma {:induction false} SettleIs(m: Maps, pending: map<Identity, Request>, touched: seq<Identity>)
    requires Keyed(m) && PendingOk(pending) && NoDup(touched)
    ensures var s := Settle(m, pending, touched);
      && (s.0.Err? <==> Refused(m, pending, touched))
      && (s.0.Ok? ==> s.1 == StillWaiting(m, pending, touched) && s.0.value == Answers(m, pending, touched))
    decreases |touched|
  {
    if touched != [] {
      var id, rest := touched[0], touched[1..];
      assert touched == [id] + rest;
      NoDupCons(id, rest);
      hide NoDup;
      if id in pending {
        LookupIs(m, id, pending[id]);
        hide Complete, Foreign, Lookup, Answer;
        SettleOne(m, pending, id, rest);
        if Complete(m, id, pending[id]) {
          CompleteNotForeign(m, id, pending[id]);
          var fewer := pending - {id};
          SettleIs(m, fewer, rest);
          AnswersFrame(m, fewer, pending, rest);
        } else if !Foreign(m, id, pending[id]) {
          SettleIs(m, pending, rest);
        }
      } else {
        SettleIs(m, pending, rest);
        SettleNone(m, pending, id, rest);
      }
    }
  }

  lemma {:induction false} SettleOne(m: Maps, pending: map<Identity, Request>, id: Identity, rest: seq<Identity>)
    requires id in pending && id !in rest && PendingOk(pending)
    ensures PendingOk(pending - {id})
    ensures Refused(m, pending, [id] + rest) <==> Foreign(m, id, pending[id]) || Refused(m, pending, rest)
    ensures Refused(m, pending, rest) <==> Refused(m, pending - {id}, rest)
    ensures StillWaiting(m, pending, [id] + rest)
         == StillWaiting(m, if Complete(m, id, pending[id]) then pending - {id} else pending, rest)
  {
    hide Complete, Foreign;
    var fewer := pending - {id};
    assert forall x :: x in [id] + rest <==> x == id || x in rest;
    assert forall x :: x in rest && x in pending ==> x in fewer && fewer[x] == pending[x];
  }

  lemma {:induction false} SettleNone(m: Maps, pending: map<Identity, Request>, id: Identity, rest: seq<Identity>)
    requires id !in pending
    ensures Refused(m, pending, [id] + rest) <==> Refused(m, pending, rest)
    ensures StillWaiting(m, pending, [id] + rest) == StillWaiting(m, pending, rest)
  {
    hide Complete, Foreign;
    assert forall x :: x in [id] + rest <==> x == id || x in rest;
  }

  /** `f` is the first touched position whose client asked for a range that meets another client's index. */
  ghost predicate FirstRefused(m: Maps, pending: map<Identity, Request>, touched: seq<Identity>, f: nat) {
    && f < |touched| && touched[f] in pending && Foreign(m, touched[f], pending[touched[f]])
    && !Refused(m, pending, touched[..f])
  }

  /**
   * What a refusal leaves behind: the complete requests before the refused one are gone without an answer, the refused
   * one is gone, and nothing after it has been looked at.
   */
  lemma {:induction false} SettleRefusedIs(m: Maps, pending: map<Identity, Request>, touched: seq<Identity>, f: nat)
    requires Keyed(m) && PendingOk(pending) && NoDup(touched) && FirstRefused(m, pending, touched, f)
    ensures Settle(m, pending, touched)
         == (Err(AuthenticationFailed(touched[f])), StillWaiting(m, pending, touched[..f]) - {touched[f]})
    decreases |touched|
  {
    var id, rest := touched[0], touched[1..];
    assert touched == [id] + rest;
    NoDupCons(id, rest);
    hide NoDup;
    if f == 0 {
      LookupIs(m, id, pending[id]);
      NotComplete(m, id, pending[id]);
      hide Complete, Foreign, Lookup, Answer;
      assert StillWaiting(m, pending, touched[..0]) == pending;
    } else {
      var ahead := rest[..f - 1];
      assert touched[..f] == [id] + ahead && rest[f - 1] == touched[f] && id !in ahead;
      if id in pending {
        LookupIs(m, id, pending[id]);
        hide Complete, Foreign, Lookup, Answer;
        SettleOne(m, pending, id, ahead);
        var next := if Complete(m, id, pending[id]) then pending - {id} else pending;
        assert touched[f] in rest && touched[f] != id;
        assert FirstRefused(m, next, rest, f - 1);
        hide Refused, FirstRefused;
        SettleRefusedIs(m, next, rest, f - 1);
      } else {
        SettleNone(m, pending, id, ahead);
        hide Complete, Foreign, Lookup, Answer;
        assert FirstRefused(m, pending, rest, f - 1);
        hide Refused, FirstRefused;
        SettleRefusedIs(m, pending, rest, f - 1);
      }
    }
  }

  lemma {:induction false} NotComplete(m: Maps, id: Identity, req: Request)
    requires Foreign(m, id, req)
    ensures !Complete(m, id, req)
  {
    if Complete(m, id, req) { CompleteNotForeign(m, id, req); }
  }

  /** A batch that is refused is refused at some first position. */
  lemma {:induction false} FindRefused(m: Maps, pending: map<Identity, Request>, touched: seq<Identity>)
    returns (f: nat)
    requires Refused(m, pending, touched)
    ensures FirstRefused(m, pending, touched, f)
  {
    hide Foreign;
    var front, last := touched[..|touched| - 1], touched[|touched| - 1];
    if Refused(m, pending, front) {
      f := FindRefused(m, pending, front);
      assert front[..f] == touched[..f];
    } else {
      f := |touched| - 1;
      assert forall x :: x in touched <==> x in front || x == last;
    }
  }

  // ---------------------------------------------------------------- what is sent

  /** What every subscription was sent, message by message. */
  type Sent = map<SinkId, seq<seq<MaskShare>>>

  function Deliver(sent: Sent, sends: seq<Send>): Sent
    decreases |sends|
  {
    if sends == [] then sent
    else
      var s := sends[0];
      Deliver(sent[s.sink := (if s.sink in sent then sent[s.sink] else []) + [s.shares]], sends[1..])
  }

  ghost predicate SinksKnown(pending: map<Identity, Request>, sent: Sent) {
    forall id :: id in pending ==> pending[id].sink in sent
  }

  /** The subscription of every touched client whose request is complete got its answer, once; nothing else was sent. */
  ghost predicate Handed(m: Maps, pending: map<Identity, Request>, touched: set<Identity>, sent: Sent, sent': Sent)
    requires SinksKnown(pending, sent)
  {
    && sent'.Keys == sent.Keys
    && (forall id :: id in pending ==>
          sent'[pending[id].sink] == sent[pending[id].sink]
            + (if id in touched && Complete(m, id, pending[id]) then [Answer(m, id, pending[id])] else []))
    && (forall s :: s in sent && (forall id :: id in pending ==> pending[id].sink != s) ==> sent'[s] == sent[s])
  }

  lemma {:induction false} DeliverAnswers(m: Maps, pending: map<Identity, Request>, touched: seq<Identity>, sent: Sent)
    requires PendingOk(pending) && NoDup(touched) && SinksKnown(pending, sent)
    ensures Handed(m, pending, Elements(touched), sent, Deliver(sent, Answers(m, pending, touched)))
    decreases |touched|
  {
    if touched != [] {
      var id, rest := touched[0], touched[1..];
      assert touched == [id] + rest;
      NoDupCons(id, rest);
      hide NoDup, Answer, Complete;
      if id in pending && Complete(m, id, pending[id]) {
        var send := Send(pending[id].sink, Answer(m, id, pending[id]));
        var sent1 := sent[send.sink := sent[send.sink] + [send.shares]];
        assert sent1.Keys == sent.Keys;
        var all := Answers(m, pending, touched);
        assert all[0] == send && all[1..] == Answers(m, pending, rest);
        DeliverAnswers(m, pending, rest, sent1);
        HandedOne(m, pending, id, rest, sent, sent1, Deliver(sent, all));
      } else {
        DeliverAnswers(m, pending, rest, sent);
      }
    }
  }

  lemma {:induction false} HandedOne(m: Maps, pending: map<Identity, Request>, id: Identity, rest: seq<Identity>,
                                     sent: Sent, sent1: Sent, sent2: Sent)
    requires PendingOk(pending) && SinksKnown(pending, sent)
    requires id in pending && id !in rest && Complete(m, id, pending[id])
    requires sent1 == sent[pending[id].sink := sent[pending[id].sink] + [Answer(m, id, pending[id])]]
    requires Handed(m, pending, Elements(rest), sent1, sent2)
    ensures Handed(m, pending, Elements([id] + rest), sent, sent2)
  {
    hide Answer, Complete;
    assert sent1.Keys == sent.Keys;
    assert forall x :: x in Elements([id] + rest) <==> x == id || x in rest;
  }

  // ---------------------------------------------------------------- batches refine single arrivals

  /** No stored request is complete. */
  ghost predicate Awake(d: Node) {
    forall id :: id in d.pending ==> !Complete(d.maps, id, d.pending[id])
  }

  ghost function Remaining(m: Maps, pending: map<Identity, Request>): map<Identity, Request> {
    map id | id in pending && !Complete(m, id, pending[id]) :: pending[id]
  }

  ghost predicate Steady(d: Node, sent: Sent) {
    Keyed(d.maps) && PendingOk(d.pending) && SinksKnown(d.pending, sent) && Awake(d)
  }

  /** What a batch does to a state in which no stored request is complete: it looks at what has arrived, not at how. */
  lemma {:induction false} ArriveIs(d: Node, sent: Sent, batch: seq<Arrival>)
    requires Steady(d, sent) && !AnyPresent(d.maps, batch)
    ensures var m, a := InsertAll(d.maps, batch), Arrive(d, batch);
      && (a.0.Err? <==> Refused(m, d.pending, Touched(m, batch)))
      && (a.0.Ok? ==>
            && a.1 == Node(m, Remaining(m, d.pending))
            && Handed(m, d.pending, d.pending.Keys, sent, Deliver(sent, a.0.value)))
  {
    var m := InsertAll(d.maps, batch);
    var touched := Touched(m, batch);
    TouchedOnce(m, batch);
    SettleIs(m, d.pending, touched);
    DeliverAnswers(m, d.pending, touched, sent);
    forall id | id in d.pending && Complete(m, id, d.pending[id]) ensures id in touched {
      NewlyCompleteIsTouched(d.maps, batch, id, d.pending[id]);
    }
    hide Complete, Answer, Answers, NoDup, Touched, InsertAll, Settle, PendingOk, Keyed, Refused;
    AllTouched(m, d.pending, touched, sent, Deliver(sent, Answers(m, d.pending, touched)));
    hide Handed, StillWaiting, Remaining, Deliver;
  }

  lemma {:induction false} AllTouched(m: Maps, pending: map<Identity, Request>, touched: seq<Identity>, sent: Sent,
                                      sent': Sent)
    requires SinksKnown(pending, sent) && Handed(m, pending, Elements(touched), sent, sent')
    requires forall id :: id in pending && Complete(m, id, pending[id]) ==> id in touched
    ensures StillWaiting(m, pending, touched) == Remaining(m, pending)
    ensures Handed(m, pending, pending.Keys, sent, sent')
  {
    hide Complete, Answer;
  }

  ghost predicate SameSlot(a: Arrival, b: Arrival) {
    match (a, b)
    case (Reserved(r), Reserved(q)) => r.index == q.index
    case (Shared(s), Shared(q)) => s.index == q.index
    case _ => false
  }

  /** No two arrivals are for the same index. */
  ghost predicate Distinct(batch: seq<Arrival>) {
    forall j, k :: 0 <= j < k < |batch| ==> !SameSlot(batch[j], batch[k])
  }

  ghost predicate Holds(m: Maps, a: Arrival) {
    match a
    case Reserved(r) =>
      r.index in m.owner && m.owner[r.index] == r.client && r.index in m.reservations && m.reservations[r.index] == r
    case Shared(s) => s.index in m.shares && m.shares[s.index] == s.bytes
  }

  lemma {:induction false} InsertAllHolds(m: Maps, batch: seq<Arrival>, k: nat)
    requires Distinct(batch) && k < |batch|
    ensures Holds(InsertAll(m, batch), batch[k])
  {
    if k < |batch| - 1 {
      InsertAllHolds(m, batch[..|batch| - 1], k);
      assert !SameSlot(batch[k], batch[|batch| - 1]);
    }
  }

  lemma {:induction false} SubMapsAt(m: Maps, batch: seq<Arrival>, items: seq<Arrival>, i: u64)
    requires Keyed(m) && Distinct(batch) && Distinct(items) && (forall a :: a in batch <==> a in items)
    requires !AnyPresent(m, batch) && !AnyPresent(m, items)
    ensures var x, y := InsertAll(m, batch), InsertAll(m, items);
      && (i in x.owner ==> i in y.owner && y.owner[i] == x.owner[i] && y.reservations[i] == x.reservations[i])
      && (i in x.shares ==> i in y.shares && y.shares[i] == x.shares[i])
  {
    var x, y := InsertAll(m, batch), InsertAll(m, items);
    InsertAllExtends(m, batch);
    InsertAllExtends(m, items);
    InsertedBy(m, batch, i);
    hide InsertAll, AnyPresent, Distinct;
    if i in x.owner && i !in m.owner {
      var a :| a in batch && a.Reserved? && a.r.index == i && a.r.client == x.owner[i];
      BothHold(m, batch, items, a);
    }
    if i in x.shares && i !in m.shares {
      var a :| a in batch && a.Shared? && a.s.index == i;
      BothHold(m, batch, items, a);
    }
  }

  lemma {:induction false} BothHold(m: Maps, batch: seq<Arrival>, items: seq<Arrival>, a: Arrival)
    requires Distinct(batch) && Distinct(items) && a in batch && a in items
    ensures Holds(InsertAll(m, batch), a) && Holds(InsertAll(m, items), a)
  {
    var j :| 0 <= j < |batch| && batch[j] == a;
    InsertAllHolds(m, batch, j);
    var k :| 0 <= k < |items| && items[k] == a;
    InsertAllHolds(m, items, k);
  }

  lemma {:induction false} SubMaps(m: Maps, batch: seq<Arrival>, items: seq<Arrival>)
    requires Keyed(m) && Distinct(batch) && Distinct(items) && (forall a :: a in batch <==> a in items)
    requires !AnyPresent(m, batch) && !AnyPresent(m, items)
    ensures Extends(InsertAll(m, batch), InsertAll(m, items))
  {
    var x, y := InsertAll(m, batch), InsertAll(m, items);
    assert Keyed(x) && Keyed(y);
    hide InsertAll, AnyPresent, Distinct;
    forall i: u64 ensures
      && (i in x.owner ==> i in y.owner && y.owner[i] == x.owner[i] && y.reservations[i] == x.reservations[i])
      && (i in x.shares ==> i in y.shares && y.shares[i] == x.shares[i])
    {
      SubMapsAt(m, batch, items, i);
    }
  }

  lemma {:induction false} SameMaps(m: Maps, batch: seq<Arrival>, items: seq<Arrival>)
    requires Keyed(m) && Distinct(batch) && Distinct(items) && (forall a :: a in batch <==> a in items)
    requires !AnyPresent(m, batch)
    ensures !AnyPresent(m, items) && InsertAll(m, batch) == InsertAll(m, items)
  {
    var x, y := InsertAll(m, batch), InsertAll(m, items);
    SubMaps(m, batch, items);
    SubMaps(m, items, batch);
    assert x.owner == y.owner && x.reservations == y.reservations && x.shares == y.shares;
  }

  /** One call per arrival, stopping at the first error. */
  ghost function Singly(d: Node, sent: Sent, items: seq<Arrival>): (bool, Node, Sent) {
    if items == [] then (true, d, sent)
    else
      var before := Singly(d, sent, items[..|items| - 1]);
      if !before.0 then before
      else
        var a := Arrive(before.1, [items[|items| - 1]]);
        if a.0.Err? then (false, a.1, before.2) else (true, a.1, Deliver(before.2, a.0.value))
  }

  lemma {:induction false} RemainingTwice(m1: Maps, m2: Maps, pending: map<Identity, Request>)
    requires Extends(m1, m2)
    ensures Remaining(m2, Remaining(m1, pending)) == Remaining(m2, pending)
  {
    forall id | id in pending && Complete(m1, id, pending[id]) ensures Complete(m2, id, pending[id]) {
      CompleteStays(m1, m2, id, pending[id]);
    }
    hide Complete, Extends;
  }

  lemma {:induction false} HandedOnce(m1: Maps, m2: Maps, pending: map<Identity, Request>, sent: Sent, sent1: Sent,
                                      sent2: Sent, id: Identity)
    requires Extends(m1, m2) && PendingOk(pending) && SinksKnown(pending, sent) && SinksKnown(pending, sent1)
    requires Handed(m1, pending, pending.Keys, sent, sent1) && id in pending
    requires Handed(m2, Remaining(m1, pending), Remaining(m1, pending).Keys, sent1, sent2)
    ensures pending[id].sink in sent2
    ensures sent2[pending[id].sink] == sent[pending[id].sink]
      + (if Complete(m2, id, pending[id]) then [Answer(m2, id, pending[id])] else [])
  {
    var sink := pending[id].sink;
    if Complete(m1, id, pending[id]) {
      CompleteStays(m1, m2, id, pending[id]);
      hide Complete, Answer, Extends;
      assert sent1[sink] == sent[sink] + [Answer(m1, id, pending[id])];
      assert sent2[sink] == sent1[sink];
    } else {
      hide Complete, Answer, Extends;
      assert sent1[sink] == sent[sink] + [] == sent[sink];
      assert id in Remaining(m1, pending) && Remaining(m1, pending)[id] == pending[id];
    }
  }

  lemma {:induction false} HandedTwice(m1: Maps, m2: Maps, pending: map<Identity, Request>, sent: Sent, sent1: Sent,
                                       sent2: Sent)
    requires Extends(m1, m2) && PendingOk(pending) && SinksKnown(pending, sent) && SinksKnown(pending, sent1)
    requires Handed(m1, pending, pending.Keys, sent, sent1)
    requires Handed(m2, Remaining(m1, pending), Remaining(m1, pending).Keys, sent1, sent2)
    ensures Handed(m2, pending, pending.Keys, sent, sent2)
  {
    assert sent2.Keys == sent.Keys;
    forall s | s in sent && (forall id :: id in pending ==> pending[id].sink != s) ensures sent2[s] == sent[s] {
      assert sent1[s] == sent[s];
    }
    hide Remaining, Complete, Extends, PendingOk, Answer;
    forall id | id in pending
      ensures sent2[pending[id].sink] == sent[pending[id].sink]
        + (if Complete(m2, id, pending[id]) then [Answer(m2, id, pending[id])] else [])
    {
      HandedOnce(m1, m2, pending, sent, sent1, sent2, id);
    }
  }

  lemma {:induction false} HandedUnique(m: Maps, pending: map<Identity, Request>, sent: Sent, one: Sent, two: Sent)
    requires SinksKnown(pending, sent)
    requires Handed(m, pending, pending.Keys, sent, one) && Handed(m, pending, pending.Keys, sent, two)
    ensures one == two
  {
    hide Complete, Answer;
    forall s | s in sent ensures one[s] == two[s] {
      if id :| id in pending && pending[id].sink == s {
      } else {
      }
    }
  }

  /** The next single arrival is still new, and it is refused only if the whole batch would be. */
  lemma {:induction false} NextArrival(m: Maps, items: seq<Arrival>, all: Maps, pending: map<Identity, Request>)
    requires items != [] && Keyed(m) && Distinct(items) && !AnyPresent(m, items)
    requires Extends(InsertAll(m, items), all)
    requires forall a :: a in items && Touch(all, a).Some? && Touch(all, a).value in pending ==>
      !Foreign(all, Touch(all, a).value, pending[Touch(all, a).value])
    ensures var front, last := items[..|items| - 1], items[|items| - 1];
      && !AnyPresent(InsertAll(m, front), [last])
      && InsertAll(InsertAll(m, front), [last]) == InsertAll(m, items)
      && !Refused(InsertAll(m, items), pending, Touched(InsertAll(m, items), [last]))
  {
    var front, last := items[..|items| - 1], items[|items| - 1];
    var m1, m2 := InsertAll(m, front), InsertAll(m, items);
    var i := match last case Reserved(r) => r.index case Shared(s) => s.index;
    assert last in items && !Present(m, last);
    assert !Present(m1, last) by {
      InsertedBy(m, front, i);
      assert forall a :: a in front ==> !SameSlot(a, last);
    }
    assert [last][..0] == [];
    assert InsertAll(m1, [last]) == Insert(InsertAll(m1, []), last);
    if Refused(m2, pending, Touched(m2, [last])) {
      var id :| id in Touched(m2, [last]) && id in pending && Foreign(m2, id, pending[id]);
      var a := TouchedBy(m2, [last], id);
      ForeignStays(m2, all, id, pending[id]);
      assert false;
    }
  }

  lemma {:induction false} SinglyIs(d: Node, sent: Sent, items: seq<Arrival>, all: Maps)
    requires Steady(d, sent) && Distinct(items) && !AnyPresent(d.maps, items)
    requires Extends(InsertAll(d.maps, items), all)
    requires forall a :: a in items && Touch(all, a).Some? && Touch(all, a).value in d.pending ==>
      !Foreign(all, Touch(all, a).value, d.pending[Touch(all, a).value])
    ensures var m, r := InsertAll(d.maps, items), Singly(d, sent, items);
      r.0 && r.1 == Node(m, Remaining(m, d.pending)) && Handed(m, d.pending, d.pending.Keys, sent, r.2)
  {
    var m2 := InsertAll(d.maps, items);
    if items == [] {
      hide Complete, Answer;
      assert Remaining(d.maps, d.pending) == d.pending;
    } else {
      var front, last := items[..|items| - 1], items[|items| - 1];
      var m1 := InsertAll(d.maps, front);
      NextArrival(d.maps, items, all, d.pending);
      FrontOk(d.maps, items, all);
      hide Distinct, AnyPresent, Extends, Complete, Foreign, Touch, Touched, InsertAll;
      SinglyIs(d, sent, front, all);
      SinglyStep(d, sent, m1, m2, Singly(d, sent, front).2, last);
    }
  }

  lemma {:induction false} SinglyStep(d: Node, sent: Sent, m1: Maps, m2: Maps, sent1: Sent, last: Arrival)
    requires Steady(d, sent) && Keyed(m1) && Extends(m1, m2) && SinksKnown(d.pending, sent1)
    requires !AnyPresent(m1, [last]) && m2 == InsertAll(m1, [last])
      && Handed(m1, d.pending, d.pending.Keys, sent, sent1)
    requires !Refused(m2, d.pending, Touched(m2, [last]))
    ensures var a := Arrive(Node(m1, Remaining(m1, d.pending)), [last]);
      && a.0.Ok? && a.1 == Node(m2, Remaining(m2, d.pending))
      && Handed(m2, d.pending, d.pending.Keys, sent, Deliver(sent1, a.0.value))
  {
    hide Extends, Complete, Foreign, Touched, InsertAll, Arrive, AnyPresent, Handed, Keyed;
    var d1 := Node(m1, Remaining(m1, d.pending));
    assert Steady(d1, sent1);
    assert Refused(m2, d1.pending, Touched(m2, [last])) ==> Refused(m2, d.pending, Touched(m2, [last]));
    ArriveIs(d1, sent1, [last]);
    RemainingTwice(m1, m2, d.pending);
    HandedTwice(m1, m2, d.pending, sent, sent1, Deliver(sent1, Arrive(d1, [last]).0.value));
  }

  lemma {:induction false} FrontOk(m: Maps, items: seq<Arrival>, all: Maps)
    requires items != [] && Keyed(m) && Distinct(items) && !AnyPresent(m, items) && Extends(InsertAll(m, items), all)
    ensures var front := items[..|items| - 1];
      && Distinct(front) && !AnyPresent(m, front) && (forall a :: a in front ==> a in items)
      && Extends(InsertAll(m, front), InsertAll(m, items)) && Extends(InsertAll(m, front), all)
  {
    var front, last := items[..|items| - 1], items[|items| - 1];
    assert forall a :: a in front ==> a in items;
    var m1 := InsertAll(m, front);
    assert !Present(m1, last) by {
      assert last in items && !Present(m, last);
      InsertedBy(m, front, match last case Reserved(r) => r.index case Shared(s) => s.index);
      assert forall a :: a in front ==> !SameSlot(a, last);
    }
    assert Extends(m1, Insert(m1, last));
  }

  /**
   * A batch call of arrivals for distinct new indices that is not refused ends in the same state, and sends every
   * subscription the same messages, as one call per arrival in any order.
   */
  lemma {:induction false} BatchRefinesSingles(d: Node, sent: Sent, batch: seq<Arrival>, items: seq<Arrival>)
    requires Steady(d, sent) && Distinct(batch) && Distinct(items) && (forall a :: a in batch <==> a in items)
    requires Arrive(d, batch).0.Ok?
    ensures Singly(d, sent, items) == (true, Arrive(d, batch).1, Deliver(sent, Arrive(d, batch).0.value))
  {
    var m := InsertAll(d.maps, batch);
    assert !AnyPresent(d.maps, batch);
    SameMaps(d.maps, batch, items);
    ArriveIs(d, sent, batch);
    forall a | a in items && Touch(m, a).Some? && Touch(m, a).value in d.pending
      ensures !Foreign(m, Touch(m, a).value, d.pending[Touch(m, a).value])
    {
      TouchedHas(m, batch, a);
    }
    hide Distinct, AnyPresent, Complete, Foreign, Touch, Touched, InsertAll, Arrive;
    SinglyIs(d, sent, items, m);
    HandedUnique(m, d.pending, sent, Singly(d, sent, items).2, Deliver(sent, Arrive(d, batch).0.value));
  }
}
