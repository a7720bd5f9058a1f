/** Runs of the node rendezvous: what becomes of every request, in every order of arrivals and requests. */
module NodeRuns {
  import opened Base
  import opened NodeRendezvous
  import opened NodeProps

  datatype Asked = Asked(client: Identity, req: Request)

  datatype NodeWorld = NodeWorld(
    node: Node,
    nextSink: SinkId,
    asked: map<SinkId, Asked>,
    sent: Sent,
    superseded: set<SinkId>,
    rejected: set<SinkId>,
    lost: set<SinkId>,
    failures: nat)

  datatype NodeAction = Arrivals(batch: seq<Arrival>) | AskRange(client: Identity, start: u64, count: u64)

  function NodeStart(): NodeWorld {
    NodeWorld(Node(Maps(map[], map[], map[]), map[]), 0, map[], map[], {}, {}, {}, 0)
  }

  predicate Waiting(d: Node, a: Asked) {
    a.client in d.pending && d.pending[a.client] == a.req
  }

  /** Requests that were stored before a call and after it are neither stored nor sent anything. */
  function Dropped(w: NodeWorld, d: Node, sent: Sent): set<SinkId> {
    set s | s in w.asked && Waiting(w.node, w.asked[s]) && !Waiting(d, w.asked[s])
            && s in sent && s in w.sent && sent[s] == w.sent[s]
  }

  function StepArrivals(w: NodeWorld, batch: seq<Arrival>): NodeWorld {
    var a := Arrive(w.node, batch);
    var sent := if a.0.Ok? then Deliver(w.sent, a.0.value) else w.sent;
    w.(node := a.1, sent := sent, lost := w.lost + Dropped(w, a.1, sent),
       failures := if a.0.Err? && a.0.error.AuthenticationFailed? then w.failures + 1 else w.failures)
  }

  function StepAsk(w: NodeWorld, client: Identity, start: u64, count: u64): NodeWorld {
    var s := w.nextSink;
    var req := Request(start, count, s);
    var a := Ask(w.node, client, req);
    w.(node := a.1, nextSink := s + 1, asked := w.asked[s := Asked(client, req)],
       sent := w.sent[s := if a.0.Replied? then [a.0.shares] else []],
       superseded := if client in w.node.pending then w.superseded + {w.node.pending[client].sink} else w.superseded,
       rejected := if a.0.Rejected? then w.rejected + {s} else w.rejected)
  }

  function NodeStep(w: NodeWorld, a: NodeAction): NodeWorld {
    match a
    case Arrivals(batch) => StepArrivals(w, batch)
    case AskRange(client, start, count) => StepAsk(w, client, start, count)
  }

  function NodeRun(actions: seq<NodeAction>): NodeWorld {
    if actions == [] then NodeStart() else NodeStep(NodeRun(actions[..|actions| - 1]), actions[|actions| - 1])
  }

  datatype Fate = Stays | Answered | Superseded | WasRejected | Lost

  /** Of the five things that can become of a request, `f` is the one that did. */
  ghost predicate FateIs(w: NodeWorld, s: SinkId, f: Fate)
    requires s in w.asked && s in w.sent
  {
    && (Waiting(w.node, w.asked[s]) <==> f == Stays)
    && (w.sent[s] != [] <==> f == Answered)
    && (s in w.superseded <==> f == Superseded)
    && (s in w.rejected <==> f == WasRejected)
    && (s in w.lost <==> f == Lost)
  }

  ghost predicate OneFate(w: NodeWorld, s: SinkId)
    requires s in w.asked && s in w.sent
  {
    exists f :: FateIs(w, s, f)
  }

  ghost predicate AnswerOk(m: Maps, a: Asked, messages: seq<seq<MaskShare>>) {
    messages != [] ==> Complete(m, a.client, a.req) && messages == [Answer(m, a.client, a.req)]
  }

  /** A rejected range overflows or starts, after what is served, at somebody else's index. */
  ghost predicate RefusalOk(m: Maps, a: Asked) {
    a.req.start + a.req.count >= U64_LIMIT || Foreign(m, a.client, a.req)
  }

  ghost predicate AskedLater(w: NodeWorld, s: SinkId)
    requires s in w.asked
  {
    exists later :: later in w.asked && s < later && w.asked[later].client == w.asked[s].client
  }

  ghost predicate BooksOk(w: NodeWorld) {
    && w.sent.Keys == w.asked.Keys
    && w.superseded <= w.asked.Keys && w.rejected <= w.asked.Keys && w.lost <= w.asked.Keys
    && (forall s :: s in w.asked ==> s < w.nextSink && w.asked[s].req.sink == s)
    && (forall id :: id in w.node.pending ==>
          var r := w.node.pending[id];
            r.sink in w.asked && w.asked[r.sink] == Asked(id, r) && r.start + r.count < U64_LIMIT)
  }

  /** Exactly one fate, and each of them for its reason. */
  ghost predicate FateOk(w: NodeWorld, s: SinkId)
    requires s in w.asked && s in w.sent
  {
    && OneFate(w, s)
    && AnswerOk(w.node.maps, w.asked[s], w.sent[s])
    && (s in w.rejected ==> RefusalOk(w.node.maps, w.asked[s]))
    && (s in w.superseded ==> AskedLater(w, s))
  }

  ghost predicate FatesOk(w: NodeWorld)
    requires BooksOk(w)
  {
    forall s :: s in w.asked ==> FateOk(w, s)
  }

  ghost predicate LossesOk(w: NodeWorld) {
    && (w.lost == {} <==> w.failures == 0)
    && (w.failures == 0 ==> Awake(w.node))
  }

  ghost predicate NodeOk(w: NodeWorld) {
    Keyed(w.node.maps) && BooksOk(w) && FatesOk(w) && LossesOk(w)
  }

  lemma {:induction false} BooksPending(w: NodeWorld)
    requires BooksOk(w)
    ensures PendingOk(w.node.pending) && SinksKnown(w.node.pending, w.sent)
  {
  }

  // ---------------------------------------------------------------- a request

  lemma {:induction false} AskBooks(w: NodeWorld, client: Identity, start: u64, count: u64)
    requires Keyed(w.node.maps) && BooksOk(w)
    ensures BooksOk(StepAsk(w, client, start, count))
  {
    LookupIs(w.node.maps, client, Request(start, count, w.nextSink));
    hide Lookup, Complete, Foreign, Keyed;
    var w' := StepAsk(w, client, start, count);
    assert w'.asked.Keys == w.asked.Keys + {w.nextSink};
    assert w'.sent.Keys == w.sent.Keys + {w.nextSink};
  }

  lemma {:induction false} AskNewFate(w: NodeWorld, client: Identity, start: u64, count: u64)
    requires Keyed(w.node.maps) && BooksOk(w)
    ensures var s, w' := w.nextSink, StepAsk(w, client, start, count);
      FateOk(w', s)
  {
    var s, w' := w.nextSink, StepAsk(w, client, start, count);
    var req := Request(start, count, s);
    LookupIs(w.node.maps, client, req);
    var reply := Ask(w.node, client, req).0;
    hide Lookup, Complete, Foreign, Keyed, Answer;
    var f := match reply case Rejected(_) => WasRejected case Replied(_) => Answered case Stored => Stays;
    assert FateIs(w', s, f);
  }

  lemma {:induction false} AskOldFate(w: NodeWorld, client: Identity, start: u64, count: u64, s: SinkId)
    requires Keyed(w.node.maps) && BooksOk(w) && s in w.asked
    requires FateOk(w, s)
    ensures var w' := StepAsk(w, client, start, count);
      s in w'.asked && s in w'.sent && FateOk(w', s)
  {
    hide Lookup, Complete, Foreign, Keyed, Answer;
    var w' := StepAsk(w, client, start, count);
    var f :| FateIs(w, s, f);
    var f' := if f == Stays && w.asked[s].client == client then Superseded else f;
    assert w'.asked[s] == w.asked[s] && w'.sent[s] == w.sent[s];
    assert FateIs(w', s, f');
    if AskedLater(w, s) {
      var later :| later in w.asked && s < later && w.asked[later].client == w.asked[s].client;
      assert w'.asked[later] == w.asked[later];
    }
    if f' == Superseded && f == Stays {
      assert w'.asked[w.nextSink].client == client && s < w.nextSink;
    }
  }

  lemma {:induction false} AskLosses(w: NodeWorld, client: Identity, start: u64, count: u64)
    requires Keyed(w.node.maps) && BooksOk(w) && LossesOk(w)
    ensures LossesOk(StepAsk(w, client, start, count))
  {
    LookupIs(w.node.maps, client, Request(start, count, w.nextSink));
    hide Lookup, Foreign, Keyed, Answer;
    assert forall sink :: Complete(w.node.maps, client, Request(start, count, sink))
                     <==> Complete(w.node.maps, client, Request(start, count, w.nextSink));
  }

  lemma {:induction false} AskKeeps(w: NodeWorld, client: Identity, start: u64, count: u64)
    requires NodeOk(w)
    ensures NodeOk(StepAsk(w, client, start, count))
  {
    var w' := StepAsk(w, client, start, count);
    AskBooks(w, client, start, count);
    AskLosses(w, client, start, count);
    assert Keyed(w'.node.maps) && w'.asked.Keys == w.asked.Keys + {w.nextSink};
    hide StepAsk, BooksOk, LossesOk, FateOk, Keyed;
    forall s | s in w'.asked ensures FateOk(w', s) {
      if s == w.nextSink { AskNewFate(w, client, start, count); } else { AskOldFate(w, client, start, count, s); }
    }
  }

  // ---------------------------------------------------------------- arrivals

  /** A failed second phase removes some stored request and adds none. */
  lemma {:induction false} SettleShrinks(m: Maps, pending: map<Identity, Request>, touched: seq<Identity>)
    requires Keyed(m) && PendingOk(pending)
    ensures var s := Settle(m, pending, touched);
      && (forall id :: id in s.1 ==> id in pending && s.1[id] == pending[id])
      && (s.0.Err? ==> s.0.error.AuthenticationFailed? && exists id :: id in pending && id !in s.1)
    decreases |touched|
  {
    if touched != [] {
      var id, rest := touched[0], touched[1..];
      if id !in pending {
        SettleShrinks(m, pending, rest);
      } else {
        LookupIs(m, id, pending[id]);
        hide Lookup, Complete, Foreign, Keyed, Answer;
        assert id in pending;
        SettleShrinks(m, pending - {id}, rest);
        SettleShrinks(m, pending, rest);
      }
    }
  }

  lemma {:induction false} AnswerStays(m: Maps, m': Maps, a: Asked, messages: seq<seq<MaskShare>>)
    requires Extends(m, m') && AnswerOk(m, a, messages)
    ensures AnswerOk(m', a, messages)
    ensures RefusalOk(m, a) ==> RefusalOk(m', a)
  {
    if messages != [] { CompleteStays(m, m', a.client, a.req); }
    if Foreign(m, a.client, a.req) { ForeignStays(m, m', a.client, a.req); }
  }

  /** The state a successful batch leaves, request by request. */
  ghost predicate Settled(w: NodeWorld, w': NodeWorld, touched: seq<Identity>)
    requires BooksOk(w) && SinksKnown(w.node.pending, w.sent)
  {
    && w' == w.(node := w'.node, sent := w'.sent, lost := w.lost + Dropped(w, w'.node, w'.sent))
    && Extends(w.node.maps, w'.node.maps)
    && w'.node.pending == StillWaiting(w'.node.maps, w.node.pending, touched)
    && Handed(w'.node.maps, w.node.pending, Elements(touched), w.sent, w'.sent)
  }

  lemma {:induction false} ArrivedOk(w: NodeWorld, batch: seq<Arrival>)
    requires Keyed(w.node.maps) && BooksOk(w) && Arrive(w.node, batch).0.Ok?
    ensures SinksKnown(w.node.pending, w.sent)
    ensures Settled(w, StepArrivals(w, batch), Touched(InsertAll(w.node.maps, batch), batch))
  {
    BooksPending(w);
    var m := InsertAll(w.node.maps, batch);
    var touched := Touched(m, batch);
    InsertAllExtends(w.node.maps, batch);
    TouchedOnce(m, batch);
    SettleIs(m, w.node.pending, touched);
    DeliverAnswers(m, w.node.pending, touched, w.sent);
    hide BooksOk, Settle, Answers, StillWaiting, Handed, Touched, InsertAll, Extends, PendingOk;
  }

  /** A call that keeps the rejected and superseded requests keeps their reasons. */
  lemma {:induction false} ReasonsStay(w: NodeWorld, w': NodeWorld, s: SinkId)
    requires s in w.asked && s in w.sent && FateOk(w, s) && Extends(w.node.maps, w'.node.maps)
    requires w'.asked == w.asked && w'.rejected == w.rejected && w'.superseded == w.superseded
    ensures s in w'.rejected ==> RefusalOk(w'.node.maps, w'.asked[s])
    ensures s in w'.superseded ==> AskedLater(w', s)
  {
    AnswerStays(w.node.maps, w'.node.maps, w.asked[s], w.sent[s]);
    hide RefusalOk, Extends, OneFate, AnswerOk;
  }

  lemma {:induction false} SettledFate(w: NodeWorld, w': NodeWorld, touched: seq<Identity>, s: SinkId)
    requires BooksOk(w) && SinksKnown(w.node.pending, w.sent) && Settled(w, w', touched) && s in w.asked
    requires OneFate(w, s) && AnswerOk(w.node.maps, w.asked[s], w.sent[s])
    ensures s in w'.sent && OneFate(w', s) && AnswerOk(w'.node.maps, w'.asked[s], w'.sent[s])
    ensures s !in Dropped(w, w'.node, w'.sent)
  {
    AnswerStays(w.node.maps, w'.node.maps, w.asked[s], w.sent[s]);
    hide Complete, Answer, Extends, RefusalOk;
    var a := w.asked[s];
    var f :| FateIs(w, s, f);
    if f == Stays {
      assert w.node.pending[a.client].sink == s;
      var hit := a.client in touched && Complete(w'.node.maps, a.client, a.req);
      assert w'.sent[s] == if hit then [Answer(w'.node.maps, a.client, a.req)] else [];
      assert Waiting(w'.node, a) <==> !hit;
      assert FateIs(w', s, if hit then Answered else Stays);
    } else {
      assert forall id :: id in w.node.pending ==> w.node.pending[id].sink != s;
      assert w'.sent[s] == w.sent[s] && !Waiting(w'.node, a);
      assert FateIs(w', s, f);
    }
  }

  lemma {:induction false} SettledFateOk(w: NodeWorld, w': NodeWorld, touched: seq<Identity>, s: SinkId)
    requires BooksOk(w) && SinksKnown(w.node.pending, w.sent) && Settled(w, w', touched) && s in w.asked && FateOk(w, s)
    ensures s in w'.sent && FateOk(w', s)
    ensures s !in Dropped(w, w'.node, w'.sent)
  {
    SettledFate(w, w', touched, s);
    ReasonsStay(w, w', s);
    hide OneFate, AnswerOk, RefusalOk, AskedLater, Extends, Handed, BooksOk;
  }

  lemma {:induction false} SettledAwake(w: NodeWorld, batch: seq<Arrival>)
    requires Keyed(w.node.maps) && BooksOk(w) && Awake(w.node) && Arrive(w.node, batch).0.Ok?
    ensures Awake(StepArrivals(w, batch).node)
  {
    BooksPending(w);
    ArriveIs(w.node, w.sent, batch);
    hide Complete, Arrive, InsertAll, BooksOk;
  }

  lemma {:induction false} ArrivalsOkKeep(w: NodeWorld, batch: seq<Arrival>)
    requires NodeOk(w) && Arrive(w.node, batch).0.Ok?
    ensures NodeOk(StepArrivals(w, batch))
  {
    var w' := StepArrivals(w, batch);
    ArrivedOk(w, batch);
    if w.failures == 0 { SettledAwake(w, batch); }
    assert Keyed(w'.node.maps) && w'.failures == w.failures;
    var touched := Touched(InsertAll(w.node.maps, batch), batch);
    hide StepArrivals, Keyed, FateOk, Extends, Handed, Awake, Touched, InsertAll, Arrive;
    forall s | s in w.asked
      ensures s in w'.sent && FateOk(w', s)
      ensures s !in Dropped(w, w'.node, w'.sent)
    {
      assert FateOk(w, s);
      SettledFateOk(w, w', touched, s);
    }
    assert Dropped(w, w'.node, w'.sent) == {};
    assert BooksOk(w') by {
      assert w'.sent.Keys == w.sent.Keys by {
        HandedKeys(w'.node.maps, w.node.pending, Elements(touched), w.sent, w'.sent);
      }
    }
  }

  lemma {:induction false} HandedKeys(m: Maps, pending: map<Identity, Request>, touched: set<Identity>, sent: Sent,
                                      sent': Sent)
    requires SinksKnown(pending, sent) && Handed(m, pending, touched, sent, sent')
    ensures sent'.Keys == sent.Keys
  {
  }

  /** A refused batch: what arrived is recorded, some stored requests are gone, nothing was sent. */
  ghost predicate Failed(w: NodeWorld, w': NodeWorld) {
    && w' == w.(node := w'.node, lost := w.lost + Dropped(w, w'.node, w.sent), failures := w.failures + 1)
    && Extends(w.node.maps, w'.node.maps)
    && (forall id :: id in w'.node.pending ==> id in w.node.pending && w'.node.pending[id] == w.node.pending[id])
    && (exists id :: id in w.node.pending && id !in w'.node.pending)
  }

  lemma {:induction false} ArrivedFailed(w: NodeWorld, batch: seq<Arrival>)
    requires Keyed(w.node.maps) && BooksOk(w) && !AnyPresent(w.node.maps, batch) && Arrive(w.node, batch).0.Err?
    ensures Failed(w, StepArrivals(w, batch))
  {
    BooksPending(w);
    var m := InsertAll(w.node.maps, batch);
    InsertAllExtends(w.node.maps, batch);
    SettleShrinks(m, w.node.pending, Touched(m, batch));
    hide BooksOk, Settle, Touched, InsertAll, Extends, PendingOk;
  }

  lemma {:induction false} FailedFate(w: NodeWorld, w': NodeWorld, s: SinkId)
    requires BooksOk(w) && Failed(w, w') && s in w.asked
    requires FateOk(w, s)
    ensures FateOk(w', s)
  {
    AnswerStays(w.node.maps, w'.node.maps, w.asked[s], w.sent[s]);
    ReasonsStay(w, w', s);
    hide Extends, AnswerOk, RefusalOk, AskedLater;
    var f :| FateIs(w, s, f);
    var f' := if f == Stays && !Waiting(w'.node, w.asked[s]) then Lost else f;
    assert FateIs(w', s, f');
  }

  lemma {:induction false} FailedLoses(w: NodeWorld, w': NodeWorld)
    requires BooksOk(w) && Failed(w, w')
    ensures BooksOk(w') && w'.lost != {}
  {
    hide Extends;
    var id :| id in w.node.pending && id !in w'.node.pending;
    assert w.node.pending[id].sink in Dropped(w, w'.node, w.sent);
  }

  lemma {:induction false} ArrivalsKeep(w: NodeWorld, batch: seq<Arrival>)
    requires NodeOk(w)
    ensures NodeOk(StepArrivals(w, batch))
  {
    var w' := StepArrivals(w, batch);
    if Arrive(w.node, batch).0.Ok? {
      ArrivalsOkKeep(w, batch);
    } else if AnyPresent(w.node.maps, batch) {
      hide FateOk, Awake;
      assert Dropped(w, w.node, w.sent) == {};
      assert w' == w;
    } else {
      assert Keyed(w'.node.maps);
      ArrivedFailed(w, batch);
      hide StepArrivals, Arrive, Keyed, FateOk, Awake;
      FailedLoses(w, w');
      forall s | s in w.asked ensures FateOk(w', s) {
        FailedFate(w, w', s);
      }
    }
  }

  lemma {:induction false} AlwaysNodeOk(actions: seq<NodeAction>)
    ensures NodeOk(NodeRun(actions))
  {
    if actions != [] {
      AlwaysNodeOk(actions[..|actions| - 1]);
      hide NodeOk, StepAsk, StepArrivals;
      var w, a := NodeRun(actions[..|actions| - 1]), actions[|actions| - 1];
      match a
      case Arrivals(batch) => ArrivalsKeep(w, batch);
      case AskRange(client, start, count) => AskKeeps(w, client, start, count);
    }
  }

  // ---------------------------------------------------------------- results

  /**
   * Conservation, in every run: every request is exactly one of stored, answered, superseded, rejected and lost, and
   * an answered one got a single message, with exactly its indices in order, each reserved by the client that asked.
   * Only a later request of the same client supersedes; only an overflow or another client's index rejects. Requests
   * are lost in exactly the runs in which some batch call returned `AuthenticationFailed`.
   */
  lemma {:induction false} RequestsAreConserved(actions: seq<NodeAction>)
    ensures var w := NodeRun(actions);
      && BooksOk(w)
      && (forall s :: s in w.asked ==> FateOk(w, s))
      && (w.lost == {} <==> w.failures == 0)
  {
    AlwaysNodeOk(actions);
  }

  /**
   * No lost wake-up: in every run without `AuthenticationFailed`, a request that was neither superseded nor rejected
   * has been answered, with exactly its shares, if everything it needs has arrived, and is stored otherwise. So the
   * answer leaves in the very call that brings the last reservation or share.
   */
  lemma {:induction false} AnsweredExactlyWhenComplete(actions: seq<NodeAction>, s: SinkId)
    requires NodeRun(actions).failures == 0 && s in NodeRun(actions).asked
    requires s !in NodeRun(actions).superseded && s !in NodeRun(actions).rejected
    ensures var w := NodeRun(actions);
      var a := w.asked[s];
      && s in w.sent
      && w.sent[s] == (if Complete(w.node.maps, a.client, a.req) then [Answer(w.node.maps, a.client, a.req)] else [])
      && (Waiting(w.node, a) <==> !Complete(w.node.maps, a.client, a.req))
  {
    AlwaysNodeOk(actions);
    hide NodeRun, Complete, Answer;
    var w := NodeRun(actions);
    assert FateOk(w, s);
    var f :| FateIs(w, s, f);
  }

  /**
   * A batch call loses requests exactly when, with the batch recorded, the first unserved index of some touched
   * client's stored range is reserved by another client.
   */
  lemma {:induction false} BatchLosesIff(actions: seq<NodeAction>, batch: seq<Arrival>)
    requires !AnyPresent(NodeRun(actions).node.maps, batch)
    ensures var w := NodeRun(actions);
      var m := InsertAll(w.node.maps, batch);
      StepArrivals(w, batch).lost != w.lost <==> Refused(m, w.node.pending, Touched(m, batch))
  {
    AlwaysNodeOk(actions);
    var w := NodeRun(actions);
    var w', m := StepArrivals(w, batch), InsertAll(w.node.maps, batch);
    var touched := Touched(m, batch);
    TouchedOnce(m, batch);
    BooksPending(w);
    SettleIs(m, w.node.pending, touched);
    if Arrive(w.node, batch).0.Ok? {
      ArrivedOk(w, batch);
      NothingDropped(w, w', touched);
    } else {
      ArrivedFailed(w, batch);
      hide NodeRun, StepArrivals, Refused;
      LostAnew(w, w');
    }
  }

  /** The sinks of the requests a refusal at position `f` loses: the refused one and the complete ones before it. */
  ghost function LostAt(m: Maps, pending: map<Identity, Request>, touched: seq<Identity>, f: nat): set<SinkId>
    requires f < |touched| && touched[f] in pending
  {
    {pending[touched[f]].sink}
    + set id | id in pending && id in touched[..f] && Complete(m, id, pending[id]) :: pending[id].sink
  }

  /** Exactly what a refused batch does to the node and which requests it loses, in every run. */
  lemma {:induction false} RefusedBatchIs(actions: seq<NodeAction>, batch: seq<Arrival>, f: nat)
    requires !AnyPresent(NodeRun(actions).node.maps, batch)
    requires var w := NodeRun(actions);
      var m := InsertAll(w.node.maps, batch); FirstRefused(m, w.node.pending, Touched(m, batch), f)
    ensures var w := NodeRun(actions);
      var m := InsertAll(w.node.maps, batch);
      var touched := Touched(m, batch);
      && Arrive(w.node, batch) == (Err(AuthenticationFailed(touched[f])),
                                   Node(m, StillWaiting(m, w.node.pending, touched[..f]) - {touched[f]}))
      && StepArrivals(w, batch).lost == w.lost + LostAt(m, w.node.pending, touched, f)
  {
    AlwaysNodeOk(actions);
    var w := NodeRun(actions);
    var m := InsertAll(w.node.maps, batch);
    var touched := Touched(m, batch);
    TouchedOnce(m, batch);
    BooksPending(w);
    SettleRefusedIs(m, w.node.pending, touched, f);
    DroppedAt(w, m, touched, f);
    hide NodeRun, InsertAll, Touched, Settle, FirstRefused, StillWaiting, LostAt, Dropped, NodeOk;
  }

  lemma {:induction false} DroppedAt(w: NodeWorld, m: Maps, touched: seq<Identity>, f: nat)
    requires BooksOk(w) && FirstRefused(m, w.node.pending, touched, f)
    ensures Dropped(w, Node(m, StillWaiting(m, w.node.pending, touched[..f]) - {touched[f]}), w.sent)
         == LostAt(m, w.node.pending, touched, f)
  {
    hide Complete, Foreign, Refused;
    var d := Node(m, StillWaiting(m, w.node.pending, touched[..f]) - {touched[f]});
    var dropped, lost := Dropped(w, d, w.sent), LostAt(m, w.node.pending, touched, f);
    forall s | s in dropped ensures s in lost {
      var id := w.asked[s].client;
      assert w.node.pending[id].sink == s;
    }
    forall s | s in lost ensures s in dropped {
      var id :| id in w.node.pending && w.node.pending[id].sink == s
        && (id == touched[f] || (id in touched[..f] && Complete(m, id, w.node.pending[id])));
      assert w.asked[s] == Asked(id, w.node.pending[id]);
    }
  }

  /**
   * When no stored request was complete before a refused batch, exactly the complete requests whose clients were
   * touched after the refused one stay stored; so the node is left without a stored complete request exactly when
   * there are none.
   */
  lemma {:induction false} LateCompleteStaysStored(d: Node, batch: seq<Arrival>, f: nat)
    requires Keyed(d.maps) && PendingOk(d.pending) && Awake(d) && !AnyPresent(d.maps, batch)
    requires var m := InsertAll(d.maps, batch); FirstRefused(m, d.pending, Touched(m, batch), f)
    ensures var m, d' := InsertAll(d.maps, batch), Arrive(d, batch).1;
      var after := Touched(m, batch)[f + 1..];
      && (forall id :: id in d.pending && Complete(m, id, d.pending[id]) ==> (id in d'.pending <==> id in after))
      && (Awake(d') <==> forall id :: id in d.pending && id in after ==> !Complete(m, id, d.pending[id]))
  {
    var m := InsertAll(d.maps, batch);
    var touched := Touched(m, batch);
    TouchedOnce(m, batch);
    SettleRefusedIs(m, d.pending, touched, f);
    forall id | id in d.pending && Complete(m, id, d.pending[id]) ensures id in touched {
      NewlyCompleteIsTouched(d.maps, batch, id, d.pending[id]);
    }
    NotComplete(m, touched[f], d.pending[touched[f]]);
    hide InsertAll, Touched, Settle, Complete, Foreign, Refused, PendingOk, Keyed;
    StoredAfter(m, d.pending, touched, f);
  }

  lemma {:induction false} StoredAfter(m: Maps, pending: map<Identity, Request>, touched: seq<Identity>, f: nat)
    requires NoDup(touched) && f < |touched| && touched[f] in pending && !Complete(m, touched[f], pending[touched[f]])
    requires forall id :: id in pending && Complete(m, id, pending[id]) ==> id in touched
    ensures var d := Node(m, StillWaiting(m, pending, touched[..f]) - {touched[f]});
      && (forall id :: id in pending && Complete(m, id, pending[id]) ==> (id in d.pending <==> id in touched[f + 1..]))
      && (Awake(d) <==> forall id :: id in pending && id in touched[f + 1..] ==> !Complete(m, id, pending[id]))
  {
    hide Complete;
    var before, after := touched[..f], touched[f + 1..];
    var d := Node(m, StillWaiting(m, pending, before) - {touched[f]});
    forall id | id in touched ensures id in after <==> id !in before && id != touched[f] {
      PositionOf(touched, f, id);
    }
  }

  lemma {:induction false} PositionOf(touched: seq<Identity>, f: nat, id: Identity)
    requires NoDup(touched) && f < |touched| && id in touched
    ensures id in touched[f + 1..] <==> id !in touched[..f] && id != touched[f]
  {
    var before, after := touched[..f], touched[f + 1..];
    assert touched == before + [touched[f]] + after;
    if id in after {
      var j :| 0 <= j < |after| && after[j] == id;
      assert touched[f + 1 + j] == id;
      forall k | 0 <= k < |before| ensures before[k] != id { assert touched[k] != touched[f + 1 + j]; }
    }
  }

  lemma {:induction false} NothingDropped(w: NodeWorld, w': NodeWorld, touched: seq<Identity>)
    requires BooksOk(w) && FatesOk(w) && SinksKnown(w.node.pending, w.sent) && Settled(w, w', touched)
    ensures w'.lost == w.lost
  {
    hide FateOk, Extends, Handed;
    forall s | s in w.asked ensures s !in Dropped(w, w'.node, w'.sent) {
      assert FateOk(w, s);
      SettledFateOk(w, w', touched, s);
    }
  }

  lemma {:induction false} LostAnew(w: NodeWorld, w': NodeWorld)
    requires BooksOk(w) && FatesOk(w) && Failed(w, w')
    ensures w'.lost != w.lost
  {
    hide Extends, AnswerOk, RefusalOk, AskedLater;
    var id :| id in w.node.pending && id !in w'.node.pending;
    var s := w.node.pending[id].sink;
    assert s in Dropped(w, w'.node, w.sent) && FateOk(w, s);
    assert s !in w.lost;
  }

  // ---------------------------------------------------------------- a run in which a batch is refused

  const ONE: Identity := [1]
  const TWO: Identity := [2]
  const ASKED_ONE := Request(0, 1, 0)
  const ASKED_TWO := Request(1, 1, 1)
  const SHARE_BATCH := [Shared(MaskShare(1, []))]
  const RESERVED_BATCH := [
    Reserved(Reservation(ONE, 7, 0)), Reserved(Reservation(TWO, 0, 0)), Reserved(Reservation(TWO, 1, 1))]
  const REFUSED_RUN := [AskRange(ONE, 0, 1), AskRange(TWO, 1, 1), Arrivals(SHARE_BATCH), Arrivals(RESERVED_BATCH)]

  /** Before the batch: both requests stored, one share there. */
  const BEFORE_REFUSAL := NodeWorld(
    Node(Maps(map[], map[], map[1 := []]), map[ONE := ASKED_ONE, TWO := ASKED_TWO]), 2,
    map[0 := Asked(ONE, ASKED_ONE), 1 := Asked(TWO, ASKED_TWO)], map[0 := [], 1 := []], {}, {}, {}, 0)

  lemma {:induction false} RunOfFour(a: NodeAction, b: NodeAction, c: NodeAction, d: NodeAction)
    ensures NodeRun([a, b, c, d]) == NodeStep(NodeStep(NodeStep(NodeStep(NodeStart(), a), b), c), d)
  {
    hide NodeStep, NodeStart;
    var all := [a, b, c, d];
    assert all[..3] == [a, b, c] && [a, b, c][..2] == [a, b] && [a, b][..1] == [a] && [a][..0] == [];
    assert NodeRun([a]) == NodeStep(NodeStart(), a);
    assert NodeRun([a, b]) == NodeStep(NodeRun([a]), b);
    assert NodeRun([a, b, c]) == NodeStep(NodeRun([a, b]), c);
  }

  lemma {:induction false} TwoRequestsAndAShare()
    ensures NodeStep(NodeStep(NodeStep(NodeStart(), REFUSED_RUN[0]), REFUSED_RUN[1]), REFUSED_RUN[2]) == BEFORE_REFUSAL
  {
    var w1 := NodeStep(NodeStart(), REFUSED_RUN[0]);
    assert w1 == NodeWorld(Node(Maps(map[], map[], map[]), map[ONE := ASKED_ONE]), 1, map[0 := Asked(ONE, ASKED_ONE)],
                           map[0 := []], {}, {}, {}, 0);
    var w2 := NodeStep(w1, REFUSED_RUN[1]);
    assert w2 == BEFORE_REFUSAL.(node := BEFORE_REFUSAL.node.(maps := Maps(map[], map[], map[])));
    assert SHARE_BATCH[..0] == [];
    assert InsertAll(w2.node.maps, SHARE_BATCH) == BEFORE_REFUSAL.node.maps;
    assert Touched(BEFORE_REFUSAL.node.maps, SHARE_BATCH) == [];
    assert Dropped(w2, BEFORE_REFUSAL.node, w2.sent) == {};
  }

  lemma {:induction false} BatchOfThree(m: Maps, a: Arrival, b: Arrival, c: Arrival)
    ensures InsertAll(m, [a, b, c]) == Insert(Insert(Insert(m, a), b), c)
    ensures Touch(m, a) == Some(ONE) && Touch(m, b) == Touch(m, c) == Some(TWO) ==> Touched(m, [a, b, c]) == [ONE, TWO]
  {
    hide Insert, Touch;
    assert [a, b, c][..2] == [a, b] && [a, b][..1] == [a] && [a][..0] == [];
    assert InsertAll(m, [a]) == Insert(m, a);
    assert InsertAll(m, [a, b]) == Insert(InsertAll(m, [a]), b);
    if Touch(m, a) == Some(ONE) && Touch(m, b) == Touch(m, c) == Some(TWO) {
      assert Touched(m, [a]) == [ONE];
      assert Touched(m, [a, b]) == [ONE, TWO];
    }
  }

  const REFUSED_MAPS := Maps(
    map[7 := ONE, 0 := TWO, 1 := TWO],
    map[7 := RESERVED_BATCH[0].r, 0 := RESERVED_BATCH[1].r, 1 := RESERVED_BATCH[2].r],
    map[1 := []])

  lemma {:induction false} RefusedMaps()
    ensures InsertAll(BEFORE_REFUSAL.node.maps, RESERVED_BATCH) == REFUSED_MAPS
    ensures Touched(REFUSED_MAPS, RESERVED_BATCH) == [ONE, TWO]
  {
    BatchOfThree(BEFORE_REFUSAL.node.maps, RESERVED_BATCH[0], RESERVED_BATCH[1], RESERVED_BATCH[2]);
    BatchOfThree(REFUSED_MAPS, RESERVED_BATCH[0], RESERVED_BATCH[1], RESERVED_BATCH[2]);
  }

  lemma {:induction false} SecondPhaseRefused()
    ensures Settle(REFUSED_MAPS, BEFORE_REFUSAL.node.pending, [ONE, TWO])
         == (Err(AuthenticationFailed(ONE)), map[TWO := ASKED_TWO])
    ensures Complete(REFUSED_MAPS, TWO, ASKED_TWO)
  {
    assert Scan(REFUSED_MAPS, ONE, 0, 1) == Err(AuthenticationFailed(ONE));
    assert BEFORE_REFUSAL.node.pending - {ONE} == map[TWO := ASKED_TWO];
  }

  lemma {:induction false} BatchIsRefused()
    ensures Arrive(BEFORE_REFUSAL.node, RESERVED_BATCH)
         == (Err(AuthenticationFailed(ONE)), Node(REFUSED_MAPS, map[TWO := ASKED_TWO]))
  {
    assert !AnyPresent(BEFORE_REFUSAL.node.maps, RESERVED_BATCH);
    RefusedMaps();
    SecondPhaseRefused();
    hide InsertAll, Touched, Settle;
  }

  lemma {:induction false} RefusedArrivals(w: NodeWorld, batch: seq<Arrival>, client: Identity, d: Node, s: SinkId)
    requires Arrive(w.node, batch) == (Err(AuthenticationFailed(client)), d)
    requires s in w.asked && s in w.sent && Waiting(w.node, w.asked[s]) && !Waiting(d, w.asked[s])
    ensures var w' := NodeStep(w, Arrivals(batch));
      w'.node == d && w'.asked == w.asked && w'.failures == w.failures + 1 && s in w'.lost
  {
    hide Arrive, Waiting;
  }

  /**
   * With a refused batch both promises fail: client 1's request is lost, and client 2's is complete but stays stored,
   * because the batch returned before looking at it.
   */
  lemma {:induction false} RefusedBatchLosesWakeup()
    ensures var w := NodeRun(REFUSED_RUN);
      && w.failures == 1 && 0 in w.lost && 1 in w.asked
      && Waiting(w.node, w.asked[1]) && Complete(w.node.maps, TWO, w.asked[1].req)
  {
    RunOfFour(REFUSED_RUN[0], REFUSED_RUN[1], REFUSED_RUN[2], REFUSED_RUN[3]);
    assert REFUSED_RUN[3] == Arrivals(RESERVED_BATCH);
    hide NodeRun, NodeStep, Complete, Settle;
    TwoRequestsAndAShare();
    BatchIsRefused();
    SecondPhaseRefused();
    RefusedArrivals(BEFORE_REFUSAL, RESERVED_BATCH, ONE, Node(REFUSED_MAPS, map[TWO := ASKED_TWO]), 0);
  }
}
