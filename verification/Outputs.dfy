/**
 * Output shares: recording, the snapshot taken under the lock, and the send made outside it.
 *
 * `send_output_shares` and `obtain_output_shares` both record something, release the lock, and then deliver: a task to
 * take a snapshot for the client is left behind. Snapshots, sends and closing connections interleave freely.
 */
module Outputs {
  import opened Base

  type Share = (Bytes, Bytes)

  /** What the execution fixes: its roster, its output clients and how many shares a snapshot needs. */
  datatype OutputConfig = OutputConfig(roster: set<Identity>, clients: seq<Identity>, minShares: u64)

  datatype OutputState = OutputState(shares: ShareTable, waiters: map<Identity, SinkId>)

  datatype OutputError = NotParty | NotOutputClient | OutputSharesAlreadySent | OutputSharesAlreadyRequested

  /** One send: the subscription, the client it belongs to, and each party's share in the snapshot. */
  datatype Send = Send(sink: SinkId, client: Identity, snapshot: map<Identity, Share>)

  type ShareTable = map<(Identity, Identity), Share>

  /** Every share recorded for `client`, by party. The wire carries the values only, in hash order. */
  function SharesFor(shares: ShareTable, client: Identity): map<Identity, Share> {
    map k | k in shares && k.0 == client :: k.1 := shares[k]
  }

  lemma {:induction false} SharesForIs(shares: ShareTable, client: Identity, p: Identity)
    ensures p in SharesFor(shares, client) <==> (client, p) in shares
    ensures p in SharesFor(shares, client) ==> SharesFor(shares, client)[p] == shares[(client, p)]
  {
    if (client, p) in shares {
      assert (client, p).1 in SharesFor(shares, client);
    }
  }

  lemma {:induction false} SharesForOther(shares: ShareTable, party: Identity, client: Identity, share: Share,
                                          other: Identity)
    requires other != client
    ensures SharesFor(shares[(client, party) := share], other) == SharesFor(shares, other)
  {
    var more := shares[(client, party) := share];
    forall p ensures p in SharesFor(more, other) <==> p in SharesFor(shares, other)
             ensures p in SharesFor(more, other) ==> SharesFor(more, other)[p] == SharesFor(shares, other)[p]
    {
      SharesForIs(more, other, p);
      SharesForIs(shares, other, p);
    }
    hide SharesFor;
  }

  // ---------------------------------------------------------------- lock sections

  function RecordShare(c: OutputConfig, o: OutputState, party: Identity, client: Identity, share: Share)
    : (r: (Result<(), OutputError>, OutputState))
    ensures forall k :: k in o.shares ==> k in r.1.shares && r.1.shares[k] == o.shares[k]
  {
    if party !in c.roster then (Err(NotParty), o)
    else if client !in c.clients then (Err(NotOutputClient), o)
    else if (client, party) in o.shares then (Err(OutputSharesAlreadySent), o)
    else (Ok(()), o.(shares := o.shares[(client, party) := share]))
  }

  predicate HasOpenWaiter(o: OutputState, client: Identity, closed: set<SinkId>) {
    client in o.waiters && o.waiters[client] !in closed
  }

  /** The check repeated after the handshake, and the registration that follows it. */
  function RegisterWaiter(c: OutputConfig, o: OutputState, client: Identity, sink: SinkId, closed: set<SinkId>)
    : (r: (Result<(), OutputError>, OutputState))
    ensures r.1.shares == o.shares
  {
    if client !in c.clients then (Err(NotOutputClient), o)
    else if HasOpenWaiter(o, client, closed) then (Err(OutputSharesAlreadyRequested), o)
    else (Ok(()), o.(waiters := o.waiters[client := sink]))
  }

  /** `ready_output_snapshot`: forget a closed waiter, wait for the threshold, else hand out everything recorded. */
  function ReadySnapshot(c: OutputConfig, o: OutputState, client: Identity, closed: set<SinkId>)
    : (r: (Option<Send>, OutputState))
    ensures r.1.shares == o.shares
  {
    if client !in o.waiters then (None, o)
    else if o.waiters[client] in closed then (None, o.(waiters := o.waiters - {client}))
    else if |SharesFor(o.shares, client)| < c.minShares then (None, o)
    else (Some(Send(o.waiters[client], client, SharesFor(o.shares, client))), o)
  }

  /** After a failed send: drop the waiter unless it has been replaced meanwhile. */
  function DropWaiter(o: OutputState, s: Send): (r: OutputState)
    ensures r.shares == o.shares
  {
    if s.client in o.waiters && o.waiters[s.client] == s.sink then o.(waiters := o.waiters - {s.client}) else o
  }

  /** The same lock sections on the two mutable tables. */
  class OutputTables {
    var outputShares: ShareTable
    var outputSinks: map<Identity, SinkId>

    ghost function State(): OutputState
      reads this
    {
      OutputState(outputShares, outputSinks)
    }

    constructor ()
      ensures State() == OutputState(map[], map[])
    {
      outputShares, outputSinks := map[], map[];
    }

    method SendOutputShares(c: OutputConfig, party: Identity, client: Identity, share: Share)
      returns (r: Result<(), OutputError>)
      modifies this`outputShares
      ensures (r, State()) == old(RecordShare(c, State(), party, client, share))
    {
      if party !in c.roster {
        return Err(NotParty);
      }
      if client !in c.clients {
        return Err(NotOutputClient);
      }
      if (client, party) in outputShares {
        return Err(OutputSharesAlreadySent);
      }
      outputShares := outputShares[(client, party) := share];
      r := Ok(());
    }

    method ObtainOutputShares(c: OutputConfig, client: Identity, sink: SinkId, closed: set<SinkId>)
      returns (r: Result<(), OutputError>)
      modifies this`outputSinks
      ensures (r, State()) == old(RegisterWaiter(c, State(), client, sink, closed))
    {
      if client !in c.clients {
        return Err(NotOutputClient);
      }
      if client in outputSinks && outputSinks[client] !in closed {
        return Err(OutputSharesAlreadyRequested);
      }
      outputSinks := outputSinks[client := sink];
      r := Ok(());
    }

    method ReadyOutputSnapshot(c: OutputConfig, client: Identity, closed: set<SinkId>) returns (send: Option<Send>)
      modifies this`outputSinks
      ensures (send, State()) == old(ReadySnapshot(c, State(), client, closed))
    {
      if client !in outputSinks {
        return None;
      }
      var waiter := outputSinks[client];
      if waiter in closed {
        outputSinks := outputSinks - {client};
        return None;
      }
      var shares := map k | k in outputShares && k.0 == client :: k.1 := outputShares[k];
      assert shares == SharesFor(State().shares, client);
      if |shares| < c.minShares {
        return None;
      }
      send := Some(Send(waiter, client, shares));
    }

    method DropAfterFailedSend(s: Send)
      modifies this`outputSinks
      ensures State() == old(DropWaiter(State(), s))
    {
      if s.client in outputSinks && outputSinks[s.client] == s.sink {
        outputSinks := outputSinks - {s.client};
      }
    }
  }

  // ---------------------------------------------------------------- runs

  datatype OutputWorld = OutputWorld(
    o: OutputState, nextSink: SinkId, closed: set<SinkId>, tasks: multiset<Identity>, inFlight: multiset<Send>,
      sent: set<Send>)

  datatype OutputAction =
    | PartySends(party: Identity, client: Identity, share: Share)
    | ClientObtains(client: Identity)
    | TakeSnapshot(client: Identity)
    | SendFinished(send: Send, ok: bool)
    | CloseSink(sink: SinkId)

  const OutputStart := OutputWorld(OutputState(map[], map[]), 0, {}, multiset{}, multiset{}, {})

  function OutputStep(c: OutputConfig, w: OutputWorld, a: OutputAction): OutputWorld {
    match a
    case PartySends(party, client, share) =>
      var r := RecordShare(c, w.o, party, client, share);
      if r.0.Ok? then w.(o := r.1, tasks := w.tasks + multiset{client}) else w
    case ClientObtains(client) =>
      var r := RegisterWaiter(c, w.o, client, w.nextSink, w.closed);
      var w1 := w.(nextSink := w.nextSink + 1);
      if r.0.Ok? then w1.(o := r.1, tasks := w.tasks + multiset{client}) else w1
    case TakeSnapshot(client) =>
      if client !in w.tasks then w
      else
        var r := ReadySnapshot(c, w.o, client, w.closed);
        w.(o := r.1, tasks := w.tasks - multiset{client},
           inFlight := if r.0.Some? then w.inFlight + multiset{r.0.value} else w.inFlight)
    case SendFinished(send, ok) =>
      if send !in w.inFlight then w
      else if ok then w.(inFlight := w.inFlight - multiset{send}, sent := w.sent + {send})
      else w.(inFlight := w.inFlight - multiset{send}, o := DropWaiter(w.o, send))
    case CloseSink(sink) => w.(closed := w.closed + {sink})
  }

  function OutputRun(c: OutputConfig, actions: seq<OutputAction>): OutputWorld {
    if actions == [] then OutputStart
    else OutputStep(c, OutputRun(c, actions[..|actions| - 1]), actions[|actions| - 1])
  }

  /** A snapshot holds enough shares, each from a roster party and still the one recorded for this client. */
  ghost predicate GoodSend(c: OutputConfig, shares: ShareTable, s: Send) {
    && s.client in c.clients
    && |s.snapshot| >= c.minShares
    && (forall p :: p in s.snapshot ==>
          p in c.roster && (s.client, p) in shares && shares[(s.client, p)] == s.snapshot[p])
  }

  /** Someone still owes this client a snapshot, or one with every recorded share is on the way to it or delivered. */
  ghost predicate Covered(w: OutputWorld, client: Identity)
    requires client in w.o.waiters
  {
    var s := Send(w.o.waiters[client], client, SharesFor(w.o.shares, client));
    client in w.tasks || s in w.inFlight || s in w.sent
  }

  ghost predicate SendsOk(c: OutputConfig, w: OutputWorld) {
    (forall s :: s in w.inFlight ==> GoodSend(c, w.o.shares, s))
      && (forall s :: s in w.sent ==> GoodSend(c, w.o.shares, s))
  }

  ghost predicate RecordsOk(c: OutputConfig, o: OutputState) {
    && (forall k :: k in o.shares ==> k.0 in c.clients && k.1 in c.roster)
    && (forall client :: client in o.waiters ==> client in c.clients)
  }

  ghost predicate CoverageOk(c: OutputConfig, w: OutputWorld) {
    forall client :: HasOpenWaiter(w.o, client, w.closed) && |SharesFor(w.o.shares, client)| >= c.minShares
      ==> Covered(w, client)
  }

  ghost predicate OutputOk(c: OutputConfig, w: OutputWorld) {
    SendsOk(c, w) && RecordsOk(c, w.o) && CoverageOk(c, w)
  }

  lemma {:induction false} GoodSendStays(c: OutputConfig, shares: ShareTable, s: Send, k: (Identity, Identity),
                                         share: Share)
    requires GoodSend(c, shares, s) && k !in shares
    ensures GoodSend(c, shares[k := share], s)
  {
  }

  lemma {:induction false} PartySendsKeeps(c: OutputConfig, w: OutputWorld, party: Identity, client: Identity,
                                           share: Share)
    requires OutputOk(c, w)
    ensures OutputOk(c, OutputStep(c, w, PartySends(party, client, share)))
  {
    hide SharesFor, GoodSend;
    var w' := OutputStep(c, w, PartySends(party, client, share));
    if w' != w {
      var k := (client, party);
      assert w'.o.shares == w.o.shares[k := share] && w'.o.waiters == w.o.waiters;
      forall s | s in w.inFlight || s in w.sent ensures GoodSend(c, w'.o.shares, s) {
        GoodSendStays(c, w.o.shares, s, k, share);
      }
      forall x | HasOpenWaiter(w'.o, x, w'.closed)
        && |SharesFor(w'.o.shares, x)| >= c.minShares ensures Covered(w', x) {
        if x != client {
          SharesForOther(w.o.shares, party, client, share, x);
          assert Covered(w, x);
        }
      }
    }
  }

  lemma {:induction false} ClientObtainsKeeps(c: OutputConfig, w: OutputWorld, client: Identity)
    requires OutputOk(c, w)
    ensures OutputOk(c, OutputStep(c, w, ClientObtains(client)))
  {
    hide SharesFor, GoodSend;
    var w' := OutputStep(c, w, ClientObtains(client));
    assert w'.o.shares == w.o.shares;
    forall x | HasOpenWaiter(w'.o, x, w'.closed) && |SharesFor(w'.o.shares, x)| >= c.minShares ensures Covered(w', x) {
      if x != client || w'.o == w.o {
        assert Covered(w, x);
      }
    }
  }

  lemma {:induction false} SnapshotIsGood(c: OutputConfig, o: OutputState, client: Identity, sink: SinkId)
    requires RecordsOk(c, o) && client in c.clients && |SharesFor(o.shares, client)| >= c.minShares
    ensures GoodSend(c, o.shares, Send(sink, client, SharesFor(o.shares, client)))
  {
    hide SharesFor;
    forall p | p in SharesFor(o.shares, client)
      ensures p in c.roster && (client, p) in o.shares && o.shares[(client, p)] == SharesFor(o.shares, client)[p]
    {
      SharesForIs(o.shares, client, p);
      assert (client, p) in o.shares;
    }
  }

  lemma {:induction false} SnapshotSends(c: OutputConfig, w: OutputWorld, client: Identity)
    requires SendsOk(c, w) && RecordsOk(c, w.o)
    ensures SendsOk(c, OutputStep(c, w, TakeSnapshot(client)))
  {
    hide SharesFor, GoodSend;
    var made := ReadySnapshot(c, w.o, client, w.closed).0;
    if made.Some? {
      SnapshotIsGood(c, w.o, client, made.value.sink);
    }
  }

  lemma {:induction false} SnapshotCovers(c: OutputConfig, w: OutputWorld, client: Identity, x: Identity)
    requires CoverageOk(c, w)
    requires var w' := OutputStep(c, w, TakeSnapshot(client));
      HasOpenWaiter(w'.o, x, w'.closed) && |SharesFor(w'.o.shares, x)| >= c.minShares
    ensures Covered(OutputStep(c, w, TakeSnapshot(client)), x)
  {
    hide SharesFor;
    assert Covered(w, x);
  }

  lemma {:induction false} TakeSnapshotKeeps(c: OutputConfig, w: OutputWorld, client: Identity)
    requires OutputOk(c, w)
    ensures OutputOk(c, OutputStep(c, w, TakeSnapshot(client)))
  {
    var w' := OutputStep(c, w, TakeSnapshot(client));
    assert RecordsOk(c, w'.o) by { hide SharesFor; }
    SnapshotSends(c, w, client);
    hide SharesFor, SendsOk, RecordsOk, Covered, OutputStep;
    forall x | HasOpenWaiter(w'.o, x, w'.closed) && |SharesFor(w'.o.shares, x)| >= c.minShares ensures Covered(w', x) {
      SnapshotCovers(c, w, client, x);
    }
  }

  lemma {:induction false} SendFinishedKeeps(c: OutputConfig, w: OutputWorld, send: Send, ok: bool)
    requires OutputOk(c, w)
    ensures OutputOk(c, OutputStep(c, w, SendFinished(send, ok)))
  {
    hide SharesFor, GoodSend;
    var w' := OutputStep(c, w, SendFinished(send, ok));
    assert w'.o.shares == w.o.shares;
    forall x | HasOpenWaiter(w'.o, x, w'.closed) && |SharesFor(w'.o.shares, x)| >= c.minShares ensures Covered(w', x) {
      assert Covered(w, x);
    }
  }

  lemma {:induction false} StepKeepsOutputs(c: OutputConfig, w: OutputWorld, a: OutputAction)
    requires OutputOk(c, w)
    ensures OutputOk(c, OutputStep(c, w, a))
  {
    hide OutputOk, OutputStep;
    match a
    case PartySends(party, client, share) => PartySendsKeeps(c, w, party, client, share);
    case ClientObtains(client) => ClientObtainsKeeps(c, w, client);
    case TakeSnapshot(client) => TakeSnapshotKeeps(c, w, client);
    case SendFinished(send, ok) => SendFinishedKeeps(c, w, send, ok);
    case CloseSink(sink) => CloseSinkKeeps(c, w, sink);
  }

  lemma {:induction false} CloseSinkKeeps(c: OutputConfig, w: OutputWorld, sink: SinkId)
    requires OutputOk(c, w)
    ensures OutputOk(c, OutputStep(c, w, CloseSink(sink)))
  {
    hide SharesFor, GoodSend;
    var w' := OutputStep(c, w, CloseSink(sink));
    forall x | HasOpenWaiter(w'.o, x, w'.closed) && |SharesFor(w'.o.shares, x)| >= c.minShares ensures Covered(w', x) {
      assert Covered(w, x);
    }
  }

  lemma {:induction false} AlwaysOutputs(c: OutputConfig, actions: seq<OutputAction>)
    ensures OutputOk(c, OutputRun(c, actions))
  {
    if actions != [] {
      hide OutputOk, OutputStep;
      AlwaysOutputs(c, actions[..|actions| - 1]);
      StepKeepsOutputs(c, OutputRun(c, actions[..|actions| - 1]), actions[|actions| - 1]);
    }
  }

  lemma {:induction false} StepKeepsShares(c: OutputConfig, w: OutputWorld, a: OutputAction, k: (Identity, Identity))
    requires k in w.o.shares
    ensures k in OutputStep(c, w, a).o.shares && OutputStep(c, w, a).o.shares[k] == w.o.shares[k]
  {
    hide RecordShare, RegisterWaiter, ReadySnapshot, DropWaiter;
  }

  /** A recorded share is never replaced or dropped for the rest of the run. */
  lemma {:induction false} SharesAreWriteOnce(c: OutputConfig, before: seq<OutputAction>, later: seq<OutputAction>,
                                              k: (Identity, Identity))
    requires k in OutputRun(c, before).o.shares
    ensures k in OutputRun(c, before + later).o.shares
    ensures OutputRun(c, before + later).o.shares[k] == OutputRun(c, before).o.shares[k]
  {
    hide OutputStep;
    if later == [] {
      assert before + later == before;
    } else {
      var front := later[..|later| - 1];
      SharesAreWriteOnce(c, before, front, k);
      assert (before + later)[..|before + later| - 1] == before + front;
      StepKeepsShares(c, OutputRun(c, before + front), later[|later| - 1], k);
    }
  }

  /**
   * Every snapshot that was sent holds at least the threshold of shares, at most one per roster party, each recorded
   * for that very client; and it is a snapshot of write-once records.
   */
  lemma {:induction false} SentSnapshotsAreSound(c: OutputConfig, actions: seq<OutputAction>, s: Send)
    requires s in OutputRun(c, actions).sent
    ensures var o := OutputRun(c, actions).o;
      && s.client in c.clients && |s.snapshot| >= c.minShares && s.snapshot.Keys <= c.roster
      && forall p :: p in s.snapshot ==> (s.client, p) in o.shares && o.shares[(s.client, p)] == s.snapshot[p]
  {
    AlwaysOutputs(c, actions);
    assert GoodSend(c, OutputRun(c, actions).o.shares, s);
    hide OutputRun;
  }

  /**
   * Once no snapshot is owed to a client and none is on its way to it, an open waiter past the threshold has been sent
   * a snapshot with every share recorded so far: a share that arrives is never lost between two handlers.
   */
  lemma {:induction false} NoShareIsLost(c: OutputConfig, actions: seq<OutputAction>, client: Identity)
    requires var w := OutputRun(c, actions);
      && HasOpenWaiter(w.o, client, w.closed) && |SharesFor(w.o.shares, client)| >= c.minShares
      && client !in w.tasks && (forall s :: s in w.inFlight ==> s.client != client)
    ensures var w := OutputRun(c, actions);
      Send(w.o.waiters[client], client, SharesFor(w.o.shares, client)) in w.sent
  {
    AlwaysOutputs(c, actions);
    assert Covered(OutputRun(c, actions), client);
    hide OutputRun, SharesFor, GoodSend;
  }

  /** The step closes the subscription or reports a failed send to it. */
  predicate Disturbs(a: OutputAction, sink: SinkId) {
    match a
    case SendFinished(send, ok) => send.sink == sink && !ok
    case CloseSink(closing) => closing == sink
    case _ => false
  }

  ghost predicate WaitsOn(w: OutputWorld, client: Identity, sink: SinkId) {
    client in w.o.waiters && w.o.waiters[client] == sink && sink !in w.closed
  }

  lemma {:induction false} ObtainKeepsWaiter(c: OutputConfig, w: OutputWorld, other: Identity, client: Identity,
                                             sink: SinkId)
    requires WaitsOn(w, client, sink)
    ensures WaitsOn(OutputStep(c, w, ClientObtains(other)), client, sink)
  {
  }

  lemma {:induction false} SnapshotKeepsWaiter(c: OutputConfig, w: OutputWorld, other: Identity, client: Identity,
                                               sink: SinkId)
    requires WaitsOn(w, client, sink)
    ensures WaitsOn(OutputStep(c, w, TakeSnapshot(other)), client, sink)
  {
    hide SharesFor;
    assert ReadySnapshot(c, w.o, other, w.closed).1.waiters
        == if other in w.o.waiters && w.o.waiters[other] in w.closed then w.o.waiters - {other} else w.o.waiters;
    hide ReadySnapshot;
  }

  lemma {:induction false} SendKeepsWaiter(c: OutputConfig, w: OutputWorld, send: Send, ok: bool, client: Identity,
                                           sink: SinkId)
    requires WaitsOn(w, client, sink) && (send.sink == sink ==> ok)
    ensures WaitsOn(OutputStep(c, w, SendFinished(send, ok)), client, sink)
  {
  }

  lemma {:induction false} StepKeepsWaiter(c: OutputConfig, w: OutputWorld, a: OutputAction, client: Identity,
                                           sink: SinkId)
    requires WaitsOn(w, client, sink) && !Disturbs(a, sink)
    ensures WaitsOn(OutputStep(c, w, a), client, sink)
  {
    match a
    case PartySends(party, other, share) =>
      assert RecordShare(c, w.o, party, other, share).1.waiters == w.o.waiters;
      hide RecordShare;
    case ClientObtains(other) => hide OutputStep, WaitsOn; ObtainKeepsWaiter(c, w, other, client, sink);
    case TakeSnapshot(other) => hide OutputStep, WaitsOn; SnapshotKeepsWaiter(c, w, other, client, sink);
    case SendFinished(send, ok) => hide OutputStep, WaitsOn; SendKeepsWaiter(c, w, send, ok, client, sink);
    case CloseSink(_) =>
  }

  lemma {:induction false} WaiterStays(c: OutputConfig, before: seq<OutputAction>, later: seq<OutputAction>,
                                       client: Identity, sink: SinkId)
    requires WaitsOn(OutputRun(c, before), client, sink)
    requires forall k :: 0 <= k < |later| ==> !Disturbs(later[k], sink)
    ensures WaitsOn(OutputRun(c, before + later), client, sink)
  {
    hide OutputStep, WaitsOn;
    if later == [] {
      assert before + later == before;
    } else {
      var front := later[..|later| - 1];
      WaiterStays(c, before, front, client, sink);
      assert (before + later)[..|before + later| - 1] == before + front;
      StepKeepsWaiter(c, OutputRun(c, before + front), later[|later| - 1], client, sink);
    }
  }

  /**
   * A client that waits on an open subscription and is not disturbed has been sent every share recorded for it, as soon
   * as the threshold is met and no delivery to it is owed or on its way, however the handlers interleaved.
   */
  lemma {:induction false} UndisturbedClientGetsEverything(c: OutputConfig, before: seq<OutputAction>,
                                                           later: seq<OutputAction>, client: Identity, sink: SinkId)
    requires WaitsOn(OutputRun(c, before), client, sink)
    requires forall k :: 0 <= k < |later| ==> !Disturbs(later[k], sink)
    requires var w := OutputRun(c, before + later);
      && |SharesFor(w.o.shares, client)| >= c.minShares
      && client !in w.tasks && (forall s :: s in w.inFlight ==> s.client != client)
    ensures var w := OutputRun(c, before + later); Send(sink, client, SharesFor(w.o.shares, client)) in w.sent
  {
    WaiterStays(c, before, later, client, sink);
    hide OutputRun, SharesFor;
    NoShareIsLost(c, before + later, client);
  }
}
