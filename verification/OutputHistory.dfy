/** Output shares traced back to what parties sent and clients asked for. */
module OutputHistory {
  import opened Base
  import opened Topology
  import opened Assignments
  import opened ExecutionModel
  import opened Startup
  import opened Outputs

  // ---------------------------------------------------------------- which share is recorded

  predicate SendsFor(a: OutputAction, client: Identity, party: Identity) {
    a.PartySends? && a.party == party && a.client == client
  }

  /** Action `n` is the first in which `party` sends a share for `client`. */
  ghost predicate FirstSend(actions: seq<OutputAction>, n: nat, client: Identity, party: Identity) {
    n < |actions| && SendsFor(actions[n], client, party) && forall j :: 0 <= j < n ==>
      !SendsFor(actions[j], client, party)
  }

  ghost predicate EverSent(actions: seq<OutputAction>, client: Identity, party: Identity) {
    exists n :: 0 <= n < |actions| && SendsFor(actions[n], client, party)
  }

  lemma {:induction false} StepRecords(c: OutputConfig, w: OutputWorld, a: OutputAction, client: Identity,
                                       party: Identity)
    ensures var k, o, o' := (client, party), w.o, OutputStep(c, w, a).o;
      && (k in o'.shares <==> k in o.shares || (SendsFor(a, client, party) && party in c.roster && client in c.clients))
      && (k in o.shares ==> o'.shares[k] == o.shares[k])
      && (k in o'.shares && k !in o.shares ==> SendsFor(a, client, party) && o'.shares[k] == a.share)
  {
  }

  lemma {:induction false} SentGrows(actions: seq<OutputAction>, client: Identity, party: Identity)
    requires actions != []
    ensures var front, last := actions[..|actions| - 1], |actions| - 1;
      && (EverSent(actions, client, party) <==>
            (EverSent(front, client, party) || SendsFor(actions[last], client, party)))
      && (forall n: nat :: FirstSend(actions, n, client, party) ==>
            if n < last then FirstSend(front, n, client, party)
            else n == last && !EverSent(front, client, party) && SendsFor(actions[last], client, party))
  {
    var front, last := actions[..|actions| - 1], |actions| - 1;
    assert actions == front + [actions[last]];
    assert forall j :: 0 <= j < last ==> front[j] == actions[j];
    hide SendsFor;
    if SendsFor(actions[last], client, party) { assert EverSent(actions, client, party); }
    if EverSent(front, client, party) {
      var n :| 0 <= n < |front| && SendsFor(front[n], client, party);
      assert SendsFor(actions[n], client, party);
    }
    if EverSent(actions, client, party) && !SendsFor(actions[last], client, party) {
      var n :| 0 <= n < |actions| && SendsFor(actions[n], client, party);
      assert SendsFor(front[n], client, party);
    }
  }

  /**
   * In every run a share is on record for a client and a party exactly when the party is on the roster, the client is
   * an output client and the party has sent it a share; what is on record is the first share it sent, unchanged.
   */
  lemma {:induction false} FirstShareIsRecorded(c: OutputConfig, actions: seq<OutputAction>, client: Identity,
                                                party: Identity)
    ensures var shares := OutputRun(c, actions).o.shares;
      && ((client, party) in shares <==> party in c.roster && client in c.clients && EverSent(actions, client, party))
      && (forall n: nat :: (client, party) in shares && FirstSend(actions, n, client, party) ==>
            shares[(client, party)] == actions[n].share)
  {
    if actions != [] {
      var front, last := actions[..|actions| - 1], |actions| - 1;
      FirstShareIsRecorded(c, front, client, party);
      SentGrows(actions, client, party);
      StepRecords(c, OutputRun(c, front), actions[last], client, party);
      hide OutputStep, EverSent, FirstSend;
      forall n: nat | (client, party) in OutputRun(c, actions).o.shares && FirstSend(actions, n, client, party)
        ensures OutputRun(c, actions).o.shares[(client, party)] == actions[n].share
      {
        if n < last { FirstIsSend(front, n, client, party); }
      }
    }
  }

  lemma {:induction false} FirstIsSend(actions: seq<OutputAction>, n: nat, client: Identity, party: Identity)
    requires FirstSend(actions, n, client, party)
    ensures n < |actions| && SendsFor(actions[n], client, party) && EverSent(actions, client, party)
  {
  }

  /** A client's snapshot holds, for each of its parties, the share that party sent first. */
  lemma {:induction false} SnapshotsHoldFirstShares(c: OutputConfig, actions: seq<OutputAction>, s: Send, p: Identity)
    requires s in OutputRun(c, actions).sent && p in s.snapshot
    ensures p in c.roster && s.client in c.clients && EverSent(actions, s.client, p)
    ensures forall n: nat :: FirstSend(actions, n, s.client, p) ==> s.snapshot[p] == actions[n].share
  {
    hide OutputRun, EverSent, FirstSend;
    SentSnapshotsAreSound(c, actions, s);
    FirstShareIsRecorded(c, actions, s.client, p);
  }

  /** What a party is answered: only roster parties, only for output clients, and only the first time. */
  lemma {:induction false} SendIsAnswered(c: OutputConfig, actions: seq<OutputAction>, party: Identity,
                                          client: Identity, share: Share)
    ensures RecordShare(c, OutputRun(c, actions).o, party, client, share).0
         == if party !in c.roster then Err(OutputError.NotParty)
            else if client !in c.clients then Err(NotOutputClient)
            else if EverSent(actions, client, party) then Err(OutputSharesAlreadySent)
            else Ok(())
  {
    FirstShareIsRecorded(c, actions, client, party);
    hide OutputRun, EverSent;
  }

  // ---------------------------------------------------------------- who waits

  lemma {:induction false} OutputPush(c: OutputConfig, actions: seq<OutputAction>, a: OutputAction)
    ensures OutputRun(c, actions + [a]) == OutputStep(c, OutputRun(c, actions), a)
  {
    assert (actions + [a])[..|actions|] == actions;
  }

  /**
   * What a client is answered and what comes of it, in every run: an output client that asks has a waiter afterwards, a
   * new one unless the one it had is still open, and then it is told so; nobody else gets one.
   */
  lemma {:induction false} ObtainOpensWaiter(c: OutputConfig, actions: seq<OutputAction>, client: Identity)
    ensures var w, w' := OutputRun(c, actions), OutputRun(c, actions + [ClientObtains(client)]);
      var answer := RegisterWaiter(c, w.o, client, w.nextSink, w.closed).0;
      && w'.o.shares == w.o.shares && w'.nextSink == w.nextSink + 1
      && w'.o.waiters - {client} == w.o.waiters - {client}
      && (if client !in c.clients then answer == Err(NotOutputClient) && client !in w'.o.waiters
          else if client in w.o.waiters && w.o.waiters[client] !in w.closed then
            answer == Err(OutputSharesAlreadyRequested) && w'.o == w.o
          else answer == Ok(()) && client in w'.o.waiters && w'.o.waiters[client] == w.nextSink && client in w'.tasks)
  {
    OutputPush(c, actions, ClientObtains(client));
    AlwaysOutputs(c, actions);
    hide OutputRun, SendsOk, CoverageOk;
  }

  /** A failed send frees the client to ask again, unless it already has; a snapshot task forgets a closed waiter. */
  lemma {:induction false} WaitersAreReleased(c: OutputConfig, actions: seq<OutputAction>, s: Send)
    ensures s in OutputRun(c, actions).inFlight ==>
      var o, o' := OutputRun(c, actions).o, OutputRun(c, actions + [SendFinished(s, false)]).o;
      if s.client in o.waiters && o.waiters[s.client] == s.sink then o'.waiters == o.waiters - {s.client} else o' == o
    ensures var w := OutputRun(c, actions);
      var o, o' := w.o, OutputRun(c, actions + [TakeSnapshot(s.client)]).o;
      if s.client in w.tasks && s.client in o.waiters && o.waiters[s.client] in w.closed
      then o'.waiters == o.waiters - {s.client} else o' == o
  {
    OutputPush(c, actions, SendFinished(s, false));
    OutputPush(c, actions, TakeSnapshot(s.client));
    hide OutputRun;
  }

  // ---------------------------------------------------------------- how many shares are enough

  /** What the coordinator of `reg` fixes for its outputs. */
  function OutputsOf(c: Config, reg: Registration): OutputConfig {
    OutputConfig(Roster(c), reg.outputClients, reg.minOutputShares)
  }

  /** Someone outside any `t` parties is among them. */
  ghost predicate EscapesFaults(c: Config, parties: set<Identity>) {
    forall faulty: set<Identity> :: |faulty| <= c.t ==> |parties - faulty| > 0
  }

  lemma {:induction false} EscapesIff(c: Config, parties: set<Identity>)
    ensures EscapesFaults(c, parties) <==> |parties| >= c.t + 1
  {
    if |parties| >= c.t + 1 {
      forall faulty: set<Identity> | |faulty| <= c.t ensures |parties - faulty| > 0 {
        assert parties == (parties - faulty) + (parties * faulty);
        SubsetCard(parties * faulty, faulty);
      }
    } else {
      assert parties - parties == {};
    }
  }

  /** The shares of these parties are enough for the backend. */
  ghost predicate Enough(c: Config, backend: Backend, parties: set<Identity>) {
    match backend
    case HoneyBadger => OutvotesFaults(c, parties)
    case Avss => EscapesFaults(c, parties)
  }

  lemma {:induction false} EnoughIff(c: Config, backend: Backend, parties: set<Identity>)
    ensures |parties| >= MinShares(backend, c.t) <==> Enough(c, backend, parties)
  {
    OutvotesIff(c, parties);
    EscapesIff(c, parties);
    hide OutvotesFaults, EscapesFaults;
  }

  /**
   * A started coordinator hands out exactly the snapshots its backend can use, in every run: whenever a client waits,
   * it is given a snapshot if and only if, for HoneyBadger, the parties that sent it shares outvote any `t` of them,
   * and, for Avss, they include one outside any `t`; and every snapshot ever sent is of that kind.
   */
  lemma {:induction false} SnapshotsAreEnough(c: Config, id: ExecutionId, hash: Bytes, built: Built, backend: Backend,
                                              actions: seq<OutputAction>, client: Identity)
    requires ValidConfig(c) && Total(built.assignment.ranges) < 0x1_0000_0000_0000_0000
    ensures var oc := OutputsOf(c, StartupRegistration(c, id, hash, built, backend));
      var w := OutputRun(oc, actions);
      && (client in w.o.waiters && w.o.waiters[client] !in w.closed ==>
            (ReadySnapshot(oc, w.o, client, w.closed).0.Some? <==>
               Enough(c, backend, SharesFor(w.o.shares, client).Keys)))
      && (forall s :: s in w.sent ==> Enough(c, backend, s.snapshot.Keys))
  {
    var oc := OutputsOf(c, StartupRegistration(c, id, hash, built, backend));
    var w := OutputRun(oc, actions);
    assert oc.minShares == MinShares(backend, c.t);
    hide OutputRun, Enough, OutputsOf, StartupRegistration, MinShares;
    KeysCount(SharesFor(w.o.shares, client));
    EnoughIff(c, backend, SharesFor(w.o.shares, client).Keys);
    forall s | s in w.sent ensures Enough(c, backend, s.snapshot.Keys) {
      SentSnapshotsAreSound(oc, actions, s);
      KeysCount(s.snapshot);
      EnoughIff(c, backend, s.snapshot.Keys);
    }
  }

  lemma {:induction false} KeysCount(snapshot: map<Identity, Share>)
    ensures |snapshot| == |snapshot.Keys|
  {
  }
}
