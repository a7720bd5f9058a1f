/** The order in which parties propose rounds does not matter, as long as no skip edge fires. */
module VoteConfluence {
  import opened Base
  import opened Rounds
  import opened Topology
  import opened ExecutionModel
  import opened ExecutionRuns
  import opened RoundProps

  datatype Ballot = Ballot(party: Identity, next: Round)

  /** The state after a sequence of proposals. */
  function Cast(c: Config, e: Exec, bs: seq<Ballot>): Exec
    requires ValidConfig(c)
  {
    if bs == [] then e
    else Propose(c, Cast(c, e, bs[..|bs| - 1]), bs[|bs| - 1].party, bs[|bs| - 1].next).1
  }

  /** Everyone who ever proposed `r`: what the starting state remembers and all roster ballots, early or late. */
  function AllVotes(c: Config, e: Exec, bs: seq<Ballot>, r: Round): set<Identity> {
    Votes(e, r) + (set b | b in bs && b.next == r && b.party in c.nodes :: b.party)
  }

  /** `r` has its quorum counting every ballot, and nothing holds it back. */
  ghost predicate Backed(c: Config, e: Exec, bs: seq<Ballot>, r: Round)
    requires ValidConfig(c)
  {
    r != Idle && |AllVotes(c, e, bs, r)| >= TransitionQuorum(c) && (r == MPCExecution ==> AllSubmitted(e))
  }

  /** `end` closes the longest chain of backed rounds after the starting round. It mentions no order. */
  ghost predicate IsChainEnd(c: Config, e: Exec, bs: seq<Ballot>, end: Round)
    requires ValidConfig(c)
  {
    && RoundIndex(e.round) <= RoundIndex(end)
    && (forall r :: RoundIndex(e.round) < RoundIndex(r) <= RoundIndex(end) ==> Backed(c, e, bs, r))
    && (forall r :: RoundIndex(r) == RoundIndex(end) + 1 ==> !Backed(c, e, bs, r))
  }

  /** No round between the two states was jumped over. */
  ghost predicate NoSkip(e: Exec, e': Exec) {
    forall r :: RoundIndex(e.round) < RoundIndex(r) <= RoundIndex(e'.round) ==> r in e'.events
  }

  // ---------------------------------------------------------------- what the votes remember

  /** Votes for rounds still ahead are all kept; votes for passed rounds may be missing but never invented. */
  ghost predicate Remembers(c: Config, e: Exec, bs: seq<Ballot>, e': Exec) {
    && e'.masked == e.masked
    && RoundIndex(e.round) <= RoundIndex(e'.round)
    && (forall r :: r in e.events ==> r in e'.events)
    && (forall r :: Votes(e', r) <= AllVotes(c, e, bs, r))
    && (forall r :: RoundIndex(r) > RoundIndex(e'.round) ==> Votes(e', r) == AllVotes(c, e, bs, r))
  }

  lemma {:induction false} AllVotesOne(c: Config, e: Exec, bs: seq<Ballot>, b: Ballot, r: Round)
    ensures AllVotes(c, e, bs + [b], r)
         == AllVotes(c, e, bs, r) + (if b.next == r && b.party in c.nodes then {b.party} else {})
  {
  }

  lemma {:induction false} AdvanceRemembers(e: Exec, quorum: nat, head: Identity)
    ensures var e' := Advance(e, quorum, head).0;
      && e'.masked == e.masked && e'.votes == e.votes && RoundIndex(e.round) <= RoundIndex(e'.round)
      && (forall r :: r in e.events ==> r in e'.events)
    decreases 6 - RoundIndex(e.round)
  {
    NextIsLater(e, quorum);
    var next := NextQuorumRound(e, quorum);
    if next.Some? && !Blocked(e, next.value) {
      AdvanceRemembers(Transition(e, next.value, head), quorum, head);
    }
  }

  lemma {:induction false} BallotDropped(c: Config, e: Exec, bs: seq<Ballot>, e': Exec, b: Ballot)
    requires Remembers(c, e, bs, e')
    requires b.party !in c.nodes || RoundIndex(b.next) <= RoundIndex(e'.round)
    ensures Remembers(c, e, bs + [b], e')
  {
    forall r ensures AllVotes(c, e, bs + [b], r)
         == AllVotes(c, e, bs, r) + (if b.next == r && b.party in c.nodes then {b.party} else {}) {
      AllVotesOne(c, e, bs, b, r);
    }
    hide AllVotes, Votes;
  }

  lemma {:induction false} BallotCounted(c: Config, e: Exec, bs: seq<Ballot>, e': Exec, b: Ballot)
    requires Remembers(c, e, bs, e')
    requires b.party in c.nodes && RoundIndex(b.next) > RoundIndex(e'.round)
    ensures Remembers(c, e, bs + [b], Voted(e', b.party, b.next))
  {
    var voted := Voted(e', b.party, b.next);
    forall r ensures AllVotes(c, e, bs + [b], r) == AllVotes(c, e, bs, r) + (if b.next == r then {b.party} else {})
             ensures Votes(voted, r) == Votes(e', r) + (if b.next == r then {b.party} else {}) {
      AllVotesOne(c, e, bs, b, r);
    }
    hide AllVotes, Votes;
  }

  lemma {:induction false} LaterRemembers(c: Config, e: Exec, bs: seq<Ballot>, x: Exec, y: Exec)
    requires Remembers(c, e, bs, x)
    requires y.masked == x.masked && y.votes == x.votes && RoundIndex(x.round) <= RoundIndex(y.round)
    requires forall r :: r in x.events ==> r in y.events
    ensures Remembers(c, e, bs, y)
  {
    assert forall r :: Votes(y, r) == Votes(x, r);
    hide AllVotes, Votes;
  }

  lemma {:induction false} BallotRemembers(c: Config, e: Exec, bs: seq<Ballot>, e': Exec, b: Ballot)
    requires ValidConfig(c) && Remembers(c, e, bs, e')
    ensures Remembers(c, e, bs + [b], Propose(c, e', b.party, b.next).1)
  {
    hide Remembers, Advance;
    if b.party !in c.nodes || RoundIndex(b.next) <= RoundIndex(e'.round) {
      BallotDropped(c, e, bs, e', b);
    } else {
      var voted := Voted(e', b.party, b.next);
      BallotCounted(c, e, bs, e', b);
      AdvanceRemembers(voted, TransitionQuorum(c), c.nodes[0]);
      LaterRemembers(c, e, bs + [b], voted, Advance(voted, TransitionQuorum(c), c.nodes[0]).0);
    }
  }

  lemma {:induction false} CastRemembers(c: Config, e: Exec, bs: seq<Ballot>)
    requires ValidConfig(c) && RoundsOk(c, e) && Settled(e, TransitionQuorum(c))
    ensures var e' := Cast(c, e, bs);
      Remembers(c, e, bs, e') && RoundsOk(c, e') && Settled(e', TransitionQuorum(c))
  {
    if bs == [] {
      hide Settled, RoundsOk;
    } else {
      hide Remembers, Settled, RoundsOk, Propose;
      var front, b := bs[..|bs| - 1], bs[|bs| - 1];
      CastRemembers(c, e, front);
      BallotRemembers(c, e, front, Cast(c, e, front), b);
      VoteKeepsRounds(c, Cast(c, e, front), b.party, b.next);
      assert front + [b] == bs;
    }
  }

  // ---------------------------------------------------------------- confluence

  lemma {:induction false} PassedHasQuorum(c: Config, e: Exec, bs: seq<Ballot>, e': Exec, r: Round)
    requires ValidConfig(c) && Remembers(c, e, bs, e') && VotesOk(c, e') && r in e'.events
    ensures |AllVotes(c, e, bs, r)| >= TransitionQuorum(c)
  {
    assert Votes(e', r) == e'.votes[r] && |e'.votes[r]| >= TransitionQuorum(c);
    assert Votes(e', r) <= AllVotes(c, e, bs, r);
    hide AllVotes, Remembers, VotesOk, ValidConfig;
    SubsetCard(Votes(e', r), AllVotes(c, e, bs, r));
  }

  lemma {:induction false} PassedMpcIsFilled(e: Exec, e': Exec)
    requires PathOk(e) && FilledOk(e') && NoSkip(e, e') && (forall r :: r in e.events ==> r in e'.events)
    requires RoundIndex(e.round) < RoundIndex(MPCExecution) <= RoundIndex(e'.round)
    ensures AllSubmitted(e')
  {
    hide AllSubmitted;
    assert InputCollection in e'.events by {
      if e.round == InputCollection {
        assert InputCollection in e.events;
      } else {
        assert RoundIndex(e.round) < RoundIndex(InputCollection) <= RoundIndex(e'.round);
      }
    }
  }

  lemma {:induction false} PassedIsBacked(c: Config, e: Exec, bs: seq<Ballot>, e': Exec, r: Round)
    requires ValidConfig(c) && Remembers(c, e, bs, e') && RoundsOk(c, e) && RoundsOk(c, e') && NoSkip(e, e')
    requires RoundIndex(e.round) < RoundIndex(r) <= RoundIndex(e'.round)
    ensures Backed(c, e, bs, r)
  {
    hide VotesOk, PathOk, FilledOk, AllVotes;
    assert r in e'.events;
    PassedHasQuorum(c, e, bs, e', r);
    if r == MPCExecution {
      PassedMpcIsFilled(e, e');
    }
  }

  lemma {:induction false} NextIsNotBacked(c: Config, e: Exec, bs: seq<Ballot>, e': Exec, r: Round)
    requires ValidConfig(c) && Remembers(c, e, bs, e') && Settled(e', TransitionQuorum(c))
    requires RoundIndex(r) == RoundIndex(e'.round) + 1
    ensures !Backed(c, e, bs, r)
  {
    hide Settled, ValidConfig, AllVotes;
    assert Votes(e', r) == AllVotes(c, e, bs, r);
    assert AllSubmitted(e) == AllSubmitted(e');
    hide Remembers, AllSubmitted;
    StepFollows(e'.round, r);
    hide Follows, TransitionQuorum;
    if Backed(c, e, bs, r) {
      assert Supported(e', TransitionQuorum(c), r);
      SettledMeans(e', TransitionQuorum(c), r);
    }
  }

  lemma {:induction false} StepFollows(current: Round, next: Round)
    requires RoundIndex(next) == RoundIndex(current) + 1
    ensures Follows(current, next)
  {
  }

  /** Without a skip, the round reached is the end of the longest backed chain, whatever the order of the ballots. */
  lemma {:induction false} CastReachesChainEnd(c: Config, e: Exec, bs: seq<Ballot>)
    requires ValidConfig(c) && RoundsOk(c, e) && Settled(e, TransitionQuorum(c)) && NoSkip(e, Cast(c, e, bs))
    ensures IsChainEnd(c, e, bs, Cast(c, e, bs).round)
  {
    CastRemembers(c, e, bs);
    var e' := Cast(c, e, bs);
    hide Cast, RoundsOk, Settled, NoSkip, Backed;
    assert RoundIndex(e.round) <= RoundIndex(e'.round);
    hide Remembers;
    forall r | RoundIndex(e.round) < RoundIndex(r) <= RoundIndex(e'.round) ensures Backed(c, e, bs, r) {
      PassedIsBacked(c, e, bs, e', r);
    }
    forall r | RoundIndex(r) == RoundIndex(e'.round) + 1 ensures !Backed(c, e, bs, r) {
      NextIsNotBacked(c, e, bs, e', r);
    }
  }

  /** The votes depend on which ballots were cast, not on their order. */
  lemma {:induction false} VotesSame(c: Config, e: Exec, bs: seq<Ballot>, ds: seq<Ballot>, r: Round)
    requires Elements(bs) == Elements(ds)
    ensures AllVotes(c, e, bs, r) == AllVotes(c, e, ds, r)
  {
    forall b: Ballot ensures b in bs <==> b in ds {
      assert b in bs <==> b in Elements(bs);
      assert b in ds <==> b in Elements(ds);
    }
    hide Votes, Elements;
  }

  lemma {:induction false} BackedSame(c: Config, e: Exec, bs: seq<Ballot>, ds: seq<Ballot>, r: Round)
    requires ValidConfig(c) && Elements(bs) == Elements(ds)
    ensures Backed(c, e, bs, r) == Backed(c, e, ds, r)
  {
    hide AllVotes, AllSubmitted, ValidConfig, Elements, TransitionQuorum;
    VotesSame(c, e, bs, ds, r);
  }

  lemma {:induction false} ChainEndUnique(c: Config, e: Exec, bs: seq<Ballot>, ds: seq<Ballot>, x: Round, y: Round)
    requires ValidConfig(c) && Elements(bs) == Elements(ds) && IsChainEnd(c, e, bs, x) && IsChainEnd(c, e, ds, y)
    ensures x == y
  {
    hide Backed, ValidConfig, Elements;
    forall r ensures Backed(c, e, bs, r) == Backed(c, e, ds, r) { BackedSame(c, e, bs, ds, r); }
    if RoundIndex(x) < RoundIndex(y) {
      OneAbove(x);
    } else if RoundIndex(y) < RoundIndex(x) {
      OneAbove(y);
    }
  }

  lemma {:induction false} OneAbove(x: Round)
    requires RoundIndex(x) < 6
    ensures exists r :: RoundIndex(r) == RoundIndex(x) + 1
  {
    var r := ORDERED_ROUNDS[RoundIndex(x)];
    assert RoundIndex(r) == RoundIndex(x) + 1;
  }

  lemma {:induction false} RunOfVotes(c: Config, w: World, bs: seq<Ballot>)
    requires ValidConfig(c) && Sized(w.e) && w.flight.None?
    ensures var w' := Run(c, w, AsActions(bs)); w'.e == Cast(c, w.e, bs) && w'.flight.None?
  {
    if bs != [] {
      var front, b := bs[..|bs| - 1], bs[|bs| - 1];
      RunOfVotes(c, w, front);
      assert AsActions(bs)[..|bs| - 1] == AsActions(front);
      assert AsActions(bs)[|bs| - 1] == Vote(b.party, b.next);
      hide Propose, Notify;
    }
  }

  function AsActions(bs: seq<Ballot>): (r: seq<Action>)
    ensures |r| == |bs|
  {
    seq(|bs|, k requires 0 <= k < |bs| => Vote(bs[k].party, bs[k].next))
  }

  /**
   * From any reachable state with no submission in flight, two orders of the same ballots in which no skip edge fires
   * end in the same round: the end of the longest backed chain. Dropped late votes and kept early votes make no
   * difference, since the chain counts them all.
   */
  lemma {:induction false} VoteOrderIrrelevant(c: Config, reg: Registration, actions: seq<Action>, bs: seq<Ballot>,
                                               ds: seq<Ballot>)
    requires Accepted(c, reg) && After(c, reg, actions).flight.None? && Elements(bs) == Elements(ds)
    requires NoSkip(After(c, reg, actions).e, After(c, reg, actions + AsActions(bs)).e)
    requires NoSkip(After(c, reg, actions).e, After(c, reg, actions + AsActions(ds)).e)
    ensures After(c, reg, actions + AsActions(bs)).e.round == After(c, reg, actions + AsActions(ds)).e.round
    ensures IsChainEnd(c, After(c, reg, actions).e, bs, After(c, reg, actions + AsActions(bs)).e.round)
  {
    var w := After(c, reg, actions);
    AlwaysRounds(c, reg, actions);
    RunAppend(c, Start(Initial(reg)), actions, AsActions(bs));
    RunAppend(c, Start(Initial(reg)), actions, AsActions(ds));
    RunOfVotes(c, w, bs);
    RunOfVotes(c, w, ds);
    hide RoundsOk, Settled, Run, NoSkip, IsChainEnd, Cast;
    CastReachesChainEnd(c, w.e, bs);
    CastReachesChainEnd(c, w.e, ds);
    ChainEndUnique(c, w.e, bs, ds, Cast(c, w.e, bs).round, Cast(c, w.e, ds).round);
  }

  /** A skip fires only when the far round's own ballots reach the quorum: a condition on the ballots alone. */
  lemma {:induction false} SkipNeedsBallots(c: Config, e: Exec, bs: seq<Ballot>)
    requires ValidConfig(c) && RoundsOk(c, e) && Settled(e, TransitionQuorum(c))
    requires RoundIndex(e.round) <= 1 ==> |AllVotes(c, e, bs, MPCExecution)| < TransitionQuorum(c)
    requires RoundIndex(e.round) <= 4 ==> |AllVotes(c, e, bs, ProgramFinished)| < TransitionQuorum(c)
    ensures NoSkip(e, Cast(c, e, bs))
  {
    CastRemembers(c, e, bs);
    var e' := Cast(c, e, bs);
    hide Cast, Settled, VotesOk, FilledOk, AllVotes, ValidConfig;
    if MPCExecution in e'.events { PassedHasQuorum(c, e, bs, e', MPCExecution); }
    if ProgramFinished in e'.events { PassedHasQuorum(c, e, bs, e', ProgramFinished); }
    assert (forall r :: r in e.events ==> r in e'.events) && RoundIndex(e.round) <= RoundIndex(e'.round);
    hide Remembers;
    NoSkipByPath(e, e');
  }

  lemma {:induction false} NoSkipByPath(e: Exec, e': Exec)
    requires PathOk(e) && PathOk(e') && (forall r :: r in e.events ==> r in e'.events)
    requires RoundIndex(e.round) <= RoundIndex(e'.round)
    requires RoundIndex(e.round) <= 1 ==> MPCExecution !in e'.events
    requires RoundIndex(e.round) <= 4 ==> ProgramFinished !in e'.events
    ensures NoSkip(e, e')
  {
  }
}
