/** Exactly when the order of the proposals decides where an execution ends. */
module VoteOrder {
  import opened Base
  import opened Rounds
  import opened Topology
  import opened ExecutionModel
  import opened ExecutionRuns
  import opened RoundProps
  import opened VoteConfluence

  /** Counting every ballot, early or late, `r` has its quorum. */
  ghost predicate HasQuorum(c: Config, e: Exec, bs: seq<Ballot>, r: Round)
    requires ValidConfig(c)
  {
    |AllVotes(c, e, bs, r)| >= TransitionQuorum(c)
  }

  /**
   * The input skip and the input rounds compete: both are backed by the ballots, neither is decided yet, and going
   * through the input rounds would not arrive at `MPCExecution` as well.
   */
  ghost predicate Forks(c: Config, e: Exec, bs: seq<Ballot>)
    requires ValidConfig(c)
  {
    && RoundIndex(e.round) <= RoundIndex(Preprocessing)
    && (e.round == Preprocessing || HasQuorum(c, e, bs, Preprocessing))
    && HasQuorum(c, e, bs, MPCExecution)
    && HasQuorum(c, e, bs, InputMaskReservation)
    && |Votes(e, InputMaskReservation)| < TransitionQuorum(c)
    && !(HasQuorum(c, e, bs, InputCollection) && AllSubmitted(e))
  }

  ghost predicate Steady(c: Config, e: Exec)
    requires ValidConfig(c)
  {
    RoundsOk(c, e) && Settled(e, TransitionQuorum(c))
  }

  // ---------------------------------------------------------------- what an end state tells

  /** `e'` is where some order of `bs` ends. */
  ghost predicate EndsAt(c: Config, e: Exec, bs: seq<Ballot>, e': Exec)
    requires ValidConfig(c)
  {
    Remembers(c, e, bs, e') && Steady(c, e')
  }

  lemma {:induction false} CastEnds(c: Config, e: Exec, bs: seq<Ballot>)
    requires ValidConfig(c) && Steady(c, e)
    ensures EndsAt(c, e, bs, Cast(c, e, bs))
  {
    CastRemembers(c, e, bs);
    hide Remembers, Settled, RoundsOk, Cast;
  }

  lemma {:induction false} AppliedHasQuorum(c: Config, e: Exec, bs: seq<Ballot>, e': Exec, r: Round)
    requires ValidConfig(c) && EndsAt(c, e, bs, e') && r in e'.events
    ensures HasQuorum(c, e, bs, r)
  {
    PassedHasQuorum(c, e, bs, e', r);
    hide Remembers, Settled, RoundsOk, AllVotes;
  }

  /** A round that may follow the end and has its quorum is `MPCExecution` waiting for inputs. */
  lemma {:induction false} EndStops(c: Config, e: Exec, bs: seq<Ballot>, e': Exec, next: Round)
    requires ValidConfig(c) && EndsAt(c, e, bs, e')
    requires Follows(e'.round, next) && HasQuorum(c, e, bs, next)
    ensures next == MPCExecution && e'.round == InputCollection && !AllSubmitted(e)
  {
    hide Settled, RoundsOk, AllVotes, TransitionQuorum, ValidConfig;
    assert RoundIndex(next) > RoundIndex(e'.round);
    assert Votes(e', next) == AllVotes(c, e, bs, next);
    assert AllSubmitted(e') == AllSubmitted(e);
    hide Remembers, AllSubmitted, Follows;
    VotesPresent(e', next);
    SettledMeans(e', TransitionQuorum(c), next);
  }

  lemma {:induction false} VotesPresent(e: Exec, r: Round)
    ensures |Votes(e, r)| > 0 ==> r in e.votes && e.votes[r] == Votes(e, r)
  {
  }

  /** The events an end state must and must not have. */
  lemma {:induction false} EndPath(c: Config, e: Exec, bs: seq<Ballot>, e': Exec)
    requires ValidConfig(c) && Steady(c, e) && EndsAt(c, e, bs, e')
    ensures PathOk(e) && PathOk(e') && RoundIndex(e.round) <= RoundIndex(e'.round)
    ensures forall r :: r in e.events ==> r in e'.events
    ensures RoundIndex(e'.round) >= 4 && InputCollection in e'.events ==> AllSubmitted(e)
  {
    hide Settled, VotesOk, AllVotes, PathOk;
  }

  // ---------------------------------------------------------------- a quorum for the input rounds closes the skip

  /** Once `InputMaskReservation` has its quorum it is not skipped. */
  ghost predicate Closed(e: Exec, quorum: nat) {
    && |Votes(e, InputMaskReservation)| >= quorum
    && (RoundIndex(e.round) >= 2 ==> InputMaskReservation in e.events)
  }

  lemma {:induction false} ReservationFirst(e: Exec, quorum: nat)
    requires quorum > 0 && e.round == Preprocessing && |Votes(e, InputMaskReservation)| >= quorum
    ensures NextQuorumRound(e, quorum) == Some(InputMaskReservation)
  {
    VotesPresent(e, InputMaskReservation);
    var rest := ORDERED_ROUNDS[1..];
    assert ORDERED_ROUNDS[0] == Preprocessing && rest[0] == InputMaskReservation;
    assert !Supported(e, quorum, Preprocessing) && Supported(e, quorum, InputMaskReservation);
    assert FirstSupported(e, quorum, ORDERED_ROUNDS) == FirstSupported(e, quorum, rest);
    assert FirstSupported(e, quorum, rest) == Some(InputMaskReservation);
  }

  lemma {:induction false} AdvanceStaysClosed(e: Exec, quorum: nat, head: Identity)
    requires quorum > 0 && Closed(e, quorum)
    ensures Closed(Advance(e, quorum, head).0, quorum)
    decreases 6 - RoundIndex(e.round)
  {
    NextIsLater(e, quorum);
    var next := NextQuorumRound(e, quorum);
    if e.round == Preprocessing { ReservationFirst(e, quorum); }
    if next.Some? && !Blocked(e, next.value) {
      hide NextQuorumRound, Blocked;
      AdvanceStaysClosed(Transition(e, next.value, head), quorum, head);
    }
  }

  lemma {:induction false} VoteStaysClosed(c: Config, e: Exec, b: Ballot)
    requires ValidConfig(c) && Closed(e, TransitionQuorum(c))
    ensures Closed(Propose(c, e, b.party, b.next).1, TransitionQuorum(c))
  {
    assert |c.nodes| > 0;
    hide Advance, ValidConfig, TransitionQuorum;
    var voted := Voted(e, b.party, b.next);
    SubsetCard(Votes(e, InputMaskReservation), Votes(voted, InputMaskReservation));
    AdvanceStaysClosed(voted, TransitionQuorum(c), c.nodes[0]);
  }

  lemma {:induction false} CastStaysClosed(c: Config, e: Exec, bs: seq<Ballot>)
    requires ValidConfig(c) && Closed(e, TransitionQuorum(c))
    ensures Closed(Cast(c, e, bs), TransitionQuorum(c))
  {
    if bs != [] {
      hide Closed, Propose;
      CastStaysClosed(c, e, bs[..|bs| - 1]);
      VoteStaysClosed(c, Cast(c, e, bs[..|bs| - 1]), bs[|bs| - 1]);
    }
  }

  // ---------------------------------------------------------------- different ends need a fork

  /** The shape of `PathOk`, on the applied rounds alone. */
  ghost predicate Path(round: Round, applied: set<Round>) {
    && (forall r :: r in applied ==> RoundIndex(r) <= RoundIndex(round))
    && (round != Idle ==> round in applied)
    && (RoundIndex(round) >= 1 ==> Preprocessing in applied)
    && (round == InputCollection ==> InputMaskReservation in applied)
    && (RoundIndex(round) >= 4 ==> MPCExecution in applied)
    && (RoundIndex(round) >= 4 ==> (InputMaskReservation in applied <==> InputCollection in applied))
  }

  /**
   * What is known of an end `x` of ballots that give `quorums`: it applied only rounds with a quorum, it stopped where
   * nothing more could follow, and it passed input collection only with all inputs in.
   */
  ghost predicate Shape(start: Round, before: set<Round>, x: Round, xs: set<Round>, quorums: set<Round>, full: bool) {
    && Path(start, before) && Path(x, xs) && before <= xs && xs <= quorums && RoundIndex(start) <= RoundIndex(x)
    && (forall r :: Follows(x, r) && r in quorums ==> r == MPCExecution && x == InputCollection && !full)
    && (RoundIndex(x) >= 4 && InputCollection in xs ==> full)
  }

  lemma {:induction false} AllFollows()
    ensures Follows(Idle, Preprocessing) && Follows(Preprocessing, InputMaskReservation)
    ensures Follows(Preprocessing, MPCExecution) && Follows(InputMaskReservation, InputCollection)
    ensures Follows(InputCollection, MPCExecution) && Follows(MPCExecution, OutputDistribution)
    ensures Follows(MPCExecution, ProgramFinished) && Follows(OutputDistribution, ProgramFinished)
  {
  }

  /** Two ends of different length: only the skip explains it. */
  lemma {:induction false} PathsFork(start: Round, before: set<Round>, x: Round, xs: set<Round>, y: Round,
                                     ys: set<Round>, quorums: set<Round>, full: bool)
    requires Shape(start, before, x, xs, quorums, full) && Shape(start, before, y, ys, quorums, full)
    requires RoundIndex(x) < RoundIndex(y)
    ensures RoundIndex(y) >= 4 && InputMaskReservation !in ys && RoundIndex(start) <= 1
    ensures Preprocessing in quorums && MPCExecution in quorums && InputMaskReservation in quorums
    ensures !(InputCollection in quorums && full)
  {
    AllFollows();
    hide Follows;
  }

  ghost function Quorums(c: Config, e: Exec, bs: seq<Ballot>): (q: set<Round>)
    requires ValidConfig(c)
    ensures forall r :: r in q <==> HasQuorum(c, e, bs, r)
  {
    set r: Round | HasQuorum(c, e, bs, r)
  }

  ghost predicate EndShape(c: Config, e: Exec, bs: seq<Ballot>, x: Exec)
    requires ValidConfig(c)
  {
    Shape(e.round, e.events.Keys, x.round, x.events.Keys, Quorums(c, e, bs), AllSubmitted(e))
  }

  lemma {:induction false} EndsInShape(c: Config, e: Exec, bs: seq<Ballot>, x: Exec)
    requires ValidConfig(c) && Steady(c, e) && EndsAt(c, e, bs, x)
    ensures EndShape(c, e, bs, x)
  {
    hide Steady, EndsAt, HasQuorum, Quorums, AllSubmitted, Follows, PathOk, Path;
    EndPath(c, e, bs, x);
    PathIs(e);
    PathIs(x);
    ApplyQuorums(c, e, bs, x);
    StopRounds(c, e, bs, x);
  }

  lemma {:induction false} PathIs(e: Exec)
    requires PathOk(e)
    ensures Path(e.round, e.events.Keys)
  {
  }

  lemma {:induction false} ShorterEndForks(c: Config, e: Exec, bs: seq<Ballot>, x: Exec, y: Exec)
    requires ValidConfig(c) && EndShape(c, e, bs, x) && EndShape(c, e, bs, y)
      && RoundIndex(x.round) < RoundIndex(y.round)
    requires Closed(e, TransitionQuorum(c)) ==> Closed(y, TransitionQuorum(c))
    ensures Forks(c, e, bs)
  {
    hide HasQuorum, Quorums, AllSubmitted, Shape, TransitionQuorum, ValidConfig, Votes;
    PathsFork(e.round, e.events.Keys, x.round, x.events.Keys, y.round, y.events.Keys, Quorums(c, e, bs),
              AllSubmitted(e));
  }

  lemma {:induction false} ApplyQuorums(c: Config, e: Exec, bs: seq<Ballot>, e': Exec)
    requires ValidConfig(c) && EndsAt(c, e, bs, e')
    ensures forall r :: r in e'.events ==> HasQuorum(c, e, bs, r)
  {
    hide EndsAt, HasQuorum;
    forall r | r in e'.events ensures HasQuorum(c, e, bs, r) { AppliedHasQuorum(c, e, bs, e', r); }
  }

  /** Where an end stands, a round that could have followed lacks its quorum, or inputs are missing. */
  lemma {:induction false} StopRounds(c: Config, e: Exec, bs: seq<Ballot>, x: Exec)
    requires ValidConfig(c) && EndsAt(c, e, bs, x)
    ensures forall r :: Follows(x.round, r) && HasQuorum(c, e, bs, r) ==>
      r == MPCExecution && x.round == InputCollection && !AllSubmitted(e)
  {
    hide EndsAt, HasQuorum, AllSubmitted;
    forall r | Follows(x.round, r) && HasQuorum(c, e, bs, r)
      ensures r == MPCExecution && x.round == InputCollection && !AllSubmitted(e)
    {
      EndStops(c, e, bs, x, r);
    }
  }

  lemma {:induction false} SameVotes(c: Config, e: Exec, bs: seq<Ballot>, ds: seq<Ballot>, e': Exec)
    requires ValidConfig(c) && Elements(bs) == Elements(ds)
    ensures EndsAt(c, e, ds, e') ==> EndsAt(c, e, bs, e')
  {
    hide AllVotes, Settled, RoundsOk, Elements, ValidConfig;
    forall r ensures AllVotes(c, e, bs, r) == AllVotes(c, e, ds, r) { VotesSame(c, e, bs, ds, r); }
  }

  lemma {:induction false} ClosedAlong(c: Config, e: Exec, bs: seq<Ballot>)
    requires ValidConfig(c)
    ensures Closed(e, TransitionQuorum(c)) ==> Closed(Cast(c, e, bs), TransitionQuorum(c))
  {
    if Closed(e, TransitionQuorum(c)) { CastStaysClosed(c, e, bs); }
  }

  /** Different ends of the same ballots need a fork. */
  lemma {:induction false} NoForkOneEnd(c: Config, e: Exec, bs: seq<Ballot>, ds: seq<Ballot>)
    requires ValidConfig(c) && Steady(c, e) && Elements(bs) == Elements(ds) && !Forks(c, e, bs)
    ensures Cast(c, e, bs).round == Cast(c, e, ds).round
  {
    hide EndsAt, Steady, Forks, Closed, Cast, EndShape;
    var x, y := Cast(c, e, bs), Cast(c, e, ds);
    CastEnds(c, e, bs);
    CastEnds(c, e, ds);
    SameVotes(c, e, bs, ds, y);
    EndsInShape(c, e, bs, x);
    EndsInShape(c, e, bs, y);
    ClosedAlong(c, e, bs);
    ClosedAlong(c, e, ds);
    if RoundIndex(x.round) < RoundIndex(y.round) { ShorterEndForks(c, e, bs, x, y); }
    if RoundIndex(y.round) < RoundIndex(x.round) { ShorterEndForks(c, e, bs, y, x); }
    IndexDetermines(x.round, y.round);
  }

  lemma {:induction false} IndexDetermines(r: Round, s: Round)
    requires RoundIndex(r) == RoundIndex(s)
    ensures r == s
  {
  }

  // ---------------------------------------------------------------- a fork has different ends

  function Only(bs: seq<Ballot>, r: Round): seq<Ballot> {
    if bs == [] then []
    else
      var front, b := Only(bs[..|bs| - 1], r), bs[|bs| - 1];
      if b.next == r then front + [b] else front
  }

  function Others(bs: seq<Ballot>, r: Round, s: Round): seq<Ballot> {
    if bs == [] then []
    else
      var front, b := Others(bs[..|bs| - 1], r, s), bs[|bs| - 1];
      if b.next == r || b.next == s then front else front + [b]
  }

  lemma {:induction false} OnlyHas(bs: seq<Ballot>, r: Round)
    ensures forall b :: b in Only(bs, r) <==> b in bs && b.next == r
  {
    if bs != [] {
      assert bs == bs[..|bs| - 1] + [bs[|bs| - 1]];
      OnlyHas(bs[..|bs| - 1], r);
    }
  }

  /** Ballots for `first`, then those for `second`, then the rest. */
  function Lead(bs: seq<Ballot>, first: Round, second: Round): seq<Ballot> {
    Only(bs, first) + Only(bs, second) + Others(bs, first, second)
  }

  lemma {:induction false} PartsOf(bs: seq<Ballot>, first: Round, second: Round)
    requires first != second
    ensures multiset(Only(bs, first)) + multiset(Only(bs, second)) + multiset(Others(bs, first, second)) == multiset(bs)
  {
    if bs != [] {
      var front, b := bs[..|bs| - 1], bs[|bs| - 1];
      assert bs == front + [b];
      PartsOf(front, first, second);
    }
  }

  lemma {:induction false} LeadIsOrder(bs: seq<Ballot>, first: Round, second: Round)
    requires first != second
    ensures multiset(Lead(bs, first, second)) == multiset(bs)
  {
    PartsOf(bs, first, second);
    hide Only, Others;
  }

  lemma {:induction false} CastAppend(c: Config, e: Exec, xs: seq<Ballot>, ys: seq<Ballot>)
    requires ValidConfig(c)
    ensures Cast(c, e, xs + ys) == Cast(c, Cast(c, e, xs), ys)
  {
    hide Propose;
    if ys == [] {
      assert xs + ys == xs;
    } else {
      assert (xs + ys)[..|xs + ys| - 1] == xs + ys[..|ys| - 1];
      CastAppend(c, e, xs, ys[..|ys| - 1]);
    }
  }

  lemma {:induction false} LeadVotes(c: Config, e: Exec, bs: seq<Ballot>, first: Round, second: Round, r: Round)
    ensures AllVotes(c, e, Only(bs, first) + Only(bs, second), r)
         == if r == first || r == second then AllVotes(c, e, bs, r) else Votes(e, r)
  {
    OnlyHas(bs, first);
    OnlyHas(bs, second);
    hide Only;
  }

  lemma {:induction false} SteadyCast(c: Config, e: Exec, bs: seq<Ballot>)
    requires ValidConfig(c) && Steady(c, e)
    ensures Steady(c, Cast(c, e, bs)) && EndShape(c, e, bs, Cast(c, e, bs))
  {
    CastEnds(c, e, bs);
    EndsInShape(c, e, bs, Cast(c, e, bs));
    hide Steady, Cast, Remembers, EndShape;
  }

  /** The quorums of the leading ballots. */
  lemma {:induction false} LeadQuorums(c: Config, e: Exec, bs: seq<Ballot>, first: Round, second: Round, r: Round)
    requires ValidConfig(c)
    ensures var lead := Only(bs, first) + Only(bs, second);
      HasQuorum(c, e, lead, r) <==>
        if r == first || r == second then HasQuorum(c, e, bs, r) else |Votes(e, r)| >= TransitionQuorum(c)
  {
    LeadVotes(c, e, bs, first, second, r);
    hide AllVotes, Only, ValidConfig, TransitionQuorum;
  }

  /** What comes after a prefix only goes further. */
  lemma {:induction false} LeadGoesOn(c: Config, e: Exec, xs: seq<Ballot>, ys: seq<Ballot>)
    requires ValidConfig(c) && Steady(c, e)
    ensures RoundIndex(Cast(c, e, xs).round) <= RoundIndex(Cast(c, e, xs + ys).round)
    ensures forall r :: r in Cast(c, e, xs).events ==> r in Cast(c, e, xs + ys).events
  {
    hide Cast, Steady, EndShape, Remembers;
    SteadyCast(c, e, xs);
    CastAppend(c, e, xs, ys);
    CastEnds(c, Cast(c, e, xs), ys);
    EndPath(c, Cast(c, e, xs), ys, Cast(c, Cast(c, e, xs), ys));
  }

  /** Quorums for `Preprocessing` and `MPCExecution` and none for the input rounds lead past them. */
  lemma {:induction false} ShapeSkips(start: Round, before: set<Round>, x: Round, xs: set<Round>, quorums: set<Round>,
                                      full: bool)
    requires Shape(start, before, x, xs, quorums, full) && RoundIndex(start) <= 1
    requires (start == Preprocessing || Preprocessing in quorums) && MPCExecution in quorums
      && InputMaskReservation !in quorums
    ensures RoundIndex(x) >= 4
  {
    AllFollows();
    hide Follows;
  }

  /** With the ballots for `Preprocessing` and `MPCExecution` first, the input rounds are skipped. */
  lemma {:induction false} SkipLeads(c: Config, e: Exec, bs: seq<Ballot>)
    requires ValidConfig(c) && Steady(c, e) && Forks(c, e, bs)
    ensures RoundIndex(Cast(c, e, Lead(bs, Preprocessing, MPCExecution)).round) >= 4
  {
    var lead := Only(bs, Preprocessing) + Only(bs, MPCExecution);
    hide Only, Others, Cast, Steady, HasQuorum, AllSubmitted, TransitionQuorum, ValidConfig, Votes, Shape, Quorums;
    SteadyCast(c, e, lead);
    LeadQuorums(c, e, bs, Preprocessing, MPCExecution, Preprocessing);
    LeadQuorums(c, e, bs, Preprocessing, MPCExecution, MPCExecution);
    LeadQuorums(c, e, bs, Preprocessing, MPCExecution, InputMaskReservation);
    var x := Cast(c, e, lead);
    ShapeSkips(e.round, e.events.Keys, x.round, x.events.Keys, Quorums(c, e, lead), AllSubmitted(e));
    LeadGoesOn(c, e, lead, Others(bs, Preprocessing, MPCExecution));
  }

  /** An end past the skip that did go through the input rounds had the ballots and the inputs for it. */
  lemma {:induction false} ShapeStays(start: Round, before: set<Round>, x: Round, xs: set<Round>, quorums: set<Round>,
                                      full: bool)
    requires Shape(start, before, x, xs, quorums, full) && (RoundIndex(x) >= 2 ==> InputMaskReservation in xs)
    requires !(InputCollection in quorums && full)
    ensures RoundIndex(x) < 4
  {
  }

  /** From `Preprocessing`, the ballots for `InputMaskReservation` alone apply it. */
  lemma {:induction false} ShapeReserves(start: Round, before: set<Round>, x: Round, xs: set<Round>,
                                         quorums: set<Round>, full: bool)
    requires Shape(start, before, x, xs, quorums, full) && start == Preprocessing
    requires MPCExecution !in quorums && InputMaskReservation in quorums
    ensures InputMaskReservation in xs
  {
    AllFollows();
    hide Follows;
  }

  /** From `Idle`, ballots without a quorum for `Preprocessing` leave it there. */
  lemma {:induction false} ShapeWaits(start: Round, before: set<Round>, x: Round, xs: set<Round>, quorums: set<Round>,
                                      full: bool)
    requires Shape(start, before, x, xs, quorums, full) && Preprocessing !in quorums
    ensures x == Idle
  {
  }

  lemma {:induction false} OnlyQuorums(c: Config, e: Exec, bs: seq<Ballot>, first: Round, r: Round)
    requires ValidConfig(c)
    ensures HasQuorum(c, e, Only(bs, first), r) <==>
      if r == first then HasQuorum(c, e, bs, r) else |Votes(e, r)| >= TransitionQuorum(c)
  {
    OnlyHas(bs, first);
    assert AllVotes(c, e, Only(bs, first), r) == if r == first then AllVotes(c, e, bs, r) else Votes(e, r);
    hide AllVotes, Only, ValidConfig, TransitionQuorum;
  }

  /** A steady state does not hold a quorum for a round that may follow, except blocked MPC. */
  lemma {:induction false} SteadyLacks(c: Config, e: Exec, r: Round)
    requires ValidConfig(c) && Steady(c, e) && Follows(e.round, r) && e.round != InputCollection
    ensures |Votes(e, r)| < TransitionQuorum(c)
  {
    hide RoundsOk, Settled, ValidConfig, AllSubmitted;
    if |Votes(e, r)| >= TransitionQuorum(c) {
      VotesPresent(e, r);
      SettledMeans(e, TransitionQuorum(c), r);
    }
  }

  /** The ballots for `InputMaskReservation` alone either apply it or close the skip for good. */
  lemma {:induction false} ReservationLeads(c: Config, e: Exec, bs: seq<Ballot>)
    requires ValidConfig(c) && Steady(c, e) && Forks(c, e, bs)
    ensures var x := Cast(c, e, Only(bs, InputMaskReservation));
      InputMaskReservation in x.events || Closed(x, TransitionQuorum(c))
  {
    var lead := Only(bs, InputMaskReservation);
    var x := Cast(c, e, lead);
    AllFollows();
    hide Only, Cast, Steady, HasQuorum, AllSubmitted, TransitionQuorum, ValidConfig, Votes, Shape, Quorums, Follows;
    SteadyCast(c, e, lead);
    OnlyQuorums(c, e, bs, InputMaskReservation, InputMaskReservation);
    if e.round == Preprocessing {
      SteadyLacks(c, e, MPCExecution);
      OnlyQuorums(c, e, bs, InputMaskReservation, MPCExecution);
      ShapeReserves(e.round, e.events.Keys, x.round, x.events.Keys, Quorums(c, e, lead), AllSubmitted(e));
    } else {
      SteadyLacks(c, e, Preprocessing);
      OnlyQuorums(c, e, bs, InputMaskReservation, Preprocessing);
      ShapeWaits(e.round, e.events.Keys, x.round, x.events.Keys, Quorums(c, e, lead), AllSubmitted(e));
      KeptAhead(c, e, lead);
    }
  }

  lemma {:induction false} KeptAhead(c: Config, e: Exec, bs: seq<Ballot>)
    requires ValidConfig(c) && Steady(c, e) && Cast(c, e, bs).round == Idle && HasQuorum(c, e, bs, InputMaskReservation)
    ensures Closed(Cast(c, e, bs), TransitionQuorum(c))
  {
    CastEnds(c, e, bs);
    hide Cast, Settled, RoundsOk, AllVotes, ValidConfig, TransitionQuorum;
  }

  /** With the ballots for `InputMaskReservation` first, MPC is not reached. */
  lemma {:induction false} ForksMeans(c: Config, e: Exec, bs: seq<Ballot>)
    requires ValidConfig(c) && Forks(c, e, bs)
    ensures !(InputCollection in Quorums(c, e, bs) && AllSubmitted(e))
  {
    hide HasQuorum, AllSubmitted, ValidConfig;
  }

  lemma {:induction false} ReservationStays(c: Config, e: Exec, bs: seq<Ballot>)
    requires ValidConfig(c) && Steady(c, e) && Forks(c, e, bs)
    ensures RoundIndex(Cast(c, e, Lead(bs, InputMaskReservation, Preprocessing)).round) < 4
  {
    hide Cast, Steady, HasQuorum, AllSubmitted, TransitionQuorum, ValidConfig, Votes, Shape, Quorums, Forks, Only,
      Others;
    var lead, all := Only(bs, InputMaskReservation), Lead(bs, InputMaskReservation, Preprocessing);
    var rest := Only(bs, Preprocessing) + Others(bs, InputMaskReservation, Preprocessing);
    assert all == lead + rest;
    hide Lead;
    LeadIsOrder(bs, InputMaskReservation, Preprocessing);
    SameElements(all, bs);
    ReservationLeads(c, e, bs);
    LeadGoesOn(c, e, lead, rest);
    CastAppend(c, e, lead, rest);
    ClosedAlong(c, Cast(c, e, lead), rest);
    SteadyCast(c, e, all);
    SameQuorums(c, e, bs, all);
    var x := Cast(c, e, all);
    assert !(InputCollection in Quorums(c, e, bs) && AllSubmitted(e)) by { ForksMeans(c, e, bs); }
    ShapeStays(e.round, e.events.Keys, x.round, x.events.Keys, Quorums(c, e, all), AllSubmitted(e));
  }

  lemma {:induction false} SameElements(xs: seq<Ballot>, ys: seq<Ballot>)
    requires multiset(xs) == multiset(ys)
    ensures Elements(xs) == Elements(ys)
  {
    assert forall b :: b in xs <==> b in multiset(xs);
    assert forall b :: b in ys <==> b in multiset(ys);
  }

  lemma {:induction false} SameQuorums(c: Config, e: Exec, bs: seq<Ballot>, ds: seq<Ballot>)
    requires ValidConfig(c) && Elements(bs) == Elements(ds)
    ensures forall r :: HasQuorum(c, e, bs, r) <==> HasQuorum(c, e, ds, r)
  {
    hide AllVotes, Elements, ValidConfig, TransitionQuorum;
    forall r ensures AllVotes(c, e, bs, r) == AllVotes(c, e, ds, r) { VotesSame(c, e, bs, ds, r); }
  }

  // ---------------------------------------------------------------- the exact condition

  ghost predicate IsOrderOf(xs: seq<Ballot>, bs: seq<Ballot>) {
    multiset(xs) == multiset(bs)
  }

  /** Where the execution stands after the ballots `xs`, cast in that order after `actions`. */
  ghost function EndRound(c: Config, reg: Registration, actions: seq<Action>, xs: seq<Ballot>): Round
    requires Accepted(c, reg)
  {
    After(c, reg, actions + AsActions(xs)).e.round
  }

  lemma {:induction false} EndRoundIs(c: Config, reg: Registration, actions: seq<Action>, xs: seq<Ballot>)
    requires Accepted(c, reg) && After(c, reg, actions).flight.None?
    ensures Steady(c, After(c, reg, actions).e)
    ensures EndRound(c, reg, actions, xs) == Cast(c, After(c, reg, actions).e, xs).round
  {
    AlwaysRounds(c, reg, actions);
    RunAppend(c, Start(Initial(reg)), actions, AsActions(xs));
    RunOfVotes(c, After(c, reg, actions), xs);
    hide RoundsOk, Settled, Run, Cast;
  }

  /**
   * In every reachable state with no submission in flight, two orders of the same ballots can end in different rounds
   * if and only if the ballots fork there. The condition can be read off the state and the ballots, and names no order.
   */
  lemma {:induction false} OrderMattersIff(c: Config, reg: Registration, actions: seq<Action>, bs: seq<Ballot>)
    requires Accepted(c, reg) && After(c, reg, actions).flight.None?
    ensures (exists xs, ys :: IsOrderOf(xs, bs) && IsOrderOf(ys, bs)
              && EndRound(c, reg, actions, xs) != EndRound(c, reg, actions, ys))
       <==> Forks(c, After(c, reg, actions).e, bs)
  {
    var e := After(c, reg, actions).e;
    EndRoundIs(c, reg, actions, []);
    hide After, EndRound, Forks, Steady, Cast, New, ValidConfig;
    if Forks(c, e, bs) {
      var xs, ys := Lead(bs, Preprocessing, MPCExecution), Lead(bs, InputMaskReservation, Preprocessing);
      LeadIsOrder(bs, Preprocessing, MPCExecution);
      LeadIsOrder(bs, InputMaskReservation, Preprocessing);
      hide Lead;
      SkipLeads(c, e, bs);
      ReservationStays(c, e, bs);
      EndRoundIs(c, reg, actions, xs);
      EndRoundIs(c, reg, actions, ys);
      assert IsOrderOf(xs, bs) && IsOrderOf(ys, bs);
    } else {
      forall xs, ys | IsOrderOf(xs, bs) && IsOrderOf(ys, bs)
        ensures EndRound(c, reg, actions, xs) == EndRound(c, reg, actions, ys)
      {
        SameElements(xs, bs);
        SameElements(ys, bs);
        NoForkOneEnd(c, e, bs, xs);
        NoForkOneEnd(c, e, bs, ys);
        EndRoundIs(c, reg, actions, xs);
        EndRoundIs(c, reg, actions, ys);
      }
    }
  }
}
