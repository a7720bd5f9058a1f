/** The roster check and the two quorums derived from it. */
module Topology {
  import opened Base

  datatype TopologyError = EmptyRoster | WrongCount | ThresholdTooLarge | TooFewNodes | DuplicateNode

  /** The number of parties, the fault threshold and the roster of a coordinator. */
  datatype Config = Config(n: u64, t: u64, nodes: seq<Identity>)

  predicate HasRepeat(nodes: seq<Identity>) {
    exists k :: 0 <= k < |nodes| && nodes[k] in nodes[..k]
  }

  /** The intermediate `2 * t + 1` is typed `u64`: its well-formedness is the absence of overflow. */
  function ValidateTopology(n: u64, t: u64, nodes: seq<Identity>): (r: Result<(), TopologyError>)
    requires |nodes| <= MAX_VEC_LEN
    ensures r.Ok? <==> nodes != [] && |nodes| == n && 2 * t + 1 <= n && NoDup(nodes)
    ensures r == Err(EmptyRoster) <==> nodes == []
    ensures r == Err(WrongCount) <==> nodes != [] && |nodes| != n
    ensures r == Err(ThresholdTooLarge) <==> nodes != [] && |nodes| == n && t >= n
    ensures r == Err(TooFewNodes) <==> nodes != [] && |nodes| == n && t < n <= 2 * t
  {
    if nodes == [] then Err(EmptyRoster)
    else if |nodes| != n then Err(WrongCount)
    else if t >= n then Err(ThresholdTooLarge)
    else
      var bound: u64 := 2 * t + 1;
      if n < bound then Err(TooFewNodes)
      else if HasRepeat(nodes) then
        assert !NoDup(nodes);
        Err(DuplicateNode)
      else
        assert NoDup(nodes) by {
          forall i, j | 0 <= i < j < |nodes| ensures nodes[i] != nodes[j] {
            assert nodes[..j][i] == nodes[i];
            assert nodes[j] !in nodes[..j];
          }
        }
        Ok(())
  }

  ghost predicate ValidConfig(c: Config) {
    && |c.nodes| <= MAX_VEC_LEN
    && ValidateTopology(c.n, c.t, c.nodes).Ok?
  }

  function Roster(c: Config): set<Identity> {
    Elements(c.nodes)
  }

  function Min(a: u64, b: u64): u64 {
    if a <= b then a else b
  }

  function Max(a: u64, b: u64): u64 {
    if a >= b then a else b
  }

  function TransitionQuorum(c: Config): (q: u64)
    requires ValidConfig(c)
    ensures c.t + 1 <= q <= c.n - c.t
  {
    var livenessBound: u64 := c.n - c.t;
    var honestMajority: u64 := 2 * c.t + 1;
    Max(Min(honestMajority, livenessBound), c.t + 1)
  }

  function RetirementQuorum(c: Config): (q: u64)
    requires ValidConfig(c)
  {
    c.n - c.t
  }

  lemma RosterSize(c: Config)
    requires ValidConfig(c)
    ensures |Roster(c)| == c.n
  {
    NoDupCard(c.nodes);
  }

  /** No `t` parties can fill a quorum: some voter lies outside any set of `t` identities. */
  lemma QuorumEscapesFaults(c: Config, voters: set<Identity>, faulty: set<Identity>)
    requires ValidConfig(c)
    requires |voters| >= TransitionQuorum(c) && |faulty| <= c.t
    ensures voters - faulty != {}
  {
    if voters - faulty == {} {
      assert forall v :: v in voters ==> v !in voters - faulty;
      SubsetCard(voters, faulty);
    }
  }

  lemma {:induction false} TwoSetsMeet<T>(a: set<T>, b: set<T>, u: set<T>)
    requires a <= u && b <= u && |a| + |b| > |u|
    ensures a * b != {}
  {
    if a * b == {} {
      assert |a + b| == |a| + |b|;
      SubsetCard(a + b, u);
    }
  }

  ghost predicate Disjoint<T>(a: set<T>, b: set<T>) {
    a * b == {}
  }

  ghost predicate IsQuorum(c: Config, voters: set<Identity>)
    requires ValidConfig(c)
  {
    voters <= Roster(c) && |voters| >= TransitionQuorum(c)
  }

  /** Outside any `t` parties, `voters` still has more than `t` members. */
  ghost predicate OutvotesFaults(c: Config, voters: set<Identity>) {
    forall faulty: set<Identity> :: |faulty| <= c.t ==> |voters - faulty| > c.t
  }

  lemma {:induction false} FirstOf<T>(s: set<T>, k: nat) returns (part: set<T>)
    requires k <= |s|
    ensures part <= s && |part| == k
  {
    if k == 0 {
      part := {};
    } else {
      var x :| x in s;
      var rest := FirstOf(s - {x}, k - 1);
      part := rest + {x};
    }
  }

  lemma {:induction false} OutvotesIff(c: Config, voters: set<Identity>)
    ensures OutvotesFaults(c, voters) <==> |voters| >= 2 * c.t + 1
  {
    if |voters| >= 2 * c.t + 1 {
      forall faulty: set<Identity> | |faulty| <= c.t ensures |voters - faulty| > c.t {
        assert voters == (voters - faulty) + (voters * faulty);
        SubsetCard(voters * faulty, faulty);
      }
    } else {
      var faulty := FirstOf(voters, if |voters| <= c.t then |voters| else c.t);
      assert voters == (voters - faulty) + faulty;
      assert |voters - faulty| <= c.t;
    }
  }

  /**
   * Who is a quorum: roster parties who outvote any `t` of them, or all but at most `t` of the roster, which is as many
   * as can be waited for.
   */
  lemma {:induction false} QuorumIs(c: Config, voters: set<Identity>)
    requires ValidConfig(c)
    ensures IsQuorum(c, voters) <==> voters <= Roster(c) && (OutvotesFaults(c, voters) || |voters| >= c.n - c.t)
  {
    OutvotesIff(c, voters);
    hide OutvotesFaults, Roster;
  }

  /** Any two transition quorums meet exactly when `n <= 4t + 1`. */
  lemma QuorumsMeetIff(c: Config)
    requires ValidConfig(c)
    ensures (forall a, b :: IsQuorum(c, a) && IsQuorum(c, b) ==> !Disjoint(a, b)) <==> c.n <= 4 * c.t + 1
  {
    RosterSize(c);
    var q := TransitionQuorum(c);
    if c.n <= 4 * c.t + 1 {
      forall a, b | IsQuorum(c, a) && IsQuorum(c, b) ensures !Disjoint(a, b) {
        TwoSetsMeet(a, b, Roster(c));
      }
    } else {
      var x, y := c.nodes[..q], c.nodes[q..2 * q];
      NoDupCard(x);
      NoDupCard(y);
      assert IsQuorum(c, Elements(x)) && IsQuorum(c, Elements(y));
      assert Disjoint(Elements(x), Elements(y));
    }
  }
}
