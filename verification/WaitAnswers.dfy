/** When a node's wait for the inputs ends, and how. */
module WaitAnswers {
  import opened Base
  import opened ExecutionModel
  import opened ClientInputs
  import opened ClientInputProps

  /** The inputs that the events bring. */
  function Brought(log: seq<MaskedEvent>): nat {
    if log == [] then 0 else |log[0].pairs| + Brought(log[1..])
  }

  /** The first `k` events are just enough, and every input in them can be opened. */
  ghost predicate EndsAt(l: Local, need: nat, log: seq<MaskedEvent>, k: int) {
    && 0 <= k <= |log| && Brought(log[..k]) >= need && (k > 0 ==> Brought(log[..k - 1]) < need)
    && AllGood(l, log[..k])
  }

  /** Input `k` of event `j` is the first that cannot be opened, and it is still needed. */
  ghost predicate FailsAt(l: Local, need: nat, log: seq<MaskedEvent>, j: int, k: int) {
    && 0 <= j < |log| && Brought(log[..j]) < need && AllGood(l, log[..j])
    && 0 <= k < |log[j].pairs| && PairsGood(l, log[j].pairs[..k]) && !Good(l, log[j].pairs[k])
  }

  function FailureOf(l: Local, pair: (u64, Bytes)): WaitError {
    if pair.0 >= |l.masks| then NoMaskShare else DeserializationError
  }

  /** How a wait for `need` more inputs ends. */
  ghost predicate WaitEnds<T>(l: Local, need: nat, log: seq<MaskedEvent>, r: Result<T, WaitError>) {
    match r
    case Ok(_) => exists k :: EndsAt(l, need, log, k)
    case Err(SubscriptionEnded) => Brought(log) < need && AllGood(l, log)
    case Err(e) => exists j, k :: FailsAt(l, need, log, j, k) && e == FailureOf(l, log[j].pairs[k])
  }

  lemma {:induction false} PairsAnswer(l: Local, acc: Gathered, client: Identity, pairs: seq<(u64, Bytes)>)
    returns (k: nat)
    requires LocalOk(l)
    ensures match AddPairs(l, acc, client, pairs)
            case Ok(_) => PairsGood(l, pairs)
            case Err(e) =>
              k < |pairs| && PairsGood(l, pairs[..k]) && !Good(l, pairs[k]) && e == FailureOf(l, pairs[k])
    decreases |pairs|
  {
    k := 0;
    if pairs != [] {
      var found := Open(l, pairs[0]);
      if found.Ok? {
        var j := PairsAnswer(l, Push(acc, client, found.value), client, pairs[1..]);
        assert forall x :: 0 < x < |pairs| ==> pairs[x] == pairs[1..][x - 1];
        k := j + 1;
        if k < |pairs| { assert forall x :: 0 < x < k ==> pairs[..k][x] == pairs[1..][..j][x - 1]; }
      }
    }
  }

  lemma {:induction false} BroughtFirst(log: seq<MaskedEvent>, k: nat)
    requires 0 < k <= |log|
    ensures Brought(log[..k]) == |log[0].pairs| + Brought(log[1..][..k - 1])
  {
    assert log[..k][1..] == log[1..][..k - 1];
  }

  lemma {:induction false} GoodFirst(l: Local, log: seq<MaskedEvent>, k: nat)
    requires 0 < k <= |log|
    ensures AllGood(l, log[..k]) <==> PairsGood(l, log[0].pairs) && AllGood(l, log[1..][..k - 1])
  {
    var a, b := log[..k], log[1..][..k - 1];
    assert forall x :: 0 < x < k ==> a[x] == b[x - 1];
    assert forall x :: 0 <= x < k - 1 ==> b[x] == a[x + 1];
    hide PairsGood;
  }

  function Rest(need: nat, n: nat): nat {
    if need <= n then 0 else need - n
  }

  /** One event further. */
  lemma {:induction false} WaitFirst<T>(l: Local, need: nat, log: seq<MaskedEvent>, r: Result<T, WaitError>)
    requires log != [] && need > 0 && PairsGood(l, log[0].pairs)
    requires WaitEnds(l, Rest(need, |log[0].pairs|), log[1..], r)
    ensures WaitEnds(l, need, log, r)
  {
    var n, rest := |log[0].pairs|, log[1..];
    hide PairsGood, AllGood, Good, Brought;
    assert log[..|log|] == log && rest[..|rest|] == rest && Brought([]) == 0 by { NothingBrought(); }
    match r {
      case Ok(_) =>
        var k :| EndsAt(l, Rest(need, n), rest, k);
        BroughtFirst(log, k + 1);
        GoodFirst(l, log, k + 1);
        if k > 0 { BroughtFirst(log, k); }
        assert log[..0] == [];
        assert EndsAt(l, need, log, k + 1);
      case Err(SubscriptionEnded) =>
        BroughtFirst(log, |log|);
        GoodFirst(l, log, |log|);
      case Err(e) =>
        var j, k :| FailsAt(l, Rest(need, n), rest, j, k) && e == FailureOf(l, rest[j].pairs[k]);
        BroughtFirst(log, j + 1);
        GoodFirst(l, log, j + 1);
        assert log[j + 1] == rest[j];
        assert FailsAt(l, need, log, j + 1, k);
    }
  }

  lemma {:induction false} NothingBrought()
    ensures Brought([]) == 0
  {
  }

  lemma {:induction false} GatherAnswer(l: Local, acc: Gathered, received: nat, n: nat, log: seq<MaskedEvent>)
    requires LocalOk(l)
    ensures WaitEnds(l, Rest(n, received), log, Gather(l, acc, received, n, log))
    decreases |log|
  {
    if received >= n {
      assert log[..0] == [];
      assert EndsAt(l, 0, log, 0);
    } else if log == [] {
    } else {
      var k := PairsAnswer(l, acc, log[0].client, log[0].pairs);
      match AddPairs(l, acc, log[0].client, log[0].pairs) {
        case Err(e) =>
          assert log[..0] == [];
          hide PairsGood, Good, AddPairs, Gather;
          assert FailsAt(l, Rest(n, received), log, 0, k);
        case Ok(acc') =>
          GatherAnswer(l, acc', received + |log[0].pairs|, n, log[1..]);
          hide WaitEnds, PairsGood, AddPairs;
          WaitFirst(l, Rest(n, received), log, Gather(l, acc, received, n, log));
      }
    }
  }

  /**
   * How a node's wait ends, for every log and every node: with the inputs exactly if the events up to the one that
   * completes the count can all be opened; with the end of the subscription exactly if all can be opened and they are
   * too few; and otherwise with the failure of the first input that cannot be.
   */
  lemma {:induction false} WaitIsAnswered(l: Local, n: nat, log: seq<MaskedEvent>)
    requires LocalOk(l)
    ensures WaitEnds(l, n, log, Inputs(l, n, log))
  {
    GatherAnswer(l, map[], 0, n, log);
    hide Gather, InOrder, EndsAt, FailsAt, AllGood;
  }

  // ---------------------------------------------------------------- the order of the inputs

  /** The entries for index `i`, in order. */
  function Only(s: Indexed, i: u64): Indexed {
    if s == [] then []
    else if s[|s| - 1].0 == i then Only(s[..|s| - 1], i) + [s[|s| - 1]]
    else Only(s[..|s| - 1], i)
  }

  ghost predicate InIndexOrder(s: Indexed) {
    forall j, k :: 0 <= j < k < |s| ==> s[j].0 <= s[k].0
  }

  lemma {:induction false} OnlyPush(s: Indexed, x: (u64, Share), i: u64)
    ensures Only(s + [x], i) == Only(s, i) + (if x.0 == i then [x] else [])
  {
    assert (s + [x])[..|s|] == s;
  }

  lemma {:induction false} InsertKeepsEqual(s: Indexed, x: (u64, Share), i: u64)
    ensures Only(InsertSorted(s, x), i) == Only(s, i) + (if x.0 == i then [x] else [])
  {
    hide Only;
    if s == [] {
      OnlyPush(s, x, i);
      assert s + [x] == [x];
    } else if s[|s| - 1].0 <= x.0 {
      OnlyPush(s, x, i);
    } else {
      var front, last := s[..|s| - 1], s[|s| - 1];
      assert s == front + [last];
      InsertKeepsEqual(front, x, i);
      OnlyPush(front, last, i);
      OnlyPush(InsertSorted(front, x), last, i);
      hide InsertSorted;
      var only := Only(front, i);
      assert only + [] + [last] == only + [last] + [] && only + [x] + [] == only + [] + [x];
    }
  }

  lemma {:induction false} InsertHas(s: Indexed, x: (u64, Share), y: (u64, Share))
    requires y in InsertSorted(s, x)
    ensures y in s || y == x
  {
    if s != [] && s[|s| - 1].0 > x.0 && y != s[|s| - 1] { InsertHas(s[..|s| - 1], x, y); }
  }

  lemma {:induction false} InsertKeepsOrder(s: Indexed, x: (u64, Share))
    requires InIndexOrder(s)
    ensures InIndexOrder(InsertSorted(s, x))
  {
    if s != [] && s[|s| - 1].0 > x.0 {
      var front, last := s[..|s| - 1], s[|s| - 1];
      InsertKeepsOrder(front, x);
      var r := InsertSorted(front, x);
      forall j | 0 <= j < |r| ensures r[j].0 <= last.0 {
        assert r[j] in r;
        InsertHas(front, x, r[j]);
      }
      assert InsertSorted(s, x) == r + [last];
    }
  }

  /**
   * The node sorts each client's inputs by slot and keeps what it received for one slot in the order it received it.
   * Both together leave only one order, so the sort is determined even for a slot that was submitted twice.
   */
  lemma {:induction false} SortIsStable(s: Indexed, i: u64)
    ensures InIndexOrder(SortByIndex(s)) && Only(SortByIndex(s), i) == Only(s, i)
  {
    if s != [] {
      var front, last := s[..|s| - 1], s[|s| - 1];
      assert s == front + [last];
      SortIsStable(front, i);
      InsertKeepsOrder(SortByIndex(front), last);
      InsertKeepsEqual(SortByIndex(front), last, i);
      OnlyPush(front, last, i);
      hide InsertSorted, Only;
    }
  }
}
