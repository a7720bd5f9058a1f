/** A node that waits for all inputs gets, per client and in index order, exactly one share for every input. */
module ClientInputProps {
  import opened Base
  import opened Topology
  import opened ExecutionModel
  import opened ExecutionRuns
  import opened InputProps
  import opened ClientInputs

  // ---------------------------------------------------------------- counting inputs

  function Indices(pairs: seq<(u64, Bytes)>): (r: seq<u64>)
    ensures |r| == |pairs| && forall k :: 0 <= k < |pairs| ==> r[k] == pairs[k].0
  {
    seq(|pairs|, k requires 0 <= k < |pairs| => pairs[k].0)
  }

  function Count(log: seq<MaskedEvent>): nat {
    if log == [] then 0 else Count(log[..|log| - 1]) + |log[|log| - 1].pairs|
  }

  function Covered(log: seq<MaskedEvent>): set<u64> {
    if log == [] then {} else Covered(log[..|log| - 1]) + Elements(Indices(log[|log| - 1].pairs))
  }

  /** No batch carries an index twice. */
  ghost predicate NoRepeatedInput(log: seq<MaskedEvent>) {
    forall j :: 0 <= j < |log| ==> NoDup(Indices(log[j].pairs))
  }

  ghost predicate Apart(log: seq<MaskedEvent>) {
    forall j, k :: 0 <= j < k < |log| ==> DisjointSubmissions(log[j], log[k])
  }

  lemma {:induction false} IndexHas(pairs: seq<(u64, Bytes)>, i: u64)
    ensures i in Indices(pairs) <==> exists p :: p in pairs && p.0 == i
  {
    if i in Indices(pairs) {
      var k :| 0 <= k < |pairs| && Indices(pairs)[k] == i;
      assert pairs[k] in pairs && pairs[k].0 == i;
    }
    if p :| p in pairs && p.0 == i {
      var k :| 0 <= k < |pairs| && pairs[k] == p;
      assert Indices(pairs)[k] == i;
    }
  }

  lemma {:induction false} CoveredIn(log: seq<MaskedEvent>, i: u64)
    ensures i in Covered(log) <==> exists j :: 0 <= j < |log| && i in Indices(log[j].pairs)
  {
    if log != [] {
      var front := log[..|log| - 1];
      CoveredIn(front, i);
      assert forall j :: 0 <= j < |front| ==> front[j] == log[j];
    }
  }

  lemma {:induction false} ApartMeans(log: seq<MaskedEvent>, j: nat, k: nat, i: u64)
    requires Apart(log) && j < k < |log| && i in Indices(log[j].pairs)
    ensures i !in Indices(log[k].pairs)
  {
    IndexHas(log[j].pairs, i);
    IndexHas(log[k].pairs, i);
    var p :| p in log[j].pairs && p.0 == i;
    assert DisjointSubmissions(log[j], log[k]);
  }

  lemma {:induction false} LastApart(log: seq<MaskedEvent>)
    requires Apart(log) && log != []
    ensures Apart(log[..|log| - 1]) && Covered(log[..|log| - 1]) !! Elements(Indices(log[|log| - 1].pairs))
  {
    var front, last := log[..|log| - 1], log[|log| - 1];
    assert forall j :: 0 <= j < |front| ==> front[j] == log[j];
    hide Covered, Indices;
    forall i | i in Covered(front) ensures i !in Indices(last.pairs) {
      CoveredIn(front, i);
      var j :| 0 <= j < |front| && i in Indices(front[j].pairs);
      ApartMeans(log, j, |log| - 1, i);
    }
  }

  lemma {:induction false} NoRepeatLast(log: seq<MaskedEvent>)
    requires log != []
    ensures NoRepeatedInput(log) <==> NoRepeatedInput(log[..|log| - 1]) && NoDup(Indices(log[|log| - 1].pairs))
  {
    var front := log[..|log| - 1];
    assert forall j :: 0 <= j < |front| ==> front[j] == log[j];
    hide NoDup, Indices;
  }

  /** Counting inputs counts slots exactly when no batch repeats an index, and counts more otherwise. */
  lemma {:induction false} CountInputsIff(log: seq<MaskedEvent>)
    requires Apart(log)
    ensures |Covered(log)| <= Count(log)
    ensures |Covered(log)| == Count(log) <==> NoRepeatedInput(log)
  {
    if log != [] {
      var front, last := log[..|log| - 1], log[|log| - 1];
      LastApart(log);
      CountInputsIff(front);
      NoDupCard(Indices(last.pairs));
      assert |Indices(last.pairs)| == |last.pairs|;
      NoRepeatLast(log);
      hide NoDup, Indices, NoRepeatedInput, Apart, Elements;
      DisjointCard(Covered(front), Elements(Indices(last.pairs)));
    }
  }

  lemma {:induction false} DisjointCard(a: set<u64>, b: set<u64>)
    requires a !! b
    ensures |a + b| == |a| + |b|
  {
  }

  lemma {:induction false} FilledIsCovered(n: nat, log: seq<MaskedEvent>, i: u64)
    requires i < n
    ensures ReplayMasked(n, log)[i].Some? <==> i in Covered(log)
  {
    if log != [] {
      FilledIsCovered(n, log[..|log| - 1], i);
      LastInputIff(log[|log| - 1].pairs, i);
      IndexHas(log[|log| - 1].pairs, i);
    }
  }

  function UpTo(n: u64): (r: set<u64>)
    ensures forall i: u64 :: i in r <==> i < n
    ensures |r| == n
  {
    if n == 0 then {} else UpTo(n - 1) + {n - 1}
  }

  /** What every reachable state in which all inputs are in guarantees about its log. */
  ghost predicate CompleteLog(e: Exec) {
    TablesOk(e) && AllSubmitted(e)
  }

  lemma {:induction false} CompleteCovers(e: Exec)
    requires CompleteLog(e)
    ensures Covered(e.maskedStream.log) == UpTo(e.reg.nInputs) && Apart(e.maskedStream.log)
  {
    var log := e.maskedStream.log;
    forall i: u64 ensures i in Covered(log) <==> i < e.reg.nInputs {
      if i in Covered(log) {
        CoveredIn(log, i);
        var j :| 0 <= j < |log| && i in Indices(log[j].pairs);
        IndexHas(log[j].pairs, i);
        assert SubmissionHeld(e, log[j]);
      }
      if i < e.reg.nInputs { FilledIsCovered(e.reg.nInputs, log, i); }
    }
  }

  /** The whole log counts as many inputs as there are slots exactly when no batch repeats an index. */
  lemma {:induction false} CompleteCount(e: Exec)
    requires CompleteLog(e)
    ensures Count(e.maskedStream.log) >= e.reg.nInputs
    ensures Count(e.maskedStream.log) == e.reg.nInputs <==> NoRepeatedInput(e.maskedStream.log)
  {
    CompleteCovers(e);
    CountInputsIff(e.maskedStream.log);
    assert |UpTo(e.reg.nInputs)| == e.reg.nInputs;
    hide CompleteLog, Covered, Count, NoRepeatedInput, UpTo;
  }

  // ---------------------------------------------------------------- what is gathered

  ghost predicate Good(l: Local, pair: (u64, Bytes)) {
    pair.0 < |l.masks| && l.decode(pair.1).Some?
  }

  ghost predicate PairsGood(l: Local, pairs: seq<(u64, Bytes)>) {
    LocalOk(l) && forall k :: 0 <= k < |pairs| ==> Good(l, pairs[k])
  }

  ghost predicate AllGood(l: Local, log: seq<MaskedEvent>) {
    LocalOk(l) && forall j :: 0 <= j < |log| ==> PairsGood(l, log[j].pairs)
  }

  ghost function OpenAll(l: Local, pairs: seq<(u64, Bytes)>): Indexed
    requires PairsGood(l, pairs)
  {
    if pairs == [] then [] else [Open(l, pairs[0]).value] + OpenAll(l, pairs[1..])
  }

  lemma {:induction false} OpenAllAt(l: Local, pairs: seq<(u64, Bytes)>)
    requires PairsGood(l, pairs)
    ensures |OpenAll(l, pairs)| == |pairs|
    ensures forall k :: 0 <= k < |pairs| ==> Ok(OpenAll(l, pairs)[k]) == Open(l, pairs[k])
  {
    if pairs != [] {
      OpenAllAt(l, pairs[1..]);
      hide Open;
    }
  }

  /** The inputs of one client, in the order they arrived. */
  ghost function Entries(l: Local, client: Identity, log: seq<MaskedEvent>): Indexed
    requires AllGood(l, log)
  {
    if log == [] then []
    else
      var last := log[|log| - 1];
      Entries(l, client, log[..|log| - 1]) + (if last.client == client then OpenAll(l, last.pairs) else [])
  }

  function Get(acc: Gathered, client: Identity): Indexed {
    if client in acc then acc[client] else []
  }

  lemma {:induction false} AddPairsIs(l: Local, acc: Gathered, client: Identity, pairs: seq<(u64, Bytes)>)
    requires PairsGood(l, pairs) && pairs != []
    ensures AddPairs(l, acc, client, pairs) == Ok(acc[client := Get(acc, client) + OpenAll(l, pairs)])
    decreases |pairs|
  {
    assert Good(l, pairs[0]);
    var x, rest := Open(l, pairs[0]).value, pairs[1..];
    var acc' := Push(acc, client, x);
    assert PairsGood(l, rest);
    hide PairsGood, Good, Open;
    if rest == [] {
      assert OpenAll(l, pairs) == [x] + [];
      assert Get(acc, client) + ([x] + []) == Get(acc, client) + [x];
    } else {
      AddPairsIs(l, acc', client, rest);
      var tail := OpenAll(l, rest);
      hide OpenAll, AddPairs;
      assert OpenAll(l, pairs) == [x] + tail by { OpenAllFirst(l, pairs); }
      assert AddPairs(l, acc, client, pairs)
        == AddPairs(l, acc', client, rest) by { AddPairsFirst(l, acc, client, pairs); }
      assert Get(acc', client) + tail == Get(acc, client) + ([x] + tail);
      assert acc'[client := Get(acc', client) + tail] == acc[client := Get(acc', client) + tail];
    }
  }

  lemma {:induction false} OpenAllFirst(l: Local, pairs: seq<(u64, Bytes)>)
    requires PairsGood(l, pairs) && pairs != []
    ensures Open(l, pairs[0]).Ok? && OpenAll(l, pairs) == [Open(l, pairs[0]).value] + OpenAll(l, pairs[1..])
  {
    assert Good(l, pairs[0]);
  }

  lemma {:induction false} AddPairsFirst(l: Local, acc: Gathered, client: Identity, pairs: seq<(u64, Bytes)>)
    requires PairsGood(l, pairs) && pairs != []
    ensures Open(l, pairs[0]).Ok?
    ensures AddPairs(l, acc, client, pairs)
      == AddPairs(l, Push(acc, client, Open(l, pairs[0]).value), client, pairs[1..])
  {
    assert Good(l, pairs[0]);
  }

  ghost predicate SumsUpFor(l: Local, acc: Gathered, log: seq<MaskedEvent>, client: Identity)
    requires AllGood(l, log)
  {
    Get(acc, client) == Entries(l, client, log) && (client in acc <==> Entries(l, client, log) != [])
  }

  /** `acc` is what the first `k` events of `log` add up to. */
  ghost predicate SumsUp(l: Local, acc: Gathered, log: seq<MaskedEvent>, k: nat)
    requires k <= |log|
  {
    AllGood(l, log[..k]) && forall client :: SumsUpFor(l, acc, log[..k], client)
  }

  lemma {:induction false} SumsUpNext(l: Local, acc: Gathered, log: seq<MaskedEvent>, k: nat, client: Identity)
    requires k < |log| && log[k].pairs != [] && PairsGood(l, log[k].pairs)
    requires AllGood(l, log[..k]) && AllGood(l, log[..k + 1]) && SumsUpFor(l, acc, log[..k], client)
    ensures var evt := log[k];
      SumsUpFor(l, acc[evt.client := Get(acc, evt.client) + OpenAll(l, evt.pairs)], log[..k + 1], client)
  {
    OpenAllAt(l, log[k].pairs);
    var before, more := log[..k], log[..k + 1];
    assert more[..k] == before && more[k] == log[k];
    hide OpenAll, PairsGood, AllGood;
    assert Entries(l, client, before) + [] == Entries(l, client, before);
  }

  lemma {:induction false} SumsUpStep(l: Local, acc: Gathered, log: seq<MaskedEvent>, k: nat)
    requires AllGood(l, log) && k < |log| && log[k].pairs != [] && SumsUp(l, acc, log, k)
    ensures AddPairs(l, acc, log[k].client, log[k].pairs).Ok?
    ensures SumsUp(l, AddPairs(l, acc, log[k].client, log[k].pairs).value, log, k + 1)
  {
    assert AllGood(l, log[..k + 1]);
    AddPairsIs(l, acc, log[k].client, log[k].pairs);
    var acc' := AddPairs(l, acc, log[k].client, log[k].pairs).value;
    assert PairsGood(l, log[k].pairs);
    hide SumsUpFor, AddPairs, PairsGood, AllGood;
    var more := log[..k + 1];
    forall client ensures SumsUpFor(l, acc', more, client) { SumsUpNext(l, acc, log, k, client); }
  }

  /** No event is empty. */
  ghost predicate NoneEmpty(log: seq<MaskedEvent>) {
    forall j :: 0 <= j < |log| ==> log[j].pairs != []
  }

  ghost function CountAt(log: seq<MaskedEvent>, k: nat): nat
    requires k <= |log|
  {
    Count(log[..k])
  }

  lemma {:induction false} CountGrows(log: seq<MaskedEvent>, j: nat, k: nat)
    requires j < k <= |log| && NoneEmpty(log)
    ensures CountAt(log, j) < CountAt(log, k)
  {
    assert log[..k][..k - 1] == log[..k - 1];
    if j < k - 1 { CountGrows(log, j, k - 1); }
  }

  /** Gathering that has taken the first `k` events. */
  ghost function GatherFrom(l: Local, acc: Gathered, n: nat, log: seq<MaskedEvent>, k: nat): Result<Gathered, WaitError>
    requires LocalOk(l) && k <= |log|
  {
    Gather(l, acc, CountAt(log, k), n, log[k..])
  }

  lemma {:induction false} GatherNext(l: Local, acc: Gathered, n: nat, log: seq<MaskedEvent>, k: nat)
    requires LocalOk(l) && k < |log| && CountAt(log, k) < n && AddPairs(l, acc, log[k].client, log[k].pairs).Ok?
    ensures GatherFrom(l, acc, n, log, k)
         == GatherFrom(l, AddPairs(l, acc, log[k].client, log[k].pairs).value, n, log, k + 1)
  {
    assert log[..k + 1][..k] == log[..k] && log[k..][1..] == log[k + 1..];
    hide AddPairs;
  }

  /** Gathering stops at the first event that brings the count to `n`, and has added up exactly the events so far. */
  lemma {:induction false} GatherStops(l: Local, acc: Gathered, n: nat, log: seq<MaskedEvent>, k: nat)
    returns (stop: nat)
    requires AllGood(l, log) && k <= |log| && NoneEmpty(log) && SumsUp(l, acc, log, k) && CountAt(log, |log|) >= n
    ensures k <= stop <= |log| && GatherFrom(l, acc, n, log, k).Ok?
    ensures SumsUp(l, GatherFrom(l, acc, n, log, k).value, log, stop)
    ensures CountAt(log, stop) >= n && (stop > k ==> CountAt(log, stop - 1) < n)
    decreases |log| - k
  {
    hide SumsUp, AddPairs, CountAt;
    stop := k;
    if CountAt(log, k) >= n {
      assert GatherFrom(l, acc, n, log, k) == Ok(acc);
    } else {
      SumsUpStep(l, acc, log, k);
      GatherNext(l, acc, n, log, k);
      hide AllGood, GatherFrom;
      stop := GatherStops(l, AddPairs(l, acc, log[k].client, log[k].pairs).value, n, log, k + 1);
    }
  }

  // ---------------------------------------------------------------- index order

  ghost predicate Ascending(s: Indexed) {
    forall a, b :: 0 <= a < b < |s| ==> s[a].0 < s[b].0
  }

  ghost predicate HasIndex(s: Indexed, i: u64) {
    exists k :: 0 <= k < |s| && s[k].0 == i
  }

  lemma {:induction false} InsertHas(s: Indexed, x: (u64, Share))
    ensures forall y :: y in InsertSorted(s, x) <==> y in s || y == x
  {
    if s != [] {
      var front, last := s[..|s| - 1], s[|s| - 1];
      assert s == front + [last];
      InsertHas(front, x);
    }
  }

  lemma {:induction false} AscendingPush(s: Indexed, x: (u64, Share))
    requires Ascending(s) && forall y :: y in s ==> y.0 < x.0
    ensures Ascending(s + [x])
  {
    var t := s + [x];
    forall a, b | 0 <= a < b < |t| ensures t[a].0 < t[b].0 {
      assert t[a] == s[a] && s[a] in s;
    }
  }

  lemma {:induction false} InsertAscending(s: Indexed, x: (u64, Share))
    requires Ascending(s) && !HasIndex(s, x.0)
    ensures Ascending(InsertSorted(s, x))
  {
    if s != [] {
      var front, last := s[..|s| - 1], s[|s| - 1];
      assert s == front + [last];
      assert forall y :: y in front ==> y.0 < last.0;
      assert last.0 != x.0;
      if last.0 > x.0 {
        assert Ascending(front) && !HasIndex(front, x.0);
        InsertAscending(front, x);
        InsertHas(front, x);
        var r := InsertSorted(front, x);
        hide Ascending, HasIndex;
        assert InsertSorted(s, x) == r + [last];
        AscendingPush(r, last);
      } else {
        assert InsertSorted(s, x) == s + [x];
        hide InsertSorted, HasIndex;
        AscendingPush(s, x);
      }
    } else {
      assert InsertSorted(s, x) == [x];
    }
  }

  lemma {:induction false} SortAscending(s: Indexed)
    requires forall a, b :: 0 <= a < b < |s| ==> s[a].0 != s[b].0
    ensures Ascending(SortByIndex(s))
  {
    if s != [] {
      var front, last := s[..|s| - 1], s[|s| - 1];
      SortAscending(front);
      SortHas(front);
      var r := SortByIndex(front);
      forall k | 0 <= k < |r| ensures r[k].0 != last.0 {
        assert r[k] in front;
        var a :| 0 <= a < |front| && front[a] == r[k];
        assert s[a] == front[a];
      }
      hide Ascending, InsertSorted;
      InsertAscending(r, last);
    }
  }

  lemma {:induction false} SortHas(s: Indexed)
    ensures forall y :: y in SortByIndex(s) <==> y in s
  {
    if s != [] {
      var front, last := s[..|s| - 1], s[|s| - 1];
      assert s == front + [last];
      SortHas(front);
      InsertHas(SortByIndex(front), last);
      hide InsertSorted;
    }
  }

  lemma {:induction false} LastIsLargest(s: Indexed)
    requires Ascending(s) && s != []
    ensures Ascending(s[..|s| - 1]) && s[|s| - 1] in s
    ensures forall y :: y in s <==> y in s[..|s| - 1] || y == s[|s| - 1]
    ensures forall y :: y in s[..|s| - 1] ==> y.0 < s[|s| - 1].0
  {
    assert s == s[..|s| - 1] + [s[|s| - 1]];
  }

  /** An ascending list is determined by what is in it. */
  lemma {:induction false} AscendingUnique(s: Indexed, t: Indexed)
    requires Ascending(s) && Ascending(t) && (forall y :: y in s <==> y in t)
    ensures s == t
  {
    assert s != [] ==> s[0] in s;
    assert t != [] ==> t[0] in t;
    if s != [] && t != [] {
      var sf, sl, tf, tl := s[..|s| - 1], s[|s| - 1], t[..|t| - 1], t[|t| - 1];
      LastIsLargest(s);
      LastIsLargest(t);
      hide Ascending;
      assert sl == tl;
      assert forall y :: y in sf <==> y in s && y != sl;
      assert forall y :: y in tf <==> y in t && y != tl;
      AscendingUnique(sf, tf);
      assert s == sf + [sl] && t == tf + [tl];
    }
  }

  // ---------------------------------------------------------------- one share per input

  /** Every entry comes from a pair of an event of that client. */
  lemma {:induction false} EntryFrom(l: Local, client: Identity, log: seq<MaskedEvent>, x: (u64, Share))
    returns (j: nat, p: (u64, Bytes))
    requires AllGood(l, log) && x in Entries(l, client, log)
    ensures j < |log| && log[j].client == client && p in log[j].pairs && Open(l, p) == Ok(x)
  {
    var front, last := log[..|log| - 1], log[|log| - 1];
    OpenAllAt(l, last.pairs);
    hide Open, OpenAll, PairsGood;
    if x in Entries(l, client, front) {
      j, p := EntryFrom(l, client, front, x);
    } else {
      var k :| 0 <= k < |last.pairs| && OpenAll(l, last.pairs)[k] == x;
      j, p := |log| - 1, last.pairs[k];
    }
  }

  /** Every pair of an event gives its client an entry. */
  lemma {:induction false} EntryOf(l: Local, log: seq<MaskedEvent>, j: nat, k: nat)
    requires AllGood(l, log) && j < |log| && k < |log[j].pairs|
    ensures Open(l, log[j].pairs[k]).Ok? && Open(l, log[j].pairs[k]).value in Entries(l, log[j].client, log)
  {
    var front, last := log[..|log| - 1], log[|log| - 1];
    if j < |log| - 1 {
      assert front[j] == log[j];
      EntryOf(l, front, j, k);
    } else {
      OpenAllAt(l, last.pairs);
      assert OpenAll(l, last.pairs)[k] in OpenAll(l, last.pairs);
    }
  }

  lemma {:induction false} EntryIsCovered(l: Local, client: Identity, log: seq<MaskedEvent>, x: (u64, Share))
    requires AllGood(l, log) && x in Entries(l, client, log)
    ensures x.0 in Covered(log)
  {
    var j, p := EntryFrom(l, client, log, x);
    IndexHas(log[j].pairs, p.0);
    CoveredIn(log, p.0);
  }

  ghost predicate AllDifferent(s: Indexed) {
    forall a, b :: 0 <= a < b < |s| ==> s[a].0 != s[b].0
  }

  lemma {:induction false} DifferentTogether(s: Indexed, t: Indexed)
    requires AllDifferent(s) && AllDifferent(t) && forall x, y :: x in s && y in t ==> x.0 != y.0
    ensures AllDifferent(s + t)
  {
    var u := s + t;
    forall a, b | 0 <= a < b < |u| ensures u[a].0 != u[b].0 {
      if a < |s| <= b {
        assert u[a] in s && u[b] in t;
      }
    }
  }

  lemma {:induction false} OpenDifferent(l: Local, pairs: seq<(u64, Bytes)>)
    requires PairsGood(l, pairs) && NoDup(Indices(pairs))
    ensures AllDifferent(OpenAll(l, pairs)) && forall x :: x in OpenAll(l, pairs) ==> x.0 in Indices(pairs)
  {
    OpenAllAt(l, pairs);
    var r := OpenAll(l, pairs);
    assert forall k :: 0 <= k < |r| ==> r[k].0 == Indices(pairs)[k];
  }

  lemma {:induction false} EntriesDifferent(l: Local, client: Identity, log: seq<MaskedEvent>)
    requires AllGood(l, log) && Apart(log) && NoRepeatedInput(log)
    ensures AllDifferent(Entries(l, client, log))
  {
    if log != [] {
      var front, last := log[..|log| - 1], log[|log| - 1];
      LastApart(log);
      NoRepeatLast(log);
      EntriesDifferent(l, client, front);
      if last.client == client {
        OpenDifferent(l, last.pairs);
        forall x, y | x in Entries(l, client, front) && y in OpenAll(l, last.pairs) ensures x.0 != y.0 {
          EntryIsCovered(l, client, front, x);
        }
        hide AllDifferent;
        DifferentTogether(Entries(l, client, front), OpenAll(l, last.pairs));
      }
    }
  }

  /** Without repeats, the table holds exactly the value each pair carries. */
  lemma {:induction false} PairIsRecorded(n: nat, log: seq<MaskedEvent>, j: nat, p: (u64, Bytes))
    requires Apart(log) && NoRepeatedInput(log) && j < |log| && p in log[j].pairs && p.0 < n
    ensures ReplayMasked(n, log)[p.0] == Some(p.1)
  {
    var front, last := log[..|log| - 1], log[|log| - 1];
    LastInputIff(last.pairs, p.0);
    IndexHas(last.pairs, p.0);
    IndexHas(log[j].pairs, p.0);
    if j == |log| - 1 {
      var q := (p.0, LastInput(last.pairs, p.0).value);
      var a :| 0 <= a < |last.pairs| && last.pairs[a] == p;
      var b :| 0 <= b < |last.pairs| && last.pairs[b] == q;
      assert Indices(last.pairs)[a] == Indices(last.pairs)[b];
      assert a == b;
    } else {
      ApartMeans(log, j, |log| - 1, p.0);
      LastApart(log);
      NoRepeatLast(log);
      assert front[j] == log[j];
      PairIsRecorded(n, front, j, p);
    }
  }

  /** What a node can open: every pair of the log, and so every recorded input. */
  ghost predicate Ready(l: Local, e: Exec) {
    CompleteLog(e) && AllGood(l, e.maskedStream.log)
  }

  /** The share of the input in slot `i`. */
  ghost predicate ShareOf(l: Local, e: Exec, i: u64, share: Share)
    requires LocalOk(l)
  {
    i < |e.masked| && e.masked[i].Some? && Open(l, (i, e.masked[i].value)) == Ok((i, share))
  }

  /** `s` holds exactly the slots of `client`, in ascending order, each with the share of its input. */
  ghost predicate IsInputsOf(l: Local, e: Exec, client: Identity, s: Indexed)
    requires LocalOk(l)
  {
    && Ascending(s)
    && (forall k :: 0 <= k < |s| ==>
          s[k].0 < |e.reserved| && e.reserved[s[k].0] == Some(client) && ShareOf(l, e, s[k].0, s[k].1))
    && (forall i: u64 :: i < |e.reserved| && e.reserved[i] == Some(client) ==> HasIndex(s, i))
  }

  lemma {:induction false} EntryMeans(l: Local, e: Exec, client: Identity, x: (u64, Share))
    requires Ready(l, e) && NoRepeatedInput(e.maskedStream.log) && x in Entries(l, client, e.maskedStream.log)
    ensures x.0 < |e.reserved| && e.reserved[x.0] == Some(client) && ShareOf(l, e, x.0, x.1)
  {
    var log := e.maskedStream.log;
    CompleteCovers(e);
    var j, p := EntryFrom(l, client, log, x);
    assert SubmissionHeld(e, log[j]);
    PairIsRecorded(e.reg.nInputs, log, j, p);
  }

  lemma {:induction false} PairIsEntry(l: Local, log: seq<MaskedEvent>, j: nat, i: u64)
    requires AllGood(l, log) && j < |log| && i in Indices(log[j].pairs)
    ensures HasIndex(Entries(l, log[j].client, log), i)
  {
    var k :| 0 <= k < |log[j].pairs| && Indices(log[j].pairs)[k] == i;
    EntryOf(l, log, j, k);
    var x := Open(l, log[j].pairs[k]).value;
    assert x.0 == i;
    hide Entries, Open, PairsGood, AllGood, Indices;
    assert x in Entries(l, log[j].client, log);
  }

  lemma {:induction false} OwnedIsEntry(l: Local, e: Exec, client: Identity, i: u64)
    requires Ready(l, e) && i < |e.reserved| && e.reserved[i] == Some(client)
    ensures HasIndex(Entries(l, client, e.maskedStream.log), i)
  {
    var log := e.maskedStream.log;
    CompleteCovers(e);
    CoveredIn(log, i);
    var j :| 0 <= j < |log| && i in Indices(log[j].pairs);
    IndexHas(log[j].pairs, i);
    assert SubmissionHeld(e, log[j]);
    hide Entries, AllGood, Indices, CompleteLog;
    PairIsEntry(l, log, j, i);
  }

  lemma {:induction false} SortedEntries(l: Local, e: Exec, client: Identity)
    requires Ready(l, e) && NoRepeatedInput(e.maskedStream.log)
    ensures IsInputsOf(l, e, client, SortByIndex(Entries(l, client, e.maskedStream.log)))
  {
    var all := Entries(l, client, e.maskedStream.log);
    var s := SortByIndex(all);
    CompleteCovers(e);
    EntriesDifferent(l, client, e.maskedStream.log);
    SortAscending(all);
    SortHas(all);
    hide Entries, SortByIndex, CompleteLog, AllGood, NoRepeatedInput, ShareOf, Ascending;
    forall k | 0 <= k < |s|
      ensures s[k].0 < |e.reserved| && e.reserved[s[k].0] == Some(client) && ShareOf(l, e, s[k].0, s[k].1)
    {
      assert s[k] in all;
      EntryMeans(l, e, client, s[k]);
    }
    forall i: u64 | i < |e.reserved| && e.reserved[i] == Some(client) ensures HasIndex(s, i) {
      OwnedIsEntry(l, e, client, i);
      var k :| 0 <= k < |all| && all[k].0 == i;
      assert all[k] in s;
    }
  }

  lemma {:induction false} HeldNoneEmpty(e: Exec)
    requires CompleteLog(e)
    ensures NoneEmpty(e.maskedStream.log)
  {
    forall j | 0 <= j < |e.maskedStream.log| ensures e.maskedStream.log[j].pairs != [] {
      assert SubmissionHeld(e, e.maskedStream.log[j]);
    }
  }

  lemma {:induction false} Whole(log: seq<MaskedEvent>)
    ensures log[..|log|] == log && log[..0] == [] && log[0..] == log
    ensures CountAt(log, |log|) == Count(log) && CountAt(log, 0) == 0
  {
  }

  /** What the node has gathered when it stops: the first `stop` events. */
  lemma {:induction false} GatheredPrefix(l: Local, e: Exec) returns (stop: nat)
    requires Ready(l, e)
    ensures var log := e.maskedStream.log;
      && stop <= |log| && Gather(l, map[], 0, e.reg.nInputs, log).Ok?
      && SumsUp(l, Gather(l, map[], 0, e.reg.nInputs, log).value, log, stop)
      && (NoRepeatedInput(log) ==> stop == |log|)
  {
    var log, n := e.maskedStream.log, e.reg.nInputs;
    HeldNoneEmpty(e);
    CompleteCount(e);
    Whole(log);
    assert SumsUp(l, map[], log, 0);
    hide CompleteLog, AllGood, SumsUp, Gather, Count, NoRepeatedInput;
    stop := GatherStops(l, map[], n, log, 0);
    if stop < |log| { CountGrows(log, stop, |log|); }
  }

  lemma {:induction false} AddedUp(l: Local, acc: Gathered, log: seq<MaskedEvent>, client: Identity)
    requires AllGood(l, log) && SumsUp(l, acc, log, |log|)
    ensures Get(acc, client) == Entries(l, client, log) && (client in acc <==> Entries(l, client, log) != [])
  {
    Whole(log);
    assert SumsUpFor(l, acc, log, client);
  }

  /** The node's result for `client`, if its slots are all in. */
  ghost predicate ResultFor(l: Local, e: Exec, r: map<Identity, seq<Share>>, client: Identity)
    requires LocalOk(l)
  {
    && (client in r <==> Some(client) in e.reserved)
    && (client in r ==> exists s :: IsInputsOf(l, e, client, s) && r[client] == Values(s))
  }

  /**
   * End to end, in every run: once all masked inputs are in and no batch repeated an index, a node that waits for
   * `n_inputs` inputs on the coordinator's log gets exactly the clients that hold slots and, for each of them, one
   * unmasked share per slot it holds, in ascending slot order.
   */
  lemma {:induction false} NodeGetsEveryInput(c: Config, reg: Registration, actions: seq<Action>, l: Local)
    requires Accepted(c, reg) && AllSubmitted(After(c, reg, actions).e)
    requires AllGood(l, After(c, reg, actions).e.maskedStream.log)
    requires NoRepeatedInput(After(c, reg, actions).e.maskedStream.log)
    ensures var e := After(c, reg, actions).e;
      var r := Inputs(l, reg.nInputs, e.maskedStream.log);
      r.Ok? && forall client :: ResultFor(l, e, r.value, client)
  {
    AlwaysTables(c, reg, actions);
    var e := After(c, reg, actions).e;
    hide After, New, TablesOk, AllSubmitted, AllGood, NoRepeatedInput;
    var stop := GatheredPrefix(l, e);
    var acc := Gather(l, map[], 0, reg.nInputs, e.maskedStream.log).value;
    var r := InOrder(acc);
    forall client ensures ResultFor(l, e, r, client) {
      hide Gather;
      ClientResult(l, e, acc, client);
    }
  }

  lemma {:induction false} EntriesIffHeld(l: Local, e: Exec, client: Identity)
    requires Ready(l, e) && NoRepeatedInput(e.maskedStream.log)
    ensures Entries(l, client, e.maskedStream.log) != [] <==> Some(client) in e.reserved
  {
    var all := Entries(l, client, e.maskedStream.log);
    hide Entries, CompleteLog, AllGood, NoRepeatedInput, ShareOf;
    if all != [] {
      EntryMeans(l, e, client, all[0]);
      assert e.reserved[all[0].0] in e.reserved;
    }
    if Some(client) in e.reserved {
      ReservedFits(e);
      var i :| 0 <= i < |e.reserved| && e.reserved[i] == Some(client);
      OwnedIsEntry(l, e, client, i);
    }
  }

  lemma {:induction false} ClientResult(l: Local, e: Exec, acc: Gathered, client: Identity)
    requires Ready(l, e) && NoRepeatedInput(e.maskedStream.log)
    requires SumsUp(l, acc, e.maskedStream.log, |e.maskedStream.log|)
    ensures ResultFor(l, e, InOrder(acc), client)
  {
    assert LocalOk(l);
    hide SumsUp, SortByIndex, Entries, CompleteLog, AllGood, NoRepeatedInput, IsInputsOf, Values;
    AddedUp(l, acc, e.maskedStream.log, client);
    EntriesIffHeld(l, e, client);
    if client in acc {
      SortedEntries(l, e, client);
      assert IsInputsOf(l, e, client, SortByIndex(acc[client]));
    }
  }

  const U64: nat := 0x1_0000_0000_0000_0000

  lemma {:induction false} ReservedFits(e: Exec)
    requires CompleteLog(e)
    ensures |e.reserved| < U64
  {
  }

  /** Two lists that answer the description are the same list. */
  lemma {:induction false} InputsAreDetermined(l: Local, e: Exec, client: Identity, s: Indexed, t: Indexed)
    requires LocalOk(l) && IsInputsOf(l, e, client, s) && IsInputsOf(l, e, client, t)
    ensures s == t
  {
    SameInputs(l, e, client, s, t);
    SameInputs(l, e, client, t, s);
    hide IsInputsOf;
    assert Ascending(s) && Ascending(t) by { InputsAscend(l, e, client, s); InputsAscend(l, e, client, t); }
    AscendingUnique(s, t);
  }

  lemma {:induction false} InputsAscend(l: Local, e: Exec, client: Identity, s: Indexed)
    requires LocalOk(l) && IsInputsOf(l, e, client, s)
    ensures Ascending(s)
  {
  }

  lemma {:induction false} SameInputs(l: Local, e: Exec, client: Identity, s: Indexed, t: Indexed)
    requires LocalOk(l) && IsInputsOf(l, e, client, s) && IsInputsOf(l, e, client, t)
    ensures forall y :: y in s ==> y in t
  {
    forall y | y in s ensures y in t {
      var k :| 0 <= k < |s| && s[k] == y;
      assert HasIndex(t, s[k].0);
      var j :| 0 <= j < |t| && t[j].0 == s[k].0;
      assert ShareOf(l, e, s[k].0, s[k].1) && ShareOf(l, e, t[j].0, t[j].1);
    }
  }

  // ---------------------------------------------------------------- exactly when no batch repeats an index

  /** `s` lists exactly the slots of `client`, once each. */
  ghost predicate ListsSlotsOf(e: Exec, client: Identity, s: Indexed) {
    && Ascending(s)
    && (forall k :: 0 <= k < |s| ==> s[k].0 < |e.reserved| && e.reserved[s[k].0] == Some(client))
    && (forall i: u64 :: i < |e.reserved| && e.reserved[i] == Some(client) ==> HasIndex(s, i))
  }

  ghost predicate ListedFor(e: Exec, acc: Gathered, client: Identity) {
    ListsSlotsOf(e, client, SortByIndex(Get(acc, client)))
  }

  /** What the node has gathered, in index order, lists every client's slots once. */
  ghost predicate GathersEachOnce(l: Local, e: Exec)
    requires LocalOk(l)
  {
    var g := Gather(l, map[], 0, e.reg.nInputs, e.maskedStream.log);
    g.Ok? && forall client :: ListedFor(e, g.value, client)
  }

  lemma {:induction false} PushBack(s: Indexed, x: (u64, Share))
    requires Ascending(s + [x])
    ensures Ascending(s) && forall y :: y in s ==> y.0 < x.0
  {
    LastIsLargest(s + [x]);
    assert (s + [x])[..|s|] == s;
  }

  lemma {:induction false} InsertBack(s: Indexed, x: (u64, Share))
    requires Ascending(InsertSorted(s, x))
    ensures Ascending(s) && forall y :: y in s ==> y.0 != x.0
  {
    if s != [] {
      var front, last := s[..|s| - 1], s[|s| - 1];
      assert s == front + [last];
      if last.0 <= x.0 {
        hide Ascending;
        PushBack(s, x);
      } else {
        var inner := InsertSorted(front, x);
        assert InsertSorted(s, x) == inner + [last];
        hide Ascending, InsertSorted;
        PushBack(inner, last);
        InsertHas(front, x);
        InsertBack(front, x);
        AscendingPush(front, last);
      }
    }
  }

  lemma {:induction false} SortDifferent(s: Indexed)
    requires Ascending(SortByIndex(s))
    ensures AllDifferent(s)
  {
    if s != [] {
      var front, last := s[..|s| - 1], s[|s| - 1];
      var r := SortByIndex(front);
      assert SortByIndex(s) == InsertSorted(r, last);
      hide SortByIndex, Ascending, InsertSorted;
      InsertBack(r, last);
      SortDifferent(front);
      SortHas(front);
      hide AllDifferent;
      DifferentPush(front, last);
      assert s == front + [last];
    }
  }

  lemma {:induction false} DifferentPush(s: Indexed, x: (u64, Share))
    requires AllDifferent(s) && forall y :: y in s ==> y.0 != x.0
    ensures AllDifferent(s + [x])
  {
    var t := s + [x];
    forall a, b | 0 <= a < b < |t| ensures t[a].0 != t[b].0 {
      assert t[a] == s[a] && s[a] in s;
    }
  }

  lemma {:induction false} DifferentApart(s: Indexed, t: Indexed)
    requires AllDifferent(s + t)
    ensures AllDifferent(s) && AllDifferent(t)
  {
    var u := s + t;
    forall a, b | 0 <= a < b < |s| ensures s[a].0 != s[b].0 { assert u[a].0 != u[b].0; }
    forall a, b | 0 <= a < b < |t| ensures t[a].0 != t[b].0 { assert u[|s| + a].0 != u[|s| + b].0; }
  }

  lemma {:induction false} DifferentMeansNoRepeat(l: Local, log: seq<MaskedEvent>, j: nat)
    requires AllGood(l, log) && j < |log| && AllDifferent(Entries(l, log[j].client, log))
    ensures NoDup(Indices(log[j].pairs))
  {
    var front, last, client := log[..|log| - 1], log[|log| - 1], log[j].client;
    var tail := if last.client == client then OpenAll(l, last.pairs) else [];
    DifferentApart(Entries(l, client, front), tail);
    if j < |log| - 1 {
      assert front[j] == log[j];
      DifferentMeansNoRepeat(l, front, j);
    } else {
      OpenAllAt(l, last.pairs);
      assert forall k :: 0 <= k < |tail| ==> tail[k].0 == Indices(last.pairs)[k];
    }
  }

  /** A node that stopped early has no entry for the next event's first slot. */
  lemma {:induction false} StoppedEarlyMisses(l: Local, e: Exec, acc: Gathered, stop: nat)
    requires Ready(l, e) && stop < |e.maskedStream.log| && SumsUp(l, acc, e.maskedStream.log, stop)
    ensures !ListedFor(e, acc, e.maskedStream.log[stop].client)
  {
    var log := e.maskedStream.log;
    var evt, before := log[stop], log[..stop];
    HeldNoneEmpty(e);
    CompleteCovers(e);
    assert SubmissionHeld(e, evt);
    var i := evt.pairs[0].0;
    assert evt.pairs[0] in evt.pairs && Indices(evt.pairs)[0] == i;
    assert SumsUpFor(l, acc, before, evt.client);
    var all := Entries(l, evt.client, before);
    SortHas(all);
    hide CompleteLog, SumsUp, SortByIndex, Entries, AllGood;
    forall k | 0 <= k < |SortByIndex(all)| ensures SortByIndex(all)[k].0 != i {
      var x := SortByIndex(all)[k];
      assert x in all;
      EntryIsCovered(l, evt.client, before, x);
      CoveredIn(before, x.0);
      var j :| 0 <= j < |before| && x.0 in Indices(before[j].pairs);
      assert before[j] == log[j];
      ApartMeans(log, j, stop, x.0);
    }
    assert !HasIndex(SortByIndex(Get(acc, evt.client)), i);
  }

  lemma {:induction false} NoRepeatLists(l: Local, e: Exec, acc: Gathered, client: Identity)
    requires Ready(l, e) && NoRepeatedInput(e.maskedStream.log)
    requires SumsUp(l, acc, e.maskedStream.log, |e.maskedStream.log|)
    ensures ListedFor(e, acc, client)
  {
    hide SumsUp, SortByIndex, Entries, CompleteLog, AllGood, NoRepeatedInput, ShareOf, Get;
    AddedUp(l, acc, e.maskedStream.log, client);
    SortedEntries(l, e, client);
  }

  lemma {:induction false} RepeatIsSeen(l: Local, e: Exec, acc: Gathered, j: nat)
    requires Ready(l, e) && j < |e.maskedStream.log| && !NoDup(Indices(e.maskedStream.log[j].pairs))
    requires SumsUp(l, acc, e.maskedStream.log, |e.maskedStream.log|)
    ensures !ListedFor(e, acc, e.maskedStream.log[j].client)
  {
    hide SumsUp, SortByIndex, Entries, CompleteLog, AllGood, Get, Ascending, AllDifferent;
    var client := e.maskedStream.log[j].client;
    AddedUp(l, acc, e.maskedStream.log, client);
    if Ascending(SortByIndex(Get(acc, client))) {
      SortDifferent(Entries(l, client, e.maskedStream.log));
      DifferentMeansNoRepeat(l, e.maskedStream.log, j);
      assert false;
    }
  }

  /**
   * For a complete log the node gathers every slot once if and only if no submitted batch repeats an index. With a
   * repeat it stops too early or holds an input twice.
   */
  lemma {:induction false} EachOnceIffNoRepeat(c: Config, reg: Registration, actions: seq<Action>, l: Local)
    requires Accepted(c, reg) && AllSubmitted(After(c, reg, actions).e)
    requires AllGood(l, After(c, reg, actions).e.maskedStream.log)
    ensures GathersEachOnce(l, After(c, reg, actions).e) <==> NoRepeatedInput(After(c, reg, actions).e.maskedStream.log)
  {
    AlwaysTables(c, reg, actions);
    var e := After(c, reg, actions).e;
    hide After, New, TablesOk, AllSubmitted, AllGood, Gather, SumsUp, SortByIndex, Get;
    EachOnce(l, e);
  }

  lemma {:induction false} FindRepeat(log: seq<MaskedEvent>) returns (j: nat)
    requires !NoRepeatedInput(log)
    ensures j < |log| && !NoDup(Indices(log[j].pairs))
  {
    hide Indices, NoDup;
    j :| 0 <= j < |log| && !NoDup(Indices(log[j].pairs));
  }

  lemma {:induction false} RepeatBreaks(l: Local, e: Exec)
    requires Ready(l, e) && !NoRepeatedInput(e.maskedStream.log)
    ensures !GathersEachOnce(l, e)
  {
    hide CompleteLog;
    assert LocalOk(l);
    hide AllGood, Gather, SumsUp, NoRepeatedInput, ListedFor, NoDup, Indices;
    var log := e.maskedStream.log;
    var stop := GatheredPrefix(l, e);
    var acc := Gather(l, map[], 0, e.reg.nInputs, log).value;
    if stop < |log| {
      StoppedEarlyMisses(l, e, acc, stop);
    } else {
      var j := FindRepeat(log);
      RepeatIsSeen(l, e, acc, j);
    }
  }

  lemma {:induction false} EachOnce(l: Local, e: Exec)
    requires Ready(l, e)
    ensures GathersEachOnce(l, e) <==> NoRepeatedInput(e.maskedStream.log)
  {
    hide CompleteLog;
    assert LocalOk(l);
    hide AllGood, Gather, SumsUp, NoRepeatedInput, ListedFor;
    if NoRepeatedInput(e.maskedStream.log) {
      var stop := GatheredPrefix(l, e);
      var acc := Gather(l, map[], 0, e.reg.nInputs, e.maskedStream.log).value;
      forall client ensures ListedFor(e, acc, client) { NoRepeatLists(l, e, acc, client); }
    } else {
      RepeatBreaks(l, e);
    }
  }
}
