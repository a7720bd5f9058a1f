/** Replay protection of browser requests: a sliding window of recently used nonces. */
module NonceBooks {
  import opened Base

  const NONCE_WINDOW_SECONDS: u64 := 120

  type Key = (ExecutionId, Identity)

  datatype Entry = Entry(created: u64, nonce: Bytes)

  datatype NonceError = OutsideWindow | NonceUsed

  type Book = map<Key, seq<Entry>>

  /** One request: who signed it, its timestamp and nonce, and the clock when it is checked. */
  datatype Call = Call(key: Key, created: u64, nonce: Bytes, now: u64)

  function AbsDiff(a: u64, b: u64): u64 {
    if a >= b then a - b else b - a
  }

  function SaturatingSub(a: u64, b: u64): u64 {
    if a >= b then a - b else 0
  }

  function Retain(entries: seq<Entry>, now: u64): seq<Entry> {
    if entries == [] then []
    else
      var front, last := Retain(entries[..|entries| - 1], now), entries[|entries| - 1];
      if SaturatingSub(now, last.created) <= NONCE_WINDOW_SECONDS then front + [last] else front
  }

  predicate Used(entries: seq<Entry>, nonce: Bytes) {
    exists k :: 0 <= k < |entries| && entries[k].nonce == nonce
  }

  function EntriesOf(book: Book, key: Key): seq<Entry> {
    if key in book then book[key] else []
  }

  /** `NonceBook::accept`: a timestamp outside the window is refused before the book is touched. */
  function Accept(book: Book, c: Call): (Result<(), NonceError>, Book) {
    if AbsDiff(c.now, c.created) > NONCE_WINDOW_SECONDS then (Err(OutsideWindow), book)
    else
      var kept := Retain(EntriesOf(book, c.key), c.now);
      if Used(kept, c.nonce) then (Err(NonceUsed), book[c.key := kept])
      else (Ok(()), book[c.key := kept + [Entry(c.created, c.nonce)]])
  }

  class NonceBook {
    var seen: Book

    constructor ()
      ensures seen == map[]
    {
      seen := map[];
    }

    method AcceptRequest(id: ExecutionId, identity: Identity, created: u64, nonce: Bytes, now: u64)
      returns (r: Result<(), NonceError>)
      modifies this
      ensures (r, seen) == Accept(old(seen), Call((id, identity), created, nonce, now))
    {
      if AbsDiff(now, created) > NONCE_WINDOW_SECONDS {
        return Err(OutsideWindow);
      }
      var key := (id, identity);
      if key !in seen {
        seen := seen[key := []];
      }
      var entries, kept: seq<Entry> := seen[key], [];
      for k := 0 to |entries|
        invariant kept == Retain(entries[..k], now)
      {
        assert entries[..k + 1][..k] == entries[..k];
        if SaturatingSub(now, entries[k].created) <= NONCE_WINDOW_SECONDS {
          kept := kept + [entries[k]];
        }
      }
      assert entries[..|entries|] == entries;
      seen := seen[key := kept];
      assert seen == old(seen)[key := Retain(EntriesOf(old(seen), key), now)];
      for k := 0 to |kept|
        invariant forall j :: 0 <= j < k ==> kept[j].nonce != nonce
      {
        if kept[k].nonce == nonce {
          return Err(NonceUsed);
        }
      }
      seen := seen[key := kept + [Entry(created, nonce)]];
      assert seen == old(seen)[key := kept + [Entry(created, nonce)]];
      r := Ok(());
    }
  }

  // ---------------------------------------------------------------- runs

  function BookAfter(calls: seq<Call>): Book {
    if calls == [] then map[]
    else Accept(BookAfter(calls[..|calls| - 1]), calls[|calls| - 1]).1
  }

  /** The timestamp is at most two minutes from the clock, either way. */
  predicate InWindow(c: Call) {
    c.now <= c.created + 120 && c.created <= c.now + 120
  }

  /** The entry is at most two minutes old. */
  predicate Recent(e: Entry, now: u64) {
    now <= e.created + 120
  }

  function EntryOf(c: Call): Entry {
    Entry(c.created, c.nonce)
  }

  /** The `i`-th call of the run was accepted. */
  predicate WasAccepted(calls: seq<Call>, i: nat)
    requires i < |calls|
  {
    Accept(BookAfter(calls[..i]), calls[i]).0.Ok?
  }

  /** No later call of the same signer that reached the book found the entry of call `i` too old. */
  ghost predicate Unpruned(calls: seq<Call>, i: nat)
    requires i < |calls|
  {
    forall j :: i < j < |calls| && calls[j].key == calls[i].key && InWindow(calls[j]) ==>
      Recent(EntryOf(calls[i]), calls[j].now)
  }

  /** The entry of call `i` is still in the book of its signer. */
  ghost predicate Remembered(calls: seq<Call>, i: nat)
    requires i < |calls|
  {
    WasAccepted(calls, i) && Unpruned(calls, i)
  }

  lemma {:induction false} RetainHas(entries: seq<Entry>, now: u64)
    ensures forall e :: e in Retain(entries, now) <==> e in entries && Recent(e, now)
  {
    if entries != [] { RetainHas(entries[..|entries| - 1], now); }
  }

  /** What one call does to what the book holds for `key`. */
  lemma {:induction false} AcceptHas(book: Book, c: Call, key: Key, e: Entry)
    ensures e in EntriesOf(Accept(book, c).1, key) <==>
      if c.key != key || !InWindow(c) then e in EntriesOf(book, key)
      else (e in EntriesOf(book, key) && Recent(e, c.now)) || (Accept(book, c).0.Ok? && e == EntryOf(c))
  {
    RetainHas(EntriesOf(book, c.key), c.now);
  }

  /** Whether an earlier call is remembered, one call later. */
  lemma {:induction false} RememberedNext(calls: seq<Call>, i: nat)
    requires i < |calls| - 1
    ensures var front, last := calls[..|calls| - 1], calls[|calls| - 1];
      Remembered(calls, i) <==>
        (Remembered(front, i) && (last.key == calls[i].key && InWindow(last) ==> Recent(EntryOf(calls[i]), last.now)))
  {
    var front := calls[..|calls| - 1];
    assert front[..i] == calls[..i] && front[i] == calls[i];
    assert forall j :: 0 <= j < |front| ==> front[j] == calls[j];
    hide Accept, InWindow, Recent;
  }

  /** The calls of `key` that put `e` into the book and are remembered. */
  ghost predicate Holds(calls: seq<Call>, key: Key, e: Entry) {
    exists i :: 0 <= i < |calls| && calls[i].key == key && EntryOf(calls[i]) == e && Remembered(calls, i)
  }

  lemma {:induction false} HoldsNext(calls: seq<Call>, key: Key, e: Entry)
    requires calls != []
    ensures var front, last := calls[..|calls| - 1], calls[|calls| - 1];
      Holds(calls, key, e) <==>
        if last.key != key || !InWindow(last) then Holds(front, key, e)
        else (Holds(front, key, e) && Recent(e, last.now)) || (WasAccepted(calls, |calls| - 1) && e == EntryOf(last))
  {
    var front, last, n := calls[..|calls| - 1], calls[|calls| - 1], |calls| - 1;
    assert Remembered(calls, n) <==> WasAccepted(calls, n);
    assert WasAccepted(calls, n) ==> InWindow(last);
    hide Remembered, WasAccepted, InWindow, Recent;
    if Holds(calls, key, e) {
      var i :| 0 <= i < |calls| && calls[i].key == key && EntryOf(calls[i]) == e && Remembered(calls, i);
      if i < n {
        assert front[i] == calls[i];
        RememberedNext(calls, i);
      }
    }
    if Holds(front, key, e) {
      var i :| 0 <= i < |front| && front[i].key == key && EntryOf(front[i]) == e && Remembered(front, i);
      assert front[i] == calls[i];
      RememberedNext(calls, i);
    }
  }

  /** The book holds exactly the entries of accepted calls that no later check has pruned. */
  lemma {:induction false} BookHolds(calls: seq<Call>, key: Key, e: Entry)
    ensures e in EntriesOf(BookAfter(calls), key) <==> Holds(calls, key, e)
  {
    if calls != [] {
      var front, last := calls[..|calls| - 1], calls[|calls| - 1];
      BookHolds(front, key, e);
      AcceptHas(BookAfter(front), last, key, e);
      HoldsNext(calls, key, e);
      hide Accept, Holds, InWindow, Recent;
    }
  }

  /** An accepted, remembered call of the same signer with the same nonce is recent when `c` is checked. */
  ghost predicate Blocks(calls: seq<Call>, i: nat, c: Call)
    requires i < |calls|
  {
    calls[i].key == c.key && calls[i].nonce == c.nonce && Remembered(calls, i) && Recent(EntryOf(calls[i]), c.now)
  }

  /**
   * Exactly when a request is accepted, for every run and every clock: its timestamp is in the window, and no accepted
   * request of that signer with that nonce is recent now and was recent at every later check of that signer.
   */
  lemma {:induction false} AcceptedIff(calls: seq<Call>, c: Call)
    ensures Accept(BookAfter(calls), c).0.Ok? <==> InWindow(c) && forall i :: 0 <= i < |calls| ==> !Blocks(calls, i, c)
    ensures Accept(BookAfter(calls), c).0 == Err(OutsideWindow) <==> !InWindow(c)
  {
    var entries := EntriesOf(BookAfter(calls), c.key);
    var kept := Retain(entries, c.now);
    RetainHas(entries, c.now);
    assert Accept(BookAfter(calls), c).0.Ok? <==> InWindow(c) && !Used(kept, c.nonce);
    hide Accept, Retain, Remembered, InWindow, Recent, BookAfter;
    forall i | 0 <= i < |calls| && Blocks(calls, i, c) ensures Used(kept, c.nonce) {
      BookHolds(calls, c.key, EntryOf(calls[i]));
      assert EntryOf(calls[i]) in kept;
    }
    if Used(kept, c.nonce) {
      var j :| 0 <= j < |kept| && kept[j].nonce == c.nonce;
      assert kept[j] in kept;
      BookHolds(calls, c.key, kept[j]);
      var i :| 0 <= i < |calls| && calls[i].key == c.key && EntryOf(calls[i]) == kept[j] && Remembered(calls, i);
      assert Blocks(calls, i, c);
    }
  }

  /** `later` is the same signed request as `earlier`. */
  predicate SameRequest(earlier: Call, later: Call) {
    earlier.key == later.key && earlier.created == later.created && earlier.nonce == later.nonce
  }

  /** A check of the signer after call `i` that found its entry too old. */
  ghost predicate PrunedBy(calls: seq<Call>, i: nat, j: int)
    requires i < |calls|
  {
    i < j < |calls| && calls[j].key == calls[i].key && InWindow(calls[j]) && !Recent(EntryOf(calls[i]), calls[j].now)
  }

  lemma {:induction false} UnprunedIff(calls: seq<Call>, i: nat)
    requires i < |calls|
    ensures Unpruned(calls, i) <==> forall j :: !PrunedBy(calls, i, j)
  {
    hide InWindow, Recent;
    if Unpruned(calls, i) {
      forall j ensures !PrunedBy(calls, i, j) { }
    } else {
      var j :| i < j < |calls| && calls[j].key == calls[i].key && InWindow(calls[j])
        && !Recent(EntryOf(calls[i]), calls[j].now);
      assert PrunedBy(calls, i, j);
    }
  }

  lemma {:induction false} WindowMeansRecent(c: Call)
    requires InWindow(c)
    ensures Recent(EntryOf(c), c.now)
  {
  }

  /**
   * Exactly when a replay gets through: a request that is in the window and was accepted before, as the only accepted
   * one with its nonce, is accepted again if and only if a check in between found it too old. As it is in the window
   * now, the clock has stepped back since that check.
   */
  lemma {:induction false} ReplayIff(calls: seq<Call>, i: nat, c: Call)
    requires i < |calls| && WasAccepted(calls, i) && SameRequest(calls[i], c) && InWindow(c)
    requires forall k ::
      0 <= k < |calls| && WasAccepted(calls, k) && calls[k].key == c.key && calls[k].nonce == c.nonce ==> k == i
    ensures Accept(BookAfter(calls), c).0.Ok? <==> exists j :: PrunedBy(calls, i, j)
    ensures forall j :: PrunedBy(calls, i, j) ==> calls[j].now > c.now
  {
    WindowMeansRecent(c);
    AcceptedIff(calls, c);
    UnprunedIff(calls, i);
    forall j | PrunedBy(calls, i, j) ensures calls[j].now > c.now { }
    hide Accept, BookAfter, WasAccepted, Unpruned, PrunedBy, InWindow, Recent;
    if exists j :: PrunedBy(calls, i, j) {
      forall k | 0 <= k < |calls| ensures !Blocks(calls, k, c) { }
    } else {
      assert Blocks(calls, i, c);
    }
  }

  // ---------------------------------------------------------------- with a clock that does not go back

  ghost predicate Monotone(calls: seq<Call>) {
    forall i, j :: 0 <= i < j < |calls| ==> calls[i].now <= calls[j].now
  }

  /** The same signer used the same nonce, and its timestamp is still within the window. */
  ghost predicate Replays(earlier: Call, c: Call) {
    earlier.key == c.key && earlier.nonce == c.nonce && earlier.created + NONCE_WINDOW_SECONDS >= c.now
  }

  lemma {:induction false} MonotoneBlocks(calls: seq<Call>, i: nat, c: Call)
    requires Monotone(calls + [c]) && i < |calls|
    ensures Blocks(calls, i, c) <==> WasAccepted(calls, i) && Replays(calls[i], c)
  {
    var all := calls + [c];
    forall j | 0 <= j < |calls| ensures calls[j].now <= c.now {
      assert all[j].now <= all[|calls|].now;
    }
    hide WasAccepted, InWindow, Monotone;
  }

  /**
   * The sliding window decides exactly like a log that forgets nothing: while the clock does not go back, a request
   * is accepted if and only if its timestamp is in the window and no accepted request replays into it.
   */
  lemma {:induction false} WindowIsEnough(calls: seq<Call>, c: Call)
    requires Monotone(calls + [c])
    ensures Accept(BookAfter(calls), c).0.Ok? <==>
      InWindow(c) && forall i :: 0 <= i < |calls| && WasAccepted(calls, i) ==> !Replays(calls[i], c)
  {
    AcceptedIff(calls, c);
    hide Accept, BookAfter, WasAccepted, InWindow, Blocks, Replays, Monotone;
    forall i | 0 <= i < |calls| ensures Blocks(calls, i, c) <==> WasAccepted(calls, i) && Replays(calls[i], c) {
      MonotoneBlocks(calls, i, c);
    }
  }

  /** While the clock does not go back, the same request is accepted at most once in a run. */
  lemma {:induction false} NoReplayIsAccepted(calls: seq<Call>, i: nat, j: nat)
    requires Monotone(calls) && i < j < |calls| && SameRequest(calls[i], calls[j]) && WasAccepted(calls, i)
    ensures !WasAccepted(calls, j)
  {
    var before, c := calls[..j], calls[j];
    assert before + [c] == calls[..j + 1];
    assert before[..i] == calls[..i] && before[i] == calls[i];
    WindowIsEnough(before, c);
    assert WasAccepted(before, i);
    assert InWindow(c) ==> Replays(before[i], c);
    hide Accept, BookAfter;
  }

  /** Everything kept by a check that got past the window is recent. */
  lemma {:induction false} KeptIsRecent(calls: seq<Call>, c: Call, e: Entry)
    requires InWindow(c) && e in EntriesOf(Accept(BookAfter(calls), c).1, c.key)
    ensures SaturatingSub(c.now, e.created) <= NONCE_WINDOW_SECONDS
  {
    AcceptHas(BookAfter(calls), c, c.key, e);
    WindowMeansRecent(c);
  }

  /** While the clock does not go back, no entry is further in the future than the window allows either. */
  lemma {:induction false} KeptWithinWindow(calls: seq<Call>, c: Call, e: Entry)
    requires Monotone(calls + [c]) && InWindow(c) && e in EntriesOf(Accept(BookAfter(calls), c).1, c.key)
    ensures AbsDiff(c.now, e.created) <= NONCE_WINDOW_SECONDS
  {
    KeptIsRecent(calls, c, e);
    var all := calls + [c];
    assert all[..|all| - 1] == calls;
    BookHolds(all, c.key, e);
    var i :| 0 <= i < |all| && all[i].key == c.key && EntryOf(all[i]) == e && Remembered(all, i);
    assert InWindow(all[i]) && all[i].now <= all[|calls|].now;
  }

  // ---------------------------------------------------------------- a clock that steps back

  lemma {:induction false} RetainOne(e: Entry, now: u64)
    ensures Retain([e], now) == if Recent(e, now) then [e] else []
  {
    assert [e][..0] == [] && Retain([], now) == [];
    assert [] + [e] == [e];
  }

  lemma {:induction false} AcceptFirst(book: Book, c: Call)
    requires Retain(EntriesOf(book, c.key), c.now) == [] && AbsDiff(c.now, c.created) <= NONCE_WINDOW_SECONDS
    ensures Accept(book, c) == (Ok(()), book[c.key := [Entry(c.created, c.nonce)]])
  {
    assert [] + [Entry(c.created, c.nonce)] == [Entry(c.created, c.nonce)];
  }

  /** With a clock that steps back the window is not enough: the same request is accepted twice. */
  lemma {:induction false} ClockStepBackReplays(key: Key, nonce: Bytes, other: Bytes)
    requires nonce != other
    ensures var first, second := Call(key, 0, nonce, 0), Call(key, 121, other, 121);
      && Accept(BookAfter([]), first).0.Ok?
      && Accept(BookAfter([first, second]), first).0.Ok?
  {
    var first, second := Call(key, 0, nonce, 0), Call(key, 121, other, 121);
    assert [first, second][..1] == [first] && [first][..0] == [];
    var none: Book := map[];
    AcceptFirst(none, first);
    var one: Book := none[key := [Entry(0, nonce)]];
    RetainOne(Entry(0, nonce), 121);
    AcceptFirst(one, second);
    var two: Book := one[key := [Entry(121, other)]];
    RetainOne(Entry(121, other), 0);
    assert BookAfter([]) == none && BookAfter([first]) == one && BookAfter([first, second]) == two;
    hide BookAfter;
  }
}
