/**
 * Append-only event logs that are broadcast to subscribers and replayed to late ones.
 *
 * A `Wire` records, for every subscription, the messages it was successfully sent. A message carries one or more
 * log entries. `StreamOk` is the delivery invariant; each lemma below is one thing the coordinator does to a stream.
 */
module Streams {
  import opened Base

  type Wire<E> = map<SinkId, seq<seq<E>>>

  /** The coordinator's side of a stream: the log and the registered subscriptions. */
  datatype Stream<E> = Stream(log: seq<E>, sinks: seq<SinkId>)

  function Received<E>(w: Wire<E>, s: SinkId): seq<seq<E>> {
    if s in w then w[s] else []
  }

  function Flatten<E>(ms: seq<seq<E>>): seq<E> {
    if ms == [] then [] else Flatten(ms[..|ms| - 1]) + ms[|ms| - 1]
  }

  /** One message to every listed subscription; a subscription listed twice is sent the message twice. */
  function SendAll<E>(w: Wire<E>, sinks: seq<SinkId>, msg: seq<E>): Wire<E> {
    if sinks == [] then w
    else
      var w1 := SendAll(w, sinks[..|sinks| - 1], msg);
      var s := sinks[|sinks| - 1];
      w1[s := Received(w1, s) + [msg]]
  }

  /** The subscriptions whose send succeeded, in order. The others are pruned. */
  function Kept(sinks: seq<SinkId>, delivered: set<SinkId>): (r: seq<SinkId>)
    ensures forall s :: s in r <==> s in sinks && s in delivered
  {
    if sinks == [] then []
    else
      var front, s := sinks[..|sinks| - 1], sinks[|sinks| - 1];
      assert forall x :: x in sinks <==> x in front || x == s;
      if s in delivered then Kept(front, delivered) + [s] else Kept(front, delivered)
  }

  /** One message per entry: how a plain log is replayed. */
  function Singly<E>(log: seq<E>): (r: seq<seq<E>>)
    ensures |r| == |log|
    ensures forall k :: 0 <= k < |log| ==> r[k] == [log[k]]
  {
    seq(|log|, k requires 0 <= k < |log| => [log[k]])
  }

  /** The whole history as one message, or nothing when it is empty: how an assigned log is replayed. */
  function AsBatch<E>(log: seq<E>): seq<seq<E>> {
    if log == [] then [] else [log]
  }

  lemma {:induction false} KeptNoDup(sinks: seq<SinkId>, delivered: set<SinkId>)
    requires NoDup(sinks)
    ensures NoDup(Kept(sinks, delivered))
  {
    if sinks != [] {
      var front := sinks[..|sinks| - 1];
      KeptNoDup(front, delivered);
      assert forall i :: 0 <= i < |front| ==> front[i] == sinks[i];
    }
  }

  lemma {:induction false} SendAllReceived<E>(w: Wire<E>, sinks: seq<SinkId>, msg: seq<E>, s: SinkId)
    requires NoDup(sinks)
    ensures Received(SendAll(w, sinks, msg), s) == if s in sinks then Received(w, s) + [msg] else Received(w, s)
    ensures s in SendAll(w, sinks, msg) <==> s in w || s in sinks
  {
    if sinks != [] {
      var front := sinks[..|sinks| - 1];
      SendAllReceived(w, front, msg, s);
      assert sinks == front + [sinks[|sinks| - 1]];
      assert sinks[|sinks| - 1] !in front;
    }
  }

  lemma {:induction false} FlattenSingly<E>(log: seq<E>)
    ensures Flatten(Singly(log)) == log
  {
    if log != [] {
      var front := log[..|log| - 1];
      FlattenSingly(front);
      assert Singly(log)[..|log| - 1] == Singly(front);
      assert log == front + [log[|log| - 1]];
    }
  }

  lemma {:induction false} FlattenAsBatch<E>(log: seq<E>)
    ensures Flatten(AsBatch(log)) == log
  {
    if log != [] {
      assert AsBatch(log)[..0] == [];
      assert Flatten(AsBatch(log)) == [] + log;
    }
  }

  /** Messages are never empty; on a plain stream they carry exactly one entry. */
  ghost predicate Shaped<E>(ms: seq<seq<E>>, single: bool) {
    forall k :: 0 <= k < |ms| ==> ms[k] != [] && (single ==> |ms[k]| == 1)
  }

  /** Subscription `s` has been sent exactly `log`: in order, without a gap and without a repeat. */
  ghost predicate UpTo<E>(w: Wire<E>, s: SinkId, log: seq<E>, single: bool) {
    Flatten(Received(w, s)) == log && Shaped(Received(w, s), single)
  }

  /** Flattened singletons determine the messages: on a plain stream, "sent the log" fixes every message. */
  lemma {:induction false} SingleMessages<E>(ms: seq<seq<E>>)
    requires Shaped(ms, true)
    ensures ms == Singly(Flatten(ms))
  {
    if ms != [] {
      var front, last := ms[..|ms| - 1], ms[|ms| - 1];
      assert Shaped(front, true) by {
        assert forall k :: 0 <= k < |front| ==> front[k] == ms[k];
      }
      SingleMessages(front);
      assert last == [last[0]];
      assert Flatten(ms) == Flatten(front) + [last[0]];
      assert ms == front + [last];
      assert Singly(Flatten(ms)) == Singly(Flatten(front)) + [last];
    }
  }

  /**
   * The delivery invariant. `pending` are the subscriptions taken out of the list while `msg`, the last entries
   * of the log, is on its way to them; `done` tells which of those sends have finished and how.
   */
  ghost predicate StreamOk<E>(w: Wire<E>, st: Stream<E>, pending: seq<SinkId>, msg: seq<E>, done: map<SinkId, bool>,
                              bound: SinkId, single: bool)
  {
    && NoDup(st.sinks + pending)
    && Numbered(w, st.sinks, bound) && Numbered(w, pending, bound)
    && |msg| <= |st.log| && st.log[|st.log| - |msg|..] == msg
    && (forall s :: s in st.sinks ==> UpTo(w, s, st.log, single))
    && (forall s :: s in pending ==> UpTo(w, s, Expected(st.log, msg, done, s), single))
  }

  /** Subscription numbers in use are below `bound`, so the next one is new. */
  ghost predicate Numbered<E>(w: Wire<E>, sinks: seq<SinkId>, bound: SinkId) {
    (forall s :: s in sinks ==> s < bound) && (forall s :: s in w ==> s < bound)
  }

  /** What a subscription in flight has been sent: everything, or everything but the last message. */
  function Expected<E>(log: seq<E>, msg: seq<E>, done: map<SinkId, bool>, s: SinkId): seq<E>
    requires |msg| <= |log|
  {
    if s in done && done[s] then log else log[..|log| - |msg|]
  }

  lemma {:induction false} NoDupParts<T>(a: seq<T>, b: seq<T>)
    ensures NoDup(a + b) <==> NoDup(a) && NoDup(b) && forall x :: x in a ==> x !in b
  {
    if NoDup(a + b) {
      assert forall i :: 0 <= i < |a| ==> (a + b)[i] == a[i];
      assert forall j :: 0 <= j < |b| ==> (a + b)[|a| + j] == b[j];
    } else if NoDup(a) && NoDup(b) {
      var i, j :| 0 <= i < j < |a + b| && (a + b)[i] == (a + b)[j];
      assert i < |a| <= j;
      assert a[i] == b[j - |a|] && b[j - |a|] in b;
    }
  }

  lemma {:induction false} UpToSent<E>(w: Wire<E>, s: SinkId, log: seq<E>, msg: seq<E>, w': Wire<E>, single: bool)
    requires UpTo(w, s, log, single)
    requires Received(w', s) == Received(w, s) + [msg]
    requires msg != [] && (single ==> |msg| == 1)
    ensures UpTo(w', s, log + msg, single)
  {
    var ms, ms' := Received(w, s), Received(w', s);
    assert ms'[..|ms'| - 1] == ms;
  }

  // ---------------------------------------------------------------- what the coordinator does to a stream

  /** A later bound on subscription numbers changes nothing. */
  lemma {:induction false} StreamBound<E>(w: Wire<E>, st: Stream<E>, pending: seq<SinkId>, msg: seq<E>,
                                          done: map<SinkId, bool>, bound: SinkId, bound': SinkId, single: bool)
    requires StreamOk(w, st, pending, msg, done, bound, single) && bound <= bound'
    ensures StreamOk(w, st, pending, msg, done, bound', single)
  {
  }

  lemma {:induction false} NoDupPush<T>(a: seq<T>, b: seq<T>, x: T)
    requires NoDup(a + b) && x !in a && x !in b
    ensures NoDup((a + [x]) + b)
  {
    NoDupParts(a, b);
    NoDupParts(a, [x]);
    NoDupParts(a + [x], b);
  }

  lemma {:induction false} UpToElsewhere<E>(w: Wire<E>, s: SinkId, log: seq<E>, single: bool, x: SinkId,
                                            ms: seq<seq<E>>)
    requires UpTo(w, s, log, single) && x != s
    ensures UpTo(w[x := ms], s, log, single)
  {
    hide Flatten, Shaped;
    assert Received(w[x := ms], s) == Received(w, s);
  }

  lemma {:induction false} NumberedPush<E>(w: Wire<E>, sinks: seq<SinkId>, bound: SinkId, ms: seq<seq<E>>)
    requires Numbered(w, sinks, bound)
    ensures Numbered(w[bound := ms], sinks, bound + 1) && Numbered(w[bound := ms], sinks + [bound], bound + 1)
    ensures bound !in sinks
  {
  }

  /** A new subscription replays the log and is registered, possibly while a message is on its way to others. */
  lemma {:induction false} StreamSubscribe<E>(w: Wire<E>, st: Stream<E>, pending: seq<SinkId>, msg: seq<E>,
                                              done: map<SinkId, bool>, bound: SinkId, single: bool, replay: seq<seq<E>>)
    requires StreamOk(w, st, pending, msg, done, bound, single)
    requires Flatten(replay) == st.log && Shaped(replay, single)
    ensures StreamOk(w[bound := replay], Stream(st.log, st.sinks + [bound]), pending, msg, done, bound + 1, single)
  {
    var w' := w[bound := replay];
    NoDupPush(st.sinks, pending, bound);
    NumberedPush(w, st.sinks, bound, replay);
    NumberedPush(w, pending, bound, replay);
    assert UpTo(w', bound, st.log, single);
    hide UpTo, NoDup, Numbered, Expected;
    forall s | s in st.sinks ensures UpTo(w', s, st.log, single) {
      UpToElsewhere(w, s, st.log, single, bound, replay);
    }
    forall s | s in pending ensures UpTo(w', s, Expected(st.log, msg, done, s), single) {
      UpToElsewhere(w, s, Expected(st.log, msg, done, s), single, bound, replay);
    }
  }

  /** A broadcast made inside the lock: every send finishes before the lock is released. */
  lemma {:induction false} StreamBroadcast<E>(w: Wire<E>, st: Stream<E>, bound: SinkId, single: bool, msg: seq<E>,
                                              delivered: set<SinkId>)
    requires StreamOk(w, st, [], [], map[], bound, single)
    requires msg != [] && (single ==> |msg| == 1)
    ensures var kept := Kept(st.sinks, delivered);
      StreamOk(SendAll(w, kept, msg), Stream(st.log + msg, kept), [], [], map[], bound, single)
  {
    hide Flatten, Shaped, NoDup, SendAll;
    var kept := Kept(st.sinks, delivered);
    var w' := SendAll(w, kept, msg);
    assert st.sinks + [] == st.sinks && kept + [] == kept;
    KeptNoDup(st.sinks, delivered);
    forall s ensures Received(w', s) == if s in kept then Received(w, s) + [msg] else Received(w, s) {
      SendAllReceived(w, kept, msg, s);
    }
    forall s | s in w' ensures s < bound {
      SendAllReceived(w, kept, msg, s);
    }
    forall s | s in kept ensures UpTo(w', s, st.log + msg, single) {
      UpToSent(w, s, st.log, msg, w', single);
    }
  }

  /** The first half of a submission appends `msg` and takes the subscriptions out of the list. */
  lemma {:induction false} StreamTake<E>(w: Wire<E>, st: Stream<E>, bound: SinkId, single: bool, msg: seq<E>)
    requires StreamOk(w, st, [], [], map[], bound, single)
    ensures StreamOk(w, Stream(st.log + msg, []), st.sinks, msg, map[], bound, single)
  {
    hide Flatten, Shaped, NoDup;
    assert st.sinks + [] == st.sinks && [] + st.sinks == st.sinks;
    var log := st.log + msg;
    forall s | s in st.sinks ensures UpTo(w, s, Expected(log, msg, map[], s), single) {
      assert Expected(log, msg, map[], s) == log[..|log| - |msg|] == st.log;
    }
  }

  lemma {:induction false} SendOne<E>(w: Wire<E>, s: SinkId, msg: seq<E>)
    ensures SendAll(w, [s], msg) == w[s := Received(w, s) + [msg]]
  {
    assert [s][..0] == [];
  }

  lemma {:induction false} ExpectedElsewhere<E>(w: Wire<E>, log: seq<E>, msg: seq<E>, done: map<SinkId, bool>,
                                                single: bool, s: SinkId, ok: bool, ms: seq<seq<E>>, x: SinkId)
    requires |msg| <= |log| && x != s
    requires UpTo(w, x, Expected(log, msg, done, x), single)
    ensures UpTo(w[s := ms], x, Expected(log, msg, done[s := ok], x), single)
    ensures UpTo(w, x, Expected(log, msg, done[s := ok], x), single)
  {
    hide Flatten, Shaped;
    assert Received(w[s := ms], x) == Received(w, x);
    assert Expected(log, msg, done[s := ok], x) == Expected(log, msg, done, x);
  }

  /** One of the outstanding sends finishes well: that subscription now has the whole log. */
  lemma {:induction false} StreamDelivered<E>(w: Wire<E>, st: Stream<E>, pending: seq<SinkId>, msg: seq<E>,
                                              done: map<SinkId, bool>, bound: SinkId, single: bool, s: SinkId)
    requires StreamOk(w, st, pending, msg, done, bound, single)
    requires msg != [] && (single ==> |msg| == 1)
    requires s in pending && s !in done
    ensures StreamOk(SendAll(w, [s], msg), st, pending, msg, done[s := true], bound, single)
  {
    hide Flatten, Shaped, NoDup, SendAll;
    SendOne(w, s, msg);
    NoDupParts(st.sinks, pending);
    var ms := Received(w, s) + [msg];
    var w' := w[s := ms];
    forall x | x in st.sinks ensures UpTo(w', x, st.log, single) {
      assert x != s && Received(w', x) == Received(w, x);
    }
    forall x | x in pending ensures UpTo(w', x, Expected(st.log, msg, done[s := true], x), single) {
      if x != s {
        ExpectedElsewhere(w, st.log, msg, done, single, s, true, ms, x);
      } else {
        var prev := st.log[..|st.log| - |msg|];
        UpToSent(w, s, prev, msg, w', single);
        assert prev + msg == st.log;
      }
    }
  }

  /** One of the outstanding sends fails or times out. */
  lemma {:induction false} StreamDeliveryFailed<E>(w: Wire<E>, st: Stream<E>, pending: seq<SinkId>, msg: seq<E>,
                                                   done: map<SinkId, bool>, bound: SinkId, single: bool, s: SinkId)
    requires StreamOk(w, st, pending, msg, done, bound, single)
    requires s in pending && s !in done
    ensures StreamOk(w, st, pending, msg, done[s := false], bound, single)
  {
    hide Flatten, Shaped, NoDup;
    forall x | x in pending ensures UpTo(w, x, Expected(st.log, msg, done[s := false], x), single) {
      if x != s { ExpectedElsewhere(w, st.log, msg, done, single, s, false, [], x); }
    }
  }

  /** A send to a subscription of another stream changes nothing here. */
  lemma {:induction false} StreamDoneElsewhere<E>(w: Wire<E>, st: Stream<E>, pending: seq<SinkId>, msg: seq<E>,
                                                  done: map<SinkId, bool>, bound: SinkId, single: bool, s: SinkId,
                                                    ok: bool)
    requires StreamOk(w, st, pending, msg, done, bound, single)
    requires s !in pending
    ensures StreamOk(w, st, pending, msg, done[s := ok], bound, single)
  {
    hide Flatten, Shaped, NoDup;
    forall x | x in pending ensures UpTo(w, x, Expected(st.log, msg, done[s := ok], x), single) {
      ExpectedElsewhere(w, st.log, msg, done, single, s, ok, [], x);
    }
  }

  /** The second half of a submission puts back the subscriptions whose send succeeded. */
  lemma {:induction false} StreamRestore<E>(w: Wire<E>, st: Stream<E>, pending: seq<SinkId>, msg: seq<E>,
                                            done: map<SinkId, bool>, bound: SinkId, single: bool,
                                              delivered: set<SinkId>)
    requires StreamOk(w, st, pending, msg, done, bound, single)
    requires forall s :: s in pending && s in delivered ==> s in done && done[s]
    ensures StreamOk(w, Stream(st.log, st.sinks + Kept(pending, delivered)), [], [], map[], bound, single)
  {
    hide Flatten, Shaped, NoDup;
    var kept := Kept(pending, delivered);
    NoDupParts(st.sinks, pending);
    KeptNoDup(pending, delivered);
    NoDupParts(st.sinks, kept);
    assert st.sinks + kept + [] == st.sinks + kept;
  }
}
