/**
 * When the output key is in the end that of the submission the coordinator recorded last, although submissions pin and
 * bind calls insert after their locks are released.
 */
module BrowserOrder {
  import opened Base
  import opened Topology
  import opened ExecutionModel
  import opened ExecutionRuns
  import opened InputProps
  import opened Completion
  import opened BrowserSessions

  /** A recorded submission of `key` that has not pinned yet. */
  ghost predicate Pending(k: Books, key: ExecutionClient, t: Token) {
    && t in k.bindings.byToken && k.bindings.byToken[t].client == key.1
    && ((key.0 in k.flights && k.flights[key.0] == t) || (key.0, t) in k.toPin)
  }

  /** Nothing that may still write the output key of `key` is under way. */
  ghost predicate Quiescent(k: Books, key: ExecutionClient) {
    (forall t :: !Pending(k, key, t)) && forall j :: 0 <= j < |k.toBind| ==> !BindFor(k.toBind[j], key)
  }

  /** Everything that may still write the output key of `key` writes `x`, and something will unless it is `x` now. */
  ghost predicate Agreed(k: Books, key: ExecutionClient, x: Option<Bytes>) {
    && (forall t :: Pending(k, key, t) ==> Some(k.bindings.byToken[t].ecdh) == x)
    && (forall j :: 0 <= j < |k.toBind| && BindFor(k.toBind[j], key) ==> Some(k.toBind[j].1.ecdh) == x)
    && (Resolve(k.bindings, key.0, key.1) == x || exists t :: Pending(k, key, t))
  }

  /** The key of the session behind the submission recorded last. */
  ghost function LastKey(k: Books, key: ExecutionClient): Option<Bytes> {
    var tokens := RecordedOf(k.recorded, key);
    if tokens != [] && tokens[|tokens| - 1] in k.bindings.byToken
    then Some(k.bindings.byToken[tokens[|tokens| - 1]].ecdh) else None
  }

  // ---------------------------------------------------------------- agreement stays

  /** The move records no submission of `key`. */
  ghost predicate Silent(k: Books, k': Books, key: ExecutionClient) {
    RecordedOf(k'.recorded, key) == RecordedOf(k.recorded, key)
  }

  lemma {:induction false} PendingBefore(k: Books, k': Books, m: Move, key: ExecutionClient, t: Token)
    requires SessionsOk(k) && Goes(k, k', m) && Silent(k, k', key) && Pending(k', key, t)
    ensures Pending(k, key, t) && k'.bindings.byToken[t] == k.bindings.byToken[t]
  {
    hide Grows, OwnSession;
    if (key.0, t) in k'.toPin && !m.Land? { assert (key.0, t) in k.toPin; }
    if (key.0, t) in k.toPin {
      var j :| 0 <= j < |k.toPin| && k.toPin[j] == (key.0, t);
      assert Submitter(k, k.toPin[j].0, k.toPin[j].1);
    }
  }

  /** A pending submission stays pending until it pins. */
  lemma {:induction false} PendingAfter(k: Books, k': Books, m: Move, key: ExecutionClient, t: Token)
    requires SessionsOk(k) && Goes(k, k', m) && Pending(k, key, t)
    ensures Pending(k', key, t) || (m.Settle? && k.toPin[m.k] == (key.0, t))
  {
    hide Grows, OwnSession, Submitter;
    if (key.0, t) in k.toPin {
      var j :| 0 <= j < |k.toPin| && k.toPin[j] == (key.0, t);
      if m.Settle? && j != m.k {
        assert k'.toPin[if j < m.k then j else j - 1] == (key.0, t);
      } else if !m.Settle? {
        assert k'.toPin[j] == (key.0, t);
      }
    } else if m == Land(key.0) {
      assert k'.toPin[|k.toPin|] == (key.0, t);
    }
  }

  lemma {:induction false} BindsBefore(k: Books, k': Books, m: Move, key: ExecutionClient, j: nat)
    requires Goes(k, k', m) && Barred(k, key) && j < |k'.toBind| && BindFor(k'.toBind[j], key)
    ensures k'.toBind[j] in k.toBind
  {
    hide Grows;
  }

  /** A write to the output key is one of those under way. */
  lemma {:induction false} WriterIs(k: Books, k': Books, m: Move, key: ExecutionClient)
    requires SessionsOk(k) && Goes(k, k', m)
    ensures var r := Resolve(k'.bindings, key.0, key.1);
      if m.Settle? && Pending(k, key, k.toPin[m.k].1) && k.toPin[m.k].0 == key.0 then
        r == Some(k.bindings.byToken[k.toPin[m.k].1].ecdh)
      else if m.Enter? && BindFor(k.toBind[m.k], key) then r == Some(k.toBind[m.k].1.ecdh)
      else r == Resolve(k.bindings, key.0, key.1)
  {
    hide Grows, OwnSession;
    if m.Settle? { assert Submitter(k, k.toPin[m.k].0, k.toPin[m.k].1) && k.toPin[m.k] in k.toPin; }
  }

  lemma {:induction false} StaysAgreed(k: Books, k': Books, m: Move, key: ExecutionClient, x: Option<Bytes>)
    requires SessionsOk(k) && Goes(k, k', m) && Silent(k, k', key) && Barred(k, key) && Agreed(k, key, x)
    ensures Barred(k', key) && Agreed(k', key, x)
  {
    assert Barred(k', key);
    WriterIs(k, k', m, key);
    hide SessionsOk, Goes, Silent, Barred, Resolve, BindFor, Pending;
    forall t | Pending(k', key, t) ensures Some(k'.bindings.byToken[t].ecdh) == x {
      PendingBefore(k, k', m, key, t);
    }
    forall j | 0 <= j < |k'.toBind| && BindFor(k'.toBind[j], key) ensures Some(k'.toBind[j].1.ecdh) == x {
      BindsBefore(k, k', m, key, j);
    }
    if Resolve(k'.bindings, key.0, key.1) != x {
      var t :| Pending(k, key, t);
      PendingAfter(k, k', m, key, t);
    }
  }

  lemma {:induction false} RecordedGrows(c: Config, before: seq<BrowserAction>, later: seq<BrowserAction>,
                                         key: ExecutionClient)
    requires ValidConfig(c)
    ensures RecordedOf(BrowserRun(c, before).recorded, key) <= RecordedOf(BrowserRun(c, before + later).recorded, key)
  {
    hide BrowserRun, WorldsOk, BrowserStep;
    if later == [] {
      assert before + later == before;
    } else {
      var front, a := later[..|later| - 1], later[|later| - 1];
      RecordedGrows(c, before, front, key);
      assert before + later == (before + front) + [a];
      BrowserPush(c, before + front, a);
      var b := BrowserRun(c, before + front);
      var m := StepMoves(c, b, a);
      MoveRecords(BooksOf(b), BooksOf(BrowserStep(c, b, a)), m, key);
    }
  }

  lemma {:induction false} MoveRecords(k: Books, k': Books, m: Move, key: ExecutionClient)
    requires Goes(k, k', m)
    ensures RecordedOf(k.recorded, key) <= RecordedOf(k'.recorded, key)
  {
    hide Grows;
  }

  lemma {:induction false} AgreedRun(c: Config, before: seq<BrowserAction>, later: seq<BrowserAction>,
                                     key: ExecutionClient, x: Option<Bytes>)
    requires ValidConfig(c)
    requires var k, k' := BooksOf(BrowserRun(c, before)), BooksOf(BrowserRun(c, before + later));
      Barred(k, key) && Agreed(k, key, x) && Silent(k, k', key)
    ensures var k' := BooksOf(BrowserRun(c, before + later)); Barred(k', key) && Agreed(k', key, x)
  {
    hide BrowserRun, WorldsOk, BrowserStep, Barred, Agreed, SessionsOk, Goes, KnownOf, RecordedOf;
    if later == [] {
      assert before + later == before;
    } else {
      var front, a := later[..|later| - 1], later[|later| - 1];
      var mid := before + front;
      assert before + later == mid + [a];
      RecordedGrows(c, before, front, key);
      RecordedGrows(c, mid, [a], key);
      AgreedRun(c, before, front, key, x);
      BrowserPush(c, mid, a);
      AlwaysSessions(c, mid);
      var b := BrowserRun(c, mid);
      var m := StepMoves(c, b, a);
      StaysAgreed(BooksOf(b), BooksOf(BrowserStep(c, b, a)), m, key, x);
    }
  }

  // ---------------------------------------------------------------- every order of what is under way can happen

  lemma {:induction false} Join(c: Config, before: seq<BrowserAction>, a: BrowserAction, rest: seq<BrowserAction>)
    requires ValidConfig(c)
    ensures BrowserRun(c, before + ([a] + rest)) == BrowserRun(c, before + [a] + rest)
  {
    assert before + ([a] + rest) == before + [a] + rest;
  }

  /** All bind calls fail the signature counter. */
  lemma {:induction false} RejectAll(c: Config, before: seq<BrowserAction>) returns (later: seq<BrowserAction>)
    requires ValidConfig(c)
    ensures BrowserRun(c, before + later) == BrowserRun(c, before).(toBind := [])
    decreases |BrowserRun(c, before).toBind|
  {
    hide BrowserRun, WorldsOk;
    var b := BrowserRun(c, before);
    if b.toBind == [] {
      later := [];
      assert before + later == before;
    } else {
      var a := FinishBind(0, false, []);
      BrowserPush(c, before, a);
      var rest := RejectAll(c, before + [a]);
      Join(c, before, a, rest);
      later := [a] + rest;
    }
  }

  /** All bind calls but one do. */
  lemma {:induction false} RejectOthers(c: Config, before: seq<BrowserAction>, j: nat)
    returns (later: seq<BrowserAction>)
    requires ValidConfig(c) && j < |BrowserRun(c, before).toBind|
    ensures BrowserRun(c, before + later) == BrowserRun(c, before).(toBind := [BrowserRun(c, before).toBind[j]])
    decreases |BrowserRun(c, before).toBind|
  {
    hide BrowserRun, WorldsOk;
    var b := BrowserRun(c, before);
    if |b.toBind| == 1 {
      later := [];
      assert before + later == before;
    } else {
      var a := FinishBind(if j > 0 then 0 else 1, false, []);
      BrowserPush(c, before, a);
      var rest := RejectOthers(c, before + [a], if j > 0 then j - 1 else 0);
      Join(c, before, a, rest);
      later := [a] + rest;
    }
  }

  /** What pinning leaves alone. */
  ghost predicate OnlyPinned(b: BrowserWorld, b': BrowserWorld) {
    && b' == b.(bindings := b'.bindings, toPin := b'.toPin, latest := b'.latest)
    && b'.bindings.byToken == b.bindings.byToken
  }

  lemma {:induction false} PinAll(c: Config, before: seq<BrowserAction>) returns (later: seq<BrowserAction>)
    requires ValidConfig(c)
    ensures var b' := BrowserRun(c, before + later); OnlyPinned(BrowserRun(c, before), b') && b'.toPin == []
    decreases |BrowserRun(c, before).toPin|
  {
    hide BrowserRun, WorldsOk;
    var b := BrowserRun(c, before);
    if b.toPin == [] {
      later := [];
      assert before + later == before;
    } else {
      var a := FinishSubmit(0);
      BrowserPush(c, before, a);
      var rest := PinAll(c, before + [a]);
      Join(c, before, a, rest);
      later := [a] + rest;
    }
  }

  lemma {:induction false} PinOthers(c: Config, before: seq<BrowserAction>, j: nat) returns (later: seq<BrowserAction>)
    requires ValidConfig(c) && j < |BrowserRun(c, before).toPin|
    ensures var b, b' := BrowserRun(c, before), BrowserRun(c, before + later);
      OnlyPinned(b, b') && b'.toPin == [b.toPin[j]]
    decreases |BrowserRun(c, before).toPin|
  {
    hide BrowserRun, WorldsOk;
    var b := BrowserRun(c, before);
    if |b.toPin| == 1 {
      later := [];
      assert before + later == before;
    } else {
      var a := FinishSubmit(if j > 0 then 0 else 1);
      BrowserPush(c, before, a);
      var rest := PinOthers(c, before + [a], if j > 0 then j - 1 else 0);
      Join(c, before, a, rest);
      later := [a] + rest;
    }
  }

  function AsNatives(id: ExecutionId, acts: seq<Action>): (r: seq<BrowserAction>)
    ensures |r| == |acts| && forall k :: 0 <= k < |r| ==> r[k] == Native(id, acts[k])
  {
    seq(|acts|, k requires 0 <= k < |acts| => Native(id, acts[k]))
  }

  function Landed(b: BrowserWorld, id: ExecutionId): BrowserWorld {
    if id in b.flights then b.(flights := b.flights - {id}, toPin := b.toPin + [(id, b.flights[id])]) else b
  }

  /** Only the executions changed, except that the browser submission of `id` may have landed. */
  ghost predicate MayLand(b: BrowserWorld, b': BrowserWorld, id: ExecutionId) {
    b' == b.(worlds := b'.worlds) || b' == Landed(b, id).(worlds := b'.worlds)
  }

  lemma {:induction false} LandOnce(b0: BrowserWorld, b1: BrowserWorld, b2: BrowserWorld, id: ExecutionId)
    requires MayLand(b0, b1, id) && MayLand(b1, b2, id)
    ensures MayLand(b0, b2, id)
  {
  }

  lemma {:induction false} NativeStep(c: Config, b: BrowserWorld, id: ExecutionId, a: Action)
    requires ValidConfig(c) && WorldsOk(b.worlds) && id in b.worlds && Sized(b.worlds[id].e)
    ensures var b' := BrowserStep(c, b, Native(id, a));
      id in b'.worlds && b'.worlds[id] == Step(c, b.worlds[id], a) && MayLand(b, b', id)
  {
    hide WorldsOk, Step, Sized, ValidConfig;
  }

  lemma {:induction false} RunPush(c: Config, w: World, acts: seq<Action>)
    requires ValidConfig(c) && Sized(w.e)
    ensures Run(c, w, acts) == if acts == [] then w else Step(c, Run(c, w, acts[..|acts| - 1]), acts[|acts| - 1])
  {
    hide Step;
  }

  lemma {:induction false} RunsAreSized(c: Config, before: seq<BrowserAction>, id: ExecutionId)
    requires ValidConfig(c) && id in BrowserRun(c, before).worlds
    ensures Sized(BrowserRun(c, before).worlds[id].e)
  {
    hide BrowserRun;
    SlotsFit(BrowserRun(c, before).worlds[id].e);
  }

  /** A run of one execution leaves everything else alone, except that its browser submission may land. */
  lemma {:induction false} NativeRun(c: Config, before: seq<BrowserAction>, id: ExecutionId, acts: seq<Action>)
    requires ValidConfig(c) && id in BrowserRun(c, before).worlds
    ensures var b, b' := BrowserRun(c, before), BrowserRun(c, before + AsNatives(id, acts));
      && Sized(b.worlds[id].e) && id in b'.worlds && b'.worlds[id] == Run(c, b.worlds[id], acts) && MayLand(b, b', id)
  {
    hide BrowserRun, WorldsOk, Step, Run, Sized, ValidConfig, BrowserStep, MayLand;
    var b := BrowserRun(c, before);
    RunsAreSized(c, before, id);
    RunPush(c, b.worlds[id], acts);
    if acts == [] {
      assert before + AsNatives(id, acts) == before;
      assert MayLand(b, b, id) by { Stay(b, id); }
    } else {
      var front, a := acts[..|acts| - 1], acts[|acts| - 1];
      NativeRun(c, before, id, front);
      var mid := before + AsNatives(id, front);
      assert before + AsNatives(id, acts) == mid + [Native(id, a)];
      BrowserPush(c, mid, Native(id, a));
      RunsAreSized(c, mid, id);
      NativeStep(c, BrowserRun(c, mid), id, a);
      LandOnce(b, BrowserRun(c, mid), BrowserRun(c, mid + [Native(id, a)]), id);
    }
  }

  lemma {:induction false} Stay(b: BrowserWorld, id: ExecutionId)
    ensures MayLand(b, b, id)
  {
  }

  /** The submission in flight can always be brought to its pin. */
  lemma {:induction false} LandFlight(c: Config, before: seq<BrowserAction>, id: ExecutionId)
    returns (later: seq<BrowserAction>)
    requires ValidConfig(c) && id in BrowserRun(c, before).worlds
    ensures var b, b' := BrowserRun(c, before), BrowserRun(c, before + later);
      id in b'.worlds && b' == Landed(b, id).(worlds := b'.worlds)
  {
    var b := BrowserRun(c, before);
    if id !in b.flights {
      later := [];
      assert before + later == before;
    } else {
      AlwaysSessions(c, before);
      assert BooksOf(b).open[id].busy;
      SlotsFit(b.worlds[id].e);
      hide BrowserRun, WorldsOk, Step, Run, Sized, TablesOk, SubmittedBy;
      var acts := EndFlight(c, b.worlds[id]);
      later := AsNatives(id, acts);
      NativeRun(c, before, id, acts);
      AlwaysSessions(c, before + later);
      var b' := BrowserRun(c, before + later);
      if id in b'.flights { assert false; }
    }
  }

  lemma {:induction false} LongerThanAll(tokens: set<Token>) returns (n: nat)
    ensures forall t :: t in tokens ==> |t| < n
  {
    if tokens == {} {
      n := 0;
    } else {
      var t :| t in tokens;
      var rest := LongerThanAll(tokens - {t});
      n := if |t| < rest then rest else |t| + 1;
    }
  }

  lemma {:induction false} FreshToken(byToken: map<Token, WebauthnBinding>) returns (t: Token)
    ensures t !in byToken
  {
    var n := LongerThanAll(byToken.Keys);
    t := seq(n, _ => 0);
  }

  // ---------------------------------------------------------------- results

  /** `later` finishes what is under way for `key` and records no further submission of it. */
  ghost predicate Finishes(c: Config, before: seq<BrowserAction>, later: seq<BrowserAction>, key: ExecutionClient)
    requires ValidConfig(c)
  {
    var k, k' := BooksOf(BrowserRun(c, before)), BooksOf(BrowserRun(c, before + later));
    Silent(k, k', key) && Quiescent(k', key)
  }

  ghost function FinalKey(c: Config, before: seq<BrowserAction>, later: seq<BrowserAction>,
                          key: ExecutionClient): Option<Bytes>
    requires ValidConfig(c)
  {
    Resolve(BrowserRun(c, before + later).bindings, key.0, key.1)
  }

  lemma {:induction false} NothingLeft(b: BrowserWorld, key: ExecutionClient)
    requires key.0 !in b.flights && b.toPin == [] && b.toBind == []
    ensures Quiescent(BooksOf(b), key)
  {
    hide KnownOf;
  }

  lemma {:induction false} FinishAll(c: Config, before: seq<BrowserAction>, key: ExecutionClient)
    returns (later: seq<BrowserAction>)
    requires ValidConfig(c) && key.0 in BrowserRun(c, before).worlds
    ensures Finishes(c, before, later, key)
  {
    hide BrowserRun, WorldsOk, Quiescent;
    var l1 := LandFlight(c, before, key.0);
    var l2 := RejectAll(c, before + l1);
    var l3 := PinAll(c, before + l1 + l2);
    later := l1 + l2 + l3;
    assert before + later == before + l1 + l2 + l3;
    NothingLeft(BrowserRun(c, before + later), key);
  }

  /** Any pending submission can be the last to write the key. */
  lemma {:induction false} PinLast(c: Config, before: seq<BrowserAction>, key: ExecutionClient, t: Token)
    returns (later: seq<BrowserAction>)
    requires ValidConfig(c) && key.0 in BrowserRun(c, before).worlds && Pending(BooksOf(BrowserRun(c, before)), key, t)
    ensures Finishes(c, before, later, key)
    ensures FinalKey(c, before, later, key) == Some(BrowserRun(c, before).bindings.byToken[t].ecdh)
  {
    hide BrowserRun, WorldsOk, Quiescent, KnownOf;
    var l1 := LandFlight(c, before, key.0);
    var b1 := BrowserRun(c, before + l1);
    assert (key.0, t) in b1.toPin;
    var j :| 0 <= j < |b1.toPin| && b1.toPin[j] == (key.0, t);
    var l2 := RejectAll(c, before + l1);
    var l3 := PinOthers(c, before + l1 + l2, j);
    var mid := before + l1 + l2 + l3;
    BrowserPush(c, mid, FinishSubmit(0));
    later := l1 + l2 + l3 + [FinishSubmit(0)];
    assert before + later == mid + [FinishSubmit(0)];
    NothingLeft(BrowserRun(c, before + later), key);
  }

  /** So can any bind call that waits. */
  lemma {:induction false} InsertLast(c: Config, before: seq<BrowserAction>, key: ExecutionClient, j: nat)
    returns (later: seq<BrowserAction>)
    requires ValidConfig(c) && key.0 in BrowserRun(c, before).worlds
    requires j < |BrowserRun(c, before).toBind| && BindFor(BrowserRun(c, before).toBind[j], key)
    ensures Finishes(c, before, later, key)
    ensures FinalKey(c, before, later, key) == Some(BrowserRun(c, before).toBind[j].1.ecdh)
  {
    hide BrowserRun, WorldsOk, Quiescent, KnownOf;
    var l1 := LandFlight(c, before, key.0);
    var l2 := PinAll(c, before + l1);
    var l3 := RejectOthers(c, before + l1 + l2, j);
    var mid := before + l1 + l2 + l3;
    var t := FreshToken(BrowserRun(c, mid).bindings.byToken);
    var a := FinishBind(0, true, [t]);
    BrowserPush(c, mid, a);
    later := l1 + l2 + l3 + [a];
    assert before + later == mid + [a];
    NothingLeft(BrowserRun(c, before + later), key);
  }

  /** If nothing is pending, the key may be left as it is. */
  lemma {:induction false} LeaveIt(c: Config, before: seq<BrowserAction>, key: ExecutionClient)
    returns (later: seq<BrowserAction>)
    requires ValidConfig(c) && forall t :: !Pending(BooksOf(BrowserRun(c, before)), key, t)
    ensures Finishes(c, before, later, key) && FinalKey(c, before, later, key) == FinalKey(c, before, [], key)
  {
    later := RejectAll(c, before);
    assert before + [] == before;
    hide BrowserRun, WorldsOk, KnownOf;
    var k, k' := BooksOf(BrowserRun(c, before)), BooksOf(BrowserRun(c, before + later));
    assert forall t :: Pending(k', key, t) ==> Pending(k, key, t);
  }

  lemma {:induction false} Disagreement(c: Config, before: seq<BrowserAction>, key: ExecutionClient, x: Option<Bytes>)
    returns (later: seq<BrowserAction>)
    requires ValidConfig(c) && key.0 in BrowserRun(c, before).worlds && !Agreed(BooksOf(BrowserRun(c, before)), key, x)
    ensures Finishes(c, before, later, key) && FinalKey(c, before, later, key) != x
  {
    hide BrowserRun, WorldsOk, KnownOf, Finishes, FinalKey, BindFor;
    var k := BooksOf(BrowserRun(c, before));
    if t :| Pending(k, key, t) && Some(k.bindings.byToken[t].ecdh) != x {
      later := PinLast(c, before, key, t);
    } else if j :| 0 <= j < |k.toBind| && BindFor(k.toBind[j], key) && Some(k.toBind[j].1.ecdh) != x {
      later := InsertLast(c, before, key, j);
    } else {
      later := LeaveIt(c, before, key);
      assert FinalKey(c, before, [], key) == Resolve(k.bindings, key.0, key.1) by { Unchanged(c, before, key); }
    }
  }

  lemma {:induction false} Unchanged(c: Config, before: seq<BrowserAction>, key: ExecutionClient)
    requires ValidConfig(c)
    ensures FinalKey(c, before, [], key) == Resolve(BooksOf(BrowserRun(c, before)).bindings, key.0, key.1)
  {
    assert before + [] == before;
    hide BrowserRun, KnownOf;
  }

  lemma {:induction false} Agreement(c: Config, before: seq<BrowserAction>, later: seq<BrowserAction>,
                                     key: ExecutionClient, x: Option<Bytes>)
    requires ValidConfig(c) && Finishes(c, before, later, key)
    requires var k := BooksOf(BrowserRun(c, before)); Barred(k, key) && Agreed(k, key, x)
    ensures FinalKey(c, before, later, key) == x
  {
    hide BrowserRun, KnownOf, WorldsOk;
    AgreedRun(c, before, later, key, x);
  }

  lemma {:induction false} RecordedIsBarred(c: Config, before: seq<BrowserAction>, key: ExecutionClient)
    requires ValidConfig(c) && key.0 in BrowserRun(c, before).worlds
    requires BrowserRun(c, before).worlds[key.0].e.reg.assignment.ranges != []
    requires RecordedOf(BrowserRun(c, before).recorded, key) != []
    ensures Barred(BooksOf(BrowserRun(c, before)), key)
  {
    AlwaysSessions(c, before);
    hide BrowserRun, SubmittedBy;
    var k := BooksOf(BrowserRun(c, before));
    assert OwnSession(k, key, k.recorded[key][0]);
  }

  /**
   * In every run, once a client has a browser submission on record under an input assignment: whatever is still under
   * way can be finished, and however that happens the output key ends as that of the submission recorded last, if and
   * only if every submission waiting to pin and every bind call past its check carries that key, and, when no
   * submission waits to pin, the key is that already.
   */
  lemma {:induction false} KeySettlesIff(c: Config, before: seq<BrowserAction>, id: ExecutionId, client: Identity)
    requires ValidConfig(c) && id in BrowserRun(c, before).worlds
    requires BrowserRun(c, before).worlds[id].e.reg.assignment.ranges != []
    requires RecordedOf(BrowserRun(c, before).recorded, (id, client)) != []
    ensures exists later :: Finishes(c, before, later, (id, client))
    ensures var x := LastKey(BooksOf(BrowserRun(c, before)), (id, client));
      (forall later :: Finishes(c, before, later, (id, client)) ==> FinalKey(c, before, later, (id, client)) == x)
      <==> Agreed(BooksOf(BrowserRun(c, before)), (id, client), x)
  {
    var key := (id, client);
    RecordedIsBarred(c, before, key);
    hide BrowserRun, WorldsOk, KnownOf, Finishes, FinalKey, Agreed, Barred, LastKey;
    var all := FinishAll(c, before, key);
    var k := BooksOf(BrowserRun(c, before));
    var x := LastKey(k, key);
    if Agreed(k, key, x) {
      forall later | Finishes(c, before, later, key) ensures FinalKey(c, before, later, key) == x {
        Agreement(c, before, later, key, x);
      }
    } else {
      var later := Disagreement(c, before, key, x);
    }
  }
}
