/** Small runs in which a client's output key does not stay with, or does not follow, its submissions. */
module BrowserCounterexamples {
  import opened Base
  import opened Rounds
  import opened Topology
  import opened Assignments
  import opened Streams
  import opened ExecutionModel
  import opened ExecutionRuns
  import opened InputProps
  import opened BrowserSessions
  import opened BrowserOrder
  import opened Counterexamples

  const ID := ALL_ONES
  const KEY: ExecutionClient := (ID, CLIENT)
  const FIRST_TOKEN: Token := [1]
  const SECOND_TOKEN: Token := [2]
  const FIRST_KEY: Bytes := [3]
  const SECOND_KEY: Bytes := [4]

  // ---------------------------------------------------------------- steps of such a run

  /** The execution shows `v`, a submission holds its guard or not, and everything else is as in `x`. */
  ghost predicate Shows(b: BrowserWorld, v: View, busy: bool, x: BrowserWorld) {
    && ID in b.worlds && At(b.worlds[ID], v) && (busy <==> b.worlds[ID].flight.Some?)
    && (busy ==> b.worlds[ID].flight.value.f.sinks == [] && b.worlds[ID].flight.value.f.assignedSinks == [])
    && b == x.(worlds := b.worlds)
  }

  ghost predicate Leads(actions: seq<BrowserAction>, v: View, busy: bool, x: BrowserWorld)
    requires ValidConfig(ALONE)
  {
    Shows(BrowserRun(ALONE, actions), v, busy, x)
  }

  function BindOf(key: Bytes): WebauthnBinding {
    WebauthnBinding(CLIENT, [], key)
  }

  function Check(key: Bytes): BrowserAction {
    CheckBind(ID, CLIENT, [], key)
  }

  lemma {:induction false} MayBind(b: BrowserWorld, v: View, busy: bool, x: BrowserWorld)
    requires WorldsOk(b.worlds) && Shows(b, v, busy, x) && Small(v.reg)
    requires v.reg == REG || forall i :: 0 <= i < |v.masked| ==> v.masked[i].None?
    ensures BindAllowed(b, ID, CLIENT)
  {
    assert v.reg.outputClients[0] == CLIENT;
    SlotsFit(b.worlds[ID].e);
    hide TablesOk, Quiet, WorldsOk, Sized;
  }

  lemma {:induction false} Checks(actions: seq<BrowserAction>, v: View, busy: bool, x: BrowserWorld, key: Bytes)
    requires ValidConfig(ALONE) && Leads(actions, v, busy, x) && Small(v.reg)
    requires v.reg == REG || forall i :: 0 <= i < |v.masked| ==> v.masked[i].None?
    ensures Leads(actions + [Check(key)], v, busy, x.(toBind := x.toBind + [(ID, BindOf(key))]))
  {
    hide BrowserRun, BindAllowed, WorldsOk, At, ValidConfig, Small;
    MayBind(BrowserRun(ALONE, actions), v, busy, x);
    BrowserPush(ALONE, actions, Check(key));
  }

  function Insertion(token: Token): BrowserAction {
    FinishBind(0, true, [token])
  }

  lemma {:induction false} Inserts(actions: seq<BrowserAction>, v: View, busy: bool, x: BrowserWorld, key: Bytes,
                                   token: Token)
    requires ValidConfig(ALONE) && Leads(actions, v, busy, x)
    requires x.toBind == [(ID, BindOf(key))] && token !in x.bindings.byToken
    ensures Leads(actions + [Insertion(token)], v, busy,
                  x.(bindings := Insert(x.bindings, Some(ID), BindOf(key), token), toBind := []))
  {
    hide BrowserRun, WorldsOk, At, ValidConfig;
    BrowserPush(ALONE, actions, Insertion(token));
    assert [token][0] == token;
  }

  lemma {:induction false} Binds(actions: seq<BrowserAction>, v: View, x: BrowserWorld, key: Bytes, token: Token)
    requires ValidConfig(ALONE) && Leads(actions, v, false, x) && Small(v.reg)
    requires v.reg == REG || forall i :: 0 <= i < |v.masked| ==> v.masked[i].None?
    requires x.toBind == [] && token !in x.bindings.byToken
    ensures Leads(actions + [Check(key)] + [Insertion(token)], v, false,
                  x.(bindings := Insert(x.bindings, Some(ID), BindOf(key), token)))
  {
    hide Leads, ValidConfig, Small, Insert;
    Checks(actions, v, false, x, key);
    var calls := [(ID, BindOf(key))];
    assert x.toBind + calls == calls;
    Inserts(actions + [Check(key)], v, false, x.(toBind := calls), key, token);
    assert x.(toBind := []) == x;
  }

  function Submits(token: Token, i: u64): BrowserAction {
    BrowserSubmit(ID, token, [[5]], [i])
  }

  lemma {:induction false} SubmitAt(w: World, v: View, i: u64)
    requires ValidConfig(ALONE) && At(w, v) && w.flight.None? && v.round == InputCollection
    requires |v.reserved| == |v.masked| && i < |v.masked| && v.reserved[i] == Some(CLIENT) && v.masked[i].None?
    ensures var w' := Step(ALONE, w, SubmitBatch(CLIENT, [[5]], [i]));
      && w'.flight.Some? && w'.flight.value.f.sinks == [] && w'.flight.value.f.assignedSinks == []
      && At(w', v.(masked := v.masked[i := Some([5])]))
  {
    SubmitStep(w, [[5]], [i], v);
    assert Zip([i], [[5]]) == [(i, [5])];
    hide Step, ValidConfig, Zip, At;
    OneMasked(v.masked, i);
  }

  lemma {:induction false} OneMasked(masked: seq<Option<Bytes>>, i: u64)
    requires i < |masked|
    ensures ApplyMasked(masked, MaskedEvent(CLIENT, [(i, [5])])) == masked[i := Some([5])]
  {
    var pairs: seq<(u64, Bytes)> := [(i, [5])];
    assert pairs[..0] == [];
    assert forall j: nat :: LastInput(pairs, j) == if j == i then Some([5]) else None;
  }

  lemma {:induction false} SubmitShows(b: BrowserWorld, v: View, x: BrowserWorld, token: Token, i: u64)
    requires ValidConfig(ALONE) && WorldsOk(b.worlds) && Shows(b, v, false, x) && v.round == InputCollection
    requires |v.reserved| == |v.masked| && i < |v.masked| && v.reserved[i] == Some(CLIENT) && v.masked[i].None?
    requires token in x.bindings.byToken && x.bindings.byToken[token].client == CLIENT
    ensures Shows(BrowserStep(ALONE, b, Submits(token, i)), v.(masked := v.masked[i := Some([5])]), true,
                  x.(flights := x.flights[ID := token],
                     recorded := x.recorded[KEY := RecordedOf(x.recorded, KEY) + [token]]))
  {
    SubmitAt(b.worlds[ID], v, i);
    hide Step, WorldsOk, At, ValidConfig;
  }

  lemma {:induction false} Submitted(actions: seq<BrowserAction>, v: View, x: BrowserWorld, token: Token, i: u64)
    requires ValidConfig(ALONE) && Leads(actions, v, false, x) && v.round == InputCollection
    requires |v.reserved| == |v.masked| && i < |v.masked| && v.reserved[i] == Some(CLIENT) && v.masked[i].None?
    requires token in x.bindings.byToken && x.bindings.byToken[token].client == CLIENT
    ensures Leads(actions + [Submits(token, i)], v.(masked := v.masked[i := Some([5])]), true,
                  x.(flights := x.flights[ID := token],
                     recorded := x.recorded[KEY := RecordedOf(x.recorded, KEY) + [token]]))
  {
    hide BrowserRun, WorldsOk, Shows, ValidConfig, BrowserStep;
    SubmitShows(BrowserRun(ALONE, actions), v, x, token, i);
    BrowserPush(ALONE, actions, Submits(token, i));
  }

  const LANDING := Native(ID, SubmitRestore)

  /** The submission's second lock section, with nobody to send to. */
  lemma {:induction false} RestoreAt(w: World, v: View)
    requires ValidConfig(ALONE) && TransitionQuorum(ALONE) == 1 && At(w, v) && w.flight.Some?
    requires w.flight.value.f.sinks == [] && w.flight.value.f.assignedSinks == []
    ensures var w' := Step(ALONE, w, SubmitRestore); w'.flight.None? && At(w', v)
  {
    var fl := w.flight.value;
    var e := Restored(w.e, fl.f, Reached(fl));
    assert e == w.e by { assert w.e.maskedStream.sinks + [] == [] && w.e.assignedMaskedStream.sinks + [] == []; }
    NoVotesAhead(w.e);
    hide Advance, Notify, ValidConfig, Sized, Restored, TransitionQuorum;
  }

  lemma {:induction false} SizedAt(w: World, v: View)
    ensures At(w, v) ==> Sized(w.e)
  {
  }

  lemma {:induction false} LandShows(b: BrowserWorld, v: View, x: BrowserWorld, token: Token)
    requires ValidConfig(ALONE) && TransitionQuorum(ALONE) == 1 && WorldsOk(b.worlds) && Shows(b, v, true, x)
    requires x.flights == map[ID := token]
    ensures Shows(BrowserStep(ALONE, b, LANDING), v, false, x.(flights := map[], toPin := x.toPin + [(ID, token)]))
  {
    hide Step, WorldsOk, At, ValidConfig, TransitionQuorum, Sized;
    assert At(b.worlds[ID], v) ==> Sized(b.worlds[ID].e) by { SizedAt(b.worlds[ID], v); }
    RestoreAt(b.worlds[ID], v);
    assert x.flights - {ID} == map[];
  }

  lemma {:induction false} Lands(actions: seq<BrowserAction>, v: View, x: BrowserWorld, token: Token)
    requires ValidConfig(ALONE) && TransitionQuorum(ALONE) == 1 && Leads(actions, v, true, x)
    requires x.flights == map[ID := token]
    ensures Leads(actions + [LANDING], v, false, x.(flights := map[], toPin := x.toPin + [(ID, token)]))
  {
    hide BrowserRun, WorldsOk, Shows, ValidConfig, BrowserStep, TransitionQuorum;
    LandShows(BrowserRun(ALONE, actions), v, x, token);
    BrowserPush(ALONE, actions, LANDING);
  }

  lemma {:induction false} PinsOne(actions: seq<BrowserAction>, v: View, busy: bool, x: BrowserWorld, k: nat)
    requires ValidConfig(ALONE) && Leads(actions, v, busy, x) && k < |x.toPin|
    ensures Leads(actions + [FinishSubmit(k)], v, busy, StepFinish(x, k))
  {
    hide BrowserRun, WorldsOk, At, ValidConfig;
    BrowserPush(ALONE, actions, FinishSubmit(k));
  }

  // ---------------------------------------------------------------- how they begin

  const NOTHING := BrowserWorld(map[], Bindings(map[], map[]), map[], [], [], map[], map[])

  function Opening(reg: Registration, indices: seq<u64>): seq<BrowserAction> {
    [Open(reg)] + AsNatives(ID, Collecting(indices))
  }

  lemma {:induction false} OpenOne(reg: Registration)
    requires ValidConfig(ALONE) && Accepted(ALONE, reg) && reg.executionId == ID
    ensures BrowserRun(ALONE, [Open(reg)]) == NOTHING.(worlds := map[ID := Start(Initial(reg))])
  {
    assert [] + [Open(reg)] == [Open(reg)];
    hide New, Initial, ValidConfig, StepNative, StepCheckBind, StepFinishBind, StepBrowserSubmit, StepFinish;
    BrowserPush(ALONE, [], Open(reg));
  }

  lemma {:induction false} Opens(reg: Registration, indices: seq<u64>)
    requires AllOf(reg, indices)
    ensures ValidConfig(ALONE) && TransitionQuorum(ALONE) == 1
    ensures Leads(Opening(reg, indices), CollectingView(reg), false, NOTHING)
  {
    assert reg.executionId == ID && Small(reg);
    hide BrowserRun, After, New, ValidConfig, TransitionQuorum, At, WorldsOk, Initial, AllOf, Small, Collecting;
    AloneIsValid();
    CollectionOpens(reg, indices);
    OpenOne(reg);
    NativeRun(ALONE, [Open(reg)], ID, Collecting(indices));
    AfterIsRun(reg, Collecting(indices));
  }

  lemma {:induction false} AfterIsRun(reg: Registration, actions: seq<Action>)
    requires Accepted(ALONE, reg)
    ensures Sized(Initial(reg)) && After(ALONE, reg, actions) == Run(ALONE, Start(Initial(reg)), actions)
  {
    hide Run;
  }

  // ---------------------------------------------------------------- runs

  const BOUND := NOTHING.(bindings := Bindings(map[FIRST_TOKEN := BindOf(FIRST_KEY)], map[KEY := BindOf(FIRST_KEY)]))

  /** The first session is bound. */
  lemma {:induction false} FirstBound(reg: Registration, indices: seq<u64>) returns (actions: seq<BrowserAction>)
    requires AllOf(reg, indices)
    ensures ValidConfig(ALONE) && TransitionQuorum(ALONE) == 1
    ensures actions == Opening(reg, indices) + [Check(FIRST_KEY)] + [Insertion(FIRST_TOKEN)]
    ensures Leads(actions, CollectingView(reg), false, BOUND)
  {
    assert Small(reg);
    hide Leads, ValidConfig, TransitionQuorum, Opening, AllOf, Small, CollectingView;
    Opens(reg, indices);
    CollectingIs(reg);
    Binds(Opening(reg, indices), CollectingView(reg), NOTHING, FIRST_KEY, FIRST_TOKEN);
    actions := Opening(reg, indices) + [Check(FIRST_KEY)] + [Insertion(FIRST_TOKEN)];
  }

  // ---------------------------------------------------------------- a key moved by a bind after the submission

  /** The first session has submitted input `i` and pinned. */
  lemma {:induction false} SubmitsAndPins(actions: seq<BrowserAction>, v: View, x: BrowserWorld, token: Token, i: u64)
    requires ValidConfig(ALONE) && TransitionQuorum(ALONE) == 1 && Leads(actions, v, false, x)
    requires v.round == InputCollection && x.flights == map[] && x.toPin == []
    requires |v.reserved| == |v.masked| && i < |v.masked| && v.reserved[i] == Some(CLIENT) && v.masked[i].None?
    requires token in x.bindings.byToken && x.bindings.byToken[token].client == CLIENT
    ensures Leads(actions + [Submits(token, i)] + [LANDING] + [FinishSubmit(0)],
                  v.(masked := v.masked[i := Some([5])]), false,
                  x.(bindings := Pin(x.bindings, ID, token), latest := x.latest[KEY := token],
                     recorded := x.recorded[KEY := RecordedOf(x.recorded, KEY) + [token]]))
  {
    hide Leads, ValidConfig, TransitionQuorum, RecordedOf, Pin;
    var v' := v.(masked := v.masked[i := Some([5])]);
    var recorded := x.recorded[KEY := RecordedOf(x.recorded, KEY) + [token]];
    Submitted(actions, v, x, token, i);
    var x1 := x.(flights := map[ID := token], recorded := recorded);
    assert x.flights[ID := token] == map[ID := token];
    Lands(actions + [Submits(token, i)], v', x1, token);
    var x2 := x.(toPin := [(ID, token)], recorded := recorded);
    assert x1.(flights := map[], toPin := x1.toPin + [(ID, token)]) == x2;
    PinsOne(actions + [Submits(token, i)] + [LANDING], v', false, x2, 0);
    assert Without(x2.toPin, 0) == [];
    assert StepFinish(x2, 0)
      == x.(bindings := Pin(x.bindings, ID, token), latest := x.latest[KEY := token], recorded := recorded);
  }

  const FIRST_PINNED := BOUND.(latest := map[KEY := FIRST_TOKEN], recorded := map[KEY := [FIRST_TOKEN]])

  lemma {:induction false} CollectingIs(reg: Registration)
    requires Small(reg)
    ensures var v := CollectingView(reg);
      && v.reg == reg && v.round == InputCollection && |v.reserved| == |v.masked| == reg.nInputs
      && forall i :: 0 <= i < reg.nInputs ==> v.reserved[i] == Some(CLIENT) && v.masked[i].None?
  {
  }

  /** What the first session's bind, submission and pin leave, and what a second bind does to the key then. */
  lemma {:induction false} BoundIs()
    ensures FIRST_TOKEN in BOUND.bindings.byToken && BOUND.bindings.byToken[FIRST_TOKEN].client == CLIENT
    ensures SECOND_TOKEN !in BOUND.bindings.byToken && BOUND.flights == map[] && BOUND.toPin == [] && BOUND.toBind == []
    ensures FIRST_PINNED
      == BOUND.(bindings := Pin(BOUND.bindings, ID, FIRST_TOKEN), latest := BOUND.latest[KEY := FIRST_TOKEN],
                                   recorded := BOUND.recorded[KEY := RecordedOf(BOUND.recorded, KEY) + [FIRST_TOKEN]])
    ensures Resolve(FIRST_PINNED.bindings, ID, CLIENT) == Some(FIRST_KEY)
    ensures Resolve(Insert(FIRST_PINNED.bindings, Some(ID), BindOf(SECOND_KEY), SECOND_TOKEN), ID, CLIENT)
      == Some(SECOND_KEY)
  {
    assert [] + [FIRST_TOKEN] == [FIRST_TOKEN];
    assert FIRST_TOKEN[0] != SECOND_TOKEN[0];
    assert Pin(BOUND.bindings, ID, FIRST_TOKEN).byExecution == BOUND.bindings.byExecution;
  }

  lemma {:induction false} LeadsMeans(actions: seq<BrowserAction>, v: View, x: BrowserWorld)
    requires ValidConfig(ALONE) && Leads(actions, v, false, x)
    ensures var b := BrowserRun(ALONE, actions);
      b == x.(worlds := b.worlds) && ID in b.worlds && b.worlds[ID].e.reg == v.reg
  {
    hide BrowserRun;
  }

  const PINNED := Opening(REG, [0]) + [Check(FIRST_KEY)] + [Insertion(FIRST_TOKEN)]
                + [Submits(FIRST_TOKEN, 0)] + [LANDING] + [FinishSubmit(0)]
  const MOVED := PINNED + [Check(SECOND_KEY)] + [Insertion(SECOND_TOKEN)]

  /**
   * Without ranges a bind after the completed submission passes the check and moves the client's output key away from
   * the session that submitted.
   */
  lemma {:induction false} KeyMovesWithoutRanges()
    ensures ValidConfig(ALONE)
    ensures var b, b' := BrowserRun(ALONE, PINNED), BrowserRun(ALONE, MOVED);
      && KEY in b.latest && b'.latest == b.latest
      && Resolve(b.bindings, ID, CLIENT) == Some(FIRST_KEY)
      && Resolve(b'.bindings, ID, CLIENT) == Some(SECOND_KEY)
  {
    hide Leads, ValidConfig, TransitionQuorum, Opening, CollectingView, Pin, Insert, BindOf, RecordedOf, Resolve;
    var start := FirstBound(REG, [0]);
    var v := CollectingView(REG);
    CollectingIs(REG);
    BoundIs();
    SubmitsAndPins(start, v, BOUND, FIRST_TOKEN, 0);
    var x := FIRST_PINNED;
    Binds(PINNED, v.(masked := v.masked[0 := Some([5])]), x, SECOND_KEY, SECOND_TOKEN);
    LeadsMeans(PINNED, v.(masked := v.masked[0 := Some([5])]), x);
    LeadsMeans(MOVED, v.(masked := v.masked[0 := Some([5])]),
               x.(bindings := Insert(x.bindings, Some(ID), BindOf(SECOND_KEY), SECOND_TOKEN)));
  }

  // ---------------------------------------------------------------- a bind that passed its check before the submission

  const SECOND_CALL: seq<BindCall> := [(ID, BindOf(SECOND_KEY))]
  const CHECKED := Opening(RANGED, [0, 1]) + [Check(FIRST_KEY)] + [Insertion(FIRST_TOKEN)] + [Check(SECOND_KEY)]
  const SUBMITTED := CHECKED + [Submits(FIRST_TOKEN, 0)] + [LANDING] + [FinishSubmit(0)]

  /** The second session's bind has passed its check when the first one submits and pins. */
  lemma {:induction false} SubmittedMeanwhile() returns (v: View)
    ensures ValidConfig(ALONE) && v.reg == RANGED && Leads(SUBMITTED, v, false, FIRST_PINNED.(toBind := SECOND_CALL))
  {
    hide Leads, ValidConfig, TransitionQuorum, Opening, CollectingView, Pin, Insert, BindOf, RecordedOf, Resolve;
    var start := FirstBound(RANGED, [0, 1]);
    v := CollectingView(RANGED);
    CollectingIs(RANGED);
    BoundIs();
    Checks(start, v, false, BOUND, SECOND_KEY);
    assert [] + SECOND_CALL == SECOND_CALL;
    SubmitsAndPins(CHECKED, v, BOUND.(toBind := SECOND_CALL), FIRST_TOKEN, 0);
    v := v.(masked := v.masked[0 := Some([5])]);
  }

  /**
   * Even with ranges a bind that passed its check before the submission was recorded inserts its key after the
   * submission has pinned, and moves the client's output key away from the session that submitted.
   */
  lemma {:induction false} KeyMovesByEarlierBind()
    ensures ValidConfig(ALONE)
    ensures var b, b' := BrowserRun(ALONE, SUBMITTED), BrowserRun(ALONE, SUBMITTED + [Insertion(SECOND_TOKEN)]);
      && ID in b'.worlds && b'.worlds[ID].e.reg.assignment.ranges != []
      && KEY in b.latest && b'.latest == b.latest && b'.recorded == b.recorded && b'.toBind == [] && b'.toPin == []
      && Resolve(b.bindings, ID, CLIENT) == Some(FIRST_KEY)
      && Resolve(b'.bindings, ID, CLIENT) == Some(SECOND_KEY)
  {
    hide Leads, ValidConfig, Insert, BindOf, RecordedOf, Resolve, Pin;
    BoundIs();
    var v := SubmittedMeanwhile();
    var x := FIRST_PINNED.(toBind := SECOND_CALL);
    Inserts(SUBMITTED, v, false, x, SECOND_KEY, SECOND_TOKEN);
    LeadsMeans(SUBMITTED, v, x);
    LeadsMeans(SUBMITTED + [Insertion(SECOND_TOKEN)], v,
               x.(bindings := Insert(x.bindings, Some(ID), BindOf(SECOND_KEY), SECOND_TOKEN), toBind := []));
  }

  // ---------------------------------------------------------------- pins in the opposite order

  const BOTH := BOUND.(bindings := Insert(BOUND.bindings, Some(ID), BindOf(SECOND_KEY), SECOND_TOKEN))
  const FIRST_WAITS := BOTH.(toPin := [(ID, FIRST_TOKEN)], recorded := map[KEY := [FIRST_TOKEN]])
  const BOTH_WAIT := BOTH.(toPin := [(ID, FIRST_TOKEN), (ID, SECOND_TOKEN)],
                           recorded := map[KEY := [FIRST_TOKEN, SECOND_TOKEN]])

  /** One more recorded submission waits to pin. */
  lemma {:induction false} Waits(actions: seq<BrowserAction>, v: View, x: BrowserWorld, token: Token, i: u64)
    requires ValidConfig(ALONE) && TransitionQuorum(ALONE) == 1 && Leads(actions, v, false, x)
    requires v.round == InputCollection && x.flights == map[]
    requires |v.reserved| == |v.masked| && i < |v.masked| && v.reserved[i] == Some(CLIENT) && v.masked[i].None?
    requires token in x.bindings.byToken && x.bindings.byToken[token].client == CLIENT
    ensures Leads(actions + [Submits(token, i)] + [LANDING], v.(masked := v.masked[i := Some([5])]), false,
                  x.(toPin := x.toPin + [(ID, token)],
                     recorded := x.recorded[KEY := RecordedOf(x.recorded, KEY) + [token]]))
  {
    hide Leads, ValidConfig, TransitionQuorum, RecordedOf;
    Submitted(actions, v, x, token, i);
    var x1 := x.(flights := map[ID := token], recorded := x.recorded[KEY := RecordedOf(x.recorded, KEY) + [token]]);
    assert x.flights[ID := token] == map[ID := token];
    Lands(actions + [Submits(token, i)], v.(masked := v.masked[i := Some([5])]), x1, token);
    assert x1.(flights := map[]) == x.(recorded := x1.recorded);
  }

  const TWO_SESSIONS := Opening(RANGED, [0, 1]) + [Check(FIRST_KEY)] + [Insertion(FIRST_TOKEN)]
                      + [Check(SECOND_KEY)] + [Insertion(SECOND_TOKEN)]
  const TWO_SUBMISSIONS := TWO_SESSIONS + [Submits(FIRST_TOKEN, 0)] + [LANDING] + [Submits(SECOND_TOKEN, 1)] + [LANDING]

  lemma {:induction false} BothAre()
    ensures FIRST_TOKEN in BOTH.bindings.byToken && BOTH.bindings.byToken[FIRST_TOKEN] == BindOf(FIRST_KEY)
    ensures SECOND_TOKEN in BOTH.bindings.byToken && BOTH.bindings.byToken[SECOND_TOKEN] == BindOf(SECOND_KEY)
    ensures FIRST_WAITS == BOTH.(toPin := BOTH.toPin + [(ID, FIRST_TOKEN)],
                                 recorded := BOTH.recorded[KEY := RecordedOf(BOTH.recorded, KEY) + [FIRST_TOKEN]])
    ensures BOTH_WAIT == FIRST_WAITS.(toPin := FIRST_WAITS.toPin + [(ID, SECOND_TOKEN)],
                                      recorded := FIRST_WAITS.recorded[KEY := RecordedOf(FIRST_WAITS.recorded, KEY)
                                          + [SECOND_TOKEN]])
  {
    assert FIRST_TOKEN[0] != SECOND_TOKEN[0];
    assert [] + [FIRST_TOKEN] == [FIRST_TOKEN] && [FIRST_TOKEN] + [SECOND_TOKEN] == [FIRST_TOKEN, SECOND_TOKEN];
    assert FIRST_WAITS.recorded[KEY := [FIRST_TOKEN, SECOND_TOKEN]] == map[KEY := [FIRST_TOKEN, SECOND_TOKEN]];
  }

  lemma {:induction false} BothSubmit() returns (v: View)
    ensures ValidConfig(ALONE) && v.reg == RANGED && Leads(TWO_SUBMISSIONS, v, false, BOTH_WAIT)
  {
    hide Leads, ValidConfig, TransitionQuorum, Opening, CollectingView, Pin, Insert, BindOf, RecordedOf, Resolve;
    var start := FirstBound(RANGED, [0, 1]);
    v := CollectingView(RANGED);
    CollectingIs(RANGED);
    BoundIs();
    Binds(start, v, BOUND, SECOND_KEY, SECOND_TOKEN);
    assert BindOf(FIRST_KEY).client == BindOf(SECOND_KEY).client == CLIENT by { BindIs(); }
    BothAre();
    Waits(TWO_SESSIONS, v, BOTH, FIRST_TOKEN, 0);
    v := v.(masked := v.masked[0 := Some([5])]);
    Waits(TWO_SESSIONS + [Submits(FIRST_TOKEN, 0)] + [LANDING], v, FIRST_WAITS, SECOND_TOKEN, 1);
    v := v.(masked := v.masked[1 := Some([5])]);
  }

  lemma {:induction false} BindIs()
    ensures forall key :: BindOf(key).client == CLIENT
  {
  }

  const OVERTAKEN := TWO_SUBMISSIONS + [FinishSubmit(1)] + [FinishSubmit(0)]

  /** What is left when the second submission pins first. */
  lemma {:induction false} PinnedBackwards()
    ensures var x := StepFinish(StepFinish(BOTH_WAIT, 1), 0);
      && x.toPin == [] && x.toBind == [] && x.flights == map[] && x.recorded == BOTH_WAIT.recorded
      && x.bindings.byToken == BOTH_WAIT.bindings.byToken && Resolve(x.bindings, ID, CLIENT) == Some(FIRST_KEY)
  {
    assert FIRST_TOKEN[0] != SECOND_TOKEN[0];
  }

  /**
   * Two submissions of a client, recorded in one order and pinned in the other, leave the output key with the one
   * recorded first, and nothing is under way that would still change it.
   */
  lemma {:induction false} PinsOvertake()
    ensures ValidConfig(ALONE)
    ensures var b := BrowserRun(ALONE, OVERTAKEN);
      && ID in b.worlds && b.worlds[ID].e.reg.assignment.ranges != []
      && RecordedOf(b.recorded, KEY) == [FIRST_TOKEN, SECOND_TOKEN]
      && Quiescent(BooksOf(b), KEY)
      && LastKey(BooksOf(b), KEY) == Some(SECOND_KEY) && Resolve(b.bindings, ID, CLIENT) == Some(FIRST_KEY)
  {
    hide Leads, ValidConfig, Resolve, KnownOf, StepFinish, BrowserRun, Quiescent;
    var v := BothSubmit();
    BothAre();
    PinnedBackwards();
    assert |StepFinish(BOTH_WAIT, 1).toPin| == 1 by { OneLeft(); }
    PinsOne(TWO_SUBMISSIONS, v, false, BOTH_WAIT, 1);
    PinsOne(TWO_SUBMISSIONS + [FinishSubmit(1)], v, false, StepFinish(BOTH_WAIT, 1), 0);
    LeadsMeans(OVERTAKEN, v, StepFinish(StepFinish(BOTH_WAIT, 1), 0));
    NothingLeft(BrowserRun(ALONE, OVERTAKEN), KEY);
  }

  lemma {:induction false} OneLeft()
    ensures |StepFinish(BOTH_WAIT, 1).toPin| == 1
  {
  }
}
