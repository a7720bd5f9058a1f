/** Browser sessions: which key a client's outputs are encrypted to, from bind to submission and after. */
module BrowserSessions {
  import opened Base
  import opened Topology
  import opened Assignments
  import opened ExecutionModel
  import opened ExecutionRuns
  import opened InputProps

  type Token = Bytes

  type ExecutionClient = (ExecutionId, Identity)

  datatype WebauthnBinding = WebauthnBinding(client: Identity, ecdsa: Bytes, ecdh: Bytes)

  datatype Bindings = Bindings(byToken: map<Token, WebauthnBinding>, byExecution: map<ExecutionClient, WebauthnBinding>)

  function FirstVacant(byToken: map<Token, WebauthnBinding>, draws: seq<Token>): (t: Option<Token>)
    ensures t.Some? ==> exists k :: 0 <= k < |draws| && draws[k] == t.value && t.value !in byToken
                                  && forall j :: 0 <= j < k ==> draws[j] in byToken
    ensures t.None? ==> forall k :: 0 <= k < |draws| ==> draws[k] in byToken
  {
    if draws == [] then None
    else if draws[0] !in byToken then Some(draws[0])
    else FirstVacant(byToken, draws[1..])
  }

  /** A new session under a token not in use; for an execution it also becomes the client's output key. */
  function Insert(b: Bindings, id: Option<ExecutionId>, binding: WebauthnBinding, token: Token): Bindings
    requires token !in b.byToken
  {
    Bindings(b.byToken[token := binding],
             if id.Some? then b.byExecution[(id.value, binding.client) := binding] else b.byExecution)
  }

  function Pin(b: Bindings, id: ExecutionId, token: Token): Bindings {
    if token !in b.byToken then b
    else b.(byExecution := b.byExecution[(id, b.byToken[token].client) := b.byToken[token]])
  }

  function Resolve(b: Bindings, id: ExecutionId, client: Identity): Option<Bytes> {
    if (id, client) in b.byExecution then Some(b.byExecution[(id, client)].ecdh) else None
  }

  class WebauthnBindings {
    var byToken: map<Token, WebauthnBinding>
    var byExecutionAndClientIdentity: map<ExecutionClient, WebauthnBinding>

    function State(): Bindings
      reads this
    {
      Bindings(byToken, byExecutionAndClientIdentity)
    }

    constructor ()
      ensures State() == Bindings(map[], map[])
    {
      byToken, byExecutionAndClientIdentity := map[], map[];
    }

    /** `draws` are the random tokens in the order they come; `None` while every one of them was taken. */
    method InsertBinding(id: Option<ExecutionId>, binding: WebauthnBinding, draws: seq<Token>)
      returns (token: Option<Token>)
      modifies this
      ensures token == FirstVacant(old(byToken), draws)
      ensures State() == if token.Some? then Insert(old(State()), id, binding, token.value) else old(State())
    {
      for k := 0 to |draws|
        invariant State() == old(State())
        invariant FirstVacant(byToken, draws) == FirstVacant(byToken, draws[k..])
      {
        if draws[k] !in byToken {
          if id.Some? {
            byExecutionAndClientIdentity := byExecutionAndClientIdentity[(id.value, binding.client) := binding];
          }
          byToken := byToken[draws[k] := binding];
          return Some(draws[k]);
        }
      }
      token := None;
    }

    method ResolveEcdhPublicKey(id: ExecutionId, client: Identity) returns (key: Option<Bytes>)
      ensures key == Resolve(State(), id, client)
    {
      if (id, client) in byExecutionAndClientIdentity {
        return Some(byExecutionAndClientIdentity[(id, client)].ecdh);
      }
      key := None;
    }

    method PinBindingFromToken(id: ExecutionId, token: Token)
      modifies this
      ensures State() == Pin(old(State()), id, token)
    {
      if token in byToken {
        var binding := byToken[token];
        byExecutionAndClientIdentity := byExecutionAndClientIdentity[(id, binding.client) := binding];
      }
    }
  }

  // ---------------------------------------------------------------- the bind and submit handlers

  /** Every identity admitted to the execution, for input or for output. */
  function Candidates(e: Exec): set<Identity> {
    (set s | s in e.slots && SlotClient(e.reg, s).Some? :: SlotClient(e.reg, s).value) + Elements(e.reg.outputClients)
  }

  /** The bind handler's check. It looks at assigned slots only. */
  predicate AlreadySubmitted(e: Exec, client: Identity)
    requires |e.slots| <= |e.masked|
  {
    exists i :: 0 <= i < |e.slots| && SlotClient(e.reg, e.slots[i]) == Some(client) && e.masked[i].Some?
  }

  method CheckAlreadySubmitted(e: Exec, client: Identity) returns (r: bool)
    requires |e.slots| <= |e.masked|
    ensures r <==> AlreadySubmitted(e, client)
  {
    for i := 0 to |e.slots|
      invariant forall j :: 0 <= j < i ==> !(SlotClient(e.reg, e.slots[j]) == Some(client) && e.masked[j].Some?)
    {
      if SlotClient(e.reg, e.slots[i]) == Some(client) && e.masked[i].Some? {
        return true;
      }
    }
    r := false;
  }

  // ---------------------------------------------------------------- runs

  type Submission = (ExecutionId, Token)
  type BindCall = (ExecutionId, WebauthnBinding)

  /**
   * Executions and sessions. A browser submission passes through `flights`, between its two lock sections, and
   * `toPin`; a bind call waits in `toBind` between its check and its insertion, which take different locks. For every
   * execution and client, `latest` is the session whose submission pinned last and `recorded` lists the sessions of
   * all its submissions in the order in which they took their first lock section.
   */
  datatype BrowserWorld = BrowserWorld(
    worlds: map<ExecutionId, World>,
    bindings: Bindings,
    flights: map<ExecutionId, Token>,
    toPin: seq<Submission>,
    toBind: seq<BindCall>,
    latest: map<ExecutionClient, Token>,
    recorded: map<ExecutionClient, seq<Token>>)

  datatype BrowserAction =
    | Open(reg: Registration)
    | Native(id: ExecutionId, act: Action)
    | CheckBind(id: ExecutionId, client: Identity, ecdsa: Bytes, ecdh: Bytes)
    | FinishBind(k: nat, counted: bool, draws: seq<Token>)
    | BrowserSubmit(id: ExecutionId, token: Token, inputs: seq<Bytes>, indices: seq<u64>)
    | FinishSubmit(k: nat)

  ghost predicate WorldsOk(worlds: map<ExecutionId, World>) {
    forall id :: id in worlds ==> TablesOk(worlds[id].e)
  }

  lemma {:induction false} SlotsFit(e: Exec)
    requires TablesOk(e)
    ensures |e.slots| <= |e.masked| && Sized(e)
    ensures e.reg.assignment.ranges == [] ==> e.slots == []
    ensures e.reg.assignment.ranges != [] ==> |e.slots| == |e.masked|
  {
    hide HeldOk, DisjointOk, OwnedOk, ReplayOk;
    ExpandLength(e.reg.assignment.ranges);
  }

  /** `xs` without its element `k`. */
  function Without<T>(xs: seq<T>, k: nat): (r: seq<T>)
    requires k < |xs|
    ensures |r| == |xs| - 1
  {
    xs[..k] + xs[k + 1..]
  }

  function RecordedOf(recorded: map<ExecutionClient, seq<Token>>, key: ExecutionClient): seq<Token> {
    if key in recorded then recorded[key] else []
  }

  ghost function StepOpen(c: Config, b: BrowserWorld, reg: Registration): BrowserWorld {
    if reg.executionId in b.worlds || New(reg, c.n).Err? then b
    else b.(worlds := b.worlds[reg.executionId := Start(Initial(reg))])
  }

  /** Anything else that happens to an execution, including the rest of a browser submission. */
  ghost function StepNative(c: Config, b: BrowserWorld, id: ExecutionId, act: Action): BrowserWorld
    requires ValidConfig(c) && WorldsOk(b.worlds)
  {
    if id !in b.worlds then b
    else
      var w := b.worlds[id];
      SlotsFit(w.e);
      var w' := Step(c, w, act);
      var moved := b.(worlds := b.worlds[id := w']);
      if act.SubmitRestore? && w'.flight.None? && id in b.flights then
        moved.(flights := b.flights - {id}, toPin := b.toPin + [(id, b.flights[id])])
      else moved
  }

  ghost predicate BindAllowed(b: BrowserWorld, id: ExecutionId, client: Identity)
    requires WorldsOk(b.worlds)
  {
    && id in b.worlds
    && client in Candidates(b.worlds[id].e)
    && (SlotsFit(b.worlds[id].e); !AlreadySubmitted(b.worlds[id].e, client))
  }

  /** First part of a bind, under the coordinator's lock; `client` is the identity whose assertion verified. */
  ghost function StepCheckBind(b: BrowserWorld, id: ExecutionId, client: Identity, ecdsa: Bytes,
                               ecdh: Bytes): BrowserWorld
    requires WorldsOk(b.worlds)
  {
    if !BindAllowed(b, id, client) then b
    else b.(toBind := b.toBind + [(id, WebauthnBinding(client, ecdsa, ecdh))])
  }

  /** Second part: `counted` is the signature counter's verdict; without a vacant token the loop goes on. */
  function StepFinishBind(b: BrowserWorld, k: nat, counted: bool, draws: seq<Token>): BrowserWorld {
    var token := FirstVacant(b.bindings.byToken, draws);
    if k >= |b.toBind| then b
    else if !counted then b.(toBind := Without(b.toBind, k))
    else if token.None? then b
    else b.(bindings := Insert(b.bindings, Some(b.toBind[k].0), b.toBind[k].1, token.value),
            toBind := Without(b.toBind, k))
  }

  /** The session's client submits; a refused or waiting submission changes nothing. */
  ghost function StepBrowserSubmit(c: Config, b: BrowserWorld, id: ExecutionId, token: Token, inputs: seq<Bytes>,
                                   indices: seq<u64>): BrowserWorld
    requires ValidConfig(c) && WorldsOk(b.worlds)
  {
    if id !in b.worlds || token !in b.bindings.byToken then b
    else
      var w, key := b.worlds[id], (id, b.bindings.byToken[token].client);
      SlotsFit(w.e);
      var w' := Step(c, w, SubmitBatch(key.1, inputs, indices));
      if w.flight.None? && w'.flight.Some? then
        b.(worlds := b.worlds[id := w'], flights := b.flights[id := token],
           recorded := b.recorded[key := RecordedOf(b.recorded, key) + [token]])
      else b
  }

  /** The last step of a browser submission: the session that submitted is made the output key. */
  function StepFinish(b: BrowserWorld, k: nat): BrowserWorld {
    if k >= |b.toPin| then b
    else
      var (id, token) := b.toPin[k];
      b.(bindings := Pin(b.bindings, id, token), toPin := Without(b.toPin, k),
         latest := LatestAfter(b.bindings.byToken, b.latest, id, token))
  }

  function LatestAfter(byToken: map<Token, WebauthnBinding>, latest: map<ExecutionClient, Token>, id: ExecutionId,
                       token: Token): map<ExecutionClient, Token> {
    if token in byToken then latest[(id, byToken[token].client) := token] else latest
  }

  ghost function BrowserStep(c: Config, b: BrowserWorld, a: BrowserAction): BrowserWorld
    requires ValidConfig(c) && WorldsOk(b.worlds)
  {
    match a
    case Open(reg) => StepOpen(c, b, reg)
    case Native(id, act) => StepNative(c, b, id, act)
    case CheckBind(id, client, ecdsa, ecdh) => StepCheckBind(b, id, client, ecdsa, ecdh)
    case FinishBind(k, counted, draws) => StepFinishBind(b, k, counted, draws)
    case BrowserSubmit(id, token, inputs, indices) => StepBrowserSubmit(c, b, id, token, inputs, indices)
    case FinishSubmit(k) => StepFinish(b, k)
  }

  lemma {:induction false} OneStepKeepsWorlds(c: Config, worlds: map<ExecutionId, World>, id: ExecutionId, act: Action)
    requires ValidConfig(c) && WorldsOk(worlds) && id in worlds
    ensures Sized(worlds[id].e) && WorldsOk(worlds[id := Step(c, worlds[id], act)])
  {
    SlotsFit(worlds[id].e);
    StepKeepsTables(c, worlds[id], act);
    hide TablesOk, Step;
  }

  lemma {:induction false} OpenKeepsWorlds(c: Config, b: BrowserWorld, reg: Registration)
    requires ValidConfig(c) && WorldsOk(b.worlds)
    ensures WorldsOk(StepOpen(c, b, reg).worlds)
  {
    if New(reg, c.n).Ok? { AlwaysTables(c, reg, []); }
    hide TablesOk, New, Initial;
  }

  lemma {:induction false} BrowserStepWorlds(c: Config, b: BrowserWorld, a: BrowserAction)
    requires ValidConfig(c) && WorldsOk(b.worlds)
    ensures WorldsOk(BrowserStep(c, b, a).worlds)
  {
    hide TablesOk, Step, StepOpen;
    match a
    case Open(reg) => OpenKeepsWorlds(c, b, reg);
    case Native(id, act) =>
      if id in b.worlds { OneStepKeepsWorlds(c, b.worlds, id, act); }
    case BrowserSubmit(id, token, inputs, indices) =>
      if id in b.worlds && token in b.bindings.byToken {
        OneStepKeepsWorlds(c, b.worlds, id, SubmitBatch(b.bindings.byToken[token].client, inputs, indices));
      }
    case _ =>
  }

  ghost function BrowserRun(c: Config, actions: seq<BrowserAction>): (b: BrowserWorld)
    requires ValidConfig(c)
    ensures WorldsOk(b.worlds)
  {
    if actions == [] then BrowserWorld(map[], Bindings(map[], map[]), map[], [], [], map[], map[])
    else
      var before, a := BrowserRun(c, actions[..|actions| - 1]), actions[|actions| - 1];
      BrowserStepWorlds(c, before, a);
      BrowserStep(c, before, a)
  }

  lemma {:induction false} BrowserPush(c: Config, actions: seq<BrowserAction>, a: BrowserAction)
    requires ValidConfig(c)
    ensures BrowserRun(c, actions + [a]) == BrowserStep(c, BrowserRun(c, actions), a)
  {
    assert (actions + [a])[..|actions|] == actions;
    hide BrowserStep;
  }

  // ---------------------------------------------------------------- submitted clients

  /** The clients with a masked input on record. */
  ghost function SubmittedBy(e: Exec): set<Identity> {
    set i | 0 <= i < |e.reserved| && i < |e.masked| && e.reserved[i].Some? && e.masked[i].Some? :: e.reserved[i].value
  }

  lemma {:induction false} SubmittedStays(c: Config, w: World, act: Action)
    requires ValidConfig(c) && Sized(w.e)
    ensures SubmittedBy(w.e) <= SubmittedBy(Step(c, w, act).e)
  {
    forall client | client in SubmittedBy(w.e) ensures client in SubmittedBy(Step(c, w, act).e) {
      var i :| 0 <= i < |w.e.reserved| && i < |w.e.masked| && w.e.reserved[i] == Some(client) && w.e.masked[i].Some?;
      StepNeverRewrites(c, w, act, i);
      hide Step;
      assert Step(c, w, act).e.reserved[i] == Some(client) && Step(c, w, act).e.masked[i].Some?;
    }
  }

  /** A submission whose first lock section succeeded is on record. */
  lemma {:induction false} SubmitLogs(c: Config, w: World, client: Identity, inputs: seq<Bytes>, indices: seq<u64>)
    requires ValidConfig(c) && Sized(w.e)
    requires w.flight.None? && Step(c, w, SubmitBatch(client, inputs, indices)).flight.Some?
    ensures var log := Step(c, w, SubmitBatch(client, inputs, indices)).e.maskedStream.log;
      log != [] && log[|log| - 1].client == client
  {
    hide CheckSubmit, ApplyMasked, AssignedInputs, ValidConfig, Zip;
  }

  lemma {:induction false} SubmitRecords(c: Config, w: World, client: Identity, inputs: seq<Bytes>, indices: seq<u64>)
    requires ValidConfig(c) && Sized(w.e) && TablesOk(w.e)
    requires w.flight.None? && Step(c, w, SubmitBatch(client, inputs, indices)).flight.Some?
    ensures client in SubmittedBy(Step(c, w, SubmitBatch(client, inputs, indices)).e)
  {
    hide TablesOk, Step, SubmittedBy, ValidConfig;
    var act := SubmitBatch(client, inputs, indices);
    StepKeepsTables(c, w, act);
    SubmitLogs(c, w, client, inputs, indices);
    LastHeld(Step(c, w, act).e, client);
  }

  lemma {:induction false} LastHeld(e: Exec, client: Identity)
    requires TablesOk(e) && e.maskedStream.log != [] && e.maskedStream.log[|e.maskedStream.log| - 1].client == client
    ensures client in SubmittedBy(e)
  {
    var evt := e.maskedStream.log[|e.maskedStream.log| - 1];
    assert SubmissionHeld(e, evt);
    assert evt.pairs[0] in evt.pairs;
    assert e.reserved[evt.pairs[0].0] == Some(client);
  }

  /** With an input assignment, whoever has a masked input on record is recognised by the bind handler's check. */
  lemma {:induction false} SubmittedIsSeen(e: Exec, client: Identity)
    requires TablesOk(e) && e.reg.assignment.ranges != [] && client in SubmittedBy(e)
    ensures |e.slots| <= |e.masked| && AlreadySubmitted(e, client)
  {
    SlotsFit(e);
    hide ReplayOk, HeldOk, DisjointOk;
    var i :| 0 <= i < |e.reserved| && i < |e.masked| && e.reserved[i] == Some(client) && e.masked[i].Some?;
    assert SlotClient(e.reg, e.slots[i]) == Some(client);
  }

  // ---------------------------------------------------------------- what a step does to the sessions

  /** What the sessions need to know of an execution; `busy` while a submission holds its delivery guard. */
  datatype Known = Known(hasRanges: bool, submitted: set<Identity>, busy: bool)

  /** The browser world with that view of the executions. */
  datatype Books = Books(
    open: map<ExecutionId, Known>,
    bindings: Bindings,
    flights: map<ExecutionId, Token>,
    toPin: seq<Submission>,
    toBind: seq<BindCall>,
    latest: map<ExecutionClient, Token>,
    recorded: map<ExecutionClient, seq<Token>>)

  ghost function KnownOf(w: World): Known {
    Known(w.e.reg.assignment.ranges != [], SubmittedBy(w.e), w.flight.Some?)
  }

  ghost function BooksOf(b: BrowserWorld): Books {
    Books(map id | id in b.worlds :: KnownOf(b.worlds[id]), b.bindings, b.flights, b.toPin, b.toBind, b.latest,
          b.recorded)
  }

  /** What one step does beside the executions. */
  datatype Move =
    | Nothing
    | Land(id: ExecutionId)
    | Record(id: ExecutionId, token: Token)
    | Wait(call: BindCall)
    | Reject(k: nat)
    | Enter(k: nat, token: Token)
    | Settle(k: nat)

  /** No execution leaves or changes its layout, no submission is forgotten, and only landing frees a guard in use. */
  ghost predicate Grows(k: Books, open': map<ExecutionId, Known>, m: Move) {
    forall id :: id in k.open ==>
      && id in open' && open'[id].hasRanges == k.open[id].hasRanges && k.open[id].submitted <= open'[id].submitted
      && (id in k.flights && k.open[id].busy && m != Land(id) ==> open'[id].busy)
  }

  ghost predicate Legal(k: Books, open': map<ExecutionId, Known>, m: Move) {
    && Grows(k, open', m)
    && match m
       case Nothing => true
       case Land(id) => id in k.flights
       case Record(id, token) =>
         && id in k.open && !k.open[id].busy && id in open' && open'[id].busy
         && token in k.bindings.byToken && k.bindings.byToken[token].client in open'[id].submitted
       case Wait(call) => call.0 in k.open && !(k.open[call.0].hasRanges && call.1.client in k.open[call.0].submitted)
       case Reject(j) => j < |k.toBind|
       case Enter(j, token) => j < |k.toBind| && token !in k.bindings.byToken
       case Settle(j) => j < |k.toPin|
  }

  ghost function Moved(k: Books, open': map<ExecutionId, Known>, m: Move): Books
    requires Legal(k, open', m)
  {
    var k' := k.(open := open');
    match m
    case Nothing => k'
    case Land(id) => k'.(flights := k.flights - {id}, toPin := k.toPin + [(id, k.flights[id])])
    case Record(id, token) =>
      var key := (id, k.bindings.byToken[token].client);
      k'.(flights := k.flights[id := token], recorded := k.recorded[key := RecordedOf(k.recorded, key) + [token]])
    case Wait(call) => k'.(toBind := k.toBind + [call])
    case Reject(j) => k'.(toBind := Without(k.toBind, j))
    case Enter(j, token) =>
      k'.(bindings := Insert(k.bindings, Some(k.toBind[j].0), k.toBind[j].1, token), toBind := Without(k.toBind, j))
    case Settle(j) =>
      k'.(bindings := Pin(k.bindings, k.toPin[j].0, k.toPin[j].1), toPin := Without(k.toPin, j),
          latest := LatestAfter(k.bindings.byToken, k.latest, k.toPin[j].0, k.toPin[j].1))
  }

  /** `k` to `k'` is the move `m`, with whatever the executions did. */
  ghost predicate Goes(k: Books, k': Books, m: Move) {
    Legal(k, k'.open, m) && k' == Moved(k, k'.open, m)
  }

  lemma {:induction false} SameOpen(b: BrowserWorld, b': BrowserWorld, m: Move)
    requires b'.worlds == b.worlds
    ensures BooksOf(b').open == BooksOf(b).open && Grows(BooksOf(b), BooksOf(b').open, m)
  {
    hide KnownOf;
  }

  lemma {:induction false} KeepsRegistration(c: Config, w: World, act: Action)
    requires ValidConfig(c) && Sized(w.e)
    ensures Step(c, w, act).e.reg == w.e.reg
  {
    InputFrame(c, w, act);
    hide Step, CheckSubmit, CheckReserve;
  }

  /** Only the end of a submission frees the guard. */
  lemma {:induction false} GuardStays(c: Config, w: World, act: Action)
    requires ValidConfig(c) && Sized(w.e) && w.flight.Some? && !act.SubmitRestore?
    ensures Step(c, w, act).flight.Some?
  {
    hide StepSendDone, StepReserve, StepWatchRound, StepWatch;
  }

  lemma {:induction false} ActKnown(c: Config, w: World, act: Action)
    requires ValidConfig(c) && Sized(w.e)
    ensures var x, x' := KnownOf(w), KnownOf(Step(c, w, act));
      && x'.hasRanges == x.hasRanges && x.submitted <= x'.submitted
      && (x.busy && !act.SubmitRestore? ==> x'.busy)
  {
    hide Step, SubmittedBy, ValidConfig, Sized;
    KeepsRegistration(c, w, act);
    SubmittedStays(c, w, act);
    if w.flight.Some? && !act.SubmitRestore? { GuardStays(c, w, act); }
  }

  lemma {:induction false} ReplaceGrows(b: BrowserWorld, b': BrowserWorld, id: ExecutionId, w': World, m: Move)
    requires id in b.worlds && b'.worlds == b.worlds[id := w']
    requires var x, x' := KnownOf(b.worlds[id]), KnownOf(w');
      && x'.hasRanges == x.hasRanges && x.submitted <= x'.submitted
      && (id in b.flights && x.busy && m != Land(id) ==> x'.busy)
    ensures Grows(BooksOf(b), BooksOf(b').open, m)
  {
    hide KnownOf;
  }

  /** The view of the executions after one of them took a step. */
  lemma {:induction false} ActGrows(c: Config, b: BrowserWorld, id: ExecutionId, act: Action, b': BrowserWorld, m: Move)
    requires ValidConfig(c) && id in b.worlds && Sized(b.worlds[id].e)
    requires b'.worlds == b.worlds[id := Step(c, b.worlds[id], act)]
    requires act.SubmitRestore? && b'.worlds[id].flight.None? && id in b.flights ==> m == Land(id)
    ensures Grows(BooksOf(b), BooksOf(b').open, m)
  {
    hide Step, SubmittedBy, ValidConfig, Sized, Grows, BooksOf;
    ActKnown(c, b.worlds[id], act);
    ReplaceGrows(b, b', id, Step(c, b.worlds[id], act), m);
  }

  lemma {:induction false} OpenMoves(c: Config, b: BrowserWorld, reg: Registration)
    ensures Goes(BooksOf(b), BooksOf(StepOpen(c, b, reg)), Nothing)
  {
    hide KnownOf, New;
  }

  /** A step of an execution, with a browser submission landing or not. */
  lemma {:induction false} LandMoves(b: BrowserWorld, b': BrowserWorld, id: ExecutionId, m: Move)
    requires b' == if m == Land(id) && id in b.flights
                   then b.(worlds := b'.worlds, flights := b.flights - {id}, toPin := b.toPin + [(id, b.flights[id])])
                   else b.(worlds := b'.worlds)
    requires Grows(BooksOf(b), BooksOf(b').open, m) && (m.Nothing? || (m == Land(id) && id in b.flights))
    ensures Goes(BooksOf(b), BooksOf(b'), m)
  {
    hide KnownOf, Grows;
  }

  lemma {:induction false} NativeMoves(c: Config, b: BrowserWorld, id: ExecutionId, act: Action) returns (m: Move)
    requires ValidConfig(c) && WorldsOk(b.worlds)
    ensures Goes(BooksOf(b), BooksOf(StepNative(c, b, id, act)), m) && (m.Nothing? || m == Land(id))
  {
    hide Step, KnownOf, Sized, Grows, Goes, BooksOf, ValidConfig, TablesOk;
    var b' := StepNative(c, b, id, act);
    m := if b'.toPin == b.toPin then Nothing else Land(id);
    if id in b.worlds {
      SlotsFit(b.worlds[id].e);
      ActGrows(c, b, id, act, b', m);
    } else {
      SameOpen(b, b', m);
    }
    LandMoves(b, b', id, m);
  }

  lemma {:induction false} AllowedMeans(b: BrowserWorld, id: ExecutionId, client: Identity)
    requires WorldsOk(b.worlds) && BindAllowed(b, id, client)
    ensures var known := KnownOf(b.worlds[id]); !(known.hasRanges && client in known.submitted)
  {
    hide SubmittedBy, AlreadySubmitted, TablesOk, Candidates;
    var e := b.worlds[id].e;
    if e.reg.assignment.ranges != [] && client in SubmittedBy(e) { SubmittedIsSeen(e, client); }
  }

  lemma {:induction false} WaitMoves(b: BrowserWorld, call: BindCall)
    requires call.0 in b.worlds
    requires var known := KnownOf(b.worlds[call.0]); !(known.hasRanges && call.1.client in known.submitted)
    ensures Goes(BooksOf(b), BooksOf(b.(toBind := b.toBind + [call])), Wait(call))
  {
    hide KnownOf, Grows;
    SameOpen(b, b.(toBind := b.toBind + [call]), Wait(call));
  }

  lemma {:induction false} CheckMoves(b: BrowserWorld, a: BrowserAction) returns (m: Move)
    requires WorldsOk(b.worlds) && a.CheckBind?
    ensures Goes(BooksOf(b), BooksOf(StepCheckBind(b, a.id, a.client, a.ecdsa, a.ecdh)), m)
  {
    hide KnownOf, WorldsOk, Grows, Candidates, AlreadySubmitted;
    if BindAllowed(b, a.id, a.client) {
      hide Goes, BooksOf;
      AllowedMeans(b, a.id, a.client);
      var call := (a.id, WebauthnBinding(a.client, a.ecdsa, a.ecdh));
      WaitMoves(b, call);
      m := Wait(call);
    } else {
      m := Nothing;
      SameOpen(b, b, m);
    }
  }

  lemma {:induction false} FinishBindMoves(b: BrowserWorld, k: nat, counted: bool, draws: seq<Token>) returns (m: Move)
    ensures Goes(BooksOf(b), BooksOf(StepFinishBind(b, k, counted, draws)), m)
  {
    hide KnownOf, Grows, FirstVacant;
    var b', token := StepFinishBind(b, k, counted, draws), FirstVacant(b.bindings.byToken, draws);
    m := if k >= |b.toBind| then Nothing else if !counted then Reject(k)
         else if token.None? then Nothing else Enter(k, token.value);
    SameOpen(b, b', m);
  }

  lemma {:induction false} RecordMoves(b: BrowserWorld, b': BrowserWorld, id: ExecutionId, token: Token)
    requires id in b.worlds && id in b'.worlds && token in b.bindings.byToken
    requires var key := (id, b.bindings.byToken[token].client);
      && b' == b.(worlds := b'.worlds, flights := b.flights[id := token],
                  recorded := b.recorded[key := RecordedOf(b.recorded, key) + [token]])
      && !KnownOf(b.worlds[id]).busy && KnownOf(b'.worlds[id]).busy && key.1 in KnownOf(b'.worlds[id]).submitted
    requires Grows(BooksOf(b), BooksOf(b').open, Record(id, token))
    ensures Goes(BooksOf(b), BooksOf(b'), Record(id, token))
  {
    hide KnownOf, Grows;
  }

  lemma {:induction false} SubmitMoves(c: Config, b: BrowserWorld, a: BrowserAction) returns (m: Move)
    requires ValidConfig(c) && WorldsOk(b.worlds) && a.BrowserSubmit?
    ensures Goes(BooksOf(b), BooksOf(StepBrowserSubmit(c, b, a.id, a.token, a.inputs, a.indices)), m)
  {
    var b' := StepBrowserSubmit(c, b, a.id, a.token, a.inputs, a.indices);
    hide Step, TablesOk, SubmittedBy, Sized, Grows, ValidConfig, BooksOf;
    if b' == b {
      m := Nothing;
      SameOpen(b, b', m);
    } else {
      hide Goes;
      m := Record(a.id, a.token);
      var client := b.bindings.byToken[a.token].client;
      SlotsFit(b.worlds[a.id].e);
      SubmitRecords(c, b.worlds[a.id], client, a.inputs, a.indices);
      ActGrows(c, b, a.id, SubmitBatch(client, a.inputs, a.indices), b', m);
      RecordMoves(b, b', a.id, a.token);
    }
  }

  lemma {:induction false} FinishMoves(b: BrowserWorld, k: nat)
    ensures Goes(BooksOf(b), BooksOf(StepFinish(b, k)), if k < |b.toPin| then Settle(k) else Nothing)
  {
    hide KnownOf, Grows;
    SameOpen(b, StepFinish(b, k), if k < |b.toPin| then Settle(k) else Nothing);
  }

  /** Every step is a move. */
  lemma {:induction false} StepMoves(c: Config, b: BrowserWorld, a: BrowserAction) returns (m: Move)
    requires ValidConfig(c) && WorldsOk(b.worlds)
    ensures Goes(BooksOf(b), BooksOf(BrowserStep(c, b, a)), m)
  {
    hide BooksOf, WorldsOk, Goes, StepOpen, StepNative, StepCheckBind, StepFinishBind, StepBrowserSubmit, StepFinish;
    match a {
      case Open(reg) => OpenMoves(c, b, reg); m := Nothing;
      case Native(id, act) => m := NativeMoves(c, b, id, act);
      case CheckBind(_, _, _, _) => m := CheckMoves(b, a);
      case FinishBind(k, counted, draws) => m := FinishBindMoves(b, k, counted, draws);
      case BrowserSubmit(_, _, _, _) => m := SubmitMoves(c, b, a);
      case FinishSubmit(k) => FinishMoves(b, k); m := if k < |b.toPin| then Settle(k) else Nothing;
    }
  }

  // ---------------------------------------------------------------- what every run keeps

  ghost predicate Submitter(k: Books, id: ExecutionId, token: Token) {
    id in k.open && token in k.bindings.byToken && k.bindings.byToken[token].client in k.open[id].submitted
  }

  /** Every submission under way, recorded or pinned has its session and its masked input on record. */
  ghost predicate SessionsOk(k: Books) {
    && (forall id :: id in k.flights ==> Submitter(k, id, k.flights[id]) && k.open[id].busy)
    && (forall j :: 0 <= j < |k.toPin| ==> Submitter(k, k.toPin[j].0, k.toPin[j].1))
    && (forall key :: key in k.latest ==> OwnSession(k, key, k.latest[key]))
    && (forall key, j :: key in k.recorded && 0 <= j < |k.recorded[key]| ==> OwnSession(k, key, k.recorded[key][j]))
  }

  ghost predicate OwnSession(k: Books, key: ExecutionClient, token: Token) {
    Submitter(k, key.0, token) && k.bindings.byToken[token].client == key.1
  }

  /** Sessions and submissions on record stay. */
  ghost predicate Extends(k: Books, k': Books) {
    && (forall id :: id in k.open ==> id in k'.open && k.open[id].submitted <= k'.open[id].submitted)
    && (forall t :: t in k.bindings.byToken ==>
          t in k'.bindings.byToken && k'.bindings.byToken[t] == k.bindings.byToken[t])
  }

  lemma {:induction false} MoveExtends(k: Books, k': Books, m: Move)
    requires Goes(k, k', m)
    ensures Extends(k, k')
  {
  }

  lemma {:induction false} SubmitterStays(k: Books, k': Books, id: ExecutionId, token: Token)
    requires Extends(k, k') && Submitter(k, id, token)
    ensures Submitter(k', id, token) && k'.bindings.byToken[token] == k.bindings.byToken[token]
  {
  }

  lemma {:induction false} MoveKeepsSessions(k: Books, k': Books, m: Move)
    requires SessionsOk(k) && Goes(k, k', m)
    ensures SessionsOk(k')
  {
    MoveExtends(k, k', m);
    forall id | id in k'.flights ensures Submitter(k', id, k'.flights[id]) && k'.open[id].busy {
      if id in k.flights && k'.flights[id] == k.flights[id] { SubmitterStays(k, k', id, k.flights[id]); }
    }
    PinsKeep(k, k', m);
    OwnersKeep(k, k', m);
  }

  lemma {:induction false} PinsKeep(k: Books, k': Books, m: Move)
    requires SessionsOk(k) && Goes(k, k', m) && Extends(k, k')
    ensures forall j :: 0 <= j < |k'.toPin| ==> Submitter(k', k'.toPin[j].0, k'.toPin[j].1)
  {
    forall j | 0 <= j < |k'.toPin| ensures Submitter(k', k'.toPin[j].0, k'.toPin[j].1) {
      var p := k'.toPin[j];
      assert Submitter(k, p.0, p.1) by {
        if !m.Land? { assert p in k.toPin; }
      }
      SubmitterStays(k, k', p.0, p.1);
    }
  }

  lemma {:induction false} OwnersKeep(k: Books, k': Books, m: Move)
    requires SessionsOk(k) && Goes(k, k', m) && Extends(k, k')
    ensures forall key :: key in k'.latest ==> OwnSession(k', key, k'.latest[key])
    ensures forall key, j :: key in k'.recorded && 0 <= j < |k'.recorded[key]| ==>
      OwnSession(k', key, k'.recorded[key][j])
  {
    hide Extends;
    forall key | key in k'.latest ensures OwnSession(k', key, k'.latest[key]) {
      SubmitterStays(k, k', key.0, k'.latest[key]);
    }
    forall key, j | key in k'.recorded && 0 <= j < |k'.recorded[key]| ensures OwnSession(k', key, k'.recorded[key][j]) {
      var t := k'.recorded[key][j];
      if key in k.recorded && j < |k.recorded[key]| {
        assert t == k.recorded[key][j];
        SubmitterStays(k, k', key.0, t);
      }
    }
  }

  lemma {:induction false} AlwaysSessions(c: Config, actions: seq<BrowserAction>)
    requires ValidConfig(c)
    ensures SessionsOk(BooksOf(BrowserRun(c, actions)))
  {
    if actions != [] {
      var b, a := BrowserRun(c, actions[..|actions| - 1]), actions[|actions| - 1];
      AlwaysSessions(c, actions[..|actions| - 1]);
      hide SessionsOk, BooksOf, WorldsOk, BrowserStep, Goes;
      var m := StepMoves(c, b, a);
      MoveKeepsSessions(BooksOf(b), BooksOf(BrowserStep(c, b, a)), m);
    }
  }

  // ---------------------------------------------------------------- results

  predicate BindFor(call: BindCall, key: ExecutionClient) {
    call.0 == key.0 && call.1.client == key.1
  }

  /** The output key of `key` is that of the session whose submission pinned last. */
  ghost predicate KeyPinned(k: Books, key: ExecutionClient) {
    key in k.latest ==>
      && k.latest[key] in k.bindings.byToken && k.bindings.byToken[k.latest[key]].client == key.1
      && key in k.bindings.byExecution && k.bindings.byExecution[key] == k.bindings.byToken[k.latest[key]]
  }

  /** The client has submitted under an input assignment, so no further bind call of it passes the check. */
  ghost predicate Barred(k: Books, key: ExecutionClient) {
    key.0 in k.open && k.open[key.0].hasRanges && key.1 in k.open[key.0].submitted
  }

  /** No bind call that passed the check before waits either. */
  ghost predicate Closed(k: Books, key: ExecutionClient) {
    && Barred(k, key)
    && forall j :: 0 <= j < |k.toBind| ==> !BindFor(k.toBind[j], key)
  }

  lemma {:induction false} StaysClosed(k: Books, k': Books, m: Move, key: ExecutionClient)
    requires Goes(k, k', m) && Closed(k, key)
    ensures Closed(k', key)
  {
    forall j | 0 <= j < |k'.toBind| ensures !BindFor(k'.toBind[j], key) {
      if !m.Wait? { assert k'.toBind[j] in k.toBind; }
    }
  }

  lemma {:induction false} StaysPinned(k: Books, k': Books, m: Move, key: ExecutionClient)
    requires SessionsOk(k) && Goes(k, k', m) && Closed(k, key) && KeyPinned(k, key)
    ensures KeyPinned(k', key)
  {
    hide Grows;
    if m.Enter? { assert !BindFor(k.toBind[m.k], key); }
    if m.Settle? { assert Submitter(k, k.toPin[m.k].0, k.toPin[m.k].1); }
  }

  lemma {:induction false} ClosedRun(c: Config, before: seq<BrowserAction>, later: seq<BrowserAction>,
                                     key: ExecutionClient)
    requires ValidConfig(c)
    requires var k := BooksOf(BrowserRun(c, before)); Closed(k, key) && KeyPinned(k, key)
    ensures var k := BooksOf(BrowserRun(c, before + later)); Closed(k, key) && KeyPinned(k, key)
  {
    hide BrowserRun, BooksOf, Closed, KeyPinned, SessionsOk, Goes, WorldsOk, BrowserStep;
    if later == [] {
      assert before + later == before;
    } else {
      var front, a := later[..|later| - 1], later[|later| - 1];
      ClosedRun(c, before, front, key);
      assert before + later == (before + front) + [a];
      BrowserPush(c, before + front, a);
      AlwaysSessions(c, before + front);
      var b := BrowserRun(c, before + front);
      var m := StepMoves(c, b, a);
      StaysClosed(BooksOf(b), BooksOf(BrowserStep(c, b, a)), m, key);
      StaysPinned(BooksOf(b), BooksOf(BrowserStep(c, b, a)), m, key);
    }
  }

  /**
   * From any point of any run at which a client has submitted under an input assignment, no bind call of it waits, and
   * its output key is right if one was pinned at all, every continuation keeps the output key that of the session
   * whose submission pinned last: whatever is bound, attempted or submitted then.
   */
  lemma {:induction false} OutputKeyIsPinned(c: Config, before: seq<BrowserAction>, later: seq<BrowserAction>,
                                             id: ExecutionId, client: Identity)
    requires ValidConfig(c)
    requires var k := BooksOf(BrowserRun(c, before)); Closed(k, (id, client)) && KeyPinned(k, (id, client))
    requires (id, client) in BrowserRun(c, before + later).latest
    ensures var b := BrowserRun(c, before + later);
      && b.latest[(id, client)] in b.bindings.byToken
      && b.bindings.byToken[b.latest[(id, client)]].client == client
      && Resolve(b.bindings, id, client) == Some(b.bindings.byToken[b.latest[(id, client)]].ecdh)
  {
    ClosedRun(c, before, later, (id, client));
    hide BrowserRun, KnownOf;
  }

  /**
   * Exactly the executions without an input assignment leave the check open: after a client's completed browser
   * submission another bind call of that client passes the check if and only if the execution has no ranges.
   */
  lemma {:induction false} BindAfterSubmitIff(c: Config, actions: seq<BrowserAction>, id: ExecutionId, client: Identity)
    requires ValidConfig(c) && id in BrowserRun(c, actions).worlds && (id, client) in BrowserRun(c, actions).latest
    requires client in Candidates(BrowserRun(c, actions).worlds[id].e)
    ensures BindAllowed(BrowserRun(c, actions), id, client)
       <==> BrowserRun(c, actions).worlds[id].e.reg.assignment.ranges == []
  {
    AlwaysSessions(c, actions);
    var b := BrowserRun(c, actions);
    hide BrowserRun, SubmittedBy, Candidates, TablesOk;
    assert OwnSession(BooksOf(b), (id, client), b.latest[(id, client)]);
    SlotsFit(b.worlds[id].e);
    if b.worlds[id].e.reg.assignment.ranges != [] { SubmittedIsSeen(b.worlds[id].e, client); }
  }
}
