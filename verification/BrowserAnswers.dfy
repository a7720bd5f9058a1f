/** Who may bind a browser session, told from the registration and the log. */
module BrowserAnswers {
  import opened Base
  import opened Topology
  import opened Assignments
  import opened ExecutionModel
  import opened ExecutionRuns
  import opened InputProps
  import opened AssignedLogs
  import opened Requests
  import opened BrowserSessions

  /** The registration gives `client` a slot. */
  ghost predicate HasSlots(reg: Registration, client: Identity) {
    exists i: nat :: i < Total(reg.assignment.ranges) && InRangeOf(reg.assignment, client, i)
  }

  /** A masked input of `client` is logged. */
  ghost predicate HasSubmitted(e: Exec, client: Identity) {
    exists j :: 0 <= j < |e.maskedStream.log| && e.maskedStream.log[j].client == client
  }

  lemma {:induction false} CandidatesAre(e: Exec, client: Identity)
    requires TablesOk(e)
    ensures client in Candidates(e) <==> HasSlots(e.reg, client) || client in e.reg.outputClients
  {
    ExpandLength(e.reg.assignment.ranges);
    hide ReplayOk, HeldOk, DisjointOk, OwnedOk, InRangeOf, Expand;
    if i: nat :| i < Total(e.reg.assignment.ranges) && InRangeOf(e.reg.assignment, client, i) {
      SlotIsInRange(e.reg, client, i);
      assert e.slots[i] in e.slots;
    }
    if s :| s in e.slots && SlotClient(e.reg, s) == Some(client) {
      var i :| 0 <= i < |e.slots| && e.slots[i] == s;
      SlotIsInRange(e.reg, client, i);
    }
  }

  lemma {:induction false} AlreadyMeans(e: Exec, client: Identity)
    requires TablesOk(e)
    ensures |e.slots| <= |e.masked|
    ensures AlreadySubmitted(e, client) <==> e.reg.assignment.ranges != [] && HasSubmitted(e, client)
  {
    SlotsFit(e);
    hide ReplayOk, LayoutOk, DisjointOk;
    if i :| 0 <= i < |e.slots| && SlotClient(e.reg, e.slots[i]) == Some(client) && e.masked[i].Some? {
      InputHasEvent(e, i);
    }
    if e.reg.assignment.ranges != [] && HasSubmitted(e, client) {
      var j :| 0 <= j < |e.maskedStream.log| && e.maskedStream.log[j].client == client;
      var evt := e.maskedStream.log[j];
      assert SubmissionHeld(e, evt) && evt.pairs[0] in evt.pairs;
      assert SlotClient(e.reg, e.slots[evt.pairs[0].0]) == Some(client);
    }
  }

  lemma {:induction false} InputHasEvent(e: Exec, i: nat)
    requires TablesOk(e) && i < |e.masked| && e.masked[i].Some?
    ensures e.reserved[i].Some? && HasSubmitted(e, e.reserved[i].value)
  {
    TablesFromLogs(e, i, []);
    hide LayoutOk, ReplayOk, DisjointOk;
    var j :| FillsAt(e.maskedStream.log, j, i);
    var k :| 0 <= k < |e.maskedStream.log[j].pairs| && e.maskedStream.log[j].pairs[k].0 == i;
    assert SubmissionHeld(e, e.maskedStream.log[j]);
    assert e.maskedStream.log[j].pairs[k] in e.maskedStream.log[j].pairs;
  }

  /**
   * Whose bind call passes the check, in every run: a client that the registration gives a slot or admits for output,
   * unless the execution has ranges and a masked input of the client is logged.
   */
  lemma {:induction false} BindCheckIff(c: Config, actions: seq<BrowserAction>, id: ExecutionId, client: Identity)
    requires ValidConfig(c)
    ensures var b := BrowserRun(c, actions);
      BindAllowed(b, id, client) <==>
        && id in b.worlds
        && (HasSlots(b.worlds[id].e.reg, client) || client in b.worlds[id].e.reg.outputClients)
        && !(b.worlds[id].e.reg.assignment.ranges != [] && HasSubmitted(b.worlds[id].e, client))
  {
    var b := BrowserRun(c, actions);
    hide BrowserRun, TablesOk, HasSlots, HasSubmitted, Candidates, AlreadySubmitted;
    if id in b.worlds {
      CandidatesAre(b.worlds[id].e, client);
      AlreadyMeans(b.worlds[id].e, client);
    }
  }
}
