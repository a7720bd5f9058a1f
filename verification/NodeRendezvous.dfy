/**
 * The node side of mask distribution: reservations, mask shares and range requests arrive in any order, and a range
 * is handed out once every index in it has both its reservation and its share.
 */
module NodeRendezvous {
  import opened Base

  const U64_LIMIT: nat := 0x1_0000_0000_0000_0000

  datatype Reservation = Reservation(client: Identity, index: u64, ordinal: u64)

  datatype MaskShare = MaskShare(index: u64, bytes: Bytes)

  datatype Request = Request(start: u64, count: u64, sink: SinkId)

  datatype Send = Send(sink: SinkId, shares: seq<MaskShare>)

  datatype NodeError = IndexAlreadyAdded | IndexNotAdded | AuthenticationFailed(client: Identity)

  /** What has arrived so far. */
  datatype Maps = Maps(owner: map<u64, Identity>, reservations: map<u64, Reservation>, shares: map<u64, Bytes>)

  datatype Node = Node(maps: Maps, pending: map<Identity, Request>)

  // ---------------------------------------------------------------- looking a range up

  function Scan(m: Maps, id: Identity, i: nat, end: u64): Result<Option<seq<MaskShare>>, NodeError>
    requires i <= end
    decreases end - i
  {
    if i == end then Ok(Some([]))
    else if i !in m.owner then Ok(None)
    else if m.owner[i] != id then Err(AuthenticationFailed(id))
    else if i !in m.shares then Ok(None)
    else if i !in m.reservations then Err(IndexNotAdded)
    else
      match Scan(m, id, i + 1, end)
      case Ok(Some(rest)) => Ok(Some([MaskShare(i, m.shares[i])] + rest))
      case other => other
  }

  function Lookup(m: Maps, id: Identity, start: u64, count: u64): Result<Option<seq<MaskShare>>, NodeError> {
    if start + count >= U64_LIMIT then Err(IndexNotAdded) else Scan(m, id, start, start + count)
  }

  ghost predicate Met(m: Maps, id: Identity, lo: nat, hi: nat) {
    forall i :: lo <= i < hi ==> i in m.owner && m.owner[i] == id && i in m.shares
  }

  /** Every index of the range is reserved by `id` and has its share. */
  ghost predicate Complete(m: Maps, id: Identity, req: Request) {
    req.start + req.count < U64_LIMIT && Met(m, id, req.start, req.start + req.count)
  }

  /** The first index of the range that is not served is reserved by somebody else. */
  ghost predicate Foreign(m: Maps, id: Identity, req: Request) {
    exists i :: req.start <= i < req.start + req.count && i in m.owner && m.owner[i] != id && Met(m, id, req.start, i)
  }

  /** The shares of the range, in index order. */
  ghost function Answer(m: Maps, id: Identity, req: Request): (r: seq<MaskShare>)
    requires Complete(m, id, req)
  {
    seq(req.count, k requires 0 <= k < req.count =>
      assert req.start + k in m.shares;
      MaskShare(req.start + k, m.shares[req.start + k]))
  }

  ghost predicate Keyed(m: Maps) {
    m.owner.Keys == m.reservations.Keys
  }

  /** The first index that is not met decides the answer. */
  lemma {:induction false} ScanStops(m: Maps, id: Identity, req: Request, i: u64)
    requires req.start <= i < req.start + req.count && Met(m, id, req.start, i)
    requires !(i in m.owner && m.owner[i] == id && i in m.shares)
    ensures !Complete(m, id, req)
    ensures Foreign(m, id, req) <==> i in m.owner && m.owner[i] != id
  {
    assert forall j :: i < j ==> !Met(m, id, req.start, j);
  }

  lemma {:induction false} ScanIs(m: Maps, id: Identity, req: Request, i: u64)
    requires Keyed(m) && req.start + req.count < U64_LIMIT
    requires req.start <= i <= req.start + req.count && Met(m, id, req.start, i)
    ensures var r := Scan(m, id, i, req.start + req.count);
      if Complete(m, id, req) then r == Ok(Some(Answer(m, id, req)[i - req.start..]))
      else if Foreign(m, id, req) then r == Err(AuthenticationFailed(id))
      else r == Ok(None)
    decreases req.start + req.count - i
  {
    var end := req.start + req.count;
    if i == end {
      assert Answer(m, id, req)[i - req.start..] == [];
    } else if i in m.owner && m.owner[i] == id && i in m.shares {
      hide Foreign;
      ScanIs(m, id, req, i + 1);
      if Complete(m, id, req) {
        var answer := Answer(m, id, req);
        assert answer[i - req.start] == MaskShare(i, m.shares[i]);
        assert answer[i - req.start..] == [answer[i - req.start]] + answer[i + 1 - req.start..];
      }
    } else {
      ScanStops(m, id, req, i);
    }
  }

  /** What a lookup answers, for every range: all of it, a refusal, or not yet. */
  lemma {:induction false} LookupIs(m: Maps, id: Identity, req: Request)
    requires Keyed(m)
    ensures var r := Lookup(m, id, req.start, req.count);
      if req.start + req.count >= U64_LIMIT then r == Err(IndexNotAdded)
      else if Complete(m, id, req) then r == Ok(Some(Answer(m, id, req)))
      else if Foreign(m, id, req) then r == Err(AuthenticationFailed(id))
      else r == Ok(None)
  {
    if req.start + req.count < U64_LIMIT {
      ScanIs(m, id, req, req.start);
      if Complete(m, id, req) {
        assert Answer(m, id, req)[0..] == Answer(m, id, req);
      }
    }
  }

  // ---------------------------------------------------------------- arrivals

  /** One thing that arrives. A batch call carries reservations only or shares only. */
  datatype Arrival = Reserved(r: Reservation) | Shared(s: MaskShare)

  predicate Present(m: Maps, a: Arrival) {
    match a
    case Reserved(r) => r.index in m.owner
    case Shared(s) => s.index in m.shares
  }

  function Insert(m: Maps, a: Arrival): (m': Maps)
    ensures Keyed(m) ==> Keyed(m')
  {
    match a
    case Reserved(r) =>
      var m' := m.(owner := m.owner[r.index := r.client], reservations := m.reservations[r.index := r]);
      assert m'.owner.Keys == m.owner.Keys + {r.index};
      m'
    case Shared(s) => m.(shares := m.shares[s.index := s.bytes])
  }

  function InsertAll(m: Maps, batch: seq<Arrival>): (m': Maps)
    ensures Keyed(m) ==> Keyed(m')
  {
    if batch == [] then m else Insert(InsertAll(m, batch[..|batch| - 1]), batch[|batch| - 1])
  }

  /** Whose pending request may have become complete. */
  function Touch(m: Maps, a: Arrival): Option<Identity> {
    match a
    case Reserved(r) => Some(r.client)
    case Shared(s) => if s.index in m.owner then Some(m.owner[s.index]) else None
  }

  /** The touched clients, each once, in order of first appearance. */
  function Touched(m: Maps, batch: seq<Arrival>): seq<Identity> {
    if batch == [] then []
    else
      var ids, id := Touched(m, batch[..|batch| - 1]), Touch(m, batch[|batch| - 1]);
      if id.Some? && id.value !in ids then ids + [id.value] else ids
  }

  lemma {:induction false} TouchedOnce(m: Maps, batch: seq<Arrival>)
    ensures NoDup(Touched(m, batch))
  {
    if batch != [] { TouchedOnce(m, batch[..|batch| - 1]); }
  }

  lemma {:induction false} TouchedHas(m: Maps, batch: seq<Arrival>, a: Arrival)
    requires a in batch && Touch(m, a).Some?
    ensures Touch(m, a).value in Touched(m, batch)
  {
    if a != batch[|batch| - 1] { TouchedHas(m, batch[..|batch| - 1], a); }
  }

  lemma {:induction false} TouchedBy(m: Maps, batch: seq<Arrival>, id: Identity) returns (a: Arrival)
    requires id in Touched(m, batch)
    ensures a in batch && Touch(m, a) == Some(id)
  {
    a := batch[|batch| - 1];
    if Touch(m, a) != Some(id) { a := TouchedBy(m, batch[..|batch| - 1], id); }
  }

  /** Check the touched clients one after another; a refusal returns at once and drops the sends collected so far. */
  function Settle(m: Maps, pending: map<Identity, Request>, touched: seq<Identity>)
    : (Result<seq<Send>, NodeError>, map<Identity, Request>)
  {
    if touched == [] then (Ok([]), pending)
    else
      var id, rest := touched[0], touched[1..];
      if id !in pending then Settle(m, pending, rest)
      else
        match Lookup(m, id, pending[id].start, pending[id].count)
        case Err(e) => (Err(e), pending - {id})
        case Ok(None) => Settle(m, pending, rest)
        case Ok(Some(shares)) =>
          var s := Settle(m, pending - {id}, rest);
          (if s.0.Ok? then Ok([Send(pending[id].sink, shares)] + s.0.value) else s.0, s.1)
  }

  predicate AnyPresent(m: Maps, batch: seq<Arrival>) {
    exists a :: a in batch && Present(m, a)
  }

  /** A batch of arrivals: all of it is recorded before any pending request is checked. */
  function Arrive(d: Node, batch: seq<Arrival>): (Result<seq<Send>, NodeError>, Node) {
    if AnyPresent(d.maps, batch) then (Err(IndexAlreadyAdded), d)
    else
      var m := InsertAll(d.maps, batch);
      var s := Settle(m, d.pending, Touched(m, batch));
      (s.0, Node(m, s.1))
  }

  datatype Reply = Rejected(error: NodeError) | Replied(shares: seq<MaskShare>) | Stored

  /** A range request: it replaces the client's previous one, whatever becomes of it. */
  function Ask(d: Node, id: Identity, req: Request): (Reply, Node) {
    var pending := d.pending - {id};
    match Lookup(d.maps, id, req.start, req.count)
    case Err(e) => (Rejected(e), d.(pending := pending))
    case Ok(Some(shares)) => (Replied(shares), d.(pending := pending))
    case Ok(None) => (Stored, d.(pending := pending[id := req]))
  }

  // ---------------------------------------------------------------- the server

  /** The answer of a scan that has `done` behind it and answers `rest` from here on. */
  ghost function Onto(done: seq<MaskShare>, rest: Result<Option<seq<MaskShare>>, NodeError>)
    : (r: Result<Option<seq<MaskShare>>, NodeError>)
    ensures done == [] ==> r == rest
  {
    if rest.Ok? && rest.value.Some? then
      assert [] + rest.value.value == rest.value.value;
      Ok(Some(done + rest.value.value))
    else rest
  }

  ghost function After(done: seq<Send>, rest: Result<seq<Send>, NodeError>): (r: Result<seq<Send>, NodeError>)
    ensures done == [] ==> r == rest
  {
    if rest.Ok? then
      assert [] + rest.value == rest.value;
      Ok(done + rest.value)
    else rest
  }

  function AsReserved(rs: seq<Reservation>): (batch: seq<Arrival>)
    ensures |batch| == |rs| && forall k :: 0 <= k < |rs| ==> batch[k] == Reserved(rs[k])
  {
    seq(|rs|, k requires 0 <= k < |rs| => Reserved(rs[k]))
  }

  function AsShared(ss: seq<MaskShare>): (batch: seq<Arrival>)
    ensures |batch| == |ss| && forall k :: 0 <= k < |ss| ==> batch[k] == Shared(ss[k])
  {
    seq(|ss|, k requires 0 <= k < |ss| => Shared(ss[k]))
  }

  lemma {:induction false} TouchedByOwner(m: Maps, m': Maps, batch: seq<Arrival>)
    requires m.owner == m'.owner
    ensures Touched(m, batch) == Touched(m', batch)
  {
    if batch != [] {
      TouchedByOwner(m, m', batch[..|batch| - 1]);
    }
  }

  class NodeRPCExecutionState {
    var indexToClient: map<u64, Identity>
    var assignedReservations: map<u64, Reservation>
    var assignedSinks: map<Identity, Request>
    var maskShares: map<u64, Bytes>

    function Arrived(): Maps
      reads this
    {
      Maps(indexToClient, assignedReservations, maskShares)
    }

    ghost function State(): Node
      reads this
    {
      Node(Arrived(), assignedSinks)
    }

    constructor ()
      ensures State() == Node(Maps(map[], map[], map[]), map[])
    {
      indexToClient, assignedReservations, assignedSinks, maskShares := map[], map[], map[], map[];
    }

    method AssignedMaskSharesForClient(id: Identity, start: u64, count: u64)
      returns (r: Result<Option<seq<MaskShare>>, NodeError>)
      ensures r == Lookup(Arrived(), id, start, count)
    {
      if start + count >= U64_LIMIT {
        return Err(IndexNotAdded);
      }
      var shares: seq<MaskShare> := [];
      var i, end: u64 := start, start + count;
      while i < end
        invariant start <= i <= end
        invariant Scan(Arrived(), id, start, end) == Onto(shares, Scan(Arrived(), id, i, end))
      {
        if i !in indexToClient {
          return Ok(None);
        }
        if indexToClient[i] != id {
          return Err(AuthenticationFailed(id));
        }
        if i !in maskShares {
          return Ok(None);
        }
        if i !in assignedReservations {
          return Err(IndexNotAdded);
        }
        ghost var later, share := Scan(Arrived(), id, i + 1, end), MaskShare(i, maskShares[i]);
        assert later.Ok? && later.value.Some? ==>
          shares + ([share] + later.value.value) == shares + [share] + later.value.value;
        shares := shares + [MaskShare(i, maskShares[i])];
        i := i + 1;
      }
      assert shares + [] == shares;
      r := Ok(Some(shares));
    }

    /** The second phase of a batch. */
    method SettleTouched(touched: seq<Identity>) returns (r: Result<seq<Send>, NodeError>)
      modifies this`assignedSinks
      ensures (r, assignedSinks) == Settle(Arrived(), old(assignedSinks), touched)
    {
      var sends: seq<Send> := [];
      for k := 0 to |touched|
        invariant var whole, rest :=
            Settle(Arrived(), old(assignedSinks), touched), Settle(Arrived(), assignedSinks, touched[k..]);
          whole.1 == rest.1 && whole.0 == After(sends, rest.0)
      {
        var id := touched[k];
        assert touched[k..] == [id] + touched[k + 1..];
        if id in assignedSinks {
          var request := assignedSinks[id];
          ghost var before := assignedSinks;
          assignedSinks := assignedSinks - {id};
          var found := AssignedMaskSharesForClient(id, request.start, request.count);
          match found {
            case Err(e) => return Err(e);
            case Ok(Some(shares)) =>
              ghost var later, send := Settle(Arrived(), assignedSinks, touched[k + 1..]).0, Send(request.sink, shares);
              assert later.Ok? ==> sends + ([send] + later.value) == sends + [send] + later.value;
              sends := sends + [Send(request.sink, shares)];
            case Ok(None) =>
              assignedSinks := assignedSinks[id := request];
              assert assignedSinks == before;
          }
        }
      }
      assert sends + [] == sends;
      r := Ok(sends);
    }

    /** First phase of a batch of reservations. */
    method RecordReservations(rs: seq<Reservation>) returns (touched: seq<Identity>)
      modifies this`indexToClient, this`assignedReservations
      ensures Arrived() == InsertAll(old(Arrived()), AsReserved(rs))
      ensures touched == Touched(Arrived(), AsReserved(rs))
    {
      ghost var batch := AsReserved(rs);
      touched := [];
      for k := 0 to |rs|
        invariant Arrived() == InsertAll(old(Arrived()), batch[..k])
        invariant touched == Touched(Arrived(), batch[..k])
      {
        ghost var before := Arrived();
        assert batch[..k + 1][..k] == batch[..k];
        indexToClient := indexToClient[rs[k].index := rs[k].client];
        assignedReservations := assignedReservations[rs[k].index := rs[k]];
        ReservedTouch(before, Arrived(), rs[..k]);
        assert batch[..k] == AsReserved(rs[..k]);
        if rs[k].client !in touched {
          touched := touched + [rs[k].client];
        }
      }
      assert batch[..|rs|] == batch;
    }

    method AddAssignedReservedIndices(rs: seq<Reservation>) returns (r: Result<seq<Send>, NodeError>)
      modifies this
      ensures (r, State()) == Arrive(old(State()), AsReserved(rs))
    {
      ghost var batch := AsReserved(rs);
      hide Settle, Scan, InsertAll, Touched;
      for k := 0 to |rs|
        invariant forall j :: 0 <= j < k ==> rs[j].index !in indexToClient
      {
        if rs[k].index in indexToClient {
          assert Present(Arrived(), batch[k]);
          return Err(IndexAlreadyAdded);
        }
      }
      var touched := RecordReservations(rs);
      r := SettleTouched(touched);
    }

    /** First phase of a batch of shares. */
    method RecordShares(ss: seq<MaskShare>) returns (touched: seq<Identity>)
      modifies this`maskShares
      ensures Arrived() == InsertAll(old(Arrived()), AsShared(ss))
      ensures touched == Touched(Arrived(), AsShared(ss))
    {
      ghost var batch := AsShared(ss);
      touched := [];
      for k := 0 to |ss|
        invariant Arrived() == InsertAll(old(Arrived()), batch[..k])
        invariant touched == Touched(Arrived(), batch[..k])
      {
        ghost var before := Arrived();
        assert batch[..k + 1][..k] == batch[..k];
        maskShares := maskShares[ss[k].index := ss[k].bytes];
        TouchedByOwner(before, Arrived(), batch[..k]);
        if ss[k].index in indexToClient && indexToClient[ss[k].index] !in touched {
          touched := touched + [indexToClient[ss[k].index]];
        }
      }
      assert batch[..|ss|] == batch;
    }

    method AddMaskShares(ss: seq<MaskShare>) returns (r: Result<seq<Send>, NodeError>)
      modifies this
      ensures (r, State()) == Arrive(old(State()), AsShared(ss))
    {
      ghost var batch := AsShared(ss);
      hide Settle, Scan, InsertAll, Touched;
      for k := 0 to |ss|
        invariant forall j :: 0 <= j < k ==> ss[j].index !in maskShares
      {
        if ss[k].index in maskShares {
          assert Present(Arrived(), batch[k]);
          return Err(IndexAlreadyAdded);
        }
      }
      var touched := RecordShares(ss);
      r := SettleTouched(touched);
    }

    method ReceiveAssignedMaskShares(id: Identity, start: u64, count: u64, sink: SinkId) returns (reply: Reply)
      modifies this`assignedSinks
      ensures (reply, State()) == Ask(old(State()), id, Request(start, count, sink))
    {
      assignedSinks := assignedSinks - {id};
      var found := AssignedMaskSharesForClient(id, start, count);
      match found {
        case Err(e) => return Rejected(e);
        case Ok(Some(shares)) => return Replied(shares);
        case Ok(None) =>
          assignedSinks := assignedSinks[id := Request(start, count, sink)];
          return Stored;
      }
    }
  }

  /** A reservation names its client itself, so later insertions do not change who was touched. */
  lemma {:induction false} ReservedTouch(m: Maps, m': Maps, rs: seq<Reservation>)
    ensures Touched(m, AsReserved(rs)) == Touched(m', AsReserved(rs))
  {
    if rs != [] {
      assert AsReserved(rs)[..|rs| - 1] == AsReserved(rs[..|rs| - 1]);
      ReservedTouch(m, m', rs[..|rs| - 1]);
    }
  }
}
