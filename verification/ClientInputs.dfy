/** How a node turns the coordinator's masked-input events into its shares of the clients' inputs. */
module ClientInputs {
  import opened Base
  import opened ExecutionModel

  /** A Shamir share over the integers modulo a prime. */
  datatype Share = Share(value: int, id: nat, degree: nat)

  datatype WaitError = SubscriptionEnded | DeserializationError | NoMaskShare

  /** `compute_masked_input`: the mask share taken off the public masked input. */
  function Unmask(p: int, input: int, mask: Share): Share
    requires p > 0
  {
    Share((input - mask.value) % p, mask.id, mask.degree)
  }

  type Indexed = seq<(u64, Share)>

  type Gathered = map<Identity, Indexed>

  /** The node's own side: the modulus, its mask shares, and the decoding of a field element. */
  datatype Local = Local(p: int, masks: seq<Share>, decode: Bytes -> Option<int>)

  ghost predicate LocalOk(l: Local) {
    l.p > 0
  }

  /** One input's share; a mask share that is not there stops the node. */
  function Open(l: Local, pair: (u64, Bytes)): Result<(u64, Share), WaitError>
    requires LocalOk(l)
  {
    if pair.0 >= |l.masks| then Err(NoMaskShare)
    else
      match l.decode(pair.1)
      case None => Err(DeserializationError)
      case Some(input) => Ok((pair.0, Unmask(l.p, input, l.masks[pair.0])))
  }

  function Push(acc: Gathered, client: Identity, x: (u64, Share)): Gathered {
    acc[client := (if client in acc then acc[client] else []) + [x]]
  }

  function AddPairs(l: Local, acc: Gathered, client: Identity, pairs: seq<(u64, Bytes)>): Result<Gathered, WaitError>
    requires LocalOk(l)
    decreases |pairs|
  {
    if pairs == [] then Ok(acc)
    else
      match Open(l, pairs[0])
      case Err(e) => Err(e)
      case Ok(x) => AddPairs(l, Push(acc, client, x), client, pairs[1..])
  }

  /** Takes events until `n` inputs have been received. */
  function Gather(l: Local, acc: Gathered, received: nat, n: nat, log: seq<MaskedEvent>): Result<Gathered, WaitError>
    requires LocalOk(l)
    decreases |log|
  {
    if received >= n then Ok(acc)
    else if log == [] then Err(SubscriptionEnded)
    else
      match AddPairs(l, acc, log[0].client, log[0].pairs)
      case Err(e) => Err(e)
      case Ok(acc') => Gather(l, acc', received + |log[0].pairs|, n, log[1..])
  }

  /** Insertion after every entry with the same or a smaller index: a stable sort. */
  function InsertSorted(s: Indexed, x: (u64, Share)): Indexed {
    if s == [] then [x]
    else if s[|s| - 1].0 <= x.0 then s + [x]
    else InsertSorted(s[..|s| - 1], x) + [s[|s| - 1]]
  }

  function SortByIndex(s: Indexed): Indexed {
    if s == [] then [] else InsertSorted(SortByIndex(s[..|s| - 1]), s[|s| - 1])
  }

  function Values(s: Indexed): (r: seq<Share>)
    ensures |r| == |s| && forall k :: 0 <= k < |s| ==> r[k] == s[k].1
  {
    seq(|s|, k requires 0 <= k < |s| => s[k].1)
  }

  function InOrder(acc: Gathered): map<Identity, seq<Share>> {
    map client | client in acc :: Values(SortByIndex(acc[client]))
  }

  /** `wait_for_inputs` on what its subscription receives. */
  function Inputs(l: Local, n: nat, log: seq<MaskedEvent>): Result<map<Identity, seq<Share>>, WaitError>
    requires LocalOk(l)
  {
    match Gather(l, map[], 0, n, log)
    case Err(e) => Err(e)
    case Ok(acc) => Ok(InOrder(acc))
  }

  /** The inner loop: the pairs of one event. */
  method AddEvent(l: Local, acc: Gathered, evt: MaskedEvent) returns (r: Result<Gathered, WaitError>)
    requires LocalOk(l)
    ensures r == AddPairs(l, acc, evt.client, evt.pairs)
  {
    var acc' := acc;
    for j := 0 to |evt.pairs|
      invariant AddPairs(l, acc, evt.client, evt.pairs) == AddPairs(l, acc', evt.client, evt.pairs[j..])
    {
      var found := Open(l, evt.pairs[j]);
      assert evt.pairs[j..][1..] == evt.pairs[j + 1..];
      if found.Err? {
        return Err(found.error);
      }
      acc' := Push(acc', evt.client, found.value);
    }
    r := Ok(acc');
  }

  /** Every client's inputs, put in index order. */
  method SortAll(acc: Gathered) returns (result: map<Identity, seq<Share>>)
    ensures result == InOrder(acc)
  {
    var left := acc.Keys;
    result := map[];
    while left != {}
      invariant left <= acc.Keys
      invariant result == map client | client in acc && client !in left :: Values(SortByIndex(acc[client]))
      decreases |left|
    {
      var client :| client in left;
      left := left - {client};
      result := result[client := Values(SortByIndex(acc[client]))];
    }
  }

  method WaitForInputs(l: Local, n: u64, log: seq<MaskedEvent>)
    returns (r: Result<map<Identity, seq<Share>>, WaitError>)
    requires LocalOk(l)
    ensures r == Inputs(l, n, log)
  {
    var acc: Gathered := map[];
    var received: nat, k := 0, 0;
    while received < n
      invariant 0 <= k <= |log|
      invariant Gather(l, map[], 0, n, log) == Gather(l, acc, received, n, log[k..])
      decreases |log| - k
    {
      if k == |log| {
        return Err(SubscriptionEnded);
      }
      assert log[k..][1..] == log[k + 1..];
      var added := AddEvent(l, acc, log[k]);
      if added.Err? {
        return Err(added.error);
      }
      acc := added.value;
      received := received + |log[k].pairs|;
      k := k + 1;
    }
    var sorted := SortAll(acc);
    r := Ok(sorted);
  }
}
