/** Taking a mask off a masked input, share by share, leaves a sharing of the input. */
module ShareAlgebra {
  import opened Base
  import opened Topology
  import opened ExecutionModel
  import opened ExecutionRuns
  import opened ClientInputs
  import opened ClientInputProps

  /** A polynomial, lowest coefficient first, evaluated modulo `p`. */
  function Eval(p: int, coeffs: seq<int>, x: int): int
    requires p > 0
  {
    if coeffs == [] then 0 else (coeffs[0] + x * Eval(p, coeffs[1..], x)) % p
  }

  lemma {:induction false} MulAtLeast(p: int, d: int)
    requires p > 0 && d >= 1
    ensures p * d >= p
  {
    if d > 1 {
      MulAtLeast(p, d - 1);
      assert p * d == p * (d - 1) + p;
    }
  }

  lemma {:induction false} ModUnique(p: int, n: int, q: int, r: int)
    requires p > 0 && 0 <= r < p && n == p * q + r
    ensures n % p == r
  {
    var d := q - n / p;
    assert p * d == p * q - p * (n / p);
    assert p * d == n % p - r;
    var e := -d;
    assert p * e == -(p * d);
    if d >= 1 { MulAtLeast(p, d); }
    if e >= 1 { MulAtLeast(p, e); }
  }

  lemma {:induction false} ModShift(p: int, u: int, k: int)
    requires p > 0
    ensures (u + p * k) % p == u % p
  {
    assert u + p * k == p * (u / p + k) + u % p;
    ModUnique(p, u + p * k, u / p + k, u % p);
  }

  /** A factor may be reduced before or after. */
  lemma {:induction false} ModTerm(p: int, a: int, x: int, b: int)
    requires p > 0
    ensures (a + x * (b % p)) % p == (a + x * b) % p
  {
    var k := b / p;
    assert b == p * k + b % p;
    assert x * b == x * (p * k) + x * (b % p);
    assert x * (p * k) == p * (x * k);
    ModShift(p, a + x * (b % p), x * k);
  }

  function Negated(coeffs: seq<int>): (r: seq<int>)
    ensures |r| == |coeffs|
  {
    if coeffs == [] then [] else [-coeffs[0]] + Negated(coeffs[1..])
  }

  lemma {:induction false} NegModulo(p: int, b: int, a: int)
    requires p > 0
    ensures (a - b % p) % p == (a - b) % p
  {
    assert b == p * (b / p) + b % p;
    ModShift(p, a - b, b / p);
  }

  lemma {:induction false} NegatedTerm(p: int, a: int, x: int, rest: int)
    requires p > 0
    ensures (-a + x * ((-rest) % p)) % p == (-((a + x * rest) % p)) % p
  {
    ModTerm(p, -a, x, -rest);
    NegModulo(p, a + x * rest, 0);
    assert -a + x * -rest == 0 - (a + x * rest);
  }

  lemma {:induction false} EvalNegated(p: int, coeffs: seq<int>, x: int)
    requires p > 0
    ensures Eval(p, Negated(coeffs), x) == (-Eval(p, coeffs, x)) % p
  {
    if coeffs != [] {
      var rest := Eval(p, coeffs[1..], x);
      var neg := Negated(coeffs);
      EvalNegated(p, coeffs[1..], x);
      assert neg[0] == -coeffs[0] && neg[1..] == Negated(coeffs[1..]);
      assert Eval(p, neg, x) == (-coeffs[0] + x * Eval(p, neg[1..], x)) % p;
      assert Eval(p, coeffs, x) == (coeffs[0] + x * rest) % p;
      hide Eval, Negated;
      NegatedTerm(p, coeffs[0], x, rest);
    }
  }

  /** The polynomial that shares the input: the input as constant term, the mask's other terms negated. */
  function InputPolynomial(input: int, mask: seq<int>): (q: seq<int>)
    requires mask != []
    ensures |q| == |mask|
  {
    [input] + Negated(mask[1..])
  }

  /** The unmasked value at a point is the input polynomial at that point. */
  lemma {:induction false} UnmaskIsInputPolynomial(p: int, input: int, mask: seq<int>, point: int)
    requires p > 0 && mask != []
    ensures ((input + mask[0]) % p - Eval(p, mask, point)) % p == Eval(p, InputPolynomial(input, mask), point)
  {
    var rest := Eval(p, mask[1..], point);
    var q := InputPolynomial(input, mask);
    assert q[0] == input && q[1..] == Negated(mask[1..]);
    assert Eval(p, q, point) == (input + point * Eval(p, q[1..], point)) % p
      && Eval(p, mask, point) == (mask[0] + point * rest) % p;
    EvalNegated(p, mask[1..], point);
    hide Eval, Negated, InputPolynomial;
    UnmaskTerm(p, input, mask[0], point, rest);
  }

  lemma {:induction false} UnmaskTerm(p: int, input: int, first: int, point: int, rest: int)
    requires p > 0
    ensures ((input + first) % p - (first + point * rest) % p) % p == (input + point * ((-rest) % p)) % p
  {
    ModTerm(p, input, point, -rest);
    ModDiff(p, input + first, first + point * rest);
    assert (input + first) - (first + point * rest) == input + point * -rest;
  }

  lemma {:induction false} ModDiff(p: int, a: int, b: int)
    requires p > 0
    ensures (a % p - b % p) % p == (a - b) % p
  {
    NegModulo(p, b, a % p);
    ModFirst(p, a, b);
  }

  lemma {:induction false} ModFirst(p: int, a: int, b: int)
    requires p > 0
    ensures (a % p - b) % p == (a - b) % p
  {
    assert a == p * (a / p) + a % p;
    ModShift(p, a % p - b, a / p);
  }

  lemma {:induction false} ConstantTerm(p: int, coeffs: seq<int>)
    requires p > 0 && coeffs != []
    ensures Eval(p, coeffs, 0) == coeffs[0] % p
  {
    assert 0 * Eval(p, coeffs[1..], 0) == 0;
  }

  lemma {:induction false} InputIsConstant(p: int, input: int, mask: seq<int>)
    requires p > 0 && mask != []
    ensures Eval(p, InputPolynomial(input, mask), 0) == input % p
  {
    ConstantTerm(p, InputPolynomial(input, mask));
  }

  /** A node whose mask share of every slot is its point on that slot's mask polynomial of degree at most `t`. */
  ghost predicate MasksOnPolynomials(l: Local, masks: seq<seq<int>>, point: int, t: nat) {
    && LocalOk(l)
    && |l.masks| == |masks|
    && forall i :: 0 <= i < |masks| ==>
         0 < |masks[i]| <= t + 1 && l.masks[i].value == Eval(l.p, masks[i], point) && l.masks[i].degree == t
  }

  /** Every submitted value is the client's input plus the mask. */
  ghost predicate MaskedInputs(l: Local, e: Exec, masks: seq<seq<int>>, inputs: seq<int>) {
    && LocalOk(l)
    && |inputs| == |masks| == |e.masked|
    && forall i :: 0 <= i < |masks| ==>
         masks[i] != [] && e.masked[i].Some? && l.decode(e.masked[i].value) == Some((inputs[i] + masks[i][0]) % l.p)
  }

  /** `share` is the point of this node on a polynomial of degree at most `t` with constant term `input`. */
  ghost predicate SharesInput(p: int, input: int, mask: seq<int>, point: int, t: nat, share: Share)
    requires p > 0 && mask != []
  {
    var q := InputPolynomial(input, mask);
    && |q| <= t + 1 && share.degree == t
    && share.value == Eval(p, q, point)
    && Eval(p, q, 0) == input % p
  }

  lemma {:induction false} SlotSharesInput(l: Local, e: Exec, masks: seq<seq<int>>, inputs: seq<int>, point: int,
                                           t: nat, i: u64, share: Share)
    requires MasksOnPolynomials(l, masks, point, t) && MaskedInputs(l, e, masks, inputs) && ShareOf(l, e, i, share)
    ensures SharesInput(l.p, inputs[i], masks[i], point, t, share) && share.id == l.masks[i].id
  {
    hide Eval, InputPolynomial;
    UnmaskIsInputPolynomial(l.p, inputs[i], masks[i], point);
    InputIsConstant(l.p, inputs[i], masks[i]);
  }

  /**
   * In every run with all inputs in and no repeated index, every share a node obtains lies on a polynomial of degree at
   * most `t` whose constant term is the client's input. The polynomial does not depend on the node, so the shares of
   * all nodes together share that input.
   */
  lemma {:induction false} NodesShareTheInputs(c: Config, reg: Registration, actions: seq<Action>, l: Local,
                                               masks: seq<seq<int>>, inputs: seq<int>, point: int, t: nat,
                                               client: Identity)
    returns (s: Indexed)
    requires Accepted(c, reg) && AllSubmitted(After(c, reg, actions).e)
      && Some(client) in After(c, reg, actions).e.reserved
    requires AllGood(l, After(c, reg, actions).e.maskedStream.log)
    requires NoRepeatedInput(After(c, reg, actions).e.maskedStream.log)
    requires MasksOnPolynomials(l, masks, point, t) && MaskedInputs(l, After(c, reg, actions).e, masks, inputs)
    ensures var e := After(c, reg, actions).e;
      var r := Inputs(l, reg.nInputs, e.maskedStream.log);
      && r.Ok? && client in r.value && r.value[client] == Values(s) && IsInputsOf(l, e, client, s)
      && forall k :: 0 <= k < |s| ==>
           && s[k].0 < |masks| && SharesInput(l.p, inputs[s[k].0], masks[s[k].0], point, t, s[k].1)
           && s[k].1.id == l.masks[s[k].0].id
  {
    NodeGetsEveryInput(c, reg, actions, l);
    var e := After(c, reg, actions).e;
    var r := Inputs(l, reg.nInputs, e.maskedStream.log).value;
    hide After, New, AllGood, NoRepeatedInput, Inputs, SharesInput;
    assert ResultFor(l, e, r, client);
    s :| IsInputsOf(l, e, client, s) && r[client] == Values(s);
    forall k | 0 <= k < |s|
      ensures s[k].0 < |masks| && SharesInput(l.p, inputs[s[k].0], masks[s[k].0], point, t, s[k].1)
      ensures s[k].1.id == l.masks[s[k].0].id
    {
      SlotSharesInput(l, e, masks, inputs, point, t, s[k].0, s[k].1);
    }
  }
}
