/** The byte string a browser request signs, and why no two requests share it. */
module AuthMessages {
  import opened Base

  /** The bytes of `stoffel-browser-rpc-auth`. */
  const AUTH_DOMAIN: Bytes := [
    115, 116, 111, 102, 102, 101, 108, 45, 98, 114, 111, 119, 115, 101, 114, 45, 114, 112, 99, 45, 97, 117, 116, 104]

  /** What is signed. Text is its UTF-8 bytes, and the body is represented by its hash. */
  datatype Fields = Fields(method_: Bytes, executionId: Bytes, created: u64, nonce: Bytes, bodyHash: Bytes,
                           token: Bytes)

  predicate Sized(f: Fields) {
    |f.executionId| == 32 && |f.nonce| == 16 && |f.bodyHash| == 32
  }

  predicate NulFree(s: Bytes) {
    forall k :: 0 <= k < |s| ==> s[k] != 0
  }

  function Pow256(k: nat): nat {
    if k == 0 then 1 else 256 * Pow256(k - 1)
  }

  function LeBytes(x: nat, k: nat): (r: Bytes)
    ensures |r| == k
  {
    if k == 0 then [] else [(x % 256) as byte] + LeBytes(x / 256, k - 1)
  }

  function LeValue(s: Bytes): (x: nat)
    ensures x < Pow256(|s|)
  {
    if s == [] then 0 else s[0] as nat + 256 * LeValue(s[1..])
  }

  lemma {:induction false} LeRoundTrip(x: nat, k: nat)
    requires x < Pow256(k)
    ensures LeValue(LeBytes(x, k)) == x
  {
    if k > 0 {
      LeRoundTrip(x / 256, k - 1);
      assert LeBytes(x, k)[1..] == LeBytes(x / 256, k - 1);
    }
  }

  lemma {:induction false} LeBytesBack(s: Bytes)
    ensures LeBytes(LeValue(s), |s|) == s
  {
    if s != [] {
      LeBytesBack(s[1..]);
      var x := LeValue(s);
      assert x % 256 == s[0] as nat && x / 256 == LeValue(s[1..]);
      assert s == [s[0]] + s[1..];
    }
  }

  lemma {:induction false} EightBytes()
    ensures Pow256(8) == 0x1_0000_0000_0000_0000
  {
    assert Pow256(1) == 0x100 && Pow256(2) == 0x1_0000;
    assert Pow256(4) == 0x1_0000_0000;
    assert Pow256(6) == 0x1_0000_0000_0000;
  }

  /** The fixed-width part of the message and the token after it. */
  function Fixed(f: Fields): Bytes {
    f.executionId + LeBytes(f.created, 8) + f.nonce + f.bodyHash + f.token
  }

  function Named(f: Fields): Bytes {
    f.method_ + [0] + Fixed(f)
  }

  function Layout(f: Fields): Bytes {
    AUTH_DOMAIN + [0] + Named(f)
  }

  lemma {:induction false} LeFirst(x: nat, k: nat)
    requires k > 0
    ensures LeBytes(x, k) == [(x % 256) as byte] + LeBytes(x / 256, k - 1)
  {
  }

  /** `u64::to_le_bytes`. */
  method ToLeBytes(value: u64) returns (bytes: Bytes)
    ensures bytes == LeBytes(value, 8)
  {
    hide LeBytes;
    bytes := [];
    assert [] + LeBytes(value, 8) == LeBytes(value, 8);
    var x, k := value, 0;
    while k < 8
      invariant 0 <= k <= 8
      invariant bytes + LeBytes(x, 8 - k) == LeBytes(value, 8)
    {
      LeFirst(x, 8 - k);
      ghost var rest := LeBytes(x / 256, 8 - k - 1);
      assert bytes + ([(x % 256) as byte] + rest) == bytes + [(x % 256) as byte] + rest;
      bytes := bytes + [(x % 256) as byte];
      x := x / 256;
      k := k + 1;
    }
    assert LeBytes(x, 0) == [];
    assert bytes + [] == bytes;
  }

  /** `authentication_message`: the fields appended one after the other. */
  method AuthenticationMessage(name: Bytes, id: Bytes, created: u64, nonce: Bytes, body: Bytes, token: Bytes,
                               digest: Bytes -> Bytes) returns (message: Bytes)
    ensures message == Layout(Fields(name, id, created, nonce, digest(body), token))
  {
    var createdBytes := ToLeBytes(created);
    var bodyHash := digest(body);
    message := AUTH_DOMAIN;
    message := message + [0];
    ghost var domain := message;
    message := message + name;
    message := message + [0];
    message := message + id;
    message := message + createdBytes;
    message := message + nonce;
    message := message + bodyHash;
    message := message + token;
    hide LeBytes;
    assert message == domain + (name + [0] + (id + createdBytes + nonce + bodyHash + token));
  }

  // ---------------------------------------------------------------- reading it back

  function FirstNul(s: Bytes): (k: nat)
    ensures k <= |s| && NulFree(s[..k]) && (k < |s| ==> s[k] == 0)
  {
    if s == [] || s[0] == 0 then 0
    else
      var k := FirstNul(s[1..]);
      assert s[..k + 1] == [s[0]] + s[1..][..k];
      k + 1
  }

  lemma {:induction false} FirstNulIs(s: Bytes, t: Bytes)
    requires NulFree(s)
    ensures FirstNul(s + [0] + t) == |s|
  {
    var whole := s + [0] + t;
    if s != [] {
      assert whole[0] == s[0] && whole[1..] == s[1..] + [0] + t;
      FirstNulIs(s[1..], t);
    }
  }

  lemma {:induction false} FixedParts(f: Fields)
    requires Sized(f)
    ensures var b := Fixed(f);
      && |b| >= 88 && b[..32] == f.executionId && b[32..40] == LeBytes(f.created, 8)
      && b[40..56] == f.nonce && b[56..88] == f.bodyHash && b[88..] == f.token
  {
  }

  /** Reading the part after the domain. */
  function ParseNamed(rest: Bytes): Option<Fields> {
    var k := FirstNul(rest);
    if |rest| < k + 1 + 88 then None
    else
      var b := rest[k + 1..];
      EightBytes();
      Some(Fields(rest[..k], b[..32], LeValue(b[32..40]), b[40..56], b[56..88], b[88..]))
  }

  /** Splits a message at its domain, the next two NULs and the fixed widths. */
  function Parse(m: Bytes): Option<Fields> {
    var d := |AUTH_DOMAIN|;
    if |m| <= d || m[..d] != AUTH_DOMAIN || m[d] != 0 then None else ParseNamed(m[d + 1..])
  }

  /** Every message with a NUL-free method name reads back as exactly the fields it was built from. */
  lemma {:induction false} ParseLayout(f: Fields)
    requires Sized(f) && NulFree(f.method_)
    ensures Parse(Layout(f)) == Some(f)
  {
    assert ParseNamed(Named(f)) == Some(f) by {
      var k, rest := |f.method_|, Named(f);
      FirstNulIs(f.method_, Fixed(f));
      assert rest[..k] == f.method_ && rest[k + 1..] == Fixed(f);
      FixedParts(f);
      EightBytes();
      LeRoundTrip(f.created, 8);
      hide Fixed, LeBytes, LeValue, FirstNul;
    }
    var d, m := |AUTH_DOMAIN|, Layout(f);
    assert m[..d] == AUTH_DOMAIN && m[d] == 0 && m[d + 1..] == Named(f);
  }

  lemma {:induction false} FixedBack(b: Bytes, f: Fields)
    requires |b| >= 88 && f.executionId == b[..32] && f.created == LeValue(b[32..40])
    requires f.nonce == b[40..56] && f.bodyHash == b[56..88] && f.token == b[88..]
    ensures Fixed(f) == b
  {
    LeBytesBack(b[32..40]);
    hide LeBytes, LeValue;
    assert b == b[..32] + b[32..40] + b[40..56] + b[56..88] + b[88..];
  }

  /** Whatever reads back is a message: the reader accepts nothing else. */
  lemma {:induction false} LayoutParse(m: Bytes)
    requires Parse(m).Some?
    ensures var f := Parse(m).value; Sized(f) && NulFree(f.method_) && Layout(f) == m
  {
    var d, f := |AUTH_DOMAIN|, Parse(m).value;
    var rest := m[d + 1..];
    assert m == AUTH_DOMAIN + [0] + rest;
    var k := FirstNul(rest);
    var b := rest[k + 1..];
    hide LeValue, FirstNul, Fixed;
    FixedBack(b, f);
    assert rest == rest[..k] + [0] + b;
  }

  /** Equal signed messages are messages of the same request. */
  lemma {:induction false} MessagesAreDistinct(f: Fields, g: Fields)
    requires Sized(f) && Sized(g) && NulFree(f.method_) && NulFree(g.method_)
    ensures Layout(f) == Layout(g) <==> f == g
  {
    ParseLayout(f);
    ParseLayout(g);
    hide Layout, Parse;
  }

  /** A message reads back exactly when its method name has no NUL. */
  lemma {:induction false} ReadsBackIff(f: Fields)
    requires Sized(f)
    ensures Parse(Layout(f)) == Some(f) <==> NulFree(f.method_)
  {
    if NulFree(f.method_) { ParseLayout(f); }
    if Parse(Layout(f)).Some? { LayoutParse(Layout(f)); }
    hide Layout, Parse;
  }

  /** The domain is the ASCII text the signature is scoped to. */
  lemma {:induction false} DomainIs()
    ensures |AUTH_DOMAIN| == |"stoffel-browser-rpc-auth"|
    ensures forall k :: 0 <= k < |AUTH_DOMAIN| ==> AUTH_DOMAIN[k] as int == "stoffel-browser-rpc-auth"[k] as int
  {
    var text := "stoffel-browser-rpc-auth";
    assert text[..8] == "stoffel-" && text[8..16] == "browser-" && text[16..] == "rpc-auth";
  }
}
