/** Types shared by every component of the model. */
module Base {

  datatype Option<+T> = None | Some(value: T)

  datatype Result<+T, +E> = Ok(value: T) | Err(error: E)

  newtype byte = x: int | 0 <= x < 256

  type Bytes = seq<byte>

  /** `u64`; `usize` is the same type, as on every 64-bit target. */
  type u64 = x: nat | x < 0x1_0000_0000_0000_0000

  type u32 = x: nat | x < 0x1_0000_0000

  /** The longest `Vec` whose element type is not zero-sized. */
  const MAX_VEC_LEN: nat := 0x7FFF_FFFF_FFFF_FFFF

  /** A client or party: the raw public key bytes. */
  type Identity = Bytes

  type ExecutionId = Bytes

  /** One accepted subscription. Every accepted subscription gets a number of its own. */
  type SinkId = nat

  predicate IsZero(id: Bytes) {
    forall k :: 0 <= k < |id| ==> id[k] == 0
  }

  ghost predicate NoDup<T>(s: seq<T>) {
    forall i, j :: 0 <= i < j < |s| ==> s[i] != s[j]
  }

  function Elements<T>(s: seq<T>): set<T> {
    set x | x in s
  }

  lemma {:induction false} SubsetCard<T>(a: set<T>, b: set<T>)
    requires a <= b
    ensures |a| <= |b|
    ensures |a| == |b| ==> a == b
  {
    if a != {} {
      var x :| x in a;
      SubsetCard(a - {x}, b - {x});
    }
  }

  lemma {:induction false} NoDupCons<T>(x: T, t: seq<T>)
    ensures NoDup([x] + t) <==> NoDup(t) && x !in t
  {
    var s := [x] + t;
    assert forall i :: 0 <= i < |t| ==> s[i + 1] == t[i];
    if NoDup(s) {
      forall i | 0 <= i < |t| ensures t[i] != x {
        assert s[0] != s[i + 1];
      }
      forall i, j | 0 <= i < j < |t| ensures t[i] != t[j] {
        assert s[i + 1] != s[j + 1];
      }
    } else {
      var i, j :| 0 <= i < j < |s| && s[i] == s[j];
      assert s[j] == t[j - 1];
      assert i > 0 ==> s[i] == t[i - 1];
    }
  }

  lemma {:induction false} NoDupCard<T>(s: seq<T>)
    ensures |Elements(s)| <= |s|
    ensures NoDup(s) <==> |Elements(s)| == |s|
  {
    if s != [] {
      var x, t := s[0], s[1..];
      NoDupCard(t);
      NoDupCons(x, t);
      assert s == [x] + t;
      assert Elements(s) == Elements(t) + {x};
      if x in t {
        assert Elements(s) == Elements(t);
      } else {
        assert |Elements(t) + {x}| == |Elements(t)| + 1;
      }
    }
  }
}
