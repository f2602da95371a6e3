/** Sequence notions shared by the modules: flattening, integer ranges, and the two fixed integer
    widths the client relies on. */
module Seqs {

  const TWO_TO_32: int := 0x1_0000_0000

  datatype Option<+T> = None | Some(value: T)

  function Min(a: int, b: int): int { if a <= b then a else b }

  function Max(a: int, b: int): int { if a <= b then b else a }

  /** A conversion to `unsigned int`. */
  function ToUint32(x: int): (r: nat)
    ensures r < TWO_TO_32
    ensures 0 <= x < TWO_TO_32 ==> r == x
  {
    x % TWO_TO_32
  }

  /** A cast to `int`: the representative of `x` modulo 2^32 in the signed range. */
  function ToInt32(x: int): (r: int)
    ensures -0x8000_0000 <= r < 0x8000_0000
    ensures -0x8000_0000 <= x < 0x8000_0000 ==> r == x
    ensures 0 <= x ==> r <= x
    ensures ToUint32(r) == ToUint32(x)
  {
    var u := x % TWO_TO_32;
    if u < 0x8000_0000 then u else u - TWO_TO_32
  }

  function Flatten<T>(s: seq<seq<T>>): seq<T> {
    if s == [] then [] else s[0] + Flatten(s[1..])
  }

  lemma Assoc<T>(a: seq<T>, b: seq<T>, c: seq<T>)
    ensures (a + b) + c == a + (b + c)
  {
  }

  lemma Rejoin<T>(a: seq<T>, s: seq<T>, i: nat)
    requires i <= |s|
    ensures (a + s[..i]) + s[i..] == a + s
  {
  }

  lemma {:induction false} FlattenConcat<T>(a: seq<seq<T>>, b: seq<seq<T>>)
    ensures Flatten(a + b) == Flatten(a) + Flatten(b)
  {
    if a == [] {
      assert a + b == b;
    } else {
      var tail := a[1..];
      FlattenConcat(tail, b);
      assert (a + b)[0] == a[0] && (a + b)[1..] == tail + b;
      Assoc(a[0], Flatten(tail), Flatten(b));
    }
  }

  lemma FlattenSnoc<T>(a: seq<seq<T>>, x: seq<T>)
    ensures Flatten(a + [x]) == Flatten(a) + x
  {
    FlattenConcat(a, [x]);
    assert [x][1..] == [];
  }

  /** The integers `a, a+1, .., b-1`. */
  function Range(a: int, b: int): (r: seq<int>)
    ensures |r| == Max(0, b - a)
    ensures forall i :: 0 <= i < |r| ==> r[i] == a + i
  {
    seq(Max(0, b - a), i => a + i)
  }

  lemma RangeConcat(a: int, b: int, c: int)
    requires a <= b <= c
    ensures Range(a, b) + Range(b, c) == Range(a, c)
  {
  }

  lemma RangeSnoc(a: int, b: int)
    requires a <= b
    ensures Range(a, b + 1) == Range(a, b) + [b]
  {
  }
}
