/** The chunked FIFO queue. `Chunked` gives the value a chunk layout stands for and what each kind
    of move does to it; `BufferQueue` is the queue itself, over fixed-size chunks in memory. */
module Chunked {
  import opened Seqs

  const UNSET: nat := 0xFFFF_FFFF  // `unsigned int` -1, the back index of a queue without chunks

  /** The layouts the queue can reach. */
  ghost predicate Shape<T>(chunks: seq<seq<T>>, size: nat, front: nat, back: nat) {
    && 0 < size < TWO_TO_32
    && (forall i :: 0 <= i < |chunks| ==> |chunks[i]| == size)
    && (chunks == [] ==> front == 0 && back == UNSET)
    && (chunks != [] ==> front < size && back < size)
    && (|chunks| == 1 ==> front <= back)
  }

  /** The slots up to and including `back`, from the first slot of the first chunk on. */
  ghost function Written<T>(chunks: seq<seq<T>>, back: nat): seq<T>
    requires chunks != [] && back < |chunks[|chunks| - 1]|
  {
    if |chunks| == 1 then chunks[0][..back + 1] else chunks[0] + Written(chunks[1..], back)
  }

  lemma {:induction false} WrittenLength<T>(chunks: seq<seq<T>>, size: nat, back: nat)
    requires chunks != [] && back < size
    requires forall i :: 0 <= i < |chunks| ==> |chunks[i]| == size
    ensures |Written(chunks, back)| == (|chunks| - 1) * size + back + 1
  {
    if |chunks| > 1 {
      WrittenLength(chunks[1..], size, back);
      assert (|chunks| - 1) * size == size + (|chunks| - 2) * size;
    }
  }

  lemma {:induction false} WrittenInPlace<T>(chunks: seq<seq<T>>, back: nat, last: seq<T>, x: T)
    requires chunks != [] && back + 1 < |chunks[|chunks| - 1]|
    requires last == chunks[|chunks| - 1][back + 1 := x]
    ensures Written(chunks[|chunks| - 1 := last], back + 1) == Written(chunks, back) + [x]
  {
    var n := |chunks|;
    if n == 1 {
      assert last[..back + 2] == chunks[0][..back + 1] + [x];
    } else {
      WrittenInPlace(chunks[1..], back, last, x);
      assert chunks[n - 1 := last][1..] == chunks[1..][n - 2 := last];
    }
  }

  lemma {:induction false} WrittenNewChunk<T>(chunks: seq<seq<T>>, added: seq<T>, x: T)
    requires chunks != [] && chunks[|chunks| - 1] != [] && added != [] && added[0] == x
    ensures Written(chunks + [added], 0) == Written(chunks, |chunks[|chunks| - 1]| - 1) + [x]
  {
    var n := |chunks|;
    assert added[..1] == [x];
    if n == 1 {
      assert (chunks + [added])[1..] == [added];
      assert chunks[0][..|chunks[0]|] == chunks[0];
    } else {
      WrittenNewChunk(chunks[1..], added, x);
      assert (chunks + [added])[1..] == chunks[1..] + [added];
    }
  }

  /** The elements in the queue, first to last. Slots before `front` in the first chunk and after
      `back` in the last one hold stale or uninitialised storage and are not part of it. */
  ghost function Window<T>(chunks: seq<seq<T>>, size: nat, front: nat, back: nat): (w: seq<T>)
    requires Shape(chunks, size, front, back)
    ensures w == [] <==> chunks == []
  {
    if chunks == [] then []
    else
      WrittenLength(chunks, size, back);
      FrontWritten(chunks, size, front, back);
      Written(chunks, back)[front..]
  }

  lemma FrontWritten<T>(chunks: seq<seq<T>>, size: nat, front: nat, back: nat)
    requires Shape(chunks, size, front, back) && chunks != []
    ensures front < |Written(chunks, back)| && Written(chunks, back)[front] == chunks[0][front]
  {
  }

  /** The element count from the two indices and the chunk count alone. */
  lemma WindowLength<T>(chunks: seq<seq<T>>, size: nat, front: nat, back: nat)
    requires Shape(chunks, size, front, back)
    ensures |Window(chunks, size, front, back)| ==
            if chunks == [] then 0
            else if |chunks| == 1 then back - front + 1
            else (|chunks| - 2) * size + (back + 1) + (size - front)
  {
    if |chunks| >= 1 {
      WrittenLength(chunks, size, back);
      assert (|chunks| - 1) * size == (|chunks| - 2) * size + size;
    }
  }

  /** The first element is the slot the front index names in the first chunk. */
  lemma WindowFront<T>(chunks: seq<seq<T>>, size: nat, front: nat, back: nat)
    requires Shape(chunks, size, front, back) && chunks != []
    ensures Window(chunks, size, front, back)[0] == chunks[0][front]
  {
  }

  /** Writing the slot after the back index appends, whatever that slot held before. */
  lemma PushInPlace<T>(chunks: seq<seq<T>>, size: nat, front: nat, back: nat, last: seq<T>, x: T)
    requires Shape(chunks, size, front, back) && chunks != [] && back + 1 < size
    requires last == chunks[|chunks| - 1][back + 1 := x]
    ensures Shape(chunks[|chunks| - 1 := last], size, front, back + 1)
    ensures Window(chunks[|chunks| - 1 := last], size, front, back + 1)
         == Window(chunks, size, front, back) + [x]
  {
    WrittenInPlace(chunks, back, last, x);
    FrontWritten(chunks, size, front, back);
  }

  /** With the last chunk full (or no chunk at all), writing slot 0 of a new chunk appends. */
  lemma PushNewChunk<T>(chunks: seq<seq<T>>, size: nat, front: nat, back: nat, added: seq<T>, x: T)
    requires Shape(chunks, size, front, back)
    requires chunks != [] ==> back == size - 1
    requires |added| == size && added[0] == x
    ensures Shape(chunks + [added], size, front, 0)
    ensures Window(chunks + [added], size, front, 0) == Window(chunks, size, front, back) + [x]
  {
    if chunks == [] {
      assert added[..1] == [x];
    } else {
      WrittenNewChunk(chunks, added, x);
      FrontWritten(chunks, size, front, back);
    }
  }

  /** Advancing the front index drops the first element and nothing else. */
  lemma PopWithin<T>(chunks: seq<seq<T>>, size: nat, front: nat, back: nat)
    requires Shape(chunks, size, front, back) && chunks != []
    requires if |chunks| == 1 then front < back else front + 1 < size
    ensures Shape(chunks, size, front + 1, back)
    ensures Window(chunks, size, front + 1, back) == Window(chunks, size, front, back)[1..]
  {
  }

  /** Removing an exhausted first chunk drops the first element and nothing else. */
  lemma PopChunk<T>(chunks: seq<seq<T>>, size: nat, front: nat, back: nat)
    requires Shape(chunks, size, front, back) && |chunks| >= 2 && front + 1 == size
    ensures Shape(chunks[1..], size, 0, back)
    ensures Window(chunks[1..], size, 0, back) == Window(chunks, size, front, back)[1..]
  {
  }

  /** Popping the only element of a one-chunk queue leaves nothing. */
  lemma PopLast<T>(chunks: seq<seq<T>>, size: nat, front: nat, back: nat)
    requires Shape(chunks, size, front, back) && |chunks| == 1 && front == back
    ensures Window(chunks, size, front, back) == [chunks[0][front]]
  {
  }

  /** What a caller can do to a pair of queues; `at` picks one of them. */
  datatype Op<T> = Push(at: bool, x: T) | Pop(at: bool) | Clear(at: bool) | Swap

  /** Two FIFO queues as plain sequences. */
  datatype Pair<T> = Pair(first: seq<T>, second: seq<T>) {
    function Get(at: bool): seq<T> { if at then first else second }

    function Set(at: bool, s: seq<T>): Pair<T> {
      if at then this.(first := s) else this.(second := s)
    }
  }

  /** None for a pop of an empty queue, which callers must not ask for. */
  function Apply<T>(p: Pair<T>, op: Op<T>): Option<Pair<T>> {
    match op
    case Push(at, x) => Some(p.Set(at, p.Get(at) + [x]))
    case Pop(at) => if p.Get(at) == [] then None else Some(p.Set(at, p.Get(at)[1..]))
    case Clear(at) => Some(p.Set(at, []))
    case Swap => Some(Pair(p.second, p.first))
  }

  function Replay<T>(p: Pair<T>, ops: seq<Op<T>>): Option<Pair<T>> {
    if ops == [] then Some(p)
    else
      match Replay(p, ops[..|ops| - 1])
      case None => None
      case Some(q) => Apply(q, ops[|ops| - 1])
  }

  lemma {:induction false} ReplayPrefix<T>(p: Pair<T>, ops: seq<Op<T>>, n: nat)
    requires n <= |ops| && Replay(p, ops).Some?
    ensures Replay(p, ops[..n]).Some?
  {
    if n < |ops| {
      ReplayPrefix(p, ops[..|ops| - 1], n);
      assert ops[..|ops| - 1][..n] == ops[..n];
    } else {
      assert ops[..n] == ops;
    }
  }
}

module BufferQueueModule {
  import opened Seqs
  import opened Chunked

  class BufferQueue<T(0)> {
    const chunkSize: nat
    var deque: seq<array<T>>
    var front: nat   // front_chunk_idx_
    var back: nat    // back_chunk_idx_, an `unsigned int`

    ghost var Repr: set<object>
    ghost var Contents: seq<T>  // the elements, first to last

    ghost function Chunks(): (r: seq<seq<T>>)
      reads this, deque
      ensures |r| == |deque|
      ensures forall i :: 0 <= i < |deque| ==> r[i] == deque[i][..]
    {
      seq(|deque|, i requires 0 <= i < |deque| reads this, deque => deque[i][..])
    }

    /** The chunks are separate arrays of the queue's own. */
    ghost predicate Owned()
      reads this
    {
      && this in Repr
      && (forall i :: 0 <= i < |deque| ==> deque[i] in Repr)
      && (forall i, j :: 0 <= i < j < |deque| ==> deque[i] != deque[j])
    }

    ghost predicate Valid()
      reads this, Repr
      ensures Valid() ==> this in Repr
    {
      && Owned()
      && Shape(Chunks(), chunkSize, front, back)
      && Contents == Window(Chunks(), chunkSize, front, back)
    }

    constructor (chunkSize: nat)
      requires 0 < chunkSize < TWO_TO_32
      ensures Valid() && fresh(Repr)
      ensures Contents == [] && this.chunkSize == chunkSize
    {
      this.chunkSize := chunkSize;
      deque, front, back := [], 0, UNSET;
      Repr, Contents := {this}, [];
    }

    predicate Empty()
      requires Valid()
      reads this, Repr
      ensures Empty() <==> Contents == []
    {
      WindowLength(Chunks(), chunkSize, front, back);
      deque == []
    }

    /** `size_type` is 64 bits wide; the one-chunk case is computed in `unsigned int`. */
    method Size() returns (n: nat)
      requires Valid()
      ensures n == |Contents| % 0x1_0000_0000_0000_0000
    {
      WindowLength(Chunks(), chunkSize, front, back);
      if deque == [] {
        return 0;
      }
      if |deque| == 1 {
        return ToUint32(ToUint32(back - front) + 1);
      }
      return ((|deque| - 2) * chunkSize + ToUint32(back + 1) + ToUint32(chunkSize - front))
             % 0x1_0000_0000_0000_0000;
    }

    method Front() returns (x: T)
      requires Valid() && Contents != []
      ensures x == Contents[0]
    {
      WindowLength(Chunks(), chunkSize, front, back);
      WindowFront(Chunks(), chunkSize, front, back);
      x := deque[0][front];
    }

    method PushBack(x: T)
      requires Valid()
      modifies Repr
      ensures Valid() && fresh(Repr - old(Repr))
      ensures Contents == old(Contents) + [x]
    {
      ghost var before := Chunks();
      NextSlot();
      Contents := Contents + [x];
      Place(x);
      ghost var last := Chunks()[|deque| - 1];
      if |deque| == |before| {
        PushInPlace(before, chunkSize, front, old(back), last, x);
        assert Chunks() == before[|before| - 1 := last];
      } else {
        PushNewChunk(before, chunkSize, front, old(back), last, x);
        assert Chunks() == before + [last];
      }
    }

    /** Move the back index to the slot after it, opening a new chunk where the last one is full. */
    method NextSlot()
      requires Valid()
      modifies this`deque, this`back, this`Repr
      ensures Owned() && fresh(Repr - old(Repr))
      ensures deque != [] && forall i :: 0 <= i < |deque| ==> deque[i].Length == chunkSize
      ensures old(deque) != [] && old(back) + 1 < chunkSize ==>
                back == old(back) + 1 && Chunks() == old(Chunks())
      ensures old(deque) == [] || old(back) + 1 == chunkSize ==>
                back == 0 && |Chunks()| == |old(Chunks())| + 1 && Chunks()[..|old(deque)|] == old(Chunks())
    {
      if deque == [] {
        AddChunk();
      }
      back := ToUint32(back + 1);
      if back == chunkSize {
        AddChunk();
        back := 0;
      }
    }

    /** Grow the deque by one chunk of uninitialised slots. */
    method AddChunk()
      requires Owned()
      modifies this`deque, this`Repr
      ensures Owned() && fresh(Repr - old(Repr))
      ensures |deque| == |old(deque)| + 1 && deque[..|old(deque)|] == old(deque)
      ensures deque[|old(deque)|].Length == chunkSize
    {
      var chunk := new T[chunkSize];
      deque := deque + [chunk];
      Repr := Repr + {chunk};
    }

    /** Placement new in the slot the back index names. */
    method Place(x: T)
      requires Owned() && deque != [] && back < deque[|deque| - 1].Length
      modifies deque[|deque| - 1]
      ensures Owned()
      ensures var n := |deque| - 1; Chunks() == old(Chunks())[n := old(Chunks())[n][back := x]]
    {
      deque[|deque| - 1][back] := x;
    }

    method PopFront()
      requires Valid() && Contents != []
      modifies Repr
      ensures Valid() && Repr == old(Repr)
      ensures Contents == old(Contents)[1..]
    {
      ghost var before := Chunks();
      Contents := Contents[1..];
      front := ToUint32(front + 1);
      if |deque| == 1 {
        if front == ToUint32(back + 1) {
          PopLast(before, chunkSize, old(front), back);
          deque := deque[1..];
          front, back := 0, UNSET;
        } else {
          PopWithin(before, chunkSize, old(front), back);
          assert Chunks() == before;
        }
      } else {
        if front == chunkSize {
          PopChunk(before, chunkSize, old(front), back);
          deque := deque[1..];
          front := 0;
          assert Chunks() == before[1..];
        } else {
          PopWithin(before, chunkSize, old(front), back);
          assert Chunks() == before;
        }
      }
    }

    method Clear()
      requires Valid()
      modifies Repr
      ensures Valid() && Repr == old(Repr)
      ensures Contents == []
    {
      deque, front, back := [], 0, UNSET;
      Contents := [];
    }
  }

  /** `swap`. The template parameter fixes one chunk size for both queues. */
  method SwapQueues<T(0)>(a: BufferQueue<T>, b: BufferQueue<T>)
    requires a.Valid() && b.Valid() && a.chunkSize == b.chunkSize
    requires a != b ==> a.Repr !! b.Repr
    modifies a, b
    ensures a.Valid() && b.Valid()
    ensures a.Contents == old(b.Contents) && b.Contents == old(a.Contents)
    ensures a != b ==> a.Repr !! b.Repr
    ensures a.Repr + b.Repr <= old(a.Repr + b.Repr)
  {
    a.deque, b.deque := b.deque, a.deque;
    a.front, b.front := b.front, a.front;
    a.back, b.back := b.back, a.back;
    a.Contents, b.Contents := b.Contents, a.Contents;
    a.Repr, b.Repr := b.Repr - {b} + {a}, a.Repr - {a} + {b};
    assert a.Chunks() == old(b.Chunks()) && b.Chunks() == old(a.Chunks());
  }

  /** Every run of operations that never pops an empty queue leaves two queues holding what the
      plain sequences hold, whatever the chunk size. */
  method Run<T(0)>(chunkSize: nat, ops: seq<Op<T>>) returns (p: BufferQueue<T>, q: BufferQueue<T>)
    requires 0 < chunkSize < TWO_TO_32
    requires Replay(Pair([], []), ops).Some?
    ensures p.Valid() && q.Valid()
    ensures Replay(Pair([], []), ops) == Some(Pair(p.Contents, q.Contents))
  {
    p := new BufferQueue(chunkSize);
    q := new BufferQueue(chunkSize);
    for i := 0 to |ops|
      invariant p.Valid() && q.Valid() && p.chunkSize == q.chunkSize == chunkSize
      invariant p != q && p.Repr !! q.Repr && fresh(p.Repr) && fresh(q.Repr)
      invariant Replay(Pair([], []), ops[..i]) == Some(Pair(p.Contents, q.Contents))
    {
      ReplayPrefix(Pair([], []), ops, i + 1);
      assert ops[..i + 1][..i] == ops[..i];
      Perform(p, q, ops[i]);
    }
    assert ops[..|ops|] == ops;
  }

  method Perform<T(0)>(p: BufferQueue<T>, q: BufferQueue<T>, op: Op<T>)
    requires p.Valid() && q.Valid() && p.chunkSize == q.chunkSize && p != q && p.Repr !! q.Repr
    requires Apply(Pair(p.Contents, q.Contents), op).Some?
    modifies p.Repr, q.Repr
    ensures p.Valid() && q.Valid() && p.Repr !! q.Repr
    ensures fresh(p.Repr + q.Repr - old(p.Repr + q.Repr))
    ensures Apply(old(Pair(p.Contents, q.Contents)), op) == Some(Pair(p.Contents, q.Contents))
  {
    match op {
      case Push(at, x) =>
        if at { p.PushBack(x); } else { q.PushBack(x); }
      case Pop(at) =>
        if at { p.PopFront(); } else { q.PopFront(); }
      case Clear(at) =>
        if at { p.Clear(); } else { q.Clear(); }
      case Swap =>
        SwapQueues(p, q);
    }
  }
}
