/** Splitting the received byte stream into length-prefixed frames. */
module Framing {
  import opened Seqs
  import opened TcpPackage

  const MAX_PACKAGE_SIZE: nat := 64 * 1024 * 1024

  /** The length prefixes the reader accepts. */
  predicate GoodLength(n: int) { MANDATORY_SIZE - COMMAND_OFFSET <= n <= MAX_PACKAGE_SIZE }

  /** A whole frame: a good prefix and exactly the bytes it announces. */
  predicate IsFrame(f: seq<Byte>) {
    |f| >= 4 && GoodLength(Signed32(f[..4])) && |f| == 4 + Signed32(f[..4])
  }

  /** Four bytes that announce a length the reader refuses. */
  predicate StartsBad(s: seq<Byte>) { |s| >= 4 && !GoodLength(Signed32(s[..4])) }

  /** No whole frame and no refused prefix yet. */
  predicate Partial(s: seq<Byte>) {
    |s| < 4 || (GoodLength(Signed32(s[..4])) && |s| < 4 + Signed32(s[..4]))
  }

  /** The frames of a stream, what is left behind them, and whether that starts with a refused prefix. */
  datatype Scan = Scan(frames: seq<seq<Byte>>, rest: seq<Byte>, bad: bool)

  function ScanStream(s: seq<Byte>): Scan
    decreases |s|
  {
    if |s| < 4 then Scan([], s, false)
    else
      var length := Signed32(s[..4]);
      if !GoodLength(length) then Scan([], s, true)
      else if |s| < 4 + length then Scan([], s, false)
      else
        var t := ScanStream(s[4 + length..]);
        Scan([s[..4 + length]] + t.frames, t.rest, t.bad)
  }

  /** A stream starting with a frame scans to that frame and then the rest. */
  lemma ScanFirst(f: seq<Byte>, tail: seq<Byte>)
    requires IsFrame(f)
    ensures var t := ScanStream(tail); ScanStream(f + tail) == Scan([f] + t.frames, t.rest, t.bad)
  {
  }

  /** A stream holds no whole frame at its start, or splits into one and a tail. */
  lemma SplitFirst(s: seq<Byte>) returns (n: nat)
    ensures n == 0 ==> (StartsBad(s) || Partial(s)) && ScanStream(s) == Scan([], s, StartsBad(s))
    ensures n > 0 ==> n <= |s| && IsFrame(s[..n]) && s == s[..n] + s[n..]
  {
    n := 0;
    if |s| >= 4 && GoodLength(Signed32(s[..4])) && |s| >= 4 + Signed32(s[..4]) {
      n := 4 + Signed32(s[..4]);
      assert s[..n][..4] == s[..4];
    }
  }

  /** A scan cuts the stream into whole frames and a rest that holds none. */
  lemma {:induction false} ScanSound(s: seq<Byte>)
    ensures var r := ScanStream(s);
      && s == Flatten(r.frames) + r.rest
      && (forall i :: 0 <= i < |r.frames| ==> IsFrame(r.frames[i]))
      && (StartsBad(r.rest) || Partial(r.rest)) && r.bad == StartsBad(r.rest)
    decreases |s|
  {
    var n := SplitFirst(s);
    if n > 0 {
      var f, tail := s[..n], s[n..];
      var t := ScanStream(tail);
      ScanSound(tail);
      ScanFirst(f, tail);
      assert ([f] + t.frames)[1..] == t.frames;
      Assoc(f, Flatten(t.frames), t.rest);
    }
  }

  /** There is only one such cut: whole frames followed by a rest that holds none are exactly what a
      scan of their concatenation finds. */
  lemma {:induction false} ScanUnique(frames: seq<seq<Byte>>, rest: seq<Byte>)
    requires forall i :: 0 <= i < |frames| ==> IsFrame(frames[i])
    requires StartsBad(rest) || Partial(rest)
    ensures ScanStream(Flatten(frames) + rest) == Scan(frames, rest, StartsBad(rest))
  {
    if frames == [] {
      assert Flatten(frames) + rest == rest;
    } else {
      var f, tail := frames[0], frames[1..];
      ScanUnique(tail, rest);
      Assoc(f, Flatten(tail), rest);
      ScanFirst(f, Flatten(tail) + rest);
      assert frames == [f] + tail;
    }
  }

  /** Scanning may stop and go on: the frames of `a + b` are those of `a`, then those of what `a`
      left behind followed by `b`. */
  lemma ScanResume(a: seq<Byte>, b: seq<Byte>)
    ensures var r := ScanStream(a);
      ScanStream(a + b) == if r.bad then Scan(r.frames, r.rest + b, true)
                           else var t := ScanStream(r.rest + b); Scan(r.frames + t.frames, t.rest, t.bad)
  {
    var r := ScanStream(a);
    ScanSound(a);
    Assoc(Flatten(r.frames), r.rest, b);
    if r.bad {
      assert (r.rest + b)[..4] == r.rest[..4];
      ScanUnique(r.frames, r.rest + b);
    } else {
      var t := ScanStream(r.rest + b);
      ScanSound(r.rest + b);
      FlattenConcat(r.frames, t.frames);
      Assoc(Flatten(r.frames), Flatten(t.frames), t.rest);
      ScanUnique(r.frames + t.frames, t.rest);
    }
  }

  lemma NotBoth(s: seq<Byte>)
    ensures !(StartsBad(s) && Partial(s))
  {
  }

  /** The first `n` bytes of a concatenation of frames scan to exactly the frames wholly in them. */
  lemma ScanTruncated(frames: seq<seq<Byte>>, n: nat, k: nat)
    requires forall i :: 0 <= i < |frames| ==> IsFrame(frames[i])
    requires n <= |Flatten(frames)| && k <= |frames|
    requires |Flatten(frames[..k])| <= n
    requires k < |frames| ==> n < |Flatten(frames[..k])| + |frames[k]|
    ensures ScanStream(Flatten(frames)[..n]).frames == frames[..k] && !ScanStream(Flatten(frames)[..n]).bad
  {
    var whole, done := Flatten(frames), Flatten(frames[..k]);
    assert frames == frames[..k] + frames[k..];
    FlattenConcat(frames[..k], frames[k..]);
    var rest := whole[|done|..n];
    assert whole[..n] == done + rest;
    if k < |frames| {
      var f := frames[k];
      assert rest == f[..|rest|];
      if |rest| >= 4 {
        assert rest[..4] == f[..4];
      }
    }
    NotBoth(rest);
    ScanUnique(frames[..k], rest);
  }

  /** A length below 18, negative ones included, or above 64 MiB, whatever follows it, ends the stream
      behind the earlier frames; no other length does. */
  lemma ScanBad(frames: seq<seq<Byte>>, rest: seq<Byte>)
    requires forall i :: 0 <= i < |frames| ==> IsFrame(frames[i])
    requires |rest| >= 4
    ensures Signed32(rest[..4]) < 18 || Signed32(rest[..4]) > 0x400_0000 ==>
              ScanStream(Flatten(frames) + rest) == Scan(frames, rest, true)
    ensures 18 <= Signed32(rest[..4]) <= 0x400_0000 && |rest| < 4 + Signed32(rest[..4]) ==>
              ScanStream(Flatten(frames) + rest) == Scan(frames, rest, false)
  {
    if StartsBad(rest) || Partial(rest) {
      ScanUnique(frames, rest);
    }
  }

  /** An encoded package is a frame exactly when its length field is within the reader's maximum. */
  lemma EncodingIsFrame(p: Package)
    requires |p.correlation| == 16
    ensures |Bytes(p)| <= MAX_PACKAGE_SIZE + 4 ==> IsFrame(Bytes(p))
    ensures MAX_PACKAGE_SIZE + 4 < |Bytes(p)| < TWO_TO_32 ==> StartsBad(Bytes(p))
  {
    BytesLayout(p);
    LoadStore(ToUint32(|Bytes(p)| - 4));
  }
}

module FrameReaderModule {
  import opened Seqs
  import opened TcpPackage
  import opened Framing

  /** What the outstanding asynchronous read is for. */
  datatype Stage = ReadingLength | ReadingMessage | Closed

  /** The receive loop of a connection over its dynamic buffer. The connection's own handling of a
      package is the log `delivered`. */
  class FrameReader {
    var storage: seq<Byte>  // the vector behind the dynamic buffer
    var size: nat           // its committed part
    var stage: Stage
    var wanted: nat         // size of the read outstanding
    var filled: nat         // how much of it has arrived
    var delivered: seq<seq<Byte>>
    ghost var input: seq<Byte>

    /** The bytes that have arrived and belong to no delivered frame. */
    ghost function Pending(): seq<Byte>
      requires size + filled <= |storage|
      reads this
    {
      storage[..size + filled]
    }

    ghost predicate Open()
      reads this
    {
      && stage != Closed && size + wanted == |storage|
      && filled <= wanted
      && (stage == ReadingLength ==> size == 0 && wanted == 4)
      && (stage == ReadingMessage ==>
            size == 4 && GoodLength(wanted) && Signed32(storage[..4]) == wanted)
    }

    ghost predicate Valid()
      reads this
    {
      && delivered == ScanStream(input).frames
      && (stage != Closed ==>
            Open() && filled < wanted && ScanStream(input) == Scan(delivered, Pending(), false))
    }

    constructor ()
      ensures Valid() && stage != Closed && input == []
    {
      storage, size, delivered, input := [], 0, [], [];
      stage, wanted, filled := ReadingLength, 0, 0;
      new;
      StartReceive();
    }

    /** `prepare`: room for `n` more bytes behind the committed ones. */
    method Prepare(n: nat)
      requires size <= |storage|
      modifies this`storage, this`wanted, this`filled
      ensures |storage| == size + n && storage[..size] == old(storage[..size])
      ensures wanted == n && filled == 0
    {
      var room: seq<Byte> := seq(n, i => 0);
      storage := storage[..size] + room;
      wanted, filled := n, 0;
    }

    /** `async_start_receive`: drop the last frame from the buffer and ask for a length prefix. */
    method StartReceive()
      requires size <= |storage|
      modifies this`storage, this`size, this`stage, this`wanted, this`filled
      ensures Open() && stage == ReadingLength && filled == 0
    {
      storage, size := storage[size..], 0;
      stage := ReadingLength;
      Prepare(4);
    }

    /** The length prefix is complete. The error path closes the connection. */
    method OnLength()
      requires Open() && stage == ReadingLength && filled == 4
      modifies this`storage, this`size, this`stage, this`wanted, this`filled
      ensures if GoodLength(Signed32(old(Pending())))
              then Open() && stage == ReadingMessage && filled == 0 && Pending() == old(Pending())
              else stage == Closed
    {
      assert storage[..4] == Pending();
      var length := Signed32(storage[..4]);
      if length < MANDATORY_SIZE - COMMAND_OFFSET || length > MAX_PACKAGE_SIZE {
        stage := Closed;
        return;
      }
      size := size + 4;
      stage := ReadingMessage;
      Prepare(length);
    }

    /** The message is complete: hand the frame to the connection and start over. */
    method OnMessage()
      requires Open() && stage == ReadingMessage && filled == wanted
      modifies this
      ensures Open() && stage == ReadingLength && filled == 0
      ensures delivered == old(delivered) + [old(Pending())] && input == old(input)
    {
      size := size + filled;
      delivered := delivered + [storage[..size]];
      StartReceive();
    }

    /** Part of the outstanding read arrives. */
    method Transfer(part: seq<Byte>)
      requires Open() && filled + |part| <= wanted
      modifies this`storage, this`filled
      ensures Open() && filled == old(filled) + |part|
      ensures Pending() == old(Pending()) + part
    {
      var at := size + filled;
      storage := storage[..at] + part + storage[at + |part|..];
      filled := filled + |part|;
      if stage == ReadingMessage {
        assert storage[..4] == old(storage[..4]);
      }
    }

    /** Any number of bytes arrive, cutting the stream anywhere. Bytes behind a refused prefix are
        never read. */
    method Receive(chunk: seq<Byte>)
      requires Valid() && stage != Closed
      modifies this
      ensures Valid() && input == old(input) + chunk
      ensures stage == Closed <==> ScanStream(input).bad
      decreases |chunk|
    {
      if chunk == [] {
        assert input + chunk == input;
        return;
      }
      var n := Min(|chunk|, wanted - filled);
      Rejoin(input, chunk, n);
      ReadSome(chunk[..n]);
      if stage == Closed {
        Ignore(chunk[n..]);
      } else {
        Receive(chunk[n..]);
      }
    }

    ghost method Ignore(rest: seq<Byte>)
      requires Valid() && stage == Closed && ScanStream(input).bad
      modifies this`input
      ensures Valid() && input == old(input) + rest && ScanStream(input).bad
    {
      ScanResume(input, rest);
      input := input + rest;
    }

    method ReadSome(part: seq<Byte>)
      requires Valid() && stage != Closed && 0 < |part| <= wanted - filled
      modifies this
      ensures Valid() && input == old(input) + part
      ensures stage == Closed <==> ScanStream(input).bad
    {
      ScanResume(input, part);
      Arrive(part);
      input := input + part;
    }

    /** One completion at most: bytes up to the end of the outstanding read, then its handler. */
    method Arrive(part: seq<Byte>)
      requires Open() && 0 < |part| && filled + |part| <= wanted
      modifies this
      ensures input == old(input)
      ensures var t := ScanStream(old(Pending()) + part);
        && delivered == old(delivered) + t.frames
        && (stage == Closed <==> t.bad)
        && (stage != Closed ==> Open() && filled < wanted && Pending() == t.rest)
    {
      Transfer(part);
      ghost var pending := Pending();
      if filled == wanted {
        if stage == ReadingLength {
          OnLength();
          assert pending[..4] == pending;
        } else {
          assert pending[..4] == storage[..4];
          OnMessage();
          assert pending[|pending|..] == [];
          assert pending[..|pending|] == pending;
        }
      } else if stage == ReadingMessage {
        assert pending[..4] == storage[..4];
      }
    }

    /** The peer closes or the socket fails: the read completes with an error and closes the
        connection. No frame is delivered. */
    method Fail()
      requires Valid() && stage != Closed
      modifies this`stage, this`storage, this`size
      ensures Valid() && stage == Closed && delivered == old(delivered)
    {
      if stage == ReadingMessage {
        storage, size := storage[4..], 0;
      }
      stage := Closed;
    }
  }

  /** However a stream is cut into arriving chunks, the reader delivers the frames of the whole. */
  method ReadAll(chunks: seq<seq<Byte>>) returns (frames: seq<seq<Byte>>, closed: bool)
    ensures frames == ScanStream(Flatten(chunks)).frames
    ensures closed <==> ScanStream(Flatten(chunks)).bad
  {
    var reader := new FrameReader();
    var i := 0;
    while i < |chunks| && reader.stage != Closed
      invariant 0 <= i <= |chunks| && fresh(reader) && reader.Valid()
      invariant reader.input == Flatten(chunks[..i])
      invariant reader.stage == Closed <==> ScanStream(reader.input).bad
    {
      reader.Receive(chunks[i]);
      assert chunks[..i + 1] == chunks[..i] + [chunks[i]];
      FlattenSnoc(chunks[..i], chunks[i]);
      i := i + 1;
    }
    assert chunks == chunks[..i] + chunks[i..];
    FlattenConcat(chunks[..i], chunks[i..]);
    ScanResume(Flatten(chunks[..i]), Flatten(chunks[i..]));
    if reader.stage != Closed {
      assert Flatten(chunks) == reader.input;
    }
    return reader.delivered, reader.stage == Closed;
  }
}
