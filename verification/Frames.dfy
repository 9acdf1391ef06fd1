/**
 * Framing: single frames, streams of frames, and the reader and writer that move them.
 */
module Frames {
  import opened Types
  import opened Wire

  const MAX_FRAME := 1024 * 1024
  const HEADER := 6

  datatype Frame = Frame(msgType: u16, payload: Bytes) {
    predicate Bounded() {
      |payload| <= MAX_FRAME
    }

    function ToBytes(): (b: Bytes)
      ensures |b| == HEADER + |payload|
    {
      BE16(msgType) + (BE32(|payload| % U32_SIZE) + payload)
    }

    static function FromBytes(d: Bytes): (r: Result<Frame>)
      ensures r.Ok? ==> HEADER + |r.value.payload| <= |d|
    {
      if |d| < HEADER then Err(UnexpectedEof) else
      var len := U32At(d, 2);
      if len > MAX_FRAME then Err(FrameTooLarge) else
      if |d| < HEADER + len then Err(UnexpectedEof) else
      Ok(Frame(U16At(d, 0), d[HEADER..HEADER + len]))
    }
  }

  lemma FrameExact(d: Bytes, f: Frame)
    ensures Frame.FromBytes(d) == Ok(f) <==> f.Bounded() && f.ToBytes() <= d
  {
    hide BE16, BE32, U16At, U32At;
    Layout3(d, 0, BE16(f.msgType), BE32(|f.payload| % U32_SIZE), f.payload);
    AtBE16(d, 0, f.msgType);
    AtBE32(d, 2, |f.payload| % U32_SIZE);
    assert f.ToBytes() <= d <==> At(d, 0, f.ToBytes());
  }

  /** A frame cut short reads as the end of the stream, never as another frame. */
  lemma CutFrame(d: Bytes, f: Frame)
    requires f.Bounded() && d <= f.ToBytes() && d != f.ToBytes()
    ensures Frame.FromBytes(d) == Err(UnexpectedEof)
  {
    hide BE16, BE32;
    if HEADER <= |d| {
      FrameExact(f.ToBytes(), f);
      assert forall i :: 0 <= i < |d| ==> d[i] == f.ToBytes()[i];
      assert U32At(d, 2) == U32At(f.ToBytes(), 2);
    }
  }

  // ---------------------------------------------------------------------------
  // Streams of frames
  // ---------------------------------------------------------------------------

  predicate AllBounded(fs: seq<Frame>) {
    forall i :: 0 <= i < |fs| ==> fs[i].Bounded()
  }

  /** What a sender that writes these frames in order puts on the wire. */
  function Stream(fs: seq<Frame>): Bytes {
    if fs == [] then [] else fs[0].ToBytes() + Stream(fs[1..])
  }

  datatype ReadOutcome = ReadOutcome(frames: seq<Frame>, error: WireError)

  /** Reading until the first error: the frames read, and that error. */
  function ReadAll(d: Bytes): ReadOutcome
    decreases |d|
  {
    var r := Frame.FromBytes(d);
    if r.Err? then ReadOutcome([], r.error)
    else
      var rest := ReadAll(d[HEADER + |r.value.payload|..]);
      ReadOutcome([r.value] + rest.frames, rest.error)
  }

  lemma ReadAllUnfold(d: Bytes)
    ensures Frame.FromBytes(d).Err? ==> ReadAll(d) == ReadOutcome([], Frame.FromBytes(d).error)
    ensures Frame.FromBytes(d).Ok? ==>
              var f := Frame.FromBytes(d).value;
              var rest := ReadAll(d[HEADER + |f.payload|..]);
              ReadAll(d) == ReadOutcome([f] + rest.frames, rest.error)
  {}

  lemma ReadAllStep(d: Bytes, f: Frame, rest: Bytes)
    requires f.Bounded() && d == f.ToBytes() + rest
    ensures ReadAll(d) == ReadOutcome([f] + ReadAll(rest).frames, ReadAll(rest).error)
  {
    FrameExact(d, f);
    assert d[HEADER + |f.payload|..] == rest;
  }

  /** How many of these frames lie wholly within the first `n` bytes of their stream. */
  function WholeFrames(fs: seq<Frame>, n: nat): (k: nat)
    ensures k <= |fs|
  {
    if fs == [] || n < |fs[0].ToBytes()| then 0
    else 1 + WholeFrames(fs[1..], n - |fs[0].ToBytes()|)
  }

  lemma {:induction false} WholeFramesMeaning(fs: seq<Frame>, n: nat)
    ensures var k := WholeFrames(fs, n);
            |Stream(fs[..k])| <= n && (k < |fs| ==> n < |Stream(fs[..k + 1])|)
    decreases |fs|
  {
    hide Frame.ToBytes;
    if fs != [] && n >= |fs[0].ToBytes()| {
      var k := WholeFrames(fs[1..], n - |fs[0].ToBytes()|);
      WholeFramesMeaning(fs[1..], n - |fs[0].ToBytes()|);
      assert fs[..k + 1][1..] == fs[1..][..k];
      if k + 1 < |fs| {
        assert fs[..k + 2][1..] == fs[1..][..k + 1];
      }
    } else if fs != [] {
      assert fs[..1][1..] == [];
    }
  }

  /**
   * Any prefix of a stream reads as the frames that are wholly inside it, and then as the
   * end of the stream: never a different frame, and never another error.
   */
  lemma {:induction false} TruncatedStream(fs: seq<Frame>, d: Bytes)
    requires AllBounded(fs) && d <= Stream(fs)
    ensures ReadAll(d) == ReadOutcome(fs[..WholeFrames(fs, |d|)], UnexpectedEof)
    decreases |fs|
  {
    hide Frame.ToBytes, Frame.FromBytes;
    if fs == [] {
      assert Frame.FromBytes([]) == Err(UnexpectedEof) by { EmptyStream(); }
    } else {
      var first, tail := fs[0].ToBytes(), Stream(fs[1..]);
      if |d| < |first| {
        assert d <= first;
        CutFrame(d, fs[0]);
      } else {
        var rest := d[|first|..];
        assert d == first + rest;
        assert rest <= tail;
        TruncatedStream(fs[1..], rest);
        ReadAllStep(d, fs[0], rest);
        var k := WholeFrames(fs[1..], |rest|);
        assert fs[..k + 1] == [fs[0]] + fs[1..][..k];
      }
    }
  }

  lemma EmptyStream()
    ensures Frame.FromBytes([]) == Err(UnexpectedEof)
  {}

  /** Reading back what was written gives exactly the frames written. */
  lemma StreamRoundTrip(fs: seq<Frame>)
    requires AllBounded(fs)
    ensures ReadAll(Stream(fs)) == ReadOutcome(fs, UnexpectedEof)
  {
    TruncatedStream(fs, Stream(fs));
    AllWhole(fs);
    assert fs[..|fs|] == fs;
  }

  lemma {:induction false} AllWhole(fs: seq<Frame>)
    ensures WholeFrames(fs, |Stream(fs)|) == |fs|
    decreases |fs|
  {
    if fs != [] {
      AllWhole(fs[1..]);
    }
  }

  /** Conversely, on any bytes at all, what is read was written there. */
  lemma {:induction false} ReadAllSound(d: Bytes)
    ensures AllBounded(ReadAll(d).frames) && Stream(ReadAll(d).frames) <= d
    decreases |d|
  {
    var r := Frame.FromBytes(d);
    if r.Ok? {
      var rest := d[HEADER + |r.value.payload|..];
      FrameExact(d, r.value);
      ReadAllSound(rest);
      assert ([r.value] + ReadAll(rest).frames)[1..] == ReadAll(rest).frames;
      PrefixSplit(r.value.ToBytes(), Stream(ReadAll(rest).frames), d);
    }
  }

  /** A byte sink, as `Write::write_all` sees it. */
  class Writer {
    var data: Bytes

    constructor ()
      ensures data == []
    {
      data := [];
    }

    method WriteAll(b: Bytes)
      modifies this
      ensures data == old(data) + b
    {
      data := data + b;
    }

    method WriteFrame(f: Frame)
      modifies this
      ensures data == old(data) + f.ToBytes()
    {
      WriteAll(BE16(f.msgType));
      WriteAll(BE32(|f.payload| % U32_SIZE));
      WriteAll(f.payload);
    }
  }

  /** A byte source, as `Read::read_exact` sees it. A read past the end uses the source up. */
  class Reader {
    const data: Bytes
    var pos: nat

    ghost predicate Valid()
      reads this
    {
      pos <= |data|
    }

    ghost function Rest(): Bytes
      reads this
      requires Valid()
    {
      data[pos..]
    }

    constructor (data: Bytes)
      ensures Valid() && Rest() == data
    {
      this.data := data;
      pos := 0;
    }

    method ReadExact(n: nat) returns (r: Result<Bytes>)
      requires Valid()
      modifies this
      ensures Valid()
      ensures n <= |old(Rest())| ==> r == Ok(old(Rest())[..n]) && Rest() == old(Rest())[n..]
      ensures n > |old(Rest())| ==> r == Err(UnexpectedEof) && Rest() == []
    {
      if n > |data| - pos {
        pos := |data|;
        return Err(UnexpectedEof);
      }
      assert Rest()[..n] == data[pos..pos + n] && Rest()[n..] == data[pos + n..];
      r := Ok(data[pos..pos + n]);
      pos := pos + n;
    }

    method ReadFrame() returns (r: Result<Frame>)
      requires Valid()
      modifies this
      ensures Valid()
      ensures r == Frame.FromBytes(old(Rest()))
      ensures r.Ok? ==> Rest() == old(Rest())[HEADER + |r.value.payload|..]
    {
      hide BE16, BE32;
      ghost var all := Rest();
      var header := ReadExact(HEADER);
      if header.Err? {
        return Err(header.error);
      }
      assert all == header.value + Rest();
      var msgType, len := U16At(header.value, 0), U32At(header.value, 2);
      assert msgType == U16At(all, 0) && len == U32At(all, 2);
      if len > MAX_FRAME {
        return Err(FrameTooLarge);
      }
      ghost var body := Rest();
      assert body == all[HEADER..];
      var payload := ReadExact(len);
      if payload.Err? {
        return Err(payload.error);
      }
      assert body[..len] == all[HEADER..HEADER + len] && body[len..] == all[HEADER + len..];
      return Ok(Frame(msgType, payload.value));
    }

    /** A connection's receive loop: one frame after the other until a read fails. */
    method ReadFrames() returns (frames: seq<Frame>, error: WireError)
      requires Valid()
      modifies this
      ensures Valid()
      ensures ReadOutcome(frames, error) == ReadAll(old(Rest()))
    {
      hide Frame.FromBytes, ReadAll;
      frames := [];
      ghost var all := ReadAll(Rest());
      while true
        invariant Valid()
        invariant all.error == ReadAll(Rest()).error
        invariant all.frames == frames + ReadAll(Rest()).frames
        decreases |Rest()|
      {
        ghost var before := Rest();
        ReadAllUnfold(before);
        var r := ReadFrame();
        if r.Err? {
          return frames, r.error;
        }
        assert frames + ReadAll(before).frames == (frames + [r.value]) + ReadAll(Rest()).frames;
        frames := frames + [r.value];
      }
    }
  }
}
