/**
 Reading frames off a byte stream that arrives in arbitrary chunks: the read loop of a
 framed stream, and when it inverts the encoder.
 */
module FrameStream {
  import opened Bytes
  import opened Frames

  /** Where the read loop stands: the frames handed out so far and why it stopped. */
  datatype Progress =
    | Waiting(frames: seq<Frame>, rest: seq<byte>)
    | Broken(frames: seq<Frame>, error: DecodeError)
    | Crashed(frames: seq<Frame>)

  function After(fs: seq<Frame>, p: Progress): Progress {
    p.(frames := fs + p.frames)
  }

  /** Calls decode until it yields no frame. */
  function Drain(b: seq<byte>): Progress
    decreases |b|
  {
    match Decode(b)
    case Panic => Crashed([])
    case Pending => Waiting([], b)
    case Failed(e, _) => Broken([], e)
    case Item(f, rest) => After([f], Drain(rest))
  }

  /** Appends each chunk to the buffer as it arrives and drains the buffer. */
  function Feed(b: seq<byte>, chunks: seq<seq<byte>>): Progress
    decreases |chunks|
  {
    if chunks == [] then Waiting([], b) else
      var p := Drain(b + chunks[0]);
      if p.Waiting? then After(p.frames, Feed(p.rest, chunks[1..])) else p
  }

  /** Position `n` of the encoded stream lies one or two bytes into a frame with a header. */
  predicate InsideHeader(fs: seq<Frame>, n: nat) {
    if fs == [] then false
    else if n < |Encode(fs[0])| then HasHeader(fs[0]) && 1 <= n <= 2
    else InsideHeader(fs[1..], n - |Encode(fs[0])|)
  }

  /** No chunk that starts at position `n` or later ends inside a header. */
  predicate SafeChunks(fs: seq<Frame>, n: nat, chunks: seq<seq<byte>>)
    decreases |chunks|
  {
    chunks == [] || (!InsideHeader(fs, n + |chunks[0]|) && SafeChunks(fs, n + |chunks[0]|, chunks[1..]))
  }

  /** `b` holds the start of the encoding of `fs` and no whole frame. */
  ghost predicate Partial(fs: seq<Frame>, b: seq<byte>) {
    && b <= EncodeAll(fs)
    && (fs == [] || |b| < |Encode(fs[0])|)
    && !InsideHeader(fs, |b|)
  }

  lemma {:induction false} EncodeAllSplit(fs: seq<Frame>, k: nat)
    requires k <= |fs|
    ensures EncodeAll(fs) == EncodeAll(fs[..k]) + EncodeAll(fs[k..])
  {
    hide Encode;
    if k == 0 {
      assert fs[k..] == fs;
    } else {
      EncodeAllSplit(fs[1..], k - 1);
      assert fs[1..][..k - 1] == fs[..k][1..] && fs[1..][k - 1..] == fs[k..];
    }
  }

  lemma DrainIncomplete(fs: seq<Frame>, b: seq<byte>)
    requires b <= EncodeAll(fs) && (fs == [] || |b| < |Encode(fs[0])|)
    ensures Drain(b) == if InsideHeader(fs, |b|) then Crashed([]) else Waiting([], b)
  {
    if fs != [] {
      assert b == Encode(fs[0])[..|b|];
      DecodeStrictPrefix(fs[0], |b|);
      hide Encode, Decode;
    }
  }

  lemma DrainWhole(f: Frame, tail: seq<byte>)
    ensures Drain(Encode(f) + tail) == After([f], Drain(tail))
  {
    DecodeEncode(f, tail);
    hide Encode, Decode;
  }

  lemma PrefixStep(fs: seq<Frame>, k: nat)
    requires k < |fs|
    ensures [fs[0]] + fs[1..][..k] == fs[..k + 1] && fs[1..][k..] == fs[k + 1..]
    ensures EncodeAll(fs[..k + 1]) == Encode(fs[0]) + EncodeAll(fs[1..][..k])
  {
    hide Encode;
    assert fs[..k + 1][1..] == fs[1..][..k];
  }

  /** A prefix that covers the first frame: what is left is a prefix of the other frames. */
  lemma PastFirst(fs: seq<Frame>, b: seq<byte>)
    requires fs != [] && b <= EncodeAll(fs) && |b| >= |Encode(fs[0])|
    ensures var tail := b[|Encode(fs[0])|..];
            && b == Encode(fs[0]) + tail && tail <= EncodeAll(fs[1..])
            && InsideHeader(fs, |b|) == InsideHeader(fs[1..], |tail|)
  {
    hide Encode, HasHeader;
    assert b == EncodeAll(fs)[..|b|];
  }

  /** Draining `b` hands out the first `k` frames and keeps the start of the others. */
  ghost predicate DrainsTo(fs: seq<Frame>, b: seq<byte>, k: nat) {
    && k <= |fs|
    && (InsideHeader(fs, |b|) ==> Drain(b) == Crashed(fs[..k]))
    && (!InsideHeader(fs, |b|) ==>
          && Drain(b).Waiting? && Drain(b).frames == fs[..k]
          && b == EncodeAll(fs[..k]) + Drain(b).rest && Partial(fs[k..], Drain(b).rest))
  }

  lemma DrainsToPastFirst(fs: seq<Frame>, b: seq<byte>, k: nat)
    requires fs != [] && b <= EncodeAll(fs) && |b| >= |Encode(fs[0])|
    requires DrainsTo(fs[1..], b[|Encode(fs[0])|..], k)
    ensures DrainsTo(fs, b, k + 1)
  {
    hide Encode, EncodeAll, Drain, InsideHeader, Partial;
    PastFirst(fs, b);
    var tail := b[|Encode(fs[0])|..];
    DrainWhole(fs[0], tail);
    PrefixStep(fs, k);
    if !InsideHeader(fs, |b|) {
      var e, rest := EncodeAll(fs[1..][..k]), Drain(tail).rest;
      assert Encode(fs[0]) + (e + rest) == Encode(fs[0]) + e + rest;
    }
  }

  /** Draining any prefix of an encoded stream yields exactly the whole frames in it. */
  lemma {:induction false} DrainPrefix(fs: seq<Frame>, b: seq<byte>) returns (k: nat)
    requires b <= EncodeAll(fs)
    ensures DrainsTo(fs, b, k)
  {
    hide Encode, Drain, InsideHeader;
    if fs == [] || |b| < |Encode(fs[0])| {
      DrainIncomplete(fs, b);
      k := 0;
      assert fs[0..] == fs;
    } else {
      hide DrainsTo;
      PastFirst(fs, b);
      k := DrainPrefix(fs[1..], b[|Encode(fs[0])|..]);
      DrainsToPastFirst(fs, b, k);
      k := k + 1;
    }
  }

  lemma {:induction false} InsideHeaderShift(fs: seq<Frame>, k: nat, n: nat)
    requires k <= |fs| && n >= |EncodeAll(fs[..k])|
    ensures InsideHeader(fs, n) == InsideHeader(fs[k..], n - |EncodeAll(fs[..k])|)
  {
    hide Encode, Decode;
    if k == 0 {
      assert fs[0..] == fs;
    } else {
      assert fs[..k][1..] == fs[1..][..k - 1] && fs[1..][k - 1..] == fs[k..];
      InsideHeaderShift(fs[1..], k - 1, n - |Encode(fs[0])|);
    }
  }

  lemma {:induction false} SafeChunksShift(fs: seq<Frame>, k: nat, n: nat, chunks: seq<seq<byte>>)
    requires k <= |fs| && n >= |EncodeAll(fs[..k])|
    ensures SafeChunks(fs, n, chunks) == SafeChunks(fs[k..], n - |EncodeAll(fs[..k])|, chunks)
    decreases |chunks|
  {
    hide Encode, EncodeAll, InsideHeader;
    if chunks == [] {
    } else {
      InsideHeaderShift(fs, k, n + |chunks[0]|);
      SafeChunksShift(fs, k, n + |chunks[0]|, chunks[1..]);
    }
  }

  lemma CancelPrefix(a: seq<byte>, x: seq<byte>, y: seq<byte>, z: seq<byte>)
    requires a + x + y == a + z
    ensures x + y == z
  {
    assert (a + x + y)[|a|..] == x + y && (a + z)[|a|..] == z;
  }

  lemma NothingLeft(fs: seq<Frame>, b: seq<byte>)
    requires Partial(fs, b) && b == EncodeAll(fs)
    ensures fs == [] && b == []
  {
    hide Encode, InsideHeader;
  }

  lemma {:induction false} FeedPartial(fs: seq<Frame>, b: seq<byte>, chunks: seq<seq<byte>>)
    requires Partial(fs, b) && b + Concat(chunks) == EncodeAll(fs)
    ensures SafeChunks(fs, |b|, chunks) ==> Feed(b, chunks) == Waiting(fs, [])
    ensures !SafeChunks(fs, |b|, chunks) ==> Feed(b, chunks).Crashed? && Feed(b, chunks).frames <= fs
    decreases |chunks|
  {
    hide Encode, EncodeAll, Decode, Drain, InsideHeader, Partial;
    if chunks == [] {
      assert b + Concat(chunks) == b;
      NothingLeft(fs, b);
    } else {
      var c := b + chunks[0];
      assert c + Concat(chunks[1..]) == EncodeAll(fs);
      hide Concat;
      var k := DrainPrefix(fs, c);
      if !InsideHeader(fs, |c|) {
        var rest := Drain(c).rest;
        EncodeAllSplit(fs, k);
        CancelPrefix(EncodeAll(fs[..k]), rest, Concat(chunks[1..]), EncodeAll(fs[k..]));
        FeedPartial(fs[k..], rest, chunks[1..]);
        SafeChunksShift(fs, k, |c|, chunks[1..]);
        assert fs[..k] + fs[k..] == fs;
      }
    }
  }

  /**
   The read loop inverts the encoder, however the stream was cut into chunks, if and
   only if no chunk boundary falls one or two bytes into an Auth or Authenticated frame.
   Otherwise the decoder panics, and what it had handed out was still a prefix.
   */
  lemma StreamDecodeInvertsEncode(fs: seq<Frame>, chunks: seq<seq<byte>>)
    requires Concat(chunks) == EncodeAll(fs)
    ensures Feed([], chunks) == Waiting(fs, []) <==> SafeChunks(fs, 0, chunks)
    ensures !SafeChunks(fs, 0, chunks) ==> Feed([], chunks).Crashed? && Feed([], chunks).frames <= fs
  {
    assert [] + Concat(chunks) == EncodeAll(fs);
    FeedPartial(fs, [], chunks);
  }

  /** Two different lists of frames never have the same encoding. */
  lemma EncodeAllInjective(fs: seq<Frame>, gs: seq<Frame>)
    requires EncodeAll(fs) == EncodeAll(gs)
    ensures fs == gs
  {
    var b := EncodeAll(fs);
    WholeStream(fs);
    WholeStream(gs);
  }

  lemma {:induction false} WholeStream(fs: seq<Frame>)
    ensures Drain(EncodeAll(fs)) == Waiting(fs, [])
  {
    if fs == [] {
    } else {
      DecodeEncode(fs[0], EncodeAll(fs[1..]));
      WholeStream(fs[1..]);
    }
  }

  /** One in-place decode advances the drain by one step. */
  lemma DrainStep(before: seq<byte>, after: seq<byte>, r: Outcome)
    requires Decodes(before, after, r)
    ensures r.Panicked? ==> Drain(before) == Crashed([])
    ensures r.NoFrame? ==> after == before && Drain(before) == Waiting([], before)
    ensures r.Error? ==> Drain(before) == Broken([], r.error)
    ensures r.GotFrame? ==> |after| < |before| && Drain(before) == After([r.frame], Drain(after))
  {
    hide Encode;
  }

  /** One chunk advances the feed by one step, with `fs` already handed out. */
  lemma FeedStep(fs: seq<Frame>, b: seq<byte>, chunks: seq<seq<byte>>)
    requires chunks != []
    ensures var p := Drain(b + chunks[0]);
            After(fs, Feed(b, chunks)) ==
            if p.Waiting? then After(fs + p.frames, Feed(p.rest, chunks[1..])) else After(fs, p)
  {
    hide Encode, Decode, Drain;
    var p := Drain(b + chunks[0]);
    if p.Waiting? {
      var q := Feed(p.rest, chunks[1..]);
      assert fs + (p.frames + q.frames) == fs + p.frames + q.frames;
    }
  }

  lemma FeedDone(fs: seq<Frame>, b: seq<byte>)
    ensures After(fs, Feed(b, [])) == Waiting(fs, b)
  {
  }

  /** The buffered reader of a framed stream. */
  class FramedReader {
    const buffer: BytesMut

    constructor ()
      ensures fresh(buffer) && buffer.data == []
    {
      buffer := new BytesMut([]);
    }

    /** Takes every frame that is already in the buffer. */
    method DrainBuffer() returns (p: Progress)
      modifies buffer
      ensures p == Drain(old(buffer.data))
      ensures p.Waiting? ==> buffer.data == p.rest
    {
      hide Encode, Decode, Decodes, Drain;
      var frames: seq<Frame> := [];
      while true
        invariant After(frames, Drain(buffer.data)) == Drain(old(buffer.data))
        decreases |buffer.data|
      {
        ghost var before := buffer.data;
        var r := DecodeFrom(buffer);
        DrainStep(before, buffer.data, r);
        match r {
          case Panicked => return Crashed(frames);
          case NoFrame => return Waiting(frames, buffer.data);
          case Error(e) => return Broken(frames, e);
          case GotFrame(f) =>
            assert frames + ([f] + Drain(buffer.data).frames) == frames + [f] + Drain(buffer.data).frames;
            frames := frames + [f];
        }
      }
    }

    /** Reads chunks as they arrive until they run out or the decoder stops. */
    method ReadChunks(chunks: seq<seq<byte>>) returns (p: Progress)
      modifies buffer
      ensures p == Feed(old(buffer.data), chunks)
      ensures p.Waiting? ==> buffer.data == p.rest
    {
      hide Encode, Decode, Drain, Feed;
      var frames: seq<Frame> := [];
      var i := 0;
      while i < |chunks|
        invariant i <= |chunks|
        invariant After(frames, Feed(buffer.data, chunks[i..])) == Feed(old(buffer.data), chunks)
      {
        FeedStep(frames, buffer.data, chunks[i..]);
        assert chunks[i..][1..] == chunks[i + 1..];
        buffer.PutSlice(chunks[i]);
        p := DrainBuffer();
        if !p.Waiting? {
          return After(frames, p);
        }
        frames := frames + p.frames;
        i := i + 1;
      }
      FeedDone(frames, buffer.data);
      assert chunks[i..] == [];
      return Waiting(frames, buffer.data);
    }
  }
}
