/** Reassembly of length-prefixed responses from a socket that delivers bytes in arbitrary pieces. */
module Deframing {
  import opened Wrappers
  import opened Bytes
  import opened Text
  import opened Codec
  import opened Models

  /** Size of the network header struct in memory, with the padding before its 32-bit field. */
  const HEADER_SIZE := 24
  const ORDER_FRAME := 338

  function Concat(pieces: seq<seq<byte>>): seq<byte> {
    if pieces == [] then [] else pieces[0] + Concat(pieces[1..])
  }

  /** The bytes that arrive before a read returns nothing, which the reader takes for a close. */
  function Usable(chunks: seq<seq<byte>>): seq<byte> {
    if chunks == [] || chunks[0] == [] then [] else chunks[0] + Usable(chunks[1..])
  }

  lemma {:induction false} UsableWhenNonEmpty(chunks: seq<seq<byte>>)
    requires [] !in chunks
    ensures Usable(chunks) == Concat(chunks)
  {
    if chunks != [] {
      UsableWhenNonEmpty(chunks[1..]);
    }
  }

  /** A connection: the pieces that successive reads will find, then the end of the stream. */
  class Conn {
    var chunks: seq<seq<byte>>

    constructor (chunks: seq<seq<byte>>)
      ensures this.chunks == chunks
    {
      this.chunks := chunks;
    }

    /** Reads what has arrived, at most up to the end of the buffer. */
    method Read(buffer: array<byte>, from: nat) returns (n: nat, err: bool)
      requires from < buffer.Length
      modifies this, buffer
      ensures err <==> old(chunks) == []
      ensures err ==> n == 0
      ensures n == 0 <==> Usable(old(chunks)) == []
      ensures from + n <= buffer.Length && n <= |Usable(old(chunks))|
      ensures buffer[..] == old(buffer[..from]) + Usable(old(chunks))[..n] + old(buffer[from + n..])
      ensures Usable(chunks) == Usable(old(chunks))[n..] || n == 0
    {
      if chunks == [] {
        return 0, true;
      }
      var head := chunks[0];
      n := if |head| < buffer.Length - from then |head| else buffer.Length - from;
      CopyBytes(buffer, from, head[..n]);
      assert n > 0 ==> Usable(chunks) == head + Usable(chunks[1..]);
      if n == |head| {
        chunks := chunks[1..];
      } else {
        assert [head[n..]] + chunks[1..] != [] && ([head[n..]] + chunks[1..])[1..] == chunks[1..];
        chunks := [head[n..]] + chunks[1..];
      }
      err := false;
    }
  }

  /** Exactly `liLen` bytes, or an error when fewer arrive. */
  method ReadNBytes(conn: Conn, liLen: nat) returns (r: Option<seq<byte>>)
    modifies conn
    ensures r.Some? <==> liLen <= |Usable(old(conn.chunks))|
    ensures r.Some? ==> r.value == Usable(old(conn.chunks))[..liLen]
                        && Usable(conn.chunks) == Usable(old(conn.chunks))[liLen..]
  {
    var buffer := new byte[liLen](_ => NUL);
    ghost var stream := Usable(conn.chunks);
    var read := 0;
    while read < liLen
      invariant read <= liLen && read <= |stream|
      invariant buffer[..read] == stream[..read]
      invariant Usable(conn.chunks) == stream[read..]
      modifies conn, buffer
      decreases liLen - read
    {
      var n, err := conn.Read(buffer, read);
      if err || n == 0 {
        return None;
      }
      assert buffer[..][..read + n] == stream[..read] + stream[read..][..n];
      read := read + n;
    }
    return Some(buffer[..]);
  }

  /** The length a frame declares in its first two bytes, big-endian and signed. */
  function DeclaredLength(s: seq<byte>): int
    requires |s| >= 2
  {
    Signed(2, FromBE(s[..2]))
  }

  /** One frame off the front of a stream and what is left: never fewer than `HEADER_SIZE` bytes. */
  function NextFrame(s: seq<byte>): (r: Option<(seq<byte>, seq<byte>)>)
    ensures r.Some? ==> s == r.value.0 + r.value.1 && |r.value.0| >= HEADER_SIZE
  {
    if |s| < HEADER_SIZE then None
    else
      var total := if DeclaredLength(s) > HEADER_SIZE then DeclaredLength(s) else HEADER_SIZE;
      if |s| < total then None else Some((s[..total], s[total..]))
  }

  lemma HeaderLength(headerData: seq<byte>)
    requires |headerData| == HEADER_SIZE
    ensures Size(NET_HDR) <= HEADER_SIZE
    ensures Decode(Big, NET_HDR, headerData).Some?
    ensures Decode(Big, NET_HDR, headerData).value[0] == Scalar(2, FromBE(headerData[..2]))
  {
    HeaderOffsets();
  }

  method ReadXchngSocket(conn: Conn) returns (r: Option<seq<byte>>)
    modifies conn
    ensures match NextFrame(Usable(old(conn.chunks)))
            case None => r.None?
            case Some((frame, rest)) => r == Some(frame) && Usable(conn.chunks) == rest
  {
    ghost var stream := Usable(conn.chunks);
    var headerData := ReadNBytes(conn, HEADER_SIZE);
    if headerData.None? {
      return None;
    }
    HeaderLength(headerData.value);
    var header := Decode(Big, NET_HDR, headerData.value).value;
    var remainingLength := Signed(2, header[0].bits) - HEADER_SIZE;
    assert stream[..2] == headerData.value[..2];
    var messageData := [];
    if remainingLength > 0 {
      var data := ReadNBytes(conn, remainingLength);
      if data.None? {
        return None;
      }
      messageData := data.value;
      assert stream[HEADER_SIZE..][..remainingLength] == stream[HEADER_SIZE..HEADER_SIZE + remainingLength];
      assert stream[HEADER_SIZE..][remainingLength..] == stream[HEADER_SIZE + remainingLength..];
    }
    assert DeclaredLength(stream) == remainingLength + HEADER_SIZE;
    assert headerData.value + messageData == stream[..HEADER_SIZE + |messageData|];
    return Some(headerData.value + messageData);
  }

  /** All frames of a stream, and the bytes on which the next read fails. */
  function Deframe(s: seq<byte>): (seq<seq<byte>>, seq<byte>)
    decreases |s|
  {
    match NextFrame(s)
    case None => ([], s)
    case Some((frame, rest)) =>
      var (frames, left) := Deframe(rest);
      ([frame] + frames, left)
  }

  /** Frame after frame until a read fails. */
  method ReadFrames(conn: Conn) returns (frames: seq<seq<byte>>)
    modifies conn
    ensures frames == Deframe(Usable(old(conn.chunks))).0
  {
    hide NextFrame, Usable;
    frames := [];
    ghost var all := Deframe(Usable(conn.chunks)).0;
    while true
      modifies conn
      invariant all == frames + Deframe(Usable(conn.chunks)).0
      decreases |Usable(conn.chunks)|
    {
      ghost var stream := Usable(conn.chunks);
      var frame := ReadXchngSocket(conn);
      if frame.None? {
        assert Deframe(stream).0 == [];
        return;
      }
      assert Deframe(stream).0 == [frame.value] + Deframe(Usable(conn.chunks)).0;
      Regroup(frames, frame.value, Deframe(Usable(conn.chunks)).0);
      frames := frames + [frame.value];
    }
  }

  lemma Regroup(a: seq<seq<byte>>, f: seq<byte>, b: seq<seq<byte>>)
    ensures a + ([f] + b) == a + [f] + b
  {
  }

  lemma TwoBytes(s: seq<byte>)
    requires |s| == 2
    ensures FromBE(s) == 256 * (s[0] as int) + s[1]
  {
    assert FromBE(s[..1]) == s[0] by {
      assert s[..1][..0] == [];
    }
  }

  /** A message whose first two bytes are its length, the high one first. */
  predicate SelfDescribing(f: seq<byte>) {
    2 <= |f| < 0x8000 && |f| == 0x100 * (f[0] as int) + f[1]
  }

  lemma SelfDescribed(f: seq<byte>)
    requires |f| >= 2
    ensures SelfDescribing(f) <==> DeclaredLength(f) == |f|
  {
    TwoBytes(f[..2]);
    Widths();
  }

  predicate AllSelfDescribing(fs: seq<seq<byte>>) {
    forall i :: 0 <= i < |fs| ==> SelfDescribing(fs[i])
  }

  predicate AllLongEnough(fs: seq<seq<byte>>) {
    forall i :: 0 <= i < |fs| ==> |fs[i]| >= 24
  }

  lemma FirstFrame(f: seq<byte>, rest: seq<byte>)
    requires SelfDescribing(f) && |f| >= HEADER_SIZE
    ensures NextFrame(f + rest) == Some((f, rest))
  {
    SelfDescribed(f);
    assert (f + rest)[..2] == f[..2];
    assert (f + rest)[..|f|] == f && (f + rest)[|f|..] == rest;
  }

  /**
   A stream of self-describing messages is split into exactly those messages, all bytes consumed,
   if and only if none is shorter than the 24 bytes the reader always takes.
   */
  lemma {:induction false} DeframeIsFaithful(fs: seq<seq<byte>>)
    requires AllSelfDescribing(fs)
    ensures Deframe(Concat(fs)) == (fs, []) <==> AllLongEnough(fs)
  {
    if fs != [] {
      var rest := Concat(fs[1..]);
      if |fs[0]| >= HEADER_SIZE {
        FirstFrame(fs[0], rest);
        DeframeIsFaithful(fs[1..]);
        assert [fs[0]] + fs[1..] == fs;
        var (frames, left) := Deframe(rest);
        assert ([fs[0]] + frames)[1..] == frames;
        assert AllLongEnough(fs) <==> AllLongEnough(fs[1..]) by {
          forall i | 0 < i < |fs| ensures fs[i] == fs[1..][i - 1] {}
        }
      } else {
        assert Deframe(Concat(fs)).0 == [] || |Deframe(Concat(fs)).0[0]| >= HEADER_SIZE;
      }
    }
  }

  lemma {:induction false} FramesAreLong(s: seq<byte>)
    ensures AllLongEnough(Deframe(s).0)
    decreases |s|
  {
    match NextFrame(s)
    case None =>
    case Some((frame, rest)) => FramesAreLong(rest);
  }

  /**
   However the bytes of a list of self-describing messages are split into non-empty reads, the
   frames read are those messages if and only if none is shorter than 24 bytes.
   */
  lemma {:induction false} AnyChunkingIsFaithful(fs: seq<seq<byte>>, chunks: seq<seq<byte>>)
    requires AllSelfDescribing(fs) && [] !in chunks && Concat(chunks) == Concat(fs)
    ensures Deframe(Usable(chunks)).0 == fs <==> AllLongEnough(fs)
  {
    hide Deframe, Concat, Usable;
    UsableWhenNonEmpty(chunks);
    DeframeIsFaithful(fs);
    FramesAreLong(Concat(fs));
  }

  /** A short message swallows the head of its successor. */
  lemma ShortFrameSwallows()
    ensures var short := [0, 22] + Repeat(NUL, 20);
            var next := [0, 24] + Repeat(NUL, 22);
            SelfDescribing(short) && SelfDescribing(next)
            && Deframe(Concat([short, next])).0 == [short + [0, 24]]
  {
    var short: seq<byte> := [0, 22] + Repeat(NUL, 20);
    var next: seq<byte> := [0, 24] + Repeat(NUL, 22);
    assert short[..2] == [0, 22] && next[..2] == [0, 24];
    TwoBytes(short[..2]);
    TwoBytes(next[..2]);
    assert Concat([short, next]) == short + next by {
      assert [short, next][1..] == [next] && [next][1..] == [];
      assert Concat([next]) == next + Concat([]);
    }
    assert (short + next)[..2] == short[..2];
    assert (short + next)[..24] == short + [0, 24] && (short + next)[24..] == Repeat(NUL, 22);
    assert NextFrame(short + next) == Some((short + [0, 24], Repeat(NUL, 22)));
    assert Deframe(Repeat(NUL, 22)).0 == [];
    assert Deframe(short + next).0 == [short + [0, 24]] + Deframe(Repeat(NUL, 22)).0;
  }

  lemma DeframeStep(f: seq<byte>, rest: seq<byte>)
    requires SelfDescribing(f) && |f| >= HEADER_SIZE
    ensures Deframe(f + rest) == ([f] + Deframe(rest).0, Deframe(rest).1)
  {
    FirstFrame(f, rest);
  }

  lemma PartialFrame(f: seq<byte>, cut: nat)
    requires SelfDescribing(f) && |f| >= HEADER_SIZE && cut < |f|
    ensures Deframe(f[..cut]) == ([], f[..cut])
  {
    SelfDescribed(f);
    assert cut >= 2 ==> f[..cut][..2] == f[..2];
  }

  /** No byte is lost or repeated: the frames and the leftover make up the stream. */
  lemma {:induction false} DeframeConserves(s: seq<byte>)
    ensures Concat(Deframe(s).0) + Deframe(s).1 == s
    decreases |s|
  {
    match NextFrame(s)
    case None =>
    case Some((frame, rest)) =>
      DeframeConserves(rest);
      var frames := Deframe(rest).0;
      assert ([frame] + frames)[1..] == frames;
      assert frame + (Concat(frames) + Deframe(rest).1) == frame + Concat(frames) + Deframe(rest).1;
  }

  lemma ConcatPrefix(fs: seq<seq<byte>>, n: nat)
    requires n < |fs|
    ensures Concat(fs[..n + 1]) == fs[0] + Concat(fs[1..][..n])
  {
    assert fs[..n + 1][1..] == fs[1..][..n];
  }

  lemma NothingDeframed(s: seq<byte>)
    requires s == []
    ensures Deframe(s).0 == []
  {
  }

  lemma CutInFirst(fs: seq<seq<byte>>, cut: nat)
    requires fs != [] && cut < |fs[0]|
    ensures |Concat(fs[..0])| <= cut < |Concat(fs[..1])|
    ensures cut <= |Concat(fs)| && Concat(fs)[..cut] == fs[0][..cut]
  {
    ConcatPrefix(fs, 0);
  }

  lemma CutBehindFirst(fs: seq<seq<byte>>, cut: nat)
    requires fs != [] && |fs[0]| <= cut <= |Concat(fs)|
    ensures cut - |fs[0]| <= |Concat(fs[1..])|
    ensures Concat(fs)[..cut] == fs[0] + Concat(fs[1..])[..cut - |fs[0]|]
  {
  }

  /**
   Wherever the stream is cut, the reader has delivered exactly the messages that lie wholly before
   the cut, and no partial one.
   */
  lemma {:induction false} CutStreamYieldsPrefix(fs: seq<seq<byte>>, cut: nat) returns (n: nat)
    requires AllSelfDescribing(fs) && AllLongEnough(fs) && cut <= |Concat(fs)|
    ensures n <= |fs| && Deframe(Concat(fs)[..cut]).0 == fs[..n]
    ensures |Concat(fs[..n])| <= cut
    ensures n < |fs| ==> cut < |Concat(fs[..n + 1])|
  {
    hide NextFrame, SelfDescribing, Deframe;
    n := 0;
    if fs == [] {
      NothingDeframed(Concat(fs)[..cut]);
    } else if cut < |fs[0]| {
      CutInFirst(fs, cut);
      PartialFrame(fs[0], cut);
    } else {
      hide Concat;
      CutBehindFirst(fs, cut);
      var later := CutStreamYieldsPrefix(fs[1..], cut - |fs[0]|);
      DeframeStep(fs[0], Concat(fs[1..])[..cut - |fs[0]|]);
      ConcatPrefix(fs, later);
      n := later + 1;
      if n < |fs| {
        ConcatPrefix(fs, n);
      }
      assert fs[..n] == [fs[0]] + fs[1..][..later];
    }
  }
}
