/** The receive loop: which frames are decoded, and what ends it. */
module Receiving {
  import opened Wrappers
  import opened Bytes
  import opened Codec
  import opened Models
  import opened Layout
  import opened Deframing
  import opened Wire

  const LOG_ON_FRAME := 300

  const SIGN_ON_FIRST := [Num(8), Blob(8), Blob(8), Blob(8), Blob(8), Blob(26), Num(8), Blob(LEN_BROKER_ID), Num(1),
                          Num(2), Num(4), Num(4), Num(1)]
  const SIGN_ON_SECOND := [Blob(50), Num(1), Num(2), Num(8), Blob(14), Num(1), Num(1), Blob(2), Num(2), Num(1), Blob(25),
                           Blob(16), Blob(16), Blob(16)]

  /** The struct a sign-on response is read into. */
  const LOG_ON_USE := [Blob(22)] + INT_HEADER + SIGN_ON_FIRST + SIGN_ON_SECOND

  lemma SignOnFirstSize()
    ensures Size(SIGN_ON_FIRST) == 91
  {
    OffsetsByStep(SIGN_ON_FIRST, [0, 8, 16, 24, 32, 40, 66, 74, 79, 80, 82, 86, 90]);
  }

  lemma SignOnSecondSize()
    ensures Size(SIGN_ON_SECOND) == 155
  {
    OffsetsByStep(SIGN_ON_SECOND, [0, 50, 51, 53, 61, 75, 76, 77, 79, 81, 82, 107, 123, 139]);
  }

  lemma LogOnUseSize()
    ensures Size(LOG_ON_USE) == 308
  {
    SizeAppend([Blob(22)] + INT_HEADER + SIGN_ON_FIRST, SIGN_ON_SECOND);
    SizeAppend([Blob(22)] + INT_HEADER, SIGN_ON_FIRST);
    SizeAppend([Blob(22)], INT_HEADER);
    HeaderOffsets();
    SignOnFirstSize();
    SignOnSecondSize();
    OffsetsByStep([Blob(22)], [0]);
  }

  lemma OrderResponseSize()
    ensures Size(NET_HDR + OE_REQRESP) == ORDER_FRAME
  {
    SizeAppend(NET_HDR, OE_REQRESP);
    SizeAppend(INT_HEADER + ORDER_HEAD + [Blob(28)] + ORDER_MIDDLE + ORDER_FLAGS, ORDER_TAIL);
    SizeAppend(INT_HEADER + ORDER_HEAD + [Blob(28)] + ORDER_MIDDLE, ORDER_FLAGS);
    SizeAppend(INT_HEADER + ORDER_HEAD + [Blob(28)], ORDER_MIDDLE);
    SizeAppend(INT_HEADER + ORDER_HEAD, [Blob(28)]);
    SizeAppend(INT_HEADER, ORDER_HEAD);
    HeaderOffsets(); HeadOffsets(); ContractOffsets(); MiddleOffsets(); TailOffsets();
    OffsetsByStep([Blob(28)], [0]);
  }

  function DecodeLogOn(f: seq<byte>): (r: Option<seq<Field>>)
    ensures r.Some? <==> |f| >= 308
  {
    LogOnUseSize();
    Decode(Big, LOG_ON_USE, f)
  }

  function DecodeResponse(f: seq<byte>): (r: Option<seq<Field>>)
    ensures r.Some? <==> |f| >= ORDER_FRAME
  {
    OrderResponseSize();
    Decode(Big, NET_HDR + OE_REQRESP, f)
  }

  // ---- what a response is, byte by byte ----

  /** Where each field of the response stands in its frame. */
  const RESPONSE_AT: seq<nat> := NET_AT + HEADER_AT + HEAD_AT + [80] + MIDDLE_AT + [186] + TAIL_AT

  /** The value, highest byte first. */
  predicate HighFirstAt(f: seq<byte>, at: nat, width: nat, v: nat) {
    && at + width <= |f|
    && (width == 1 ==> v == f[at])
    && (width == 2 ==> v == Two(f[at + 1], f[at]))
    && (width == 4 ==> v == Four(f[at + 3], f[at + 2], f[at + 1], f[at]))
    && (width == 8 ==> v == Four(f[at + 7], f[at + 6], f[at + 5], f[at + 4])
                            + 0x1_0000_0000 * Four(f[at + 3], f[at + 2], f[at + 1], f[at]))
    && width in {1, 2, 4, 8}
  }

  /** A number is read highest byte first, an array as it stands. */
  predicate ReadsAt(f: seq<byte>, at: nat, field: Field) {
    match field
    case Scalar(width, v) => HighFirstAt(f, at, width, v)
    case Raw(data) => BytesAt(f, at, data)
  }

  ghost predicate ReadsFrame(f: seq<byte>, response: seq<Field>) {
    && Kinds(response) == NET_HDR + OE_REQRESP && |response| == |RESPONSE_AT| == 62
    && forall i :: 0 <= i < 62 ==> ReadsAt(f, RESPONSE_AT[i], response[i])
  }

  lemma HighFirst(t: seq<byte>)
    requires |t| in {1, 2, 4, 8}
    ensures HighFirstAt(t, 0, |t|, FromBE(t))
  {
    FromBigEndianIsReversed(t);
    var r := Reverse(t);
    if |t| == 1 {
      assert r[1..] == [];
    } else if |t| == 2 {
      FromLEOfTwo(r);
    } else if |t| == 4 {
      FromLEOfFour(r);
    } else {
      FromLEOfEight(r);
    }
  }

  lemma ResponseOffsets()
    ensures Offsets(NET_HDR + OE_REQRESP, 0) == RESPONSE_AT
  {
    hide Offsets, Size;
    HeaderOffsets(); HeadOffsets(); ContractOffsets(); MiddleOffsets();
    ShiftedOffsets();
    OffsetsAfter(NET_HDR, INT_HEADER, 22);
    OffsetsAfter(NET_HDR + INT_HEADER, ORDER_HEAD, 62);
    OffsetsAfter(NET_HDR + INT_HEADER + ORDER_HEAD, [Blob(28)], 80);
    OffsetsAfter(NET_HDR + INT_HEADER + ORDER_HEAD + [Blob(28)], ORDER_MIDDLE, 108);
    OffsetsAfter(NET_HDR + INT_HEADER + ORDER_HEAD + [Blob(28)] + ORDER_MIDDLE, ORDER_FLAGS, 186);
    OffsetsAfter(NET_HDR + INT_HEADER + ORDER_HEAD + [Blob(28)] + ORDER_MIDDLE + ORDER_FLAGS, ORDER_TAIL, 188);
    assert NET_HDR + OE_REQRESP
        == NET_HDR + INT_HEADER + ORDER_HEAD + [Blob(28)] + ORDER_MIDDLE + ORDER_FLAGS + ORDER_TAIL;
  }

  lemma ShiftedOffsets()
    ensures Offsets(NET_HDR, 0) == NET_AT && Offsets(INT_HEADER, 22) == HEADER_AT && Offsets(ORDER_HEAD, 62) == HEAD_AT
    ensures Offsets([Blob(28)], 80) == [80] && Size([Blob(28)]) == 28
    ensures Offsets(ORDER_MIDDLE, 108) == MIDDLE_AT && Offsets(ORDER_FLAGS, 186) == [186]
    ensures Offsets(ORDER_TAIL, 188) == TAIL_AT
  {
    hide Offsets, Size;
    OffsetsByStep(NET_HDR, NET_AT);
    OffsetsByStep(INT_HEADER, HEADER_AT);
    OffsetsByStep(ORDER_HEAD, HEAD_AT);
    OffsetsByStep([Blob(28)], [80]);
    OffsetsByStep(ORDER_MIDDLE, MIDDLE_AT);
    OffsetsByStep(ORDER_FLAGS, [186]);
    OffsetsByStep(ORDER_TAIL, TAIL_AT);
  }

  lemma OrdinaryWidths()
    ensures forall i :: 0 <= i < |NET_HDR + OE_REQRESP| && (NET_HDR + OE_REQRESP)[i].Num? ==>
                          (NET_HDR + OE_REQRESP)[i].width in {1, 2, 4, 8}
  {
  }

  lemma ShiftedRead(f: seq<byte>, at: nat, width: nat, v: nat)
    requires at + width <= |f| && HighFirstAt(f[at..at + width], 0, width, v)
    ensures HighFirstAt(f, at, width, v)
  {
  }

  /** The response is the frame read highest byte first, each field at its documented byte. */
  lemma ResponseReadsFrame(f: seq<byte>)
    requires |f| >= ORDER_FRAME
    ensures ReadsFrame(f, DecodeResponse(f).value)
  {
    OrderResponseSize();
    ResponseOffsets();
    OrdinaryWidths();
    var ks, r := NET_HDR + OE_REQRESP, DecodeResponse(f).value;
    assert |ks| == |RESPONSE_AT| == 62;
    forall i | 0 <= i < 62
      ensures ReadsAt(f, RESPONSE_AT[i], r[i])
    {
      FieldRead(f, ks, i);
    }
    hide Decode, Offsets, Size, ReadsAt;
  }

  lemma FieldRead(f: seq<byte>, ks: seq<Kind>, i: nat)
    requires Size(ks) <= |f| && i < |ks| && (ks[i].Num? ==> ks[i].width in {1, 2, 4, 8})
    ensures ReadsAt(f, Offsets(ks, 0)[i], Decode(Big, ks, f).value[i])
  {
    hide Decode, Offsets, Size;
    DecodedAt(Big, ks, f, i);
    OffsetsAreSums(ks, 0, i);
    var at, width := Offsets(ks, 0)[i], KindSize(ks[i]);
    if ks[i].Num? {
      HighFirst(f[at..at + width]);
      ShiftedRead(f, at, width, FromBE(f[at..at + width]));
    }
    hide HighFirstAt, FromBE;
  }

  /** The order-sized frames before the first frame of any other size. */
  function Leading(frames: seq<seq<byte>>): seq<seq<byte>> {
    if frames == [] || |frames[0]| != ORDER_FRAME then [] else [frames[0]] + Leading(frames[1..])
  }

  lemma {:induction false} LeadingIsMaximal(frames: seq<seq<byte>>)
    ensures var n := |Leading(frames)|;
            n <= |frames| && Leading(frames) == frames[..n]
            && (forall i :: 0 <= i < n ==> |frames[i]| == 338)
            && (n < |frames| ==> |frames[n]| != 338)
  {
    if frames != [] && |frames[0]| == ORDER_FRAME {
      LeadingIsMaximal(frames[1..]);
    }
  }

  lemma LeadingStep(taken: seq<seq<byte>>, f: seq<byte>, rest: seq<seq<byte>>)
    ensures |f| == ORDER_FRAME ==> taken + Leading([f] + rest) == taken + [f] + Leading(rest)
    ensures |f| != ORDER_FRAME ==> taken + Leading([f] + rest) == taken
    ensures taken + Leading([]) == taken
  {
    assert ([f] + rest)[1..] == rest;
  }

  function Responses(frames: seq<seq<byte>>): (r: seq<Option<seq<Field>>>)
    ensures |r| == |frames|
  {
    seq(|frames|, i requires 0 <= i < |frames| => DecodeResponse(frames[i]))
  }

  lemma NoResponses()
    ensures Responses([]) == []
  {
  }

  lemma OneMoreResponse(frames: seq<seq<byte>>, f: seq<byte>)
    ensures Responses(frames + [f]) == Responses(frames) + [DecodeResponse(f)]
  {
  }

  /**
   One frame by its size, and whether the loop goes on. An order response is decoded; a sign-on
   response is read into a struct of 308 bytes, which its 300 bytes cannot fill; any other size is
   unexpected.
   */
  method DispatchFrame(msgData: seq<byte>) returns (ok: bool, response: Option<seq<Field>>)
    ensures ok <==> |msgData| == 338
    ensures response.Some? <==> |msgData| == 338
    ensures response.Some? ==> response == DecodeResponse(msgData) && ReadsFrame(msgData, response.value)
  {
    hide ReadsFrame, DecodeResponse;
    if |msgData| == LOG_ON_FRAME {
      var tmpBufDat := DecodeLogOn(msgData);
      if tmpBufDat.None? {
        return false, None;
      }
      return true, None;
    } else if |msgData| == ORDER_FRAME {
      var tmpBufDat := DecodeResponse(msgData);
      if tmpBufDat.None? {
        return false, None;
      }
      ResponseReadsFrame(msgData);
      return true, tmpBufDat;
    }
    return false, None;
  }

  /** One response for each frame, and each is its frame read highest byte first. */
  ghost predicate AnswersTo(frames: seq<seq<byte>>, decoded: seq<Option<seq<Field>>>) {
    && |decoded| == |frames|
    && forall k :: 0 <= k < |frames| ==> decoded[k].Some? && ReadsFrame(frames[k], decoded[k].value)
  }

  lemma LeadingAnswers(frames: seq<seq<byte>>)
    ensures AnswersTo(Leading(frames), Responses(Leading(frames)))
  {
    LeadingIsMaximal(frames);
    hide Leading, DecodeResponse, ReadsFrame;
    forall k | 0 <= k < |Leading(frames)|
      ensures DecodeResponse(Leading(frames)[k]).Some?
      ensures ReadsFrame(Leading(frames)[k], DecodeResponse(Leading(frames)[k]).value)
    {
      ResponseReadsFrame(Leading(frames)[k]);
    }
  }

  /** The loop decodes the leading order-sized frames of the stream and then returns. */
  method RcvThrd(conn: Conn) returns (decoded: seq<Option<seq<Field>>>)
    modifies conn
    ensures var frames := Leading(Deframe(Usable(old(conn.chunks))).0);
            decoded == Responses(frames) && AnswersTo(frames, decoded)
  {
    LeadingAnswers(Deframe(Usable(conn.chunks)).0);
    hide NextFrame, Usable, Responses, DecodeResponse, Leading, AnswersTo;
    decoded := [];
    ghost var frames, taken := Deframe(Usable(conn.chunks)).0, [];
    NoResponses();
    while true
      modifies conn
      invariant Leading(frames) == taken + Leading(Deframe(Usable(conn.chunks)).0)
      invariant decoded == Responses(taken)
      decreases |Usable(conn.chunks)|
    {
      ghost var here := Deframe(Usable(conn.chunks)).0;
      var msgData := ReadXchngSocket(conn);
      if msgData.None? {
        LeadingStep(taken, [], []);
        return;
      }
      ghost var rest := Deframe(Usable(conn.chunks)).0;
      assert here == [msgData.value] + rest;
      LeadingStep(taken, msgData.value, rest);
      var ok, response := DispatchFrame(msgData.value);
      if !ok {
        return;
      }
      OneMoreResponse(taken, msgData.value);
      taken := taken + [msgData.value];
      decoded := decoded + [response];
    }
  }

  // ---- what the loop makes of packed orders ----

  /** Packed orders with the network headers `ns`. */
  function Packed(ns: seq<NetHdr>, bs: seq<OrderBody>): (packets: seq<seq<byte>>)
    requires |ns| == |bs|
    ensures |packets| == |ns|
  {
    seq(|ns|, k requires 0 <= k < |ns| => StagedPacket(Little, ns[k], bs[k]))
  }

  ghost predicate AllSized(ns: seq<NetHdr>, bs: seq<OrderBody>) {
    |ns| == |bs| && forall k :: 0 <= k < |ns| ==> SizedNet(ns[k]) && Sized(bs[k])
  }

  lemma Exchanged(b0: byte, b1: byte, v: int16)
    requires Two(b0, b1) == v % 0x1_0000
    ensures 338 == 0x100 * (b0 as int) + b1 <==> v == 0x5201
  {
    assert v % 0x1_0000 == if v < 0 then v as int + 0x1_0000 else v as int;
  }

  /** A packed order declares its own length exactly when its length field holds 338 with the bytes exchanged. */
  lemma PacketDeclares(n: NetHdr, b: OrderBody)
    requires Sized(b) && SizedNet(n)
    ensures |StagedPacket(Little, n, b)| == 338
    ensures SelfDescribing(StagedPacket(Little, n, b)) <==> n.sMessageLength == 0x5201
  {
    hide StagedPacket, Sized, SizedNet, HeaderOnWire, HeadOnWire, ContractOnWire, MiddleOnWire, FlagsOnWire, TailOnWire;
    hide Two, Int32At, BytesAt;
    PacketOnWire(n, b);
    var p := StagedPacket(Little, n, b);
    Exchanged(p[0], p[1], n.sMessageLength);
  }

  /** Frames of one order each, declared and decoded as such: the loop answers their fields byte-reversed. */
  lemma {:induction false} PackedOrdersAreAnswered(ns: seq<NetHdr>, bs: seq<OrderBody>, chunks: seq<seq<byte>>)
    requires AllSized(ns, bs) && forall k :: 0 <= k < |ns| ==> ns[k].sMessageLength == 0x5201
    requires [] !in chunks && Concat(chunks) == Concat(Packed(ns, bs))
    ensures Leading(Deframe(Usable(chunks)).0) == Packed(ns, bs)
    ensures forall k :: 0 <= k < |ns| ==> Responses(Packed(ns, bs))[k] == Some(Swap(ResponseFields(ns[k], bs[k])))
  {
    hide StagedPacket, Sized, SizedNet, Deframe, Usable, Concat, SelfDescribing, Decode, Swap, ResponseFields;
    var frames := Packed(ns, bs);
    forall k | 0 <= k < |ns|
      ensures SelfDescribing(frames[k]) && |frames[k]| == 338
      ensures Responses(frames)[k] == Some(Swap(ResponseFields(ns[k], bs[k])))
    {
      PacketDeclares(ns[k], bs[k]);
      ReceiverView(ns[k], bs[k]);
    }
    AnyChunkingIsFaithful(frames, chunks);
    AllLeading(frames);
  }

  lemma {:induction false} AllLeading(frames: seq<seq<byte>>)
    requires forall k :: 0 <= k < |frames| ==> |frames[k]| == 338
    ensures Leading(frames) == frames
  {
    LeadingIsMaximal(frames);
  }
}
