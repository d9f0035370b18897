/**
 The nested order message. The sender encodes header, contract descriptor and flags into byte
 arrays of the order request, then the request and the network header into byte arrays of the
 envelope; the receiver decodes one record with the nested structs spelled out.
 */
module Layout {
  import opened Wrappers
  import opened Bytes
  import opened Codec
  import opened Models

  datatype OeReqres = OeReqres(
    stHdr: seq<byte>, head: OrderHead, stConDesc: seq<byte>, middle: OrderMiddle, stOrdFlg: seq<byte>, tail: OrderTail)

  /** The order message in its parts, before anything is encoded. */
  datatype OrderBody = OrderBody(
    header: IntHeader, head: OrderHead, contract: ContractDesc, middle: OrderMiddle, flags: bv16, tail: OrderTail)

  predicate Sized(b: OrderBody) {
    SizedHeader(b.header) && SizedHead(b.head) && SizedContract(b.contract) && SizedMiddle(b.middle) && SizedTail(b.tail)
  }

  // ---- the sender's two stages ----

  function OeReqresFields(oe: OeReqres): (fs: seq<Field>)
    ensures Codec.Valid(fs)
  {
    [Raw(oe.stHdr)] + HeadFields(oe.head) + [Raw(oe.stConDesc)] + MiddleFields(oe.middle) + [Raw(oe.stOrdFlg)]
    + TailFields(oe.tail)
  }

  /** The order request once its three nested structs have been encoded into it. */
  function Staged(e: Endian, b: OrderBody): OeReqres {
    OeReqres(Encode(e, IntHeaderFields(b.header)), b.head, Encode(e, ContractDescFields(b.contract)), b.middle,
             Encode(e, OrderFlagsFields(b.flags)), b.tail)
  }

  function ExchMsgFields(netHeader: seq<byte>, oeRes: seq<byte>): (fs: seq<Field>)
    ensures Codec.Valid(fs)
  {
    [Raw(netHeader), Raw(oeRes)]
  }

  function StagedPacket(e: Endian, n: NetHdr, b: OrderBody): seq<byte> {
    Encode(e, ExchMsgFields(Encode(e, NetHdrFields(n)), Encode(e, OeReqresFields(Staged(e, b)))))
  }

  // ---- the flattened record ----

  function BodyFields(b: OrderBody): (fs: seq<Field>)
    ensures Codec.Valid(fs)
  {
    IntHeaderFields(b.header) + HeadFields(b.head) + ContractDescFields(b.contract) + MiddleFields(b.middle)
    + OrderFlagsFields(b.flags) + TailFields(b.tail)
  }

  function BodyBytes(e: Endian, b: OrderBody): seq<byte> {
    Encode(e, BodyFields(b))
  }

  /** `St_oe_reqresp`: the receiver keeps the contract descriptor as an undecoded byte array. */
  function ResponseFields(n: NetHdr, b: OrderBody): (fs: seq<Field>)
    ensures Codec.Valid(fs)
  {
    NetHdrFields(n)
    + (IntHeaderFields(b.header) + HeadFields(b.head) + [Raw(Encode(Little, ContractDescFields(b.contract)))]
       + MiddleFields(b.middle) + OrderFlagsFields(b.flags) + TailFields(b.tail))
  }

  const OE_REQRESP := INT_HEADER + ORDER_HEAD + [Blob(28)] + ORDER_MIDDLE + ORDER_FLAGS + ORDER_TAIL

  lemma EncodeSix(e: Endian, a: seq<Field>, b: seq<Field>, c: seq<Field>, d: seq<Field>, f: seq<Field>, g: seq<Field>)
    ensures Encode(e, a + b + c + d + f + g)
         == Encode(e, a) + Encode(e, b) + Encode(e, c) + Encode(e, d) + Encode(e, f) + Encode(e, g)
  {
    EncodeThree(e, a + b + c + d, f, g);
    EncodeThree(e, a + b, c, d);
    EncodeAppend(e, a, b);
  }

  /** Encoding in two stages writes the bytes of the flattened record. */
  lemma TwoStagesAreFlat(e: Endian, b: OrderBody)
    ensures Encode(e, OeReqresFields(Staged(e, b))) == BodyBytes(e, b)
  {
    var oe := Staged(e, b);
    var header, contract, flags := [Raw(oe.stHdr)], [Raw(oe.stConDesc)], [Raw(oe.stOrdFlg)];
    EncodeSix(e, header, HeadFields(b.head), contract, MiddleFields(b.middle), flags, TailFields(b.tail));
    EncodeSix(e, IntHeaderFields(b.header), HeadFields(b.head), ContractDescFields(b.contract),
              MiddleFields(b.middle), OrderFlagsFields(b.flags), TailFields(b.tail));
    EncodeOne(e, header[0]);
    EncodeOne(e, contract[0]);
    EncodeOne(e, flags[0]);
  }

  lemma HeaderSize(e: Endian, h: IntHeader)
    requires SizedHeader(h)
    ensures |Encode(e, IntHeaderFields(h))| == 40
  {
    HeaderKinds(h);
    HeaderOffsets();
    EncodeSize(e, IntHeaderFields(h));
  }

  lemma ContractSize(e: Endian, c: ContractDesc, flags: bv16)
    requires SizedContract(c)
    ensures |Encode(e, ContractDescFields(c))| == 28 && |Encode(e, OrderFlagsFields(flags))| == 2
  {
    ContractKinds(c);
    ContractOffsets();
    EncodeSize(e, ContractDescFields(c));
    EncodeOne(e, U16(flags));
  }

  lemma OrderSizes(e: Endian, h: OrderHead, m: OrderMiddle, t: OrderTail)
    requires SizedHead(h) && SizedMiddle(m) && SizedTail(t)
    ensures |Encode(e, HeadFields(h))| == 18 && |Encode(e, MiddleFields(m))| == 78 && |Encode(e, TailFields(t))| == 150
  {
    HeadKinds(h); MiddleKinds(m); TailKinds(t);
    HeadOffsets(); MiddleOffsets(); TailOffsets();
    EncodeSize(e, HeadFields(h));
    EncodeSize(e, MiddleFields(m));
    EncodeSize(e, TailFields(t));
  }

  lemma NetSize(e: Endian, n: NetHdr)
    requires SizedNet(n)
    ensures |Encode(e, NetHdrFields(n))| == 22
  {
    NetKinds(n);
    HeaderOffsets();
    EncodeSize(e, NetHdrFields(n));
  }

  /** The body is 316 bytes, with the nested structs at offsets 0, 58 and 164. */
  lemma BodyPlacement(e: Endian, b: OrderBody)
    requires Sized(b)
    ensures |BodyBytes(e, b)| == 316
    ensures BodyBytes(e, b)[..40] == Encode(e, IntHeaderFields(b.header))
    ensures BodyBytes(e, b)[58..86] == Encode(e, ContractDescFields(b.contract))
    ensures BodyBytes(e, b)[164..166] == Encode(e, OrderFlagsFields(b.flags))
  {
    var h, o, c := Encode(e, IntHeaderFields(b.header)), Encode(e, HeadFields(b.head)), Encode(e, ContractDescFields(b.contract));
    var m, f, t := Encode(e, MiddleFields(b.middle)), Encode(e, OrderFlagsFields(b.flags)), Encode(e, TailFields(b.tail));
    HeaderSize(e, b.header);
    ContractSize(e, b.contract, b.flags);
    OrderSizes(e, b.head, b.middle, b.tail);
    EncodeSix(e, IntHeaderFields(b.header), HeadFields(b.head), ContractDescFields(b.contract),
              MiddleFields(b.middle), OrderFlagsFields(b.flags), TailFields(b.tail));
    SixParts(h, o, c, m, f, t);
  }

  lemma SixParts(h: seq<byte>, o: seq<byte>, c: seq<byte>, m: seq<byte>, f: seq<byte>, t: seq<byte>)
    ensures (h + o + c + m + f + t)[..|h|] == h
    ensures (h + o + c + m + f + t)[|h + o|..|h + o + c|] == c
    ensures (h + o + c + m + f + t)[|h + o + c + m|..|h + o + c + m + f|] == f
  {
    var s := h + o + c + m + f + t;
    assert s == h + (o + c + m + f + t);
    assert s == (h + o) + c + (m + f + t);
    assert s == (h + o + c + m) + f + t;
  }

  lemma BodyKinds(b: OrderBody)
    requires Sized(b)
    ensures Kinds(BodyFields(b)) == BODY
  {
    HeaderKinds(b.header); HeadKinds(b.head); ContractKinds(b.contract); MiddleKinds(b.middle); TailKinds(b.tail);
    var h, o, c, m, f, t := IntHeaderFields(b.header), HeadFields(b.head), ContractDescFields(b.contract),
                            MiddleFields(b.middle), OrderFlagsFields(b.flags), TailFields(b.tail);
    KindsAppend(h + o + c + m + f, t);
    KindsAppend(h + o + c + m, f);
    KindsAppend(h + o + c, m);
    KindsAppend(h + o, c);
    KindsAppend(h, o);
    assert Kinds(f) == ORDER_FLAGS;
  }

  const BODY := INT_HEADER + ORDER_HEAD + CONTRACT_DESC + ORDER_MIDDLE + ORDER_FLAGS + ORDER_TAIL

  /** The documented offset of every field of the body, in the order of `BodyFields`. */
  const BODY_OFFSETS: seq<nat> :=
    [0, 2, 6, 8, 12, 14, 22, 30, 38]
    + [40, 41, 42, 44, 46, 47, 48, 50, 54]
    + [58, 64, 74, 78, 82, 84]
    + [86, 91, 92, 94, 95, 96, 98, 106, 116, 118, 120, 124, 128, 132, 136, 140, 144, 148, 152, 156, 160]
    + [164]
    + [166, 168, 172, 177, 201, 202, 214, 216, 218, 219, 220, 224, 232, 240, 250, 254, 256, 264]

  lemma BodyOffsets()
    ensures Offsets(BODY, 0) == BODY_OFFSETS
  {
    hide Offsets, Size;
    HeaderOffsets(); HeadOffsets(); ContractOffsets(); MiddleOffsets(); TailOffsets();
    NestedOffsets();
    OffsetsAfter(INT_HEADER, ORDER_HEAD, 40);
    OffsetsAfter(INT_HEADER + ORDER_HEAD, CONTRACT_DESC, 58);
    OffsetsAfter(INT_HEADER + ORDER_HEAD + CONTRACT_DESC, ORDER_MIDDLE, 86);
    OffsetsAfter(INT_HEADER + ORDER_HEAD + CONTRACT_DESC + ORDER_MIDDLE, ORDER_FLAGS, 164);
    OffsetsAfter(INT_HEADER + ORDER_HEAD + CONTRACT_DESC + ORDER_MIDDLE + ORDER_FLAGS, ORDER_TAIL, 166);
  }

  lemma NestedOffsets()
    ensures Offsets(CONTRACT_DESC, 58) == [58, 64, 74, 78, 82, 84] && Offsets(ORDER_FLAGS, 164) == [164]
  {
    OffsetsByStep(CONTRACT_DESC, [58, 64, 74, 78, 82, 84]);
    OffsetsByStep(ORDER_FLAGS, [164]);
  }

  lemma OffsetsAfter(ks: seq<Kind>, ls: seq<Kind>, size: nat)
    requires Size(ks) == size
    ensures Offsets(ks + ls, 0) == Offsets(ks, 0) + Offsets(ls, size) && Size(ks + ls) == size + Size(ls)
  {
    OffsetsAppend(ks, ls, 0);
    SizeAppend(ks, ls);
  }

  /** Each of the 64 fields of an order stands in the 316 bytes at its documented offset. */
  lemma BodyFieldAt(e: Endian, b: OrderBody, i: nat)
    requires Sized(b) && i < |BODY_OFFSETS|
    ensures |BodyFields(b)| == |BODY_OFFSETS| == 64
    ensures var from, width := BODY_OFFSETS[i], |EncodeField(e, BodyFields(b)[i])|;
            && from + width <= |BodyBytes(e, b)|
            && BodyBytes(e, b)[from..from + width] == EncodeField(e, BodyFields(b)[i])
  {
    BodyKinds(b);
    BodyOffsets();
    assert |Kinds(BodyFields(b))| == |BodyFields(b)|;
    hide BodyFields, Offsets, Kinds, Encode, Sized;
    FieldIsAtOffset(e, BodyFields(b), i);
  }

  /** In the packet the number of the message stands at offset 2 and every body field 22 bytes later than in the body. */
  lemma PacketFieldAt(e: Endian, n: NetHdr, b: OrderBody, i: nat)
    requires Sized(b) && SizedNet(n) && i < |BODY_OFFSETS|
    ensures |BodyFields(b)| == |BODY_OFFSETS| && |StagedPacket(e, n, b)| == 338
    ensures StagedPacket(e, n, b)[2..6] == EncodeField(e, I32(n.iSeqNum))
    ensures var from, width := 22 + BODY_OFFSETS[i], |EncodeField(e, BodyFields(b)[i])|;
            && from + width <= 338
            && StagedPacket(e, n, b)[from..from + width] == EncodeField(e, BodyFields(b)[i])
  {
    PacketPlacement(e, n, b);
    BodyFieldAt(e, b, i);
    NetNumberAt(e, n);
    NetSize(e, n);
    hide StagedPacket, BodyBytes, BodyFields, Sized, EncodeField, Encode;
    var from, width := BODY_OFFSETS[i], |EncodeField(e, BodyFields(b)[i])|;
    BehindHeader(Encode(e, NetHdrFields(n)), BodyBytes(e, b), from, from + width);
  }

  lemma BehindHeader(net: seq<byte>, body: seq<byte>, from: nat, to: nat)
    requires |net| == 22 && from <= to <= |body|
    ensures (net + body)[2..6] == net[2..6] && (net + body)[22 + from..22 + to] == body[from..to]
  {
  }

  lemma NetNumberAt(e: Endian, n: NetHdr)
    requires SizedNet(n)
    ensures |Encode(e, NetHdrFields(n))| >= 6 && Encode(e, NetHdrFields(n))[2..6] == EncodeField(e, I32(n.iSeqNum))
  {
    NetSize(e, n);
    OffsetsByStep(NET_HDR, [0, 2, 6]);
    NetKinds(n);
    FieldIsAtOffset(e, NetHdrFields(n), 1);
  }

  /** The envelope is the 22-byte network header followed by the 316-byte body. */
  lemma PacketPlacement(e: Endian, n: NetHdr, b: OrderBody)
    requires Sized(b) && SizedNet(n)
    ensures StagedPacket(e, n, b) == Encode(e, NetHdrFields(n)) + BodyBytes(e, b)
    ensures |StagedPacket(e, n, b)| == 338
    ensures StagedPacket(e, n, b)[22..] == BodyBytes(e, b)
  {
    TwoStagesAreFlat(e, b);
    BodyPlacement(e, b);
    NetSize(e, n);
    var outer := ExchMsgFields(Encode(e, NetHdrFields(n)), BodyBytes(e, b));
    assert outer == [outer[0]] + [outer[1]];
    EncodeAppend(e, [outer[0]], [outer[1]]);
    EncodeOne(e, outer[0]);
    EncodeOne(e, outer[1]);
  }

  lemma ResponseBytes(n: NetHdr, b: OrderBody)
    requires Sized(b) && SizedNet(n)
    ensures Encode(Little, ResponseFields(n, b)) == StagedPacket(Little, n, b)
  {
    var raw := [Raw(Encode(Little, ContractDescFields(b.contract)))];
    PacketPlacement(Little, n, b);
    EncodeSix(Little, IntHeaderFields(b.header), HeadFields(b.head), ContractDescFields(b.contract),
              MiddleFields(b.middle), OrderFlagsFields(b.flags), TailFields(b.tail));
    EncodeSix(Little, IntHeaderFields(b.header), HeadFields(b.head), raw,
              MiddleFields(b.middle), OrderFlagsFields(b.flags), TailFields(b.tail));
    EncodeOne(Little, raw[0]);
    EncodeAppend(Little, NetHdrFields(n), ResponseFields(n, b)[|NetHdrFields(n)|..]);
    assert ResponseFields(n, b)[|NetHdrFields(n)|..]
        == IntHeaderFields(b.header) + HeadFields(b.head) + raw + MiddleFields(b.middle)
           + OrderFlagsFields(b.flags) + TailFields(b.tail);
  }

  lemma KindsAppend(fs: seq<Field>, gs: seq<Field>)
    ensures Kinds(fs + gs) == Kinds(fs) + Kinds(gs)
  {
  }

  lemma ResponseKinds(n: NetHdr, b: OrderBody)
    requires Sized(b) && SizedNet(n)
    ensures Kinds(ResponseFields(n, b)) == NET_HDR + OE_REQRESP
  {
    ContractSize(Little, b.contract, b.flags);
    NetKinds(n); HeaderKinds(b.header); HeadKinds(b.head); MiddleKinds(b.middle); TailKinds(b.tail);
    var raw := [Raw(Encode(Little, ContractDescFields(b.contract)))];
    var h, o, m, f, t := IntHeaderFields(b.header), HeadFields(b.head), MiddleFields(b.middle),
                         OrderFlagsFields(b.flags), TailFields(b.tail);
    KindsAppend(NetHdrFields(n), h + o + raw + m + f + t);
    KindsAppend(h + o + raw + m + f, t);
    KindsAppend(h + o + raw + m, f);
    KindsAppend(h + o + raw, m);
    KindsAppend(h + o, raw);
    KindsAppend(h, o);
    assert Kinds(raw) == [Blob(28)] && Kinds(f) == ORDER_FLAGS;
  }

  /**
   The receiver's struct read little-endian recovers every field that was packed. Read
   big-endian, as the receive loop does, it yields each scalar byte-reversed.
   */
  lemma ReceiverView(n: NetHdr, b: OrderBody)
    requires Sized(b) && SizedNet(n)
    ensures Decode(Little, NET_HDR + OE_REQRESP, StagedPacket(Little, n, b)) == Some(ResponseFields(n, b))
    ensures Decode(Big, NET_HDR + OE_REQRESP, StagedPacket(Little, n, b)) == Some(Swap(ResponseFields(n, b)))
    ensures Swap(Swap(ResponseFields(n, b))) == ResponseFields(n, b)
  {
    ResponseBytes(n, b);
    ResponseKinds(n, b);
    var packet := StagedPacket(Little, n, b);
    assert packet + [] == packet;
    DecodeEncode(Little, ResponseFields(n, b), []);
    CrossEndianRead(ResponseFields(n, b), []);
  }
}
