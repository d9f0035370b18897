/** The fixed-width records of an order message and their documented layout. */
module Models {
  import opened Bytes
  import opened Codec

  const LEN_ALPHA_CHAR := 2
  const LEN_TIME_STAMP := 8
  const LEN_INSTRUMENT_NAME := 6
  const LEN_SYMBOL_NSE := 10
  const LEN_OPTION_TYPE := 2
  const LEN_BROKER_ID := 5
  const LEN_ACCOUNT_NUMBER := 10
  const LEN_REMARKS := 24
  const LEN_SETTLOR := 12
  const LEN_PAN := 10

  type bits64 = x: int | 0 <= x < 0x1_0000_0000_0000_0000

  datatype IntHeader = IntHeader(
    siTransactionCode: int16, liLogTime: int32, cAlphaChar: seq<byte>, liTraderId: int32, siErrorCode: int16,
    cFiller2: seq<byte>, cTimeStamp1: seq<byte>, cTimeStamp2: seq<byte>, siMessageLength: int16)

  datatype ContractDesc = ContractDesc(
    cInstrumentName: seq<byte>, cSymbol: seq<byte>, liExpiryDate: int32, liStrikePrice: int32,
    cOptionType: seq<byte>, siCaLevel: int16)

  datatype NetHdr = NetHdr(sMessageLength: int16, iSeqNum: int32, cChecksum: seq<byte>)

  /** The order request between the message header and the contract descriptor. */
  datatype OrderHead = OrderHead(
    cParticipantType: byte, cFiller1: byte, siCompetitorPeriod: int16, siSolicitorPeriod: int16,
    cModifiedCancelledBy: byte, cFiller2: byte, siReasonCode: int16, cFiller3: seq<byte>, lTokenNo: int32)

  /** The order request between the contract descriptor and the order flags. */
  datatype OrderMiddle = OrderMiddle(
    cCounterPartyBrokerId: seq<byte>, cFiller4: byte, cFiller5: seq<byte>, cCloseoutFlg: byte, cFiller6: byte,
    siOrderType: int16, dOrderNumber: bits64, cAccountNumber: seq<byte>, siBookType: int16, siBuySellIndicator: int16,
    liDisclosedVolume: int32, liDisclosedVolumeRemaining: int32, liTotalVolumeRemaining: int32, liVolume: int32,
    liVolumeFilledToday: int32, liPrice: int32, liTriggerPrice: int32, liGoodTillDate: int32, liEntryDateTime: int32,
    liMinimumFillAonVolume: int32, liLastModified: int32)

  /** The order request after the order flags. */
  datatype OrderTail = OrderTail(
    siBranchId: int16, liTraderId: int32, cBrokerId: seq<byte>, cRemarks: seq<byte>, cOpenClose: byte,
    cSettlor: seq<byte>, siProClientIndicator: int16, siSettlementPeriod: int16, cCoverUncover: byte,
    cGiveupFlag: byte, iOrderSeq: int32, dNnfField: bits64, dFiller19: bits64, cPan: seq<byte>, lAlgoId: int32,
    siAlgoCategory: int16, llLastactivityref: int64, cReserved: seq<byte>)

  // ---- fields in wire order ----

  function U8(b: byte): (f: Field)
    ensures ValidField(f) && KindOf(f) == Num(1)
  {
    Widths(); Scalar(1, b)
  }

  function I16(v: int16): (f: Field)
    ensures ValidField(f) && KindOf(f) == Num(2)
  {
    Widths(); Scalar(2, Unsigned(2, v))
  }

  function I32(v: int32): (f: Field)
    ensures ValidField(f) && KindOf(f) == Num(4)
  {
    Widths(); Scalar(4, Unsigned(4, v))
  }

  function I64(v: int64): (f: Field)
    ensures ValidField(f) && KindOf(f) == Num(8)
  {
    Widths(); Scalar(8, Unsigned(8, v))
  }

  function F64(v: bits64): (f: Field)
    ensures ValidField(f) && KindOf(f) == Num(8)
  {
    Widths(); Scalar(8, v)
  }

  function Word(v: bv16): (n: nat)
    ensures n < 0x1_0000
  {
    v as nat
  }

  function U16(v: bv16): (f: Field)
    ensures ValidField(f) && KindOf(f) == Num(2)
  {
    Widths(); Scalar(2, Word(v))
  }

  function IntHeaderFields(h: IntHeader): (fs: seq<Field>)
    ensures Codec.Valid(fs)
  {
    [I16(h.siTransactionCode), I32(h.liLogTime), Raw(h.cAlphaChar), I32(h.liTraderId), I16(h.siErrorCode),
     Raw(h.cFiller2), Raw(h.cTimeStamp1), Raw(h.cTimeStamp2), I16(h.siMessageLength)]
  }

  function ContractDescFields(c: ContractDesc): (fs: seq<Field>)
    ensures Codec.Valid(fs)
  {
    [Raw(c.cInstrumentName), Raw(c.cSymbol), I32(c.liExpiryDate), I32(c.liStrikePrice), Raw(c.cOptionType),
     I16(c.siCaLevel)]
  }

  function OrderFlagsFields(flags: bv16): (fs: seq<Field>)
    ensures Codec.Valid(fs)
  {
    [U16(flags)]
  }

  function NetHdrFields(n: NetHdr): (fs: seq<Field>)
    ensures Codec.Valid(fs)
  {
    [I16(n.sMessageLength), I32(n.iSeqNum), Raw(n.cChecksum)]
  }

  function HeadFields(h: OrderHead): (fs: seq<Field>)
    ensures Codec.Valid(fs)
  {
    [U8(h.cParticipantType), U8(h.cFiller1), I16(h.siCompetitorPeriod), I16(h.siSolicitorPeriod),
     U8(h.cModifiedCancelledBy), U8(h.cFiller2), I16(h.siReasonCode), Raw(h.cFiller3), I32(h.lTokenNo)]
  }

  function MiddleFields(m: OrderMiddle): (fs: seq<Field>)
    ensures Codec.Valid(fs)
  {
    [Raw(m.cCounterPartyBrokerId), U8(m.cFiller4), Raw(m.cFiller5), U8(m.cCloseoutFlg), U8(m.cFiller6),
     I16(m.siOrderType), F64(m.dOrderNumber), Raw(m.cAccountNumber), I16(m.siBookType), I16(m.siBuySellIndicator),
     I32(m.liDisclosedVolume), I32(m.liDisclosedVolumeRemaining), I32(m.liTotalVolumeRemaining), I32(m.liVolume),
     I32(m.liVolumeFilledToday), I32(m.liPrice), I32(m.liTriggerPrice), I32(m.liGoodTillDate), I32(m.liEntryDateTime),
     I32(m.liMinimumFillAonVolume), I32(m.liLastModified)]
  }

  function TailFields(t: OrderTail): (fs: seq<Field>)
    ensures Codec.Valid(fs)
  {
    [I16(t.siBranchId), I32(t.liTraderId), Raw(t.cBrokerId), Raw(t.cRemarks), U8(t.cOpenClose),
     Raw(t.cSettlor), I16(t.siProClientIndicator), I16(t.siSettlementPeriod), U8(t.cCoverUncover),
     U8(t.cGiveupFlag), I32(t.iOrderSeq), F64(t.dNnfField), F64(t.dFiller19), Raw(t.cPan), I32(t.lAlgoId),
     I16(t.siAlgoCategory), I64(t.llLastactivityref), Raw(t.cReserved)]
  }

  // ---- layouts ----

  const INT_HEADER := [Num(2), Num(4), Blob(LEN_ALPHA_CHAR), Num(4), Num(2), Blob(8), Blob(LEN_TIME_STAMP),
                       Blob(LEN_TIME_STAMP), Num(2)]
  const CONTRACT_DESC := [Blob(LEN_INSTRUMENT_NAME), Blob(LEN_SYMBOL_NSE), Num(4), Num(4), Blob(LEN_OPTION_TYPE), Num(2)]
  const ORDER_FLAGS := [Num(2)]
  const NET_HDR := [Num(2), Num(4), Blob(16)]
  const ORDER_HEAD := [Num(1), Num(1), Num(2), Num(2), Num(1), Num(1), Num(2), Blob(4), Num(4)]
  const ORDER_MIDDLE := [Blob(LEN_BROKER_ID), Num(1), Blob(2), Num(1), Num(1), Num(2), Num(8), Blob(LEN_ACCOUNT_NUMBER),
                         Num(2), Num(2), Num(4), Num(4), Num(4), Num(4), Num(4), Num(4), Num(4), Num(4), Num(4), Num(4),
                         Num(4)]
  const ORDER_TAIL := [Num(2), Num(4), Blob(LEN_BROKER_ID), Blob(LEN_REMARKS), Num(1), Blob(LEN_SETTLOR), Num(2), Num(2),
                       Num(1), Num(1), Num(4), Num(8), Num(8), Blob(LEN_PAN), Num(4), Num(2), Num(8), Blob(52)]

  // ---- records whose byte arrays have their declared lengths ----

  predicate SizedHeader(h: IntHeader) {
    |h.cAlphaChar| == LEN_ALPHA_CHAR && |h.cFiller2| == 8 && |h.cTimeStamp1| == |h.cTimeStamp2| == LEN_TIME_STAMP
  }

  predicate SizedContract(c: ContractDesc) {
    |c.cInstrumentName| == LEN_INSTRUMENT_NAME && |c.cSymbol| == LEN_SYMBOL_NSE && |c.cOptionType| == LEN_OPTION_TYPE
  }

  predicate SizedNet(n: NetHdr) {
    |n.cChecksum| == 16
  }

  predicate SizedHead(h: OrderHead) {
    |h.cFiller3| == 4
  }

  predicate SizedMiddle(m: OrderMiddle) {
    |m.cCounterPartyBrokerId| == LEN_BROKER_ID && |m.cFiller5| == 2 && |m.cAccountNumber| == LEN_ACCOUNT_NUMBER
  }

  predicate SizedTail(t: OrderTail) {
    && |t.cBrokerId| == LEN_BROKER_ID && |t.cRemarks| == LEN_REMARKS && |t.cSettlor| == LEN_SETTLOR
    && |t.cPan| == LEN_PAN && |t.cReserved| == 52
  }

  lemma HeaderKinds(h: IntHeader)
    ensures SizedHeader(h) <==> Kinds(IntHeaderFields(h)) == INT_HEADER
  {
    var ks := Kinds(IntHeaderFields(h));
    assert ks[2] == Blob(|h.cAlphaChar|) && ks[5] == Blob(|h.cFiller2|);
    assert ks[6] == Blob(|h.cTimeStamp1|) && ks[7] == Blob(|h.cTimeStamp2|);
  }

  lemma ContractKinds(c: ContractDesc)
    ensures SizedContract(c) <==> Kinds(ContractDescFields(c)) == CONTRACT_DESC
  {
    var ks := Kinds(ContractDescFields(c));
    assert ks[0] == Blob(|c.cInstrumentName|) && ks[1] == Blob(|c.cSymbol|) && ks[4] == Blob(|c.cOptionType|);
  }

  lemma NetKinds(n: NetHdr)
    ensures SizedNet(n) <==> Kinds(NetHdrFields(n)) == NET_HDR
  {
    assert Kinds(NetHdrFields(n))[2] == Blob(|n.cChecksum|);
  }

  lemma HeadKinds(h: OrderHead)
    requires SizedHead(h)
    ensures Kinds(HeadFields(h)) == ORDER_HEAD
  {
  }

  lemma MiddleKinds(m: OrderMiddle)
    requires SizedMiddle(m)
    ensures Kinds(MiddleFields(m)) == ORDER_MIDDLE
  {
  }

  lemma TailKinds(t: OrderTail)
    requires SizedTail(t)
    ensures Kinds(TailFields(t)) == ORDER_TAIL
  {
  }

  /** Byte offset at which each field of a layout starts. */
  function Offsets(ks: seq<Kind>, from: nat): (os: seq<nat>)
    ensures |os| == |ks|
  {
    if ks == [] then [] else [from] + Offsets(ks[1..], from + KindSize(ks[0]))
  }

  /** A list of offsets in which each follows from the one before is the list of offsets of the layout. */
  lemma {:induction false} OffsetsByStep(ks: seq<Kind>, os: seq<nat>)
    requires |ks| == |os| > 0
    requires forall i :: 0 <= i < |os| - 1 ==> os[i + 1] == os[i] + KindSize(ks[i])
    ensures Offsets(ks, os[0]) == os
    ensures os[0] + Size(ks) == os[|os| - 1] + KindSize(ks[|ks| - 1])
  {
    if |ks| > 1 {
      OffsetsByStep(ks[1..], os[1..]);
    } else {
      assert Size(ks[1..]) == 0;
    }
  }

  lemma {:induction false} OffsetsAreSums(ks: seq<Kind>, from: nat, i: nat)
    requires i < |ks|
    ensures Offsets(ks, from)[i] == from + Size(ks[..i])
  {
    if i > 0 {
      OffsetsAreSums(ks[1..], from + KindSize(ks[0]), i - 1);
      assert ks[..i][1..] == ks[1..][..i - 1];
    }
  }

  lemma {:induction false} OffsetsAppend(ks: seq<Kind>, ls: seq<Kind>, from: nat)
    ensures Offsets(ks + ls, from) == Offsets(ks, from) + Offsets(ls, from + Size(ks))
  {
    hide Offsets, Size;
    forall i | 0 <= i < |ks + ls|
      ensures Offsets(ks + ls, from)[i] == (Offsets(ks, from) + Offsets(ls, from + Size(ks)))[i]
    {
      OffsetsAreSums(ks + ls, from, i);
      if i < |ks| {
        OffsetsAreSums(ks, from, i);
        assert (ks + ls)[..i] == ks[..i];
      } else {
        OffsetsAreSums(ls, from + Size(ks), i - |ks|);
        assert (ks + ls)[..i] == ks + ls[..i - |ks|];
        SizeAppend(ks, ls[..i - |ks|]);
      }
    }
  }

  /** `binary.Write` puts each field of a record at its offset. */
  lemma FieldIsAtOffset(e: Endian, fs: seq<Field>, i: nat)
    requires i < |fs|
    ensures var from, width := Offsets(Kinds(fs), 0)[i], |EncodeField(e, fs[i])|;
            from + width <= |Encode(e, fs)| && Encode(e, fs)[from..from + width] == EncodeField(e, fs[i])
  {
    hide Offsets, Size, Encode, EncodeField;
    OffsetsAreSums(Kinds(fs), 0, i);
    assert Kinds(fs)[..i] == Kinds(fs[..i]);
    hide Kinds;
    FieldAt(e, fs, i);
  }

  // The offsets and sizes of the layouts are the documented ones.

  lemma HeaderOffsets()
    ensures Offsets(INT_HEADER, 0) == [0, 2, 6, 8, 12, 14, 22, 30, 38]
    ensures Size(INT_HEADER) == 40 && Size(NET_HDR) == 22
  {
    OffsetsByStep(INT_HEADER, [0, 2, 6, 8, 12, 14, 22, 30, 38]);
    OffsetsByStep(NET_HDR, [0, 2, 6]);
  }

  lemma ContractOffsets()
    ensures Offsets(CONTRACT_DESC, 0) == [0, 6, 16, 20, 24, 26]
    ensures Size(CONTRACT_DESC) == 28 && Size(ORDER_FLAGS) == 2
  {
    OffsetsByStep(CONTRACT_DESC, [0, 6, 16, 20, 24, 26]);
    OffsetsByStep(ORDER_FLAGS, [0]);
  }

  lemma HeadOffsets()
    ensures Offsets(ORDER_HEAD, 40) == [40, 41, 42, 44, 46, 47, 48, 50, 54]
    ensures 40 + Size(ORDER_HEAD) == 58
  {
    OffsetsByStep(ORDER_HEAD, [40, 41, 42, 44, 46, 47, 48, 50, 54]);
  }

  lemma MiddleOffsets()
    ensures Offsets(ORDER_MIDDLE, 86) == [86, 91, 92, 94, 95, 96, 98, 106, 116, 118, 120, 124, 128, 132, 136, 140, 144,
                                          148, 152, 156, 160]
    ensures 86 + Size(ORDER_MIDDLE) == 164
  {
    OffsetsByStep(ORDER_MIDDLE, [86, 91, 92, 94, 95, 96, 98, 106, 116, 118, 120, 124, 128, 132, 136, 140, 144, 148, 152,
                                 156, 160]);
  }

  lemma TailOffsets()
    ensures Offsets(ORDER_TAIL, 166) == [166, 168, 172, 177, 201, 202, 214, 216, 218, 219, 220, 224, 232, 240, 250, 254,
                                         256, 264]
    ensures 166 + Size(ORDER_TAIL) == 316
  {
    OffsetsByStep(ORDER_TAIL, [166, 168, 172, 177, 201, 202, 214, 216, 218, 219, 220, 224, 232, 240, 250, 254, 256, 264]);
  }
}
