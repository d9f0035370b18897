/** What stands at which byte of a packet, read byte by byte. */
module Wire {
  import opened Bytes
  import opened Codec
  import opened Models
  import opened Layout

  // ---- values in bytes, the lowest first; a wider value is cut to its low bits ----

  function Two(b0: int, b1: int): int {
    b0 + 0x100 * b1
  }

  function Four(b0: int, b1: int, b2: int, b3: int): int {
    b0 + 0x100 * b1 + 0x1_0000 * b2 + 0x100_0000 * b3
  }

  predicate ByteAt(s: seq<byte>, at: nat, v: byte) {
    at < |s| && s[at] == v
  }

  predicate Int16At(s: seq<byte>, at: nat, v: int) {
    at + 2 <= |s| && Two(s[at], s[at + 1]) == v % 0x1_0000
  }

  predicate Int32At(s: seq<byte>, at: nat, v: int) {
    at + 4 <= |s| && Four(s[at], s[at + 1], s[at + 2], s[at + 3]) == v % 0x1_0000_0000
  }

  predicate Int64At(s: seq<byte>, at: nat, v: int) {
    && at + 8 <= |s|
    && Four(s[at], s[at + 1], s[at + 2], s[at + 3])
       + 0x1_0000_0000 * Four(s[at + 4], s[at + 5], s[at + 6], s[at + 7]) == v % 0x1_0000_0000_0000_0000
  }

  predicate BytesAt(s: seq<byte>, at: nat, data: seq<byte>) {
    at + |data| <= |s| && s[at..at + |data|] == data
  }

  // ---- the records in the 338 bytes of a packet ----

  predicate NetOnWire(p: seq<byte>, n: NetHdr) {
    Int16At(p, 0, n.sMessageLength) && Int32At(p, 2, n.iSeqNum) && BytesAt(p, 6, n.cChecksum)
  }

  predicate HeaderOnWire(p: seq<byte>, h: IntHeader) {
    && Int16At(p, 22, h.siTransactionCode) && Int32At(p, 24, h.liLogTime) && BytesAt(p, 28, h.cAlphaChar)
    && Int32At(p, 30, h.liTraderId) && Int16At(p, 34, h.siErrorCode) && BytesAt(p, 36, h.cFiller2)
    && BytesAt(p, 44, h.cTimeStamp1) && BytesAt(p, 52, h.cTimeStamp2) && Int16At(p, 60, h.siMessageLength)
  }

  predicate HeadOnWire(p: seq<byte>, h: OrderHead) {
    && ByteAt(p, 62, h.cParticipantType) && ByteAt(p, 63, h.cFiller1) && Int16At(p, 64, h.siCompetitorPeriod)
    && Int16At(p, 66, h.siSolicitorPeriod) && ByteAt(p, 68, h.cModifiedCancelledBy) && ByteAt(p, 69, h.cFiller2)
    && Int16At(p, 70, h.siReasonCode) && BytesAt(p, 72, h.cFiller3) && Int32At(p, 76, h.lTokenNo)
  }

  predicate ContractOnWire(p: seq<byte>, c: ContractDesc) {
    && BytesAt(p, 80, c.cInstrumentName) && BytesAt(p, 86, c.cSymbol) && Int32At(p, 96, c.liExpiryDate)
    && Int32At(p, 100, c.liStrikePrice) && BytesAt(p, 104, c.cOptionType) && Int16At(p, 106, c.siCaLevel)
  }

  predicate MiddleOnWire(p: seq<byte>, m: OrderMiddle) {
    && BytesAt(p, 108, m.cCounterPartyBrokerId) && ByteAt(p, 113, m.cFiller4) && BytesAt(p, 114, m.cFiller5)
    && ByteAt(p, 116, m.cCloseoutFlg) && ByteAt(p, 117, m.cFiller6) && Int16At(p, 118, m.siOrderType)
    && Int64At(p, 120, m.dOrderNumber) && BytesAt(p, 128, m.cAccountNumber) && Int16At(p, 138, m.siBookType)
    && Int16At(p, 140, m.siBuySellIndicator) && Int32At(p, 142, m.liDisclosedVolume)
    && Int32At(p, 146, m.liDisclosedVolumeRemaining) && Int32At(p, 150, m.liTotalVolumeRemaining)
    && Int32At(p, 154, m.liVolume) && Int32At(p, 158, m.liVolumeFilledToday) && Int32At(p, 162, m.liPrice)
    && Int32At(p, 166, m.liTriggerPrice) && Int32At(p, 170, m.liGoodTillDate) && Int32At(p, 174, m.liEntryDateTime)
    && Int32At(p, 178, m.liMinimumFillAonVolume) && Int32At(p, 182, m.liLastModified)
  }

  predicate FlagsOnWire(p: seq<byte>, flags: bv16) {
    Int16At(p, 186, flags as int)
  }

  predicate TailOnWire(p: seq<byte>, t: OrderTail) {
    && Int16At(p, 188, t.siBranchId) && Int32At(p, 190, t.liTraderId) && BytesAt(p, 194, t.cBrokerId)
    && BytesAt(p, 199, t.cRemarks) && ByteAt(p, 223, t.cOpenClose) && BytesAt(p, 224, t.cSettlor)
    && Int16At(p, 236, t.siProClientIndicator) && Int16At(p, 238, t.siSettlementPeriod)
    && ByteAt(p, 240, t.cCoverUncover) && ByteAt(p, 241, t.cGiveupFlag) && Int32At(p, 242, t.iOrderSeq)
    && Int64At(p, 246, t.dNnfField) && Int64At(p, 254, t.dFiller19) && BytesAt(p, 262, t.cPan)
    && Int32At(p, 272, t.lAlgoId) && Int16At(p, 276, t.siAlgoCategory) && Int64At(p, 278, t.llLastactivityref)
    && BytesAt(p, 286, t.cReserved)
  }

  predicate OnWire(p: seq<byte>, n: NetHdr, b: OrderBody) {
    && |p| == 338 && NetOnWire(p, n) && HeaderOnWire(p, b.header) && HeadOnWire(p, b.head)
    && ContractOnWire(p, b.contract) && MiddleOnWire(p, b.middle) && FlagsOnWire(p, b.flags) && TailOnWire(p, b.tail)
  }

  // ---- from the encoding to the bytes ----

  predicate Stored(p: seq<byte>, at: nat, f: Field) {
    at + |EncodeField(Little, f)| <= |p| && p[at..at + |EncodeField(Little, f)|] == EncodeField(Little, f)
  }

  lemma FromLEOfTwo(t: seq<byte>)
    requires |t| == 2
    ensures FromLE(t) == Two(t[0], t[1])
  {
    assert t[1..][1..] == [];
  }

  lemma FromLEOfFour(t: seq<byte>)
    requires |t| == 4
    ensures FromLE(t) == Four(t[0], t[1], t[2], t[3])
  {
    assert t[1..][1..] == t[2..];
    FromLEOfTwo(t[2..]);
  }

  lemma FromLEOfEight(t: seq<byte>)
    requires |t| == 8
    ensures FromLE(t) == Four(t[0], t[1], t[2], t[3]) + 0x1_0000_0000 * Four(t[4], t[5], t[6], t[7])
  {
    assert t[1..][1..] == t[2..] && t[2..][1..] == t[3..] && t[3..][1..] == t[4..];
    FromLEOfFour(t[4..]);
    assert FromLE(t[3..]) == t[3] as int + 256 * FromLE(t[4..]);
    assert FromLE(t[2..]) == t[2] as int + 256 * FromLE(t[3..]);
    assert FromLE(t[1..]) == t[1] as int + 256 * FromLE(t[2..]);
  }

  lemma StoredByte(s: seq<byte>, at: nat, v: byte)
    requires Stored(s, at, U8(v))
    ensures ByteAt(s, at, v)
  {
    assert s[at] == s[at..at + 1][0];
  }

  lemma StoredBytes(s: seq<byte>, at: nat, data: seq<byte>)
    requires Stored(s, at, Raw(data))
    ensures BytesAt(s, at, data)
  {
  }

  /** A signed value that fits is cut to the pattern that stores it. */
  lemma Cuts(v: int64)
    ensures -0x8000 <= v < 0x8000 ==> v % 0x1_0000 == if v < 0 then v as int + 0x1_0000 else v as int
    ensures -0x8000_0000 <= v < 0x8000_0000 ==>
              v % 0x1_0000_0000 == if v < 0 then v as int + 0x1_0000_0000 else v as int
    ensures v % 0x1_0000_0000_0000_0000 == if v < 0 then v as int + 0x1_0000_0000_0000_0000 else v as int
  {
  }

  /** What the bytes of a stored number of two, four or eight bytes add up to. */
  lemma StoredNumber(s: seq<byte>, at: nat, width: nat, bits: nat)
    requires bits < Pow256(width) && Stored(s, at, Scalar(width, bits))
    ensures at + width <= |s|
    ensures width == 2 ==> Two(s[at], s[at + 1]) == bits
    ensures width == 4 ==> Four(s[at], s[at + 1], s[at + 2], s[at + 3]) == bits
    ensures width == 8 ==> Four(s[at], s[at + 1], s[at + 2], s[at + 3])
                           + 0x1_0000_0000 * Four(s[at + 4], s[at + 5], s[at + 6], s[at + 7]) == bits
  {
    hide Two, Four, ToLE, Pow256;
    LittleEndianRoundTrip(width, bits);
    var t := s[at..at + width];
    if width == 2 {
      FromLEOfTwo(t);
    } else if width == 4 {
      FromLEOfFour(t);
    } else if width == 8 {
      FromLEOfEight(t);
    }
    hide FromLE;
  }

  lemma Stored16(s: seq<byte>, at: nat, v: int16)
    requires Stored(s, at, I16(v))
    ensures Int16At(s, at, v)
  {
    hide Stored, Two, Pow256;
    Widths();
    Cuts(v);
    StoredNumber(s, at, 2, Unsigned(2, v));
  }

  lemma Stored32(s: seq<byte>, at: nat, v: int32)
    requires Stored(s, at, I32(v))
    ensures Int32At(s, at, v)
  {
    hide Stored, Four, Pow256;
    Widths();
    Cuts(v);
    StoredNumber(s, at, 4, Unsigned(4, v));
  }

  lemma Stored64(s: seq<byte>, at: nat, v: int64)
    requires Stored(s, at, I64(v))
    ensures Int64At(s, at, v)
  {
    hide Stored, Four, Pow256;
    Widths();
    Cuts(v);
    StoredNumber(s, at, 8, Unsigned(8, v));
  }

  lemma StoredFloat(s: seq<byte>, at: nat, v: bits64)
    requires Stored(s, at, F64(v))
    ensures Int64At(s, at, v)
  {
    hide Stored, Four, Pow256;
    Widths();
    StoredNumber(s, at, 8, v);
  }

  lemma StoredWord(s: seq<byte>, at: nat, w: nat)
    requires w < 0x1_0000 && Stored(s, at, Scalar(2, w))
    ensures Int16At(s, at, w)
  {
    hide Stored, Two, Pow256;
    Widths();
    StoredNumber(s, at, 2, w);
  }

  lemma StoredFlags(s: seq<byte>, at: nat, v: bv16)
    requires Stored(s, at, U16(v))
    ensures Int16At(s, at, v as int)
  {
    hide Stored, Int16At;
    StoredWord(s, at, Word(v));
  }

  // ---- every field of the packet ----

  lemma StoredInPacket(n: NetHdr, b: OrderBody, i: nat)
    requires Sized(b) && SizedNet(n) && i < 64
    ensures |BodyFields(b)| == 64 && Stored(StagedPacket(Little, n, b), 22 + BODY_OFFSETS[i], BodyFields(b)[i])
  {
    hide BodyFields, StagedPacket, Sized, SizedNet, EncodeField;
    PacketFieldAt(Little, n, b, i);
  }

  /** The fields `from` to `to` of the body are the fields of one part, at the offsets `ats`. */
  lemma PartStored(n: NetHdr, b: OrderBody, from: nat, fs: seq<Field>, ats: seq<nat>)
    requires Sized(b) && SizedNet(n) && |fs| == |ats| && from + |fs| <= 64 == |BodyFields(b)|
    requires BodyFields(b)[from..from + |fs|] == fs
    requires forall k :: 0 <= k < |ats| ==> ats[k] == 22 + BODY_OFFSETS[from + k]
    ensures forall k :: 0 <= k < |fs| ==> Stored(StagedPacket(Little, n, b), ats[k], fs[k])
  {
    hide BodyFields, StagedPacket, Sized, SizedNet, Stored;
    forall k | 0 <= k < |fs|
      ensures Stored(StagedPacket(Little, n, b), ats[k], fs[k])
    {
      StoredInPacket(n, b, from + k);
      assert BodyFields(b)[from..from + |fs|][k] == BodyFields(b)[from + k];
    }
  }

  lemma PartsOf(h: seq<Field>, o: seq<Field>, c: seq<Field>, m: seq<Field>, f: seq<Field>, t: seq<Field>)
    ensures var s := h + o + c + m + f + t;
            && s[..|h|] == h && s[|h|..|h + o|] == o && s[|h + o|..|h + o + c|] == c
            && s[|h + o + c|..|h + o + c + m|] == m && s[|h + o + c + m|..|h + o + c + m + f|] == f
            && s[|h + o + c + m + f|..] == t
  {
    var s := h + o + c + m + f + t;
    assert s == h + (o + c + m + f + t) && s == h + o + (c + m + f + t) && s == h + o + c + (m + f + t);
    assert s == h + o + c + m + (f + t);
  }

  const HEADER_AT: seq<nat> :=
    [22, 24, 28, 30, 34, 36, 44, 52, 60]

  lemma HeaderStored(n: NetHdr, b: OrderBody)
    requires Sized(b) && SizedNet(n)
    ensures forall k :: 0 <= k < 9 ==> Stored(StagedPacket(Little, n, b), HEADER_AT[k], IntHeaderFields(b.header)[k])
  {
    PartsOf(IntHeaderFields(b.header), HeadFields(b.head), ContractDescFields(b.contract), MiddleFields(b.middle),
            OrderFlagsFields(b.flags), TailFields(b.tail));
    hide StagedPacket, Sized, SizedNet, Stored, U8, U16, I16, I32, I64, F64;
    PartStored(n, b, 0, IntHeaderFields(b.header), HEADER_AT);
  }

  lemma HeaderBytes(n: NetHdr, b: OrderBody)
    requires Sized(b) && SizedNet(n)
    ensures HeaderOnWire(StagedPacket(Little, n, b), b.header)
  {
    HeaderStored(n, b);
    var p, h, fs, at := StagedPacket(Little, n, b), b.header, IntHeaderFields(b.header), HEADER_AT;
    hide StagedPacket, Sized, SizedNet, ByteAt, Int16At, Int32At, BytesAt, Stored, U8, I16, I32;
    assert Stored(p, at[0], fs[0]) && Stored(p, at[1], fs[1]) && Stored(p, at[2], fs[2]) && Stored(p, at[3], fs[3]);
    assert Stored(p, at[4], fs[4]) && Stored(p, at[5], fs[5]) && Stored(p, at[6], fs[6]) && Stored(p, at[7], fs[7]);
    assert Stored(p, at[8], fs[8]);
    Stored16(p, 22, h.siTransactionCode); Stored32(p, 24, h.liLogTime); StoredBytes(p, 28, h.cAlphaChar);
    Stored32(p, 30, h.liTraderId); Stored16(p, 34, h.siErrorCode); StoredBytes(p, 36, h.cFiller2);
    StoredBytes(p, 44, h.cTimeStamp1); StoredBytes(p, 52, h.cTimeStamp2); Stored16(p, 60, h.siMessageLength);
  }

  const HEAD_AT: seq<nat> :=
    [62, 63, 64, 66, 68, 69, 70, 72, 76]

  lemma HeadStored(n: NetHdr, b: OrderBody)
    requires Sized(b) && SizedNet(n)
    ensures forall k :: 0 <= k < 9 ==> Stored(StagedPacket(Little, n, b), HEAD_AT[k], HeadFields(b.head)[k])
  {
    PartsOf(IntHeaderFields(b.header), HeadFields(b.head), ContractDescFields(b.contract), MiddleFields(b.middle),
            OrderFlagsFields(b.flags), TailFields(b.tail));
    hide StagedPacket, Sized, SizedNet, Stored, U8, U16, I16, I32, I64, F64;
    PartStored(n, b, 9, HeadFields(b.head), HEAD_AT);
  }

  lemma HeadBytes(n: NetHdr, b: OrderBody)
    requires Sized(b) && SizedNet(n)
    ensures HeadOnWire(StagedPacket(Little, n, b), b.head)
  {
    HeadStored(n, b);
    var p, h, fs, at := StagedPacket(Little, n, b), b.head, HeadFields(b.head), HEAD_AT;
    hide StagedPacket, Sized, SizedNet, ByteAt, Int16At, Int32At, BytesAt, Stored, U8, I16, I32;
    assert Stored(p, at[0], fs[0]) && Stored(p, at[1], fs[1]) && Stored(p, at[2], fs[2]) && Stored(p, at[3], fs[3]);
    assert Stored(p, at[4], fs[4]) && Stored(p, at[5], fs[5]) && Stored(p, at[6], fs[6]) && Stored(p, at[7], fs[7]);
    assert Stored(p, at[8], fs[8]);
    StoredByte(p, 62, h.cParticipantType); StoredByte(p, 63, h.cFiller1); Stored16(p, 64, h.siCompetitorPeriod);
    Stored16(p, 66, h.siSolicitorPeriod); StoredByte(p, 68, h.cModifiedCancelledBy); StoredByte(p, 69, h.cFiller2);
    Stored16(p, 70, h.siReasonCode); StoredBytes(p, 72, h.cFiller3); Stored32(p, 76, h.lTokenNo);
  }

  const CONTRACT_AT: seq<nat> :=
    [80, 86, 96, 100, 104, 106]

  lemma ContractStored(n: NetHdr, b: OrderBody)
    requires Sized(b) && SizedNet(n)
    ensures forall k :: 0 <= k < 6 ==>
                          Stored(StagedPacket(Little, n, b), CONTRACT_AT[k], ContractDescFields(b.contract)[k])
  {
    PartsOf(IntHeaderFields(b.header), HeadFields(b.head), ContractDescFields(b.contract), MiddleFields(b.middle),
            OrderFlagsFields(b.flags), TailFields(b.tail));
    hide StagedPacket, Sized, SizedNet, Stored, U8, U16, I16, I32, I64, F64;
    PartStored(n, b, 18, ContractDescFields(b.contract), CONTRACT_AT);
  }

  lemma ContractBytes(n: NetHdr, b: OrderBody)
    requires Sized(b) && SizedNet(n)
    ensures ContractOnWire(StagedPacket(Little, n, b), b.contract)
  {
    ContractStored(n, b);
    var p, c, fs, at := StagedPacket(Little, n, b), b.contract, ContractDescFields(b.contract), CONTRACT_AT;
    hide StagedPacket, Sized, SizedNet, ByteAt, Int16At, Int32At, BytesAt, Stored, U8, I16, I32;
    assert Stored(p, at[0], fs[0]) && Stored(p, at[1], fs[1]) && Stored(p, at[2], fs[2]) && Stored(p, at[3], fs[3]);
    assert Stored(p, at[4], fs[4]) && Stored(p, at[5], fs[5]);
    StoredBytes(p, 80, c.cInstrumentName); StoredBytes(p, 86, c.cSymbol); Stored32(p, 96, c.liExpiryDate);
    Stored32(p, 100, c.liStrikePrice); StoredBytes(p, 104, c.cOptionType); Stored16(p, 106, c.siCaLevel);
  }

  const MIDDLE_AT: seq<nat> :=
    [108, 113, 114, 116, 117, 118, 120, 128, 138, 140, 142, 146, 150, 154, 158, 162, 166, 170, 174, 178, 182]

  lemma MiddleStored(n: NetHdr, b: OrderBody)
    requires Sized(b) && SizedNet(n)
    ensures forall k :: 0 <= k < 21 ==> Stored(StagedPacket(Little, n, b), MIDDLE_AT[k], MiddleFields(b.middle)[k])
  {
    PartsOf(IntHeaderFields(b.header), HeadFields(b.head), ContractDescFields(b.contract), MiddleFields(b.middle),
            OrderFlagsFields(b.flags), TailFields(b.tail));
    hide StagedPacket, Sized, SizedNet, Stored, U8, U16, I16, I32, I64, F64;
    PartStored(n, b, 24, MiddleFields(b.middle), MIDDLE_AT);
  }

  lemma MiddleBytes(n: NetHdr, b: OrderBody)
    requires Sized(b) && SizedNet(n)
    ensures MiddleOnWire(StagedPacket(Little, n, b), b.middle)
  {
    MiddleStored(n, b);
    var p, m, fs, at := StagedPacket(Little, n, b), b.middle, MiddleFields(b.middle), MIDDLE_AT;
    hide StagedPacket, Sized, SizedNet, ByteAt, Int16At, Int32At, Int64At, BytesAt, Stored;
    hide U8, I16, I32, I64, F64;
    assert Stored(p, at[0], fs[0]) && Stored(p, at[1], fs[1]) && Stored(p, at[2], fs[2]) && Stored(p, at[3], fs[3]);
    assert Stored(p, at[4], fs[4]) && Stored(p, at[5], fs[5]) && Stored(p, at[6], fs[6]) && Stored(p, at[7], fs[7]);
    assert Stored(p, at[8], fs[8]) && Stored(p, at[9], fs[9]) && Stored(p, at[10], fs[10]) && Stored(p, at[11], fs[11]);
    assert Stored(p, at[12], fs[12]) && Stored(p, at[13], fs[13])
           && Stored(p, at[14], fs[14]) && Stored(p, at[15], fs[15]);
    assert Stored(p, at[16], fs[16]) && Stored(p, at[17], fs[17])
           && Stored(p, at[18], fs[18]) && Stored(p, at[19], fs[19]);
    assert Stored(p, at[20], fs[20]);
    StoredBytes(p, 108, m.cCounterPartyBrokerId); StoredByte(p, 113, m.cFiller4); StoredBytes(p, 114, m.cFiller5);
    StoredByte(p, 116, m.cCloseoutFlg); StoredByte(p, 117, m.cFiller6); Stored16(p, 118, m.siOrderType);
    StoredFloat(p, 120, m.dOrderNumber); StoredBytes(p, 128, m.cAccountNumber); Stored16(p, 138, m.siBookType);
    Stored16(p, 140, m.siBuySellIndicator); Stored32(p, 142, m.liDisclosedVolume);
    Stored32(p, 146, m.liDisclosedVolumeRemaining); Stored32(p, 150, m.liTotalVolumeRemaining);
    Stored32(p, 154, m.liVolume); Stored32(p, 158, m.liVolumeFilledToday); Stored32(p, 162, m.liPrice);
    Stored32(p, 166, m.liTriggerPrice); Stored32(p, 170, m.liGoodTillDate); Stored32(p, 174, m.liEntryDateTime);
    Stored32(p, 178, m.liMinimumFillAonVolume); Stored32(p, 182, m.liLastModified);
  }

  const TAIL_AT: seq<nat> :=
    [188, 190, 194, 199, 223, 224, 236, 238, 240, 241, 242, 246, 254, 262, 272, 276, 278, 286]

  lemma TailStored(n: NetHdr, b: OrderBody)
    requires Sized(b) && SizedNet(n)
    ensures forall k :: 0 <= k < 18 ==> Stored(StagedPacket(Little, n, b), TAIL_AT[k], TailFields(b.tail)[k])
  {
    PartsOf(IntHeaderFields(b.header), HeadFields(b.head), ContractDescFields(b.contract), MiddleFields(b.middle),
            OrderFlagsFields(b.flags), TailFields(b.tail));
    hide StagedPacket, Sized, SizedNet, Stored, U8, U16, I16, I32, I64, F64;
    PartStored(n, b, 46, TailFields(b.tail), TAIL_AT);
  }

  lemma TailBytes(n: NetHdr, b: OrderBody)
    requires Sized(b) && SizedNet(n)
    ensures TailOnWire(StagedPacket(Little, n, b), b.tail)
  {
    TailStored(n, b);
    var p, t, fs, at := StagedPacket(Little, n, b), b.tail, TailFields(b.tail), TAIL_AT;
    hide StagedPacket, Sized, SizedNet, ByteAt, Int16At, Int32At, Int64At, BytesAt, Stored;
    hide U8, I16, I32, I64, F64;
    assert Stored(p, at[0], fs[0]) && Stored(p, at[1], fs[1]) && Stored(p, at[2], fs[2]) && Stored(p, at[3], fs[3]);
    assert Stored(p, at[4], fs[4]) && Stored(p, at[5], fs[5]) && Stored(p, at[6], fs[6]) && Stored(p, at[7], fs[7]);
    assert Stored(p, at[8], fs[8]) && Stored(p, at[9], fs[9]) && Stored(p, at[10], fs[10]) && Stored(p, at[11], fs[11]);
    assert Stored(p, at[12], fs[12]) && Stored(p, at[13], fs[13])
           && Stored(p, at[14], fs[14]) && Stored(p, at[15], fs[15]);
    assert Stored(p, at[16], fs[16]) && Stored(p, at[17], fs[17]);
    Stored16(p, 188, t.siBranchId); Stored32(p, 190, t.liTraderId); StoredBytes(p, 194, t.cBrokerId);
    StoredBytes(p, 199, t.cRemarks); StoredByte(p, 223, t.cOpenClose); StoredBytes(p, 224, t.cSettlor);
    Stored16(p, 236, t.siProClientIndicator); Stored16(p, 238, t.siSettlementPeriod);
    StoredByte(p, 240, t.cCoverUncover); StoredByte(p, 241, t.cGiveupFlag); Stored32(p, 242, t.iOrderSeq);
    StoredFloat(p, 246, t.dNnfField); StoredFloat(p, 254, t.dFiller19); StoredBytes(p, 262, t.cPan);
    Stored32(p, 272, t.lAlgoId); Stored16(p, 276, t.siAlgoCategory); Stored64(p, 278, t.llLastactivityref);
    StoredBytes(p, 286, t.cReserved);
  }

  lemma FlagsBytes(n: NetHdr, b: OrderBody)
    requires Sized(b) && SizedNet(n)
    ensures FlagsOnWire(StagedPacket(Little, n, b), b.flags)
  {
    PartsOf(IntHeaderFields(b.header), HeadFields(b.head), ContractDescFields(b.contract), MiddleFields(b.middle),
            OrderFlagsFields(b.flags), TailFields(b.tail));
    hide StagedPacket, Sized, SizedNet, Stored, U8, U16, I16, I32, I64, F64;
    PartStored(n, b, 45, OrderFlagsFields(b.flags), [186]);
    assert Stored(StagedPacket(Little, n, b), [186][0], OrderFlagsFields(b.flags)[0]);
    StoredFlags(StagedPacket(Little, n, b), 186, b.flags);
  }

  const NET_AT: seq<nat> := [0, 2, 6]

  lemma NetStored(n: NetHdr, b: OrderBody, k: nat)
    requires Sized(b) && SizedNet(n) && k < 3
    ensures Stored(StagedPacket(Little, n, b), NET_AT[k], NetHdrFields(n)[k])
  {
    PacketPlacement(Little, n, b);
    NetKinds(n);
    OffsetsByStep(NET_HDR, NET_AT);
    hide StagedPacket, Sized, SizedNet, Encode, EncodeField, Offsets, Kinds, BodyBytes, NetHdrFields;
    FieldIsAtOffset(Little, NetHdrFields(n), k);
    var at, width := NET_AT[k], |EncodeField(Little, NetHdrFields(n)[k])|;
    FrontSlice(Encode(Little, NetHdrFields(n)), BodyBytes(Little, b), at, at + width);
  }

  lemma FrontSlice(a: seq<byte>, b: seq<byte>, i: nat, j: nat)
    requires i <= j <= |a|
    ensures j <= |a + b| && (a + b)[i..j] == a[i..j]
  {
  }

  lemma NetBytes(n: NetHdr, b: OrderBody)
    requires Sized(b) && SizedNet(n)
    ensures NetOnWire(StagedPacket(Little, n, b), n)
  {
    NetStored(n, b, 0); NetStored(n, b, 1); NetStored(n, b, 2);
    hide StagedPacket, Sized, SizedNet, Int16At, Int32At, BytesAt, Stored, I16, I32;
    var p := StagedPacket(Little, n, b);
    Stored16(p, 0, n.sMessageLength); Stored32(p, 2, n.iSeqNum); StoredBytes(p, 6, n.cChecksum);
  }

  /** Each of the 67 named fields stands, low byte first, at its documented byte of the packet. */
  lemma PacketOnWire(n: NetHdr, b: OrderBody)
    requires Sized(b) && SizedNet(n)
    ensures OnWire(StagedPacket(Little, n, b), n, b)
  {
    hide StagedPacket, Sized, SizedNet, NetOnWire, HeaderOnWire, HeadOnWire, ContractOnWire, MiddleOnWire, FlagsOnWire;
    hide TailOnWire;
    PacketPlacement(Little, n, b);
    NetBytes(n, b); HeaderBytes(n, b); HeadBytes(n, b); ContractBytes(n, b); MiddleBytes(n, b); FlagsBytes(n, b);
    TailBytes(n, b);
  }
}
