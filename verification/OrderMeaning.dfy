/**
 What the fields of a packed order say about its columns, with the codes of the exchange written
 out.
 */
module OrderMeaning {
  import opened Bytes
  import opened Text
  import opened Models
  import opened Layout
  import opened Packing
  import opened Wire
  import PackingHistory
  import Structs
  import TypeConversion

  // ---- how columns show in fields ----

  /** The text in capitals, cut or filled with blanks. */
  predicate Spells(field: seq<byte>, width: nat, text: seq<byte>) {
    && |field| == width
    && forall i :: 0 <= i < width ==>
                     field[i] == if i >= |text| then 32 else if 97 <= text[i] <= 122 then text[i] - 32 else text[i]
  }

  predicate Filled(field: seq<byte>, width: nat, b: byte) {
    |field| == width && forall i :: 0 <= i < width ==> field[i] == b
  }

  /** The low 16 or 32 bits of a number. */
  predicate Low16(v: int16, x: int) {
    (v - x) % 0x1_0000 == 0
  }

  predicate Low32(v: int32, x: int) {
    (v - x) % 0x1_0000_0000 == 0
  }

  // ---- the parts of the message ----

  predicate NetMeans(n: NetHdr, issue: Issue) {
    n.sMessageLength == 16 && n.iSeqNum == issue.seqNum && n.cChecksum == issue.digest[..16]
  }

  /** An order request of 316 bytes from the trader of the pipe. */
  predicate HeaderMeans(h: IntHeader, o: Order) {
    && h.siTransactionCode == 2000 && h.siMessageLength == 316 && h.liLogTime == 0 && h.siErrorCode == 0
    && Atoi(TrimSpace(o.pipe.trdrId)).Some? && Low32(h.liTraderId, Atoi(TrimSpace(o.pipe.trdrId)).value)
    && Filled(h.cAlphaChar, 2, 32) && Filled(h.cFiller2, 8, 32)
    && h.cTimeStamp1 == h.cTimeStamp2 == [48, 0, 0, 0, 0, 0, 0, 0]
  }

  /** The letter of the user's type: T for a trader, M for a corporate and B for a branch manager. */
  predicate HeadMeans(h: OrderHead, o: Order) {
    && h.cParticipantType == 67 && h.lTokenNo == o.contract.tokenId
    && (h.cModifiedCancelledBy == 84 <==> o.pipe.userTyp == 0)
    && (h.cModifiedCancelledBy == 77 <==> o.pipe.userTyp == 4)
    && (h.cModifiedCancelledBy == 66 <==> o.pipe.userTyp == 5) && o.pipe.userTyp in {0, 4, 5}
    && h.cFiller1 == h.cFiller2 == 32 && Filled(h.cFiller3, 4, 32)
    && h.siCompetitorPeriod == h.siSolicitorPeriod == h.siReasonCode == 0
  }

  /** The symbol begins with `INDIAVIX`. */
  predicate Volatility(symbol: seq<byte>) {
    [73, 78, 68, 73, 65, 86, 73, 88] <= symbol
  }

  /** `FUTIDX`, `FUTIVX`, `OPTIDX`, `OPTIVX` for index contracts and `STK` for stocks. */
  predicate NameMeans(name: seq<byte>, c: NseContract) {
    && (name == [70, 85, 84, 73, 68, 88] <==> c.ctgryIndstk == "I" && c.prdTyp == "F" && !Volatility(c.symbol))
    && (name == [70, 85, 84, 73, 86, 88] <==> c.ctgryIndstk == "I" && c.prdTyp == "F" && Volatility(c.symbol))
    && (name == [79, 80, 84, 73, 68, 88] <==> c.ctgryIndstk == "I" && c.prdTyp == "O" && !Volatility(c.symbol))
    && (name == [79, 80, 84, 73, 86, 88] <==> c.ctgryIndstk == "I" && c.prdTyp == "O" && Volatility(c.symbol))
    && (name == [83, 84, 75, 0, 0, 0] <==> c.ctgryIndstk == "S" && c.prdTyp in {"F", "O"})
  }

  /** The code shows the option type and then the exercise type of an option, X where there is none. */
  predicate DescriptorMeans(d: ContractDesc, c: NseContract) {
    && c.prdTyp in {"F", "O"} && c.ctgryIndstk in {"I", "S"} && NameMeans(d.cInstrumentName, c)
    && Spells(d.cSymbol, 10, c.symbol)
    && c.expiry.Some? && Low32(d.liExpiryDate, c.expiry.value + 315513000)
    && (c.prdTyp == "F" ==> d.liStrikePrice == -1) && (c.prdTyp == "O" ==> d.liStrikePrice == c.strikePrc)
    && |d.cOptionType| == 2
    && d.cOptionType[0] == (if c.prdTyp == "O" && c.optTyp != [] then c.optTyp[0] else 88)
    && d.cOptionType[1] == (if c.prdTyp == "O" && c.exrcTyp != [] then c.exrcTyp[0] else 88)
    && Low16(d.siCaLevel, c.caLvl)
  }

  /** A market order of the regular lot: 1 buys, 2 sells. */
  predicate SideMeans(m: OrderMiddle, o: Order) {
    && (m.siBuySellIndicator == 1 <==> o.order.ordrFlw == "B")
    && (m.siBuySellIndicator == 2 <==> o.order.ordrFlw == "S")
    && m.siBookType == 1 && m.siOrderType == 0 && m.dOrderNumber == 0 && m.liPrice == 0
    && m.liTriggerPrice == o.xchng.stpLssTgr
  }

  function Smaller(a: int, b: int): int {
    if a < b then a else b
  }

  /** What is still to be traded of the request; the rest counts against the smaller order quantity. */
  predicate VolumesMean(m: OrderMiddle, o: Order) {
    && m.liDisclosedVolume == m.liDisclosedVolumeRemaining == o.xchng.dsclsdQty
    && Low32(m.liVolume, o.xchng.ordTotQty - o.order.exctdQty)
    && Low32(m.liTotalVolumeRemaining, Smaller(o.xchng.ordTotQty, o.order.ordTotQty) - o.order.exctdQty)
    && m.liVolumeFilledToday == o.order.exctdQtyDay && m.liMinimumFillAonVolume == 0
  }

  /** Only a `D` order has a date; one that does not parse leaves the `date` of an earlier order. */
  predicate DateMeans(after: int32, o: Order, date: int32) {
    && (o.xchng.ordTyp == "T" || o.xchng.ordTyp == "I" ==> after == 0)
    && (o.xchng.ordTyp == "D" && o.xchng.validDate.Some? ==> Low32(after, o.xchng.validDate.value))
    && (o.xchng.ordTyp == "D" && o.xchng.validDate.None? ==> after == date)
  }

  predicate MiddleMeans(m: OrderMiddle, o: Order, date: int32) {
    && SideMeans(m, o) && VolumesMean(m, o) && DateMeans(m.liGoodTillDate, o, date)
    && m.liEntryDateTime == m.liLastModified == 0
    && Spells(m.cAccountNumber, 10, o.order.clnMtchAccnt)
    && Filled(m.cCounterPartyBrokerId, 5, 32) && m.cFiller4 == m.cFiller6 == m.cCloseoutFlg == 32
    && Filled(m.cFiller5, 2, 32)
  }

  /** Stop-loss always, day exactly for `T`, immediate-or-cancel exactly for `I`, and no other flag. */
  predicate FlagsMean(flags: bv16, ordTyp: string) {
    && flags & 0x0004 != 0
    && (flags & 0x0010 != 0 <==> ordTyp == "T") && (flags & 0x0040 != 0 <==> ordTyp == "I")
    && flags & 0xFFAB == 0
  }

  /** A non-resident settles for himself, a broker's own order for nobody, any other for the broker. */
  predicate SettlorMeans(t: OrderTail, o: Order) {
    && o.custType.Some?
    && (o.custType.value == "NRI" ==> Spells(t.cSettlor, 12, o.order.settlor))
    && (o.custType.value != "NRI" && o.order.proCliInd == "P" ==> Filled(t.cSettlor, 12, 32))
    && (o.custType.value != "NRI" && o.order.proCliInd != "P" ==> Spells(t.cSettlor, 12, o.pipe.brkrId))
    && (t.siProClientIndicator == 2 <==> o.custType.value != "NRI" && o.order.proCliInd == "P")
    && t.siProClientIndicator in {1, 2}
  }

  /** The source flag decides before the program flag, and that before the id of the order. */
  predicate AlgoMeans(t: OrderTail, o: Order) {
    var algo, id := (t.lAlgoId, t.siAlgoCategory), o.order.algoId;
    && (o.order.sourceFlg == 'G' ==> algo == (98816, 1))
    && (o.order.sourceFlg != 'G' ==>
          && (o.prgmFlg == 'A' ==> algo == (24264, 99)) && (o.prgmFlg == 'T' ==> algo == (37383, 1))
          && (o.prgmFlg == 'Z' ==> algo == (82686, 1)) && (o.prgmFlg == 'G' ==> algo == (89385, 1)))
    && (o.prgmFlg !in {'A', 'T', 'Z', 'G'} ==> |id| >= 51 && Atoi(id[..51]).Some?)
    && (o.prgmFlg !in {'A', 'T', 'Z', 'G'} && o.order.sourceFlg != 'G' ==>
          Low32(t.lAlgoId, Atoi(id[..51]).value) && t.siAlgoCategory == 0)
  }

  /**
   Ten bytes of the PAN are trimmed and put, in capitals, over the field of the order before. A
   trimmed PAN that fits is thus spelled out up to NULs.
   */
  predicate PanMeans(field: seq<byte>, panNo: seq<byte>, before: seq<byte>) {
    && |field| == |before| == 10 && PanShows(field, TrimSpace(Pad(panNo, 10)), before)
    && (|panNo| <= 10 && Trimmed(panNo) ==> PanShows(field, panNo + Repeat(NUL, 10 - |panNo|), before))
  }

  predicate PanShows(field: seq<byte>, text: seq<byte>, before: seq<byte>)
    requires |before| == |field| == 10
  {
    if text == [42] then Filled(field, 10, 32)
    else forall i :: 0 <= i < 10 ==>
                       field[i] == if i >= |text| then before[i]
                                   else if 97 <= text[i] <= 122 then text[i] - 32 else text[i]
  }

  predicate TailMeans(t: OrderTail, o: Order, pan: seq<byte>) {
    && SettlorMeans(t, o) && AlgoMeans(t, o) && PanMeans(t.cPan, o.order.panNo, pan)
    && Low16(t.siBranchId, o.pipe.brnchId) && Spells(t.cBrokerId, 5, o.pipe.brkrId)
    && Atoi(o.pipe.trdrId).Some? && Low32(t.liTraderId, Atoi(o.pipe.trdrId).value)
    && t.iOrderSeq == o.xchng.ordSeq && t.cOpenClose == 79 && t.cCoverUncover == 86 && t.cGiveupFlag == 80
    && t.siSettlementPeriod == 0 && t.dNnfField == t.dFiller19 == 0 && t.llLastactivityref == 0
    && Filled(t.cRemarks, 24, 0) && Filled(t.cReserved, 52, 32)
  }

  predicate BodyMeans(b: OrderBody, o: Order, pan: seq<byte>, date: int32) {
    && HeaderMeans(b.header, o) && HeadMeans(b.head, o) && DescriptorMeans(b.contract, o.contract)
    && MiddleMeans(b.middle, o, date) && FlagsMean(b.flags, o.xchng.ordTyp) && TailMeans(b.tail, o, pan)
  }

  // ---- what is packed says so ----

  lemma FormatSpells(width: nat, text: seq<byte>)
    ensures Spells(TypeConversion.FormatSymbol(width, text), width, text)
  {
  }

  lemma HeaderSays(o: Order)
    requires Packable(o)
    ensures HeaderMeans(HeaderOf(o), o)
  {
    hide Atoi, TrimSpace, Descriptor, Algo;
    assert Structs.Stamp() == [48, 0, 0, 0, 0, 0, 0, 0];
  }

  lemma HeadSays(o: Order)
    requires Packable(o)
    ensures HeadMeans(HeadOf(o), o)
  {
    hide Atoi, TrimSpace, Descriptor, Algo;
  }

  lemma NameSays(c: NseContract)
    requires InstrumentName(c).Some?
    ensures NameMeans(InstrumentName(c).value, c)
  {
    var name := InstrumentName(c).value;
    assert name == [name[0], name[1], name[2], name[3], name[4], name[5]];
  }

  lemma DescriptorSays(c: NseContract)
    requires Descriptor(c).Some?
    ensures DescriptorMeans(Descriptor(c).value, c)
  {
    NameSays(c);
    FormatSpells(10, c.symbol);
    hide InstrumentName, NameMeans, Spells, TypeConversion.FormatSymbol;
  }

  lemma MiddleSays(o: Order, date: int32)
    requires Packable(o)
    ensures MiddleMeans(MiddleOf(o, date), o, date)
  {
    FormatSpells(10, o.order.clnMtchAccnt);
    hide Atoi, TrimSpace, Descriptor, Algo, Spells, TypeConversion.FormatSymbol;
  }

  lemma FlagsSay(ordTyp: string)
    ensures FlagsMean(Structs.OrderFlags(ordTyp), ordTyp)
  {
  }

  lemma SettlorIs(o: Order)
    requires o.custType.Some?
    ensures var text := if o.custType.value == "NRI" then o.order.settlor
                        else if o.order.proCliInd == "P" then [32] else o.pipe.brkrId;
            Spells(Settlor(o), 12, text)
  {
    FormatSpells(12, o.order.settlor); FormatSpells(12, o.pipe.brkrId); FormatSpells(12, [32]);
    hide TypeConversion.FormatSymbol, Spells;
  }

  lemma SettlorSays(o: Order, pan: seq<byte>)
    requires Packable(o)
    ensures SettlorMeans(TailOf(o, pan), o)
  {
    hide Atoi, TrimSpace, Descriptor, Algo, PanText, Copy, TypeConversion.FormatSymbol, Settlor, Repeat;
    SettlorIs(o);
    var t := TailOf(o, pan);
    assert t.cSettlor == Settlor(o);
  }

  lemma AlgoIdIsLong(id: seq<byte>)
    requires Atoi(AlgoText(id)).Some?
    ensures |id| >= 51 && AlgoText(id) == id[..51]
  {
    var padded := Pad(id, 51);
    var trimmed := TrimSpace(padded);
    assert Trimmed(Pad(trimmed, 51));
    assert AlgoText(id)[50] != NUL;
    assert |trimmed| == 51;
    assert trimmed == padded;
    assert Pad(trimmed, 51) == trimmed;
    assert padded == id[..51];
  }

  lemma AlgoSays(o: Order, pan: seq<byte>)
    requires Packable(o)
    ensures AlgoMeans(TailOf(o, pan), o)
  {
    hide TrimSpace, Descriptor, PanText, Copy, TypeConversion.FormatSymbol, Atoi;
    if o.prgmFlg !in {'A', 'T', 'Z', 'G'} {
      AlgoIdIsLong(o.order.algoId);
    }
  }

  lemma {:induction false} UpperTrimLeft(s: seq<byte>)
    ensures TrimLeft(ToUpper(s)) == ToUpper(TrimLeft(s))
  {
    if s != [] && IsSpace(s[0]) {
      assert ToUpper(s)[1..] == ToUpper(s[1..]);
      UpperTrimLeft(s[1..]);
    }
  }

  lemma {:induction false} UpperTrimRight(s: seq<byte>)
    ensures TrimRight(ToUpper(s)) == ToUpper(TrimRight(s))
  {
    if s != [] && IsSpace(s[|s| - 1]) {
      assert ToUpper(s)[..|s| - 1] == ToUpper(s[..|s| - 1]);
      UpperTrimRight(s[..|s| - 1]);
    }
  }

  lemma PanTextIs(panNo: seq<byte>)
    ensures var text := TrimSpace(Pad(panNo, 10));
            PanText(panNo) == if text == [42] then Repeat(SPACE, 10) else ToUpper(text)
  {
    var padded := Pad(panNo, 10);
    UpperTrimLeft(padded);
    UpperTrimRight(TrimLeft(padded));
    hide TrimLeft, TrimRight;
    var text := TrimSpace(padded);
    assert TrimSpace(ToUpper(padded)) == ToUpper(text);
    assert text != [] ==> ToUpper(text)[0] == UpperByte(text[0]);
  }

  lemma CopiedPan(text: seq<byte>, before: seq<byte>)
    requires |before| == 10
    ensures PanShows(Copy(before, if text == [42] then Repeat(SPACE, 10) else ToUpper(text)), text, before)
  {
  }

  lemma TrimmedPan(panNo: seq<byte>)
    requires |panNo| <= 10 && Trimmed(panNo)
    ensures TrimSpace(Pad(panNo, 10)) == panNo + Repeat(NUL, 10 - |panNo|)
  {
    assert Pad(panNo, 10) == panNo + Repeat(NUL, 10 - |panNo|);
    assert Trimmed(Pad(panNo, 10));
  }

  lemma PanSays(panNo: seq<byte>, before: seq<byte>)
    requires |before| == 10
    ensures PanMeans(Copy(before, PanText(panNo)), panNo, before)
  {
    PanTextIs(panNo);
    CopiedPan(TrimSpace(Pad(panNo, 10)), before);
    if |panNo| <= 10 && Trimmed(panNo) {
      TrimmedPan(panNo);
    }
    hide PanText, TrimSpace, PanShows, Trimmed, ToUpper;
  }

  lemma TailSays(o: Order, pan: seq<byte>)
    requires Packable(o) && |pan| == 10
    ensures TailMeans(TailOf(o, pan), o, pan)
  {
    hide TrimSpace, Atoi, Descriptor, PanText, Copy, TypeConversion.FormatSymbol, SettlorMeans, AlgoMeans, PanMeans;
    hide Spells;
    SettlorSays(o, pan);
    AlgoSays(o, pan);
    PanSays(o.order.panNo, pan);
    FormatSpells(5, o.pipe.brkrId);
  }

  /** Every field of the body of a packed order has the value its columns call for. */
  lemma BodySays(o: Order, pan: seq<byte>, date: int32)
    requires Packable(o) && |pan| == 10
    ensures BodyMeans(BodyOf(o, pan, date), o, pan, date)
  {
    HeaderSays(o);
    HeadSays(o);
    DescriptorSays(o.contract);
    MiddleSays(o, date);
    FlagsSay(o.xchng.ordTyp);
    TailSays(o, pan);
    hide HeaderMeans, HeadMeans, DescriptorMeans, MiddleMeans, FlagsMean, TailMeans, HeaderOf, HeadOf, MiddleOf, TailOf;
  }

  lemma NetSays(issue: Issue)
    ensures NetMeans(NetHdrOf(issue), issue)
  {
  }

  // ---- which orders pack, and what they leave behind ----

  /** The program flag names an algorithm itself, or the first 51 bytes of the id are a number. */
  predicate HasAlgorithm(o: Order) {
    o.prgmFlg in {'A', 'T', 'Z', 'G'} || (|o.order.algoId| >= 51 && Atoi(o.order.algoId[..51]).Some?)
  }

  /** A number has no white space around it. */
  lemma NumberIsTrimmed(s: seq<byte>)
    requires Atoi(s).Some?
    ensures Trimmed(s)
  {
    var signed := s[0] == 43 || s[0] == 45;
    if !signed {
      DigitsExactly(s);
    }
  }

  lemma AlgoIdNumber(id: seq<byte>)
    ensures Atoi(AlgoText(id)).Some? <==> |id| >= 51 && Atoi(id[..51]).Some?
    ensures AlgoText(id) != [42]
  {
    hide Atoi;
    PackingHistory.AlgoSentinelNeverSeen(id);
    if |id| >= 51 && Atoi(id[..51]).Some? {
      NumberIsTrimmed(id[..51]);
      assert Pad(id, 51) == id[..51];
    }
    if Atoi(AlgoText(id)).Some? {
      AlgoIdIsLong(id);
    }
  }

  /** Exactly the orders that pack, the sequence number aside. */
  lemma PackableExactly(o: Order)
    ensures Packable(o) <==>
            && Atoi(o.pipe.trdrId).Some? && o.pipe.userTyp in {0, 4, 5} && o.custType.Some? && HasAlgorithm(o)
            && o.contract.prdTyp in {"F", "O"} && o.contract.ctgryIndstk in {"I", "S"} && o.contract.expiry.Some?
            && o.xchng.reqTyp == "N" && o.xchng.slmFlg == "M" && o.order.ordrFlw in {"B", "S"}
            && o.xchng.ordTyp in {"T", "I", "D"}
  {
    AlgoIdNumber(o.order.algoId);
    if Atoi(o.pipe.trdrId).Some? {
      NumberIsTrimmed(o.pipe.trdrId);
    }
    hide Atoi, TrimSpace, AlgoText, Descriptor;
  }

  /** The packet of an order that packs carries that order. */
  lemma PacketSays(m: Memory, o: Order, issue: Issue) returns (n: NetHdr, b: OrderBody)
    requires Packs(o, issue) && |m.pan| == 10
    ensures var packet := AfterPack(m, o, issue).packet;
            packet.lMsgType == 2000 && OnWire(packet.stExchMsgData, n, b) && NetMeans(n, issue)
            && BodyMeans(b, o, m.pan, m.date)
  {
    n, b := NetHdrOf(issue), BodyOf(o, m.pan, m.date);
    hide BodyOf, Packable, ReachesDate, StagedPacket, Sized, SizedNet, OnWire, BodyMeans, PanText, Copy, GoodTillDate;
    NetSays(issue);
    BodySays(o, m.pan, m.date);
    BodyOfSized(o, m.pan, m.date);
    PacketOnWire(n, b);
  }

  /** The order comes as far as the good-till date. */
  predicate ComesToItsDate(o: Order) {
    && Atoi(TrimSpace(o.pipe.trdrId)).Some? && o.pipe.userTyp in {0, 4, 5}
    && o.contract.prdTyp in {"F", "O"} && o.contract.ctgryIndstk in {"I", "S"} && o.contract.expiry.Some?
    && (o.xchng.reqTyp == "N" || o.order.xchngAck.Some?)
    && o.xchng.slmFlg == "M" && o.order.ordrFlw in {"B", "S"} && o.xchng.ordTyp in {"T", "I", "D"}
  }

  /** An order that does not pack leaves the packet and the PAN alone, but perhaps not the date. */
  lemma MemorySays(m: Memory, o: Order, issue: Issue)
    requires |m.pan| == 10
    ensures var after := AfterPack(m, o, issue);
            && (!Packs(o, issue) ==> after.packet == m.packet)
            && (if Packable(o) then PanMeans(after.pan, o.order.panNo, m.pan) else after.pan == m.pan)
            && (if ComesToItsDate(o) then DateMeans(after.date, o, m.date) else after.date == m.date)
  {
    hide Packable, StagedPacket, BodyOf, PanMeans, PanText, Copy, Atoi, TrimSpace, Descriptor;
    PanSays(o.order.panNo, m.pan);
  }
}
