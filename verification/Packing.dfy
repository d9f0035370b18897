/** Packing of one ordinary order into the shared structs, and from them into the queue packet. */
module Packing {
  import opened Wrappers
  import opened Bytes
  import opened Text
  import opened Codec
  import opened Models
  import opened Layout
  import opened Structs
  import TypeConversion
  import OrderConversion

  const BOARD_LOT_IN := 2000
  const REGULAR_LOT_ORDER := 1
  const NSE_BUY := 1
  const NSE_SELL := 2
  const NSE_CLIENT := 1
  const NSE_PRO := 2

  /** The exchange-book columns that reach the message; `validDate` is the valid date in seconds, if it parses. */
  datatype XchngFields = XchngFields(
    reqTyp: string, slmFlg: string, ordTyp: string, dsclsdQty: int32, ordTotQty: int32, stpLssTgr: int32, ordSeq: int32,
    validDate: Option<int>)

  /** The order-book columns that reach the message; `xchngAck` is the acknowledgement as a float, if it parses. */
  datatype OrderFields = OrderFields(
    clnMtchAccnt: seq<byte>, ordrFlw: string, ordTotQty: int32, exctdQty: int32, exctdQtyDay: int32,
    settlor: seq<byte>, proCliInd: string, xchngAck: Option<bits64>, panNo: seq<byte>, algoId: seq<byte>,
    sourceFlg: char)

  datatype PipeMaster = PipeMaster(trdrId: seq<byte>, brnchId: int64, brkrId: seq<byte>, userTyp: int)

  /** `expiry` is the expiry date in seconds, if it parses. */
  datatype NseContract = NseContract(
    prdTyp: string, ctgryIndstk: string, symbol: seq<byte>, caLvl: int32, tokenId: int32, expiry: Option<int>,
    exrcTyp: seq<byte>, optTyp: seq<byte>, strikePrc: int32)

  /** One order as the packer sees it, with the answer of its one query (`custType`, `None` on error). */
  datatype Order = Order(
    xchng: XchngFields, order: OrderFields, pipe: PipeMaster, contract: NseContract, prgmFlg: char,
    custType: Option<string>)

  // ---- what a packed order says ----

  function UserType(userTyp: int): Option<byte> {
    match userTyp
    case 0 => Some(84)  // 'T', trader
    case 4 => Some(77)  // 'M', corporate manager
    case 5 => Some(66)  // 'B', branch manager
    case _ => None
  }

  const FUT: seq<byte> := [70, 85, 84]
  const OPT: seq<byte> := [79, 80, 84]
  const STK: seq<byte> := [83, 84, 75]
  const INDIAVIX: seq<byte> := [73, 78, 68, 73, 65, 86, 73, 88]
  const X_MARK: byte := 88

  /** For stocks the product prefix is overwritten, so futures and options share the name `STK`. */
  function InstrumentName(c: NseContract): (r: Option<seq<byte>>)
    ensures r.Some? <==> c.prdTyp in {"F", "O"} && c.ctgryIndstk in {"I", "S"}
    ensures r.Some? ==> |r.value| == LEN_INSTRUMENT_NAME
  {
    if c.prdTyp != "F" && c.prdTyp != "O" then None
    else if c.ctgryIndstk == "I" then
      Some((if c.prdTyp == "F" then FUT else OPT) + [73, if INDIAVIX <= c.symbol then 86 else 68, X_MARK])
    else if c.ctgryIndstk == "S" then Some(STK + Repeat(NUL, 3))
    else None
  }

  function FirstOr(s: seq<byte>, default: byte): byte {
    if s != [] then s[0] else default
  }

  function Descriptor(c: NseContract): (r: Option<ContractDesc>)
    ensures r.Some? <==> c.prdTyp in {"F", "O"} && c.ctgryIndstk in {"I", "S"} && c.expiry.Some?
    ensures r.Some? ==> SizedContract(r.value)
  {
    match (InstrumentName(c), TypeConversion.LongToTimeArr(c.expiry))
    case (Some(name), Some(date)) =>
      Some(ContractDesc(
             name, TypeConversion.FormatSymbol(LEN_SYMBOL_NSE, c.symbol), date,
             if c.prdTyp == "F" then -1 else c.strikePrc,
             if c.prdTyp == "O" then [FirstOr(c.optTyp, X_MARK), FirstOr(c.exrcTyp, X_MARK)] else [X_MARK, X_MARK],
             Wrap16(c.caLvl)))
    case _ => None
  }

  /** The algorithm id left in its 51-byte array, as the default branch reads it. */
  function AlgoText(algoId: seq<byte>): seq<byte> {
    TrimSpace(Pad(TrimSpace(Pad(algoId, 51)), 51))
  }

  function ProgramAlgo(prgmFlg: char, algoId: seq<byte>): Option<(int32, int16)> {
    match prgmFlg
    case 'A' => Some((24264, 99))
    case 'T' => Some((37383, 1))
    case 'Z' => Some((82686, 1))
    case 'G' => Some((89385, 1))
    case _ =>
      if AlgoText(algoId) != [STAR] then
        match Atoi(AlgoText(algoId))
        case None => None
        case Some(v) => Some((Wrap32(v), 0))
      else Some((0, 0))
  }

  function Algo(o: Order): (r: Option<(int32, int16)>) {
    match ProgramAlgo(o.prgmFlg, o.order.algoId)
    case None => None
    case Some(a) => Some(if o.order.sourceFlg == 'G' then (98816, 1) else a)
  }

  predicate Side(ordrFlw: string) {
    ordrFlw == "B" || ordrFlw == "S"
  }

  predicate OrderType(ordTyp: string) {
    ordTyp == "T" || ordTyp == "I" || ordTyp == "D"
  }

  /** What the packer demands of an order, the sequence number aside. */
  predicate Packable(o: Order) {
    && Atoi(TrimSpace(o.pipe.trdrId)).Some? && Atoi(o.pipe.trdrId).Some?
    && UserType(o.pipe.userTyp).Some?
    && Descriptor(o.contract).Some?
    && o.xchng.reqTyp == "N" && o.xchng.slmFlg == "M" && Side(o.order.ordrFlw)
    && OrderType(o.xchng.ordTyp)
    && o.custType.Some?
    && Algo(o).Some?
  }

  function HeaderOf(o: Order): IntHeader
    requires Packable(o)
  {
    IntHeader(BOARD_LOT_IN, 0, Repeat(SPACE, LEN_ALPHA_CHAR), Wrap32(Atoi(TrimSpace(o.pipe.trdrId)).value), 0,
              Repeat(SPACE, 8), Stamp(), Stamp(), 316)
  }

  function HeadOf(o: Order): (h: OrderHead)
    requires UserType(o.pipe.userTyp).Some?
    ensures SizedHead(h)
  {
    OrderHead(67, SPACE, 0, 0, UserType(o.pipe.userTyp).value, SPACE, 0, Repeat(SPACE, 4), o.contract.tokenId)
  }

  /** A `D` order whose date does not parse keeps the date that was there. */
  function GoodTillDate(o: Order, date: int32): int32 {
    if o.xchng.ordTyp != "D" then 0
    else match o.xchng.validDate case None => date case Some(t) => Wrap32(t)
  }

  function MiddleOf(o: Order, date: int32): (m: OrderMiddle)
    ensures SizedMiddle(m)
  {
    var left := Wrap32(o.xchng.ordTotQty - o.order.exctdQty);
    OrderMiddle(
      Repeat(SPACE, LEN_BROKER_ID), SPACE, Repeat(SPACE, 2), SPACE, SPACE, 0, 0,
      TypeConversion.FormatSymbol(LEN_ACCOUNT_NUMBER, o.order.clnMtchAccnt), REGULAR_LOT_ORDER,
      if o.order.ordrFlw == "B" then NSE_BUY else NSE_SELL, o.xchng.dsclsdQty, o.xchng.dsclsdQty,
      if o.xchng.ordTotQty > o.order.ordTotQty then Wrap32(o.order.ordTotQty - o.order.exctdQty) else left,
      left, o.order.exctdQtyDay, 0, o.xchng.stpLssTgr, GoodTillDate(o, date), 0, 0, 0)
  }

  function Settlor(o: Order): seq<byte>
    requires o.custType.Some?
  {
    TypeConversion.FormatSymbol(
      LEN_SETTLOR,
      if o.custType.value == "NRI" then o.order.settlor else if o.order.proCliInd == "P" then [SPACE] else o.pipe.brkrId)
  }

  /** The PAN as it is copied over the previous one, from a 10-byte NUL-padded array. */
  function PanText(panNo: seq<byte>): (r: seq<byte>)
    ensures |r| <= LEN_PAN
  {
    var t := TrimSpace(ToUpper(Pad(panNo, LEN_PAN)));
    if t != [STAR] then t else Repeat(SPACE, LEN_PAN)
  }

  function TailOf(o: Order, pan: seq<byte>): (t: OrderTail)
    requires Atoi(o.pipe.trdrId).Some? && o.custType.Some? && Algo(o).Some?
    ensures |pan| == LEN_PAN ==> SizedTail(t)
    ensures t.cPan == Copy(pan, PanText(o.order.panNo))
  {
    OrderTail(
      Wrap16(o.pipe.brnchId), Wrap32(Atoi(o.pipe.trdrId).value), TypeConversion.FormatSymbol(LEN_BROKER_ID, o.pipe.brkrId),
      Repeat(NUL, LEN_REMARKS), 79, Settlor(o),
      if o.custType.value != "NRI" && o.order.proCliInd == "P" then NSE_PRO else NSE_CLIENT,
      0, 86, 80, o.xchng.ordSeq, 0, 0, Copy(pan, PanText(o.order.panNo)), Algo(o).value.0, Algo(o).value.1, 0,
      Repeat(SPACE, 52))
  }

  /** The whole message body; only the previous PAN bytes and good-till date can show through. */
  function BodyOf(o: Order, pan: seq<byte>, date: int32): OrderBody
    requires Packable(o)
  {
    OrderBody(HeaderOf(o), HeadOf(o), Descriptor(o.contract).value, MiddleOf(o, date), OrderFlags(o.xchng.ordTyp),
              TailOf(o, pan))
  }

  lemma BodyOfSized(o: Order, pan: seq<byte>, date: int32)
    requires Packable(o) && |pan| == LEN_PAN
    ensures Sized(BodyOf(o, pan, date))
  {
  }

  // ---- the state that outlives an order ----

  datatype QPacket = QPacket(lMsgType: int64, stExchMsgData: seq<byte>)

  const EMPTY_PACKET := QPacket(0, Repeat(NUL, 338))

  /** All of the shared structs that a later order can see: two fields and the queue packet. */
  datatype Memory = Memory(pan: seq<byte>, date: int32, packet: QPacket)

  const FRESH := Memory(Repeat(NUL, LEN_PAN), 0, EMPTY_PACKET)

  /** The sequence number drawn for the order (-1 on error) and the hexadecimal digest of the request. */
  datatype Issue = Issue(seqNum: int32, digest: Digest)

  type Digest = d: seq<byte> | |d| == 32 witness Repeat(NUL, 32)

  function IssueOf(rows: map<TypeConversion.SeqKey, int>, key: TypeConversion.SeqKey,
                   faults: TypeConversion.DrawFaults, digest: Digest): Issue
  {
    Issue(TypeConversion.Draw(rows, key, faults).1, digest)
  }

  function NetHdrOf(issue: Issue): (n: NetHdr)
    ensures SizedNet(n)
  {
    NetHdr(16, issue.seqNum, issue.digest[..16])
  }

  /** The order gets as far as the good-till date before it can fail. */
  predicate ReachesDate(o: Order) {
    && Atoi(TrimSpace(o.pipe.trdrId)).Some? && UserType(o.pipe.userTyp).Some? && Descriptor(o.contract).Some?
    && ReachesMiddleDate(o)
  }

  predicate ReachesMiddleDate(o: Order) {
    && (o.xchng.reqTyp == "N" || o.order.xchngAck.Some?)
    && o.xchng.slmFlg == "M" && Side(o.order.ordrFlw) && OrderType(o.xchng.ordTyp)
  }

  predicate Packs(o: Order, issue: Issue) {
    Packable(o) && issue.seqNum != -1
  }

  function AfterPack(m: Memory, o: Order, issue: Issue): Memory {
    Memory(
      if Packable(o) then Copy(m.pan, PanText(o.order.panNo)) else m.pan,
      if ReachesDate(o) then GoodTillDate(o, m.date) else m.date,
      if Packs(o, issue)
      then QPacket(BOARD_LOT_IN, StagedPacket(Little, NetHdrOf(issue), BodyOf(o, m.pan, m.date)))
      else m.packet)
  }

  class ExchngPackLibMaster {
    const intHeader: StIntHeader
    const contractDesc: StContractDesc
    const orderFlag: StOrderFlags
    const oe: StOeReqres
    const netHdr: StNetHdr
    var stNetHeader: seq<byte>
    var stOeRes: seq<byte>
    var qPacket: QPacket

    ghost predicate Valid()
      reads this, intHeader, contractDesc, oe, netHdr
    {
      && intHeader.Valid() && contractDesc.Valid() && oe.Valid() && netHdr.Valid()
      && |stNetHeader| == 22 && |stOeRes| == 316 && |qPacket.stExchMsgData| == 338
    }

    ghost function Mem(): (m: Memory)
      reads this, oe
      ensures m.packet == qPacket
    {
      Memory(oe.tail.cPan, oe.middle.liGoodTillDate, qPacket)
    }

    constructor ()
      ensures Valid() && Mem() == FRESH
      ensures fresh(intHeader) && fresh(contractDesc) && fresh(orderFlag) && fresh(oe) && fresh(netHdr)
    {
      intHeader := new StIntHeader();
      contractDesc := new StContractDesc();
      orderFlag := new StOrderFlags();
      oe := new StOeReqres();
      netHdr := new StNetHdr();
      stNetHeader, stOeRes, qPacket := Repeat(NUL, 22), Repeat(NUL, 316), EMPTY_PACKET;
    }

    method PackHeader(trdrId: seq<byte>) returns (ok: bool)
      requires intHeader.Valid()
      modifies intHeader
      ensures intHeader.Valid()
      ensures ok <==> Atoi(TrimSpace(trdrId)).Some?
      ensures ok ==> intHeader.Rec() == IntHeader(
                       BOARD_LOT_IN, 0, Repeat(SPACE, LEN_ALPHA_CHAR), Wrap32(Atoi(TrimSpace(trdrId)).value), 0,
                       Repeat(SPACE, 8), Stamp(), Stamp(), 316)
    {
      hide Atoi, TrimSpace, Wrap32, Copy;
      var value := Atoi(TrimSpace(trdrId));
      if value.None? {
        return false;
      }
      TypeConversion.BlankSymbol(LEN_ALPHA_CHAR);
      Stamped(intHeader.cTimeStamp1);
      Stamped(intHeader.cTimeStamp2);
      CopyWhole(intHeader.cFiller2, Repeat(SPACE, 8));
      intHeader.liTraderId := Wrap32(value.value);
      intHeader.liLogTime := 0;
      intHeader.cAlphaChar := TypeConversion.CopyAndFormatSymbol(intHeader.cAlphaChar, LEN_ALPHA_CHAR, [SPACE]);
      intHeader.siTransactionCode := BOARD_LOT_IN;
      intHeader.cFiller2 := Copy(intHeader.cFiller2, Repeat(SPACE, 8));
      intHeader.siErrorCode := 0;
      intHeader.cTimeStamp1 := Copy(intHeader.cTimeStamp1, [ZERO]);
      intHeader.cTimeStamp2 := Copy(intHeader.cTimeStamp2, [ZERO]);
      intHeader.siMessageLength := 316;
      return true;
    }

    method PackInstrumentName(c: NseContract) returns (name: Option<seq<byte>>)
      ensures name == InstrumentName(c)
    {
      var instrumentName := Repeat(NUL, LEN_INSTRUMENT_NAME);
      match c.prdTyp {
        case "F" => instrumentName := Copy(instrumentName, FUT);
        case "O" => instrumentName := Copy(instrumentName, OPT);
        case _ => return None;
      }
      match c.ctgryIndstk {
        case "I" =>
          instrumentName := instrumentName[3 := 73];
          instrumentName := instrumentName[4 := if INDIAVIX <= c.symbol then 86 else 68];
          instrumentName := instrumentName[5 := X_MARK];
          assert instrumentName == InstrumentName(c).value;
        case "S" =>
          instrumentName := Copy(instrumentName, STK);
          assert instrumentName == InstrumentName(c).value;
        case _ => return None;
      }
      return Some(instrumentName);
    }

    method FnOrstonseCntrctDesc(c: NseContract) returns (res: int)
      requires contractDesc.Valid()
      modifies contractDesc
      ensures contractDesc.Valid()
      ensures res == if Descriptor(c).Some? then 0 else -1
      ensures res == 0 ==> contractDesc.Rec() == Descriptor(c).value
    {
      var instrumentName := PackInstrumentName(c);
      if instrumentName.None? {
        return -1;
      }
      contractDesc.cSymbol := TypeConversion.CopyAndFormatSymbol(contractDesc.cSymbol, LEN_SYMBOL_NSE, c.symbol);
      var date := TypeConversion.LongToTimeArr(c.expiry);
      if date.None? {
        return -1;
      }
      contractDesc.liExpiryDate := date.value;
      contractDesc.liStrikePrice := if c.prdTyp == "F" then -1 else c.strikePrc;
      if c.prdTyp == "O" {
        contractDesc.cOptionType := contractDesc.cOptionType[0 := if |c.optTyp| > 0 then c.optTyp[0] else X_MARK];
        contractDesc.cOptionType := contractDesc.cOptionType[1 := if |c.exrcTyp| > 0 then c.exrcTyp[0] else X_MARK];
      } else {
        contractDesc.cOptionType := contractDesc.cOptionType[0 := X_MARK];
        contractDesc.cOptionType := contractDesc.cOptionType[1 := X_MARK];
      }
      contractDesc.siCaLevel := Wrap16(c.caLvl);
      contractDesc.cInstrumentName := Copy(contractDesc.cInstrumentName, instrumentName.value);
      return 0;
    }

    method PackHead(userTyp: byte, tokenId: int32)
      requires oe.Valid()
      modifies oe
      ensures oe.Valid()
      ensures oe.head == OrderHead(67, SPACE, 0, 0, userTyp, SPACE, 0, Repeat(SPACE, 4), tokenId)
      ensures oe.tail == old(oe.tail).(llLastactivityref := 0) && oe.middle == old(oe.middle)
    {
      oe.tail := oe.tail.(llLastactivityref := 0);
      oe.head := oe.head.(cParticipantType := 67);
      oe.head := oe.head.(cFiller1 := SPACE);
      oe.head := oe.head.(siCompetitorPeriod := 0);
      oe.head := oe.head.(siSolicitorPeriod := 0);
      oe.head := oe.head.(cModifiedCancelledBy := userTyp);
      oe.head := oe.head.(cFiller2 := SPACE);
      oe.head := oe.head.(siReasonCode := 0);
      oe.head := oe.head.(cFiller3 := Repeat(SPACE, 4));
      oe.head := oe.head.(lTokenNo := tokenId);
    }

    /** Volumes and prices; fails on any book type but `M` and any side but `B` and `S`. */
    method PackMiddle(o: Order) returns (ok: bool)
      requires oe.Valid()
      modifies oe
      ensures oe.Valid() && oe.head == old(oe.head) && oe.tail == old(oe.tail)
      ensures ok <==> o.xchng.reqTyp == "N" && o.xchng.slmFlg == "M" && Side(o.order.ordrFlw)
                      && OrderType(o.xchng.ordTyp)
      ensures ok ==> oe.middle == MiddleOf(o, old(oe.middle.liGoodTillDate))
      ensures oe.middle.liGoodTillDate == if ReachesMiddleDate(o) then GoodTillDate(o, old(oe.middle.liGoodTillDate))
                                          else old(oe.middle.liGoodTillDate)
    {
      var m := oe.middle;
      TypeConversion.BlankSymbol(LEN_BROKER_ID);
      var broker := TypeConversion.CopyAndFormatSymbol(m.cCounterPartyBrokerId, LEN_BROKER_ID, [SPACE]);
      m := m.(cCounterPartyBrokerId := broker, cFiller4 := SPACE, cFiller5 := Repeat(SPACE, 2));
      m := m.(cCloseoutFlg := SPACE, cFiller6 := SPACE, siOrderType := 0);
      if o.xchng.reqTyp == "N" {
        m := m.(dOrderNumber := 0);
      } else if o.order.xchngAck.None? {
        oe.middle := m;
        return false;
      } else {
        m := m.(dOrderNumber := o.order.xchngAck.value);
      }
      var account := TypeConversion.CopyAndFormatSymbol(m.cAccountNumber, LEN_ACCOUNT_NUMBER, o.order.clnMtchAccnt);
      m := m.(cAccountNumber := account);
      oe.middle := m;
      if o.xchng.slmFlg != "M" {
        return false;
      }
      m := m.(siBookType := REGULAR_LOT_ORDER, liPrice := 0);
      oe.middle := m;
      match o.order.ordrFlw {
        case "B" => m := m.(siBuySellIndicator := NSE_BUY);
        case "S" => m := m.(siBuySellIndicator := NSE_SELL);
        case _ => return false;
      }
      m := PackVolumes(m, o);
      oe.middle := m;
      ok := PackDates(o);
    }

    method PackVolumes(before: OrderMiddle, o: Order) returns (m: OrderMiddle)
      ensures m == before.(
                     liDisclosedVolume := o.xchng.dsclsdQty, liDisclosedVolumeRemaining := o.xchng.dsclsdQty,
                     liVolume := Wrap32(o.xchng.ordTotQty - o.order.exctdQty),
                     liTotalVolumeRemaining :=
                       if o.xchng.ordTotQty > o.order.ordTotQty then Wrap32(o.order.ordTotQty - o.order.exctdQty)
                       else Wrap32(o.xchng.ordTotQty - o.order.exctdQty),
                     liVolumeFilledToday := o.order.exctdQtyDay, liTriggerPrice := o.xchng.stpLssTgr)
    {
      m := before.(liDisclosedVolume := o.xchng.dsclsdQty);
      m := m.(liDisclosedVolumeRemaining := m.liDisclosedVolume);
      m := m.(liVolume := Wrap32(o.xchng.ordTotQty - o.order.exctdQty));
      if o.xchng.ordTotQty > o.order.ordTotQty {
        m := m.(liTotalVolumeRemaining := Wrap32(o.order.ordTotQty - o.order.exctdQty));
      } else {
        m := m.(liTotalVolumeRemaining := Wrap32(o.xchng.ordTotQty - o.order.exctdQty));
      }
      m := m.(liVolumeFilledToday := o.order.exctdQtyDay);
      m := m.(liTriggerPrice := o.xchng.stpLssTgr);
    }

    method PackDates(o: Order) returns (ok: bool)
      modifies oe`middle
      ensures ok <==> OrderType(o.xchng.ordTyp) && o.xchng.reqTyp == "N"
      ensures ok ==> oe.middle == old(oe.middle).(
                                    liGoodTillDate := GoodTillDate(o, old(oe.middle.liGoodTillDate)),
                                    liEntryDateTime := 0, liLastModified := 0, liMinimumFillAonVolume := 0)
      ensures !ok ==> oe.middle == old(oe.middle).(liGoodTillDate := oe.middle.liGoodTillDate)
      ensures oe.middle.liGoodTillDate == if OrderType(o.xchng.ordTyp)
                                          then GoodTillDate(o, old(oe.middle.liGoodTillDate))
                                          else old(oe.middle.liGoodTillDate)
    {
      match o.xchng.ordTyp {
        case "T" => oe.middle := oe.middle.(liGoodTillDate := 0);
        case "I" => oe.middle := oe.middle.(liGoodTillDate := 0);
        case "D" =>
          var _, date := TypeConversion.TimeArrToLong(o.xchng.validDate, oe.middle.liGoodTillDate);
          oe.middle := oe.middle.(liGoodTillDate := date);
        case _ => return false;
      }
      if o.xchng.reqTyp != "N" {
        return false;
      }
      oe.middle := oe.middle.(liEntryDateTime := 0);
      oe.middle := oe.middle.(liLastModified := 0);
      oe.middle := oe.middle.(liMinimumFillAonVolume := 0);
      return true;
    }

    /** Branch, trader, settlor, algorithm and PAN; the PAN is written last. */
    method PackTail(o: Order) returns (ok: bool)
      requires oe.Valid() && oe.tail.llLastactivityref == 0
      modifies oe
      ensures oe.Valid() && oe.head == old(oe.head) && oe.middle == old(oe.middle)
      ensures ok <==> Atoi(o.pipe.trdrId).Some? && o.custType.Some? && Algo(o).Some?
      ensures ok ==> oe.tail == TailOf(o, old(oe.tail.cPan))
      ensures !ok ==> oe.tail.cPan == old(oe.tail.cPan)
    {
      var t := oe.tail.(siBranchId := Wrap16(o.pipe.brnchId));
      oe.tail := t;
      var value1 := Atoi(o.pipe.trdrId);
      if value1.None? {
        return false;
      }
      t := t.(liTraderId := Wrap32(value1.value));
      var broker := TypeConversion.CopyAndFormatSymbol(t.cBrokerId, LEN_BROKER_ID, o.pipe.brkrId);
      t := t.(cBrokerId := broker, iOrderSeq := o.xchng.ordSeq, cOpenClose := 79);
      oe.tail := t;
      if o.custType.None? {
        return false;
      }
      var settlor, indicator := PackSettlor(o);
      t := t.(cSettlor := settlor, siProClientIndicator := indicator);
      oe.tail := t;
      var algo := ProgramAlgo(o.prgmFlg, o.order.algoId);
      if algo.None? {
        return false;
      }
      t := t.(lAlgoId := algo.value.0, siAlgoCategory := algo.value.1);
      if o.order.sourceFlg == 'G' {
        t := t.(lAlgoId := 98816, siAlgoCategory := 1);
      }
      t := t.(cPan := Copy(t.cPan, PanText(o.order.panNo)), siSettlementPeriod := 0);
      t := t.(cCoverUncover := 86, cGiveupFlag := 80, dFiller19 := 0, cReserved := Repeat(SPACE, 52));
      oe.tail := t;
      return true;
    }

    method PackSettlor(o: Order) returns (settlor: seq<byte>, indicator: int16)
      requires o.custType.Some?
      ensures settlor == Settlor(o)
      ensures indicator == if o.custType.value != "NRI" && o.order.proCliInd == "P" then NSE_PRO else NSE_CLIENT
    {
      settlor := Repeat(NUL, LEN_SETTLOR);
      if o.custType.value != "NRI" {
        if o.order.proCliInd == "P" {
          settlor := TypeConversion.CopyAndFormatSymbol(settlor, LEN_SETTLOR, [SPACE]);
          indicator := NSE_PRO;
        } else {
          settlor := TypeConversion.CopyAndFormatSymbol(settlor, LEN_SETTLOR, o.pipe.brkrId);
          indicator := NSE_CLIENT;
        }
      } else {
        settlor := TypeConversion.CopyAndFormatSymbol(settlor, LEN_SETTLOR, o.order.settlor);
        indicator := NSE_CLIENT;
      }
    }

    ghost function Body(): OrderBody
      reads intHeader, contractDesc, orderFlag, oe
    {
      OrderBody(intHeader.Rec(), oe.head, contractDesc.Rec(), oe.middle, orderFlag.flags, oe.tail)
    }

    /** Header, descriptor and flags into the byte arrays of the order request. */
    method EncodeParts()
      requires Valid() && Sized(Body())
      modifies oe
      ensures oe.Valid() && oe.Rec() == Staged(Little, Body())
      ensures oe.head == old(oe.head) && oe.middle == old(oe.middle) && oe.tail == old(oe.tail)
    {
      HeaderSize(Little, intHeader.Rec());
      ContractSize(Little, contractDesc.Rec(), orderFlag.flags);
      oe.stHdr := TypeConversion.WriteAndCopy(IntHeaderFields(intHeader.Rec()), oe.stHdr);
      oe.stConDesc := TypeConversion.WriteAndCopy(ContractDescFields(contractDesc.Rec()), oe.stConDesc);
      oe.stOrdFlg := TypeConversion.WriteAndCopy(OrderFlagsFields(orderFlag.flags), oe.stOrdFlg);
    }

    /** The order request and the network header into the envelope, and the envelope into the queue packet. */
    method EncodeEnvelope(ghost body: OrderBody)
      requires Valid() && Sized(body) && oe.Rec() == Staged(Little, body)
      modifies this
      ensures |stNetHeader| == 22 && |stOeRes| == 316 && |qPacket.stExchMsgData| == 338
      ensures stOeRes == BodyBytes(Little, body)
      ensures qPacket == QPacket(BOARD_LOT_IN, StagedPacket(Little, netHdr.Rec(), body))
    {
      TwoStagesAreFlat(Little, body);
      BodyPlacement(Little, body);
      stOeRes := TypeConversion.WriteAndCopy(OeReqresFields(oe.Rec()), stOeRes);
      NetSize(Little, netHdr.Rec());
      stNetHeader := TypeConversion.WriteAndCopy(NetHdrFields(netHdr.Rec()), stNetHeader);
      PacketPlacement(Little, netHdr.Rec(), body);
      var data := TypeConversion.WriteAndCopy(ExchMsgFields(stNetHeader, stOeRes), qPacket.stExchMsgData);
      qPacket := QPacket(BOARD_LOT_IN, data);
    }

    /** Everything before the sequence number is drawn. */
    method PackFields(o: Order) returns (ok: bool)
      requires Valid()
      modifies intHeader, contractDesc, orderFlag, oe
      ensures Valid()
      ensures ok <==> Packable(o)
      ensures ok ==> Body() == BodyOf(o, old(oe.tail.cPan), old(oe.middle.liGoodTillDate))
      ensures oe.tail.cPan == if ok then Copy(old(oe.tail.cPan), PanText(o.order.panNo)) else old(oe.tail.cPan)
      ensures oe.middle.liGoodTillDate == if ReachesDate(o) then GoodTillDate(o, old(oe.middle.liGoodTillDate))
                                          else old(oe.middle.liGoodTillDate)
    {
      hide Atoi, TrimSpace, Repeat, Stamp, Wrap32, Descriptor, MiddleOf, TailOf, GoodTillDate, Algo, PanText, Copy;
      ok := PackHeader(o.pipe.trdrId);
      if !ok {
        return;
      }
      var userTyp := UserType(o.pipe.userTyp);
      if userTyp.None? {
        return false;
      }
      PackHead(userTyp.value, o.contract.tokenId);
      var res := FnOrstonseCntrctDesc(o.contract);
      if res != 0 {
        return false;
      }
      ok := PackMiddle(o);
      if !ok {
        return;
      }
      orderFlag.PackOrderFlags(o.xchng.ordTyp);
      ok := PackTail(o);
    }

    /**
     Packs one order into the shared structs. `res` is 0 exactly when the order packs and a
     sequence number was issued; what later orders can see of it is `AfterPack`.
     */
    method FnPackOrdnryOrdToNse(o: Order, seqTable: TypeConversion.SequenceTable, key: TypeConversion.SeqKey,
                                faults: TypeConversion.DrawFaults, digest: Digest)
        returns (res: int)
      requires Valid()
      modifies this, intHeader, contractDesc, orderFlag, oe, netHdr, seqTable
      ensures Valid()
      ensures seqTable.rows == if Packable(o) then TypeConversion.Draw(old(seqTable.rows), key, faults).0
                               else old(seqTable.rows)
      ensures res == if Packs(o, IssueOf(old(seqTable.rows), key, faults, digest)) then 0 else -1
      ensures Mem() == AfterPack(old(Mem()), o, IssueOf(old(seqTable.rows), key, faults, digest))
    {
      hide StagedPacket, BodyOf, Sized, Packable, ReachesDate, GoodTillDate, PanText, Copy, TypeConversion.Draw;
      ghost var pan, date := oe.tail.cPan, oe.middle.liGoodTillDate;
      var ok := PackFields(o);
      if !ok {
        return -1;
      }
      var tmpVar := seqTable.GetResetSequence(key, faults);
      if tmpVar == -1 {
        return -1;
      }
      BodyOfSized(o, pan, date);
      Dispatch(tmpVar, digest);
      return 0;
    }

    /** The packed structs, stamped with a sequence number and a digest, become the queue packet. */
    method Dispatch(seqNum: int32, digest: Digest)
      requires Valid() && Sized(Body())
      modifies this, intHeader, contractDesc, oe, netHdr
      ensures Valid() && Body() == old(Body())
      ensures stOeRes == BodyBytes(Little, Body())
      ensures qPacket == QPacket(BOARD_LOT_IN, StagedPacket(Little, NetHdrOf(Issue(seqNum, digest)), Body()))
    {
      FillNetHdr(seqNum, digest);
      EncodeParts();
      EncodeEnvelope(Body());
    }

    /** Sequence number, network byte order, digest and length; the body stays as it was. */
    method FillNetHdr(seqNum: int32, digest: Digest)
      requires Valid()
      modifies intHeader, contractDesc, oe, netHdr
      ensures Valid() && Body() == old(Body()) && netHdr.Rec() == NetHdrOf(Issue(seqNum, digest))
    {
      netHdr.iSeqNum := seqNum;
      OrderConversion.ConvertOrderReqResToNetworkOrder(oe, intHeader, contractDesc);
      netHdr.cChecksum := Copy(netHdr.cChecksum, digest);
      assert netHdr.cChecksum == digest[..16];
      OrderConversion.ConvertNetHeaderToNetworkOrder(netHdr);
      netHdr.sMessageLength := 16;
    }
  }
}
