/**
 The byte-order conversions of scalars and records. Each writes a value big-endian and reads
 the same bytes back big-endian.
 */
module OrderConversion {
  import opened Bytes
  import opened Models
  import opened Structs

  function ThroughBigEndian(width: nat, u: nat): (r: nat)
    requires u < Pow256(width)
    ensures r == u
  {
    BigEndianRoundTrip(width, u);
    FromBE(ToBE(width, u))
  }

  function ConvertInt16ToNetworkOrder(i: int16): (r: int16)
    ensures r == i
  {
    Widths(); Signed(2, ThroughBigEndian(2, Unsigned(2, i)))
  }

  function ConvertInt32ToNetworkOrder(i: int32): (r: int32)
    ensures r == i
  {
    Widths(); Signed(4, ThroughBigEndian(4, Unsigned(4, i)))
  }

  function ConvertInt64ToNetworkOrder(i: int64): (r: int64)
    ensures r == i
  {
    Widths(); Signed(8, ThroughBigEndian(8, Unsigned(8, i)))
  }

  /** Floats travel as their bit pattern. */
  function ConvertFloat64ToNetworkOrder(f: bits64): (r: bits64)
    ensures r == f
  {
    Widths(); ThroughBigEndian(8, f)
  }

  method ConvertIntHeaderToNetworkOrder(h: StIntHeader)
    modifies h
    ensures h.Rec() == old(h.Rec())
  {
    h.siTransactionCode := ConvertInt16ToNetworkOrder(h.siTransactionCode);
    h.liLogTime := ConvertInt32ToNetworkOrder(h.liLogTime);
    h.liTraderId := ConvertInt32ToNetworkOrder(h.liTraderId);
    h.siErrorCode := ConvertInt16ToNetworkOrder(h.siErrorCode);
    h.siMessageLength := ConvertInt16ToNetworkOrder(h.siMessageLength);
  }

  method ConvertContractDescToNetworkOrder(c: StContractDesc)
    modifies c
    ensures c.Rec() == old(c.Rec())
  {
    c.liExpiryDate := ConvertInt32ToNetworkOrder(c.liExpiryDate);
    c.liStrikePrice := ConvertInt32ToNetworkOrder(c.liStrikePrice);
    c.siCaLevel := ConvertInt16ToNetworkOrder(c.siCaLevel);
  }

  method ConvertNetHeaderToNetworkOrder(n: StNetHdr)
    modifies n
    ensures n.Rec() == old(n.Rec())
  {
    n.iSeqNum := ConvertInt32ToNetworkOrder(n.iSeqNum);
    n.sMessageLength := ConvertInt16ToNetworkOrder(n.sMessageLength);
  }

  /** The whole-record conversion leaves every field of the three structs as it was. */
  method ConvertOrderReqResToNetworkOrder(oe: StOeReqres, h: StIntHeader, c: StContractDesc)
    modifies oe, h, c
    ensures h.Rec() == old(h.Rec()) && c.Rec() == old(c.Rec()) && oe.Rec() == old(oe.Rec())
  {
    ConvertIntHeaderToNetworkOrder(h);
    oe.head := oe.head.(siCompetitorPeriod := ConvertInt16ToNetworkOrder(oe.head.siCompetitorPeriod));
    oe.head := oe.head.(siSolicitorPeriod := ConvertInt16ToNetworkOrder(oe.head.siSolicitorPeriod));
    oe.head := oe.head.(siReasonCode := ConvertInt16ToNetworkOrder(oe.head.siReasonCode));
    oe.head := oe.head.(lTokenNo := ConvertInt32ToNetworkOrder(oe.head.lTokenNo));
    ConvertContractDescToNetworkOrder(c);
    oe.middle := oe.middle.(siOrderType := ConvertInt16ToNetworkOrder(oe.middle.siOrderType));
    oe.middle := oe.middle.(dOrderNumber := ConvertFloat64ToNetworkOrder(oe.middle.dOrderNumber));
    oe.middle := oe.middle.(siBookType := ConvertInt16ToNetworkOrder(oe.middle.siBookType));
    oe.middle := oe.middle.(siBuySellIndicator := ConvertInt16ToNetworkOrder(oe.middle.siBuySellIndicator));
    oe.middle := oe.middle.(liDisclosedVolume := ConvertInt32ToNetworkOrder(oe.middle.liDisclosedVolume));
    oe.middle := oe.middle.(liDisclosedVolumeRemaining := ConvertInt32ToNetworkOrder(oe.middle.liDisclosedVolumeRemaining));
    oe.middle := oe.middle.(liTotalVolumeRemaining := ConvertInt32ToNetworkOrder(oe.middle.liTotalVolumeRemaining));
    oe.middle := oe.middle.(liVolume := ConvertInt32ToNetworkOrder(oe.middle.liVolume));
    oe.middle := oe.middle.(liVolumeFilledToday := ConvertInt32ToNetworkOrder(oe.middle.liVolumeFilledToday));
    oe.middle := oe.middle.(liPrice := ConvertInt32ToNetworkOrder(oe.middle.liPrice));
    oe.middle := oe.middle.(liTriggerPrice := ConvertInt32ToNetworkOrder(oe.middle.liTriggerPrice));
    oe.middle := oe.middle.(liGoodTillDate := ConvertInt32ToNetworkOrder(oe.middle.liGoodTillDate));
    oe.middle := oe.middle.(liEntryDateTime := ConvertInt32ToNetworkOrder(oe.middle.liEntryDateTime));
    oe.middle := oe.middle.(liMinimumFillAonVolume := ConvertInt32ToNetworkOrder(oe.middle.liMinimumFillAonVolume));
    oe.middle := oe.middle.(liLastModified := ConvertInt32ToNetworkOrder(oe.middle.liLastModified));
    oe.tail := oe.tail.(siBranchId := ConvertInt16ToNetworkOrder(oe.tail.siBranchId));
    oe.tail := oe.tail.(liTraderId := ConvertInt32ToNetworkOrder(oe.tail.liTraderId));
    oe.tail := oe.tail.(siProClientIndicator := ConvertInt16ToNetworkOrder(oe.tail.siProClientIndicator));
    oe.tail := oe.tail.(siSettlementPeriod := ConvertInt16ToNetworkOrder(oe.tail.siSettlementPeriod));
    oe.tail := oe.tail.(iOrderSeq := ConvertInt32ToNetworkOrder(oe.tail.iOrderSeq));
    oe.tail := oe.tail.(dNnfField := ConvertFloat64ToNetworkOrder(oe.tail.dNnfField));
    oe.tail := oe.tail.(dFiller19 := ConvertFloat64ToNetworkOrder(oe.tail.dFiller19));
    oe.tail := oe.tail.(lAlgoId := ConvertInt32ToNetworkOrder(oe.tail.lAlgoId));
    oe.tail := oe.tail.(siAlgoCategory := ConvertInt16ToNetworkOrder(oe.tail.siAlgoCategory));
    oe.tail := oe.tail.(llLastactivityref := ConvertInt64ToNetworkOrder(oe.tail.llLastactivityref));
  }
}
