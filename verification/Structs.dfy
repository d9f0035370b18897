/** The mutable structs that one packing service shares between all its orders. */
module Structs {
  import opened Bytes
  import opened Text
  import opened Models
  import opened Layout

  function Stamp(): (ts: seq<byte>)
    ensures |ts| == LEN_TIME_STAMP
  {
    [ZERO] + Repeat(NUL, 7)
  }

  /** A time stamp of which at most the first byte was ever written. */
  predicate Unstamped(ts: seq<byte>) {
    |ts| == LEN_TIME_STAMP && ts[1..] == Repeat(NUL, 7)
  }

  lemma Stamped(ts: seq<byte>)
    requires Unstamped(ts)
    ensures Copy(ts, [ZERO]) == Stamp() && Unstamped(Stamp())
  {
    assert Copy(ts, [ZERO])[1..] == ts[1..];
    assert Copy(ts, [ZERO]) == [ZERO] + Copy(ts, [ZERO])[1..];
  }

  class StIntHeader {
    var siTransactionCode: int16
    var liLogTime: int32
    var cAlphaChar: seq<byte>
    var liTraderId: int32
    var siErrorCode: int16
    var cFiller2: seq<byte>
    var cTimeStamp1: seq<byte>
    var cTimeStamp2: seq<byte>
    var siMessageLength: int16

    function Rec(): IntHeader
      reads this
    {
      IntHeader(siTransactionCode, liLogTime, cAlphaChar, liTraderId, siErrorCode, cFiller2, cTimeStamp1, cTimeStamp2,
                siMessageLength)
    }

    /** Only the first byte of either time stamp is ever written. */
    ghost predicate Valid()
      reads this
    {
      |cAlphaChar| == LEN_ALPHA_CHAR && |cFiller2| == 8 && Unstamped(cTimeStamp1) && Unstamped(cTimeStamp2)
    }

    constructor ()
      ensures Valid()
    {
      siTransactionCode, liLogTime, liTraderId, siErrorCode, siMessageLength := 0, 0, 0, 0, 0;
      cAlphaChar, cFiller2 := Repeat(NUL, LEN_ALPHA_CHAR), Repeat(NUL, 8);
      cTimeStamp1, cTimeStamp2 := Repeat(NUL, LEN_TIME_STAMP), Repeat(NUL, LEN_TIME_STAMP);
      assert Repeat(NUL, LEN_TIME_STAMP)[1..] == Repeat(NUL, 7);
    }
  }

  class StContractDesc {
    var cInstrumentName: seq<byte>
    var cSymbol: seq<byte>
    var liExpiryDate: int32
    var liStrikePrice: int32
    var cOptionType: seq<byte>
    var siCaLevel: int16

    function Rec(): ContractDesc
      reads this
    {
      ContractDesc(cInstrumentName, cSymbol, liExpiryDate, liStrikePrice, cOptionType, siCaLevel)
    }

    ghost predicate Valid()
      reads this
    {
      |cInstrumentName| == LEN_INSTRUMENT_NAME && |cSymbol| == LEN_SYMBOL_NSE && |cOptionType| == LEN_OPTION_TYPE
    }

    constructor ()
      ensures Valid()
    {
      cInstrumentName, cSymbol := Repeat(NUL, LEN_INSTRUMENT_NAME), Repeat(NUL, LEN_SYMBOL_NSE);
      cOptionType := Repeat(NUL, LEN_OPTION_TYPE);
      liExpiryDate, liStrikePrice, siCaLevel := 0, 0, 0;
    }
  }

  const FLG_ATO: bv16 := 0x0001
  const FLG_MARKET: bv16 := 0x0002
  const FLG_SL: bv16 := 0x0004
  const FLG_MIT: bv16 := 0x0008
  const FLG_DAY: bv16 := 0x0010
  const FLG_GTC: bv16 := 0x0020
  const FLG_IOC: bv16 := 0x0040
  const FLG_AON: bv16 := 0x0080
  const FLG_MF: bv16 := 0x0100
  const FLG_MATCHED_IND: bv16 := 0x0200
  const FLG_TRADED: bv16 := 0x0400
  const FLG_MODIFIED: bv16 := 0x0800
  const FLG_FROZEN: bv16 := 0x1000
  const FLG_ORDER_FILLER1: bv16 := 0xE000

  /** The order flags of an order type: stop-loss always, day for `T`, immediate-or-cancel for `I`. */
  function OrderFlags(ordTyp: string): bv16 {
    FLG_SL | (if ordTyp == "T" then FLG_DAY else 0) | (if ordTyp == "I" then FLG_IOC else 0)
  }

  class StOrderFlags {
    var flags: bv16

    constructor ()
      ensures flags == 0
    {
      flags := 0;
    }

    function GetFlagValue(flag: bv16): (isSet: bool)
      reads this
      ensures isSet <==> flags & flag != 0
    {
      flags & flag != 0
    }

    method SetFlag(flag: bv16)
      modifies this
      ensures flags == old(flags) | flag
      ensures flag != 0 ==> GetFlagValue(flag)
    {
      flags := flags | flag;
    }

    method ClearFlag(flag: bv16)
      modifies this
      ensures flags == old(flags) & !flag
      ensures !GetFlagValue(flag)
    {
      flags := flags & !flag;
    }

    /** The packer's sixteen flag writes leave no bit of the previous word. */
    method PackOrderFlags(ordTyp: string)
      modifies this
      ensures flags == OrderFlags(ordTyp)
    {
      ClearFlag(FLG_ATO);
      ClearFlag(FLG_MARKET);
      SetFlag(FLG_SL);
      ClearFlag(FLG_MIT);
      if ordTyp == "T" {
        SetFlag(FLG_DAY);
      } else {
        ClearFlag(FLG_DAY);
      }
      ClearFlag(FLG_GTC);
      if ordTyp == "I" {
        SetFlag(FLG_IOC);
      } else {
        ClearFlag(FLG_IOC);
      }
      ClearFlag(FLG_AON);
      ClearFlag(FLG_MF);
      ClearFlag(FLG_MATCHED_IND);
      ClearFlag(FLG_TRADED);
      ClearFlag(FLG_MODIFIED);
      ClearFlag(FLG_FROZEN);
      flags := flags & !FLG_ORDER_FILLER1;
    }
  }

  class StNetHdr {
    var sMessageLength: int16
    var iSeqNum: int32
    var cChecksum: seq<byte>

    function Rec(): NetHdr
      reads this
    {
      NetHdr(sMessageLength, iSeqNum, cChecksum)
    }

    ghost predicate Valid()
      reads this
    {
      |cChecksum| == 16
    }

    constructor ()
      ensures Valid()
    {
      sMessageLength, iSeqNum, cChecksum := 0, 0, Repeat(NUL, 16);
    }
  }

  /** The order request; `head`, `middle` and `tail` are its runs of plain fields around the three byte arrays. */
  class StOeReqres {
    var stHdr: seq<byte>
    var head: OrderHead
    var stConDesc: seq<byte>
    var middle: OrderMiddle
    var stOrdFlg: seq<byte>
    var tail: OrderTail

    function Rec(): OeReqres
      reads this
    {
      OeReqres(stHdr, head, stConDesc, middle, stOrdFlg, tail)
    }

    /** Field widths; the remarks and the NNF field are never written. */
    ghost predicate Valid()
      reads this
    {
      && |stHdr| == 40 && |stConDesc| == 28 && |stOrdFlg| == 2
      && SizedHead(head) && SizedMiddle(middle) && SizedTail(tail)
      && tail.cRemarks == Repeat(NUL, LEN_REMARKS) && tail.dNnfField == 0
    }

    constructor ()
      ensures Valid() && middle.liGoodTillDate == 0 && tail.cPan == Repeat(NUL, LEN_PAN)
    {
      stHdr, stConDesc, stOrdFlg := Repeat(NUL, 40), Repeat(NUL, 28), Repeat(NUL, 2);
      head := OrderHead(0, 0, 0, 0, 0, 0, 0, Repeat(NUL, 4), 0);
      middle := OrderMiddle(Repeat(NUL, LEN_BROKER_ID), 0, Repeat(NUL, 2), 0, 0, 0, 0, Repeat(NUL, LEN_ACCOUNT_NUMBER),
                            0, 0, 0, 0, 0, 0, 0, 0, 0, 0, 0, 0, 0);
      tail := OrderTail(0, 0, Repeat(NUL, LEN_BROKER_ID), Repeat(NUL, LEN_REMARKS), 0, Repeat(NUL, LEN_SETTLOR), 0, 0, 0,
                        0, 0, 0, 0, Repeat(NUL, LEN_PAN), 0, 0, 0, Repeat(NUL, 52));
    }
  }
}
