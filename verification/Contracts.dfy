/** Which contracts the 28-byte descriptor tells apart. */
module Contracts {
  import opened Bytes
  import opened Text
  import opened Codec
  import opened Models
  import opened Packing
  import TypeConversion

  predicate ExchangeSymbol(s: seq<byte>) {
    && |s| <= LEN_SYMBOL_NSE && ToUpper(s) == s
    && (s != [] ==> s[|s| - 1] != SPACE)
  }

  predicate FitsInt32(x: int) {
    -0x8000_0000 <= x < 0x8000_0000
  }

  /** Contracts as the reference tables hold them; options carry one-character codes. */
  predicate WellFormed(c: NseContract) {
    && Descriptor(c).Some?
    && FitsInt32(c.expiry.value + TypeConversion.TEN_YRS_IN_SEC)
    && ExchangeSymbol(c.symbol)
    && -0x8000 <= c.caLvl < 0x8000
    && (c.prdTyp == "O" ==> |c.optTyp| == 1 && |c.exrcTyp| == 1)
  }

  /** The same instrument; strike and codes matter for options only. */
  predicate SameContract(c: NseContract, d: NseContract) {
    && c.prdTyp == d.prdTyp && c.ctgryIndstk == d.ctgryIndstk && c.symbol == d.symbol && c.expiry == d.expiry
    && c.caLvl == d.caLvl
    && (c.prdTyp == "O" ==> c.strikePrc == d.strikePrc && c.optTyp == d.optTyp && c.exrcTyp == d.exrcTyp)
  }

  /** A stock future and the stock option with its sentinel strike and the codes of a future. */
  predicate Twin(f: NseContract, o: NseContract) {
    && f.prdTyp == "F" && o.prdTyp == "O" && f.ctgryIndstk == "S" && o.ctgryIndstk == "S"
    && f.symbol == o.symbol && f.expiry == o.expiry && f.caLvl == o.caLvl
    && o.strikePrc == -1 && o.optTyp == [X_MARK] && o.exrcTyp == [X_MARK]
  }

  /** Blank padding can be undone when the text does not end in a blank. */
  lemma PaddedSymbolInjective(s: seq<byte>, t: seq<byte>)
    requires ExchangeSymbol(s) && ExchangeSymbol(t)
    requires TypeConversion.FormatSymbol(LEN_SYMBOL_NSE, s) == TypeConversion.FormatSymbol(LEN_SYMBOL_NSE, t)
    ensures s == t
  {
    var fs, ft := TypeConversion.FormatSymbol(LEN_SYMBOL_NSE, s), TypeConversion.FormatSymbol(LEN_SYMBOL_NSE, t);
    assert forall k :: |s| <= k < LEN_SYMBOL_NSE ==> fs[k] == SPACE;
    assert forall k :: |t| <= k < LEN_SYMBOL_NSE ==> ft[k] == SPACE;
    assert |s| == |t|;
    forall i | 0 <= i < |s|
      ensures s[i] == t[i]
    {
      assert fs[i] == s[i] && ft[i] == t[i];
    }
  }

  lemma InstrumentNameTellsCategory(c: NseContract, d: NseContract)
    requires InstrumentName(c).Some? && InstrumentName(c) == InstrumentName(d)
    ensures c.ctgryIndstk == d.ctgryIndstk
  {
    assert InstrumentName(c).value[0] == InstrumentName(d).value[0];
  }

  lemma ProductOrTwin(c: NseContract, d: NseContract)
    requires WellFormed(c) && WellFormed(d) && c.prdTyp == "F" && d.prdTyp == "O"
    ensures Descriptor(c) == Descriptor(d) <==> Twin(c, d)
  {
    if Descriptor(c) == Descriptor(d) {
      InstrumentNameTellsCategory(c, d);
      PaddedSymbolInjective(c.symbol, d.symbol);
      var x, y := Descriptor(c).value, Descriptor(d).value;
      assert x.cInstrumentName[0] == y.cInstrumentName[0];
      assert x.liStrikePrice == y.liStrikePrice;
      assert x.cOptionType[0] == y.cOptionType[0] && x.cOptionType[1] == y.cOptionType[1];
      assert d.optTyp == [y.cOptionType[0]] && d.exrcTyp == [y.cOptionType[1]];
    }
  }

  lemma SameProduct(c: NseContract, d: NseContract)
    requires WellFormed(c) && WellFormed(d) && c.prdTyp == d.prdTyp
    ensures Descriptor(c) == Descriptor(d) <==> SameContract(c, d)
  {
    if Descriptor(c) == Descriptor(d) {
      InstrumentNameTellsCategory(c, d);
      PaddedSymbolInjective(c.symbol, d.symbol);
      var x, y := Descriptor(c).value, Descriptor(d).value;
      assert x.liStrikePrice == y.liStrikePrice;
      assert x.cOptionType[0] == y.cOptionType[0] && x.cOptionType[1] == y.cOptionType[1];
      if c.prdTyp == "O" {
        assert c.optTyp == [x.cOptionType[0]] && d.optTyp == [y.cOptionType[0]];
        assert c.exrcTyp == [x.cOptionType[1]] && d.exrcTyp == [y.cOptionType[1]];
      }
    }
  }

  /**
   Well-formed contracts share a descriptor exactly when they are the same, or a stock future and
   its twin: the two share the instrument name, and only the strike -1 of a future keeps them apart.
   */
  lemma DescriptorInjective(c: NseContract, d: NseContract)
    requires WellFormed(c) && WellFormed(d)
    ensures Descriptor(c) == Descriptor(d) <==> SameContract(c, d) || Twin(c, d) || Twin(d, c)
  {
    hide WellFormed;
    assert (c.prdTyp == "F" || c.prdTyp == "O") && (d.prdTyp == "F" || d.prdTyp == "O") by {
      Products(c);
      Products(d);
    }
    hide Descriptor;
    if c.prdTyp == d.prdTyp {
      SameProduct(c, d);
    } else if c.prdTyp == "F" {
      ProductOrTwin(c, d);
    } else {
      ProductOrTwin(d, c);
    }
  }

  lemma Products(c: NseContract)
    requires WellFormed(c)
    ensures c.prdTyp == "F" || c.prdTyp == "O"
  {
  }

  lemma FieldsTellRecords(x: ContractDesc, y: ContractDesc)
    requires ContractDescFields(x) == ContractDescFields(y)
    ensures x == y
  {
    var fx, fy := ContractDescFields(x), ContractDescFields(y);
    assert fx[0] == fy[0] && fx[1] == fy[1] && fx[2] == fy[2] && fx[3] == fy[3] && fx[4] == fy[4] && fx[5] == fy[5];
    Widths();
  }

  /** Different contracts are different on the wire. */
  lemma DescriptorBytesInjective(c: NseContract, d: NseContract)
    requires WellFormed(c) && WellFormed(d)
    ensures Encode(Little, ContractDescFields(Descriptor(c).value)) == Encode(Little, ContractDescFields(Descriptor(d).value))
       <==> SameContract(c, d) || Twin(c, d) || Twin(d, c)
  {
    DescriptorInjective(c, d);
    var x, y := Descriptor(c).value, Descriptor(d).value;
    if Encode(Little, ContractDescFields(x)) == Encode(Little, ContractDescFields(y)) {
      ContractKinds(x);
      ContractKinds(y);
      EncodeInjective(Little, ContractDescFields(x), ContractDescFields(y));
      FieldsTellRecords(x, y);
    }
  }

  /** Every stock future has a twin, which is another contract with the same bytes. */
  lemma NegativeStrikeCollides(f: NseContract)
    requires WellFormed(f) && f.prdTyp == "F" && f.ctgryIndstk == "S"
    ensures var o := f.(prdTyp := "O", strikePrc := -1, optTyp := [X_MARK], exrcTyp := [X_MARK]);
            WellFormed(o) && Twin(f, o) && !SameContract(f, o) && Descriptor(f) == Descriptor(o)
  {
  }

  /** Strikes that are not negative leave no room for twins. */
  lemma NonNegativeStrikesTellApart(c: NseContract, d: NseContract)
    requires WellFormed(c) && WellFormed(d)
    requires (c.prdTyp == "O" ==> c.strikePrc >= 0) && (d.prdTyp == "O" ==> d.strikePrc >= 0)
    ensures Encode(Little, ContractDescFields(Descriptor(c).value)) == Encode(Little, ContractDescFields(Descriptor(d).value))
            ==> SameContract(c, d)
  {
    DescriptorBytesInjective(c, d);
    hide Descriptor, Encode, SameContract;
  }
}
