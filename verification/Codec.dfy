/**
 Go's `encoding/binary` over fixed-size records: a record is a sequence of fields, each a
 fixed-width integer (floats as their bit pattern) or a byte array, laid out one after the
 other without padding.
 */
module Codec {
  import opened Wrappers
  import opened Bytes

  datatype Endian = Little | Big

  datatype Kind = Num(width: nat) | Blob(len: nat)

  datatype Field = Scalar(width: nat, bits: nat) | Raw(data: seq<byte>)

  predicate ValidField(f: Field) {
    f.Scalar? ==> f.bits < Pow256(f.width)
  }

  predicate Valid(fs: seq<Field>) {
    forall i :: 0 <= i < |fs| ==> ValidField(fs[i])
  }

  function KindOf(f: Field): Kind {
    if f.Scalar? then Num(f.width) else Blob(|f.data|)
  }

  function Kinds(fs: seq<Field>): (ks: seq<Kind>)
    ensures |ks| == |fs|
    ensures forall i :: 0 <= i < |fs| ==> ks[i] == KindOf(fs[i])
  {
    seq(|fs|, i requires 0 <= i < |fs| => KindOf(fs[i]))
  }

  function KindSize(k: Kind): nat {
    match k
    case Num(w) => w
    case Blob(n) => n
  }

  function Size(ks: seq<Kind>): nat {
    if ks == [] then 0 else KindSize(ks[0]) + Size(ks[1..])
  }

  function EncodeField(e: Endian, f: Field): (bs: seq<byte>)
    ensures |bs| == KindSize(KindOf(f))
  {
    match f
    case Scalar(w, v) => if e.Little? then ToLE(w, v) else ToBE(w, v)
    case Raw(data) => data
  }

  /** `binary.Write`. */
  function Encode(e: Endian, fs: seq<Field>): seq<byte> {
    if fs == [] then [] else EncodeField(e, fs[0]) + Encode(e, fs[1..])
  }

  lemma {:induction false} EncodeSize(e: Endian, fs: seq<Field>)
    ensures |Encode(e, fs)| == Size(Kinds(fs))
  {
    if fs != [] {
      EncodeSize(e, fs[1..]);
      assert Kinds(fs)[1..] == Kinds(fs[1..]);
    }
  }

  function DecodeField(e: Endian, k: Kind, bs: seq<byte>): (f: Field)
    requires |bs| == KindSize(k)
    ensures KindOf(f) == k && ValidField(f)
  {
    match k
    case Num(w) => Scalar(w, if e.Little? then FromLE(bs) else FromBE(bs))
    case Blob(_) => Raw(bs)
  }

  /** `binary.Read`: fails on a short buffer, ignores what follows the record. */
  function Decode(e: Endian, ks: seq<Kind>, bs: seq<byte>): (r: Option<seq<Field>>)
    ensures r.Some? <==> Size(ks) <= |bs|
    ensures r.Some? ==> Kinds(r.value) == ks && Valid(r.value)
  {
    if ks == [] then Some([])
    else if |bs| < KindSize(ks[0]) then None
    else
      match Decode(e, ks[1..], bs[KindSize(ks[0])..])
      case None => None
      case Some(rest) => Some([DecodeField(e, ks[0], bs[..KindSize(ks[0])])] + rest)
  }

  lemma SliceBehind(bs: seq<byte>, first: nat, from: nat, to: nat)
    requires first <= |bs| && from <= to && first + to <= |bs|
    ensures bs[first..][from..to] == bs[first + from..first + to]
  {
  }

  lemma DecodeSplits(e: Endian, ks: seq<Kind>, bs: seq<byte>)
    requires ks != [] && Size(ks) <= |bs|
    ensures var first := KindSize(ks[0]);
            && first + Size(ks[1..]) <= |bs|
            && Decode(e, ks, bs).value == [DecodeField(e, ks[0], bs[..first])] + Decode(e, ks[1..], bs[first..]).value
  {
    hide DecodeField;
  }

  /** Field `i` is read from the bytes between the sizes of the first `i` and `i + 1` fields. */
  lemma {:induction false} DecodedAt(e: Endian, ks: seq<Kind>, bs: seq<byte>, i: nat)
    requires Size(ks) <= |bs| && i < |ks|
    ensures var from, width := Size(ks[..i]), KindSize(ks[i]);
            from + width <= |bs| && Decode(e, ks, bs).value[i] == DecodeField(e, ks[i], bs[from..from + width])
  {
    hide DecodeField, Decode;
    DecodeSplits(e, ks, bs);
    if i > 0 {
      var first := KindSize(ks[0]);
      DecodedAt(e, ks[1..], bs[first..], i - 1);
      assert ks[..i][1..] == ks[1..][..i - 1];
      var from := Size(ks[1..][..i - 1]);
      SliceBehind(bs, first, from, from + KindSize(ks[i]));
    }
  }

  lemma FieldRoundTrip(e: Endian, f: Field)
    requires ValidField(f)
    ensures DecodeField(e, KindOf(f), EncodeField(e, f)) == f
  {
    if f.Scalar? {
      LittleEndianRoundTrip(f.width, f.bits);
      BigEndianRoundTrip(f.width, f.bits);
    }
  }

  /** Reading back in the byte order of the writer recovers every field, whatever follows. */
  lemma {:induction false} DecodeEncode(e: Endian, fs: seq<Field>, rest: seq<byte>)
    requires Valid(fs)
    ensures Decode(e, Kinds(fs), Encode(e, fs) + rest) == Some(fs)
  {
    if fs == [] {
      assert Kinds(fs) == [];
    } else {
      var head, tail := EncodeField(e, fs[0]), Encode(e, fs[1..]) + rest;
      assert Encode(e, fs) + rest == head + tail;
      assert (head + tail)[..|head|] == head && (head + tail)[|head|..] == tail;
      FieldRoundTrip(e, fs[0]);
      DecodeEncode(e, fs[1..], rest);
      assert Kinds(fs)[1..] == Kinds(fs[1..]);
      assert [fs[0]] + fs[1..] == fs;
    }
  }

  /** Two records of one layout that encode alike are alike. */
  lemma EncodeInjective(e: Endian, fs: seq<Field>, gs: seq<Field>)
    requires Valid(fs) && Valid(gs) && Kinds(fs) == Kinds(gs)
    requires Encode(e, fs) == Encode(e, gs)
    ensures fs == gs
  {
    assert Encode(e, fs) + [] == Encode(e, gs) + [];
    DecodeEncode(e, fs, []);
    DecodeEncode(e, gs, []);
  }

  lemma Associative(a: seq<byte>, b: seq<byte>, c: seq<byte>)
    ensures a + (b + c) == (a + b) + c
  {
  }

  lemma {:induction false} EncodeAppend(e: Endian, fs: seq<Field>, gs: seq<Field>)
    ensures Encode(e, fs + gs) == Encode(e, fs) + Encode(e, gs)
  {
    if fs == [] {
      assert fs + gs == gs;
    } else {
      EncodeAppend(e, fs[1..], gs);
      assert (fs + gs)[1..] == fs[1..] + gs;
      Associative(EncodeField(e, fs[0]), Encode(e, fs[1..]), Encode(e, gs));
    }
  }

  lemma EncodeOne(e: Endian, f: Field)
    ensures Encode(e, [f]) == EncodeField(e, f)
  {
    assert Encode(e, [f]) == EncodeField(e, f) + Encode(e, [f][1..]);
  }

  lemma EncodeThree(e: Endian, fs: seq<Field>, gs: seq<Field>, hs: seq<Field>)
    ensures Encode(e, fs + gs + hs) == Encode(e, fs) + Encode(e, gs) + Encode(e, hs)
  {
    EncodeAppend(e, fs + gs, hs);
    EncodeAppend(e, fs, gs);
  }

  lemma {:induction false} SizeAppend(ks: seq<Kind>, ls: seq<Kind>)
    ensures Size(ks + ls) == Size(ks) + Size(ls)
  {
    if ks == [] {
      assert ks + ls == ls;
    } else {
      SizeAppend(ks[1..], ls);
      assert (ks + ls)[1..] == ks[1..] + ls;
    }
  }

  /** Field `i` occupies the bytes between the sizes of the first `i` and `i + 1` fields. */
  lemma FieldAt(e: Endian, fs: seq<Field>, i: nat)
    requires i < |fs|
    ensures Size(Kinds(fs[..i])) + |EncodeField(e, fs[i])| <= |Encode(e, fs)|
    ensures Encode(e, fs)[Size(Kinds(fs[..i]))..Size(Kinds(fs[..i])) + |EncodeField(e, fs[i])|] == EncodeField(e, fs[i])
  {
    var pre, post := fs[..i], fs[i + 1..];
    assert fs == pre + [fs[i]] + post;
    EncodeThree(e, pre, [fs[i]], post);
    EncodeOne(e, fs[i]);
    EncodeSize(e, pre);
  }

  /** What a reader of the opposite byte order makes of a field. */
  function SwapField(f: Field): (g: Field)
    requires ValidField(f)
    ensures KindOf(g) == KindOf(f) && ValidField(g)
  {
    match f
    case Scalar(w, v) => Scalar(w, FromBE(ToLE(w, v)))
    case Raw(_) => f
  }

  function Swap(fs: seq<Field>): (gs: seq<Field>)
    requires Valid(fs)
    ensures Kinds(gs) == Kinds(fs) && Valid(gs)
  {
    seq(|fs|, i requires 0 <= i < |fs| => SwapField(fs[i]))
  }

  lemma SwapFieldTwice(f: Field)
    requires ValidField(f)
    ensures SwapField(SwapField(f)) == f
    ensures EncodeField(Big, SwapField(f)) == EncodeField(Little, f)
  {
    if f.Scalar? {
      var le := ToLE(f.width, f.bits);
      FromBigEndianIsReversed(le);
      LittleEndianUnique(Reverse(le));
      BigEndianIsReversed(f.width, FromBE(le));
      assert Reverse(Reverse(le)) == le;
      FromBigEndianIsReversed(Reverse(le));
      LittleEndianRoundTrip(f.width, f.bits);
    }
  }

  /**
   A big-endian reader of a little-endian record sees every scalar byte-reversed and every
   byte array untouched; reading the wrong way twice gives the record back.
   */
  lemma {:induction false} CrossEndianRead(fs: seq<Field>, rest: seq<byte>)
    requires Valid(fs)
    ensures Decode(Big, Kinds(fs), Encode(Little, fs) + rest) == Some(Swap(fs))
    ensures Swap(Swap(fs)) == fs
  {
    forall i | 0 <= i < |fs|
      ensures Swap(Swap(fs))[i] == fs[i] && EncodeField(Big, Swap(fs)[i]) == EncodeField(Little, fs[i])
    {
      SwapFieldTwice(fs[i]);
    }
    SameEncoding(Big, Swap(fs), Little, fs);
    DecodeEncode(Big, Swap(fs), rest);
  }

  lemma {:induction false} SameEncoding(e: Endian, fs: seq<Field>, e': Endian, gs: seq<Field>)
    requires |fs| == |gs|
    requires forall i :: 0 <= i < |fs| ==> EncodeField(e, fs[i]) == EncodeField(e', gs[i])
    ensures Encode(e, fs) == Encode(e', gs)
  {
    if fs != [] {
      SameEncoding(e, fs[1..], e', gs[1..]);
    }
  }
}
