/**
 The same structs serve every order. This module says exactly when nothing of the earlier
 orders shows in the body of the next one, and which program flags can pack at all.
 */
module PackingHistory {
  import opened Wrappers
  import opened Bytes
  import opened Text
  import opened Codec
  import opened Models
  import opened Layout
  import opened Packing

  datatype Call = Call(order: Order, issue: Issue)

  /** The shared memory after a history of pack calls, successful or not. */
  function Run(m: Memory, calls: seq<Call>): Memory
    decreases calls
  {
    hide AfterPack;
    if calls == [] then m else Run(AfterPack(m, calls[0].order, calls[0].issue), calls[1..])
  }

  lemma {:induction false} RunAppend(m: Memory, calls: seq<Call>, c: Call)
    ensures Run(m, calls + [c]) == AfterPack(Run(m, calls), c.order, c.issue)
    decreases calls
  {
    hide AfterPack;
    if calls == [] {
      assert ([] + [c])[1..] == [];
    } else {
      assert (calls + [c])[1..] == calls[1..] + [c];
      RunAppend(AfterPack(m, calls[0].order, calls[0].issue), calls[1..], c);
    }
  }

  /** The 316 body bytes that packing `o` after `history` leaves in the queue packet. */
  function BodyAfter(history: seq<Call>, o: Order, issue: Issue): seq<byte>
    requires Packs(o, issue)
  {
    var data := AfterPack(Run(FRESH, history), o, issue).packet.stExchMsgData;
    if |data| < 22 then [] else data[22..]
  }

  lemma {:induction false} PanKeepsItsLength(m: Memory, calls: seq<Call>)
    requires |m.pan| == LEN_PAN
    ensures |Run(m, calls).pan| == LEN_PAN
    decreases calls
  {
    hide Packable, ReachesDate, GoodTillDate, StagedPacket, BodyOf, PanText;
    if calls != [] {
      PanKeepsItsLength(AfterPack(m, calls[0].order, calls[0].issue), calls[1..]);
    }
  }

  lemma {:induction false} BodyAfterIs(history: seq<Call>, o: Order, issue: Issue)
    requires Packs(o, issue)
    ensures |Run(FRESH, history).pan| == LEN_PAN
    ensures BodyAfter(history, o, issue)
         == BodyBytes(Little, BodyOf(o, Run(FRESH, history).pan, Run(FRESH, history).date))
  {
    hide StagedPacket, BodyOf, Sized, BodyBytes, Packable, ReachesDate, Copy;
    PanKeepsItsLength(FRESH, history);
    var m := Run(FRESH, history);
    BodyOfSized(o, m.pan, m.date);
    PacketPlacement(Little, NetHdrOf(issue), BodyOf(o, m.pan, m.date));
  }

  /** The branch guards that keep earlier orders out: a date that is written, a PAN that fills its field. */
  predicate Clean(o: Order) {
    && (o.xchng.ordTyp == "D" ==> o.xchng.validDate.Some?)
    && |PanText(o.order.panNo)| == LEN_PAN
  }

  ghost predicate HistoryIndependent(o: Order) {
    forall h, h', issue, issue' | Packs(o, issue) && Packs(o, issue') ::
      BodyAfter(h, o, issue) == BodyAfter(h', o, issue')
  }

  /** Equal bodies carry equal good-till dates and equal PAN bytes. */
  lemma BodiesDiffer(b: OrderBody, b': OrderBody)
    requires Sized(b) && Sized(b') && BodyBytes(Little, b) == BodyBytes(Little, b')
    ensures b.middle.liGoodTillDate == b'.middle.liGoodTillDate && b.tail.cPan == b'.tail.cPan
  {
    BodyKinds(b);
    BodyKinds(b');
    EncodeInjective(Little, BodyFields(b), BodyFields(b'));
    MiddleAndTailOf(b);
    MiddleAndTailOf(b');
  }

  lemma MiddleAndTailOf(b: OrderBody)
    ensures |BodyFields(b)| == 64
    ensures BodyFields(b)[24 + 17] == I32(b.middle.liGoodTillDate)
    ensures BodyFields(b)[46 + 13] == Raw(b.tail.cPan)
  {
    assert MiddleFields(b.middle)[17] == I32(b.middle.liGoodTillDate);
    assert TailFields(b.tail)[13] == Raw(b.tail.cPan);
  }

  lemma CleanBodyForgets(o: Order, pan: seq<byte>, date: int32, pan': seq<byte>, date': int32)
    requires Packable(o) && Clean(o) && |pan| == |pan'| == LEN_PAN
    ensures BodyOf(o, pan, date) == BodyOf(o, pan', date')
  {
    CopyWhole(pan, PanText(o.order.panNo));
    CopyWhole(pan', PanText(o.order.panNo));
  }

  const SOME_ISSUE := Issue(1, Repeat(NUL, 32))

  /** An order that differs from `o` only in what it leaves behind for `o` to show. */
  function Imprint(o: Order): Order {
    o.(xchng := o.xchng.(validDate := Some(1)), order := o.order.(panNo := Repeat(X_MARK, LEN_PAN)))
  }

  lemma ImprintPan()
    ensures PanText(Repeat(X_MARK, LEN_PAN)) == Repeat(X_MARK, LEN_PAN)
  {
    var pan := Repeat(X_MARK, LEN_PAN);
    assert Pad(pan, LEN_PAN) == pan == ToUpper(pan);
  }

  lemma ImprintPacks(o: Order)
    requires Packable(o)
    ensures Packable(Imprint(o)) && ReachesDate(Imprint(o))
  {
    hide Descriptor, UserType, ProgramAlgo;
  }

  lemma ImprintLeaves(o: Order)
    requires Packable(o)
    ensures Run(FRESH, [Call(Imprint(o), SOME_ISSUE)]).pan == Repeat(X_MARK, LEN_PAN)
    ensures o.xchng.ordTyp == "D" ==> Run(FRESH, [Call(Imprint(o), SOME_ISSUE)]).date == 1
  {
    hide Packable, ReachesDate, StagedPacket, BodyOf, PanText, Packs, Copy;
    ImprintPacks(o);
    ImprintPan();
    CopyWhole(FRESH.pan, Repeat(X_MARK, LEN_PAN));
    assert Run(FRESH, [Call(Imprint(o), SOME_ISSUE)]) == AfterPack(FRESH, Imprint(o), SOME_ISSUE);
  }

  lemma {:induction false} UncleanOrderShowsItsPast(o: Order)
    requires Packable(o) && !Clean(o)
    ensures BodyAfter([], o, SOME_ISSUE) != BodyAfter([Call(Imprint(o), SOME_ISSUE)], o, SOME_ISSUE)
  {
    var h := [Call(Imprint(o), SOME_ISSUE)];
    ImprintLeaves(o);
    BodyAfterIs([], o, SOME_ISSUE);
    BodyAfterIs(h, o, SOME_ISSUE);
    var m, m' := Run(FRESH, []), Run(FRESH, h);
    var b, b' := BodyOf(o, m.pan, m.date), BodyOf(o, m'.pan, m'.date);
    BodyOfSized(o, m.pan, m.date);
    BodyOfSized(o, m'.pan, m'.date);
    assert b.middle.liGoodTillDate != b'.middle.liGoodTillDate || b.tail.cPan[LEN_PAN - 1] != b'.tail.cPan[LEN_PAN - 1];
    if BodyBytes(Little, b) == BodyBytes(Little, b') {
      BodiesDiffer(b, b');
    }
  }

  /**
   Of an order that packs, the 316 body bytes are the same after any two histories exactly when
   the order is clean: not a `D` order whose date fails to parse, and a PAN text of full width.
   */
  lemma BodyHistoryIndependence(o: Order)
    requires Packable(o)
    ensures HistoryIndependent(o) <==> Clean(o)
  {
    hide BodyOf, BodyBytes, Packable, Clean;
    if Clean(o) {
      forall h, h', issue, issue' | Packs(o, issue) && Packs(o, issue')
        ensures BodyAfter(h, o, issue) == BodyAfter(h', o, issue')
      {
        BodyAfterIs(h, o, issue);
        BodyAfterIs(h', o, issue');
        CleanBodyForgets(o, Run(FRESH, h).pan, Run(FRESH, h).date, Run(FRESH, h').pan, Run(FRESH, h').date);
      }
    } else {
      UncleanOrderShowsItsPast(o);
      assert Packs(o, SOME_ISSUE);
    }
  }

  /** A trimmed PAN of at most ten characters always fills its field. */
  lemma TrimmedPanFillsItsField(panNo: seq<byte>)
    requires Trimmed(panNo) && |panNo| <= LEN_PAN
    ensures |PanText(panNo)| == LEN_PAN
  {
    assert Trimmed(ToUpper(Pad(panNo, LEN_PAN)));
  }

  /** The padding is not white space, so the "no algorithm" sentinel `*` is never recognised. */
  lemma AlgoSentinelNeverSeen(algoId: seq<byte>)
    ensures |AlgoText(algoId)| == 51
  {
    var trimmed := TrimSpace(Pad(algoId, 51));
    assert Trimmed(Pad(trimmed, 51));
  }

  /** Outside the program flags A, T, Z and G no algorithm id shorter than its 51-byte field packs. */
  lemma OnlyKnownProgramFlagsPack(o: Order)
    requires o.prgmFlg !in {'A', 'T', 'Z', 'G'} && |TrimSpace(Pad(o.order.algoId, 51))| < 51
    ensures !Packable(o)
  {
    AlgoSentinelNeverSeen(o.order.algoId);
    var trimmed := TrimSpace(Pad(o.order.algoId, 51));
    assert Trimmed(Pad(trimmed, 51));
    assert AlgoText(o.order.algoId)[50] == NUL;
  }
}
