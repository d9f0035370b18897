/** When the exchange gets the same packet twice. */
module Repeats {
  import opened Wrappers
  import opened Bytes
  import opened Text
  import opened Codec
  import opened Layout
  import opened Models
  import opened OrderBooks
  import opened Packing
  import opened PackingHistory
  import opened PackClient
  import opened Draining
  import opened Packets
  import opened Progress

  // ---- the order number tells packets apart ----

  /** Where the packet carries the order number: field 56 of the body. */
  const ORDER_NUMBER := 22 + BODY_OFFSETS[56]

  predicate CarriesNumber(p: QPacket, number: int32) {
    |p.stExchMsgData| == 338 && p.stExchMsgData[ORDER_NUMBER..ORDER_NUMBER + 4] == EncodeField(Little, I32(number))
  }

  lemma NumberField(b: OrderBody)
    ensures |BodyFields(b)| == 64 && BodyFields(b)[56] == I32(b.tail.iOrderSeq)
  {
    assert TailFields(b.tail)[10] == I32(b.tail.iOrderSeq);
  }

  lemma NumberInjective(x: int32, y: int32)
    requires EncodeField(Little, I32(x)) == EncodeField(Little, I32(y))
    ensures x == y
  {
    EncodeOne(Little, I32(x));
    EncodeOne(Little, I32(y));
    hide EncodeField, Encode;
    EncodeInjective(Little, [I32(x)], [I32(y)]);
    assert [I32(x)][0] == [I32(y)][0];
  }

  lemma PacketNumber(n: NetHdr, b: OrderBody)
    requires Sized(b) && SizedNet(n)
    ensures CarriesNumber(QPacket(BOARD_LOT_IN, StagedPacket(Little, n, b)), b.tail.iOrderSeq)
  {
    hide BodyFields, StagedPacket, Sized, SizedNet, EncodeField;
    NumberField(b);
    PacketFieldAt(Little, n, b, 56);
  }

  lemma FreshCarriesNumber(m: Memory, en: Entry)
    requires Fresh(en) && |m.pan| == LEN_PAN
    ensures CarriesNumber(FreshPacket(m, en), en.moved.value.1.xchng.ordSeq)
  {
    var (_, o, issue) := en.moved.value;
    hide Packable, StagedPacket, EncodeField, Sized, SizedNet, CarriesNumber;
    BodyOfSized(o, m.pan, m.date);
    PacketNumber(NetHdrOf(issue), BodyOf(o, m.pan, m.date));
  }

  // ---- at most once ----

  ghost predicate NoRepeatedPacket(log: seq<Entry>) {
    forall k, l :: 0 <= k < l < |log| ==> log[k].packet != log[l].packet
  }

  ghost predicate AllFresh(log: seq<Entry>) {
    forall k :: 0 <= k < |log| ==> Fresh(log[k])
  }

  lemma {:induction false} FreshEntryCarriesNumber(c0: Client, st: Setting, turns: seq<(bool, Env)>, k: nat)
    requires c0.mem == FRESH && k < |Exec(Start(c0), st, turns).log| && Fresh(Exec(Start(c0), st, turns).log[k])
    ensures var en := Exec(Start(c0), st, turns).log[k]; CarriesNumber(en.packet, en.moved.value.1.xchng.ordSeq)
  {
    hide Exec, Run, Fresh, CarriesNumber, FreshPacket;
    var log := Exec(Start(c0), st, turns).log;
    FreshOrRepeated(c0, st, turns, k);
    PanKeepsItsLength(FRESH, Calls(log[..k]));
    FreshCarriesNumber(Run(FRESH, Calls(log[..k])), log[k]);
  }

  lemma {:induction false} FreshPacketsDiffer(c0: Client, st: Setting, turns: seq<(bool, Env)>, k: nat, l: nat)
    requires c0.mem == FRESH && UniqueKeys(c0.xb) && UniqueNumbers(c0.xb, st.scope)
    requires k < l < |Exec(Start(c0), st, turns).log|
    requires Fresh(Exec(Start(c0), st, turns).log[k]) && Fresh(Exec(Start(c0), st, turns).log[l])
    ensures var log := Exec(Start(c0), st, turns).log; log[k].packet != log[l].packet
  {
    hide Exec, Packs, EncodeField, UniqueKeys, UniqueNumbers;
    var log := Exec(Start(c0), st, turns).log;
    OrderNumbersAscend(c0, st, turns, k, l);
    FreshEntryCarriesNumber(c0, st, turns, k);
    FreshEntryCarriesNumber(c0, st, turns, l);
    if log[k].packet == log[l].packet {
      NumberInjective(log[k].moved.value.1.xchng.ordSeq, log[l].moved.value.1.xchng.ordSeq);
    }
  }

  /**
   A client that starts fresh sends no packet twice if and only if every message carries an order
   moved in its own turn that packs: then its order number, at a fixed place, tells it from the others.
   */
  lemma {:induction false} NoPacketTwice(c0: Client, st: Setting, turns: seq<(bool, Env)>)
    requires c0.mem == FRESH && UniqueKeys(c0.xb) && UniqueNumbers(c0.xb, st.scope)
    ensures var log := Exec(Start(c0), st, turns).log; NoRepeatedPacket(log) <==> AllFresh(log)
  {
    hide Exec, Fresh, UniqueKeys, UniqueNumbers;
    var log := Exec(Start(c0), st, turns).log;
    if k :| 0 <= k < |log| && !Fresh(log[k]) {
      OnlyOrdersAreSent(c0, st, turns, k);
      FreshOrRepeated(c0, st, turns, k);
      assert log[k].packet == log[k - 1].packet;
    } else {
      forall k, l | 0 <= k < l < |log|
        ensures log[k].packet != log[l].packet
      {
        FreshPacketsDiffer(c0, st, turns, k, l);
      }
    }
  }

  // ---- a run that repeats a packet ----

  /** A row that the client passes over comes after one that it sends. */
  predicate OneAheadOfABlocker(c: Client, st: Setting) {
    && |c.xb| == 2 && |c.ob| == 1 && !Keyed(c.xb[0], c.xb[1].ordrRfrnc, c.xb[1].mdfctnCntr)
    && Movable(c.xb[0], st.scope) && Blocker(c.xb[1], st.scope) && c.xb[0].ordrSqnc < c.xb[1].ordrSqnc
    && c.ob[0].ordrRfrnc == c.xb[0].ordrRfrnc && OrderFits(c.xb[0], c.ob[0]) && TrimSpace(st.scope.xchngCd) == NFO
  }

  lemma BlockerRemains(xb: seq<ExchRow>, after: seq<ExchRow>, s: Scope)
    requires |xb| == 2 && RowMoved(xb, 0, after)
    requires Movable(xb[0], s) && Blocker(xb[1], s) && xb[0].ordrSqnc < xb[1].ordrSqnc
    ensures HeadBlocked(after, s) && UniqueNumbers(after, s)
  {
    LeavesDiffers(xb[0], after[0]);
    assert after[1] == xb[1] && Requested(after[1], s);
    assert after[0].ordrSqnc == xb[0].ordrSqnc;
    hide Leaves, PassedOver;
    assert MinRequested(after, s) == Some(xb[1].ordrSqnc);
  }

  lemma FirstIsNext(c: Client, st: Setting, pick: nat)
    requires OneAheadOfABlocker(c, st)
    ensures NextRow(c.xb, st.scope, pick) == Some(0)
  {
    assert Requested(c.xb[0], st.scope);
  }

  lemma SoundWhenOneAhead(c: Client, st: Setting)
    requires OneAheadOfABlocker(c, st)
    ensures Sound(c, st) && UniqueKeys(c.xb)
  {
    hide OrderFits;
  }

  lemma OnlyTheBlockerIsLeft(c0: Client, st: Setting, e: Env)
    requires OneAheadOfABlocker(c0, st) && Smooth(e) && Sends(c0, st, e)
    ensures var s := Turn(Start(c0), st, true, e);
            s.Runs() && |s.log| == 1 && s.log[0].packet == s.client.mem.packet && s.client.mem.packet.lMsgType >= 1
            && HeadBlocked(s.client.xb, st.scope) && UniqueNumbers(s.client.xb, st.scope)
  {
    FirstIsNext(c0, st, e.pick);
    SoundWhenOneAhead(c0, st);
    UnmovedAtStart(c0, st);
    hide Sound, OnlyMoved, UniqueKeys, NextRow, Turn, Smooth, Sends, NextRecord, Leaves, MarkOrders, PassedOver;
    hide OrderFits, HeadBlocked, UniqueNumbers;
    SmoothTurn(c0, st, Start(c0), e, 0);
    MovedIsNoRest(Start(c0), st, e);
    var i, j := TurnMoves(Start(c0), st, true, e);
    BlockerRemains(c0.xb, Turn(Start(c0), st, true, e).client.xb, st.scope);
    TurnSends(Start(c0), st, true, e);
  }

  lemma BlockedTurnResends(s: Service, st: Setting, e: Env)
    requires s.Runs() && Smooth(e) && s.client.mem.packet.lMsgType >= 1
    requires HeadBlocked(s.client.xb, st.scope) && UniqueNumbers(s.client.xb, st.scope)
    ensures Turn(s, st, true, e).log == s.log + [Entry(None, s.client.mem.packet, e.trailing)]
  {
    NextRowIsRequested(s.client.xb, st.scope, e.pick);
    PassesOver(s.client, st, e);
    hide UniqueNumbers, Queue, OrderAt, NextRow;
  }

  /** The turn after the one that sends the first row sends its packet again. */
  lemma BlockerRepeatsThePacket(c0: Client, st: Setting, e: Env)
    requires OneAheadOfABlocker(c0, st) && Smooth(e) && Sends(c0, st, e)
    ensures var log := Exec(Start(c0), st, [(true, e), (true, e)]).log;
            |log| == 2 && log[0].packet == log[1].packet && !Fresh(log[1])
  {
    hide Turn, OneAheadOfABlocker, Smooth, Sends, HeadBlocked, UniqueNumbers, Exec;
    var s := Turn(Start(c0), st, true, e);
    OnlyTheBlockerIsLeft(c0, st, e);
    BlockedTurnResends(s, st, e);
    NothingYet(Start(c0), st);
    ExecOne(Start(c0), st, [], true, e);
    ExecOne(Start(c0), st, [(true, e)], true, e);
    assert [] + [(true, e)] == [(true, e)] && [(true, e)] + [(true, e)] == [(true, e), (true, e)];
  }

  lemma NothingYet(s: Service, st: Setting)
    ensures Exec(s, st, []) == s
  {
  }
}
