/** What the packing client sends: which packets are fresh, which are sent again, and what is in them. */
module Packets {
  import opened Wrappers
  import opened Bytes
  import opened Text
  import opened Codec
  import opened Layout
  import opened Models
  import opened OrderBooks
  import opened Packing
  import opened PackingHistory
  import opened PackClient
  import opened Draining

  /** The packer runs behind a log. */
  function Calls(log: seq<Entry>): seq<Call> {
    if log == [] then []
    else
      var before := Calls(log[..|log| - 1]);
      match log[|log| - 1].moved
      case None => before
      case Some((_, order, issue)) => before + [Call(order, issue)]
  }

  /**
   The fields the packer gets are the columns of the row; order type `V` becomes `T`. The program
   flag is `T` for a price improvement, and else the first character of the address or of `NA`.
   */
  predicate CarriesColumns(o: Order, q: Request) {
    var x := o.xchng;
    && x.reqTyp == q.rqstTyp && x.slmFlg == q.slmFlg && x.dsclsdQty == q.dsclsdQty && x.ordTotQty == q.ordTotQty
    && x.stpLssTgr == q.stpLssTgr && x.validDate == q.validDate
    && (if q.ordrType == "V" then x.ordTyp == "T" else x.ordTyp == q.ordrType)
    && (q.prcimpvFlg == Some("Y") ==> o.prgmFlg == 'T')
    && (q.prcimpvFlg != Some("Y") && q.ip.None? ==> o.prgmFlg == 'N')
    && (q.prcimpvFlg != Some("Y") && q.ip.Some? ==> q.ip.value != "" && o.prgmFlg == q.ip.value[0])
  }

  /** The column trimmed, and `*` for NULL. */
  predicate Shows(text: seq<byte>, column: Option<seq<byte>>) {
    match column
    case None => text == [42]
    case Some(s) => text == TrimSpace(s)
  }

  predicate ShowsFirst(c: char, column: Option<seq<byte>>) {
    match column
    case None => c == '*'
    case Some(s) => TrimSpace(s) != [] && c == TrimSpace(s)[0] as char
  }

  /** Order and contract have the columns of the order row. */
  predicate CarriesTerms(o: Order, t: Terms) {
    && o.order.ordrFlw == t.ordrFlw && o.order.ordTotQty == t.ordTotQty && o.order.exctdQty == t.exctdQty
    && o.order.exctdQtyDay == t.exctdQtyDay && o.order.proCliInd == t.proCliInd && o.order.xchngAck == t.xchngAck
    && Shows(o.order.panNo, t.panNo) && Shows(o.order.algoId, t.algoId)
    && ShowsFirst(o.order.sourceFlg, t.sourceFlg)
    && o.contract.prdTyp == t.prdTyp && o.contract.ctgryIndstk == t.ctgryIndstk && o.contract.expiry == t.expiry
    && o.contract.exrcTyp == t.exrcTyp && o.contract.optTyp == t.optTyp && o.contract.strikePrc == t.strikePrc
  }

  /** The rest is what the queries of its turn answered; `client` is participant and client code. */
  predicate CarriesAnswers(o: Order, st: Setting, e: Env) {
    && e.client.Some? && o.order.settlor == TrimSpace(e.client.value.0)
    && o.order.clnMtchAccnt == TrimSpace(e.client.value.1)
    && o.pipe == st.pipe && o.custType == e.custType
    && e.ext.Some? && o.contract.symbol == e.ext.value.symbol && o.contract.caLvl == e.ext.value.caLvl
    && o.contract.tokenId == e.ext.value.tokenId
  }

  /** Order row `d` has the reference and the counter of row `r`. */
  predicate Matches(r: ExchRow, d: OrderRow) {
    d.ordrRfrnc == r.ordrRfrnc && d.mdfctnCntr == r.mdfctnCntr
  }

  /** A moved record is packed, whatever comes of it, from the columns of its row and of its order. */
  lemma MovedIsPacked(c: Client, st: Setting, e: Env)
    ensures var (after, o) := NextRecord(c, st, e);
            o.Moved? ==>
              && NextRow(c.xb, st.scope, e.pick) == Some(o.row)
              && after.mem == AfterPack(c.mem, o.order, o.issue)
              && o.order.xchng.ordSeq == c.xb[o.row].ordrSqnc && CarriesColumns(o.order, c.xb[o.row].request)
              && CarriesAnswers(o.order, st, e) && o.issue.digest == e.digest
  {
    hide NextRow, OrderAt, Booked, Loaded, AfterPack, OrStar;
  }

  lemma MovedMatches(c: Client, st: Setting, e: Env)
    ensures var o := NextRecord(c, st, e).1;
            o.Moved? ==>
              && o.row < |c.xb|
              && exists j :: 0 <= j < |c.ob| && Matches(c.xb[o.row], c.ob[j]) && CarriesTerms(o.order, c.ob[j].terms)
  {
    hide NextRow, OrderAt, Booked, Loaded, AfterPack, TrimSpace;
    assert Trimmed([42]);
    var next := NextRow(c.xb, st.scope, e.pick);
    if next.Some? {
      var order := OrderAt(c.ob, c.xb[next.value].ordrRfrnc, e.orderPick);
      if NextRecord(c, st, e).1.Moved? {
        assert Matches(c.xb[next.value], c.ob[order.value]);
      }
    }
  }

  /** The memory after one more entry. */
  function After(m: Memory, en: Entry): Memory {
    match en.moved
    case None => m
    case Some((_, order, issue)) => AfterPack(m, order, issue)
  }

  /** A logged turn sends the packet that is in memory after it; any other leaves log and memory, or stops. */
  lemma TurnSends(s: Service, st: Setting, open: bool, e: Env)
    ensures var t := Turn(s, st, open, e);
            || (t.log == s.log && (t.Runs() ==> t == s))
            || (&& s.Runs() && t.Runs() && t.log != [] && t.log[..|t.log| - 1] == s.log
                && t.client.mem == After(s.client.mem, t.log[|t.log| - 1])
                && t.log[|t.log| - 1].packet == t.client.mem.packet && t.client.mem.packet.lMsgType >= 1)
  {
    MovedIsPacked(s.client, st, e);
    RestKeepsMemory(s.client, st, e);
    hide NextRecord, AfterPack, NextRow;
  }

  lemma RestKeepsMemory(c: Client, st: Setting, e: Env)
    ensures NextRecord(c, st, e).1.Passed? ==> NextRecord(c, st, e).0 == c
  {
    hide NextRow, OrderAt, Booked, Loaded, Pack, Flagged;
  }

  /** Every packet of the log is what the packer runs logged up to there have left in memory. */
  ghost predicate Chained(m: Memory, log: seq<Entry>) {
    log == [] || (
      && Chained(m, log[..|log| - 1])
      && log[|log| - 1].packet == Run(m, Calls(log)).packet && log[|log| - 1].packet.lMsgType >= 1)
  }

  lemma {:induction false} AlwaysChained(c0: Client, st: Setting, turns: seq<(bool, Env)>)
    ensures var s := Exec(Start(c0), st, turns);
            Chained(c0.mem, s.log) && (s.Runs() ==> s.client.mem == Run(c0.mem, Calls(s.log)))
  {
    if turns != [] {
      AlwaysChained(c0, st, turns[..|turns| - 1]);
      var s := Exec(Start(c0), st, turns[..|turns| - 1]);
      var (open, e) := turns[|turns| - 1];
      var t := Turn(s, st, open, e);
      TurnSends(s, st, open, e);
      hide Exec, Turn, AfterPack, Run;
      if t.log != s.log {
        ChainGrows(c0.mem, t.log);
      }
    }
  }

  lemma {:induction false} ChainGrows(m: Memory, log: seq<Entry>)
    requires log != []
    ensures Run(m, Calls(log)) == After(Run(m, Calls(log[..|log| - 1])), log[|log| - 1])
  {
    hide AfterPack, Run;
    var en := log[|log| - 1];
    if en.moved.Some? {
      RunAppend(m, Calls(log[..|log| - 1]), Call(en.moved.value.1, en.moved.value.2));
    }
  }

  lemma {:induction false} ChainedPrefix(m: Memory, log: seq<Entry>, n: nat)
    requires Chained(m, log) && n <= |log|
    ensures Chained(m, log[..n])
  {
    hide Run, Calls;
    if n < |log| {
      ChainedPrefix(m, log[..|log| - 1], n);
      assert log[..|log| - 1][..n] == log[..n];
    } else {
      assert log[..n] == log;
    }
  }

  /** The packet in memory before entry `k`: that of the entry before it, or the one from the start. */
  function PacketBefore(m: Memory, log: seq<Entry>, k: nat): QPacket
    requires k < |log|
  {
    if k == 0 then m.packet else log[k - 1].packet
  }

  predicate Fresh(en: Entry) {
    en.moved.Some? && Packs(en.moved.value.1, en.moved.value.2)
  }

  /** The packet of an order that packs into the memory `m`. */
  function FreshPacket(m: Memory, en: Entry): QPacket
    requires Fresh(en)
  {
    var (_, order, issue) := en.moved.value;
    QPacket(BOARD_LOT_IN, StagedPacket(Little, NetHdrOf(issue), BodyOf(order, m.pan, m.date)))
  }

  lemma AfterMoved(m: Memory, en: Entry)
    ensures en.moved.Some? ==> After(m, en) == AfterPack(m, en.moved.value.1, en.moved.value.2)
  {
  }

  lemma PacketAfter(m: Memory, en: Entry)
    ensures After(m, en).packet == if Fresh(en) then FreshPacket(m, en) else m.packet
  {
    hide StagedPacket, BodyOf, Packable, ReachesDate;
  }

  lemma {:induction false} ChainedPackets(m: Memory, log: seq<Entry>, k: nat)
    requires Chained(m, log) && k < |log|
    ensures log[k].packet == After(Run(m, Calls(log[..k])), log[k]).packet
    ensures Run(m, Calls(log[..k])).packet == PacketBefore(m, log, k)
    ensures log[k].packet.lMsgType >= 1
  {
    hide AfterPack;
    ChainedPrefix(m, log, k);
    ChainedPrefix(m, log, k + 1);
    var upTo := log[..k + 1];
    assert upTo[..k] == log[..k] && upTo[k] == log[k];
    ChainGrows(m, upTo);
  }

  /**
   What the k-th message of a run carries: the packet of the order moved in that turn if that
   order packs, and otherwise once more the packet of the message before it.
   */
  lemma {:induction false} FreshOrRepeated(c0: Client, st: Setting, turns: seq<(bool, Env)>, k: nat)
    requires k < |Exec(Start(c0), st, turns).log|
    ensures var log := Exec(Start(c0), st, turns).log;
            log[k].packet == if Fresh(log[k]) then FreshPacket(Run(c0.mem, Calls(log[..k])), log[k])
                             else PacketBefore(c0.mem, log, k)
  {
    var log := Exec(Start(c0), st, turns).log;
    AlwaysChained(c0, st, turns);
    ChainedPackets(c0.mem, log, k);
    PacketAfter(Run(c0.mem, Calls(log[..k])), log[k]);
    hide Exec, Run, Calls, FreshPacket, Fresh, After;
  }

  /** Nothing has been packed yet, or the packet is an order message of full size. */
  predicate OrderOrEmpty(p: QPacket) {
    p == EMPTY_PACKET || (p.lMsgType == BOARD_LOT_IN && |p.stExchMsgData| == 338)
  }

  lemma PackedIsOrder(m: Memory, o: Order, issue: Issue)
    requires OrderOrEmpty(m.packet) && |m.pan| == LEN_PAN
    ensures OrderOrEmpty(AfterPack(m, o, issue).packet) && |AfterPack(m, o, issue).pan| == LEN_PAN
  {
    hide Packable, ReachesDate, BodyOf, PanText, StagedPacket, Sized;
    if Packs(o, issue) {
      BodyOfSized(o, m.pan, m.date);
      PacketPlacement(Little, NetHdrOf(issue), BodyOf(o, m.pan, m.date));
    }
  }

  lemma {:induction false} RunIsOrder(m: Memory, calls: seq<Call>)
    requires OrderOrEmpty(m.packet) && |m.pan| == LEN_PAN
    ensures OrderOrEmpty(Run(m, calls).packet)
    decreases calls
  {
    hide AfterPack, OrderOrEmpty;
    if calls != [] {
      PackedIsOrder(m, calls[0].order, calls[0].issue);
      RunIsOrder(AfterPack(m, calls[0].order, calls[0].issue), calls[1..]);
    }
  }

  /**
   A client that starts fresh only ever sends full order messages: the empty packet it starts
   with is refused by the queue, so its first completed turn has packed an order.
   */
  lemma {:induction false} OnlyOrdersAreSent(c0: Client, st: Setting, turns: seq<(bool, Env)>, k: nat)
    requires c0.mem == FRESH && k < |Exec(Start(c0), st, turns).log|
    ensures var log := Exec(Start(c0), st, turns).log;
            log[k].packet.lMsgType == BOARD_LOT_IN && |log[k].packet.stExchMsgData| == 338 && Fresh(log[0])
  {
    hide Exec, Run, Calls, FreshPacket, Fresh, After;
    var log := Exec(Start(c0), st, turns).log;
    AlwaysChained(c0, st, turns);
    ChainedPackets(FRESH, log, k);
    ChainedPrefix(FRESH, log, k + 1);
    RunIsOrder(FRESH, Calls(log[..k + 1]));
    assert log[..k + 1][k] == log[k];
    FreshOrRepeated(c0, st, turns, 0);
    ChainedPackets(FRESH, log, 0);
  }

  /** The body of a fresh message whose order is clean depends on that order alone. */
  lemma {:induction false} CleanMessagesForget(c0: Client, st: Setting, turns: seq<(bool, Env)>, k: nat)
    requires c0.mem == FRESH && k < |Exec(Start(c0), st, turns).log|
    ensures var en := Exec(Start(c0), st, turns).log[k];
            Fresh(en) && Clean(en.moved.value.1) ==>
              && |en.packet.stExchMsgData| == 338
              && en.packet.stExchMsgData[22..] == BodyAfter([], en.moved.value.1, en.moved.value.2)
  {
    hide Exec, Run, Calls, FreshPacket, Packable, Clean, AfterPack, Chained, After;
    var log := Exec(Start(c0), st, turns).log;
    OnlyOrdersAreSent(c0, st, turns, k);
    AlwaysChained(c0, st, turns);
    ChainedPackets(FRESH, log, k);
    AfterMoved(Run(FRESH, Calls(log[..k])), log[k]);
    var en := log[k];
    if Fresh(en) && Clean(en.moved.value.1) {
      var (_, o, issue) := en.moved.value;
      BodyHistoryIndependence(o);
      assert BodyAfter(Calls(log[..k]), o, issue) == BodyAfter([], o, issue);
    }
  }

  // ---- the orders behind the messages ----

  /** A moved entry packs the columns that its row and the order of its row had at the start. */
  ghost predicate FromBooks(c0: Client, en: Entry) {
    en.moved.Some? ==>
      var (i, order, _) := en.moved.value;
      && i < |c0.xb| && order.xchng.ordSeq == c0.xb[i].ordrSqnc && CarriesColumns(order, c0.xb[i].request)
      && exists j :: 0 <= j < |c0.ob| && Matches(c0.xb[i], c0.ob[j]) && CarriesTerms(order, c0.ob[j].terms)
  }

  /** The rest of the entry is what the environment answered in the turn `e`. */
  predicate FromTurn(st: Setting, en: Entry, e: Env) {
    && en.trailing == e.trailing
    && (en.moved.Some? ==> CarriesAnswers(en.moved.value.1, st, e) && en.moved.value.2.digest == e.digest)
  }

  /** The k-th entry of a log is that of the k-th turn which passed the gate. */
  ghost predicate FromBooksAndTurns(c0: Client, st: Setting, log: seq<Entry>, opens: seq<(bool, Env)>) {
    && |log| <= |opens|
    && forall k :: 0 <= k < |log| ==> FromBooks(c0, log[k]) && FromTurn(st, log[k], opens[k].1)
  }

  lemma {:induction false} EntriesComeFromBooks(c0: Client, st: Setting, turns: seq<(bool, Env)>)
    requires UniqueKeys(c0.xb)
    ensures FromBooksAndTurns(c0, st, Exec(Start(c0), st, turns).log, OpenTurns(turns))
  {
    hide OnlyMoved, UniqueKeys, FromBooks, FromTurn, Turn, RestingTurn, MovingTurn;
    if turns != [] {
      EntriesComeFromBooks(c0, st, turns[..|turns| - 1]);
      var s, open, e, i, j := LastTurn(c0, st, turns);
      EntryComesFromBooks(c0, st, s, open, e);
      LogCountsTurns(c0, st, turns[..|turns| - 1]);
      ExecOne(Start(c0), st, turns[..|turns| - 1], open, e);
    }
  }

  lemma RecordComesFromBooks(c0: Client, st: Setting, c: Client, e: Env)
    requires OnlyMoved(c0, st, c)
    ensures var o := NextRecord(c, st, e).1;
            o.Moved? ==>
              && o.row < |c0.xb| && o.order.xchng.ordSeq == c0.xb[o.row].ordrSqnc
              && CarriesColumns(o.order, c0.xb[o.row].request)
              && CarriesAnswers(o.order, st, e) && o.issue.digest == e.digest
              && exists j :: 0 <= j < |c0.ob| && Matches(c0.xb[o.row], c0.ob[j])
                             && CarriesTerms(o.order, c0.ob[j].terms)
  {
    MovedIsPacked(c, st, e);
    MovedMatches(c, st, e);
    NextWasDue(c0, st, c, e.pick);
    hide NextRow, NextRecord, CarriesTerms, CarriesColumns, CarriesAnswers, Leaves, Movable;
    var o := NextRecord(c, st, e).1;
    if o.Moved? {
      var j :| 0 <= j < |c.ob| && Matches(c.xb[o.row], c.ob[j]) && CarriesTerms(o.order, c.ob[j].terms);
      SameKey(c0, st, c, o.row);
      assert Matches(c0.xb[o.row], c0.ob[j]);
    }
  }

  lemma SameKey(c0: Client, st: Setting, c: Client, i: nat)
    requires OnlyMoved(c0, st, c) && i < |c.xb|
    ensures Keyed(c.xb[i], c0.xb[i].ordrRfrnc, c0.xb[i].mdfctnCntr)
  {
    hide RTrim;
  }

  lemma EntryComesFromBooks(c0: Client, st: Setting, s: Service, open: bool, e: Env)
    requires OnlyMoved(c0, st, s.client)
    ensures var t := Turn(s, st, open, e);
            t.log == s.log ||
            (&& s.Runs() && open && t.log != [] && t.log[..|t.log| - 1] == s.log
             && FromBooks(c0, t.log[|t.log| - 1]) && FromTurn(st, t.log[|t.log| - 1], e))
  {
    RecordComesFromBooks(c0, st, s.client, e);
    hide NextRecord, OnlyMoved, CarriesTerms, CarriesColumns, CarriesAnswers, Matches;
  }

  lemma {:induction false} MovedRowsInOrder(log: seq<Entry>, k: nat, l: nat) returns (a: nat, b: nat)
    requires k < |log| && l < |log| && log[k].moved.Some? && log[l].moved.Some?
    ensures a < |MovedRows(log)| && MovedRows(log)[a] == log[k].moved.value.0
    ensures b < |MovedRows(log)| && MovedRows(log)[b] == log[l].moved.value.0
    ensures k < l ==> a < b
  {
    var before := log[..|log| - 1];
    if k < |before| && l < |before| {
      a, b := MovedRowsInOrder(before, k, l);
    } else if k < |before| {
      a, b := MovedRowsInOrder(before, k, k);
      b := |MovedRows(log)| - 1;
    } else if l < |before| {
      a, b := MovedRowsInOrder(before, l, l);
      a := |MovedRows(log)| - 1;
    } else {
      a, b := |MovedRows(log)| - 1, |MovedRows(log)| - 1;
    }
  }

  /** The order numbers packed into the messages of a run never go down, and strictly go up where they are unique. */
  lemma {:induction false} OrderNumbersAscend(c0: Client, st: Setting, turns: seq<(bool, Env)>, k: nat, l: nat)
    requires UniqueKeys(c0.xb) && k < l < |Exec(Start(c0), st, turns).log|
    ensures var log := Exec(Start(c0), st, turns).log;
            log[k].moved.Some? && log[l].moved.Some? ==>
              var first, second := log[k].moved.value.1.xchng.ordSeq, log[l].moved.value.1.xchng.ordSeq;
              first <= second && (UniqueNumbers(c0.xb, st.scope) ==> first < second)
  {
    var log := Exec(Start(c0), st, turns).log;
    if log[k].moved.Some? && log[l].moved.Some? {
      EntriesComeFromBooks(c0, st, turns);
      var rows := DrainOrder(c0, st, turns);
      var a, b := MovedRowsInOrder(log, k, l);
      assert rows[a] == log[k].moved.value.0 && rows[b] == log[l].moved.value.0;
      hide Exec, MovedRows, UniqueKeys, Tallied, NoneLower, CarriesTerms, CarriesColumns, PassedOver;
      assert FromBooks(c0, log[k]) && FromBooks(c0, log[l]);
      assert UniqueNumbers(c0.xb, st.scope) ==> !Numbered(c0.xb[rows[b]], st.scope, c0.xb[rows[a]].ordrSqnc);
    }
  }
}
