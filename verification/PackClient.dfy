/** The packing client: from the next requested row to a packet in the queue. */
module PackClient {
  import opened Wrappers
  import opened Bytes
  import opened Text
  import opened OrderBooks
  import opened Packing
  import opened MessageQueue
  import TypeConversion

  const NFO: seq<byte> := [78, 70, 79]
  const BFO: seq<byte> := [66, 70, 79]

  /** What stays fixed while the client runs. */
  datatype Setting = Setting(scope: Scope, pipe: PipeMaster)

  /** Symbol, token and corporate-action level of a contract, from the three contract tables. */
  datatype ExtContract = ExtContract(symbol: seq<byte>, tokenId: int32, caLvl: int32)

  /** The bytes that follow a 338-byte payload in the message handed to the kernel. */
  type Tail = t: seq<byte> | |t| == 14 witness Repeat(NUL, 14)

  /**
   What database, clock, queue and the other threads do during one turn: which of several rows a
   query returns, which statements fail, what the lookups answer (`None` when one of them fails),
   and how many messages are taken off the queue before the gate and before the write.
   */
  datatype Env = Env(
    statOk: bool, taken: nat, takenLater: nat, accepts: bool, trailing: Tail,
    beginFails: bool, commitFails: bool, readFails: bool, pick: nat, orderReadFails: bool, orderPick: nat,
    client: Option<(seq<byte>, seq<byte>)>, book: UpdateFaults, now: string, orderUpdateFails: bool,
    ext: Option<ExtContract>, clock: Option<string>, reject: UpdateFaults,
    custType: Option<string>, draw: TypeConversion.DrawFaults, digest: Digest)

  /** Both books, the structs shared by all orders, and the sequence counters. */
  datatype Client = Client(
    xb: seq<ExchRow>, ob: seq<OrderRow>, mem: Memory, counters: map<TypeConversion.SeqKey, int>)

  // ---- the order that a row describes ----

  function ProgramFlag(r: Request): string {
    if r.prcimpvFlg == Some("Y") then "T" else match r.ip case None => "NA" case Some(ip) => ip
  }

  /** The column, or `*` for NULL, trimmed. */
  function OrStar(column: Option<seq<byte>>): seq<byte> {
    TrimSpace(match column case None => [STAR] case Some(text) => text)
  }

  /** PAN, algorithm and source flag of an order, `*` for NULL, trimmed. */
  predicate Options(t: Terms, panNo: seq<byte>, algoId: seq<byte>, sourceFlg: seq<byte>) {
    panNo == OrStar(t.panNo) && algoId == OrStar(t.algoId) && sourceFlg == OrStar(t.sourceFlg)
  }

  /** The packer takes the first byte of both flags, and stops the program when one is empty. */
  predicate Flagged(q: Request, t: Terms) {
    ProgramFlag(q) != "" && OrStar(t.sourceFlg) != []
  }

  function ContractOf(t: Terms, ext: ExtContract): NseContract {
    NseContract(t.prdTyp, t.ctgryIndstk, ext.symbol, ext.caLvl, ext.tokenId, t.expiry, t.exrcTyp, t.optTyp, t.strikePrc)
  }

  function RequestOf(q: Request, sqnc: int32): XchngFields {
    XchngFields(q.rqstTyp, q.slmFlg, if q.ordrType == "V" then "T" else q.ordrType, q.dsclsdQty, q.ordTotQty,
                q.stpLssTgr, sqnc, q.validDate)
  }

  /** `client` holds the participant code and the client code of the order's account. */
  function OrderOf(q: Request, sqnc: int32, t: Terms, client: (seq<byte>, seq<byte>), pipe: PipeMaster,
                   ext: ExtContract, custType: Option<string>): Order
    requires Flagged(q, t)
  {
    Order(
      RequestOf(q, sqnc),
      OrderFields(TrimSpace(client.1), t.ordrFlw, t.ordTotQty, t.exctdQty, t.exctdQtyDay, TrimSpace(client.0),
                  t.proCliInd, t.xchngAck, OrStar(t.panNo), OrStar(t.algoId), OrStar(t.sourceFlg)[0] as char),
      pipe, ContractOf(t, ext), ProgramFlag(q)[0], custType)
  }

  // ---- one record ----

  /** `Token id not available`. */
  const TOKEN_ID_NOT_AVAILABLE: seq<byte> :=
    [84, 111, 107, 101, 110, 32, 105, 100, 32, 110, 111, 116, 32, 97, 118, 97, 105, 108, 97, 98, 108, 101]

  function Rejection(time: string): Update {
    Response(REJECT, NOT_PROCESSED, ORS_NEW_ORD_RJCT, time, TOKEN_ID_NOT_AVAILABLE, 0.0)
  }

  datatype Stage =
    | NoRow | NotRequested | NoOrder | CountersDiffer | BookNotUpdated | OrderNotUpdated | NoContract | NotRejected | Panic

  /** A record is passed over, or moved out of the requested state and given to the packer, or it fails. */
  datatype Outcome = Passed | Moved(row: nat, order: Order, issue: Issue) | Failed(stage: Stage)

  /** Both books after the two updates to queued, and what failed; a failed second update leaves the first one. */
  function Booked(xb: seq<ExchRow>, ob: seq<OrderRow>, rfrnc: string, cntr: int32, e: Env):
    (r: (seq<ExchRow>, seq<OrderRow>, Option<Stage>))
    ensures r.2 != Some(Panic)
  {
    if e.book.updateFails then (xb, ob, Some(BookNotUpdated))
    else
      var queued := UpdateWhere(xb, rfrnc, cntr, Forward(QUEUED, e.now));
      if e.orderUpdateFails then (queued, ob, Some(OrderNotUpdated))
      else (queued, MarkOrders(ob, rfrnc, QUEUED), None)
  }

  /** The exchange book after the contract lookup, which rejects a row whose contract has no token. */
  function Loaded(xb: seq<ExchRow>, rfrnc: string, cntr: int32, st: Setting, xchngCd: seq<byte>, t: Terms, e: Env):
    (r: (seq<ExchRow>, Option<Stage>))
    ensures r.1.None? ==> e.ext.Some?
    ensures r.1 != Some(Panic)
  {
    if TrimSpace(st.scope.xchngCd) != NFO || (xchngCd != NFO && xchngCd != BFO) || t.expiry.None? || e.ext.None?
    then (xb, Some(NoContract))
    else if e.ext.value.tokenId != 0 then (xb, None)
    else if e.clock.None? || e.reject.updateFails then (xb, Some(NotRejected))
    else (UpdateWhere(xb, rfrnc, cntr, Rejection(e.clock.value)), None)
  }

  /** Row `i`, whose order is `j`, is queued in both books, rejected if it has no token, and packed all the same. */
  function Queue(c: Client, st: Setting, i: nat, j: nat, e: Env): (r: (Client, Outcome))
    requires i < |c.xb| && j < |c.ob| && e.client.Some?
  {
    hide Booked, Loaded, Flagged, Pack;
    var row, order := c.xb[i], c.ob[j];
    var (queued, ob, fault) := Booked(c.xb, c.ob, row.ordrRfrnc, row.mdfctnCntr, e);
    if fault.Some? then (c.(xb := queued, ob := ob), Failed(fault.value))
    else
      var (xb, refused) := Loaded(queued, row.ordrRfrnc, row.mdfctnCntr, st, order.xchngCd, order.terms, e);
      if refused.Some? then (c.(xb := xb, ob := ob), Failed(refused.value))
      else if !Flagged(row.request, order.terms) then (c.(xb := xb, ob := ob), Failed(Panic))
      else Pack(c.(xb := xb, ob := ob), st, i, row.request, row.ordrSqnc, order.terms, e)
  }

  function Pack(c: Client, st: Setting, i: nat, q: Request, sqnc: int32, t: Terms, e: Env): (r: (Client, Outcome))
    requires e.client.Some? && e.ext.Some? && Flagged(q, t)
    ensures r.0.xb == c.xb && r.0.ob == c.ob && r.1.Moved? && r.1.row == i
    ensures r.0.mem == AfterPack(c.mem, r.1.order, r.1.issue)
    ensures r.1.order.contract == ContractOf(t, e.ext.value)
  {
    var o := OrderOf(q, sqnc, t, e.client.value, st.pipe, e.ext.value, e.custType);
    var key := (st.scope.pipeId, st.scope.modTrdDt);
    var issue := IssueOf(c.counters, key, e.draw, e.digest);
    (c.(mem := AfterPack(c.mem, o, issue),
     counters := if Packable(o) then TypeConversion.Draw(c.counters, key, e.draw).0 else c.counters),
     Moved(i, o, issue))
  }

  function NextRecord(c: Client, st: Setting, e: Env): (r: (Client, Outcome)) {
    match NextRow(c.xb, st.scope, e.pick)
    case None => (c, Failed(NoRow))
    case Some(i) =>
      var row := c.xb[i];
      if e.readFails then (c, Failed(NoRow))
      else if row.rmsPrcsdFlg == RMS_PROCESSED then (c, Passed)
      else if row.plcdStts != REQUESTED then (c, Failed(NotRequested))
      else if row.exOrdrTyp != ORDINARY_ORDER then (c, Passed)
      else
        match OrderAt(c.ob, row.ordrRfrnc, e.orderPick)
        case None => (c, Failed(NoOrder))
        case Some(j) =>
          if e.orderReadFails || e.client.None? then (c, Failed(NoOrder))
          else if row.mdfctnCntr != c.ob[j].mdfctnCntr then (c, Failed(CountersDiffer))
          else Queue(c, st, i, j, e)
  }

  // ---- the service ----

  /** A completed turn: the row, if one was moved, with its order; and what went into the queue. */
  datatype Entry = Entry(moved: Option<(nat, Order, Issue)>, packet: QPacket, trailing: Tail)

  function MessageOf(p: QPacket, trailing: Tail): KMessage {
    Sent(BoardLot(p.lMsgType, p.stExchMsgData), trailing)
  }

  function Messages(log: seq<Entry>): (ms: seq<KMessage>)
    ensures |ms| == |log|
  {
    seq(|log|, k requires 0 <= k < |log| => MessageOf(log[k].packet, log[k].trailing))
  }

  /** Whether the loop still turns, and at which stage of a record it stopped, if it was at one. */
  datatype Status = Running | Stopped(stage: Option<Stage>)

  /** `log` holds one entry for each message written. */
  datatype Service = Service(client: Client, log: seq<Entry>, status: Status) {
    predicate Runs() {
      status == Running
    }
  }

  function Start(c: Client): Service {
    Service(c, [], Running)
  }

  function EntryOf(o: Outcome, packet: QPacket, trailing: Tail): Entry
    requires !o.Failed?
  {
    Entry(match o case Moved(i, order, issue) => Some((i, order, issue)) case Passed => None, packet, trailing)
  }

  /** One round of the loop; `open` is whether the capacity gate lets it pass. */
  function Turn(s: Service, st: Setting, open: bool, e: Env): Service {
    if !s.Runs() || !open then s
    else if e.beginFails then s.(status := Stopped(None))
    else
      var (c, outcome) := NextRecord(s.client, st, e);
      if outcome.Failed? then Service(c, s.log, Stopped(Some(outcome.stage)))
      else if e.commitFails || c.mem.packet.lMsgType < 1 || !e.accepts then Service(c, s.log, Stopped(None))
      else Service(c, s.log + [EntryOf(outcome, c.mem.packet, e.trailing)], Running)
  }

  function Exec(s: Service, st: Setting, turns: seq<(bool, Env)>): Service {
    if turns == [] then s
    else
      var last := turns[|turns| - 1];
      Turn(Exec(s, st, turns[..|turns| - 1]), st, last.0, last.1)
  }

  // ---- the client itself ----

  const FAILURE := -1
  const PANIC := -2

  /** The result of fetching a record; `PANIC` stands for the program stopping inside it. */
  function Code(o: Outcome): int {
    match o
    case Failed(Panic) => PANIC
    case Failed(_) => FAILURE
    case _ => 0
  }

  /** `after` holds what is left of `before` and then of the `written` messages: only the oldest have gone. */
  ghost predicate FollowsBy(before: seq<KMessage>, written: seq<KMessage>, after: seq<KMessage>) {
    var all := before + written;
    |after| <= |all| && after == all[|all| - |after|..]
  }

  lemma OneFollows(before: seq<KMessage>, mid: seq<KMessage>, m: KMessage)
    requires FollowsBy(before, [], mid)
    ensures FollowsBy(before, [m], mid + [m])
  {
    assert before + [] == before;
    assert (before + [m])[|before| - |mid|..] == mid + [m];
  }

  lemma NothingFollows(queue: seq<KMessage>, log: seq<Entry>)
    ensures Messages(log[|log|..]) == [] && FollowsBy(queue, [], queue)
  {
    assert queue + [] == queue;
  }

  lemma FollowsChain(before: seq<KMessage>, log: seq<Entry>, mid: seq<KMessage>, longer: seq<Entry>,
                     after: seq<KMessage>)
    requires |log| <= |longer| && longer[..|log|] == log
    requires FollowsBy(before, Messages(log), mid) && FollowsBy(mid, Messages(longer[|log|..]), after)
    ensures FollowsBy(before, Messages(longer), after)
  {
    var w, v := Messages(log), Messages(longer[|log|..]);
    assert Messages(longer) == w + v;
    assert before + (w + v) == (before + w) + v;
    assert mid + v == ((before + w) + v)[|before + w| - |mid|..];
  }

  /** The gate, after other threads have taken messages; nobody else adds any. */
  method ThroughGate(mqm: MessageQueueManager, e: Env, ghost log: seq<Entry>) returns (open: bool)
    requires mqm.Valid()
    modifies mqm
    ensures mqm.Valid() && |mqm.queue| <= |old(mqm.queue)| && (open ==> |mqm.queue| < QUEUE_LIMIT)
    ensures FollowsBy(old(mqm.queue), Messages(log[|log|..]), mqm.queue)
  {
    OthersTake(mqm, e.taken);
    var res := mqm.FnCanWriteToQueue(e.statOk);
    return res == 0;
  }

  lemma ClosedTurn(s: Service, st: Setting, e: Env)
    ensures Turn(s, st, false, e) == s
  {
  }

  lemma ExecOne(s: Service, st: Setting, turns: seq<(bool, Env)>, open: bool, e: Env)
    ensures Exec(s, st, turns + [(open, e)]) == Turn(Exec(s, st, turns), st, open, e)
  {
    hide Turn;
    assert (turns + [(open, e)])[..|turns|] == turns;
  }

  lemma NewMessages(log: seq<Entry>, en: Entry)
    ensures Messages((log + [en])[|log|..]) == [MessageOf(en.packet, en.trailing)]
  {
    assert (log + [en])[|log|..] == [en];
  }

  /** Other threads take up to `n` messages off the queue. */
  method OthersTake(mqm: MessageQueueManager, n: nat)
    requires mqm.Valid()
    modifies mqm
    ensures mqm.Valid() && |mqm.queue| <= |old(mqm.queue)|
    ensures FollowsBy(old(mqm.queue), [], mqm.queue)
  {
    assert mqm.queue + [] == mqm.queue;
    mqm.queue := mqm.queue[if n < |mqm.queue| then n else |mqm.queue|..];
  }

  class ClnPackClntManager {
    const st: Setting
    // the database
    var xb: seq<ExchRow>
    var ob: seq<OrderRow>
    const seqTable: TypeConversion.SequenceTable
    // the record in hand
    var xchngbook: ExchRow
    var oprnTyp: char
    var dwnldFlg: int
    var prgmFlg: string
    var orderbook: OrderRow
    var clientCodes: (seq<byte>, seq<byte>)
    var cPanNo: seq<byte>
    var cAlgoId: seq<byte>
    var cSourceFlg: seq<byte>
    var nseContract: NseContract
    // the packer and its structs
    const eplm: ExchngPackLibMaster

    ghost predicate Valid()
      reads this, eplm, eplm.intHeader, eplm.contractDesc, eplm.oe, eplm.netHdr
    {
      eplm.Valid() && dwnldFlg != DOWNLOAD
    }

    ghost function State(): Client
      reads this, seqTable, eplm, eplm.oe
    {
      Client(xb, ob, eplm.Mem(), seqTable.rows)
    }

    constructor (st: Setting, xb: seq<ExchRow>, ob: seq<OrderRow>, seqTable: TypeConversion.SequenceTable,
                 xchngbook: ExchRow, orderbook: OrderRow, nseContract: NseContract)
      ensures Valid() && State() == Client(xb, ob, FRESH, seqTable.rows) && this.st == st && this.seqTable == seqTable
      ensures fresh(eplm) && fresh(eplm.intHeader) && fresh(eplm.contractDesc) && fresh(eplm.orderFlag)
      ensures fresh(eplm.oe) && fresh(eplm.netHdr)
    {
      this.st, this.xb, this.ob, this.seqTable := st, xb, ob, seqTable;
      this.xchngbook, this.orderbook, this.nseContract := xchngbook, orderbook, nseContract;
      oprnTyp, dwnldFlg, prgmFlg, clientCodes := UPDATION_ON_ORDER_FORWARDING, 0, "0", ([], []);
      cPanNo, cAlgoId, cSourceFlg := [], [], [];
      eplm := new ExchngPackLibMaster();
    }

    method FnSeqToOmd(e: Env) returns (res: int)
      modifies this`xchngbook, this`prgmFlg
      ensures res == if NextRow(xb, st.scope, e.pick).None? || e.readFails then FAILURE else 0
      ensures res == 0 ==> xchngbook == xb[NextRow(xb, st.scope, e.pick).value]
      ensures res == 0 ==> prgmFlg == ProgramFlag(xchngbook.request)
    {
      var i := NextRow(xb, st.scope, e.pick);
      if i.None? || e.readFails {
        return FAILURE;
      }
      xchngbook := xb[i.value];
      var cIpAddrs := if xchngbook.request.ip.None? then "NA" else xchngbook.request.ip.value;
      var cPrcimpvFlg := if xchngbook.request.prcimpvFlg.None? then "N" else xchngbook.request.prcimpvFlg.value;
      if cPrcimpvFlg == "Y" {
        prgmFlg := "T";
      } else {
        prgmFlg := cIpAddrs;
      }
      return 0;
    }

    /** The order row and its client; either query may fail. */
    method FnRefToOrd(rfrnc: string, e: Env) returns (res: int)
      modifies this`orderbook, this`clientCodes, this`cPanNo, this`cAlgoId, this`cSourceFlg
      ensures res == if OrderAt(ob, rfrnc, e.orderPick).None? || e.orderReadFails || e.client.None? then FAILURE else 0
      ensures res == 0 ==> orderbook == ob[OrderAt(ob, rfrnc, e.orderPick).value] && clientCodes == e.client.value
      ensures res == 0 ==> Options(orderbook.terms, cPanNo, cAlgoId, cSourceFlg)
    {
      var j := OrderAt(ob, rfrnc, e.orderPick);
      if j.None? || e.orderReadFails {
        return FAILURE;
      }
      orderbook := ob[j.value];
      var t := orderbook.terms;
      cPanNo := if t.panNo.Some? then t.panNo.value else [STAR];
      cAlgoId := if t.algoId.Some? then t.algoId.value else [STAR];
      cSourceFlg := if t.sourceFlg.Some? then t.sourceFlg.value else [STAR];
      cPanNo, cAlgoId, cSourceFlg := TrimSpace(cPanNo), TrimSpace(cAlgoId), TrimSpace(cSourceFlg);
      if e.client.None? {
        return FAILURE;
      }
      clientCodes := e.client.value;
      return 0;
    }

    method FnUpdXchngbk(now: string, faults: UpdateFaults) returns (res: int)
      modifies this`xb
      ensures (xb, res == 0) == UpdateBook(old(xb), xchngbook, oprnTyp, dwnldFlg, now, faults)
      ensures res == 0 || res == FAILURE
    {
      match oprnTyp {
        case 'P' =>
          if faults.updateFails {
            return FAILURE;
          }
          xb := UpdateWhere(xb, xchngbook.ordrRfrnc, xchngbook.mdfctnCntr, Forward(xchngbook.plcdStts, now));
        case 'R' =>
          if dwnldFlg == DOWNLOAD {
            if faults.countFails {
              return FAILURE;
            }
            if Recorded(xb, xchngbook) {
              return FAILURE;
            }
          }
          if faults.updateFails {
            return FAILURE;
          }
          xb := UpdateWhere(
            xb, xchngbook.ordrRfrnc, xchngbook.mdfctnCntr,
            Response(xchngbook.plcdStts, xchngbook.rmsPrcsdFlg, xchngbook.orsMsgTyp, xchngbook.ackTm,
                     xchngbook.xchngRmrks, xchngbook.jiffy));
        case _ =>
          return FAILURE;
      }
      return 0;
    }

    method FnUpdOrdrbk(fails: bool) returns (res: int)
      modifies this`ob
      ensures res == if fails then FAILURE else 0
      ensures ob == if fails then old(ob) else MarkOrders(old(ob), orderbook.ordrRfrnc, orderbook.ordrStts)
    {
      if fails {
        return FAILURE;
      }
      ob := MarkOrders(ob, orderbook.ordrRfrnc, orderbook.ordrStts);
      return 0;
    }

    method FnGetExtCnt(e: Env) returns (res: int)
      modifies this`nseContract
      ensures res == if (orderbook.xchngCd == NFO || orderbook.xchngCd == BFO) && orderbook.terms.expiry.Some?
                        && e.ext.Some? then 0 else FAILURE
      ensures res == 0 ==> nseContract == ContractOf(orderbook.terms, e.ext.value)
    {
      if orderbook.xchngCd != NFO && orderbook.xchngCd != BFO {
        return FAILURE;
      }
      if orderbook.terms.expiry.None? {
        return FAILURE;
      }
      if e.ext.None? {
        return FAILURE;
      }
      nseContract := nseContract.(prdTyp := orderbook.terms.prdTyp, expiry := orderbook.terms.expiry);
      nseContract := nseContract.(exrcTyp := orderbook.terms.exrcTyp, optTyp := orderbook.terms.optTyp);
      nseContract := nseContract.(strikePrc := orderbook.terms.strikePrc, symbol := e.ext.value.symbol);
      nseContract := nseContract.(ctgryIndstk := orderbook.terms.ctgryIndstk);
      nseContract := nseContract.(tokenId := e.ext.value.tokenId, caLvl := e.ext.value.caLvl);
      return 0;
    }

    method FnRjctRcrd(e: Env) returns (res: int)
      requires dwnldFlg != DOWNLOAD
      modifies this`xb, this`xchngbook, this`oprnTyp
      ensures res == if e.clock.None? || e.reject.updateFails then FAILURE else 0
      ensures xb == if res != 0 then old(xb)
                    else UpdateWhere(old(xb), old(xchngbook).ordrRfrnc, old(xchngbook).mdfctnCntr,
                                     Rejection(e.clock.value))
      ensures xchngbook.request == old(xchngbook).request && xchngbook.ordrSqnc == old(xchngbook).ordrSqnc
    {
      if e.clock.None? {
        return FAILURE;
      }
      xchngbook := xchngbook.(plcdStts := REJECT, rmsPrcsdFlg := NOT_PROCESSED, orsMsgTyp := ORS_NEW_ORD_RJCT);
      xchngbook := xchngbook.(ackTm := e.clock.value, xchngRmrks := TOKEN_ID_NOT_AVAILABLE, jiffy := 0.0);
      oprnTyp := UPDATION_ON_EXCHANGE_RESPONSE;
      res := FnUpdXchngbk("", e.reject);
    }

    /** Packs the record in hand; whether that works is not looked at. */
    method PackRow(e: Env, ghost i: nat) returns (res: int)
      requires Valid() && e.client.Some? && e.ext.Some? && clientCodes == e.client.value
      requires prgmFlg == ProgramFlag(xchngbook.request) && nseContract == ContractOf(orderbook.terms, e.ext.value)
      requires Options(orderbook.terms, cPanNo, cAlgoId, cSourceFlg)
      modifies eplm, eplm.intHeader, eplm.contractDesc, eplm.orderFlag, eplm.oe, eplm.netHdr, seqTable
      ensures Valid()
      ensures res == if Flagged(xchngbook.request, orderbook.terms) then 0 else PANIC
      ensures res == 0 ==>
                State() == Pack(old(State()), st, i, xchngbook.request, xchngbook.ordrSqnc, orderbook.terms, e).0
      ensures res != 0 ==> State() == old(State())
    {
      hide AfterPack, Packs, Packable, IssueOf, TypeConversion.Draw, TrimSpace, OrStar, ProgramFlag, ContractOf;
      hide ExchngPackLibMaster.Valid, ExchngPackLibMaster.Mem;
      if cSourceFlg == [] || prgmFlg == "" {
        return PANIC;
      }
      var q, t := xchngbook.request, orderbook.terms;
      var cOrdTyp := if q.ordrType == "V" then "T" else q.ordrType;
      var o := Order(
        XchngFields(q.rqstTyp, q.slmFlg, cOrdTyp, q.dsclsdQty, q.ordTotQty, q.stpLssTgr, xchngbook.ordrSqnc, q.validDate),
        OrderFields(TrimSpace(clientCodes.1), t.ordrFlw, t.ordTotQty, t.exctdQty, t.exctdQtyDay,
                    TrimSpace(clientCodes.0), t.proCliInd, t.xchngAck, cPanNo, cAlgoId, cSourceFlg[0] as char),
        st.pipe, nseContract, prgmFlg[0], e.custType);
      var packed := eplm.FnPackOrdnryOrdToNse(o, seqTable, (st.scope.pipeId, st.scope.modTrdDt), e.draw, e.digest);
      return 0;
    }

    method QueueInBooks(e: Env) returns (res: int)
      requires orderbook.ordrRfrnc == xchngbook.ordrRfrnc
      modifies this`xb, this`ob, this`xchngbook, this`oprnTyp, this`orderbook
      ensures xchngbook == old(xchngbook).(plcdStts := QUEUED)
      ensures orderbook == old(orderbook).(ordrStts := orderbook.ordrStts)
      ensures var r := Booked(old(xb), old(ob), xchngbook.ordrRfrnc, xchngbook.mdfctnCntr, e);
              xb == r.0 && ob == r.1 && res == if r.2.Some? then FAILURE else 0
    {
      hide Updated;
      xchngbook := xchngbook.(plcdStts := QUEUED);
      oprnTyp := UPDATION_ON_ORDER_FORWARDING;
      res := FnUpdXchngbk(e.now, e.book);
      if res != 0 {
        return FAILURE;
      }
      orderbook := orderbook.(ordrStts := QUEUED);
      res := FnUpdOrdrbk(e.orderUpdateFails);
    }

    /** The contract of the order in hand; without a token the row is rejected, which is no failure. */
    method LoadContract(e: Env) returns (res: int)
      requires dwnldFlg != DOWNLOAD
      modifies this`xb, this`xchngbook, this`oprnTyp, this`nseContract
      ensures var r := Loaded(old(xb), old(xchngbook).ordrRfrnc, old(xchngbook).mdfctnCntr, st, orderbook.xchngCd,
                              orderbook.terms, e);
              xb == r.0 && res == if r.1.Some? then FAILURE else 0
      ensures res == 0 ==> e.ext.Some? && nseContract == ContractOf(orderbook.terms, e.ext.value)
      ensures xchngbook.request == old(xchngbook).request && xchngbook.ordrSqnc == old(xchngbook).ordrSqnc
    {
      hide Rejection, UpdateWhere, TrimSpace;
      if TrimSpace(st.scope.xchngCd) != NFO {
        return FAILURE;
      }
      res := FnGetExtCnt(e);
      if res != 0 {
        return FAILURE;
      }
      if nseContract.tokenId == 0 {
        res := FnRjctRcrd(e);
      }
    }

    /** From equal counters on: both updates, the contract, the rejection without a token, and the packer. */
    method QueueRow(e: Env, ghost i: nat, ghost j: nat) returns (res: int)
      requires Valid() && i < |xb| && j < |ob| && e.client.Some? && clientCodes == e.client.value
      requires xchngbook == xb[i] && orderbook == ob[j] && orderbook.ordrRfrnc == xchngbook.ordrRfrnc
      requires prgmFlg == ProgramFlag(xchngbook.request) && Options(orderbook.terms, cPanNo, cAlgoId, cSourceFlg)
      modifies this, eplm, eplm.intHeader, eplm.contractDesc, eplm.orderFlag, eplm.oe, eplm.netHdr, seqTable
      ensures Valid()
      ensures State() == Queue(old(State()), st, i, j, e).0
      ensures res == Code(Queue(old(State()), st, i, j, e).1)
    {
      hide Booked, Loaded, Pack, ContractOf, ProgramFlag, Flagged, Options;
      hide ExchngPackLibMaster.Valid, ExchngPackLibMaster.Mem;
      res := QueueInBooks(e);
      if res != 0 {
        return FAILURE;
      }
      res := LoadContract(e);
      if res != 0 {
        return FAILURE;
      }
      res := PackRow(e, i);
    }

    method FnGetNxtRec(e: Env) returns (res: int)
      requires Valid()
      modifies this, eplm, eplm.intHeader, eplm.contractDesc, eplm.orderFlag, eplm.oe, eplm.netHdr, seqTable
      ensures Valid()
      ensures State() == NextRecord(old(State()), st, e).0
      ensures res == Code(NextRecord(old(State()), st, e).1)
    {
      hide Queue, NextRow, OrderAt, Options, ProgramFlag, ExchngPackLibMaster.Valid, ExchngPackLibMaster.Mem;
      prgmFlg := "0";
      res := FnSeqToOmd(e);
      if res != 0 {
        return FAILURE;
      }
      if xchngbook.rmsPrcsdFlg == RMS_PROCESSED {
        return 0;
      }
      if xchngbook.plcdStts != REQUESTED {
        return FAILURE;
      }
      if xchngbook.exOrdrTyp == ORDINARY_ORDER {
        res := FnRefToOrd(xchngbook.ordrRfrnc, e);
        if res != 0 {
          return FAILURE;
        }
        if xchngbook.mdfctnCntr != orderbook.mdfctnCntr {
          return FAILURE;
        }
        ghost var i, j := NextRow(xb, st.scope, e.pick).value, OrderAt(ob, xchngbook.ordrRfrnc, e.orderPick).value;
        res := QueueRow(e, i, j);
      }
    }

    method WritePacket(mqm: MessageQueueManager, e: Env) returns (res: int)
      requires Valid() && mqm.Valid()
      modifies mqm
      ensures mqm.Valid()
      ensures res == if eplm.qPacket.lMsgType >= 1 && e.accepts then 0 else FAILURE
      ensures FollowsBy(old(mqm.queue), if res == 0 then [MessageOf(eplm.qPacket, e.trailing)] else [], mqm.queue)
      ensures |mqm.queue| <= |old(mqm.queue)| + 1
    {
      OthersTake(mqm, e.takenLater);
      var packet := eplm.qPacket;
      OneFollows(old(mqm.queue), mqm.queue, MessageOf(packet, e.trailing));
      res := mqm.WriteToQueue(BoardLot(packet.lMsgType, packet.stExchMsgData), e.trailing, e.accepts);
    }

    /** A turn from behind the gate: the record, the commit and the write; a failure ends the service. */
    method Forwarded(mqm: MessageQueueManager, e: Env, ghost s: Service) returns (res: int, ghost t: Service)
      requires Valid() && mqm.Valid() && s.Runs() && s.client == State()
      modifies this, eplm, eplm.intHeader, eplm.contractDesc, eplm.orderFlag, eplm.oe, eplm.netHdr, seqTable, mqm
      ensures Valid() && mqm.Valid()
      ensures t == Turn(s, st, true, e) && t.client == State() && t.Runs() == (res == 0)
      ensures t.log == s.log || (t.log[..|s.log|] == s.log && |t.log| == |s.log| + 1)
      ensures FollowsBy(old(mqm.queue), Messages(t.log[|s.log|..]), mqm.queue)
      ensures |mqm.queue| <= |old(mqm.queue)| + 1
    {
      hide NextRecord, MessageOf, Messages, FollowsBy, ExchngPackLibMaster.Valid, ExchngPackLibMaster.Mem;
      t := Turn(s, st, true, e);
      NothingFollows(mqm.queue, s.log);
      if e.beginFails {
        return FAILURE, t;
      }
      res := FnGetNxtRec(e);
      if res != 0 {
        return res, t;
      }
      if e.commitFails {
        return FAILURE, t;
      }
      NewMessages(s.log, EntryOf(NextRecord(s.client, st, e).1, eplm.Mem().packet, e.trailing));
      res := WritePacket(mqm, e);
    }

    /**
     The service loop, through the turns `es` or up to its first failure. What it does is `Exec`;
     with this one producer the queue never exceeds its limit, and it holds the newest messages.
     */
    method ClnPackClnt(mqm: MessageQueueManager, es: seq<Env>)
        returns (res: int, ghost turns: seq<(bool, Env)>, ghost end: Service)
      requires Valid() && mqm.Valid()
      modifies this, eplm, eplm.intHeader, eplm.contractDesc, eplm.orderFlag, eplm.oe, eplm.netHdr, seqTable, mqm
      ensures Valid() && mqm.Valid()
      ensures |turns| <= |es| && forall k :: 0 <= k < |turns| ==> turns[k].1 == es[k]
      ensures end == Exec(Start(old(State())), st, turns) && end.client == State()
      ensures end.Runs() == (res == 0) && (res == 0 ==> |turns| == |es|)
      ensures FollowsBy(old(mqm.queue), Messages(end.log), mqm.queue)
      ensures |old(mqm.queue)| <= 10 ==> |mqm.queue| <= 10
    {
      hide Turn, Messages, FollowsBy, ExchngPackLibMaster.Valid, ExchngPackLibMaster.Mem;
      ghost var start := Start(State());
      turns, end := [], start;
      NothingFollows(mqm.queue, []);
      for n := 0 to |es|
        invariant Valid() && mqm.Valid()
        invariant |turns| == n && forall k :: 0 <= k < n ==> turns[k].1 == es[k]
        invariant end == Exec(start, st, turns) && end.client == State() && end.Runs()
        invariant FollowsBy(old(mqm.queue), Messages(end.log), mqm.queue)
        invariant |old(mqm.queue)| <= QUEUE_LIMIT ==> |mqm.queue| <= QUEUE_LIMIT
      {
        ghost var before, mid := end.log, mqm.queue;
        var open := ThroughGate(mqm, es[n], before);
        FollowsChain(old(mqm.queue), before, mid, before, mqm.queue);
        mid := mqm.queue;
        ExecOne(start, st, turns, open, es[n]);
        turns := turns + [(open, es[n])];
        if !open {
          ClosedTurn(end, st, es[n]);
          continue;
        }
        res, end := Forwarded(mqm, es[n], end);
        FollowsChain(old(mqm.queue), before, mid, end.log, mqm.queue);
        if res != 0 {
          return;
        }
      }
      return 0, turns, end;
    }
  }
}
