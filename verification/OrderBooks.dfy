/**
 The exchange book and the order book as sequences of rows, with the queries and updates the
 packing client runs on them. An update takes effect at once: no later abort undoes it.
 */
module OrderBooks {
  import opened Wrappers
  import opened Bytes
  import opened Text
  import Models

  const REQUESTED := 'R'
  const QUEUED := 'Q'
  const REJECT := 'J'
  const NOT_PROCESSED := 'N'
  const RMS_PROCESSED := 'P'
  const ORDINARY_ORDER := 'O'
  const UPDATION_ON_ORDER_FORWARDING := 'P'
  const UPDATION_ON_EXCHANGE_RESPONSE := 'R'
  const DOWNLOAD := 10
  const ORS_NEW_ORD_RJCT := 5304

  /** The columns of an exchange-book row that only the packer looks at. */
  datatype Request = Request(
    rqstTyp: string, slmFlg: string, ordrType: string, dsclsdQty: int32, ordTotQty: int32, stpLssTgr: int32,
    validDate: Option<int>, ip: Option<string>, prcimpvFlg: Option<string>)

  datatype ExchRow = ExchRow(
    xchngCd: seq<byte>, pipeId: string, modTrdDt: string, ordrSqnc: int32, ordrRfrnc: string, mdfctnCntr: int32,
    exOrdrTyp: char, plcdStts: char, rmsPrcsdFlg: char, orsMsgTyp: int32, frwdTm: string, ackTm: string,
    xchngRmrks: seq<byte>, jiffy: real, request: Request)

  /** The columns of an order-book row that describe the order; the optional ones may be NULL. */
  datatype Terms = Terms(
    ordrFlw: string, ordTotQty: int32, exctdQty: int32, exctdQtyDay: int32, proCliInd: string,
    xchngAck: Option<Models.bits64>, panNo: Option<seq<byte>>, algoId: Option<seq<byte>>, sourceFlg: Option<seq<byte>>,
    prdTyp: string, ctgryIndstk: string, expiry: Option<int>, exrcTyp: seq<byte>, optTyp: seq<byte>,
    strikePrc: int32)

  datatype OrderRow = OrderRow(ordrRfrnc: string, ordrStts: char, mdfctnCntr: int32, xchngCd: seq<byte>, terms: Terms)

  /** Exchange, pipe and trade date: the part of the exchange book that one client works on. */
  datatype Scope = Scope(xchngCd: seq<byte>, pipeId: string, modTrdDt: string)

  predicate InScope(r: ExchRow, s: Scope) {
    r.xchngCd == s.xchngCd && r.pipeId == s.pipeId && r.modTrdDt == s.modTrdDt
  }

  predicate Requested(r: ExchRow, s: Scope) {
    InScope(r, s) && r.plcdStts == REQUESTED
  }

  // ---- the next row ----

  /** The smallest sequence number of a requested row. */
  function MinRequested(xb: seq<ExchRow>, s: Scope): (m: Option<int>)
    ensures m.None? <==> forall i :: 0 <= i < |xb| ==> !Requested(xb[i], s)
    ensures m.Some? ==> exists i :: 0 <= i < |xb| && Requested(xb[i], s) && xb[i].ordrSqnc == m.value
    ensures m.Some? ==> forall i :: 0 <= i < |xb| && Requested(xb[i], s) ==> m.value <= xb[i].ordrSqnc
  {
    if xb == [] then None
    else
      var rest, r := MinRequested(xb[1..], s), xb[0];
      assert forall i :: 0 < i < |xb| ==> xb[i] == xb[1..][i - 1];
      if !Requested(r, s) || (rest.Some? && rest.value <= r.ordrSqnc) then rest else Some(r.ordrSqnc)
  }

  predicate Numbered(r: ExchRow, s: Scope, sqnc: int) {
    InScope(r, s) && r.ordrSqnc == sqnc
  }

  function FirstNumbered(xb: seq<ExchRow>, s: Scope, sqnc: int): (i: nat)
    requires exists k :: 0 <= k < |xb| && Numbered(xb[k], s, sqnc)
    ensures i < |xb| && Numbered(xb[i], s, sqnc)
  {
    if Numbered(xb[0], s, sqnc) then 0
    else
      assert forall k :: 0 < k < |xb| ==> xb[k] == xb[1..][k - 1];
      1 + FirstNumbered(xb[1..], s, sqnc)
  }

  /**
   The row the fetching query returns. Only the inner query asks for requested rows: with equal
   sequence numbers the outer one may return any of them, `pick` if it is one.
   */
  function NextRow(xb: seq<ExchRow>, s: Scope, pick: nat): (r: Option<nat>)
    ensures r.None? <==> forall i :: 0 <= i < |xb| ==> !Requested(xb[i], s)
    ensures r.Some? ==> r.value < |xb| && InScope(xb[r.value], s)
    ensures r.Some? ==> exists i :: 0 <= i < |xb| && Requested(xb[i], s) && xb[i].ordrSqnc == xb[r.value].ordrSqnc
    ensures r.Some? ==> forall i :: 0 <= i < |xb| && Requested(xb[i], s) ==> xb[r.value].ordrSqnc <= xb[i].ordrSqnc
  {
    match MinRequested(xb, s)
    case None => None
    case Some(m) =>
      if pick < |xb| && Numbered(xb[pick], s, m) then Some(pick)
      else
        assert exists k :: 0 <= k < |xb| && Numbered(xb[k], s, m) by {
          var i :| 0 <= i < |xb| && Requested(xb[i], s) && xb[i].ordrSqnc == m;
          assert Numbered(xb[i], s, m);
        }
        Some(FirstNumbered(xb, s, m))
  }

  /** The order with a given reference; of several, `pick` if it is one of them. */
  function OrderAt(ob: seq<OrderRow>, rfrnc: string, pick: nat): (r: Option<nat>)
    ensures r.None? <==> forall j :: 0 <= j < |ob| ==> ob[j].ordrRfrnc != rfrnc
    ensures r.Some? ==> r.value < |ob| && ob[r.value].ordrRfrnc == rfrnc
  {
    if pick < |ob| && ob[pick].ordrRfrnc == rfrnc then Some(pick) else FirstOrder(ob, rfrnc)
  }

  function FirstOrder(ob: seq<OrderRow>, rfrnc: string): (r: Option<nat>)
    ensures r.None? <==> forall j :: 0 <= j < |ob| ==> ob[j].ordrRfrnc != rfrnc
    ensures r.Some? ==> r.value < |ob| && ob[r.value].ordrRfrnc == rfrnc
  {
    if ob == [] then None
    else if ob[0].ordrRfrnc == rfrnc then Some(0)
    else
      assert forall j :: 0 < j < |ob| ==> ob[j] == ob[1..][j - 1];
      match FirstOrder(ob[1..], rfrnc)
      case None => None
      case Some(j) => Some(j + 1)
  }

  // ---- updates ----

  /** SQL `RTRIM`: blanks only. */
  function RTrim(s: seq<byte>): (r: seq<byte>)
    ensures |r| <= |s| && r == s[..|r|]
    ensures r != [] ==> r[|r| - 1] != SPACE
    ensures forall i :: |r| <= i < |s| ==> s[i] == SPACE
  {
    if s != [] && s[|s| - 1] == SPACE then RTrim(s[..|s| - 1]) else s
  }

  /** What an update of the exchange book sets. */
  datatype Update =
    | Forward(plcdStts: char, frwdTm: string)
    | Response(plcdStts: char, rmsPrcsdFlg: char, orsMsgTyp: int32, ackTm: string, xchngRmrks: seq<byte>, jiffy: real)

  function Updated(r: ExchRow, u: Update): ExchRow {
    match u
    case Forward(stts, time) => r.(plcdStts := stts, frwdTm := time)
    case Response(stts, rms, msgTyp, ackTm, rmrks, jiffy) =>
      r.(plcdStts := stts, rmsPrcsdFlg := rms, orsMsgTyp := msgTyp, ackTm := ackTm,
      xchngRmrks := RTrim(r.xchngRmrks) + TrimSpace(rmrks), jiffy := jiffy)
  }

  predicate Keyed(r: ExchRow, rfrnc: string, cntr: int32) {
    r.ordrRfrnc == rfrnc && r.mdfctnCntr == cntr
  }

  /** Every row with this reference and modification counter, whatever its scope, is updated. */
  function UpdateWhere(xb: seq<ExchRow>, rfrnc: string, cntr: int32, u: Update): (r: seq<ExchRow>)
    ensures |r| == |xb|
    ensures forall i :: 0 <= i < |xb| ==> r[i] == if Keyed(xb[i], rfrnc, cntr) then Updated(xb[i], u) else xb[i]
  {
    seq(|xb|, i requires 0 <= i < |xb| => if Keyed(xb[i], rfrnc, cntr) then Updated(xb[i], u) else xb[i])
  }

  function MarkOrders(ob: seq<OrderRow>, rfrnc: string, stts: char): (r: seq<OrderRow>)
    ensures |r| == |ob|
    ensures forall j :: 0 <= j < |ob| ==> r[j] == if ob[j].ordrRfrnc == rfrnc then ob[j].(ordrStts := stts) else ob[j]
  {
    seq(|ob|, j requires 0 <= j < |ob| => if ob[j].ordrRfrnc == rfrnc then ob[j].(ordrStts := stts) else ob[j])
  }

  /** The download check: a row with this jiffy, exchange and pipe is already there. */
  predicate Recorded(xb: seq<ExchRow>, m: ExchRow) {
    exists i :: 0 <= i < |xb| && xb[i].jiffy == m.jiffy && xb[i].xchngCd == m.xchngCd && xb[i].pipeId == m.pipeId
  }

  /** The database errors of one update of the exchange book. */
  datatype UpdateFaults = UpdateFaults(countFails: bool, updateFails: bool)

  /**
   Updating the exchange book from the record `m` in memory: the new book, and whether it worked.
   Responses that are being downloaded again are refused.
   */
  function UpdateBook(xb: seq<ExchRow>, m: ExchRow, oprnTyp: char, dwnldFlg: int, now: string, faults: UpdateFaults):
    (seq<ExchRow>, bool)
  {
    if oprnTyp == UPDATION_ON_ORDER_FORWARDING then
      if faults.updateFails then (xb, false)
      else (UpdateWhere(xb, m.ordrRfrnc, m.mdfctnCntr, Forward(m.plcdStts, now)), true)
    else if oprnTyp == UPDATION_ON_EXCHANGE_RESPONSE then
      if (dwnldFlg == DOWNLOAD && (faults.countFails || Recorded(xb, m))) || faults.updateFails then (xb, false)
      else (UpdateWhere(xb, m.ordrRfrnc, m.mdfctnCntr,
                        Response(m.plcdStts, m.rmsPrcsdFlg, m.orsMsgTyp, m.ackTm, m.xchngRmrks, m.jiffy)), true)
    else (xb, false)
  }

  /** The row with status and time of an order that has been forwarded. */
  predicate Forwarded(before: ExchRow, after: ExchRow, m: ExchRow, now: string) {
    after == before.(plcdStts := m.plcdStts, frwdTm := now)
  }

  /** The row with the response of the record, whose remarks are added to those it had. */
  predicate Answered(before: ExchRow, after: ExchRow, m: ExchRow) {
    after == before.(plcdStts := m.plcdStts, rmsPrcsdFlg := m.rmsPrcsdFlg, orsMsgTyp := m.orsMsgTyp, ackTm := m.ackTm,
                     xchngRmrks := RTrim(before.xchngRmrks) + TrimSpace(m.xchngRmrks), jiffy := m.jiffy)
  }

  /** A response, with flag 10 when it is downloaded, is refused where one like it is recorded. */
  predicate Accepts(xb: seq<ExchRow>, m: ExchRow, oprnTyp: char, dwnldFlg: int, faults: UpdateFaults) {
    && !faults.updateFails && (oprnTyp == 'P' || oprnTyp == 'R')
    && (oprnTyp == 'R' && dwnldFlg == 10 ==>
          && !faults.countFails
          && forall i :: 0 <= i < |xb| && xb[i].xchngCd == m.xchngCd && xb[i].pipeId == m.pipeId ==>
                           xb[i].jiffy != m.jiffy)
  }

  /** Which updates are made, and to which rows: those with the reference and the counter of the record. */
  lemma UpdateBookOutcomes(xb: seq<ExchRow>, m: ExchRow, oprnTyp: char, dwnldFlg: int, now: string, faults: UpdateFaults)
    ensures var (after, ok) := UpdateBook(xb, m, oprnTyp, dwnldFlg, now, faults);
            && |after| == |xb| && (ok <==> Accepts(xb, m, oprnTyp, dwnldFlg, faults))
            && forall i :: 0 <= i < |xb| ==>
                             if ok && xb[i].ordrRfrnc == m.ordrRfrnc && xb[i].mdfctnCntr == m.mdfctnCntr
                             then if oprnTyp == 'P' then Forwarded(xb[i], after[i], m, now)
                                  else Answered(xb[i], after[i], m)
                             else after[i] == xb[i]
  {
    hide RTrim, TrimSpace;
  }

  // ---- keys ----

  /** Reference and modification counter identify an exchange-book row. */
  ghost predicate UniqueKeys(xb: seq<ExchRow>) {
    forall i, j :: 0 <= i < |xb| && 0 <= j < |xb| && i != j ==>
                     !Keyed(xb[i], xb[j].ordrRfrnc, xb[j].mdfctnCntr)
  }

  ghost predicate UniqueOrders(ob: seq<OrderRow>) {
    forall i, j :: 0 <= i < |ob| && 0 <= j < |ob| && i != j ==> ob[i].ordrRfrnc != ob[j].ordrRfrnc
  }

  /** No two rows of the scope share a sequence number. */
  ghost predicate UniqueNumbers(xb: seq<ExchRow>, s: Scope) {
    forall i, j :: 0 <= i < |xb| && 0 <= j < |xb| && i != j && InScope(xb[i], s) ==>
                     !Numbered(xb[j], s, xb[i].ordrSqnc)
  }

  /** With unique keys an update changes one row. */
  lemma UpdateOne(xb: seq<ExchRow>, i: nat, u: Update)
    requires UniqueKeys(xb) && i < |xb|
    ensures UpdateWhere(xb, xb[i].ordrRfrnc, xb[i].mdfctnCntr, u) == xb[i := Updated(xb[i], u)]
  {
    var r := UpdateWhere(xb, xb[i].ordrRfrnc, xb[i].mdfctnCntr, u);
    forall k | 0 <= k < |xb|
      ensures r[k] == xb[i := Updated(xb[i], u)][k]
    {
    }
  }

  /** With repeated numbers the query may return a row that is not requested. */
  lemma FetchedRowNeedNotBeRequested(r: ExchRow, s: Scope)
    requires Requested(r, s)
    ensures var xb := [r, r.(plcdStts := QUEUED)];
            NextRow(xb, s, 1) == Some(1) && !Requested(xb[1], s)
  {
    var xb := [r, r.(plcdStts := QUEUED)];
    assert xb[0] == r && Requested(xb[0], s) && Numbered(xb[1], s, xb[0].ordrSqnc);
  }

  /** With unique numbers the fetched row is itself the requested one. */
  lemma NextRowIsRequested(xb: seq<ExchRow>, s: Scope, pick: nat)
    requires UniqueNumbers(xb, s) && NextRow(xb, s, pick).Some?
    ensures Requested(xb[NextRow(xb, s, pick).value], s)
  {
    var n := NextRow(xb, s, pick).value;
    var i :| 0 <= i < |xb| && Requested(xb[i], s) && xb[i].ordrSqnc == xb[n].ordrSqnc;
    assert i == n;
  }
}
