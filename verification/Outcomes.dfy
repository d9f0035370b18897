/** What one record and one turn of the packing client come to, with every condition spelled out. */
module Outcomes {
  import opened Wrappers
  import opened Text
  import opened OrderBooks
  import opened PackClient
  import Packing
  import TypeConversion

  // ---- which row ----

  predicate Waits(r: ExchRow, s: Scope) {
    r.plcdStts == 'R' && r.xchngCd == s.xchngCd && r.pipeId == s.pipeId && r.modTrdDt == s.modTrdDt
  }

  /** The row has the lowest number of those that wait, and their exchange, pipe and trade date. */
  ghost predicate Due(xb: seq<ExchRow>, s: Scope, i: nat) {
    && i < |xb| && xb[i].xchngCd == s.xchngCd && xb[i].pipeId == s.pipeId && xb[i].modTrdDt == s.modTrdDt
    && (exists k :: 0 <= k < |xb| && Waits(xb[k], s) && xb[k].ordrSqnc == xb[i].ordrSqnc)
    && forall k :: 0 <= k < |xb| && Waits(xb[k], s) ==> xb[i].ordrSqnc <= xb[k].ordrSqnc
  }

  lemma FetchedIsDue(xb: seq<ExchRow>, s: Scope, pick: nat)
    ensures NextRow(xb, s, pick).None? <==> forall k :: 0 <= k < |xb| ==> !Waits(xb[k], s)
    ensures NextRow(xb, s, pick).Some? ==> Due(xb, s, NextRow(xb, s, pick).value)
  {
    hide NextRow;
    assert forall k :: 0 <= k < |xb| ==> (Waits(xb[k], s) <==> Requested(xb[k], s));
  }

  // ---- what becomes of it ----

  /** The order of the row is found with its client, and has the counter of the row. */
  predicate OrderFound(ob: seq<OrderRow>, row: ExchRow, e: Env, j: nat) {
    && j < |ob| && ob[j].ordrRfrnc == row.ordrRfrnc && ob[j].mdfctnCntr == row.mdfctnCntr
    && !e.orderReadFails && e.client.Some?
  }

  /** Both books are updated, the contract is found, and a missing token leads to the rejection. */
  predicate Accepted(st: Setting, d: OrderRow, e: Env) {
    && !e.book.updateFails && !e.orderUpdateFails
    && TrimSpace(st.scope.xchngCd) == [78, 70, 79] && (d.xchngCd == [78, 70, 79] || d.xchngCd == [66, 70, 79])
    && d.terms.expiry.Some? && e.ext.Some?
    && (e.ext.value.tokenId == 0 ==> e.clock.Some? && !e.reject.updateFails)
  }

  /** Neither the program flag nor the source flag is empty. */
  predicate BothFlags(q: Request, t: Terms) {
    && (q.prcimpvFlg == Some("Y") || q.ip.None? || q.ip.value != "")
    && (t.sourceFlg.Some? ==> TrimSpace(t.sourceFlg.value) != [])
  }

  /** A row that is processed or not ordinary is passed over; 'R' is requested, 'O' ordinary, 'P' processed. */
  predicate LeftAlone(r: ExchRow) {
    r.rmsPrcsdFlg == 'P' || (r.plcdStts == 'R' && r.exOrdrTyp != 'O')
  }

  predicate Forwardable(r: ExchRow) {
    r.rmsPrcsdFlg != 'P' && r.plcdStts == 'R' && r.exOrdrTyp == 'O'
  }

  lemma FlagsGiven(q: Request, t: Terms)
    ensures Flagged(q, t) <==> BothFlags(q, t)
  {
    assert Trimmed([STAR]);
    hide TrimSpace;
  }

  lemma QueueOutcome(c: Client, st: Setting, i: nat, j: nat, e: Env)
    requires i < |c.xb| && j < |c.ob| && e.client.Some?
    ensures var o := Queue(c, st, i, j, e).1;
            && !o.Passed? && (o.Moved? ==> o.row == i)
            && (o.Moved? <==> Accepted(st, c.ob[j], e) && BothFlags(c.xb[i].request, c.ob[j].terms))
            && (o == Failed(Panic) <==> Accepted(st, c.ob[j], e) && !BothFlags(c.xb[i].request, c.ob[j].terms))
  {
    FlagsGiven(c.xb[i].request, c.ob[j].terms);
    hide Pack, UpdateWhere, MarkOrders, Flagged, BothFlags, TrimSpace;
  }

  /** A record is passed over, moved, or stops the program exactly in these cases, and fails in all others. */
  lemma RecordOutcome(c: Client, st: Setting, e: Env) returns (j: nat)
    ensures var (after, o) := NextRecord(c, st, e);
            var n := NextRow(c.xb, st.scope, e.pick);
            var fetched := n.Some? && !e.readFails;
            && (o.Passed? <==> fetched && LeftAlone(c.xb[n.value]))
            && (o.Moved? <==> fetched && Forwardable(c.xb[n.value]) && OrderFound(c.ob, c.xb[n.value], e, j)
                              && Accepted(st, c.ob[j], e) && BothFlags(c.xb[n.value].request, c.ob[j].terms))
            && (o == Failed(Panic) <==> fetched && Forwardable(c.xb[n.value]) && OrderFound(c.ob, c.xb[n.value], e, j)
                                        && Accepted(st, c.ob[j], e) && !BothFlags(c.xb[n.value].request, c.ob[j].terms))
            && (o.Moved? ==> o.row == n.value)
  {
    hide NextRow, OrderAt, Queue, Accepted, BothFlags;
    var n := NextRow(c.xb, st.scope, e.pick);
    j := |c.ob|;
    if n.Some? {
      var order := OrderAt(c.ob, c.xb[n.value].ordrRfrnc, e.orderPick);
      if order.Some? {
        j := order.value;
        if e.client.Some? {
          QueueOutcome(c, st, n.value, j, e);
        }
      }
    }
  }

  /**
   A turn goes on exactly if the gate is closed, or no statement fails, the record does not and the
   queue takes the packet, which must not be the empty one; only then is a message written.
   */
  lemma TurnOutcome(s: Service, st: Setting, open: bool, e: Env)
    requires s.Runs()
    ensures var t := Turn(s, st, open, e);
            var (after, o) := NextRecord(s.client, st, e);
            && (t.Runs() <==> !open || (&& !e.beginFails && !o.Failed? && !e.commitFails && e.accepts
                                        && after.mem.packet.lMsgType >= 1))
            && (t.Runs() && open ==> t.client == after && |t.log| == |s.log| + 1 && t.log[..|s.log|] == s.log
                                     && t.log[|s.log|].packet == after.mem.packet)
            && (!(t.Runs() && open) ==> t.log == s.log)
            && (!open || e.beginFails ==> t.client == s.client)
            && (open && !e.beginFails ==> t.client == after)
  {
    hide NextRecord;
  }

  /** A number is drawn exactly for a moved order that packs. */
  lemma DrawsForPackable(c: Client, st: Setting, e: Env)
    ensures var (after, o) := NextRecord(c, st, e);
            var drawn := TypeConversion.Draw(c.counters, (st.scope.pipeId, st.scope.modTrdDt), e.draw);
            && (o.Moved? ==> o.issue.seqNum == drawn.1 && o.issue.digest == e.digest)
            && after.counters == if o.Moved? && Packing.Packable(o.order) then drawn.0 else c.counters
  {
    hide NextRow, OrderAt, Booked, Loaded, Packing.AfterPack, Packing.Packable, OrderOf, TypeConversion.Draw;
  }
}
