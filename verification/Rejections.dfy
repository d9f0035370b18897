/** How a row that leaves ends: queued, or rejected because its contract had no token, and sent all the same. */
module Rejections {
  import opened Wrappers
  import opened Bytes
  import opened OrderBooks
  import opened PackClient
  import opened Draining
  import Text

  const REASON := "Token id not available"

  predicate Reads(text: seq<byte>, s: string) {
    |text| == |s| && forall i :: 0 <= i < |s| ==> text[i] as char == s[i]
  }

  /** The remarks without their trailing blanks, and the reason behind them. */
  predicate RemarksEnd(before: seq<byte>, after: seq<byte>) {
    RTrim(before) <= after && Reads(after[|RTrim(before)|..], REASON)
  }

  /**
   What a row that leaves in turn `e` ends as: with a token queued, without one rejected, with the
   message type 5304, no jiffy and the reason; all its other columns are kept.
   */
  predicate EndsAs(before: ExchRow, after: ExchRow, tokenId: int, e: Env) {
    if tokenId != 0 then after == before.(plcdStts := 'Q', frwdTm := e.now)
    else
      && RemarksEnd(before.xchngRmrks, after.xchngRmrks) && e.clock.Some?
      && after == before.(plcdStts := 'J', frwdTm := e.now, rmsPrcsdFlg := 'N', orsMsgTyp := 5304, jiffy := 0.0,
                          ackTm := e.clock.value, xchngRmrks := after.xchngRmrks)
  }

  lemma ReasonIsReason()
    ensures Reads(TOKEN_ID_NOT_AVAILABLE, REASON)
  {
    var t := TOKEN_ID_NOT_AVAILABLE;
    assert Reads(t[..11], "Token id no");
    assert Reads(t[11..], "t available");
    assert REASON == "Token id no" + "t available";
    assert forall i :: 11 <= i < 22 ==> t[i] == t[11..][i - 11];
  }

  lemma ReasonReads(remarks: seq<byte>)
    ensures RemarksEnd(remarks, RTrim(remarks) + TOKEN_ID_NOT_AVAILABLE)
  {
    ReasonIsReason();
    hide RTrim, Reads;
    assert (RTrim(remarks) + TOKEN_ID_NOT_AVAILABLE)[|RTrim(remarks)|..] == TOKEN_ID_NOT_AVAILABLE;
  }

  lemma RejectionEnds(row: ExchRow, time: string, e: Env)
    requires e.clock == Some(time)
    ensures EndsAs(row, Updated(row.(plcdStts := QUEUED, frwdTm := e.now), Rejection(time)), 0, e)
  {
    ReasonReads(row.xchngRmrks);
    assert Text.Trimmed(TOKEN_ID_NOT_AVAILABLE);
    hide RTrim, Text.TrimSpace, RemarksEnd;
  }

  lemma QueueEnds(c: Client, st: Setting, i: nat, j: nat, e: Env)
    requires i < |c.xb| && j < |c.ob| && e.client.Some?
    ensures var (after, o) := Queue(c, st, i, j, e);
            o.Moved? ==>
              && o.row == i && |after.xb| == |c.xb| && e.ext.Some? && o.order.contract.tokenId == e.ext.value.tokenId
              && EndsAs(c.xb[i], after.xb[i], e.ext.value.tokenId, e)
  {
    hide MarkOrders, UpdateWhere, RTrim, Pack, Flagged, RemarksEnd, Text.TrimSpace, Rejection;
    if e.clock.Some? {
      RejectionEnds(c.xb[i], e.clock.value, e);
    }
  }

  /** A record that is moved is rejected if and only if its contract has no token, and queued otherwise. */
  lemma RecordEnds(c: Client, st: Setting, e: Env)
    ensures var (after, o) := NextRecord(c, st, e);
            o.Moved? ==>
              && o.row < |c.xb| == |after.xb| && e.ext.Some? && o.order.contract.tokenId == e.ext.value.tokenId
              && EndsAs(c.xb[o.row], after.xb[o.row], e.ext.value.tokenId, e)
  {
    hide NextRow, OrderAt, Queue, EndsAs;
    var next := NextRow(c.xb, st.scope, e.pick);
    if next.Some? && e.client.Some? {
      var order := OrderAt(c.ob, c.xb[next.value].ordrRfrnc, e.orderPick);
      if order.Some? {
        QueueEnds(c, st, next.value, order.value, e);
      }
    }
  }

  // ---- over a whole run ----

  /** Each logged row that was moved ends as the token of its order and the turn of its entry say. */
  ghost predicate RowsEnd(xb0: seq<ExchRow>, xb: seq<ExchRow>, log: seq<Entry>, opens: seq<(bool, Env)>) {
    && |xb| == |xb0| && |log| <= |opens|
    && forall k :: 0 <= k < |log| && log[k].moved.Some? ==>
                     var (i, order, _) := log[k].moved.value;
                     i < |xb0| && EndsAs(xb0[i], xb[i], order.contract.tokenId, opens[k].1)
  }

  /** What a logged turn logs is what its record came to. */
  lemma LoggedTurn(s: Service, st: Setting, open: bool, e: Env)
    ensures var t := Turn(s, st, open, e);
            t.log == s.log ||
            (s.Runs() && open && t.client == NextRecord(s.client, st, e).0 && !NextRecord(s.client, st, e).1.Failed?
             && t.log == s.log + [EntryOf(NextRecord(s.client, st, e).1, t.client.mem.packet, e.trailing)])
  {
    hide NextRecord;
  }

  /** Taking another row does not change how the logged ones ended: they are no longer requested. */
  lemma EndAfterTaking(xb0: seq<ExchRow>, xb: seq<ExchRow>, after: seq<ExchRow>, log: seq<Entry>,
                       opens: seq<(bool, Env)>, i: nat)
    requires RowsEnd(xb0, xb, log, opens) && i < |xb| == |after| && after == xb[i := after[i]]
    requires xb[i].plcdStts == REQUESTED
    ensures RowsEnd(xb0, after, log, opens)
  {
    hide RemarksEnd;
    forall k | 0 <= k < |log| && log[k].moved.Some?
      ensures log[k].moved.value.0 != i
    {
    }
  }

  lemma OneMoreEnd(xb0: seq<ExchRow>, xb: seq<ExchRow>, log: seq<Entry>, opens: seq<(bool, Env)>, en: Entry, e: Env)
    requires RowsEnd(xb0, xb, log, opens) && |log| == |opens|
    requires en.moved.Some? ==>
               var (i, order, _) := en.moved.value; i < |xb0| && EndsAs(xb0[i], xb[i], order.contract.tokenId, e)
    ensures RowsEnd(xb0, xb, log + [en], opens + [(true, e)])
  {
    hide EndsAs;
  }

  lemma MoreTurns(xb0: seq<ExchRow>, xb: seq<ExchRow>, log: seq<Entry>, opens: seq<(bool, Env)>, more: seq<(bool, Env)>)
    requires RowsEnd(xb0, xb, log, opens)
    ensures RowsEnd(xb0, xb, log, opens + more)
  {
    hide EndsAs;
  }

  lemma TurnEnds(c0: Client, st: Setting, s: Service, e: Env, opens: seq<(bool, Env)>)
    requires UniqueKeys(s.client.xb) && OnlyMoved(c0, st, s.client)
    requires RowsEnd(c0.xb, s.client.xb, s.log, opens) && (s.Runs() ==> |s.log| == |opens|)
    ensures var t := Turn(s, st, true, e); RowsEnd(c0.xb, t.client.xb, t.log, opens + [(true, e)])
  {
    var t := Turn(s, st, true, e);
    var i, j := TurnMoves(s, st, true, e);
    RecordEnds(s.client, st, e);
    LoggedTurn(s, st, true, e);
    hide Turn, NextRecord, NextRow, UniqueKeys, Leaves, MarkOrders, PassedOver, RowsEnd, EndsAs;
    if !RestingTurn(s, st, true, e, t) {
      TakenFromStart(c0, st, s.client, e, i, j);
      EndAfterTaking(c0.xb, s.client.xb, t.client.xb, s.log, opens, i);
    }
    hide OnlyMoved, Movable;
    if t.log == s.log {
      MoreTurns(c0.xb, t.client.xb, s.log, opens, [(true, e)]);
    } else {
      OneMoreEnd(c0.xb, t.client.xb, s.log, opens, t.log[|s.log|], e);
    }
  }

  lemma {:induction false} RowsAlwaysEnd(c0: Client, st: Setting, turns: seq<(bool, Env)>)
    requires UniqueKeys(c0.xb)
    ensures var s := Exec(Start(c0), st, turns); RowsEnd(c0.xb, s.client.xb, s.log, OpenTurns(turns))
  {
    if turns != [] {
      var before, last := turns[..|turns| - 1], turns[|turns| - 1];
      RowsAlwaysEnd(c0, st, before);
      AlwaysOnlyMoved(c0, st, before);
      LogCountsTurns(c0, st, before);
      var s := Exec(Start(c0), st, before);
      if last.0 {
        TurnEnds(c0, st, s, last.1, OpenTurns(before));
      } else {
        ClosedTurn(s, st, last.1);
      }
      hide Turn, OnlyMoved, UniqueKeys, RowsEnd;
    }
  }

  lemma {:induction false} LoggedAt(log: seq<Entry>, r: nat) returns (k: nat)
    requires r in MovedRows(log)
    ensures k < |log| && log[k].moved.Some? && log[k].moved.value.0 == r
  {
    var last := log[|log| - 1].moved;
    if last.Some? && last.value.0 == r {
      k := |log| - 1;
    } else {
      k := LoggedAt(log[..|log| - 1], r);
    }
  }

  /**
   While the service runs, every row that has left was logged in some turn, and ends as that turn
   and the token of its order say: rejected if and only if the contract has no token.
   */
  lemma {:induction false} RejectedWithoutToken(c0: Client, st: Setting, turns: seq<(bool, Env)>, i: nat)
      returns (k: nat)
    requires UniqueKeys(c0.xb) && Exec(Start(c0), st, turns).Runs()
    requires var xb := Exec(Start(c0), st, turns).client.xb; |xb| == |c0.xb| && i in Left(c0.xb, xb)
    ensures var s := Exec(Start(c0), st, turns);
            && k < |s.log| == |OpenTurns(turns)| && s.log[k].moved.Some? && s.log[k].moved.value.0 == i < |s.client.xb|
            && EndsAs(c0.xb[i], s.client.xb[i], s.log[k].moved.value.1.contract.tokenId, OpenTurns(turns)[k].1)
  {
    RowsAlwaysEnd(c0, st, turns);
    LogCountsTurns(c0, st, turns);
    var extra := LogNamesLeft(c0, st, turns);
    hide Exec, UniqueKeys, MovedRows, EndsAs;
    k := LoggedAt(Exec(Start(c0), st, turns).log, i);
  }
}
