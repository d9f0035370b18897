/**
 What every run of the packing client does to the two books: which rows leave the requested
 state, in which order, how many, and how their orders follow.
 */
module Draining {
  import opened Wrappers
  import opened Bytes
  import opened Text
  import opened OrderBooks
  import opened PackClient

  // ---- one record ----

  /** The client looks at such a row and lets it be. */
  predicate PassedOver(r: ExchRow) {
    r.rmsPrcsdFlg == RMS_PROCESSED || r.exOrdrTyp != ORDINARY_ORDER
  }

  /** A requested row that the client moves on; the other requested rows of the scope block it. */
  predicate Movable(r: ExchRow, s: Scope) {
    Requested(r, s) && !PassedOver(r)
  }

  predicate Blocker(r: ExchRow, s: Scope) {
    Requested(r, s) && PassedOver(r)
  }

  /** `after` is the row `before` rejected for want of a token. */
  predicate Rejected(before: ExchRow, after: ExchRow) {
    after == before.(plcdStts := REJECT, rmsPrcsdFlg := NOT_PROCESSED, orsMsgTyp := ORS_NEW_ORD_RJCT,
                     ackTm := after.ackTm, xchngRmrks := RTrim(before.xchngRmrks) + TOKEN_ID_NOT_AVAILABLE, jiffy := 0.0)
  }

  /** `after` is the row `before` queued, or queued and then rejected. */
  predicate Leaves(before: ExchRow, after: ExchRow) {
    var queued := before.(plcdStts := QUEUED, frwdTm := after.frwdTm);
    after == queued || Rejected(queued, after)
  }

  /** Row `i` has left the requested state and nothing else in the exchange book has changed. */
  ghost predicate RowMoved(xb: seq<ExchRow>, i: nat, after: seq<ExchRow>) {
    i < |xb| == |after| && after == xb[i := after[i]] && Leaves(xb[i], after[i])
  }

  /** The row fetched next is movable and its order has its counter. */
  ghost predicate Taking(c: Client, st: Setting, e: Env, i: nat, j: nat) {
    && NextRow(c.xb, st.scope, e.pick) == Some(i) && j < |c.ob|
    && c.xb[i].plcdStts == REQUESTED && !PassedOver(c.xb[i])
    && c.ob[j].ordrRfrnc == c.xb[i].ordrRfrnc && c.ob[j].mdfctnCntr == c.xb[i].mdfctnCntr
  }

  /** Row `i` is taken out of the requested state and, unless that very update fails, its order is queued. */
  ghost predicate Takes(c: Client, i: nat, after: Client, o: Outcome) {
    && RowMoved(c.xb, i, after.xb) && !o.Passed? && (o.Moved? ==> o.row == i)
    && after.ob == if o == Failed(OrderNotUpdated) then c.ob else MarkOrders(c.ob, c.xb[i].ordrRfrnc, QUEUED)
  }

  ghost predicate Untouched(c: Client, after: Client, o: Outcome) {
    after == c && !o.Moved? && o != Failed(OrderNotUpdated)
  }

  lemma BookedMoves(xb: seq<ExchRow>, ob: seq<OrderRow>, i: nat, e: Env)
    requires UniqueKeys(xb) && i < |xb| && xb[i].plcdStts == REQUESTED
    ensures var (queued, marked, fault) := Booked(xb, ob, xb[i].ordrRfrnc, xb[i].mdfctnCntr, e);
            if fault == Some(BookNotUpdated) then queued == xb && marked == ob
            else
              && queued == xb[i := xb[i].(plcdStts := QUEUED, frwdTm := e.now)]
              && (fault == None || fault == Some(OrderNotUpdated))
              && marked == if fault.Some? then ob else MarkOrders(ob, xb[i].ordrRfrnc, QUEUED)
  {
    UpdateOne(xb, i, Forward(QUEUED, e.now));
  }

  lemma RejectionRejects(r: ExchRow, time: string)
    ensures Rejected(r, Updated(r, Rejection(time)))
  {
    hide TrimSpace, RTrim;
    assert Trimmed(TOKEN_ID_NOT_AVAILABLE);
  }

  lemma LoadedMoves(xb: seq<ExchRow>, i: nat, st: Setting, xchngCd: seq<byte>, t: Terms, e: Env)
    requires UniqueKeys(xb) && i < |xb|
    ensures var (after, fault) := Loaded(xb, xb[i].ordrRfrnc, xb[i].mdfctnCntr, st, xchngCd, t, e);
            && fault != Some(OrderNotUpdated) && fault != Some(BookNotUpdated)
            && |after| == |xb| && after == xb[i := after[i]]
            && (if fault.None? && e.ext.value.tokenId == 0 then Rejected(xb[i], after[i]) else after == xb)
  {
    if e.clock.Some? {
      UpdateOne(xb, i, Rejection(e.clock.value));
      RejectionRejects(xb[i], e.clock.value);
    }
    hide Rejected, Updated, UpdateWhere, Rejection;
  }

  lemma KeysStay(xb: seq<ExchRow>, i: nat, r: ExchRow)
    requires UniqueKeys(xb) && i < |xb| && Keyed(r, xb[i].ordrRfrnc, xb[i].mdfctnCntr)
    ensures UniqueKeys(xb[i := r])
  {
  }

  lemma QueueMoves(c: Client, st: Setting, i: nat, j: nat, e: Env)
    requires UniqueKeys(c.xb) && i < |c.xb| && j < |c.ob| && e.client.Some? && c.xb[i].plcdStts == REQUESTED
    ensures var (after, o) := Queue(c, st, i, j, e);
            && (after.mem == c.mem || o.Moved?)
            && !o.Passed? && (Untouched(c, after, o) || Takes(c, i, after, o))
  {
    hide Booked, Loaded, UniqueKeys, MarkOrders, RTrim, Pack, Flagged;
    var row, order := c.xb[i], c.ob[j];
    BookedMoves(c.xb, c.ob, i, e);
    var queued := Booked(c.xb, c.ob, row.ordrRfrnc, row.mdfctnCntr, e).0;
    if queued != c.xb {
      KeysStay(c.xb, i, queued[i]);
      LoadedMoves(queued, i, st, order.xchngCd, order.terms, e);
    }
  }

  /** One record either leaves both books as they are or moves the very row that was due. */
  lemma RecordMoves(c: Client, st: Setting, e: Env) returns (i: nat, j: nat)
    requires UniqueKeys(c.xb)
    ensures var (after, o) := NextRecord(c, st, e);
            && (after.mem == c.mem || o.Moved?)
            && (Untouched(c, after, o) || (Taking(c, st, e, i, j) && Takes(c, i, after, o)))
            && (o.Passed? ==> NextRow(c.xb, st.scope, e.pick) == Some(i) && PassedOver(c.xb[i]))
  {
    hide NextRow, OrderAt, Queue, UniqueKeys, Takes;
    i, j := 0, 0;
    var next := NextRow(c.xb, st.scope, e.pick);
    if next.Some? {
      i := next.value;
      var order := OrderAt(c.ob, c.xb[i].ordrRfrnc, e.orderPick);
      if order.Some? && c.xb[i].plcdStts == REQUESTED && e.client.Some? {
        j := order.value;
        QueueMoves(c, st, i, j, e);
      }
    }
  }

  // ---- one turn ----

  /** The turn moves row `i`, whose order is `j`, and logs it unless it stops the service. */
  ghost predicate MovingTurn(s: Service, st: Setting, e: Env, t: Service, i: nat, j: nat) {
    && s.Runs() && Taking(s.client, st, e, i, j) && RowMoved(s.client.xb, i, t.client.xb)
    && t.client.ob == (if t.status == Stopped(Some(OrderNotUpdated)) then s.client.ob
                       else MarkOrders(s.client.ob, s.client.xb[i].ordrRfrnc, QUEUED))
    && (t.Runs() ==> |t.log| == |s.log| + 1 && t.log[..|s.log|] == s.log
                     && t.log[|s.log|].moved.Some? && t.log[|s.log|].moved.value.0 == i)
    && (!t.Runs() ==> t.log == s.log)
  }

  /** The turn leaves the books alone; what it logs, if anything, is a row that cannot be moved. */
  ghost predicate RestingTurn(s: Service, st: Setting, open: bool, e: Env, t: Service) {
    && t.client == s.client && (t.status == Stopped(Some(OrderNotUpdated)) ==> t == s)
    && (t.log == s.log || (
          && t.Runs() && open && |t.log| == |s.log| + 1 && t.log[..|s.log|] == s.log && t.log[|s.log|].moved.None?
          && NextRow(s.client.xb, st.scope, e.pick).Some?
          && PassedOver(s.client.xb[NextRow(s.client.xb, st.scope, e.pick).value])))
    && (t.log == s.log && open ==> !t.Runs()) && (!s.Runs() ==> t == s)
  }

  lemma TurnMoves(s: Service, st: Setting, open: bool, e: Env) returns (i: nat, j: nat)
    requires UniqueKeys(s.client.xb)
    ensures var t := Turn(s, st, open, e);
            RestingTurn(s, st, open, e, t) || (open && MovingTurn(s, st, e, t, i, j))
  {
    hide NextRecord, NextRow, UniqueKeys, Leaves, MarkOrders, PassedOver, Taking;
    i, j := RecordMoves(s.client, st, e);
  }

  // ---- the books over a whole run ----

  /** Against the books `c0` of the start: which rows may have changed, and how. */
  ghost predicate OnlyMoved(c0: Client, st: Setting, c: Client) {
    && |c.xb| == |c0.xb| && |c.ob| == |c0.ob|
    && (forall i :: 0 <= i < |c0.xb| ==>
          c.xb[i] == c0.xb[i] || (Movable(c0.xb[i], st.scope) && Leaves(c0.xb[i], c.xb[i])))
    && (forall j :: 0 <= j < |c0.ob| ==> c.ob[j] == c0.ob[j] || c.ob[j] == c0.ob[j].(ordrStts := QUEUED))
  }

  lemma KeysPersist(c0: Client, st: Setting, c: Client)
    requires UniqueKeys(c0.xb) && OnlyMoved(c0, st, c)
    ensures UniqueKeys(c.xb)
  {
    hide RTrim;
    forall i, j | 0 <= i < |c.xb| && 0 <= j < |c.xb| && i != j
      ensures !Keyed(c.xb[i], c.xb[j].ordrRfrnc, c.xb[j].mdfctnCntr)
    {
      assert !Keyed(c0.xb[i], c0.xb[j].ordrRfrnc, c0.xb[j].mdfctnCntr);
    }
  }

  /** The row a moving turn takes is movable and still as it was at the start. */
  lemma TakenFromStart(c0: Client, st: Setting, c: Client, e: Env, i: nat, j: nat)
    requires OnlyMoved(c0, st, c) && Taking(c, st, e, i, j)
    ensures c.xb[i] == c0.xb[i] && Movable(c0.xb[i], st.scope)
  {
    hide RTrim;
  }

  lemma OnlyMovedStep(c0: Client, st: Setting, s: Service, e: Env, t: Service, i: nat, j: nat)
    requires OnlyMoved(c0, st, s.client) && MovingTurn(s, st, e, t, i, j)
    ensures OnlyMoved(c0, st, t.client)
  {
    hide Leaves, Movable, NextRow;
    TakenFromStart(c0, st, s.client, e, i, j);
  }

  /** In every run the only change to a row of either book is one the loop is meant to make. */
  lemma {:induction false} AlwaysOnlyMoved(c0: Client, st: Setting, turns: seq<(bool, Env)>)
    requires UniqueKeys(c0.xb)
    ensures OnlyMoved(c0, st, Exec(Start(c0), st, turns).client)
    ensures UniqueKeys(Exec(Start(c0), st, turns).client.xb)
  {
    hide Turn, UniqueKeys, OnlyMoved, MovingTurn;
    if turns == [] {
      UnmovedAtStart(c0, st);
    } else {
      var before, last := turns[..|turns| - 1], turns[|turns| - 1];
      AlwaysOnlyMoved(c0, st, before);
      var s := Exec(Start(c0), st, before);
      var i, j := TurnMoves(s, st, last.0, last.1);
      var t := Turn(s, st, last.0, last.1);
      if !RestingTurn(s, st, last.0, last.1, t) {
        OnlyMovedStep(c0, st, s, last.1, t, i, j);
      }
    }
    KeysPersist(c0, st, Exec(Start(c0), st, turns).client);
  }

  lemma UnmovedAtStart(c0: Client, st: Setting)
    ensures OnlyMoved(c0, st, c0)
  {
  }

  /** The last turn of a run, with what is known of the state before it and of the row it may have moved. */
  lemma {:induction false} LastTurn(c0: Client, st: Setting, turns: seq<(bool, Env)>)
      returns (s: Service, open: bool, e: Env, i: nat, j: nat)
    requires UniqueKeys(c0.xb) && turns != []
    ensures s == Exec(Start(c0), st, turns[..|turns| - 1])
    ensures turns == turns[..|turns| - 1] + [(open, e)]
    ensures OnlyMoved(c0, st, s.client) && OnlyMoved(c0, st, Exec(Start(c0), st, turns).client)
    ensures var t := Exec(Start(c0), st, turns);
            RestingTurn(s, st, open, e, t) || (open && MovingTurn(s, st, e, t, i, j))
  {
    hide Turn, OnlyMoved, UniqueKeys;
    open, e := turns[|turns| - 1].0, turns[|turns| - 1].1;
    s := Exec(Start(c0), st, turns[..|turns| - 1]);
    AlwaysOnlyMoved(c0, st, turns[..|turns| - 1]);
    AlwaysOnlyMoved(c0, st, turns);
    i, j := TurnMoves(s, st, open, e);
  }

  // ---- how many rows leave ----

  /** The rows that are no longer as they were. */
  ghost function Left(xb0: seq<ExchRow>, xb: seq<ExchRow>): set<nat>
    requires |xb| == |xb0|
  {
    set i: nat | i < |xb0| && xb[i] != xb0[i]
  }

  /** The rows the logged turns moved, in the order of the log. */
  function MovedRows(log: seq<Entry>): (rows: seq<nat>)
    ensures |rows| <= |log|
  {
    if log == [] then []
    else
      var before, last := MovedRows(log[..|log| - 1]), log[|log| - 1].moved;
      if last.Some? then before + [last.value.0] else before
  }

  lemma LeftGrows(c0: Client, st: Setting, s: Service, e: Env, t: Service, i: nat, j: nat)
    requires OnlyMoved(c0, st, s.client) && OnlyMoved(c0, st, t.client) && MovingTurn(s, st, e, t, i, j)
    ensures i !in Left(c0.xb, s.client.xb)
    ensures Left(c0.xb, t.client.xb) == Left(c0.xb, s.client.xb) + {i}
  {
    TakenFromStart(c0, st, s.client, e, i, j);
    LeavesDiffers(s.client.xb[i], t.client.xb[i]);
    hide OnlyMoved, Taking, MarkOrders, Leaves;
  }

  lemma LeavesDiffers(before: ExchRow, after: ExchRow)
    requires Leaves(before, after) && before.plcdStts == REQUESTED
    ensures after != before && after.plcdStts != REQUESTED
  {
    hide RTrim;
  }

  /** The rows that have left are those the log names, each once, and `extra`. */
  ghost predicate Tallied(xb0: seq<ExchRow>, xb: seq<ExchRow>, rows: seq<nat>, extra: set<nat>) {
    && |xb| == |xb0|
    && Left(xb0, xb) == (set r | r in rows) + extra
    && |Left(xb0, xb)| == |rows| + |extra|
  }

  lemma TallyGrows(xb0: seq<ExchRow>, xb: seq<ExchRow>, after: seq<ExchRow>, rows: seq<nat>, i: nat)
    requires Tallied(xb0, xb, rows, {}) && |after| == |xb0| && i !in Left(xb0, xb)
    requires Left(xb0, after) == Left(xb0, xb) + {i}
    ensures Tallied(xb0, after, rows + [i], {}) && Tallied(xb0, after, rows, {i})
  {
    assert (set r | r in rows + [i]) == (set r | r in rows) + {i};
  }

  /** A turn adds to the rows of the log the row it moves, if it moves one and goes on. */
  lemma LogGrows(s: Service, st: Setting, open: bool, e: Env, t: Service, i: nat, j: nat)
    ensures RestingTurn(s, st, open, e, t) ==> MovedRows(t.log) == MovedRows(s.log)
    ensures MovingTurn(s, st, e, t, i, j) ==>
              MovedRows(t.log) == if t.Runs() then MovedRows(s.log) + [i] else MovedRows(s.log)
  {
    hide Taking, RowMoved, MarkOrders, PassedOver, NextRow;
    assert t.log == t.log[..|t.log|];
  }

  /**
   While the service runs, the rows that have left are exactly those its log names, each once;
   the turn that stopped it may have taken one more.
   */
  lemma {:induction false} LogNamesLeft(c0: Client, st: Setting, turns: seq<(bool, Env)>) returns (extra: set<nat>)
    requires UniqueKeys(c0.xb)
    ensures var s := Exec(Start(c0), st, turns);
            && Tallied(c0.xb, s.client.xb, MovedRows(s.log), extra)
            && |extra| <= (if s.Runs() then 0 else 1)
  {
    extra := {};
    if turns != [] {
      extra := LogNamesLeft(c0, st, turns[..|turns| - 1]);
      var s, open, e, i, j := LastTurn(c0, st, turns);
      var t := Exec(Start(c0), st, turns);
      LogGrows(s, st, open, e, t, i, j);
      if !RestingTurn(s, st, open, e, t) {
        LeftGrows(c0, st, s, e, t, i, j);
        hide Exec, Left, MovedRows, OnlyMoved, UniqueKeys, Tallied, Taking, MarkOrders;
        TallyGrows(c0.xb, s.client.xb, t.client.xb, MovedRows(s.log), i);
        extra := if t.Runs() then {} else {i};
      }
    }
  }

  /** No row with the number of a requested row is one that the client would pass over. */
  ghost predicate NoneBlocks(xb: seq<ExchRow>, s: Scope) {
    forall i, k :: 0 <= i < |xb| && 0 <= k < |xb| && Requested(xb[k], s) && Numbered(xb[i], s, xb[k].ordrSqnc) ==>
                     !PassedOver(xb[i])
  }

  /** Rows still requested are as they were, and the row fetched next was due from the start. */
  lemma NextWasDue(c0: Client, st: Setting, c: Client, pick: nat)
    requires OnlyMoved(c0, st, c)
    ensures forall k :: 0 <= k < |c.xb| && Requested(c.xb[k], st.scope) ==> c.xb[k] == c0.xb[k]
    ensures var n := NextRow(c.xb, st.scope, pick);
            n.Some? ==>
              && Numbered(c0.xb[n.value], st.scope, c.xb[n.value].ordrSqnc)
              && c0.xb[n.value].request == c.xb[n.value].request
              && (PassedOver(c.xb[n.value]) ==> PassedOver(c0.xb[n.value]))
              && exists k :: 0 <= k < |c0.xb| && Requested(c0.xb[k], st.scope)
                             && c0.xb[k].ordrSqnc == c.xb[n.value].ordrSqnc
  {
    hide RTrim;
    var n := NextRow(c.xb, st.scope, pick);
    if n.Some? {
      var k :| 0 <= k < |c.xb| && Requested(c.xb[k], st.scope) && c.xb[k].ordrSqnc == c.xb[n.value].ordrSqnc;
      assert c.xb[k] == c0.xb[k];
    }
  }

  lemma NoRestBehindTheGate(c0: Client, st: Setting, s: Service, open: bool, e: Env, t: Service)
    requires NoneBlocks(c0.xb, st.scope) && OnlyMoved(c0, st, s.client) && RestingTurn(s, st, open, e, t)
    ensures t.log == s.log
  {
    NextWasDue(c0, st, s.client, e.pick);
    hide OnlyMoved, NextRow;
  }

  /** Where nothing blocks, every completed turn has moved a row. */
  lemma {:induction false} EveryTurnMoves(c0: Client, st: Setting, turns: seq<(bool, Env)>)
    requires UniqueKeys(c0.xb) && NoneBlocks(c0.xb, st.scope)
    ensures var s := Exec(Start(c0), st, turns); |MovedRows(s.log)| == |s.log|
  {
    if turns != [] {
      EveryTurnMoves(c0, st, turns[..|turns| - 1]);
      var s, open, e, i, j := LastTurn(c0, st, turns);
      var t := Exec(Start(c0), st, turns);
      hide Exec, OnlyMoved, UniqueKeys, NoneBlocks;
      if RestingTurn(s, st, open, e, t) {
        NoRestBehindTheGate(c0, st, s, open, e, t);
      } else {
        LogGrows(s, st, open, e, t, i, j);
      }
    }
  }

  /**
   Over every run, failing ones included: no more rows leave than messages are written, save one
   that the stopping turn may have taken; and where nothing blocks, no fewer.
   */
  lemma {:induction false} CountConservation(c0: Client, st: Setting, turns: seq<(bool, Env)>)
    requires UniqueKeys(c0.xb)
    ensures var s := Exec(Start(c0), st, turns);
            && |s.client.xb| == |c0.xb|
            && |Left(c0.xb, s.client.xb)| <= |s.log| + (if s.Runs() then 0 else 1)
            && (NoneBlocks(c0.xb, st.scope) ==> |s.log| <= |Left(c0.xb, s.client.xb)|)
  {
    hide Exec, UniqueKeys, NoneBlocks;
    var extra := LogNamesLeft(c0, st, turns);
    if NoneBlocks(c0.xb, st.scope) {
      EveryTurnMoves(c0, st, turns);
    }
  }

  // ---- in which order, and for how long ----

  ghost predicate MovableRows(xb0: seq<ExchRow>, s: Scope, rows: seq<nat>) {
    forall a :: 0 <= a < |rows| ==> rows[a] < |xb0| && Movable(xb0[rows[a]], s)
  }

  ghost predicate NonDecreasing(xb0: seq<ExchRow>, s: Scope, rows: seq<nat>)
    requires MovableRows(xb0, s, rows)
  {
    forall a, b :: 0 <= a < b < |rows| ==> xb0[rows[a]].ordrSqnc <= xb0[rows[b]].ordrSqnc
  }

  /** No row that is still requested has a lower number than one of `rows`. */
  ghost predicate NoneLower(xb0: seq<ExchRow>, xb: seq<ExchRow>, s: Scope, rows: seq<nat>)
    requires MovableRows(xb0, s, rows)
  {
    forall a, k :: 0 <= a < |rows| && 0 <= k < |xb| && Requested(xb[k], s) ==> xb0[rows[a]].ordrSqnc <= xb[k].ordrSqnc
  }

  ghost predicate NoRepeats(rows: seq<nat>) {
    forall a, b :: 0 <= a < b < |rows| ==> rows[a] != rows[b]
  }

  /** The row taken is the lowest requested one. */
  lemma LowestTaken(c0: Client, st: Setting, s: Service, e: Env, t: Service, i: nat, j: nat)
    requires OnlyMoved(c0, st, s.client) && OnlyMoved(c0, st, t.client) && MovingTurn(s, st, e, t, i, j)
    ensures Requested(s.client.xb[i], st.scope) && s.client.xb[i] == c0.xb[i] && Movable(c0.xb[i], st.scope)
    ensures forall k :: 0 <= k < |t.client.xb| && Requested(t.client.xb[k], st.scope) ==>
                          && Requested(s.client.xb[k], st.scope) && s.client.xb[k] == t.client.xb[k]
                          && c0.xb[i].ordrSqnc <= t.client.xb[k].ordrSqnc
  {
    TakenFromStart(c0, st, s.client, e, i, j);
    LeavesDiffers(s.client.xb[i], t.client.xb[i]);
    hide OnlyMoved, Leaves, MarkOrders, PassedOver;
  }

  lemma OrderStep(xb0: seq<ExchRow>, scope: Scope, xb: seq<ExchRow>, after: seq<ExchRow>, i: nat, rows: seq<nat>)
    requires |after| == |xb| == |xb0| && i < |xb0| && MovableRows(xb0, scope, rows)
    requires NonDecreasing(xb0, scope, rows) && NoneLower(xb0, xb, scope, rows)
    requires Requested(xb[i], scope) && xb[i] == xb0[i] && Movable(xb0[i], scope)
    requires forall k :: 0 <= k < |after| && Requested(after[k], scope) ==>
                           && Requested(xb[k], scope) && xb[k] == after[k] && xb0[i].ordrSqnc <= after[k].ordrSqnc
    ensures MovableRows(xb0, scope, rows + [i]) && NonDecreasing(xb0, scope, rows + [i])
    ensures NoneLower(xb0, after, scope, rows + [i])
  {
    hide Requested, Movable;
  }

  lemma StillNoRepeats(xb0: seq<ExchRow>, xb: seq<ExchRow>, rows: seq<nat>, i: nat)
    requires NoRepeats(rows) && Tallied(xb0, xb, rows, {}) && i !in Left(xb0, xb)
    ensures NoRepeats(rows + [i])
  {
    assert forall a :: 0 <= a < |rows| ==> rows[a] in rows;
  }

  /** `rows` are the rows that have left, each once, by numbers that never go down. */
  ghost predicate Drained(c0: Client, st: Setting, xb: seq<ExchRow>, rows: seq<nat>) {
    && Tallied(c0.xb, xb, rows, {}) && NoRepeats(rows)
    && MovableRows(c0.xb, st.scope, rows) && NonDecreasing(c0.xb, st.scope, rows) && NoneLower(c0.xb, xb, st.scope, rows)
  }

  lemma NothingDrained(c0: Client, st: Setting)
    ensures Drained(c0, st, c0.xb, [])
  {
    assert Left(c0.xb, c0.xb) == {};
  }

  lemma DrainStep(c0: Client, st: Setting, s: Service, e: Env, t: Service, i: nat, j: nat, rows: seq<nat>)
    requires OnlyMoved(c0, st, s.client) && OnlyMoved(c0, st, t.client) && MovingTurn(s, st, e, t, i, j)
    requires Drained(c0, st, s.client.xb, rows)
    ensures Drained(c0, st, t.client.xb, rows + [i])
  {
    hide NoneLower, NonDecreasing, MovableRows, Tallied, NoRepeats, Left, Leaves, MarkOrders;
    LowestTaken(c0, st, s, e, t, i, j);
    LeftGrows(c0, st, s, e, t, i, j);
    assert |c0.xb| == |s.client.xb| == |t.client.xb|;
    hide Taking, RowMoved, Movable, OnlyMoved;
    StillNoRepeats(c0.xb, s.client.xb, rows, i);
    TallyGrows(c0.xb, s.client.xb, t.client.xb, rows, i);
    OrderStep(c0.xb, st.scope, s.client.xb, t.client.xb, i, rows);
  }

  /**
   The rows that have left in a run, the one the stopping turn took included, each once and in the
   order in which they left: their numbers never go down, and no row still requested has a lower one.
   */
  lemma {:induction false} DrainOrder(c0: Client, st: Setting, turns: seq<(bool, Env)>) returns (rows: seq<nat>)
    requires UniqueKeys(c0.xb)
    ensures var s := Exec(Start(c0), st, turns);
            && Drained(c0, st, s.client.xb, rows)
            && MovedRows(s.log) <= rows && |rows| <= |MovedRows(s.log)| + (if s.Runs() then 0 else 1)
  {
    hide Drained, OnlyMoved, UniqueKeys, Turn;
    if turns == [] {
      rows := [];
      NothingDrained(c0, st);
    } else {
      rows := DrainOrder(c0, st, turns[..|turns| - 1]);
      var s, open, e, i, j := LastTurn(c0, st, turns);
      var t := Exec(Start(c0), st, turns);
      hide Exec, Taking, RowMoved, MarkOrders, PassedOver, NextRow;
      LogGrows(s, st, open, e, t, i, j);
      if !RestingTurn(s, st, open, e, t) {
        DrainStep(c0, st, s, e, t, i, j, rows);
        hide RestingTurn, MovedRows;
        assert rows == MovedRows(s.log);
        rows := rows + [i];
      }
    }
  }

  ghost predicate Increasing(xb0: seq<ExchRow>, s: Scope, rows: seq<nat>)
    requires MovableRows(xb0, s, rows)
  {
    forall a, b :: 0 <= a < b < |rows| ==> xb0[rows[a]].ordrSqnc < xb0[rows[b]].ordrSqnc
  }

  /** Every row that is still requested has a higher number than all of `rows`. */
  ghost predicate AllBefore(xb0: seq<ExchRow>, xb: seq<ExchRow>, s: Scope, rows: seq<nat>)
    requires MovableRows(xb0, s, rows)
  {
    forall a, k :: 0 <= a < |rows| && 0 <= k < |xb| && Requested(xb[k], s) ==> xb0[rows[a]].ordrSqnc < xb[k].ordrSqnc
  }

  /** With unique numbers rows leave in strictly increasing order, and all that is still requested comes after them. */
  lemma {:induction false} StrictDrainOrder(c0: Client, st: Setting, turns: seq<(bool, Env)>) returns (rows: seq<nat>)
    requires UniqueKeys(c0.xb) && UniqueNumbers(c0.xb, st.scope)
    ensures var s := Exec(Start(c0), st, turns);
            && Drained(c0, st, s.client.xb, rows)
            && MovedRows(s.log) <= rows && |rows| <= |MovedRows(s.log)| + (if s.Runs() then 0 else 1)
            && Increasing(c0.xb, st.scope, rows) && AllBefore(c0.xb, s.client.xb, st.scope, rows)
  {
    hide Turn, UniqueKeys, UniqueNumbers, OnlyMoved, Drained, Increasing, AllBefore;
    rows := DrainOrder(c0, st, turns);
    AlwaysOnlyMoved(c0, st, turns);
    var c := Exec(Start(c0), st, turns).client;
    hide Exec;
    NextWasDue(c0, st, c, 0);
    StrictlyDrained(c0, st, c.xb, rows);
  }

  lemma StrictlyDrained(c0: Client, st: Setting, xb: seq<ExchRow>, rows: seq<nat>)
    requires UniqueNumbers(c0.xb, st.scope) && Drained(c0, st, xb, rows)
    requires forall k :: 0 <= k < |xb| && Requested(xb[k], st.scope) ==> xb[k] == c0.xb[k]
    ensures Increasing(c0.xb, st.scope, rows) && AllBefore(c0.xb, xb, st.scope, rows)
  {
    hide UniqueNumbers, PassedOver;
    assert forall a :: 0 <= a < |rows| ==> rows[a] in rows;
    forall a, b | 0 <= a < b < |rows|
      ensures c0.xb[rows[a]].ordrSqnc < c0.xb[rows[b]].ordrSqnc
    {
      DifferentNumbers(c0.xb, st.scope, rows[a], rows[b]);
    }
    forall a, k | 0 <= a < |rows| && 0 <= k < |xb| && Requested(xb[k], st.scope)
      ensures c0.xb[rows[a]].ordrSqnc < xb[k].ordrSqnc
    {
      assert rows[a] in Left(c0.xb, xb) && k !in Left(c0.xb, xb);
      DifferentNumbers(c0.xb, st.scope, rows[a], k);
    }
  }

  lemma DifferentNumbers(xb: seq<ExchRow>, s: Scope, i: nat, k: nat)
    requires UniqueNumbers(xb, s) && i < |xb| && k < |xb| && i != k && InScope(xb[i], s) && InScope(xb[k], s)
    ensures xb[i].ordrSqnc != xb[k].ordrSqnc
  {
    assert !Numbered(xb[k], s, xb[i].ordrSqnc);
  }

  ghost function RequestedRows(xb: seq<ExchRow>, s: Scope): set<nat> {
    set i: nat | i < |xb| && Requested(xb[i], s)
  }

  function Opens(turns: seq<(bool, Env)>): nat {
    if turns == [] then 0 else Opens(turns[..|turns| - 1]) + if turns[|turns| - 1].0 then 1 else 0
  }

  /** The turns that the gate lets pass. */
  function OpenTurns(turns: seq<(bool, Env)>): (opens: seq<(bool, Env)>)
    ensures |opens| == Opens(turns)
    ensures forall k :: 0 <= k < |opens| ==> opens[k].0
  {
    if turns == [] then []
    else
      var before, last := OpenTurns(turns[..|turns| - 1]), turns[|turns| - 1];
      if last.0 then before + [last] else before
  }

  /** Turns that pass the gate either complete or stop the service. */
  lemma {:induction false} LogCountsTurns(c0: Client, st: Setting, turns: seq<(bool, Env)>)
    requires UniqueKeys(c0.xb)
    ensures var s := Exec(Start(c0), st, turns); s.Runs() ==> |s.log| == Opens(turns)
  {
    if turns != [] {
      LogCountsTurns(c0, st, turns[..|turns| - 1]);
      var s, open, e, i, j := LastTurn(c0, st, turns);
      hide OnlyMoved, UniqueKeys, NextRecord;
    }
  }

  lemma RequestedDrops(c0: Client, st: Setting, c: Client)
    requires OnlyMoved(c0, st, c)
    ensures Left(c0.xb, c.xb) <= RequestedRows(c0.xb, st.scope)
    ensures RequestedRows(c.xb, st.scope) == RequestedRows(c0.xb, st.scope) - Left(c0.xb, c.xb)
    ensures |RequestedRows(c.xb, st.scope)| == |RequestedRows(c0.xb, st.scope)| - |Left(c0.xb, c.xb)|
  {
    hide RTrim;
  }

  /**
   Where nothing blocks, each completed turn lowers the number of requested rows by one, so the
   loop stops at the latest in the turn after as many as there were.
   */
  lemma {:induction false} DrainTerminates(c0: Client, st: Setting, turns: seq<(bool, Env)>)
    requires UniqueKeys(c0.xb) && NoneBlocks(c0.xb, st.scope)
    ensures var s := Exec(Start(c0), st, turns);
            && |s.log| <= |RequestedRows(c0.xb, st.scope)|
            && (s.Runs() ==> |RequestedRows(s.client.xb, st.scope)| == |RequestedRows(c0.xb, st.scope)| - |s.log|)
            && (Opens(turns) > |RequestedRows(c0.xb, st.scope)| ==> !s.Runs())
  {
    hide Exec, UniqueKeys, NoneBlocks, OnlyMoved, Opens;
    AlwaysOnlyMoved(c0, st, turns);
    CountConservation(c0, st, turns);
    LogCountsTurns(c0, st, turns);
    RequestedDrops(c0, st, Exec(Start(c0), st, turns).client);
  }

  // ---- what blocks ----

  /** No run ever touches a blocking row or any row of the scope with a higher number. */
  lemma {:induction false} NeverPastABlocker(c0: Client, st: Setting, turns: seq<(bool, Env)>, b: nat, k: nat)
    requires UniqueKeys(c0.xb) && b < |c0.xb| && k < |c0.xb| && Blocker(c0.xb[b], st.scope)
    requires b == k || (InScope(c0.xb[k], st.scope) && c0.xb[b].ordrSqnc < c0.xb[k].ordrSqnc)
    ensures var xb := Exec(Start(c0), st, turns).client.xb; |xb| == |c0.xb| && xb[b] == c0.xb[b] && xb[k] == c0.xb[k]
  {
    if turns != [] {
      NeverPastABlocker(c0, st, turns[..|turns| - 1], b, k);
      var s, open, e, i, j := LastTurn(c0, st, turns);
      var t := Exec(Start(c0), st, turns);
      hide Exec, UniqueKeys, MarkOrders, Leaves;
      if !RestingTurn(s, st, open, e, t) {
        TakenFromStart(c0, st, s.client, e, i, j);
        hide OnlyMoved;
        assert i != b && i != k;
      }
    }
  }

  /** Whichever row the query returns next, the client passes over it. */
  ghost predicate HeadBlocked(xb: seq<ExchRow>, s: Scope) {
    var m := MinRequested(xb, s);
    m.Some? && forall i :: 0 <= i < |xb| && Numbered(xb[i], s, m.value) ==> PassedOver(xb[i])
  }

  /** From then on nothing changes any more, and every completed turn sends the last packet again. */
  lemma {:induction false} Stuck(s: Service, st: Setting, turns: seq<(bool, Env)>)
    requires HeadBlocked(s.client.xb, st.scope)
    ensures var t := Exec(s, st, turns);
            && t.client == s.client && |s.log| <= |t.log| && t.log[..|s.log|] == s.log
            && forall k :: |s.log| <= k < |t.log| ==> t.log[k].moved.None? && t.log[k].packet == s.client.mem.packet
  {
    if turns != [] {
      Stuck(s, st, turns[..|turns| - 1]);
      PassesOver(s.client, st, turns[|turns| - 1].1);
      hide NextRecord, HeadBlocked;
    }
  }

  lemma PassesOver(c: Client, st: Setting, e: Env)
    requires HeadBlocked(c.xb, st.scope)
    ensures NextRecord(c, st, e).0 == c && (NextRecord(c, st, e).1.Passed? || NextRecord(c, st, e).1.Failed?)
  {
    hide Queue;
  }
}
