/** How the order book follows the exchange book through every run. */
module BookAgreement {
  import opened Wrappers
  import opened OrderBooks
  import opened PackClient
  import opened Draining

  /** One of `rows` carries the reference. */
  ghost predicate Refers(xb0: seq<ExchRow>, rows: set<nat>, rfrnc: string) {
    exists i :: i in rows && i < |xb0| && xb0[i].ordrRfrnc == rfrnc
  }

  ghost predicate HasOrder(ob: seq<OrderRow>, r: ExchRow) {
    exists j :: 0 <= j < |ob| && ob[j].ordrRfrnc == r.ordrRfrnc && ob[j].mdfctnCntr == r.mdfctnCntr
  }

  /** The orders that `rows` refer to are queued, and all the others are as they were. */
  ghost predicate QueuedExactly(c0: Client, ob: seq<OrderRow>, rows: set<nat>) {
    && |ob| == |c0.ob|
    && forall j :: 0 <= j < |ob| ==>
                     ob[j] == if Refers(c0.xb, rows, c0.ob[j].ordrRfrnc) then c0.ob[j].(ordrStts := QUEUED)
                              else c0.ob[j]
  }

  lemma QueueAnother(c0: Client, ob: seq<OrderRow>, rows: set<nat>, i: nat)
    requires QueuedExactly(c0, ob, rows) && i < |c0.xb|
    ensures QueuedExactly(c0, MarkOrders(ob, c0.xb[i].ordrRfrnc, QUEUED), rows + {i})
  {
    forall j | 0 <= j < |ob|
      ensures Refers(c0.xb, rows + {i}, c0.ob[j].ordrRfrnc)
         <==> Refers(c0.xb, rows, c0.ob[j].ordrRfrnc) || c0.xb[i].ordrRfrnc == c0.ob[j].ordrRfrnc
    {
      if Refers(c0.xb, rows, c0.ob[j].ordrRfrnc) {
        var k :| k in rows && k < |c0.xb| && c0.xb[k].ordrRfrnc == c0.ob[j].ordrRfrnc;
        assert k in rows + {i};
      }
      if c0.xb[i].ordrRfrnc == c0.ob[j].ordrRfrnc {
        assert i in rows + {i};
      }
    }
  }

  lemma TakenHasOrder(c0: Client, st: Setting, c: Client, e: Env, i: nat, j: nat)
    requires OnlyMoved(c0, st, c) && Taking(c, st, e, i, j)
    ensures HasOrder(c0.ob, c0.xb[i])
  {
    TakenFromStart(c0, st, c, e, i, j);
    hide Movable, Leaves, NextRow, PassedOver;
    assert c0.ob[j].ordrRfrnc == c.ob[j].ordrRfrnc && c0.ob[j].mdfctnCntr == c.ob[j].mdfctnCntr;
  }

  // ---- when the order update fails ----

  /** The record takes row `i` as far as the update of the order book. */
  predicate UpdatesOrder(c: Client, st: Setting, e: Env, i: nat) {
    && NextRow(c.xb, st.scope, e.pick) == Some(i)
    && !e.readFails && !PassedOver(c.xb[i]) && c.xb[i].plcdStts == REQUESTED
    && OrderFetched(c.ob, c.xb[i], e) && !e.book.updateFails
  }

  predicate OrderFetched(ob: seq<OrderRow>, row: ExchRow, e: Env) {
    match OrderAt(ob, row.ordrRfrnc, e.orderPick)
    case None => false
    case Some(j) => !e.orderReadFails && e.client.Some? && ob[j].mdfctnCntr == row.mdfctnCntr
  }

  /** In this turn row `i` is queued and then the update of its order fails. */
  predicate SecondUpdateFails(s: Service, st: Setting, open: bool, e: Env, i: nat) {
    s.Runs() && open && !e.beginFails && UpdatesOrder(s.client, st, e, i) && e.orderUpdateFails
  }

  /** In some turn of the run the second update fails for row `i`. */
  ghost predicate Fails(c0: Client, st: Setting, turns: seq<(bool, Env)>, i: nat) {
    exists k :: 0 <= k < |turns| && SecondUpdateFails(Exec(Start(c0), st, turns[..k]), st, turns[k].0, turns[k].1, i)
  }

  lemma QueueStage(c: Client, st: Setting, i: nat, j: nat, e: Env)
    requires i < |c.xb| && j < |c.ob| && e.client.Some?
    ensures Queue(c, st, i, j, e).1 == Failed(OrderNotUpdated) <==> !e.book.updateFails && e.orderUpdateFails
  {
    hide Pack, UpdateWhere, MarkOrders, Flagged;
  }

  lemma RecordStage(c: Client, st: Setting, e: Env)
    ensures var n := NextRow(c.xb, st.scope, e.pick);
            NextRecord(c, st, e).1 == Failed(OrderNotUpdated)
            <==> n.Some? && UpdatesOrder(c, st, e, n.value) && e.orderUpdateFails
  {
    hide NextRow, OrderAt, Queue;
    var next := NextRow(c.xb, st.scope, e.pick);
    if next.Some? && e.client.Some? {
      var order := OrderAt(c.ob, c.xb[next.value].ordrRfrnc, e.orderPick);
      if order.Some? {
        QueueStage(c, st, next.value, order.value, e);
      }
    }
  }

  lemma TurnStage(s: Service, st: Setting, open: bool, e: Env)
    ensures var n := NextRow(s.client.xb, st.scope, e.pick);
            s.Runs() ==>
              (Turn(s, st, open, e).status == Stopped(Some(OrderNotUpdated))
               <==> n.Some? && SecondUpdateFails(s, st, open, e, n.value))
    ensures !s.Runs() ==> Turn(s, st, open, e) == s
    ensures forall i: nat :: SecondUpdateFails(s, st, open, e, i) ==>
                          s.Runs() && NextRow(s.client.xb, st.scope, e.pick) == Some(i)
  {
    RecordStage(s.client, st, e);
    hide NextRecord, NextRow, OrderFetched, PassedOver;
  }

  lemma {:induction false} FailsInLast(c0: Client, st: Setting, turns: seq<(bool, Env)>, i: nat)
    requires turns != []
    ensures var before, last := turns[..|turns| - 1], turns[|turns| - 1];
            Fails(c0, st, turns, i)
            <==> Fails(c0, st, before, i) || SecondUpdateFails(Exec(Start(c0), st, before), st, last.0, last.1, i)
  {
    hide Exec, SecondUpdateFails;
    var before := turns[..|turns| - 1];
    forall k | 0 <= k < |before|
      ensures before[..k] == turns[..k] && before[k] == turns[k]
    {
    }
    if k :| 0 <= k < |turns| && SecondUpdateFails(Exec(Start(c0), st, turns[..k]), st, turns[k].0, turns[k].1, i) {
      assert k < |before| ==> SecondUpdateFails(Exec(Start(c0), st, before[..k]), st, before[k].0, before[k].1, i);
    }
    if k :| 0 <= k < |before| && SecondUpdateFails(Exec(Start(c0), st, before[..k]), st, before[k].0, before[k].1, i) {
      assert SecondUpdateFails(Exec(Start(c0), st, turns[..k]), st, turns[k].0, turns[k].1, i);
    }
  }

  lemma NothingFailed(c0: Client, st: Setting, i: nat)
    ensures !Fails(c0, st, [], i)
  {
  }

  lemma {:induction false} StoppedBySecondUpdate(c0: Client, st: Setting, turns: seq<(bool, Env)>)
    ensures Exec(Start(c0), st, turns).status == Stopped(Some(OrderNotUpdated)) <==> exists i :: Fails(c0, st, turns, i)
  {
    hide Turn, SecondUpdateFails, NextRow, Fails;
    if turns == [] {
      forall i: nat
        ensures !Fails(c0, st, [], i)
      {
        NothingFailed(c0, st, i);
      }
    } else {
      var before, last := turns[..|turns| - 1], turns[|turns| - 1];
      var s := Exec(Start(c0), st, before);
      StoppedBySecondUpdate(c0, st, before);
      TurnStage(s, st, last.0, last.1);
      forall i: nat
        ensures Fails(c0, st, turns, i) <==> Fails(c0, st, before, i) || SecondUpdateFails(s, st, last.0, last.1, i)
      {
        FailsInLast(c0, st, turns, i);
      }
    }
  }

  // ---- the two books over a whole run ----

  /** `behind` holds the rows, at most one, whose order update failed. */
  ghost predicate Follows(c0: Client, st: Setting, turns: seq<(bool, Env)>, behind: set<nat>) {
    var s := Exec(Start(c0), st, turns);
    && |s.client.xb| == |c0.xb| && behind <= Left(c0.xb, s.client.xb)
    && |behind| == (if s.status == Stopped(Some(OrderNotUpdated)) then 1 else 0)
    && (forall i :: i in behind <==> Fails(c0, st, turns, i))
    && QueuedExactly(c0, s.client.ob, Left(c0.xb, s.client.xb) - behind)
    && forall i :: i in Left(c0.xb, s.client.xb) ==> HasOrder(c0.ob, c0.xb[i])
  }

  /** What fails in the last turn: the row it moved if it stopped at the order update, and nothing otherwise. */
  lemma {:induction false} LastFailure(c0: Client, st: Setting, turns: seq<(bool, Env)>, s: Service, open: bool, e: Env,
                                       i: nat, j: nat, x: nat)
    requires turns != [] && s == Exec(Start(c0), st, turns[..|turns| - 1]) && turns[|turns| - 1] == (open, e)
    ensures var t := Exec(Start(c0), st, turns);
            && (RestingTurn(s, st, open, e, t) ==>
                  (Fails(c0, st, turns, x) <==> Fails(c0, st, turns[..|turns| - 1], x)))
            && (open && MovingTurn(s, st, e, t, i, j) ==>
                  (Fails(c0, st, turns, x)
                   <==> Fails(c0, st, turns[..|turns| - 1], x)
                        || (t.status == Stopped(Some(OrderNotUpdated)) && x == i)))
  {
    FailsInLast(c0, st, turns, x);
    TurnStage(s, st, open, e);
    assert Exec(Start(c0), st, turns) == Turn(s, st, open, e);
    hide Exec, Turn, SecondUpdateFails, Fails, NextRow, RowMoved, MarkOrders, PassedOver;
  }

  lemma OrderMoves(c0: Client, st: Setting, s: Service, e: Env, t: Service, i: nat, j: nat) returns (behind: set<nat>)
    requires OnlyMoved(c0, st, s.client) && OnlyMoved(c0, st, t.client) && MovingTurn(s, st, e, t, i, j)
    requires QueuedExactly(c0, s.client.ob, Left(c0.xb, s.client.xb))
    requires forall i :: i in Left(c0.xb, s.client.xb) ==> HasOrder(c0.ob, c0.xb[i])
    ensures behind == if t.status == Stopped(Some(OrderNotUpdated)) then {i} else {}
    ensures behind <= Left(c0.xb, t.client.xb)
    ensures QueuedExactly(c0, t.client.ob, Left(c0.xb, t.client.xb) - behind)
    ensures forall i :: i in Left(c0.xb, t.client.xb) ==> HasOrder(c0.ob, c0.xb[i])
  {
    LeftGrows(c0, st, s, e, t, i, j);
    TakenHasOrder(c0, st, s.client, e, i, j);
    TakenFromStart(c0, st, s.client, e, i, j);
    hide OnlyMoved, HasOrder, QueuedExactly, Left, MarkOrders, Movable, Taking, RowMoved;
    var left := Left(c0.xb, s.client.xb);
    assert left + {i} - {} == left + {i} && left + {i} - {i} == left;
    if t.status == Stopped(Some(OrderNotUpdated)) {
      behind := {i};
    } else {
      behind := {};
      QueueAnother(c0, s.client.ob, left, i);
    }
  }

  lemma StartFollows(c0: Client, st: Setting)
    ensures Follows(c0, st, [], {})
  {
    assert Left(c0.xb, c0.xb) == {};
  }

  lemma {:induction false} RestFollows(c0: Client, st: Setting, turns: seq<(bool, Env)>, s: Service, open: bool, e: Env,
                                       behind: set<nat>)
    requires turns != [] && s == Exec(Start(c0), st, turns[..|turns| - 1]) && turns[|turns| - 1] == (open, e)
    requires RestingTurn(s, st, open, e, Exec(Start(c0), st, turns))
    requires Follows(c0, st, turns[..|turns| - 1], behind)
    ensures Follows(c0, st, turns, behind)
  {
    hide Exec, HasOrder, QueuedExactly, Left, MarkOrders, Fails, NextRow, PassedOver;
    forall x: nat
      ensures Fails(c0, st, turns, x) <==> Fails(c0, st, turns[..|turns| - 1], x)
    {
      LastFailure(c0, st, turns, s, open, e, 0, 0, x);
    }
  }

  lemma {:induction false} MoveFollows(c0: Client, st: Setting, turns: seq<(bool, Env)>, s: Service, e: Env,
                                       i: nat, j: nat, behind: set<nat>) returns (after: set<nat>)
    requires turns != [] && s == Exec(Start(c0), st, turns[..|turns| - 1]) && turns[|turns| - 1] == (true, e)
    requires OnlyMoved(c0, st, s.client) && OnlyMoved(c0, st, Exec(Start(c0), st, turns).client)
    requires MovingTurn(s, st, e, Exec(Start(c0), st, turns), i, j)
    requires Follows(c0, st, turns[..|turns| - 1], behind)
    ensures Follows(c0, st, turns, after)
  {
    hide Exec, HasOrder, QueuedExactly, Left, MarkOrders, Fails, Taking, RowMoved, Movable, Leaves;
    var t := Exec(Start(c0), st, turns);
    assert behind == {};
    assert Left(c0.xb, s.client.xb) - behind == Left(c0.xb, s.client.xb);
    after := OrderMoves(c0, st, s, e, t, i, j);
    forall x: nat
      ensures x in after <==> Fails(c0, st, turns, x)
    {
      LastFailure(c0, st, turns, s, true, e, i, j, x);
    }
  }

  /**
   In every run exactly the orders of the rows that have left are queued and every other order is
   unchanged, but for the one row whose order update failed and stopped the run.
   */
  lemma {:induction false} OrdersFollow(c0: Client, st: Setting, turns: seq<(bool, Env)>) returns (behind: set<nat>)
    requires UniqueKeys(c0.xb)
    ensures Follows(c0, st, turns, behind)
  {
    hide Exec, UniqueKeys, OnlyMoved, RestingTurn, MovingTurn, Follows;
    if turns == [] {
      behind := {};
      StartFollows(c0, st);
    } else {
      behind := OrdersFollow(c0, st, turns[..|turns| - 1]);
      var s, open, e, i, j := LastTurn(c0, st, turns);
      if RestingTurn(s, st, open, e, Exec(Start(c0), st, turns)) {
        RestFollows(c0, st, turns, s, open, e, behind);
      } else {
        behind := MoveFollows(c0, st, turns, s, e, i, j, behind);
      }
    }
  }

  /** The order of row `i` is queued and has the counter of the row. */
  ghost predicate Agrees(c0: Client, c: Client, i: nat) {
    i < |c0.xb| && exists j :: 0 <= j < |c.ob| && c.ob[j].ordrRfrnc == c0.xb[i].ordrRfrnc
                               && c.ob[j].mdfctnCntr == c0.xb[i].mdfctnCntr && c.ob[j].ordrStts == QUEUED
  }

  lemma OneRowPerOrder(c0: Client, i: nat, k: nat)
    requires UniqueKeys(c0.xb) && UniqueOrders(c0.ob) && i < |c0.xb| && k < |c0.xb|
    requires HasOrder(c0.ob, c0.xb[i]) && HasOrder(c0.ob, c0.xb[k]) && c0.xb[i].ordrRfrnc == c0.xb[k].ordrRfrnc
    ensures i == k
  {
    var j :| 0 <= j < |c0.ob| && c0.ob[j].ordrRfrnc == c0.xb[i].ordrRfrnc && c0.ob[j].mdfctnCntr == c0.xb[i].mdfctnCntr;
    var l :| 0 <= l < |c0.ob| && c0.ob[l].ordrRfrnc == c0.xb[k].ordrRfrnc && c0.ob[l].mdfctnCntr == c0.xb[k].mdfctnCntr;
    assert j == l;
    assert Keyed(c0.xb[i], c0.xb[k].ordrRfrnc, c0.xb[k].mdfctnCntr);
  }

  /** Row `i` agrees when its order was queued for it, and otherwise as it did at the start. */
  lemma AgreesWhenQueued(c0: Client, c: Client, rows: set<nat>, i: nat)
    requires UniqueOrders(c0.ob) && QueuedExactly(c0, c.ob, rows) && i < |c0.xb| && HasOrder(c0.ob, c0.xb[i])
    ensures i in rows ==> Agrees(c0, c, i)
    ensures !Refers(c0.xb, rows, c0.xb[i].ordrRfrnc) ==> (Agrees(c0, c, i) <==> Agrees(c0, c0, i))
  {
    var j :| 0 <= j < |c0.ob| && c0.ob[j].ordrRfrnc == c0.xb[i].ordrRfrnc && c0.ob[j].mdfctnCntr == c0.xb[i].mdfctnCntr;
    if i in rows {
      assert Refers(c0.xb, rows, c0.ob[j].ordrRfrnc);
      assert c.ob[j].ordrStts == QUEUED;
    }
  }

  /**
   At every point of every run at most one row of each order has left. The two books agree on all
   rows that left if and only if every row for which the second update failed agreed with its order
   from the start: a failing update leaves the order as it was.
   */
  lemma {:induction false} BooksAgree(c0: Client, st: Setting, turns: seq<(bool, Env)>)
    requires UniqueKeys(c0.xb) && UniqueOrders(c0.ob)
    ensures |Exec(Start(c0), st, turns).client.xb| == |c0.xb|
    ensures var c := Exec(Start(c0), st, turns).client;
            var left := Left(c0.xb, c.xb);
            && (forall i, k :: i in left && k in left && i != k ==> c0.xb[i].ordrRfrnc != c0.xb[k].ordrRfrnc)
            && ((forall i :: i in left ==> Agrees(c0, c, i))
                <==> forall i :: Fails(c0, st, turns, i) ==> Agrees(c0, c0, i))
  {
    var behind := OrdersFollow(c0, st, turns);
    var c := Exec(Start(c0), st, turns).client;
    var left := Left(c0.xb, c.xb);
    hide Exec, HasOrder, QueuedExactly, UniqueKeys, UniqueOrders, Agrees, Fails;
    forall i, k | i in left && k in left && c0.xb[i].ordrRfrnc == c0.xb[k].ordrRfrnc
      ensures i == k
    {
      OneRowPerOrder(c0, i, k);
    }
    forall i | i in left
      ensures i !in behind ==> Agrees(c0, c, i)
      ensures i in behind ==> (Agrees(c0, c, i) <==> Agrees(c0, c0, i))
    {
      AgreesWhenQueued(c0, c, left - behind, i);
    }
  }

  /** If no order was queued at the start, the books agree if and only if no second update failed. */
  lemma {:induction false} BooksAgreeFromScratch(c0: Client, st: Setting, turns: seq<(bool, Env)>)
    requires UniqueKeys(c0.xb) && UniqueOrders(c0.ob)
    requires forall j :: 0 <= j < |c0.ob| ==> c0.ob[j].ordrStts != QUEUED
    ensures |Exec(Start(c0), st, turns).client.xb| == |c0.xb|
    ensures var c := Exec(Start(c0), st, turns).client;
            (forall i :: i in Left(c0.xb, c.xb) ==> Agrees(c0, c, i)) <==> forall i :: !Fails(c0, st, turns, i)
  {
    hide Exec, UniqueKeys, UniqueOrders, Left, Fails;
    BooksAgree(c0, st, turns);
    assert forall i :: !Agrees(c0, c0, i);
    hide Agrees;
  }

  /** Where no update of the order book fails, the books agree on every row that left. */
  lemma {:induction false} BooksAgreeWithoutFaults(c0: Client, st: Setting, turns: seq<(bool, Env)>)
    requires UniqueKeys(c0.xb) && UniqueOrders(c0.ob)
    requires forall k :: 0 <= k < |turns| ==> !turns[k].1.orderUpdateFails
    ensures |Exec(Start(c0), st, turns).client.xb| == |c0.xb|
    ensures var c := Exec(Start(c0), st, turns).client;
            forall i :: i in Left(c0.xb, c.xb) ==> Agrees(c0, c, i)
  {
    BooksAgree(c0, st, turns);
    hide Exec, Agrees, UniqueKeys, UniqueOrders, Left;
  }

  /** The smallest such run: one row, its order, and a turn whose second update fails. */
  lemma {:induction false} SecondUpdateSplitsTheBooks(r: ExchRow, d: OrderRow, c0: Client, st: Setting, e: Env)
    requires c0.xb == [r] && c0.ob == [d] && Movable(r, st.scope)
    requires d.ordrRfrnc == r.ordrRfrnc && d.mdfctnCntr == r.mdfctnCntr && d.ordrStts != QUEUED
    requires !e.beginFails && !e.readFails && !e.orderReadFails && e.client.Some? && !e.book.updateFails
    requires e.orderUpdateFails
    ensures var s := Exec(Start(c0), st, [(true, e)]);
            && s.status == Stopped(Some(OrderNotUpdated)) && s.log == []
            && s.client.xb == [r.(plcdStts := QUEUED, frwdTm := e.now)] && s.client.ob == [d]
  {
    assert c0.xb[0] == r && c0.ob[0] == d;
    var next := NextRow(c0.xb, st.scope, e.pick);
    assert next == Some(0) && OrderAt(c0.ob, r.ordrRfrnc, e.orderPick) == Some(0);
    BookedMoves(c0.xb, c0.ob, 0, e);
    assert [r][0 := r.(plcdStts := QUEUED, frwdTm := e.now)] == [r.(plcdStts := QUEUED, frwdTm := e.now)];
    ExecOne(Start(c0), st, [], true, e);
    assert [] + [(true, e)] == [(true, e)];
    hide Exec, NextRow, OrderAt, Pack, UpdateWhere, MarkOrders;
  }
}
