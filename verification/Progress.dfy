/** Which rows do leave when nothing goes wrong: exactly those ahead of the first blocking row. */
module Progress {
  import opened Wrappers
  import opened Text
  import opened OrderBooks
  import opened PackClient
  import opened Draining
  import Packing

  /** Every statement, lookup and queue operation of the turn succeeds. */
  predicate Smooth(e: Env) {
    && !e.beginFails && !e.commitFails && e.accepts
    && !e.readFails && !e.orderReadFails && e.client.Some? && !e.book.updateFails && !e.orderUpdateFails
    && e.ext.Some? && e.clock.Some? && !e.reject.updateFails
  }

  /** Every turn that the gate lets pass is smooth; the gate may close as often as it likes. */
  predicate AllSmooth(turns: seq<(bool, Env)>) {
    forall k :: 0 <= k < |turns| && turns[k].0 ==> Smooth(turns[k].1)
  }

  lemma {:induction false} OpenTurnsAreSmooth(turns: seq<(bool, Env)>)
    requires AllSmooth(turns)
    ensures AllSmooth(OpenTurns(turns))
  {
    hide Smooth;
    if turns != [] {
      OpenTurnsAreSmooth(turns[..|turns| - 1]);
    }
  }

  /** A run does what its open turns alone do. */
  lemma {:induction false} ClosedTurnsChangeNothing(s: Service, st: Setting, turns: seq<(bool, Env)>)
    ensures Exec(s, st, OpenTurns(turns)) == Exec(s, st, turns)
  {
    hide Turn;
    if turns != [] {
      var before, last := turns[..|turns| - 1], turns[|turns| - 1];
      ClosedTurnsChangeNothing(s, st, before);
      if last.0 {
        ExecOne(s, st, OpenTurns(before), last.0, last.1);
      } else {
        ClosedTurn(Exec(s, st, before), st, last.1);
      }
    }
  }

  predicate OrderFits(r: ExchRow, d: OrderRow) {
    && d.mdfctnCntr == r.mdfctnCntr && (d.xchngCd == NFO || d.xchngCd == BFO) && d.terms.expiry.Some?
    && Flagged(r.request, d.terms)
  }

  /** Every movable row has its order. */
  ghost predicate Sound(c: Client, st: Setting) {
    && TrimSpace(st.scope.xchngCd) == NFO
    && (forall i :: 0 <= i < |c.xb| && Movable(c.xb[i], st.scope) ==>
          && (exists j :: 0 <= j < |c.ob| && c.ob[j].ordrRfrnc == c.xb[i].ordrRfrnc)
          && (forall j :: 0 <= j < |c.ob| && c.ob[j].ordrRfrnc == c.xb[i].ordrRfrnc ==> OrderFits(c.xb[i], c.ob[j])))
  }

  /** The queue takes what the turn leaves in the packet: it is there already, or the turn packs its order. */
  predicate Sends(c: Client, st: Setting, e: Env) {
    c.mem.packet.lMsgType >= 1 ||
    var o := NextRecord(c, st, e).1;
    o.Moved? && Packing.Packs(o.order, o.issue)
  }

  lemma PackSetsType(m: Packing.Memory, o: Packing.Order, issue: Packing.Issue)
    ensures Packing.AfterPack(m, o, issue).packet.lMsgType >= 1 <==> m.packet.lMsgType >= 1 || Packing.Packs(o, issue)
  {
    hide Packing.Packs, Packing.Packable, Packing.ReachesDate;
  }

  lemma SmoothQueue(c: Client, st: Setting, i: nat, j: nat, e: Env)
    requires Smooth(e) && i < |c.xb| && j < |c.ob| && OrderFits(c.xb[i], c.ob[j])
    requires TrimSpace(st.scope.xchngCd) == NFO
    ensures var (after, o) := Queue(c, st, i, j, e);
            && o.Moved?
            && (after.mem.packet.lMsgType >= 1 <==> c.mem.packet.lMsgType >= 1 || Packing.Packs(o.order, o.issue))
  {
    hide Flagged, UpdateWhere, MarkOrders, Pack, Packing.AfterPack, Packing.Packs;
    var r := Queue(c, st, i, j, e);
    PackSetsType(c.mem, r.1.order, r.1.issue);
  }

  /** A movable row that is next is moved, and the service goes on exactly if its packet can be sent. */
  lemma SmoothTurn(c0: Client, st: Setting, s: Service, e: Env, i: nat)
    requires Sound(c0, st) && OnlyMoved(c0, st, s.client) && Smooth(e) && s.Runs()
    requires NextRow(s.client.xb, st.scope, e.pick) == Some(i) && s.client.xb[i] == c0.xb[i]
    requires Movable(c0.xb[i], st.scope)
    ensures var t := Turn(s, st, true, e);
            && NextRecord(s.client, st, e).1.Moved?
            && (t.Runs() <==> Sends(s.client, st, e)) && (t.Runs() ==> t.client.mem.packet.lMsgType >= 1)
  {
    var c := s.client;
    hide Flagged, Leaves, NextRow, Queue, RTrim, Packing.Packs;
    var order := OrderAt(c.ob, c.xb[i].ordrRfrnc, e.orderPick);
    var k :| 0 <= k < |c0.ob| && c0.ob[k].ordrRfrnc == c0.xb[i].ordrRfrnc;
    assert c.ob[k].ordrRfrnc == c0.xb[i].ordrRfrnc;
    assert OrderFits(c0.xb[i], c0.ob[order.value]);
    SmoothQueue(c, st, i, order.value, e);
  }

  /** The movable rows with no blocking row before them. */
  ghost function Ahead(xb: seq<ExchRow>, s: Scope): set<nat> {
    set i: nat | i < |xb| && Movable(xb[i], s)
                 && forall b :: 0 <= b < |xb| && Blocker(xb[b], s) ==> xb[i].ordrSqnc < xb[b].ordrSqnc
  }

  lemma NextIsMovable(c0: Client, st: Setting, c: Client, pick: nat, i: nat) returns (n: nat)
    requires UniqueNumbers(c0.xb, st.scope) && OnlyMoved(c0, st, c)
    requires i in Ahead(c0.xb, st.scope) && c.xb[i] == c0.xb[i]
    ensures NextRow(c.xb, st.scope, pick) == Some(n) && c.xb[n] == c0.xb[n] && Movable(c0.xb[n], st.scope)
  {
    NextWasDue(c0, st, c, pick);
    hide OnlyMoved, NextRow, PassedOver, Leaves;
    assert Requested(c.xb[i], st.scope);
    n := NextRow(c.xb, st.scope, pick).value;
    var k :| 0 <= k < |c.xb| && Requested(c.xb[k], st.scope) && c.xb[k].ordrSqnc == c.xb[n].ordrSqnc;
    assert Numbered(c0.xb[n], st.scope, c0.xb[k].ordrSqnc);
    assert n == k;
    assert !Blocker(c0.xb[n], st.scope);
  }

  /** Rows that have left were ahead of every blocking row. */
  lemma {:induction false} LeftIsAhead(c0: Client, st: Setting, turns: seq<(bool, Env)>)
    requires UniqueKeys(c0.xb) && UniqueNumbers(c0.xb, st.scope)
    ensures var xb := Exec(Start(c0), st, turns).client.xb;
            |xb| == |c0.xb| && Left(c0.xb, xb) <= Ahead(c0.xb, st.scope)
  {
    AlwaysOnlyMoved(c0, st, turns);
    var xb := Exec(Start(c0), st, turns).client.xb;
    hide Exec, Leaves, PassedOver, UniqueKeys, UniqueNumbers;
    forall i, b | i in Left(c0.xb, xb) && 0 <= b < |c0.xb| && Blocker(c0.xb[b], st.scope)
      ensures c0.xb[i].ordrSqnc < c0.xb[b].ordrSqnc
    {
      if c0.xb[b].ordrSqnc <= c0.xb[i].ordrSqnc {
        NeverPastABlocker(c0, st, turns, b, i);
      }
    }
  }

  /** Each smooth turn takes one more of the rows ahead, as long as there are any. */
  ghost predicate KeepsUp(c0: Client, st: Setting, s: Service, n: nat) {
    && |s.client.xb| == |c0.xb|
    && (Left(c0.xb, s.client.xb) == Ahead(c0.xb, st.scope)
        || (s.Runs() && |Left(c0.xb, s.client.xb)| >= n && (n > 0 ==> s.client.mem.packet.lMsgType >= 1)))
  }

  lemma KeepsUpStep(c0: Client, st: Setting, s: Service, e: Env, t: Service, i: nat, j: nat, n: nat)
    requires UniqueKeys(c0.xb) && UniqueNumbers(c0.xb, st.scope) && Sound(c0, st) && Smooth(e)
    requires OnlyMoved(c0, st, s.client) && OnlyMoved(c0, st, t.client) && t == Turn(s, st, true, e)
    requires RestingTurn(s, st, true, e, t) || MovingTurn(s, st, e, t, i, j)
    requires Left(c0.xb, s.client.xb) <= Ahead(c0.xb, st.scope) && Left(c0.xb, t.client.xb) <= Ahead(c0.xb, st.scope)
    requires KeepsUp(c0, st, s, n)
    requires n == 0 ==> |Ahead(c0.xb, st.scope)| <= 1 || Sends(s.client, st, e)
    ensures KeepsUp(c0, st, t, n + 1)
  {
    hide Turn, UniqueKeys, UniqueNumbers, Sound, Smooth, Ahead, Taking, RowMoved, MarkOrders, Left, Movable, Leaves;
    hide NextRecord, Packing.Packs, RTrim;
    var ahead, left, after := Ahead(c0.xb, st.scope), Left(c0.xb, s.client.xb), Left(c0.xb, t.client.xb);
    if !RestingTurn(s, st, true, e, t) {
      LeftGrows(c0, st, s, e, t, i, j);
    }
    if left == ahead {
      assert after == ahead;
    } else {
      var k :| k in ahead && k !in left;
      MoreAhead(c0, st, s, e, k);
      assert after == left + {i} && |after| == |left| + 1;
      if after != ahead {
        SmallerSubset(after, ahead);
      }
    }
  }

  lemma MoreAhead(c0: Client, st: Setting, s: Service, e: Env, k: nat)
    requires UniqueKeys(c0.xb) && UniqueNumbers(c0.xb, st.scope) && Sound(c0, st) && Smooth(e)
    requires OnlyMoved(c0, st, s.client) && s.Runs()
    requires k in Ahead(c0.xb, st.scope) && k !in Left(c0.xb, s.client.xb)
    ensures var t := Turn(s, st, true, e);
            && (t.Runs() <==> Sends(s.client, st, e)) && (t.Runs() ==> t.client.mem.packet.lMsgType >= 1)
            && !RestingTurn(s, st, true, e, t)
  {
    var n := NextIsMovable(c0, st, s.client, e.pick, k);
    SmoothTurn(c0, st, s, e, n);
    KeysPersist(c0, st, s.client);
    MovedIsNoRest(s, st, e);
    hide NextRecord, OnlyMoved, Sound, UniqueNumbers, Ahead, NextRow, Turn, RestingTurn;
  }

  /** A turn that moves a record does not rest. */
  lemma MovedIsNoRest(s: Service, st: Setting, e: Env)
    requires UniqueKeys(s.client.xb) && s.Runs() && Smooth(e) && NextRecord(s.client, st, e).1.Moved?
    ensures !RestingTurn(s, st, true, e, Turn(s, st, true, e))
  {
    var i, j := RecordMoves(s.client, st, e);
    hide NextRecord, NextRow, UniqueKeys, Leaves, MarkOrders, PassedOver;
    LeavesDiffers(s.client.xb[i], NextRecord(s.client, st, e).0.xb[i]);
  }

  lemma {:induction false} AlwaysKeepsUp(c0: Client, st: Setting, turns: seq<(bool, Env)>)
    requires UniqueKeys(c0.xb) && UniqueNumbers(c0.xb, st.scope) && Sound(c0, st) && AllSmooth(turns)
    requires forall k :: 0 <= k < |turns| ==> turns[k].0
    requires turns == [] || |Ahead(c0.xb, st.scope)| <= 1 || Sends(c0, st, turns[0].1)
    ensures KeepsUp(c0, st, Exec(Start(c0), st, turns), |turns|)
  {
    if turns != [] {
      var before := turns[..|turns| - 1];
      AlwaysKeepsUp(c0, st, before);
      var s, open, e, i, j := LastTurn(c0, st, turns);
      LeftIsAhead(c0, st, before);
      LeftIsAhead(c0, st, turns);
      hide Turn, OnlyMoved, UniqueKeys, UniqueNumbers, Sound, Smooth, Ahead, KeepsUp, Sends;
      KeepsUpStep(c0, st, s, e, Exec(Start(c0), st, turns), i, j, |before|);
    }
  }

  lemma FirstTurnStops(c0: Client, st: Setting, e: Env)
    requires UniqueKeys(c0.xb) && UniqueNumbers(c0.xb, st.scope) && Sound(c0, st) && Smooth(e)
    requires Ahead(c0.xb, st.scope) != {} && !Sends(c0, st, e)
    ensures !Turn(Start(c0), st, true, e).Runs()
  {
    hide Turn, UniqueKeys, UniqueNumbers, Sound, Smooth, Sends, Ahead;
    var k :| k in Ahead(c0.xb, st.scope);
    UnmovedAtStart(c0, st);
    assert k !in Left(c0.xb, c0.xb);
    hide OnlyMoved, RestingTurn, Left;
    MoreAhead(c0, st, Start(c0), e, k);
  }

  lemma {:induction false} StoppedByTheFirst(c0: Client, st: Setting, turns: seq<(bool, Env)>)
    requires UniqueKeys(c0.xb) && UniqueNumbers(c0.xb, st.scope) && Sound(c0, st) && Ahead(c0.xb, st.scope) != {}
    requires turns != [] && turns[0].0 && Smooth(turns[0].1) && !Sends(c0, st, turns[0].1)
    ensures var s := Exec(Start(c0), st, turns); !s.Runs() && s.log == []
  {
    hide Turn, OnlyMoved, UniqueKeys, UniqueNumbers, Sound, Smooth, Sends, Ahead, Taking, RowMoved, MarkOrders, NextRow;
    hide PassedOver, Left;
    var before := turns[..|turns| - 1];
    var s, open, e, i, j := LastTurn(c0, st, turns);
    if before == [] {
      FirstTurnStops(c0, st, e);
    } else {
      StoppedByTheFirst(c0, st, before);
    }
  }

  /** A first turn through the gate whose packet cannot be sent is the last one, and has written nothing. */
  lemma {:induction false} StopsAtOnce(c0: Client, st: Setting, turns: seq<(bool, Env)>)
    requires UniqueKeys(c0.xb) && UniqueNumbers(c0.xb, st.scope) && Sound(c0, st) && Ahead(c0.xb, st.scope) != {}
    requires var opens := OpenTurns(turns); opens != [] && Smooth(opens[0].1) && !Sends(c0, st, opens[0].1)
    ensures var s := Exec(Start(c0), st, turns); !s.Runs() && s.log == []
  {
    hide Exec, OpenTurns, UniqueKeys, UniqueNumbers, Sound, Smooth, Sends, Ahead;
    ClosedTurnsChangeNothing(Start(c0), st, turns);
    StoppedByTheFirst(c0, st, OpenTurns(turns));
  }

  /**
   After as many smooth turns through the gate as there are rows ahead of the first blocking row, the
   rows that have left are exactly those, if and only if the first of them can be sent or there is but one: with no
   packet from before, a first order that does not pack stops the service.
   */
  lemma {:induction false} DrainsExactlyTheRowsAhead(c0: Client, st: Setting, turns: seq<(bool, Env)>)
    requires UniqueKeys(c0.xb) && UniqueNumbers(c0.xb, st.scope) && Sound(c0, st) && AllSmooth(turns)
    requires Opens(turns) >= |Ahead(c0.xb, st.scope)|
    ensures var xb := Exec(Start(c0), st, turns).client.xb;
            && |xb| == |c0.xb|
            && (Left(c0.xb, xb) == Ahead(c0.xb, st.scope)
                <==> |Ahead(c0.xb, st.scope)| <= 1 || Sends(c0, st, OpenTurns(turns)[0].1))
  {
    hide Turn, UniqueKeys, UniqueNumbers, Sound, Sends, NoneBlocks, OnlyMoved;
    var ahead := Ahead(c0.xb, st.scope);
    LeftIsAhead(c0, st, turns);
    var left := Left(c0.xb, Exec(Start(c0), st, turns).client.xb);
    OpenTurnsAreSmooth(turns);
    if |ahead| <= 1 || Sends(c0, st, OpenTurns(turns)[0].1) {
      ClosedTurnsChangeNothing(Start(c0), st, turns);
      AlwaysKeepsUp(c0, st, OpenTurns(turns));
      hide OpenTurns, Exec, Left, Ahead;
      if left != ahead {
        SmallerSubset(left, ahead);
      }
    } else {
      StopsAtOnce(c0, st, turns);
      CountConservation(c0, st, turns);
    }
  }

  /** The book is drained exactly when nothing in it blocks and its first order can be sent or is the only one. */
  lemma {:induction false} DrainsUnlessBlocked(c0: Client, st: Setting, turns: seq<(bool, Env)>)
    requires UniqueKeys(c0.xb) && UniqueNumbers(c0.xb, st.scope) && Sound(c0, st) && AllSmooth(turns)
    requires Opens(turns) >= |Ahead(c0.xb, st.scope)|
    ensures RequestedRows(Exec(Start(c0), st, turns).client.xb, st.scope) == {}
       <==> && (forall b :: 0 <= b < |c0.xb| ==> !Blocker(c0.xb[b], st.scope))
            && (|Ahead(c0.xb, st.scope)| <= 1 || Sends(c0, st, OpenTurns(turns)[0].1))
  {
    hide Turn, UniqueKeys, UniqueNumbers, Sound, Sends;
    DrainsExactlyTheRowsAhead(c0, st, turns);
    LeftIsAhead(c0, st, turns);
    AlwaysOnlyMoved(c0, st, turns);
    RequestedDrops(c0, st, Exec(Start(c0), st, turns).client);
    hide Exec, OnlyMoved, Left;
    if b :| 0 <= b < |c0.xb| && Blocker(c0.xb[b], st.scope) {
      assert b in RequestedRows(c0.xb, st.scope) && b !in Ahead(c0.xb, st.scope);
    } else {
      assert Ahead(c0.xb, st.scope) == RequestedRows(c0.xb, st.scope);
    }
  }

  lemma SmallerSubset(a: set<nat>, b: set<nat>)
    requires a < b
    ensures |a| < |b|
  {
    assert |b| == |a| + |b - a| by {
      assert b == a + (b - a);
    }
  }
}
