/** Exchange responses that are downloaded again must not be applied twice. */
module Downloads {
  import opened Bytes
  import opened Text
  import opened OrderBooks

  /** A downloaded response: the record in memory, and the database errors it meets. */
  datatype Response = Response(record: ExchRow, faults: UpdateFaults)

  function Apply(xb: seq<ExchRow>, r: Response): (seq<ExchRow>, bool) {
    UpdateBook(xb, r.record, UPDATION_ON_EXCHANGE_RESPONSE, DOWNLOAD, "", r.faults)
  }

  function ApplyAll(xb: seq<ExchRow>, rs: seq<Response>): seq<ExchRow> {
    if rs == [] then xb else Apply(ApplyAll(xb, rs[..|rs| - 1]), rs[|rs| - 1]).0
  }

  predicate SamePipe(r: ExchRow, s: ExchRow) {
    r.xchngCd == s.xchngCd && r.pipeId == s.pipeId
  }

  /** Rows of one exchange and pipe never share a jiffy, unless it is the zero of a row without response. */
  ghost predicate DistinctJiffies(xb: seq<ExchRow>) {
    forall i, k :: 0 <= i < k < |xb| && SamePipe(xb[i], xb[k]) && xb[i].jiffy == xb[k].jiffy ==> xb[i].jiffy == 0.0
  }

  predicate Targets(r: Response, row: ExchRow) {
    Keyed(row, r.record.ordrRfrnc, r.record.mdfctnCntr)
  }

  /** The response carries the exchange and the pipe of the row it is for. */
  ghost predicate Addressed(xb: seq<ExchRow>, r: Response) {
    forall i :: 0 <= i < |xb| && Targets(r, xb[i]) ==> SamePipe(xb[i], r.record)
  }

  function UpdateOf(r: Response): Update {
    var m := r.record;
    OrderBooks.Response(m.plcdStts, m.rmsPrcsdFlg, m.orsMsgTyp, m.ackTm, m.xchngRmrks, m.jiffy)
  }

  /** A response changes nothing, or exactly its target row. */
  lemma ApplyOne(xb: seq<ExchRow>, r: Response, i: nat)
    requires UniqueKeys(xb) && i < |xb| && Targets(r, xb[i])
    ensures Apply(xb, r) == if Apply(xb, r).1 then (xb[i := Updated(xb[i], UpdateOf(r))], true) else (xb, false)
  {
    UpdateOne(xb, i, UpdateOf(r));
  }

  lemma ApplyNone(xb: seq<ExchRow>, r: Response)
    requires forall i :: 0 <= i < |xb| ==> !Targets(r, xb[i])
    ensures Apply(xb, r).0 == xb
  {
    hide Updated;
    assert UpdateWhere(xb, r.record.ordrRfrnc, r.record.mdfctnCntr, UpdateOf(r)) == xb;
  }

  /** An accepted response keeps the jiffies distinct exactly when its jiffy is new to the pipe of its row. */
  lemma AcceptedKeepsDistinct(xb: seq<ExchRow>, r: Response, i: nat)
    requires UniqueKeys(xb) && DistinctJiffies(xb) && i < |xb| && Targets(r, xb[i]) && Apply(xb, r).1
    requires r.record.jiffy != 0.0
    ensures DistinctJiffies(Apply(xb, r).0)
       <==> forall k :: 0 <= k < |xb| && k != i && SamePipe(xb[i], xb[k]) ==> xb[k].jiffy != r.record.jiffy
  {
    ApplyOne(xb, r, i);
    hide RTrim, TrimSpace, UpdateBook;
    var after := Apply(xb, r).0;
    if k :| 0 <= k < |xb| && k != i && SamePipe(xb[i], xb[k]) && xb[k].jiffy == r.record.jiffy {
      assert SamePipe(after[i], after[k]) && after[i].jiffy == after[k].jiffy;
    }
  }

  predicate SameIdentity(a: ExchRow, b: ExchRow) {
    SamePipe(a, b) && Keyed(a, b.ordrRfrnc, b.mdfctnCntr)
  }

  lemma IdentityStays(xb: seq<ExchRow>, r: Response)
    ensures |Apply(xb, r).0| == |xb|
    ensures forall i :: 0 <= i < |xb| ==> SameIdentity(Apply(xb, r).0[i], xb[i])
    ensures UniqueKeys(xb) ==> UniqueKeys(Apply(xb, r).0)
  {
    hide RTrim, TrimSpace;
  }

  lemma OneResponse(xb: seq<ExchRow>, r: Response)
    requires UniqueKeys(xb) && DistinctJiffies(xb) && Addressed(xb, r)
    ensures DistinctJiffies(Apply(xb, r).0)
  {
    if i :| 0 <= i < |xb| && Targets(r, xb[i]) {
      ApplyOne(xb, r, i);
      hide RTrim, TrimSpace, UniqueKeys;
      var after := Apply(xb, r).0;
      if Apply(xb, r).1 {
        assert !Recorded(xb, r.record);
        assert forall k :: 0 <= k < |xb| && SamePipe(xb[k], xb[i]) ==> xb[k].jiffy != r.record.jiffy;
      }
    } else {
      ApplyNone(xb, r);
    }
  }

  /** Over any sequence of addressed responses, accepted or refused, no pipe gets the same response twice. */
  lemma {:induction false} JiffiesStayDistinct(xb: seq<ExchRow>, rs: seq<Response>)
    requires UniqueKeys(xb) && DistinctJiffies(xb) && forall k :: 0 <= k < |rs| ==> Addressed(xb, rs[k])
    ensures |ApplyAll(xb, rs)| == |xb| && UniqueKeys(ApplyAll(xb, rs))
    ensures forall i :: 0 <= i < |xb| ==> SameIdentity(ApplyAll(xb, rs)[i], xb[i])
    ensures DistinctJiffies(ApplyAll(xb, rs))
  {
    if rs != [] {
      var before, last := rs[..|rs| - 1], rs[|rs| - 1];
      JiffiesStayDistinct(xb, before);
      var now := ApplyAll(xb, before);
      assert Addressed(xb, last);
      assert Addressed(now, last);
      OneResponse(now, last);
      IdentityStays(now, last);
      hide Apply, UniqueKeys, DistinctJiffies;
    }
  }

  /**
   After a response has been accepted, downloading it once more is refused with the book unchanged
   exactly when there is a row it is for; a response without a row is accepted again and again.
   */
  lemma ReplayIsRefused(xb: seq<ExchRow>, r: Response)
    requires UniqueKeys(xb) && Addressed(xb, r) && Apply(xb, r).1
    ensures var after := Apply(xb, r).0;
            Apply(after, r) == (after, !exists i :: 0 <= i < |xb| && Targets(r, xb[i]))
  {
    hide RTrim, TrimSpace;
    var after := Apply(xb, r).0;
    if i :| 0 <= i < |xb| && Targets(r, xb[i]) {
      ApplyOne(xb, r, i);
      assert SamePipe(after[i], r.record) && after[i].jiffy == r.record.jiffy;
      assert Recorded(after, r.record);
    } else {
      ApplyNone(xb, r);
    }
  }

  // ---- remarks ----

  lemma {:induction false} TrimKeepsText(a: seq<byte>, b: seq<byte>)
    requires a != [] ==> a[|a| - 1] != SPACE
    ensures a <= RTrim(a + b)
  {
    if b == [] {
      assert a + b == a;
    } else {
      TrimKeepsText(a, b[..|b| - 1]);
      assert (a + b)[..|a + b| - 1] == a + b[..|b| - 1];
    }
  }

  lemma RowAfter(xb: seq<ExchRow>, r: Response, i: nat)
    requires i < |xb|
    ensures |Apply(xb, r).0| == |xb|
    ensures Apply(xb, r).0[i] == xb[i] || Apply(xb, r).0[i] == Updated(xb[i], UpdateOf(r))
  {
    hide Updated, Recorded;
  }

  /** One response leaves the remarks alone or appends its own to the trimmed ones. */
  lemma OneResponseAppends(xb: seq<ExchRow>, r: Response, i: nat)
    requires i < |xb|
    ensures |Apply(xb, r).0| == |xb|
    ensures RTrim(xb[i].xchngRmrks) <= RTrim(Apply(xb, r).0[i].xchngRmrks)
  {
    RowAfter(xb, r, i);
    TrimKeepsText(RTrim(xb[i].xchngRmrks), TrimSpace(r.record.xchngRmrks));
    hide RTrim, TrimSpace, Apply;
  }

  /** Remarks are only ever added to: the trimmed remarks of the start stay in front of all later ones. */
  lemma {:induction false} RemarksOnlyGrow(xb: seq<ExchRow>, rs: seq<Response>, i: nat)
    requires i < |xb|
    ensures |ApplyAll(xb, rs)| == |xb|
    ensures RTrim(xb[i].xchngRmrks) <= RTrim(ApplyAll(xb, rs)[i].xchngRmrks) <= ApplyAll(xb, rs)[i].xchngRmrks
  {
    if rs != [] {
      RemarksOnlyGrow(xb, rs[..|rs| - 1], i);
      OneResponseAppends(ApplyAll(xb, rs[..|rs| - 1]), rs[|rs| - 1], i);
      hide RTrim, Apply;
    }
  }
}
