/** Conversions into fixed-width fields, and the sequence counter of a pipe and trade date. */
module TypeConversion {
  import opened Wrappers
  import opened Bytes
  import opened Text
  import opened Codec

  const TEN_YRS_IN_SEC := 315513000
  const MAX_SEQ_NUM := 2147483647

  /** Upper-cased text, cut or blank-padded to the width of its field. */
  function FormatSymbol(destLen: nat, src: seq<byte>): (r: seq<byte>)
    ensures |r| == destLen
  {
    Copy(Repeat(SPACE, destLen), ToUpper(src))
  }

  lemma BlankSymbol(destLen: nat)
    ensures FormatSymbol(destLen, [SPACE]) == Repeat(SPACE, destLen)
  {
  }

  method CopyAndFormatSymbol(dest: seq<byte>, destLen: nat, src: seq<byte>) returns (out: seq<byte>)
    requires destLen <= |dest|
    ensures out == FormatSymbol(destLen, src) + dest[destLen..]
    ensures destLen == |dest| ==> out == FormatSymbol(destLen, src)
  {
    var srcUpper := ToUpper(src);
    var copyLen := |srcUpper|;
    if copyLen > destLen {
      copyLen := destLen;
    }
    out := Copy(dest, srcUpper[..copyLen]);
    for i := copyLen to destLen
      invariant |out| == |dest|
      invariant out[..i] == FormatSymbol(destLen, src)[..i]
      invariant out[i..] == dest[i..]
    {
      out := out[i := SPACE];
    }
  }

  /** Seconds since 1970 shifted by the exchange's ten-year epoch; `None` is a date that does not parse. */
  function LongToTimeArr(expiry: Option<int>): (r: Option<int32>)
    ensures r.Some? <==> expiry.Some?
  {
    match expiry
    case None => None
    case Some(t) => Some(Wrap32(t + TEN_YRS_IN_SEC))
  }

  /** The date is written only when it parses. */
  method TimeArrToLong(validDate: Option<int>, date: int32) returns (res: int, out: int32)
    ensures validDate.None? ==> res == -1 && out == date
    ensures validDate.Some? ==> res == 0 && out == Wrap32(validDate.value)
  {
    match validDate
    case None => return -1, date;
    case Some(t) => return 0, Wrap32(t);
  }

  method WriteAndCopy(fields: seq<Field>, dest: seq<byte>) returns (out: seq<byte>)
    ensures out == Copy(dest, Encode(Little, fields))
    ensures |Encode(Little, fields)| == |dest| ==> out == Encode(Little, fields)
  {
    out := Copy(dest, Encode(Little, fields));
  }

  type SeqKey = (string, string)

  /** The counter after one more number has been taken. */
  function NextSequence(s: int): int {
    if s + 1 == MAX_SEQ_NUM then 0 else s + 1
  }

  /** The database errors of the two statements of one draw. */
  datatype DrawFaults = DrawFaults(updateFails: bool, resetFails: bool)

  /**
   The table and the number after one draw. Without a row for the key nothing is updated and
   nothing is scanned, so the number is zero; -1 stands for an error.
   */
  function Draw(rows: map<SeqKey, int>, key: SeqKey, faults: DrawFaults): (r: (map<SeqKey, int>, int32))
    ensures forall k :: k != key ==> (k in r.0 <==> k in rows) && (k in rows ==> r.0[k] == rows[k])
    ensures r.0.Keys == rows.Keys
  {
    if faults.updateFails then (rows, -1)
    else if key !in rows then (rows, 0)
    else
      var s := rows[key] + 1;
      if !(-0x8000_0000 <= s < 0x8000_0000) || (s == MAX_SEQ_NUM && faults.resetFails) then (rows[key := s], -1)
      else (rows[key := NextSequence(rows[key])], NextSequence(rows[key]))
  }

  /** What one draw gives for a counter in range, and when it fails. */
  lemma DrawOutcomes(rows: map<SeqKey, int>, key: SeqKey, faults: DrawFaults)
    requires key in rows ==> 0 <= rows[key] < 2147483647
    ensures var (after, n) := Draw(rows, key, faults);
            && (n == -1 <==> faults.updateFails || (key in rows && rows[key] == 2147483646 && faults.resetFails))
            && (n != -1 && key !in rows ==> n == 0 && after == rows)
            && (n != -1 && key in rows ==> n == (rows[key] + 1) % 2147483647 && after == rows[key := n])
            && (faults.updateFails ==> after == rows)
  {
  }

  class SequenceTable {
    var rows: map<SeqKey, int>

    constructor (initial: map<SeqKey, int>)
      ensures rows == initial
    {
      rows := initial;
    }

    /** One increment, and a reset when the increment reaches the maximum. */
    method GetResetSequence(key: SeqKey, faults: DrawFaults) returns (seqNum: int32)
      modifies this
      ensures (rows, seqNum) == Draw(old(rows), key, faults)
    {
      seqNum := 0;
      if faults.updateFails {
        return -1;
      }
      if key in rows {
        rows := rows[key := rows[key] + 1];
        if !(-0x8000_0000 <= rows[key] < 0x8000_0000) {  // does not scan into 32 bits
          return -1;
        }
        seqNum := rows[key];
      }
      if seqNum == MAX_SEQ_NUM {
        if faults.resetFails {
          return -1;
        }
        assert rows[key := 0] == old(rows)[key := 0];
        rows := rows[key := 0];
        seqNum := 0;
      }
    }
  }

  /** The table after `k` faultless draws for one key. */
  function Draws(rows: map<SeqKey, int>, key: SeqKey, k: nat): (map<SeqKey, int>, int32) {
    if k == 0 then (rows, 0) else Draw(Draws(rows, key, k - 1).0, key, DrawFaults(false, false))
  }

  /**
   The k-th number drawn from a counter in range is `s + k` modulo the maximum, which is itself
   never issued; the counters of other pipes and dates stay as they were.
   */
  lemma {:induction false} DrawsClosedForm(rows: map<SeqKey, int>, key: SeqKey, k: nat)
    requires key in rows && 0 <= rows[key] < MAX_SEQ_NUM && k > 0
    ensures Draws(rows, key, k).1 == (rows[key] + k) % MAX_SEQ_NUM
    ensures Draws(rows, key, k).0 == rows[key := (rows[key] + k) % MAX_SEQ_NUM]
  {
    if k > 1 {
      DrawsClosedForm(rows, key, k - 1);
    }
    assert Draws(rows, key, 0).0 == rows == rows[key := rows[key]];
  }

  /** Two draws give one number exactly when they are a whole number of rounds apart. */
  lemma DrawsRepeatOnlyAfterARound(rows: map<SeqKey, int>, key: SeqKey, j: nat, k: nat)
    requires key in rows && 0 <= rows[key] < MAX_SEQ_NUM && j > 0 && k > 0
    ensures Draws(rows, key, j).1 == Draws(rows, key, k).1 <==> (k - j) % MAX_SEQ_NUM == 0
  {
    DrawsClosedForm(rows, key, j);
    DrawsClosedForm(rows, key, k);
    SameRemainder(rows[key] + j, rows[key] + k);
  }

  lemma SameRemainder(a: nat, b: nat)
    ensures a % MAX_SEQ_NUM == b % MAX_SEQ_NUM <==> (b - a) % MAX_SEQ_NUM == 0
  {
    var m := MAX_SEQ_NUM;
    assert a == a / m * m + a % m && b == b / m * m + b % m;
    assert b - a == (b / m - a / m) * m + (b % m - a % m);
  }
}
