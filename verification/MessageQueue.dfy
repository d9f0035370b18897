/** The System V message queue between the packing client and the exchange client. */
module MessageQueue {
  import opened Wrappers
  import opened Bytes
  import opened Text

  const BOARD_LOT_IN := 2000
  const LOGIN_WITHOUT_OPEN_ORDR_DTLS := 5105
  const SIGN_OFF_REQUEST_IN := 2320

  const QUEUE_LIMIT := 10
  const READ_BUFFER := 400
  const FLUSH_BUFFER := 3072

  /** The three structs a writer can hand over, with the payload lengths their Go types fix. */
  datatype Message =
    | BoardLot(lMsgType: int64, data: seq<byte>)
    | LogOn(lMsgType: int64, data: seq<byte>)
    | LogOff(lMsgType: int64, data: seq<byte>)

  function PayloadLen(msg: Message): nat {
    match msg case BoardLot(_, _) => 338 case LogOn(_, _) => 300 case LogOff(_, _) => 62
  }

  /** `sizeof` of the C struct: the type, the payload and padding to eight bytes. */
  function StructSize(msg: Message): nat {
    match msg case BoardLot(_, _) => 352 case LogOn(_, _) => 312 case LogOff(_, _) => 72
  }

  predicate WellSized(msg: Message) {
    |msg.data| == PayloadLen(msg)
  }

  /** A message in the kernel: its type and the text behind the type. */
  datatype KMessage = KMessage(mtype: int64, mtext: seq<byte>)

  /**
   What the kernel holds of a message. The length passed to `msgsnd` is that of the whole struct
   although the type is not counted, so the text carries `StructSize` bytes: payload and trailing
   bytes of whatever lies behind it.
   */
  function Sent(msg: Message, trailing: seq<byte>): KMessage {
    KMessage(msg.lMsgType, msg.data + trailing)
  }

  predicate Trailing(msg: Message, trailing: seq<byte>) {
    |msg.data| + |trailing| == StructSize(msg)
  }

  /** The type and payload that a reader makes of a message; `None` for an unknown type. */
  function Received(m: KMessage): (r: Option<(int64, seq<byte>)>)
    ensures r.Some? ==> r.value.0 == m.mtype
  {
    if m.mtype == BOARD_LOT_IN then Some((m.mtype, Pad(m.mtext, 338)))
    else if m.mtype == LOGIN_WITHOUT_OPEN_ORDR_DTLS then Some((m.mtype, Pad(m.mtext, 300)))
    else if m.mtype == SIGN_OFF_REQUEST_IN then Some((m.mtype, Pad(m.mtext, 62)))
    else None
  }

  /**
   Whatever trails the struct, the reader gets back type and payload exactly when the type is the
   one that matches the struct, and the message fits the reader's buffer with its type.
   */
  lemma RoundTrip(msg: Message, trailing: seq<byte>)
    requires WellSized(msg) && Trailing(msg, trailing)
    ensures Received(Sent(msg, trailing)) == Some((msg.lMsgType, msg.data))
       <==> msg.lMsgType == match msg case BoardLot(_, _) => 2000 case LogOn(_, _) => 5105 case LogOff(_, _) => 2320
    ensures (|msg.data|, |Sent(msg, trailing).mtext|)
         == match msg case BoardLot(_, _) => (338, 352) case LogOn(_, _) => (300, 312) case LogOff(_, _) => (62, 72)
    ensures 8 + |Sent(msg, trailing).mtext| <= READ_BUFFER == 400
  {
    assert Pad(msg.data + trailing, PayloadLen(msg)) == msg.data;
  }

  /** How one `msgrcv` of the flush loop turns out before the queue is looked at. */
  datatype Attempt = Ready | Interrupted | Broken

  /** How many of the calls look at the queue. */
  function Looks(attempts: seq<(Attempt, bool)>): nat {
    if attempts == [] then 0
    else Looks(attempts[..|attempts| - 1]) + if attempts[|attempts| - 1].0 == Ready then 1 else 0
  }

  /** Call `k` ends the flush of `n` messages: it breaks, or a signal follows it before the queue was found empty. */
  predicate EndsFlush(attempts: seq<(Attempt, bool)>, k: nat, n: nat)
    requires k < |attempts|
  {
    (attempts[k].0 == Broken && Looks(attempts[..k]) <= n) || (attempts[k].1 && Looks(attempts[..k + 1]) <= n)
  }

  lemma {:induction false} LooksStep(attempts: seq<(Attempt, bool)>, k: nat)
    requires k < |attempts|
    ensures Looks(attempts[..k + 1]) == Looks(attempts[..k]) + if attempts[k].0 == Ready then 1 else 0
  {
    assert attempts[..k + 1][..k] == attempts[..k];
  }

  lemma {:induction false} LooksGrow(attempts: seq<(Attempt, bool)>, i: nat, k: nat)
    requires i <= k <= |attempts|
    ensures Looks(attempts[..i]) <= Looks(attempts[..k])
  {
    if i < k {
      LooksStep(attempts, k - 1);
      LooksGrow(attempts, i, k - 1);
    }
  }

  /** The call that finds the queue empty ends the flush, so no later one does. */
  lemma {:induction false} NoneEndsLater(attempts: seq<(Attempt, bool)>, i: nat, n: nat)
    requires i <= |attempts| && forall k :: 0 <= k < i ==> attempts[k].0 != Broken && !attempts[k].1
    requires i < |attempts| ==> attempts[i].0 == Ready && Looks(attempts[..i]) == n
    ensures forall k :: 0 <= k < |attempts| ==> !EndsFlush(attempts, k, n)
  {
    forall k | 0 <= k < |attempts|
      ensures !EndsFlush(attempts, k, n)
    {
      if i <= k {
        LooksStep(attempts, i);
        LooksGrow(attempts, i + 1, k + 1);
        if i < k {
          LooksGrow(attempts, i + 1, k);
        }
      }
    }
  }

  class MessageQueueManager {
    var queue: seq<KMessage>

    /** Every message fits the reader's buffer together with its eight-byte type. */
    ghost predicate Valid()
      reads this
    {
      forall i :: 0 <= i < |queue| ==> queue[i].mtype >= 1 && 8 + |queue[i].mtext| <= READ_BUFFER
    }

    constructor ()
      ensures Valid() && queue == []
    {
      queue := [];
    }

    /** `msgsnd` without waiting refuses types below one; `accepts` is whether the kernel has room. */
    method SendMessageToQueue(m: KMessage, accepts: bool) returns (res: int)
      modifies this
      ensures res == if m.mtype >= 1 && accepts then 0 else -1
      ensures queue == if res == 0 then old(queue) + [m] else old(queue)
    {
      if m.mtype < 1 || !accepts {
        return -1;
      }
      queue := queue + [m];
      return 0;
    }

    method WriteToQueue(msg: Message, trailing: seq<byte>, accepts: bool) returns (res: int)
      requires Valid() && WellSized(msg) && Trailing(msg, trailing)
      modifies this
      ensures Valid()
      ensures res == if msg.lMsgType >= 1 && accepts then 0 else -1
      ensures queue == if res == 0 then old(queue) + [Sent(msg, trailing)] else old(queue)
    {
      var text := Repeat(NUL, PayloadLen(msg));
      for i := 0 to |msg.data|
        invariant |text| == |msg.data| && text[..i] == msg.data[..i]
      {
        text := text[i := msg.data[i]];
      }
      assert text == msg.data;
      res := SendMessageToQueue(KMessage(msg.lMsgType, text + trailing), accepts);
    }

    /**
     `msgrcv` with type 0: the first message, written behind its type at the front of the buffer. The
     call blocks on an empty queue, unless it fails, which changes nothing.
     */
    method ReceiveMessageFromQueue(buffer: array<byte>, fails: bool) returns (res: int)
      requires Valid() && (fails || queue != []) && buffer.Length == READ_BUFFER
      modifies this, buffer
      ensures Valid() && res == if fails then -1 else 0
      ensures queue == if fails then old(queue) else old(queue)[1..]
      ensures buffer[..] == if fails then old(buffer[..])
                            else Copy(old(buffer[..]), ToLE(8, Type(old(queue)[0])) + old(queue)[0].mtext)
    {
      if fails {
        return -1;
      }
      var m := queue[0];
      queue := queue[1..];
      var bytes := ToLE(8, Type(m)) + m.mtext;
      CopyFits(buffer[..], bytes);
      hide Copy, ToLE;
      assert buffer[..0] == [] && buffer[..][|bytes|..] == buffer[|bytes|..] && [] + bytes == bytes;
      CopyBytes(buffer, 0, bytes);
      return 0;
    }

    static function Type(m: KMessage): (u: nat)
      ensures u < Pow256(8) && Signed(8, u) == m.mtype
    {
      Widths(); Unsigned(8, m.mtype)
    }

    /** A failed call leaves the queue as it is; an unrecognised message is lost. */
    method ReadFromQueue(fails: bool) returns (r: Option<(int64, seq<byte>)>)
      requires Valid() && (fails || queue != [])
      modifies this
      ensures Valid() && queue == if fails then old(queue) else old(queue)[1..]
      ensures r == if fails then None else Received(old(queue)[0])
    {
      var buffer := new byte[READ_BUFFER](_ => NUL);
      ghost var before := queue;
      var result := ReceiveMessageFromQueue(buffer, fails);
      if result != 0 {
        return None;
      }
      ghost var m := before[0];
      LittleEndianRoundTrip(8, Type(m));
      assert buffer[..8] == buffer[..][..8] == ToLE(8, Type(m));
      var liMsg := Signed(8, FromLE(buffer[..8]));
      assert forall i :: 0 <= i < READ_BUFFER - 8 ==> buffer[..][8 + i] == if i < |m.mtext| then m.mtext[i] else NUL;
      assert forall n :: 0 <= n <= READ_BUFFER - 8 ==> buffer[8..8 + n] == Pad(m.mtext, n);
      if liMsg == BOARD_LOT_IN {
        return Some((liMsg, buffer[8..346]));
      } else if liMsg == LOGIN_WITHOUT_OPEN_ORDR_DTLS {
        return Some((liMsg, buffer[8..308]));
      } else if liMsg == SIGN_OFF_REQUEST_IN {
        return Some((liMsg, buffer[8..70]));
      }
      return None;
    }

    /** `statOk` is whether the queue's status could be read. */
    method FnCanWriteToQueue(statOk: bool) returns (res: int)
      ensures res == if statOk && |queue| < 10 then 0 else -1
    {
      if !statOk {
        return -1;
      }
      if |queue| < QUEUE_LIMIT {
        return 0;
      }
      return -1;
    }

    /**
     Empties the queue. Interruptions are retried, and a signal handler can end the loop after any
     call. The flush succeeds exactly when no call ends it before one finds the queue empty and every
     message fits its buffer; a failed flush has only removed messages from the front.
     */
    method FlushMessageQueue(attempts: seq<(Attempt, bool)>) returns (res: int)
      modifies this
      ensures res == 0 || res == -1
      ensures res == 0 ==> queue == []
      ensures |queue| <= |old(queue)| && queue == old(queue)[|old(queue)| - |queue|..]
      ensures res == 0 <==> && (forall k :: 0 <= k < |attempts| ==> !EndsFlush(attempts, k, |old(queue)|))
                            && forall i :: 0 <= i < |old(queue)| ==> |old(queue)[i].mtext| <= 3072
    {
      ghost var n := |queue|;
      var i := 0;
      var exitFlag := false;
      while !exitFlag
        invariant |queue| <= n && queue == old(queue)[n - |queue|..]
        invariant forall m :: 0 <= m < n - |queue| ==> |old(queue)[m].mtext| <= FLUSH_BUFFER
        invariant 0 <= i <= |attempts| && Looks(attempts[..i]) <= n - |queue|
        invariant i < |attempts| ==> Looks(attempts[..i]) == n - |queue|
        invariant !exitFlag ==> forall k :: 0 <= k < i ==> attempts[k].0 != Broken && !attempts[k].1
        invariant exitFlag ==> 0 < i && EndsFlush(attempts, i - 1, n)
        decreases !exitFlag, |queue| + |attempts| - i
      {
        var (attempt, signal) := if i == |attempts| then (Ready, false) else attempts[i];
        if attempt == Broken {
          assert EndsFlush(attempts, i, n);
          return -1;
        }
        if attempt == Ready {
          if queue == [] {
            NoneEndsLater(attempts, i, n);
            return 0;
          }
          if |queue[0].mtext| > FLUSH_BUFFER {
            return -1;
          }
          queue := queue[1..];
        }
        exitFlag := signal;
        if i < |attempts| {
          LooksStep(attempts, i);
          i := i + 1;
        }
      }
      return -1;
    }
  }
}
