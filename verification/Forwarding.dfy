/**
 Producers, the bounded queue, the sender and the socket as one system of interleaved steps.
 A step that is not possible in a state leaves it unchanged, so every sequence of events is a run.
 */
module Forwarding {
  import opened Wrappers
  import opened Bytes
  import opened MessageQueue

  // ---- one message onto the socket ----

  /** A write puts `n` more bytes on the wire and succeeds, or fails for now or for good. */
  datatype WriteOutcome = Wrote(n: nat) | Temporary(n: nat) | Fatal(n: nat)

  datatype Status = Done | Aborted | Stalled

  /**
   Bytes that went out, bytes of the message never sent, how many bytes went out once too often,
   and the outcomes left for later writes.
   */
  datatype Transmission = Transmission(
    wire: seq<byte>, unsent: seq<byte>, excess: nat, status: Status, left: seq<WriteOutcome>)

  function Taken(n: nat, data: seq<byte>): (k: nat)
    ensures k <= |data|
  {
    if n < |data| then n else |data|
  }

  /** Writing `data`: after a temporary error the writer starts again from where it had counted. */
  function Transmit(data: seq<byte>, script: seq<WriteOutcome>): (t: Transmission)
    ensures t.status == Done ==> t.unsent == []
    ensures t.status == Stalled ==> t.unsent != []
    ensures |t.left| <= |script|
    decreases script
  {
    if data == [] then Transmission([], [], 0, Done, script)
    else if script == [] then Transmission([], data, 0, Stalled, [])
    else
      var k := Taken(script[0].n, data);
      match script[0]
      case Wrote(_) =>
        if k == 0 then Transmission([], data, 0, Aborted, script[1..])
        else
          var t := Transmit(data[k..], script[1..]);
          t.(wire := data[..k] + t.wire)
      case Temporary(_) =>
        var t := Transmit(data, script[1..]);
        t.(wire := data[..k] + t.wire, excess := k + t.excess)
      case Fatal(_) => Transmission(data[..k], data[k..], 0, Aborted, script[1..])
  }

  /** The outcome ends the writing of `data`. */
  predicate Ends(data: seq<byte>, o: WriteOutcome) {
    o.Fatal? || (o.Wrote? && Taken(o.n, data) == 0)
  }

  /** What is still to be written after the outcome. */
  function Remaining(data: seq<byte>, o: WriteOutcome): seq<byte> {
    if o.Temporary? then data else data[Taken(o.n, data)..]
  }

  lemma TransmitStops(data: seq<byte>, script: seq<WriteOutcome>)
    ensures data == [] ==> Transmit(data, script) == Transmission([], [], 0, Done, script)
    ensures data != [] && script == [] ==> Transmit(data, script) == Transmission([], data, 0, Stalled, [])
  {
  }

  lemma TransmitStep(data: seq<byte>, o: WriteOutcome, rest: seq<WriteOutcome>)
    requires data != []
    ensures var t, next, k := Transmit(data, [o] + rest), Transmit(Remaining(data, o), rest), Taken(o.n, data);
            if Ends(data, o) then t == Transmission(data[..k], data[k..], 0, Aborted, rest)
            else t == next.(wire := data[..k] + next.wire, excess := (if o.Temporary? then k else 0) + next.excess)
  {
    assert ([o] + rest)[1..] == rest;
  }

  /** The bytes that the successful ones among these outcomes put on the wire, if there are as many. */
  function Written(tried: seq<WriteOutcome>): nat {
    if tried == [] then 0 else (if tried[0].Wrote? then tried[0].n else 0) + Written(tried[1..])
  }

  /** A message of `len` bytes has neither been written nor given up after these outcomes. */
  predicate StillWriting(len: nat, tried: seq<WriteOutcome>) {
    Written(tried) < len && forall i :: 0 <= i < |tried| ==> !tried[i].Fatal? && tried[i] != Wrote(0)
  }

  /** Some temporary error puts bytes on the wire while a message of `len` bytes is being written. */
  ghost predicate Resends(len: nat, script: seq<WriteOutcome>) {
    exists i :: 0 <= i < |script| && script[i].Temporary? && script[i].n > 0 && StillWriting(len, script[..i])
  }

  lemma StillWritingFirst(len: nat, tried: seq<WriteOutcome>)
    requires tried != []
    ensures StillWriting(len, tried)
       <==> !tried[0].Fatal? && tried[0] != Wrote(0) && Written([tried[0]]) < len
            && StillWriting(len - Written([tried[0]]), tried[1..])
  {
    hide Written;
    assert Written(tried) == Written([tried[0]]) + Written(tried[1..]) by {
      WrittenFirst(tried);
    }
    if StillWriting(len, tried) {
      assert forall i :: 0 <= i < |tried[1..]| ==> tried[1..][i] == tried[i + 1];
    }
    assert forall i :: 0 < i < |tried| ==> tried[i] == tried[1..][i - 1];
  }

  lemma WrittenFirst(tried: seq<WriteOutcome>)
    requires tried != []
    ensures Written(tried) == Written([tried[0]]) + Written(tried[1..])
  {
    assert [tried[0]][1..] == [];
  }

  lemma ResendsFirst(len: nat, script: seq<WriteOutcome>)
    requires script != []
    ensures Resends(len, script)
       <==> if script[0].Temporary? && script[0].n > 0 then len > 0
            else !script[0].Fatal? && script[0] != Wrote(0) && Written([script[0]]) < len
                 && Resends(len - Written([script[0]]), script[1..])
  {
    var first, rest := script[0], script[1..];
    hide StillWriting, Written;
    assert StillWriting(len, []) <==> len > 0 by {
      NothingTried(len);
    }
    forall i | 0 < i < |script|
      ensures StillWriting(len, script[..i])
         <==> !first.Fatal? && first != Wrote(0) && Written([first]) < len
              && StillWriting(len - Written([first]), rest[..i - 1])
    {
      StillWritingFirst(len, script[..i]);
      assert script[..i][1..] == rest[..i - 1];
    }
    assert script[..0] == [];
    forall i | 0 <= i < |rest|
      ensures rest[i] == script[i + 1] && rest[..i] == rest[..i + 1 - 1]
    {
    }
    if k :| 0 <= k < |script| && script[k].Temporary? && script[k].n > 0 && StillWriting(len, script[..k]) {
      assert k > 0 ==> rest[k - 1] == script[k];
    }
  }

  lemma NothingTried(len: nat)
    ensures StillWriting(len, []) <==> len > 0
  {
  }

  lemma {:induction false} TransmitTotals(data: seq<byte>, script: seq<WriteOutcome>)
    ensures var t := Transmit(data, script);
            |t.wire| + |t.unsent| == |data| + t.excess && (t.wire + t.unsent == data <==> t.excess == 0)
    decreases script
  {
    var t := Transmit(data, script);
    if data != [] && script != [] {
      var k := Taken(script[0].n, data);
      match script[0]
      case Wrote(_) =>
        if k > 0 {
          TransmitTotals(data[k..], script[1..]);
          var u := Transmit(data[k..], script[1..]);
          assert t.wire + t.unsent == data[..k] + (u.wire + u.unsent);
          assert (data[..k] + (u.wire + u.unsent))[k..] == u.wire + u.unsent;
        }
      case Temporary(_) =>
        TransmitTotals(data, script[1..]);
        var u := Transmit(data, script[1..]);
        if k == 0 {
          assert data[..k] + u.wire == u.wire;
        }
      case Fatal(_) =>
    }
  }

  lemma {:induction false} TransmitRepeats(data: seq<byte>, script: seq<WriteOutcome>)
    ensures Transmit(data, script).excess == 0 <==> !Resends(|data|, script)
    decreases script
  {
    hide Resends, Written, StillWriting;
    if data == [] || script == [] {
      NothingToSend(|data|, script);
    } else {
      ResendsFirst(|data|, script);
      FirstWritten(script[0]);
      var k := Taken(script[0].n, data);
      match script[0]
      case Wrote(_) =>
        TransmitRepeats(data[k..], script[1..]);
        NothingToSend(0, script[1..]);
      case Temporary(_) => TransmitRepeats(data, script[1..]);
      case Fatal(_) =>
    }
  }

  /**
   The message arrives unchanged, followed by what was not sent, exactly when no temporary error
   puts bytes on the wire before it is through.
   */
  lemma {:induction false} TransmitAccounts(data: seq<byte>, script: seq<WriteOutcome>)
    ensures var t := Transmit(data, script);
            && |t.wire| + |t.unsent| == |data| + t.excess
            && (t.wire + t.unsent == data <==> !Resends(|data|, script))
  {
    hide Transmit, Resends;
    TransmitTotals(data, script);
    TransmitRepeats(data, script);
  }

  lemma FirstWritten(o: WriteOutcome)
    ensures Written([o]) == if o.Wrote? then o.n else 0
  {
  }

  lemma NothingToSend(len: nat, script: seq<WriteOutcome>)
    requires len == 0 || script == []
    ensures !Resends(len, script)
  {
  }

  /** A first attempt that fails after one byte makes the receiver see that byte twice. */
  lemma ByteSentTwice(x: byte, y: byte)
    ensures Transmit([x, y], [Temporary(1), Wrote(2)]) == Transmission([x, x, y], [], 1, Done, [])
  {
    var rest := [Temporary(1), Wrote(2)][1..];
    assert rest == [Wrote(2)] && rest[1..] == [];
    assert [x, y][..1] == [x] && [x, y][..2] == [x, y] && [x, y][2..] == [];
    assert Transmit([x, y], rest).wire == [x, y] + [];
  }

  datatype WriteError = NoError | TemporaryError | PermanentError

  class TcpConn {
    var wire: seq<byte>
    var script: seq<WriteOutcome>

    constructor (script: seq<WriteOutcome>)
      ensures wire == [] && this.script == script
    {
      wire, this.script := [], script;
    }

    method Write(data: seq<byte>) returns (written: nat, err: WriteError)
      modifies this
      ensures old(script) == [] ==> wire == old(wire) && script == [] && written == 0 && err == PermanentError
      ensures old(script) != [] ==>
                && script == old(script)[1..]
                && written == Taken(old(script)[0].n, data)
                && wire == old(wire) + data[..written]
                && err == match old(script)[0]
                          case Wrote(_) => NoError
                          case Temporary(_) => TemporaryError
                          case Fatal(_) => PermanentError
    {
      if script == [] {
        return 0, PermanentError;
      }
      written := Taken(script[0].n, data);
      err := match script[0]
             case Wrote(_) => NoError
             case Temporary(_) => TemporaryError
             case Fatal(_) => PermanentError;
      wire := wire + data[..written];
      script := script[1..];
    }
  }

  method FnWriten(conn: TcpConn, msg: seq<byte>, msgSize: nat) returns (ok: bool)
    modifies conn
    ensures var t := Transmit(msg[..Taken(msgSize, msg)], old(conn.script));
            ok == (t.status == Done) && conn.wire == old(conn.wire) + t.wire && conn.script == t.left
  {
    var data := msg;
    if |data| > msgSize {
      data := data[..msgSize];
    }
    assert data == msg[..Taken(msgSize, msg)];
    ghost var all, start, gone := Transmit(data, conn.script), conn.wire, [];
    var totalWritten := 0;
    while totalWritten < |data|
      invariant totalWritten <= |data|
      invariant var t := Transmit(data[totalWritten..], conn.script); t.status == all.status && t.left == all.left
      invariant all.wire == gone + Transmit(data[totalWritten..], conn.script).wire
      invariant conn.wire == start + gone
      decreases |data| - totalWritten, |conn.script|
    {
      ghost var tail, script := data[totalWritten..], conn.script;
      var written, err := conn.Write(data[totalWritten..]);
      Advance(start, gone, tail[..written], Transmit(tail[written..], conn.script).wire);
      Advance(start, gone, tail[..written], Transmit(tail, conn.script).wire);
      gone := gone + tail[..written];
      if err == TemporaryError {
        continue;
      }
      if err == PermanentError {
        return false;
      }
      if written == 0 {
        return false;
      }
      assert data[totalWritten + written..] == tail[written..];
      totalWritten := totalWritten + written;
    }
    return true;
  }

  lemma Advance(start: seq<byte>, gone: seq<byte>, now: seq<byte>, later: seq<byte>)
    ensures start + gone + now == start + (gone + now)
    ensures gone + (now + later) == (gone + now) + later
    ensures now == [] ==> gone + now == gone
  {
  }

  // ---- the whole system ----

  /**
   `pending[p]` is whether producer `p` has passed the capacity gate and not yet written. `hand`
   is the part of the current message that the sender still has to write; `enqueued` holds the
   messages found at the start and every one accepted since, `excess` counts the bytes sent once too often.
   */
  datatype State = State(
    pending: seq<bool>, queue: seq<KMessage>, hand: seq<byte>, running: bool, wire: seq<byte>,
    enqueued: seq<KMessage>, excess: nat)

  datatype Event =
    | Gate(p: nat, statOk: bool)
    | Put(p: nat, m: KMessage, accepts: bool)
    | GiveUp(p: nat)
    | Take
    | Socket(outcome: WriteOutcome)

  /** The start of a process: the kernel queue outlives processes and may still hold messages `q`. */
  function Opened(producers: nat, q: seq<KMessage>): (s: State)
    ensures |s.pending| == producers && s.queue == q
  {
    State(seq(producers, _ => false), q, [], true, [], q, 0)
  }

  function Fresh(producers: nat): (s: State)
    ensures |s.pending| == producers && s.queue == []
  {
    Opened(producers, [])
  }

  /** The bytes the sender puts on the wire for a message: only order messages are forwarded. */
  function Payload(m: KMessage): seq<byte> {
    match Received(m)
    case Some((t, data)) => if t == BOARD_LOT_IN then data else []
    case None => []
  }

  /** Only an order message is forwarded: its first 338 bytes, filled up with NULs. */
  lemma PayloadOfMessage(m: KMessage)
    ensures m.mtype != 2000 ==> Payload(m) == []
    ensures m.mtype == 2000 ==> |Payload(m)| == 338
    ensures m.mtype == 2000 ==> forall i :: 0 <= i < 338 ==> Payload(m)[i] == if i < |m.mtext| then m.mtext[i] else 0
  {
  }

  function Step(s: State, e: Event): State {
    match e
    case Gate(p, statOk) =>
      if p < |s.pending| && !s.pending[p] && statOk && |s.queue| < QUEUE_LIMIT then s.(pending := s.pending[p := true])
      else s
    case Put(p, m, accepts) =>
      if !(p < |s.pending| && s.pending[p]) then s
      else if accepts && m.mtype >= 1 then
        s.(pending := s.pending[p := false], queue := s.queue + [m], enqueued := s.enqueued + [m])
      else s.(pending := s.pending[p := false])
    case GiveUp(p) =>
      if p < |s.pending| && s.pending[p] then s.(pending := s.pending[p := false]) else s
    case Take =>
      if s.running && s.hand == [] && s.queue != [] then s.(queue := s.queue[1..], hand := Payload(s.queue[0])) else s
    case Socket(outcome) =>
      if !(s.running && s.hand != []) then s
      else
        var k := Taken(outcome.n, s.hand);
        var sent := s.(wire := s.wire + s.hand[..k]);
        match outcome
        case Wrote(_) => if k == 0 then s.(running := false) else sent.(hand := s.hand[k..])
        case Temporary(_) => sent.(excess := s.excess + k)
        case Fatal(_) => sent.(hand := s.hand[k..], running := false)
  }

  function Exec(s: State, es: seq<Event>): State {
    if es == [] then s else Step(Exec(s, es[..|es| - 1]), es[|es| - 1])
  }

  // ---- capacity ----

  function Count(flags: seq<bool>): (n: nat)
    ensures n <= |flags|
  {
    if flags == [] then 0 else (if flags[0] then 1 else 0) + Count(flags[1..])
  }

  lemma {:induction false} CountUpdate(flags: seq<bool>, p: nat, b: bool)
    requires p < |flags|
    ensures Count(flags[p := b]) == Count(flags) - (if flags[p] then 1 else 0) + (if b then 1 else 0)
  {
    if p == 0 {
      assert flags[p := b][1..] == flags[1..];
    } else {
      CountUpdate(flags[1..], p - 1, b);
      assert flags[p := b][1..] == flags[1..][p - 1 := b];
    }
  }

  function Max(a: nat, b: nat): nat {
    if a < b then b else a
  }

  /**
   Under every interleaving, queued messages and writers past the gate never exceed 9 plus the
   producers, or what the queue held at the start if that was more.
   */
  lemma {:induction false} QueueBound(producers: nat, q: seq<KMessage>, es: seq<Event>)
    ensures var s := Exec(Opened(producers, q), es);
            && |s.pending| == producers
            && |s.queue| + Count(s.pending) <= Max(|q|, 9 + producers)
  {
    if es == [] {
      NonePending(producers);
    } else {
      QueueBound(producers, q, es[..|es| - 1]);
      var s, e := Exec(Opened(producers, q), es[..|es| - 1]), es[|es| - 1];
      if (e.Gate? || e.Put? || e.GiveUp?) && e.p < |s.pending| {
        CountUpdate(s.pending, e.p, true);
        CountUpdate(s.pending, e.p, false);
      }
    }
  }

  lemma {:induction false} NonePending(n: nat)
    ensures Count(seq(n, _ => false)) == 0
  {
    if n > 0 {
      NonePending(n - 1);
      assert seq(n, _ => false)[1..] == seq(n - 1, _ => false);
    }
  }

  // The bound is attained: nine messages one after the other, then every producer past the gate before any writes.

  const SAMPLE := KMessage(BOARD_LOT_IN, [])

  function Fill(n: nat): seq<Event> {
    if n == 0 then [] else Fill(n - 1) + [Gate(0, true), Put(0, SAMPLE, true)]
  }

  function GateAll(n: nat): seq<Event> {
    if n == 0 then [] else GateAll(n - 1) + [Gate(n - 1, true)]
  }

  function PutAll(n: nat): seq<Event> {
    if n == 0 then [] else PutAll(n - 1) + [Put(n - 1, SAMPLE, true)]
  }

  lemma {:induction false} ExecAppend(s: State, es: seq<Event>, fs: seq<Event>)
    ensures Exec(s, es + fs) == Exec(Exec(s, es), fs)
  {
    if fs == [] {
      assert es + fs == es;
    } else {
      ExecAppend(s, es, fs[..|fs| - 1]);
      assert (es + fs)[..|es + fs| - 1] == es + fs[..|fs| - 1];
    }
  }

  lemma ExecTwo(s: State, es: seq<Event>, e: Event, f: Event)
    ensures Exec(s, es + [e, f]) == Step(Step(Exec(s, es), e), f)
  {
    ExecAppend(s, es, [e, f]);
    assert [e, f][..1] == [e] && [e][..0] == [];
    assert Exec(Exec(s, es), [e]) == Step(Exec(Exec(s, es), []), e);
  }

  lemma {:induction false} FillReaches(producers: nat, n: nat)
    requires producers > 0 && n <= QUEUE_LIMIT - 1
    ensures var s := Exec(Fresh(producers), Fill(n));
            s.pending == Fresh(producers).pending && |s.queue| == n
  {
    if n > 0 {
      FillReaches(producers, n - 1);
      ExecTwo(Fresh(producers), Fill(n - 1), Gate(0, true), Put(0, SAMPLE, true));
      var p := Fresh(producers).pending;
      assert p[0 := true][0 := false] == p;
    }
  }

  lemma GateOne(s: State, p: nat)
    requires |s.queue| < QUEUE_LIMIT && p < |s.pending| && !s.pending[p]
    ensures Step(s, Gate(p, true)) == s.(pending := s.pending[p := true])
  {
  }

  lemma {:induction false} GateAllReaches(s: State, n: nat)
    requires |s.queue| < QUEUE_LIMIT && n <= |s.pending| && forall p :: 0 <= p < |s.pending| ==> !s.pending[p]
    ensures Exec(s, GateAll(n)) == s.(pending := seq(|s.pending|, p => p < n))
  {
    hide Step;
    var sets := seq(|s.pending|, p => p < n);
    if n == 0 {
      assert sets == s.pending;
    } else {
      GateAllReaches(s, n - 1);
      assert GateAll(n)[..|GateAll(n)| - 1] == GateAll(n - 1);
      var before := seq(|s.pending|, p => p < n - 1);
      GateOne(s.(pending := before), n - 1);
      assert before[n - 1 := true] == sets;
    }
  }

  lemma {:induction false} PutAllReaches(s: State, n: nat)
    requires n <= |s.pending| && forall p :: 0 <= p < n ==> s.pending[p]
    ensures var t := Exec(s, PutAll(n));
            |t.pending| == |s.pending| && t.pending[n..] == s.pending[n..] && |t.queue| == |s.queue| + n
  {
    if n > 0 {
      PutAllReaches(s, n - 1);
      assert PutAll(n)[..|PutAll(n)| - 1] == PutAll(n - 1);
      var t := Exec(s, PutAll(n - 1));
      assert t.pending[n - 1] == t.pending[n - 1..][0] == s.pending[n - 1..][0];
      assert t.pending[n - 1 := false][n..] == t.pending[n - 1..][1..];
      assert s.pending[n..] == s.pending[n - 1..][1..];
    }
  }

  /** Checking and writing are separate steps, so the queue can really hold 9 plus the number of producers. */
  lemma QueueBoundIsTight(producers: nat)
    requires producers > 0
    ensures |Exec(Fresh(producers), Fill(QUEUE_LIMIT - 1) + GateAll(producers) + PutAll(producers)).queue|
         == 9 + producers
  {
    var fill, gates := Fill(QUEUE_LIMIT - 1), GateAll(producers);
    FillReaches(producers, QUEUE_LIMIT - 1);
    ExecAppend(Fresh(producers), fill, gates);
    GateAllReaches(Exec(Fresh(producers), fill), producers);
    ExecAppend(Fresh(producers), fill + gates, PutAll(producers));
    PutAllReaches(Exec(Fresh(producers), fill + gates), producers);
  }

  // ---- conservation ----

  function Payloads(ms: seq<KMessage>): seq<byte> {
    if ms == [] then [] else Payload(ms[0]) + Payloads(ms[1..])
  }

  lemma {:induction false} PayloadsAppend(ms: seq<KMessage>, m: KMessage)
    ensures Payloads(ms + [m]) == Payloads(ms) + Payload(m)
  {
    if ms == [] {
      assert ms + [m] == [m];
      assert Payloads([m]) == Payload(m) + Payloads([m][1..]);
    } else {
      PayloadsAppend(ms[1..], m);
      assert (ms + [m])[1..] == ms[1..] + [m] && (ms + [m])[0] == ms[0];
      hide Payload;
      var first, rest, last := Payload(ms[0]), Payloads(ms[1..]), Payload(m);
      assert Payloads(ms + [m]) == first + Payloads(ms[1..] + [m]) && Payloads(ms) == first + rest;
      hide Payloads;
      assert first + (rest + last) == first + rest + last;
    }
  }

  lemma Regrouped<T>(a: seq<T>, b: seq<T>, c: seq<T>)
    ensures a + (b + c) == (a + b) + c
  {
  }

  lemma {:induction false} PayloadsOfBoth(ms: seq<KMessage>, ns: seq<KMessage>)
    ensures Payloads(ms + ns) == Payloads(ms) + Payloads(ns)
  {
    if ns == [] {
      assert ms + ns == ms;
    } else {
      hide Payloads, Payload;
      var before, last := ns[..|ns| - 1], ns[|ns| - 1];
      assert ns == before + [last];
      Regrouped(ms, before, [last]);
      PayloadsOfBoth(ms, before);
      PayloadsAppend(ms + before, last);
      PayloadsAppend(before, last);
      Regrouped(Payloads(ms), Payloads(before), Payload(last));
    }
  }

  /** Everything that was accepted, as it should arrive: on the wire, in hand, then still queued. */
  function Delivered(s: State): seq<byte> {
    s.wire + s.hand + Payloads(s.queue)
  }

  ghost predicate Accounted(s: State) {
    && |Delivered(s)| == |Payloads(s.enqueued)| + s.excess
    && (s.excess == 0 ==> Delivered(s) == Payloads(s.enqueued))
  }

  lemma SocketAccounts(s: State, o: WriteOutcome)
    requires Accounted(s)
    ensures Accounted(Step(s, Socket(o)))
  {
    hide Payloads;
    var k := Taken(o.n, s.hand);
    assert s.wire + s.hand[..k] + s.hand[k..] == s.wire + s.hand;
  }

  lemma PutAccounts(s: State, p: nat, m: KMessage, accepts: bool)
    requires Accounted(s)
    ensures Accounted(Step(s, Put(p, m, accepts)))
  {
    PayloadsAppend(s.queue, m);
    PayloadsAppend(s.enqueued, m);
    hide Payloads, Payload;
    assert s.wire + s.hand + (Payloads(s.queue) + Payload(m)) == Delivered(s) + Payload(m);
  }

  lemma TakeAccounts(s: State)
    requires Accounted(s)
    ensures Accounted(Step(s, Take))
  {
    hide Payload;
    if s.queue != [] {
      var m, rest := Payload(s.queue[0]), Payloads(s.queue[1..]);
      assert Payloads(s.queue) == m + rest;
      hide Payloads;
      TakenInHand(s.wire, m, rest);
    }
  }

  lemma TakenInHand(wire: seq<byte>, m: seq<byte>, rest: seq<byte>)
    ensures wire + [] + (m + rest) == wire + m + rest
  {
  }

  lemma {:induction false} AlwaysAccounted(producers: nat, q: seq<KMessage>, es: seq<Event>)
    ensures Accounted(Exec(Opened(producers, q), es))
  {
    hide Accounted;
    if es == [] {
      StartAccounted(producers, q);
    } else {
      AlwaysAccounted(producers, q, es[..|es| - 1]);
      var s := Exec(Opened(producers, q), es[..|es| - 1]);
      match es[|es| - 1] {
        case Gate(p, statOk) => SamePlaces(s, Step(s, Gate(p, statOk)));
        case GiveUp(p) => SamePlaces(s, Step(s, GiveUp(p)));
        case Put(p, m, accepts) => PutAccounts(s, p, m, accepts);
        case Take => TakeAccounts(s);
        case Socket(o) => SocketAccounts(s, o);
      }
    }
  }

  lemma StartAccounted(producers: nat, q: seq<KMessage>)
    ensures Accounted(Opened(producers, q))
  {
  }

  lemma SamePlaces(s: State, t: State)
    requires Accounted(s) && t == s.(pending := t.pending)
    ensures Accounted(t)
  {
  }

  /** The step is a write that fails for now but puts bytes of the message in hand on the wire. */
  predicate ResendingStep(s: State, e: Event) {
    e.Socket? && e.outcome.Temporary? && e.outcome.n > 0 && s.running && s.hand != []
  }

  ghost predicate ResendsInRun(s: State, es: seq<Event>) {
    exists i :: 0 <= i < |es| && ResendingStep(Exec(s, es[..i]), es[i])
  }

  lemma ExcessStep(s: State, e: Event)
    ensures Step(s, e).excess >= s.excess
    ensures Step(s, e).excess == s.excess <==> !ResendingStep(s, e)
  {
  }

  lemma {:induction false} ExcessComesFromResending(s: State, es: seq<Event>)
    ensures Exec(s, es).excess >= s.excess
    ensures Exec(s, es).excess == s.excess <==> !ResendsInRun(s, es)
  {
    hide Step, ResendingStep;
    if es != [] {
      var before := es[..|es| - 1];
      ExcessComesFromResending(s, before);
      ExcessStep(Exec(s, before), es[|es| - 1]);
      forall i | 0 <= i < |before|
        ensures before[..i] == es[..i] && before[i] == es[i]
      {
      }
      hide Exec;
      if i :| 0 <= i < |es| && ResendingStep(Exec(s, es[..i]), es[i]) {
        assert i < |before| ==> ResendingStep(Exec(s, before[..i]), before[i]);
      }
      if i :| 0 <= i < |before| && ResendingStep(Exec(s, before[..i]), before[i]) {
        assert ResendingStep(Exec(s, es[..i]), es[i]);
      }
    }
  }

  /**
   In every reachable state the order payloads found or accepted so far are the bytes on the wire, the
   unsent rest of the message in hand and the payloads still queued, in this order, if and only if
   no write failed for now after putting bytes of a message on the wire. The wire is then a prefix
   of them, also after a fatal error.
   */
  lemma {:induction false} ByteConservation(producers: nat, q: seq<KMessage>, es: seq<Event>)
    ensures var s := Exec(Opened(producers, q), es);
            && (Delivered(s) == Payloads(s.enqueued) <==> !ResendsInRun(Opened(producers, q), es))
            && (!ResendsInRun(Opened(producers, q), es) ==> s.wire <= Payloads(s.enqueued))
            && |Delivered(s)| == |Payloads(s.enqueued)| + s.excess
  {
    AlwaysAccounted(producers, q, es);
    ExcessComesFromResending(Opened(producers, q), es);
    var s := Exec(Opened(producers, q), es);
    hide Exec, ResendsInRun, Payloads;
    assert Delivered(s)[..|s.wire|] == s.wire;
  }

  /** If no temporary error ever reports written bytes, nothing is lost, repeated or reordered. */
  lemma {:induction false} CleanErrorsConserve(producers: nat, q: seq<KMessage>, es: seq<Event>)
    requires forall i :: 0 <= i < |es| && es[i].Socket? && es[i].outcome.Temporary? ==> es[i].outcome.n == 0
    ensures var s := Exec(Opened(producers, q), es);
            Delivered(s) == Payloads(s.enqueued) && s.wire <= Payloads(s.enqueued)
  {
    ByteConservation(producers, q, es);
    hide Exec, Delivered, Payloads;
  }

  /** One such error is enough: the first byte of the only message is on the wire twice. */
  lemma {:induction false} MessageGarbled(m: KMessage)
    requires m.mtype == BOARD_LOT_IN
    ensures var s := Exec(Fresh(1), [Gate(0, true), Put(0, m, true), Take, Socket(Temporary(1)), Socket(Wrote(338))]);
            && s.enqueued == [m] && s.queue == [] && s.hand == [] && s.running
            && s.wire == Payload(m)[..1] + Payload(m) != Payload(m)
  {
    var s0, es := Fresh(1), [Gate(0, true), Put(0, m, true)];
    var s2 := State([false], [m], [], true, [], [m], 0);
    GatedAndWritten(m);
    ExecAppend(s0, es, [Take, Socket(Temporary(1)), Socket(Wrote(338))]);
    assert es + [Take, Socket(Temporary(1)), Socket(Wrote(338))]
        == [Gate(0, true), Put(0, m, true), Take, Socket(Temporary(1)), Socket(Wrote(338))];
    SentTwice(s2);
  }

  lemma {:induction false} GatedAndWritten(m: KMessage)
    requires m.mtype >= 1
    ensures Exec(Fresh(1), [Gate(0, true), Put(0, m, true)]) == State([false], [m], [], true, [], [m], 0)
  {
    var s0 := Fresh(1);
    ExecTwo(s0, [], Gate(0, true), Put(0, m, true));
    hide Payload;
    assert s0.pending == [false] && [] + [m] == [m];
    assert [] + [Gate(0, true), Put(0, m, true)] == [Gate(0, true), Put(0, m, true)];
  }

  lemma FailsAfterOne(s: State)
    requires s.running && s.hand != []
    ensures Step(s, Socket(Temporary(1))) == s.(wire := s.wire + s.hand[..1], excess := s.excess + 1)
  {
  }

  lemma WritesAll(s: State, n: nat)
    requires s.running && |s.hand| == n > 0
    ensures Step(s, Socket(Wrote(n))) == s.(wire := s.wire + s.hand, hand := [])
  {
    assert s.hand[..n] == s.hand && s.hand[n..] == [];
  }

  lemma {:induction false} SentTwice(s: State)
    requires s.running && s.hand == [] && s.wire == [] && |s.queue| == 1 && |Payload(s.queue[0])| == 338
    ensures var p := Payload(s.queue[0]);
            Exec(s, [Take, Socket(Temporary(1)), Socket(Wrote(338))])
            == s.(queue := [], wire := p[..1] + p, excess := s.excess + 1)
  {
    var p := Payload(s.queue[0]);
    hide Payload;
    var s1 := s.(queue := [], hand := p);
    assert Step(s, Take) == s1;
    hide Step, Exec;
    FailsAfterOne(s1);
    var s2 := s1.(wire := p[..1], excess := s.excess + 1);
    assert [] + p[..1] == p[..1];
    WritesAll(s2, 338);
    ExecTwo(s, [], Take, Socket(Temporary(1)));
    ExecNone(s);
    ExecAppend(s, [Take, Socket(Temporary(1))], [Socket(Wrote(338))]);
    assert [] + [Take, Socket(Temporary(1))] == [Take, Socket(Temporary(1))];
    assert [Take, Socket(Temporary(1))] + [Socket(Wrote(338))] == [Take, Socket(Temporary(1)), Socket(Wrote(338))];
    ExecFirst(s2, Socket(Wrote(338)), []);
    ExecNone(Step(s2, Socket(Wrote(338))));
  }

  // ---- the sender's loop inside the system ----

  function SocketEvents(script: seq<WriteOutcome>): seq<Event> {
    if script == [] then [] else [Socket(script[0])] + SocketEvents(script[1..])
  }

  lemma ExecFirst(s: State, e: Event, es: seq<Event>)
    ensures Exec(s, [e] + es) == Exec(Step(s, e), es)
  {
    ExecAppend(s, [e], es);
    assert Exec(s, [e]) == Step(Exec(s, [e][..0]), e);
  }

  lemma {:induction false} Stopped(s: State, script: seq<WriteOutcome>)
    requires !s.running || s.hand == []
    ensures Exec(s, SocketEvents(script)) == s
  {
    if script != [] {
      ExecFirst(s, Socket(script[0]), SocketEvents(script[1..]));
      Stopped(s, script[1..]);
    }
  }

  /** The writing loop is a run of socket steps: same bytes out, same rest in hand, same excess. */
  lemma {:induction false} TransmitIsARun(s: State, script: seq<WriteOutcome>)
    requires s.running
    ensures var t := Transmit(s.hand, script);
            Exec(s, SocketEvents(script))
            == s.(wire := s.wire + t.wire, hand := t.unsent, excess := s.excess + t.excess,
                  running := t.status != Aborted)
    decreases script
  {
    if s.hand == [] {
      Stopped(s, script);
      assert s.wire + [] == s.wire;
    } else if script == [] {
      assert s.wire + [] == s.wire;
    } else {
      ExecFirst(s, Socket(script[0]), SocketEvents(script[1..]));
      var next := Step(s, Socket(script[0]));
      if next.running {
        TransmitIsARun(next, script[1..]);
        hide Exec, SocketEvents;
        var k, u := Taken(script[0].n, s.hand), Transmit(next.hand, script[1..]);
        assert s.wire + s.hand[..k] + u.wire == s.wire + (s.hand[..k] + u.wire);
      } else {
        Stopped(next, script[1..]);
        hide Exec, SocketEvents;
        assert s.wire + [] == s.wire;
      }
    }
  }

  /** The part of the system that one sender sees. */
  ghost function SenderView(q: seq<KMessage>, wire: seq<byte>): State {
    State([], q, [], true, wire, [], 0)
  }

  lemma ForwardOne(s: State, script: seq<WriteOutcome>)
    requires s.running && s.hand == [] && s.queue != []
    ensures var t := Transmit(Payload(s.queue[0]), script);
            Exec(s, [Take] + SocketEvents(script[..|script| - |t.left|]))
            == s.(queue := s.queue[1..], wire := s.wire + t.wire, hand := t.unsent, excess := s.excess + t.excess,
                  running := t.status != Aborted)
            && |t.left| <= |script| && t.left == script[|script| - |t.left|..]
  {
    hide Payload, SocketEvents, Transmit, Exec;
    var next := Step(s, Take);
    var used := script[..|script| - |Transmit(next.hand, script).left|];
    TransmitUses(next.hand, script);
    ExecFirst(s, Take, SocketEvents(used));
    TransmitIsARun(next, used);
  }

  /** Outcomes that are left over play no part. */
  lemma {:induction false} TransmitUses(data: seq<byte>, script: seq<WriteOutcome>)
    ensures var t := Transmit(data, script);
            |t.left| <= |script| && t.left == script[|script| - |t.left|..]
            && Transmit(data, script[..|script| - |t.left|]) == t.(left := [])
    decreases script
  {
    hide Transmit;
    TransmitStops(data, script);
    if data != [] && script != [] {
      var first, rest := script[0], script[1..];
      assert script == [first] + rest;
      TransmitStep(data, first, rest);
      if !Ends(data, first) {
        TransmitUses(Remaining(data, first), rest);
        var t := Transmit(Remaining(data, first), rest);
        var used := rest[..|rest| - |t.left|];
        TransmitStep(data, first, used);
        assert script[..|script| - |t.left|] == [first] + used;
      } else {
        TransmitStep(data, first, []);
        assert script[..1] == [first] + [];
      }
    } else {
      TransmitStops(data, []);
      assert script[..0] == [];
    }
  }

  ghost predicate Sees(s: State, mqm: MessageQueueManager, conn: TcpConn)
    reads mqm, conn
  {
    s.queue == mqm.queue && s.wire == conn.wire
  }

  /** One turn of the sending loop; a failed read and an unrecognised message are skipped. */
  method SendOne(mqm: MessageQueueManager, conn: TcpConn, fails: bool, ghost s: State)
      returns (ok: bool, ghost steps: seq<Event>, ghost t: State)
    requires mqm.Valid() && (fails || mqm.queue != [])
    requires Sees(s, mqm, conn) && s.running && s.hand == []
    modifies mqm, conn
    ensures mqm.Valid() && mqm.queue == if fails then old(mqm.queue) else old(mqm.queue)[1..]
    ensures t == Exec(s, steps) && Sees(t, mqm, conn)
    ensures ok == t.running && (ok ==> t.hand == [])
  {
    hide Payload, Received, Transmit, Exec, SocketEvents;
    ghost var queue, script := mqm.queue, conn.script;
    var received := mqm.ReadFromQueue(fails);
    if fails {
      ExecNone(s);
      return true, [], s;
    }
    ghost var m := queue[0];
    ghost var sent := Transmit(Payload(m), script);
    steps := [Take] + SocketEvents(script[..|script| - |sent.left|]);
    t := Exec(s, steps);
    ForwardOne(s, script);
    PayloadOf(m, script);
    if received.None? || received.value.0 != BOARD_LOT_IN {
      return true, steps, t;
    }
    var data := received.value.1;
    assert data[..Taken(|data|, data)] == data;
    ok := FnWriten(conn, data, |data|);
    if sent.status == Stalled {
      ghost var give := [Socket(Fatal(0))];
      ExecAppend(s, steps, give);
      ExecFirst(t, give[0], []);
      ExecNone(Step(t, give[0]));
      steps, t := steps + give, Step(t, give[0]);
    }
  }

  lemma ExecNone(s: State)
    ensures Exec(s, []) == s && forall e: Event :: [e] + [] == [e]
  {
  }

  lemma PayloadOf(m: KMessage, script: seq<WriteOutcome>)
    ensures Received(m).None? || Received(m).value.0 != BOARD_LOT_IN ==>
              Transmit(Payload(m), script) == Transmission([], [], 0, Done, script)
    ensures Received(m).Some? && Received(m).value.0 == BOARD_LOT_IN ==> Payload(m) == Received(m).value.1
  {
  }

  /**
   The sending loop, up to where it would block on an empty queue or returns on a failed write, is
   a run of the system: `es` are its steps. `faults` says which of the reads fail; they are retried.
   */
  method SendThrd(mqm: MessageQueueManager, conn: TcpConn, faults: seq<bool>)
      returns (ok: bool, ghost es: seq<Event>, ghost end: State)
    requires mqm.Valid()
    modifies mqm, conn
    ensures mqm.Valid()
    ensures end == Exec(SenderView(old(mqm.queue), old(conn.wire)), es)
    ensures Sees(end, mqm, conn)
    ensures ok == end.running
    ensures ok ==> mqm.queue == [] && end.hand == []
  {
    ghost var start := SenderView(mqm.queue, conn.wire);
    var rest := faults;
    es, end, ok := [], start, true;
    while ok && (mqm.queue != [] || (rest != [] && rest[0]))
      invariant mqm.Valid() && end == Exec(start, es) && Sees(end, mqm, conn)
      invariant ok == end.running && (ok ==> end.hand == [])
      decreases |mqm.queue| + |rest|
    {
      var fails := rest != [] && rest[0];
      rest := if rest == [] then [] else rest[1..];
      ghost var steps, next;
      ok, steps, next := SendOne(mqm, conn, fails, end);
      ExecAppend(start, es, steps);
      es, end := es + steps, next;
    }
  }
}
