/**
 The packing client, the queue, the sending loop and the socket as one system. The client's turn is
 three steps (gate, record, write) with steps of the sender anywhere in between.
 */
module EndToEnd {
  import opened Wrappers
  import opened Bytes
  import opened OrderBooks
  import opened PackClient
  import opened Draining
  import opened Packets
  import opened Packing
  import opened Layout
  import opened Models
  import opened Codec
  import opened Wire
  import opened OrderMeaning
  import PackingHistory
  import MessageQueue
  import Forwarding

  datatype Phase = AtGate | Working | Writing(next: Service, e: Env)

  /** `turns` and `steps` record what the client and the queue side have done so far. */
  datatype System = System(
    service: Service, phase: Phase, net: Forwarding.State, turns: seq<(bool, Env)>, steps: seq<Forwarding.Event>)

  datatype Event = Gate(e: Env) | Record(e: Env) | Write | Sender(step: Forwarding.Event)

  type Found = seq<MessageQueue.KMessage>

  /** A start of both services on a queue that may still hold messages of an earlier one. */
  function Begin(c: Client, q: Found): System {
    System(Start(c), AtGate, Forwarding.Opened(1, q), [], [])
  }

  function Net(s: System, step: Forwarding.Event): System {
    s.(net := Forwarding.Step(s.net, step), steps := s.steps + [step])
  }

  function Finish(s: System, next: Service, open: bool, e: Env): System {
    s.(service := next, phase := AtGate, turns := s.turns + [(open, e)])
  }

  function Step(s: System, st: Setting, ev: Event): System {
    match ev
    case Gate(e) =>
      if s.phase != AtGate || !s.service.Runs() then s
      else
        var t := Net(s, Forwarding.Gate(0, e.statOk));
        if t.net.pending == [true] then t.(phase := Working) else Finish(t, s.service, false, e)
    case Record(e) =>
      if s.phase != Working then s
      else
        var next := Turn(s.service, st, true, e);
        if next.Runs() && next.log != [] then s.(phase := Writing(next, e))
        else Finish(Net(s, Forwarding.GiveUp(0)), next, true, e)
    case Write =>
      (match s.phase
       case Writing(next, e) =>
         if next.log == [] then s
         else
           var en := next.log[|next.log| - 1];
           Finish(Net(s, Forwarding.Put(0, MessageOf(en.packet, en.trailing), true)), next, true, e)
       case _ => s)
    case Sender(step) =>
      if step.Take? || step.Socket? then Net(s, step) else s
  }

  function Run(s: System, st: Setting, evs: seq<Event>): System {
    if evs == [] then s else Step(Run(s, st, evs[..|evs| - 1]), st, evs[|evs| - 1])
  }

  /**
   The client is at a turn of its own run, the queue side at a step of its, and what went into the
   queue is what was found there and then what the client wrote.
   */
  ghost predicate Joined(c0: Client, q: Found, st: Setting, s: System) {
    && s.service == Exec(Start(c0), st, s.turns)
    && s.net == Forwarding.Exec(Forwarding.Opened(1, q), s.steps)
    && s.net.enqueued == q + Messages(s.service.log)
    && s.net.pending == [s.phase != AtGate] && (s.phase != AtGate ==> s.service.Runs())
    && (s.phase.Writing? ==>
          && s.phase.next == Turn(s.service, st, true, s.phase.e) && s.phase.next.Runs() && s.phase.next.log != []
          && s.phase.next.log[..|s.phase.next.log| - 1] == s.service.log
          && s.phase.next.log[|s.phase.next.log| - 1].packet.lMsgType >= 1)
  }

  lemma NetJoins(q: Found, s: System, step: Forwarding.Event)
    requires s.net == Forwarding.Exec(Forwarding.Opened(1, q), s.steps)
    ensures Net(s, step).net == Forwarding.Exec(Forwarding.Opened(1, q), Net(s, step).steps)
  {
    hide Forwarding.Step;
    assert (s.steps + [step])[..|s.steps|] == s.steps;
  }

  lemma SenderJoins(c0: Client, q: Found, st: Setting, s: System, step: Forwarding.Event)
    requires Joined(c0, q, st, s) && (step.Take? || step.Socket?)
    ensures Joined(c0, q, st, Net(s, step))
  {
    NetJoins(q, s, step);
    hide Exec, Forwarding.Exec, Turn, Messages;
  }

  lemma GateJoins(c0: Client, q: Found, st: Setting, s: System, e: Env)
    requires Joined(c0, q, st, s)
    ensures Joined(c0, q, st, Step(s, st, Gate(e)))
  {
    NetJoins(q, s, Forwarding.Gate(0, e.statOk));
    ExecOne(Start(c0), st, s.turns, false, e);
    ClosedTurn(s.service, st, e);
    hide Exec, Forwarding.Exec, Turn, Messages;
  }

  lemma PlaceFreed(net: Forwarding.State, m: MessageQueue.KMessage)
    requires net.pending == [true]
    ensures Forwarding.Step(net, Forwarding.GiveUp(0)) == net.(pending := [false])
    ensures m.mtype >= 1 ==>
              Forwarding.Step(net, Forwarding.Put(0, m, true))
              == net.(pending := [false], queue := net.queue + [m], enqueued := net.enqueued + [m])
  {
  }

  lemma RecordJoins(c0: Client, q: Found, st: Setting, s: System, e: Env)
    requires Joined(c0, q, st, s)
    ensures Joined(c0, q, st, Step(s, st, Record(e)))
  {
    if s.phase == Working {
      NetJoins(q, s, Forwarding.GiveUp(0));
      ExecOne(Start(c0), st, s.turns, true, e);
      OpenTurn(s.service, st, e);
      PlaceFreed(s.net, Forwarding.SAMPLE);
      hide Exec, Forwarding.Exec, Forwarding.Step, Turn, Messages;
    }
  }

  /** An open turn stops the service or adds one entry that the queue can take. */
  lemma OpenTurn(s: Service, st: Setting, e: Env)
    requires s.Runs()
    ensures var t := Turn(s, st, true, e);
            if t.Runs() then t.log != [] && t.log[..|t.log| - 1] == s.log && t.log[|t.log| - 1].packet.lMsgType >= 1
            else t.log == s.log
  {
    hide NextRecord;
  }

  lemma MessagesLast(log: seq<Entry>)
    requires log != []
    ensures var last := log[|log| - 1];
            Messages(log) == Messages(log[..|log| - 1]) + [MessageOf(last.packet, last.trailing)]
  {
    hide MessageOf;
  }

  lemma WriteJoins(c0: Client, q: Found, st: Setting, s: System)
    requires Joined(c0, q, st, s)
    ensures Joined(c0, q, st, Step(s, st, Write))
  {
    if s.phase.Writing? {
      var next, e := s.phase.next, s.phase.e;
      var en := next.log[|next.log| - 1];
      NetJoins(q, s, Forwarding.Put(0, MessageOf(en.packet, en.trailing), true));
      ExecOne(Start(c0), st, s.turns, true, e);
      MessagesLast(next.log);
      PlaceFreed(s.net, MessageOf(en.packet, en.trailing));
      hide Exec, Forwarding.Exec, Forwarding.Step, Turn, Messages;
    }
  }

  lemma {:induction false} AlwaysJoined(c0: Client, q: Found, st: Setting, evs: seq<Event>)
    ensures Joined(c0, q, st, Run(Begin(c0, q), st, evs))
  {
    hide Step, Joined;
    if evs == [] {
      BeginJoined(c0, q, st);
    } else {
      AlwaysJoined(c0, q, st, evs[..|evs| - 1]);
      var s := Run(Begin(c0, q), st, evs[..|evs| - 1]);
      match evs[|evs| - 1] {
        case Gate(e) => GateJoins(c0, q, st, s, e);
        case Record(e) => RecordJoins(c0, q, st, s, e);
        case Write => WriteJoins(c0, q, st, s);
        case Sender(step) => SenderStep(c0, q, st, s, step);
      }
    }
  }

  lemma SenderStep(c0: Client, q: Found, st: Setting, s: System, step: Forwarding.Event)
    requires Joined(c0, q, st, s)
    ensures Joined(c0, q, st, Step(s, st, Sender(step)))
  {
    hide Joined;
    if step.Take? || step.Socket? {
      SenderJoins(c0, q, st, s, step);
    }
  }

  lemma BeginJoined(c0: Client, q: Found, st: Setting)
    ensures Joined(c0, q, st, Begin(c0, q))
  {
  }

  // ---- what reaches the exchange ----

  /** The packets of a log one after the other. */
  function Frames(log: seq<Entry>): seq<byte> {
    if log == [] then [] else Frames(log[..|log| - 1]) + log[|log| - 1].packet.stExchMsgData
  }

  /** All there is to send: the order payloads found in the queue, then the packets of the log. */
  function Sent(q: Found, log: seq<Entry>): seq<byte> {
    Forwarding.Payloads(q) + Frames(log)
  }

  /** Where the packet of entry `k` starts in what is sent. */
  function FrameStart(q: Found, k: nat): nat {
    |Forwarding.Payloads(q)| + 338 * k
  }

  ghost predicate OnlyOrders(log: seq<Entry>) {
    forall k :: 0 <= k < |log| ==> log[k].packet.lMsgType == BOARD_LOT_IN && |log[k].packet.stExchMsgData| == 338
  }

  lemma OrderPayload(p: QPacket, trailing: Tail)
    requires p.lMsgType == BOARD_LOT_IN && |p.stExchMsgData| == 338
    ensures Forwarding.Payload(MessageOf(p, trailing)) == p.stExchMsgData
  {
    MessageQueue.RoundTrip(MessageQueue.BoardLot(p.lMsgType, p.stExchMsgData), trailing);
    hide MessageQueue.Received;
  }

  lemma {:induction false} FramesArePayloads(log: seq<Entry>)
    requires OnlyOrders(log)
    ensures Forwarding.Payloads(Messages(log)) == Frames(log)
  {
    if log != [] {
      var before, last := log[..|log| - 1], log[|log| - 1];
      FramesArePayloads(before);
      OrderPayload(last.packet, last.trailing);
      MessagesLast(log);
      Forwarding.PayloadsAppend(Messages(before), MessageOf(last.packet, last.trailing));
    }
  }

  /** The k-th 338 bytes are the k-th packet. */
  lemma {:induction false} FrameAt(log: seq<Entry>, k: nat)
    requires OnlyOrders(log)
    ensures |Frames(log)| == 338 * |log|
    ensures k < |log| ==> Frames(log)[338 * k..338 * (k + 1)] == log[k].packet.stExchMsgData
  {
    if log != [] {
      var before := log[..|log| - 1];
      FrameAt(before, k);
      if k < |before| {
        assert Frames(log)[..338 * |before|] == Frames(before);
        assert Frames(log)[338 * k..338 * (k + 1)] == Frames(before)[338 * k..338 * (k + 1)];
      }
    }
  }

  lemma {:induction false} AllOrders(c0: Client, st: Setting, turns: seq<(bool, Env)>)
    requires c0.mem == FRESH
    ensures OnlyOrders(Exec(Start(c0), st, turns).log)
  {
    hide Exec;
    forall k | 0 <= k < |Exec(Start(c0), st, turns).log|
      ensures var p := Exec(Start(c0), st, turns).log[k].packet;
              p.lMsgType == BOARD_LOT_IN && |p.stExchMsgData| == 338
    {
      OnlyOrdersAreSent(c0, st, turns, k);
    }
  }

  /** One of the writes failed for now after putting bytes of the message in hand on the wire. */
  ghost predicate Resends(c0: Client, q: Found, st: Setting, evs: seq<Event>) {
    exists i :: 0 <= i < |evs| && evs[i].Sender?
                && Forwarding.ResendingStep(Run(Begin(c0, q), st, evs[..i]).net, evs[i].step)
  }

  lemma ExcessStep(s: System, st: Setting, ev: Event)
    ensures Step(s, st, ev).net.excess >= s.net.excess
    ensures Step(s, st, ev).net.excess == s.net.excess
       <==> !(ev.Sender? && Forwarding.ResendingStep(s.net, ev.step))
  {
    match ev
    case Gate(e) => Forwarding.ExcessStep(s.net, Forwarding.Gate(0, e.statOk));
    case Record(e) => Forwarding.ExcessStep(s.net, Forwarding.GiveUp(0));
    case Write =>
      if s.phase.Writing? && s.phase.next.log != [] {
        var en := s.phase.next.log[|s.phase.next.log| - 1];
        Forwarding.ExcessStep(s.net, Forwarding.Put(0, MessageOf(en.packet, en.trailing), true));
      }
    case Sender(step) => Forwarding.ExcessStep(s.net, step);
    hide Turn, Forwarding.Step;
  }

  lemma {:induction false} ExcessComesFromResending(c0: Client, q: Found, st: Setting, evs: seq<Event>)
    ensures Run(Begin(c0, q), st, evs).net.excess == 0 <==> !Resends(c0, q, st, evs)
  {
    hide Step, Forwarding.ResendingStep;
    if evs != [] {
      var before := evs[..|evs| - 1];
      ExcessComesFromResending(c0, q, st, before);
      ExcessStep(Run(Begin(c0, q), st, before), st, evs[|evs| - 1]);
      forall i | 0 <= i < |before|
        ensures before[..i] == evs[..i] && before[i] == evs[i]
      {
      }
      hide Run;
      if i :| 0 <= i < |evs| && evs[i].Sender?
              && Forwarding.ResendingStep(Run(Begin(c0, q), st, evs[..i]).net, evs[i].step) {
        assert i < |before| ==>
            before[i].Sender? && Forwarding.ResendingStep(Run(Begin(c0, q), st, before[..i]).net, before[i].step);
      }
      if i :| 0 <= i < |before| && before[i].Sender?
              && Forwarding.ResendingStep(Run(Begin(c0, q), st, before[..i]).net, before[i].step) {
        assert evs[i].Sender? && Forwarding.ResendingStep(Run(Begin(c0, q), st, evs[..i]).net, evs[i].step);
      }
    }
  }

  lemma {:induction false} Conserved(c0: Client, q: Found, st: Setting, evs: seq<Event>)
    requires c0.mem == FRESH
    ensures var s := Run(Begin(c0, q), st, evs);
            && (Forwarding.Delivered(s.net) == Sent(q, s.service.log) <==> s.net.excess == 0)
            && (s.net.excess == 0 ==> s.net.wire <= Sent(q, s.service.log))
            && OnlyOrders(s.service.log)
  {
    var s := Run(Begin(c0, q), st, evs);
    AlwaysJoined(c0, q, st, evs);
    AllOrders(c0, st, s.turns);
    FramesArePayloads(s.service.log);
    Forwarding.PayloadsOfBoth(q, Messages(s.service.log));
    Forwarding.ByteConservation(1, q, s.steps);
    Forwarding.ExcessComesFromResending(Forwarding.Opened(1, q), s.steps);
    hide Run, Exec, Forwarding.Exec, Forwarding.Payloads, Forwarding.Delivered, Forwarding.ResendsInRun;
    hide Frames, Messages;
  }

  /**
   Under every interleaving and from whatever is found in the queue: it holds at most ten messages,
   or as many as at the start. The payloads found and then the packets of the log are, in this
   order, the bytes on the wire, the rest in the sender's hand and the messages in the queue if and
   only if no write failed for now after putting bytes on the wire; each full frame on the wire is
   then the packet of its turn.
   */
  lemma {:induction false} WireCarriesTheLog(c0: Client, q: Found, st: Setting, evs: seq<Event>)
    requires c0.mem == FRESH
    ensures var s := Run(Begin(c0, q), st, evs);
            && s.service == Exec(Start(c0), st, s.turns)
            && |s.net.queue| <= Forwarding.Max(|q|, 10)
            && (Forwarding.Delivered(s.net) == Sent(q, s.service.log) <==> !Resends(c0, q, st, evs))
            && (!Resends(c0, q, st, evs) ==>
                  && s.net.wire <= Sent(q, s.service.log)
                  && forall k :: 0 <= k < |s.service.log| && FrameStart(q, k + 1) <= |s.net.wire| ==>
                       s.net.wire[FrameStart(q, k)..FrameStart(q, k + 1)] == s.service.log[k].packet.stExchMsgData)
  {
    var s := Run(Begin(c0, q), st, evs);
    Conserved(c0, q, st, evs);
    ExcessComesFromResending(c0, q, st, evs);
    AlwaysJoined(c0, q, st, evs);
    Forwarding.QueueBound(1, q, s.steps);
    hide Run, Exec, Forwarding.Exec, Forwarding.Delivered, Frames, Messages, Resends, Forwarding.Payloads;
    if s.net.excess == 0 {
      forall k | 0 <= k < |s.service.log| && FrameStart(q, k + 1) <= |s.net.wire|
        ensures s.net.wire[FrameStart(q, k)..FrameStart(q, k + 1)] == s.service.log[k].packet.stExchMsgData
      {
        SentFrameAt(q, s.service.log, k);
        SliceOfPrefix(s.net.wire, Sent(q, s.service.log), FrameStart(q, k), FrameStart(q, k + 1));
      }
    }
  }

  lemma SentFrameAt(q: Found, log: seq<Entry>, k: nat)
    requires OnlyOrders(log) && k < |log|
    ensures FrameStart(q, k + 1) <= |Sent(q, log)|
    ensures Sent(q, log)[FrameStart(q, k)..FrameStart(q, k + 1)] == log[k].packet.stExchMsgData
  {
    FrameAt(log, k);
    hide Frames, Forwarding.Payloads;
    Behind(Forwarding.Payloads(q), Frames(log), 338 * k, 338 * (k + 1));
  }

  lemma Behind(a: seq<byte>, b: seq<byte>, i: nat, j: nat)
    requires i <= j <= |b|
    ensures (a + b)[|a| + i..|a| + j] == b[i..j]
  {
  }

  lemma SliceOfPrefix(a: seq<byte>, b: seq<byte>, i: nat, j: nat)
    requires a <= b && i <= j <= |a|
    ensures a[i..j] == b[i..j]
  {
  }

  /** The body that entry `k` packs, given what the packer runs before it have left behind. */
  function BodyAt(log: seq<Entry>, k: nat): OrderBody
    requires k < |log| && Fresh(log[k])
  {
    var m := PackingHistory.Run(FRESH, Calls(log[..k]));
    BodyOf(log[k].moved.value.1, m.pan, m.date)
  }

  function FieldsAt(log: seq<Entry>, k: nat): (fs: seq<Field>)
    requires k < |log| && Fresh(log[k])
    ensures Codec.Valid(fs)
  {
    ResponseFields(NetHdrOf(log[k].moved.value.2), BodyAt(log, k))
  }

  /**
   From the books to the wire: without repeated bytes, the k-th full frame read little-endian gives
   every field of the order that was moved in the k-th turn, if that order packed; read big-endian,
   as the receive loop does, it gives each scalar byte-reversed. The order carries the columns that
   its row and the order of its row had at the start.
   */
  lemma {:induction false} ReceiverFindsTheOrder(c0: Client, q: Found, st: Setting, evs: seq<Event>, k: nat)
    requires c0.mem == FRESH && UniqueKeys(c0.xb) && !Resends(c0, q, st, evs)
    requires var s := Run(Begin(c0, q), st, evs);
             k < |s.service.log| && FrameStart(q, k + 1) <= |s.net.wire| && Fresh(s.service.log[k])
    ensures var s := Run(Begin(c0, q), st, evs);
            var frame := s.net.wire[FrameStart(q, k)..FrameStart(q, k + 1)];
            && Decode(Little, NET_HDR + OE_REQRESP, frame) == Some(FieldsAt(s.service.log, k))
            && Decode(Big, NET_HDR + OE_REQRESP, frame) == Some(Swap(FieldsAt(s.service.log, k)))
            && FromBooks(c0, s.service.log[k])
  {
    var s := Run(Begin(c0, q), st, evs);
    WireCarriesTheLog(c0, q, st, evs);
    FreshOrRepeated(c0, st, s.turns, k);
    EntriesComeFromBooks(c0, st, s.turns);
    FrameDecodes(s.service.log, k);
    hide Run, Exec, PackingHistory.Run, Frames, Calls, UniqueKeys, Decode, Swap, FieldsAt, BodyAt;
    hide FreshPacket, Forwarding.Delivered, Resends, FromBooks, Sent, FrameStart;
  }

  lemma FrameDecodes(log: seq<Entry>, k: nat)
    requires k < |log| && Fresh(log[k])
    ensures var packet := FreshPacket(PackingHistory.Run(FRESH, Calls(log[..k])), log[k]).stExchMsgData;
            && Decode(Little, NET_HDR + OE_REQRESP, packet) == Some(FieldsAt(log, k))
            && Decode(Big, NET_HDR + OE_REQRESP, packet) == Some(Swap(FieldsAt(log, k)))
  {
    hide Decode, Swap, BodyOf, StagedPacket, ResponseFields, Sized, PackingHistory.Run, Calls;
    var (_, order, issue) := log[k].moved.value;
    var m := PackingHistory.Run(FRESH, Calls(log[..k]));
    PackingHistory.PanKeepsItsLength(FRESH, Calls(log[..k]));
    BodyOfSized(order, m.pan, m.date);
    ReceiverView(NetHdrOf(issue), BodyOf(order, m.pan, m.date));
  }

  lemma FreshSays(log: seq<Entry>, k: nat) returns (n: NetHdr, b: OrderBody)
    requires k < |log| && Fresh(log[k])
    ensures var (_, order, issue) := log[k].moved.value;
            var before := PackingHistory.Run(FRESH, Calls(log[..k]));
            && OnWire(FreshPacket(before, log[k]).stExchMsgData, n, b)
            && NetMeans(n, issue) && BodyMeans(b, order, before.pan, before.date)
  {
    hide BodyMeans, NetMeans, OnWire, Packable, PackingHistory.Run, Calls, BodyOf, StagedPacket;
    var before := PackingHistory.Run(FRESH, Calls(log[..k]));
    PackingHistory.PanKeepsItsLength(FRESH, Calls(log[..k]));
    var (_, order, issue) := log[k].moved.value;
    n, b := PacketSays(before, order, issue);
  }

  /**
   From the books to the bytes: without repeated bytes, the k-th full frame on the wire has at each
   documented byte what the order moved in the k-th open turn says, if that order packed; and that
   order is made of the columns of its row, of the order of its row and of the answers of its turn.
   */
  lemma {:induction false} FrameSpellsTheOrder(c0: Client, q: Found, st: Setting, evs: seq<Event>, k: nat)
      returns (n: NetHdr, b: OrderBody)
    requires c0.mem == FRESH && UniqueKeys(c0.xb) && !Resends(c0, q, st, evs)
    requires var s := Run(Begin(c0, q), st, evs);
             k < |s.service.log| && FrameStart(q, k + 1) <= |s.net.wire| && Fresh(s.service.log[k])
    ensures var s := Run(Begin(c0, q), st, evs);
            var (_, order, issue) := s.service.log[k].moved.value;
            var before := PackingHistory.Run(FRESH, Calls(s.service.log[..k]));
            && OnWire(s.net.wire[FrameStart(q, k)..FrameStart(q, k + 1)], n, b)
            && NetMeans(n, issue) && BodyMeans(b, order, before.pan, before.date)
            && FromBooksAndTurns(c0, st, s.service.log, OpenTurns(s.turns))
  {
    hide Run, Exec, PackingHistory.Run, Frames, Calls, UniqueKeys, Fresh, Forwarding.Delivered, Resends, Sent;
    hide FrameStart, FromBooksAndTurns, BodyMeans, NetMeans, OnWire;
    var s := Run(Begin(c0, q), st, evs);
    WireCarriesTheLog(c0, q, st, evs);
    FreshOrRepeated(c0, st, s.turns, k);
    EntriesComeFromBooks(c0, st, s.turns);
    n, b := FreshSays(s.service.log, k);
  }
}
