/** The RFC 4733 telephone-event sender. */
module DtmfSender {
  import opened Serial32

  datatype Event = Event(code: int, duration: u32)

  /** The RTP telephone-event packet: the duration field has 16 bits. */
  datatype Packet = Packet(code: int, end: bool, duration: int, marker: bool, ts: u32)

  datatype Phase = None | Sending | Ending

  datatype State = State(queue: seq<Event>, phase: Phase, current: Event, ts: u32, repeats: nat)

  const IDLE: State := State([], None, Event(0, 0), 0, 0)

  /** Result of one sendPacket call: the new state and the packet handed to the stream, if any. */
  datatype Sent = Sent(state: State, out: seq<Packet>)

  /** Bounds the turns of the loop in sendPacket. */
  function Turns(s: State): nat {
    match s.phase
    case Ending => if s.repeats >= 3 then 4 else 1
    case None => 3
    case Sending => 2
  }

  function Send(s: State, ts: u32): (r: Sent)
    ensures |r.out| <= 1
    decreases Turns(s)
  {
    match s.phase
    case None =>
      if s.queue == [] then Sent(s, [])
      else Send(s.(queue := s.queue[1..], phase := Sending, current := s.queue[0], ts := ts), ts)
    case Sending =>
      if TsLess(ts, Plus(s.ts, s.current.duration)) then
        var d := Minus(ts, s.ts) % 0x10000;
        Sent(s, [Packet(s.current.code, false, d, d == 0, s.ts)])
      else Send(s.(phase := Ending, repeats := 0), ts)
    case Ending =>
      if s.repeats >= 3 then Send(s.(phase := None), ts)
      else Sent(s.(repeats := s.repeats + 1),
                [Packet(s.current.code, true, s.current.duration % 0x10000, false, s.ts)])
  }

  /** What 32 bits make of a product before it is divided by 1000. */
  lemma Overflowing(x: nat)
    ensures x < TWO32 ==> x % TWO32 / 1000 == x / 1000
    ensures x >= TWO32 ==> x % TWO32 / 1000 < x / 1000
  {
  }

  class Sender {
    var queue: seq<Event>
    var phase: Phase
    var current: Event
    var ts: u32
    var repeats: nat

    function View(): State
      reads this
    {
      State(queue, phase, current, ts, repeats)
    }

    constructor ()
      ensures View() == IDLE
    {
      queue, phase, current, ts, repeats := [], None, Event(0, 0), 0, 0;
    }

    /** Appends one event. Its duration is the number of samples in ms milliseconds exactly when the product of
        duration and rate fits 32 bits; beyond that it is shorter. */
    method QueueEvent(code: int, ms: u32, rate: u32)
      modifies this`queue
      ensures |queue| == |old(queue)| + 1 && queue[..|old(queue)|] == old(queue)
      ensures var e := queue[|old(queue)|];
        && e.code == code
        && (e.duration == ms * rate / 1000 <==> ms * rate < TWO32)
        && (ms * rate >= TWO32 ==> e.duration < ms * rate / 1000 && e.duration == ms * rate % TWO32 / 1000)
    {
      Overflowing(ms * rate);
      queue := queue + [Event(code, ms * rate % TWO32 / 1000)];
    }

    method SendPacket(now: u32) returns (out: seq<Packet>)
      modifies this
      ensures Sent(View(), out) == Send(old(View()), now)
    {
      while true
        invariant Send(View(), now) == Send(old(View()), now)
        decreases Turns(View())
      {
        match phase {
          case None =>
            if queue == [] {
              return [];
            }
            current, queue, ts, phase := queue[0], queue[1..], now, Sending;
          case Sending =>
            if TsLess(now, Plus(ts, current.duration)) {
              var d := Minus(now, ts) % 0x10000;
              return [Packet(current.code, false, d, d == 0, ts)];
            }
            phase, repeats := Ending, 0;
          case Ending =>
            if repeats >= 3 {
              phase := None;
            } else {
              repeats := repeats + 1;
              return [Packet(current.code, true, current.duration % 0x10000, false, ts)];
            }
        }
      }
    }
  }

  // ---- the grammar of the packet trace ----

  /** k packets without the end flag and of growing duration, the first alone marked. */
  ghost predicate Progress(ps: seq<Packet>, e: Event, t: u32) {
    && (forall i :: 0 <= i < |ps| ==>
          ps[i].code == e.code && !ps[i].end && ps[i].ts == t && ps[i].duration < e.duration)
    && (forall i :: 0 <= i < |ps| ==> (ps[i].marker <==> i == 0))
    && (forall i, j :: 0 <= i < j < |ps| ==> ps[i].duration < ps[j].duration)
    && (ps != [] ==> ps[0].duration == 0)
  }

  /** n end packets carrying the full duration. */
  function Ends(e: Event, t: u32, n: nat): seq<Packet> {
    seq(n, _ => Packet(e.code, true, e.duration, false, t))
  }

  /** The packets of one event: progress packets, none exactly for an empty event, then three ends. */
  ghost predicate Block(ps: seq<Packet>, e: Event) {
    exists t: u32, prog: seq<Packet> :: (prog == [] <==> e.duration == 0) && Progress(prog, e, t) && ps == prog + Ends(e, t, 3)
  }

  function Flat(bs: seq<seq<Packet>>): seq<Packet> {
    if bs == [] then [] else Flat(bs[..|bs| - 1]) + bs[|bs| - 1]
  }

  /** out is a prefix of a concatenation of the blocks of events, in order. */
  ghost predicate Grammatical(out: seq<Packet>, events: seq<Event>) {
    exists bs: seq<seq<Packet>> :: Blocks(bs, events) && out <= Flat(bs)
  }

  // ---- runs ----

  datatype Op = Queue(e: Event) | Tick(ts: u32)

  function Step(s: State, op: Op): Sent {
    match op
    case Queue(e) => Sent(s.(queue := s.queue + [e]), [])
    case Tick(ts) => Send(s, ts)
  }

  function Run(s: State, ops: seq<Op>): Sent {
    if ops == [] then Sent(s, [])
    else
      var r := Run(s, ops[..|ops| - 1]);
      var t := Step(r.state, ops[|ops| - 1]);
      Sent(t.state, r.out + t.out)
  }

  /** The events queued, in order. */
  function Queued(ops: seq<Op>): seq<Event> {
    if ops == [] then []
    else Queued(ops[..|ops| - 1]) + (if ops[|ops| - 1].Queue? then [ops[|ops| - 1].e] else [])
  }

  /** The timestamps of the sendPacket calls, in order. */
  function Ticks(ops: seq<Op>): seq<u32> {
    if ops == [] then []
    else Ticks(ops[..|ops| - 1]) + (if ops[|ops| - 1].Tick? then [ops[|ops| - 1].ts] else [])
  }

  /** Every call comes later than the one before it, and every event fits the duration field. */
  ghost predicate Fair(ops: seq<Op>) {
    && (forall i, j :: 0 <= i < j < |Ticks(ops)| && j == i + 1 ==> TsLess(Ticks(ops)[i], Ticks(ops)[j]))
    && (forall i :: 0 <= i < |Queued(ops)| ==> Queued(ops)[i].duration < 0x10000)
  }

  // ---- the invariant of every run ----

  /** History of the trace: finished blocks and the progress packets of the current event. */
  datatype History = History(done: seq<seq<Packet>>, prog: seq<Packet>)

  ghost function Open(s: State, h: History): seq<Packet> {
    match s.phase
    case None => []
    case Sending => h.prog
    case Ending => h.prog + Ends(s.current, s.ts, s.repeats)
  }

  ghost predicate Blocks(bs: seq<seq<Packet>>, events: seq<Event>) {
    |bs| <= |events| && forall i :: 0 <= i < |bs| ==> Block(bs[i], events[i])
  }

  ghost predicate Small(events: seq<Event>) {
    forall i :: 0 <= i < |events| ==> events[i].duration < 0x10000
  }

  /** Between two calls: the queue is the tail of the events, the blocks of the earlier events are
      finished, and the event in hand is in one of the two sending phases. */
  ghost predicate Inv(s: State, out: seq<Packet>, events: seq<Event>, ticks: seq<u32>, h: History) {
    && |s.queue| <= |events| && Small(events) && Blocks(h.done, events)
    && out == Flat(h.done) + Open(s, h)
    && var n := |events| - |s.queue|;
    && s.queue == events[n..]
    && (s.phase == None ==> |h.done| == n)
    && (s.phase != None ==>
          && |h.done| + 1 == n && s.current == events[n - 1]
          && Progress(h.prog, s.current, s.ts) && (h.prog == [] <==> s.current.duration == 0))
    && (s.phase == Sending ==>
          h.prog != [] && ticks != [] && Minus(ticks[|ticks| - 1], s.ts) == h.prog[|h.prog| - 1].duration)
    && (s.phase == Ending ==> 1 <= s.repeats <= 3)
  }

  /** The state a call leaves when it takes e from the queue. */
  lemma SendFirst(s: State, ts: u32)
    requires s.phase == None && s.queue != [] && s.queue[0].duration < 0x10000
    ensures var e, q := s.queue[0], s.queue[1..];
      Send(s, ts) ==
        if e.duration > 0 then Sent(State(q, Sending, e, ts, s.repeats), [Packet(e.code, false, 0, true, ts)])
        else Sent(State(q, Ending, e, ts, 1), [Packet(e.code, true, 0, false, ts)])
  {
    var e := s.queue[0];
    var t := s.(queue := s.queue[1..], phase := Sending, current := e, ts := ts);
    assert TsLess(ts, Plus(ts, e.duration)) <==> e.duration > 0;
    assert Send(s, ts) == Send(t, ts);
    if e.duration == 0 {
      assert Send(t, ts) == Send(t.(phase := Ending, repeats := 0), ts);
    }
  }

  lemma TickNone(s: State, ts: u32, out: seq<Packet>, events: seq<Event>, ticks: seq<u32>, h: History) returns (h': History)
    requires Inv(s, out, events, ticks, h) && s.phase == None
    ensures Inv(Send(s, ts).state, out + Send(s, ts).out, events, ticks + [ts], h')
  {
    h' := h;
    if s.queue != [] {
      var n := |events| - |s.queue|;
      assert s.queue[0] == events[n] && s.queue[1..] == events[n + 1..];
      SendFirst(s, ts);
      var e := s.queue[0];
      if e.duration > 0 {
        h' := History(h.done, [Packet(e.code, false, 0, true, ts)]);
      } else {
        h' := History(h.done, []);
        assert Ends(e, ts, 1) == [Packet(e.code, true, 0, false, ts)];
      }
    }
  }

  /** Later by less than half the circle, measured from the start of the event. */
  lemma Elapsed(start: u32, last: u32, ts: u32, d: u32)
    requires TsLess(last, ts) && Minus(last, start) < d < 0x10000
    ensures TsLess(ts, Plus(start, d)) <==> Minus(ts, start) < d
    ensures Minus(ts, start) < d ==> Minus(last, start) < Minus(ts, start)
  {
  }

  lemma ProgressAdd(ps: seq<Packet>, e: Event, t: u32, d: int)
    requires ps != [] && Progress(ps, e, t) && ps[|ps| - 1].duration < d < e.duration
    ensures Progress(ps + [Packet(e.code, false, d, false, t)], e, t)
  {
    var qs := ps + [Packet(e.code, false, d, false, t)];
    assert forall i :: 0 <= i < |ps| ==> qs[i] == ps[i];
  }

  /** One more progress packet keeps the invariant. */
  lemma TickProgress(s: State, ts: u32, out: seq<Packet>, events: seq<Event>, ticks: seq<u32>, h: History)
    requires Inv(s, out, events, ticks, h) && s.phase == Sending
    requires h.prog[|h.prog| - 1].duration < Minus(ts, s.ts) < s.current.duration
    ensures var p := Packet(s.current.code, false, Minus(ts, s.ts), false, s.ts);
      Inv(s, out + [p], events, ticks + [ts], History(h.done, h.prog + [p]))
  {
    hide Progress, Flat, Blocks, Small, Ends, Minus;
    var p := Packet(s.current.code, false, Minus(ts, s.ts), false, s.ts);
    ProgressAdd(h.prog, s.current, s.ts, Minus(ts, s.ts));
    assert out + [p] == Flat(h.done) + (h.prog + [p]);
  }

  /** So does the first end packet. */
  lemma TickFirstEnd(s: State, ts: u32, out: seq<Packet>, events: seq<Event>, ticks: seq<u32>, h: History)
    requires Inv(s, out, events, ticks, h) && s.phase == Sending
    ensures var p := Packet(s.current.code, true, s.current.duration, false, s.ts);
      Inv(s.(phase := Ending, repeats := 1), out + [p], events, ticks + [ts], h)
  {
    var p := Packet(s.current.code, true, s.current.duration, false, s.ts);
    assert Ends(s.current, s.ts, 1) == [p];
    hide Progress, Flat, Blocks, Small, Ends, Minus;
    assert out + [p] == Flat(h.done) + (h.prog + [p]);
  }

  /** What the invariant says of the event in hand. */
  lemma InHand(s: State, out: seq<Packet>, events: seq<Event>, ticks: seq<u32>, h: History)
    requires Inv(s, out, events, ticks, h) && s.phase == Sending
    ensures h.prog != [] && ticks != [] && Minus(ticks[|ticks| - 1], s.ts) == h.prog[|h.prog| - 1].duration
    ensures h.prog[|h.prog| - 1].duration < s.current.duration < 0x10000
  {
  }

  lemma TickSending(s: State, ts: u32, out: seq<Packet>, events: seq<Event>, ticks: seq<u32>, h: History) returns (h': History)
    requires Inv(s, out, events, ticks, h) && s.phase == Sending && (ticks != [] ==> TsLess(ticks[|ticks| - 1], ts))
    ensures Inv(Send(s, ts).state, out + Send(s, ts).out, events, ticks + [ts], h')
  {
    hide Inv, Send, TsLess, Plus, Minus;
    InHand(s, out, events, ticks, h);
    var e, last := s.current, ticks[|ticks| - 1];
    Elapsed(s.ts, last, ts, e.duration);
    SendNext(s, ts, last);
    if Minus(ts, s.ts) < e.duration {
      TickProgress(s, ts, out, events, ticks, h);
      h' := History(h.done, h.prog + [Packet(e.code, false, Minus(ts, s.ts), false, s.ts)]);
    } else {
      TickFirstEnd(s, ts, out, events, ticks, h);
      h' := h;
    }
  }

  /** A call while an event is being sent: one more progress packet, or the first end packet. */
  lemma SendNext(s: State, ts: u32, last: u32)
    requires s.phase == Sending && TsLess(last, ts) && Minus(last, s.ts) < s.current.duration < 0x10000
    ensures var e, d := s.current, Minus(ts, s.ts);
      Send(s, ts) ==
        if d < e.duration then Sent(s, [Packet(e.code, false, d, false, s.ts)])
        else Sent(s.(phase := Ending, repeats := 1), [Packet(e.code, true, e.duration, false, s.ts)])
  {
    Elapsed(s.ts, last, ts, s.current.duration);
    if !TsLess(ts, Plus(s.ts, s.current.duration)) {
      assert Send(s, ts) == Send(s.(phase := Ending, repeats := 0), ts);
    }
  }

  lemma TickEnding(s: State, ts: u32, out: seq<Packet>, events: seq<Event>, ticks: seq<u32>, h: History) returns (h': History)
    requires Inv(s, out, events, ticks, h) && s.phase == Ending
    ensures Inv(Send(s, ts).state, out + Send(s, ts).out, events, ticks + [ts], h')
  {
    var e := s.current;
    if s.repeats < 3 {
      assert Ends(e, s.ts, s.repeats) + [Packet(e.code, true, e.duration, false, s.ts)] == Ends(e, s.ts, s.repeats + 1);
      h' := h;
    } else {
      hide Inv;
      var t := s.(phase := None);
      var g := BlockDone(s, out, events, ticks, h);
      h' := TickNone(t, ts, out, events, ticks, g);
      assert Send(s, ts) == Send(t, ts);
    }
  }

  /** With the third end packet the block of the current event is complete. */
  lemma BlockDone(s: State, out: seq<Packet>, events: seq<Event>, ticks: seq<u32>, h: History) returns (g: History)
    requires Inv(s, out, events, ticks, h) && s.phase == Ending && s.repeats >= 3
    ensures Inv(s.(phase := None), out, events, ticks, g)
  {
    hide Block, Ends, Progress, Flat, Blocks, Small, Minus;
    var b := h.prog + Ends(s.current, s.ts, 3);
    BlockIs(h.prog, s.current, s.ts);
    g := History(h.done + [b], []);
    FlatAdd(h.done, b);
    BlocksAdd(h.done, b, events);
    assert out == Flat(g.done) + [];
  }

  lemma BlockIs(prog: seq<Packet>, e: Event, t: u32)
    requires Progress(prog, e, t) && (prog == [] <==> e.duration == 0)
    ensures Block(prog + Ends(e, t, 3), e)
  {
  }

  lemma BlocksAdd(done: seq<seq<Packet>>, b: seq<Packet>, events: seq<Event>)
    requires Blocks(done, events) && |done| < |events| && Block(b, events[|done|])
    ensures Blocks(done + [b], events)
  {
    hide Block;
    var bs := done + [b];
    assert forall i :: 0 <= i < |done| ==> bs[i] == done[i];
  }

  lemma FlatAdd(bs: seq<seq<Packet>>, b: seq<Packet>)
    ensures Flat(bs + [b]) == Flat(bs) + b
  {
    assert (bs + [b])[..|bs|] == bs;
  }

  lemma Enqueue(s: State, e: Event, out: seq<Packet>, events: seq<Event>, ticks: seq<u32>, h: History)
    requires Inv(s, out, events, ticks, h) && e.duration < 0x10000
    ensures Inv(s.(queue := s.queue + [e]), out, events + [e], ticks, h)
  {
    hide Block, Flat, Progress, Ends;
    assert s.queue + [e] == (events + [e])[|events| - |s.queue|..];
    assert forall i :: 0 <= i < |events| ==> (events + [e])[i] == events[i];
  }

  lemma StepInv(s: State, op: Op, out: seq<Packet>, events: seq<Event>, ticks: seq<u32>, h: History) returns (h': History)
    requires Inv(s, out, events, ticks, h)
    requires op.Queue? ==> op.e.duration < 0x10000
    requires op.Tick? && ticks != [] ==> TsLess(ticks[|ticks| - 1], op.ts)
    ensures op.Queue? ==> Inv(Step(s, op).state, out + Step(s, op).out, events + [op.e], ticks, h')
    ensures op.Tick? ==> Inv(Step(s, op).state, out + Step(s, op).out, events, ticks + [op.ts], h')
  {
    hide Inv, Send;
    match op {
      case Queue(e) =>
        Enqueue(s, e, out, events, ticks, h);
        assert out + [] == out;
        h' := h;
      case Tick(ts) =>
        match s.phase {
          case None => h' := TickNone(s, ts, out, events, ticks, h);
          case Sending => h' := TickSending(s, ts, out, events, ticks, h);
          case Ending => h' := TickEnding(s, ts, out, events, ticks, h);
        }
    }
  }

  lemma {:induction false} RunInv(ops: seq<Op>) returns (h: History)
    requires Fair(ops)
    ensures Inv(Run(IDLE, ops).state, Run(IDLE, ops).out, Queued(ops), Ticks(ops), h)
  {
    if ops == [] {
      h := History([], []);
    } else {
      hide Inv, Step, Run, Queued, Ticks, Fair;
      var pre, op := ops[..|ops| - 1], ops[|ops| - 1];
      FairPrefix(ops);
      h := RunInv(pre);
      var r := Run(IDLE, pre);
      FairLast(ops);
      h := StepInv(r.state, op, r.out, Queued(pre), Ticks(pre), h);
      RunLast(ops);
    }
  }

  /** A run and its traces end with the last operation. */
  lemma RunLast(ops: seq<Op>)
    requires ops != []
    ensures var pre, op := ops[..|ops| - 1], ops[|ops| - 1];
      var r, t := Run(IDLE, pre), Step(Run(IDLE, pre).state, op);
      && Run(IDLE, ops) == Sent(t.state, r.out + t.out)
      && Queued(ops) == (if op.Queue? then Queued(pre) + [op.e] else Queued(pre))
      && Ticks(ops) == (if op.Tick? then Ticks(pre) + [op.ts] else Ticks(pre))
  {
    hide Step;
  }

  lemma FairLast(ops: seq<Op>)
    requires ops != [] && Fair(ops)
    ensures var pre, op := ops[..|ops| - 1], ops[|ops| - 1];
      && (op.Queue? ==> op.e.duration < 0x10000)
      && (op.Tick? && Ticks(pre) != [] ==> TsLess(Ticks(pre)[|Ticks(pre)| - 1], op.ts))
  {
    var pre, op := ops[..|ops| - 1], ops[|ops| - 1];
    if op.Queue? {
      assert Queued(ops)[|Queued(pre)|] == op.e;
    } else if Ticks(pre) != [] {
      var n := |Ticks(pre)|;
      assert Ticks(ops)[n - 1] == Ticks(pre)[n - 1] && Ticks(ops)[n] == op.ts;
    }
  }

  lemma FairPrefix(ops: seq<Op>)
    requires ops != [] && Fair(ops)
    ensures Fair(ops[..|ops| - 1])
  {
    var pre := ops[..|ops| - 1];
    assert Ticks(pre) <= Ticks(ops) && Queued(pre) <= Queued(ops);
    forall i, j | 0 <= i < j < |Ticks(pre)| && j == i + 1 ensures TsLess(Ticks(pre)[i], Ticks(pre)[j]) {
      assert Ticks(ops)[i] == Ticks(pre)[i] && Ticks(ops)[j] == Ticks(pre)[j];
    }
    forall i | 0 <= i < |Queued(pre)| ensures Queued(pre)[i].duration < 0x10000 {
      assert Queued(ops)[i] == Queued(pre)[i];
    }
  }

  /** Whatever the interleaving of queueEvent and sendPacket, the packets sent are a prefix of the
      blocks of the queued events in queue order. */
  lemma RunGrammatical(ops: seq<Op>)
    requires Fair(ops)
    ensures Grammatical(Run(IDLE, ops).out, Queued(ops))
  {
    var h := RunInv(ops);
    Completable(Run(IDLE, ops).state, Run(IDLE, ops).out, Queued(ops), Ticks(ops), h);
  }

  lemma Completable(s: State, out: seq<Packet>, events: seq<Event>, ticks: seq<u32>, h: History)
    requires Inv(s, out, events, ticks, h)
    ensures Grammatical(out, events)
  {
    if s.phase == None {
      assert out == Flat(h.done);
    } else {
      var b := h.prog + Ends(s.current, s.ts, 3);
      assert Block(b, s.current);
      if s.phase == Ending {
        assert Ends(s.current, s.ts, s.repeats) <= Ends(s.current, s.ts, 3);
      }
      CompletedBy(h.done, b, Open(s, h), events);
    }
  }

  lemma CompletedBy(done: seq<seq<Packet>>, b: seq<Packet>, part: seq<Packet>, events: seq<Event>)
    requires Blocks(done, events) && |done| < |events| && Block(b, events[|done|]) && part <= b
    ensures Grammatical(Flat(done) + part, events)
  {
    hide Block, Flat;
    var bs := done + [b];
    FlatAdd(done, b);
    BlocksAdd(done, b, events);
    assert Flat(done) + part <= Flat(done) + b;
  }

  // ---- every event is sent to its end ----

  /** Nothing is left to send. */
  predicate Finished(s: State) {
    s.queue == [] && (s.phase == None || (s.phase == Ending && s.repeats >= 3))
  }

  /** A call sends one packet, unless nothing is left to send. */
  lemma SendsUnlessFinished(s: State, ts: u32)
    ensures |Send(s, ts).out| == if Finished(s) then 0 else 1
    ensures Finished(s) ==> Finished(Send(s, ts).state)
    decreases Turns(s)
  {
    match s.phase
    case None =>
      if s.queue != [] {
        SendsUnlessFinished(s.(queue := s.queue[1..], phase := Sending, current := s.queue[0], ts := ts), ts);
      }
    case Sending =>
      if !TsLess(ts, Plus(s.ts, s.current.duration)) { SendsUnlessFinished(s.(phase := Ending, repeats := 0), ts); }
    case Ending =>
      if s.repeats >= 3 { SendsUnlessFinished(s.(phase := None), ts); }
  }

  /** At most so many packets are sent for events. */
  function Budget(events: seq<Event>): nat {
    if events == [] then 0 else Budget(events[..|events| - 1]) + events[|events| - 1].duration + 3
  }

  lemma {:induction false} BudgetGrows(events: seq<Event>, n: nat)
    requires n <= |events|
    ensures Budget(events[..n]) <= Budget(events)
    decreases |events|
  {
    if n < |events| {
      var m := |events| - 1;
      assert events[..m][..n] == events[..n];
      BudgetGrows(events[..m], n);
    } else {
      assert events[..n] == events;
    }
  }

  lemma {:induction false} ProgressAtLeast(ps: seq<Packet>, e: Event, t: u32, i: nat)
    requires Progress(ps, e, t) && i < |ps|
    ensures i <= ps[i].duration < e.duration
  {
    if i > 0 { ProgressAtLeast(ps, e, t, i - 1); }
  }

  lemma BlockSize(ps: seq<Packet>, e: Event)
    requires Block(ps, e)
    ensures |ps| <= e.duration + 3
  {
    var t: u32, prog :| (prog == [] <==> e.duration == 0) && Progress(prog, e, t) && ps == prog + Ends(e, t, 3);
    if prog != [] { ProgressAtLeast(prog, e, t, |prog| - 1); }
  }

  lemma {:induction false} FlatSize(bs: seq<seq<Packet>>, events: seq<Event>)
    requires Blocks(bs, events)
    ensures |Flat(bs)| <= Budget(events[..|bs|])
    decreases |bs|
  {
    hide Block;
    if bs != [] {
      var n := |bs| - 1;
      assert forall i :: 0 <= i < n ==> bs[..n][i] == bs[i];
      FlatSize(bs[..n], events);
      BlockSize(bs[n], events[n]);
      assert events[..n + 1][..n] == events[..n];
    }
  }

  lemma TraceSize(out: seq<Packet>, events: seq<Event>)
    requires Grammatical(out, events)
    ensures |out| <= Budget(events)
  {
    hide Blocks;
    var bs :| Blocks(bs, events) && out <= Flat(bs);
    FlatSize(bs, events);
    assert |bs| <= |events| by { BlocksFit(bs, events); }
    BudgetGrows(events, |bs|);
  }

  lemma BlocksFit(bs: seq<seq<Packet>>, events: seq<Event>)
    requires Blocks(bs, events)
    ensures |bs| <= |events|
  {
  }

  /** The packets are the blocks of all the events. */
  ghost predicate Complete(out: seq<Packet>, events: seq<Event>) {
    exists bs: seq<seq<Packet>> :: |bs| == |events| && Blocks(bs, events) && out == Flat(bs)
  }

  /** When nothing is left to send, every event queued has been sent in full. */
  lemma FinishedComplete(ops: seq<Op>)
    requires Fair(ops) && Finished(Run(IDLE, ops).state)
    ensures Complete(Run(IDLE, ops).out, Queued(ops))
  {
    hide Run, Queued, Ticks, Fair;
    var s, out := Run(IDLE, ops).state, Run(IDLE, ops).out;
    var h := RunInv(ops);
    if s.phase == None {
      NothingOpen(s, out, Queued(ops), Ticks(ops), h);
    } else {
      var g := BlockDone(s, out, Queued(ops), Ticks(ops), h);
      NothingOpen(s.(phase := None), out, Queued(ops), Ticks(ops), g);
    }
  }

  lemma NothingOpen(s: State, out: seq<Packet>, events: seq<Event>, ticks: seq<u32>, h: History)
    requires Inv(s, out, events, ticks, h) && s.phase == None && s.queue == []
    ensures Complete(out, events)
  {
    hide Block, Flat;
    assert out == Flat(h.done);
  }

  predicate AllTicks(ops: seq<Op>) {
    forall i :: 0 <= i < |ops| ==> ops[i].Tick?
  }

  /** After k calls and no further event, either nothing is left to send or k packets went out. */
  lemma {:induction false} SendsOrFinished(pre: seq<Op>, ticks: seq<Op>)
    requires AllTicks(ticks)
    ensures Finished(Run(IDLE, pre + ticks).state) || |Run(IDLE, pre + ticks).out| >= |ticks|
    ensures Queued(pre + ticks) == Queued(pre)
    decreases |ticks|
  {
    hide Send, Run, Queued, Ticks;
    if ticks == [] {
      assert pre + ticks == pre;
    } else {
      var n := |ticks| - 1;
      SendsOrFinished(pre, ticks[..n]);
      assert (pre + ticks)[..|pre + ticks| - 1] == pre + ticks[..n];
      assert ticks[n].Tick? && (pre + ticks)[|pre + ticks| - 1] == ticks[n];
      RunLast(pre + ticks);
      SendsUnlessFinished(Run(IDLE, pre + ticks[..n]).state, ticks[n].ts);
    }
  }

  /** However the events were queued, once there have been as many further calls as packets are due, and one more,
      the packets sent are the blocks of all the events. */
  lemma Drains(pre: seq<Op>, ticks: seq<Op>)
    requires Fair(pre + ticks) && AllTicks(ticks) && |ticks| > Budget(Queued(pre))
    ensures Complete(Run(IDLE, pre + ticks).out, Queued(pre))
  {
    hide Run, Queued, Fair, Grammatical, Complete, Finished;
    SendsOrFinished(pre, ticks);
    RunGrammatical(pre + ticks);
    TraceSize(Run(IDLE, pre + ticks).out, Queued(pre));
    FinishedComplete(pre + ticks);
  }

  /** The end packet carries the event's duration exactly when it fits the 16-bit field. */
  lemma EndDurationFits(s: State, ts: u32)
    requires s.phase == Ending && s.repeats < 3
    ensures Send(s, ts).out[0].duration == s.current.duration <==> s.current.duration < 0x10000
  {
  }
}
