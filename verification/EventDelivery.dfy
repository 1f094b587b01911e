/** Event queues, the worker that drains them and the mutex protocol between posters and worker.
    Every critical section is one atomic action. */
module EventDelivery {

  import opened Collections

  type Ev = int
  type Qid = nat

  /** An event queue with its history: what was posted, what the handler has seen, how often it was
      finalized and how many references the worker holds. `marks` says whether its finalize() sets
      the finalized flag, as AmEventQueue::finalize does and an override may not. */
  datatype Queue = Queue(
    events: seq<Ev>, pending: bool, sink: bool, finalized: bool,
    marks: bool, held: nat, posted: seq<Ev>, done: seq<Ev>, finals: nat)

  /** Where the worker stands in EventQueueWorker::run. */
  datatype Pc =
    | Waiting | Picking | Exited
    | Drain(q: Qid) | Handling(q: Qid, ev: Ev) | Cycled(q: Qid)
    | Stopping(q: Qid) | Finalizing(q: Qid) | Releasing(q: Qid)
  {
    predicate Runs(x: Qid) {
      !(Waiting? || Picking? || Exited?) && q == x
    }
  }

  datatype State = State(qs: seq<Queue>, proc: seq<Qid>, runcond: bool, stop: bool, pc: Pc)

  datatype Action =
    | Post(q: Qid, ev: Option<Ev>) | SetSink(q: Qid) | Stop
    | Wake | Pick | Take | Handle | Throw | Refuse | CycleTrue | CycleFalse | Unsink | Finalize | Release

  // ---- critical sections of one queue ----

  /** postEvent: the second result says that the sink is notified. */
  function Posted(x: Queue, ev: Option<Ev>): (Queue, bool) {
    var y := if ev.Some? then x.(events := x.events + [ev.value], posted := x.posted + [ev.value]) else x;
    (y.(pending := true), !x.pending && x.sink)
  }

  /** One locked turn of processEvents: the next event, or the end of the cycle. */
  function Taken(x: Queue): (Queue, Option<Ev>) {
    if x.events == [] then (x.(pending := false), None)
    else (x.(events := x.events[1..]), Some(x.events[0]))
  }

  // ---- the system ----

  function Notified(s: State, q: Qid): State
    requires q < |s.qs|
  {
    s.(proc := s.proc + [q], runcond := true, qs := s.qs[q := s.qs[q].(held := s.qs[q].held + 1)])
  }

  predicate Enabled(s: State, a: Action) {
    match a
    case Post(q, _) => q < |s.qs|
    case SetSink(q) => q < |s.qs|
    case Stop => true
    case Wake => s.pc == Waiting && s.runcond
    case Pick => s.pc == Picking && forall q :: q in s.proc ==> q < |s.qs|
    case Take => s.pc.Drain? && s.pc.q < |s.qs|
    case Handle => s.pc.Handling? && s.pc.q < |s.qs|
    case Throw => s.pc.Handling? && s.pc.q < |s.qs|
    case Refuse => s.pc.Drain? && s.pc.q < |s.qs|
    case CycleTrue => s.pc.Cycled?
    case CycleFalse => s.pc.Cycled?
    case Unsink => s.pc.Stopping? && s.pc.q < |s.qs|
    case Finalize => s.pc.Finalizing? && s.pc.q < |s.qs|
    case Release => s.pc.Releasing? && s.pc.q < |s.qs| && s.qs[s.pc.q].held > 0
  }

  function Next(s: State, a: Action): State
    requires Enabled(s, a)
  {
    match a
    case Post(q, ev) =>
      var (x, notify) := Posted(s.qs[q], ev);
      var t := s.(qs := s.qs[q := x]);
      if notify then Notified(t, q) else t
    case SetSink(q) =>
      var t := s.(qs := s.qs[q := s.qs[q].(sink := true)]);
      if s.qs[q].pending then Notified(t, q) else t
    case Stop => s.(stop := true, runcond := true)
    case Wake => s.(pc := Picking)
    case Pick =>
      if s.proc != [] then s.(proc := s.proc[1..], pc := Drain(s.proc[0]))
      else s.(runcond := false, pc := if s.stop then Exited else Waiting)
    case Take =>
      var (x, ev) := Taken(s.qs[s.pc.q]);
      s.(qs := s.qs[s.pc.q := x], pc := if ev.Some? then Handling(s.pc.q, ev.value) else Cycled(s.pc.q))
    case Handle => Handled(s, Drain(s.pc.q))
    // the handler throws: the exception leaves processEvents, and the cycle returns false
    case Throw => Handled(s, Stopping(s.pc.q))
    // a session that has ended returns false without looking at its events
    case Refuse => s.(pc := Stopping(s.pc.q))
    case CycleTrue => s.(pc := Releasing(s.pc.q))
    case CycleFalse => s.(pc := Stopping(s.pc.q))
    case Unsink => s.(qs := s.qs[s.pc.q := s.qs[s.pc.q].(sink := false)], pc := Finalizing(s.pc.q))
    case Finalize =>
      var x := s.qs[s.pc.q];
      var y := if x.finalized then x else x.(finalized := x.marks, finals := x.finals + 1);
      s.(qs := s.qs[s.pc.q := y], pc := Releasing(s.pc.q))
    case Release =>
      var x := s.qs[s.pc.q];
      s.(qs := s.qs[s.pc.q := x.(held := x.held - 1)], pc := Picking)
  }

  function Handled(s: State, pc: Pc): State
    requires s.pc.Handling? && s.pc.q < |s.qs|
  {
    var x := s.qs[s.pc.q];
    s.(qs := s.qs[s.pc.q := x.(done := x.done + [s.pc.ev])], pc := pc)
  }

  /** No queue known to the worker yet, no event posted. */
  predicate Initial(s: State) {
    && s.proc == [] && !s.runcond && !s.stop && s.pc == Waiting
    && forall i :: 0 <= i < |s.qs| ==> s.qs[i] == Queue([], false, false, false, s.qs[i].marks, 0, [], [], 0)
  }

  // ---- invariants ----

  ghost function InFlight(s: State, q: Qid): seq<Ev> {
    if s.pc.Handling? && s.pc.q == q then [s.pc.ev] else []
  }

  /** A worker that still has to look at the events, or is about to unregister itself. */
  ghost predicate Attended(s: State, q: Qid) {
    q in s.proc || ((s.pc.Drain? || s.pc.Handling? || s.pc.Stopping?) && s.pc.q == q)
  }

  ghost predicate QueueInv(s: State, q: Qid)
    requires q < |s.qs|
  {
    var x := s.qs[q];
    && (x.events != [] ==> x.pending)
    && (x.sink && x.pending ==> Attended(s, q))
    && x.done + InFlight(s, q) + x.events == x.posted
    && x.held == multiset(s.proc)[q] + (if s.pc.Runs(q) then 1 else 0)
    && (x.marks ==> x.finals <= 1 && (x.finalized <==> x.finals == 1))
  }

  ghost predicate Inv(s: State) {
    && (forall i :: 0 <= i < |s.proc| ==> s.proc[i] < |s.qs|)
    && (!(s.pc.Waiting? || s.pc.Picking? || s.pc.Exited?) ==> s.pc.q < |s.qs|)
    && (s.proc != [] ==> s.runcond)
    && (forall q :: 0 <= q < |s.qs| ==> QueueInv(s, q))
  }

  lemma InitialInv(s: State)
    requires Initial(s)
    ensures Inv(s)
  {
  }

  /** A notification restores what a freshly pending queue lacks: the worker's attention. */
  lemma NotifiedInv(s: State, t: State, q: Qid)
    requires Inv(s) && q < |s.qs| == |t.qs| && t == s.(qs := s.qs[q := t.qs[q]])
    requires var x := t.qs[q];
      && (x.events != [] ==> x.pending)
      && x.done + InFlight(t, q) + x.events == x.posted
      && x.held == s.qs[q].held && x.marks == s.qs[q].marks
      && x.finals == s.qs[q].finals && x.finalized == s.qs[q].finalized
    ensures Inv(Notified(t, q))
  {
    var u := Notified(t, q);
    Listed(s.proc, q);
    forall i | 0 <= i < |u.qs| ensures QueueInv(u, i) {
      assert QueueInv(s, i);
      if i != q {
        assert u.qs[i] == s.qs[i] && InFlight(u, i) == InFlight(s, i);
      }
    }
  }

  lemma Listed(proc: seq<Qid>, q: Qid)
    ensures q in proc + [q] && forall i :: i in proc ==> i in proc + [q]
    ensures forall i :: multiset(proc + [q])[i] == multiset(proc)[i] + if i == q then 1 else 0
  {
    assert (proc + [q])[|proc|] == q;
  }

  /** An action that leaves the list of queues to process alone and changes at most the queue in hand. */
  lemma QuietInv(s: State, t: State, q: Qid)
    requires Inv(s) && q < |s.qs| == |t.qs| && t.proc == s.proc && (s.proc != [] ==> t.runcond)
    requires t.pc.Waiting? || t.pc.Picking? || t.pc.Exited? || t.pc.q < |t.qs|
    requires forall i :: 0 <= i < |s.qs| && i != q ==>
      && t.qs[i] == s.qs[i] && InFlight(t, i) == InFlight(s, i) && (t.pc.Runs(i) <==> s.pc.Runs(i))
      && (Attended(s, i) ==> Attended(t, i))
    requires QueueInv(t, q)
    ensures Inv(t)
  {
    forall i | 0 <= i < |t.qs| ensures QueueInv(t, i) {
      assert QueueInv(s, i);
    }
  }

  /** A posted event goes to the end of the history as well as of the queue. */
  lemma PostedQueue(s: State, q: Qid, ev: Option<Ev>)
    requires q < |s.qs| && QueueInv(s, q)
    ensures var x := Posted(s.qs[q], ev).0; x.done + InFlight(s, q) + x.events == x.posted
  {
    if ev.Some? {
      var y := s.qs[q];
      assert y.done + InFlight(s, q) + (y.events + [ev.value]) == y.done + InFlight(s, q) + y.events + [ev.value];
    }
  }

  lemma PostInv(s: State, q: Qid, ev: Option<Ev>)
    requires Inv(s) && q < |s.qs|
    ensures Inv(Next(s, Post(q, ev)))
  {
    assert QueueInv(s, q);
    var (x, notify) := Posted(s.qs[q], ev);
    var t := s.(qs := s.qs[q := x]);
    PostedQueue(s, q, ev);
    if notify {
      hide Inv;
      NotifiedInv(s, t, q);
    } else {
      QuietInv(s, t, q);
    }
  }

  lemma SetSinkInv(s: State, q: Qid)
    requires Inv(s) && q < |s.qs|
    ensures Inv(Next(s, SetSink(q)))
  {
    assert QueueInv(s, q);
    var t := s.(qs := s.qs[q := s.qs[q].(sink := true)]);
    if s.qs[q].pending { NotifiedInv(s, t, q); } else { QuietInv(s, t, q); }
  }

  lemma PickInv(s: State)
    requires Inv(s) && s.pc == Picking
    ensures Enabled(s, Pick) && Inv(Next(s, Pick))
  {
    var t := Next(s, Pick);
    if s.proc != [] {
      assert s.proc == [s.proc[0]] + s.proc[1..];
      assert multiset(s.proc) == multiset{s.proc[0]} + multiset(t.proc);
    }
    forall i | 0 <= i < |t.qs| ensures QueueInv(t, i) {
      assert QueueInv(s, i);
      assert s.proc != [] && i in s.proc ==> i == s.proc[0] || i in t.proc;
    }
  }

  lemma TakeInv(s: State)
    requires Inv(s) && s.pc.Drain?
    ensures Inv(Next(s, Take))
  {
    var q := s.pc.q;
    assert QueueInv(s, q);
    var x := s.qs[q];
    var t := Next(s, Take);
    if x.events != [] {
      assert x.done + [] + x.events == x.done + [x.events[0]] + x.events[1..];
    }
    assert QueueInv(t, q);
    hide QueueInv;
    QuietInv(s, t, q);
  }

  lemma HandledInv(s: State, pc: Pc)
    requires Inv(s) && s.pc.Handling? && (pc == Drain(s.pc.q) || pc == Stopping(s.pc.q))
    ensures Inv(Handled(s, pc))
  {
    var q := s.pc.q;
    assert QueueInv(s, q);
    var x := s.qs[q];
    assert x.done + [s.pc.ev] + x.events == (x.done + [s.pc.ev]) + [] + x.events;
    QuietInv(s, Handled(s, pc), q);
  }

  /** The cycle of the queue in hand ends, or is refused. */
  lemma CycleInv(s: State, pc: Pc)
    requires Inv(s) && (s.pc.Drain? || s.pc.Cycled?)
    requires pc == Stopping(s.pc.q) || (s.pc.Cycled? && pc == Releasing(s.pc.q))
    ensures Inv(s.(pc := pc))
  {
    assert QueueInv(s, s.pc.q);
    QuietInv(s, s.(pc := pc), s.pc.q);
  }

  lemma UnsinkInv(s: State)
    requires Inv(s) && s.pc.Stopping?
    ensures Inv(Next(s, Unsink))
  {
    assert QueueInv(s, s.pc.q);
    QuietInv(s, Next(s, Unsink), s.pc.q);
  }

  lemma FinalizeInv(s: State)
    requires Inv(s) && s.pc.Finalizing?
    ensures Inv(Next(s, Finalize))
  {
    assert QueueInv(s, s.pc.q);
    QuietInv(s, Next(s, Finalize), s.pc.q);
  }

  lemma ReleaseInv(s: State)
    requires Inv(s) && Enabled(s, Release)
    ensures Inv(Next(s, Release))
  {
    assert QueueInv(s, s.pc.q);
    QuietInv(s, Next(s, Release), s.pc.q);
  }

  lemma NextInv(s: State, a: Action)
    requires Inv(s) && Enabled(s, a)
    ensures Inv(Next(s, a))
  {
    hide Inv;
    match a
    case Post(q, ev) => PostInv(s, q, ev);
    case SetSink(q) => SetSinkInv(s, q);
    case Stop => StopInv(s);
    case Wake => WakeInv(s);
    case Pick => PickInv(s);
    case Take => TakeInv(s);
    case Handle => HandledInv(s, Drain(s.pc.q));
    case Throw => HandledInv(s, Stopping(s.pc.q));
    case Refuse => CycleInv(s, Stopping(s.pc.q));
    case CycleTrue => CycleInv(s, Releasing(s.pc.q));
    case CycleFalse => CycleInv(s, Stopping(s.pc.q));
    case Unsink => UnsinkInv(s);
    case Finalize => FinalizeInv(s);
    case Release => ReleaseInv(s);
  }

  lemma StopInv(s: State)
    requires Inv(s)
    ensures Inv(Next(s, Stop))
  {
    IdleInv(s, Next(s, Stop));
  }

  lemma WakeInv(s: State)
    requires Inv(s) && Enabled(s, Wake)
    ensures Inv(Next(s, Wake))
  {
    IdleInv(s, Next(s, Wake));
  }

  lemma IdleInv(s: State, t: State)
    requires Inv(s) && t.qs == s.qs && t.proc == s.proc && (s.proc != [] ==> t.runcond)
    requires t.pc == s.pc || (s.pc == Waiting && t.pc == Picking)
    ensures Inv(t)
  {
    forall i | 0 <= i < |t.qs| ensures QueueInv(t, i) {
      assert QueueInv(s, i);
    }
  }

  // ---- runs ----

  predicate Legal(s: State, acts: seq<Action>)
    decreases |acts|
  {
    acts == [] || (Enabled(s, acts[0]) && Legal(Next(s, acts[0]), acts[1..]))
  }

  function After(s: State, acts: seq<Action>): State
    requires Legal(s, acts)
    decreases |acts|
  {
    if acts == [] then s else After(Next(s, acts[0]), acts[1..])
  }

  /** In every state of every interleaving of posters, starters and the worker: an event waiting
      means the pending flag is up, a pending registered queue has the worker's attention, a queue to
      process means the worker is woken, events are handled exactly once and in posting order, the
      worker's references are counted, and a queue whose finalize marks it is finalized at most once. */
  lemma {:induction false} RunInv(s: State, acts: seq<Action>)
    requires Inv(s) && Legal(s, acts)
    ensures Inv(After(s, acts))
    decreases |acts|
  {
    if acts != [] {
      NextInv(s, acts[0]);
      RunInv(Next(s, acts[0]), acts[1..]);
    }
  }

  lemma RunFromStart(s: State, acts: seq<Action>)
    requires Initial(s) && Legal(s, acts)
    ensures Inv(After(s, acts))
  {
    InitialInv(s);
    RunInv(s, acts);
  }

  /** No lost wakeup: when the worker sleeps and nothing will wake it, every registered queue has had
      all its events handled. */
  lemma QuiescentIsDrained(s: State, q: Qid)
    requires Inv(s) && s.pc == Waiting && !s.runcond && q < |s.qs| && s.qs[q].sink
    ensures s.qs[q].events == [] && !s.qs[q].pending && s.qs[q].done == s.qs[q].posted && s.qs[q].held == 0
  {
    assert QueueInv(s, q);
  }

  // ---- an event that is posted is handled ----

  /** A step of the worker. */
  predicate Working(a: Action) {
    !a.Post? && !a.SetSink? && !a.Stop?
  }

  function Total(qs: seq<Queue>): nat {
    if qs == [] then 0 else Total(qs[..|qs| - 1]) + |qs[|qs| - 1].events|
  }

  lemma {:induction false} TotalPut(qs: seq<Queue>, q: Qid, x: Queue)
    requires q < |qs|
    ensures Total(qs[q := x]) == Total(qs) - |qs[q].events| + |x.events|
    decreases |qs|
  {
    var n := |qs| - 1;
    if q < n {
      assert qs[q := x][..n] == qs[..n][q := x];
      TotalPut(qs[..n], q, x);
    } else {
      assert qs[q := x][..n] == qs[..n];
    }
  }

  function Rank(pc: Pc): nat {
    match pc
    case Exited => 0
    case Waiting => 0
    case Picking => 1
    case Releasing(_) => 2
    case Finalizing(_) => 3
    case Stopping(_) => 4
    case Cycled(_) => 5
    case Drain(_) => 6
    case Handling(_, _) => 7
  }

  /** How many steps the worker has before it. */
  function Ahead(s: State): nat {
    2 * Total(s.qs) + 6 * |s.proc| + Rank(s.pc) + if s.pc == Waiting && s.runcond then 2 else 0
  }

  lemma WorkerStep(s: State, a: Action)
    requires Enabled(s, a) && Working(a)
    ensures Ahead(Next(s, a)) < Ahead(s)
    ensures var t := Next(s, a); t.stop == s.stop && (!s.stop ==> t.pc != Exited) && |t.qs| == |s.qs|
    ensures forall i :: 0 <= i < |s.qs| ==> Next(s, a).qs[i].posted == s.qs[i].posted
  {
    hide Total;
    if !a.Wake? && !a.Pick? && !a.CycleTrue? && !a.CycleFalse? && !a.Refuse? {
      TotalPut(s.qs, s.pc.q, Next(s, a).qs[s.pc.q]);
    }
  }

  /** The worker is never stuck: it can go on, unless it sleeps with nothing to do or has exited. */
  lemma WorkerCan(s: State) returns (a: Action)
    requires Inv(s) && s.pc != Exited && !(s.pc == Waiting && !s.runcond)
    ensures Working(a) && Enabled(s, a)
  {
    match s.pc
    case Waiting => a := Wake;
    case Picking => a := Pick;
    case Drain(_) => a := Take;
    case Handling(_, _) => a := Handle;
    case Cycled(_) => a := CycleTrue;
    case Stopping(_) => a := Unsink;
    case Finalizing(_) => a := Finalize;
    case Releasing(q) => assert QueueInv(s, q); a := Release;
  }

  predicate AllWorking(acts: seq<Action>) {
    forall i :: 0 <= i < |acts| ==> Working(acts[i])
  }

  /** Left alone, the worker comes to rest: it makes at most Ahead(s) steps, whatever the handlers do. */
  lemma {:induction false} WorkerRests(s: State, acts: seq<Action>)
    requires Legal(s, acts) && AllWorking(acts)
    ensures var t := After(s, acts);
      && |acts| + Ahead(t) <= Ahead(s)
      && t.stop == s.stop && (!s.stop && s.pc != Exited ==> t.pc != Exited)
      && |t.qs| == |s.qs| && forall i :: 0 <= i < |s.qs| ==> t.qs[i].posted == s.qs[i].posted
    decreases |acts|
  {
    hide Ahead, Enabled, Next;
    if acts != [] {
      assert Working(acts[0]);
      WorkerStep(s, acts[0]);
      WorkerRests(Next(s, acts[0]), acts[1..]);
    }
  }

  /** An event is posted in any state of any run, the worker not being told to stop. Then it goes on for as long as
      it can, which is not for ever. If the queue is registered at the end, the event has been handled, once, after
      all that was posted before it. */
  lemma Delivered(s: State, q: Qid, ev: Ev, acts: seq<Action>)
    requires Inv(s) && q < |s.qs| && !s.stop && s.pc != Exited
    requires var t := Next(s, Post(q, Some(ev)));
      && Legal(t, acts) && AllWorking(acts)
      && (forall a :: Working(a) ==> !Enabled(After(t, acts), a))
      && q < |After(t, acts).qs| && After(t, acts).qs[q].sink
    ensures var t := Next(s, Post(q, Some(ev)));
      |acts| <= Ahead(t) && After(t, acts).qs[q].done == s.qs[q].posted + [ev]
  {
    hide Inv, Legal, After, Enabled, Ahead;
    assert Enabled(s, Post(q, Some(ev))) by { CanPost(s, q, Some(ev)); }
    var t := Next(s, Post(q, Some(ev)));
    PostInv(s, q, Some(ev));
    PostDoes(s, q, Some(ev));
    RunInv(t, acts);
    WorkerRests(t, acts);
    var r := After(t, acts);
    if !(r.pc == Waiting && !r.runcond) {
      var a := WorkerCan(r);
      assert false;
    }
    QuiescentIsDrained(r, q);
  }

  lemma CanPost(s: State, q: Qid, ev: Option<Ev>)
    ensures Enabled(s, Post(q, ev)) <==> q < |s.qs|
  {
  }

  /** postEvent appends to the one queue; other queues are as before. */
  lemma PostDoes(s: State, q: Qid, ev: Option<Ev>)
    requires q < |s.qs|
    ensures var t := Next(s, Post(q, ev));
      && t.stop == s.stop && t.pc == s.pc && |t.qs| == |s.qs|
      && t.qs[q].posted == s.qs[q].posted + (if ev.Some? then [ev.value] else [])
      && t.qs[q].done == s.qs[q].done && t.qs[q].sink == s.qs[q].sink
      && forall i :: 0 <= i < |s.qs| && i != q ==> t.qs[i] == s.qs[i]
  {
  }

  /** A registered queue is listed exactly if it is pending, with a reference for the worker, which is then woken. */
  lemma SetSinkDoes(s: State, q: Qid)
    requires q < |s.qs|
    ensures var t, listed := Next(s, SetSink(q)), if s.qs[q].pending then [q] else [];
      && t.qs[q] == s.qs[q].(sink := true, held := s.qs[q].held + |listed|)
      && t.proc == s.proc + listed && t.runcond == (s.runcond || listed != []) && t.pc == s.pc
      && |t.qs| == |s.qs| && forall i :: 0 <= i < |s.qs| && i != q ==> t.qs[i] == s.qs[i]
  {
  }

  // ---- how often a queue is finalized, whether its finalize sets the flag or not ----

  /** q was unregistered by the worker at the end of a cycle. */
  predicate Over(s: State, q: Qid)
    requires q < |s.qs|
  {
    s.qs[q].finals > 0 || s.pc == Finalizing(q)
  }

  /** When the worker unregisters q, q is not listed again already; once over, q is not registered again. */
  predicate Clean(s: State, a: Action, q: Qid)
    requires q < |s.qs|
  {
    && (a == Unsink && s.pc == Stopping(q) ==> q !in s.proc)
    && (a == SetSink(q) ==> !Over(s, q))
  }

  predicate CleanRun(s: State, acts: seq<Action>, q: Qid)
    requires Legal(s, acts) && q < |s.qs|
    decreases |acts|
  {
    acts == [] || (Clean(s, acts[0], q) && CleanRun(Next(s, acts[0]), acts[1..], q))
  }

  /** A queue that is over is out of the worker's sight for good. */
  ghost predicate Once(s: State, q: Qid)
    requires q < |s.qs|
  {
    && s.qs[q].finals <= 1
    && (s.pc == Finalizing(q) ==> s.qs[q].finals == 0)
    && (Over(s, q) ==>
          !s.qs[q].sink && q !in s.proc && (s.pc.Runs(q) ==> s.pc == Finalizing(q) || s.pc == Releasing(q)))
  }

  lemma OnceNotified(s: State, a: Action, q: Qid)
    requires q < |s.qs| && (a.Post? || a.SetSink?) && Enabled(s, a) && Clean(s, a, q) && Once(s, q)
    ensures |Next(s, a).qs| == |s.qs| && Once(Next(s, a), q)
  {
  }

  lemma OnceWorked(s: State, a: Action, q: Qid)
    requires q < |s.qs| && !a.Post? && !a.SetSink? && Enabled(s, a) && Clean(s, a, q) && Once(s, q)
    ensures |Next(s, a).qs| == |s.qs| && Once(Next(s, a), q)
  {
    if a.Pick? && s.proc != [] {
      assert forall i :: 0 <= i < |s.proc| - 1 ==> s.proc[1..][i] in s.proc;
    }
  }

  lemma OnceStep(s: State, a: Action, q: Qid)
    requires q < |s.qs| && Enabled(s, a) && Clean(s, a, q) && Once(s, q)
    ensures |Next(s, a).qs| == |s.qs| && Once(Next(s, a), q)
  {
    if a.Post? || a.SetSink? { OnceNotified(s, a, q); } else { OnceWorked(s, a, q); }
  }

  lemma {:induction false} OnceRun(s: State, acts: seq<Action>, q: Qid)
    requires q < |s.qs| && Legal(s, acts) && CleanRun(s, acts, q) && Once(s, q)
    ensures |After(s, acts).qs| == |s.qs| && Once(After(s, acts), q)
    decreases |acts|
  {
    hide Once;
    if acts != [] {
      OnceStep(s, acts[0], q);
      OnceRun(Next(s, acts[0]), acts[1..], q);
    }
  }

  /** A queue is finalized at most once, sessions included, if it is never listed again when the worker unregisters
      it and not registered again afterwards. */
  lemma FinalizedOnce(s: State, acts: seq<Action>, q: Qid)
    requires Initial(s) && q < |s.qs| && Legal(s, acts) && CleanRun(s, acts, q)
    ensures |After(s, acts).qs| == |s.qs| && After(s, acts).qs[q].finals <= 1
  {
    OnceRun(s, acts, q);
  }

  /** A session that has ended looks at no event: its cycles refuse at once. */
  predicate RefusingRun(s: State, acts: seq<Action>, q: Qid)
    requires Legal(s, acts)
    decreases |acts|
  {
    acts == [] || (!(acts[0].Take? && s.pc == Drain(q)) && RefusingRun(Next(s, acts[0]), acts[1..], q))
  }

  /** q has been finalized n times at least, or the worker has yet to do so. */
  ghost predicate Owed(s: State, q: Qid, n: nat)
    requires q < |s.qs|
  {
    var x := s.qs[q];
    var ending := s.pc == Stopping(q) || s.pc == Finalizing(q);
    && !x.marks && !x.finalized
    && (|| x.finals >= n
        || (x.finals == n - 1 && (q in s.proc || s.pc == Drain(q) || ending))
        || (x.finals == n - 2 && q in s.proc && ending))
  }

  lemma OwedNotified(s: State, a: Action, q: Qid, n: nat)
    requires q < |s.qs| && (a.Post? || a.SetSink?) && Enabled(s, a) && Owed(s, q, n)
    ensures |Next(s, a).qs| == |s.qs| && Owed(Next(s, a), q, n)
  {
    Listed(s.proc, a.q);
  }

  lemma OwedWorked(s: State, a: Action, q: Qid, n: nat)
    requires q < |s.qs| && !a.Post? && !a.SetSink? && Enabled(s, a) && Owed(s, q, n) && !(a.Take? && s.pc == Drain(q))
    ensures |Next(s, a).qs| == |s.qs| && Owed(Next(s, a), q, n)
  {
    if a.Pick? && s.proc != [] {
      assert s.proc == [s.proc[0]] + s.proc[1..];
    }
  }

  lemma OwedStep(s: State, a: Action, q: Qid, n: nat)
    requires q < |s.qs| && Enabled(s, a) && Owed(s, q, n) && !(a.Take? && s.pc == Drain(q))
    ensures |Next(s, a).qs| == |s.qs| && Owed(Next(s, a), q, n)
  {
    hide Owed;
    if a.Post? || a.SetSink? { OwedNotified(s, a, q, n); } else { OwedWorked(s, a, q, n); }
  }

  lemma {:induction false} OwedRun(s: State, acts: seq<Action>, q: Qid, n: nat)
    requires q < |s.qs| && Legal(s, acts) && RefusingRun(s, acts, q) && Owed(s, q, n)
    ensures |After(s, acts).qs| == |s.qs| && Owed(After(s, acts), q, n)
    decreases |acts|
  {
    hide Owed;
    if acts != [] {
      OwedStep(s, acts[0], q, n);
      OwedRun(Next(s, acts[0]), acts[1..], q, n);
    }
  }

  /** Conversely, a session that is listed again when the worker is about to unregister it is finalized twice more
      by the time the worker has done with it, whatever happens meanwhile. */
  lemma FinalizedAgain(s: State, acts: seq<Action>, q: Qid)
    requires q < |s.qs| && s.pc == Stopping(q) && q in s.proc && !s.qs[q].marks && !s.qs[q].finalized
    requires Legal(s, acts) && RefusingRun(s, acts, q)
    requires q !in After(s, acts).proc && !After(s, acts).pc.Runs(q)
    ensures |After(s, acts).qs| == |s.qs| && After(s, acts).qs[q].finals >= s.qs[q].finals + 2
  {
    OwedRun(s, acts, q, s.qs[q].finals + 2);
  }

  lemma Then(s: State, acts: seq<Action>, a: Action)
    requires Legal(s, acts) && Enabled(After(s, acts), a)
    ensures Legal(s, acts + [a]) && After(s, acts + [a]) == Next(After(s, acts), a)
    decreases |acts|
  {
    if acts == [] {
      assert (acts + [a])[1..] == [];
    } else {
      assert (acts + [a])[1..] == acts[1..] + [a];
      Then(Next(s, acts[0]), acts[1..], a);
    }
  }

  /** A session overrides finalize without setting the flag. A post that slips in between the end of
      the cycle and the unregistering puts the queue up for another round, and it is finalized twice. */
  lemma FinalizedTwice() returns (s: State, acts: seq<Action>)
    ensures Initial(s) && Legal(s, acts) && |After(s, acts).qs| == 1 && After(s, acts).qs[0].finals == 2
  {
    s := State([Queue([], false, false, false, false, 0, [], [], 0)], [], false, false, Waiting);
    acts := SecondPick(s);
    Then(s, acts, Refuse);
    acts := acts + [Refuse];
    Then(s, acts, Unsink);
    acts := acts + [Unsink];
    Then(s, acts, Finalize);
    acts := acts + [Finalize];
  }

  lemma SecondPick(s: State) returns (acts: seq<Action>)
    requires s == State([Queue([], false, false, false, false, 0, [], [], 0)], [], false, false, Waiting)
    ensures Legal(s, acts)
    ensures After(s, acts) == State([Queue([7], true, false, false, false, 1, [7], [], 1)], [], true, false, Drain(0))
  {
    acts := FirstFinalize(s);
    Then(s, acts, Release);
    acts := acts + [Release];
    Then(s, acts, Pick);
    acts := acts + [Pick];
  }

  lemma FirstFinalize(s: State) returns (acts: seq<Action>)
    requires s == State([Queue([], false, false, false, false, 0, [], [], 0)], [], false, false, Waiting)
    ensures Legal(s, acts)
    ensures After(s, acts) == State([Queue([7], true, false, false, false, 2, [7], [], 1)], [0], true, false, Releasing(0))
  {
    acts := FirstCycle(s);
    Then(s, acts, Post(0, Some(7)));
    acts := acts + [Post(0, Some(7))];
    var none: seq<Ev> := [];
    assert none + [7] == [7];
    assert After(s, acts) == State([Queue([7], true, true, false, false, 2, [7], [], 0)], [0], true, false, Cycled(0));
    Then(s, acts, CycleFalse);
    acts := acts + [CycleFalse];
    Then(s, acts, Unsink);
    acts := acts + [Unsink];
    assert After(s, acts) == State([Queue([7], true, false, false, false, 2, [7], [], 0)], [0], true, false, Finalizing(0));
    Then(s, acts, Finalize);
    acts := acts + [Finalize];
  }

  lemma FirstCycle(s: State) returns (acts: seq<Action>)
    requires s == State([Queue([], false, false, false, false, 0, [], [], 0)], [], false, false, Waiting)
    ensures Legal(s, acts)
    ensures After(s, acts) == State([Queue([], false, true, false, false, 1, [], [], 0)], [], true, false, Cycled(0))
  {
    var x := s.qs[0];
    acts := [];
    Then(s, acts, SetSink(0));
    acts := acts + [SetSink(0)];
    Then(s, acts, Post(0, None));
    acts := acts + [Post(0, None)];
    assert After(s, acts) == State([x.(sink := true, pending := true, held := 1)], [0], true, false, Waiting);
    Then(s, acts, Wake);
    acts := acts + [Wake];
    Then(s, acts, Pick);
    acts := acts + [Pick];
    Then(s, acts, Take);
    acts := acts + [Take];
  }

  // ---- the objects ----

  function Flat(xs: seq<seq<Ev>>): seq<Ev> {
    if xs == [] then [] else Flat(xs[..|xs| - 1]) + xs[|xs| - 1]
  }

  lemma FlatNone(xs: seq<seq<Ev>>)
    requires xs == []
    ensures Flat(xs) == []
  {
  }

  lemma FlatNext(xs: seq<seq<Ev>>, i: nat)
    requires i < |xs|
    ensures Flat(xs[..i + 1]) == Flat(xs[..i]) + xs[i]
  {
    assert xs[..i + 1][..i] == xs[..i];
  }

  /** One event handled and some more posted: nothing is lost and nothing changes places. */
  lemma TurnKeeps(done: seq<Ev>, e: Ev, rest: seq<Ev>, more: seq<Ev>, all: seq<Ev>)
    requires done + ([e] + rest) == all
    ensures done + [e] + rest == all && done + [e] + (rest + more) == all + more
  {
    assert done + ([e] + rest) == done + [e] + rest;
    assert done + [e] + (rest + more) == done + [e] + rest + more;
  }

  /** AmEventQueue. The history fields of the model are ghost here. */
  class EventQueue {
    var events: seq<Ev>
    var pending: bool
    var wakeup: Worker?
    var finalized: bool
    var held: nat
    const marks: bool
    ghost var finals: nat
    ghost var posted: seq<Ev>
    ghost var done: seq<Ev>

    ghost function View(): Queue
      reads this
    {
      Queue(events, pending, wakeup != null, finalized, marks, held, posted, done, finals)
    }

    constructor (marks: bool)
      ensures View() == Queue([], false, false, false, marks, 0, [], [], 0)
    {
      events, pending, wakeup, finalized, held, posted, done, finals := [], false, null, false, 0, [], [], 0;
      this.marks := marks;
    }

    method PostEvent(ev: Option<Ev>)
      modifies this, wakeup
      ensures wakeup == old(wakeup)
      ensures View() == Posted(old(View()), ev).0.(held := old(held) + if Posted(old(View()), ev).1 then 1 else 0)
      ensures wakeup != null ==>
        && wakeup.queues == old(wakeup.queues) + (if Posted(old(View()), ev).1 then [this] else [])
        && wakeup.runcond == (old(wakeup.runcond) || Posted(old(View()), ev).1)
    {
      if ev.Some? {
        events := events + [ev.value];
        posted := posted + [ev.value];
      }
      if !pending {
        pending := true;
        if wakeup != null {
          wakeup.Notify(this);
        }
      }
    }

    method SetEventNotificationSink(w: Worker?)
      modifies this, w
      ensures wakeup == w
      ensures View() == old(View()).(sink := w != null, held := old(held) + if w != null && pending then 1 else 0)
      ensures w != null ==>
        && w.queues == old(w.queues) + (if pending then [this] else [])
        && w.runcond == (old(w.runcond) || pending)
    {
      wakeup := w;
      if w != null && pending {
        w.Notify(this);
      }
    }

    method PostAll(evs: seq<Ev>)
      requires pending
      modifies this`events, this`posted
      ensures events == old(events) + evs && posted == old(posted) + evs
    {
      for i := 0 to |evs|
        invariant events == old(events) + evs[..i] && posted == old(posted) + evs[..i] && pending
      {
        events, posted := events + [evs[i]], posted + [evs[i]];
      }
      assert evs[..|evs|] == evs;
    }

    /** processEvents of a pending queue, while others post: others[i] are the events posted while the i-th event is
        handled. The flag is up until the queue is found empty, so those posts notify nobody; all events queued and
        posted meanwhile are handled, in order. */
    method ProcessEvents(others: seq<seq<Ev>>) returns (handled: seq<Ev>, ghost turns: nat)
      requires pending
      modifies this`events, this`pending, this`done, this`posted
      ensures turns == if |handled| < |others| then |handled| else |others|
      ensures handled == old(events) + Flat(others[..turns]) && events == [] && !pending
      ensures done == old(done) + handled && posted == old(posted) + Flat(others[..turns])
    {
      hide Flat;
      handled, turns := [], 0;
      var i := 0;
      assert Flat(others[..0]) == [] by { FlatNone(others[..0]); }
      while events != []
        invariant 0 <= i <= |others| && turns == i && pending && i == (if |handled| < |others| then |handled| else |others|)
        invariant handled + events == old(events) + Flat(others[..i]) && done == old(done) + handled
        invariant posted == old(posted) + Flat(others[..i])
        decreases |others| - i, |events|
      {
        ghost var all := handled + events;
        var event := events[0];
        assert events == [event] + events[1..];
        TurnKeeps(handled, event, events[1..], if i < |others| then others[i] else [], all);
        events := events[1..];
        handled, done := handled + [event], done + [event];
        if i < |others| {
          PostAll(others[i]);
          FlatNext(others, i);
          i, turns := i + 1, turns + 1;
        }
      }
      pending := false;
    }

    /** AmEventQueue::finalize sets the flag, AmSession::finalize does not. */
    method Finalize()
      modifies this`finalized, this`finals
      ensures finalized == marks && finals == old(finals) + 1
    {
      finalized := marks;
      finals := finals + 1;
    }
  }

  /** EventQueueWorker */
  class Worker {
    var queues: seq<EventQueue>
    var runcond: bool

    constructor ()
      ensures queues == [] && !runcond
    {
      queues, runcond := [], false;
    }

    method Notify(sender: EventQueue)
      modifies this, sender`held
      ensures queues == old(queues) + [sender] && runcond && sender.held == old(sender.held) + 1
    {
      queues := queues + [sender];
      sender.held := sender.held + 1;
      runcond := true;
    }

    /** The locked part of the run loop: the next queue, or back to sleep. */
    method PickQueue() returns (q: EventQueue?)
      modifies this
      ensures old(queues) != [] ==> q == old(queues)[0] && queues == old(queues)[1..] && runcond == old(runcond)
      ensures old(queues) == [] ==> q == null && queues == [] && !runcond
    {
      if queues != [] {
        q := queues[0];
        queues := queues[1..];
      } else {
        q := null;
        runcond := false;
      }
    }

    /** One round for a queue, while others post until it is empty: a queue whose cycle ends is unregistered and,
        unless its flag is set, finalized, and the reference taken by notify is given back. */
    method RunQueue(q: EventQueue, goOn: bool, others: seq<seq<Ev>>) returns (handled: seq<Ev>, ghost turns: nat)
      requires q.held > 0 && q.pending
      modifies q
      ensures turns == if |handled| < |others| then |handled| else |others|
      ensures handled == old(q.events) + Flat(others[..turns]) && q.events == [] && !q.pending && q.done == old(q.done) + handled
      ensures q.held == old(q.held) - 1 && q.wakeup == if goOn then old(q.wakeup) else null
      ensures q.finals == old(q.finals) + if goOn || old(q.finalized) then 0 else 1
      ensures q.finalized == if goOn || old(q.finalized) then old(q.finalized) else q.marks
    {
      handled, turns := q.ProcessEvents(others);
      if !goOn {
        q.SetEventNotificationSink(null);
        if !q.finalized {
          q.Finalize();
        }
      }
      q.held := q.held - 1;
    }
  }
}
