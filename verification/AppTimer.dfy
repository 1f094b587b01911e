/** Application timers: the race between the expiry of a timer and its being set again or removed. */
module AppTimer {

  import opened Collections

  type Name = string
  /** A timer object; every setTimer makes a new one. */
  type Timer = nat

  type Timers = map<Name, map<int, Timer>>

  function Lookup(m: Timers, q: Name, id: int): Option<Timer> {
    if q in m && id in m[q] then Some(m[q][id]) else None
  }

  /** erase_timer: an inner map that becomes empty goes too. */
  function Erased(m: Timers, q: Name, id: int): Timers {
    if q in m && id in m[q] then
      var inner := m[q] - {id};
      if inner == map[] then m - {q} else m[q := inner]
    else m
  }

  /** user_timers[q][id] = t */
  function Put(m: Timers, q: Name, id: int, t: Timer): Timers {
    m[q := (if q in m then m[q] else map[])[id := t]]
  }

  predicate NoEmpty(m: Timers) {
    forall q :: q in m ==> m[q] != map[]
  }

  lemma ErasedLookup(m: Timers, q: Name, id: int)
    requires NoEmpty(m)
    ensures NoEmpty(Erased(m, q, id))
    ensures forall p, i :: Lookup(Erased(m, q, id), p, i) == if p == q && i == id then None else Lookup(m, p, i)
  {
    if q in m && id in m[q] {
      var inner := m[q] - {id};
      assert forall i :: i in m[q] && i != id ==> i in inner;
    }
  }

  lemma PutLookup(m: Timers, q: Name, id: int, t: Timer)
    requires NoEmpty(m)
    ensures NoEmpty(Put(m, q, id, t))
    ensures forall p, i :: Lookup(Put(m, q, id, t), p, i) == if p == q && i == id then Some(t) else Lookup(m, p, i)
  {
    assert id in Put(m, q, id, t)[q];
  }

  /** A timeout event posted for (q, id) by timer object t. */
  datatype Timeout = Timeout(q: Name, id: int, t: Timer)

  /** armed: in the wheel, or to be put there; asked: its removal is requested of the wheel, which has yet to do it;
      firing: taken from the wheel, callback not yet run. key and log are history. */
  datatype State = State(
    timers: Timers, armed: set<Timer>, asked: set<Timer>, firing: set<Timer>, next: Timer,
    key: map<Timer, (Name, int)>, log: seq<Timeout>)

  const START: State := State(map[], {}, {}, {}, 0, map[], [])

  function Dropped(s: State, q: Name, id: int): State {
    var t := Lookup(s.timers, q, id);
    s.(timers := Erased(s.timers, q, id), asked := if t.Some? then s.asked + {t.value} else s.asked)
  }

  /** setTimer */
  function Set(s: State, q: Name, id: int): State {
    var r := Dropped(s, q, id);
    r.(timers := Put(r.timers, q, id, s.next), armed := r.armed + {s.next}, next := s.next + 1,
       key := r.key[s.next := (q, id)])
  }

  /** removeTimers */
  function DroppedAll(s: State, q: Name): State {
    if q in s.timers then s.(timers := s.timers - {q}, asked := s.asked + (set i | i in s.timers[q] :: s.timers[q][i]))
    else s
  }

  /** app_timer_cb on a timer whose object carries the key (q, id). */
  function CalledBack(s: State, t: Timer, q: Name, id: int): State {
    var r := s.(firing := s.firing - {t});
    match Lookup(s.timers, q, id)
    case None => r
    case Some(u) =>
      if u != t then r.(timers := Put(Erased(s.timers, q, id), q, id, u))
      else r.(timers := Erased(s.timers, q, id), log := s.log + [Timeout(q, id, t)])
  }

  datatype Action =
    | SetTimer(q: Name, id: int) | RemoveTimer(q: Name, id: int) | RemoveTimers(q: Name)
    | Fire(t: Timer) | Callback(t: Timer) | Discard(t: Timer)

  predicate Enabled(s: State, a: Action) {
    match a
    // also when its removal is requested already
    case Fire(t) => t in s.armed
    case Discard(t) => t in s.asked
    case Callback(t) => t in s.firing && t in s.key
    case _ => true
  }

  function Next(s: State, a: Action): State
    requires Enabled(s, a)
  {
    match a
    case SetTimer(q, id) => Set(s, q, id)
    case RemoveTimer(q, id) => Dropped(s, q, id)
    case RemoveTimers(q) => DroppedAll(s, q)
    case Fire(t) => s.(armed := s.armed - {t}, firing := s.firing + {t})
    case Callback(t) => CalledBack(s, t, s.key[t].0, s.key[t].1)
    case Discard(t) => s.(armed := s.armed - {t}, asked := s.asked - {t})
  }

  // ---- invariant ----

  /** t is the timer in force for its key. */
  ghost predicate InForce(s: State, t: Timer) {
    t in s.key && Lookup(s.timers, s.key[t].0, s.key[t].1) == Some(t)
  }

  ghost predicate Inv(s: State) {
    && NoEmpty(s.timers)
    && (forall t :: t in s.key ==> t < s.next)
    && (forall q, i :: Lookup(s.timers, q, i).Some? ==>
          Lookup(s.timers, q, i).value in s.key && s.key[Lookup(s.timers, q, i).value] == (q, i))
    // a timer in force is armed or its callback is under way; one that is armed though not in force is asked for
    && (forall t :: InForce(s, t) ==> t in s.armed || t in s.firing)
    && (forall t :: t in s.armed ==> t in s.key && (InForce(s, t) || t in s.asked))
    && (forall t :: t in s.asked ==> t in s.key && !InForce(s, t))
    && (forall t :: t in s.firing ==> t in s.key && t !in s.armed)
    // a timeout was posted for the key of its timer, once, and that timer is gone
    && (forall i :: 0 <= i < |s.log| ==> s.log[i].t in s.key && s.key[s.log[i].t] == (s.log[i].q, s.log[i].id))
    && (forall i :: 0 <= i < |s.log| ==> !InForce(s, s.log[i].t) && s.log[i].t !in s.firing && s.log[i].t !in s.armed)
    && (forall i, j :: 0 <= i < j < |s.log| ==> s.log[i].t != s.log[j].t)
  }

  lemma DroppedInv(s: State, q: Name, id: int)
    requires Inv(s)
    ensures Inv(Dropped(s, q, id)) && Lookup(Dropped(s, q, id).timers, q, id) == None
    ensures forall t :: t in s.key && s.key[t] != (q, id) ==> (InForce(Dropped(s, q, id), t) <==> InForce(s, t))
  {
    ErasedLookup(s.timers, q, id);
    var r := Dropped(s, q, id);
    assert forall t :: t in s.key ==> (InForce(r, t) <==> InForce(s, t) && s.key[t] != (q, id));
  }

  lemma SetInv(s: State, q: Name, id: int)
    requires Inv(s)
    ensures Inv(Set(s, q, id))
  {
    DroppedInv(s, q, id);
    hide Inv, Put, Lookup;
    NewInv(Dropped(s, q, id), q, id);
  }

  /** A new timer under a key that has none. */
  lemma NewInv(r: State, q: Name, id: int)
    requires Inv(r) && Lookup(r.timers, q, id) == None
    ensures Inv(r.(timers := Put(r.timers, q, id, r.next), armed := r.armed + {r.next}, next := r.next + 1, key := r.key[r.next := (q, id)]))
  {
    hide Put, Lookup, NoEmpty;
    PutLookup(r.timers, q, id, r.next);
    var v := r.(timers := Put(r.timers, q, id, r.next), armed := r.armed + {r.next}, next := r.next + 1, key := r.key[r.next := (q, id)]);
    assert r.next !in r.key && InForce(v, r.next);
    assert forall t :: t in r.key ==> (InForce(v, t) <==> InForce(r, t));
  }

  lemma DroppedAllInv(s: State, q: Name)
    requires Inv(s)
    ensures Inv(DroppedAll(s, q)) && q !in DroppedAll(s, q).timers
  {
    var r := DroppedAll(s, q);
    assert forall p, i :: Lookup(r.timers, p, i) == if p == q then None else Lookup(s.timers, p, i);
    assert forall t :: t in s.key ==> (InForce(r, t) <==> InForce(s, t) && s.key[t].0 != q);
    if q in s.timers {
      var gone := set i | i in s.timers[q] :: s.timers[q][i];
      forall t | InForce(s, t) && s.key[t].0 == q ensures t in gone {
        assert s.timers[q][s.key[t].1] == t;
      }
      forall t | t in gone ensures t in s.key && s.key[t].0 == q {
        var i :| i in s.timers[q] && s.timers[q][i] == t;
        assert Lookup(s.timers, q, i) == Some(t);
      }
    }
  }

  lemma FireInv(s: State, t: Timer)
    requires Inv(s) && t in s.armed
    ensures Inv(Next(s, Fire(t)))
  {
    var r := Next(s, Fire(t));
    assert forall u :: InForce(r, u) <==> InForce(s, u);
  }

  lemma DiscardInv(s: State, t: Timer)
    requires Inv(s) && t in s.asked
    ensures Inv(Next(s, Discard(t)))
  {
    var r := Next(s, Discard(t));
    assert forall u :: InForce(r, u) <==> InForce(s, u);
  }

  lemma CallbackInv(s: State, t: Timer)
    requires Inv(s) && t in s.firing
    ensures Enabled(s, Callback(t)) && Inv(Next(s, Callback(t)))
  {
    hide Erased, Put, Lookup, NoEmpty;
    var (q, id) := s.key[t];
    var r := Next(s, Callback(t));
    ErasedLookup(s.timers, q, id);
    match Lookup(s.timers, q, id)
    case None => assert forall u :: InForce(r, u) <==> InForce(s, u);
    case Some(u) =>
      if u != t {
        PutLookup(Erased(s.timers, q, id), q, id, u);
        assert forall p, i :: Lookup(r.timers, p, i) == Lookup(s.timers, p, i);
        assert forall v :: InForce(r, v) <==> InForce(s, v);
      } else {
        assert InForce(s, t);
        assert forall v :: v in s.key ==> (InForce(r, v) <==> InForce(s, v) && v != t);
      }
  }

  lemma NextInv(s: State, a: Action)
    requires Inv(s) && Enabled(s, a)
    ensures Inv(Next(s, a))
  {
    match a
    case SetTimer(q, id) => SetInv(s, q, id);
    case RemoveTimer(q, id) => DroppedInv(s, q, id);
    case RemoveTimers(q) => DroppedAllInv(s, q);
    case Fire(t) => FireInv(s, t);
    case Callback(t) => CallbackInv(s, t);
    case Discard(t) => DiscardInv(s, t);
  }

  // ---- runs ----

  predicate Legal(s: State, acts: seq<Action>)
    decreases |acts|
  {
    acts == [] || (Enabled(s, acts[0]) && Legal(Next(s, acts[0]), acts[1..]))
  }

  function After(s: State, acts: seq<Action>): State
    requires Legal(s, acts)
    decreases |acts|
  {
    if acts == [] then s else After(Next(s, acts[0]), acts[1..])
  }

  /** Timeouts posted after the first n. */
  ghost predicate Silent(log: seq<Timeout>, n: nat, q: Name, id: int) {
    forall i :: n <= i < |log| ==> !(log[i].q == q && log[i].id == id)
  }

  ghost predicate Never(log: seq<Timeout>, n: nat, t: Timer) {
    forall i :: n <= i < |log| ==> log[i].t != t
  }

  /** In every interleaving: a timer in force is armed or about to call back, no inner map is empty, and
      every timer object, hence every setTimer, has posted at most one timeout, for its own key. */
  lemma {:induction false} RunInv(s: State, acts: seq<Action>)
    requires Inv(s) && Legal(s, acts)
    ensures Inv(After(s, acts)) && s.log <= After(s, acts).log
    decreases |acts|
  {
    if acts != [] {
      NextInv(s, acts[0]);
      RunInv(Next(s, acts[0]), acts[1..]);
    }
  }

  lemma StepRetired(s: State, a: Action, t: Timer)
    requires Inv(s) && Enabled(s, a) && t in s.key && !InForce(s, t)
    ensures var r := Next(s, a); t in r.key && r.key[t] == s.key[t] && !InForce(r, t) && s.log <= r.log && Never(r.log, |s.log|, t)
  {
    var (q, id) := s.key[t];
    match a
    case SetTimer(p, i) =>
      DroppedInv(s, p, i);
      PutLookup(Dropped(s, p, i).timers, p, i, s.next);
    case RemoveTimer(p, i) => ErasedLookup(s.timers, p, i);
    case RemoveTimers(p) =>
    case Fire(u) =>
    case Discard(u) =>
    case Callback(u) =>
      var (p, i) := s.key[u];
      ErasedLookup(s.timers, p, i);
      if Lookup(s.timers, p, i).Some? { PutLookup(Erased(s.timers, p, i), p, i, Lookup(s.timers, p, i).value); }
  }

  /** A timer object that was replaced or removed never posts, even when its expiry is already under way. */
  lemma {:induction false} RetiredNeverPosts(s: State, acts: seq<Action>, t: Timer)
    requires Inv(s) && Legal(s, acts) && t in s.key && !InForce(s, t)
    ensures Never(After(s, acts).log, |s.log|, t)
    decreases |acts|
  {
    if acts != [] {
      var r := Next(s, acts[0]);
      NextInv(s, acts[0]);
      StepRetired(s, acts[0], t);
      RetiredNeverPosts(r, acts[1..], t);
      RunInv(r, acts[1..]);
      assert forall i :: |s.log| <= i < |r.log| ==> After(s, acts).log[i] == r.log[i];
    }
  }

  lemma StepSilent(s: State, a: Action, q: Name, id: int)
    requires Inv(s) && Enabled(s, a) && Lookup(s.timers, q, id) == None && a != SetTimer(q, id)
    ensures var r := Next(s, a); Lookup(r.timers, q, id) == None && s.log <= r.log && Silent(r.log, |s.log|, q, id)
  {
    match a
    case SetTimer(p, i) =>
      DroppedInv(s, p, i);
      ErasedLookup(s.timers, p, i);
      PutLookup(Dropped(s, p, i).timers, p, i, s.next);
    case RemoveTimer(p, i) => ErasedLookup(s.timers, p, i);
    case RemoveTimers(p) =>
    case Fire(u) =>
    case Discard(u) =>
    case Callback(u) =>
      var (p, i) := s.key[u];
      ErasedLookup(s.timers, p, i);
      if Lookup(s.timers, p, i).Some? { PutLookup(Erased(s.timers, p, i), p, i, Lookup(s.timers, p, i).value); }
  }

  /** Once removeTimer has returned, nothing is posted for that key until it is set again. */
  lemma {:induction false} RemovedIsSilent(s: State, acts: seq<Action>, q: Name, id: int)
    requires Inv(s) && Legal(s, acts) && Lookup(s.timers, q, id) == None
    requires forall i :: 0 <= i < |acts| ==> acts[i] != SetTimer(q, id)
    ensures Silent(After(s, acts).log, |s.log|, q, id)
    decreases |acts|
  {
    if acts != [] {
      var r := Next(s, acts[0]);
      NextInv(s, acts[0]);
      StepSilent(s, acts[0], q, id);
      RemovedIsSilent(r, acts[1..], q, id);
      RunInv(r, acts[1..]);
      assert forall i :: |s.log| <= i < |r.log| ==> After(s, acts).log[i] == r.log[i];
    }
  }

  /** The expiry of a timer still in force posts its timeout. */
  lemma InForcePosts(s: State, t: Timer)
    requires Inv(s) && InForce(s, t) && t in s.firing
    ensures Next(s, Callback(t)).log == s.log + [Timeout(s.key[t].0, s.key[t].1, t)]
  {
  }

  /** setTimer puts a new timer in force for the key: mapped, armed, not to be removed. The timer it replaces is asked
      for, and no other key is touched. */
  lemma SetTakes(s: State, q: Name, id: int)
    requires Inv(s)
    ensures var r, t, u := Set(s, q, id), s.next, Lookup(s.timers, q, id);
      && t !in s.key && t in r.key && r.key[t] == (q, id) && InForce(r, t)
      && t in r.armed && t !in r.asked && t !in r.firing
      && (u.Some? ==> u.value in r.asked && !InForce(r, u.value))
      && (forall p, i :: Lookup(r.timers, p, i) == if p == q && i == id then Some(t) else Lookup(s.timers, p, i))
      && r.log == s.log
  {
    DroppedInv(s, q, id);
    ErasedLookup(s.timers, q, id);
    PutLookup(Dropped(s, q, id).timers, q, id, s.next);
  }

  /** removeTimer and removeTimers retire the timers of their keys, ask for them, and touch no other key. */
  lemma RemoveTakes(s: State, q: Name, id: int)
    requires Inv(s)
    ensures var r, u := Dropped(s, q, id), Lookup(s.timers, q, id);
      && (forall p, i :: Lookup(r.timers, p, i) == if p == q && i == id then None else Lookup(s.timers, p, i))
      && r.asked == s.asked + (if u.Some? then {u.value} else {})
    ensures var r := DroppedAll(s, q);
      && (forall p, i :: Lookup(r.timers, p, i) == if p == q then None else Lookup(s.timers, p, i))
      && (forall i :: Lookup(s.timers, q, i).Some? ==> Lookup(s.timers, q, i).value in r.asked)
  {
    ErasedLookup(s.timers, q, id);
  }

  /** t is in force for (q, id) and has not posted. */
  ghost predicate Standing(s: State, t: Timer, q: Name, id: int) {
    && InForce(s, t) && s.key[t] == (q, id) && t !in s.asked && (t in s.armed || t in s.firing)
    && forall i :: 0 <= i < |s.log| ==> s.log[i].t != t
  }

  predicate Touches(a: Action, q: Name, id: int) {
    a == SetTimer(q, id) || a == RemoveTimer(q, id) || a == RemoveTimers(q)
  }

  lemma StandingStep(s: State, a: Action, t: Timer, q: Name, id: int)
    requires Inv(s) && Enabled(s, a) && Standing(s, t, q, id) && !Touches(a, q, id)
    ensures var r := Next(s, a);
      && t in r.key && s.log <= r.log
      && if a == Callback(t) then r.log == s.log + [Timeout(q, id, t)] && !InForce(r, t) else Standing(r, t, q, id)
  {
    NextInv(s, a);
    match a
    case SetTimer(p, i) => SetTakes(s, p, i);
    case RemoveTimer(p, i) => RemoveTakes(s, p, i);
    case RemoveTimers(p) => RemoveTakes(s, p, 0);
    case Fire(u) =>
    case Discard(u) =>
    case Callback(u) =>
      var (p, i) := s.key[u];
      ErasedLookup(s.timers, p, i);
      if Lookup(s.timers, p, i).Some? { PutLookup(Erased(s.timers, p, i), p, i, Lookup(s.timers, p, i).value); }
  }

  /** Of the timeouts in log, the n-th is e, and no other comes from the same timer. */
  ghost predicate OnlyPost(log: seq<Timeout>, n: nat, e: Timeout) {
    n < |log| && log[n] == e && forall i :: 0 <= i < |log| && i != n ==> log[i].t != e.t
  }

  /** Once called back, t has posted exactly one timeout, for its key; until then it stands. */
  ghost predicate Kept(s: State, t: Timer, q: Name, id: int, calledBack: bool) {
    if calledBack then exists n :: 0 <= n < |s.log| && OnlyPost(s.log, n, Timeout(q, id, t)) else Standing(s, t, q, id)
  }

  /** After its callback nothing more comes from t. */
  lemma PostedOnce(s: State, acts: seq<Action>, t: Timer, q: Name, id: int, n: nat)
    requires Inv(s) && Legal(s, acts) && t in s.key && !InForce(s, t) && OnlyPost(s.log, n, Timeout(q, id, t))
    ensures Kept(After(s, acts), t, q, id, true)
  {
    RetiredNeverPosts(s, acts, t);
    RunInv(s, acts);
    assert OnlyPost(After(s, acts).log, n, Timeout(q, id, t));
  }

  /** A timer that stands, and whose key is neither set again nor removed, is kept. */
  lemma {:induction false} StandingPosts(s: State, acts: seq<Action>, t: Timer, q: Name, id: int)
    requires Inv(s) && Legal(s, acts) && Standing(s, t, q, id)
    requires forall i :: 0 <= i < |acts| ==> !Touches(acts[i], q, id)
    ensures Kept(After(s, acts), t, q, id, Callback(t) in acts)
    decreases |acts|
  {
    hide Inv, Kept, Next, Enabled;
    if acts == [] {
      Stands(s, t, q, id);
    } else {
      var r := Next(s, acts[0]);
      NextInv(s, acts[0]);
      StandingStep(s, acts[0], t, q, id);
      assert acts == [acts[0]] + acts[1..];
      if acts[0] == Callback(t) {
        assert OnlyPost(r.log, |s.log|, Timeout(q, id, t));
        PostedOnce(r, acts[1..], t, q, id, |s.log|);
      } else {
        StandingPosts(r, acts[1..], t, q, id);
      }
    }
  }

  lemma Stands(s: State, t: Timer, q: Name, id: int)
    requires Standing(s, t, q, id)
    ensures Kept(s, t, q, id, false)
  {
  }

  /** A timer that is set, and neither set again nor removed, stays in force until its callback, and with its callback
      it has posted exactly one timeout, for its key. */
  lemma SetFires(s: State, q: Name, id: int, acts: seq<Action>)
    requires Inv(s) && Legal(Set(s, q, id), acts) && forall i :: 0 <= i < |acts| ==> !Touches(acts[i], q, id)
    ensures Kept(After(Set(s, q, id), acts), s.next, q, id, Callback(s.next) in acts)
  {
    SetTakes(s, q, id);
    SetInv(s, q, id);
    StandingPosts(Set(s, q, id), acts, s.next, q, id);
  }

  /** At any time a timer that stands can expire, and that posts its timeout. */
  lemma StandingExpires(s: State, t: Timer, q: Name, id: int)
    requires Inv(s) && Standing(s, t, q, id)
    ensures var acts := if t in s.armed then [Fire(t), Callback(t)] else [Callback(t)];
      Legal(s, acts) && After(s, acts).log == s.log + [Timeout(q, id, t)]
  {
    var acts := if t in s.armed then [Fire(t), Callback(t)] else [Callback(t)];
    if t in s.armed {
      NextInv(s, Fire(t));
      StandingStep(s, Fire(t), t, q, id);
      assert acts[1..] == [Callback(t)];
      CalledAlone(Next(s, Fire(t)), t, q, id);
    } else {
      CalledAlone(s, t, q, id);
    }
  }

  lemma CalledAlone(s: State, t: Timer, q: Name, id: int)
    requires Inv(s) && Standing(s, t, q, id) && t in s.firing
    ensures Legal(s, [Callback(t)]) && After(s, [Callback(t)]).log == s.log + [Timeout(q, id, t)]
  {
    StandingStep(s, Callback(t), t, q, id);
    assert [Callback(t)][1..] == [];
    hide Next;
    assert After(s, [Callback(t)]) == Next(s, Callback(t));
  }

  // ---- the timer service object ----

  class Service {
    var timers: Timers
    var armed: set<Timer>
    var asked: set<Timer>
    var firing: set<Timer>
    var next: Timer
    ghost var key: map<Timer, (Name, int)>
    var log: seq<Timeout>

    ghost function View(): State
      reads this
    {
      State(timers, armed, asked, firing, next, key, log)
    }

    constructor ()
      ensures View() == START
    {
      timers, armed, asked, firing, next, key, log := map[], {}, {}, {}, 0, map[], [];
    }

    method EraseTimer(q: Name, id: int) returns (res: Option<Timer>)
      modifies this`timers
      ensures res == Lookup(old(timers), q, id) && timers == Erased(old(timers), q, id)
    {
      res := None;
      if q in timers {
        var inner := timers[q];
        if id in inner {
          res := Some(inner[id]);
          inner := inner - {id};
          timers := if inner == map[] then timers - {q} else timers[q := inner];
        }
      }
    }

    method CreateTimer(q: Name, id: int) returns (t: Timer)
      modifies this`timers, this`next, this`key
      ensures t == old(next) && next == t + 1 && key == old(key)[t := (q, id)]
      ensures timers == Put(old(timers), q, id, t)
    {
      t := next;
      next := next + 1;
      key := key[t := (q, id)];
      timers := timers[q := (if q in timers then timers[q] else map[])[id := t]];
    }

    method SetTimer(q: Name, id: int)
      modifies this
      ensures View() == Set(old(View()), q, id)
    {
      var t := EraseTimer(q, id);
      if t.Some? {
        asked := asked + {t.value};
      }
      var u := CreateTimer(q, id);
      armed := armed + {u};
    }

    method RemoveTimer(q: Name, id: int)
      modifies this
      ensures View() == Dropped(old(View()), q, id)
    {
      var t := EraseTimer(q, id);
      if t.Some? {
        asked := asked + {t.value};
      }
    }

    method RemoveTimers(q: Name)
      modifies this
      ensures View() == DroppedAll(old(View()), q)
    {
      if q in timers {
        var inner := timers[q];
        var rest := inner.Keys;
        while |rest| > 0
          invariant rest <= inner.Keys && timers == old(timers) && View() == old(View()).(asked := asked)
          invariant asked == old(asked) + (set i | i in inner && i !in rest :: inner[i])
          decreases |rest|
        {
          ghost var w := Member(rest);
          var i :| i in rest;
          asked := asked + {inner[i]};
          rest := rest - {i};
        }
        timers := timers - {q};
        assert (set i | i in inner && i !in rest :: inner[i]) == (set i | i in inner :: inner[i]);
      }
    }

    /** app_timer_cb: q and id are read from the timer object. */
    method AppTimerCb(t: Timer, q: Name, id: int)
      modifies this
      ensures View() == CalledBack(old(View()), t, q, id)
    {
      firing := firing - {t};
      var local := EraseTimer(q, id);
      if local.Some? {
        if local.value != t {
          timers := timers[q := (if q in timers then timers[q] else map[])[id := local.value]];
        } else {
          log := log + [Timeout(q, id, t)];
        }
      }
    }
  }
}
