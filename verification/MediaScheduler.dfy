/** The media scheduler: call groups bound to threads, and per-thread request queues. A call updates the maps under
    the lock and posts its request to a thread after releasing it, so the two are separate steps. */
module MediaScheduler {

  import opened Collections

  type Session = int
  type Group = string

  datatype Kind = InsertSession | RemoveSession | SoftRemoveSession | ClearSession

  datatype Request = Request(kind: Kind, s: Session)

  /** A request on its way to thread t: the lock is released, the request not yet posted. */
  datatype Post = Post(t: nat, r: Request)

  /** `flight` lists the posts to come in the order of their map updates. `cleared` is history: sessions a thread
      has asked to clear by itself since they were added. */
  datatype State = State(
    threadOf: map<Group, nat>, members: multiset<(Group, Session)>, groupOf: map<Session, Group>,
    sessions: seq<set<Session>>, queues: seq<seq<Request>>, flight: seq<Post>, cleared: set<Session>)

  /** AmMediaProcessorThread::process */
  function Processed(x: set<Session>, r: Request): set<Session> {
    if r.kind == InsertSession then x + {r.s} else x - {r.s}
  }

  /** What a thread will hold once its queue is worked off. */
  function Replay(x: set<Session>, q: seq<Request>): set<Session> {
    if q == [] then x else Processed(Replay(x, q[..|q| - 1]), q[|q| - 1])
  }

  function Posted(s: State, t: nat, r: Request): State
    requires t < |s.queues|
  {
    s.(queues := s.queues[t := s.queues[t] + [r]])
  }

  /** The first thread of least load. */
  function LeastLoaded(loads: seq<nat>): (t: nat)
    requires loads != []
    ensures t < |loads|
    ensures forall i :: 0 <= i < |loads| ==> loads[t] <= loads[i]
    ensures forall i :: 0 <= i < t ==> loads[t] < loads[i]
  {
    if |loads| == 1 then 0
    else
      var n := |loads| - 1;
      var t := LeastLoaded(loads[..n]);
      assert forall i :: 0 <= i < n ==> loads[..n][i] == loads[i];
      if loads[n] < loads[t] then n else t
  }

  function Loads(s: State): seq<nat> {
    seq(|s.sessions|, i requires 0 <= i < |s.sessions| => |s.sessions[i]|)
  }

  predicate Shaped(s: State) {
    && |s.sessions| == |s.queues| > 0
    && forall g :: g in s.threadOf ==> s.threadOf[g] < |s.queues|
  }

  /** The thread addSession chooses for a group. */
  function Chosen(s: State, g: Group): (t: nat)
    requires Shaped(s)
    ensures t < |s.queues|
  {
    if g in s.threadOf then s.threadOf[g] else LeastLoaded(Loads(s))
  }

  /** The maps after addSession. */
  function Joined(s: State, x: Session, g: Group): State
    requires Shaped(s)
  {
    s.(threadOf := s.threadOf[g := Chosen(s, g)], members := s.members + multiset{(g, x)},
       groupOf := s.groupOf[x := g], cleared := s.cleared - {x})
  }

  /** addSession up to the unlock. */
  function AddBegun(s: State, x: Session, g: Group): State
    requires Shaped(s)
  {
    Joined(s, x, g).(flight := s.flight + [Post(Chosen(s, g), Request(InsertSession, x))])
  }

  /** addSession as one step. */
  function Added(s: State, x: Session, g: Group): State
    requires Shaped(s)
  {
    Posted(Joined(s, x, g), Chosen(s, g), Request(InsertSession, x))
  }

  /** Whether a group has members; the multimap's count. */
  predicate HasMembers(members: multiset<(Group, Session)>, g: Group) {
    exists m :: m in members && m.0 == g
  }

  /** Looking up a missing session inserts the default, the group "". */
  function GroupFor(s: State, x: Session): Group {
    if x in s.groupOf then s.groupOf[x] else ""
  }

  /** Looking up a missing group inserts the default, thread 0. */
  function ThreadFor(s: State, g: Group): nat {
    if g in s.threadOf then s.threadOf[g] else 0
  }

  /** The maps after removeFromProcessor; the entries the look-ups inserted are erased again. */
  function Left(s: State, x: Session): State {
    var g := GroupFor(s, x);
    var members := s.members - multiset{(g, x)};
    s.(threadOf := if HasMembers(members, g) then s.threadOf[g := ThreadFor(s, g)] else s.threadOf - {g},
       members := members, groupOf := s.groupOf - {x})
  }

  /** removeFromProcessor up to the unlock. */
  function RemoveBegun(s: State, x: Session, kind: Kind): State {
    Left(s, x).(flight := s.flight + [Post(ThreadFor(s, GroupFor(s, x)), Request(kind, x))])
  }

  /** removeFromProcessor as one step. */
  function Removed(s: State, x: Session, kind: Kind): State
    requires Shaped(s)
  {
    Posted(Left(s, x), ThreadFor(s, GroupFor(s, x)), Request(kind, x))
  }

  function Without(q: seq<Post>, i: nat): seq<Post>
    requires i < |q|
  {
    q[..i] + q[i + 1..]
  }

  /** The end of a call: its post arrives. */
  function Arrived(s: State, i: nat): State
    requires i < |s.flight| && s.flight[i].t < |s.queues|
  {
    Posted(s.(flight := Without(s.flight, i)), s.flight[i].t, s.flight[i].r)
  }

  lemma PutErase<K, V>(m: map<K, V>, k: K, v: V)
    ensures m[k := v] - {k} == m - {k}
  {
  }

  lemma PutSame<K, V>(m: map<K, V>, k: K)
    ensures k in m ==> m[k := m[k]] == m
  {
  }

  lemma LeftQueues(s: State, x: Session)
    ensures Left(s, x).queues == s.queues && Left(s, x).sessions == s.sessions && Left(s, x).flight == s.flight
  {
  }

  // ---- consistency ----

  /** Every session is a member of its group once, and of no other. */
  ghost predicate Counted(s: State) {
    forall g, x :: s.members[(g, x)] == if x in s.groupOf && s.groupOf[x] == g then 1 else 0
  }

  /** The three maps describe one assignment of sessions to groups and groups to threads. */
  ghost predicate Consistent(s: State) {
    && Shaped(s)
    && Counted(s)
    && (forall g :: g in s.threadOf <==> HasMembers(s.members, g))
  }

  /** The thread the maps assign to a session. */
  function Home(s: State, x: Session): Option<nat> {
    if x in s.groupOf && s.groupOf[x] in s.threadOf then Some(s.threadOf[s.groupOf[x]]) else None
  }

  /** What thread t will hold once its requests are worked off. */
  function Held(s: State, t: nat): set<Session>
    requires t < |s.sessions| == |s.queues|
  {
    Replay(s.sessions[t], s.queues[t])
  }

  /** The last post in flight for session x to thread t. */
  function Latest(q: seq<Post>, t: nat, x: Session): Option<Kind> {
    if q == [] then None
    else if q[|q| - 1].t == t && q[|q| - 1].r.s == x then Some(q[|q| - 1].r.kind)
    else Latest(q[..|q| - 1], t, x)
  }

  /** Thread t will hold x once all posts have arrived in order and all requests are worked off. */
  ghost predicate Bound(s: State, t: nat, x: Session)
    requires t < |s.sessions| == |s.queues|
  {
    match Latest(s.flight, t, x)
    case Some(kind) => kind == InsertSession
    case None => x in Held(s, t)
  }

  /** A session is bound at most for the thread of its group, and it is bound there unless that thread has thrown
      it out by itself. */
  ghost predicate Placed(s: State)
    requires |s.sessions| == |s.queues|
  {
    && (forall t, x :: 0 <= t < |s.queues| && Bound(s, t, x) ==> Home(s, x) == Some(t))
    && (forall x :: x in s.groupOf && x !in s.cleared ==> Settled(s, x))
  }

  ghost predicate Settled(s: State, x: Session)
    requires |s.sessions| == |s.queues|
  {
    Home(s, x).Some? && Home(s, x).value < |s.queues| && Bound(s, Home(s, x).value, x)
  }

  ghost predicate Aimed(s: State) {
    forall i :: 0 <= i < |s.flight| ==> s.flight[i].t < |s.queues|
  }

  ghost predicate Inv(s: State) {
    Consistent(s) && Aimed(s) && Placed(s)
  }

  lemma ReplayPost(x: set<Session>, q: seq<Request>, r: Request)
    ensures Replay(x, q + [r]) == Processed(Replay(x, q), r)
  {
    assert (q + [r])[..|q|] == q;
  }

  /** Working off the head of the queue does not change what the queue comes to. */
  lemma {:induction false} ReplayHead(x: set<Session>, q: seq<Request>)
    requires q != []
    ensures Replay(Processed(x, q[0]), q[1..]) == Replay(x, q)
    decreases |q|
  {
    if |q| == 1 {
      assert q[..0] == [] && q[1..] == [];
    } else {
      var n := |q| - 1;
      assert q[1..][..n - 1] == q[..n][1..];
      ReplayHead(x, q[..n]);
    }
  }

  /** A member is a registered session of that group. */
  lemma MemberIs(s: State, g: Group, x: Session)
    requires Consistent(s)
    ensures (g, x) in s.members <==> x in s.groupOf && s.groupOf[x] == g
    ensures x in s.groupOf && s.groupOf[x] == g ==> g in s.threadOf
  {
    assert s.members[(g, x)] == if x in s.groupOf && s.groupOf[x] == g then 1 else 0;
    if x in s.groupOf && s.groupOf[x] == g { assert (g, x) in s.members && (g, x).0 == g; }
  }

  /** Consistency is about the maps alone. */
  lemma SameMaps(s: State, r: State)
    requires Consistent(s) && Shaped(r)
    requires r.threadOf == s.threadOf && r.members == s.members && r.groupOf == s.groupOf
    ensures Consistent(r)
  {
  }

  lemma MembersGrow(m: multiset<(Group, Session)>, x: Session, g: Group, h: Group)
    ensures HasMembers(m + multiset{(g, x)}, h) <==> h == g || HasMembers(m, h)
  {
    var r := m + multiset{(g, x)};
    if h == g {
      assert (g, x) in r && (g, x).0 == g;
    } else {
      if HasMembers(m, h) {
        var e :| e in m && e.0 == h;
        assert e in r;
      }
      if HasMembers(r, h) {
        var e :| e in r && e.0 == h;
        assert e in m;
      }
    }
  }

  lemma JoinedConsistent(s: State, x: Session, g: Group)
    requires Consistent(s) && x !in s.groupOf
    ensures Consistent(Joined(s, x, g))
  {
    hide HasMembers;
    var r := Joined(s, x, g);
    assert Counted(r) by { JoinedCounted(s, x, g); }
    forall h ensures h in r.threadOf <==> HasMembers(r.members, h) { MembersGrow(s.members, x, g, h); }
  }

  lemma JoinedCounted(s: State, x: Session, g: Group)
    requires Shaped(s) && Counted(s) && x !in s.groupOf
    ensures Counted(Joined(s, x, g))
  {
    var r := Joined(s, x, g);
    forall h, y ensures r.members[(h, y)] == if y in r.groupOf && r.groupOf[y] == h then 1 else 0 {
      assert s.members[(h, y)] == if y in s.groupOf && s.groupOf[y] == h then 1 else 0;
    }
  }

  /** Adding a session keeps the maps consistent exactly when it was not registered. */
  lemma AddedConsistent(s: State, x: Session, g: Group)
    requires Consistent(s)
    ensures Consistent(Added(s, x, g)) <==> x !in s.groupOf
  {
    var r := Added(s, x, g);
    if x in s.groupOf {
      var h := s.groupOf[x];
      assert s.members[(h, x)] == 1;
      assert r.members[(h, x)] == if h == g then 2 else 1;
    } else {
      JoinedConsistent(s, x, g);
      SameMaps(Joined(s, x, g), r);
    }
  }

  lemma MembersShrink(m: multiset<(Group, Session)>, x: Session, g: Group, h: Group)
    requires h != g
    ensures HasMembers(m - multiset{(g, x)}, h) <==> HasMembers(m, h)
  {
    var r := m - multiset{(g, x)};
    if HasMembers(m, h) {
      var e :| e in m && e.0 == h;
      assert e in r;
    }
    if HasMembers(r, h) {
      var e :| e in r && e.0 == h;
      assert e in m;
    }
  }

  lemma LeftCounted(s: State, x: Session)
    requires Counted(s) && x in s.groupOf
    ensures Counted(Left(s, x))
  {
    var r := Left(s, x);
    forall h, y ensures r.members[(h, y)] == if y in r.groupOf && r.groupOf[y] == h then 1 else 0 {
      assert s.members[(h, y)] == if y in s.groupOf && s.groupOf[y] == h then 1 else 0;
    }
  }

  lemma LeftConsistent(s: State, x: Session)
    requires Consistent(s) && x in s.groupOf
    ensures Consistent(Left(s, x))
  {
    hide HasMembers, Counted;
    var r := Left(s, x);
    var g := s.groupOf[x];
    LeftCounted(s, x);
    assert g in s.threadOf by { MemberIs(s, g, x); }
    forall h ensures h in r.threadOf <==> HasMembers(r.members, h) {
      if h != g { MembersShrink(s.members, x, g, h); }
    }
  }

  /** Removing a session that is not registered changes no map. */
  lemma LeftUnregistered(s: State, x: Session)
    requires Consistent(s) && x !in s.groupOf
    ensures Left(s, x) == s
  {
    var r := Left(s, x);
    assert s.members[("", x)] == 0;
    assert r.members == s.members;
    assert r.groupOf == s.groupOf;
    assert r.threadOf == s.threadOf by {
      if "" in s.threadOf { PutSame(s.threadOf, ""); }
    }
  }

  /** Leaving keeps the homes of all others. */
  lemma LeftHome(s: State, x: Session, y: Session)
    requires Consistent(s) && x in s.groupOf
    ensures Home(Left(s, x), y) == if y == x then None else Home(s, y)
  {
    if y != x && y in s.groupOf {
      LeftConsistent(s, x);
      MemberIs(s, s.groupOf[y], y);
      MemberIs(Left(s, x), s.groupOf[y], y);
    }
  }

  lemma LatestAdd(q: seq<Post>, p: Post, t: nat, x: Session)
    ensures Latest(q + [p], t, x) == if p.t == t && p.r.s == x then Some(p.r.kind) else Latest(q, t, x)
  {
    assert (q + [p])[..|q|] == q;
  }

  /** A call that has begun binds its session as its request says, in the thread the request is for. */
  lemma BegunBound(s: State, r: State, p: Post, t: nat, y: Session)
    requires t < |s.sessions| == |s.queues| && r.sessions == s.sessions && r.queues == s.queues && r.flight == s.flight + [p]
    ensures Bound(r, t, y) <==> if p.t == t && p.r.s == y then p.r.kind == InsertSession else Bound(s, t, y)
  {
    LatestAdd(s.flight, p, t, y);
  }

  lemma AddBegunInv(s: State, x: Session, g: Group)
    requires Inv(s) && x !in s.groupOf
    ensures Inv(AddBegun(s, x, g))
  {
    hide Consistent, Bound, Latest;
    assert Shaped(s) by { ConsistentShaped(s); }
    var r := AddBegun(s, x, g);
    var p := Post(Chosen(s, g), Request(InsertSession, x));
    JoinedConsistent(s, x, g);
    ConsistentShaped(Joined(s, x, g));
    SameMaps(Joined(s, x, g), r);
    assert forall i :: 0 <= i < |s.flight| ==> r.flight[i] == s.flight[i];
    forall t, y | 0 <= t < |r.queues| && Bound(r, t, y) ensures Home(r, y) == Some(t) {
      BegunBound(s, r, p, t, y);
      if y != x { JoinedHome(s, x, g, y); }
    }
    forall y | y in r.groupOf && y !in r.cleared ensures Settled(r, y) {
      if y == x {
        BegunBound(s, r, p, p.t, x);
      } else {
        assert Settled(s, y);
        JoinedHome(s, x, g, y);
        BegunBound(s, r, p, Home(s, y).value, y);
      }
    }
  }

  lemma ConsistentShaped(s: State)
    requires Consistent(s)
    ensures Shaped(s)
  {
  }

  lemma JoinedHome(s: State, x: Session, g: Group, y: Session)
    requires Consistent(s) && y != x
    ensures Home(Joined(s, x, g), y) == Home(s, y)
  {
    if y in s.groupOf { MemberIs(s, s.groupOf[y], y); }
  }

  lemma RemoveBegunInv(s: State, x: Session, kind: Kind)
    requires Inv(s) && kind != InsertSession
    ensures Inv(RemoveBegun(s, x, kind))
  {
    hide Consistent, Bound, Latest, Left;
    ConsistentShaped(s);
    var r := RemoveBegun(s, x, kind);
    var p := Post(ThreadFor(s, GroupFor(s, x)), Request(kind, x));
    LeftQueues(s, x);
    LeftMaps(s, x);
    ConsistentShaped(Left(s, x));
    SameMaps(Left(s, x), r);
    assert forall i :: 0 <= i < |s.flight| ==> r.flight[i] == s.flight[i];
    forall t, y | 0 <= t < |r.queues| && Bound(r, t, y) ensures Home(r, y) == Some(t) {
      BegunBound(s, r, p, t, y);
      LeavingHome(s, x, y);
    }
    forall y | y in r.groupOf && y !in r.cleared ensures Settled(r, y) {
      assert Settled(s, y);
      LeavingHome(s, x, y);
      BegunBound(s, r, p, Home(s, y).value, y);
    }
  }

  lemma LeftMaps(s: State, x: Session)
    requires Consistent(s)
    ensures Consistent(Left(s, x)) && Left(s, x).cleared == s.cleared
    ensures forall y :: y in Left(s, x).groupOf <==> y in s.groupOf && y != x
  {
    if x in s.groupOf { LeftConsistent(s, x); } else { LeftUnregistered(s, x); }
  }

  lemma LeavingHome(s: State, x: Session, y: Session)
    requires Consistent(s)
    ensures Home(Left(s, x), y) == if y == x then None else Home(s, y)
    ensures Home(s, x).Some? ==> Home(s, x).value == ThreadFor(s, GroupFor(s, x))
  {
    if x in s.groupOf { LeftHome(s, x, y); } else { LeftUnregistered(s, x); }
  }

  /** Taking a post out of the flight leaves the others' say alone. */
  lemma {:induction false} LatestOther(q: seq<Post>, i: nat, t: nat, x: Session)
    requires i < |q| && (q[i].t != t || q[i].r.s != x)
    ensures Latest(Without(q, i), t, x) == Latest(q, t, x)
    decreases |q|
  {
    var n := |q| - 1;
    if i == n {
      assert Without(q, i) == q[..n];
    } else {
      assert q[..n][i] == q[i] && Without(q, i) == Without(q[..n], i) + [q[n]];
      LatestAdd(Without(q[..n], i), q[n], t, x);
      LatestOther(q[..n], i, t, x);
    }
  }

  /** A post that is the only one for its session and thread is the last one. */
  lemma {:induction false} LatestOwn(q: seq<Post>, i: nat)
    requires i < |q|
    ensures var t, x := q[i].t, q[i].r.s;
      Latest(q, t, x).Some? && (Latest(Without(q, i), t, x) == None ==> Latest(q, t, x) == Some(q[i].r.kind))
    decreases |q|
  {
    var n := |q| - 1;
    var t, x := q[i].t, q[i].r.s;
    if i < n {
      assert q[..n][i] == q[i] && Without(q, i) == Without(q[..n], i) + [q[n]];
      LatestAdd(Without(q[..n], i), q[n], t, x);
      LatestOwn(q[..n], i);
    }
  }

  lemma {:induction false} NoneBefore(q: seq<Post>, t: nat, x: Session)
    requires forall j :: 0 <= j < |q| ==> q[j].t != t || q[j].r.s != x
    ensures Latest(q, t, x) == None
  {
    if q != [] { NoneBefore(q[..|q| - 1], t, x); }
  }

  /** Of the posts in flight for one session and thread, the last to be posted says the same whether or not the i-th
      is taken out first: there is no other, or it asks for the same. */
  predicate Agrees(q: seq<Post>, i: nat)
    requires i < |q|
  {
    var t, x := q[i].t, q[i].r.s;
    var w := Latest(Without(q, i), t, x);
    w == None || (w == Some(InsertSession) <==> Latest(q, t, x) == Some(InsertSession))
  }

  /** The arrival of the i-th post does no harm: it agrees with the posts it overtakes, or the thread it is for has
      thrown the session out by itself. */
  predicate Harmless(s: State, i: nat)
    requires i < |s.flight|
  {
    var p := s.flight[i];
    Agrees(s.flight, i) || (p.r.s in s.cleared && Home(s, p.r.s) == Some(p.t))
  }

  /** Only its own session and thread are affected by an arrival, and only if it does not agree. */
  lemma ArrivedBound(s: State, i: nat, t: nat, x: Session)
    requires |s.sessions| == |s.queues| && Aimed(s) && i < |s.flight| && t < |s.queues|
    ensures var p := s.flight[i];
      (Bound(Arrived(s, i), t, x) <==> Bound(s, t, x)) <==> (t == p.t && x == p.r.s ==> Agrees(s.flight, i))
  {
    hide Latest, Replay, Without;
    var p := s.flight[i];
    ReplayPost(s.sessions[p.t], s.queues[p.t], p.r);
    if t == p.t && x == p.r.s {
      LatestOwn(s.flight, i);
    } else {
      LatestOther(s.flight, i, t, x);
    }
  }

  /** An arrival keeps the invariant if and only if it does no harm. */
  lemma ArrivedExactly(s: State, i: nat)
    requires Inv(s) && i < |s.flight|
    ensures s.flight[i].t < |s.queues| && (Inv(Arrived(s, i)) <==> Harmless(s, i))
  {
    hide Consistent, Bound, Latest, Replay, Agrees;
    ConsistentShaped(s);
    var r, p := Arrived(s, i), s.flight[i];
    SameMaps(s, r);
    SameHome(s, r);
    assert forall j :: 0 <= j < |r.flight| ==> r.flight[j] in s.flight;
    if Harmless(s, i) {
      ArrivedPlaced(s, i);
    } else {
      ArrivedBound(s, i, p.t, p.r.s);
      assert Bound(r, p.t, p.r.s) != Bound(s, p.t, p.r.s);
      assert Settled(r, p.r.s) != Settled(s, p.r.s) || Home(s, p.r.s) != Some(p.t);
    }
  }

  lemma ArrivedPlaced(s: State, i: nat)
    requires Inv(s) && i < |s.flight| && s.flight[i].t < |s.queues| && |s.sessions| == |s.queues| && Harmless(s, i)
    ensures Placed(Arrived(s, i))
  {
    hide Consistent, Bound, Latest, Replay, Agrees;
    var r, p := Arrived(s, i), s.flight[i];
    SameHome(s, r);
    forall t, y | 0 <= t < |r.queues| && Bound(r, t, y) ensures Home(r, y) == Some(t) { ArrivedBound(s, i, t, y); }
    forall y | y in r.groupOf && y !in r.cleared ensures Settled(r, y) {
      assert Settled(s, y);
      ArrivedBound(s, i, Home(s, y).value, y);
    }
  }

  // ---- actions of the threads, and runs ----

  /** A thread works off the first request of its queue. */
  function Worked(s: State, t: nat): State
    requires |s.sessions| == |s.queues| && t < |s.queues| && s.queues[t] != []
  {
    s.(sessions := s.sessions[t := Processed(s.sessions[t], s.queues[t][0])], queues := s.queues[t := s.queues[t][1..]])
  }

  /** processAudio: a thread asks itself to clear a session whose streams fail. The maps keep it. */
  function SelfCleared(s: State, t: nat, x: Session): State
    requires |s.sessions| == |s.queues| && t < |s.queues|
  {
    Posted(s.(cleared := s.cleared + {x}), t, Request(ClearSession, x))
  }

  lemma SameHome(s: State, r: State)
    requires r.groupOf == s.groupOf && r.threadOf == s.threadOf
    ensures forall y :: Home(r, y) == Home(s, y)
  {
  }

  lemma WorkedInv(s: State, t: nat)
    requires Inv(s) && t < |s.queues| && s.queues[t] != []
    ensures Inv(Worked(s, t))
  {
    hide Consistent, Latest, Replay;
    ConsistentShaped(s);
    var r := Worked(s, t);
    SameMaps(s, r);
    SameHome(s, r);
    ReplayHead(s.sessions[t], s.queues[t]);
    assert forall u :: 0 <= u < |r.queues| ==> Held(r, u) == Held(s, u);
    forall u, y | 0 <= u < |r.queues| && Bound(r, u, y) ensures Home(r, y) == Some(u) { assert Bound(s, u, y); }
    forall y | y in r.groupOf && y !in r.cleared ensures Settled(r, y) { assert Settled(s, y); }
  }

  lemma SelfClearedInv(s: State, t: nat, x: Session)
    requires Inv(s) && t < |s.queues|
    ensures Inv(SelfCleared(s, t, x))
  {
    hide Consistent, Latest, Replay;
    ConsistentShaped(s);
    var r := SelfCleared(s, t, x);
    SameMaps(s, r);
    SameHome(s, r);
    ReplayPost(s.sessions[t], s.queues[t], Request(ClearSession, x));
    assert forall u :: 0 <= u < |s.queues| ==> Held(r, u) == if u == t then Held(s, t) - {x} else Held(s, u);
    forall u, y | 0 <= u < |r.queues| && Bound(r, u, y) ensures Home(r, y) == Some(u) { assert Bound(s, u, y); }
    forall y | y in r.groupOf && y !in r.cleared ensures Settled(r, y) { assert Settled(s, y); }
  }

  /** changeCallgroup is a removal and an addition, one call after the other. */
  datatype Action =
    | AddBegin(x: Session, g: Group) | RemoveBegin(x: Session, kind: Kind) | Arrive(i: nat)
    | Work(t: nat) | SelfClear(t: nat, x: Session)

  /** Clients add only sessions that are not registered. */
  predicate Enabled(s: State, a: Action) {
    && Shaped(s)
    && match a
       case AddBegin(x, _) => x !in s.groupOf
       case RemoveBegin(_, kind) => kind != InsertSession
       case Arrive(i) => i < |s.flight| && s.flight[i].t < |s.queues|
       case Work(t) => t < |s.queues| && s.queues[t] != []
       case SelfClear(t, x) => t < |s.queues| && x in s.sessions[t]
  }

  function Next(s: State, a: Action): State
    requires Enabled(s, a)
  {
    match a
    case AddBegin(x, g) => AddBegun(s, x, g)
    case RemoveBegin(x, kind) => RemoveBegun(s, x, kind)
    case Arrive(i) => Arrived(s, i)
    case Work(t) => Worked(s, t)
    case SelfClear(t, x) => SelfCleared(s, t, x)
  }

  /** A post that arrives does no harm. */
  predicate Orderly(s: State, a: Action) {
    a.Arrive? && a.i < |s.flight| ==> Harmless(s, a.i)
  }

  /** A step keeps the invariant if and only if it is not the arrival of a post that does harm. */
  lemma NextInv(s: State, a: Action)
    requires Inv(s) && Enabled(s, a)
    ensures Inv(Next(s, a)) <==> Orderly(s, a)
  {
    hide Inv;
    match a
    case AddBegin(x, g) => AddBegunInv(s, x, g);
    case RemoveBegin(x, kind) => RemoveBegunInv(s, x, kind);
    case Arrive(i) => ArrivedExactly(s, i);
    case Work(t) => WorkedInv(s, t);
    case SelfClear(t, x) => SelfClearedInv(s, t, x);
  }

  predicate Legal(s: State, acts: seq<Action>)
    decreases |acts|
  {
    acts == [] || (Enabled(s, acts[0]) && Legal(Next(s, acts[0]), acts[1..]))
  }

  function After(s: State, acts: seq<Action>): State
    requires Legal(s, acts)
    decreases |acts|
  {
    if acts == [] then s else After(Next(s, acts[0]), acts[1..])
  }

  predicate OrderlyRun(s: State, acts: seq<Action>)
    requires Legal(s, acts)
    decreases |acts|
  {
    acts == [] || (Orderly(s, acts[0]) && OrderlyRun(Next(s, acts[0]), acts[1..]))
  }

  /** n idle threads. */
  function Start(n: nat): State {
    State(map[], multiset{}, map[], seq(n, _ => {}), seq(n, _ => []), [], {})
  }

  lemma StartInv(n: nat)
    requires n > 0
    ensures Inv(Start(n))
  {
    var s := Start(n);
    assert forall t :: 0 <= t < n ==> Held(s, t) == {};
  }

  /** The invariant holds in every state of the run. */
  ghost predicate Always(s: State, acts: seq<Action>)
    requires Legal(s, acts)
    decreases |acts|
  {
    Inv(s) && (acts != [] ==> Always(Next(s, acts[0]), acts[1..]))
  }

  /** A run keeps the invariant all along if and only if no post in it does harm on arrival. */
  lemma {:induction false} RunInv(s: State, acts: seq<Action>)
    requires Inv(s) && Legal(s, acts)
    ensures Always(s, acts) <==> OrderlyRun(s, acts)
    ensures OrderlyRun(s, acts) ==> Inv(After(s, acts))
    decreases |acts|
  {
    hide Inv, Orderly;
    if acts != [] {
      var r := Next(s, acts[0]);
      NextInv(s, acts[0]);
      if Orderly(s, acts[0]) {
        RunInv(r, acts[1..]);
      } else {
        assert Always(r, acts[1..]) ==> Inv(r);
      }
    }
  }

  // ---- calls that do not overlap ----

  predicate Apart(s: State, a: Action) {
    a.AddBegin? || a.RemoveBegin? ==> forall i :: 0 <= i < |s.flight| ==> s.flight[i].r.s != a.x
  }

  /** No call on a session begins while another call on it has its post in flight. */
  predicate ApartRun(s: State, acts: seq<Action>)
    requires Legal(s, acts)
    decreases |acts|
  {
    acts == [] || (Apart(s, acts[0]) && ApartRun(Next(s, acts[0]), acts[1..]))
  }

  ghost predicate Single(q: seq<Post>) {
    forall i, j :: 0 <= i < j < |q| ==> q[i].r.s != q[j].r.s
  }

  lemma SingleStep(s: State, a: Action)
    requires Single(s.flight) && Enabled(s, a) && Apart(s, a)
    ensures Orderly(s, a) && Single(Next(s, a).flight)
  {
    var q, r := s.flight, Next(s, a).flight;
    if a.Arrive? {
      assert forall j :: 0 <= j < |r| ==> r[j] == q[if j < a.i then j else j + 1];
      NoneBefore(Without(q, a.i), q[a.i].t, q[a.i].r.s);
    }
  }

  /** Such runs are orderly, so they keep the invariant. */
  lemma {:induction false} ApartIsOrderly(s: State, acts: seq<Action>)
    requires Legal(s, acts) && Single(s.flight) && ApartRun(s, acts)
    ensures OrderlyRun(s, acts)
    decreases |acts|
  {
    hide Single, Orderly, Apart;
    if acts != [] {
      SingleStep(s, acts[0]);
      ApartIsOrderly(Next(s, acts[0]), acts[1..]);
    }
  }

  lemma ApartRunInv(n: nat, acts: seq<Action>)
    requires n > 0 && Legal(Start(n), acts) && ApartRun(Start(n), acts)
    ensures Inv(After(Start(n), acts))
  {
    StartInv(n);
    ApartIsOrderly(Start(n), acts);
    RunInv(Start(n), acts);
  }

  // ---- posts that overtake each other ----

  /** From any state: an addition whose post is overtaken by that of a later removal leaves the session in a thread
      that no map knows of. */
  lemma OverlapMisplaces(s: State, x: Session, g: Group, kind: Kind) returns (acts: seq<Action>)
    requires Inv(s) && x !in s.groupOf && kind != InsertSession
    requires forall i :: 0 <= i < |s.flight| ==> s.flight[i].r.s != x
    ensures acts == [AddBegin(x, g), RemoveBegin(x, kind), Arrive(|s.flight| + 1), Arrive(|s.flight|)] && Legal(s, acts)
    ensures var r := After(s, acts);
      r.flight == s.flight && Shaped(r) && x !in r.groupOf && !Placed(r)
  {
    hide Inv, Latest, Added, LeastLoaded, Loads, Replay;
    InvParts(s);
    var n, t := |s.flight|, Chosen(s, g);
    var s1 := AddBegun(s, x, g);
    AddBegunInv(s, x, g);
    var s2 := RemoveBegun(s1, x, kind);
    Overlapping(s, x, g, kind);
    var p1, p2 := Post(t, Request(InsertSession, x)), Post(t, Request(kind, x));
    var s3 := Arrived(s2, n + 1);
    Swapped(s2, s.flight, p1, p2);
    var s4 := Arrived(s3, n);
    acts := [AddBegin(x, g), RemoveBegin(x, kind), Arrive(n + 1), Arrive(n)];
    hide Consistent, Left;
    RunOfFour(s, acts, s1, s2, s3, s4);
    Misplaced(s, s4, t, p2.r, p1.r);
  }

  /** Both calls have released the lock, neither has posted. */
  lemma Overlapping(s: State, x: Session, g: Group, kind: Kind)
    requires Inv(s) && Shaped(s) && x !in s.groupOf && kind != InsertSession
    ensures var r := RemoveBegun(AddBegun(s, x, g), x, kind);
      && Shaped(r) && r.sessions == s.sessions && r.queues == s.queues && x !in r.groupOf
      && r.flight == s.flight + [Post(Chosen(s, g), Request(InsertSession, x))] + [Post(Chosen(s, g), Request(kind, x))]
  {
    hide Inv, Consistent, Left;
    var s1 := AddBegun(s, x, g);
    AddBegunInv(s, x, g);
    InvParts(s1);
    RemoveBegunInv(s1, x, kind);
    InvParts(RemoveBegun(s1, x, kind));
    LeftMaps(s1, x);
    LeftQueues(s1, x);
  }

  /** The second of two posts to one thread arrives first. */
  lemma Swapped(s: State, q: seq<Post>, p1: Post, p2: Post)
    requires s.flight == q + [p1] + [p2] && p1.t == p2.t < |s.queues|
    ensures var r := Arrived(s, |q| + 1);
      && r.flight == q + [p1] && |r.queues| == |s.queues|
      && Arrived(r, |q|) == s.(flight := q, queues := s.queues[p1.t := s.queues[p1.t] + [p2.r] + [p1.r]])
  {
    var r := Arrived(s, |q| + 1);
    assert r.flight == q + [p1];
    assert Without(r.flight, |q|) == q;
  }

  /** A queue that ends in an insertion holds the session. */
  lemma Misplaced(s: State, r: State, t: nat, out: Request, back: Request)
    requires t < |s.queues| == |r.queues| == |s.sessions| && r.sessions == s.sessions && r.flight == s.flight
    requires back.kind == InsertSession && back.s !in r.groupOf && r.queues[t] == s.queues[t] + [out] + [back]
    requires forall i :: 0 <= i < |s.flight| ==> s.flight[i].r.s != back.s
    ensures !Placed(r)
  {
    ReplayPost(s.sessions[t], s.queues[t] + [out], back);
    NoneBefore(r.flight, t, back.s);
    assert Bound(r, t, back.s) && Home(r, back.s) == None;
  }

  /** From any state: a removal whose post is overtaken by that of a new addition to the same thread leaves the
      session registered and in no thread. */
  lemma OverlapLoses(s: State, x: Session, g: Group, kind: Kind) returns (acts: seq<Action>)
    requires Inv(s) && x in s.groupOf && kind != InsertSession
    requires forall i :: 0 <= i < |s.flight| ==> s.flight[i].r.s != x
    requires Shaped(Left(s, x)) && Home(s, x) == Some(Chosen(Left(s, x), g))
    ensures acts == [RemoveBegin(x, kind), AddBegin(x, g), Arrive(|s.flight| + 1), Arrive(|s.flight|)] && Legal(s, acts)
    ensures var r := After(s, acts);
      && r.flight == s.flight && Shaped(r) && x in r.groupOf && x !in r.cleared
      && (forall t :: 0 <= t < |r.queues| ==> x !in Held(r, t))
  {
    hide Inv, Latest, LeastLoaded, Loads, Replay;
    InvParts(s);
    var n, t := |s.flight|, Chosen(Left(s, x), g);
    var s1 := RemoveBegun(s, x, kind);
    RemoveBegunInv(s, x, kind);
    LeftQueues(s, x);
    LeavingHome(s, x, x);
    var s2 := AddBegun(s1, x, g);
    Rejoining(s, x, g, kind);
    var p1, p2 := Post(t, Request(kind, x)), Post(t, Request(InsertSession, x));
    var s3 := Arrived(s2, n + 1);
    Swapped(s2, s.flight, p1, p2);
    var s4 := Arrived(s3, n);
    acts := [RemoveBegin(x, kind), AddBegin(x, g), Arrive(n + 1), Arrive(n)];
    hide Consistent, Left;
    RunOfFour(s, acts, s1, s2, s3, s4);
    forall u | 0 <= u < |s4.queues| ensures x !in Held(s4, u) { Unheld(s, s4, t, u, p1.r, p2.r); }
  }

  lemma Rejoining(s: State, x: Session, g: Group, kind: Kind)
    requires Inv(s) && Shaped(s) && x in s.groupOf && kind != InsertSession
    requires Shaped(Left(s, x)) && Home(s, x) == Some(Chosen(Left(s, x), g))
    ensures Shaped(RemoveBegun(s, x, kind)) && x !in RemoveBegun(s, x, kind).groupOf
    ensures var r, t := AddBegun(RemoveBegun(s, x, kind), x, g), Home(s, x).value;
      && Shaped(r) && r.sessions == s.sessions && r.queues == s.queues && x in r.groupOf && x !in r.cleared
      && r.flight == s.flight + [Post(t, Request(kind, x))] + [Post(t, Request(InsertSession, x))]
  {
    hide Inv, Consistent, Left, LeastLoaded;
    InvParts(s);
    var s1 := RemoveBegun(s, x, kind);
    RemoveBegunInv(s, x, kind);
    InvParts(s1);
    LeftMaps(s, x);
    LeftQueues(s, x);
    LeavingHome(s, x, x);
    assert Loads(s1) == Loads(Left(s, x));
    AddBegunInv(s1, x, g);
    InvParts(AddBegun(s1, x, g));
  }

  /** A queue that ends in a removal does not hold the session, and no other thread did. */
  lemma Unheld(s: State, r: State, t: nat, u: nat, out: Request, back: Request)
    requires Inv(s) && t < |s.queues| == |r.queues| == |s.sessions| && u < |r.queues| && r.sessions == s.sessions
    requires out.kind != InsertSession && out.s == back.s && Home(s, out.s) == Some(t)
    requires r.queues == s.queues[t := s.queues[t] + [back] + [out]]
    requires forall i :: 0 <= i < |s.flight| ==> s.flight[i].r.s != out.s
    ensures out.s !in Held(r, u)
  {
    hide Replay;
    ReplayPost(s.sessions[t], s.queues[t] + [back], out);
    NoneBefore(s.flight, u, out.s);
    if u != t { assert !Bound(s, u, out.s); }
  }

  lemma InvParts(s: State)
    requires Inv(s)
    ensures Consistent(s) && Shaped(s) && Aimed(s)
  {
  }

  lemma RunOfFour(s: State, acts: seq<Action>, s1: State, s2: State, s3: State, s4: State)
    requires |acts| == 4
    requires Enabled(s, acts[0]) && s1 == Next(s, acts[0])
    requires Enabled(s1, acts[1]) && s2 == Next(s1, acts[1])
    requires Enabled(s2, acts[2]) && s3 == Next(s2, acts[2])
    requires Enabled(s3, acts[3]) && s4 == Next(s3, acts[3])
    ensures Legal(s, acts) && After(s, acts) == s4
  {
    hide Enabled, Next;
    assert acts[3..][1..] == [];
    assert Legal(s3, acts[3..]) && After(s3, acts[3..]) == s4;
    assert acts[2..][1..] == acts[3..];
    assert Legal(s2, acts[2..]) && After(s2, acts[2..]) == s4;
    assert acts[1..][1..] == acts[2..];
    assert Legal(s1, acts[1..]) && After(s1, acts[1..]) == s4;
  }

  /** A call alone is its two steps. */
  lemma AloneIsTwoSteps(s: State, x: Session, g: Group, kind: Kind)
    requires Shaped(s) && s.flight == []
    ensures Arrived(AddBegun(s, x, g), 0) == Added(s, x, g)
    ensures Arrived(RemoveBegun(s, x, kind), 0) == Removed(s, x, kind)
  {
  }

  lemma OnlyPost(s: State)
    requires Inv(s) && |s.flight| == 1
    ensures s.flight[0].t < |s.queues| && Inv(Arrived(s, 0))
  {
    assert Without(s.flight, 0) == [];
    ArrivedExactly(s, 0);
  }

  lemma AloneInv(s: State, x: Session, g: Group, kind: Kind)
    requires Inv(s) && s.flight == [] && kind != InsertSession
    ensures Shaped(s) && Inv(Removed(s, x, kind)) && x !in Removed(s, x, kind).groupOf
    ensures x !in s.groupOf ==> Inv(Added(s, x, g))
  {
    hide Inv;
    InvParts(s);
    AloneIsTwoSteps(s, x, g, kind);
    RemoveBegunInv(s, x, kind);
    OnlyPost(RemoveBegun(s, x, kind));
    if x !in s.groupOf {
      AddBegunInv(s, x, g);
      OnlyPost(AddBegun(s, x, g));
    }
  }

  /** All members of a group share one thread. */
  lemma GroupShares(s: State, x: Session, y: Session)
    requires Inv(s) && x in s.groupOf && y in s.groupOf && s.groupOf[x] == s.groupOf[y]
    ensures Home(s, x).Some? && Home(s, x) == Home(s, y)
  {
    MemberIs(s, s.groupOf[x], x);
  }

  /** With all posts arrived and all requests worked off a session is in at most one thread, that of its group, and
      it is there unless that thread has thrown it out. */
  lemma Quiescent(s: State, t: nat, x: Session)
    requires Inv(s) && t < |s.queues| && s.flight == [] && (forall u :: 0 <= u < |s.queues| ==> s.queues[u] == [])
    ensures x in s.sessions[t] ==> Home(s, x) == Some(t)
    ensures x !in s.cleared ==> (x in s.sessions[t] <==> Home(s, x) == Some(t))
  {
    assert forall u :: 0 <= u < |s.queues| ==> Held(s, u) == s.sessions[u];
    assert x in s.sessions[t] ==> Bound(s, t, x);
    assert x in s.groupOf && x !in s.cleared ==> Settled(s, x);
  }

  // ---- what a call does ----

  /** addSession registers the session in the group it names and sends it to the thread of that group, which is where
      the others of the group are. A group with no sessions gets the first of the threads that hold the fewest.
      Nobody else moves. */
  lemma AddDoes(s: State, x: Session, g: Group)
    requires Consistent(s) && x !in s.groupOf
    ensures var r := AddBegun(s, x, g);
      && r.groupOf == s.groupOf[x := g]
      && (forall y :: y != x ==> Home(r, y) == Home(s, y))
      && Home(r, x).Some?
      && var t := Home(r, x).value;
      && r.flight == s.flight + [Post(t, Request(InsertSession, x))]
      && (forall y :: y in s.groupOf && s.groupOf[y] == g ==> Home(s, y) == Some(t))
      && ((forall y :: y in s.groupOf ==> s.groupOf[y] != g) ==> Lightest(s, t))
  {
    forall y | y != x ensures Home(AddBegun(s, x, g), y) == Home(s, y) { JoinedHome(s, x, g, y); }
    forall y | y in s.groupOf && s.groupOf[y] == g ensures g in s.threadOf { MemberIs(s, g, y); }
    if g in s.threadOf {
      var m :| m in s.members && m.0 == g;
      MemberIs(s, g, m.1);
    } else {
      assert forall i :: 0 <= i < |s.sessions| ==> Loads(s)[i] == |s.sessions[i]|;
    }
  }

  /** No thread holds fewer sessions than t, and those before it hold more. */
  ghost predicate Lightest(s: State, t: nat) {
    && t < |s.sessions|
    && forall i :: 0 <= i < |s.sessions| ==> if i < t then |s.sessions[t]| < |s.sessions[i]| else |s.sessions[t]| <= |s.sessions[i]|
  }

  /** removeFromProcessor takes the session out of the maps and tells the thread it was assigned to. Nobody else moves. */
  lemma RemoveDoes(s: State, x: Session, kind: Kind)
    requires Consistent(s)
    ensures var r := RemoveBegun(s, x, kind);
      && r.groupOf == s.groupOf - {x}
      && (forall y :: Home(r, y) == if y == x then None else Home(s, y))
      && (Home(s, x).Some? ==> r.flight == s.flight + [Post(Home(s, x).value, Request(kind, x))])
  {
    forall y ensures Home(RemoveBegun(s, x, kind), y) == if y == x then None else Home(s, y) { LeavingHome(s, x, y); }
    LeavingHome(s, x, x);
  }

  /** A thread that clears a session itself will no longer hold it, and the maps keep it. */
  lemma SelfClearDoes(s: State, t: nat, x: Session)
    requires |s.sessions| == |s.queues| && t < |s.queues|
    ensures var r := SelfCleared(s, t, x);
      && Held(r, t) == Held(s, t) - {x} && (forall u :: 0 <= u < |s.queues| && u != t ==> Held(r, u) == Held(s, u))
      && r.cleared == s.cleared + {x} && forall y :: Home(r, y) == Home(s, y)
  {
    hide Replay;
    var r := SelfCleared(s, t, x);
    SameHome(s, r);
    ReplayPost(s.sessions[t], s.queues[t], Request(ClearSession, x));
  }

  // ---- left alone, the posts arrive and the threads work off what they are asked ----

  ghost predicate Idle(s: State) {
    s.flight == [] && forall u :: 0 <= u < |s.queues| ==> s.queues[u] == []
  }

  ghost predicate SameAssignment(s: State, r: State) {
    r.groupOf == s.groupOf && r.threadOf == s.threadOf && r.cleared == s.cleared && |r.queues| == |s.queues|
  }

  lemma {:induction false} LatestTail(q: seq<Post>, t: nat, x: Session)
    requires q != []
    ensures Latest(q[1..], t, x) == None || Latest(q[1..], t, x) == Latest(q, t, x)
    decreases |q|
  {
    if |q| > 1 {
      var n := |q| - 1;
      assert q[1..][..n - 1] == q[..n][1..];
      LatestTail(q[..n], t, x);
    }
  }

  /** The first post to have been begun may always arrive. */
  lemma FirstIsHarmless(s: State)
    requires s.flight != []
    ensures Harmless(s, 0)
  {
    hide Latest;
    assert Without(s.flight, 0) == s.flight[1..];
    LatestTail(s.flight, s.flight[0].t, s.flight[0].r.s);
  }

  lemma RunPrepend(s: State, a: Action, acts: seq<Action>)
    requires Enabled(s, a) && Orderly(s, a) && Legal(Next(s, a), acts) && OrderlyRun(Next(s, a), acts)
    ensures Legal(s, [a] + acts) && OrderlyRun(s, [a] + acts)
    ensures After(s, [a] + acts) == After(Next(s, a), acts)
  {
    hide Enabled, Next, Orderly;
    assert ([a] + acts)[1..] == acts;
  }

  /** The posts arrive in order, then the threads below n work, the last of them first. */
  lemma {:induction false} WorkOff(s: State, n: nat) returns (acts: seq<Action>)
    requires Inv(s) && n <= |s.queues| && (s.flight != [] ==> n == |s.queues|)
    requires forall u :: n <= u < |s.queues| ==> s.queues[u] == []
    ensures Legal(s, acts) && OrderlyRun(s, acts)
    ensures Inv(After(s, acts)) && Idle(After(s, acts)) && SameAssignment(s, After(s, acts))
    decreases |s.flight|, n, if n > 0 then |s.queues[n - 1]| else 0
  {
    hide Inv, Harmless;
    InvParts(s);
    if s.flight != [] || (n > 0 && s.queues[n - 1] != []) {
      var a := if s.flight != [] then Arrive(0) else Work(n - 1);
      if s.flight != [] { FirstIsHarmless(s); }
      NextInv(s, a);
      var rest := WorkOff(Next(s, a), n);
      RunPrepend(s, a, rest);
      acts := [a] + rest;
    } else if n > 0 {
      acts := WorkOff(s, n - 1);
    } else {
      acts := [];
    }
  }

  /** From every state that keeps the invariant, the posts and requests outstanding can be worked off, and then each
      session that no thread has thrown out is in the thread of its group and in no other. */
  lemma Settles(s: State) returns (acts: seq<Action>)
    requires Inv(s)
    ensures Legal(s, acts) && OrderlyRun(s, acts) && Idle(After(s, acts))
    ensures var r := After(s, acts);
      forall t, x :: 0 <= t < |r.sessions| && x !in s.cleared ==> (x in r.sessions[t] <==> Home(s, x) == Some(t))
  {
    hide Inv, OrderlyRun, Legal, After;
    acts := WorkOff(s, |s.queues|);
    var r := After(s, acts);
    InvParts(r);
    SameHome(s, r);
    forall t, x | 0 <= t < |r.sessions| && x !in s.cleared ensures x in r.sessions[t] <==> Home(s, x) == Some(t) {
      Quiescent(r, t, x);
    }
  }

  /** A session added twice leaves a group behind that no session is registered in. */
  lemma AddedTwiceLeaks(x: Session, g: Group, h: Group)
    requires g != h
    ensures var s := Removed(Added(Added(Start(1), x, g), x, h), x, RemoveSession);
      s.groupOf == map[] && g in s.threadOf && !Consistent(s)
  {
    var a := Added(Start(1), x, g);
    var b := Added(a, x, h);
    var s := Removed(b, x, RemoveSession);
    assert b.members == multiset{(g, x), (h, x)};
    assert s.members == multiset{(g, x)};
    assert (g, x) in s.members && s.members[(g, x)] == 1;
    assert s.groupOf == map[];
  }

  // ---- the scheduler object ----

  class Scheduler {
    var threadOf: map<Group, nat>
    var members: multiset<(Group, Session)>
    var groupOf: map<Session, Group>
    var sessions: seq<set<Session>>
    var queues: seq<seq<Request>>
    ghost var cleared: set<Session>

    ghost function View(): State
      reads this
    {
      State(threadOf, members, groupOf, sessions, queues, [], cleared)
    }

    constructor (n: nat)
      requires n > 0
      ensures View() == Start(n)
    {
      threadOf, members, groupOf := map[], multiset{}, map[];
      sessions, queues, cleared := seq(n, _ => {}), seq(n, _ => []), {};
    }

    method PostRequest(t: nat, r: Request)
      requires t < |queues|
      modifies this`queues
      ensures queues == old(queues)[t := old(queues)[t] + [r]]
    {
      queues := queues[t := queues[t] + [r]];
    }

    /** The thread with the lowest load. */
    method Lowest() returns (t: nat)
      requires |sessions| > 0
      ensures t == LeastLoaded(Loads(View()))
    {
      t := 0;
      var lowest := |sessions[0]|;
      var i := 1;
      while i < |sessions|
        invariant 1 <= i <= |sessions| && t < i && lowest == |sessions[t]|
        invariant forall k :: 0 <= k < i ==> lowest <= |sessions[k]|
        invariant forall k :: 0 <= k < t ==> lowest < |sessions[k]|
      {
        var lower := |sessions[i]|;
        if lower < lowest {
          lowest, t := lower, i;
        }
        i := i + 1;
      }
      ghost var loads := Loads(View());
      assert forall k :: 0 <= k < |sessions| ==> loads[k] == |sessions[k]|;
      assert loads[t] <= loads[LeastLoaded(loads)];
    }

    method AddSession(x: Session, g: Group)
      requires Shaped(View())
      modifies this
      ensures View() == Added(old(View()), x, g)
    {
      var t: nat := 0;
      if g in threadOf {
        t := threadOf[g];
      } else {
        t := Lowest();
        threadOf := threadOf[g := t];
      }
      members := members + multiset{(g, x)};
      groupOf := groupOf[x := g];
      cleared := cleared - {x};
      assert old(threadOf)[g := t] == threadOf;
      PostRequest(t, Request(InsertSession, x));
    }

    method Leave(x: Session) returns (t: nat)
      modifies this
      ensures View() == Left(old(View()), x) && t == ThreadFor(old(View()), GroupFor(old(View()), x))
    {
      hide HasMembers;
      if x !in groupOf {
        groupOf := groupOf[x := ""];
      }
      var g := groupOf[x];
      if g !in threadOf {
        threadOf := threadOf[g := 0];
      }
      t := threadOf[g];
      members := members - multiset{(g, x)};
      if !HasMembers(members, g) {
        threadOf := threadOf - {g};
      }
      groupOf := groupOf - {x};
      PutErase(old(groupOf), x, "");
      PutErase(old(threadOf), g, 0);
      PutSame(old(threadOf), g);
    }

    method RemoveFromProcessor(x: Session, kind: Kind)
      requires Shaped(View())
      modifies this
      ensures View() == Removed(old(View()), x, kind)
    {
      hide Left;
      var t := Leave(x);
      LeftQueues(old(View()), x);
      PostRequest(t, Request(kind, x));
    }

    method ChangeCallgroup(x: Session, g: Group)
      requires Inv(View())
      modifies this
      ensures Inv(View()) && View() == Added(Removed(old(View()), x, SoftRemoveSession), x, g)
    {
      AloneInv(View(), x, g, SoftRemoveSession);
      RemoveFromProcessor(x, SoftRemoveSession);
      AloneInv(View(), x, g, SoftRemoveSession);
      AddSession(x, g);
    }

    /** AmMediaProcessorThread::process on the head of the queue. */
    method Process(t: nat)
      requires |sessions| == |queues| && t < |queues| && queues[t] != []
      modifies this`sessions, this`queues
      ensures View() == Worked(old(View()), t)
    {
      var r := queues[t][0];
      queues := queues[t := queues[t][1..]];
      match r.kind {
        case InsertSession => sessions := sessions[t := sessions[t] + {r.s}];
        case _ =>
          if r.s in sessions[t] {
            sessions := sessions[t := sessions[t] - {r.s}];
          } else {
            assert sessions[t] - {r.s} == sessions[t];
          }
      }
    }
  }
}
