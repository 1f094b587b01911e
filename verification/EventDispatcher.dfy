/** The event dispatcher: bucketed tables that refine two flat, mutually inverse maps. */
module EventDispatcher {

  import opened Collections

  type QueueRef = nat
  type Ev = int

  /** A registered queue; id is empty for a queue registered by local tag only. */
  datatype Entry = Entry(q: QueueRef, id: string)

  // ---- the flat specification ----

  datatype Flat = Flat(queues: map<string, Entry>, ids: map<string, string>)

  const EMPTY: Flat := Flat(map[], map[])

  /** The dialog id: the branch takes part only when forked dialogs are accepted. */
  function DialogId(callid: string, remoteTag: string, branch: string, forked: bool): string {
    callid + remoteTag + (if forked then branch else "")
  }

  datatype Named = Named(tag: string, callid: string, remoteTag: string, branch: string) {
    predicate Complete() {
      tag != "" && callid != "" && remoteTag != "" && branch != ""
    }
  }

  predicate CanAdd(f: Flat, tag: string) {
    tag !in f.queues
  }

  predicate CanAddId(f: Flat, n: Named, forked: bool) {
    n.Complete() && n.tag !in f.queues && DialogId(n.callid, n.remoteTag, n.branch, forked) !in f.ids
  }

  function Added(f: Flat, tag: string, q: QueueRef): Flat {
    f.(queues := f.queues[tag := Entry(q, "")])
  }

  function AddedId(f: Flat, n: Named, q: QueueRef, forked: bool): Flat {
    var id := DialogId(n.callid, n.remoteTag, n.branch, forked);
    Flat(f.queues[n.tag := Entry(q, id)], f.ids[id := n.tag])
  }

  function Deleted(f: Flat, tag: string): Flat {
    if tag in f.queues then
      var e := f.queues[tag];
      Flat(f.queues - {tag}, if e.id != "" then f.ids - {e.id} else f.ids)
    else f
  }

  /** The queue an event for a local tag goes to. */
  function Route(f: Flat, tag: string): Option<QueueRef> {
    if tag in f.queues then Some(f.queues[tag].q) else None
  }

  /** The queue an event for a dialog id goes to. */
  function RouteId(f: Flat, id: string): Option<QueueRef> {
    if id in f.ids then Route(f, f.ids[id]) else None
  }

  /** Every entry with an id is the target of that id, and every id points to a live entry carrying it. */
  ghost predicate Inverse(f: Flat) {
    && (forall t :: t in f.queues && f.queues[t].id != "" ==> f.queues[t].id in f.ids && f.ids[f.queues[t].id] == t)
    && (forall i :: i in f.ids ==> i != "" && f.ids[i] in f.queues && f.queues[f.ids[i]].id == i)
  }

  lemma AddedInverse(f: Flat, tag: string, q: QueueRef)
    requires Inverse(f) && CanAdd(f, tag)
    ensures Inverse(Added(f, tag, q))
    ensures forall t :: Route(Added(f, tag, q), t) == if t == tag then Some(q) else Route(f, t)
    ensures forall i :: RouteId(Added(f, tag, q), i) == RouteId(f, i)
  {
  }

  /** A queue added under a dialog id is found under both names, and nothing else is rerouted. */
  lemma AddedIdInverse(f: Flat, n: Named, q: QueueRef, forked: bool)
    requires Inverse(f) && CanAddId(f, n, forked)
    ensures var r, id := AddedId(f, n, q, forked), DialogId(n.callid, n.remoteTag, n.branch, forked);
      && Inverse(r) && Route(r, n.tag) == Some(q) && RouteId(r, id) == Some(q)
      && (forall t :: t != n.tag ==> Route(r, t) == Route(f, t))
      && (forall i :: i != id ==> RouteId(r, i) == RouteId(f, i))
  {
    var r, id := AddedId(f, n, q, forked), DialogId(n.callid, n.remoteTag, n.branch, forked);
    assert |id| >= |n.callid| > 0;
    forall i | i != id ensures RouteId(r, i) == RouteId(f, i) {
      if i in f.ids { assert f.ids[i] != n.tag; }
    }
  }

  /** A deleted queue is found under neither name, and nothing else is rerouted. */
  lemma DeletedInverse(f: Flat, tag: string)
    requires Inverse(f)
    ensures var r := Deleted(f, tag);
      && Inverse(r) && Route(r, tag) == None
      && (forall t :: t != tag ==> Route(r, t) == Route(f, t))
      && (forall i :: RouteId(r, i) == if i in f.ids && f.ids[i] == tag then None else RouteId(f, i))
  {
    var r := Deleted(f, tag);
    if tag in f.queues {
      var e := f.queues[tag];
      forall i ensures RouteId(r, i) == if i in f.ids && f.ids[i] == tag then None else RouteId(f, i) {
        if i in f.ids && f.ids[i] == tag { assert e.id == i; }
      }
    }
  }

  /** A queue is admitted exactly when none of its names leads to a queue, and a dialog only with all its names. */
  lemma Admitted(f: Flat, n: Named, forked: bool)
    requires Inverse(f)
    ensures CanAdd(f, n.tag) <==> Route(f, n.tag) == None
    ensures CanAddId(f, n, forked) <==>
      && Route(f, n.tag) == None && RouteId(f, DialogId(n.callid, n.remoteTag, n.branch, forked)) == None
      && forall part :: part in [n.tag, n.callid, n.remoteTag, n.branch] ==> part != ""
  {
    assert n.Complete() ==> forall part :: part in [n.tag, n.callid, n.remoteTag, n.branch] ==> part != "";
    assert n.tag in [n.tag, n.callid, n.remoteTag, n.branch] && n.callid in [n.tag, n.callid, n.remoteTag, n.branch];
    assert n.remoteTag in [n.tag, n.callid, n.remoteTag, n.branch] && n.branch in [n.tag, n.callid, n.remoteTag, n.branch];
  }

  /** Adding a named queue and deleting it again restores the tables. */
  lemma AddThenDelete(f: Flat, n: Named, q: QueueRef, forked: bool)
    requires Inverse(f) && CanAddId(f, n, forked)
    ensures Deleted(AddedId(f, n, q, forked), n.tag) == f
  {
    var id := DialogId(n.callid, n.remoteTag, n.branch, forked);
    assert |id| >= |n.callid| > 0;
    var r := AddedId(f, n, q, forked);
    assert r.queues - {n.tag} == f.queues;
    assert r.ids - {id} == f.ids;
  }

  /** Without forked dialogs the branch tells nothing apart: a second dialog of the same call and remote
      tag is refused. */
  lemma BranchMatters(f: Flat, n: Named, m: Named, q: QueueRef, forked: bool)
    requires CanAddId(f, n, forked) && m.Complete() && m.tag != n.tag && m.tag !in f.queues
    requires m.callid == n.callid && m.remoteTag == n.remoteTag
    requires DialogId(m.callid, m.remoteTag, m.branch, forked) !in f.ids
    ensures CanAddId(AddedId(f, n, q, forked), m, forked) <==> forked && m.branch != n.branch
  {
    var p := n.callid + n.remoteTag;
    assert (p + n.branch)[|p|..] == n.branch && (p + m.branch)[|p|..] == m.branch;
  }

  /** Two dialogs share an id, without branches, exactly when Call-ID and remote tag run together to the same text.
      With Call-IDs of one length that means the same Call-ID and the same tag. */
  lemma SharedId(callid: string, tag: string, callid': string, tag': string, branch: string, branch': string)
    ensures DialogId(callid, tag, branch, false) == DialogId(callid', tag', branch', false) <==>
      callid + tag == callid' + tag'
    ensures |callid| == |callid'| && DialogId(callid, tag, branch, false) == DialogId(callid', tag', branch', false) ==>
      callid == callid' && tag == tag'
  {
    var c, d := callid + tag, callid' + tag';
    assert c + "" == c && d + "" == d;
    assert c[..|callid|] == callid && c[|callid|..] == tag;
    assert d[..|callid'|] == callid' && d[|callid'|..] == tag';
  }

  /** The boundary between Call-ID and tag is lost: two different dialogs, one id, and the second is refused. */
  lemma RunTogether(f: Flat, t: string, u: string, q: QueueRef)
    requires t != "" && u != "" && DialogId("ab", "c", "z", false) !in f.ids && t !in f.queues && u !in f.queues
    ensures var n, m := Named(t, "ab", "c", "z"), Named(u, "a", "bc", "z");
      CanAddId(f, n, false) && !CanAddId(AddedId(f, n, q, false), m, false)
  {
    assert "ab" + "c" == "a" + "bc";
  }

  /** With branches the id is that of three texts run together; equal lengths of the first two tell them apart. */
  lemma SharedForkedId(n: Named, m: Named)
    requires |n.callid| == |m.callid| && |n.remoteTag| == |m.remoteTag|
    ensures DialogId(n.callid, n.remoteTag, n.branch, true) == DialogId(m.callid, m.remoteTag, m.branch, true) <==>
      n.callid == m.callid && n.remoteTag == m.remoteTag && n.branch == m.branch
  {
    var c, d := DialogId(n.callid, n.remoteTag, n.branch, true), DialogId(m.callid, m.remoteTag, m.branch, true);
    var i, j := |n.callid|, |n.callid| + |n.remoteTag|;
    assert c[..i] == n.callid && c[i..j] == n.remoteTag && c[j..] == n.branch;
    assert d[..i] == m.callid && d[i..j] == m.remoteTag && d[j..] == m.branch;
  }

  // ---- posting by dialog id, which looks up the tag under one lock and the queue under another ----

  datatype Op = Add(tag: string, q: QueueRef) | AddId(n: Named, q: QueueRef) | Del(tag: string)

  /** The tables with history: every registration has a number of its own. */
  datatype Timed = Timed(f: Flat, reg: map<string, nat>, next: nat)

  function Step(s: Timed, op: Op, forked: bool): Timed {
    match op
    case Add(tag, q) =>
      if CanAdd(s.f, tag) then Timed(Added(s.f, tag, q), s.reg[tag := s.next], s.next + 1) else s
    case AddId(n, q) =>
      if CanAddId(s.f, n, forked) then Timed(AddedId(s.f, n, q, forked), s.reg[n.tag := s.next], s.next + 1) else s
    case Del(tag) => s.(f := Deleted(s.f, tag), reg := s.reg - {tag})
  }

  function Run(s: Timed, ops: seq<Op>, forked: bool): Timed
    decreases |ops|
  {
    if ops == [] then s else Run(Step(s, ops[0], forked), ops[1..], forked)
  }

  ghost predicate Dated(s: Timed) {
    && Inverse(s.f)
    && s.reg.Keys == s.f.queues.Keys
    && forall t :: t in s.reg ==> s.reg[t] < s.next
  }

  lemma StepDated(s: Timed, op: Op, forked: bool)
    requires Dated(s)
    ensures Dated(Step(s, op, forked))
  {
    match op
    case Add(tag, q) => if CanAdd(s.f, tag) { AddedInverse(s.f, tag, q); }
    case AddId(n, q) => if CanAddId(s.f, n, forked) { AddedIdInverse(s.f, n, q, forked); }
    case Del(tag) => DeletedInverse(s.f, tag);
  }

  /** Over any run of registrations and deletions the two tables stay inverse to each other. */
  lemma {:induction false} RunDated(s: Timed, ops: seq<Op>, forked: bool)
    requires Dated(s)
    ensures Dated(Run(s, ops, forked))
    decreases |ops|
  {
    hide Dated;
    if ops != [] {
      StepDated(s, ops[0], forked);
      RunDated(Step(s, ops[0], forked), ops[1..], forked);
    }
  }

  /** A registration numbered below n is still there, or gone for good. */
  lemma StepKeeps(s: Timed, op: Op, forked: bool, t: string, n: nat)
    requires Dated(s) && n < s.next
    ensures var r := Step(s, op, forked);
      && n < r.next
      && (t in r.reg && r.reg[t] == n <==> t in s.reg && s.reg[t] == n && op != Del(t))
      && (t in r.reg && r.reg[t] == n ==> t in r.f.queues && t in s.f.queues && r.f.queues[t] == s.f.queues[t])
  {
  }

  /** A tag keeps its registration over a run exactly when it is not deleted in it. */
  lemma {:induction false} RunKeeps(s: Timed, ops: seq<Op>, forked: bool, t: string, n: nat)
    requires Dated(s) && n < s.next
    ensures var r := Run(s, ops, forked);
      && (t in r.reg && r.reg[t] == n <==> t in s.reg && s.reg[t] == n && Del(t) !in ops)
      && (t in r.reg && r.reg[t] == n ==> t in r.f.queues && t in s.f.queues && r.f.queues[t] == s.f.queues[t])
    decreases |ops|
  {
    if ops != [] {
      var s1 := Step(s, ops[0], forked);
      StepDated(s, ops[0], forked);
      StepKeeps(s, ops[0], forked, t, n);
      RunKeeps(s1, ops[1..], forked, t, n);
      assert ops == [ops[0]] + ops[1..];
    }
  }

  /** Where an event goes that is posted for a dialog id: the tag is looked up in s, then `ops` happen, then the
      queue is looked up. It goes to the queue that carried the id, as if posted at once, exactly when the tag is
      not deleted in between. Otherwise it fails if the tag is gone, and if the tag was registered again it goes to
      that other registration. */
  lemma PostedLate(s: Timed, ops: seq<Op>, forked: bool, id: string)
    requires Dated(s) && id in s.f.ids
    ensures var t, r := s.f.ids[id], Run(s, ops, forked);
      && t in s.reg
      && (t in r.reg && r.reg[t] == s.reg[t] <==> Del(t) !in ops)
      && (Del(t) !in ops ==> Route(r.f, t) == RouteId(s.f, id) == RouteId(r.f, id))
      && (Del(t) in ops ==> if t in r.reg then r.reg[t] != s.reg[t] && Route(r.f, t).Some? else Route(r.f, t) == None)
  {
    var t := s.f.ids[id];
    RunDated(s, ops, forked);
    RunKeeps(s, ops, forked, t, s.reg[t]);
  }

  /** An event for one dialog that reaches another one: the tag is registered again, under another id, between the
      two look-ups. */
  lemma StaleTagMisroutes(s: Timed, id: string, m: Named, q: QueueRef, forked: bool)
    requires Dated(s) && id in s.f.ids && m.tag == s.f.ids[id] && m.Complete()
    requires DialogId(m.callid, m.remoteTag, m.branch, forked) !in s.f.ids
    ensures var r := Run(s, [Del(m.tag), AddId(m, q)], forked).f;
      Route(r, m.tag) == Some(q) && r.queues[m.tag].id != id && RouteId(r, id) == None
  {
    var s1 := Step(s, Del(m.tag), forked);
    DeletedInverse(s.f, m.tag);
    var s2 := Step(s1, AddId(m, q), forked);
    AddedIdInverse(s1.f, m, q, forked);
    var ops := [Del(m.tag), AddId(m, q)];
    assert ops[1..][1..] == [];
    assert Run(s, ops, forked) == Run(s1, ops[1..], forked) == s2;
  }

  // ---- the bucketed tables ----

  /** The bucket of a key, for any hash function. */
  function Bucket(hash: string -> nat, k: string, n: nat): nat
    requires n > 0
    ensures Bucket(hash, k, n) < n
  {
    hash(k) % n
  }

  /** The table holds exactly the entries of m, every key in the bucket of its hash. */
  ghost predicate Holds<V>(hash: string -> nat, table: seq<map<string, V>>, m: map<string, V>) {
    && |table| > 0
    && (forall b, k :: 0 <= b < |table| && k in table[b] ==>
          b == Bucket(hash, k, |table|) && k in m && m[k] == table[b][k])
    && (forall k :: k in m ==> k in table[Bucket(hash, k, |table|)])
  }

  /** Looking a key up in its bucket is looking it up in the flat map. */
  lemma HoldsLookup<V>(hash: string -> nat, table: seq<map<string, V>>, m: map<string, V>, k: string)
    requires Holds(hash, table, m)
    ensures var b := Bucket(hash, k, |table|);
      (k in table[b] <==> k in m) && (k in m ==> table[b][k] == m[k])
  {
  }

  lemma HoldsPut<V>(hash: string -> nat, table: seq<map<string, V>>, m: map<string, V>, k: string, v: V)
    requires Holds(hash, table, m)
    ensures var b := Bucket(hash, k, |table|); Holds(hash, table[b := table[b][k := v]], m[k := v])
  {
  }

  lemma HoldsErase<V>(hash: string -> nat, table: seq<map<string, V>>, m: map<string, V>, k: string)
    requires Holds(hash, table, m)
    ensures var b := Bucket(hash, k, |table|); Holds(hash, table[b := table[b] - {k}], m - {k})
  {
  }

  class Dispatcher {
    const hash: string -> nat
    const forked: bool
    const queues: array<map<string, Entry>>
    const ids: array<map<string, string>>
    /** Events handed to queues, in order. */
    var posted: seq<(QueueRef, Ev)>
    ghost var flat: Flat

    ghost predicate Valid()
      reads this, queues, ids
    {
      Holds(hash, queues[..], flat.queues) && Holds(hash, ids[..], flat.ids) && Inverse(flat)
    }

    constructor (n: nat, h: string -> nat, f: bool)
      requires n > 0
      ensures Valid() && fresh(queues) && fresh(ids) && flat == EMPTY && posted == [] && forked == f
    {
      hash, forked := h, f;
      queues := new map<string, Entry>[n](_ => map[]);
      ids := new map<string, string>[n](_ => map[]);
      posted, flat := [], EMPTY;
    }

    method AddEventQueue(tag: string, q: QueueRef) returns (ok: bool)
      requires Valid()
      modifies queues, this`flat
      ensures Valid() && ok == CanAdd(old(flat), tag)
      ensures flat == if ok then Added(old(flat), tag, q) else old(flat)
    {
      hide Holds, Bucket;
      NotEmpty(hash, queues[..], flat.queues);
      HoldsLookup(hash, queues[..], flat.queues, tag);
      var b := Bucket(hash, tag, queues.Length);
      if tag in queues[b] {
        return false;
      }
      AddedInverse(flat, tag, q);
      HoldsPut(hash, queues[..], flat.queues, tag, Entry(q, ""));
      queues[b] := queues[b][tag := Entry(q, "")];
      flat := Added(flat, tag, q);
      return true;
    }

    method AddEventQueueId(n: Named, q: QueueRef) returns (ok: bool)
      requires Valid()
      modifies queues, ids, this`flat
      ensures Valid() && ok == CanAddId(old(flat), n, forked)
      ensures flat == if ok then AddedId(old(flat), n, q, forked) else old(flat)
    {
      hide Holds, Bucket, DialogId, Inverse;
      if n.tag == "" || n.callid == "" || n.remoteTag == "" || n.branch == "" {
        return false;
      }
      NotEmpty(hash, queues[..], flat.queues);
      NotEmpty(hash, ids[..], flat.ids);
      HoldsLookup(hash, queues[..], flat.queues, n.tag);
      var b := Bucket(hash, n.tag, queues.Length);
      if n.tag in queues[b] {
        return false;
      }
      var id := DialogId(n.callid, n.remoteTag, n.branch, forked);
      HoldsLookup(hash, ids[..], flat.ids, id);
      var c := Bucket(hash, id, ids.Length);
      if id in ids[c] {
        return false;
      }
      AddedIdInverse(flat, n, q, forked);
      HoldsPut(hash, queues[..], flat.queues, n.tag, Entry(q, id));
      HoldsPut(hash, ids[..], flat.ids, id, n.tag);
      queues[b] := queues[b][n.tag := Entry(q, id)];
      ids[c] := ids[c][id := n.tag];
      flat := AddedId(flat, n, q, forked);
      return true;
    }

    method DelEventQueue(tag: string) returns (q: Option<QueueRef>)
      requires Valid()
      modifies queues, ids, this`flat
      ensures Valid() && q == Route(old(flat), tag) && flat == Deleted(old(flat), tag)
    {
      hide Holds, Bucket;
      NotEmpty(hash, queues[..], flat.queues);
      NotEmpty(hash, ids[..], flat.ids);
      HoldsLookup(hash, queues[..], flat.queues, tag);
      var b := Bucket(hash, tag, queues.Length);
      if tag !in queues[b] {
        return None;
      }
      var e := queues[b][tag];
      DeletedInverse(flat, tag);
      HoldsErase(hash, queues[..], flat.queues, tag);
      queues[b] := queues[b] - {tag};
      if e.id != "" {
        HoldsLookup(hash, ids[..], flat.ids, e.id);
        HoldsErase(hash, ids[..], flat.ids, e.id);
        var c := Bucket(hash, e.id, ids.Length);
        if e.id in ids[c] {
          ids[c] := ids[c] - {e.id};
        }
      }
      flat := Deleted(flat, tag);
      return Some(e.q);
    }

    method Post(tag: string, ev: Ev) returns (ok: bool)
      requires Valid()
      modifies this`posted
      ensures Valid() && ok == Route(flat, tag).Some?
      ensures posted == old(posted) + match Route(flat, tag) case Some(q) => [(q, ev)] case None => []
    {
      hide Holds, Bucket, Inverse;
      NotEmpty(hash, queues[..], flat.queues);
      HoldsLookup(hash, queues[..], flat.queues, tag);
      var b := Bucket(hash, tag, queues.Length);
      ok := tag in queues[b];
      if ok {
        posted := posted + [(queues[b][tag].q, ev)];
      }
    }

    /** The first half of post by dialog id, under the lock of the id's bucket. */
    method LookUp(callid: string, remoteTag: string, branch: string) returns (tag: Option<string>)
      requires Valid()
      ensures var id := DialogId(callid, remoteTag, branch, forked);
        tag == if id in flat.ids then Some(flat.ids[id]) else None
    {
      hide Holds, Bucket, Inverse;
      var id := DialogId(callid, remoteTag, branch, forked);
      NotEmpty(hash, ids[..], flat.ids);
      HoldsLookup(hash, ids[..], flat.ids, id);
      var b := Bucket(hash, id, ids.Length);
      tag := if id in ids[b] then Some(ids[b][id]) else None;
    }

    /** post by dialog, and postSipRequest, which differs only in when the event is made; nobody interferes between
        the two look-ups. */
    method PostById(callid: string, remoteTag: string, branch: string, ev: Ev) returns (ok: bool)
      requires Valid()
      modifies this`posted
      ensures var to := RouteId(flat, DialogId(callid, remoteTag, branch, forked));
        && ok == to.Some?
        && posted == old(posted) + match to case Some(q) => [(q, ev)] case None => []
    {
      hide Holds, Inverse;
      var tag := LookUp(callid, remoteTag, branch);
      if tag.None? {
        return false;
      }
      ok := Post(tag.value, ev);
    }
  }

  lemma NotEmpty<V>(hash: string -> nat, table: seq<map<string, V>>, m: map<string, V>)
    requires Holds(hash, table, m)
    ensures |table| > 0
  {
  }
}
