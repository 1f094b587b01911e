/** The jitter buffer as it sits in memory: a fixed pool of packets threaded into a doubly
    linked list, ordered by timestamp, and a singly linked free list. */
module JitterBuffer {
  import opened Collections
  import opened Serial32
  import opened JitterSpec

  class Packet {
    var data: Samples
    var ts: u32
    var next: Packet?
    var prev: Packet?

    constructor ()
      ensures next == null && prev == null
    {
      data, ts, next, prev := [], 0, null, null;
    }

    method Init(samples: seq<int>, t: u32)
      modifies this`data, this`ts
      ensures data == Truncated(samples) && ts == t
    {
      data := if |samples| > PACKET_SAMPLES then samples[..PACKET_SAMPLES] else samples;
      ts := t;
    }
  }

  ghost predicate Distinct(s: seq<Packet>) {
    forall i, j :: 0 <= i < j < |s| ==> s[i] != s[j]
  }

  ghost predicate AllInPool(pool: set<Packet>, s: seq<Packet>) {
    forall i :: 0 <= i < |s| ==> s[i] in pool
  }

  /** The two lists share no packet, `held` is in neither, and none of the pool is missing. */
  ghost predicate Parted(pool: set<Packet>, list: seq<Packet>, free: seq<Packet>, held: set<Packet>) {
    && |pool| == CAPACITY && |list| + |free| + |held| == CAPACITY
    && held <= pool
    && (forall i, j :: 0 <= i < |list| && 0 <= j < |free| ==> list[i] != free[j])
    && (forall i :: 0 <= i < |list| ==> list[i] !in held)
    && (forall i :: 0 <= i < |free| ==> free[i] !in held)
  }

  lemma PartedSplice(pool: set<Packet>, list: seq<Packet>, free: seq<Packet>, k: nat, x: Packet)
    requires Parted(pool, list, free, {x}) && AllInPool(pool, list) && k <= |list|
    ensures Parted(pool, Splice(list, k, x), free, {}) && AllInPool(pool, Splice(list, k, x))
  {
    var r := Splice(list, k, x);
    SpliceAt(list, k, x);
    forall i | 0 <= i < |r| ensures r[i] in pool && forall j :: 0 <= j < |free| ==> r[i] != free[j] {
      if i < k { assert r[i] == list[i]; } else if i > k { assert r[i] == list[i - 1]; }
    }
  }

  lemma HoldsSplice(list: seq<Packet>, c: seq<Pkt>, k: nat, x: Packet)
    requires Holds(list, c) && k <= |list|
    ensures Holds(Splice(list, k, x), Splice(c, k, Pkt(x.data, x.ts)))
  {
    SpliceAt(list, k, x);
    SpliceAt(c, k, Pkt(x.data, x.ts));
  }

  /** Neighbours in s point at each other. */
  ghost predicate Chained(s: seq<Packet>)
    reads s
  {
    forall i, j :: 0 <= i < j < |s| && j == i + 1 ==> s[i].next == s[j] && s[j].prev == s[i]
  }

  /** The packets of s carry the values c. */
  ghost predicate Holds(s: seq<Packet>, c: seq<Pkt>)
    reads s
  {
    |c| == |s| && forall i :: 0 <= i < |s| ==> c[i] == Pkt(s[i].data, s[i].ts)
  }

  ghost function Splice<T>(s: seq<T>, k: nat, x: T): (r: seq<T>)
    requires k <= |s|
    ensures |r| == |s| + 1
    ensures r[0] == if k == 0 then x else s[0]
    ensures k < |s| ==> r[|s|] == s[|s| - 1]
  {
    s[..k] + [x] + s[k..]
  }

  lemma SpliceAt<T>(s: seq<T>, k: nat, x: T)
    requires k <= |s|
    ensures forall i :: 0 <= i < |s| + 1 ==>
      Splice(s, k, x)[i] == if i < k then s[i] else if i == k then x else s[i - 1]
  {
    assert Splice(s, k, x) == s[..k] + [x] + s[k..];
  }

  /** Linking x in front of the k-th packet chains the spliced sequence. */
  lemma ChainedSplice(s: seq<Packet>, k: nat, x: Packet)
    requires k < |s| && x !in s && Distinct(s)
    requires Chained(s[..k]) && Chained(s[k..])
    requires x.next == s[k] && s[k].prev == x
    requires k > 0 ==> x.prev == s[k - 1] && s[k - 1].next == x
    ensures Chained(Splice(s, k, x)) && Distinct(Splice(s, k, x))
  {
    var r := Splice(s, k, x);
    SpliceAt(s, k, x);
    forall i, j | 0 <= i < j < |r| && j == i + 1 ensures r[i].next == r[j] && r[j].prev == r[i] {
      if j < k {
        assert r[i] == s[..k][i] && r[j] == s[..k][j];
      } else if i > k {
        assert r[i] == s[k..][i - 1 - k] && r[j] == s[k..][j - 1 - k];
      }
    }
  }

  lemma DistinctSize(s: seq<Packet>)
    requires Distinct(s)
    ensures |set p | p in s| == |s|
  {
    if s != [] {
      DistinctSize(s[1..]);
      assert (set p | p in s) == {s[0]} + (set p | p in s[1..]);
    }
  }

  lemma SubsetFull(a: set<Packet>, b: set<Packet>)
    requires a <= b && |a| == |b|
    ensures a == b
  {
    assert |b - a| == |b| - |a|;
  }

  class Buffer {
    ghost var pool: set<Packet>
    ghost var list: seq<Packet>
    ghost var free: seq<Packet>
    ghost var contents: seq<Pkt>

    var freeHead: Packet?
    var head: Packet?
    var tail: Packet?
    var tsInited: bool
    var lastTs: u32
    var lastResyncTs: u32
    var lastAudioTs: u32
    var tsDelta: u32
    var tsDeltaInited: bool
    var delayCount: int
    var jitter: u32
    var forceResync: bool

    /** head, tail, next and prev thread exactly the packets of `list`, in that order. */
    ghost predicate ListLinked()
      reads this`pool, this`list, this`head, this`tail, pool
    {
      && AllInPool(pool, list)
      && Distinct(list) && Chained(list)
      && (list == [] ==> head == null && tail == null)
      && (list != [] ==> head == list[0] && tail == list[|list| - 1] && head.prev == null && tail.next == null)
    }

    ghost predicate FreeLinked()
      reads this`pool, this`free, this`freeHead, pool
    {
      && AllInPool(pool, free)
      && Distinct(free)
      && (free == [] ==> freeHead == null)
      && (free != [] ==> freeHead == free[0] && free[|free| - 1].next == null)
      && (forall i, j :: 0 <= i < j < |free| && j == i + 1 ==> free[i].next == free[j])
    }

    ghost predicate Stores()
      reads this`pool, this`list, this`contents, pool
    {
      && AllInPool(pool, list)
      && Holds(list, contents)
    }

    ghost predicate Threaded(held: set<Packet>)
      reads this`pool, this`list, this`contents, this`free, this`freeHead, this`head, this`tail, pool
    {
      ListLinked() && FreeLinked() && Parted(pool, list, free, held) && Stores()
    }

    /** The packets in the two lists and in hand are exactly the fixed pool. */
    lemma Covered(held: set<Packet>)
      requires ListLinked() && FreeLinked() && Parted(pool, list, free, held)
      ensures (set p | p in list) + (set p | p in free) + held == pool
    {
      var a, b := set p | p in list, set p | p in free;
      DistinctSize(list);
      DistinctSize(free);
      assert a !! b && a + b !! held;
      SubsetFull(a + b + held, pool);
    }

    ghost function GetClock(): Clock
      reads this
    {
      Clock(tsInited, lastTs, lastResyncTs, lastAudioTs, tsDelta, tsDeltaInited, delayCount, forceResync)
    }

    ghost function View(): Jb
      reads this
    {
      Jb(contents, jitter, GetClock())
    }

    ghost predicate Valid()
      reads this`pool, this`list, this`contents, this`free, this`freeHead, this`head, this`tail, pool
    {
      Threaded({})
    }

    /** The pool of PacketAllocator, all of it on the free list. */
    constructor ()
      ensures Valid() && fresh(pool) && View() == EMPTY
    {
      list, contents := [], [];
      head, tail := null, null;
      tsInited, lastTs, lastResyncTs, lastAudioTs := false, 0, 0, 0;
      tsDelta, tsDeltaInited, delayCount, jitter, forceResync := 0, false, 0, INITIAL_JITTER, false;
      var last := new Packet();
      freeHead := last;
      free, pool := [last], {last};
      new;
      for i := 1 to CAPACITY
        invariant fresh(pool) && |free| == |pool| == i && list == [] && contents == []
        invariant FreeLinked() && free[i - 1] == last
        invariant head == null && tail == null && View() == EMPTY
      {
        last := Extend(last);
      }
    }

    /** One more packet at the end of the free list. */
    method Extend(last: Packet) returns (p: Packet)
      requires FreeLinked() && free != [] && free[|free| - 1] == last
      modifies this`free, this`pool, last`next
      ensures fresh(p) && free == old(free) + [p] && pool == old(pool) + {p} && FreeLinked()
    {
      p := new Packet();
      assert p !in free;
      last.next := p;
      free, pool := free + [p], pool + {p};
    }

    /** What the head pointer says about the contents. */
    lemma HeadIs()
      requires Threaded({})
      ensures head == null <==> contents == []
      ensures head != null ==> contents[0] == Pkt(head.data, head.ts)
      ensures |list| == |contents| && |list| + |free| == CAPACITY
    {
    }

    /** m_allocator.alloc: unlinks the first free packet, or fails when none is left. */
    method Alloc(samples: seq<int>, t: u32) returns (p: Packet?)
      requires Threaded({})
      modifies this`freeHead, this`free, pool
      ensures pool == old(pool)
      ensures p == null <==> old(free) == []
      ensures p == null ==> Threaded({}) && free == old(free)
      ensures p != null ==> Threaded({p}) && free == old(free)[1..] && p.data == Truncated(samples) && p.ts == t
    {
      p := freeHead;
      if p == null {
        return;
      }
      assert |free| > 1 ==> p.next == free[1];
      freeHead := p.next;
      free := free[1..];
      p.Init(samples, t);
      p.next, p.prev := null, null;
    }

    /** m_allocator.free */
    method Free(p: Packet)
      requires Threaded({p})
      modifies this`freeHead, this`free, p
      ensures Threaded({}) && free == [p] + old(free)
    {
      p.prev := null;
      p.next := freeHead;
      freeHead := p;
      free := [p] + free;
    }

    /** Unlinks the head of the list. */
    method PopHead() returns (p: Packet)
      requires Threaded({}) && contents != []
      modifies this`head, this`tail, this`list, this`contents, pool
      ensures Threaded({p}) && pool == old(pool)
      ensures contents == old(contents)[1..] && list == old(list)[1..]
      ensures p.ts == old(contents)[0].ts && p.data == old(contents)[0].data && p in pool
    {
      p := head;
      assert p == list[0];
      assert |list| > 1 ==> p.next == list[1];
      head := p.next;
      if head == null {
        tail := null;
      } else {
        head.prev := null;
      }
      list, contents := list[1..], contents[1..];
    }

    /** The empty list: elem becomes head and tail. */
    method PushFirst(elem: Packet)
      requires Threaded({elem}) && list == []
      modifies this`head, this`tail, this`list, this`contents, elem
      ensures Threaded({}) && contents == [Pkt(elem.data, elem.ts)]
      ensures elem.data == old(elem.data) && elem.ts == old(elem.ts)
    {
      head, tail := elem, elem;
      elem.next, elem.prev := null, null;
      list, contents := [elem], [Pkt(elem.data, elem.ts)];
    }

    /** elem is later than the tail. */
    method PushTail(elem: Packet)
      requires Threaded({elem}) && list != []
      modifies this`tail, this`list, this`contents, elem, pool
      ensures Threaded({}) && pool == old(pool)
      ensures contents == old(contents) + [Pkt(old(elem.data), old(elem.ts))]
    {
      var t := tail;
      assert t == list[|list| - 1];
      t.next := elem;
      elem.prev := t;
      tail := elem;
      elem.next := null;
      list, contents := list + [elem], contents + [Pkt(elem.data, elem.ts)];
    }

    /** The pointers are as if elem stood in front of the k-th packet of `list`. */
    ghost predicate LinkedBefore(elem: Packet, k: nat)
      reads this`pool, this`list, this`head, this`tail, pool, elem
    {
      && AllInPool(pool, list) && k < |list| && elem !in list
      && Chained(list[..k]) && Chained(list[k..])
      && tail == list[|list| - 1] && tail.next == null
      && elem.next == list[k] && list[k].prev == elem
      && (k > 0 ==> elem.prev == list[k - 1] && list[k - 1].next == elem && head == list[0] && head.prev == null)
      && (k == 0 ==> elem.prev == null && head == elem)
    }

    /** The four pointer updates that link elem in front of packet at, the k-th of the list. */
    method LinkBefore(elem: Packet, at: Packet, ghost k: nat)
      requires ListLinked() && elem in pool && elem !in list && k < |list| && list[k] == at
      modifies this`head, elem`next, elem`prev, list`next, list`prev
      ensures LinkedBefore(elem, k)
    {
      assert k > 0 ==> list[k].prev == list[k - 1];
      var before := at.prev;
      elem.prev := before;
      if before != null {
        before.next := elem;
      } else {
        head := elem;
      }
      at.prev := elem;
      elem.next := at;
    }

    ghost method Record(elem: Packet, k: nat)
      requires LinkedBefore(elem, k) && FreeLinked() && Stores() && Distinct(list) && Parted(pool, list, free, {elem})
      modifies this`list, this`contents
      ensures Threaded({})
      ensures contents == Splice(old(contents), k, Pkt(elem.data, elem.ts))
    {
      assert elem !in list;
      hide Holds, Parted, Chained;
      ChainedSplice(list, k, elem);
      PartedSplice(pool, list, free, k, elem);
      HoldsSplice(list, contents, k, elem);
      list, contents := Splice(list, k, elem), Splice(contents, k, Pkt(elem.data, elem.ts));
    }

    /** elem is out of order: it goes in front of packet at, the k-th of the list. */
    method InsertBefore(elem: Packet, at: Packet, ghost k: nat)
      requires Threaded({elem}) && k < |list| && list[k] == at
      modifies this`head, this`list, this`contents, pool`next, pool`prev
      ensures Threaded({})
      ensures contents == Splice(old(contents), k, Pkt(elem.data, elem.ts))
    {
      hide LinkedBefore, Chained;
      LinkBefore(elem, at, k);
      Record(elem, k);
    }

    /** The head of a list of several packets is cut off. */
    method CutHead() returns (elem: Packet)
      requires Threaded({}) && |list| >= 2
      modifies this`head, this`list, this`contents, pool
      ensures Threaded({elem}) && pool == old(pool) && contents == old(contents)[1..]
    {
      elem := head;
      assert elem == list[0] && elem.next == list[1];
      head := head.next;
      head.prev := null;
      list, contents := list[1..], contents[1..];
    }

    /** A full pool recycles the head of the list. */
    method RecycleHead(samples: seq<int>, t: u32) returns (elem: Packet)
      requires Threaded({}) && |list| >= 2
      modifies this`head, this`list, this`contents, pool
      ensures Threaded({elem}) && pool == old(pool)
      ensures contents == old(contents)[1..] && elem.data == Truncated(samples) && elem.ts == t
    {
      elem := CutHead();
      elem.Init(samples, t);
    }

    /** Searches backward from the tail for the packet to insert in front of. */
    method Search(elem: Packet) returns (at: Packet, ghost k: nat)
      requires Threaded({elem}) && list != []
      ensures k < |list| && list[k] == at && k == InsertPos(contents, elem.ts, |contents| - 1)
    {
      at := tail;
      k := |list| - 1;
      while at.prev != null && TsLess(elem.ts, at.prev.ts)
        invariant k < |list| && list[k] == at
        invariant InsertPos(contents, elem.ts, |contents| - 1) == InsertPos(contents, elem.ts, k)
        decreases k
      {
        at := at.prev;
        k := k - 1;
      }
    }

    method Place(elem: Packet)
      requires Threaded({elem})
      modifies this`head, this`tail, this`list, this`contents, pool
      ensures Threaded({}) && pool == old(pool)
      ensures contents == Inserted(old(contents), Pkt(old(elem.data), old(elem.ts)))
    {
      if tail == null {
        PushFirst(elem);
      } else if TsLess(tail.ts, elem.ts) {
        PushTail(elem);
      } else {
        var at, k := Search(elem);
        InsertBefore(elem, at, k);
      }
    }

    /** Raises the jitter estimate for an early packet; a packet found too late is refused. */
    method Arrive(t: u32, beginTalk: bool) returns (late: bool)
      modifies this`jitter, this`forceResync
      ensures GetClock() == Begun(old(GetClock()), beginTalk)
      ensures jitter == NewJitter(GetClock(), old(jitter), t) && late == TooLate(GetClock(), old(jitter), t)
    {
      if beginTalk {
        forceResync := true;
      }
      late := false;
      if tsInited && !forceResync && TsLess(Plus(lastTs, jitter), t) {
        var delay := Minus(t, lastTs);
        if delay > jitter && jitter < MAX_JITTER {
          jitter := jitter + (delay - jitter) / 2;
          if jitter > MAX_JITTER {
            jitter := MAX_JITTER;
          }
        }
        late := TsLess(Plus(t, jitter), lastTs);
      }
    }

    method Store(samples: seq<int>, t: u32)
      requires Threaded({})
      modifies this`freeHead, this`free, this`head, this`tail, this`list, this`contents, pool
      ensures Threaded({}) && pool == old(pool)
      ensures contents == Inserted(MakeRoom(old(contents)), Pkt(Truncated(samples), t))
    {
      hide Threaded;
      HeadIs();
      var elem := Alloc(samples, t);
      if elem == null {
        elem := RecycleHead(samples, t);
      }
      Place(elem);
    }

    method Advance(t: u32)
      modifies this`lastTs, this`tsInited
      ensures GetClock() == Latest(old(GetClock()), t)
    {
      if !tsInited {
        lastTs := t;
        tsInited := true;
      } else if TsLess(lastTs, t) || forceResync {
        lastTs := t;
      }
    }

    method Accept(samples: seq<int>, t: u32)
      requires Valid()
      modifies this`freeHead, this`free, this`head, this`tail, this`list, this`contents, this`lastTs, this`tsInited, pool
      ensures Valid() && pool == old(pool)
      ensures View() == Stored(old(View()), samples, t)
    {
      hide Threaded;
      Store(samples, t);
      Advance(t);
    }

    method Put(samples: seq<int>, t: u32, beginTalk: bool)
      requires Valid()
      modifies this, pool
      ensures Valid() && pool == old(pool)
      ensures View() == JitterSpec.Put(old(View()), samples, t, beginTalk)
    {
      hide Threaded;
      var late := Arrive(t, beginTalk);
      if late {
        return;
      }
      Accept(samples, t);
    }

    /** Recomputes the offset between RTP and audio clock. */
    method Resync(t: u32, ms: u32)
      modifies this`tsDelta, this`tsDeltaInited, this`lastAudioTs, this`forceResync, this`delayCount, this`lastResyncTs
      ensures GetClock() == Resynced(old(GetClock()), jitter, t, ms)
    {
      var target := Plus(Minus(lastTs, t), ms);
      if !tsDeltaInited || forceResync {
        tsDelta := target;
        tsDeltaInited := true;
        lastAudioTs := t;
        forceResync := false;
      } else if lastAudioTs != t && lastResyncTs != lastTs {
        if TsLess(Plus(t, tsDelta), lastTs) {
          tsDelta := Plus(tsDelta, target);
          delayCount := 0;
        } else if TsLess(lastTs, Minus(Plus(t, tsDelta), jitter / 2)) {
          if delayCount > RESYNC_THRESHOLD {
            var d := Minus(tsDelta, target);
            tsDelta := Minus(tsDelta, d / 2);
          } else {
            delayCount := delayCount + 1;
          }
        } else {
          delayCount := 0;
        }
        lastResyncTs := lastTs;
      }
      lastAudioTs := t;
    }

    /** Throws away the packets at the head that end before g. */
    method Prune(g: u32)
      requires Threaded({})
      modifies this`freeHead, this`free, this`head, this`tail, this`list, this`contents, pool
      ensures Threaded({}) && pool == old(pool) && contents == Pruned(old(contents), g)
    {
      hide Threaded, Pruned, Plus, TsLess;
      HeadIs();
      while head != null && TsLess(Plus(head.ts, |head.data|), g)
        invariant Threaded({}) && pool == old(pool)
        invariant |list| == |contents| && (head == null <==> contents == [])
        invariant head != null ==> contents[0] == Pkt(head.data, head.ts)
        invariant Pruned(contents, g) == Pruned(old(contents), g)
        decreases |list|
      {
        PrunedTail(contents, g);
        var p := PopHead();
        Free(p);
        HeadIs();
      }
      PrunedDone(contents, g);
    }

    method Fetch(t: u32, ms: u32) returns (frame: Option<Frame>)
      requires Valid()
      modifies this`freeHead, this`free, this`head, this`tail, this`list, this`contents, pool
      ensures Valid() && pool == old(pool)
      ensures frame == Fetched(old(View()), t, ms).frame
      ensures View() == Fetched(old(View()), t, ms).state
    {
      hide Threaded, Pruned, Plus, Minus, TsLess, Fetched;
      var g := Minus(Plus(t, tsDelta), jitter);
      Prune(g);
      HeadIs();
      ghost var c := contents;
      frame := None;
      if head != null && TsLess(head.ts, Plus(g, ms)) {
        var p := PopHead();
        // the RTP timestamp is mapped to the internal audio timestamp
        frame := Some(Frame(p.data, Plus(Minus(p.ts, tsDelta), jitter)));
        Free(p);
      }
      FetchedIs(old(View()), t, ms, c, View(), frame);
    }

    method Get(t: u32, ms: u32) returns (frame: Option<Frame>)
      requires Valid()
      modifies this, pool
      ensures Valid() && pool == old(pool)
      ensures frame == JitterSpec.Get(old(View()), t, ms).frame
      ensures View() == JitterSpec.Get(old(View()), t, ms).state
    {
      hide Threaded;
      if !tsInited {
        return None;
      }
      Resync(t, ms);
      assert View() == Ready(old(View()), t, ms);
      frame := Fetch(t, ms);
    }

    /** The loop of AmJbPlayout::prepare_buffer: takes packets for one timestamp until none is due. */
    method PrepareBuffer(t: u32, ms: u32) returns (frames: seq<Frame>)
      requires Valid()
      modifies this, pool
      ensures Valid() && pool == old(pool)
      ensures frames == Drain(old(View()), t, ms).frames
      ensures View() == Drain(old(View()), t, ms).state
    {
      hide Threaded, JitterSpec.Get, Drain;
      frames := [];
      var frame := Get(t, ms);
      DrainStep(old(View()), t, ms);
      while frame.Some?
        invariant Valid() && pool == old(pool)
        invariant frame.Some? ==> Drain(old(View()), t, ms).frames == frames + [frame.value] + Drain(View(), t, ms).frames
        invariant frame.None? ==> Drain(old(View()), t, ms).frames == frames
        invariant frame.Some? ==> Drain(old(View()), t, ms).state == Drain(View(), t, ms).state
        invariant frame.None? ==> Drain(old(View()), t, ms).state == View()
        decreases |contents|, if frame.Some? then 1 else 0
      {
        frames := frames + [frame.value];
        DrainStep(View(), t, ms);
        frame := Get(t, ms);
      }
    }
  }
}
