/** What the jitter buffer computes, on values: the specification that the linked list of
    module JitterBuffer implements, and the properties of every run of it. */
module JitterSpec {

  import opened Collections
  import opened Serial32

  /** SYSTEM_SAMPLECLOCK_RATE is 32000; the buffer constants are derived from it. */
  const INITIAL_JITTER: u32 := 80 * 32000 / 1000
  const MAX_JITTER: u32 := 2 * 32000
  const RESYNC_THRESHOLD: int := 5
  /** Packets in the fixed pool: MAX_JITTER / 80. */
  const CAPACITY: nat := 800
  /** Samples that fit in one packet: AUDIO_BUFFER_SIZE * 2. */
  const PACKET_SAMPLES: nat := 16384

  type Samples = s: seq<int> | |s| <= 16384

  datatype Pkt = Pkt(data: Samples, ts: u32) {
    /** Timestamp of the first sample after the packet. */
    function End(): u32 { Plus(ts, |data|) }
  }

  /** The timestamp bookkeeping of the buffer. */
  datatype Clock = Clock(
    tsInited: bool, lastTs: u32, lastResyncTs: u32, lastAudioTs: u32,
    tsDelta: u32, tsDeltaInited: bool, delayCount: int, forceResync: bool)

  datatype Jb = Jb(contents: seq<Pkt>, jitter: u32, clock: Clock)

  const EMPTY: Jb := Jb([], INITIAL_JITTER, Clock(false, 0, 0, 0, 0, false, 0, false))

  /** A packet handed out by get: its samples and its audio timestamp. */
  datatype Frame = Frame(data: Samples, ts: u32)

  /** Outcome of one get: the new state and the packet delivered, if any. */
  datatype Got = Got(state: Jb, frame: Option<Frame>)

  /** Outcome of draining: the new state and the packets delivered. */
  datatype Drained = Drained(state: Jb, frames: seq<Frame>)

  function Truncated(data: seq<int>): (r: Samples)
    ensures r <= data && (|data| <= PACKET_SAMPLES ==> r == data)
  {
    if |data| > PACKET_SAMPLES then data[..PACKET_SAMPLES] else data
  }

  // ---- put ----

  /** Jitter estimate after a packet with timestamp ts arrived ahead of lastTs + jitter. */
  function RaisedJitter(jitter: u32, lastTs: u32, ts: u32): u32
  {
    var delay := Minus(ts, lastTs);
    if delay > jitter && jitter < MAX_JITTER then
      var j := jitter + (delay - jitter) / 2;
      if j > MAX_JITTER then MAX_JITTER else j
    else jitter
  }

  predicate Ahead(k: Clock, jitter: u32, ts: u32) {
    k.tsInited && !k.forceResync && TsLess(Plus(k.lastTs, jitter), ts)
  }

  /** Where the backward search from the tail stops. */
  function InsertPos(c: seq<Pkt>, ts: u32, k: nat): (p: nat)
    requires k < |c|
    ensures p <= k
    ensures forall j :: p <= j < k ==> TsLess(ts, c[j].ts)
    ensures p > 0 ==> !TsLess(ts, c[p - 1].ts)
  {
    if k > 0 && TsLess(ts, c[k - 1].ts) then InsertPos(c, ts, k - 1) else k
  }

  function InsertIndex(c: seq<Pkt>, ts: u32): (p: nat)
    ensures p <= |c|
  {
    if |c| == 0 || TsLess(c[|c| - 1].ts, ts) then |c| else InsertPos(c, ts, |c| - 1)
  }

  function Inserted(c: seq<Pkt>, p: Pkt): seq<Pkt> {
    var k := InsertIndex(c, p.ts);
    c[..k] + [p] + c[k..]
  }

  /** The list a new packet is inserted into: a full pool gives up its head. */
  function MakeRoom(c: seq<Pkt>): (r: seq<Pkt>)
    requires |c| <= CAPACITY
    ensures |r| < CAPACITY
    ensures |c| < CAPACITY ==> r == c
    ensures |c| == CAPACITY ==> r == c[1..]
  {
    if |c| == CAPACITY then c[1..] else c
  }

  function Begun(k: Clock, beginTalk: bool): Clock {
    k.(forceResync := k.forceResync || beginTalk)
  }

  /** Jitter estimate after put. */
  function NewJitter(k: Clock, jitter: u32, ts: u32): (j: u32)
    ensures INITIAL_JITTER <= jitter <= MAX_JITTER ==> jitter <= j <= MAX_JITTER
  {
    if Ahead(k, jitter, ts) then RaisedJitter(jitter, k.lastTs, ts) else jitter
  }

  /** The packet is refused: the early-arrival branch found it older than the raised estimate allows. */
  predicate TooLate(k: Clock, jitter: u32, ts: u32) {
    Ahead(k, jitter, ts) && TsLess(Plus(ts, NewJitter(k, jitter, ts)), k.lastTs)
  }

  /** When a packet is refused: exactly when it lies about half the timestamp circle ahead of the
      newest one. The check sits inside the branch for early packets, so a packet that is merely
      old is never refused. */
  lemma RefusedExactly(k: Clock, jitter: u32, ts: u32)
    requires INITIAL_JITTER <= jitter <= MAX_JITTER
    ensures TooLate(k, jitter, ts) <==>
      k.tsInited && !k.forceResync && HALF - MAX_JITTER < Minus(ts, k.lastTs) < HALF + jitter
  {
    var d := Minus(ts, k.lastTs);
    AheadExactly(jitter, k.lastTs, ts);
    if k.tsInited && !k.forceResync && jitter < d < HALF + jitter {
      var j := NewJitter(k, jitter, ts);
      assert TsLess(Plus(ts, j), k.lastTs) <==> HALF < d + j < TWO32;
    }
  }

  lemma AheadExactly(jitter: u32, lastTs: u32, ts: u32)
    requires jitter <= MAX_JITTER
    ensures TsLess(Plus(lastTs, jitter), ts) <==> jitter < Minus(ts, lastTs) < HALF + jitter
  {
  }

  /** The clock after a packet was stored. */
  function Latest(k: Clock, ts: u32): Clock {
    if !k.tsInited || TsLess(k.lastTs, ts) || k.forceResync then k.(lastTs := ts, tsInited := true) else k
  }

  function Stored(s: Jb, data: seq<int>, ts: u32): Jb
    requires |s.contents| <= CAPACITY
  {
    Jb(Inserted(MakeRoom(s.contents), Pkt(Truncated(data), ts)), s.jitter, Latest(s.clock, ts))
  }

  function Put(s: Jb, data: seq<int>, ts: u32, beginTalk: bool): Jb
    requires |s.contents| <= CAPACITY
  {
    var k := Begun(s.clock, beginTalk);
    var j := NewJitter(k, s.jitter, ts);
    if TooLate(k, s.jitter, ts) then Jb(s.contents, j, k) else Stored(Jb(s.contents, j, k), data, ts)
  }

  // ---- get ----

  function Resynced(k: Clock, jitter: u32, ts: u32, ms: u32): Clock {
    var target := Plus(Minus(k.lastTs, ts), ms);
    var r :=
      if !k.tsDeltaInited || k.forceResync then
        k.(tsDelta := target, tsDeltaInited := true, forceResync := false)
      else if k.lastAudioTs != ts && k.lastResyncTs != k.lastTs then
        var d := k.(lastResyncTs := k.lastTs);
        if TsLess(Plus(ts, k.tsDelta), k.lastTs) then
          d.(tsDelta := Plus(k.tsDelta, target), delayCount := 0)
        else if TsLess(k.lastTs, Minus(Plus(ts, k.tsDelta), jitter / 2)) then
          if k.delayCount > RESYNC_THRESHOLD then
            d.(tsDelta := Minus(k.tsDelta, Minus(k.tsDelta, target) / 2))
          else d.(delayCount := k.delayCount + 1)
        else d.(delayCount := 0)
      else k;
    r.(lastAudioTs := ts)
  }

  /** Whether a get at ts looks at the offset again: the audio clock has moved, and so has the newest packet. */
  predicate Reviews(k: Clock, ts: u32) {
    k.tsDeltaInited && !k.forceResync && k.lastAudioTs != ts && k.lastResyncTs != k.lastTs
  }

  /** The first get, and one that is forced to, puts the playout point jitter samples before lastTs + ms. */
  lemma FirstSync(s: Jb, ts: u32, ms: u32)
    requires !s.clock.tsDeltaInited || s.clock.forceResync
    ensures GetTs(Ready(s, ts, ms), ts) == Minus(Plus(s.clock.lastTs, ms), s.jitter)
    ensures Ready(s, ts, ms).clock.tsDeltaInited && !Ready(s, ts, ms).clock.forceResync
    ensures Ready(s, ts, ms).clock.delayCount == s.clock.delayCount
  {
    PlusOver(ts, s.clock.lastTs, ms);
  }

  lemma PlusOver(ts: u32, last: u32, ms: u32)
    ensures Plus(ts, Plus(Minus(last, ts), ms)) == Plus(last, ms)
  {
  }

  /** A stream found early moves the offset forward by lastTs - ts + ms. Since the old offset stays in the sum, the
      playout point lands where a first get would put it exactly when that offset was zero. */
  lemma EarlyMovesForward(s: Jb, ts: u32, ms: u32)
    requires Reviews(s.clock, ts) && TsLess(Plus(ts, s.clock.tsDelta), s.clock.lastTs)
    ensures var k := Ready(s, ts, ms).clock;
      Minus(k.tsDelta, s.clock.tsDelta) == Plus(Minus(s.clock.lastTs, ts), ms) && k.delayCount == 0
    ensures GetTs(Ready(s, ts, ms), ts) == Minus(Plus(s.clock.lastTs, ms), s.jitter) <==> s.clock.tsDelta == 0
  {
    PlusOver(ts, s.clock.lastTs, ms);
    var target := Plus(Minus(s.clock.lastTs, ts), ms);
    assert Plus(ts, Plus(s.clock.tsDelta, target)) == Plus(Plus(ts, target), s.clock.tsDelta) by {
      Reordered(ts, s.clock.tsDelta, target);
    }
    Shifted(Plus(s.clock.lastTs, ms), s.clock.tsDelta, s.jitter);
  }

  lemma Reordered(a: u32, b: u32, c: u32)
    ensures Plus(a, Plus(b, c)) == Plus(Plus(a, c), b)
  {
  }

  lemma Shifted(a: u32, d: u32, j: u32)
    ensures Minus(Plus(a, d), j) == Minus(a, j) <==> d == 0
  {
  }

  /** How far the offset lies beyond what a first get would choose now. */
  function Excess(k: Clock, ts: u32, ms: u32): u32 {
    Minus(k.tsDelta, Plus(Minus(k.lastTs, ts), ms))
  }

  /** A stream found late is waited for, and once it was late more than RESYNC_THRESHOLD times half its excess goes. */
  lemma LateHalves(s: Jb, ts: u32, ms: u32)
    requires Reviews(s.clock, ts) && !TsLess(Plus(ts, s.clock.tsDelta), s.clock.lastTs)
    requires TsLess(s.clock.lastTs, Minus(Plus(ts, s.clock.tsDelta), s.jitter / 2))
    ensures var k, e := Ready(s, ts, ms).clock, Excess(s.clock, ts, ms);
      if s.clock.delayCount > RESYNC_THRESHOLD then
        Excess(k, ts, ms) == e - e / 2 && k.delayCount == s.clock.delayCount
      else k.tsDelta == s.clock.tsDelta && k.delayCount == s.clock.delayCount + 1
  {
    var target := Plus(Minus(s.clock.lastTs, ts), ms);
    MinusHalf(s.clock.tsDelta, target);
  }

  lemma MinusHalf(d: u32, t: u32)
    ensures var e := Minus(d, t); Minus(Minus(d, e / 2), t) == e - e / 2
  {
  }

  /** The newest packet is neither beyond the reach of the audio clock nor more than half the jitter behind it. */
  predicate InTime(s: Jb, ts: u32) {
    var reach := Plus(ts, s.clock.tsDelta);
    !TsLess(reach, s.clock.lastTs) && !TsLess(s.clock.lastTs, Minus(reach, s.jitter / 2))
  }

  /** A stream found in time keeps its offset and is no longer counted late; without a review nothing changes but
      the audio clock. */
  lemma OnTimeSettles(s: Jb, ts: u32, ms: u32)
    requires s.clock.tsDeltaInited && !s.clock.forceResync
    ensures Reviews(s.clock, ts) && InTime(s, ts) ==>
      Ready(s, ts, ms).clock == s.clock.(delayCount := 0, lastResyncTs := s.clock.lastTs, lastAudioTs := ts)
    ensures !Reviews(s.clock, ts) ==> Ready(s, ts, ms).clock == s.clock.(lastAudioTs := ts)
  {
  }

  /** The jitter estimate moves half way towards the distance a packet is ahead, up to MAX_JITTER. */
  lemma JitterMidpoint(k: Clock, jitter: u32, ts: u32)
    requires INITIAL_JITTER <= jitter <= MAX_JITTER
    ensures var j, d := NewJitter(k, jitter, ts), Minus(ts, k.lastTs);
      if k.tsInited && !k.forceResync && jitter < d < HALF + jitter && jitter < MAX_JITTER then
        j == MAX_JITTER <= (jitter + d) / 2 || (j <= MAX_JITTER && jitter + d - 1 <= 2 * j <= jitter + d)
      else j == jitter
  {
    AheadExactly(jitter, k.lastTs, ts);
  }

  // ---- one packet, from put to playout ----

  /** The buffer holds the packet p alone, and the offset is the one chosen at the first get, at audio time a. */
  ghost predicate Lone(s: Jb, p: Pkt, a: u32, ms: u32) {
    && s.contents == [p] && INITIAL_JITTER <= s.jitter <= MAX_JITTER
    && s.clock.tsInited && s.clock.lastTs == p.ts
    && s.clock.tsDeltaInited && !s.clock.forceResync && s.clock.tsDelta == Plus(Minus(p.ts, a), ms)
    && s.clock.delayCount <= RESYNC_THRESHOLD
    && (s.clock.lastResyncTs == p.ts || s.clock.delayCount < RESYNC_THRESHOLD)
  }

  /** What becomes of p at the get for a + n: it stays as long as n + 2 * ms <= jitter; it leaves, with an audio
      timestamp jitter - ms after the first get, once that is over; and it is thrown away if it ended before the
      playout point. */
  ghost predicate Outcome(r: Got, p: Pkt, jitter: u32, a: u32, ms: u32, n: nat) {
    if n + 2 * ms <= jitter then r.frame == None && Lone(r.state, p, a, ms)
    else
      && r.state.contents == []
      && r.frame == if n + ms <= jitter + |p.data| then Some(Frame(p.data, Plus(Minus(a, ms), jitter))) else None
  }

  lemma Playout(p: u32, a: u32, ms: u32, n: u32, j: u32, len: u32)
    requires j <= MAX_JITTER && len <= PACKET_SAMPLES && n + 2 * ms + MAX_JITTER < HALF
    ensures var g := Minus(Plus(Plus(a, n), Plus(Minus(p, a), ms)), j);
      && (TsLess(Plus(p, len), g) <==> n + ms > j + len)
      && (TsLess(p, Plus(g, ms)) <==> n + 2 * ms > j)
    ensures Plus(Minus(p, Plus(Minus(p, a), ms)), j) == Plus(Minus(a, ms), j)
  {
    hide Plus, Minus, TsLess;
    PlayoutPoint(p, a, ms, n, j);
    MappedBack(p, a, ms);
    PlusNone(p);
    if n + ms >= j {
      AheadOf(p, len, n + ms - j);
      PlusPlus(p, n + ms - j, ms);
      AheadOf(p, 0, n + 2 * ms - j);
    } else {
      BehindOf(p, len, j - n - ms);
      PlusBack(p, j - n - ms, ms);
    }
  }

  lemma PlusNone(p: u32)
    ensures Plus(p, 0) == p
  {
  }

  lemma MappedBack(p: u32, a: u32, ms: u32)
    ensures Minus(p, Plus(Minus(p, a), ms)) == Minus(a, ms)
  {
  }

  lemma AheadOf(p: u32, x: u32, y: u32)
    requires x < HALF && y < HALF
    ensures TsLess(Plus(p, x), Plus(p, y)) <==> x < y
  {
  }

  lemma BehindOf(p: u32, x: u32, y: u32)
    requires x + y < HALF
    ensures !TsLess(Plus(p, x), Minus(p, y))
  {
  }

  lemma PlusPlus(p: u32, x: u32, y: u32)
    requires x + y < HALF
    ensures Plus(Plus(p, x), y) == Plus(p, x + y)
  {
  }

  lemma PlusBack(p: u32, x: u32, y: u32)
    requires x < HALF && y < HALF
    ensures TsLess(p, Plus(Minus(p, x), y)) <==> y > x
  {
  }

  lemma PlayoutPoint(p: u32, a: u32, ms: u32, n: u32, j: u32)
    requires n + ms < HALF && j < HALF
    ensures Minus(Plus(Plus(a, n), Plus(Minus(p, a), ms)), j) == if n + ms >= j then Plus(p, n + ms - j) else Minus(p, j - n - ms)
  {
    PlusOver(a, p, ms);
    var o := Plus(Minus(p, a), ms);
    PlusSwap(a, n, o);
    assert Plus(Plus(a, n), o) == Plus(Plus(p, ms), n);
  }

  /** Pruning cuts the list before its first packet that does not end before g. */
  lemma {:induction false} PrunedCut(c: seq<Pkt>, g: u32)
    ensures var k := |c| - |Pruned(c, g)|;
      && Pruned(c, g) == c[k..]
      && (k < |c| ==> !TsLess(c[k].End(), g))
    ensures forall i :: 0 <= i < |c| - |Pruned(c, g)| ==> TsLess(c[i].End(), g)
  {
    if c != [] && TsLess(c[0].End(), g) {
      PrunedCut(c[1..], g);
      var k := |c[1..]| - |Pruned(c[1..], g)|;
      assert c[1..][k..] == c[k + 1..];
    }
  }

  lemma PrunedDone(c: seq<Pkt>, g: u32)
    requires c == [] || !TsLess(c[0].End(), g)
    ensures Pruned(c, g) == c
  {
  }

  lemma PrunedTail(c: seq<Pkt>, g: u32)
    requires c != [] && TsLess(c[0].End(), g)
    ensures Pruned(c, g) == Pruned(c[1..], g)
  {
  }

  function GetTs(s: Jb, ts: u32): u32 {
    Minus(Plus(ts, s.clock.tsDelta), s.jitter)
  }

  /** Drops the packets at the head that end before g. */
  function Pruned(c: seq<Pkt>, g: u32): (r: seq<Pkt>)
    ensures |r| <= |c|
  {
    if c != [] && TsLess(c[0].End(), g) then Pruned(c[1..], g) else c
  }

  /** The delivered form of a packet: its RTP timestamp mapped to the audio clock. */
  function Mapped(s: Jb, p: Pkt): Frame {
    Frame(p.data, Plus(Minus(p.ts, s.clock.tsDelta), s.jitter))
  }

  function Ready(s: Jb, ts: u32, ms: u32): Jb {
    s.(clock := Resynced(s.clock, s.jitter, ts, ms))
  }

  function Get(s: Jb, ts: u32, ms: u32): (r: Got)
    ensures r.frame.Some? ==> |r.state.contents| < |s.contents|
  {
    if s.clock.tsInited then Fetched(Ready(s, ts, ms), ts, ms) else Got(s, None)
  }

  function Fetched(s: Jb, ts: u32, ms: u32): (r: Got)
    ensures r.frame.Some? ==> |r.state.contents| < |s.contents|
  {
    var g := GetTs(s, ts);
    var c := Pruned(s.contents, g);
    if c != [] && TsLess(c[0].ts, Plus(g, ms)) then Got(s.(contents := c[1..]), Some(Mapped(s, c[0])))
    else Got(s.(contents := c), None)
  }

  lemma FetchedIs(s: Jb, ts: u32, ms: u32, c: seq<Pkt>, r: Jb, frame: Option<Frame>)
    requires r.jitter == s.jitter && r.clock == s.clock && c == Pruned(s.contents, GetTs(s, ts))
    requires c != [] && TsLess(c[0].ts, Plus(GetTs(s, ts), ms)) ==> r.contents == c[1..] && frame == Some(Mapped(s, c[0]))
    requires !(c != [] && TsLess(c[0].ts, Plus(GetTs(s, ts), ms))) ==> r.contents == c && frame == None
    ensures Fetched(s, ts, ms).state == r && Fetched(s, ts, ms).frame == frame
  {
  }

  lemma FetchedAlone(s: Jb, p: Pkt, a: u32, ms: u32, n: nat)
    requires Lone(s, p, a, ms) && n + 2 * ms + MAX_JITTER < HALF
    ensures Outcome(Fetched(s, Plus(a, n), ms), p, s.jitter, a, ms, n)
  {
    hide Plus, Minus, TsLess;
    Playout(p.ts, a, ms, n, s.jitter, |p.data|);
    PrunedOne(p, GetTs(s, Plus(a, n)));
  }

  lemma PrunedOne(p: Pkt, g: u32)
    ensures Pruned([p], g) == if TsLess(p.End(), g) then [] else [p]
  {
    assert [p][1..] == [];
  }

  /** Later gets do not move the offset of a lone packet. */
  lemma LoneKept(s: Jb, p: Pkt, a: u32, ms: u32, n: nat)
    requires Lone(s, p, a, ms) && n + 2 * ms + MAX_JITTER < HALF
    ensures Lone(Ready(s, Plus(a, n), ms), p, a, ms)
  {
    PlayoutPoint(p.ts, a, ms, n, 0);
    var ts := Plus(a, n);
    assert Plus(ts, s.clock.tsDelta) == Plus(p.ts, n + ms) by { MinusNone(Plus(ts, s.clock.tsDelta)); }
    assert !TsLess(Plus(p.ts, n + ms), p.ts);
  }

  lemma MinusNone(a: u32)
    ensures Minus(a, 0) == a
  {
  }

  /** A packet alone in the buffer, whatever the gets in between. */
  lemma LonePacket(s: Jb, p: Pkt, a: u32, ms: u32, n: nat)
    requires Lone(s, p, a, ms) && n + 2 * ms + MAX_JITTER < HALF
    ensures Outcome(Get(s, Plus(a, n), ms), p, s.jitter, a, ms, n)
  {
    hide Plus, Minus, TsLess, Resynced, Fetched;
    LoneKept(s, p, a, ms, n);
    FetchedAlone(Ready(s, Plus(a, n), ms), p, a, ms, n);
  }

  /** The same at the first get, at audio time a, of a packet put into an empty buffer. */
  lemma FirstPacket(data: seq<int>, t: u32, beginTalk: bool, a: u32, ms: u32)
    requires 2 * ms + MAX_JITTER < HALF
    ensures Outcome(Get(Put(EMPTY, data, t, beginTalk), a, ms), Pkt(Truncated(data), t), INITIAL_JITTER, a, ms, 0)
  {
    var p, s := Pkt(Truncated(data), t), Put(EMPTY, data, t, beginTalk);
    assert s.contents == [p];
    var r := Ready(s, a, ms);
    assert Lone(r, p, a, ms);
    assert Plus(a, 0) == a;
    FetchedAlone(r, p, a, ms, 0);
  }

  /** Gets at audio times a + ns[0], a + ns[1], … */
  function Gets(s: Jb, a: u32, ms: u32, ns: seq<u32>): Jb
    decreases |ns|
  {
    if ns == [] then s else Gets(Get(s, Plus(a, ns[0]), ms).state, a, ms, ns[1..])
  }

  /** So over any gets, the packet leaves at the first one for a + n with n + 2 * ms > jitter, if it has not ended by
      then: gets before that leave it alone. */
  lemma {:induction false} LeavesWhenDue(s: Jb, p: Pkt, a: u32, ms: u32, ns: seq<u32>, n: nat)
    requires Lone(s, p, a, ms) && n + 2 * ms + MAX_JITTER < HALF && n + 2 * ms > s.jitter
    requires forall i :: 0 <= i < |ns| ==> ns[i] + 2 * ms <= s.jitter
    ensures Get(Gets(s, a, ms, ns), Plus(a, n), ms).frame ==
      if n + ms <= s.jitter + |p.data| then Some(Frame(p.data, Plus(Minus(a, ms), s.jitter))) else None
    decreases |ns|
  {
    hide Get, Plus, Minus;
    if ns == [] {
      LonePacket(s, p, a, ms, n);
    } else {
      LonePacket(s, p, a, ms, ns[0]);
      assert Get(s, Plus(a, ns[0]), ms).state.jitter == s.jitter by { GetJitter(s, Plus(a, ns[0]), ms); }
      LeavesWhenDue(Get(s, Plus(a, ns[0]), ms).state, p, a, ms, ns[1..], n);
    }
  }

  lemma GetJitter(s: Jb, ts: u32, ms: u32)
    ensures Get(s, ts, ms).state.jitter == s.jitter
  {
  }

  // ---- invariants of every run ----

  /** No packet precedes one that stands before it. */
  ghost predicate Sorted(c: seq<Pkt>) {
    forall i, j :: 0 <= i < j < |c| ==> !TsLess(c[j].ts, c[i].ts)
  }

  ghost predicate AllIn(base: u32, c: seq<Pkt>) {
    forall i :: 0 <= i < |c| ==> InWindow(base, c[i].ts)
  }

  ghost predicate Sane(s: Jb) {
    && |s.contents| <= CAPACITY
    && INITIAL_JITTER <= s.jitter <= MAX_JITTER
    && (!s.clock.tsInited ==> s.contents == [])
    && 0 <= s.clock.delayCount <= RESYNC_THRESHOLD + 1
  }

  /** Insertion keeps the list sorted when old and new timestamps share half the circle. */
  lemma InsertedSorted(base: u32, c: seq<Pkt>, p: Pkt)
    requires Sorted(c) && AllIn(base, c) && InWindow(base, p.ts)
    ensures Sorted(Inserted(c, p)) && AllIn(base, Inserted(c, p))
  {
    forall i | 0 <= i < |c|
      ensures i < InsertIndex(c, p.ts) ==> !TsLess(p.ts, c[i].ts)
      ensures InsertIndex(c, p.ts) <= i ==> !TsLess(c[i].ts, p.ts)
    {
      InsertedAt(base, c, p.ts, i);
    }
    SplicedSorted(c, InsertIndex(c, p.ts), p);
  }

  lemma SplicedSorted(c: seq<Pkt>, k: nat, p: Pkt)
    requires Sorted(c) && k <= |c|
    requires forall i :: 0 <= i < k ==> !TsLess(p.ts, c[i].ts)
    requires forall i :: k <= i < |c| ==> !TsLess(c[i].ts, p.ts)
    ensures Sorted(c[..k] + [p] + c[k..])
  {
    var r := c[..k] + [p] + c[k..];
    forall i, j | 0 <= i < j < |r| ensures !TsLess(r[j].ts, r[i].ts) {
      assert r[i] == if i < k then c[i] else if i == k then p else c[i - 1];
      assert r[j] == if j < k then c[j] else if j == k then p else c[j - 1];
    }
  }

  lemma InsertedAt(base: u32, c: seq<Pkt>, ts: u32, i: nat)
    requires Sorted(c) && AllIn(base, c) && InWindow(base, ts) && i < |c|
    ensures i < InsertIndex(c, ts) ==> !TsLess(ts, c[i].ts)
    ensures InsertIndex(c, ts) <= i ==> !TsLess(c[i].ts, ts)
  {
    var k := InsertIndex(c, ts);
    var n := |c|;
    SerialOrder(base, c[i].ts, ts);
    SerialOrder(base, ts, c[i].ts);
    SerialOrder(base, c[n - 1].ts, ts);
    if i < n - 1 { SerialOrder(base, c[n - 1].ts, c[i].ts); }
    if 0 < k < n {
      SerialOrder(base, ts, c[k - 1].ts);
      if i < k - 1 { SerialOrder(base, c[k - 1].ts, c[i].ts); }
    }
  }

  /** A packet that is not refused is added; only a full pool loses one, the head. */
  lemma PutConserves(s: Jb, data: seq<int>, ts: u32, beginTalk: bool)
    requires |s.contents| <= CAPACITY
    ensures var r := Put(s, data, ts, beginTalk);
      if TooLate(Begun(s.clock, beginTalk), s.jitter, ts) then r.contents == s.contents
      else multiset(r.contents) ==
        multiset(if |s.contents| == CAPACITY then s.contents[1..] else s.contents) + multiset{Pkt(Truncated(data), ts)}
  {
    hide TooLate, NewJitter, Inserted, TsLess, Truncated;
    InsertedAdds(MakeRoom(s.contents), Pkt(Truncated(data), ts));
  }

  lemma InsertedAdds(c: seq<Pkt>, p: Pkt)
    ensures multiset(Inserted(c, p)) == multiset(c) + multiset{p}
  {
    hide InsertIndex;
    var k := InsertIndex(c, p.ts);
    assert c[..k] + c[k..] == c;
  }

  /** The newest timestamp is the later of the old one and the packet's; a talk spurt starts over with the packet's. */
  lemma PutNewest(s: Jb, data: seq<int>, ts: u32, beginTalk: bool, base: u32)
    requires |s.contents| <= CAPACITY && !TooLate(Begun(s.clock, beginTalk), s.jitter, ts)
    ensures var k := Put(s, data, ts, beginTalk).clock;
      && k.tsInited
      && (!s.clock.tsInited || s.clock.forceResync || beginTalk ==> k.lastTs == ts)
      && (s.clock.tsInited && !s.clock.forceResync && !beginTalk && InWindow(base, s.clock.lastTs) && InWindow(base, ts) ==>
            k.lastTs in {s.clock.lastTs, ts}
            && Offset(base, k.lastTs) >= Offset(base, s.clock.lastTs) && Offset(base, k.lastTs) >= Offset(base, ts))
  {
  }

  lemma PutSane(s: Jb, data: seq<int>, ts: u32, beginTalk: bool)
    requires Sane(s)
    ensures Sane(Put(s, data, ts, beginTalk))
    ensures s.jitter <= Put(s, data, ts, beginTalk).jitter
  {
  }

  lemma GetSane(s: Jb, ts: u32, ms: u32)
    requires Sane(s)
    ensures Sane(Get(s, ts, ms).state)
    ensures s.jitter == Get(s, ts, ms).state.jitter
    ensures |Get(s, ts, ms).state.contents| <= |s.contents|
    ensures Get(s, ts, ms).frame.Some? ==> |Get(s, ts, ms).state.contents| < |s.contents|
    ensures Get(s, ts, ms).state.contents == s.contents[|s.contents| - |Get(s, ts, ms).state.contents|..]
  {
    if s.clock.tsInited {
      FetchedSane(Ready(s, ts, ms), ts, ms);
    }
  }

  lemma FetchedSane(s: Jb, ts: u32, ms: u32)
    requires Sane(s) && s.clock.tsInited
    ensures var Got(r, f) := Fetched(s, ts, ms);
      && Sane(r) && r.jitter == s.jitter
      && |r.contents| <= |s.contents| - (if f.Some? then 1 else 0)
      && r.contents == s.contents[|s.contents| - |r.contents|..]
  {
    var c := Pruned(s.contents, GetTs(s, ts));
    var k := |s.contents| - |c|;
    PrunedCut(s.contents, GetTs(s, ts));
    SuffixSane(s, k);
    if c != [] {
      SuffixSane(s, k + 1);
      assert c[1..] == s.contents[k + 1..];
    }
  }

  lemma SuffixSane(s: Jb, k: nat)
    requires Sane(s) && s.clock.tsInited && k <= |s.contents|
    ensures Sane(s.(contents := s.contents[k..]))
  {
  }

  datatype Op = PutOp(data: seq<int>, ts: u32, beginTalk: bool) | GetOp(ts: u32, ms: u32)

  function Step(s: Jb, op: Op): Jb
    requires |s.contents| <= CAPACITY
  {
    match op
    case PutOp(data, ts, b) => Put(s, data, ts, b)
    case GetOp(ts, ms) => Get(s, ts, ms).state
  }

  /** Every put of the run meets stored packets that, with it, span less than half the circle. */
  ghost predicate Windowed(s: Jb, ops: seq<Op>)
    requires Sane(s)
    decreases |ops|
  {
    ops == [] ||
    ((ops[0].PutOp? ==> exists base :: AllIn(base, s.contents) && InWindow(base, ops[0].ts))
     && (StepSane(s, ops[0]); Windowed(Step(s, ops[0]), ops[1..])))
  }

  function Run(s: Jb, ops: seq<Op>): Jb
    requires Sane(s)
    decreases |ops|
  {
    if ops == [] then s else StepSane(s, ops[0]); Run(Step(s, ops[0]), ops[1..])
  }

  lemma StepSane(s: Jb, op: Op)
    requires Sane(s)
    ensures Sane(Step(s, op)) && s.jitter <= Step(s, op).jitter
  {
    match op
    case PutOp(data, ts, b) => PutSane(s, data, ts, b);
    case GetOp(ts, ms) => GetSane(s, ts, ms);
  }

  lemma StepSorted(s: Jb, op: Op)
    requires Sane(s) && Sorted(s.contents)
    requires op.PutOp? ==> exists base :: AllIn(base, s.contents) && InWindow(base, op.ts)
    ensures Sorted(Step(s, op).contents)
  {
    match op
    case PutOp(data, ts, b) =>
      var base :| AllIn(base, s.contents) && InWindow(base, ts);
      InsertedSorted(base, MakeRoom(s.contents), Pkt(Truncated(data), ts));
    case GetOp(ts, ms) =>
      GetSane(s, ts, ms);
  }

  /** After any sequence of puts and gets: the list fits the pool, the jitter estimate lies in
      its range and has not decreased, and the list is sorted if every put was windowed. */
  lemma {:induction false} RunInvariant(s: Jb, ops: seq<Op>)
    requires Sane(s)
    ensures Sane(Run(s, ops)) && s.jitter <= Run(s, ops).jitter
    ensures Sorted(s.contents) && Windowed(s, ops) ==> Sorted(Run(s, ops).contents)
    decreases |ops|
  {
    if ops != [] {
      StepSane(s, ops[0]);
      if Sorted(s.contents) && Windowed(s, ops) { StepSorted(s, ops[0]); }
      RunInvariant(Step(s, ops[0]), ops[1..]);
    }
  }

  /** Two timestamps half a circle apart defeat the order: each packet of the pair precedes
      neither, and a third one between them is filed in front of an earlier one. */
  lemma UnsortedOutsideWindow()
    ensures var c := [Pkt([], 0), Pkt([], 0x6000_0000)];
      Sorted(c) && !Sorted(Inserted(c, Pkt([], 0xB000_0000)))
  {
    var c := [Pkt([], 0), Pkt([], 0x6000_0000)];
    var r := Inserted(c, Pkt([], 0xB000_0000));
    assert r[0].ts == 0 && r[2].ts == 0xB000_0000;
  }

  // ---- draining ----

  /** The packets the playout loop receives: get is repeated for one ts until it fails. */
  function Drain(s: Jb, ts: u32, ms: u32): Drained
    decreases |s.contents|
  {
    var got := Get(s, ts, ms);
    if got.frame.None? then Drained(got.state, [])
    else
      var d := Drain(got.state, ts, ms);
      Drained(d.state, [got.frame.value] + d.frames)
  }

  lemma DrainStep(s: Jb, ts: u32, ms: u32)
    ensures var Got(r, f) := Get(s, ts, ms);
      && |r.contents| <= |s.contents| && (f.Some? ==> |r.contents| < |s.contents|)
      && Drain(s, ts, ms).state == (if f.None? then r else Drain(r, ts, ms).state)
      && Drain(s, ts, ms).frames == (if f.None? then [] else [f.value] + Drain(r, ts, ms).frames)
  {
  }

  /** The same loop once the clock offset is settled. */
  function Settled(s: Jb, ts: u32, ms: u32): Drained
    decreases |s.contents|
  {
    var got := Fetched(s, ts, ms);
    if got.frame.None? then Drained(got.state, [])
    else
      var d := Settled(got.state, ts, ms);
      Drained(d.state, [got.frame.value] + d.frames)
  }

  /** Only the first get of a drain may resynchronise. */
  lemma {:induction false} DrainSettles(s: Jb, ts: u32, ms: u32)
    requires s.clock.tsInited
    ensures Drain(s, ts, ms) == Settled(Ready(s, ts, ms), ts, ms)
    decreases |s.contents|
  {
    var got := Fetched(Ready(s, ts, ms), ts, ms);
    if got.frame.Some? {
      ResyncedTwice(s.clock, s.jitter, ts, ms);
      assert Ready(got.state, ts, ms) == got.state;
      DrainSettles(got.state, ts, ms);
    }
  }

  lemma ResyncedTwice(k: Clock, jitter: u32, ts: u32, ms: u32)
    ensures var r := Resynced(k, jitter, ts, ms); Resynced(r, jitter, ts, ms) == r
  {
  }

  /** A delivered packet starts before ts + ms and does not end before ts. */
  ghost predicate Due(f: Frame, ts: u32, ms: u32) {
    TsLess(f.ts, Plus(ts, ms)) && !TsLess(Plus(f.ts, |f.data|), ts)
  }

  /** The guards of get on the RTP clock are the guards of playout on the audio clock. */
  lemma MappedDue(delta: u32, jitter: u32, ts: u32, ms: u32, t: u32, n: u32)
    ensures var g, m := Minus(Plus(ts, delta), jitter), Plus(Minus(t, delta), jitter);
      && (TsLess(t, Plus(g, ms)) <==> TsLess(m, Plus(ts, ms)))
      && (TsLess(Plus(t, n), g) <==> TsLess(Plus(m, n), ts))
  {
    var g, m := Minus(Plus(ts, delta), jitter), Plus(Minus(t, delta), jitter);
    RoundTrip(ts, delta, jitter);
    OnAudioClock(t, Plus(g, ms), delta, jitter);
    PlusSwap(g, ms, delta);
    PlusSwap(Minus(g, delta), ms, jitter);
    OnAudioClock(Plus(t, n), g, delta, jitter);
    PlusSwap(t, n, delta);
    PlusSwap(Minus(t, delta), n, jitter);
  }

  lemma RoundTrip(ts: u32, delta: u32, jitter: u32)
    ensures Plus(Minus(Minus(Plus(ts, delta), jitter), delta), jitter) == ts
  {
  }

  lemma OnAudioClock(l: u32, r: u32, delta: u32, jitter: u32)
    ensures TsLess(Plus(Minus(l, delta), jitter), Plus(Minus(r, delta), jitter)) <==> TsLess(l, r)
  {
    SerialMinus(l, r, delta);
    SerialPlus(Minus(l, delta), Minus(r, delta), jitter);
  }

  /** The packets of c that do not end before g, in list order, with their audio timestamps. */
  function Frames(s: Jb, c: seq<Pkt>, g: u32): seq<Frame> {
    if c == [] then []
    else (if TsLess(c[0].End(), g) then [] else [Mapped(s, c[0])]) + Frames(s, c[1..], g)
  }

  lemma {:induction false} FramesSkip(s: Jb, c: seq<Pkt>, k: nat, g: u32)
    requires k <= |c|
    requires forall i :: 0 <= i < k ==> TsLess(c[i].End(), g)
    ensures Frames(s, c, g) == Frames(s, c[k..], g)
  {
    if k > 0 {
      assert c[1..][k - 1..] == c[k..];
      FramesSkip(s, c[1..], k - 1, g);
    }
  }

  lemma FramesFrom(s: Jb, c: seq<Pkt>, k: nat, n: nat, g: u32)
    requires k < n <= |c|
    requires forall i :: 0 <= i < k ==> TsLess(c[i].End(), g)
    requires !TsLess(c[k].End(), g)
    ensures Frames(s, c[..n], g) == [Mapped(s, c[k])] + Frames(s, c[k + 1..][..n - k - 1], g)
  {
    FramesSkip(s, c[..n], k, g);
    assert c[..n][k..][0] == c[k];
    assert c[..n][k..][1..] == c[k + 1..][..n - k - 1];
  }

  /** After n packets the head is neither too old nor due. */
  ghost predicate Stops(c: seq<Pkt>, n: nat, g: u32, ms: u32)
    requires n <= |c|
  {
    && (forall i :: 0 <= i < n ==> TsLess(c[i].End(), g) || TsLess(c[i].ts, Plus(g, ms)))
    && (n < |c| ==> !TsLess(c[n].End(), g) && !TsLess(c[n].ts, Plus(g, ms)))
  }

  /** `d` is what remains and what was delivered when the first n packets were consumed. */
  ghost predicate Delivers(s: Jb, n: nat, ts: u32, ms: u32, d: Drained) {
    var g := GetTs(s, ts);
    && n <= |s.contents| && Stops(s.contents, n, g, ms)
    && d.state == s.(contents := s.contents[n..])
    && d.frames == Frames(s, s.contents[..n], g)
  }

  lemma {:induction false} SettledDelivers(s: Jb, ts: u32, ms: u32) returns (n: nat)
    ensures Delivers(s, n, ts, ms, Settled(s, ts, ms))
    decreases |s.contents|
  {
    n := FetchedHead(s, ts, ms);
    var got := Fetched(s, ts, ms);
    var d := Drained(got.state, []);
    if got.frame.Some? {
      var m := SettledDelivers(got.state, ts, ms);
      d := Settled(got.state, ts, ms);
      DeliversLater(s, got.state, n, m, ts, ms, d);
      n := n + 1 + m;
      d := Drained(d.state, [got.frame.value] + d.frames);
    }
    SettledOnce(s, ts, ms, d);
    DeliversSame(s, n, ts, ms, d, Settled(s, ts, ms));
  }

  lemma SettledOnce(s: Jb, ts: u32, ms: u32, d: Drained)
    requires var got := Fetched(s, ts, ms);
      d == if got.frame.None? then Drained(got.state, [])
           else Drained(Settled(got.state, ts, ms).state, [got.frame.value] + Settled(got.state, ts, ms).frames)
    ensures Settled(s, ts, ms) == d
  {
  }

  lemma DeliversSame(s: Jb, n: nat, ts: u32, ms: u32, d: Drained, e: Drained)
    requires Delivers(s, n, ts, ms, d) && d == e
    ensures Delivers(s, n, ts, ms, e)
  {
  }

  /** One settled get drops k old packets and takes the next one if it is due. */
  lemma FetchedHead(s: Jb, ts: u32, ms: u32) returns (k: nat)
    ensures Fetched(s, ts, ms).frame.Some? ==> Takes(s, k, ts, ms) && Fetched(s, ts, ms) == Taken(s, k)
    ensures Fetched(s, ts, ms).frame.None? ==> Delivers(s, k, ts, ms, Drained(Fetched(s, ts, ms).state, []))
  {
    var g, c := GetTs(s, ts), s.contents;
    k := |c| - |Pruned(c, g)|;
    PrunedCut(c, g);
    assert c[..k][k..] == [];
    FramesSkip(s, c[..k], k, g);
    if k < |c| { assert c[k..][1..] == c[k + 1..]; }
  }

  ghost predicate Takes(s: Jb, k: nat, ts: u32, ms: u32) {
    var g, c := GetTs(s, ts), s.contents;
    && k < |c| && (forall i :: 0 <= i < k ==> TsLess(c[i].End(), g))
    && !TsLess(c[k].End(), g) && TsLess(c[k].ts, Plus(g, ms))
  }

  ghost function Taken(s: Jb, k: nat): Got
    requires k < |s.contents|
  {
    Got(s.(contents := s.contents[k + 1..]), Some(Mapped(s, s.contents[k])))
  }

  lemma DeliversLater(s: Jb, r: Jb, k: nat, m: nat, ts: u32, ms: u32, d: Drained)
    requires Takes(s, k, ts, ms) && r == Taken(s, k).state && Delivers(r, m, ts, ms, d)
    ensures Delivers(s, k + 1 + m, ts, ms, Drained(d.state, [Mapped(s, s.contents[k])] + d.frames))
  {
    var g, c := GetTs(s, ts), s.contents;
    FramesFrom(s, c, k, k + 1 + m, g);
    FramesSame(r, s, r.contents[..m], g);
    StopsLater(c, k, m, g, ms);
    assert c[k + 1..][m..] == c[k + 1 + m..];
  }

  lemma StopsLater(c: seq<Pkt>, k: nat, m: nat, g: u32, ms: u32)
    requires k + 1 + m <= |c| && Stops(c[k + 1..], m, g, ms)
    requires forall i :: 0 <= i < k ==> TsLess(c[i].End(), g)
    requires TsLess(c[k].ts, Plus(g, ms))
    ensures Stops(c, k + 1 + m, g, ms)
  {
    var rest := c[k + 1..];
    forall i | 0 <= i < k + 1 + m ensures TsLess(c[i].End(), g) || TsLess(c[i].ts, Plus(g, ms)) {
      if i > k { assert c[i] == rest[i - k - 1]; }
    }
  }

  lemma FramesSame(s: Jb, t: Jb, c: seq<Pkt>, g: u32)
    requires s.clock.tsDelta == t.clock.tsDelta && s.jitter == t.jitter
    ensures Frames(s, c, g) == Frames(t, c, g)
  {
  }

  /** Draining settles the clock offset once and then hands out a prefix of the list: every
      packet of that prefix is delivered unless it ended before g, and the first packet left
      behind is neither too old nor due yet. */
  lemma DrainDelivers(s: Jb, ts: u32, ms: u32) returns (n: nat)
    requires s.clock.tsInited
    ensures Delivers(Ready(s, ts, ms), n, ts, ms, Drain(s, ts, ms))
  {
    DrainSettles(s, ts, ms);
    n := SettledDelivers(Ready(s, ts, ms), ts, ms);
  }

  ghost predicate AllDue(fs: seq<Frame>, ts: u32, ms: u32) {
    forall i :: 0 <= i < |fs| ==> Due(fs[i], ts, ms)
  }

  /** No frame of fs precedes t. */
  ghost predicate NoneBefore(fs: seq<Frame>, t: u32) {
    forall i :: 0 <= i < |fs| ==> !TsLess(fs[i].ts, t)
  }

  ghost predicate Ordered(fs: seq<Frame>) {
    forall i, j :: 0 <= i < j < |fs| ==> !TsLess(fs[j].ts, fs[i].ts)
  }

  /** Frames leave in timestamp order, each one starting before ts + ms and not ending before ts. */
  lemma DrainOrdered(s: Jb, ts: u32, ms: u32)
    requires s.clock.tsInited && Sorted(s.contents)
    ensures Ordered(Drain(s, ts, ms).frames) && AllDue(Drain(s, ts, ms).frames, ts, ms)
  {
    var n := DrainDelivers(s, ts, ms);
    PrefixOrdered(Ready(s, ts, ms), s.contents, n, ts, ms);
  }

  lemma PrefixOrdered(s: Jb, c: seq<Pkt>, n: nat, ts: u32, ms: u32)
    requires Sorted(c) && n <= |c| && Stops(c, n, GetTs(s, ts), ms)
    ensures Ordered(Frames(s, c[..n], GetTs(s, ts))) && AllDue(Frames(s, c[..n], GetTs(s, ts)), ts, ms)
  {
    FramesOrdered(s, c[..n], GetTs(s, ts));
    FramesDue(s, c[..n], ts, ms);
  }

  lemma {:induction false} FramesOrdered(s: Jb, c: seq<Pkt>, g: u32)
    requires Sorted(c)
    ensures Ordered(Frames(s, c, g))
  {
    if c != [] {
      FramesOrdered(s, c[1..], g);
      FramesAfter(s, c[1..], g, c[0]);
    }
  }

  lemma {:induction false} FramesAfter(s: Jb, c: seq<Pkt>, g: u32, p: Pkt)
    requires forall i :: 0 <= i < |c| ==> !TsLess(c[i].ts, p.ts)
    ensures NoneBefore(Frames(s, c, g), Mapped(s, p).ts)
  {
    if c != [] {
      FramesAfter(s, c[1..], g, p);
      OnAudioClock(c[0].ts, p.ts, s.clock.tsDelta, s.jitter);
    }
  }

  lemma {:induction false} FramesDue(s: Jb, c: seq<Pkt>, ts: u32, ms: u32)
    requires forall i :: 0 <= i < |c| ==>
      TsLess(c[i].End(), GetTs(s, ts)) || TsLess(c[i].ts, Plus(GetTs(s, ts), ms))
    ensures AllDue(Frames(s, c, GetTs(s, ts)), ts, ms)
  {
    if c != [] {
      FramesDue(s, c[1..], ts, ms);
      MappedIsDue(s, c[0], ts, ms);
    }
  }

  lemma MappedIsDue(s: Jb, p: Pkt, ts: u32, ms: u32)
    ensures TsLess(p.ts, Plus(GetTs(s, ts), ms)) && !TsLess(p.End(), GetTs(s, ts)) <==> Due(Mapped(s, p), ts, ms)
  {
    MappedDue(s.clock.tsDelta, s.jitter, ts, ms, p.ts, |p.data|);
  }
}
