/** The conference mixer: what a participant hears is the sum of the others, under one adaptive gain. */
module Mixer {

  function Abs(x: int): nat {
    if x < 0 then -x else x
  }

  // ---- gain ----

  const MAX_LINEAR_SAMPLE: int := 32737

  /** C division, which truncates toward zero. */
  function Quotient(a: int, b: int): int
    requires b != 0
  {
    if (a < 0) == (b < 0) then Abs(a) / Abs(b) else -(Abs(a) / Abs(b))
  }

  predicate Clips(x: int, f: int) {
    Abs(x * f / 64) > MAX_LINEAR_SAMPLE
  }

  /** The sample put out for mixed value x under gain f / 64. */
  function Output(x: int, f: int): int {
    if Clips(x, f) then if x * f / 64 < 0 then -MAX_LINEAR_SAMPLE else MAX_LINEAR_SAMPLE else x * f / 64
  }

  /** The gain for the samples after x. */
  function NextFactor(x: int, f: int): int {
    if Clips(x, f) && x != 0 then Abs(Quotient(MAX_LINEAR_SAMPLE * 64, x)) else f
  }

  /** The gain that sample i of a call meets. */
  function FactorAt(xs: seq<int>, f: int, i: nat): int
    requires i <= |xs|
  {
    if i == 0 then f else NextFactor(xs[i - 1], FactorAt(xs, f, i - 1))
  }

  lemma FactorFirst(xs: seq<int>, f: int)
    ensures FactorAt(xs, f, 0) == f
  {
  }

  lemma FactorAfter(xs: seq<int>, f: int, i: nat)
    requires i < |xs|
    ensures FactorAt(xs, f, i + 1) == NextFactor(xs[i], FactorAt(xs, f, i))
  {
  }

  lemma Product(x: int, f: int)
    requires f >= 0
    ensures Abs(x * f) == Abs(x) * f
  {
    if x < 0 {
      assert x * f == -((-x) * f);
    }
  }

  lemma ZeroNeverClips(f: int)
    ensures !Clips(0, f)
  {
    assert 0 * f == 0;
  }

  /** The sample put out is the one nearest to the scaled value among those allowed; without gain a sample stays as it is. */
  lemma OutputNearest(x: int, f: int, y: int)
    requires -MAX_LINEAR_SAMPLE <= y <= MAX_LINEAR_SAMPLE
    ensures -MAX_LINEAR_SAMPLE <= Output(x, f) <= MAX_LINEAR_SAMPLE
    ensures Abs(Output(x, f) - x * f / 64) <= Abs(y - x * f / 64)
    ensures Output(y, 64) == y
  {
    assert y * 64 / 64 == y;
  }

  /** A clip is a product above the limit. */
  lemma ClipMeans(x: int, f: int)
    requires f >= 0
    ensures Clips(x, f) ==> x != 0 && Abs(x) * f > MAX_LINEAR_SAMPLE * 64
    ensures Abs(x) * f <= MAX_LINEAR_SAMPLE * 64 ==> !Clips(x, f)
  {
    ZeroNeverClips(f);
    Product(x, f);
  }

  /** The gain after a clip is the largest that keeps the product within the limit. */
  lemma NewFactor(x: int, f: int)
    requires f >= 0 && Clips(x, f)
    ensures x != 0 && 0 <= NextFactor(x, f)
    ensures Abs(x) * NextFactor(x, f) <= MAX_LINEAR_SAMPLE * 64 < Abs(x) * (NextFactor(x, f) + 1)
  {
    ClipMeans(x, f);
    hide Clips;
    Divided(MAX_LINEAR_SAMPLE * 64, Abs(x));
  }

  lemma Divided(a: nat, b: nat)
    requires b > 0
    ensures 0 <= a / b && b * (a / b) <= a < b * (a / b + 1)
  {
  }

  lemma Monotone(a: nat, b: nat, f: nat, g: nat)
    requires a <= b && f <= g
    ensures a * f <= b * g
  {
    assert b * g - a * f == (b - a) * g + a * (g - f);
  }

  /** A clip strictly lowers the gain, and the gain never rises within a call. */
  lemma FactorStep(x: int, f: nat)
    ensures 0 <= NextFactor(x, f) <= f
    ensures Clips(x, f) ==> NextFactor(x, f) < f
  {
    hide Clips, NextFactor;
    if Clips(x, f) {
      ClipMeans(x, f);
      NewFactor(x, f);
      if NextFactor(x, f) >= f {
        Monotone(Abs(x), Abs(x), f, NextFactor(x, f));
        assert false;
      }
    } else {
      assert NextFactor(x, f) == f by { Unclipped(x, f); }
    }
  }

  lemma Unclipped(x: int, f: int)
    requires !Clips(x, f)
    ensures NextFactor(x, f) == f
  {
  }

  lemma {:induction false} FactorFalls(xs: seq<int>, f: nat, i: nat, j: nat)
    requires i <= j <= |xs|
    ensures 0 <= FactorAt(xs, f, j) <= FactorAt(xs, f, i) <= f
    decreases j
  {
    hide NextFactor;
    if i < j {
      FactorFalls(xs, f, i, j - 1);
      FactorStep(xs[j - 1], FactorAt(xs, f, j - 1));
    } else if j > 0 {
      FactorFalls(xs, f, j - 1, j - 1);
      FactorStep(xs[j - 1], FactorAt(xs, f, j - 1));
    }
  }

  /** After a clip at i no later sample of the call with no larger magnitude clips. */
  lemma NoSecondClip(xs: seq<int>, f: nat, i: nat, j: nat)
    requires i < j < |xs|
    requires Clips(xs[i], FactorAt(xs, f, i))
    requires Abs(xs[j]) <= Abs(xs[i])
    ensures !Clips(xs[j], FactorAt(xs, f, j))
  {
    hide Clips, NextFactor;
    FactorFalls(xs, f, 0, i);
    NewFactor(xs[i], FactorAt(xs, f, i));
    FactorFalls(xs, f, i + 1, j);
    Monotone(Abs(xs[j]), Abs(xs[i]), FactorAt(xs, f, j), FactorAt(xs, f, i + 1));
    ClipMeans(xs[j], FactorAt(xs, f, j));
  }

  /** With at most 1023 samples mixed, neither the product nor the shifted limit leaves 32 bits. */
  lemma FitsInt(x: int, f: nat)
    requires Abs(x) <= 1023 * 32768 && f <= 64
    ensures Abs(x * f) < 0x8000_0000
  {
    Product(x, f);
    Monotone(Abs(x), 1023 * 32768, f, 64);
  }

  // ---- tracks ----

  /** Samples by position; a position never written reads as silence. */
  type Track = map<int, int>

  function At(t: Track, p: int): int {
    if p in t then t[p] else 0
  }

  function Stored(t: Track, pos: int, data: seq<int>): Track {
    if data == [] then t else Stored(t, pos, data[..|data| - 1])[pos + |data| - 1 := data[|data| - 1]]
  }

  function Loaded(t: Track, pos: int, n: nat): seq<int> {
    seq(n, i => At(t, pos + i))
  }

  lemma {:induction false} StoredAt(t: Track, pos: int, data: seq<int>, p: int)
    ensures At(Stored(t, pos, data), p) == if pos <= p < pos + |data| then data[p - pos] else At(t, p)
    decreases |data|
  {
    if data != [] {
      StoredAt(t, pos, data[..|data| - 1], p);
    }
  }

  /** mix_add and mix_sub. */
  function Added(xs: seq<int>, ys: seq<int>): seq<int>
    requires |xs| == |ys|
  {
    seq(|xs|, i requires 0 <= i < |xs| => xs[i] + ys[i])
  }

  function Subtracted(xs: seq<int>, ys: seq<int>): seq<int>
    requires |xs| == |ys|
  {
    seq(|xs|, i requires 0 <= i < |xs| => xs[i] - ys[i])
  }

  // ---- one buffer state ----

  datatype Buf = Buf(rate: int, channels: map<int, Track>, mixed: Track)

  /** History of a buffer state: a sample written by a channel. A channel that leaves keeps its sound in the mix,
      under the name LEFT. */
  datatype Write = Write(chan: int, pos: int, value: int)

  const LEFT: int := -1

  function Sum(log: seq<Write>, p: int): int {
    if log == [] then 0
    else Sum(log[..|log| - 1], p) + if log[|log| - 1].pos == p then log[|log| - 1].value else 0
  }

  function Others(log: seq<Write>, c: int, p: int): int {
    if log == [] then 0
    else Others(log[..|log| - 1], c, p) +
         if log[|log| - 1].pos == p && log[|log| - 1].chan != c then log[|log| - 1].value else 0
  }

  function Own(log: seq<Write>, c: int, p: int): int {
    if log == [] then 0
    else Own(log[..|log| - 1], c, p) +
         if log[|log| - 1].pos == p && log[|log| - 1].chan == c then log[|log| - 1].value else 0
  }

  function Times(log: seq<Write>, c: int, p: int): nat {
    if log == [] then 0
    else Times(log[..|log| - 1], c, p) + if log[|log| - 1].pos == p && log[|log| - 1].chan == c then 1 else 0
  }

  function Latest(log: seq<Write>, c: int, p: int): int {
    if log == [] then 0
    else if log[|log| - 1].pos == p && log[|log| - 1].chan == c then log[|log| - 1].value
    else Latest(log[..|log| - 1], c, p)
  }

  lemma Appended(log: seq<Write>, w: Write, c: int, p: int)
    ensures Sum(log + [w], p) == Sum(log, p) + if w.pos == p then w.value else 0
    ensures Latest(log + [w], c, p) == if w.pos == p && w.chan == c then w.value else Latest(log, c, p)
  {
    assert (log + [w])[..|log|] == log;
  }

  lemma {:induction false} SumParts(log: seq<Write>, c: int, p: int)
    ensures Sum(log, p) == Others(log, c, p) + Own(log, c, p)
  {
    if log != [] {
      SumParts(log[..|log| - 1], c, p);
    }
  }

  lemma {:induction false} OwnOnce(log: seq<Write>, c: int, p: int)
    ensures Times(log, c, p) == 0 ==> Own(log, c, p) == 0 && Latest(log, c, p) == 0
    ensures Times(log, c, p) == 1 ==> Own(log, c, p) == Latest(log, c, p)
  {
    if log != [] {
      OwnOnce(log[..|log| - 1], c, p);
    }
  }

  /** The mix holds every sample ever written, each present channel its own latest ones. */
  ghost predicate BufInv(b: Buf, log: seq<Write>) {
    && LEFT !in b.channels
    && (forall w :: w in log ==> w.chan in b.channels || w.chan == LEFT)
    && (forall p :: At(b.mixed, p) == Sum(log, p))
    && (forall c, p :: c in b.channels ==> At(b.channels[c], p) == Latest(log, c, p))
  }

  /** What mix_sub leaves for channel c at position p. */
  function Heard(b: Buf, c: int, p: int): int
    requires c in b.channels
  {
    At(b.mixed, p) - At(b.channels[c], p)
  }

  /** Before the gain, a channel hears the sum of all others exactly when what it overwrote at that position adds
      up to silence; writing a position at most once suffices. */
  lemma MixMinus(b: Buf, log: seq<Write>, c: int, p: int)
    requires BufInv(b, log) && c in b.channels
    ensures Heard(b, c, p) == Others(log, c, p) <==> Own(log, c, p) == Latest(log, c, p)
    ensures Times(log, c, p) <= 1 ==> Heard(b, c, p) == Others(log, c, p)
  {
    SumParts(log, c, p);
    OwnOnce(log, c, p);
  }

  /** The samples at a position that are not silence by construction. */
  function Written(log: seq<Write>, p: int): nat {
    if log == [] then 0 else Written(log[..|log| - 1], p) + if log[|log| - 1].pos == p then 1 else 0
  }

  ghost predicate Short(log: seq<Write>) {
    forall w :: w in log ==> -32768 <= w.value <= 32767
  }

  lemma {:induction false} OthersBound(log: seq<Write>, c: int, p: int)
    requires Short(log)
    ensures Abs(Sum(log, p)) <= Written(log, p) * 32768
    ensures Abs(Others(log, c, p)) <= Written(log, p) * 32768
  {
    if log != [] {
      var n := |log| - 1;
      assert log[n] in log;
      assert forall w :: w in log[..n] ==> w in log;
      OthersBound(log[..n], c, p);
    }
  }

  /** With 16-bit samples and at most 1023 of them at a position, mixing and scaling stay within 32 bits. */
  lemma MixFits(b: Buf, log: seq<Write>, c: int, p: int, f: nat)
    requires BufInv(b, log) && c in b.channels && Short(log)
    requires Times(log, c, p) <= 1 && Written(log, p) <= 1023 && f <= 64
    ensures Abs(At(b.mixed, p)) < 0x8000_0000 && Abs(Heard(b, c, p) * f) < 0x8000_0000
  {
    MixMinus(b, log, c, p);
    OthersBound(log, c, p);
    FitsInt(Heard(b, c, p), f);
  }

  // ---- writing ----

  /** The writes of one packet. */
  function Writes(c: int, pos: int, data: seq<int>): seq<Write> {
    seq(|data|, i requires 0 <= i < |data| => Write(c, pos + i, data[i]))
  }

  /** PutChannelPacket on the chosen buffer state. */
  function Put(b: Buf, c: int, pos: int, data: seq<int>): Buf
    requires c in b.channels
  {
    Buf(b.rate, b.channels[c := Stored(b.channels[c], pos, data)],
        Stored(b.mixed, pos, Added(Loaded(b.mixed, pos, |data|), data)))
  }

  lemma {:induction false} WritesSum(log: seq<Write>, c: int, pos: int, data: seq<int>, d: int, p: int)
    ensures Sum(log + Writes(c, pos, data), p) ==
      Sum(log, p) + if pos <= p < pos + |data| then data[p - pos] else 0
    ensures Latest(log + Writes(c, pos, data), d, p) ==
      if c == d && pos <= p < pos + |data| then data[p - pos] else Latest(log, d, p)
    decreases |data|
  {
    hide Sum, Latest;
    if data == [] {
      assert log + Writes(c, pos, data) == log;
    } else {
      var n := |data| - 1;
      WritesSum(log, c, pos, data[..n], d, p);
      var all := log + Writes(c, pos, data[..n]);
      assert Writes(c, pos, data) == Writes(c, pos, data[..n]) + [Write(c, pos + n, data[n])];
      assert log + Writes(c, pos, data) == all + [Write(c, pos + n, data[n])];
      Appended(all, Write(c, pos + n, data[n]), d, p);
    }
  }

  lemma PutInv(b: Buf, log: seq<Write>, c: int, pos: int, data: seq<int>)
    requires BufInv(b, log) && c in b.channels
    ensures BufInv(Put(b, c, pos, data), log + Writes(c, pos, data))
  {
    var r, l := Put(b, c, pos, data), log + Writes(c, pos, data);
    var sums := Added(Loaded(b.mixed, pos, |data|), data);
    forall p ensures At(r.mixed, p) == Sum(l, p) {
      WritesSum(log, c, pos, data, c, p);
      StoredAt(b.mixed, pos, sums, p);
    }
    forall d, p | d in r.channels ensures At(r.channels[d], p) == Latest(l, d, p) {
      WritesSum(log, c, pos, data, d, p);
      StoredAt(b.channels[c], pos, data, p);
    }
  }

  /** A channel that writes a position twice hears its own first sample. */
  lemma OverwrittenIsHeard(rate: int, p: int, first: int, second: int) returns (b: Buf, log: seq<Write>)
    ensures BufInv(b, log) && 0 in b.channels && Times(log, 0, p) == 2
    ensures Others(log, 0, p) == 0 && Heard(b, 0, p) == first
  {
    var b0 := Buf(rate, map[0 := map[]], map[]);
    PutInv(b0, [], 0, p, [first]);
    var b1 := Put(b0, 0, p, [first]);
    PutInv(b1, [] + Writes(0, p, [first]), 0, p, [second]);
    b := Put(b1, 0, p, [second]);
    log := [] + Writes(0, p, [first]) + Writes(0, p, [second]);
    assert log == [Write(0, p, first), Write(0, p, second)];
    assert log[..1] == [Write(0, p, first)] && log[..1][..0] == [];
    assert Times(log[..1], 0, p) == 1 && Others(log[..1], 0, p) == 0;
    OwnOnce(log[..1], 0, p);
    SumParts(log, 0, p);
  }

  // ---- joining and leaving ----

  function Joined(b: Buf, c: int): Buf {
    if c in b.channels then b else b.(channels := b.channels[c := map[]])
  }

  lemma {:induction false} LatestAbsent(log: seq<Write>, c: int, p: int)
    requires forall w :: w in log ==> w.chan != c
    ensures Latest(log, c, p) == 0
  {
    if log != [] {
      assert log[|log| - 1] in log;
      assert forall w :: w in log[..|log| - 1] ==> w in log;
      LatestAbsent(log[..|log| - 1], c, p);
    }
  }

  lemma JoinedInv(b: Buf, log: seq<Write>, c: int)
    requires BufInv(b, log) && c != LEFT
    ensures BufInv(Joined(b, c), log)
  {
    if c !in b.channels {
      forall p ensures Latest(log, c, p) == 0 {
        LatestAbsent(log, c, p);
      }
    }
  }

  function Gone(b: Buf, c: int): Buf {
    b.(channels := b.channels - {c})
  }

  /** The history with channel c's samples left behind. */
  function Retagged(log: seq<Write>, c: int): seq<Write> {
    seq(|log|, i requires 0 <= i < |log| => if log[i].chan == c then log[i].(chan := LEFT) else log[i])
  }

  lemma {:induction false} RetaggedSame(log: seq<Write>, c: int, d: int, p: int)
    requires d != c && d != LEFT
    ensures Sum(Retagged(log, c), p) == Sum(log, p)
    ensures Latest(Retagged(log, c), d, p) == Latest(log, d, p)
  {
    if log != [] {
      var n := |log| - 1;
      RetaggedSame(log[..n], c, d, p);
      assert Retagged(log, c)[..n] == Retagged(log[..n], c);
    }
  }

  lemma GoneInv(b: Buf, log: seq<Write>, c: int)
    requires BufInv(b, log)
    ensures BufInv(Gone(b, c), Retagged(log, c))
  {
    var l := Retagged(log, c);
    forall w | w in l ensures w.chan in Gone(b, c).channels || w.chan == LEFT {
      var i :| 0 <= i < |l| && l[i] == w;
      assert log[i] in log;
    }
    forall p ensures At(b.mixed, p) == Sum(l, p) {
      RetaggedSame(log, c, if c == 0 then 1 else 0, p);
    }
    forall d, p | d in Gone(b, c).channels ensures At(b.channels[d], p) == Latest(l, d, p) {
      RetaggedSame(log, c, d, p);
    }
  }

  // ---- the object ----

  /** Channel identifiers, an ordered set as the source keeps it. */
  ghost predicate Ascending(ids: seq<int>) {
    && (forall i :: 0 <= i < |ids| ==> ids[i] >= 0)
    && (forall i, j :: 0 <= i < j < |ids| ==> ids[i] < ids[j])
  }

  function Without(ids: seq<int>, c: int): seq<int> {
    if ids == [] then []
    else Without(ids[..|ids| - 1], c) + if ids[|ids| - 1] == c then [] else [ids[|ids| - 1]]
  }

  lemma {:induction false} WithoutMembers(ids: seq<int>, c: int)
    ensures forall d :: d in Without(ids, c) <==> d in ids && d != c
  {
    if ids != [] {
      var n := |ids| - 1;
      WithoutMembers(ids[..n], c);
      assert ids == ids[..n] + [ids[n]];
    }
  }

  lemma {:induction false} WithoutAscends(ids: seq<int>, c: int)
    requires Ascending(ids)
    ensures Ascending(Without(ids, c))
  {
    if ids != [] {
      var n := |ids| - 1;
      var rest := Without(ids[..n], c);
      WithoutAscends(ids[..n], c);
      WithoutMembers(ids[..n], c);
      forall i | 0 <= i < |rest| ensures rest[i] < ids[n] {
        assert rest[i] in ids[..n];
      }
    }
  }

  /** fix_channels. */
  function Fixed(b: Buf, ids: seq<int>): Buf {
    if ids == [] then b else Joined(Fixed(b, ids[..|ids| - 1]), ids[|ids| - 1])
  }

  lemma {:induction false} FixedInv(b: Buf, log: seq<Write>, ids: seq<int>)
    requires BufInv(b, log) && forall i :: 0 <= i < |ids| ==> ids[i] >= 0
    ensures BufInv(Fixed(b, ids), log) && Fixed(b, ids).mixed == b.mixed && Fixed(b, ids).rate == b.rate
    ensures forall c :: c in Fixed(b, ids).channels <==> c in b.channels || c in ids
    ensures forall c :: c in b.channels ==> Fixed(b, ids).channels[c] == b.channels[c]
  {
    hide BufInv;
    if ids != [] {
      var n := |ids| - 1;
      FixedInv(b, log, ids[..n]);
      JoinedInv(Fixed(b, ids[..n]), log, ids[n]);
      assert ids == ids[..n] + [ids[n]];
    }
  }

  lemma EmptyInv(rate: int)
    ensures BufInv(Buf(rate, map[], map[]), [])
  {
  }

  ghost predicate AllInv(bufs: seq<Buf>, logs: seq<seq<Write>>, ids: seq<int>) {
    && |logs| == |bufs|
    && (forall k :: 0 <= k < |bufs| ==> BufInv(bufs[k], logs[k]))
    && (forall k, c :: 0 <= k < |bufs| && c in bufs[k].channels ==> c in ids)
  }

  ghost function LogAt(logs: seq<seq<Write>>, k: nat): seq<Write> {
    if k < |logs| then logs[k] else []
  }

  /** SampleArray::get into a work buffer. */
  method Load(t: Track, pos: int, a: array<int>, n: nat)
    requires n <= a.Length
    modifies a
    ensures a[..n] == Loaded(t, pos, n)
  {
    for i := 0 to n
      invariant forall j :: 0 <= j < i ==> a[j] == At(t, pos + j)
    {
      a[i] := At(t, pos + i);
    }
  }

  method MixAdd(dest: array<int>, src: array<int>, n: nat)
    requires dest != src && n <= dest.Length && n <= src.Length
    modifies dest
    ensures dest[..n] == Added(old(dest[..n]), src[..n])
  {
    for i := 0 to n
      invariant forall j :: 0 <= j < i ==> dest[j] == old(dest[j]) + src[j]
      invariant forall j :: i <= j < n ==> dest[j] == old(dest[j])
    {
      dest[i] := dest[i] + src[i];
    }
  }

  method MixSub(dest: array<int>, src: array<int>, n: nat)
    requires dest != src && n <= dest.Length && n <= src.Length
    modifies dest
    ensures dest[..n] == Subtracted(old(dest[..n]), src[..n])
  {
    for i := 0 to n
      invariant forall j :: 0 <= j < i ==> dest[j] == old(dest[j]) - src[j]
      invariant forall j :: i <= j < n ==> dest[j] == old(dest[j])
    {
      dest[i] := dest[i] - src[i];
    }
  }

  /** AmMultiPartyMixer. The current sample rate, the positions computed from the wallclock, the buffer state that
      serves a read and the number of outdated ones dropped after it are parameters. */
  class Conference {
    var ids: seq<int>
    var bufs: seq<Buf>
    var factor: int
    const tmp: array<int>
    ghost var logs: seq<seq<Write>>

    ghost predicate Valid()
      reads this
    {
      0 <= factor <= 64 && Ascending(ids) && AllInv(bufs, logs, ids)
    }

    constructor (size: nat)
      ensures Valid() && ids == [] && bufs == [] && factor == 16 && fresh(tmp) && tmp.Length == size
    {
      ids, bufs, logs, factor := [], [], [], 16;
      tmp := new int[size];
    }

    method AddChannel(rate: int) returns (id: int, ghost k: nat)
      requires Valid()
      modifies this`ids, this`bufs
      ensures Valid() && id !in old(ids) && ids == old(ids) + [id]
      ensures k <= |old(bufs)| && forall j :: 0 <= j < k ==> old(bufs)[j].rate < rate
      ensures k == |old(bufs)| ==> bufs == old(bufs)
      ensures k < |old(bufs)| ==> old(bufs)[k].rate >= rate && bufs == old(bufs)[k := Joined(old(bufs)[k], id)]
    {
      hide BufInv;
      id := if ids == [] then 0 else ids[|ids| - 1] + 1;
      ids := ids + [id];
      k := 0;
      var i := 0;
      while i < |bufs|
        invariant 0 <= i <= |bufs| && k == i && bufs == old(bufs)
        invariant forall j :: 0 <= j < i ==> bufs[j].rate < rate
      {
        if bufs[i].rate >= rate {
          JoinedInv(bufs[i], logs[i], id);
          bufs := bufs[i := Joined(bufs[i], id)];
          return;
        }
        i, k := i + 1, k + 1;
      }
    }

    /** The channel's samples stay in the mixes and count as another party's from now on. */
    method RemoveChannel(c: int)
      requires Valid() && c >= 0
      modifies this`ids, this`bufs, this`logs
      ensures Valid() && ids == Without(old(ids), c) && |bufs| == |old(bufs)|
      ensures forall k :: 0 <= k < |bufs| ==> bufs[k] == Gone(old(bufs)[k], c) && logs[k] == Retagged(old(logs)[k], c)
    {
      hide BufInv, Retagged;
      WithoutMembers(ids, c);
      WithoutAscends(ids, c);
      var i := 0;
      while i < |bufs|
        invariant 0 <= i <= |bufs| == |old(bufs)| == |logs| && ids == old(ids)
        invariant forall k :: 0 <= k < i ==> bufs[k] == Gone(old(bufs)[k], c) && logs[k] == Retagged(old(logs)[k], c)
        invariant forall k :: i <= k < |bufs| ==> bufs[k] == old(bufs)[k] && logs[k] == old(logs)[k]
        invariant forall k :: 0 <= k < |bufs| ==> BufInv(bufs[k], logs[k])
      {
        GoneInv(bufs[i], logs[i], c);
        bufs := bufs[i := Gone(bufs[i], c)];
        logs := logs[i := Retagged(logs[i], c)];
        i := i + 1;
      }
      ids := Without(ids, c);
    }

    /** Gives the state for the rate every current channel, creating it if there is none. */
    method FindOrCreate(srate: int) returns (k: nat)
      requires Valid()
      modifies this`bufs, this`logs
      ensures Valid() && k < |bufs| && bufs[k].rate == srate && forall c :: c in bufs[k].channels <==> c in ids
      ensures forall j :: 0 <= j < k ==> bufs[j].rate != srate
      ensures k <= |old(bufs)| && logs == (if k < |old(bufs)| then old(logs) else old(logs) + [[]])
      ensures forall j :: 0 <= j < |old(bufs)| && j != k ==> bufs[j] == old(bufs)[j]
    {
      hide BufInv;
      k := 0;
      while k < |bufs|
        invariant k <= |bufs|
        invariant forall j :: 0 <= j < k ==> bufs[j].rate != srate
      {
        if bufs[k].rate == srate {
          Fix(k);
          return;
        }
        k := k + 1;
      }
      Create(srate);
    }

    method Fix(k: nat)
      requires Valid() && k < |bufs|
      modifies this`bufs
      ensures Valid() && bufs == old(bufs)[k := Fixed(old(bufs)[k], ids)]
      ensures bufs[k].rate == old(bufs)[k].rate && forall c :: c in bufs[k].channels <==> c in ids
    {
      hide BufInv;
      var b, i := bufs[k], 0;
      assert ids[..0] == [];
      while i < |ids|
        invariant 0 <= i <= |ids| && b == Fixed(bufs[k], ids[..i])
      {
        assert ids[..i + 1][..i] == ids[..i];
        if ids[i] !in b.channels {
          b := b.(channels := b.channels[ids[i] := map[]]);
        }
        i := i + 1;
      }
      assert ids[..|ids|] == ids;
      FixedInv(bufs[k], logs[k], ids);
      bufs := bufs[k := b];
    }

    method Create(srate: int)
      requires Valid()
      modifies this`bufs, this`logs
      ensures Valid() && |bufs| == |old(bufs)| + 1 && bufs[..|old(bufs)|] == old(bufs) && logs == old(logs) + [[]]
      ensures bufs[|old(bufs)|].rate == srate && forall c :: c in bufs[|old(bufs)|].channels <==> c in ids
    {
      hide BufInv;
      EmptyInv(srate);
      bufs := bufs + [Buf(srate, map[], map[])];
      logs := logs + [[]];
      Fix(|bufs| - 1);
    }

    /** A packet of a current channel is written to the state of the current rate, and to no other. */
    method PutChannelPacket(c: int, srate: int, pos: int, data: array<int>, n: nat) returns (ghost k: nat)
      requires Valid() && n <= data.Length && n <= tmp.Length && data != tmp
      modifies this`bufs, this`logs, tmp
      ensures Valid() && |old(logs)| <= |logs|
      ensures n == 0 || srate < 100 ==> bufs == old(bufs) && logs == old(logs)
      ensures n > 0 && srate >= 100 ==> k < |logs| && bufs[k].rate == srate
      ensures n > 0 && srate >= 100 ==> logs[k] == LogAt(old(logs), k) + if c in ids then Writes(c, pos, data[..n]) else []
      ensures forall j :: 0 <= j < |old(logs)| && (j != k || n == 0 || srate < 100) ==> logs[j] == old(logs)[j]
    {
      hide BufInv;
      k := 0;
      if n == 0 || srate < 100 {
        return;
      }
      var x := FindOrCreate(srate);
      k := x;
      if c in bufs[x].channels {
        var b := bufs[x];
        Load(b.mixed, pos, tmp, n);
        MixAdd(tmp, data, n);
        PutInv(b, logs[x], c, pos, data[..n]);
        bufs := bufs[x := Buf(b.rate, b.channels[c := Stored(b.channels[c], pos, data[..n])], Stored(b.mixed, pos, tmp[..n]))];
        logs := logs[x := logs[x] + Writes(c, pos, data[..n])];
      }
    }

    method ScaleSample(x: int) returns (s: int)
      requires 0 <= factor <= 64
      modifies this`factor
      ensures s == Output(x, old(factor)) && Abs(s) <= MAX_LINEAR_SAMPLE
      ensures factor == NextFactor(x, old(factor)) && 0 <= factor <= 64
    {
      FactorStep(x, factor);
      ZeroNeverClips(factor);
      s := x * factor / 64;
      if Abs(s) > MAX_LINEAR_SAMPLE {
        factor := Abs(Quotient(MAX_LINEAR_SAMPLE * 64, x));
        s := if s < 0 then -MAX_LINEAR_SAMPLE else MAX_LINEAR_SAMPLE;
      }
    }

    /** Raises the gain by one step, then scales; the gain never rises again within the call. */
    method Scale(buffer: array<int>, n: nat)
      requires 0 <= factor <= 64 && buffer != tmp && n <= buffer.Length && n <= tmp.Length
      modifies this`factor, buffer
      ensures var f := if old(factor) < 64 then old(factor) + 1 else old(factor);
        && factor == FactorAt(tmp[..n], f, n)
        && (forall i :: 0 <= i < n ==> buffer[i] == Output(tmp[i], FactorAt(tmp[..n], f, i)))
      ensures 0 <= factor <= 64
      ensures forall i :: 0 <= i < n ==> Abs(buffer[i]) <= MAX_LINEAR_SAMPLE
    {
      hide Output, NextFactor, FactorAt;
      if factor < 64 {
        factor := factor + 1;
      }
      ghost var f, xs := factor, tmp[..n];
      FactorFirst(xs, f);
      var i := 0;
      while i < n
        invariant 0 <= i <= n && 0 <= factor <= 64 && factor == FactorAt(xs, f, i) && xs == tmp[..n]
        invariant forall j :: 0 <= j < i ==> buffer[j] == Output(xs[j], FactorAt(xs, f, j))
        invariant forall j :: 0 <= j < i ==> Abs(buffer[j]) <= MAX_LINEAR_SAMPLE
      {
        FactorAfter(xs, f, i);
        var s := ScaleSample(tmp[i]);
        buffer[i] := s;
        i := i + 1;
      }
    }

    /** Mix-minus and gain for a channel of buffer state b, whose history is log. */
    method Render(b: Buf, ghost log: seq<Write>, c: int, pos: int, n: nat, buffer: array<int>) returns (ghost heard: seq<int>)
      requires BufInv(b, log) && c in b.channels
      requires 0 <= factor <= 64 && n <= buffer.Length && n <= tmp.Length && buffer != tmp
      modifies this`factor, buffer, tmp
      ensures |heard| == n && 0 <= factor <= 64
      ensures forall i :: 0 <= i < n && Times(log, c, pos + i) <= 1 ==> heard[i] == Others(log, c, pos + i)
      ensures var f := if old(factor) < 64 then old(factor) + 1 else old(factor);
        forall i :: 0 <= i < n ==> buffer[i] == Output(heard[i], FactorAt(heard, f, i))
    {
      hide BufInv, Output, FactorAt, Times, Others;
      Load(b.mixed, pos, tmp, n);
      Load(b.channels[c], pos, buffer, n);
      MixSub(tmp, buffer, n);
      heard := tmp[..n];
      forall i | 0 <= i < n && Times(log, c, pos + i) <= 1 ensures heard[i] == Others(log, c, pos + i) {
        assert heard[i] == Heard(b, c, pos + i);
        MixMinus(b, log, c, pos + i);
      }
      Scale(buffer, n);
    }

    /** A current channel that wrote each position at most once hears the sum of all others, scaled; any other
        channel hears silence. */
    method GetChannelPacket(c: int, srate: int, k: nat, drop: nat, pos: int, n: nat, buffer: array<int>) returns (ghost heard: seq<int>)
      requires Valid() && k <= |bufs| && drop <= |bufs| && n <= buffer.Length && n <= tmp.Length && buffer != tmp
      modifies this`bufs, this`logs, this`factor, buffer, tmp
      ensures Valid() && |heard| == n
      ensures srate >= 100 ==> logs == (if k < |old(bufs)| then old(logs) else old(logs) + [[]])[drop..]
      ensures srate >= 100 && c in ids ==>
        forall i :: 0 <= i < n && Times(LogAt(old(logs), k), c, pos + i) <= 1 ==> heard[i] == Others(LogAt(old(logs), k), c, pos + i)
      ensures srate >= 100 && c in ids ==>
        var f := if old(factor) < 64 then old(factor) + 1 else old(factor);
        forall i :: 0 <= i < n ==> buffer[i] == Output(heard[i], FactorAt(heard, f, i))
      ensures srate >= 100 && c !in ids ==> forall i :: 0 <= i < n ==> buffer[i] == 0
    {
      hide BufInv, Output, FactorAt, Times, Others, Fixed;
      heard := seq(n, i => 0);
      if srate < 100 {
        return;
      }
      if k == |bufs| {
        Create(srate);
      } else {
        Fix(k);
      }
      if c in bufs[k].channels {
        heard := Render(bufs[k], logs[k], c, pos, n, buffer);
      } else {
        for i := 0 to n
          modifies buffer
          invariant forall j :: 0 <= j < i ==> buffer[j] == 0
        {
          buffer[i] := 0;
        }
      }
      bufs := bufs[drop..];
      logs := logs[drop..];
    }
  }
}
