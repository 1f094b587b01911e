/** WSOLA time scaling of one packet inside the playout buffer. */
module TimeScale {
  import opened Serial32

  const SEARCH_REGION: int := 110
  const DELTA: int := 5
  /** SYSTEM_SAMPLECLOCK_RATE */
  const CLOCK: int := 32000
  const MAX_PACKET_SAMPLES: int := 2560
  const STRETCH_BUFFER: int := 4 * 2560
  const MERGE_BUFFER: int := 320

  /** TEMPLATE_SEG: samples in 10 ms. */
  function Template(rate: int): int
    requires rate >= 0
  {
    10 * rate / 1000
  }

  /** How far the search region is moved away from the template, truncated like a C cast. */
  function Shift(rate: int, factor: real): int
    requires rate >= 0
  {
    ((10.0 * rate as real / 1000.0) * (if factor > 1.0 then factor - 1.0 else 1.0 - factor)).Floor
  }

  lemma ShiftBound(rate: int, factor: real)
    requires rate >= 0 && 0.5 <= factor <= 2.0
    ensures 0 <= Shift(rate, factor) <= Template(rate)
  {
    var t := 10.0 * rate as real / 1000.0;
    var d := if factor > 1.0 then factor - 1.0 else 1.0 - factor;
    MulBound(t, d);
    FloorBound(t * d, rate);
  }

  lemma FloorBound(x: real, rate: int)
    requires rate >= 0 && 0.0 <= x <= 10.0 * rate as real / 1000.0
    ensures 0 <= x.Floor <= 10 * rate / 1000
  {
    var n := 10 * rate / 1000;
    assert 10 * rate < 1000 * (n + 1);
    assert (10 * rate) as real < (1000 * (n + 1)) as real;
    assert x < (n + 1) as real;
  }

  lemma MulBound(t: real, d: real)
    requires 0.0 <= t && 0.0 <= d <= 1.0
    ensures 0.0 <= t * d <= t
  {
    assert t * (1.0 - d) >= 0.0;
  }

  /** Cross correlation of the segments of length t at i and j. */
  function Corr(p: seq<int>, i: nat, j: nat, t: nat): int
    requires i + t <= |p| && j + t <= |p|
    decreases t
  {
    if t == 0 then 0 else Corr(p, i, j, t - 1) + p[i + t - 1] * p[j + t - 1]
  }

  ghost predicate NoneAbove(p: seq<int>, tmpl: nat, beg: nat, end: nat, t: nat, c: int)
    requires beg <= end && end + t <= |p| + 1 && tmpl + t <= |p|
  {
    forall i :: beg <= i < end ==> Corr(p, i, tmpl, t) <= c
  }

  /** best is the first candidate with the greatest correlation, and that is positive. */
  ghost predicate FirstBest(p: seq<int>, tmpl: nat, beg: nat, end: nat, t: nat, best: nat)
    requires beg <= best < end && end + t <= |p| + 1 && tmpl + t <= |p|
  {
    var c := Corr(p, best, tmpl, t);
    c > 0 && NoneAbove(p, tmpl, beg, end, t, c) && NoneAbove(p, tmpl, beg, best, t, c - 1)
  }

  /** find_best_corr: the template itself when no candidate correlates positively. */
  method FindBestCorr(p: array<int>, tmpl: nat, beg: nat, end: nat, t: nat) returns (best: nat)
    requires beg <= end && end + t <= p.Length + 1 && tmpl + t <= p.Length
    ensures (best == tmpl && NoneAbove(p[..], tmpl, beg, end, t, 0))
         || (beg <= best < end && FirstBest(p[..], tmpl, beg, end, t, best))
  {
    var bestCorr := 0;
    best := tmpl;
    var sr := beg;
    while sr != end
      invariant beg <= sr <= end
      invariant (best == tmpl && bestCorr == 0 && NoneAbove(p[..], tmpl, beg, sr, t, 0))
             || (beg <= best < sr && bestCorr == Corr(p[..], best, tmpl, t) && FirstBest(p[..], tmpl, beg, sr, t, best))
    {
      var corr := 0;
      for i := 0 to t
        invariant corr == Corr(p[..], sr, tmpl, i)
      {
        corr := corr + p[sr + i] * p[tmpl + i];
      }
      if corr > bestCorr {
        bestCorr, best := corr, sr;
      }
      sr := sr + 1;
    }
  }

  datatype Region = Region(beg: int, end: int)

  /** Candidates for the segment merged over the template: before it when expanding, after it when
      compressing, DELTA samples away from it and inside the stretch buffer. */
  function SearchRegion(tmpl: int, end: int, shift: int, t: int, expand: bool): Region {
    if expand then
      var b := tmpl - shift - SEARCH_REGION / 2;
      var e := b + SEARCH_REGION;
      Region(if b < 0 then 0 else b, if e + DELTA >= tmpl then tmpl - DELTA else e)
    else
      var e := tmpl + shift + SEARCH_REGION / 2;
      var b := e - SEARCH_REGION;
      Region(if b - DELTA < tmpl then tmpl + DELTA else b, if e + t > end then end - t else e)
  }

  /** A nonempty region keeps template and candidates inside the stretch buffer, and bounds the change
      of the packet size. */
  lemma RegionFits(tmpl: int, end: int, shift: int, t: int, expand: bool, srch: int)
    requires var r := SearchRegion(tmpl, end, shift, t, expand);
      0 <= tmpl && 0 <= shift <= t && r.beg < r.end && (srch == tmpl || r.beg <= srch < r.end)
    requires expand ==> tmpl + t <= end
    ensures var r := SearchRegion(tmpl, end, shift, t, expand);
      0 <= r.beg && r.end + t <= end && tmpl + t <= end && srch + t <= end
    ensures expand ==> srch <= tmpl <= srch + t + SEARCH_REGION / 2
    ensures !expand ==> tmpl <= srch && srch + t < end
  {
  }

  /** best is the template itself, when no candidate of the region correlates positively, or the first best one. */
  ghost predicate Picks(p: seq<int>, tmpl: nat, r: Region, t: nat, best: nat) {
    && 0 <= r.beg < r.end && r.end + t <= |p| && tmpl + t <= |p| && best + t <= |p|
    && ((best == tmpl && NoneAbove(p, tmpl, r.beg, r.end, t, 0))
        || (r.beg <= best < r.end && FirstBest(p, tmpl, r.beg, r.end, t, best)))
  }

  /** Some candidate of the region correlates positively with the template. */
  ghost predicate Promising(p: seq<int>, tmpl: nat, r: Region, t: nat) {
    && 0 <= r.beg && r.end + t <= |p| && tmpl + t <= |p|
    && exists c :: r.beg <= c < r.end && Corr(p, c, tmpl, t) > 0
  }

  /** Then the template is not picked, and the packet changes its length. */
  lemma PromisingPicks(p: seq<int>, tmpl: nat, r: Region, t: nat, best: nat)
    requires Picks(p, tmpl, r, t, best) && Promising(p, tmpl, r, t)
    ensures r.beg <= best < r.end
  {
  }

  /** Correlation looks at the two segments only. */
  lemma {:induction false} CorrWithin(p: seq<int>, q: seq<int>, n: nat, i: nat, j: nat, t: nat)
    requires n <= |p| && n <= |q| && p[..n] == q[..n] && i + t <= n && j + t <= n
    ensures Corr(p, i, j, t) == Corr(q, i, j, t)
    decreases t
  {
    if t > 0 {
      CorrWithin(p, q, n, i, j, t - 1);
      assert p[i + t - 1] == p[..n][i + t - 1] && p[j + t - 1] == p[..n][j + t - 1];
      assert q[i + t - 1] == q[..n][i + t - 1] && q[j + t - 1] == q[..n][j + t - 1];
    }
  }

  lemma PromisingWithin(p: seq<int>, q: seq<int>, n: nat, tmpl: nat, r: Region, t: nat)
    requires n <= |p| && n <= |q| && p[..n] == q[..n] && r.end + t <= n && tmpl + t <= n && Promising(p, tmpl, r, t)
    ensures Promising(q, tmpl, r, t)
  {
    var c :| r.beg <= c < r.end && Corr(p, c, tmpl, t) > 0;
    CorrWithin(p, q, n, c, tmpl, t);
  }

  /** Candidates lie DELTA samples away from the template, on the side that changes the length as asked. */
  lemma RegionApart(tmpl: int, end: int, shift: int, t: int, expand: bool, c: int)
    requires var r := SearchRegion(tmpl, end, shift, t, expand); r.beg <= c < r.end
    ensures if expand then c + DELTA < tmpl else c >= tmpl + DELTA
  {
  }

  /** Why the loop of time_scale ended. */
  datatype Stop = Unscaled | NoCandidates | NearEnd | Reached | Faint

  /** One sample of the cross fade: clipped to 16 bits, truncated like a C cast. */
  function Faded(a: int, b: int, f: real): int {
    var v := a as real * f + b as real * (1.0 - f);
    if v > 32767.0 then 32767 else if v < -32768.0 then -32768
    else if v >= 0.0 then v.Floor else -((-v).Floor)
  }

  /** A timestamp outside [ts + a, ts + a + n + m) is outside both pieces of that interval. */
  lemma Outside(x: u32, ts: u32, a: u32, n: nat, m: nat)
    requires a + n + m < HALF
    ensures Minus(x, ts) < a || Minus(x, ts) >= a + n + m ==>
      Minus(x, Plus(ts, a)) >= n && Minus(x, Plus(Plus(ts, a), n)) >= m
  {
  }

  lemma Inside(ts: u32, a: u32, k: nat, n: nat, m: nat)
    requires a + n + m < HALF && k < n
    ensures Plus(ts, a + k) == Plus(Plus(ts, a), k)
    ensures Minus(Plus(Plus(ts, a), k), Plus(Plus(ts, a), n)) >= m
  {
  }

  lemma Origin(ts: u32, n: u32)
    ensures Plus(Minus(ts, n), n) == ts && Minus(ts, ts) == 0 && Plus(ts, 0) == ts
  {
  }

  lemma Last(ts: u32, len: nat, s: nat)
    requires 0 < s && s + len < HALF
    ensures Plus(Minus(ts, len), s + len - 1) == Plus(ts, s - 1)
  {
  }

  /** The cross fade starts on the template. */
  lemma FadeStart(a: int, b: int)
    ensures -32768 <= b <= 32767 ==> Faded(a, b, 0.0) == b
  {
  }

  lemma PlusPlus(ts: u32, a: nat, n: nat, i: nat)
    requires a + n + i < HALF
    ensures Plus(Plus(Plus(ts, a), n), i) == Plus(ts, a + n + i)
  {
  }

  /** Samples by timestamp; a timestamp never written reads as silence. */
  type Track = map<u32, int>

  function At(m: Track, t: u32): int {
    if t in m then m[t] else 0
  }

  /** The n samples from t on. */
  function Window(m: Track, t: u32, n: u32): (w: seq<int>)
    ensures |w| == n && forall i :: 0 <= i < n ==> w[i] == At(m, Plus(t, i))
  {
    seq(n, i requires 0 <= i < n => At(m, Plus(t, i)))
  }

  /** From m to r the samples src were written at t. */
  ghost predicate Written(m: Track, r: Track, t: u32, src: seq<int>) {
    && |src| < TWO32
    && (forall i :: 0 <= i < |src| ==> At(r, Plus(t, i)) == src[i])
    && (forall x: u32 :: Minus(x, t) >= |src| ==> At(r, x) == At(m, x))
  }

  /** From m to r the segment of p at best was faded over the one at tmpl and written at ts + a, what follows best up to
      end was written behind it, and nothing else changed. */
  ghost predicate Spliced(m: Track, r: Track, p: seq<int>, ts: u32, a: nat, tmpl: nat, best: nat, end: nat, t: nat, fade: int -> real)
  {
    && tmpl + t <= end <= |p| && best + t <= end && a + end < HALF
    && (forall k :: 0 <= k < t ==> At(r, Plus(ts, a + k)) == Faded(p[best + k], p[tmpl + k], fade(k)))
    && (forall k :: best + t <= k < end ==> At(r, Plus(ts, a + k - best)) == p[k])
    && (forall x: u32 :: Minus(x, ts) < a || Minus(x, ts) >= a + end - best ==> At(r, x) == At(m, x))
  }

  /** Writing the faded segment, then the rest, is a splice. */
  lemma TwoWrites(m: Track, q: Track, r: Track, p: seq<int>, f: seq<int>, ts: u32, a: nat, tmpl: nat, best: nat, end: nat, t: nat, fade: int -> real)
    requires tmpl + t <= end <= |p| && best + t <= end && a + end < HALF && |f| == t
    requires forall k :: 0 <= k < t ==> f[k] == Faded(p[best + k], p[tmpl + k], fade(k))
    requires Written(m, q, Plus(ts, a), f) && Written(q, r, Plus(Plus(ts, a), t), p[best + t..end])
    ensures Spliced(m, r, p, ts, a, tmpl, best, end, t, fade)
  {
    hide Plus, Minus, Faded, At;
    var at, rest := Plus(ts, a), p[best + t..end];
    forall x: u32 | Minus(x, ts) < a || Minus(x, ts) >= a + end - best ensures At(r, x) == At(m, x) {
      Outside(x, ts, a, t, end - best - t);
    }
    forall k | 0 <= k < t ensures At(r, Plus(ts, a + k)) == Faded(p[best + k], p[tmpl + k], fade(k)) {
      Inside(ts, a, k, t, end - best - t);
      assert At(q, Plus(at, k)) == f[k];
    }
    forall k | best + t <= k < end ensures At(r, Plus(ts, a + k - best)) == p[k] {
      var i := k - best - t;
      PlusPlus(ts, a, t, i);
      assert At(r, Plus(Plus(at, t), i)) == rest[i];
    }
  }

  /** From m to r a packet of len samples at ts, with templates of t samples, became s long: the audio after it is as
      before, its last sample is the old last one, and its first the old first one. */
  ghost predicate Keeps(m: Track, r: Track, ts: u32, len: nat, s: nat, t: nat) {
    && 0 < s < HALF && 0 < len < HALF
    && (forall x: u32 :: Minus(x, ts) >= (if s > len then s else len) ==> At(r, x) == At(m, x))
    && (len > t ==> At(r, Plus(ts, s - 1)) == At(m, Plus(ts, len - 1)))
    && (t > 0 && -32768 <= At(m, ts) <= 32767 ==> At(r, ts) == At(m, ts))
  }

  lemma KeepsAll(m: Track, ts: u32, len: nat, t: nat)
    requires 0 < len < HALF
    ensures Keeps(m, m, ts, len, len, t)
  {
  }

  /** A splice at the template keeps this. */
  lemma SplicedKeeps(m: Track, q: Track, r: Track, p: seq<int>, ts: u32, len: nat, s: nat, tmpl: nat, best: nat, t: nat, fade: int -> real)
    requires Keeps(m, q, ts, len, s, t) && s + len < HALF / 4 && len <= tmpl < HALF / 4 && s + len <= |p|
    requires Spliced(q, r, p, ts, tmpl - len, tmpl, best, s + len, t, fade) && fade(0) == 0.0
    requires p[..s + len] == Window(q, Minus(ts, len), s + len)
    requires s + tmpl - best > 0 && (len > t ==> best + t < s + len)
    requires (s >= len && best <= tmpl) || (s <= len && best >= tmpl)
    ensures Keeps(m, r, ts, len, s + tmpl - best, t)
  {
    hide Plus, Minus, Faded;
    var end := s + len;
    Origin(ts, len);
    if len > t {
      Last(ts, len, s);
      assert At(r, Plus(ts, tmpl - len + (end - 1) - best)) == p[end - 1] == p[..end][end - 1];
    }
    if t > 0 && -32768 <= At(m, ts) <= 32767 {
      if tmpl == len {
        FadeStart(p[best], p[tmpl]);
        assert At(r, Plus(ts, tmpl - len + 0)) == Faded(p[best + 0], p[tmpl + 0], fade(0));
        assert p[tmpl] == p[..end][tmpl];
      } else {
        assert Minus(ts, ts) < tmpl - len;
      }
    }
  }

  class Playout {
    var samples: Track
    var rTs: u32
    var wTs: u32
    const stretch: array<int>
    const merge: array<int>

    ghost predicate Valid()
      reads this
    {
      stretch.Length == STRETCH_BUFFER && merge.Length == MERGE_BUFFER && stretch != merge
    }

    function Sample(t: u32): int
      reads this`samples
    {
      At(samples, t)
    }

    constructor ()
      ensures Valid() && fresh(stretch) && fresh(merge) && samples == map[]
    {
      samples, rTs, wTs := map[], 0, 0;
      stretch := new int[STRETCH_BUFFER];
      merge := new int[MERGE_BUFFER];
    }

    /** buffer_get into the stretch buffer. */
    method BufferGet(t: u32, n: nat)
      requires Valid() && n <= stretch.Length
      modifies this`rTs, stretch
      ensures forall i :: 0 <= i < n ==> stretch[i] == Sample(Plus(t, i))
      ensures rTs == if TsLess(old(rTs), Plus(t, n)) then Plus(t, n) else old(rTs)
    {
      for i := 0 to n
        invariant rTs == old(rTs) && forall k :: 0 <= k < i ==> stretch[k] == Sample(Plus(t, k))
      {
        stretch[i] := Sample(Plus(t, i));
      }
      if TsLess(rTs, Plus(t, n)) {
        rTs := Plus(t, n);
      }
    }

    /** buffer_put of n samples of src, starting at off. */
    method BufferPut(t: u32, src: array<int>, off: nat, n: nat)
      requires off + n <= src.Length && n <= STRETCH_BUFFER
      modifies this`samples, this`wTs
      ensures Written(old(samples), samples, t, src[off..off + n])
      ensures wTs == if TsLess(old(wTs), Plus(t, n)) then Plus(t, n) else old(wTs)
    {
      for i := 0 to n
        invariant wTs == old(wTs) && forall k :: 0 <= k < i ==> Sample(Plus(t, k)) == src[off + k]
        invariant forall x: u32 :: Minus(x, t) >= i ==> Sample(x) == old(Sample(x))
      {
        samples := samples[Plus(t, i) := src[off + i]];
      }
      if TsLess(wTs, Plus(t, n)) {
        wTs := Plus(t, n);
      }
    }

    /** Fades the segment at srch over the one at tmpl, writes it at ts + a, and the audio after
        srch behind it. What is written ends exactly where the resized packet ends. */
    method Splice(ts: u32, a: nat, tmpl: nat, srch: nat, end: nat, t: nat, fade: int -> real)
      requires Valid() && t <= MERGE_BUFFER && tmpl + t <= end <= STRETCH_BUFFER && srch + t <= end && a <= end
      modifies this`samples, this`wTs, merge
      ensures Spliced(old(samples), samples, stretch[..], ts, a, tmpl, srch, end, t, fade)
    {
      hide Faded, Written, Spliced, Plus;
      for k := 0 to t
        invariant samples == old(samples)
        invariant forall i :: 0 <= i < k ==> merge[i] == Faded(stretch[srch + i], stretch[tmpl + i], fade(i))
      {
        merge[k] := Faded(stretch[srch + k], stretch[tmpl + k], fade(k));
      }
      var at := Plus(ts, a);
      BufferPut(at, merge, 0, t);
      ghost var faded := samples;
      BufferPut(Plus(at, t), stretch, srch + t, end - srch - t);
      assert merge[0..t] == merge[..t];
      assert stretch[srch + t..srch + t + (end - srch - t)] == stretch[..][srch + t..end];
      TwoWrites(old(samples), faded, samples, stretch[..], merge[..t], ts, a, tmpl, srch, end, t, fade);
    }

    /** What one turn of the loop needs to find: a packet of s samples whose template, at tmpl, is
        inside the stretch buffer when expanding. */
    ghost predicate Ready(len: int, s: int, tmpl: int, t: int, expand: bool) {
      && 0 <= t <= len <= MAX_PACKET_SAMPLES && t <= MERGE_BUFFER && t <= s && s + len <= 3 * len && len <= tmpl
      && (expand ==> len <= s && tmpl + t <= s + len && (tmpl > len ==> tmpl + t < s + len))
      && (!expand ==> s <= len) && (len > 0 ==> s > 0)
    }

    /** One turn. It fails exactly when the search region is empty. Otherwise the best candidate is faded over the
        template, what followed the candidate follows now, and the length changes by their distance. */
    method Turn(ts: u32, len: nat, s: nat, tmpl: nat, t: nat, shift: nat, expand: bool, fade: int -> real)
      returns (ok: bool, s': int, ghost best: nat)
      requires Valid() && Ready(len, s, tmpl, t, expand) && shift <= t
      modifies this, stretch, merge
      ensures s + len <= STRETCH_BUFFER && stretch[..s + len] == Window(old(samples), Minus(ts, len), s + len)
      ensures var r := SearchRegion(tmpl, s + len, shift, t, expand);
        && (ok <==> r.beg < r.end)
        && (ok ==> r.end + t <= s + len && Picks(stretch[..], tmpl, r, t, best))
      ensures !ok ==> s' == s && samples == old(samples)
      ensures ok ==> s' == s + tmpl - best > 0 && tmpl > 0 && len > 0 && (len > t ==> best + t < s + len)
      ensures ok ==> Spliced(old(samples), samples, stretch[..], ts, tmpl - len, tmpl, best, s + len, t, fade)
      ensures ok && expand ==> s <= s' <= s + t + SEARCH_REGION / 2
      ensures ok && !expand ==> s' <= s && tmpl < s' + len - t
    {
      hide Corr, FirstBest, NoneAbove, Plus, Minus, TsLess, SearchRegion, Faded, Spliced;
      BufferGet(Minus(ts, len), s + len);
      var end := s + len;
      best := tmpl;
      var region := SearchRegion(tmpl, end, shift, t, expand);
      if region.beg >= region.end {
        return false, s, tmpl;
      }
      RegionFits(tmpl, end, shift, t, expand, tmpl);
      var srch := FindBestCorr(stretch, tmpl, region.beg, region.end, t);
      RegionFits(tmpl, end, shift, t, expand, srch);
      assert end - srch - t >= 0;  // "audio after merged segment spills over" is not reached
      Splice(ts, tmpl - len, tmpl, srch, end, t, fade);
      ok, s', best := true, s + tmpl - srch, srch;
    }

    /** The requested ratio, within the bounds of scaling. */
    function Clipped(factor: real): real {
      if factor > 2.0 then 2.0 else if factor < 0.5 then 0.5 else factor
    }

    /** A packet of len samples that is s long now is stretched, or shrunk, by the ratio f at least. */
    predicate Reaches(s: int, len: int, f: real) {
      if f > 1.0 then s as real >= f * len as real else s as real <= f * len as real
    }

    /** The weight of the candidate in the last sample of a cross fade. */
    function LastWeight(t: nat, fade: int -> real): real {
      if t == 0 then 0.5 else fade(t - 1)
    }

    /** Scales the packet of len samples at ts by factor; returns its new length. The loop ends only when the ratio is
        reached, the template, at `last`, comes near the end, no candidate is left, or the fade gives the candidate
        no more than half the weight. If some candidate of the first turn correlates positively, the length changes. */
    method Scale(ts: u32, factor: real, len: u32, rate: int, fade: int -> real)
      returns (s: int, ghost why: Stop, ghost last: nat, ghost end: nat)
      requires Valid() && 0 <= rate <= CLOCK && fade(0) == 0.0
      modifies this, stretch, merge
      ensures why == Unscaled <==> len > MAX_PACKET_SAMPLES || len < Template(rate) || 0.9 <= factor <= 1.1
      ensures why == Unscaled ==> s == len && samples == old(samples)
      ensures why == Reached ==> Reaches(s, len, Clipped(factor))
      ensures why == NoCandidates ==>
        var r := SearchRegion(last, s + len, Shift(rate, Clipped(factor)), Template(rate), factor > 1.0); r.beg >= r.end
      ensures why == NearEnd ==> end - last < Template(rate) + DELTA && (factor > 1.0 ==> end <= s + len)
      ensures why == Faint ==> LastWeight(Template(rate), fade) <= 0.5
      ensures why != Unscaled && 2 * len < TWO32 && Promises(Window(old(samples), Minus(ts, len), 2 * len), len, factor, rate) ==>
        if factor > 1.0 then s > len else s < len
      ensures factor > 1.1 ==> len <= s < 2 * len + Template(rate) + SEARCH_REGION / 2
      ensures factor < 0.9 && Template(rate) <= len ==> Template(rate) <= s <= len
      ensures len > 0 && why != Unscaled ==> Keeps(old(samples), samples, ts, len, s, Template(rate))
      ensures len == 0 ==> s == 0 && samples == old(samples)
    {
      hide Plus, Minus, Shift, SearchRegion, Picks, Promising, Spliced, At, Window, Keeps, LastWeight, Reaches;
      var t := Template(rate);
      s, why, last, end := len, Unscaled, len, 2 * len;
      if len > MAX_PACKET_SAMPLES || len < t || 0.9 <= factor <= 1.1 {
        return;
      }
      var fct := Clipped(factor);
      var shift := Shift(rate, fct);
      ShiftBound(rate, fct);
      ghost var w := Window(samples, Minus(ts, len), 2 * len);
      ghost var promises := Promises(w, len, factor, rate);
      ghost var turned := false;
      ghost var start := samples;
      if len > 0 { KeepsAll(start, ts, len, t); }
      var tmpl: nat := len;
      while true
        invariant Valid() && Ready(len, s, tmpl, t, fct > 1.0) && last == tmpl
        invariant fct > 1.0 ==> s == len || s < 2 * len
        invariant len > 0 ==> tmpl < s + len
        invariant if turned then len > 0 else s == len && tmpl == len && samples == old(samples)
        invariant turned && promises ==> if fct > 1.0 then s > len else s < len
        invariant len > 0 ==> Keeps(start, samples, ts, len, s, t)
        invariant t < 2 ==> tmpl == len
        decreases 3 * len - tmpl
      {
        end := s + len;
        ghost var before := samples;
        var e := s + len;
        var ok, s', best := Turn(ts, len, s, tmpl, t, shift, fct > 1.0, fade);
        if !turned && promises {
          FirstTurn(stretch[..], w, len, shift, t, fct > 1.0, ok, best);
        }
        if !ok {
          why := NoCandidates;
          return;
        }
        SplicedKeeps(start, before, samples, stretch[..], ts, len, s, tmpl, best, t, fade);
        s, turned := s', true;
        tmpl := tmpl + t / 2;
        last := tmpl;
        var stop;
        stop, why := Enough(s, len, t, e, tmpl, fct, fade);
        if stop {
          return;
        }
      }
    }

    /** The break conditions at the end of a turn. The bound on the ratio never applies on its own. */
    method Enough(s: int, len: int, t: nat, end: int, tmpl: nat, fct: real, fade: int -> real) returns (stop: bool, ghost why: Stop)
      requires 0 < len && (fct <= 1.0 ==> s <= len) && 0.5 <= fct <= 2.0 && fct != 1.0 && fade(0) == 0.0
      ensures stop ==> why in {NearEnd, Reached, Faint}
      ensures stop && why == NearEnd ==> end - tmpl < t + DELTA
      ensures stop && why == Reached ==> Reaches(s, len, fct)
      ensures stop && why == Faint ==> LastWeight(t, fade) <= 0.5
      ensures !stop ==> end - tmpl >= t + DELTA && LastWeight(t, fade) > 0.5 && t >= 2 && (fct > 1.0 ==> s < 2 * len)
    {
      var actual := s as real / len as real;
      if end - tmpl < t + DELTA {
        return true, NearEnd;
      }
      Ratio(s, len, fct);
      if fct > 1.0 && actual >= fct {
        return true, Reached;
      } else if fct < 1.0 && actual <= fct {
        return true, Reached;
      } else if actual >= 2.0 || LastWeight(t, fade) <= 0.5 {
        return true, Faint;
      }
      return false, Faint;
    }
  }

  /** The search region of the first turn holds a candidate that correlates positively with the template. */
  ghost predicate Promises(w: seq<int>, len: nat, factor: real, rate: int)
    requires rate >= 0
  {
    var f := if factor > 2.0 then 2.0 else if factor < 0.5 then 0.5 else factor;
    Promising(w, len, SearchRegion(len, 2 * len, Shift(rate, f), Template(rate), factor > 1.0), Template(rate))
  }

  /** In that case the first turn succeeds and picks a candidate. */
  lemma FirstTurn(p: seq<int>, w: seq<int>, len: nat, shift: int, t: nat, expand: bool, ok: bool, best: nat)
    requires 2 * len <= |p| && |w| == 2 * len && p[..2 * len] == w
    requires var r := SearchRegion(len, 2 * len, shift, t, expand);
      && Promising(w, len, r, t) && (ok <==> r.beg < r.end) && (ok ==> r.end + t <= 2 * len && Picks(p, len, r, t, best))
    ensures ok && if expand then best < len else best > len
  {
    var r := SearchRegion(len, 2 * len, shift, t, expand);
    assert w[..2 * len] == w;
    hide SearchRegion;
    PromisingWithin(w, p, 2 * len, len, r, t);
    PromisingPicks(p, len, r, t, best);
    RegionApart(len, 2 * len, shift, t, expand, best);
  }

  /** The achieved ratio against the requested one, without the division. */
  lemma Ratio(s: int, len: int, f: real)
    requires len > 0 && f <= 2.0
    ensures var a := s as real / len as real;
      && (a >= f <==> s as real >= f * len as real) && (a <= f <==> s as real <= f * len as real)
      && (a < f ==> s < 2 * len) && (a >= 2.0 <==> s >= 2 * len)
  {
    var a := s as real / len as real;
    Compared(s as real, len as real, a, f);
    Compared(s as real, len as real, a, 2.0);
  }

  lemma Compared(s: real, len: real, a: real, f: real)
    requires len > 0.0 && s == a * len
    ensures (a >= f <==> s >= f * len) && (a <= f <==> s <= f * len)
  {
    assert s - f * len == (a - f) * len;
    if a > f { Positive(a - f, len); } else if a < f { Positive(f - a, len); }
  }

  lemma Positive(d: real, len: real)
    requires d > 0.0 && len > 0.0
    ensures d * len > 0.0
  {
  }
}
