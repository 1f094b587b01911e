/** The 48-bit wallclock and the 32-bit sample clocks scaled down from it. */
module WallClock {

  const P32: int := 0x1_0000_0000
  const P48: int := 0x1_0000_0000_0000
  const P64: int := 0x1_0000_0000_0000_0000

  type u32 = x: int | 0 <= x < P32
  type u48 = x: int | 0 <= x < P48
  type u64 = x: int | 0 <= x < P64

  const WALLCLOCK_RATE: int := 102400
  const WC_INC: int := 1024

  /** One 10 ms step of the media thread's clock. */
  function Tick(ts: u48): u48 {
    (ts + WC_INC) % P48
  }

  function Ticks(ts: u48, n: nat): u48 {
    if n == 0 then ts else Tick(Ticks(ts, n - 1))
  }

  /** scaleSystemTS, with the 64-bit multiplication and the truncation to 32 bits written out. */
  function Scale(ts: u64, rate: nat): u32 {
    ts * (rate / 100) % P64 / (WALLCLOCK_RATE / 100) % P32
  }

  /** Subtraction of unsigned 64-bit values. */
  function Minus64(a: u64, b: u64): u64 {
    if a >= b then a - b else a - b + P64
  }

  // ---- the scaling is consistent with every overflow ----

  /** The samples that fit into x wallclock units, without any machine limit. */
  function Samples(x: nat, rate: nat): nat {
    x * (rate / 100) / 1024
  }

  /** On 48-bit timestamps the multiplication does not overflow for any supported rate. */
  lemma NoOverflow(ts: u48, rate: nat)
    requires rate <= WALLCLOCK_RATE
    ensures ts * (rate / 100) < P64
  {
    var r := rate / 100;
    assert ts * r <= ts * 1024 by {
      assert ts * (1024 - r) >= 0;
      assert ts * (1024 - r) == ts * 1024 - ts * r;
    }
  }

  /** Even where the multiplication does overflow, the 32-bit result is exact: 1024 divides 2^64. */
  lemma ScaleExact(ts: u64, rate: nat)
    ensures Scale(ts, rate) == Samples(ts, rate) % P32
  {
    var x := ts * (rate / 100);
    var q, m := x / P64, x % P64;
    assert x == q * P64 + m;
    assert x / 1024 == q * 0x40_0000_0000_0000 + m / 1024;
    assert 0x40_0000_0000_0000 == 0x40_0000 * P32;
    Multiple(m / 1024, q * 0x40_0000);
  }

  lemma Multiple(a: nat, k: int)
    requires a + k * P32 >= 0
    ensures (a + k * P32) % P32 == a % P32
  {
  }

  /** Wallclock values a multiple of 2^42 apart, hence also 2^48 and 2^64, have the same sample clock. */
  lemma SamplesPeriodic(x: nat, k: nat, rate: nat)
    ensures Samples(x + k * 0x400_0000_0000, rate) % P32 == Samples(x, rate) % P32
  {
    var r := rate / 100;
    var p, c := x * r, k * r;
    assert (x + k * 0x400_0000_0000) * r == p + c * 0x400_0000_0000;
    assert (p + c * 0x400_0000_0000) / 1024 == p / 1024 + c * P32;
    Multiple(p / 1024, c);
  }

  lemma SamplesZero(rate: nat)
    ensures Samples(0, rate) == 0
  {
  }

  lemma SamplesAdd(x: nat, n: nat, rate: nat)
    ensures Samples(x + n * WC_INC, rate) == Samples(x, rate) + n * (rate / 100)
  {
    var r := rate / 100;
    var p, c := x * r, n * r;
    assert (x + n * WC_INC) * r == p + c * 1024;
  }

  /** The clock after n ticks is n increments further, however often it wrapped. */
  lemma {:induction false} TicksSum(ts: u48, n: nat) returns (wraps: nat)
    ensures ts + n * WC_INC == Ticks(ts, n) + wraps * P48
  {
    if n == 0 {
      wraps := 0;
    } else {
      var w := TicksSum(ts, n - 1);
      var t := Ticks(ts, n - 1);
      wraps := w + (t + WC_INC) / P48;
    }
  }

  /** n ticks move the sample clock by n * (rate / 100), across any number of wraps. */
  lemma TicksAdvance(ts: u48, n: nat, rate: nat)
    ensures Scale(Ticks(ts, n), rate) == (Scale(ts, rate) + n * (rate / 100)) % P32
  {
    hide Samples, Scale, Ticks;
    var w := TicksSum(ts, n);
    var now, step := Ticks(ts, n), n * (rate / 100);
    ScaleExact(now, rate);
    ScaleExact(ts, rate);
    SamplesAdd(ts, n, rate);
    SamplesPeriodic(now, w * 64, rate);
    assert now + w * 64 * 0x400_0000_0000 == ts + n * WC_INC;
    ModAdd(Samples(ts, rate), step);
  }

  lemma ModAdd(a: nat, b: nat)
    ensures (a + b) % P32 == (a % P32 + b) % P32
  {
  }

  /** A difference of two clock readings, taken in 64-bit unsigned arithmetic across any wrap, scales to the samples
      of the true elapsed time. */
  lemma DifferenceScales(ts: u48, n: nat, rate: nat)
    ensures Scale(Minus64(Ticks(ts, n), ts), rate) == n * (rate / 100) % P32
  {
    hide Samples, Scale, Ticks;
    var w := TicksSum(ts, n);
    var now := Ticks(ts, n);
    var d := Minus64(now, ts);
    ScaleExact(d, rate);
    SamplesAdd(0, n, rate);
    assert Samples(0, rate) == 0 by { SamplesZero(rate); }
    if now >= ts {
      SamplesPeriodic(d, w * 64, rate);
    } else {
      assert w >= 1;
      SamplesPeriodic(now - ts + P48, (w - 1) * 64, rate);
      SamplesPeriodic(now - ts + P48, (P64 - P48) / 0x400_0000_0000, rate);
    }
  }

  /** The sample clock runs at the advertised rate exactly for multiples of 100. */
  lemma RateKept(ts: u48, rate: u32)
    ensures Scale(Ticks(ts, 100), rate) == (Scale(ts, rate) + rate) % P32 <==> rate % 100 == 0
  {
    hide Ticks, Scale;
    TicksAdvance(ts, 100, rate);
  }

  /** 44110 samples per second are promised and 44100 delivered. */
  lemma RateLost()
    ensures Scale(Ticks(0, 100), 44110) == 44100
  {
    hide Ticks;
    TicksAdvance(0, 100, 44110);
    assert Scale(0, 44110) == 0;
  }

  // ---- the packet interval ----

  datatype Interval = Interval(last: u64, started: bool, due: bool)

  function Checked(i: Interval, ts: u64, rate: nat, frame: u32): Interval {
    if !i.started || Scale(Minus64(ts, i.last), rate) >= frame then Interval(ts, true, true) else i.(due := false)
  }

  /** A stream checked on every tick from ts on, up to tick n. */
  function Polled(ts: u48, n: nat, rate: nat, frame: u32): Interval {
    if n == 0 then Checked(Interval(0, false, false), ts, rate, frame)
    else Checked(Polled(ts, n - 1, rate, frame), Ticks(ts, n), rate, frame)
  }

  /** Ticks per packet: the least number, at least one, whose samples fill the frame. */
  function Period(rate: nat, frame: u32): (n: nat)
    requires rate >= 100
    ensures n >= 1 && n * (rate / 100) >= frame && (n > 1 ==> (n - 1) * (rate / 100) < frame)
  {
    var r := rate / 100;
    if frame == 0 then 1
    else
      var n := (frame + r - 1) / r;
      Ceiling(frame, r);
      n
  }

  lemma Ceiling(a: nat, r: nat)
    requires a > 0 && r > 0
    ensures var n := (a + r - 1) / r; n >= 1 && a <= n * r < a + r && (n - 1) * r < a
  {
    var n := (a + r - 1) / r;
    assert a + r - 1 == r * n + (a + r - 1) % r;
    assert (n - 1) * r == n * r - r;
  }

  lemma {:induction false} TicksCompose(ts: u48, m: nat, k: nat)
    ensures Ticks(Ticks(ts, m), k) == Ticks(ts, m + k)
  {
    if k > 0 {
      TicksCompose(ts, m, k - 1);
    }
  }

  /** k ticks after the last packet the next one is due exactly when a whole period has passed. */
  lemma DueAfter(ts: u48, m: nat, k: nat, rate: nat, frame: u32)
    requires rate >= 100 && frame + rate / 100 < P32
    requires 1 <= k <= Period(rate, frame)
    ensures Scale(Minus64(Ticks(ts, m + k), Ticks(ts, m)), rate) >= frame <==> k == Period(rate, frame)
  {
    hide Scale, Ticks, Period;
    var r, n := rate / 100, Period(rate, frame);
    TicksCompose(ts, m, k);
    DifferenceScales(Ticks(ts, m), k, rate);
    Ordered(k, n, r);
    assert n * r < P32 by { assert (n - 1) * r == n * r - r; }
    if k < n {
      Ordered(k, n - 1, r);
    }
  }

  lemma Ordered(a: nat, b: nat, r: nat)
    requires a <= b
    ensures a * r <= b * r
  {
    assert (b - a) * r == b * r - a * r;
  }

  /** Checked once per tick, a stream is due exactly every Period ticks: no packet is skipped or sent twice, also
      when the wallclock wraps. Tick number q * Period + j ranges over all ticks. */
  lemma {:induction false} DuePeriodically(ts: u48, q: nat, j: nat, rate: nat, frame: u32)
    requires rate >= 100 && frame + rate / 100 < P32 && j < Period(rate, frame)
    ensures var p := Period(rate, frame);
      Polled(ts, q * p + j, rate, frame) == Interval(Ticks(ts, q * p), true, j == 0)
    decreases q, j
  {
    hide Scale, Ticks, Period;
    var p := Period(rate, frame);
    if j > 0 {
      DuePeriodically(ts, q, j - 1, rate, frame);
      DueAfter(ts, q * p, j, rate, frame);
    } else if q > 0 {
      DuePeriodically(ts, q - 1, p - 1, rate, frame);
      assert (q - 1) * p + p == q * p;
      DueAfter(ts, (q - 1) * p, p, rate, frame);
    } else {
      TicksZero(ts);
    }
  }

  lemma TicksZero(ts: u48)
    ensures Ticks(ts, 0) == ts
  {
  }

  lemma ScaleSlow(x: u64, rate: nat)
    requires rate < 100
    ensures Scale(x, rate) == 0
  {
  }

  /** Below 100 samples per second, which includes a stream without a format, only the first check is due. */
  lemma {:induction false} NeverDueAgain(ts: u48, n: nat, rate: nat, frame: u32)
    requires rate < 100 && frame > 0
    ensures Polled(ts, n, rate, frame) == Interval(ts, true, n == 0)
  {
    hide Scale, Ticks;
    if n > 0 {
      NeverDueAgain(ts, n - 1, rate, frame);
      ScaleSlow(Minus64(Ticks(ts, n), ts), rate);
    }
  }

  /** The part of AmRtpAudio that paces sending. */
  class Pacer {
    var lastCheck: u64
    var started: bool
    var due: bool
    var lastSend: u64
    var sent: bool

    ghost function View(): Interval
      reads this
    {
      Interval(lastCheck, started, due)
    }

    constructor ()
      ensures View() == Interval(0, false, false) && !sent
    {
      lastCheck, started, due, lastSend, sent := 0, false, false, 0, false;
    }

    method CheckInterval(ts: u64, rate: nat, frame: u32) returns (now: bool)
      modifies this`lastCheck, this`started, this`due
      ensures View() == Checked(old(View()), ts, rate, frame)
      ensures now == due
    {
      if !started {
        due := true;
        started := true;
        lastCheck := ts;
      } else if Scale(Minus64(ts, lastCheck), rate) >= frame {
        due := true;
        lastCheck := ts;
      } else {
        due := false;
      }
      return due;
    }

    /** A packet is due if none was sent yet, or if a frame of samples has passed in the n ticks since. */
    method SendIntReached(ts: u64, rate: nat, frame: u32) returns (now: bool)
      ensures !sent ==> now
      ensures forall n: nat :: sent && lastSend < P48 && ts == Ticks(lastSend, n) ==> (now <==> n * (rate / 100) % P32 >= frame)
    {
      if !sent {
        return true;
      }
      now := Scale(Minus64(ts, lastSend), rate) >= frame;
      hide Scale, Ticks;
      forall n: nat | lastSend < P48 && ts == Ticks(lastSend, n) ensures now <==> n * (rate / 100) % P32 >= frame {
        DifferenceScales(lastSend, n, rate);
      }
    }
  }
}
