/** CPU utilization. */
module Utilization {
  import opened Arithmetic
  import opened HsTypes

  const UNKNOWN: uint32 := 0xFFFF_FFFF

  datatype Util = Util(hogTime: uint32, index: nat, tracker: seq<uint32>, avg: uint32, peak: uint32)

  /** One reading (negative: not known) and whether the hogging indicator was enabled at the time. */
  datatype Sample = Sample(reading: int32, hog: bool)

  predicate Valid(c: Config, u: Util) {
    && |u.tracker| == c.peakN
    && u.index < c.peakN
  }

  function Fresh(c: Config): Util {
    Util(0, 0, Copies(c.peakN, 0), 0, 0)
  }

  function Sum(s: seq<nat>): nat {
    if s == [] then 0 else Sum(s[..|s| - 1]) + s[|s| - 1]
  }

  function Max(s: seq<uint32>): (m: uint32)
    ensures forall i | 0 <= i < |s| :: s[i] <= m
    ensures m == 0 || m in s
  {
    if s == [] then 0 else
      var m := Max(s[..|s| - 1]);
      if s[|s| - 1] > m then s[|s| - 1] else m
  }

  /** The `a` slots that end at slot `at`, oldest first, going back past slot 0 to the end of the ring. */
  function Window(ring: seq<uint32>, at: nat, a: nat): (w: seq<uint32>)
    requires at < |ring| && 1 <= a <= |ring|
    ensures |w| == a
  {
    if at + 1 >= a then ring[at + 1 - a..at + 1] else ring[|ring| - (a - at) + 1..] + ring[..at + 1]
  }

  function Clamp(c: Config, reading: int32): (v: uint32)
    requires ValidConfig(c) && 0 <= reading
  {
    if reading > c.utilMax then c.utilMax else reading
  }

  /** The largest value a valid reading can contribute: MAX, or the largest int32 if that is smaller. */
  function Top(c: Config): nat {
    if c.utilMax < 0x8000_0000 then c.utilMax else 0x7FFF_FFFF
  }

  /** A valid reading at or above the threshold while the indicator is enabled. */
  predicate Hot(c: Config, s: Sample)
    requires ValidConfig(c)
  {
    s.reading >= 0 && Clamp(c, s.reading) >= c.hogLimit && s.hog
  }

  /** HS6010: the clamp does not matter to it, nor does the sign test. */
  lemma HotIff(c: Config, s: Sample)
    requires ValidConfig(c)
    ensures Hot(c, s) <==> s.hog && s.reading >= c.hogLimit
  {
  }

  function NextHogTime(c: Config, hogTime: uint32, s: Sample): uint32
    requires ValidConfig(c)
  {
    if s.reading < 0 then hogTime
    else if Hot(c, s) then (hogTime + 1) % U32
    else 0
  }

  predicate Alarm(c: Config, hogTime: uint32, s: Sample)
    requires ValidConfig(c)
  {
    Hot(c, s) && (hogTime + 1) % U32 == c.hogTimeout
  }

  function Step(c: Config, u: Util, s: Sample): (r: Util)
    requires ValidConfig(c) && Valid(c, u)
    ensures Valid(c, r)
  {
    var next := if u.index + 1 >= c.peakN then 0 else u.index + 1;
    if s.reading < 0 then
      u.(index := next, avg := UNKNOWN, peak := UNKNOWN)
    else
      var ring := u.tracker[u.index := Clamp(c, s.reading)];
      Util(NextHogTime(c, u.hogTime, s), next, ring,
           Mean(Sum(Window(ring, u.index, c.avgN)), c.avgN), Max(ring))
  }

  lemma StepHogTime(c: Config, u: Util, s: Sample)
    requires ValidConfig(c) && Valid(c, u)
    ensures Step(c, u, s).hogTime == NextHogTime(c, u.hogTime, s)
  {
  }

  /** The 32-bit accumulator divided by the number of intervals. */
  function Mean(total: nat, a: nat): uint32
    requires a >= 1
  {
    QuotientBound(total % U32, a);
    (total % U32) / a
  }

  lemma MeanIs(total: nat, a: nat)
    requires a >= 1
    ensures Mean(total, a) == (total % U32) / a
  {
  }

  lemma AddMod(total: nat, v: nat)
    ensures (total % U32 + v) % U32 == (total + v) % U32
  {
  }

  lemma QuotientBound(x: nat, a: nat)
    requires a >= 1
    ensures x / a <= x
  {
  }

  // ---------- Lemmas about sums, maxima and windows ----------

  lemma {:induction false} SumConcat(a: seq<nat>, b: seq<nat>)
    ensures Sum(a + b) == Sum(a) + Sum(b)
  {
    if b == [] {
      assert a + b == a;
    } else {
      SumConcat(a, b[..|b| - 1]);
      assert (a + b)[..|a + b| - 1] == a + b[..|b| - 1];
    }
  }

  lemma {:induction false} SumBound(s: seq<uint32>, m: nat)
    requires forall i | 0 <= i < |s| :: s[i] <= m
    ensures Sum(s) <= |s| * m
  {
    if s != [] {
      SumBound(s[..|s| - 1], m);
      assert |s| * m == (|s| - 1) * m + m;
    }
  }

  lemma {:induction false} SumConstant(s: seq<uint32>, m: nat)
    requires forall i | 0 <= i < |s| :: s[i] == m
    ensures Sum(s) == |s| * m
  {
    if s != [] {
      SumConstant(s[..|s| - 1], m);
      assert |s| * m == (|s| - 1) * m + m;
    }
  }

  /** Loop order of the sampler: slots taken in index order, those in the window added up. */
  predicate InWindow(c: Config, at: nat, i: nat) {
    if at >= c.avgN then at - c.avgN < i <= at
    else i <= at || i > c.peakN - (c.avgN - at)
  }

  function Picked(c: Config, ring: seq<uint32>, at: nat, n: nat): nat
    requires n <= |ring|
  {
    if n == 0 then 0
    else Picked(c, ring, at, n - 1) + (if InWindow(c, at, n - 1) then ring[n - 1] else 0)
  }

  lemma EmptySums(c: Config, ring: seq<uint32>, at: nat)
    ensures Picked(c, ring, at, 0) == 0 && Max(ring[..0]) == 0
  {
  }

  lemma PickStep(c: Config, ring: seq<uint32>, at: nat, i: nat)
    requires i < |ring|
    ensures Picked(c, ring, at, i + 1) % U32
              == if InWindow(c, at, i) then (Picked(c, ring, at, i) % U32 + ring[i]) % U32
                 else Picked(c, ring, at, i) % U32
  {
    AddMod(Picked(c, ring, at, i), ring[i]);
  }

  lemma MaxStep(ring: seq<uint32>, i: nat)
    requires i < |ring|
    ensures Max(ring[..i + 1]) == if ring[i] > Max(ring[..i]) then ring[i] else Max(ring[..i])
  {
    assert ring[..i + 1][..i] == ring[..i];
  }

  lemma {:induction false} PickedRange(c: Config, ring: seq<uint32>, at: nat, lo: nat, hi: nat)
    requires lo <= hi <= |ring|
    requires forall i | lo <= i < hi :: InWindow(c, at, i)
    ensures Picked(c, ring, at, hi) == Picked(c, ring, at, lo) + Sum(ring[lo..hi])
    decreases hi - lo
  {
    if lo < hi {
      PickedRange(c, ring, at, lo, hi - 1);
      assert ring[lo..hi][..hi - lo - 1] == ring[lo..hi - 1];
    }
  }

  lemma {:induction false} PickedNone(c: Config, ring: seq<uint32>, at: nat, lo: nat, hi: nat)
    requires lo <= hi <= |ring|
    requires forall i | lo <= i < hi :: !InWindow(c, at, i)
    ensures Picked(c, ring, at, hi) == Picked(c, ring, at, lo)
    decreases hi - lo
  {
    if lo < hi {
      PickedNone(c, ring, at, lo, hi - 1);
    }
  }

  lemma PickedStraight(c: Config, ring: seq<uint32>, at: nat)
    requires ValidConfig(c) && |ring| == c.peakN && c.avgN <= at + 1 <= c.peakN
    ensures Picked(c, ring, at, |ring|) == Sum(ring[at + 1 - c.avgN..at + 1])
  {
    hide Picked, Sum, Max;
    EmptySums(c, ring, at);
    PickedNone(c, ring, at, 0, at + 1 - c.avgN);
    PickedRange(c, ring, at, at + 1 - c.avgN, at + 1);
    PickedNone(c, ring, at, at + 1, |ring|);
  }

  lemma PickedWrapped(c: Config, ring: seq<uint32>, at: nat, hi: nat)
    requires ValidConfig(c) && |ring| == c.peakN && at + 1 < c.avgN
    requires hi == |ring| - (c.avgN - at) + 1
    ensures Picked(c, ring, at, |ring|) == Sum(ring[0..at + 1]) + Sum(ring[hi..|ring|])
  {
    hide Picked, Sum, Max;
    EmptySums(c, ring, at);
    PickedRange(c, ring, at, 0, at + 1);
    PickedNone(c, ring, at, at + 1, hi);
    PickedRange(c, ring, at, hi, |ring|);
  }

  /** The index tests of the sampling loop select exactly the last A slots, wrapped or not. */
  lemma PickedIsWindow(c: Config, ring: seq<uint32>, at: nat)
    requires ValidConfig(c) && |ring| == c.peakN && at < c.peakN
    ensures Picked(c, ring, at, |ring|) == Sum(Window(ring, at, c.avgN))
  {
    hide Picked, Sum;
    if at + 1 >= c.avgN {
      PickedStraight(c, ring, at);
    } else {
      var hi := |ring| - (c.avgN - at) + 1;
      PickedWrapped(c, ring, at, hi);
      assert ring[0..at + 1] == ring[..at + 1] && ring[hi..|ring|] == ring[hi..];
      SumConcat(ring[hi..], ring[..at + 1]);
    }
  }

  // ---------- The ring buffer refines the plain history of samples ----------

  function Run(c: Config, samples: seq<Sample>): (u: Util)
    requires ValidConfig(c)
    ensures Valid(c, u)
  {
    if samples == [] then Fresh(c)
    else Step(c, Run(c, samples[..|samples| - 1]), samples[|samples| - 1])
  }

  /** The last n values of a history that is preceded by zeros for ever. */
  function LastN(h: seq<uint32>, n: nat): (l: seq<uint32>)
    ensures |l| == n
  {
    if |h| >= n then h[|h| - n..] else Copies(n - |h|, 0) + h
  }

  /** What each interval contributes: its clamped reading, or, unread, the value N intervals earlier. */
  function History(c: Config, samples: seq<Sample>): (h: seq<uint32>)
    requires ValidConfig(c)
    ensures |h| == |samples|
  {
    if samples == [] then [] else
      var h := History(c, samples[..|samples| - 1]);
      var s := samples[|samples| - 1];
      h + [if s.reading >= 0 then Clamp(c, s.reading) else LastN(h, c.peakN)[0]]
  }

  /** Overwriting the oldest slot and moving the index on shifts the ring, read oldest first, by one. */
  lemma RotationStep(ring: seq<uint32>, i: nat, v: uint32)
    requires i < |ring|
    ensures var ring', i' := ring[i := v], if i + 1 >= |ring| then 0 else i + 1;
            ring'[i'..] + ring'[..i'] == (ring[i..] + ring[..i])[1..] + [v]
  {
  }

  lemma LastOfNothing(n: nat)
    ensures LastN([], n) == Copies(n, 0)
  {
  }

  lemma LastNStep(h: seq<uint32>, n: nat, v: uint32)
    requires n >= 1
    ensures LastN(h + [v], n) == LastN(h, n)[1..] + [v]
  {
  }

  lemma LastNTail(h: seq<uint32>, a: nat, n: nat)
    requires a <= n
    ensures LastN(h, a) == LastN(h, n)[n - a..]
  {
  }

  lemma WindowIsTail(ring: seq<uint32>, at: nat, a: nat)
    requires at < |ring| && 1 <= a <= |ring|
    ensures var i := if at + 1 >= |ring| then 0 else at + 1;
            Window(ring, at, a) == (ring[i..] + ring[..i])[|ring| - a..]
  {
  }

  /** One reading shifts the history and the ring alike. */
  lemma RingStep(c: Config, u: Util, h: seq<uint32>, s: Sample)
    requires ValidConfig(c) && Valid(c, u) && LastN(h, c.peakN) == u.tracker[u.index..] + u.tracker[..u.index]
    ensures var r, v := Step(c, u, s), if s.reading >= 0 then Clamp(c, s.reading) else LastN(h, c.peakN)[0];
            LastN(h + [v], c.peakN) == r.tracker[r.index..] + r.tracker[..r.index]
  {
    hide Window, Max, Mean, LastN, NextHogTime;
    var v := if s.reading >= 0 then Clamp(c, s.reading) else LastN(h, c.peakN)[0];
    LastNStep(h, c.peakN, v);
    RotationStep(u.tracker, u.index, v);
    assert LastN(h, c.peakN)[0] == u.tracker[u.index];
    assert Step(c, u, s).tracker == u.tracker[u.index := v];
  }

  lemma {:induction false} RingIsHistory(c: Config, samples: seq<Sample>)
    requires ValidConfig(c)
    ensures var u := Run(c, samples);
            LastN(History(c, samples), c.peakN) == u.tracker[u.index..] + u.tracker[..u.index]
  {
    hide Step, LastN;
    if samples != [] {
      var before := samples[..|samples| - 1];
      RingIsHistory(c, before);
      RingStep(c, Run(c, before), History(c, before), samples[|samples| - 1]);
    } else {
      LastOfNothing(c.peakN);
    }
  }

  lemma {:induction false} MaxRotation(a: seq<uint32>, k: nat)
    requires k <= |a|
    ensures Max(a[k..] + a[..k]) == Max(a)
  {
    var r := a[k..] + a[..k];
    assert forall i | 0 <= i < |a| :: a[i] == if i < k then r[|a| - k + i] else r[i - k];
  }

  lemma RingReports(ring: seq<uint32>, at: nat, h: seq<uint32>, a: nat)
    requires at < |ring| && 1 <= a <= |ring|
    requires var i := if at + 1 >= |ring| then 0 else at + 1; LastN(h, |ring|) == ring[i..] + ring[..i]
    ensures Window(ring, at, a) == LastN(h, a) && Max(ring) == Max(LastN(h, |ring|))
  {
    hide Max, Window, LastN;
    MaxRotation(ring, if at + 1 >= |ring| then 0 else at + 1);
    LastNTail(h, a, |ring|);
    WindowIsTail(ring, at, a);
  }

  /** After a valid reading the reported pair is the mean of the last A and the peak of the last N
      intervals of the history; after an unreadable one both report "unknown". */
  lemma ReportsHistory(c: Config, samples: seq<Sample>)
    requires ValidConfig(c) && samples != []
    ensures var u, h := Run(c, samples), History(c, samples);
            if samples[|samples| - 1].reading < 0 then u.avg == UNKNOWN && u.peak == UNKNOWN
            else u.avg == Mean(Sum(LastN(h, c.avgN)), c.avgN) && u.peak == Max(LastN(h, c.peakN))
  {
    hide LastN, Window, Sum, Max, Mean, History;
    var s := samples[|samples| - 1];
    if s.reading >= 0 {
      RingIsHistory(c, samples);
      RingReports(Run(c, samples).tracker, Run(c, samples[..|samples| - 1]).index, History(c, samples), c.avgN);
    }
  }

  lemma {:induction false} HistoryBound(c: Config, samples: seq<Sample>)
    requires ValidConfig(c)
    ensures forall i | 0 <= i < |samples| :: History(c, samples)[i] <= Top(c)
  {
    hide LastN;
    if samples != [] {
      var before := samples[..|samples| - 1];
      HistoryBound(c, before);
      OldestBound(History(c, before), c.peakN, Top(c));
    }
  }

  lemma OldestBound(h: seq<uint32>, n: nat, m: nat)
    requires n >= 1 && forall i | 0 <= i < |h| :: h[i] <= m
    ensures LastN(h, n)[0] <= m
  {
  }

  lemma BoundedMean(h: seq<uint32>, a: nat, n: nat, m: nat)
    requires 1 <= a <= n && forall i | 0 <= i < |h| :: h[i] <= m
    ensures Sum(LastN(h, a)) <= a * m && Max(LastN(h, n)) <= m
    ensures Sum(LastN(h, a)) / a <= Max(LastN(h, n))
  {
    var w, p := LastN(h, a), Max(LastN(h, n));
    LastNTail(h, a, n);
    SumBound(w, m);
    SumBound(w, p);
    DivLe(Sum(w), a, p);
  }

  /** With A times the largest contribution inside 32 bits the average is the true one and never exceeds the peak. */
  lemma AverageExact(c: Config, samples: seq<Sample>)
    requires ValidConfig(c) && samples != [] && samples[|samples| - 1].reading >= 0
    requires c.avgN * Top(c) < U32
    ensures Sum(LastN(History(c, samples), c.avgN)) < U32
    ensures var u, h := Run(c, samples), History(c, samples);
            u.avg == Sum(LastN(h, c.avgN)) / c.avgN && u.avg <= u.peak <= Top(c) <= c.utilMax
  {
    var h := History(c, samples);
    HistoryBound(c, samples);
    BoundedMean(h, c.avgN, c.peakN, Top(c));
    MeanExact(Sum(LastN(h, c.avgN)), c.avgN);
    ReportsHistory(c, samples);
  }

  lemma MeanExact(total: nat, a: nat)
    requires a >= 1 && total < U32
    ensures Mean(total, a) == total / a
  {
    assert total % U32 == total;
  }

  lemma DivLe(x: nat, a: nat, b: nat)
    requires a >= 1 && x <= a * b
    ensures x / a <= b
  {
    if x / a > b {
      assert false;
    }
  }

  /** For arbitrary 32-bit readings the average is right for every sequence of samples exactly when A times the
      largest value a reading can contribute fits the 32-bit accumulator. */
  lemma AverageExactForAnyReading(c: Config)
    requires ValidConfig(c)
    ensures (forall samples: seq<Sample> | samples != [] && samples[|samples| - 1].reading >= 0 ::
               Run(c, samples).avg == Sum(LastN(History(c, samples), c.avgN)) / c.avgN)
            <==> c.avgN * Top(c) < U32
  {
    hide Run, Sum, LastN, History;
    if c.avgN * Top(c) < U32 {
      forall samples: seq<Sample> | samples != [] && samples[|samples| - 1].reading >= 0
        ensures Run(c, samples).avg == Sum(LastN(History(c, samples), c.avgN)) / c.avgN
      {
        AverageExact(c, samples);
      }
    } else {
      var full := AverageWraps(c);
    }
  }

  /** A readings at the top wrap the accumulator when A times the top does not fit it. */
  lemma AverageWraps(c: Config) returns (full: seq<Sample>)
    requires ValidConfig(c) && c.avgN * Top(c) >= U32
    ensures full == seq(c.avgN, _ => Sample(Top(c), false))
    ensures Run(c, full).avg != Sum(LastN(History(c, full), c.avgN)) / c.avgN
  {
    hide Run, Sum, LastN;
    full := seq(c.avgN, _ => Sample(Top(c), false));
    FullLoad(c, c.avgN);
    LastNAll(History(c, full));
    SumConstant(LastN(History(c, full), c.avgN), Top(c));
    ModDrops(c.avgN, Top(c));
    ReportsHistory(c, full);
  }

  lemma LastNAll(h: seq<uint32>)
    ensures LastN(h, |h|) == h
  {
  }

  /** A value the sampler returns: a scaled 24-bit code, or -1 if it cannot read one. */
  predicate FromSampler(c: Config, reading: int) {
    reading == -1 || exists code: nat :: code <= CODE_MAX && reading == Scale(code, c.utilMax)
  }

  predicate AllFromSampler(c: Config, samples: seq<Sample>) {
    forall i | 0 <= i < |samples| :: FromSampler(c, samples[i].reading)
  }

  /** The configuration check bounds A and MAX one by one only. While MAX is small enough for the scaling, the
      average is right for every sequence of readings that the sampler can return exactly when their product
      fits the 32-bit accumulator. */
  lemma AverageExactIff(c: Config)
    requires ValidConfig(c) && c.utilMax <= 32768
    ensures (forall samples: seq<Sample> | AllFromSampler(c, samples) && samples != []
                                           && samples[|samples| - 1].reading >= 0 ::
               Run(c, samples).avg == Sum(LastN(History(c, samples), c.avgN)) / c.avgN)
            <==> c.avgN * c.utilMax < U32
  {
    hide Run, Sum, LastN, History, Scale;
    if c.avgN * c.utilMax < U32 {
      AverageExactForAnyReading(c);
    } else {
      var full := AverageWraps(c);
      ScaleRange(0, CODE_MAX, c.utilMax);
      forall i | 0 <= i < |full| ensures FromSampler(c, full[i].reading) {
        assert full[i].reading == Scale(CODE_MAX, c.utilMax);
      }
      assert AllFromSampler(c, full) && full[|full| - 1].reading >= 0;
    }
  }

  /** The clamp of the monitor never changes what the sampler returns. */
  lemma ClampKeepsScaled(c: Config, code: nat)
    requires ValidConfig(c) && c.utilMax <= 32768 && code <= CODE_MAX
    ensures Scale(code, c.utilMax) < 0x8000_0000
    ensures Clamp(c, Scale(code, c.utilMax)) == Scale(code, c.utilMax)
  {
    hide Scale;
    ScaleRange(code, CODE_MAX, c.utilMax);
  }

  lemma {:induction false} FullLoad(c: Config, n: nat)
    requires ValidConfig(c)
    ensures var full := seq(n, _ => Sample(Top(c), false));
            forall i | 0 <= i < n :: History(c, full)[i] == Top(c)
  {
    if n > 0 {
      var full := seq(n, _ => Sample(Top(c), false));
      FullLoad(c, n - 1);
      assert full[..n - 1] == seq(n - 1, _ => Sample(Top(c), false));
    }
  }

  lemma DivExact(a: nat, m: nat)
    requires a >= 1
    ensures (a * m) / a == m
  {
    var q := (a * m) / a;
    assert a * q <= a * m < a * q + a;
    MulMonotone(a, q + 1, m);
    MulMonotone(a, m + 1, q);
  }

  lemma DivMonotone(x: nat, y: nat, d: nat)
    requires d >= 1 && x <= y
    ensures x / d <= y / d
  {
    var p, q := x / d, y / d;
    assert d * p <= x && y < d * q + d;
    MulMonotone(d, q + 1, p);
  }

  lemma DivBelow(y: nat, a: nat, m: nat)
    requires a >= 1 && y < a * m
    ensures y / a < m
  {
    var q := y / a;
    MulMonotone(a, m, q);
    assert a * q <= y;
  }

  lemma ModDrops(a: nat, m: nat)
    requires 1 <= a < U32 && a * m >= U32
    ensures Mean(a * m, a) != (a * m) / a
  {
    var x := a * m;
    var y := x % U32;
    assert y < U32 <= x;
    DivExact(a, m);
    DivBelow(y, a, m);
  }

  // ---------- Hogging streaks ----------

  /** Lengths of the runs of hot readings, unreadable intervals left out; the last run is still open. */
  function Streaks(c: Config, samples: seq<Sample>): (r: seq<nat>)
    requires ValidConfig(c)
    ensures r != []
  {
    if samples == [] then [0] else
      var r := Streaks(c, samples[..|samples| - 1]);
      var s := samples[|samples| - 1];
      if s.reading < 0 then r
      else if Hot(c, s) then r[|r| - 1 := r[|r| - 1] + 1]
      else r + [0]
  }

  /** Number of hogging events over a run of samples. */
  function Alarms(c: Config, samples: seq<Sample>): nat
    requires ValidConfig(c)
  {
    if samples == [] then 0 else
      var before := samples[..|samples| - 1];
      Alarms(c, before) + if Alarm(c, HogTime(c, before), samples[|samples| - 1]) then 1 else 0
  }

  /** Events owed for one streak: one on reaching the limit, and one more each time the counter wraps. */
  function Owed(c: Config, streak: nat): nat
    requires ValidConfig(c)
  {
    if streak < c.hogTimeout then 0 else (streak - c.hogTimeout) / U32 + 1
  }

  function OwedAll(c: Config, streaks: seq<nat>): nat
    requires ValidConfig(c)
  {
    if streaks == [] then 0
    else OwedAll(c, streaks[..|streaks| - 1]) + Owed(c, streaks[|streaks| - 1])
  }

  /** The hogging counter alone, over a run of samples. */
  function HogTime(c: Config, samples: seq<Sample>): uint32
    requires ValidConfig(c)
  {
    if samples == [] then 0
    else NextHogTime(c, HogTime(c, samples[..|samples| - 1]), samples[|samples| - 1])
  }

  lemma {:induction false} RunHogTime(c: Config, samples: seq<Sample>)
    requires ValidConfig(c)
    ensures Run(c, samples).hogTime == HogTime(c, samples)
  {
    if samples != [] {
      RunHogTime(c, samples[..|samples| - 1]);
    }
  }

  /** The counter is the length of the current streak of hot readings, modulo 2^32. */
  lemma {:induction false} HogTimeIsStreak(c: Config, samples: seq<Sample>)
    requires ValidConfig(c)
    ensures var r := Streaks(c, samples); HogTime(c, samples) == r[|r| - 1] % U32
  {
    if samples != [] {
      HogTimeIsStreak(c, samples[..|samples| - 1]);
    }
  }

  lemma OwedStep(c: Config, n: nat)
    requires ValidConfig(c)
    ensures Owed(c, n + 1) == Owed(c, n) + if (n + 1) % U32 == c.hogTimeout then 1 else 0
  {
  }

  /** The hogging event is sent once for each streak that reaches the limit and never otherwise. */
  lemma {:induction false} AlarmsPerStreak(c: Config, samples: seq<Sample>)
    requires ValidConfig(c)
    ensures Alarms(c, samples) == OwedAll(c, Streaks(c, samples))
  {
    if samples == [] {
      assert OwedAll(c, [0]) == OwedAll(c, []) + Owed(c, 0) by { assert [0][..0] == []; }
    } else {
      var before, s := samples[..|samples| - 1], samples[|samples| - 1];
      AlarmsPerStreak(c, before);
      HogTimeIsStreak(c, before);
      var r := Streaks(c, before);
      if s.reading >= 0 && Hot(c, s) {
        OwedLonger(c, r);
      } else if s.reading >= 0 {
        assert (r + [0])[..|r|] == r;
      }
    }
  }

  lemma OwedLonger(c: Config, r: seq<nat>)
    requires ValidConfig(c) && r != []
    ensures var n := r[|r| - 1];
            OwedAll(c, r[|r| - 1 := n + 1]) == OwedAll(c, r)
              + if (n % U32 + 1) % U32 == c.hogTimeout then 1 else 0
  {
    hide Owed;
    var n := r[|r| - 1];
    assert r[|r| - 1 := n + 1][..|r| - 1] == r[..|r| - 1];
    OwedStep(c, n);
    AddMod(n, 1);
  }

  /** For streaks shorter than 2^32 intervals "owed" is exactly one event per streak that got there. */
  lemma OwedOnce(c: Config, streak: nat)
    requires ValidConfig(c) && streak < U32
    ensures Owed(c, streak) == if streak >= c.hogTimeout then 1 else 0
  {
    if streak >= c.hogTimeout {
      assert (streak - c.hogTimeout) / U32 == 0;
    }
  }

  // ---------- Scaling of the 24-bit sample ----------

  const CODE_MAX := 0xFF_FFFF

  /** The product formed in 32-bit signed arithmetic before the division. */
  function Product(sample: nat, max: nat): nat {
    (sample / 256) * max
  }

  function Scale(sample: nat, max: nat): nat {
    Product(sample, max) / 0xFFFF
  }

  /** The signed product stays in range for every sample exactly when MAX is at most 32768. */
  lemma ProductFitsIff(max: nat)
    requires max >= 1
    ensures (forall sample: nat | sample <= CODE_MAX :: Product(sample, max) < 0x8000_0000) <==> max <= 32768
  {
    if max <= 32768 {
      forall sample: nat | sample <= CODE_MAX ensures Product(sample, max) < 0x8000_0000 {
        MulMonotone(max, sample / 256, 0xFFFF);
      }
    } else {
      assert Product(CODE_MAX, max) == 0xFFFF * max;
    }
  }

  /** End codes, range, monotonicity. */
  lemma ScaleRange(lo: nat, hi: nat, max: nat)
    requires lo <= hi <= CODE_MAX && max >= 1
    ensures 0 <= Scale(lo, max) <= Scale(hi, max) <= max
    ensures Scale(0, max) == 0 && Scale(CODE_MAX, max) == max
  {
    MulMonotone(max, lo / 256, hi / 256);
    MulMonotone(max, hi / 256, 0xFFFF);
    DivExact(0xFFFF, max);
    DivMonotone(Product(lo, max), Product(hi, max), 0xFFFF);
    DivMonotone(Product(hi, max), Product(CODE_MAX, max), 0xFFFF);
  }

  lemma Distribute(q: nat, r: nat, max: nat)
    ensures (256 * q + r) * max == 256 * (q * max) + r * max
  {
  }

  lemma Accuracy(p: nat, low: nat, max: nat, v: nat)
    requires low <= 255 * max && p <= 0xFFFF * max && max <= 32768
    requires v * 0xFFFF <= p < v * 0xFFFF + 0xFFFF
    ensures -3 * CODE_MAX < 2 * (v * CODE_MAX - (256 * p + low)) < CODE_MAX
  {
  }

  /** The value lies within one and a half counts of sample * MAX / 0xFFFFFF. */
  lemma ScaleAccuracy(sample: nat, max: nat)
    requires sample <= CODE_MAX && 1 <= max <= 32768
    ensures var error := Scale(sample, max) * CODE_MAX - sample * max;
            -3 * CODE_MAX < 2 * error < CODE_MAX
  {
    var q, r := sample / 256, sample % 256;
    var p, low := q * max, r * max;
    Distribute(q, r, max);
    MulMonotone(max, r, 255);
    MulMonotone(max, q, 0xFFFF);
    Accuracy(p, low, max, p / 0xFFFF);
  }
}
