/** The per-sample decisions of the sample callback duo3dCb and of update,
    as a pure state machine: the reset drain gate, the time step, the
    vision-subsample schedule, the debug-track counter and the latency
    maximum. The Localization class is proved to follow Step on every
    sample; the lemmas here describe what Step does over many samples. */
module Schedule {

  /** DUO_QUEUE_SIZE: the inbound queue capacity, the length of a drain and
      the value every acknowledgment carries. */
  const DuoQueueSize: int := 30

  /** display_tracks_cnt wraps once it exceeds this value. */
  const DisplayTracksLimit: int := 10

  function Abs(a: int): nat { if a < 0 then -a else a }

  function Max(a: int, b: int): int { if a < b then b else a }

  /** The C++ remainder a % b on int: it truncates toward zero, so the result
      takes the sign of a. */
  function CRem(a: int, b: int): (r: int)
    requires b != 0
    ensures a >= 0 ==> 0 <= r < Abs(b)
    ensures a < 0 ==> 0 <= -r < Abs(b)
  {
    if a >= 0 then a % Abs(b) else -((-a) % Abs(b))
  }

  /** The C++ quotient a / b on int, truncated toward zero. */
  function CQuot(a: int, b: int): (q: int)
    requires b != 0
  {
    var q := if a >= 0 then a / Abs(b) else -((-a) / Abs(b));
    if b > 0 then q else -q
  }

  /** Euclid's division of a natural number by a positive one. */
  lemma NatDivision(n: nat, m: int)
    requires m > 0
    ensures n == (n / m) * m + n % m
    ensures 0 <= (n / m) * m <= n
  {
    assert 0 <= n / m;
  }

  /** Multiplying by the opposite of both factors changes nothing. */
  lemma NegMul(q: int, m: int)
    ensures (-q) * (-m) == q * m
  {
  }

  /** CRem is the remainder of the truncating division: a is the quotient
      times b plus the remainder, and the quotient's multiple of b never
      exceeds a in magnitude nor differs from it in sign. With CRem's own
      sign and size bounds this fixes both values uniquely. */
  lemma CRemDivision(a: int, b: int)
    requires b != 0
    ensures a == CQuot(a, b) * b + CRem(a, b)
    ensures a >= 0 ==> 0 <= CQuot(a, b) * b <= a
    ensures a < 0 ==> a <= CQuot(a, b) * b <= 0
  {
    var m := Abs(b);
    var n: nat := if a >= 0 then a else -a;
    NatDivision(n, m);
    var q := n / m;
    var qa := if a >= 0 then q else -q;
    var p := qa * m;
    assert a >= 0 ==> p == q * m;
    assert a < 0 ==> p == -(q * m);
    if b < 0 {
      NegMul(qa, m);
      assert CQuot(a, b) * b == p;
    } else {
      assert CQuot(a, b) * b == p;
    }
  }

  /** The constants of the node that the schedule reads. */
  datatype Config = Config(fpsDuo: real, visionSubsample: int, visPublishDelay: int)

  /** The divisions the schedule performs are defined. */
  predicate ValidConfig(c: Config)
  {
    c.fpsDuo != 0.0 && c.visionSubsample != 0 && c.visPublishDelay != 0
  }

  /** The scheduling fields of the node: SLAM_reset_flag,
      clear_queue_counter, vio_cnt, prev_time_ (in seconds, 0 while unset),
      display_tracks_cnt and max_clicks_. */
  datatype State = State(
    resetFlag: bool, clearQueueCounter: int, vioCnt: int,
    prevTime: real, displayTracksCnt: int, maxClicks: int)

  /** What the schedule needs to know of one sample: its stamp, whether both
      images decode to non-empty images, and the clock ticks the callback took. */
  datatype Input = Input(stamp: real, imagesUsable: bool, clicks: int)

  /** What became of one sample. Suppressed: swallowed by the drain.
      PredictOnly: only the prediction ran. Aborted: the prediction ran and
      tracking was due, but an image did not decode or was empty. Tracked:
      prediction, tracking, update and visualization ran. */
  datatype Path = Suppressed | PredictOnly | Aborted | Tracked

  /** The drain gate: while a reset is pending, a sample is swallowed unless
      the counter has reached the queue capacity. */
  predicate Suppresses(s: State)
  {
    s.resetFlag && s.clearQueueCounter < DuoQueueSize
  }

  /** The time step: the nominal frame period for the first sample (while
      prev_time_ is zero), otherwise the exact time since the previous one. */
  function DeltaT(fpsDuo: real, prevTime: real, stamp: real): (dt: real)
    requires fpsDuo != 0.0
    ensures prevTime == 0.0 ==> dt * fpsDuo == 1.0
    ensures prevTime != 0.0 ==> prevTime + dt == stamp
  {
    if prevTime == 0.0 then 1.0 / fpsDuo else stamp - prevTime
  }

  /** Whether the track-display counter moves for this sample: vio_cnt is not
      a multiple of vis_publish_delay. */
  predicate VisPublish(c: Config, s: State)
    requires ValidConfig(c)
  {
    CRem(s.vioCnt, c.visPublishDelay) != 0
  }

  /** One move of display_tracks_cnt and the debug_display_tracks flag it
      raises: past the limit it wraps to zero, otherwise it counts up. */
  function TracksStep(visPublish: bool, cnt: int): (r: (int, bool))
    ensures !visPublish ==> r == (cnt, false)
    ensures visPublish ==> r.0 <= DisplayTracksLimit + 1
    ensures visPublish && 0 <= cnt ==> 0 <= r.0
    ensures r.1 <==> visPublish && cnt > DisplayTracksLimit
    ensures r.1 ==> r.0 == 0
    ensures visPublish && cnt <= DisplayTracksLimit ==> r == (cnt + 1, false)
    ensures visPublish && cnt > DisplayTracksLimit ==> r == (0, true)
  {
    if !visPublish then (cnt, false)
    else if cnt > DisplayTracksLimit then (0, true)
    else (cnt + 1, false)
  }

  /** Whether update attempts tracking for this sample. */
  predicate TrackingDue(c: Config, s: State)
    requires ValidConfig(c)
  {
    CRem(s.vioCnt, c.visionSubsample) == 0
  }

  /** One inbound sample: duo3dCb and the update it calls. */
  function Step(c: Config, s: State, x: Input): (r: (State, Path))
    requires ValidConfig(c)
    ensures r.0.resetFlag == s.resetFlag
    ensures r.1 == Suppressed <==> Suppresses(s)
    ensures r.1 == Suppressed ==> r.0 == s.(clearQueueCounter := s.clearQueueCounter + 1)
    ensures 0 <= s.clearQueueCounter <= DuoQueueSize ==> 0 <= r.0.clearQueueCounter <= DuoQueueSize
    ensures !s.resetFlag ==> r.0.clearQueueCounter == s.clearQueueCounter
    ensures r.1 != Suppressed ==>
      && r.0.prevTime == x.stamp
      && (s.resetFlag ==> r.0.clearQueueCounter == 0)
      && (r.1 == PredictOnly <==> !TrackingDue(c, s))
      && (r.1 == Tracked <==> TrackingDue(c, s) && x.imagesUsable)
      && r.0.displayTracksCnt == TracksStep(VisPublish(c, s), s.displayTracksCnt).0
      && r.0.maxClicks == Max(s.maxClicks, x.clicks)
    ensures r.0.vioCnt == if r.1 == PredictOnly || r.1 == Tracked then s.vioCnt + 1 else s.vioCnt
  {
    if Suppresses(s) then
      (s.(clearQueueCounter := s.clearQueueCounter + 1), Suppressed)
    else
      var counter := if s.resetFlag then 0 else s.clearQueueCounter;
      var tracks := TracksStep(VisPublish(c, s), s.displayTracksCnt).0;
      var path := if !TrackingDue(c, s) then PredictOnly
                  else if x.imagesUsable then Tracked
                  else Aborted;
      var vioCnt := if path == Aborted then s.vioCnt else s.vioCnt + 1;
      (State(s.resetFlag, counter, vioCnt, x.stamp, tracks, Max(s.maxClicks, x.clicks)), path)
  }

  /** The state a processed sample leaves, field by field. */
  lemma StepProcessedState(c: Config, s: State, x: Input)
    requires ValidConfig(c) && !Suppresses(s)
    ensures Step(c, s, x).0 == State(
      s.resetFlag,
      if s.resetFlag then 0 else s.clearQueueCounter,
      if TrackingDue(c, s) && !x.imagesUsable then s.vioCnt else s.vioCnt + 1,
      x.stamp,
      TracksStep(VisPublish(c, s), s.displayTracksCnt).0,
      Max(s.maxClicks, x.clicks))
  {
  }

  /** A stream of samples, one Step after the other; the paths come back in
      arrival order, one per sample. */
  function Run(c: Config, s: State, xs: seq<Input>): (r: (State, seq<Path>))
    requires ValidConfig(c)
    ensures |r.1| == |xs|
    ensures r.0.resetFlag == s.resetFlag
    ensures 0 <= s.clearQueueCounter <= DuoQueueSize ==> 0 <= r.0.clearQueueCounter <= DuoQueueSize
    decreases |xs|
  {
    if xs == [] then (s, [])
    else
      var first := Step(c, s, xs[0]);
      var rest := Run(c, first.0, xs[1..]);
      (rest.0, [first.1] + rest.1)
  }

  /** Running a stream in two pieces is running it whole. */
  lemma {:induction false} RunAppend(c: Config, s: State, a: seq<Input>, b: seq<Input>)
    requires ValidConfig(c)
    ensures Run(c, s, a + b).0 == Run(c, Run(c, s, a).0, b).0
    ensures Run(c, s, a + b).1 == Run(c, s, a).1 + Run(c, Run(c, s, a).0, b).1
    decreases |a|
  {
    if a == [] {
      assert a + b == b;
    } else {
      var first := Step(c, s, a[0]);
      assert (a + b)[0] == a[0];
      assert (a + b)[1..] == a[1..] + b;
      RunAppend(c, first.0, a[1..], b);
    }
  }

  /** While a reset is pending, the samples that bring the drain counter up to
      the queue capacity are all swallowed, one acknowledgment each, and
      touch nothing but the counter. */
  lemma {:induction false} DrainSuppresses(c: Config, s: State, xs: seq<Input>)
    requires ValidConfig(c)
    requires s.resetFlag && 0 <= s.clearQueueCounter <= DuoQueueSize
    requires |xs| == DuoQueueSize - s.clearQueueCounter
    ensures forall i :: 0 <= i < |xs| ==> Run(c, s, xs).1[i] == Suppressed
    ensures Run(c, s, xs).0 == s.(clearQueueCounter := DuoQueueSize)
    decreases |xs|
  {
    if xs != [] {
      var s1 := Step(c, s, xs[0]).0;
      DrainSuppresses(c, s1, xs[1..]);
    }
  }

  /** A full drain from a fresh reset: exactly DUO_QUEUE_SIZE samples are
      swallowed, the next one is processed, and the counter is 0 right after
      it. Nothing but the counter changed before that sample. */
  lemma {:induction false} DrainCycle(c: Config, s: State, xs: seq<Input>)
    requires ValidConfig(c)
    requires s.resetFlag && s.clearQueueCounter == 0
    requires |xs| == DuoQueueSize + 1
    ensures forall i :: 0 <= i < DuoQueueSize ==> Run(c, s, xs).1[i] == Suppressed
    ensures Run(c, s, xs).1[DuoQueueSize] != Suppressed
    ensures Run(c, s, xs).0 == Step(c, s.(clearQueueCounter := DuoQueueSize), xs[DuoQueueSize]).0
    ensures Run(c, s, xs).0.clearQueueCounter == 0
  {
    var a, b := xs[..DuoQueueSize], xs[DuoQueueSize..];
    assert xs == a + b;
    DrainSuppresses(c, s, a);
    RunAppend(c, s, a, b);
    var s30 := s.(clearQueueCounter := DuoQueueSize);
    assert b == [xs[DuoQueueSize]] && b[1..] == [];
    assert Run(c, s30, b).1 == [Step(c, s30, xs[DuoQueueSize]).1];
  }

  /** Nothing in the sample path clears the reset flag, so once it is set the
      drain repeats for ever: counting from a counter value k, sample i is
      processed exactly when i + k leaves remainder DUO_QUEUE_SIZE modulo
      DUO_QUEUE_SIZE + 1. */
  lemma {:induction false} DrainPeriodic(c: Config, s: State, xs: seq<Input>)
    requires ValidConfig(c)
    requires s.resetFlag && 0 <= s.clearQueueCounter <= DuoQueueSize
    ensures forall i :: 0 <= i < |xs| ==>
      (Run(c, s, xs).1[i] != Suppressed <==> (i + s.clearQueueCounter) % (DuoQueueSize + 1) == DuoQueueSize)
    decreases |xs|
  {
    if xs != [] {
      var k := s.clearQueueCounter;
      var s1 := Step(c, s, xs[0]).0;
      DrainPeriodic(c, s1, xs[1..]);
      var ps := Run(c, s, xs).1;
      assert ps == [Step(c, s, xs[0]).1] + Run(c, s1, xs[1..]).1;
      forall i | 1 <= i < |xs|
        ensures ps[i] != Suppressed <==> (i + k) % (DuoQueueSize + 1) == DuoQueueSize
      {
        assert ps[i] == Run(c, s1, xs[1..]).1[i - 1];
        if k < DuoQueueSize {
          assert s1.clearQueueCounter == k + 1;
          assert (i - 1) + (k + 1) == i + k;
        } else {
          assert s1.clearQueueCounter == 0;
          assert (i + k) % (DuoQueueSize + 1) == (i - 1) % (DuoQueueSize + 1);
        }
      }
    }
  }

  /** With no reset pending and every image usable, tracking runs exactly on
      the samples whose running count is a multiple of vision_subsample, the
      prediction runs on every sample, and vio_cnt counts every sample. */
  lemma {:induction false} SubsampleSchedule(c: Config, s: State, xs: seq<Input>)
    requires ValidConfig(c)
    requires !s.resetFlag
    requires forall i :: 0 <= i < |xs| ==> xs[i].imagesUsable
    ensures forall i :: 0 <= i < |xs| ==>
      Run(c, s, xs).1[i] == if CRem(s.vioCnt + i, c.visionSubsample) == 0 then Tracked else PredictOnly
    ensures Run(c, s, xs).0.vioCnt == s.vioCnt + |xs|
    decreases |xs|
  {
    if xs != [] {
      var s1 := Step(c, s, xs[0]).0;
      SubsampleSchedule(c, s1, xs[1..]);
      var ps := Run(c, s, xs).1;
      assert ps == [Step(c, s, xs[0]).1] + Run(c, s1, xs[1..]).1;
      forall i | 1 <= i < |xs|
        ensures ps[i] == if CRem(s.vioCnt + i, c.visionSubsample) == 0 then Tracked else PredictOnly
      {
        assert ps[i] == Run(c, s1, xs[1..]).1[i - 1];
        assert s1.vioCnt + (i - 1) == s.vioCnt + i;
      }
    }
  }

  /** The worked schedule for vision_subsample = 4: samples 0, 4 and 8 are
      tracked, samples 1 to 3 and 5 to 7 are predicted only. */
  lemma {:induction false} SubsampleByFour(c: Config, s: State, xs: seq<Input>)
    requires ValidConfig(c) && c.visionSubsample == 4
    requires !s.resetFlag && s.vioCnt == 0
    requires |xs| == 9 && forall i :: 0 <= i < |xs| ==> xs[i].imagesUsable
    ensures Run(c, s, xs).1 == [Tracked, PredictOnly, PredictOnly, PredictOnly,
                                Tracked, PredictOnly, PredictOnly, PredictOnly, Tracked]
  {
    SubsampleSchedule(c, s, xs);
    var ps := Run(c, s, xs).1;
    assert ps[0] == Tracked && ps[4] == Tracked && ps[8] == Tracked;
    assert ps[1] == PredictOnly && ps[2] == PredictOnly && ps[3] == PredictOnly;
    assert ps[5] == PredictOnly && ps[6] == PredictOnly && ps[7] == PredictOnly;
  }

  /** i is the first sample of a stream that gets through the drain gate. */
  predicate FirstProcessed(ps: seq<Path>, i: int)
  {
    0 <= i < |ps| && ps[i] != Suppressed && forall j :: 0 <= j < i ==> ps[j] == Suppressed
  }

  /** From a state in which tracking is due, the first sample that gets
      through the gate attempts tracking: swallowed samples leave vio_cnt
      alone. */
  lemma {:induction false} FirstProcessedIsDue(c: Config, t: State, ys: seq<Input>)
    requires ValidConfig(c) && TrackingDue(c, t)
    ensures forall i :: FirstProcessed(Run(c, t, ys).1, i) ==> Run(c, t, ys).1[i] in {Tracked, Aborted}
    decreases |ys|
  {
    if ys != [] {
      var first := Step(c, t, ys[0]);
      var rest := Run(c, first.0, ys[1..]);
      var ps := Run(c, t, ys).1;
      assert ps == [first.1] + rest.1;
      if first.1 == Suppressed {
        FirstProcessedIsDue(c, first.0, ys[1..]);
        forall i | FirstProcessed(ps, i)
          ensures ps[i] in {Tracked, Aborted}
        {
          assert i != 0;
          assert FirstProcessed(rest.1, i - 1) by {
            forall j | 0 <= j < i - 1
              ensures rest.1[j] == Suppressed
            {
              assert rest.1[j] == ps[j + 1];
            }
          }
          assert ps[i] == rest.1[i - 1];
        }
      } else {
        forall i | FirstProcessed(ps, i)
          ensures ps[i] in {Tracked, Aborted}
        {
          assert ps[0] == first.1 && ps[0] != Suppressed;
          assert i == 0;
        }
      }
    }
  }

  /** A sample whose tracking was aborted does not advance vio_cnt, so the
      next sample that gets through the gate, however many are swallowed in
      between, attempts tracking again. */
  lemma {:induction false} AbortRetries(c: Config, s: State, x: Input, ys: seq<Input>)
    requires ValidConfig(c)
    requires Step(c, s, x).1 == Aborted
    ensures var ps := Run(c, Step(c, s, x).0, ys).1;
      forall i :: FirstProcessed(ps, i) ==> ps[i] in {Tracked, Aborted}
  {
    FirstProcessedIsDue(c, Step(c, s, x).0, ys);
  }

  /** The time step of the first two processed samples. A first sample stamped
      exactly 0 leaves prev_time_ at zero, so the second sample also gets the
      nominal period; otherwise the second gets the exact stamp difference,
      unclamped. */
  lemma TwoSampleDeltaT(c: Config, s: State, x1: Input, x2: Input)
    requires ValidConfig(c)
    requires !s.resetFlag && s.prevTime == 0.0
    ensures DeltaT(c.fpsDuo, s.prevTime, x1.stamp) == 1.0 / c.fpsDuo
    ensures var s1 := Step(c, s, x1).0;
      DeltaT(c.fpsDuo, s1.prevTime, x2.stamp) == if x1.stamp == 0.0 then 1.0 / c.fpsDuo else x2.stamp - x1.stamp
  {
  }

  /** The running maximum of the ticks taken: it bounds every processed
      sample's ticks, never decreases, and is either the starting value or one
      of those ticks. Swallowed samples are not timed. */
  lemma {:induction false} MaxClicksRun(c: Config, s: State, xs: seq<Input>)
    requires ValidConfig(c)
    ensures s.maxClicks <= Run(c, s, xs).0.maxClicks
    ensures forall i :: 0 <= i < |xs| && Run(c, s, xs).1[i] != Suppressed ==>
      xs[i].clicks <= Run(c, s, xs).0.maxClicks
    ensures Run(c, s, xs).0.maxClicks == s.maxClicks ||
      exists i :: 0 <= i < |xs| && Run(c, s, xs).1[i] != Suppressed && Run(c, s, xs).0.maxClicks == xs[i].clicks
    decreases |xs|
  {
    if xs != [] {
      var first := Step(c, s, xs[0]);
      var s1 := first.0;
      MaxClicksRun(c, s1, xs[1..]);
      var r := Run(c, s, xs);
      var rest := Run(c, s1, xs[1..]);
      assert r.0 == rest.0 && r.1 == [first.1] + rest.1;
      forall i | 1 <= i < |xs| && r.1[i] != Suppressed
        ensures xs[i].clicks <= r.0.maxClicks
      {
        assert r.1[i] == rest.1[i - 1] && xs[i] == xs[1..][i - 1];
      }
      if r.0.maxClicks != s.maxClicks {
        if r.0.maxClicks == s1.maxClicks {
          assert first.1 != Suppressed && r.0.maxClicks == xs[0].clicks;
        } else {
          var j :| 0 <= j < |xs[1..]| && rest.1[j] != Suppressed && rest.0.maxClicks == xs[1..][j].clicks;
          assert r.1[j + 1] == rest.1[j] && xs[j + 1] == xs[1..][j];
        }
      }
    }
  }

  /** display_tracks_cnt on its own: n publishing samples in a row, with the
      debug flag each raises. */
  function TracksRun(cnt: int, n: nat): (r: (int, seq<bool>))
    ensures |r.1| == n
    decreases n
  {
    if n == 0 then (cnt, [])
    else
      var first := TracksStep(true, cnt);
      var rest := TracksRun(first.0, n - 1);
      (rest.0, [first.1] + rest.1)
  }

  /** From a counter value k in [0, 11], the debug flag rises on publishing
      sample i exactly when i + k leaves remainder 11 modulo 12: one sample
      in twelve. */
  lemma {:induction false} TracksPeriodic(cnt: int, n: nat)
    requires 0 <= cnt <= DisplayTracksLimit + 1
    decreases n
    ensures forall i :: 0 <= i < n ==>
      (TracksRun(cnt, n).1[i] <==> (i + cnt) % (DisplayTracksLimit + 2) == DisplayTracksLimit + 1)
  {
    if n > 0 {
      var first := TracksStep(true, cnt);
      TracksPeriodic(first.0, n - 1);
      var rest := TracksRun(first.0, n - 1).1;
      var fs := TracksRun(cnt, n).1;
      assert fs == [first.1] + rest;
      assert fs[0] <==> cnt == DisplayTracksLimit + 1;
      assert cnt % (DisplayTracksLimit + 2) == cnt;
      forall i | 1 <= i < n
        ensures fs[i] <==> (i + cnt) % (DisplayTracksLimit + 2) == DisplayTracksLimit + 1
      {
        assert fs[i] == rest[i - 1];
        if cnt <= DisplayTracksLimit {
          assert first.0 == cnt + 1;
          assert (i - 1) + first.0 == i + cnt;
        } else {
          assert first.0 == 0;
          assert i + cnt == (i - 1) + (DisplayTracksLimit + 2);
        }
      }
    }
  }
}
