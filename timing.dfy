/**
 * The firmware's notion of time: `millis()` on the ESP32 is a 32-bit
 * `unsigned long` counting milliseconds since boot, so it wraps to 0 after
 * 2^32 ms (about 49.7 days). Every periodic check in the control loop has the
 * shape `if (now - last >= interval) { ...; last = now; }` computed in that
 * 32-bit unsigned arithmetic. This module models that arithmetic exactly and
 * proves what it guarantees about real (unbounded) elapsed time.
 */
module Timing {

  /** Size of the `unsigned long` range on the ESP32. */
  const MOD: int := 0x1_0000_0000

  /** A sample of `millis()`. */
  type Millis = x: int | 0 <= x < MOD

  const WEATHER_UPDATE_INTERVAL: nat := 10 * 60 * 1000
  const PROPAGATION_UPDATE_INTERVAL: nat := 60 * 60 * 1000
  const POTA_UPDATE_INTERVAL: nat := 180 * 1000
  const DX_KEEPALIVE_INTERVAL: nat := 30 * 1000
  /** The literal reconnect back-off of the DX-cluster branch of the loop. */
  const DX_RECONNECT_INTERVAL: nat := 20000
  /** The literal refresh period of the display. */
  const DISPLAY_REFRESH_INTERVAL: nat := 1000

  /**
   * `now - last` in 32-bit unsigned arithmetic: when `now` is below `last`
   * the subtraction borrows 2^32. The result is the unique distance that
   * takes `last` to `now` around the 32-bit circle.
   */
  function Elapsed(now: Millis, last: Millis): (d: Millis)
    ensures (last + d) % MOD == now
  {
    if last <= now then now - last else now - last + MOD
  }

  /** The guard `now - last >= interval` of every periodic check. */
  predicate Due(now: Millis, last: Millis, interval: nat): (due: bool)
    ensures interval == 0 ==> due
    ensures interval >= MOD ==> !due
    ensures now == last ==> (due <==> interval == 0)
  {
    Elapsed(now, last) >= interval
  }

  /** No other distance below 2^32 takes `last` to `now`. */
  lemma ElapsedUnique(now: Millis, last: Millis, d: int)
    requires 0 <= d < MOD && (last + d) % MOD == now
    ensures Elapsed(now, last) == d
  {
    if last + d < MOD {
      assert last + d == now;
    } else {
      assert last + d - MOD == now;
    }
  }

  /** Adding k < 2^32 milliseconds to a sample and wrapping is measured as k. */
  lemma ElapsedAfter(last: Millis, k: nat)
    requires k < MOD
    ensures Elapsed((last + k) % MOD, last) == k
  {
    ElapsedUnique((last + k) % MOD, last, k);
  }

  /**
   * Real time is a natural number of milliseconds since boot and `millis()`
   * returns it modulo 2^32. The unsigned difference of two samples is the real
   * elapsed time modulo 2^32, whichever way the counter wrapped in between.
   */
  lemma RealElapsed(t1: nat, t2: nat)
    requires t1 <= t2
    ensures Elapsed(t2 % MOD, t1 % MOD) == (t2 - t1) % MOD
  {
    var a, b := t1 % MOD, t2 % MOD;
    var q1, q2 := t1 / MOD, t2 / MOD;
    assert t1 == q1 * MOD + a;
    assert t2 == q2 * MOD + b;
    var d := (t2 - t1) % MOD;
    var q := (t2 - t1) / MOD;
    assert t2 - t1 == q * MOD + d;
    // a + d and b differ by a multiple of 2^32 and both lie in [0, 2 * 2^32)
    assert a + d == b + (q2 - q1 - q) * MOD;
    if a + d < MOD {
      assert q2 - q1 - q == 0;
    } else {
      assert q2 - q1 - q == 1;
    }
    ElapsedUnique(b, a, d);
  }

  /**
   * A check that fires has waited at least its interval of real time: the
   * wrapped difference never exceeds the real one.
   */
  lemma DueMeansWaited(t1: nat, t2: nat, interval: nat)
    requires t1 <= t2 && Due(t2 % MOD, t1 % MOD, interval)
    ensures t2 - t1 >= interval
  {
    RealElapsed(t1, t2);
  }

  /**
   * Conversely, once the interval has passed in real time, and as long as
   * less than one full wrap has passed, the check fires: wrap-around never
   * hides a due task.
   */
  lemma WaitedMeansDue(t1: nat, t2: nat, interval: nat)
    requires t1 <= t2 && interval <= t2 - t1 < MOD
    ensures Due(t2 % MOD, t1 % MOD, interval)
  {
    RealElapsed(t1, t2);
  }

  /**
   * Timestamps start at 0, so right after boot a check fires exactly when
   * `millis()` has itself reached the interval: nothing runs on the first
   * pass unless boot took longer than the interval.
   */
  lemma FirstRunAtBoot(now: Millis, interval: nat)
    ensures Due(now, 0, interval) <==> now >= interval
  {
  }

  /**
   * One evaluation of a timed check: the sampled time, the interval that
   * applies, and whether the surrounding branch evaluates the check at all.
   */
  datatype Gate = Gate(now: Millis, interval: nat, enabled: bool)

  predicate Opens(last: Millis, g: Gate) {
    g.enabled && Due(g.now, last, g.interval)
  }

  /** The timestamp after the check: set to the sampled time when it fires. */
  function Mark(last: Millis, g: Gate): (stamp: Millis)
    ensures stamp == last || stamp == g.now
    ensures !g.enabled ==> stamp == last
    ensures stamp != last ==> Elapsed(g.now, last) >= g.interval
  {
    if Opens(last, g) then g.now else last
  }

  /** Which checks of a run of passes fire, starting from the stamp `last`. */
  function Openings(last: Millis, gs: seq<Gate>): (r: seq<bool>)
    decreases |gs|
    ensures |r| == |gs|
    ensures forall i :: 0 <= i < |gs| && r[i] ==> gs[i].enabled
  {
    if gs == [] then [] else [Opens(last, gs[0])] + Openings(Mark(last, gs[0]), gs[1..])
  }

  /** The checks were sampled, in order, from a non-decreasing real clock. */
  ghost predicate SampledFrom(ts: seq<nat>, gs: seq<Gate>) {
    && |ts| == |gs|
    && (forall i :: 0 <= i < |gs| ==> gs[i].now == ts[i] % MOD)
    && (forall i, j :: 0 <= i < j < |ts| ==> ts[i] <= ts[j])
  }

  lemma SampledFromTail(ts: seq<nat>, gs: seq<Gate>)
    requires SampledFrom(ts, gs) && |gs| > 0
    ensures SampledFrom(ts[1..], gs[1..])
  {
    forall i, j | 0 <= i < j < |ts| - 1
      ensures ts[1..][i] <= ts[1..][j]
    {
      assert ts[1..][i] == ts[i + 1] && ts[1..][j] == ts[j + 1];
    }
  }

  /** Unfolds one pass of a run: its first check, and the rest from the new stamp. */
  lemma OpeningsStep(stampTime: nat, ts: seq<nat>, gs: seq<Gate>) returns (next: nat)
    requires SampledFrom(ts, gs) && |gs| > 0 && stampTime <= ts[0]
    ensures next == if Opens(stampTime % MOD, gs[0]) then ts[0] else stampTime
    ensures Openings(stampTime % MOD, gs)[0] == Opens(stampTime % MOD, gs[0])
    ensures forall k :: 0 < k < |gs| ==>
      Openings(stampTime % MOD, gs)[k] == Openings(next % MOD, gs[1..])[k - 1]
    ensures SampledFrom(ts[1..], gs[1..]) && (|ts| > 1 ==> next <= ts[1])
  {
    var last := stampTime % MOD;
    next := if Opens(last, gs[0]) then ts[0] else stampTime;
    assert Mark(last, gs[0]) == next % MOD;
    SampledFromTail(ts, gs);
    if |ts| > 1 {
      assert ts[0] <= ts[1];
    }
  }

  /**
   * Every check that fires comes at least its interval of real time after
   * the real moment `stampTime` the stamp was taken from.
   */
  lemma {:induction false} OpeningAfterStamp(stampTime: nat, ts: seq<nat>, gs: seq<Gate>, j: nat)
    requires SampledFrom(ts, gs)
    requires |ts| > 0 ==> stampTime <= ts[0]
    requires j < |gs| && Openings(stampTime % MOD, gs)[j]
    ensures ts[j] - stampTime >= gs[j].interval
    decreases j
  {
    if j == 0 {
      DueMeansWaited(stampTime, ts[0], gs[0].interval);
    } else {
      var next := OpeningsStep(stampTime, ts, gs);
      OpeningAfterStamp(next, ts[1..], gs[1..], j - 1);
      assert ts[1..][j - 1] == ts[j];
    }
  }

  /**
   * Two checks of one timestamp that both fire are separated by at least
   * the later one's interval of real time. With one shared stamp this bounds
   * every pair of firings, whatever mixture of intervals the passes used.
   */
  lemma {:induction false} OpeningsSpaced(stampTime: nat, ts: seq<nat>, gs: seq<Gate>, i: nat, j: nat)
    requires SampledFrom(ts, gs)
    requires |ts| > 0 ==> stampTime <= ts[0]
    requires i < j < |gs|
    requires Openings(stampTime % MOD, gs)[i] && Openings(stampTime % MOD, gs)[j]
    ensures ts[j] - ts[i] >= gs[j].interval
    decreases i
  {
    var next := OpeningsStep(stampTime, ts, gs);
    assert ts[1..][j - 1] == ts[j];
    if i == 0 {
      OpeningAfterStamp(next, ts[1..], gs[1..], j - 1);
    } else {
      OpeningsSpaced(next, ts[1..], gs[1..], i - 1, j - 1);
      assert ts[1..][i - 1] == ts[i];
    }
  }

  /** The checks of a timer that every pass evaluates, sampled at real times `ts`. */
  function Periodic(interval: nat, ts: seq<nat>): seq<Gate> {
    seq(|ts|, k requires 0 <= k < |ts| => Gate(ts[k] % MOD, interval, true))
  }

  /**
   * For the weather, propagation, POTA and display timers: any two passes of
   * a run that both fire are at least the interval of real time apart.
   */
  lemma PeriodicFiringsSpaced(interval: nat, stampTime: nat, ts: seq<nat>, i: nat, j: nat)
    requires i < j < |ts| && stampTime <= ts[0]
    requires forall k, l :: 0 <= k < l < |ts| ==> ts[k] <= ts[l]
    requires Openings(stampTime % MOD, Periodic(interval, ts))[i]
    requires Openings(stampTime % MOD, Periodic(interval, ts))[j]
    ensures ts[j] - ts[i] >= interval
  {
    var gs := Periodic(interval, ts);
    assert SampledFrom(ts, gs);
    OpeningsSpaced(stampTime, ts, gs, i, j);
  }

  /** Dropping the first pass of a periodic run leaves the periodic run of the rest. */
  lemma PeriodicTail(interval: nat, ts: seq<nat>)
    requires |ts| > 0
    ensures Periodic(interval, ts)[1..] == Periodic(interval, ts[1..])
  {
    var gs, hs := Periodic(interval, ts)[1..], Periodic(interval, ts[1..]);
    forall k | 0 <= k < |hs| ensures gs[k] == hs[k] {
      assert ts[1..][k] == ts[k + 1];
    }
  }

  /**
   * And a periodic timer is never skipped: when no earlier pass of the run
   * came a full interval after the stamp, the first pass that comes at least
   * the interval (and less than one wrap) after it fires.
   */
  lemma {:induction false} PeriodicFiresWhenDue(interval: nat, stampTime: nat, ts: seq<nat>, j: nat)
    requires j < |ts| && stampTime <= ts[0]
    requires forall k, l :: 0 <= k < l < |ts| ==> ts[k] <= ts[l]
    requires forall k :: 0 <= k < j ==> ts[k] - stampTime < interval
    requires interval <= ts[j] - stampTime < MOD
    ensures Openings(stampTime % MOD, Periodic(interval, ts))[j]
    decreases j
  {
    var gs := Periodic(interval, ts);
    assert SampledFrom(ts, gs);
    if j == 0 {
      WaitedMeansDue(stampTime, ts[0], interval);
    } else {
      // the pass at ts[0] is too early to fire, so the stamp stays put
      if Opens(stampTime % MOD, gs[0]) {
        DueMeansWaited(stampTime, ts[0], interval);
        assert false;
      }
      var next := OpeningsStep(stampTime, ts, gs);
      PeriodicTail(interval, ts);
      var rest := ts[1..];
      forall k | 0 <= k < j - 1 ensures rest[k] - stampTime < interval {
        assert rest[k] == ts[k + 1];
      }
      assert rest[j - 1] == ts[j];
      PeriodicFiresWhenDue(interval, next, rest, j - 1);
    }
  }

  /** The weather-poll scenario: 10 minutes after a stamp taken at 0. */
  lemma WeatherScenario()
    ensures !Due(599999, 0, WEATHER_UPDATE_INTERVAL)
    ensures Due(600000, 0, WEATHER_UPDATE_INTERVAL)
    ensures Mark(0, Gate(600000, WEATHER_UPDATE_INTERVAL, true)) == 600000
    ensures !Due(1199999, 600000, WEATHER_UPDATE_INTERVAL)
    ensures Due(1200000, 600000, WEATHER_UPDATE_INTERVAL)
  {
  }

  /** Across the wrap: a stamp 1000 ms before 2^32 and a sample at 599000. */
  lemma WrapScenario()
    ensures Elapsed(599000, MOD - 1000) == 600000
    ensures Due(599000, MOD - 1000, WEATHER_UPDATE_INTERVAL)
    ensures !Due(598999, MOD - 1000, WEATHER_UPDATE_INTERVAL)
  {
  }
}
