/** When renewals are sent, and why the lease does not lapse between them. Times are nanoseconds. */
module LeaseTiming {
  const SECOND := 1_000_000_000

  /** The lease time the worker loads, in seconds. */
  function LoadedTTL(configured: int): (ttl: int)
    ensures 30 <= ttl <= 600 && (30 <= configured <= 600 ==> ttl == configured)
    ensures (configured <= 30 ==> ttl == 30) && (configured >= 600 ==> ttl == 600)
  {
    if configured < 30 then 30 else if configured > 600 then 600 else configured
  }

  /** claimHeartbeatInterval. */
  function Interval(ttl: int): int {
    var third := ttl * SECOND / 3;
    if third < 10 * SECOND then 10 * SECOND else third
  }

  /** For every loaded lease time the interval is a third of it, rounded down. */
  lemma IntervalIsThird(configured: int)
    ensures var ttl, interval := LoadedTTL(configured), Interval(LoadedTTL(configured));
            0 < 3 * interval <= ttl * SECOND < 3 * interval + 3
  {
  }

  /** A bare interval does not promise that: below thirty seconds the floor of ten seconds wins. */
  lemma IntervalThirdIff(ttl: int)
    requires 0 < ttl
    ensures 3 * Interval(ttl) <= ttl * SECOND <==> 30 <= ttl
  {
  }

  /** A renewal leaves the worker at `start`, extends the lease at `effect` and is answered at `done`. */
  datatype Renewal = Renewal(start: int, effect: int, done: int)

  /** The first multiple of the interval after `t`: the ticker starts at 0. */
  function NextTick(t: int, interval: int): (tick: int)
    requires 0 <= t && 0 < interval
    ensures t < tick <= t + interval
  {
    t - t % interval + interval
  }

  /**
   * A run of successful renewals of at most `d` each. A tick that fires during a renewal is kept for when it is
   * done; one that fires while another is kept is dropped.
   */
  predicate Paced(rs: seq<Renewal>, interval: int, d: int)
    requires 0 < interval
  {
    && (forall k :: 0 <= k < |rs| ==> 0 <= rs[k].start <= rs[k].effect <= rs[k].done <= rs[k].start + d)
    && (rs != [] ==> rs[0].start == interval)
    && (forall k :: 0 <= k < |rs| - 1 ==> rs[k + 1].start == Later(rs[k].done, NextTick(rs[k].start, interval)))
  }

  function Later(a: int, b: int): int { if a < b then b else a }

  /** Someone who looks at time `t` finds the claim, or a renewal that took effect, less than `ttl` old. */
  predicate LeaseHeld(rs: seq<Renewal>, ttl: int, t: int) {
    0 <= t < ttl || exists k :: 0 <= k < |rs| && rs[k].effect <= t < rs[k].effect + ttl
  }

  /** The moment until which the lease runs. */
  function Horizon(rs: seq<Renewal>, ttl: int): int {
    if rs == [] then ttl else rs[|rs| - 1].effect + ttl
  }

  /** The claim was made when the ticker started. In a run of any length the lease is held without a gap. */
  lemma {:induction false} NeverLapses(rs: seq<Renewal>, interval: int, d: int, ttl: int, t: int)
    requires 0 < interval && Paced(rs, interval, d) && Later(interval, d) + d <= ttl
    requires 0 <= t < Horizon(rs, ttl)
    ensures LeaseHeld(rs, ttl, t)
  {
    if rs != [] {
      var front, last := rs[..|rs| - 1], rs[|rs| - 1];
      Closer(rs, interval, d);
      if t < last.effect {
        assert forall k :: 0 <= k < |front| ==> front[k] == rs[k];
        NeverLapses(front, interval, d, ttl, t);
        if !(0 <= t < ttl) {
          var k :| 0 <= k < |front| && front[k].effect <= t < front[k].effect + ttl;
          assert rs[k].effect <= t < rs[k].effect + ttl;
        }
      } else {
        assert rs[|rs| - 1].effect <= t < rs[|rs| - 1].effect + ttl;
      }
    }
  }

  /** The last renewal takes effect soon after the one before it. */
  lemma Closer(rs: seq<Renewal>, interval: int, d: int)
    requires 0 < interval && rs != [] && Paced(rs, interval, d)
    ensures var last := rs[|rs| - 1].effect;
            last <= (if |rs| == 1 then 0 else rs[|rs| - 2].effect) + Later(interval, d) + d
  {
    if |rs| > 1 {
      var k := |rs| - 2;
      assert rs[k + 1].start == Later(rs[k].done, NextTick(rs[k].start, interval));
    }
  }

  /** When the renewal after these would be due. */
  function Due(rs: seq<Renewal>, interval: int): int
    requires 0 < interval && (rs != [] ==> 0 <= rs[|rs| - 1].start)
  {
    if rs == [] then interval else Later(rs[|rs| - 1].done, NextTick(rs[|rs| - 1].start, interval))
  }

  /**
   * An execution that ends before its next renewal is due, after renewals that all succeeded, has sent its terminal
   * status within `e` of that moment. The lease is held until then, if `e` leaves room for it.
   */
  lemma HeldAtTheEnd(rs: seq<Renewal>, interval: int, d: int, e: int, ttl: int, t: int)
    requires 0 < interval && Paced(rs, interval, d)
    requires Later(interval, d) + d <= ttl && Later(interval, d) + e < ttl
    requires 0 <= t <= Due(rs, interval) + e
    ensures LeaseHeld(rs, ttl, t)
  {
    assert rs != [] ==> rs[|rs| - 1].start <= rs[|rs| - 1].effect;
    NeverLapses(rs, interval, d, ttl, t);
  }

  /** So a loaded lease is never lost to renewals that take up to half of it. */
  lemma LoadedLeaseHolds(configured: int, rs: seq<Renewal>, d: int, t: int)
    requires 0 <= d && 2 * d <= LoadedTTL(configured) * SECOND
    requires Paced(rs, Interval(LoadedTTL(configured)), d)
    requires 0 <= t < Horizon(rs, LoadedTTL(configured) * SECOND)
    ensures LeaseHeld(rs, LoadedTTL(configured) * SECOND, t)
  {
    IntervalIsThird(configured);
    NeverLapses(rs, Interval(LoadedTTL(configured)), d, LoadedTTL(configured) * SECOND, t);
  }

  /** And half is the limit: if renewals may take longer, two of them that succeed already leave a gap. */
  lemma SlowRenewalsLapse(configured: int, d: int, rs: seq<Renewal>)
    requires 2 * d > LoadedTTL(configured) * SECOND
    requires var interval := Interval(LoadedTTL(configured));
             rs == [Renewal(interval, interval, interval + d),
                    Renewal(interval + d, interval + 2 * d, interval + 2 * d)]
    ensures var ttl, interval := LoadedTTL(configured) * SECOND, Interval(LoadedTTL(configured));
            Paced(rs, interval, d) && interval + ttl < Horizon(rs, ttl) && !LeaseHeld(rs, ttl, interval + ttl)
  {
    IntervalIsThird(configured);
    var interval := Interval(LoadedTTL(configured));
    assert NextTick(interval, interval) == 2 * interval;
  }
}
