/** The cutoffs of the sweeper and of tiering, in 64-bit arithmetic that wraps. */
module Retention {
  import opened Base
  import opened Catalog
  import opened Compaction

  type u64 = x: int | 0 <= x < 0x1_0000_0000_0000_0000

  const NANOS := 1_000_000_000
  const DAY := 86_400

  /** What a signed 64-bit register keeps of x: casts and overflowing arithmetic. */
  function Wrap(x: int): i64 {
    var m := x % 0x1_0000_0000_0000_0000;
    if m > I64_MAX then m - 0x1_0000_0000_0000_0000 else m
  }

  /** The retention setting, read in days. */
  function RetentionSecs(days: u64): u64 {
    (days * DAY) % 0x1_0000_0000_0000_0000
  }

  /** The sweeper's cutoff, operation by operation. */
  function SweepCutoff(nowSecs: u64, retentionSecs: u64): i64 {
    Wrap(Wrap(Wrap(nowSecs) * NANOS) - Wrap(Wrap(retentionSecs) * NANOS))
  }

  function GraceCutoff(nowSecs: u64, graceSecs: u64): i64 {
    Wrap(Wrap(nowSecs) - Wrap(graceSecs))
  }

  /** Tiering multiplies with wrap-around but subtracts with saturation. */
  function TierCutoff(nowNanos: i64, days: u64): i64 {
    var cutoff := nowNanos - Wrap(Wrap(Wrap(Wrap(days) * 24) * 3600) * NANOS);
    if cutoff < I64_MIN then I64_MIN else if cutoff > I64_MAX then I64_MAX else cutoff
  }

  /** How often x goes around. */
  function Turns(x: int): (k: int)
    ensures Wrap(x) == x - k * 0x1_0000_0000_0000_0000
  {
    x / 0x1_0000_0000_0000_0000 + if x % 0x1_0000_0000_0000_0000 > I64_MAX then 1 else 0
  }

  lemma WrapShift(x: int, k: int)
    ensures Wrap(x - k * 0x1_0000_0000_0000_0000) == Wrap(x)
  {
  }

  lemma WrapIsIdentity(x: int)
    ensures Wrap(x) == x <==> I64_MIN <= x <= I64_MAX
  {
  }

  /** Multiplying a wrapped number wraps to the same as multiplying the number. */
  lemma WrapTimes(x: int, n: int)
    ensures Wrap(Wrap(x) * n) == Wrap(x * n)
  {
    var k := Turns(x);
    assert Wrap(x) * n == x * n - (k * n) * 0x1_0000_0000_0000_0000;
    WrapShift(x * n, k * n);
  }

  lemma WrapMinus(x: int, y: int)
    ensures Wrap(Wrap(x) - Wrap(y)) == Wrap(x - y)
  {
    var j, k := Turns(x), Turns(y);
    assert Wrap(x) - Wrap(y) == (x - y) - (j - k) * 0x1_0000_0000_0000_0000;
    WrapShift(x - y, j - k);
  }

  /** All the wrapping amounts to one wrap of the true difference. */
  lemma SweepCutoffIs(nowSecs: u64, retentionSecs: u64)
    ensures SweepCutoff(nowSecs, retentionSecs) == Wrap((nowSecs - retentionSecs) * NANOS)
  {
    hide Wrap;
    WrapTimes(nowSecs, NANOS);
    WrapTimes(retentionSecs, NANOS);
    WrapMinus(nowSecs * NANOS, retentionSecs * NANOS);
  }

  /** Up to the year 2262, the cutoff is `retention` before now if and only if that is a 64-bit
      number of nanoseconds; and otherwise it is too late, so that events within retention count
      as expired. */
  lemma SweepCutoffExactIff(nowSecs: u64, retentionSecs: u64)
    requires nowSecs * NANOS <= I64_MAX
    ensures SweepCutoff(nowSecs, retentionSecs) == (nowSecs - retentionSecs) * NANOS
            <==> (nowSecs - retentionSecs) * NANOS >= I64_MIN
    ensures SweepCutoff(nowSecs, retentionSecs) >= (nowSecs - retentionSecs) * NANOS
  {
    SweepCutoffIs(nowSecs, retentionSecs);
    WrapIsIdentity((nowSecs - retentionSecs) * NANOS);
  }

  /** With exact cutoffs, a file that has events is listed as expired if and only if it is active and
      all of them are older than the retention of its tier. */
  lemma ExpiredIff(r: Row, rows: File, nowSecs: u64, hotSecs: u64, coldSecs: u64)
    requires MetaSound(r.meta, rows) && rows != [] && nowSecs * NANOS <= I64_MAX
    requires (nowSecs - hotSecs) * NANOS >= I64_MIN && (nowSecs - coldSecs) * NANOS >= I64_MIN
    ensures IsExpired(r, SweepCutoff(nowSecs, hotSecs), SweepCutoff(nowSecs, coldSecs)) <==>
            && r.state == Active
            && AllBefore(rows, (nowSecs - (match r.tier case Hot => hotSecs case Cold => coldSecs)) * NANOS)
  {
    hide MetaSound;
    SweepCutoffExactIff(nowSecs, hotSecs);
    SweepCutoffExactIff(nowSecs, coldSecs);
    MaxIsBefore(r.meta, rows, SweepCutoff(nowSecs, hotSecs));
    MaxIsBefore(r.meta, rows, SweepCutoff(nowSecs, coldSecs));
  }

  /** A retention of 999,999 days, meant to keep everything, puts the cutoff 184 years into the
      future: every file of events up to now is expired. */
  lemma KeepForeverSweepsAll(nowSecs: u64, r: Row)
    requires 1_500_000_000 <= nowSecs <= 3_000_000_000
    requires r.state == Active && r.meta.maxTs <= nowSecs * NANOS
    ensures var cutoff := SweepCutoff(nowSecs, RetentionSecs(999_999)); IsExpired(r, cutoff, cutoff)
  {
    SweepCutoffIs(nowSecs, RetentionSecs(999_999));
    assert RetentionSecs(999_999) == 86_399_913_600;
    var meant := (nowSecs - 86_399_913_600) * NANOS;
    hide Wrap;
    WrapShift(meant, -5);
    WrapIsIdentity(meant + 5 * 0x1_0000_0000_0000_0000);
  }

  lemma GraceCutoffExactIff(nowSecs: u64, graceSecs: u64)
    requires nowSecs <= I64_MAX
    ensures GraceCutoff(nowSecs, graceSecs) == nowSecs - graceSecs <==> nowSecs - graceSecs >= I64_MIN
  {
    WrapMinus(nowSecs, graceSecs);
    WrapIsIdentity(nowSecs - graceSecs);
  }

  /** With an exact cutoff, a superseded row is listed if and only if it was superseded, at a time
      that was recorded, more than the grace period ago. */
  lemma PastGraceIff(r: Row, nowSecs: u64, graceSecs: u64)
    requires nowSecs <= I64_MAX && nowSecs - graceSecs >= I64_MIN
    ensures PastGrace(r, GraceCutoff(nowSecs, graceSecs)) <==>
            r.state == Superseded && r.supersededAt > 0 && nowSecs - r.supersededAt > graceSecs
  {
    GraceCutoffExactIff(nowSecs, graceSecs);
  }

  /** Tiering's cutoff is the true one, clamped to 64 bits, if and only if the threshold is a
      64-bit number of nanoseconds. */
  lemma TierCutoffExactIff(nowNanos: i64, days: u64)
    requires nowNanos >= 0
    ensures TierCutoff(nowNanos, days) == Max(nowNanos - days * DAY * NANOS, I64_MIN)
            <==> days * DAY * NANOS <= I64_MAX
  {
    WrapTimes(days, 24);
    WrapTimes(days * 24, 3600);
    WrapTimes(days * 24 * 3600, NANOS);
    WrapIsIdentity(days * DAY * NANOS);
    assert Turns(days * DAY * NANOS) >= 0;
  }

  /** With a threshold that fits 64 bits, a file that has events is listed for tiering if and only if
      it is active and hot and all of them are older than the threshold. */
  lemma ToTierIff(r: Row, rows: File, nowNanos: i64, days: u64)
    requires MetaSound(r.meta, rows) && rows != [] && nowNanos >= 0 && days * DAY * NANOS <= I64_MAX
    ensures ToTier(r, TierCutoff(nowNanos, days)) <==>
            r.state == Active && r.tier == Hot && AllBefore(rows, nowNanos - days * DAY * NANOS)
  {
    hide MetaSound, Wrap, TierCutoff;
    TierCutoffExactIff(nowNanos, days);
    MaxIsBefore(r.meta, rows, TierCutoff(nowNanos, days));
  }
}
