/**
 * Turnip's (Freedreno Vulkan) DRM kernel-interface helpers: the wrap-around
 * comparison of 32-bit fence sequence numbers, the absolute-timeout
 * computation handed to the msm kernel driver, and the type-tag check that
 * guards the downcast from `vk_sync` to `tu_timeline_sync`.
 */
module TuKnlDrm {
  import opened CTypes
  import opened VkSync

  // ---------------------------------------------------------------------
  // Fence sequence numbers
  // ---------------------------------------------------------------------

  /**
   * How many increments, modulo 2^32, take sequence number `a` to `b`.
   * This is the independent reading of `fence_before`: `b` lies ahead of `a`
   * by this many steps around the 32-bit ring.
   */
  function ForwardDistance(a: uint32, b: uint32): (d: uint32)
    ensures Wrap32(a + d) == b
    ensures d == 0 <==> a == b
  {
    Wrap32(b - a)
  }

  /**
   * `fence_before(a, b)`: `(int32_t)(a - b) < 0`, the subtraction done in
   * uint32_t. It holds exactly when `b` is between 1 and 2^31 steps ahead
   * of `a` on the ring, so it survives the counter wrapping past 2^32 - 1.
   */
  function FenceBefore(a: uint32, b: uint32): (r: bool)
    ensures r <==> a != b && ForwardDistance(a, b) <= TWO_TO_THE_31
  {
    ToInt32(Wrap32(a - b)) < 0
  }

  /** No sequence number comes before itself. */
  lemma FenceBeforeIrreflexive(a: uint32)
    ensures !FenceBefore(a, a)
  {
  }

  /** A fence up to 2^31 steps later, even past the wrap, comes after `a`. */
  lemma FenceBeforeLater(a: uint32, k: int)
    requires 1 <= k <= TWO_TO_THE_31
    ensures FenceBefore(a, Wrap32(a + k))
  {
  }

  /** A fence fewer than 2^31 steps later never comes before `a`. */
  lemma FenceNotBeforeEarlier(a: uint32, k: int)
    requires 0 <= k < TWO_TO_THE_31
    ensures !FenceBefore(Wrap32(a + k), a)
  {
  }

  /**
   * While two sequence numbers are less than 2^31 apart (for instance both
   * below 2^31), `fence_before` is the plain integer order.
   */
  lemma FenceBeforeIsLessWhenClose(a: uint32, b: uint32)
    requires -TWO_TO_THE_31 < a - b < TWO_TO_THE_31
    ensures FenceBefore(a, b) <==> a < b
  {
  }

  /**
   * Exactly half the ring apart, each of the two numbers comes before the
   * other: the relation is not antisymmetric there.
   */
  lemma FenceBeforeHalfwayBothWays(a: uint32, b: uint32)
    requires ForwardDistance(a, b) == TWO_TO_THE_31
    ensures FenceBefore(a, b) && FenceBefore(b, a)
  {
  }

  /**
   * Away from the halfway point, exactly one of two distinct numbers comes
   * before the other.
   */
  lemma FenceBeforeTrichotomy(a: uint32, b: uint32)
    requires a != b && ForwardDistance(a, b) != TWO_TO_THE_31
    ensures FenceBefore(a, b) != FenceBefore(b, a)
  {
  }

  /**
   * Serial-number "less than" of section 3.2 of RFC 1982 with
   * SERIAL_BITS = 32. The RFC leaves the comparison undefined when the two
   * numbers are exactly 2^31 apart; this formula answers false there.
   */
  predicate Rfc1982Less(i1: uint32, i2: uint32) {
    || (i1 < i2 && i2 - i1 < TWO_TO_THE_31)
    || (i1 > i2 && i1 - i2 > TWO_TO_THE_31)
  }

  /**
   * `fence_before` is RFC 1982 serial-number comparison wherever the RFC
   * defines it, and at distance 2^31, where the RFC does not, it answers
   * "before" in both directions.
   */
  lemma FenceBeforeIsRfc1982(a: uint32, b: uint32)
    ensures ForwardDistance(a, b) != TWO_TO_THE_31 ==> (FenceBefore(a, b) <==> Rfc1982Less(a, b))
    ensures ForwardDistance(a, b) == TWO_TO_THE_31 ==>
              FenceBefore(a, b) && FenceBefore(b, a) && !Rfc1982Less(a, b) && !Rfc1982Less(b, a)
  {
  }

  /**
   * A run of fence sequence numbers as a queue hands them out: each one
   * the previous plus one, in uint32_t, so the run may wrap past 2^32 - 1.
   * The sum is taken in `int` (hence the cast) so that it may reach 2^32
   * before `Wrap32` truncates it.
   */
  predicate ConsecutiveFences(fences: seq<uint32>) {
    forall i :: 0 <= i < |fences| - 1 ==> fences[i + 1] == Wrap32(fences[i] as int + 1)
  }

  /** The j-th fence of a run lies j steps (modulo 2^32) after the first. */
  lemma {:induction false} ConsecutiveFenceOffset(fences: seq<uint32>, j: nat)
    requires ConsecutiveFences(fences) && j < |fences|
    ensures fences[j] == Wrap32(fences[0] + j)
  {
    if j > 0 {
      ConsecutiveFenceOffset(fences, j - 1);
      assert fences[j] == Wrap32(fences[j - 1] as int + 1);
      assert fences[j] == Wrap32(Wrap32(fences[0] + j - 1) + 1);
    }
  }

  /**
   * Within any run of at most 2^31 consecutively issued fences,
   * `fence_before` is exactly the order of issue, wrap-around included.
   * The bound is tight: in a run of 2^31 + 1 fences the first and the last
   * each come before the other (`FenceBeforeHalfwayBothWays`).
   */
  lemma {:induction false} FenceBeforeOrdersRun(fences: seq<uint32>, i: nat, j: nat)
    requires ConsecutiveFences(fences) && |fences| <= TWO_TO_THE_31
    requires i < |fences| && j < |fences|
    ensures FenceBefore(fences[i], fences[j]) <==> i < j
  {
    ConsecutiveFenceOffset(fences, i);
    ConsecutiveFenceOffset(fences, j);
    if i < j {
      assert fences[j] == Wrap32(fences[i] + (j - i));
      FenceBeforeLater(fences[i], j - i);
    } else {
      assert fences[i] == Wrap32(fences[j] + (i - j));
      FenceNotBeforeEarlier(fences[j], i - j);
    }
  }

  // ---------------------------------------------------------------------
  // Absolute timeouts
  // ---------------------------------------------------------------------

  const NSEC_PER_SEC: int := 1_000_000_000

  /** `struct timespec` on an LP64 target: time_t and long are both 64-bit. */
  datatype Timespec = Timespec(tvSec: int64, tvNsec: int64)

  /** `struct drm_msm_timespec`: two __s64 fields. */
  datatype MsmTimespec = MsmTimespec(tvSec: int64, tvNsec: int64)

  /** A reading of CLOCK_MONOTONIC: non-negative seconds, nanoseconds below a second. */
  predicate IsClockReading(t: Timespec) {
    t.tvSec >= 0 && 0 <= t.tvNsec < NSEC_PER_SEC
  }

  /**
   * `get_abs_timeout(tv, ns)` with the clock reading `now` passed in. The
   * additions mix a signed 64-bit field with a uint64_t quotient or
   * remainder, so C performs them in uint64_t and stores the result into
   * an __s64 field: wrap modulo 2^64, then the two's-complement reading.
   * The seconds of `ns` go to `tvSec` and the remaining nanoseconds to
   * `tvNsec`, with no carry from `tvNsec` into `tvSec`.
   */
  function GetAbsTimeout(now: Timespec, ns: uint64): (tv: MsmTimespec)
    ensures -TWO_TO_THE_63 <= now.tvSec + ns / NSEC_PER_SEC < TWO_TO_THE_63 ==>
              tv.tvSec == now.tvSec + ns / NSEC_PER_SEC
    ensures 0 <= now.tvNsec < NSEC_PER_SEC ==>
              tv.tvNsec - now.tvNsec == ns % NSEC_PER_SEC && 0 <= tv.tvNsec < 2 * NSEC_PER_SEC
  {
    var sec := now.tvSec + ns / NSEC_PER_SEC;
    var nsec := now.tvNsec + ns % NSEC_PER_SEC;
    Int64RoundTrip(sec);
    Int64RoundTrip(nsec);
    MsmTimespec(ToInt64(Wrap64(sec)), ToInt64(Wrap64(nsec)))
  }

  /** Total nanoseconds denoted by a seconds/nanoseconds pair. */
  function TotalNanos(sec: int, nsec: int): int {
    sec * NSEC_PER_SEC + nsec
  }

  /**
   * The absolute timeout lies exactly `ns` nanoseconds after the clock
   * reading, as long as the seconds do not overflow int64_t.
   */
  lemma GetAbsTimeoutPreservesTotal(now: Timespec, ns: uint64)
    requires IsClockReading(now)
    requires now.tvSec + ns / NSEC_PER_SEC < TWO_TO_THE_63
    ensures TotalNanos(GetAbsTimeout(now, ns).tvSec, GetAbsTimeout(now, ns).tvNsec)
         == TotalNanos(now.tvSec, now.tvNsec) + ns
  {
  }

  /**
   * The nanosecond field is not normalised: it can reach a whole second or
   * more, and the seconds field never depends on the clock's nanoseconds.
   */
  lemma GetAbsTimeoutNotNormalised(now: Timespec, ns: uint64)
    ensures GetAbsTimeout(now, ns).tvSec == GetAbsTimeout(Timespec(now.tvSec, 0), ns).tvSec
    ensures GetAbsTimeout(Timespec(0, NSEC_PER_SEC - 1), 1) == MsmTimespec(0, NSEC_PER_SEC)
  {
  }

  // ---------------------------------------------------------------------
  // Timeline syncs
  // ---------------------------------------------------------------------

  /**
   * `struct tu_timeline_sync`, reduced to the `vk_sync` it embeds as `base`;
   * its other fields are not part of this model.
   */
  datatype TuTimelineSync = TuTimelineSync(base: Sync)

  /**
   * `vk_sync_is_tu_timeline_sync`: the sync's type descriptor is turnip's
   * timeline type. Such a sync is never taken for a DRM syncobj, whose
   * descriptors are distinct objects.
   */
  predicate IsTuTimelineSync(s: Sync)
    ensures IsTuTimelineSync(s) <==> s.syncType == TuTimelineSyncType
    ensures IsTuTimelineSync(s) ==> AsDrmSyncobj(s).None?
  {
    s.syncType == TuTimelineSyncType
  }

  /**
   * `to_tu_timeline_sync`: the downcast is only defined for a sync whose
   * type tag is `tu_timeline_sync_type`; the object it yields embeds the
   * very sync it came from.
   */
  function ToTuTimelineSync(s: Sync): (t: TuTimelineSync)
    requires IsTuTimelineSync(s)
    ensures t.base == s
  {
    TuTimelineSync(s)
  }
}
