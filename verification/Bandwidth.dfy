/** Service times from sizes and bandwidths (`src/network/mod.rs`), in unsigned 64-bit
    arithmetic: a product that does not fit, or a zero bandwidth, is a panic. */
module Bandwidths {
  import opened Prelude

  const U64_LIMIT: nat := 0x1_0000_0000_0000_0000
  const MICROBITS_PER_BYTE: nat := 8 * 1000 * 1000

  /** `get_size_delay`: bits over bandwidth, in whole microseconds, rounded down. */
  function SizeDelay(size: nat, bandwidth: nat): Option<nat> {
    if bandwidth == 0 || size * 8 * 1000 * 1000 >= U64_LIMIT then None
    else Some(size * 8 * 1000 * 1000 / bandwidth)
  }

  /** The computation panics exactly without bandwidth, or when the product overflows. */
  lemma DelayExistsIff(size: nat, bandwidth: nat)
    ensures SizeDelay(size, bandwidth).Some? <==> bandwidth > 0 && size * MICROBITS_PER_BYTE < U64_LIMIT
  {
  }

  /** The delay is the number of whole microseconds the message occupies the line. */
  lemma DelayBounds(size: nat, bandwidth: nat)
    requires SizeDelay(size, bandwidth).Some?
    ensures var d := SizeDelay(size, bandwidth).value;
            bandwidth * d <= size * MICROBITS_PER_BYTE < bandwidth * (d + 1)
  {
    var x, d := size * 8 * 1000 * 1000, SizeDelay(size, bandwidth).value;
    assert x == bandwidth * d + x % bandwidth;
    assert bandwidth * (d + 1) == bandwidth * d + bandwidth;
  }

  ghost function Total(xs: seq<nat>): nat {
    if xs == [] then 0 else xs[0] + Total(xs[1..])
  }

  /** Rounding down every message of a busy period: the time spent is the line time of
      the bytes, short by less than a microsecond for each message. */
  lemma {:induction false} BusyPeriodBounds(sizes: seq<nat>, delays: seq<nat>, bandwidth: nat)
    requires |sizes| == |delays| > 0
    requires forall i :: 0 <= i < |sizes| ==> SizeDelay(sizes[i], bandwidth) == Some(delays[i])
    ensures bandwidth * Total(delays) <= Total(sizes) * MICROBITS_PER_BYTE < bandwidth * (Total(delays) + |delays|)
  {
    DelayBounds(sizes[0], bandwidth);
    var restSizes, restDelays := sizes[1..], delays[1..];
    assert Total(sizes) == sizes[0] + Total(restSizes) && Total(delays) == delays[0] + Total(restDelays);
    if |sizes| > 1 {
      BusyPeriodBounds(restSizes, restDelays, bandwidth);
      Distribute(bandwidth, delays[0], Total(restDelays));
      Distribute(bandwidth, delays[0] + 1, Total(restDelays) + |restDelays|);
    } else {
      assert Total(restSizes) == 0 && Total(restDelays) == 0;
    }
  }

  lemma Distribute(a: nat, b: nat, c: nat)
    ensures a * (b + c) == a * b + a * c
  {
  }
}
