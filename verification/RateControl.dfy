/** How the delay towards one address reacts to NAKs and to the periodic timer (src/packet_handler.rs). */
module RateControl {
  import opened Basics

  const DEFAULT_INTERVAL_NANOS: nat := 10_000
  const DELAY_DECREASE: nat := 100
  const U64_MAX: nat := 0xFFFF_FFFF_FFFF_FFFF

  /** The random factor by which a NAK stretches the delay. */
  type Factor = f: real | 2.0 <= f <= 8.0 witness 2.0

  function OnNak(delay: Option<nat>, factor: Factor): nat {
    match delay
    case None => DEFAULT_INTERVAL_NANOS
    case Some(d) => Stretched(d, factor)
  }

  /** The delay times the factor, rounded down, as far as 64 bits hold it. */
  function Stretched(d: nat, factor: Factor): (r: nat)
    ensures r <= 8 * d
    ensures r as real <= d as real * factor && (d as real * factor < r as real + 1.0 || r == 0xFFFF_FFFF_FFFF_FFFF)
  {
    Bounds(d, factor);
    var product := (d as real * factor).Floor;
    if product > U64_MAX then U64_MAX else product
  }

  lemma Bounds(d: nat, factor: Factor)
    ensures 0 <= (d as real * factor).Floor <= 8 * d
  {
    assert 0.0 <= d as real * factor <= d as real * 8.0;
  }

  function OnTick(delay: Option<nat>): nat {
    match delay
    case None => DEFAULT_INTERVAL_NANOS
    case Some(d) => if d > DELAY_DECREASE then d - DELAY_DECREASE else 0
  }

  /** A NAK at least doubles a delay and at most multiplies it by eight; the first one sets it to 10,000 ns. */
  lemma {:induction false} NakStretches(d: nat, factor: Factor)
    requires 8 * d <= 0xFFFF_FFFF_FFFF_FFFF
    ensures 2 * d <= OnNak(Some(d), factor) <= 8 * d && OnNak(None, factor) == 10_000
  {
    hide Stretched;
    var r, product := Stretched(d, factor), d as real * factor;
    Doubles(d, factor);
    assert (2 * d) as real <= product;
    assert product < r as real + 1.0 ==> (2 * d) as real < (r + 1) as real;
  }

  lemma Doubles(d: nat, factor: Factor)
    ensures (2 * d) as real <= d as real * factor
  {
    assert d as real * 2.0 <= d as real * factor;
  }

  /** The loss rate naks / count lies below 0.1 percent; nothing sent counts as no loss. */
  predicate LowLoss(naks: nat, count: nat) {
    count > 0 ==> 1000 * naks < count
  }

  lemma {:induction false} LowLossIff(naks: nat, count: nat)
    ensures LowLoss(naks, count) <==> count == 0 || naks as real / count as real < 0.001
  {
    if count > 0 {
      RatioBelow(naks as real / count as real, naks as real, count as real);
      assert 1000.0 * naks as real == (1000 * naks) as real;
    }
  }

  lemma RatioBelow(rate: real, part: real, whole: real)
    requires whole > 0.0 && rate == part / whole
    ensures rate < 0.001 <==> 1000.0 * part < whole
  {
    assert part == rate * whole;
    if rate < 0.001 {
      assert rate * whole < 0.001 * whole;
    } else {
      assert rate * whole >= 0.001 * whole;
    }
  }

  datatype DelayEvent = GotNak(factor: Factor) | Tick(low: bool)

  function Next(delay: Option<nat>, event: DelayEvent): Option<nat> {
    match event
    case GotNak(factor) => Some(OnNak(delay, factor))
    case Tick(low) => if low then Some(OnTick(delay)) else delay
  }

  function After(delay: Option<nat>, events: seq<DelayEvent>): Option<nat> {
    if events == [] then delay else Next(After(delay, events[..|events| - 1]), events[|events| - 1])
  }

  function NakCount(events: seq<DelayEvent>): nat {
    if events == [] then 0 else NakCount(events[..|events| - 1]) + if events[|events| - 1].GotNak? then 1 else 0
  }

  function Pow8(m: nat): (r: nat)
    ensures r > 0
  {
    if m == 0 then 1 else 8 * Pow8(m - 1)
  }

  /** However NAKs and timer ticks are mixed, the delay stays below ten thousand times eight to the number of NAKs. */
  lemma {:induction false} DelayBound(events: seq<DelayEvent>)
    ensures After(None, events).Some? ==> After(None, events).value <= 10_000 * Pow8(NakCount(events))
  {
    if events != [] {
      var before, last := events[..|events| - 1], events[|events| - 1];
      DelayBound(before);
      var p := Pow8(NakCount(before));
      assert 10_000 <= 10_000 * p;
      if last.GotNak? {
        assert 10_000 * Pow8(NakCount(events)) == 8 * (10_000 * p);
      }
    }
  }

  /** Without NAKs, each tick with little loss takes 100 ns off, down to zero; other ticks take nothing. */
  lemma {:induction false} TicksDrainDelay(d: nat, events: seq<DelayEvent>)
    requires forall i :: 0 <= i < |events| ==> events[i].Tick?
    ensures var taken := 100 * LowCount(events);
            After(Some(d), events) == Some(if d > taken then d - taken else 0)
  {
    if events != [] { TicksDrainDelay(d, events[..|events| - 1]); }
  }

  function LowCount(events: seq<DelayEvent>): nat {
    if events == [] then 0 else LowCount(events[..|events| - 1]) + if events[|events| - 1] == Tick(true) then 1 else 0
  }

  function Pow2(m: nat): (r: nat)
    ensures r > 0
  {
    if m == 0 then 1 else 2 * Pow2(m - 1)
  }

  /** NAKs alone take a delay up exponentially, at least by two and at most by eight each. */
  lemma {:induction false} NaksGrowDelay(d: nat, events: seq<DelayEvent>)
    requires forall i :: 0 <= i < |events| ==> events[i].GotNak?
    requires d * Pow8(|events|) <= 0xFFFF_FFFF_FFFF_FFFF
    ensures After(Some(d), events).Some?
    ensures d * Pow2(|events|) <= After(Some(d), events).value <= d * Pow8(|events|)
  {
    if events != [] {
      var n, before := |events| - 1, events[..|events| - 1];
      assert d * Pow8(n + 1) == 8 * (d * Pow8(n));
      assert d * Pow2(n + 1) == 2 * (d * Pow2(n));
      NaksGrowDelay(d, before);
      NakStretches(After(Some(d), before).value, events[n].factor);
    }
  }

  /** A delay that has reached zero never grows again: a NAK multiplies it, and zero times anything is zero. */
  lemma {:induction false} ZeroIsForever(events: seq<DelayEvent>)
    ensures After(Some(0), events) == Some(0)
  {
    if events != [] { ZeroIsForever(events[..|events| - 1]); }
  }
}
