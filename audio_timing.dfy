/** The timing side of the audio tick: how long `tickLoop` waits before the
    next tick, mode by mode, and the multiplier labels of the BPM slider. */
module AudioTiming {
  import opened Js

  /** The tick modes of the `TF` constants. */
  datatype TickMode = Random | Sin | Constant | Bpm | Scene

  /** The fields of one audio track that the tick logic reads or writes.
      `bpm` is `None` when the stored value does not coerce to a number. */
  datatype Audio = Audio(
    id: int,
    url: string,
    tick: bool,
    stopAtEnd: bool,
    nextSceneAtEnd: bool,
    tickMode: TickMode,
    tickMinDelay: int,
    tickMaxDelay: int,
    tickDelay: int,
    tickSinRate: int,
    tickBPMMulti: int,
    bpm: Option<real>)

  /** What the host supplies at the instant a delay is computed:
      a `Math.random()` draw, `Date.now()`, and `Math.sin`. */
  datatype Sample = Sample(random: real, now: real, sin: real -> real)

  ghost predicate ValidSample(e: Sample)
  {
    && 0.0 <= e.random < 1.0
    && forall x :: -1.0 <= e.sin(x) <= 1.0
  }

  function Abs(x: real): (r: real)
    ensures r >= 0.0 && (r == x || r == -x)
  {
    if x < 0.0 then -x else x
  }

  function IntAbs(x: int): (r: nat)
    ensures r == x || r == -x
  {
    if x < 0 then -x else x
  }

  lemma ProductNonNegative(a: real, b: real)
    requires a >= 0.0 && b >= 0.0
    ensures a * b >= 0.0
  {
  }

  lemma ProductPositive(a: real, b: real)
    requires a > 0.0 && b > 0.0
    ensures a * b > 0.0
  {
  }

  /** A fraction of a non-negative `m` lies in `[0, m]`, strictly below a
      positive `m` when the fraction is below 1. */
  lemma FractionOfNonNegative(x: real, m: real)
    requires 0.0 <= x <= 1.0 && m >= 0.0
    ensures 0.0 <= x * m <= m
    ensures m > 0.0 && x < 1.0 ==> x * m < m
  {
    ProductNonNegative(x, m);
    ProductNonNegative(m, 1.0 - x);
    assert m * (1.0 - x) == m - x * m;
    if m > 0.0 && x < 1.0 {
      ProductPositive(m, 1.0 - x);
    }
  }

  /** A fraction below 1 of a negative `m` lies in `(m, 0]`. */
  lemma FractionOfNegative(x: real, m: real)
    requires 0.0 <= x < 1.0 && m < 0.0
    ensures m < x * m <= 0.0
  {
    ProductNonNegative(x, -m);
    assert x * (-m) == -(x * m);
    ProductPositive(-m, 1.0 - x);
    assert (-m) * (1.0 - x) == x * m - m;
  }

  /** `Math.floor(x * n)` for a fraction `x` and an integer `n`. */
  lemma FloorOfScaled(x: real, n: int)
    requires 0.0 <= x <= 1.0
    ensures n >= 0 ==> 0 <= (x * n as real).Floor <= n
    ensures n >= 1 && x < 1.0 ==> (x * n as real).Floor <= n - 1
    ensures n < 0 && x < 1.0 ==> n <= (x * n as real).Floor <= 0
  {
    var y := x * n as real;
    assert y.Floor as real <= y < y.Floor as real + 1.0;
    if n >= 0 {
      FractionOfNonNegative(x, n as real);
      if n >= 1 && x < 1.0 {
        assert y.Floor < n;
      }
    } else if x < 1.0 {
      FractionOfNegative(x, n as real);
    }
  }

  /** Random mode: `floor(random * (max - min + 1)) + min`. With `min <= max`
      every draw lands in `[min, max]`; with the bounds crossed it lands in
      `[max + 1, min]`. */
  function RandomDelay(minDelay: int, maxDelay: int, random: real): (d: int)
    requires 0.0 <= random < 1.0
    ensures minDelay <= maxDelay ==> minDelay <= d <= maxDelay
    ensures maxDelay < minDelay ==> maxDelay + 1 <= d <= minDelay
  {
    FloorOfScaled(random, maxDelay - minDelay + 1);
    (random * (maxDelay - minDelay + 1) as real).Floor + minDelay
  }

  /** The sine period divisor `(|tickSinRate - 100| + 2) * 1000`. It is never
      below 2000, and on the slider's range 0..100 it falls as the rate rises. */
  function SinRate(tickSinRate: int): (rate: int)
    ensures rate >= 2000
    ensures tickSinRate <= 100 ==> rate == (102 - tickSinRate) * 1000
    ensures tickSinRate > 100 ==> rate == (tickSinRate - 98) * 1000
  {
    (IntAbs(tickSinRate - 100) + 2) * 1000
  }

  /** `|sin(now / rate)|`, the level that scales the sine delay. */
  function SinLevel(tickSinRate: int, now: real, sin: real -> real): (level: real)
    requires forall x :: -1.0 <= sin(x) <= 1.0
    ensures 0.0 <= level <= 1.0
  {
    var rate := SinRate(tickSinRate);
    var v := sin(now / rate as real);
    Abs(v)
  }

  /** Sine mode with a given level: `floor(level * (max - min + 1)) + min`.
      The delay reaches `max + 1` exactly when the level is 1. */
  function SinDelay(minDelay: int, maxDelay: int, level: real): (d: int)
    requires 0.0 <= level <= 1.0
    ensures minDelay <= maxDelay ==> minDelay <= d <= maxDelay + 1
    ensures minDelay <= maxDelay && level < 1.0 ==> d <= maxDelay
    ensures level == 1.0 ==> d == maxDelay + 1
  {
    FloorOfScaled(level, maxDelay - minDelay + 1);
    (level * (maxDelay - minDelay + 1) as real).Floor + minDelay
  }

  /** The effective BPM multiplier: `m` when `m > 0`, else `1 / (2 - m)`. */
  function BpmMultiplier(m: int): (k: real)
    ensures k > 0.0
    ensures m > 0 ==> k == m as real
    ensures m <= 0 ==> k <= 0.5 && k * (2 - m) as real == 1.0
  {
    if m > 0 then m as real else 1.0 / (-1 * (m - 2)) as real
  }

  /** `60000 / (bpm * multiplier)` in JavaScript arithmetic: a non-numeric
      BPM gives NaN and a zero BPM gives positive Infinity. */
  function BpmQuotient(bpm: Option<real>, multiplier: real): (q: Number)
    requires multiplier > 0.0
    ensures bpm.None? ==> q.NaN?
    ensures bpm == Some(0.0) ==> q == Infinity(true)
    ensures bpm.Some? && bpm.value != 0.0 ==>
              q.Finite? && q.value * (bpm.value * multiplier) == 60000.0
  {
    match bpm
    case None => NaN
    case Some(b) => if b == 0.0 then Infinity(true) else Finite(60000.0 / (b * multiplier))
  }

  /** BPM mode: the quotient, replaced by 1000 ms when it is falsy. Only a
      non-numeric BPM is replaced; a zero BPM stays infinite. */
  function BpmDelay(bpm: Option<real>, tickBPMMulti: int): (t: Number)
    ensures !t.NaN? && t != Finite(0.0)
    ensures bpm.None? ==> t == Finite(1000.0)
    ensures bpm == Some(0.0) ==> t == Infinity(true)
    ensures bpm.Some? && bpm.value != 0.0 ==>
              t.Finite? && t.value * (bpm.value * BpmMultiplier(tickBPMMulti)) == 60000.0
    ensures bpm.Some? && bpm.value > 0.0 ==> t.Finite? && t.value > 0.0
  {
    var timeout := BpmQuotient(bpm, BpmMultiplier(tickBPMMulti));
    if Falsy(timeout) then Finite(1000.0) else timeout
  }

  /** The three worked examples at 120 BPM: multipliers 1, 0 and -1. */
  lemma BpmExamples()
    ensures BpmDelay(Some(120.0), 1) == Finite(500.0)
    ensures BpmDelay(Some(120.0), 0) == Finite(1000.0)
    ensures BpmDelay(Some(120.0), -1) == Finite(1500.0)
  {
    assert BpmMultiplier(0) == 0.5;
    assert BpmMultiplier(-1) * 3.0 == 1.0;
    var t := BpmDelay(Some(120.0), -1);
    assert t.value * (120.0 * BpmMultiplier(-1)) == 60000.0;
    assert 120.0 * BpmMultiplier(-1) == 40.0;
  }

  /** The timeout `tickLoop` arms for `audio`, or `None` when it arms none:
      the switch over the tick mode under the `audio.tick` test. */
  function NextTimer(audio: Audio, e: Sample): (t: Option<Number>)
    requires ValidSample(e)
    ensures t.Some? <==> audio.tick && audio.tickMode != Scene
    ensures audio.tick && audio.tickMode == Constant ==> t == Some(Finite(audio.tickDelay as real))
    ensures audio.tick && audio.tickMode == Random ==>
              t == Some(Finite(RandomDelay(audio.tickMinDelay, audio.tickMaxDelay, e.random) as real))
    ensures audio.tick && audio.tickMode == Sin ==>
              t == Some(Finite(SinDelay(audio.tickMinDelay, audio.tickMaxDelay,
                                        SinLevel(audio.tickSinRate, e.now, e.sin)) as real))
    ensures audio.tick && audio.tickMode == Random && audio.tickMinDelay <= audio.tickMaxDelay ==>
              t.Some? && t.value.Finite? &&
              audio.tickMinDelay as real <= t.value.value <= audio.tickMaxDelay as real
    ensures audio.tick && audio.tickMode == Sin && audio.tickMinDelay <= audio.tickMaxDelay ==>
              t.Some? && t.value.Finite? &&
              audio.tickMinDelay as real <= t.value.value <= (audio.tickMaxDelay + 1) as real
    ensures audio.tick && audio.tickMode == Bpm ==> t == Some(BpmDelay(audio.bpm, audio.tickBPMMulti))
  {
    if !audio.tick then None
    else
      match audio.tickMode
      case Random => Some(Finite(RandomDelay(audio.tickMinDelay, audio.tickMaxDelay, e.random) as real))
      case Sin =>
        var level := SinLevel(audio.tickSinRate, e.now, e.sin);
        Some(Finite(SinDelay(audio.tickMinDelay, audio.tickMaxDelay, level) as real))
      case Constant => Some(Finite(audio.tickDelay as real))
      case Bpm => Some(BpmDelay(audio.bpm, audio.tickBPMMulti))
      case Scene => None
  }

  /** The caption beside the BPM multiplier slider: `m` followed by `x` for a
      positive multiplier, else `1 / d` followed by `x` where `1/d` is the
      multiplier the timer uses. The fixed "BPM Multiplier " text in front of
      it is not part of this function. */
  function MultiplierCaption(m: int): (text: string)
    ensures |text| >= 2 && text[|text| - 1] == 'x'
    ensures text[1] == ' ' <==> m <= 0
    ensures m > 0 ==> text == Decimal(m) + "x" && BpmMultiplier(m) == m as real
    ensures m <= 0 ==> text == "1 / " + Decimal(2 - m) + "x" && BpmMultiplier(m) * (2 - m) as real == 1.0
  {
    var shown := if m > 0 then Decimal(m) else "1 / " + Decimal(-1 * (m - 2));
    assert m > 0 ==> (shown + "x")[1] == if |shown| > 1 then shown[1] else 'x';
    shown + "x"
  }

  /** The value label of the slider thumb: the same multiplier, written
      without spaces around the slash. */
  function MultiplierSliderLabel(v: int): (text: string)
    ensures |text| >= 2 && text[|text| - 1] == 'x'
    ensures text[1] == '/' <==> v <= 0
    ensures v > 0 ==> text == Decimal(v) + "x" && BpmMultiplier(v) == v as real
    ensures v <= 0 ==> text == "1/" + Decimal(2 - v) + "x" && BpmMultiplier(v) * (2 - v) as real == 1.0
  {
    if v > 0 then
      var digits := Decimal(v);
      assert (digits + "x")[1] == if |digits| > 1 then digits[1] else 'x';
      digits + "x"
    else "1/" + Decimal(-1 * (v - 2)) + "x"
  }
}
