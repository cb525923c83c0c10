/** The reconnection backoff (internal/streaming/stream.go:140-234). Durations are in nanoseconds. */
module Backoff {

  /** Float multiplication is modelled exactly. */
  datatype Config = Config(initial: int, max: int, multiplier: real, maxRetries: int)

  const MILLISECOND := 1_000_000
  const SECOND := 1_000_000_000
  const DEFAULT_CONFIG := Config(100 * MILLISECOND, 30 * SECOND, 1.5, 0)

  /** The conversion of a float to a Duration cuts towards zero. */
  function Truncate(x: real): int {
    if x >= 0.0 then x.Floor else -(-x).Floor
  }

  function Stretch(cfg: Config, x: real): real {
    x * cfg.multiplier
  }

  function Cut(cfg: Config, x: real): int {
    if Truncate(x) > cfg.max then cfg.max else Truncate(x)
  }

  /** The backoff after a failed dial that waited `b`. */
  function Next(cfg: Config, b: int): int {
    Cut(cfg, Stretch(cfg, b as real))
  }

  /** The product loses its fraction, not more and towards zero on either side, and is then cut at the maximum. */
  lemma NextCutsTowardZero(cfg: Config, b: int) returns (n: int)
    ensures var x := b as real * cfg.multiplier;
            if x >= 0.0 then 0 <= n && n as real <= x < n as real + 1.0
            else n <= 0 && n as real - 1.0 < x <= n as real
    ensures Next(cfg, b) == if n > cfg.max then cfg.max else n
  {
    n := Truncate(b as real * cfg.multiplier);
  }

  /** The backoff after k failed dials in a row. */
  function After(cfg: Config, k: nat): (b: int)
    ensures k > 0 ==> b <= cfg.max
  {
    if k == 0 then cfg.initial else Next(cfg, After(cfg, k - 1))
  }

  function Pow(x: real, k: nat): real {
    if k == 0 then 1.0 else x * Pow(x, k - 1)
  }

  ghost predicate Sensible(cfg: Config) {
    0 <= cfg.initial <= cfg.max && cfg.multiplier >= 1.0
  }

  // ---------------------------------------------------------------- one step

  lemma StretchGrows(cfg: Config, x: real, y: real)
    requires cfg.multiplier >= 1.0 && x <= y
    ensures Stretch(cfg, x) <= Stretch(cfg, y)
    ensures Stretch(cfg, y) - Stretch(cfg, x) >= y - x
    ensures x >= 0.0 ==> Stretch(cfg, x) >= x
  {
    assert (y - x) * (cfg.multiplier - 1.0) >= 0.0;
    assert x >= 0.0 ==> x * (cfg.multiplier - 1.0) >= 0.0;
  }

  lemma CutBounds(cfg: Config, b: int, x: real)
    requires Sensible(cfg) && 0 <= b <= cfg.max && b as real <= x
    ensures b <= Cut(cfg, x) <= cfg.max && Cut(cfg, x) as real <= x
    ensures Cut(cfg, x) == cfg.max || x - 1.0 < Cut(cfg, x) as real
  {
  }

  lemma NextBounds(cfg: Config, b: int)
    requires Sensible(cfg) && 0 <= b <= cfg.max
    ensures var x, n := Stretch(cfg, b as real), Next(cfg, b);
            b <= n <= cfg.max && n as real <= x && (n == cfg.max || x - 1.0 < n as real)
  {
    StretchGrows(cfg, b as real, b as real);
    CutBounds(cfg, b, Stretch(cfg, b as real));
  }

  // ---------------------------------------------------------------- bounds

  lemma {:induction false} StaysInBounds(cfg: Config, k: nat)
    requires Sensible(cfg)
    ensures cfg.initial <= After(cfg, k) <= After(cfg, k + 1) <= cfg.max
  {
    if k > 0 {
      StaysInBounds(cfg, k - 1);
    }
    NextBounds(cfg, After(cfg, k));
  }

  lemma Product(x: real, y: real)
    requires x >= 0.0 && y >= 0.0
    ensures x * y >= 0.0
  {
  }

  lemma TruncateGrows(x: real, y: real)
    requires x <= y
    ensures Truncate(x) <= Truncate(y)
  {
  }

  lemma CutGrows(cfg: Config, x: real, y: real)
    requires x <= y
    ensures Cut(cfg, x) <= Cut(cfg, y) <= cfg.max
  {
    TruncateGrows(x, y);
  }

  /** The step is monotone for a multiplier that is not negative, and antitone for one that is. */
  lemma NextIsMonotone(cfg: Config, b: int, c: int)
    requires b <= c
    ensures cfg.multiplier >= 0.0 ==> Next(cfg, b) <= Next(cfg, c) <= cfg.max
    ensures cfg.multiplier < 0.0 ==> Next(cfg, c) <= Next(cfg, b) <= cfg.max
  {
    var x, y := Stretch(cfg, b as real), Stretch(cfg, c as real);
    assert y - x == (c - b) as real * cfg.multiplier;
    if cfg.multiplier >= 0.0 {
      Product((c - b) as real, cfg.multiplier);
      CutGrows(cfg, x, y);
    } else {
      Product((c - b) as real, -cfg.multiplier);
      assert (c - b) as real * -cfg.multiplier == -((c - b) as real * cfg.multiplier);
      CutGrows(cfg, y, x);
    }
  }

  /** The next wait is not shorter, and neither is the one after it, unless the two are equal. */
  ghost predicate Rises(cfg: Config, k: nat) {
    && After(cfg, k) <= After(cfg, k + 1)
    && (cfg.multiplier < 0.0 ==> After(cfg, k + 1) == After(cfg, k + 2))
  }

  lemma {:induction false} KeepsRising(cfg: Config, k: nat)
    requires After(cfg, 0) <= After(cfg, 1) <= After(cfg, 2)
    ensures Rises(cfg, k)
  {
    if k == 0 {
      NextIsMonotone(cfg, After(cfg, 0), After(cfg, 1));
    } else {
      KeepsRising(cfg, k - 1);
      NextIsMonotone(cfg, After(cfg, k - 1), After(cfg, k));
    }
  }

  lemma FirstStepRisesIff(cfg: Config)
    requires cfg.initial >= 0
    ensures After(cfg, 0) <= After(cfg, 1) <==> cfg.initial <= cfg.max && (cfg.initial == 0 || cfg.multiplier >= 1.0)
  {
    var b := cfg.initial as real;
    assert After(cfg, 1) == Next(cfg, After(cfg, 0));
    if cfg.multiplier >= 1.0 {
      Product(b, cfg.multiplier - 1.0);
      assert Stretch(cfg, b) - b == b * (cfg.multiplier - 1.0);
    } else if cfg.initial > 0 {
      StretchShrinks(cfg, b);
    }
  }

  lemma StretchShrinks(cfg: Config, b: real)
    requires b > 0.0 && cfg.multiplier < 1.0
    ensures Stretch(cfg, b) < b
  {
    PositiveProduct(b, 1.0 - cfg.multiplier);
    assert b - Stretch(cfg, b) == b * (1.0 - cfg.multiplier);
  }

  lemma PositiveProduct(x: real, y: real)
    requires x > 0.0 && y > 0.0
    ensures x * y > 0.0
  {
  }

  ghost predicate NeverShrinks(cfg: Config) {
    forall k: nat :: After(cfg, k) <= After(cfg, k + 1)
  }

  /** For every configuration: the backoff never shrinks while dials fail exactly when it does not in two steps. */
  lemma {:induction false} NeverShrinksIff(cfg: Config)
    ensures NeverShrinks(cfg) <==> After(cfg, 0) <= After(cfg, 1) <= After(cfg, 2)
  {
    if After(cfg, 0) <= After(cfg, 1) <= After(cfg, 2) {
      forall k: nat ensures After(cfg, k) <= After(cfg, k + 1) {
        KeepsRising(cfg, k);
      }
    }
    assert After(cfg, 0) <= After(cfg, 0 + 1) && After(cfg, 1) <= After(cfg, 1 + 1) <==>
           After(cfg, 0) <= After(cfg, 1) <= After(cfg, 2);
  }

  lemma SecondStepRises(cfg: Config)
    requires cfg.initial >= 0 && After(cfg, 0) <= After(cfg, 1)
    ensures After(cfg, 1) <= After(cfg, 2)
  {
    FirstStepRisesIff(cfg);
    if cfg.multiplier >= 1.0 {
      NextIsMonotone(cfg, After(cfg, 0), After(cfg, 1));
    } else {
      assert After(cfg, 1) == 0 && After(cfg, 2) == 0;
    }
  }

  /**
   * With an initial backoff that is not negative, it never shrinks exactly when it starts at most at the maximum and
   * the multiplier is at least one, or it starts at zero.
   */
  lemma {:induction false} NeverShrinksWhen(cfg: Config)
    requires cfg.initial >= 0
    ensures NeverShrinks(cfg) <==> cfg.initial <= cfg.max && (cfg.initial == 0 || cfg.multiplier >= 1.0)
  {
    NeverShrinksIff(cfg);
    FirstStepRisesIff(cfg);
    if After(cfg, 0) <= After(cfg, 1) {
      SecondStepRises(cfg);
    }
  }

  function Power(cfg: Config, k: nat, x: real): real {
    Pow(cfg.multiplier, k) * x
  }

  lemma PowerStep(cfg: Config, k: nat, x: real)
    requires k > 0
    ensures Power(cfg, k, x) == Stretch(cfg, Power(cfg, k - 1, x))
  {
    var m, p := cfg.multiplier, Pow(cfg.multiplier, k - 1);
    assert m * p * x == p * x * m;
  }

  lemma CutAtMost(cfg: Config, x: real, bound: real)
    requires x <= bound && 0.0 <= bound
    ensures Cut(cfg, x) as real <= bound
  {
  }

  lemma NextAtMost(cfg: Config, b: int, bound: real)
    requires cfg.multiplier >= 0.0 && b as real <= bound && 0.0 <= bound
    ensures Next(cfg, b) as real <= Stretch(cfg, bound) && 0.0 <= Stretch(cfg, bound)
  {
    Product(bound, cfg.multiplier);
    Product(bound - b as real, cfg.multiplier);
    assert Stretch(cfg, bound) - Stretch(cfg, b as real) == (bound - b as real) * cfg.multiplier;
    CutAtMost(cfg, Stretch(cfg, b as real), Stretch(cfg, bound));
  }

  lemma {:induction false} PowerIsNotNegative(cfg: Config, k: nat, x: real)
    requires cfg.multiplier >= 0.0 && x >= 0.0
    ensures Power(cfg, k, x) >= 0.0
  {
    if k > 0 {
      PowerIsNotNegative(cfg, k - 1, x);
      PowerStep(cfg, k, x);
      Product(Power(cfg, k - 1, x), cfg.multiplier);
    }
  }

  /** Truncation never makes the wait longer than exact multiplication would. */
  lemma {:induction false} AtMostExponential(cfg: Config, k: nat)
    requires cfg.multiplier >= 0.0
    requires cfg.initial >= 0
    ensures Power(cfg, k, cfg.initial as real) >= After(cfg, k) as real
  {
    if k > 0 {
      AtMostExponential(cfg, k - 1);
      PowerIsNotNegative(cfg, k - 1, cfg.initial as real);
      NextAtMost(cfg, After(cfg, k - 1), Power(cfg, k - 1, cfg.initial as real));
      PowerStep(cfg, k, cfg.initial as real);
    }
  }

  /** The distance of a wait from the one that a step losing a whole nanosecond would not change. */
  function Gap(cfg: Config, x: real): real {
    (cfg.multiplier - 1.0) * x - 1.0
  }

  lemma GapStep(cfg: Config, x: real, y: real)
    requires cfg.multiplier >= 1.0 && y >= Stretch(cfg, x) - 1.0
    ensures Gap(cfg, y) >= Stretch(cfg, Gap(cfg, x))
  {
    var m, low := cfg.multiplier, Stretch(cfg, x) - 1.0;
    Product(m - 1.0, y - low);
    assert (m - 1.0) * y == (m - 1.0) * (y - low) + (m - 1.0) * low;
    assert Gap(cfg, low) == Stretch(cfg, Gap(cfg, x));
  }

  lemma {:induction false} StaysAtMax(cfg: Config, k: nat)
    requires cfg.multiplier >= 1.0 && 0 <= cfg.max < cfg.initial && k > 0
    ensures After(cfg, k) == cfg.max
  {
    var b := After(cfg, k - 1);
    if k > 1 {
      StaysAtMax(cfg, k - 1);
    }
    StretchGrows(cfg, b as real, b as real);
  }

  /** Below the maximum truncation costs at most one nanosecond a step, so the gap grows exponentially. */
  lemma {:induction false} AtLeastExponential(cfg: Config, k: nat)
    requires cfg.multiplier >= 1.0 && 0 <= cfg.initial && 0 <= cfg.max
    ensures After(cfg, k) == cfg.max || Gap(cfg, After(cfg, k) as real) >= Power(cfg, k, Gap(cfg, cfg.initial as real))
  {
    if cfg.initial > cfg.max {
      if k > 0 {
        StaysAtMax(cfg, k);
      }
    } else if k > 0 {
      var b, start := After(cfg, k - 1), Gap(cfg, cfg.initial as real);
      AtLeastExponential(cfg, k - 1);
      StaysInBounds(cfg, k - 1);
      NextBounds(cfg, b);
      if After(cfg, k) != cfg.max {
        GapStep(cfg, b as real, After(cfg, k) as real);
        StretchGrows(cfg, Power(cfg, k - 1, start), Gap(cfg, b as real));
        PowerStep(cfg, k, start);
      }
    }
  }

  /** What a multiplier below one leaves, counted from where a step that loses a whole nanosecond would end. */
  function Fade(cfg: Config, x: real): real {
    (1.0 - cfg.multiplier) * x + 1.0
  }

  lemma FadeStep(cfg: Config, x: real, y: real)
    requires 0.0 <= cfg.multiplier < 1.0 && y >= Stretch(cfg, x) - 1.0
    ensures Fade(cfg, y) >= Stretch(cfg, Fade(cfg, x))
  {
    var m, low := cfg.multiplier, Stretch(cfg, x) - 1.0;
    Product(1.0 - m, y - low);
    assert (1.0 - m) * y == (1.0 - m) * (y - low) + (1.0 - m) * low;
    assert Fade(cfg, low) == Stretch(cfg, Fade(cfg, x));
  }

  lemma FadingBounds(cfg: Config, b: int)
    requires 0.0 <= cfg.multiplier < 1.0 && 0 <= b <= cfg.max
    ensures 0 <= Next(cfg, b) <= b && Next(cfg, b) as real > Stretch(cfg, b as real) - 1.0
  {
    Product(b as real, cfg.multiplier);
    Product(b as real, 1.0 - cfg.multiplier);
    assert b as real - Stretch(cfg, b as real) == b as real * (1.0 - cfg.multiplier);
  }

  lemma MultiplyBoth(cfg: Config, x: real, y: real)
    requires cfg.multiplier >= 0.0 && x <= y
    ensures Stretch(cfg, x) <= Stretch(cfg, y)
  {
    Product(y - x, cfg.multiplier);
    assert Stretch(cfg, y) - Stretch(cfg, x) == (y - x) * cfg.multiplier;
  }

  /** With a multiplier below one the wait only shrinks, and again truncation costs at most a nanosecond a step. */
  lemma {:induction false} FadesExponentially(cfg: Config, k: nat)
    requires 0.0 <= cfg.multiplier < 1.0 && 0 <= cfg.initial <= cfg.max
    ensures 0 <= After(cfg, k) <= cfg.initial
    ensures Fade(cfg, After(cfg, k) as real) >= Power(cfg, k, Fade(cfg, cfg.initial as real))
  {
    if k > 0 {
      var b, start := After(cfg, k - 1), Fade(cfg, cfg.initial as real);
      FadesExponentially(cfg, k - 1);
      FadingBounds(cfg, b);
      FadeStep(cfg, b as real, After(cfg, k) as real);
      MultiplyBoth(cfg, Power(cfg, k - 1, start), Fade(cfg, b as real));
      PowerStep(cfg, k, start);
    }
  }

  function Min(x: real, y: real): real {
    if x < y then x else y
  }

  lemma HalfStep(cfg: Config, b: int)
    requires cfg.multiplier == 1.5 && 1 <= b <= cfg.max
    ensures Next(cfg, b) == cfg.max || (Next(cfg, b) - 1) as real >= Stretch(cfg, (b - 1) as real)
  {
    assert Stretch(cfg, b as real) == (3 * b) as real / 2.0;
    assert Truncate((3 * b) as real / 2.0) >= 3 * b / 2;
  }

  lemma {:induction false} DefaultMultiplierLower(cfg: Config, k: nat)
    requires cfg.multiplier == 1.5 && 1 <= cfg.initial <= cfg.max
    ensures After(cfg, k) == cfg.max || (After(cfg, k) - 1) as real >= Power(cfg, k, (cfg.initial - 1) as real)
  {
    if k > 0 {
      DefaultMultiplierLower(cfg, k - 1);
      StaysInBounds(cfg, k - 1);
      StaysInBounds(cfg, k);
      HalfStep(cfg, After(cfg, k - 1));
      if After(cfg, k) != cfg.max {
        StretchGrows(cfg, Power(cfg, k - 1, (cfg.initial - 1) as real), (After(cfg, k - 1) - 1) as real);
        PowerStep(cfg, k, (cfg.initial - 1) as real);
      }
    }
  }

  /** With the default multiplier the wait stays between two exponentials, both cut at the maximum. */
  lemma {:induction false} DefaultMultiplierBounds(cfg: Config, k: nat)
    requires cfg.multiplier == 1.5 && 1 <= cfg.initial <= cfg.max
    ensures Min(cfg.max as real, 1.0 + Power(cfg, k, (cfg.initial - 1) as real)) <= After(cfg, k) as real
    ensures After(cfg, k) as real <= Min(cfg.max as real, Power(cfg, k, cfg.initial as real))
  {
    AtMostExponential(cfg, k);
    StaysInBounds(cfg, k);
    DefaultMultiplierLower(cfg, k);
  }

  // ---------------------------------------------------------------- does it reach the maximum

  /** The first multiplication gains at least a nanosecond. */
  ghost predicate Climbs(cfg: Config) {
    Stretch(cfg, cfg.initial as real) >= cfg.initial as real + 1.0
  }

  lemma {:induction false} ClimbsByOne(cfg: Config, k: nat)
    requires Sensible(cfg) && Climbs(cfg)
    ensures After(cfg, k) == cfg.max || After(cfg, k) >= cfg.initial + k
  {
    if k > 0 {
      ClimbsByOne(cfg, k - 1);
      StaysInBounds(cfg, k - 1);
      StretchGrows(cfg, cfg.initial as real, After(cfg, k - 1) as real);
      NextBounds(cfg, After(cfg, k - 1));
    }
  }

  lemma {:induction false} StandsStill(cfg: Config, k: nat)
    requires Sensible(cfg) && !Climbs(cfg)
    ensures After(cfg, k) == cfg.initial
  {
    if k > 0 {
      StandsStill(cfg, k - 1);
      NextBounds(cfg, cfg.initial);
    }
  }

  lemma {:induction false} FadesBelowMax(cfg: Config, k: nat)
    requires 0.0 <= cfg.multiplier < 1.0 && cfg.initial >= 0 && k > 0
    requires 0 <= After(cfg, 1) < cfg.max
    ensures 0 <= After(cfg, k) < cfg.max
  {
    if k > 1 {
      FadesBelowMax(cfg, k - 1);
      FadingBounds(cfg, After(cfg, k - 1));
    }
  }

  lemma FirstStep(cfg: Config)
    requires cfg.multiplier >= 0.0 && cfg.initial >= 0
    ensures After(cfg, 1) == cfg.max <==> Stretch(cfg, cfg.initial as real) >= cfg.max as real
    ensures After(cfg, 1) != cfg.max ==> 0 <= After(cfg, 1) < cfg.max
  {
    Product(cfg.initial as real, cfg.multiplier);
    assert After(cfg, 1) == Next(cfg, After(cfg, 0));
  }

  lemma FadingStart(cfg: Config)
    requires 0.0 <= cfg.multiplier < 1.0 && cfg.initial >= 0
    ensures Stretch(cfg, cfg.initial as real) <= cfg.initial as real && !Climbs(cfg)
  {
    Product(cfg.initial as real, 1.0 - cfg.multiplier);
    assert cfg.initial as real - Stretch(cfg, cfg.initial as real) == cfg.initial as real * (1.0 - cfg.multiplier);
  }

  lemma ReachesMaxAbove(cfg: Config)
    requires 0.0 <= cfg.multiplier && cfg.initial >= 0 && cfg.initial > cfg.max
    ensures (exists k :: After(cfg, k) == cfg.max) <==> Stretch(cfg, cfg.initial as real) >= cfg.max as real
  {
    FirstStep(cfg);
    if After(cfg, 1) != cfg.max {
      if cfg.multiplier >= 1.0 {
        StretchGrows(cfg, cfg.initial as real, cfg.initial as real);
      }
      forall k: nat ensures After(cfg, k) != cfg.max {
        if k > 0 {
          FadesBelowMax(cfg, k);
        }
      }
    }
  }

  lemma ReachesMaxBelow(cfg: Config)
    requires 0.0 <= cfg.multiplier < 1.0 && 0 <= cfg.initial < cfg.max
    ensures forall k: nat :: After(cfg, k) != cfg.max
  {
    FirstStep(cfg);
    FadingStart(cfg);
    forall k: nat ensures After(cfg, k) != cfg.max {
      if k > 0 {
        FadesBelowMax(cfg, k);
      }
    }
  }

  /**
   * For an initial backoff and a multiplier that are not negative: the wait reaches the maximum exactly when it starts
   * there, or starts above it and one multiplication does not lead below it, or starts below it and the first
   * multiplication gains a nanosecond.
   */
  lemma {:induction false} ReachesMaxIff(cfg: Config)
    requires cfg.initial >= 0 && cfg.multiplier >= 0.0
    ensures (exists k :: After(cfg, k) == cfg.max) <==>
            || cfg.initial == cfg.max
            || (cfg.initial > cfg.max && Stretch(cfg, cfg.initial as real) >= cfg.max as real)
            || (cfg.initial < cfg.max && Climbs(cfg))
  {
    var zero: nat := 0;
    assert After(cfg, zero) == cfg.initial;
    if cfg.initial > cfg.max {
      ReachesMaxAbove(cfg);
    } else if cfg.multiplier >= 1.0 {
      ReachesMaxSensibly(cfg);
    } else if cfg.initial < cfg.max {
      ReachesMaxBelow(cfg);
      FadingStart(cfg);
    }
  }

  lemma ReachesMaxSensibly(cfg: Config)
    requires Sensible(cfg)
    ensures (exists k :: After(cfg, k) == cfg.max) <==> cfg.initial == cfg.max || Climbs(cfg)
  {
    if cfg.initial == cfg.max {
      assert After(cfg, 0) == cfg.max;
    } else if Climbs(cfg) {
      var k := cfg.max - cfg.initial;
      ClimbsByOne(cfg, k);
      StaysInBounds(cfg, k);
      assert After(cfg, k) == cfg.max;
    } else {
      forall k: nat ensures After(cfg, k) != cfg.max {
        StandsStill(cfg, k);
      }
    }
  }

  /** With the default configuration it takes exactly 15 failed dials. */
  lemma DefaultReachesMaxAfter15()
    ensures After(DEFAULT_CONFIG, 15) == DEFAULT_CONFIG.max
    ensures After(DEFAULT_CONFIG, 14) < DEFAULT_CONFIG.max
  {
    var c := DEFAULT_CONFIG;
    assert After(c, 1) == 150_000_000;
    assert After(c, 2) == 225_000_000;
    assert After(c, 3) == 337_500_000;
    assert After(c, 4) == 506_250_000;
    assert After(c, 5) == 759_375_000;
    assert After(c, 6) == 1_139_062_500;
    assert After(c, 7) == 1_708_593_750;
    assert After(c, 8) == 2_562_890_625;
    assert After(c, 9) == 3_844_335_937;
    assert After(c, 10) == 5_766_503_905;
    assert After(c, 11) == 8_649_755_857;
    assert After(c, 12) == 12_974_633_785;
    assert After(c, 13) == 19_461_950_677;
    assert After(c, 14) == 29_192_926_015;
  }
}
