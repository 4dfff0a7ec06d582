/** The brightness curve: a three-segment piecewise-linear map from the sun's
    altitude (degrees) to a brightness percentage. */
module BrightnessCurve {
  import opened Settings

  /** Target brightness for a sun altitude, before any user offset. Below the
      "sun down" altitude the result is the minimum, above the "sun high"
      altitude the maximum, and in between it is interpolated linearly. */
  function FromSun(cfg: Config, altitude: real): (b: real)
    ensures altitude <= cfg.sunDownAlt ==> b == cfg.minBrightness as real
    ensures cfg.sunDownAlt < altitude && cfg.sunHighAlt <= altitude ==> b == cfg.maxBrightness as real
    ensures cfg.minBrightness <= cfg.maxBrightness ==>
              cfg.minBrightness as real <= b <= cfg.maxBrightness as real
  {
    if altitude <= cfg.sunDownAlt then
      cfg.minBrightness as real
    else if altitude >= cfg.sunHighAlt then
      cfg.maxBrightness as real
    else
      var sunRange := cfg.sunHighAlt - cfg.sunDownAlt;
      var brightnessRange := (cfg.maxBrightness - cfg.minBrightness) as real;
      var sunProgress := (altitude - cfg.sunDownAlt) / sunRange;
      ProgressWithinRamp(altitude - cfg.sunDownAlt, sunRange);
      if cfg.minBrightness <= cfg.maxBrightness then
        ScaleWithin(sunProgress, brightnessRange);
        cfg.minBrightness as real + sunProgress * brightnessRange
      else
        cfg.minBrightness as real + sunProgress * brightnessRange
  }

  /** Brightness percentage points gained per degree of altitude on the ramp. */
  function Slope(cfg: Config): (s: real)
    requires SaneBounds(cfg)
    ensures s >= 0.0
  {
    (cfg.maxBrightness - cfg.minBrightness) as real / (cfg.sunHighAlt - cfg.sunDownAlt)
  }

  /** The altitude moved into the ramp interval [sunDownAlt, sunHighAlt]. */
  function OnRamp(cfg: Config, altitude: real): real
  {
    if altitude <= cfg.sunDownAlt then cfg.sunDownAlt
    else if altitude >= cfg.sunHighAlt then cfg.sunHighAlt
    else altitude
  }

  lemma ProgressWithinRamp(d: real, r: real)
    requires 0.0 < d < r
    ensures 0.0 < d / r < 1.0
  {
    assert d / r * r == d;
    if d / r >= 1.0 {
      ScaleMonotone(1.0, d / r, r);
    }
  }

  lemma ScaleWithin(p: real, w: real)
    requires 0.0 <= p <= 1.0 && 0.0 <= w
    ensures 0.0 <= p * w <= w
  {
    assert (1.0 - p) * w >= 0.0;
  }

  lemma ScaleMonotone(p: real, q: real, w: real)
    requires p <= q && 0.0 <= w
    ensures p * w <= q * w
  {
    assert (q - p) * w >= 0.0;
  }

  lemma DivideMonotone(x: real, y: real, r: real)
    requires x <= y && 0.0 < r
    ensures x / r <= y / r
  {
    var p, q := x / r, y / r;
    assert p * r == x && q * r == y;
    assert (q - p) * r == y - x;
  }

  /** With sane bounds, the whole curve is one straight line through
      (sunDownAlt, min) and (sunHighAlt, max), evaluated at the altitude
      moved onto the ramp. */
  lemma OnLine(cfg: Config, altitude: real)
    requires SaneBounds(cfg)
    ensures FromSun(cfg, altitude)
         == cfg.minBrightness as real + (OnRamp(cfg, altitude) - cfg.sunDownAlt) * Slope(cfg)
  {
    var r := cfg.sunHighAlt - cfg.sunDownAlt;
    var w := (cfg.maxBrightness - cfg.minBrightness) as real;
    if altitude <= cfg.sunDownAlt {
    } else if altitude >= cfg.sunHighAlt {
      assert (cfg.sunHighAlt - cfg.sunDownAlt) * (w / r) == w;
    } else {
      var d := altitude - cfg.sunDownAlt;
      assert d / r * w == d * (w / r);
    }
  }

  /** The curve never decreases as the sun rises (given min <= max). */
  lemma Monotone(cfg: Config, a: real, b: real)
    requires cfg.minBrightness <= cfg.maxBrightness
    requires a <= b
    ensures FromSun(cfg, a) <= FromSun(cfg, b)
  {
    if a <= cfg.sunDownAlt || (cfg.sunDownAlt < b && cfg.sunHighAlt <= b) {
    } else {
      assert cfg.sunDownAlt < a <= b < cfg.sunHighAlt;
      var r := cfg.sunHighAlt - cfg.sunDownAlt;
      var w := (cfg.maxBrightness - cfg.minBrightness) as real;
      var p, q := (a - cfg.sunDownAlt) / r, (b - cfg.sunDownAlt) / r;
      DivideMonotone(a - cfg.sunDownAlt, b - cfg.sunDownAlt, r);
      ScaleMonotone(p, q, w);
      assert FromSun(cfg, a) == cfg.minBrightness as real + p * w;
      assert FromSun(cfg, b) == cfg.minBrightness as real + q * w;
    }
  }

  /** The curve rises by at most Slope(cfg) per degree: a sun that moves by
      `b - a` degrees moves the target by at most `(b - a) * Slope(cfg)`. */
  lemma SlopeBound(cfg: Config, a: real, b: real)
    requires SaneBounds(cfg)
    requires a <= b
    ensures 0.0 <= FromSun(cfg, b) - FromSun(cfg, a) <= (b - a) * Slope(cfg)
  {
    OnLine(cfg, a);
    OnLine(cfg, b);
    Monotone(cfg, a, b);
    var ga, gb := OnRamp(cfg, a), OnRamp(cfg, b);
    assert gb - ga <= b - a;
    assert FromSun(cfg, b) - FromSun(cfg, a) == (gb - ga) * Slope(cfg);
    ScaleMonotone(gb - ga, b - a, Slope(cfg));
  }

  /** With the default configuration, at 12 degrees the sun is half-way up
      the ramp from -6 to 30 degrees, so the target is half-way between 1
      and 100. */
  lemma DefaultHalfWay()
    ensures FromSun(DefaultConfig, 12.0) == 50.5
  {
  }
}
