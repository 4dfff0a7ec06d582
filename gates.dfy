/** The two gates of a tick. The imminence gate predicts whether the target
    will move by more than one point within the look-ahead horizon; the
    materiality gate decides whether the new target differs enough from the
    last logged one. Together they decide whether the tick is logged and
    whether the logged baseline moves; neither stops the device write. */
module ChangeGate {
  import opened Base
  import opened Settings
  import opened BrightnessCurve

  /** Imminence gate. `now` and `later` are the sun altitudes at the current
      time and at the end of the horizon; None stands for any failure while
      obtaining them, in which case the gate fails open. The user offset is
      added to both targets and so cancels out. */
  function ChangeSoon(cfg: Config, offset: real, now: Option<real>, later: Option<real>): (soon: bool)
    ensures now.None? || later.None? ==> soon
    ensures now.Some? && later.Some? ==>
              (soon <==> Abs(FromSun(cfg, later.value) - FromSun(cfg, now.value)) > 1.0)
  {
    match (now, later)
    case (Some(n), Some(l)) =>
      var currentBrightness := FromSun(cfg, n) + offset;
      var futureBrightness := FromSun(cfg, l) + offset;
      Abs(futureBrightness - currentBrightness) > 1.0
    case _ => true
  }

  /** A sun that moves by no more than the ramp width divided by the
      brightness range cannot trigger the imminence gate: the curve gains at
      most Slope(cfg) points per degree. */
  lemma QuietWhileSunBarelyMoves(cfg: Config, offset: real, now: real, later: real)
    requires SaneBounds(cfg)
    requires Abs(later - now) * Slope(cfg) <= 1.0
    ensures !ChangeSoon(cfg, offset, Some(now), Some(later))
  {
    if now <= later {
      assert Abs(later - now) == later - now;
      CloseOnTheWayUp(cfg, now, later);
    } else {
      assert Abs(later - now) == now - later;
      CloseOnTheWayUp(cfg, later, now);
    }
  }

  lemma CloseOnTheWayUp(cfg: Config, a: real, b: real)
    requires SaneBounds(cfg)
    requires a <= b && (b - a) * Slope(cfg) <= 1.0
    ensures Abs(FromSun(cfg, b) - FromSun(cfg, a)) <= 1.0
    ensures Abs(FromSun(cfg, a) - FromSun(cfg, b)) <= 1.0
  {
    SlopeBound(cfg, a, b);
    WithinOnePoint(FromSun(cfg, a), FromSun(cfg, b), (b - a) * Slope(cfg));
  }

  lemma WithinOnePoint(x: real, y: real, bound: real)
    requires 0.0 <= y - x <= bound <= 1.0
    ensures Abs(y - x) <= 1.0 && Abs(x - y) <= 1.0
  {
  }

  /** Materiality gate: true when nothing was logged yet, or when the new
      target lies outside the band of half a point around the last logged
      target. */
  function Material(lastLogged: Option<real>, finalBrightness: real): (changed: bool)
    ensures lastLogged.None? ==> changed
    ensures lastLogged.Some? ==>
              (changed <==>
                 (finalBrightness < lastLogged.value - 0.5 || lastLogged.value + 0.5 < finalBrightness))
  {
    lastLogged.None? || Abs(finalBrightness - lastLogged.value) > 0.5
  }
}
