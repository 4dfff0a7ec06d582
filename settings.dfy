/** The configuration the controller reads: brightness bounds, the two sun
    altitudes that delimit the ramp, the manual-change tolerance and the
    ordered list of devices. */
module Settings {

  /** A configured display. The source knows two kinds; any other `type`
      string yields no command at all. */
  datatype Device = Laptop | Monitor(id: int) | Unrecognised

  datatype Config = Config(
    minBrightness: int,
    maxBrightness: int,
    sunDownAlt: real,
    sunHighAlt: real,
    manualChangeTolerance: real,
    devices: seq<Device>)

  /** The configuration written on first start. */
  const DefaultConfig: Config :=
    Config(1, 100, -6.0, 30.0, 2.0, [Laptop, Monitor(1)])

  /** Bounds that make sense: a non-empty brightness range and a ramp of
      positive width. The source does not check this; it is an assumption of
      the lemmas that need it. */
  predicate SaneBounds(cfg: Config)
  {
    cfg.minBrightness <= cfg.maxBrightness && cfg.sunDownAlt < cfg.sunHighAlt
  }
}
