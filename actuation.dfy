/** Actuation: turning a real brightness into the integer percentage that is
    sent to every configured device, and aggregating the per-device outcome. */
module Actuation {
  import opened Base
  import opened Settings

  /** Python's `int(x)` on a float: truncation toward zero. */
  function Trunc(x: real): (t: int)
    ensures 0.0 <= x ==> t as real <= x < t as real + 1.0
    ensures x < 0.0 ==> t as real - 1.0 < x <= t as real
  {
    if x >= 0.0 then x.Floor else -((-x).Floor)
  }

  /** `max(lo, min(hi, x))`. */
  function Clamp(lo: int, hi: int, x: int): (c: int)
    ensures lo <= hi ==> lo <= c <= hi
    ensures lo <= x <= hi ==> c == x
    ensures x < lo ==> c == lo
    ensures lo <= hi && hi < x ==> c == hi
  {
    var upper := if hi < x then hi else x;
    if lo < upper then upper else lo
  }

  /** The percentage actually sent to the devices for a computed brightness. */
  function Actuated(cfg: Config, percentage: real): (v: int)
    ensures cfg.minBrightness <= cfg.maxBrightness ==>
              cfg.minBrightness <= v <= cfg.maxBrightness
    ensures cfg.minBrightness <= Trunc(percentage) <= cfg.maxBrightness ==>
              v == Trunc(percentage)
  {
    Clamp(cfg.minBrightness, cfg.maxBrightness, Trunc(percentage))
  }

  /** A brighter target never yields a darker actuated value. */
  lemma ActuatedMonotone(cfg: Config, p: real, q: real)
    requires p <= q
    ensures Actuated(cfg, p) <= Actuated(cfg, q)
  {
  }

  /** Half points are dropped, not rounded: 50.5 is sent as 50, and a
      negative target is raised to the minimum. */
  lemma TruncatesHalfPoints()
    ensures Actuated(DefaultConfig, 50.5) == 50
    ensures Actuated(DefaultConfig, -0.7) == 1
  {
  }

  /** The external command that sets one device to `percent`, if the device's
      kind is known. */
  datatype Command =
    | BrightnessctlSet(percent: int)
    | DdcutilSetVcp(display: int, percent: int)

  function CommandFor(d: Device, percent: int): (c: Option<Command>)
    ensures c.None? <==> d.Unrecognised?
    ensures c.Some? ==> c.value.percent == percent
    ensures c.Some? ==> (c.value.DdcutilSetVcp? <==> d.Monitor?)
    ensures d.Monitor? ==> c.value.display == d.id
  {
    match d
    case Laptop => Some(BrightnessctlSet(percent))
    case Monitor(id) => Some(DdcutilSetVcp(id, percent))
    case Unrecognised => None
  }

  /** The commands issued, in device order, when every device is set to
      `percent`. */
  function Commands(ds: seq<Device>, percent: int): seq<Command>
  {
    if ds == [] then []
    else
      var init := Commands(ds[..|ds| - 1], percent);
      match CommandFor(ds[|ds| - 1], percent)
      case Some(c) => init + [c]
      case None => init
  }

  /** Number of devices of a known kind. */
  function Recognised(ds: seq<Device>): nat
  {
    if ds == [] then 0
    else Recognised(ds[..|ds| - 1]) + (if ds[|ds| - 1].Unrecognised? then 0 else 1)
  }

  /** One command per device of known kind, each carrying the same value. */
  lemma {:induction false} CommandsCoverDevices(ds: seq<Device>, percent: int)
    ensures |Commands(ds, percent)| == Recognised(ds)
    ensures forall c :: c in Commands(ds, percent) ==> c.percent == percent
  {
    if ds != [] {
      CommandsCoverDevices(ds[..|ds| - 1], percent);
    }
  }

  /** Commands follow the device list: the commands for two lists one after
      the other are the first list's commands followed by the second's. With
      the single-device case (the device's own CommandFor, or nothing) this
      fixes every command and its position. */
  lemma {:induction false} CommandsInDeviceOrder(a: seq<Device>, b: seq<Device>, percent: int)
    ensures Commands(a + b, percent) == Commands(a, percent) + Commands(b, percent)
  {
    if b == [] {
      assert a + b == a;
    } else {
      var n := |b| - 1;
      CommandsInDeviceOrder(a, b[..n], percent);
      assert (a + b)[..|a + b| - 1] == a + b[..n];
      assert (a + b)[|a + b| - 1] == b[n];
    }
  }

  /** A single device contributes its own command, if it has one. */
  lemma CommandsOfOne(d: Device, percent: int)
    ensures Commands([d], percent) == if d.Unrecognised? then [] else [CommandFor(d, percent).value]
  {
    assert [d][..0] == [];
  }

  /** A device write succeeds when its command ran without error; a device
      with no command cannot fail. */
  predicate WriteSucceeded(d: Device, ok: bool)
  {
    d.Unrecognised? || ok
  }

  /** The success flag after trying every device in turn. */
  function AllWritesSucceed(ds: seq<Device>, outcomes: seq<bool>): bool
    requires |outcomes| == |ds|
  {
    if ds == [] then true
    else
      AllWritesSucceed(ds[..|ds| - 1], outcomes[..|ds| - 1])
      && WriteSucceeded(ds[|ds| - 1], outcomes[|ds| - 1])
  }

  /** The aggregate succeeds exactly when no single device failed. */
  lemma {:induction false} AllWritesSucceedIff(ds: seq<Device>, outcomes: seq<bool>)
    requires |outcomes| == |ds|
    ensures AllWritesSucceed(ds, outcomes)
        <==> forall i :: 0 <= i < |ds| ==> WriteSucceeded(ds[i], outcomes[i])
  {
    if ds != [] {
      var n := |ds| - 1;
      AllWritesSucceedIff(ds[..n], outcomes[..n]);
      assert forall i :: 0 <= i < n ==> ds[..n][i] == ds[i] && outcomes[..n][i] == outcomes[i];
    }
  }

  /** Set every configured device to the clamped, truncated percentage.
      `outcomes[i]` is whether device i's command ran without error. Every
      device is tried, even after an earlier one failed; the result is the
      value written if all succeeded and None otherwise. */
  method SetBrightness(cfg: Config, percentage: real, outcomes: seq<bool>)
    returns (written: Option<int>, issued: seq<Command>)
    requires |outcomes| == |cfg.devices|
    ensures issued == Commands(cfg.devices, Actuated(cfg, percentage))
    ensures written == if AllWritesSucceed(cfg.devices, outcomes)
                       then Some(Actuated(cfg, percentage)) else None
  {
    var value := Clamp(cfg.minBrightness, cfg.maxBrightness, Trunc(percentage));
    var successFlag := true;
    issued := [];
    for i := 0 to |cfg.devices|
      invariant issued == Commands(cfg.devices[..i], value)
      invariant successFlag == AllWritesSucceed(cfg.devices[..i], outcomes[..i])
    {
      assert cfg.devices[..i + 1][..i] == cfg.devices[..i];
      assert outcomes[..i + 1][..i] == outcomes[..i];
      match CommandFor(cfg.devices[i], value)
      case Some(c) =>
        issued := issued + [c];
        if !outcomes[i] {
          successFlag := false;
        }
      case None =>
    }
    assert cfg.devices[..|cfg.devices|] == cfg.devices;
    assert outcomes[..|outcomes|] == outcomes;
    written := if successFlag then Some(value) else None;
  }
}
