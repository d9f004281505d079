/** The durable light record: nine bytes of version 3, and the five-byte version 2 it migrates from. */
module Record {
  import opened Basics
  import opened Light

  /** Start-up policy; `power` is 1 for an explicit Off and 0 for Restore. */
  datatype Startup = Startup(power: byte, level: Option<byte>, temperature: Option<Temperature>)
  {
    /** The setters accept no other power than 0 or 1 and no level 255. */
    predicate Valid() { power <= 1 && level != Some(255) }
  }

  const DEFAULT_STARTUP: Startup := Startup(0, None, None)

  datatype Saved = Saved(intended: LightState, startup: Startup, migrated: bool)

  const DEFAULT_SAVED: Saved := Saved(DEFAULT_STATE, DEFAULT_STARTUP, false)

  function ToLe(v: int): (r: seq<byte>)
    requires 0 <= v <= U16_MAX
    ensures |r| == 2
  {
    [v % 256, v / 256]
  }

  function FromLe(lo: byte, hi: byte): nat { lo + 256 * hi }

  function Encode(state: LightState, startup: Startup): seq<byte>
  {
    [3, if state.on then 1 else 0, state.level]
    + ToLe(state.temperature)
    + [startup.power, if startup.level.Some? then startup.level.value else 255]
    + ToLe(if startup.temperature.Some? then startup.temperature.value else 0)
  }

  function DecodeV3(b: seq<byte>): Option<Saved>
    requires |b| == 9 && b[0] == 3
  {
    var temperature := FromLe(b[3], b[4]);
    var startupTemperature := FromLe(b[7], b[8]);
    if b[1] > 1 || !IsLevel(b[2]) || b[5] > 3 then None
    else if !IsTemperature(temperature) then None
    else if startupTemperature != 0 && !IsTemperature(startupTemperature) then None
    else
      Some(Saved(
        LightState(b[1] != 0, b[2], temperature),
        Startup(
          if b[5] == 1 then 1 else 0,
          if b[6] != 255 then Some(b[6]) else None,
          if startupTemperature == 0 then None else Some(startupTemperature)),
        b[5] > 1))
  }

  function DecodeV2(b: seq<byte>): Option<Saved>
    requires |b| == 5 && b[0] == 2
  {
    if b[1] > 1 || b[2] > 1 || b[3] > 3 || b[4] > 3 then None
    else
      Some(Saved(
        DEFAULT_STATE.(on := b[1] != 0, temperature := if b[2] == 0 then 303 else 200),
        DEFAULT_STARTUP.(power := if (if b[2] == 0 then b[3] else b[4]) == 1 then 1 else 0),
        true))
  }

  /** `None` is the invalid-record fault. Accepted bytes only ever yield admissible start-up settings. */
  function Decode(b: seq<byte>): (r: Option<Saved>)
    ensures r.Some? ==> r.value.startup.Valid()
  {
    if |b| == 9 && b[0] == 3 then DecodeV3(b)
    else if |b| == 5 && b[0] == 2 then DecodeV2(b)
    else None
  }

  /** The `expect` on the start-up level is the precondition: 255 never gets past the codec or the setters. */
  function StartupIntent(restored: LightState, startup: Startup): LightState
    requires startup.level != Some(255)
  {
    LightState(
      if startup.power == 1 then false else restored.on,
      if startup.level.Some? then Max(startup.level.value, 1) else restored.level,
      if startup.temperature.Some? then startup.temperature.value else restored.temperature)
  }

  /** Every state with admissible start-up settings survives a save and a load, unmigrated. */
  lemma DecodeEncode(state: LightState, startup: Startup)
    requires startup.Valid()
    ensures Decode(Encode(state, startup)) == Some(Saved(state, startup, false))
  {
    hide FromLe, ToLe;
    LeRoundTrip(state.temperature);
    LeRoundTrip(if startup.temperature.Some? then startup.temperature.value else 0);
  }

  lemma LeRoundTrip(v: int)
    requires 0 <= v <= U16_MAX
    ensures FromLe(ToLe(v)[0], ToLe(v)[1]) == v
  {
  }

  lemma LeInverse(lo: byte, hi: byte)
    ensures ToLe(FromLe(lo, hi)) == [lo, hi]
  {
  }

  /** The current format has exactly one spelling per value: encoding inverts decoding on unmigrated records. */
  lemma EncodeDecode(b: seq<byte>)
    requires Decode(b).Some? && !Decode(b).value.migrated
    ensures Encode(Decode(b).value.intended, Decode(b).value.startup) == b
  {
    hide ToLe;
    LeInverse(b[3], b[4]);
    LeInverse(b[7], b[8]);
    assert b == [b[0], b[1], b[2]] + [b[3], b[4]] + [b[5], b[6]] + [b[7], b[8]];
  }

  /**
   * A migrated record is rewritten once: its canonical form decodes to the same settings and is never migrated again.
   */
  lemma MigrationIsStable(b: seq<byte>)
    requires Decode(b).Some?
    ensures var s := Decode(b).value;
      && Decode(Encode(s.intended, s.startup)) == Some(s.(migrated := false))
      && (s.migrated <==> Encode(s.intended, s.startup) != b)
  {
    var s := Decode(b).value;
    DecodeEncode(s.intended, s.startup);
    if !s.migrated { EncodeDecode(b); }
  }

  /** Start-up settings are applied once: applying them again changes nothing, and a saved Off is never turned on. */
  lemma StartupIntentStable(restored: LightState, startup: Startup)
    requires startup.Valid()
    ensures StartupIntent(StartupIntent(restored, startup), startup) == StartupIntent(restored, startup)
    ensures StartupIntent(restored, startup).on ==> restored.on && startup.power != 1
  {
  }

  /** No accepted byte record, in either version, turns a saved Off into On. */
  lemma SavedOffStaysOff(b: seq<byte>)
    requires Decode(b).Some? && b[1] == 0
    ensures !StartupIntent(Decode(b).value.intended, Decode(b).value.startup).on
  {
  }
}
