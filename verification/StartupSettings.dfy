/** Start-up settings: what a boot, or a late load, makes of the record that each of them leaves. */
module StartupSettings {
  import opened Basics
  import opened Light
  import opened Record
  import opened RuntimeModel
  import opened RuntimeInvariant
  import opened Settling

  /** What a record asks a boot for, field by field. */
  predicate StartsAs(t: LightState, saved: LightState, startup: Startup)
  {
    && (t.on <==> saved.on && startup.power != 1)
    && t.level == (match startup.level case None => saved.level case Some(0) => 1 case Some(x) => x)
    && t.temperature == (match startup.temperature case None => saved.temperature case Some(x) => x)
  }

  /** A first boot, without any record: Off, level 57, 303 mired. */
  lemma FirstBoot(io: Io)
    requires io.read
    ensures Boot(None, io).target == LightState(false, 57, 303) && Boot(None, io).startup == Startup(0, None, None)
  {
  }

  /**
   * A boot shuts the output down before it reads anything. A shutdown that fails is retried after five seconds; a
   * record
   * that cannot be read, or not be understood, refuses every setter and leaves the target Off.
   */
  lemma BootOutcome(store: Option<seq<byte>>, io: Io)
    ensures var w := Boot(store, io); var malformed := store.Some? && Decode(store.value).None?;
      && w.trace == [Parked(io.stop), Loaded(io.read)] && w.store == store
      && w.applied.None? && w.level.None? && w.temperature.None?
      && w.loadFault == (if !io.read then Some(StorageFault) else if malformed then Some(InvalidRecord) else None)
      && (w.loadFault.Some? ==> Blocked(w) == Some(InvalidState) && !w.target.on)
      && (w.loadFault.None? ==> Blocked(w).None? && w.fault == (if io.stop then NoFault else OutputFault))
      && w.retryAt == (if !io.stop || !io.read then 5_000 else 0)
  {
  }

  /** A clean runtime's record boots to its own target under its own start-up settings. */
  lemma CleanBoots(w: World, io: Io)
    requires Inv(w) && w.loadFault.None? && !w.dirty && io.read
    ensures StartsAs(Boot(w.store, io).target, w.target, w.startup) && Boot(w.store, io).startup == w.startup
  {
    hide FrameFor, AckCurrent, TracksMeetTarget;
  }

  /** A record that is read late starts the same way, except that a local Off keeps it dark. */
  lemma LateStarts(w: World)
    requires ReadRecord(w.store, true).Readable?
    ensures var saved := ReadRecord(w.store, true).saved; var t := LateTarget(w);
      && (w.offAfterLoad ==> !t.on)
      && (!w.offAfterLoad ==> (t.on <==> saved.intended.on && saved.startup.power != 1))
      && StartsAs(t.(on := saved.intended.on && saved.startup.power != 1), saved.intended, saved.startup)
  {
  }

  /** A boot over a record that is current and already says what its own settings ask for owes it no write. */
  lemma CurrentRecordIsKept(store: Option<seq<byte>>, io: Io)
    requires io.read && ReadRecord(store, true).Readable? && !ReadRecord(store, true).saved.migrated
    requires var saved := ReadRecord(store, true).saved; StartsAs(saved.intended, saved.intended, saved.startup)
    ensures Owed(Boot(store, io)) == 0
  {
  }

  /** What a start-up command answered Okay has made of the settings, leaving target and output alone. */
  lemma SavedStartup(w: World, startup: Settings, io: Io)
    requires Inv(w) && SaveStartup(w, startup, io).reply == Okay
    ensures var v := SaveStartup(w, startup, io).world;
      && v.startup == startup && v.target == w.target && v.applied == w.applied && !v.dirty && v.loadFault.None?
  {
    hide Encode, FrameFor, AckCurrent, Durable, TracksMeetTarget;
  }

  /** After a start-up level x is accepted every boot is at level x, at least 1; after none, at the saved level. */
  lemma LevelBoots(w: World, x: Option<byte>, io: Io, boot: Io)
    requires Inv(w) && Step(w, CmdStartupLevel(x), io).reply == Okay && boot.read
    ensures var v := Step(w, CmdStartupLevel(x), io).world; var t := Boot(v.store, boot).target;
      && x != Some(255)
      && t.level == (if x.Some? then Max(x.value, 1) else w.target.level)
      && (t.on <==> w.target.on && w.startup.power != 1)
      && t.temperature == (if w.startup.temperature.Some? then w.startup.temperature.value else w.target.temperature)
  {
    hide SaveStartup, Inv, Boot;
    if x != Some(255) {
      SavedStartup(w, w.startup.(level := x), io);
      SaveStartupInv(w, w.startup.(level := x), io);
      CleanBoots(Step(w, CmdStartupLevel(x), io).world, boot);
    }
  }

  /** Likewise for the start-up colour. */
  lemma TemperatureBoots(w: World, x: Option<Temperature>, io: Io, boot: Io)
    requires Inv(w) && Step(w, CmdStartupTemperature(x), io).reply == Okay && boot.read
    ensures var v := Step(w, CmdStartupTemperature(x), io).world; var t := Boot(v.store, boot).target;
      && t.temperature == (if x.Some? then x.value else w.target.temperature)
      && (t.on <==> w.target.on && w.startup.power != 1)
      && t.level == (if w.startup.level.Some? then Max(w.startup.level.value, 1) else w.target.level)
  {
    hide SaveStartup, Inv, Boot;
    SavedStartup(w, w.startup.(temperature := x), io);
    SaveStartupInv(w, w.startup.(temperature := x), io);
    CleanBoots(Step(w, CmdStartupTemperature(x), io).world, boot);
  }

  /**
   * After start-up Off is accepted every boot is Off; after none its power is exactly the saved one; On and Toggle
   * are refused without a trace.
   */
  lemma PowerBoots(w: World, policy: Option<StartUpOnOff>, io: Io, boot: Io)
    requires Inv(w) && boot.read
    ensures var d := Step(w, CmdStartupPower(policy), io); var t := Boot(d.world.store, boot).target;
      && (policy == Some(StartOn) || policy == Some(StartToggle) ==> d.reply == ConstraintError && d.world == w)
      && (d.reply == Okay ==>
            && (policy == Some(StartOff) ==> !t.on)
            && (policy.None? ==> t.on == w.target.on)
            && t.level == (if w.startup.level.Some? then Max(w.startup.level.value, 1) else w.target.level)
            && t.temperature == (if w.startup.temperature.Some? then w.startup.temperature.value
              else w.target.temperature))
  {
    hide SaveStartup, Inv, Boot;
    var d := Step(w, CmdStartupPower(policy), io);
    var startup := w.startup.(power := if policy.Some? then 1 else 0);
    if d.reply == Okay {
      SavedStartup(w, startup, io);
      SaveStartupInv(w, startup, io);
      CleanBoots(d.world, boot);
    }
  }

  // ----- what the bytes mean

  /** Two bytes, low first. */
  function Word(lo: byte, hi: byte): nat { (lo as int) + 256 * (hi as int) }

  /** The current format, byte by byte: which records are accepted. */
  lemma VersionThreeAccepts(b: seq<byte>)
    requires |b| == 9 && b[0] == 3
    ensures var t, u := Word(b[3], b[4]), Word(b[7], b[8]);
      Decode(b).Some? <==>
        b[1] <= 1 && 1 <= b[2] <= 254 && 143 <= t <= 344 && b[5] <= 3 && (u == 0 || 143 <= u <= 344)
  {
    hide FromLe, Word;
    SameWord(b[3], b[4]);
    SameWord(b[7], b[8]);
  }

  /** And what they say. */
  lemma VersionThreeMeaning(b: seq<byte>)
    requires |b| == 9 && b[0] == 3 && Decode(b).Some?
    ensures var s := Decode(b).value; var u := Word(b[7], b[8]);
      && (s.intended.on <==> b[1] == 1) && s.intended.level == b[2] && s.intended.temperature == Word(b[3], b[4])
      && (s.startup.power == 1 <==> b[5] == 1) && (s.migrated <==> b[5] == 2 || b[5] == 3)
      && s.startup.level == (if b[6] == 255 then None else Some(b[6]))
      && (if u == 0 then s.startup.temperature.None? else s.startup.temperature == Some(u))
  {
    hide FromLe, Word;
    SameWord(b[3], b[4]);
    SameWord(b[7], b[8]);
  }

  lemma SameWord(lo: byte, hi: byte)
    ensures FromLe(lo, hi) == Word(lo, hi)
  {
  }

  /**
   * The old format: the power and the selected preset survive, at the default level; of the two start-up policies only
   * an Off of the selected preset does.
   */
  lemma VersionTwoMeaning(b: seq<byte>)
    requires |b| == 5 && b[0] == 2
    ensures Decode(b).Some? <==> b[1] <= 1 && b[2] <= 1 && b[3] <= 3 && b[4] <= 3
    ensures Decode(b).Some? ==>
      var s := Decode(b).value;
      && s.migrated && (s.intended.on <==> b[1] == 1) && s.intended.level == 57
      && s.intended.temperature == (if b[2] == 1 then 200 else 303)
      && (s.startup.power == 1 <==> (b[2] == 0 && b[3] == 1) || (b[2] == 1 && b[4] == 1))
      && s.startup.level.None? && s.startup.temperature.None?
  {
  }

  /** Everything else is refused. */
  lemma OtherRecordsRefused(b: seq<byte>)
    requires !(|b| == 9 && b[0] == 3) && !(|b| == 5 && b[0] == 2)
    ensures Decode(b).None?
  {
  }
}
