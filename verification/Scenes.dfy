/** Scenes: what a staged recall means, why the order of its parts is irrelevant, and that it is atomic. */
module Scenes {
  import opened Basics
  import opened Light
  import opened Record
  import Curve
  import Runtime = RuntimeModel
  import opened RuntimeModel
  import opened RuntimeInvariant
  import opened Traces
  import opened Settling
  import opened TimedOff
  import opened LightModel

  // ----- what a bag of entries asks for, independent of how it is staged

  /** The entry names a known attribute and carries a value that attribute can take. */
  predicate Legitimate(e: Entry)
  {
    match FieldOf(e)
    case None => false
    case Some(PowerField) => e.pair.unsigned8 == Some(0) || e.pair.unsigned8 == Some(1)
    case Some(LevelField) => e.pair.unsigned8.Some? && IsLevel(e.pair.unsigned8.value)
    case Some(TemperatureField) => e.pair.unsigned16.Some? && IsTemperature(e.pair.unsigned16.value)
    case Some(ModeField) => e.pair.unsigned8 == Some(COLOR_TEMPERATURE_MODE)
  }

  /** Every entry is legitimate and no field is named twice. */
  ghost predicate Acceptable(entries: multiset<Entry>)
  {
    && (forall e :: e in entries ==> Legitimate(e) && entries[e] == 1)
    && (forall e, f :: e in entries && f in entries && FieldOf(e) == FieldOf(f) ==> e == f)
  }

  /** The target shows the value an entry asks for. */
  predicate Shows(t: LightState, e: Entry)
  {
    match FieldOf(e)
    case None => false
    case Some(PowerField) => t.on <==> e.pair.unsigned8 == Some(1)
    case Some(LevelField) => e.pair.unsigned8 == Some(t.level)
    case Some(TemperatureField) => e.pair.unsigned16 == Some(t.temperature)
    case Some(ModeField) => true
  }

  ghost predicate Names(entries: multiset<Entry>, f: Field)
  {
    exists e :: e in entries && FieldOf(e) == Some(f)
  }

  /** `t` shows every entry, and the base wherever no entry speaks. */
  ghost predicate Overrides(base: LightState, entries: multiset<Entry>, t: LightState)
  {
    && (forall e :: e in entries ==> Shows(t, e))
    && (!Names(entries, PowerField) ==> t.on == base.on)
    && (!Names(entries, LevelField) ==> t.level == base.level)
    && (!Names(entries, TemperatureField) ==> t.temperature == base.temperature)
  }

  /** A bag of entries determines the target. */
  lemma OverridesUnique(base: LightState, entries: multiset<Entry>, t: LightState, u: LightState)
    requires Overrides(base, entries, t) && Overrides(base, entries, u)
    ensures t == u
  {
    if Names(entries, PowerField) {
      var e :| e in entries && FieldOf(e) == Some(PowerField);
      assert Shows(t, e) && Shows(u, e);
    }
    if Names(entries, LevelField) {
      var e :| e in entries && FieldOf(e) == Some(LevelField);
      assert Shows(t, e) && Shows(u, e);
    }
    if Names(entries, TemperatureField) {
      var e :| e in entries && FieldOf(e) == Some(TemperatureField);
      assert Shows(t, e) && Shows(u, e);
    }
  }

  // ----- staging computes it

  /** No entry names a field that is already set. */
  ghost predicate Clear(fields: set<Field>, entries: multiset<Entry>)
  {
    forall e :: e in entries && FieldOf(e).Some? ==> FieldOf(e).value !in fields
  }

  lemma StageEntryMeaning(d: SceneDraft, e: Entry)
    ensures StageEntry(d, e).Staged? <==> Legitimate(e) && FieldOf(e).value !in d.fields
    ensures StageEntry(d, e).Staged? ==>
      var n := StageEntry(d, e).draft;
      && n.durationMs == d.durationMs && n.fields == d.fields + {FieldOf(e).value}
      && Shows(n.target, e)
      && (FieldOf(e) != Some(PowerField) ==> n.target.on == d.target.on)
      && (FieldOf(e) != Some(LevelField) ==> n.target.level == d.target.level)
      && (FieldOf(e) != Some(TemperatureField) ==> n.target.temperature == d.target.temperature)
  {
  }

  /** A further entry in the bag. */
  lemma AcceptableCons(fields: set<Field>, e: Entry, rest: multiset<Entry>)
    requires Legitimate(e)
    ensures Acceptable(multiset{e} + rest) && Clear(fields, multiset{e} + rest) <==>
            FieldOf(e).value !in fields && Acceptable(rest) && Clear(fields + {FieldOf(e).value}, rest)
  {
    var all := multiset{e} + rest;
    var f := FieldOf(e).value;
    assert e in all;
    if Acceptable(all) && Clear(fields, all) {
      assert all[e] == 1;
      forall g | g in rest ensures g in all && Legitimate(g) && rest[g] == 1 && FieldOf(g) != FieldOf(e) {
        assert g in all && all[g] == 1;
      }
    }
    if f !in fields && Acceptable(rest) && Clear(fields + {f}, rest) {
      forall g | g in rest ensures FieldOf(g) != FieldOf(e) && all[g] == 1 {
        assert Legitimate(g);
        assert FieldOf(g).value !in fields + {f};
      }
      assert e !in rest;
    }
  }

  lemma OverridesCons(base: LightState, next: LightState, e: Entry, rest: multiset<Entry>, t: LightState)
    requires FieldOf(e).Some? && Shows(next, e) && Overrides(next, rest, t)
    requires !Names(rest, FieldOf(e).value)
    requires FieldOf(e) != Some(PowerField) ==> next.on == base.on
    requires FieldOf(e) != Some(LevelField) ==> next.level == base.level
    requires FieldOf(e) != Some(TemperatureField) ==> next.temperature == base.temperature
    ensures Overrides(base, multiset{e} + rest, t)
  {
    var all := multiset{e} + rest;
    forall g | g in all ensures Shows(t, g) { assert g == e || g in rest; }
    NamesCons(e, rest, PowerField);
    NamesCons(e, rest, LevelField);
    NamesCons(e, rest, TemperatureField);
  }

  /** Staging entries one after another succeeds exactly on an acceptable bag of unset fields, and shows every entry. */
  lemma {:induction false} EntriesMeaning(d: SceneDraft, entries: seq<Entry>)
    ensures var bag := multiset(entries);
      && (StageEntries(d, entries).Staged? <==> Acceptable(bag) && Clear(d.fields, bag))
      && (StageEntries(d, entries).Staged? ==>
            var n := StageEntries(d, entries).draft;
            && n.durationMs == d.durationMs
            && Overrides(d.target, bag, n.target)
            && forall f :: f in n.fields <==> f in d.fields || Names(bag, f))
    decreases |entries|
  {
    hide StageEntry, Acceptable, Clear, Overrides, Legitimate, Shows;
    if entries == [] {
      NoEntries(d.fields, d.target);
    } else {
      var e, rest := entries[0], entries[1..];
      assert entries == [e] + rest;
      assert multiset(entries) == multiset{e} + multiset(rest);
      StageEntryMeaning(d, e);
      if StageEntry(d, e).Staged? {
        var n := StageEntry(d, e).draft;
        EntriesMeaning(n, rest);
        AcceptableCons(d.fields, e, multiset(rest));
        if StageEntries(n, rest).Staged? {
          StagedCons(d, e, n, multiset(rest), StageEntries(n, rest).draft);
        }
      } else {
        RefusedFirst(d.fields, e, multiset(rest));
      }
    }
  }

  lemma NoEntries(fields: set<Field>, target: LightState)
    ensures Acceptable(multiset{}) && Clear(fields, multiset{}) && Overrides(target, multiset{}, target)
    ensures forall f :: !Names(multiset{}, f)
  {
  }

  lemma RefusedFirst(fields: set<Field>, e: Entry, rest: multiset<Entry>)
    requires !(Legitimate(e) && FieldOf(e).value !in fields)
    ensures !(Acceptable(multiset{e} + rest) && Clear(fields, multiset{e} + rest))
  {
    assert e in multiset{e} + rest;
  }

  lemma StagedCons(d: SceneDraft, e: Entry, n: SceneDraft, rest: multiset<Entry>, m: SceneDraft)
    requires StageEntry(d, e) == Staged(n)
    requires Clear(n.fields, rest) && Overrides(n.target, rest, m.target)
    requires forall f :: f in m.fields <==> f in n.fields || Names(rest, f)
    ensures Overrides(d.target, multiset{e} + rest, m.target)
    ensures forall f :: f in m.fields <==> f in d.fields || Names(multiset{e} + rest, f)
  {
    hide StageEntry, Overrides, Shows;
    StageEntryMeaning(d, e);
    OverridesCons(d.target, n.target, e, rest, m.target);
    forall f ensures Names(multiset{e} + rest, f) <==> Names(rest, f) || FieldOf(e) == Some(f) {
      NamesCons(e, rest, f);
    }
  }

  lemma NamesCons(e: Entry, rest: multiset<Entry>, f: Field)
    ensures Names(multiset{e} + rest, f) <==> Names(rest, f) || FieldOf(e) == Some(f)
  {
    var all := multiset{e} + rest;
    assert e in all;
    if Names(rest, f) {
      var g :| g in rest && FieldOf(g) == Some(f);
      assert g in all;
    }
  }

  // ----- whole recalls

  function AllEntries(parts: seq<Part>): seq<Entry>
    decreases |parts|
  {
    if parts == [] then [] else EntriesOf(parts[0].cluster, parts[0].pairs) + AllEntries(parts[1..])
  }

  predicate DurationsFit(parts: seq<Part>)
  {
    forall i :: 0 <= i < |parts| ==> parts[i].durationMs <= 60_000_000
  }

  /** The last part's duration is the one a recall uses. */
  function FinalDuration(parts: seq<Part>, otherwise: nat): nat
  {
    if parts == [] then otherwise else parts[|parts| - 1].durationMs
  }

  /** The duration is carried along and decides nothing. */
  lemma {:induction false} DurationCarried(d: SceneDraft, ms: nat, entries: seq<Entry>)
    ensures var plain := StageEntries(d, entries);
      StageEntries(d.(durationMs := ms), entries) ==
      if plain.Staged? then Staged(plain.draft.(durationMs := ms)) else plain
    decreases |entries|
  {
    if entries != [] && StageEntry(d, entries[0]).Staged? {
      DurationCarried(StageEntry(d, entries[0]).draft, ms, entries[1..]);
    }
  }

  lemma {:induction false} StageEntriesAppend(d: SceneDraft, a: seq<Entry>, b: seq<Entry>)
    ensures StageEntries(d, a + b) ==
      if StageEntries(d, a).Staged? then StageEntries(StageEntries(d, a).draft, b) else StageEntries(d, a)
    decreases |a|
  {
    hide StageEntry;
    if a == [] {
      assert a + b == b;
    } else {
      assert (a + b)[1..] == a[1..] + b;
      if StageEntry(d, a[0]).Staged? { StageEntriesAppend(StageEntry(d, a[0]).draft, a[1..], b); }
    }
  }

  /** Staging part by part is staging all entries in one go; the last part's duration remains. */
  lemma {:induction false} PartsAreEntries(l: Lamp, parts: seq<Part>)
    requires l.draft.Some?
    ensures var r := StageParts(l, parts);
      var whole := StageEntries(l.draft.value, AllEntries(parts));
      && (r.reply == Okay <==> DurationsFit(parts) && whole.Staged?)
      && (r.reply == Okay ==>
        r.lamp == l.(draft := Some(whole.draft.(durationMs := FinalDuration(parts, l.draft.value.durationMs)))))
      && r.lamp == l.(draft := r.lamp.draft)
    decreases |parts|
  {
    hide StageEntries, EntriesOf;
    var d := l.draft.value;
    if parts == [] {
      EntriesMeaning(d, []);
      StageNothing(d);
    } else {
      var p := parts[0];
      var mine, rest := EntriesOf(p.cluster, p.pairs), AllEntries(parts[1..]);
      assert DurationsFit(parts) <==> p.durationMs <= Curve.MAX_TRANSITION_MS && DurationsFit(parts[1..]) by {
        assert forall i :: 1 <= i < |parts| ==> parts[i] == parts[1..][i - 1];
      }
      StageEntriesAppend(d, mine, rest);
      DurationCarried(d, p.durationMs, mine);
      var first := StageScene(l, p.cluster, p.pairs, p.durationMs);
      RefusalIsNotOkay(d.(durationMs := p.durationMs), mine);
      if first.reply == Okay {
        PartsAreEntries(first.lamp, parts[1..]);
        DurationCarried(StageEntries(d, mine).draft, p.durationMs, rest);
      }
    }
  }

  lemma StageNothing(d: SceneDraft)
    ensures StageEntries(d, []) == Staged(d)
  {
  }

  lemma {:induction false} RefusalIsNotOkay(d: SceneDraft, entries: seq<Entry>)
    ensures StageEntries(d, entries).Refused? ==> StageEntries(d, entries).reply != Okay
    decreases |entries|
  {
    if entries != [] && StageEntry(d, entries[0]).Staged? {
      RefusalIsNotOkay(StageEntry(d, entries[0]).draft, entries[1..]);
    }
  }

  /** Which recalls are committed: a healthy light with no recall pending, and parts that fit together. */
  ghost predicate Committable(l: Lamp, parts: seq<Part>)
  {
    l.draft.None? && Reported(l.world).Some? && DurationsFit(parts) && Acceptable(multiset(AllEntries(parts)))
  }

  /** What staging hands to the runtime: the reported base overridden by every entry once. */
  lemma RecallMeaning(l: Lamp, parts: seq<Part>, io: Io) returns (t: LightState)
    requires l.draft.None?
    ensures var r := RecallParts(l, parts, io);
      && (!Committable(l, parts) ==> r.reply != Okay && r.lamp == l)
      && (Committable(l, parts) ==>
            && Overrides(Reported(l.world).value, multiset(AllEntries(parts)), t)
            && (var d := RecallScene(l.world, t, FinalDuration(parts, 0), io);
                r.reply == d.reply && r.lamp.world == d.world && r.lamp.draft.None? && r.lamp.timers == NO_TIMERS))
  {
    hide StageParts, RecallScene, StageEntries, DurationsFit, Acceptable, Overrides;
    var begun := BeginScene(l);
    t := l.world.target;
    if begun.reply == Okay {
      var d := begun.lamp.draft.value;
      PartsAreEntries(begun.lamp, parts);
      EntriesMeaning(d, AllEntries(parts));
      NoFieldsSet(multiset(AllEntries(parts)));
      if Committable(l, parts) {
        t := StageEntries(d, AllEntries(parts)).draft.target;
      }
    }
  }

  lemma NoFieldsSet(bag: multiset<Entry>)
    ensures Clear({}, bag)
  {
  }

  /**
   * Scene recall is atomic. Either it is refused and nothing at all has changed, or the whole override is the
   * target, with at most one write; and when it is answered Okay that write is the record.
   */
  lemma RecallIsAtomic(l: Lamp, parts: seq<Part>, io: Io)
    requires l.draft.None? && Inv(l.world)
    ensures var r := RecallParts(l, parts, io);
      && (!Committable(l, parts) ==> r.reply != Okay && r.lamp == l)
      && (Committable(l, parts) ==>
            && Overrides(l.world.target, multiset(AllEntries(parts)), r.lamp.world.target)
            && Writes(r.lamp.world.trace) <= Writes(l.world.trace) + 1
            && (r.reply == Okay ==> Durable(r.lamp.world) && !r.lamp.world.dirty))
  {
    hide RecallScene, RecallParts, Overrides, Inv, Writes, Durable;
    var t := RecallMeaning(l, parts, io);
    if Committable(l, parts) {
      FinalDurationFits(parts);
      ReportedAccepts(l.world);
      RecallCommits(l.world, t, FinalDuration(parts, 0), io);
    }
  }

  lemma FinalDurationFits(parts: seq<Part>)
    requires DurationsFit(parts)
    ensures FinalDuration(parts, 0) <= Curve.MAX_TRANSITION_MS
  {
  }

  lemma ReportedAccepts(w: World)
    requires Inv(w) && Reported(w).Some?
    ensures Blocked(w).None? && Reported(w).value == w.target
  {
  }

  lemma RecallCommits(w: World, target: LightState, ms: nat, io: Io)
    requires Inv(w) && Blocked(w).None? && ms <= Curve.MAX_TRANSITION_MS
    ensures var d := RecallScene(w, target, ms, io);
      && d.world.target == target && Writes(d.world.trace) <= Writes(w.trace) + 1
      && (d.reply == Okay ==> Durable(d.world) && !d.world.dirty)
  {
    hide Commit, SceneTracks, Durable, Writes;
    RecallSceneInv(w, target, ms, io);
    var u := if target == w.target then w else SceneTracks(w, target, Duration(ms));
    CommitTarget(u, target, io);
    CommitWritesOnce(u, target, io);
  }

  lemma CommitWritesOnce(w: World, target: LightState, io: Io)
    ensures var d := Commit(w, target, io);
      Writes(d.world.trace) <= Writes(w.trace) + 1 && (d.reply == Okay ==> !d.world.dirty)
  {
    hide Reconcile, SaveIntent, Writes;
    var pending := w.(dirty := w.dirty || w.target != target, target := target, revision := WrapInc(w.revision));
    SaveIntentWritesOnce(pending, io);
    SavedIsClean(pending, io);
    ReconcileWritesNothing(SaveIntent(pending, io).world, io);
  }

  lemma SavedIsClean(w: World, io: Io)
    ensures SaveIntent(w, io).reply == Okay ==> !SaveIntent(w, io).world.dirty
  {
    hide Encode;
  }

  /** The order of clusters, and of attributes within and across them, is irrelevant to acceptance and to the target. */
  lemma RecallOrderIrrelevant(l: Lamp, parts: seq<Part>, other: seq<Part>, io: Io, io': Io)
    requires l.draft.None? && Inv(l.world)
    requires DurationsFit(parts) && DurationsFit(other)
    requires multiset(AllEntries(parts)) == multiset(AllEntries(other))
    ensures RecallParts(l, parts, io).lamp.world.target == RecallParts(l, other, io').lamp.world.target
    ensures Committable(l, parts) <==> Committable(l, other)
  {
    hide RecallParts, Overrides, Inv, Writes, Durable;
    RecallIsAtomic(l, parts, io);
    RecallIsAtomic(l, other, io');
    if Committable(l, parts) {
      OverridesUnique(l.world.target, multiset(AllEntries(parts)), RecallParts(l, parts, io).lamp.world.target,
                      RecallParts(l, other, io').lamp.world.target);
    }
  }

  /** Naming any field twice, in one list or across clusters, is refused without effect. */
  lemma DuplicatesRefused(l: Lamp, parts: seq<Part>, i: nat, j: nat, io: Io)
    requires l.draft.None? && i < j < |AllEntries(parts)|
    requires FieldOf(AllEntries(parts)[i]) == FieldOf(AllEntries(parts)[j])
    ensures RecallParts(l, parts, io).reply != Okay && RecallParts(l, parts, io).lamp == l
  {
    hide RecallParts;
    var all := AllEntries(parts);
    var t := RecallMeaning(l, parts, io);
    if all[i] == all[j] {
      assert all == all[..j] + all[j..] && all[i] in all[..j] && all[j] in all[j..];
      assert multiset(all) == multiset(all[..j]) + multiset(all[j..]);
      assert multiset(all)[all[i]] >= 2;
    } else {
      assert all[i] in multiset(all) && all[j] in multiset(all);
    }
  }
}
