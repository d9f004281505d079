/** Recovery automata: small objects whose answers are characterised over everything they have observed. */
module Watchdogs {
  import opened Basics

  const STALL_MS := 60_000
  const HEALTHY_MS := 120_000

  // ----- histories of a condition that may be blocked

  datatype Reading = Reading(at: nat, blocked: bool)

  /** Where the blocked run that reaches index `i` began. */
  function RunStart(h: seq<Reading>, i: nat): (s: nat)
    requires i < |h|
    ensures s <= i
  {
    if i > 0 && h[i].blocked && h[i - 1].blocked then RunStart(h, i - 1) else i
  }

  function BlockedFor(h: seq<Reading>, i: nat): nat
    requires i < |h|
  {
    SatSub(h[i].at, h[RunStart(h, i)].at)
  }

  predicate Overdue(h: seq<Reading>, i: nat)
    requires i < |h|
  {
    h[i].blocked && BlockedFor(h, i) >= STALL_MS
  }

  /** The first overdue reading of its run. */
  predicate Raises(h: seq<Reading>, i: nat)
    requires i < |h|
  {
    Overdue(h, i) && forall j :: RunStart(h, i) <= j < i ==> !Overdue(h, j)
  }

  /** A longest stretch of blocked readings. */
  predicate MaximalRun(h: seq<Reading>, s: nat, e: nat)
  {
    && s <= e < |h|
    && (forall i :: s <= i <= e ==> h[i].blocked)
    && (s == 0 || !h[s - 1].blocked)
    && (e == |h| - 1 || !h[e + 1].blocked)
  }

  lemma {:induction false} RunStartIn(h: seq<Reading>, s: nat, i: nat)
    requires s <= i < |h| && (forall j :: s <= j <= i ==> h[j].blocked) && (s == 0 || !h[s - 1].blocked)
    ensures RunStart(h, i) == s
    decreases i
  {
    if s < i { RunStartIn(h, s, i - 1); }
  }

  lemma {:induction false} RunStartMeaning(h: seq<Reading>, i: nat)
    requires i < |h| && h[i].blocked
    ensures var s := RunStart(h, i); (forall j :: s <= j <= i ==> h[j].blocked) && (s == 0 || !h[s - 1].blocked)
    decreases i
  {
    if i > 0 && h[i - 1].blocked { RunStartMeaning(h, i - 1); }
  }

  lemma {:induction false} RunStartPrefix(h: seq<Reading>, more: seq<Reading>, i: nat)
    requires i < |h|
    ensures RunStart(h + more, i) == RunStart(h, i)
    decreases i
  {
    if i > 0 && h[i].blocked && h[i - 1].blocked { RunStartPrefix(h, more, i - 1); }
  }

  /**
   * Whatever the clock reads, a maximal run raises once if any of its readings is a minute past its first, else
   * never.
   */
  lemma RaisedOncePerRun(h: seq<Reading>, s: nat, e: nat)
    requires MaximalRun(h, s, e)
    ensures (exists i :: s <= i <= e && Raises(h, i)) <==> (exists i :: s <= i <= e && h[i].at - h[s].at >= 60_000)
    ensures forall i, j :: s <= i <= e && s <= j <= e && Raises(h, i) && Raises(h, j) ==> i == j
    ensures forall i :: s <= i <= e && Raises(h, i) ==>
      h[i].at - h[s].at >= 60_000 && forall j :: s <= j < i ==> h[j].at - h[s].at < 60_000
  {
    forall i | s <= i <= e ensures RunStart(h, i) == s && (Overdue(h, i) <==> h[i].at - h[s].at >= 60_000) {
      RunStartIn(h, s, i);
    }
    if i :| s <= i <= e && h[i].at - h[s].at >= 60_000 {
      var first := FirstOverdue(h, s, i);
      assert Raises(h, first);
    }
  }

  lemma {:induction false} FirstOverdue(h: seq<Reading>, s: nat, i: nat) returns (first: nat)
    requires s <= i < |h| && Overdue(h, i)
    ensures s <= first <= i && Overdue(h, first) && forall j :: s <= j < first ==> !Overdue(h, j)
    decreases i
  {
    first := i;
    if j :| s <= j < i && Overdue(h, j) { first := FirstOverdue(h, s, j); }
  }

  /** What a history says after one more reading. */
  lemma Extend(h: seq<Reading>, r: Reading)
    ensures forall i :: 0 <= i < |h| ==>
      RunStart(h + [r], i) == RunStart(h, i) && (Overdue(h + [r], i) <==> Overdue(h, i))
    ensures RunStart(h + [r], |h|) == if h != [] && r.blocked && h[|h| - 1].blocked then RunStart(h, |h| - 1) else |h|
  {
    forall i | 0 <= i < |h| ensures RunStart(h + [r], i) == RunStart(h, i) && (Overdue(h + [r], i) <==> Overdue(h, i)) {
      RunStartPrefix(h, [r], i);
    }
  }

  /** The run in progress at the end of a history: when it began and whether it has raised. */
  predicate Tracks(h: seq<Reading>, since: Option<nat>, reported: bool)
  {
    && Since(h, since)
    && (reported <==> since.Some? && exists j :: RunStart(h, |h| - 1) <= j < |h| && Overdue(h, j))
  }

  predicate Since(h: seq<Reading>, since: Option<nat>)
  {
    since == if h != [] && h[|h| - 1].blocked then Some(h[RunStart(h, |h| - 1)].at) else None
  }

  class QueueHealth {
    var blockedSince: Option<nat>
    var reported: bool
    ghost var history: seq<Reading>

    ghost predicate Valid()
      reads this
    {
      Tracks(history, blockedSince, reported)
    }

    constructor ()
      ensures Valid() && history == []
    {
      blockedSince, reported, history := None, false, [];
    }

    method Observe(now: nat, linked: bool, capacity: bool) returns (stalled: bool)
      requires Valid()
      modifies this
      ensures Valid() && history == old(history) + [Reading(now, linked && !capacity)]
      ensures stalled <==> Raises(history, |history| - 1)
    {
      Extend(history, Reading(now, linked && !capacity));
      history := history + [Reading(now, linked && !capacity)];
      if !linked || capacity {
        blockedSince, reported := None, false;
        return false;
      }
      if blockedSince.None? { blockedSince := Some(now); }
      stalled := !reported && SatSub(now, blockedSince.value) >= STALL_MS;
      if stalled { reported := true; }
      assert Overdue(history, |history| - 1) <==> SatSub(now, blockedSince.value) >= STALL_MS;
    }

    function RemainingMs(now: nat): Option<nat>
      reads this
    {
      if blockedSince.Some? && !reported then Some(SatSub(STALL_MS, SatSub(now, blockedSince.value))) else None
    }

    /** The alarm is set for exactly the first instant at which another blocked reading would raise. */
    lemma AlarmIsExact(now: nat, later: nat)
      requires Valid() && blockedSince.Some? && blockedSince.value <= now <= later
      ensures RemainingMs(now).None? ==> !Raises(history + [Reading(later, true)], |history|)
      ensures RemainingMs(now).Some? ==>
        (Raises(history + [Reading(later, true)], |history|) <==> later >= now + RemainingMs(now).value)
    {
      var next := history + [Reading(later, true)];
      Extend(history, Reading(later, true));
      assert Overdue(next, |history|) <==> later - blockedSince.value >= STALL_MS;
      assert forall j :: 0 <= j < |history| ==> (Overdue(next, j) <==> Overdue(history, j));
    }
  }

  // ----- the guarded station driver

  /** A call on the driver, with what the wrapped driver answered. */
  datatype Poll =
    | Receive(at: nat, token: bool)
    | Transmit(at: nat, token: bool)
    | LinkState(at: nat, up: bool, room: bool)

  /** A token that was handed out is a sign of capacity; the absence of one on its own is no evidence at all. */
  function ReadingOf(p: Poll): seq<Reading>
  {
    match p
    case Receive(at, token) => if token then [Reading(at, false)] else []
    case Transmit(at, token) => if token then [Reading(at, false)] else []
    case LinkState(at, up, room) => [Reading(at, up && !room)]
  }

  function Readings(polls: seq<Poll>): seq<Reading>
    decreases |polls|
  {
    if polls == [] then [] else Readings(polls[..|polls| - 1]) + ReadingOf(polls[|polls| - 1])
  }

  predicate Stalls(polls: seq<Poll>)
  {
    polls != [] && polls[|polls| - 1].LinkState? && Raises(Readings(polls), |Readings(polls)| - 1)
  }

  function StallCount(polls: seq<Poll>): nat
    decreases |polls|
  {
    if polls == [] then 0 else StallCount(polls[..|polls| - 1]) + if Stalls(polls) then 1 else 0
  }

  class GuardedDriver {
    const health: QueueHealth
    var observed: Option<nat>     // the last value handed to the health observer
    var stalls: nat               // calls of the stall callback
    ghost var polls: seq<Poll>

    ghost predicate Valid()
      reads this, health
    {
      && health.Valid() && health.history == Readings(polls)
      && observed == health.blockedSince && stalls == StallCount(polls)
    }

    constructor ()
      ensures Valid() && polls == [] && fresh(health)
    {
      health := new QueueHealth();
      observed, stalls, polls := None, 0, [];
    }

    method OnReceive(at: nat, token: bool) returns (handed: bool)
      requires Valid()
      modifies this, health
      ensures Valid() && handed == token && polls == old(polls) + [Receive(at, token)] && stalls == old(stalls)
    {
      Polled(polls, Receive(at, token));
      if token {
        var stalled := health.Observe(at, true, true);
        observed := None;
      }
      polls := polls + [Receive(at, token)];
      handed := token;
    }

    method OnTransmit(at: nat, token: bool) returns (handed: bool)
      requires Valid()
      modifies this, health
      ensures Valid() && handed == token && polls == old(polls) + [Transmit(at, token)] && stalls == old(stalls)
    {
      Polled(polls, Transmit(at, token));
      if token {
        var stalled := health.Observe(at, true, true);
        observed := None;
      }
      polls := polls + [Transmit(at, token)];
      handed := token;
    }

    /** Probing for capacity happens only on a link that is up, and gives its token back. */
    method OnLinkState(at: nat, up: bool, room: bool) returns (alarm: Option<nat>)
      requires Valid()
      modifies this, health
      ensures Valid() && polls == old(polls) + [LinkState(at, up, room)]
      ensures stalls == old(stalls) + if Stalls(polls) then 1 else 0
      ensures alarm == health.RemainingMs(at)
    {
      hide Raises, Tracks, Stalls, StallCount, Readings;
      Polled(polls, LinkState(at, up, room));
      LinkStalls(polls, at, up, room);
      var capacity := up && room;
      var stalled := health.Observe(at, up, capacity);
      observed := health.blockedSince;
      polls := polls + [LinkState(at, up, room)];
      if stalled { stalls := stalls + 1; }
      alarm := health.RemainingMs(at);
    }
  }

  lemma LinkStalls(polls: seq<Poll>, at: nat, up: bool, room: bool)
    ensures Stalls(polls + [LinkState(at, up, room)]) <==>
            Raises(Readings(polls) + [Reading(at, up && !room)], |Readings(polls)|)
  {
    hide Raises;
    Polled(polls, LinkState(at, up, room));
  }

  lemma Polled(polls: seq<Poll>, p: Poll)
    ensures Readings(polls + [p]) == Readings(polls) + ReadingOf(p)
    ensures StallCount(polls + [p]) == StallCount(polls) + if Stalls(polls + [p]) then 1 else 0
  {
    assert (polls + [p])[..|polls|] == polls;
  }

  lemma {:induction false} ReadingsAppend(a: seq<Poll>, b: seq<Poll>)
    ensures Readings(a + b) == Readings(a) + Readings(b)
    decreases |b|
  {
    if b == [] {
      assert a + b == a;
    } else {
      assert (a + b)[..|a + b| - 1] == a + b[..|b| - 1];
      ReadingsAppend(a, b[..|b| - 1]);
    }
  }

  lemma {:induction false} ReadingFromPoll(polls: seq<Poll>, i: nat) returns (k: nat)
    requires i < |Readings(polls)|
    ensures k < |polls| && ReadingOf(polls[k]) == [Readings(polls)[i]]
    decreases |polls|
  {
    var front := polls[..|polls| - 1];
    if i < |Readings(front)| {
      k := ReadingFromPoll(front, i);
    } else {
      k := |polls| - 1;
    }
  }

  /**
   * A token handed out restarts the period: a stall after it is at least a minute later than a full queue
   * that was itself seen after the token.
   */
  lemma TokenRestartsPeriod(before: seq<Poll>, token: Poll, after: seq<Poll>) returns (k: nat)
    requires !token.LinkState? && token.token
    requires Stalls(before + [token] + after)
    ensures k < |after| && after[k].LinkState? && after[k].up && !after[k].room
    ensures (before + [token] + after)[|before| + |after|].at >= after[k].at + 60_000
  {
    hide Raises;
    var all := before + [token] + after;
    ReadingsAppend(before + [token], after);
    Polled(before, token);
    var n, h := |Readings(before)|, Readings(all);
    assert h == Readings(before) + [Reading(token.at, false)] + Readings(after);
    var s := StallAfterCapacity(h, n);
    k := ReadingFromPoll(after, s - n - 1);
    LastReading(all);
  }

  lemma LastReading(polls: seq<Poll>)
    requires polls != [] && polls[|polls| - 1].LinkState?
    ensures Readings(polls) != [] && Readings(polls)[|Readings(polls)| - 1].at == polls[|polls| - 1].at
  {
  }

  lemma StallAfterCapacity(h: seq<Reading>, n: nat) returns (s: nat)
    requires n < |h| && !h[n].blocked && Raises(h, |h| - 1)
    ensures n < s < |h| && h[s].blocked && h[|h| - 1].at >= h[s].at + STALL_MS
  {
    RunStartMeaning(h, |h| - 1);
    s := RunStart(h, |h| - 1);
  }

  /** Health time never counts a known stretch of local backpressure. */
  function HealthyUntil(now: nat, blockedSince: Option<nat>): (t: nat)
    ensures t <= now
  {
    match blockedSince
    case None => now
    case Some(since) => Min(now, since)
  }

  /** In every history, no reading of the run in progress lies before the end of health time. */
  lemma HealthStopsAtBackpressure(h: seq<Reading>, since: Option<nat>, reported: bool, now: nat)
    requires Tracks(h, since, reported)
    requires forall i, j :: 0 <= i < j < |h| ==> h[i].at <= h[j].at
    requires h != [] ==> h[|h| - 1].at <= now
    ensures var end := HealthyUntil(now, since);
      && (forall i :: 0 <= i < |h| && h[i].blocked && (forall j :: i <= j < |h| ==> h[j].blocked) ==> end <= h[i].at)
      && (since.None? ==> end == now)
      && (since.Some? ==> end == h[RunStart(h, |h| - 1)].at)
  {
    if since.Some? {
      var last := |h| - 1;
      var s := RunStart(h, last);
      RunStartMeaning(h, last);
      forall i | 0 <= i < |h| && h[i].blocked && (forall j :: i <= j < |h| ==> h[j].blocked) ensures s <= i {
        assert s > 0 ==> !h[s - 1].blocked;
      }
    }
  }

  // ----- escalation of a stuck queue

  datatype Incident = HealthyFor(ms: nat) | Stall

  /** A stall has been seen since the last healthy two minutes. */
  predicate RecentStall(h: seq<Incident>)
  {
    exists i :: 0 <= i < |h| && h[i].Stall? && forall j :: i < j < |h| ==> h[j].Stall? || h[j].ms < 120_000
  }

  lemma RecentStallStep(h: seq<Incident>, e: Incident)
    ensures RecentStall(h + [e]) <==> e.Stall? || (e.ms < HEALTHY_MS && RecentStall(h))
  {
    var next := h + [e];
    assert next[|h|] == e;
    if i :| 0 <= i < |h| && h[i].Stall? && forall j :: i < j < |h| ==> h[j].Stall? || h[j].ms < HEALTHY_MS {
      if e.Stall? || e.ms < HEALTHY_MS {
        assert next[i].Stall? && forall j :: i < j < |next| ==> next[j].Stall? || next[j].ms < HEALTHY_MS;
      }
    }
    if i :| 0 <= i < |next| && next[i].Stall? && forall j :: i < j < |next| ==>
      next[j].Stall? || next[j].ms < HEALTHY_MS {
      assert i < |h| ==> h[i].Stall? && forall j :: i < j < |h| ==> h[j] == next[j];
    }
  }

  class QueueRecovery {
    var recreated: bool
    ghost var history: seq<Incident>

    ghost predicate Valid()
      reads this
    {
      recreated <==> RecentStall(history)
    }

    constructor ()
      ensures Valid() && history == []
    {
      recreated, history := false, [];
    }

    method RecordHealth(healthyForMs: nat)
      requires Valid()
      modifies this
      ensures Valid() && history == old(history) + [HealthyFor(healthyForMs)]
    {
      RecentStallStep(history, HealthyFor(healthyForMs));
      history := history + [HealthyFor(healthyForMs)];
      if healthyForMs >= HEALTHY_MS { recreated := false; }
    }

    /**
     * A stall calls for a reboot exactly when recreating the radio for an earlier one did not buy two healthy
     * minutes.
     */
    method RebootRequired() returns (required: bool)
      requires Valid()
      modifies this
      ensures Valid() && history == old(history) + [Stall]
      ensures required <==> RecentStall(old(history))
    {
      RecentStallStep(history, Stall);
      history := history + [Stall];
      required, recreated := recreated, true;
    }
  }

  // ----- local readiness and association

  class LocalNetHealth {
    var missingSince: Option<nat>
    ghost var history: seq<Reading>

    ghost predicate Valid()
      reads this
    {
      Since(history, missingSince)
    }

    constructor ()
      ensures Valid() && history == []
    {
      missingSince, history := None, [];
    }

    /** Not latched: every reading a minute or more into its run asks for a restart. */
    method RestartDue(now: nat, associated: bool, localReady: bool) returns (due: bool)
      requires Valid()
      modifies this
      ensures Valid() && history == old(history) + [Reading(now, associated && !localReady)]
      ensures due <==> Overdue(history, |history| - 1)
    {
      Extend(history, Reading(now, associated && !localReady));
      history := history + [Reading(now, associated && !localReady)];
      if !associated || localReady {
        missingSince := None;
        return false;
      }
      if missingSince.None? { missingSince := Some(now); }
      due := SatSub(now, missingSince.value) >= STALL_MS;
    }
  }

  class AssociatedHealth {
    var failedSince: Option<nat>
    ghost var history: seq<Reading>

    ghost predicate Valid()
      reads this
    {
      Since(history, failedSince)
    }

    constructor ()
      ensures Valid() && history == []
    {
      failedSince, history := None, [];
    }

    method RestartDue(now: nat, associated: bool, radioOk: bool) returns (due: bool)
      requires Valid()
      modifies this
      ensures Valid() && history == old(history) + [Reading(now, associated && !radioOk)]
      ensures due <==> Overdue(history, |history| - 1)
    {
      Extend(history, Reading(now, associated && !radioOk));
      history := history + [Reading(now, associated && !radioOk)];
      if !associated || radioOk {
        failedSince := None;
        return false;
      }
      if failedSince.None? { failedSince := Some(now); }
      due := SatSub(now, failedSince.value) >= STALL_MS;
    }
  }

  // ----- counters

  /** How many of the latest observations in a row were failures. */
  function Trailing(h: seq<bool>): nat
    decreases |h|
  {
    if h == [] || !h[|h| - 1] then 0 else 1 + Trailing(h[..|h| - 1])
  }

  lemma {:induction false} TrailingMeaning(h: seq<bool>)
    ensures var k := Trailing(h); k <= |h| && (forall i :: |h| - k <= i < |h| ==> h[i]) && (k == |h| || !h[|h| - k - 1])
    decreases |h|
  {
    if h != [] && h[|h| - 1] { TrailingMeaning(h[..|h| - 1]); }
  }

  class DriverErrors {
    var consecutive: nat
    ghost var history: seq<bool>

    ghost predicate Valid()
      reads this
    {
      consecutive == Min(255, Trailing(history))
    }

    constructor ()
      ensures Valid() && history == []
    {
      consecutive, history := 0, [];
    }

    /** A fresh controller is due exactly when the last three observations were all internal failures. */
    method Observe(internalFailure: bool) returns (due: bool)
      requires Valid()
      modifies this
      ensures Valid() && history == old(history) + [internalFailure]
      ensures due <==> |history| >= 3 && forall i :: |history| - 3 <= i < |history| ==> history[i]
    {
      assert (history + [internalFailure])[..|history|] == history;
      history := history + [internalFailure];
      consecutive := if internalFailure then Min(consecutive + 1, 255) else 0;
      due := consecutive >= 3;
      TrailingMeaning(history);
    }
  }

  function Pow2(k: nat): nat { if k == 0 then 1 else 2 * Pow2(k - 1) }

  /** Five seconds doubled per failure, at most a minute. */
  function Delay(k: nat): nat { Min(60, 5 * Pow2(k)) }

  lemma {:induction false} Pow2Grows(a: nat, b: nat)
    requires a <= b
    ensures Pow2(a) <= Pow2(b)
    decreases b
  {
    if a < b { Pow2Grows(a, b - 1); }
  }

  /** From the fourth doubling on the cap decides, so a saturated shift loses nothing. */
  lemma DelaySaturates(k: nat, m: nat)
    requires m == k || (m >= 4 && k >= 4)
    ensures Delay(k) == Delay(m)
  {
    assert Pow2(4) == 16;
    if m != k {
      Pow2Grows(4, k);
      Pow2Grows(4, m);
    }
  }

  /** Restarts since the last one that followed two healthy minutes; the latest is not counted. */
  function Failures(h: seq<nat>): nat
    requires h != []
    decreases |h|
  {
    if h[|h| - 1] >= HEALTHY_MS || |h| == 1 then 0 else 1 + Failures(h[..|h| - 1])
  }

  lemma {:induction false} FailuresMeaning(h: seq<nat>)
    requires h != []
    ensures var k := Failures(h);
      k < |h| && (forall i :: |h| - k <= i < |h| ==>
        h[i] < 120_000) && (k == |h| - 1 || h[|h| - k - 1] >= 120_000)
    decreases |h|
  {
    if h[|h| - 1] < HEALTHY_MS && |h| > 1 { FailuresMeaning(h[..|h| - 1]); }
  }

  class RestartBackoff {
    var failures: nat
    ghost var history: seq<nat>

    ghost predicate Valid()
      reads this
    {
      failures == if history == [] then 0 else Min(255, Failures(history) + 1)
    }

    constructor ()
      ensures Valid() && history == []
    {
      failures, history := 0, [];
    }

    method NextDelaySecs(healthyForMs: nat) returns (seconds: nat)
      requires Valid()
      modifies this
      ensures Valid() && history == old(history) + [healthyForMs]
      ensures seconds == Delay(Failures(history))
    {
      assert (history + [healthyForMs])[..|history|] == history;
      history := history + [healthyForMs];
      if healthyForMs >= HEALTHY_MS { failures := 0; }
      seconds := Min(5 * Pow2(Min(failures, 4)), 60);
      assert failures == Min(255, Failures(history));
      DelaySaturates(Failures(history), Min(failures, 4));
      failures := Min(failures + 1, 255);
    }
  }
}
