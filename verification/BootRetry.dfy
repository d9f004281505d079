/** Reading storage at boot: the retry loop, with the watchdog kept fed through every wait. */
module BootRetry {
  import opened Basics
  import opened Watchdogs

  /** What one attempt at the operation returns. */
  datatype Attempt<T> = Done(value: T) | Retryable | Fatal

  datatype Event = Fed | Tried | Reported(seconds: nat) | Slept

  /** A wait of `n` seconds: each second is slept and then fed. */
  function Wait(n: nat): seq<Event> { if n == 0 then [] else Wait(n - 1) + [Slept, Fed] }

  /** The first `n` attempts, all of them retried. */
  function Retries(n: nat): seq<Event>
  {
    if n == 0 then [] else Retries(n - 1) + [Fed, Tried, Reported(Delay(n - 1))] + Wait(Delay(n - 1))
  }

  predicate FailsFirst<T>(answers: seq<Attempt<T>>, n: nat)
  {
    n <= |answers| && forall i :: 0 <= i < n ==> answers[i].Retryable?
  }

  /**
   * The loop over the answers the environment gives to successive attempts; None means that all of them were
   * retried and the loop is still going.
   */
  method RetryIo<T(==)>(answers: seq<Attempt<T>>) returns (result: Option<Attempt<T>>, events: seq<Event>)
    ensures result.None? ==> FailsFirst(answers, |answers|) && events == Retries(|answers|)
    ensures result.Some? ==>
      exists n :: (
        && 0 <= n < |answers| && FailsFirst(answers, n) && !answers[n].Retryable?
        && result == Some(answers[n]) && events == Retries(n) + [Fed, Tried])
  {
    var delaySeconds := 5;
    events := [];
    for n := 0 to |answers|
      invariant FailsFirst(answers, n) && delaySeconds == Delay(n) && events == Retries(n)
    {
      events := events + [Fed];
      events := events + [Tried];
      if !answers[n].Retryable? {
        assert events == Retries(n) + [Fed, Tried];
        return Some(answers[n]), events;
      }
      events := events + [Reported(delaySeconds)];
      ghost var before := events;
      for second := 0 to delaySeconds
        invariant events == before + Wait(second)
      {
        events := events + [Slept];
        events := events + [Fed];
        assert events == before + (Wait(second) + [Slept, Fed]);
      }
      assert before == Retries(n) + [Fed, Tried, Reported(Delay(n))];
      delaySeconds := Min(delaySeconds * 2, 60);
    }
    result := None;
  }

  /** Every sleep is followed at once by a feed. */
  predicate FedAfterSleep(events: seq<Event>)
  {
    forall i :: 0 <= i < |events| && events[i].Slept? ==> i + 1 < |events| && events[i + 1].Fed?
  }

  lemma FedAppend(a: seq<Event>, b: seq<Event>)
    requires FedAfterSleep(a) && FedAfterSleep(b)
    ensures FedAfterSleep(a + b)
  {
    forall i | 0 <= i < |a + b| && (a + b)[i].Slept? ensures i + 1 < |a + b| && (a + b)[i + 1].Fed? {
      if i < |a| { assert a[i].Slept?; } else { assert b[i - |a|].Slept?; }
    }
  }

  lemma {:induction false} WaitIsFed(n: nat)
    ensures FedAfterSleep(Wait(n))
  {
    if n > 0 {
      WaitIsFed(n - 1);
      FedAppend(Wait(n - 1), [Slept, Fed]);
    }
  }

  lemma {:induction false} RetriesAreFed(n: nat)
    ensures FedAfterSleep(Retries(n))
  {
    if n > 0 {
      RetriesAreFed(n - 1);
      WaitIsFed(Delay(n - 1));
      FedAppend(Retries(n - 1), [Fed, Tried, Reported(Delay(n - 1))]);
      FedAppend(Retries(n - 1) + [Fed, Tried, Reported(Delay(n - 1))], Wait(Delay(n - 1)));
    }
  }

  /** However long the storage keeps failing, the watchdog is fed between any two sleeps. */
  lemma FedBetweenSleeps(n: nat, i: nat, j: nat) returns (k: nat)
    requires i < j < |Retries(n)| && Retries(n)[i].Slept? && Retries(n)[j].Slept?
    ensures i < k < j && Retries(n)[k].Fed?
  {
    RetriesAreFed(n);
    k := i + 1;
  }

  function Sleeps(events: seq<Event>): nat
    decreases |events|
  {
    if events == [] then 0 else Sleeps(events[..|events| - 1]) + if events[|events| - 1].Slept? then 1 else 0
  }

  lemma {:induction false} SleepsAppend(a: seq<Event>, b: seq<Event>)
    ensures Sleeps(a + b) == Sleeps(a) + Sleeps(b)
    decreases |b|
  {
    if b == [] {
      assert a + b == a;
    } else {
      assert (a + b)[..|a + b| - 1] == a + b[..|b| - 1];
      SleepsAppend(a, b[..|b| - 1]);
    }
  }

  lemma {:induction false} WaitSleeps(n: nat)
    ensures Sleeps(Wait(n)) == n
  {
    if n > 0 {
      WaitSleeps(n - 1);
      SleepsAppend(Wait(n - 1), [Slept, Fed]);
      assert [Slept, Fed][..1] == [Slept] && [Slept][..0] == [];
      assert Sleeps([Slept]) == 1;
    }
  }

  /** After the k-th consecutive failure the loop sleeps min(60, 5 * 2^k) seconds, as the transport's restarts do. */
  lemma RetryWaits(k: nat)
    ensures Retries(k) <= Retries(k + 1)
    ensures Sleeps(Retries(k + 1)) - Sleeps(Retries(k)) == Delay(k)
  {
    var attempt := [Fed, Tried, Reported(Delay(k))];
    SleepsAppend(Retries(k) + attempt, Wait(Delay(k)));
    SleepsAppend(Retries(k), attempt);
    WaitSleeps(Delay(k));
    assert attempt[..2] == [Fed, Tried] && [Fed, Tried][..1] == [Fed] && [Fed][..0] == [];
    assert Sleeps([Fed]) == 0 && Sleeps([Fed, Tried]) == 0;
  }
}
