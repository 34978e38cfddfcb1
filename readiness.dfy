/**
 * The readiness probe of `clone_server`: up to STOP attempts to connect to
 * the new instance, each preceded by a one-second sleep, stopping at the
 * first attempt that connects. The outcome of attempt k (counted from 0)
 * is `probes[k]`; an attempt with no recorded outcome fails.
 */
module Readiness {
  import opened Wrappers

  /** The source's `stop`: the number of connection attempts allowed. */
  const STOP: nat := 10

  /** One step of the probe, as seen from outside. */
  datatype ProbeEvent = Sleep | Connect(connected: bool)

  /** What the probe concludes: ready after n attempts, or given up. */
  datatype ProbeResult = Ready(attempts: nat) | Unreachable

  /** Whether attempt k connects. */
  function Attempt(probes: seq<bool>, k: nat): bool {
    k < |probes| && probes[k]
  }

  /** The first attempt in [from, STOP) that connects. */
  function FirstConnect(probes: seq<bool>, from: nat): Option<nat>
    decreases STOP - from
  {
    if from >= STOP then None
    else if Attempt(probes, from) then Some(from)
    else FirstConnect(probes, from + 1)
  }

  /** What the probe concludes from the connection outcomes. */
  function ReadinessOf(probes: seq<bool>): ProbeResult {
    match FirstConnect(probes, 0)
    case Some(k) => Ready(k + 1)
    case None => Unreachable
  }

  /** How many attempts the probe makes. */
  function AttemptsMade(probes: seq<bool>): nat {
    match ReadinessOf(probes)
    case Ready(n) => n
    case Unreachable => STOP
  }

  /** The sleep and the connection attempt of each of the first n attempts. */
  function ProbeEvents(probes: seq<bool>, n: nat): (events: seq<ProbeEvent>)
    ensures |events| == 2 * n
    decreases n
  {
    if n == 0 then [] else ProbeEvents(probes, n - 1) + [Sleep, Connect(Attempt(probes, n - 1))]
  }

  lemma {:induction false} FirstConnectIs(probes: seq<bool>, from: nat, k: nat)
    ensures FirstConnect(probes, from) == Some(k) <==>
      from <= k < STOP && Attempt(probes, k) && forall j :: from <= j < k ==> !Attempt(probes, j)
    decreases STOP - from
  {
    if from < STOP && !Attempt(probes, from) {
      FirstConnectIs(probes, from + 1, k);
    }
  }

  lemma {:induction false} FirstConnectNone(probes: seq<bool>, from: nat)
    ensures FirstConnect(probes, from) == None <==> forall j :: from <= j < STOP ==> !Attempt(probes, j)
    decreases STOP - from
  {
    if from < STOP && !Attempt(probes, from) {
      FirstConnectNone(probes, from + 1);
    }
  }

  /** The probe gives up exactly when none of the STOP attempts connects. */
  lemma UnreachableIff(probes: seq<bool>)
    ensures ReadinessOf(probes) == Unreachable <==> forall k :: 0 <= k < STOP ==> !Attempt(probes, k)
  {
    FirstConnectNone(probes, 0);
  }

  /**
   * The probe succeeds after n attempts exactly when attempt n-1 is the
   * first to connect, and n is at most STOP, the last attempt included.
   */
  lemma ReadyIff(probes: seq<bool>, n: nat)
    ensures ReadinessOf(probes) == Ready(n) <==>
      1 <= n <= STOP && Attempt(probes, n - 1) && forall k :: 0 <= k < n - 1 ==> !Attempt(probes, k)
  {
    if n >= 1 {
      FirstConnectIs(probes, 0, n - 1);
    }
    match FirstConnect(probes, 0)
    case Some(k) => FirstConnectIs(probes, 0, k);
    case None =>
  }

  /**
   * A connection on the last allowed attempt still counts: the success
   * sentinel STOP + 1 differs from the give-up value STOP.
   */
  lemma LastAttemptCounts(probes: seq<bool>)
    requires forall k :: 0 <= k < STOP - 1 ==> !Attempt(probes, k)
    requires Attempt(probes, STOP - 1)
    ensures ReadinessOf(probes) == Ready(STOP)
  {
    ReadyIff(probes, STOP);
  }

  /**
   * The probe makes between 1 and STOP attempts; all but the last of them
   * fail, and the last one connects exactly when the probe reports success.
   */
  lemma AttemptsStopAtFirstConnect(probes: seq<bool>)
    ensures 1 <= AttemptsMade(probes) <= STOP
    ensures forall k :: 0 <= k < AttemptsMade(probes) - 1 ==> !Attempt(probes, k)
    ensures ReadinessOf(probes).Ready? <==> Attempt(probes, AttemptsMade(probes) - 1)
  {
    match ReadinessOf(probes)
    case Ready(n) => ReadyIff(probes, n);
    case Unreachable => UnreachableIff(probes);
  }

  /** Attempt k of the probe is a sleep followed by one connection attempt. */
  lemma {:induction false} ProbeEventsAt(probes: seq<bool>, n: nat, k: nat)
    requires k < n
    ensures ProbeEvents(probes, n)[2 * k] == Sleep
    ensures ProbeEvents(probes, n)[2 * k + 1] == Connect(Attempt(probes, k))
    decreases n
  {
    if k < n - 1 {
      ProbeEventsAt(probes, n - 1, k);
    }
  }

  /** Each connection attempt of the probe comes right after a sleep. */
  lemma {:induction false} SleepBeforeConnect(probes: seq<bool>, n: nat, m: nat)
    requires m < 2 * n && ProbeEvents(probes, n)[m].Connect?
    ensures m >= 1 && ProbeEvents(probes, n)[m - 1] == Sleep
    decreases n
  {
    if m < 2 * n - 2 {
      SleepBeforeConnect(probes, n - 1, m);
    }
  }

  /**
   * The source's loop: `i` counts attempts and is set to STOP + 1 when a
   * connection succeeds, which ends the loop; `i == STOP` afterwards means
   * that every attempt failed.
   */
  method WaitUntilReady(probes: seq<bool>) returns (r: ProbeResult, events: seq<ProbeEvent>)
    ensures r == ReadinessOf(probes)
    ensures events == ProbeEvents(probes, AttemptsMade(probes))
  {
    var stop := STOP;
    var i := 0;
    var made := 0;
    events := [];
    while i < stop
      invariant 0 <= made <= stop && (i == made || i == stop + 1)
      invariant forall k :: 0 <= k < made && (i <= stop || k < made - 1) ==> !Attempt(probes, k)
      invariant i == stop + 1 ==> made >= 1 && Attempt(probes, made - 1)
      invariant events == ProbeEvents(probes, made)
      decreases stop + 1 - i
    {
      i := i + 1;
      made := made + 1;
      var connected := Attempt(probes, made - 1);
      events := events + [Sleep, Connect(connected)];
      if connected {
        i := stop + 1;
      }
    }
    if i == stop {
      r := Unreachable;
      UnreachableIff(probes);
    } else {
      r := Ready(made);
      ReadyIff(probes, made);
    }
  }
}
