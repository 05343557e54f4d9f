/** Waiting for a freshly started service by asking systemd directly
    (panel/infrastructure/vpn/service_ready.py). The clock only moves when a probe runs or the process
    sleeps; what systemd and the journal answer, and how long they take, is not known in advance. */
module ServiceReady {

  const SECOND := 1_000_000

  datatype Question = StartFailed | Running | Marker | Journal

  datatype Event = Asked(question: Question, answer: bool) | Slept(time: nat)

  /** How a wait ends: `Failed` is ServiceNotReadyError, `Broken` any other exception of a probe. */
  datatype Outcome = Ready | NotReady | Failed | Broken

  datatype Probe = Probe(answer: bool, breaks: bool, cost: nat)

  datatype Timing = Timing(timeout: nat, settle: nat, maxWait: nat, maxCost: nat)

  /** The i-th event is what really happened. */
  predicate HappenedAt(trace: seq<Event>, i: nat, probes: nat -> Probe)
    requires i < |trace|
  {
    trace[i].Asked? ==> trace[i].answer == probes(i).answer
  }

  predicate Happened(trace: seq<Event>, probes: nat -> Probe)
  {
    forall i :: 0 <= i < |trace| ==> HappenedAt(trace, i, probes)
  }

  function Cost(e: Event, i: nat, probes: nat -> Probe): nat
  {
    if e.Slept? then e.time else probes(i).cost
  }

  function Elapsed(trace: seq<Event>, probes: nat -> Probe): nat
  {
    if trace == [] then 0
    else
      var n := |trace| - 1;
      Elapsed(trace[..n], probes) + Cost(trace[n], n, probes)
  }

  lemma OneMore(trace: seq<Event>, e: Event, probes: nat -> Probe)
    ensures Elapsed(trace + [e], probes) == Elapsed(trace, probes) + Cost(e, |trace|, probes)
  {
    assert (trace + [e])[..|trace|] == trace;
  }

  /** What may be asked after what: a failure check opens every round, the state is asked only after a check
      that found no failure, and the marker only after "running". */
  predicate AskedAfter(a: Event, q: Question)
  {
    match q
    case StartFailed => a.Slept? || a.question.Journal? || a == Asked(StartFailed, false)
    case Running => a == Asked(StartFailed, false)
    case Marker => a == Asked(Running, true)
    case Journal => a.Slept? || a.question.StartFailed?
  }

  /** The service settles after its first "running"; a round that does not end the wait ends with a second of rest. */
  predicate SleptAfter(a: Event, time: nat, settle: nat)
  {
    (a == Asked(Running, true) && time == settle) || ((a == Asked(Running, false) || a == Asked(Marker, false)) && time == SECOND)
  }

  predicate Follows(a: Event, b: Event, settle: nat)
  {
    match b
    case Asked(q, _) => AskedAfter(a, q)
    case Slept(time) => SleptAfter(a, time, settle)
  }

  /** From the `from`-th event on, everything came in order. */
  predicate InOrder(trace: seq<Event>, from: nat, settle: nat)
  {
    forall i :: from < i < |trace| ==> CameInOrder(trace, i, settle)
  }

  predicate CameInOrder(trace: seq<Event>, i: nat, settle: nat)
    requires 0 < i < |trace|
  {
    Follows(trace[i - 1], trace[i], settle)
  }

  lemma OrderGrows(trace: seq<Event>, e: Event, from: nat, settle: nat)
    requires from <= |trace| && InOrder(trace, from, settle) && (|trace| > from ==> Follows(trace[|trace| - 1], e, settle))
    ensures InOrder(trace + [e], from, settle)
  {
    forall i | from < i < |trace| + 1 ensures CameInOrder(trace + [e], i, settle) {
      assert i < |trace| ==> CameInOrder(trace, i, settle);
    }
  }

  /** From the `from`-th event on, no probe broke, except the very last event if the wait broke. */
  predicate BrokeAtEnd(trace: seq<Event>, from: nat, broken: bool, probes: nat -> Probe)
  {
    && (forall i :: from <= i < |trace| && BrokeAt(trace, i, probes) ==> broken && i == |trace| - 1)
    && (broken ==> |trace| > from && BrokeAt(trace, |trace| - 1, probes))
  }

  predicate BrokeAt(trace: seq<Event>, i: nat, probes: nat -> Probe)
    requires i < |trace|
  {
    trace[i].Asked? && probes(i).breaks
  }

  lemma TraceGrows(trace: seq<Event>, e: Event, from: nat, probes: nat -> Probe)
    requires from <= |trace| && Happened(trace, probes) && BrokeAtEnd(trace, from, false, probes)
    requires e.Asked? ==> e.answer == probes(|trace|).answer
    ensures Happened(trace + [e], probes) && BrokeAtEnd(trace + [e], from, e.Asked? && probes(|trace|).breaks, probes)
  {
    var more := trace + [e];
    forall i | 0 <= i < |more| ensures HappenedAt(more, i, probes) {
      assert i < |trace| ==> HappenedAt(trace, i, probes);
    }
    forall i | from <= i < |more| && BrokeAt(more, i, probes) ensures i == |trace| {
      assert i < |trace| ==> BrokeAt(trace, i, probes);
    }
    assert BrokeAt(more, |trace|, probes) <==> e.Asked? && probes(|trace|).breaks;
  }

  class Host {
    var now: nat
    var trace: seq<Event>
    /** What the n-th event answers, if it is a question. */
    const probes: nat -> Probe
    const timing: Timing

    /** The trace says what the probes answered, and the clock is the sum of their costs and of the sleeps. */
    ghost predicate Valid()
      reads this
    {
      && (forall n :: 1 <= probes(n).cost <= timing.maxCost)
      && Happened(trace, probes)
      && now == Elapsed(trace, probes)
    }

    ghost predicate Ended(from: nat, broken: bool)
      reads this
    {
      from <= |trace| && InOrder(trace, from, timing.settle) && BrokeAtEnd(trace, from, broken, probes)
    }

    constructor (probes: nat -> Probe, timing: Timing)
      requires forall n :: 1 <= probes(n).cost <= timing.maxCost
      ensures Valid() && this.probes == probes && this.timing == timing && trace == []
    {
      this.probes := probes;
      this.timing := timing;
      now := 0;
      trace := [];
    }

    method Ask(q: Question, ghost from: nat) returns (answer: bool, broken: bool)
      requires Valid() && Ended(from, false) && (|trace| > from ==> AskedAfter(trace[|trace| - 1], q))
      modifies this
      ensures Valid() && Ended(from, broken) && old(now) < now <= old(now) + timing.maxCost
      ensures trace == old(trace) + [Asked(q, answer)]
    {
      var p := probes(|trace|);
      answer, broken := p.answer, p.breaks;
      OneMore(trace, Asked(q, answer), probes);
      OrderGrows(trace, Asked(q, answer), from, timing.settle);
      TraceGrows(trace, Asked(q, answer), from, probes);
      trace := trace + [Asked(q, answer)];
      now := now + p.cost;
    }

    method Sleep(time: nat, ghost from: nat)
      requires Valid() && Ended(from, false) && |trace| > from && SleptAfter(trace[|trace| - 1], time, timing.settle)
      modifies this
      ensures Valid() && Ended(from, false) && now == old(now) + time && trace == old(trace) + [Slept(time)]
    {
      OneMore(trace, Slept(time), probes);
      OrderGrows(trace, Slept(time), from, timing.settle);
      TraceGrows(trace, Slept(time), from, probes);
      now := now + time;
      trace := trace + [Slept(time)];
    }

    /** `_raise_service_failed`: reads the journal for the message, then raises. */
    method RaiseServiceFailed(ghost from: nat) returns (o: Outcome)
      requires Valid() && Ended(from, false) && |trace| > from && trace[|trace| - 1] == Asked(StartFailed, true)
      modifies this
      ensures Valid() && Ended(from, o.Broken?) && old(now) < now <= old(now) + timing.maxCost && (o.Failed? || o.Broken?)
      ensures |trace| == |old(trace)| + 1 && old(trace) <= trace && ReportedFailure(trace)
    {
      var _, broken := Ask(Journal, from);
      o := if broken then Broken else Failed;
    }

    /** `if _systemd_start_failed(...): _raise_service_failed(...)`; NotReady goes on. */
    method RaiseIfFailed(ghost from: nat) returns (o: Outcome)
      requires Valid() && Ended(from, false) && (|trace| > from ==> AskedAfter(trace[|trace| - 1], StartFailed))
      modifies this
      ensures Valid() && Ended(from, o.Broken?) && !o.Ready? && |old(trace)| < |trace| && old(trace) <= trace
      ensures old(now) < now <= old(now) + 2 * timing.maxCost
      ensures o.NotReady? ==> now <= old(now) + timing.maxCost && trace == old(trace) + [Asked(StartFailed, false)]
      ensures o.Failed? ==> |trace| == |old(trace)| + 2 && ReportedFailure(trace)
    {
      var failed, broken := Ask(StartFailed, from);
      if broken { return Broken; }
      if !failed { return NotReady; }
      o := RaiseServiceFailed(from);
    }

    /** The part of a round after the first "running"; NotReady goes on. */
    method CheckSettled(ghost from: nat) returns (o: Outcome)
      requires Valid() && Ended(from, false) && |trace| > from && trace[|trace| - 1] == Asked(Running, true)
      modifies this
      ensures Valid() && old(trace) < trace && Ended(from, o.Broken?)
      ensures old(now) <= now <= old(now) + timing.settle + 3 * timing.maxCost
      ensures o.NotReady? ==> trace[|trace| - 1] == Asked(Running, false) || trace[|trace| - 1] == Asked(Marker, false)
      ensures o.Failed? ==> |trace| >= |old(trace)| + 2 && ReportedFailure(trace)
      ensures o.Ready? ==> |trace| >= |old(trace)| + 4 && SawReady(trace, timing.settle)
    {
      Sleep(timing.settle, from);
      o := RaiseIfFailed(from);
      if !o.NotReady? { return; }
      ghost var checked := trace;
      o := CheckMarker(from);
      assert old(trace) < trace;
      if o.Ready? {
        EndsReady(old(trace), checked, trace, timing.settle);
      }
    }

    /** ... and the part after the second failure check. */
    method CheckMarker(ghost from: nat) returns (o: Outcome)
      requires Valid() && Ended(from, false) && |trace| > from && trace[|trace| - 1] == Asked(StartFailed, false)
      modifies this
      ensures Valid() && old(trace) < trace && Ended(from, o.Broken?) && !o.Failed?
      ensures old(now) < now <= old(now) + 2 * timing.maxCost
      ensures o.NotReady? ==> trace[|trace| - 1] == Asked(Running, false) || trace[|trace| - 1] == Asked(Marker, false)
      ensures o.Ready? ==> trace == old(trace) + [Asked(Running, true), Asked(Marker, true)]
    {
      var running, broken := Ask(Running, from);
      if broken { return Broken; }
      if !running { return NotReady; }
      var marker;
      marker, broken := Ask(Marker, from);
      o := if broken then Broken else if marker then Ready else NotReady;
    }

    /** One round of the inner loop; NotReady goes on. */
    method Round(ghost from: nat) returns (o: Outcome)
      requires Valid() && Ended(from, false) && (|trace| > from ==> AskedAfter(trace[|trace| - 1], StartFailed))
      modifies this
      ensures Valid() && old(trace) < trace && Ended(from, o.Broken?)
      ensures old(now) < now <= old(now) + timing.settle + SECOND + 5 * timing.maxCost
      ensures o.NotReady? ==> trace[|trace| - 1].Slept?
      ensures o.Failed? ==> |trace| >= |old(trace)| + 2 && ReportedFailure(trace)
      ensures o.Ready? ==> |trace| >= |old(trace)| + 6 && SawReady(trace, timing.settle)
    {
      o := RaiseIfFailed(from);
      if !o.NotReady? { return; }
      var running, broken := Ask(Running, from);
      if broken { return Broken; }
      assert |trace| == |old(trace)| + 2 && old(trace) < trace;
      if running {
        ghost var asked := trace;
        o := CheckSettled(from);
        assert asked < trace;
        if !o.NotReady? { return; }
      }
      assert SleptAfter(trace[|trace| - 1], SECOND, timing.settle);
      Sleep(SECOND, from);
      o := NotReady;
    }

    /** `_wait_direct_once`. */
    method WaitDirectOnce(ghost from: nat) returns (o: Outcome)
      requires Valid() && Ended(from, false) && (|trace| > from ==> AskedAfter(trace[|trace| - 1], StartFailed))
      modifies this
      ensures Valid() && old(trace) <= trace && Ended(from, o.Broken?)
      ensures old(now) <= now <= old(now) + timing.timeout + timing.settle + SECOND + 5 * timing.maxCost
      ensures o.NotReady? ==> now >= old(now) + timing.timeout && (trace == old(trace) || trace[|trace| - 1].Slept?)
      ensures o.Failed? ==> |trace| >= |old(trace)| + 2 && ReportedFailure(trace)
      ensures o.Ready? ==> |trace| >= |old(trace)| + 6 && SawReady(trace, timing.settle)
    {
      var deadline := now + timing.timeout;
      while now < deadline
        invariant Valid() && old(now) <= now <= deadline + timing.settle + SECOND + 5 * timing.maxCost
        invariant old(trace) <= trace && Ended(from, false)
        invariant trace == old(trace) || trace[|trace| - 1].Slept?
        decreases deadline - now
      {
        o := Round(from);
        if !o.NotReady? { return; }
      }
      return NotReady;
    }

    /** The handler of ServiceNotReadyError: passed on after a failure or past the deadline. */
    method AfterFailure(maxDeadline: nat, ghost from: nat) returns (o: Outcome)
      requires Valid() && Ended(from, false) && |trace| > from && AskedAfter(trace[|trace| - 1], StartFailed)
      modifies this
      ensures Valid() && old(trace) < trace && Ended(from, o.Broken?) && !o.Ready?
      ensures old(now) < now <= old(now) + timing.maxCost
      ensures o.NotReady? ==> trace[|trace| - 1] == Asked(StartFailed, false) && now < maxDeadline
      ensures o.Failed? ==> trace[|trace| - 1] == Asked(StartFailed, true) || now >= maxDeadline
    {
      var failed, broken := Ask(StartFailed, from);
      o := if broken then Broken else if failed || now >= maxDeadline then Failed else NotReady;
    }

    /** What follows the first check of a turn. */
    method WaitAndJudge(maxDeadline: nat, ghost from: nat) returns (o: Outcome)
      requires Valid() && Ended(from, false) && |trace| > from && trace[|trace| - 1] == Asked(StartFailed, false)
      modifies this
      ensures Valid() && old(trace) <= trace && Ended(from, o.Broken?)
      ensures old(now) <= now <= old(now) + timing.timeout + timing.settle + SECOND + 6 * timing.maxCost
      ensures o.NotReady? ==> trace[|trace| - 1].Slept? || trace[|trace| - 1] == Asked(StartFailed, false)
      ensures o.Ready? ==> |trace| >= |old(trace)| + 5 && SawReady(trace, timing.settle)
      ensures o.Failed? ==> SawFailure(trace) || now >= maxDeadline
    {
      o := WaitDirectOnce(from);
      if o.Failed? {
        ghost var reported := trace;
        o := AfterFailure(maxDeadline, from);
        assert old(trace) <= reported <= trace;
      }
    }

    /** One turn of the outer loop; NotReady goes on. */
    method Attempt(maxDeadline: nat, ghost from: nat) returns (o: Outcome)
      requires Valid() && Ended(from, false) && (|trace| > from ==> AskedAfter(trace[|trace| - 1], StartFailed))
      modifies this
      ensures Valid() && old(trace) <= trace && |trace| > |old(trace)| && Ended(from, o.Broken?)
      ensures old(now) < now <= old(now) + timing.timeout + timing.settle + SECOND + 7 * timing.maxCost
      ensures o.NotReady? ==> trace[|trace| - 1].Slept? || trace[|trace| - 1] == Asked(StartFailed, false)
      ensures o.Ready? ==> |trace| >= |old(trace)| + 5 && SawReady(trace, timing.settle)
      ensures o.Failed? ==> SawFailure(trace) || now >= maxDeadline
    {
      o := RaiseIfFailed(from);
      if !o.NotReady? { return; }
      ghost var checked := trace;
      o := WaitAndJudge(maxDeadline, from);
      assert old(trace) < checked <= trace;
    }

    /** `wait_for_service_ready` without the privileged wrapper. It always ends: normally only after systemd
        and the journal did answer "running, settled, not failed, still running, startup marker seen" at the
        end of this wait, with ServiceNotReadyError only after systemd did report a failure or the maximum
        wait is over, with another exception exactly when its last probe raised one, and never later than
        the maximum wait, one attempt and a fixed number of probes. */
    method WaitForServiceReady() returns (o: Outcome)
      requires Valid()
      modifies this
      ensures Valid() && !o.NotReady? && old(trace) <= trace && Ended(|old(trace)|, o.Broken?)
      ensures o.Ready? ==> |trace| >= |old(trace)| + 5 && SawReady(trace, timing.settle)
      ensures o.Failed? ==> |trace| > |old(trace)| && (SawFailure(trace) || now >= old(now) + timing.maxWait)
      ensures now <= old(now) + timing.maxWait + timing.timeout + timing.settle + SECOND + 8 * timing.maxCost
    {
      var maxDeadline := now + timing.maxWait;
      ghost var from := |trace|;
      while now < maxDeadline
        invariant Valid() && now <= maxDeadline + timing.timeout + timing.settle + SECOND + 7 * timing.maxCost
        invariant old(trace) <= trace && Ended(from, false)
        invariant trace == old(trace) || trace[|trace| - 1].Slept? || trace[|trace| - 1] == Asked(StartFailed, false)
        decreases maxDeadline - now
      {
        o := Attempt(maxDeadline, from);
        if !o.NotReady? { return; }
      }
      var _, broken := Ask(Journal, from);
      o := if broken then Broken else Failed;
    }
  }

  function ReadyEvents(settle: nat): seq<Event>
  {
    [Asked(Running, true), Slept(settle), Asked(StartFailed, false), Asked(Running, true), Asked(Marker, true)]
  }

  /** The last five events are the ones that make a service ready. */
  predicate SawReady(trace: seq<Event>, settle: nat)
  {
    |trace| >= 5 && trace[|trace| - 5..] == ReadyEvents(settle)
  }

  lemma EndsReady(running: seq<Event>, checked: seq<Event>, trace: seq<Event>, settle: nat)
    requires running != [] && running[|running| - 1] == Asked(Running, true)
    requires checked == running + [Slept(settle)] + [Asked(StartFailed, false)]
    requires trace == checked + [Asked(Running, true), Asked(Marker, true)]
    ensures SawReady(trace, settle)
  {
  }

  predicate ReportedFailure(trace: seq<Event>)
  {
    |trace| >= 2 && trace[|trace| - 2] == Asked(StartFailed, true) && trace[|trace| - 1].Asked? && trace[|trace| - 1].question.Journal?
  }

  /** systemd reported a failure, at the very end or just before the journal was read for the message. */
  predicate SawFailure(trace: seq<Event>)
  {
    (|trace| >= 1 && trace[|trace| - 1] == Asked(StartFailed, true)) || ReportedFailure(trace)
  }
}
