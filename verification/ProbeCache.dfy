/** The cache in front of the connectivity probe (`probe_config_connectivity` in
    panel/infrastructure/vpn/vpn_connectivity.py). Successes live longer than anything else. Calls run in
    pool threads without a lock: each reads the clock, looks into the cache, and a call that finds nothing
    fresh probes for seconds before it writes, while others do the same. */
module ProbeCache {
  import opened Wrappers

  type Key = (nat, int)

  /** `reachable`: yes, no, or not known. */
  datatype Reachability = Reachability(reachable: Option<bool>)

  datatype Entry = Entry(at: int, result: Reachability)

  const MAX_FAILURE_SECONDS := 15

  function FailureTtl(successTtl: int): int
  {
    if successTtl < MAX_FAILURE_SECONDS then successTtl else MAX_FAILURE_SECONDS
  }

  function Ttl(r: Reachability, successTtl: int): int
  {
    if r.reachable == Some(true) then successTtl else FailureTtl(successTtl)
  }

  type Entries = map<Key, Entry>

  predicate Served(cache: Entries, key: Key, now: int, successTtl: int)
  {
    key in cache && now - cache[key].at < Ttl(cache[key].result, successTtl)
  }

  class Cache {
    var entries: Entries
    const enabled: bool
    const successTtl: int

    constructor (enabled: bool, successTtl: int)
      ensures entries == map[] && this.enabled == enabled && this.successTtl == successTtl
    {
      entries := map[];
      this.enabled := enabled;
      this.successTtl := successTtl;
    }

    /** The read: the cached answer, if it is younger than its lifetime. */
    method Lookup(key: Key, now: int) returns (r: Option<Reachability>)
      ensures r == if Served(entries, key, now, successTtl) then Some(entries[key].result) else None
    {
      if key in entries {
        var cached := entries[key];
        var ttl := if cached.result.reachable == Some(true) then successTtl else FailureTtl(successTtl);
        if now - cached.at < ttl { return Some(cached.result); }
      }
      return None;
    }

    /** A call that no other call overlaps. `outcome` is what a real probe would answer now; a failing
        probe never raises. */
    method ProbeConfigConnectivity(key: Key, now: int, outcome: Reachability) returns (r: Reachability)
      modifies this
      ensures !enabled ==> r == Reachability(None) && entries == old(entries)
      ensures enabled && Served(old(entries), key, now, successTtl) ==> r == old(entries)[key].result && entries == old(entries)
      ensures enabled && !Served(old(entries), key, now, successTtl) ==> r == outcome && entries == old(entries)[key := Entry(now, outcome)]
    {
      if !enabled { return Reachability(None); }
      var cached := Lookup(key, now);
      if cached.Some? { return cached.value; }
      entries := entries[key := Entry(now, outcome)];
      return outcome;
    }
  }

  // ---- Overlapping calls ----

  /** A call with the instant it took at its start: still to look, or probing after finding nothing fresh. */
  datatype Call = Call(key: Key, now: int)
  datatype Stage = Waiting(call: Call) | Probing(call: Call)

  datatype State = State(clock: int, entries: Entries, calls: map<nat, Stage>)

  datatype Event = Arrive(id: nat, key: Key, now: int) | Look(id: nat) | Finish(id: nat, outcome: Reachability)

  const Empty := State(0, map[], map[])

  predicate Fresh(s: State, call: Call, successTtl: int)
  {
    Served(s.entries, call.key, call.now, successTtl)
  }

  function Next(s: State, e: Event, successTtl: int): Option<State>
  {
    match e
    case Arrive(id, key, now) =>
      if id in s.calls || now < s.clock then None
      else Some(s.(clock := now, calls := s.calls[id := Waiting(Call(key, now))]))
    case Look(id) =>
      if id !in s.calls || !s.calls[id].Waiting? then None
      else if Fresh(s, s.calls[id].call, successTtl) then Some(s.(calls := s.calls - {id}))
      else Some(s.(calls := s.calls[id := Probing(s.calls[id].call)]))
    case Finish(id, outcome) =>
      if id !in s.calls || !s.calls[id].Probing? then None
      else
        var call := s.calls[id].call;
        Some(s.(entries := s.entries[call.key := Entry(call.now, outcome)], calls := s.calls - {id}))
  }

  /** A call whose steps nothing comes between does what the method above does. */
  lemma AloneIsMethod(s: State, id: nat, call: Call, outcome: Reachability, successTtl: int)
    requires id !in s.calls && s.clock <= call.now
    ensures var arrived := Next(s, Arrive(id, call.key, call.now), successTtl);
            && arrived.Some?
            && var looked := Next(arrived.value, Look(id), successTtl);
               && looked.Some?
               && if Served(s.entries, call.key, call.now, successTtl)
                  then looked.value == s.(clock := call.now)
                  else Next(looked.value, Finish(id, outcome), successTtl)
                       == Some(s.(clock := call.now, entries := s.entries[call.key := Entry(call.now, outcome)]))
  {
    assert s.calls[id := Waiting(call)] - {id} == s.calls;
    assert s.calls[id := Waiting(call)][id := Probing(call)] - {id} == s.calls;
  }

  ghost predicate StepAt(states: seq<State>, events: seq<Event>, i: nat, successTtl: int)
    requires |states| == |events| + 1 && i < |events|
  {
    Next(states[i], events[i], successTtl) == Some(states[i + 1])
  }

  ghost predicate IsRun(states: seq<State>, events: seq<Event>, successTtl: int)
  {
    && |states| == |events| + 1 && states[0] == Empty
    && forall i :: 0 <= i < |events| ==> StepAt(states, events, i, successTtl)
  }

  /** The i-th event is a look that finds nothing fresh, so this call runs a real probe. */
  ghost predicate StartsProbe(states: seq<State>, events: seq<Event>, i: nat, id: nat, call: Call, successTtl: int)
  {
    && |states| == |events| + 1 && i < |events| && events[i] == Look(id)
    && id in states[i].calls && states[i].calls[id] == Waiting(call) && !Fresh(states[i], call, successTtl)
  }

  /** ... and this is where its answer is written. */
  ghost predicate EndsProbe(states: seq<State>, events: seq<Event>, i: nat, id: nat, call: Call, outcome: Reachability)
  {
    && |states| == |events| + 1 && i < |events| && events[i] == Finish(id, outcome)
    && id in states[i].calls && states[i].calls[id] == Probing(call)
  }

  predicate InFlight(s: State, id: nat, key: Key)
  {
    id in s.calls && s.calls[id].Probing? && s.calls[id].call.key == key
  }

  // ---- What is served is fresh ----

  lemma {:induction false} ProbingWasStarted(states: seq<State>, events: seq<Event>, n: nat, id: nat, successTtl: int)
    requires IsRun(states, events, successTtl) && n <= |events|
    requires id in states[n].calls && states[n].calls[id].Probing?
    ensures exists i :: 0 <= i < n && StartsProbe(states, events, i, id, states[n].calls[id].call, successTtl)
  {
    assert n > 0;
    assert StepAt(states, events, n - 1, successTtl);
    if id in states[n - 1].calls && states[n - 1].calls[id] == states[n].calls[id] {
      ProbingWasStarted(states, events, n - 1, id, successTtl);
    } else {
      assert StartsProbe(states, events, n - 1, id, states[n].calls[id].call, successTtl);
    }
  }

  /** Every entry is what the last finished probe of its version wrote. */
  ghost predicate WrittenBy(states: seq<State>, events: seq<Event>, n: nat, m: nat, id: nat, key: Key, entry: Entry)
  {
    && m < n && EndsProbe(states, events, m, id, Call(key, entry.at), entry.result)
    && forall k, other, call: Call, outcome :: m < k < n && call.key == key ==> !EndsProbe(states, events, k, other, call, outcome)
  }

  lemma {:induction false} EntryIsLastFinished(states: seq<State>, events: seq<Event>, n: nat, key: Key, successTtl: int)
    returns (m: nat, id: nat)
    requires IsRun(states, events, successTtl) && n <= |events| && key in states[n].entries
    ensures WrittenBy(states, events, n, m, id, key, states[n].entries[key])
  {
    assert n > 0;
    assert StepAt(states, events, n - 1, successTtl);
    if events[n - 1].Finish? && states[n - 1].calls[events[n - 1].id].call.key == key {
      m, id := n - 1, events[n - 1].id;
    } else {
      m, id := EntryIsLastFinished(states, events, n - 1, key, successTtl);
    }
  }

  lemma {:induction false} NoneFinished(states: seq<State>, events: seq<Event>, n: nat, key: Key, successTtl: int)
    requires IsRun(states, events, successTtl) && n <= |events| && key !in states[n].entries
    ensures forall k, id, call: Call, outcome :: 0 <= k < n && call.key == key ==> !EndsProbe(states, events, k, id, call, outcome)
  {
    if n > 0 {
      assert StepAt(states, events, n - 1, successTtl);
      NoneFinished(states, events, n - 1, key, successTtl);
    }
  }

  /** Whatever overlaps, an answer served from the cache was given by a real probe of that version that took
      its instant less than its lifetime before the served call did. */
  lemma ServedIsFresh(states: seq<State>, events: seq<Event>, n: nat, call: Call, successTtl: int)
    requires IsRun(states, events, successTtl) && n <= |events| && Fresh(states[n], call, successTtl)
    ensures exists i, m, id, at :: 0 <= i < m < n && StartsProbe(states, events, i, id, Call(call.key, at), successTtl)
              && EndsProbe(states, events, m, id, Call(call.key, at), states[n].entries[call.key].result)
              && call.now - at < Ttl(states[n].entries[call.key].result, successTtl)
  {
    var m, id := EntryIsLastFinished(states, events, n, call.key, successTtl);
    ProbingWasStarted(states, events, m, id, successTtl);
  }

  /** A call runs a real probe exactly when no probe of its version has finished yet, or the last one to
      finish is too old. A probe that is still running does not count. */
  lemma ProbesIff(states: seq<State>, events: seq<Event>, n: nat, call: Call, successTtl: int)
    requires IsRun(states, events, successTtl) && n <= |events|
    ensures !Fresh(states[n], call, successTtl)
            <==> forall m, id, at, outcome :: WrittenBy(states, events, n, m, id, call.key, Entry(at, outcome)) ==>
                   call.now - at >= Ttl(outcome, successTtl)
  {
    if call.key in states[n].entries {
      var entry := states[n].entries[call.key];
      var m0, id0 := EntryIsLastFinished(states, events, n, call.key, successTtl);
      forall m, id, at, outcome | WrittenBy(states, events, n, m, id, call.key, Entry(at, outcome)) ensures Entry(at, outcome) == entry {
        assert EndsProbe(states, events, m0, id0, Call(call.key, entry.at), entry.result);
        assert EndsProbe(states, events, m, id, Call(call.key, at), outcome);
      }
      assert WrittenBy(states, events, n, m0, id0, call.key, Entry(entry.at, entry.result));
    } else {
      NoneFinished(states, events, n, call.key, successTtl);
    }
  }

  // ---- How often real probes run ----

  /** Two probes of this version are in flight at once at some moment of the run. */
  ghost predicate Overlap(s: State, key: Key)
  {
    exists a, b :: a != b && InFlight(s, a, key) && InFlight(s, b, key)
  }

  ghost predicate NoOverlap(states: seq<State>, key: Key)
  {
    forall n :: 0 <= n < |states| ==> !Overlap(states[n], key)
  }

  /** After a probe of this version took its instant: it is still running, or an answer at least as young
      is stored and nothing older is running. */
  ghost predicate Covered(s: State, id: nat, call: Call)
  {
    || (id in s.calls && s.calls[id] == Probing(call))
    || (call.key in s.entries && s.entries[call.key].at >= call.now
        && forall k :: InFlight(s, k, call.key) ==> s.calls[k].call.now >= call.now)
  }

  lemma CoveredStep(s: State, e: Event, s': State, id: nat, call: Call, successTtl: int)
    requires Next(s, e, successTtl) == Some(s') && FailureTtl(successTtl) > 0
    requires Covered(s, id, call) && !Overlap(s, call.key) && !Overlap(s', call.key)
    ensures Covered(s', id, call)
  {
    match e {
      case Arrive(k, key, now) =>
        assert forall j :: InFlight(s', j, call.key) ==> InFlight(s, j, call.key) && s'.calls[j] == s.calls[j];
      case Look(k) =>
        assert forall j :: j != k && InFlight(s', j, call.key) ==> InFlight(s, j, call.key) && s'.calls[j] == s.calls[j];
      case Finish(k, outcome) =>
        assert forall j :: InFlight(s', j, call.key) ==> InFlight(s, j, call.key) && s'.calls[j] == s.calls[j];
        if id in s.calls && s.calls[id] == Probing(call) && s.calls[k].call.key == call.key {
          assert InFlight(s, id, call.key) && InFlight(s, k, call.key);
        }
    }
  }

  lemma {:induction false} CoveredLater(states: seq<State>, events: seq<Event>, i: nat, j: nat, id: nat, call: Call, successTtl: int)
    requires IsRun(states, events, successTtl) && i < j <= |events| && FailureTtl(successTtl) > 0
    requires StartsProbe(states, events, i, id, call, successTtl) && NoOverlap(states, call.key)
    ensures Covered(states[j], id, call)
    decreases j
  {
    assert StepAt(states, events, j - 1, successTtl);
    if i < j - 1 {
      CoveredLater(states, events, i, j - 1, id, call, successTtl);
      CoveredStep(states[j - 1], events[j - 1], states[j], id, call, successTtl);
    }
  }

  /** As long as no two probes of one version are ever in flight at once, two real probes of it are never
      closer than the failure lifetime. */
  lemma ProbesAreApart(states: seq<State>, events: seq<Event>, i: nat, a: nat, first: Call, j: nat, b: nat, second: Call, successTtl: int)
    requires IsRun(states, events, successTtl) && NoOverlap(states, first.key) && FailureTtl(successTtl) > 0
    requires i < j && first.key == second.key
    requires StartsProbe(states, events, i, a, first, successTtl) && StartsProbe(states, events, j, b, second, successTtl)
    ensures second.now - first.now >= FailureTtl(successTtl)
  {
    CoveredLater(states, events, i, j, a, first, successTtl);
    assert StepAt(states, events, j, successTtl);
    if a in states[j].calls && states[j].calls[a] == Probing(first) {
      assert InFlight(states[j + 1], a, first.key) && InFlight(states[j + 1], b, first.key);
    }
  }

  /** Places in the run where real probes of one version start, in order. */
  datatype Start = Start(at: nat, id: nat, call: Call)

  ghost predicate RealProbes(states: seq<State>, events: seq<Event>, starts: seq<Start>, key: Key, successTtl: int)
  {
    && (forall k :: 0 <= k < |starts| ==>
          starts[k].call.key == key && StartsProbe(states, events, starts[k].at, starts[k].id, starts[k].call, successTtl))
    && (forall k, l :: 0 <= k < l < |starts| ==> starts[k].at < starts[l].at)
  }

  /** Over any stretch of time, `n` real probes of one version that never overlap take at least `n - 1`
      failure lifetimes. */
  lemma {:induction false} ProbesTakeTime(states: seq<State>, events: seq<Event>, starts: seq<Start>, key: Key, successTtl: int)
    requires IsRun(states, events, successTtl) && NoOverlap(states, key) && FailureTtl(successTtl) > 0
    requires RealProbes(states, events, starts, key, successTtl) && |starts| > 0
    ensures starts[|starts| - 1].call.now - starts[0].call.now >= (|starts| - 1) * FailureTtl(successTtl)
  {
    if |starts| > 1 {
      var n := |starts| - 1;
      var front := starts[..n];
      assert forall k :: 0 <= k < |front| ==> front[k] == starts[k];
      ProbesTakeTime(states, events, front, key, successTtl);
      var a, b := starts[n - 1], starts[n];
      ProbesAreApart(states, events, a.at, a.id, a.call, b.at, b.id, b.call, successTtl);
      assert n * FailureTtl(successTtl) == (n - 1) * FailureTtl(successTtl) + FailureTtl(successTtl);
    }
  }

  // ---- Overlap does break the distance ----

  lemma Grow(states: seq<State>, events: seq<Event>, e: Event, successTtl: int) returns (states': seq<State>, events': seq<Event>)
    requires IsRun(states, events, successTtl) && Next(states[|events|], e, successTtl).Some?
    ensures IsRun(states', events', successTtl)
    ensures states' == states + [Next(states[|events|], e, successTtl).value] && events' == events + [e]
  {
    states', events' := states + [Next(states[|events|], e, successTtl).value], events + [e];
    forall i | 0 <= i < |events'| ensures StepAt(states', events', i, successTtl) {
      assert i < |events| ==> StepAt(states, events, i, successTtl);
    }
  }

  /** Two status requests at the same instant both find nothing and both probe. */
  lemma OverlappingProbes(key: Key, successTtl: int) returns (states: seq<State>, events: seq<Event>)
    ensures IsRun(states, events, successTtl)
    ensures StartsProbe(states, events, 2, 0, Call(key, 0), successTtl) && StartsProbe(states, events, 3, 1, Call(key, 0), successTtl)
  {
    states, events := [Empty], [];
    states, events := Grow(states, events, Arrive(0, key, 0), successTtl);
    states, events := Grow(states, events, Arrive(1, key, 0), successTtl);
    states, events := Grow(states, events, Look(0), successTtl);
    states, events := Grow(states, events, Look(1), successTtl);
  }

  /** A slow probe that fails last stores its old instant over a newer answer: a third call then probes
      again at the very instant of the second one, although the second had finished before it looked and
      nothing is in flight. */
  lemma SlowProbeOverwrites(key: Key, successTtl: int, failed: Reachability) returns (states: seq<State>, events: seq<Event>)
    requires FailureTtl(successTtl) > 0 && failed.reachable != Some(true)
    ensures IsRun(states, events, successTtl)
    ensures var t := FailureTtl(successTtl);
            && StartsProbe(states, events, 3, 1, Call(key, t), successTtl)
            && EndsProbe(states, events, 4, 1, Call(key, t), failed)
            && StartsProbe(states, events, 7, 2, Call(key, t), successTtl)
            && forall id :: !InFlight(states[7], id, key)
  {
    var t := FailureTtl(successTtl);
    states, events := [Empty], [];
    states, events := Grow(states, events, Arrive(0, key, 0), successTtl);
    states, events := Grow(states, events, Look(0), successTtl);
    states, events := Grow(states, events, Arrive(1, key, t), successTtl);
    states, events := Grow(states, events, Look(1), successTtl);
    states, events := Grow(states, events, Finish(1, failed), successTtl);
    states, events := Grow(states, events, Finish(0, failed), successTtl);
    states, events := Grow(states, events, Arrive(2, key, t), successTtl);
    states, events := Grow(states, events, Look(2), successTtl);
  }
}
