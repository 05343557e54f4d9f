/** The fixed-window request limiter (panel/infrastructure/persistence/repositories/rate_limit.py).
    Time is counted in microseconds; a window starts at a multiple of its length in seconds. */
module RateLimit {

  const SECOND := 1_000_000

  function WindowStart(now: nat, windowSeconds: nat): nat
    requires windowSeconds > 0
  {
    now / SECOND / windowSeconds * windowSeconds
  }

  datatype Call = Call(key: string, limit: int, windowSeconds: nat, now: nat) {
    predicate Valid()
    {
      windowSeconds > 0
    }

    function Row(): (string, nat)
      requires Valid()
    {
      (key, WindowStart(now, windowSeconds))
    }
  }

  type Counts = map<(string, nat), nat>

  function CountOf(counts: Counts, row: (string, nat)): nat
  {
    if row in counts then counts[row] else 0
  }

  /** The upsert: a call is counted whether it is admitted or not. */
  function Counted(counts: Counts, c: Call): Counts
    requires c.Valid()
  {
    counts[c.Row() := CountOf(counts, c.Row()) + 1]
  }

  predicate Admits(counts: Counts, c: Call)
    requires c.Valid()
  {
    CountOf(Counted(counts, c), c.Row()) <= c.limit
  }

  class RateLimiter {
    var counts: Counts

    constructor ()
      ensures counts == map[]
    {
      counts := map[];
    }

    method CheckAndIncrement(scope: string, identifier: string, limit: int, windowSeconds: nat, now: nat) returns (admitted: bool)
      requires windowSeconds > 0
      modifies this
      ensures var c := Call(scope + ":" + identifier, limit, windowSeconds, now);
              counts == Counted(old(counts), c) && admitted == Admits(old(counts), c)
    {
      var windowStart := now / SECOND / windowSeconds * windowSeconds;
      var row := (scope + ":" + identifier, windowStart);
      var count := if row in counts then counts[row] + 1 else 1;
      counts := counts[row := count];
      admitted := count <= limit;
    }

    method CurrentCount(scope: string, identifier: string, windowSeconds: nat, now: nat) returns (count: nat)
      requires windowSeconds > 0
      ensures count == CountOf(counts, (scope + ":" + identifier, WindowStart(now, windowSeconds)))
    {
      var row := (scope + ":" + identifier, now / SECOND / windowSeconds * windowSeconds);
      count := if row in counts then counts[row] else 0;
    }
  }

  // ---- Runs of calls, in any order of keys and times ----

  ghost predicate AllValid(calls: seq<Call>)
  {
    forall i :: 0 <= i < |calls| ==> calls[i].Valid()
  }

  ghost function CountsAfter(calls: seq<Call>): Counts
    requires AllValid(calls)
  {
    if calls == [] then map[] else Counted(CountsAfter(calls[..|calls| - 1]), calls[|calls| - 1])
  }

  /** How many of the selected calls there are, and how many of them are admitted. */
  ghost function Seen(calls: seq<Call>, chosen: Call -> bool): nat
  {
    if calls == [] then 0 else Seen(calls[..|calls| - 1], chosen) + if chosen(calls[|calls| - 1]) then 1 else 0
  }

  ghost function Admitted(calls: seq<Call>, chosen: Call -> bool): nat
    requires AllValid(calls)
  {
    if calls == [] then 0
    else
      var before, last := calls[..|calls| - 1], calls[|calls| - 1];
      Admitted(before, chosen) + if chosen(last) && Admits(CountsAfter(before), last) then 1 else 0
  }

  predicate InRow(c: Call, row: (string, nat))
  {
    c.Valid() && c.Row() == row
  }

  ghost function Selects(row: (string, nat)): Call -> bool
  {
    (c: Call) => InRow(c, row)
  }

  lemma {:induction false} CountIsSeen(calls: seq<Call>, row: (string, nat))
    requires AllValid(calls)
    ensures CountOf(CountsAfter(calls), row) == Seen(calls, Selects(row))
  {
    if calls != [] {
      CountIsSeen(calls[..|calls| - 1], row);
    }
  }

  /** The rule of a key never changes. */
  ghost predicate Ruled(calls: seq<Call>, key: string, limit: nat, windowSeconds: nat)
  {
    forall i :: 0 <= i < |calls| && calls[i].key == key ==> calls[i].limit == limit && calls[i].windowSeconds == windowSeconds
  }

  function Min(a: nat, b: nat): nat
  {
    if a <= b then a else b
  }

  /** In every window of a key exactly the first calls up to the limit are admitted. */
  lemma {:induction false} WindowAdmits(calls: seq<Call>, key: string, limit: nat, windowSeconds: nat, start: nat)
    requires AllValid(calls) && Ruled(calls, key, limit, windowSeconds)
    ensures Admitted(calls, Selects((key, start))) == Min(Seen(calls, Selects((key, start))), limit)
  {
    if calls != [] {
      var before, last := calls[..|calls| - 1], calls[|calls| - 1];
      WindowAdmits(before, key, limit, windowSeconds, start);
      CountIsSeen(before, (key, start));
      assert calls[|calls| - 1] == last;
    }
  }

  lemma {:induction false} AdmittedCovered(calls: seq<Call>, chosen: Call -> bool, a: Call -> bool, b: Call -> bool)
    requires AllValid(calls)
    requires forall i :: 0 <= i < |calls| && chosen(calls[i]) ==> a(calls[i]) || b(calls[i])
    ensures Admitted(calls, chosen) <= Admitted(calls, a) + Admitted(calls, b)
  {
    if calls != [] {
      AdmittedCovered(calls[..|calls| - 1], chosen, a, b);
    }
  }

  /** Calls for a key within an interval as long as the window, wherever it begins. */
  ghost function Within(key: string, from: nat, windowSeconds: nat): Call -> bool
  {
    (c: Call) => c.key == key && from <= c.now < from + windowSeconds * SECOND
  }

  lemma Quotient(x: nat, w: nat)
    requires w > 0
    ensures x / w * w <= x < x / w * w + w
  {
  }

  lemma Times(a: nat, b: nat, w: nat)
    requires a < b
    ensures a * w + w <= b * w
  {
    assert b * w == a * w + (b - a) * w;
    assert (b - a) * w == w + (b - a - 1) * w;
  }

  lemma QuotientIs(y: nat, q: nat, w: nat)
    requires w > 0 && q * w <= y < q * w + w
    ensures y / w == q
  {
    var p := y / w;
    Quotient(y, w);
    if p < q {
      Times(p, q, w);
    } else if q < p {
      Times(q, p, w);
    }
  }

  lemma NextQuotient(x: nat, y: nat, w: nat)
    requires w > 0 && x <= y <= x + w
    ensures y / w == x / w || y / w == x / w + 1
  {
    var q := x / w;
    Quotient(x, w);
    assert (q + 1) * w == q * w + w;
    if y < q * w + w {
      QuotientIs(y, q, w);
    } else {
      QuotientIs(y, q + 1, w);
    }
  }

  /** An interval as long as a window meets at most two windows. */
  lemma TwoWindows(from: nat, now: nat, windowSeconds: nat)
    requires windowSeconds > 0 && from <= now < from + windowSeconds * SECOND
    ensures WindowStart(now, windowSeconds) == WindowStart(from, windowSeconds)
            || WindowStart(now, windowSeconds) == WindowStart(from, windowSeconds) + windowSeconds
  {
    var a, b := from / SECOND, now / SECOND;
    assert a <= b <= a + windowSeconds;
    NextQuotient(a, b, windowSeconds);
    assert (a / windowSeconds + 1) * windowSeconds == a / windowSeconds * windowSeconds + windowSeconds;
  }

  /** However the calls are spread, no interval as long as the window, aligned or not, sees more than
      twice the limit admitted. */
  lemma IntervalAdmitsAtMostTwice(calls: seq<Call>, key: string, limit: nat, windowSeconds: nat, from: nat)
    requires windowSeconds > 0 && AllValid(calls) && Ruled(calls, key, limit, windowSeconds)
    ensures Admitted(calls, Within(key, from, windowSeconds)) <= 2 * limit
  {
    var start := WindowStart(from, windowSeconds);
    var first, second := Selects((key, start)), Selects((key, start + windowSeconds));
    forall i | 0 <= i < |calls| && Within(key, from, windowSeconds)(calls[i]) ensures first(calls[i]) || second(calls[i]) {
      TwoWindows(from, calls[i].now, windowSeconds);
    }
    AdmittedCovered(calls, Within(key, from, windowSeconds), first, second);
    WindowAdmits(calls, key, limit, windowSeconds, start);
    WindowAdmits(calls, key, limit, windowSeconds, start + windowSeconds);
  }

  // ---- The bound is met ----

  /** `n` calls at one instant. */
  function Burst(key: string, limit: nat, windowSeconds: nat, now: nat, n: nat): seq<Call>
  {
    if n == 0 then [] else Burst(key, limit, windowSeconds, now, n - 1) + [Call(key, limit, windowSeconds, now)]
  }

  lemma {:induction false} SeenConcat(a: seq<Call>, b: seq<Call>, chosen: Call -> bool)
    ensures Seen(a + b, chosen) == Seen(a, chosen) + Seen(b, chosen)
  {
    if b == [] {
      assert a + b == a;
    } else {
      var front := b[..|b| - 1];
      assert (a + b)[..|a + b| - 1] == a + front;
      SeenConcat(a, front, chosen);
    }
  }

  lemma {:induction false} BurstSeen(key: string, limit: nat, windowSeconds: nat, now: nat, n: nat, chosen: Call -> bool)
    ensures Seen(Burst(key, limit, windowSeconds, now, n), chosen) == if chosen(Call(key, limit, windowSeconds, now)) then n else 0
  {
    if n > 0 {
      var all := Burst(key, limit, windowSeconds, now, n);
      assert all[..|all| - 1] == Burst(key, limit, windowSeconds, now, n - 1);
      BurstSeen(key, limit, windowSeconds, now, n - 1, chosen);
    }
  }

  lemma {:induction false} BurstCalls(key: string, limit: nat, windowSeconds: nat, now: nat, n: nat)
    ensures forall i :: 0 <= i < |Burst(key, limit, windowSeconds, now, n)| ==>
              Burst(key, limit, windowSeconds, now, n)[i] == Call(key, limit, windowSeconds, now)
  {
    if n > 0 {
      BurstCalls(key, limit, windowSeconds, now, n - 1);
    }
  }

  lemma {:induction false} AdmittedSplit(calls: seq<Call>, chosen: Call -> bool, a: Call -> bool, b: Call -> bool)
    requires AllValid(calls)
    requires forall i :: 0 <= i < |calls| ==> (chosen(calls[i]) <==> a(calls[i]) || b(calls[i])) && !(a(calls[i]) && b(calls[i]))
    ensures Admitted(calls, chosen) == Admitted(calls, a) + Admitted(calls, b)
  {
    if calls != [] {
      AdmittedSplit(calls[..|calls| - 1], chosen, a, b);
    }
  }

  /** The calls of the worst case: a burst just before a window ends and one as the next begins. */
  function Bursts(key: string, limit: nat, windowSeconds: nat): seq<Call>
    requires windowSeconds > 0
  {
    Burst(key, limit, windowSeconds, windowSeconds * SECOND - 1, limit) + Burst(key, limit, windowSeconds, windowSeconds * SECOND, limit)
  }

  lemma BurstWindows(windowSeconds: nat)
    requires windowSeconds > 0
    ensures WindowStart(windowSeconds * SECOND - 1, windowSeconds) == 0
    ensures WindowStart(windowSeconds * SECOND, windowSeconds) == windowSeconds
  {
    assert (windowSeconds * SECOND - 1) / SECOND == windowSeconds - 1;
    assert windowSeconds * SECOND / SECOND == windowSeconds;
    SmallQuotient(windowSeconds - 1, windowSeconds);
    assert windowSeconds / windowSeconds == 1;
  }

  lemma SmallQuotient(x: nat, w: nat)
    requires x < w
    ensures x / w == 0
  {
  }

  /** Two microseconds are enough to see twice the limit admitted. */
  lemma TwiceIsReached(key: string, limit: nat, windowSeconds: nat)
    requires windowSeconds > 0
    ensures AllValid(Bursts(key, limit, windowSeconds)) && Ruled(Bursts(key, limit, windowSeconds), key, limit, windowSeconds)
    ensures Admitted(Bursts(key, limit, windowSeconds), Within(key, windowSeconds * SECOND - 1, windowSeconds)) == 2 * limit
  {
    var end := windowSeconds * SECOND;
    var calls := Bursts(key, limit, windowSeconds);
    var first, second := Selects((key, 0)), Selects((key, windowSeconds));
    BurstWindows(windowSeconds);
    BurstCalls(key, limit, windowSeconds, end - 1, limit);
    BurstCalls(key, limit, windowSeconds, end, limit);
    BurstsSeen(key, limit, windowSeconds, first);
    BurstsSeen(key, limit, windowSeconds, second);
    WindowAdmits(calls, key, limit, windowSeconds, 0);
    WindowAdmits(calls, key, limit, windowSeconds, windowSeconds);
    AdmittedSplit(calls, Within(key, end - 1, windowSeconds), first, second);
  }

  lemma BurstsSeen(key: string, limit: nat, windowSeconds: nat, chosen: Call -> bool)
    requires windowSeconds > 0
    ensures Seen(Bursts(key, limit, windowSeconds), chosen)
            == (if chosen(Call(key, limit, windowSeconds, windowSeconds * SECOND - 1)) then limit else 0)
               + (if chosen(Call(key, limit, windowSeconds, windowSeconds * SECOND)) then limit else 0)
  {
    var end := windowSeconds * SECOND;
    SeenConcat(Burst(key, limit, windowSeconds, end - 1, limit), Burst(key, limit, windowSeconds, end, limit), chosen);
    BurstSeen(key, limit, windowSeconds, end - 1, limit, chosen);
    BurstSeen(key, limit, windowSeconds, end, limit, chosen);
  }
}
