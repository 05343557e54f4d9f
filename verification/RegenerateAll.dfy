/** Regenerating every active config, page by page, while workers go on changing statuses
    (panel/application/regenerate_all_configs.py, regenerate_config.py). */
module RegenerateAll {
  import opened Wrappers
  import opened Store
  import opened Lifecycle

  /** What the workers do to the rows before the n-th visit; configs are neither created nor deleted. */
  type Workers = (nat, Tables) -> Tables

  predicate SameConfigs(a: Tables, b: Tables)
  {
    a.configs.Keys == b.configs.Keys && forall c :: c in a.configs ==> a.configs[c].isActive == b.configs[c].isActive
  }

  ghost predicate OnlyWork(workers: Workers)
  {
    forall i, db :: SameConfigs(db, workers(i, db))
  }

  lemma SameConfigsChain(a: Tables, b: Tables, c: Tables)
    requires SameConfigs(a, b) && SameConfigs(b, c)
    ensures SameConfigs(a, c)
  {
  }

  // ---- The pages ----

  /** All configs by descending creation time; the times are distinct, so there is one such list. */
  ghost predicate NewestFirst(db: Tables, created: ConfigId -> int, all: seq<ConfigId>)
  {
    && (forall c :: c in all <==> c in db.configs)
    && (forall i, j :: 0 <= i < j < |all| ==> created(all[i]) > created(all[j]))
  }

  /** The active ones, in the same order. */
  function Actives(db: Tables, all: seq<ConfigId>): (r: seq<ConfigId>)
    ensures forall c :: c in r <==> c in all && IsLive(db, c)
  {
    if all == [] then [] else (if IsLive(db, all[0]) then [all[0]] else []) + Actives(db, all[1..])
  }

  lemma {:induction false} ActivesSame(a: Tables, b: Tables, all: seq<ConfigId>)
    requires SameConfigs(a, b)
    ensures Actives(a, all) == Actives(b, all)
  {
    if all != [] {
      ActivesSame(a, b, all[1..]);
    }
  }

  lemma {:induction false} ActivesDistinct(db: Tables, created: ConfigId -> int, all: seq<ConfigId>)
    requires forall i, j :: 0 <= i < j < |all| ==> created(all[i]) > created(all[j])
    ensures Distinct(Actives(db, all))
  {
    if all != [] {
      ActivesDistinct(db, created, all[1..]);
      assert forall c :: c in all[1..] ==> created(all[0]) > created(c);
      var rest := Actives(db, all[1..]);
      assert forall k :: 0 <= k < |rest| ==> rest[k] in all[1..];
    }
  }

  /** `list_active`: one page of what the table holds now, and how many there are in all. */
  function ListActive(db: Tables, all: seq<ConfigId>, limit: nat, offset: nat): (seq<ConfigId>, nat)
  {
    var found := Actives(db, all);
    (if offset >= |found| then [] else if offset + limit >= |found| then found[offset..] else found[offset..offset + limit], |found|)
  }

  // ---- One visit ----

  predicate Regenerable(db: Tables, c: ConfigId)
  {
    IsLive(db, c) && db.configs[c].current.Some? && !IsBusy(db.configs[c].status)
  }

  /** `RegenerateConfigUseCase.execute`: None when the config cannot be regenerated now. */
  function RegenerateConfig(db: Tables, c: ConfigId, taskId: nat): (r: Option<(Tables, Task)>)
    ensures r.Some? <==> Regenerable(db, c)
    ensures r.Some? ==> SameConfigs(db, r.value.0)
    ensures r.Some? ==> r.value.1 == Task(c, db.configs[c].spec.profile, db.configs[c].spec.name, db.configs[c].current.value + 1)
  {
    if !IsLive(db, c) || db.configs[c].current.None? || IsBusy(db.configs[c].status) then None
    else
      match PrepareRegenerate(db, c)
      case Raised => None
      case Ok(prepared) =>
        var row := prepared.configs[c];
        Some((WithConfig(prepared, c, row.(lastTask := Some(taskId))), Task(c, row.spec.profile, row.spec.name, row.current.value + 1)))
  }

  function Visited(db: Tables, c: ConfigId, taskId: nat): (r: Tables)
    ensures SameConfigs(db, r)
  {
    match RegenerateConfig(db, c, taskId)
    case None => db
    case Some((next, _)) => next
  }

  ghost function TaskOf(db: Tables, c: ConfigId): seq<Task>
  {
    if Regenerable(db, c) then [Task(c, db.configs[c].spec.profile, db.configs[c].spec.name, db.configs[c].current.value + 1)] else []
  }

  // ---- The run ----

  /** The rows after the first `k` visits, when `seen` are the rows that each visit found. */
  ghost function After(start: Tables, order: seq<ConfigId>, seen: seq<Tables>, k: nat): Tables
    requires k <= |seen| <= |order|
  {
    if k == 0 then start else Visited(seen[k - 1], order[k - 1], k - 1)
  }

  /** Each visit finds what the workers made of the rows that the visit before it left. */
  ghost predicate IsTrace(start: Tables, order: seq<ConfigId>, workers: Workers, seen: seq<Tables>)
  {
    |seen| <= |order| && forall k :: 0 <= k < |seen| ==> FoundAt(start, order, workers, seen, k)
  }

  ghost predicate FoundAt(start: Tables, order: seq<ConfigId>, workers: Workers, seen: seq<Tables>, k: nat)
    requires k < |seen| <= |order|
  {
    seen[k] == workers(k, After(start, order, seen, k))
  }

  ghost predicate AllSame(start: Tables, seen: seq<Tables>)
  {
    forall i :: 0 <= i < |seen| ==> SameConfigs(start, seen[i])
  }

  lemma SameBefore(start: Tables, order: seq<ConfigId>, a: seq<Tables>, b: seq<Tables>, k: nat)
    requires k <= |a| <= |order| && k <= |b| <= |order| && (k > 0 ==> a[k - 1] == b[k - 1])
    ensures After(start, order, a, k) == After(start, order, b, k)
  {
  }

  lemma {:induction false} TraceIsUnique(start: Tables, order: seq<ConfigId>, workers: Workers, a: seq<Tables>, b: seq<Tables>, k: nat)
    requires IsTrace(start, order, workers, a) && IsTrace(start, order, workers, b) && k < |a| && k < |b|
    ensures a[k] == b[k]
  {
    if k > 0 {
      TraceIsUnique(start, order, workers, a, b, k - 1);
    }
    SameBefore(start, order, a, b, k);
    assert FoundAt(start, order, workers, a, k) && FoundAt(start, order, workers, b, k);
  }

  lemma TracePrefix(start: Tables, order: seq<ConfigId>, workers: Workers, seen: seq<Tables>, n: nat)
    requires IsTrace(start, order, workers, seen) && n <= |seen|
    ensures IsTrace(start, order, workers, seen[..n])
    ensures After(start, order, seen[..n], n) == After(start, order, seen, n)
  {
    SameBefore(start, order, seen[..n], seen, n);
    forall k | 0 <= k < n ensures FoundAt(start, order, workers, seen[..n], k) {
      SameBefore(start, order, seen[..n], seen, k);
      assert FoundAt(start, order, workers, seen, k);
    }
  }

  lemma {:induction false} TraceKeepsConfigs(start: Tables, order: seq<ConfigId>, workers: Workers, seen: seq<Tables>)
    requires IsTrace(start, order, workers, seen) && OnlyWork(workers)
    ensures AllSame(start, seen) && SameConfigs(start, After(start, order, seen, |seen|))
  {
    if seen != [] {
      var n := |seen| - 1;
      TracePrefix(start, order, workers, seen, n);
      TraceKeepsConfigs(start, order, workers, seen[..n]);
      var before := After(start, order, seen, n);
      assert FoundAt(start, order, workers, seen, n) && SameConfigs(before, workers(n, before));
      SameConfigsChain(start, before, seen[n]);
      SameConfigsChain(start, seen[n], After(start, order, seen, |seen|));
      assert forall i :: 0 <= i < n ==> seen[i] == seen[..n][i];
    }
  }

  lemma TraceEndsSame(start: Tables, order: seq<ConfigId>, workers: Workers, seen: seq<Tables>)
    requires IsTrace(start, order, workers, seen) && OnlyWork(workers)
    ensures SameConfigs(start, After(start, order, seen, |seen|))
  {
    TraceKeepsConfigs(start, order, workers, seen);
  }

  lemma TraceGrows(start: Tables, order: seq<ConfigId>, workers: Workers, seen: seq<Tables>, now: Tables)
    requires IsTrace(start, order, workers, seen) && |seen| < |order| && now == workers(|seen|, After(start, order, seen, |seen|))
    ensures IsTrace(start, order, workers, seen + [now])
    ensures After(start, order, seen + [now], |seen| + 1) == Visited(now, order[|seen|], |seen|)
  {
    var more := seen + [now];
    forall k | 0 <= k < |more| ensures FoundAt(start, order, workers, more, k) {
      SameBefore(start, order, more, seen, k);
      assert k < |seen| ==> FoundAt(start, order, workers, seen, k);
    }
  }

  /** The rows that the first `n` visits find. */
  ghost function Trace(start: Tables, order: seq<ConfigId>, workers: Workers, n: nat): (seen: seq<Tables>)
    requires n <= |order|
    ensures |seen| == n && IsTrace(start, order, workers, seen)
  {
    if n == 0 then []
    else
      var before := Trace(start, order, workers, n - 1);
      var now := workers(n - 1, After(start, order, before, n - 1));
      TraceGrows(start, order, workers, before, now);
      before + [now]
  }

  lemma IsTheTrace(start: Tables, order: seq<ConfigId>, workers: Workers, seen: seq<Tables>)
    requires IsTrace(start, order, workers, seen)
    ensures seen == Trace(start, order, workers, |seen|)
  {
    var trace := Trace(start, order, workers, |seen|);
    forall k | 0 <= k < |seen| ensures seen[k] == trace[k] {
      TraceIsUnique(start, order, workers, seen, trace, k);
    }
  }

  /** The tasks of the configs that could be regenerated when they were visited, in order. */
  ghost function QueuedTasks(order: seq<ConfigId>, seen: seq<Tables>): seq<Task>
    requires |seen| == |order|
  {
    if order == [] then []
    else
      var n := |order| - 1;
      QueuedTasks(order[..n], seen[..n]) + TaskOf(seen[n], order[n])
  }

  ghost function Skipped(order: seq<ConfigId>, seen: seq<Tables>): seq<ConfigId>
    requires |seen| == |order|
  {
    if order == [] then []
    else
      var n := |order| - 1;
      Skipped(order[..n], seen[..n]) + if Regenerable(seen[n], order[n]) then [] else [order[n]]
  }

  /** Where the loop stands: `seen` is the trace of the visits so far, `db` what the last one left, and the
      two lists are the judgements of those visits. */
  ghost predicate Progress(start: Tables, order: seq<ConfigId>, workers: Workers, seen: seq<Tables>,
                           queued: seq<Task>, skipped: seq<ConfigId>, db: Tables)
  {
    && IsTrace(start, order, workers, seen) && db == After(start, order, seen, |seen|)
    && queued == QueuedTasks(order[..|seen|], seen) && skipped == Skipped(order[..|seen|], seen)
  }

  const PAGE := 100

  /** One config of the page: the workers move first, then the request judges the config by what it finds. */
  method VisitConfig(ghost start: Tables, ghost order: seq<ConfigId>, c: ConfigId, n: nat, workers: Workers,
                     before: Tables, queued: seq<Task>, skipped: seq<ConfigId>, ghost seen: seq<Tables>)
    returns (queued': seq<Task>, skipped': seq<ConfigId>, db: Tables)
    requires |seen| == n < |order| && c == order[n] && Progress(start, order, workers, seen, queued, skipped, before)
    ensures Progress(start, order, workers, seen + [workers(n, before)], queued', skipped', db)
  {
    var now := workers(n, before);
    TraceGrows(start, order, workers, seen, now);
    Visit(order, seen, now, n);
    match RegenerateConfig(now, c, n) {
      case None => queued', skipped', db := queued, skipped + [c], now;
      case Some((next, task)) => queued', skipped', db := queued + [task], skipped, next;
    }
  }

  /** The configs of one page, in order. */
  method VisitPage(ghost start: Tables, ghost order: seq<ConfigId>, offset: nat, items: seq<ConfigId>, workers: Workers,
                   before: Tables, queued: seq<Task>, skipped: seq<ConfigId>, ghost seen: seq<Tables>)
    returns (queued': seq<Task>, skipped': seq<ConfigId>, db: Tables, ghost seen': seq<Tables>)
    requires offset + |items| <= |order| && items == order[offset..offset + |items|]
    requires |seen| == offset && Progress(start, order, workers, seen, queued, skipped, before)
    ensures |seen'| == offset + |items| && Progress(start, order, workers, seen', queued', skipped', db)
  {
    queued', skipped', db, seen' := queued, skipped, before, seen;
    for k := 0 to |items|
      invariant |seen'| == offset + k && Progress(start, order, workers, seen', queued', skipped', db)
    {
      ghost var now := workers(offset + k, db);
      queued', skipped', db := VisitConfig(start, order, items[k], offset + k, workers, db, queued', skipped', seen');
      seen' := seen' + [now];
    }
  }

  /** Workers neither create nor delete, so each page is a slice of the one list of active configs. */
  lemma PageIsSlice(start: Tables, db: Tables, all: seq<ConfigId>, offset: nat)
    requires SameConfigs(start, db) && offset <= |Actives(start, all)|
    ensures var (items, total) := ListActive(db, all, PAGE, offset);
            && total == |Actives(start, all)| && offset + |items| <= total
            && items == Actives(start, all)[offset..offset + |items|]
            && (items != [] || offset == total)
  {
    ActivesSame(start, db, all);
  }

  /** The paging loop: it visits every active config exactly once, newest first, whatever the workers do to
      the rows in between; its two lists and the rows it leaves are those of the visits. */
  method Execute(start: Tables, ghost created: ConfigId -> int, all: seq<ConfigId>, workers: Workers)
    returns (queued: seq<Task>, skipped: seq<ConfigId>, db: Tables)
    requires NewestFirst(start, created, all) && OnlyWork(workers)
    ensures var order := Actives(start, all);
            var seen := Trace(start, order, workers, |order|);
            db == After(start, order, seen, |order|) && queued == QueuedTasks(order, seen) && skipped == Skipped(order, seen)
  {
    ghost var order := Actives(start, all);
    ghost var seen;
    queued, skipped, db, seen := VisitAll(start, order, all, workers);
    IsTheTrace(start, order, workers, seen);
    assert order[..|order|] == order;
  }

  method VisitAll(start: Tables, ghost order: seq<ConfigId>, all: seq<ConfigId>, workers: Workers)
    returns (queued: seq<Task>, skipped: seq<ConfigId>, db: Tables, ghost seen: seq<Tables>)
    requires order == Actives(start, all) && OnlyWork(workers)
    ensures |seen| == |order| && Progress(start, order, workers, seen, queued, skipped, db)
  {
    queued, skipped, db, seen := [], [], start, [];
    assert order[..0] == [];
    var offset := 0;
    while true
      invariant |seen| == offset <= |order| && Progress(start, order, workers, seen, queued, skipped, db)
      decreases |order| - offset
    {
      TraceEndsSame(start, order, workers, seen);
      PageIsSlice(start, db, all, offset);
      var (items, total) := ListActive(db, all, PAGE, offset);
      queued, skipped, db, seen := VisitPage(start, order, offset, items, workers, db, queued, skipped, seen);
      if offset + |items| >= total { break; }
      offset := offset + |items|;
    }
  }

  lemma Visit(order: seq<ConfigId>, seen: seq<Tables>, db: Tables, n: nat)
    requires n < |order| && |seen| == n
    ensures QueuedTasks(order[..n + 1], seen + [db]) == QueuedTasks(order[..n], seen) + TaskOf(db, order[n])
    ensures Skipped(order[..n + 1], seen + [db]) == Skipped(order[..n], seen) + if Regenerable(db, order[n]) then [] else [order[n]]
  {
    assert order[..n + 1][..n] == order[..n] && (seen + [db])[..n] == seen;
    assert order[..n + 1][n] == order[n] && (seen + [db])[n] == db;
  }

  // ---- What the two lists are ----

  ghost function ConfigsOf(tasks: seq<Task>): seq<ConfigId>
  {
    seq(|tasks|, i requires 0 <= i < |tasks| => tasks[i].config)
  }

  lemma ConfigsConcat(a: seq<Task>, b: seq<Task>)
    ensures ConfigsOf(a + b) == ConfigsOf(a) + ConfigsOf(b)
  {
  }

  lemma OneConfig(db: Tables, c: ConfigId)
    ensures ConfigsOf(TaskOf(db, c)) == if Regenerable(db, c) then [c] else []
  {
  }

  lemma {:induction false} ListsPartition(order: seq<ConfigId>, seen: seq<Tables>)
    requires |seen| == |order|
    ensures multiset(order) == multiset(ConfigsOf(QueuedTasks(order, seen))) + multiset(Skipped(order, seen))
  {
    if order != [] {
      var n := |order| - 1;
      var front, was, c := order[..n], seen[..n], order[n];
      ListsPartition(front, was);
      var task, dropped := TaskOf(seen[n], c), if Regenerable(seen[n], c) then [] else [c];
      OneConfig(seen[n], c);
      ConfigsConcat(QueuedTasks(front, was), task);
      OneMoreListed(front, c, ConfigsOf(QueuedTasks(front, was)), ConfigsOf(task), Skipped(front, was), dropped);
      assert order == front + [c];
    }
  }

  lemma OneMoreListed(front: seq<ConfigId>, c: ConfigId, queued: seq<ConfigId>, task: seq<ConfigId>, skipped: seq<ConfigId>, dropped: seq<ConfigId>)
    requires multiset(front) == multiset(queued) + multiset(skipped)
    requires (task == [c] && dropped == []) || (task == [] && dropped == [c])
    ensures multiset(front + [c]) == multiset(queued + task) + multiset(skipped + dropped)
  {
    assert skipped + [] == skipped && queued + [] == queued;
  }

  /** The i-th config and the rows it was judged by, in the visited prefix. */
  ghost predicate TookAt(order: seq<ConfigId>, seen: seq<Tables>, i: nat, task: Task)
  {
    i < |order| == |seen| && task in TaskOf(seen[i], order[i])
  }

  ghost predicate DroppedAt(order: seq<ConfigId>, seen: seq<Tables>, i: nat, c: ConfigId)
  {
    i < |order| == |seen| && order[i] == c && !Regenerable(seen[i], c)
  }

  lemma {:induction false} QueuedIff(order: seq<ConfigId>, seen: seq<Tables>, task: Task)
    requires |seen| == |order|
    ensures task in QueuedTasks(order, seen) <==> exists i: nat :: TookAt(order, seen, i, task)
  {
    if order != [] {
      var n := |order| - 1;
      QueuedIff(order[..n], seen[..n], task);
      forall i: nat | i < n ensures TookAt(order[..n], seen[..n], i, task) <==> TookAt(order, seen, i, task) {}
      assert TookAt(order, seen, n, task) <==> task in TaskOf(seen[n], order[n]);
    }
  }

  lemma {:induction false} SkippedIff(order: seq<ConfigId>, seen: seq<Tables>, c: ConfigId)
    requires |seen| == |order|
    ensures c in Skipped(order, seen) <==> exists i: nat :: DroppedAt(order, seen, i, c)
  {
    if order != [] {
      var n := |order| - 1;
      SkippedIff(order[..n], seen[..n], c);
      forall i: nat | i < n ensures DroppedAt(order[..n], seen[..n], i, c) <==> DroppedAt(order, seen, i, c) {}
      assert DroppedAt(order, seen, n, c) <==> order[n] == c && !Regenerable(seen[n], c);
    }
  }

  ghost predicate IsQueued(tasks: seq<Task>, c: ConfigId)
  {
    exists task :: task in tasks && task.config == c
  }

  /** Every active config is in exactly one of the two lists, once. The i-th is queued, for the version
      after its current one, exactly when it had a version and was not busy in the rows that its own visit
      found: the start, with the writes of the earlier visits and of the workers on top. */
  lemma EachConfigOnce(start: Tables, created: ConfigId -> int, all: seq<ConfigId>, workers: Workers, i: nat)
    requires NewestFirst(start, created, all) && OnlyWork(workers) && i < |Actives(start, all)|
    ensures var order := Actives(start, all);
            var seen := Trace(start, order, workers, |order|);
            var found := workers(i, After(start, order, seen, i));
            && (forall c :: c in order <==> IsLive(start, c)) && Distinct(order)
            && multiset(order) == multiset(ConfigsOf(QueuedTasks(order, seen))) + multiset(Skipped(order, seen))
            && IsLive(found, order[i]) && JudgedBy(found.configs[order[i]], order[i], QueuedTasks(order, seen), Skipped(order, seen))
  {
    var order := Actives(start, all);
    ActivesDistinct(start, created, all);
    Judged(start, order, workers, Trace(start, order, workers, |order|), i);
  }

  lemma Judged(start: Tables, order: seq<ConfigId>, workers: Workers, seen: seq<Tables>, i: nat)
    requires OnlyWork(workers) && i < |seen| == |order| && IsTrace(start, order, workers, seen)
    requires Distinct(order) && IsLive(start, order[i])
    ensures multiset(order) == multiset(ConfigsOf(QueuedTasks(order, seen))) + multiset(Skipped(order, seen))
    ensures var found := workers(i, After(start, order, seen, i));
            IsLive(found, order[i]) && JudgedBy(found.configs[order[i]], order[i], QueuedTasks(order, seen), Skipped(order, seen))
  {
    ListsPartition(order, seen);
    FoundLive(start, order, workers, seen, i);
    JudgedAt(order, seen, i);
  }

  lemma FoundLive(start: Tables, order: seq<ConfigId>, workers: Workers, seen: seq<Tables>, i: nat)
    requires OnlyWork(workers) && i < |seen| <= |order| && IsTrace(start, order, workers, seen) && IsLive(start, order[i])
    ensures seen[i] == workers(i, After(start, order, seen, i)) && IsLive(seen[i], order[i])
  {
    TraceKeepsConfigs(start, order, workers, seen);
    assert FoundAt(start, order, workers, seen, i);
  }

  lemma JudgedAt(order: seq<ConfigId>, seen: seq<Tables>, i: nat)
    requires i < |seen| == |order| && Distinct(order) && IsLive(seen[i], order[i])
    ensures JudgedBy(seen[i].configs[order[i]], order[i], QueuedTasks(order, seen), Skipped(order, seen))
  {
    SkippedAt(order, seen, i);
    QueuedAt(order, seen, i);
  }

  /** What the two lists say of a config, from the row it was judged by. */
  ghost predicate JudgedBy(row: ConfigRow, c: ConfigId, queued: seq<Task>, skipped: seq<ConfigId>)
  {
    && (IsQueued(queued, c) <==> row.current.Some? && !IsBusy(row.status))
    && (IsQueued(queued, c) <==> c !in skipped)
    && forall task :: task in queued && task.config == c ==> task == Task(c, row.spec.profile, row.spec.name, row.current.value + 1)
  }

  ghost predicate Distinct(order: seq<ConfigId>)
  {
    forall a, b :: 0 <= a < b < |order| ==> order[a] != order[b]
  }

  lemma SkippedAt(order: seq<ConfigId>, seen: seq<Tables>, i: nat)
    requires |seen| == |order| && i < |order|
    requires Distinct(order)
    ensures order[i] in Skipped(order, seen) <==> !Regenerable(seen[i], order[i])
  {
    SkippedIff(order, seen, order[i]);
    assert DroppedAt(order, seen, i, order[i]) <==> !Regenerable(seen[i], order[i]);
  }

  lemma QueuedFrom(order: seq<ConfigId>, seen: seq<Tables>, i: nat, task: Task)
    requires |seen| == |order| && i < |order|
    requires Distinct(order)
    requires task in QueuedTasks(order, seen) && task.config == order[i]
    ensures task in TaskOf(seen[i], order[i])
  {
    QueuedIff(order, seen, task);
    var k: nat :| TookAt(order, seen, k, task);
    assert order[k] == order[i];
  }

  lemma QueuedIfRegenerable(order: seq<ConfigId>, seen: seq<Tables>, i: nat)
    requires |seen| == |order| && i < |order| && Regenerable(seen[i], order[i])
    ensures IsQueued(QueuedTasks(order, seen), order[i])
  {
    var task := TaskOf(seen[i], order[i])[0];
    assert TookAt(order, seen, i, task);
    QueuedIff(order, seen, task);
  }

  lemma QueuedAt(order: seq<ConfigId>, seen: seq<Tables>, i: nat)
    requires |seen| == |order| && i < |order|
    requires Distinct(order)
    ensures IsQueued(QueuedTasks(order, seen), order[i]) <==> Regenerable(seen[i], order[i])
    ensures forall task :: task in QueuedTasks(order, seen) && task.config == order[i] ==> task in TaskOf(seen[i], order[i])
  {
    forall task | task in QueuedTasks(order, seen) && task.config == order[i] ensures task in TaskOf(seen[i], order[i]) {
      QueuedFrom(order, seen, i, task);
    }
    if Regenerable(seen[i], order[i]) {
      QueuedIfRegenerable(order, seen, i);
    }
  }

  /** A visit that queues a config leaves it pending with the new task recorded; a visit touches no other
      config and no version. */
  lemma VisitWrites(start: Tables, order: seq<ConfigId>, seen: seq<Tables>, i: nat, c: ConfigId)
    requires i < |seen| <= |order| && c in seen[i].configs
    ensures var after := After(start, order, seen, i + 1);
            && after.versions == seen[i].versions && c in after.configs
            && after.configs[c] == if c == order[i] && Regenerable(seen[i], c)
                 then seen[i].configs[c].(status := Pending, error := None, lastTask := Some(i)) else seen[i].configs[c]
  {
    assert Regenerable(seen[i], order[i]) <==> RegenerateConfig(seen[i], order[i], i).Some?;
  }
}
