/** Runs that show where the guarantees stop: late redelivery and duplicate delivery. */
module LifecycleWitness {
  import opened Wrappers
  import opened Store
  import opened Lifecycle
  import opened LifecycleTheorems
  import opened LifecycleRuns

  /** A world where any row can be built. */
  ghost function AnyBuild(): World
  {
    World((spec: Spec, previous: Option<VersionRow>, row: VersionRow) => true)
  }

  const First := Task(0, XrayReality, "office", 1)
  const Second := Task(0, XrayReality, "office", 2)
  const Office := Spec("office", XrayReality, None, None)

  function OfficeRow(status: Status, current: Option<Version>): ConfigRow
  {
    ConfigRow(Office, status, current, None, true, None)
  }

  /** One config created, its first task published, no build yet. */
  lemma CreatedRun() returns (run: Run)
    ensures IsRunOf(AnyBuild(), run)
    ensures Last(run) == State(EmptyTables.(configs := map[0 := OfficeRow(Pending, None)]), 0, {First}, map[0 := Published(0, 7)], map[])
  {
    run := Run([Start], []);
    run := Take(AnyBuild(), run, CreateConfig(0, 0, Office));
    run := Take(AnyBuild(), run, Publish(0, 7));
  }

  /** Version 1 built and active. */
  lemma FirstVersionRun(row: VersionRow) returns (run: Run)
    ensures IsRunOf(AnyBuild(), run)
    ensures Last(run) == State(Tables(map[0 := OfficeRow(Active, Some(1))], map[(0, 1) := row], map[]), 0, {First},
                               map[0 := Published(0, 7)], map[0 := Idle])
  {
    run := CreatedRun();
    run := BuildRun(AnyBuild(), run, 0, First, row);
    run := CommitRun(AnyBuild(), run, 0, First, row);
    assert Last(run).db.configs == map[0 := OfficeRow(Active, Some(1))];
  }

  lemma RegenerateRun(row: VersionRow) returns (run: Run)
    ensures IsRunOf(AnyBuild(), run)
    ensures var s := Last(run);
            && s.db == Tables(map[0 := OfficeRow(Pending, Some(1))], map[(0, 1) := row], map[])
            && s.published == {First, Second} && s.workers == map[0 := Idle]
  {
    run := FirstVersionRun(row);
    run := Take(AnyBuild(), run, RegenerateGuard(1, 0));
    run := Take(AnyBuild(), run, RegenerateContext(1));
    assert Last(run).requests[1] == Prepared(Second);
    run := Take(AnyBuild(), run, RegenerateCommit(1));
    assert Last(run).db.configs == map[0 := OfficeRow(Pending, Some(1))];
    run := Take(AnyBuild(), run, Publish(1, 8));
  }

  lemma SecondVersionRun(row1: VersionRow, row2: VersionRow) returns (run: Run)
    ensures IsRunOf(AnyBuild(), run)
    ensures var s := Last(run);
            && s.db == Tables(map[0 := OfficeRow(Active, Some(2))], map[(0, 1) := row1, (0, 2) := row2], map[])
            && First in s.published && s.workers == map[0 := Idle]
  {
    run := RegenerateRun(row1);
    run := BuildRun(AnyBuild(), run, 0, Second, row2);
    run := CommitRun(AnyBuild(), run, 0, Second, row2);
    assert Last(run).db.configs == map[0 := OfficeRow(Active, Some(2))];
  }

  /** The late delivery: versions 1 and 2 exist, 2 is current, then the broker delivers the
      first task again and its idempotent branch makes 1 current while 2 stays stored. */
  lemma LateDeliveryRegresses(row1: VersionRow, row2: VersionRow)
    ensures exists run: Run :: IsRunOf(AnyBuild(), run) && |run.steps| > 0
              && var before, after := run.states[|run.steps| - 1], Last(run);
                 Progress(before.db, 0) == 2 && Progress(after.db, 0) == 1
                 && (0, 2) in after.db.versions && after.db.configs[0].status.Active?
  {
    var run := SecondVersionRun(row1, row2);
    run := ReceiveRun(AnyBuild(), run, 0, First);
    run := Take(AnyBuild(), run, Commit(0, true));
  }

  /** Two workers build version 1 at once; the first commits, the second finds the key taken. */
  lemma DuplicateRun(row1: VersionRow, row2: VersionRow) returns (run: Run)
    ensures IsRunOf(AnyBuild(), run) && PhaseOf(Last(run), 1) == Aborted(First, "duplicate key")
    ensures Last(run).db == Tables(map[0 := OfficeRow(Active, Some(1))], map[(0, 1) := row1], map[])
  {
    run := CreatedRun();
    run := BuildRun(AnyBuild(), run, 0, First, row1);
    run := BuildRun(AnyBuild(), run, 1, First, row2);
    run := CommitRun(AnyBuild(), run, 0, First, row1);
    assert Last(run).db.configs == map[0 := OfficeRow(Active, Some(1))];
    run := Take(AnyBuild(), run, Flush(1));
  }

  /** The duplicate delivery: the loser of the unique key records a failure, and the config shows `failed`
      although its version is stored and current. */
  lemma DuplicateDeliveryFails(row1: VersionRow, row2: VersionRow)
    ensures exists run: Run :: IsRunOf(AnyBuild(), run)
              && var db := Last(run).db;
                 0 in db.configs && db.configs[0].status.Failed? && db.configs[0].current == Some(1)
                 && (0, 1) in db.versions && db.versions[(0, 1)] == row1
  {
    var run := DuplicateRun(row1, row2);
    run := Take(AnyBuild(), run, RecordFailure(1));
  }
}
