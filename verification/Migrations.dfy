/** The migration runner of src/migrations.py: a checksum-guarded pass over the migration
    files inside one transaction, and the retry loop with its deadline around it.

    File names need not be distinct: `version` is a primary key, so a second pending file of
    the same name makes the INSERT fail and the transaction roll back.
  */
module Migrations {
  import opened Common

  const MAX_MIGRATION_WAIT_SECONDS := 600.0
  const MIGRATION_RETRY_DELAY_SECONDS := 10.0

  datatype File = File(name: string, sql: string, checksum: string)

  /** str.isspace of one character. */
  predicate IsSpace(ch: char) {
    || ch == ' ' || '\t' <= ch <= '\r' || '\U{1C}' <= ch <= '\U{1F}'
    || ch in ['\U{85}', '\U{A0}', '\U{1680}', '\U{2028}', '\U{2029}', '\U{202F}', '\U{205F}', '\U{3000}']
    || '\U{2000}' <= ch <= '\U{200A}'
  }

  /** raw_sql.strip() is empty, so nothing is handed to the driver. */
  predicate Blank(sql: string) { forall i :: 0 <= i < |sql| ==> IsSpace(sql[i]) }

  /** A file as one run meets it: can it be read and decoded, does its script succeed, does
      the INSERT succeed (apart from the primary key)? */
  datatype Visit = Visit(file: File, readable: bool, scriptOk: bool, insertOk: bool)

  /** One transaction: does it get its connection, advisory lock and table; the files in list
      order; does COMMIT succeed? */
  datatype Run = Run(begins: bool, visits: seq<Visit>, commits: bool)

  /** schema_migrations, and as history the files applied and the scripts handed to the driver. */
  datatype Db = Db(recorded: map<string, string>, applied: seq<File>, scripts: seq<string>)

  /** The files not recorded yet, in list order. */
  function Pending(recorded: map<string, string>, visits: seq<Visit>): seq<File> {
    if visits == [] then [] else
    var last := visits[|visits| - 1].file;
    Pending(recorded, visits[..|visits| - 1]) + if last.name in recorded then [] else [last]
  }

  predicate HasName(files: seq<File>, name: string) {
    exists i :: 0 <= i < |files| && files[i].name == name
  }

  function Checksums(files: seq<File>): map<string, string> {
    if files == [] then map[] else
    var last := files[|files| - 1];
    Checksums(files[..|files| - 1])[last.name := last.checksum]
  }

  function Scripts(files: seq<File>): seq<string> {
    if files == [] then [] else
    var last := files[|files| - 1];
    Scripts(files[..|files| - 1]) + if Blank(last.sql) then [] else [last.sql]
  }

  predicate DistinctNames(files: seq<File>) {
    forall i, j :: 0 <= i < j < |files| ==> files[i].name != files[j].name
  }

  /** The file is read, and is unchanged if it was applied before, or else runs and is recorded. */
  predicate VisitPasses(recorded: map<string, string>, v: Visit) {
    && v.readable
    && (v.file.name in recorded ==> recorded[v.file.name] == v.file.checksum)
    && (v.file.name !in recorded ==> (Blank(v.file.sql) || v.scriptOk) && v.insertOk)
  }

  predicate AllPass(recorded: map<string, string>, visits: seq<Visit>) {
    forall i :: 0 <= i < |visits| ==> VisitPasses(recorded, visits[i])
  }

  predicate Passes(recorded: map<string, string>, visits: seq<Visit>) {
    AllPass(recorded, visits) && DistinctNames(Pending(recorded, visits))
  }

  predicate Succeeds(db: Db, run: Run) {
    run.begins && Passes(db.recorded, run.visits) && run.commits
  }

  /** The table and the history with these files applied. */
  function With(db: Db, files: seq<File>): Db {
    Db(db.recorded + Checksums(files), db.applied + files, db.scripts + Scripts(files))
  }

  function AfterRun(db: Db, run: Run): Db {
    if Succeeds(db, run) then With(db, Pending(db.recorded, run.visits)) else db
  }

  function AfterRuns(db: Db, runs: seq<Run>): Db {
    if runs == [] then db else AfterRun(AfterRuns(db, runs[..|runs| - 1]), runs[|runs| - 1])
  }

  // ---------------------------------------------------------------------------
  // The runner
  // ---------------------------------------------------------------------------

  lemma {:induction false} ChecksumKeys(files: seq<File>)
    ensures forall n :: n in Checksums(files) <==> HasName(files, n)
  {
    if files != [] {
      var init, last := files[..|files| - 1], files[|files| - 1];
      ChecksumKeys(init);
      forall n ensures HasName(files, n) <==> HasName(init, n) || n == last.name {
        if HasName(init, n) {
          var i :| 0 <= i < |init| && init[i].name == n;
          assert files[i].name == n;
        }
        assert files[|files| - 1].name == last.name;
      }
    }
  }

  lemma PendingSnoc(recorded: map<string, string>, visits: seq<Visit>, v: Visit)
    ensures Pending(recorded, visits + [v]) ==
            Pending(recorded, visits) + if v.file.name in recorded then [] else [v.file]
  {
    assert (visits + [v])[..|visits|] == visits;
  }

  /** One more file applied. */
  function WithOne(db: Db, f: File): Db {
    Db(db.recorded[f.name := f.checksum], db.applied + [f], db.scripts + if Blank(f.sql) then [] else [f.sql])
  }

  lemma WithSnoc(db: Db, files: seq<File>, f: File)
    ensures With(db, files + [f]) == WithOne(With(db, files), f)
  {
    assert (files + [f])[..|files|] == files;
  }

  /** The table inside the transaction tells which pending names were already taken in it. */
  lemma TakenNames(db: Db, files: seq<File>, f: File)
    requires f.name !in db.recorded && DistinctNames(files)
    ensures DistinctNames(files + [f]) <==> f.name !in With(db, files).recorded
  {
    ChecksumKeys(files);
    if HasName(files, f.name) {
      var i :| 0 <= i < |files| && files[i].name == f.name;
      assert (files + [f])[i].name == (files + [f])[|files|].name;
    }
  }

  lemma {:induction false} PendingPrefix(recorded: map<string, string>, visits: seq<Visit>, k: nat)
    requires k <= |visits|
    ensures Pending(recorded, visits[..k]) <= Pending(recorded, visits)
    decreases |visits|
  {
    if k < |visits| {
      PendingPrefix(recorded, visits[..|visits| - 1], k);
      assert visits[..|visits| - 1][..k] == visits[..k];
    } else {
      assert visits[..k] == visits;
    }
  }

  /** A list that passes has passed at every earlier file. */
  lemma PassesPrefix(recorded: map<string, string>, visits: seq<Visit>, k: nat)
    requires k <= |visits| && Passes(recorded, visits)
    ensures Passes(recorded, visits[..k])
  {
    PendingPrefix(recorded, visits, k);
  }

  lemma AllPassSnoc(recorded: map<string, string>, visits: seq<Visit>, v: Visit)
    ensures AllPass(recorded, visits + [v]) <==> AllPass(recorded, visits) && VisitPasses(recorded, v)
  {
    if AllPass(recorded, visits + [v]) {
      assert (visits + [v])[|visits|] == v;
      forall i | 0 <= i < |visits| ensures VisitPasses(recorded, visits[i]) {
        assert (visits + [v])[i] == visits[i];
      }
    }
  }

  /** The next file decides whether a list that has passed so far still does. */
  lemma PassesOneMore(db: Db, visits: seq<Visit>, v: Visit)
    requires Passes(db.recorded, visits)
    ensures Passes(db.recorded, visits + [v]) <==>
              && VisitPasses(db.recorded, v)
              && (v.file.name in db.recorded || v.file.name !in With(db, Pending(db.recorded, visits)).recorded)
  {
    AllPassSnoc(db.recorded, visits, v);
    PendingSnoc(db.recorded, visits, v);
    var pending := Pending(db.recorded, visits);
    if v.file.name in db.recorded {
      assert Pending(db.recorded, visits + [v]) == pending;
    } else {
      assert Pending(db.recorded, visits + [v]) == pending + [v.file];
      TakenNames(db, pending, v.file);
    }
  }

  lemma AppliedOneMore(db: Db, visits: seq<Visit>, v: Visit)
    ensures With(db, Pending(db.recorded, visits + [v])) ==
            if v.file.name in db.recorded then With(db, Pending(db.recorded, visits))
            else WithOne(With(db, Pending(db.recorded, visits)), v.file)
  {
    PendingSnoc(db.recorded, visits, v);
    var pending := Pending(db.recorded, visits);
    if v.file.name in db.recorded {
      assert Pending(db.recorded, visits + [v]) == pending;
    } else {
      WithSnoc(db, pending, v.file);
    }
  }

  /** A script with something in it that prints, and one with nothing but blanks, tabs and line ends. */
  predicate Visible(sql: string) { exists i :: 0 <= i < |sql| && '!' <= sql[i] <= '~' }

  predicate OnlyBlanks(sql: string) {
    forall i :: 0 <= i < |sql| ==> sql[i] == ' ' || sql[i] == '\t' || sql[i] == '\r' || sql[i] == '\n'
  }

  lemma SomethingToRun(sql: string)
    ensures Visible(sql) ==> !Blank(sql)
    ensures OnlyBlanks(sql) ==> Blank(sql)
  {
    if i :| 0 <= i < |sql| && '!' <= sql[i] <= '~' {
      assert !IsSpace(sql[i]);
    }
  }

  class Database {
    var recorded: map<string, string>
    ghost var applied: seq<File>
    ghost var scripts: seq<string>

    ghost function View(): Db
      reads this
    {
      Db(recorded, applied, scripts)
    }

    constructor (recorded: map<string, string>)
      ensures View() == Db(recorded, [], [])
    {
      this.recorded := recorded;
      applied, scripts := [], [];
    }

    /** One round of the loop; `table` is the in-memory copy made before it, which is not updated. */
    method ApplyFile(v: Visit, table: map<string, string>) returns (ok: bool)
      modifies this
      ensures ok <==> VisitPasses(table, v) && (v.file.name in table || v.file.name !in old(recorded))
      ensures ok ==> View() == if v.file.name in table then old(View()) else WithOne(old(View()), v.file)
      ensures v.readable && v.file.name in table && table[v.file.name] == v.file.checksum ==> ok
      ensures v.readable && v.file.name !in table && v.scriptOk && v.insertOk && v.file.name !in old(recorded) ==> ok
      ensures ok && v.file.name in table ==> table[v.file.name] == v.file.checksum && View() == old(View())
      ensures ok && v.file.name !in table ==>
                && v.file.name !in old(recorded)
                && recorded == old(recorded)[v.file.name := v.file.checksum] && applied == old(applied) + [v.file]
                && (Visible(v.file.sql) ==> v.scriptOk && scripts == old(scripts) + [v.file.sql])
                && (OnlyBlanks(v.file.sql) ==> scripts == old(scripts))
    {
      SomethingToRun(v.file.sql);
      if !v.readable { return false; }
      if v.file.name in table {
        return table[v.file.name] == v.file.checksum;
      }
      var blank := Blank(v.file.sql);
      if !blank {
        if !v.scriptOk { return false; }
        scripts := scripts + [v.file.sql];
      }
      if !v.insertOk || v.file.name in recorded { return false; }
      recorded := recorded[v.file.name := v.file.checksum];
      applied := applied + [v.file];
      return true;
    }

    /** _apply_migration_files, inside the transaction: on failure it leaves a partly
        changed table behind, for the caller to roll back. */
    method ApplyMigrationFiles(visits: seq<Visit>) returns (ok: bool)
      modifies this
      ensures ok <==> Passes(old(recorded), visits)
      ensures ok ==> View() == With(old(View()), Pending(old(recorded), visits))
    {
      ghost var db := View();
      var table := recorded;
      for i := 0 to |visits|
        invariant Passes(table, visits[..i])
        invariant View() == With(db, Pending(table, visits[..i]))
      {
        assert visits[..i + 1] == visits[..i] + [visits[i]];
        PassesOneMore(db, visits[..i], visits[i]);
        AppliedOneMore(db, visits[..i], visits[i]);
        ok := ApplyFile(visits[i], table);
        if !ok {
          if Passes(table, visits) { PassesPrefix(table, visits, i + 1); }
          return;
        }
      }
      assert visits[..|visits|] == visits;
      return true;
    }

    /** execute_migrations: begin, apply, then commit or roll back. */
    method ExecuteMigrations(run: Run) returns (ok: bool)
      modifies this
      ensures ok <==> run.begins && run.commits && Passes(old(recorded), run.visits)
      ensures !ok ==> View() == old(View())
      ensures View() == AfterRun(old(View()), run)
    {
      if !run.begins { return false; }
      var savedTable := recorded;
      ghost var savedApplied, savedScripts := applied, scripts;
      ok := ApplyMigrationFiles(run.visits);
      if !ok || !run.commits {
        recorded := savedTable;
        applied, scripts := savedApplied, savedScripts;
        ok := false;
      }
    }
  }

  // ---------------------------------------------------------------------------
  // Any sequence of runs
  // ---------------------------------------------------------------------------

  /** From this table on: no version was applied twice, or once more after it was recorded; the table is the
      starting one plus exactly the applied files; and the driver saw exactly their scripts. */
  ghost predicate Faithful(start: map<string, string>, db: Db) {
    && DistinctNames(db.applied)
    && AllNew(start, db.applied)
    && db.recorded == start + Checksums(db.applied)
    && db.scripts == Scripts(db.applied)
  }

  ghost predicate AllNew(recorded: map<string, string>, files: seq<File>) {
    forall i :: 0 <= i < |files| ==> files[i].name !in recorded
  }

  lemma {:induction false} PendingIsNew(recorded: map<string, string>, visits: seq<Visit>)
    ensures AllNew(recorded, Pending(recorded, visits))
  {
    if visits != [] {
      PendingIsNew(recorded, visits[..|visits| - 1]);
    }
  }

  lemma {:induction false} ChecksumsAppend(a: seq<File>, b: seq<File>)
    ensures Checksums(a + b) == Checksums(a) + Checksums(b)
  {
    if b == [] {
      assert a + b == a;
    } else {
      ChecksumsAppend(a, b[..|b| - 1]);
      assert (a + b)[..|a + b| - 1] == a + b[..|b| - 1];
    }
  }

  lemma {:induction false} ScriptsAppend(a: seq<File>, b: seq<File>)
    ensures Scripts(a + b) == Scripts(a) + Scripts(b)
  {
    if b == [] {
      assert a + b == a;
    } else {
      ScriptsAppend(a, b[..|b| - 1]);
      assert (a + b)[..|a + b| - 1] == a + b[..|b| - 1];
    }
  }

  lemma NewFilesDiffer(start: map<string, string>, applied: seq<File>, files: seq<File>)
    requires DistinctNames(applied) && DistinctNames(files)
    requires AllNew(start, applied) && AllNew(start + Checksums(applied), files)
    ensures DistinctNames(applied + files) && AllNew(start, applied + files)
  {
    ChecksumKeys(applied);
    forall i, j | 0 <= i < |applied| && 0 <= j < |files|
      ensures applied[i].name != files[j].name
    {
      assert HasName(applied, applied[i].name);
    }
  }

  lemma RunKeepsFaithful(start: map<string, string>, db: Db, run: Run)
    requires Faithful(start, db)
    ensures Faithful(start, AfterRun(db, run))
  {
    if Succeeds(db, run) {
      var files := Pending(db.recorded, run.visits);
      PendingIsNew(db.recorded, run.visits);
      NewFilesDiffer(start, db.applied, files);
      ChecksumsAppend(db.applied, files);
      ScriptsAppend(db.applied, files);
    }
  }

  /** Migrations run exactly once, over any sequence of runs with any failures, changed files
      and repeated names. */
  lemma {:induction false} MigrationsRunOnce(start: map<string, string>, runs: seq<Run>)
    ensures Faithful(start, AfterRuns(Db(start, [], []), runs))
  {
    if runs != [] {
      MigrationsRunOnce(start, runs[..|runs| - 1]);
      RunKeepsFaithful(start, AfterRuns(Db(start, [], []), runs[..|runs| - 1]), runs[|runs| - 1]);
    }
  }

  function VisibleScripts(scripts: seq<string>): seq<string> {
    if scripts == [] then [] else
    var last := scripts[|scripts| - 1];
    VisibleScripts(scripts[..|scripts| - 1]) + if Visible(last) then [last] else []
  }

  function Sources(files: seq<File>): seq<string> {
    seq(|files|, i requires 0 <= i < |files| => files[i].sql)
  }

  lemma VisibleSnoc(scripts: seq<string>, sql: string)
    ensures VisibleScripts(scripts + [sql]) == VisibleScripts(scripts) + if Visible(sql) then [sql] else []
  {
    assert (scripts + [sql])[..|scripts|] == scripts;
  }

  lemma {:induction false} ScriptsShow(files: seq<File>)
    ensures VisibleScripts(Scripts(files)) == VisibleScripts(Sources(files))
  {
    if files != [] {
      var init, last := files[..|files| - 1], files[|files| - 1];
      ScriptsShow(init);
      SomethingToRun(last.sql);
      assert Sources(files) == Sources(init) + [last.sql];
      VisibleSnoc(Sources(init), last.sql);
      if Blank(last.sql) {
        assert Scripts(files) == Scripts(init);
      } else {
        assert Scripts(files) == Scripts(init) + [last.sql];
        VisibleSnoc(Scripts(init), last.sql);
      }
    }
  }

  lemma {:induction false} ScriptsHold(files: seq<File>)
    ensures forall s :: s in Scripts(files) ==> !OnlyBlanks(s)
    ensures forall i :: 0 <= i < |files| && Visible(files[i].sql) ==> files[i].sql in Scripts(files)
  {
    if files != [] {
      ScriptsHold(files[..|files| - 1]);
      SomethingToRun(files[|files| - 1].sql);
    }
  }

  /** Over any sequence of runs: every applied file with something in it was handed to the driver, in the order of
      application and as often, and no script of blanks ever was. */
  lemma AppliedFilesAreExecuted(start: map<string, string>, runs: seq<Run>)
    ensures var db := AfterRuns(Db(start, [], []), runs);
            && VisibleScripts(db.scripts) == VisibleScripts(Sources(db.applied))
            && (forall i :: 0 <= i < |db.applied| && Visible(db.applied[i].sql) ==> db.applied[i].sql in db.scripts)
            && (forall s :: s in db.scripts ==> !OnlyBlanks(s))
  {
    MigrationsRunOnce(start, runs);
    ScriptsShow(AfterRuns(Db(start, [], []), runs).applied);
    ScriptsHold(AfterRuns(Db(start, [], []), runs).applied);
  }

  /** A pass succeeds only if every pending file with something in it ran, was read, and was recorded. */
  lemma PendingFilesMustRun(recorded: map<string, string>, visits: seq<Visit>, i: nat)
    requires Passes(recorded, visits) && i < |visits|
    ensures visits[i].readable
    ensures visits[i].file.name in recorded ==> recorded[visits[i].file.name] == visits[i].file.checksum
    ensures visits[i].file.name !in recorded ==>
              visits[i].insertOk && (Visible(visits[i].file.sql) ==> visits[i].scriptOk)
  {
    SomethingToRun(visits[i].file.sql);
    assert VisitPasses(recorded, visits[i]);
  }

  /** The table, name by name: as it was, and for each applied file its checksum. */
  lemma RecordedAreApplied(start: map<string, string>, runs: seq<Run>, i: nat)
    requires i < |AfterRuns(Db(start, [], []), runs).applied|
    ensures var db := AfterRuns(Db(start, [], []), runs);
            db.applied[i].name in db.recorded && db.recorded[db.applied[i].name] == db.applied[i].checksum
  {
    MigrationsRunOnce(start, runs);
    LastChecksum(AfterRuns(Db(start, [], []), runs).applied, i);
  }

  lemma {:induction false} LastChecksum(files: seq<File>, i: nat)
    requires DistinctNames(files) && i < |files|
    ensures files[i].name in Checksums(files) && Checksums(files)[files[i].name] == files[i].checksum
    decreases |files|
  {
    if i < |files| - 1 { LastChecksum(files[..|files| - 1], i); }
  }

  lemma NewFilesKeep(db: Db, files: seq<File>, name: string)
    requires name in db.recorded && AllNew(db.recorded, files)
    ensures name in With(db, files).recorded && With(db, files).recorded[name] == db.recorded[name]
  {
    ChecksumKeys(files);
    assert !HasName(files, name);
  }

  /** A recorded checksum never changes and is never lost. */
  lemma {:induction false} ChecksumsAreStable(db: Db, runs: seq<Run>, name: string)
    requires name in db.recorded
    ensures name in AfterRuns(db, runs).recorded && AfterRuns(db, runs).recorded[name] == db.recorded[name]
  {
    if runs != [] {
      ChecksumsAreStable(db, runs[..|runs| - 1], name);
      var before := AfterRuns(db, runs[..|runs| - 1]);
      var visits := runs[|runs| - 1].visits;
      PendingIsNew(before.recorded, visits);
      NewFilesKeep(before, Pending(before.recorded, visits), name);
    }
  }

  lemma {:induction false} NothingPending(recorded: map<string, string>, visits: seq<Visit>)
    requires forall i :: 0 <= i < |visits| ==> visits[i].file.name in recorded
    ensures Pending(recorded, visits) == []
  {
    if visits != [] {
      NothingPending(recorded, visits[..|visits| - 1]);
    }
  }

  lemma {:induction false} ListedAreRecorded(db: Db, visits: seq<Visit>, i: nat)
    requires i < |visits| && Passes(db.recorded, visits)
    ensures var t := With(db, Pending(db.recorded, visits)).recorded;
            visits[i].file.name in t && t[visits[i].file.name] == visits[i].file.checksum
    decreases |visits|
  {
    var init, last := visits[..|visits| - 1], visits[|visits| - 1];
    assert visits == init + [last];
    PassesPrefix(db.recorded, visits, |init|);
    PassesOneMore(db, init, last);
    AppliedOneMore(db, init, last);
    if i < |init| {
      ListedAreRecorded(db, init, i);
    } else if last.file.name in db.recorded {
      PendingIsNew(db.recorded, init);
      NewFilesKeep(db, Pending(db.recorded, init), last.file.name);
    }
  }

  /** A run over files that are all recorded as they are. */
  lemma NothingToDo(db: Db, run: Run)
    requires run.begins && run.commits
    requires forall i :: 0 <= i < |run.visits| ==>
               && run.visits[i].readable
               && run.visits[i].file.name in db.recorded
               && db.recorded[run.visits[i].file.name] == run.visits[i].file.checksum
    ensures Succeeds(db, run) && AfterRun(db, run) == db
  {
    NothingPending(db.recorded, run.visits);
    assert With(db, []) == db;
  }

  /** After a successful run, a run over the same files succeeds as soon as files, connection
      and COMMIT cooperate, and it executes nothing. */
  lemma SecondRunDoesNothing(db: Db, first: Run, second: Run)
    requires Succeeds(db, first)
    requires second.begins && second.commits && |second.visits| == |first.visits|
    requires forall i :: 0 <= i < |first.visits| ==>
               second.visits[i].readable && second.visits[i].file == first.visits[i].file
    ensures Succeeds(AfterRun(db, first), second)
    ensures AfterRun(AfterRun(db, first), second) == AfterRun(db, first)
  {
    var after := AfterRun(db, first);
    forall i | 0 <= i < |first.visits|
      ensures first.visits[i].file.name in after.recorded
      ensures after.recorded[first.visits[i].file.name] == first.visits[i].file.checksum
    {
      ListedAreRecorded(db, first.visits, i);
    }
    NothingToDo(after, second);
  }

  // ---------------------------------------------------------------------------
  // The retry loop
  // ---------------------------------------------------------------------------

  /** One attempt: the transaction, how long it takes, whether its failure is one of the
      retryable errors, and how much longer than asked the sleep after it lasts. */
  datatype Attempt = Attempt(run: Run, duration: real, retryable: bool, oversleep: real) {
    predicate Timed() { duration >= 0.0 && oversleep >= 0.0 }
    predicate Instant() { duration == 0.0 && oversleep == 0.0 }
  }

  datatype Result = Success | Raised | TimedOut

  predicate FailsRetryably(db: Db, a: Attempt) {
    !Succeeds(db, a.run) && a.retryable
  }

  class Runner {
    const db: Database
    var now: real
    ghost var attempts: nat
    ghost var slept: real

    constructor (db: Database, now: real)
      ensures this.db == db && this.now == now && attempts == 0 && slept == 0.0
    {
      this.db, this.now := db, now;
      attempts, slept := 0, 0.0;
    }

    /** One round of the retry loop: Some when it ends the loop, None after a sleep. */
    method Round(a: Attempt, deadline: real) returns (r: Option<Result>)
      modifies this, db
      ensures attempts == old(attempts) + 1
      ensures db.View() == AfterRun(old(db.View()), a.run)
      ensures r == Some(Success) <==> Succeeds(old(db.View()), a.run)
      ensures r == Some(Raised) <==> !Succeeds(old(db.View()), a.run) && !a.retryable
      ensures r == Some(TimedOut) <==> FailsRetryably(old(db.View()), a) && old(now) + a.duration >= deadline
      ensures r.Some? ==> now == old(now) + a.duration && slept == old(slept)
      ensures r.None? ==>
                var pause := MinReal(MIGRATION_RETRY_DELAY_SECONDS, deadline - old(now) - a.duration);
                slept == old(slept) + pause && now == old(now) + a.duration + pause + a.oversleep
    {
      attempts := attempts + 1;
      now := now + a.duration;
      var ok := db.ExecuteMigrations(a.run);
      if ok { return Some(Success); }
      if !a.retryable { return Some(Raised); }
      var remaining := deadline - now;
      if remaining <= 0.0 { return Some(TimedOut); }
      var pause := MinReal(MIGRATION_RETRY_DELAY_SECONDS, remaining);
      slept := slept + pause;
      now := now + pause + a.oversleep;
      return None;
    }

    /** run_migrations: _run_with_retry around execute_migrations. It always ends, after at most
        61 attempts (a bound that instant failures meet) and at most 600 s of requested sleep; it
        succeeds exactly if its last attempt commits, and otherwise leaves the database as it was. */
    method RunWithRetry(env: nat -> Attempt) returns (r: Result)
      requires forall n :: env(n).Timed()
      requires attempts == 0 && slept == 0.0
      modifies this, db
      ensures 1 <= attempts <= 61
      ensures 0.0 <= slept <= MAX_MIGRATION_WAIT_SECONDS
      ensures forall k :: 0 <= k < attempts - 1 ==> FailsRetryably(old(db.View()), env(k))
      ensures r.Success? <==> Succeeds(old(db.View()), env(attempts - 1).run)
      ensures db.View() == AfterRun(old(db.View()), env(attempts - 1).run)
      ensures r.Raised? ==> !env(attempts - 1).retryable
      ensures r.TimedOut? ==> env(attempts - 1).retryable && now >= old(now) + MAX_MIGRATION_WAIT_SECONDS
      ensures (forall k :: 0 <= k < 61 ==> env(k).Instant() && FailsRetryably(old(db.View()), env(k))) ==>
                attempts == 61 && slept == MAX_MIGRATION_WAIT_SECONDS
    {
      ghost var start, before := now, db.View();
      ghost var worst := forall k :: 0 <= k < 61 ==> env(k).Instant() && FailsRetryably(before, env(k));
      var deadline := now + MAX_MIGRATION_WAIT_SECONDS;
      var n: nat := 0;
      while true
        invariant n == attempts <= 60
        invariant db.View() == before
        invariant forall k :: 0 <= k < n ==> FailsRetryably(before, env(k))
        invariant 0.0 <= slept <= MinReal(MAX_MIGRATION_WAIT_SECONDS, now - start)
        invariant now - start >= MinReal(MAX_MIGRATION_WAIT_SECONDS, 10.0 * n as real)
        invariant worst ==> slept == now - start == 10.0 * n as real
        decreases 61 - n
      {
        assert env(n).Timed();
        var out := Round(env(n), deadline);
        if out.Some? { return out.value; }
        n := n + 1;
      }
    }
  }
}
