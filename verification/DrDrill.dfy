/** The disaster-recovery drill: back up, check, restore into a throwaway database, query it, drop it. */
module DrDrill {
  import opened Prelude

  /** Of the backup record: where the dump lies and the checksum it had when it was taken. */
  datatype Backup = Backup(dumpPath: string, sha256: string)

  datatype Stage = CreateBackup | VerifyChecksum | CreateTarget | RestoreBackup | Verify(query: string) | CleanUp

  /** One line of the report; its detail text and duration are not modelled. */
  datatype Step = Step(stage: Stage, passed: bool)

  /** Every step passed, and there was one. */
  predicate Passed(steps: seq<Step>) {
    steps != [] && forall i :: 0 <= i < |steps| ==> steps[i].passed
  }

  /**
   * How a command sent to the server ends. A reported success was applied; a refusal or a raised error (a timeout, a
   * lost connection) may or may not have been.
   */
  datatype Reply = Succeeded | Refused(applied: bool) | Raised(message: string, applied: bool) {
    predicate Applied() {
      Succeeded? || this.applied
    }
  }

  /** How taking the dump ends: written, failed as the drill expects it, or with any other error. */
  datatype Dump = Written(path: string, content: string) | NoDump | DumpCrashed(message: string)

  /** A file as a reader finds it: with its content, or with an error that reading it raises. */
  datatype File = Readable(content: string) | Unreadable(message: string)

  type Disk = map<string, File>

  /** How a look at the checksum ends. */
  datatype Look = Matches | Differs | LookCrashed(message: string)

  /** How `pg_restore` ends: a failure the drill handles, or one it does not. */
  datatype Restoring = Restored | RestoreFailed | RestoreCrashed(message: string)

  /** What the world does during one drill: any combination is possible. */
  datatype Scenario = Scenario(
    dump: Dump,
    diskAtCheck: Disk,
    create: Reply,
    diskAtRestore: Disk,
    restore: Restoring,
    answers: seq<Reply>,
    drop: Reply)

  datatype Action =
    | TakeDump
    | CheckSum(look: Look)
    | CreateDatabase(name: string)
    | RestoreInto(name: string, path: string)
    | RunQuery(name: string, query: string)
    | DropDatabase(name: string)

  datatype Failure = UnsafeName | Escaped(message: string)

  type Digest = string -> string

  /** A missing file differs from its record; an error raised while the file is read is not caught. */
  function Compared(digest: Digest, disk: Disk, b: Backup): Look {
    if b.dumpPath !in disk then Differs
    else
      match disk[b.dumpPath]
      case Unreadable(message) => LookCrashed(message)
      case Readable(content) => if digest(content) == b.sha256 then Matches else Differs
  }

  predicate Intact(digest: Digest, disk: Disk, b: Backup) {
    Compared(digest, disk, b).Matches?
  }

  /** The name of a drill ends in random digits and letters, so it has no line break at its end. */
  predicate SafeName(name: string) {
    && 1 <= |name| <= 63
    && 'a' <= name[0] <= 'z'
    && forall i :: 0 <= i < |name| ==> 'a' <= name[i] <= 'z' || '0' <= name[i] <= '9' || name[i] == '_'
  }

  /** A small letter first, then small letters, digits and underscores, 63 in all at most. */
  lemma SafeNameExactly(name: string)
    ensures SafeName(name) <==>
            && name != "" && |name| < 64
            && (forall c :: c in name ==> 97 <= c as int <= 122 || 48 <= c as int <= 57 || c as int == 95)
            && 97 <= name[0] as int <= 122
    ensures SafeName("dbre_dr_test_0a1b2c3d") && !SafeName("") && !SafeName("9a") && !SafeName("_a") && !SafeName("a-b")
    ensures !SafeName("Drill") && !SafeName("a\"; DROP")
  {
    assert forall i :: 0 <= i < |name| ==> name[i] in name;
    assert "a-b"[1] == '-' && "a\"; DROP"[1] == '\"';
  }

  const DEFAULT_QUERIES: seq<string> := ["SELECT 1"]

  // ---------------------------------------------------------------------------
  // How far a drill gets
  // ---------------------------------------------------------------------------

  /** The reply to query `i`. */
  function Answer(sc: Scenario, i: nat): Reply {
    if i < |sc.answers| then sc.answers[i] else Succeeded
  }

  /** CREATE DATABASE of a name that is taken is refused. */
  function CreateReply(sc: Scenario, taken: bool): Reply {
    if taken then Refused(false) else sc.create
  }

  function BackupOf(digest: Digest, sc: Scenario): Backup
    requires sc.dump.Written?
  {
    Backup(sc.dump.path, digest(sc.dump.content))
  }

  /** The drill's own look at the checksum. */
  function FirstLook(digest: Digest, sc: Scenario): Look
    requires sc.dump.Written?
  {
    Compared(digest, sc.diskAtCheck, BackupOf(digest, sc))
  }

  /** The look the restore takes before it runs anything. */
  function SecondLook(digest: Digest, sc: Scenario): Look
    requires sc.dump.Written?
  {
    Compared(digest, sc.diskAtRestore, BackupOf(digest, sc))
  }

  /** How the restore ends, as it depends on the dump it finds. */
  function RestoreEnd(look: Look, restore: Restoring): Restoring {
    match look
    case Matches => restore
    case Differs => RestoreFailed
    case LookCrashed(message) => RestoreCrashed(message)
  }

  predicate Checked(digest: Digest, sc: Scenario) {
    sc.dump.Written? && FirstLook(digest, sc).Matches?
  }

  predicate Created(digest: Digest, sc: Scenario, taken: bool) {
    Checked(digest, sc) && CreateReply(sc, taken).Succeeded?
  }

  /** `pg_restore` was started: the checksum matched a second time. */
  predicate Started(digest: Digest, sc: Scenario, taken: bool) {
    Created(digest, sc, taken) && SecondLook(digest, sc).Matches?
  }

  predicate RestoreDone(digest: Digest, sc: Scenario, taken: bool) {
    Started(digest, sc, taken) && sc.restore.Restored?
  }

  /** No error escapes: not from the dump, the checksum, CREATE, the restore, nor from the DROP in the `finally`. */
  predicate Returns(digest: Digest, sc: Scenario, taken: bool) {
    && !sc.dump.DumpCrashed?
    && (sc.dump.Written? ==> !FirstLook(digest, sc).LookCrashed?)
    && (Checked(digest, sc) ==> !CreateReply(sc, taken).Raised?)
    && (Created(digest, sc, taken) ==> !RestoreEnd(SecondLook(digest, sc), sc.restore).RestoreCrashed?)
    && (Created(digest, sc, taken) ==> !sc.drop.Raised?)
  }

  // ---------------------------------------------------------------------------
  // What a drill does and reports
  // ---------------------------------------------------------------------------

  function QuerySteps(sc: Scenario, queries: seq<string>): seq<Step> {
    seq(|queries|, i requires 0 <= i < |queries| => Step(Verify(queries[i]), Answer(sc, i).Succeeded?))
  }

  function QueryActions(name: string, queries: seq<string>): seq<Action> {
    seq(|queries|, i requires 0 <= i < |queries| => RunQuery(name, queries[i]))
  }

  /** The steps inside the `try`. */
  function Middle(digest: Digest, sc: Scenario, taken: bool, queries: seq<string>): seq<Step> {
    [Step(RestoreBackup, RestoreDone(digest, sc, taken))]
    + (if RestoreDone(digest, sc, taken) then QuerySteps(sc, queries) else [])
  }

  /** The steps from the creation of the throwaway database on. */
  function AfterCheck(digest: Digest, sc: Scenario, taken: bool, queries: seq<string>): seq<Step> {
    [Step(CreateTarget, CreateReply(sc, taken).Succeeded?)]
    + (if Created(digest, sc, taken) then
         Middle(digest, sc, taken, queries) + [Step(CleanUp, sc.drop.Succeeded?)]
       else
         [])
  }

  /** The steps from the look at the checksum on. */
  function AfterDump(digest: Digest, sc: Scenario, taken: bool, queries: seq<string>): seq<Step> {
    [Step(VerifyChecksum, Checked(digest, sc))]
    + (if Checked(digest, sc) then AfterCheck(digest, sc, taken, queries) else [])
  }

  /** The report of a drill that returns. */
  function Report(digest: Digest, sc: Scenario, taken: bool, queries: seq<string>): seq<Step> {
    [Step(CreateBackup, sc.dump.Written?)]
    + (if sc.dump.Written? then AfterDump(digest, sc, taken, queries) else [])
  }

  function MiddleActions(digest: Digest, sc: Scenario, taken: bool, name: string, queries: seq<string>): seq<Action>
    requires sc.dump.Written?
  {
    [CheckSum(SecondLook(digest, sc))]
    + (if Started(digest, sc, taken) then [RestoreInto(name, BackupOf(digest, sc).dumpPath)] else [])
    + (if RestoreDone(digest, sc, taken) then QueryActions(name, queries) else [])
  }

  function ActionsAfterCheck(digest: Digest, sc: Scenario, taken: bool, name: string, queries: seq<string>): seq<Action> {
    [CreateDatabase(name)]
    + (if Created(digest, sc, taken) then
         MiddleActions(digest, sc, taken, name, queries) + [DropDatabase(name)]
       else
         [])
  }

  function ActionsAfterDump(digest: Digest, sc: Scenario, taken: bool, name: string, queries: seq<string>): seq<Action>
    requires sc.dump.Written?
  {
    [CheckSum(FirstLook(digest, sc))]
    + (if Checked(digest, sc) then ActionsAfterCheck(digest, sc, taken, name, queries) else [])
  }

  /** What a drill does, whether or not it returns. */
  function Actions(digest: Digest, sc: Scenario, taken: bool, name: string, queries: seq<string>): seq<Action> {
    [TakeDump] + (if sc.dump.Written? then ActionsAfterDump(digest, sc, taken, name, queries) else [])
  }

  /** The report and the actions of a drill, stage by stage. */
  lemma Stages(digest: Digest, sc: Scenario, taken: bool, name: string, queries: seq<string>)
    ensures var report, did := Report(digest, sc, taken, queries), Actions(digest, sc, taken, name, queries);
            if !sc.dump.Written? then
              report == [Step(CreateBackup, false)] && did == [TakeDump]
            else if !Checked(digest, sc) then
              && report == [Step(CreateBackup, true), Step(VerifyChecksum, false)]
              && did == [TakeDump, CheckSum(FirstLook(digest, sc))]
            else if !Created(digest, sc, taken) then
              && report == [Step(CreateBackup, true), Step(VerifyChecksum, true), Step(CreateTarget, false)]
              && did == [TakeDump, CheckSum(Matches), CreateDatabase(name)]
            else
              && report == [Step(CreateBackup, true), Step(VerifyChecksum, true),
                            Step(CreateTarget, true)]
                           + Middle(digest, sc, taken, queries)
                           + [Step(CleanUp, sc.drop.Succeeded?)]
              && did == [TakeDump, CheckSum(Matches), CreateDatabase(name)]
                        + MiddleActions(digest, sc, taken, name, queries) + [DropDatabase(name)]
  {
    hide Compared, Middle, MiddleActions;
    Flatten(Step(CreateBackup, true), Step(VerifyChecksum, true), Step(CreateTarget, true),
            Middle(digest, sc, taken, queries), Step(CleanUp, sc.drop.Succeeded?));
    if sc.dump.Written? {
      Flatten(TakeDump, CheckSum(Matches), CreateDatabase(name), MiddleActions(digest, sc, taken, name, queries),
              DropDatabase(name));
    }
  }

  lemma Flatten<T>(a: T, b: T, c: T, middle: seq<T>, d: T)
    ensures [a] + ([b] + ([c] + (middle + [d]))) == [a, b, c] + middle + [d]
  {
  }

  /** The databases on the server afterwards. */
  function DatabasesAfter(digest: Digest, sc: Scenario, name: string, before: set<string>): set<string> {
    var taken := name in before;
    if !Checked(digest, sc) || !CreateReply(sc, taken).Applied() then before
    else if Created(digest, sc, taken) && sc.drop.Applied() then before
    else before + {name}
  }

  // ---------------------------------------------------------------------------
  // What that guarantees
  // ---------------------------------------------------------------------------

  function Drops(actions: seq<Action>): nat {
    if actions == [] then 0 else Drops(actions[1..]) + (if actions[0].DropDatabase? then 1 else 0)
  }

  lemma {:induction false} DropsAppend(a: seq<Action>, b: seq<Action>)
    ensures Drops(a + b) == Drops(a) + Drops(b)
  {
    if a == [] {
      assert a + b == b;
    } else {
      assert (a + b)[1..] == a[1..] + b;
      DropsAppend(a[1..], b);
    }
  }

  lemma {:induction false} NoDrops(a: seq<Action>)
    requires forall i :: 0 <= i < |a| ==> !a[i].DropDatabase?
    ensures Drops(a) == 0
  {
    if a != [] {
      NoDrops(a[1..]);
    }
  }

  /**
   * The throwaway database is dropped exactly once if its creation was reported a success and never otherwise, as the
   * last thing done; this holds even when an error escapes the drill.
   */
  lemma DropsWhatItCreated(digest: Digest, sc: Scenario, taken: bool, name: string, queries: seq<string>)
    ensures var did := Actions(digest, sc, taken, name, queries);
            && Drops(did) == (if Created(digest, sc, taken) then 1 else 0)
            && (Created(digest, sc, taken) ==> did[|did| - 1] == DropDatabase(name))
            && (taken ==> Drops(did) == 0)
    ensures Created(digest, sc, taken) <==>
            Step(CreateTarget, true) in Report(digest, sc, taken, queries)
  {
    hide Report, Actions, Middle, Compared;
    var did := Actions(digest, sc, taken, name, queries);
    Stages(digest, sc, taken, name, queries);
    if Created(digest, sc, taken) {
      var middle := MiddleActions(digest, sc, taken, name, queries);
      var opening := [TakeDump, CheckSum(Matches), CreateDatabase(name)];
      assert did == opening + middle + [DropDatabase(name)];
      NoDrops(opening);
      NoDrops(middle);
      DropsAppend(opening, middle);
      DropsAppend(opening + middle, [DropDatabase(name)]);
      assert [DropDatabase(name)][1..] == [];
    } else {
      NoDrops(did);
    }
    ReportMentionsCreation(digest, sc, taken, queries);
  }

  lemma ReportMentionsCreation(digest: Digest, sc: Scenario, taken: bool, queries: seq<string>)
    ensures Created(digest, sc, taken) <==>
            Step(CreateTarget, true) in Report(digest, sc, taken, queries)
  {
    var target := Step(CreateTarget, true);
    hide Report, Actions, Middle, Compared;
    Stages(digest, sc, taken, "", queries);
    var report := Report(digest, sc, taken, queries);
    if Created(digest, sc, taken) {
      assert report[2] == target;
    } else {
    }
  }

  /** The file of the dump can be read, and what it holds has the digest of what was dumped. */
  predicate HoldsDump(digest: Digest, disk: Disk, dump: Dump)
    requires dump.Written?
  {
    && dump.path in disk
    && disk[dump.path].Readable?
    && digest(disk[dump.path].content) == digest(dump.content)
  }

  /** `pg_restore` runs only on a dump whose checksum matched when checked and again right before. */
  lemma RestoresOnlyIntactDumps(digest: Digest, sc: Scenario, taken: bool, name: string, queries: seq<string>, i: nat)
    requires i < |Actions(digest, sc, taken, name, queries)|
    requires Actions(digest, sc, taken, name, queries)[i].RestoreInto?
    ensures sc.dump.Written? && HoldsDump(digest, sc.diskAtCheck, sc.dump) && HoldsDump(digest, sc.diskAtRestore, sc.dump)
    ensures var did := Actions(digest, sc, taken, name, queries);
            && 4 <= i && did[..4] == [TakeDump, CheckSum(Matches), CreateDatabase(name), CheckSum(Matches)]
            && did[i] == RestoreInto(name, sc.dump.path)
  {
    hide Report, Actions, Middle;
    Stages(digest, sc, taken, name, queries);
    var did, middle := Actions(digest, sc, taken, name, queries), MiddleActions(digest, sc, taken, name, queries);
    if Created(digest, sc, taken) {
      assert did[i] == (middle + [DropDatabase(name)])[i - 3];
    }
  }

  /** The drill passes exactly when every stage worked, the cleanup included. */
  lemma PassesExactly(digest: Digest, sc: Scenario, taken: bool, queries: seq<string>)
    ensures Passed(Report(digest, sc, taken, queries)) <==>
            && RestoreDone(digest, sc, taken)
            && (forall i :: 0 <= i < |queries| ==> Answer(sc, i).Succeeded?)
            && sc.drop.Succeeded?
  {
    hide Report, Middle, Compared;
    Stages(digest, sc, taken, "", queries);
    var report := Report(digest, sc, taken, queries);
    if Created(digest, sc, taken) {
      PassesMiddle(digest, sc, taken, queries);
      PassedAround([Step(CreateBackup, true), Step(VerifyChecksum, true), Step(CreateTarget, true)],
                   Middle(digest, sc, taken, queries), Step(CleanUp, sc.drop.Succeeded?));
    } else {
      assert !report[|report| - 1].passed;
    }
  }

  lemma PassedAround(first: seq<Step>, middle: seq<Step>, last: Step)
    ensures Passed(first + middle + [last]) <==>
            (first == [] || Passed(first)) && (middle == [] || Passed(middle)) && last.passed
  {
    var all, m, n := first + middle + [last], |first|, |middle|;
    assert forall i :: 0 <= i < m ==> all[i] == first[i];
    assert forall i :: m <= i < m + n ==> all[i] == middle[i - m];
    assert all[m + n] == last;
    if Passed(all) {
      forall i | 0 <= i < n ensures middle[i].passed {
        assert all[m + i].passed;
      }
    }
  }

  lemma PassesMiddle(digest: Digest, sc: Scenario, taken: bool, queries: seq<string>)
    ensures Middle(digest, sc, taken, queries) != []
    ensures Passed(Middle(digest, sc, taken, queries)) <==>
            RestoreDone(digest, sc, taken) && forall i :: 0 <= i < |queries| ==> Answer(sc, i).Succeeded?
  {
    var middle := Middle(digest, sc, taken, queries);
    assert middle[0] == Step(RestoreBackup, RestoreDone(digest, sc, taken));
    if RestoreDone(digest, sc, taken) {
      assert forall i :: 0 <= i < |queries| ==> middle[i + 1] == QuerySteps(sc, queries)[i];
      if Passed(middle) {
        forall i | 0 <= i < |queries| ensures Answer(sc, i).Succeeded? {
          assert middle[i + 1].passed;
        }
      }
    }
  }

  /**
   * What a drill leaves on the server, also when an error escapes. The throwaway database stays behind exactly when
   * its creation was reported and the drop was not applied, or its creation was applied without being reported a
   * success (then no drop is tried). A drill that returns says so with a failed last step.
   */
  lemma LeavesBehindExactly(digest: Digest, sc: Scenario, name: string, before: set<string>, queries: seq<string>)
    ensures var after := DatabasesAfter(digest, sc, name, before);
            && before <= after <= before + {name}
            && (name !in before ==>
                  (name in after <==>
                   || (Created(digest, sc, false) && !sc.drop.Applied())
                   || (Checked(digest, sc) && !sc.create.Succeeded? && sc.create.Applied())))
    ensures Returns(digest, sc, name in before) ==>
              var report, after := Report(digest, sc, name in before, queries), DatabasesAfter(digest, sc, name, before);
              && (name in after && name !in before ==> !report[|report| - 1].passed)
              && (Passed(report) ==> after == before && name !in before)
  {
    hide Report, Middle, Compared;
    Stages(digest, sc, name in before, name, queries);
    PassesExactly(digest, sc, name in before, queries);
  }

  /** A dump that is written and stays intact; creation and drop end as given. */
  function PlainScenario(create: Reply, drop: Reply): Scenario {
    Scenario(Written("d", "x"), map["d" := Readable("x")], create, map["d" := Readable("x")], Restored, [], drop)
  }

  /** A drill in which everything works and no query was asked for. */
  lemma DefaultDrill()
    ensures var sc, queries := PlainScenario(Succeeded, Succeeded), Queries([]);
            && Returns(s => s, sc, false)
            && Report(s => s, sc, false, queries)
               == [Step(CreateBackup, true), Step(VerifyChecksum, true), Step(CreateTarget, true),
                   Step(RestoreBackup, true), Step(Verify("SELECT 1"), true), Step(CleanUp, true)]
            && Actions(s => s, sc, false, "drill", queries)
               == [TakeDump, CheckSum(Matches), CreateDatabase("drill"), CheckSum(Matches), RestoreInto("drill", "d"),
                   RunQuery("drill", "SELECT 1"), DropDatabase("drill")]
  {
  }

  /** A creation that times out after the server applied it leaves the database, and no report says so. */
  lemma TimedOutCreationStays()
    ensures var sc := PlainScenario(Raised("psql timed out", true), Succeeded);
            && !Returns(s => s, sc, false)
            && DatabasesAfter(s => s, sc, "drill", {}) == {"drill"}
            && Actions(s => s, sc, false, "drill", []) == [TakeDump, CheckSum(Matches), CreateDatabase("drill")]
  {
  }

  /** So does a drop that times out before it is applied, after a drill in which everything worked. */
  lemma TimedOutDropStays()
    ensures var sc := PlainScenario(Succeeded, Raised("psql timed out", false));
            && RestoreDone(s => s, sc, false)
            && !Returns(s => s, sc, false)
            && DatabasesAfter(s => s, sc, "drill", {}) == {"drill"}
  {
  }

  // ---------------------------------------------------------------------------
  // The drill
  // ---------------------------------------------------------------------------

  /** The list object the steps are appended to; a result holds a reference to it. */
  class StepList {
    var steps: seq<Step>

    constructor ()
      ensures steps == []
    {
      steps := [];
    }

    method Append(s: Step)
      modifies this
      ensures steps == old(steps) + [s]
    {
      steps := steps + [s];
    }
  }

  datatype DrTestResult = DrTestResult(fullName: string, steps: StepList)

  /** The disk, the server and a record of what one drill does to them. */
  class World {
    const digest: Digest
    const scenario: Scenario
    var files: Disk
    var databases: set<string>
    var trace: seq<Action>

    constructor (digest: Digest, scenario: Scenario, databases: set<string>)
      ensures this.digest == digest && this.scenario == scenario
      ensures this.databases == databases && trace == [] && files == map[]
    {
      this.digest, this.scenario := digest, scenario;
      this.databases, trace, files := databases, [], map[];
    }

    /** Take a dump and record its checksum: right after, the record matches the file. */
    method TakeBackup() returns (r: Result<Backup, Option<string>>)
      modifies this
      ensures databases == old(databases) && trace == old(trace) + [TakeDump]
      ensures r.Ok? <==> scenario.dump.Written?
      ensures r.Err? ==> r.error == if scenario.dump.DumpCrashed? then Some(scenario.dump.message) else None
      ensures r.Ok? ==> r.value == BackupOf(digest, scenario) && Intact(digest, files, r.value)
    {
      trace := trace + [TakeDump];
      match scenario.dump
      case NoDump => r := Err(None);
      case DumpCrashed(message) => r := Err(Some(message));
      case Written(path, content) =>
        files := files[path := Readable(content)];
        r := Ok(Backup(path, digest(files[path].content)));
    }

    /** Whatever happens to the disk between two looks at it. */
    method TimePasses(disk: Disk)
      modifies `files
      ensures files == disk
    {
      files := disk;
    }

    /** A missing dump does not match; one that cannot be read raises. */
    method VerifyBackup(b: Backup) returns (look: Look)
      modifies `trace
      ensures look == Compared(digest, files, b)
      ensures look.Matches? <==>
              b.dumpPath in files && files[b.dumpPath].Readable? && digest(files[b.dumpPath].content) == b.sha256
      ensures trace == old(trace) + [CheckSum(look)]
    {
      if b.dumpPath !in files {
        look := Differs;
      } else {
        match files[b.dumpPath] {
          case Unreadable(message) => look := LookCrashed(message);
          case Readable(content) => look := if digest(content) == b.sha256 then Matches else Differs;
        }
      }
      trace := trace + [CheckSum(look)];
    }

    /** Refuse a dump that does not match its record, else hand it to `pg_restore`. */
    method RestoreFrom(b: Backup, name: string) returns (r: Restoring)
      modifies `trace
      ensures r == RestoreEnd(Compared(digest, files, b), scenario.restore)
      ensures trace == old(trace) + [CheckSum(Compared(digest, files, b))]
                       + (if Intact(digest, files, b) then [RestoreInto(name, b.dumpPath)] else [])
    {
      var look := VerifyBackup(b);
      match look
      case LookCrashed(message) => r := RestoreCrashed(message);
      case Differs => r := RestoreFailed;
      case Matches =>
        trace := trace + [RestoreInto(name, b.dumpPath)];
        r := scenario.restore;
    }

    method RunCreate(name: string) returns (r: Reply)
      modifies `databases, `trace
      ensures r == CreateReply(scenario, name in old(databases))
      ensures databases == if r.Applied() then old(databases) + {name} else old(databases)
      ensures trace == old(trace) + [CreateDatabase(name)]
    {
      trace := trace + [CreateDatabase(name)];
      r := if name in databases then Refused(false) else scenario.create;
      if r.Applied() {
        databases := databases + {name};
      }
    }

    method RunDrop(name: string) returns (r: Reply)
      modifies `databases, `trace
      ensures r == scenario.drop
      ensures databases == if r.Applied() then old(databases) - {name} else old(databases)
      ensures trace == old(trace) + [DropDatabase(name)]
    {
      trace := trace + [DropDatabase(name)];
      r := scenario.drop;
      if r.Applied() {
        databases := databases - {name};
      }
    }

    method RunSql(name: string, query: string, i: nat) returns (r: Reply)
      modifies `trace
      ensures r == Answer(scenario, i)
      ensures trace == old(trace) + [RunQuery(name, query)]
    {
      trace := trace + [RunQuery(name, query)];
      r := if i < |scenario.answers| then scenario.answers[i] else Succeeded;
    }
  }

  /** The query loop; a query that raises is a failed step like one that is refused. */
  method RunQueries(world: World, name: string, queries: seq<string>, steps: StepList)
    modifies world`trace, steps
    ensures world.trace == old(world.trace) + QueryActions(name, queries)
    ensures steps.steps == old(steps.steps) + QuerySteps(world.scenario, queries)
  {
    for i := 0 to |queries|
      invariant world.trace == old(world.trace) + QueryActions(name, queries)[..i]
      invariant steps.steps == old(steps.steps) + QuerySteps(world.scenario, queries)[..i]
    {
      var reply := world.RunSql(name, queries[i], i);
      match reply {
        case Succeeded => steps.Append(Step(Verify(queries[i]), true));
        case Refused(_) => steps.Append(Step(Verify(queries[i]), false));
        case Raised(_, _) => steps.Append(Step(Verify(queries[i]), false));
      }
    }
  }

  /** The `try` block: an early answer if the restore failed, an escaping error if it crashed. */
  method RestoreAndVerify(world: World, backup: Backup, name: string, queries: seq<string>, fullName: string,
                          steps: StepList)
    returns (early: Option<Result<DrTestResult, Failure>>)
    requires Created(world.digest, world.scenario, false) && backup == BackupOf(world.digest, world.scenario)
    modifies world`trace, world`files, steps
    ensures var digest, sc := world.digest, world.scenario;
            && world.trace == old(world.trace) + MiddleActions(digest, sc, false, name, queries)
            && (early.Some? <==> !RestoreDone(digest, sc, false))
            && (early.Some? ==> early.value ==
                                match RestoreEnd(SecondLook(digest, sc), sc.restore)
                                case RestoreCrashed(message) => Err(Escaped(message))
                                case _ => Ok(DrTestResult(fullName, steps)))
            && (early.None? || early.value.Ok? ==>
                  steps.steps == old(steps.steps) + Middle(digest, sc, false, queries))
  {
    hide QuerySteps, QueryActions, Compared, Checked;
    world.TimePasses(world.scenario.diskAtRestore);
    var restoring := world.RestoreFrom(backup, name);
    match restoring
    case RestoreCrashed(message) => return Some(Err(Escaped(message)));
    case RestoreFailed =>
      steps.Append(Step(RestoreBackup, false));
      return Some(Ok(DrTestResult(fullName, steps)));
    case Restored =>
      steps.Append(Step(RestoreBackup, true));
    RunQueries(world, name, queries, steps);
    early := None;
  }

  /** The whole `try`/`finally`: the drop always runs, and its step is appended after the answer was settled. */
  method UseTarget(world: World, backup: Backup, name: string, queries: seq<string>, fullName: string, steps: StepList)
    returns (r: Result<DrTestResult, Failure>)
    requires Created(world.digest, world.scenario, false) && backup == BackupOf(world.digest, world.scenario)
    modifies world, steps
    ensures var digest, sc := world.digest, world.scenario;
            && world.trace == old(world.trace) + MiddleActions(digest, sc, false, name, queries) + [DropDatabase(name)]
            && world.databases == (if sc.drop.Applied() then old(world.databases) - {name} else old(world.databases))
            && (r.Ok? <==> Returns(digest, sc, false))
            && (r.Ok? ==>
                  && r.value == DrTestResult(fullName, steps)
                  && steps.steps == old(steps.steps) + Middle(digest, sc, false, queries)
                                    + [Step(CleanUp, sc.drop.Succeeded?)])
  {
    hide Middle, MiddleActions, Compared;
    var early := RestoreAndVerify(world, backup, name, queries, fullName, steps);
    var dropped := world.RunDrop(name);
    if dropped.Raised? {
      return Err(Escaped(dropped.message));
    }
    steps.Append(Step(CleanUp, dropped.Succeeded?));
    r := if early.Some? then early.value else Ok(DrTestResult(fullName, steps));
  }

  /** From the creation of the throwaway database on, with a dump that matched its checksum. */
  method UseBackup(world: World, backup: Backup, name: string, queries: seq<string>, fullName: string, steps: StepList)
    returns (r: Result<DrTestResult, Failure>)
    requires Checked(world.digest, world.scenario) && backup == BackupOf(world.digest, world.scenario)
    modifies world, steps
    ensures var digest, sc, taken := world.digest, world.scenario, name in old(world.databases);
            && world.trace == old(world.trace) + ActionsAfterCheck(digest, sc, taken, name, queries)
            && world.databases == DatabasesAfter(digest, sc, name, old(world.databases))
            && (r.Ok? <==> Returns(digest, sc, taken))
            && (r.Ok? ==>
                  && r.value == DrTestResult(fullName, steps)
                  && steps.steps == old(steps.steps) + AfterCheck(digest, sc, taken, queries))
  {
    hide Middle, MiddleActions, Compared;
    var created := world.RunCreate(name);
    if created.Raised? {
      return Err(Escaped(created.message));
    }
    steps.Append(Step(CreateTarget, created.Succeeded?));
    if !created.Succeeded? {
      return Ok(DrTestResult(fullName, steps));
    }
    r := UseTarget(world, backup, name, queries, fullName, steps);
  }

  /** From the look at the checksum on. */
  method CheckBackup(world: World, backup: Backup, name: string, queries: seq<string>, fullName: string, steps: StepList)
    returns (r: Result<DrTestResult, Failure>)
    requires world.scenario.dump.Written? && backup == BackupOf(world.digest, world.scenario)
    modifies world, steps
    ensures var digest, sc, taken := world.digest, world.scenario, name in old(world.databases);
            && world.trace == old(world.trace) + ActionsAfterDump(digest, sc, taken, name, queries)
            && world.databases == DatabasesAfter(digest, sc, name, old(world.databases))
            && (r.Ok? <==> Returns(digest, sc, taken))
            && (r.Ok? ==>
                  && r.value == DrTestResult(fullName, steps)
                  && steps.steps == old(steps.steps) + AfterDump(digest, sc, taken, queries))
  {
    hide AfterCheck, ActionsAfterCheck, Compared;
    world.TimePasses(world.scenario.diskAtCheck);
    var look := world.VerifyBackup(backup);
    if look.LookCrashed? {
      return Err(Escaped(look.message));
    }
    steps.Append(Step(VerifyChecksum, look.Matches?));
    if look.Differs? {
      return Ok(DrTestResult(fullName, steps));
    }
    r := UseBackup(world, backup, name, queries, fullName, steps);
  }

  /** Without a dump the drill is over; it returns unless taking the dump crashed. */
  lemma NothingChecked(digest: Digest, sc: Scenario, name: string, before: set<string>)
    requires !sc.dump.Written?
    ensures DatabasesAfter(digest, sc, name, before) == before
    ensures Returns(digest, sc, name in before) <==> !sc.dump.DumpCrashed?
  {
  }

  /** Whether a drill returns, what it did and what it left, as the scenario has it. */
  predicate Outcome(digest: Digest, sc: Scenario, name: string, fullName: string, queries: seq<string>,
                    before: set<string>, r: Result<DrTestResult, Failure>, trace: seq<Action>, after: set<string>)
  {
    var taken := name in before;
    && (r.Ok? <==> Returns(digest, sc, taken))
    && (r.Ok? ==> r.value.fullName == fullName)
    && trace == Actions(digest, sc, taken, name, queries)
    && after == DatabasesAfter(digest, sc, name, before)
  }

  /** An empty list of queries stands for the default one. */
  function Queries(asked: seq<string>): seq<string> {
    if asked == [] then DEFAULT_QUERIES else asked
  }

  /**
   * The drill. A result is returned exactly when no error escapes, and then holds the whole report, also when the
   * answer was settled before the cleanup step was appended.
   */
  method RunDrTest(world: World, name: string, fullName: string, verificationQueries: seq<string>)
    returns (r: Result<DrTestResult, Failure>)
    requires world.trace == []
    modifies world
    ensures !SafeName(name) ==> r == Err(UnsafeName) && world.trace == [] && world.databases == old(world.databases)
    ensures SafeName(name) ==>
              Outcome(world.digest, world.scenario, name, fullName, Queries(verificationQueries), old(world.databases),
                      r, world.trace, world.databases)
    ensures r.Ok? ==>
              && fresh(r.value.steps)
              && r.value.steps.steps == Report(world.digest, world.scenario, name in old(world.databases),
                                               Queries(verificationQueries))
  {
    hide AfterDump, ActionsAfterDump, Checked, Created, SafeName, Queries;
    if !SafeName(name) {
      return Err(UnsafeName);
    }
    var queries := Queries(verificationQueries);
    var steps := new StepList();

    var dumped := world.TakeBackup();
    if dumped.Err? {
      NothingChecked(world.digest, world.scenario, name, old(world.databases));
      if dumped.error.Some? {
        return Err(Escaped(dumped.error.value));
      }
      steps.Append(Step(CreateBackup, false));
      return Ok(DrTestResult(fullName, steps));
    }
    steps.Append(Step(CreateBackup, true));
    r := CheckBackup(world, dumped.value, name, queries, fullName, steps);
  }
}
