/**
 * The command-line batch pipeline: CommandLineIngestManager and its job
 * processing task, which runs the CREATE_CASE, ADD_DATA_SOURCE, RUN_INGEST and
 * LIST_ALL_DATA_SOURCES commands in order, stops at the first failure, and on
 * the way out closes the current case and shuts the application down.
 *
 * Each command arm is specified by a function from the state before the arm
 * (a `Context`) to how the arm ends (a `Step`) and the state after it; the
 * methods of `CommandLineIngestManager` are proved against those functions.
 */
module CommandLineIngest {
  import opened Wrappers
  import opened JavaText
  import opened Files
  import opened CaseFolders
  import opened DataSources
  import opened Ingest

  // ---------------------------------------------------------------------------
  // Commands

  /** CommandLineCommand.CommandType. */
  datatype CommandType = CreateCase | AddDataSource | RunIngest | ListAllDataSources

  /** CommandLineCommand.InputType. */
  datatype InputType = CaseName | CasesBaseDirPath | CaseFolderPath | DataSourcePath | DataSourceId

  /** A command and its inputs, keyed by input type. */
  datatype Command = Command(kind: CommandType, inputs: map<InputType, string>)

  /** command.getInputs().get(key): null when the input was not given. */
  function Input(c: Command, key: InputType): Option<string> {
    if key in c.inputs then Some(c.inputs[key]) else None
  }

  // ---------------------------------------------------------------------------
  // The environment

  /** An open case, known by its case directory. */
  datatype Case = Case(directory: string)

  const LogDirName: string := "Command Output"

  /** getOutputDirPath: the folder inside the case directory that command output goes to. */
  function OutputDirPath(c: Case): string {
    c.directory + Separator + LogDirName
  }

  /** TimeStampUtils.createTimeStamp() and the wall clock in milliseconds, at one moment. */
  datatype Instant = Instant(stamp: string, millis: nat)

  /** Whether each Case call succeeds (otherwise it throws CaseActionException). */
  datatype CaseBackend = CaseBackend(
    createsDirectory: string -> bool,   // Case.createCaseDirectory, by case directory
    createsCase: string -> bool,        // Case.createAsCurrentCase, by case directory
    opensCase: string -> bool)          // Case.openAsCurrentCase, by metadata file path

  /** SleuthkitCase.getContentById: it throws TskCoreException, returns null, or finds the content. */
  datatype ContentLookup = Found(content: Content) | NotFound | LookupError

  /**
   * Everything the task asks of the rest of the application. The clock is read
   * by command index: `clock(i)` is the moment command `i` creates its case.
   */
  datatype Env = Env(
    timeStamps: TimeStampFormat,
    clock: nat -> Instant,
    backend: CaseBackend,
    processors: string -> ProcessorLookup,
    contentById: (Case, int) -> ContentLookup,
    settingsWarnings: seq<string>,
    beginIngestJob: seq<Content> -> JobStartResult)

  /** Case.createCaseDirectory: the new case folder appears, empty, inside the base folder. */
  function CaseDirectoryMade(fs: FileSystem, base: string, folderName: string, millis: nat): FileSystem {
    var folder := JoinPath(base, folderName);
    AddEntry(fs, base, Entry(folderName, true, false, millis))[folder := Listed(EntriesOf(ListingOf(fs, folder)))]
  }

  /** Case.createAsCurrentCase: the case metadata file is written into the case folder. */
  function MetadataWritten(fs: FileSystem, folder: string, caseName: Option<string>, millis: nat): FileSystem {
    AddEntry(fs, folder, Entry(NameOrNull(caseName) + MetadataExtension, false, true, millis))
  }

  // ---------------------------------------------------------------------------
  // What the task does and how it can fail

  /** What the task does that can be observed from outside, in order. */
  datatype Event =
    | CommandStarted(index: nat, kind: CommandType)
    | CaseDirectoryCreated(path: string)
    | CaseCreated(path: string)
    | CaseOpened(metadataPath: string)
    | IngestCall(action: IngestAction)
    | OutputSaved(kind: CommandType, outputDir: string)
    | CurrentCaseClosed
    | Exited

  /** What a command arm can be stopped by. */
  datatype Fault =
    | CaseActionFault(reason: CaseActionReason)   // CaseActionException
    | ProcessorFault                              // AutoIngestDataSourceProcessorException
    | AnalysisFault(failure: AnalysisFailure)     // AnalysisStartupException
    | NullPointerFault                            // NullPointerException
    | NumberFormatFault                           // NumberFormatException from Long.valueOf
    | ContentLookupFault                          // TskCoreException from getContentById
    | ContentNotFound                             // getContentById returned null

  /** Which arm can be stopped by which fault. */
  predicate Raises(kind: CommandType, fault: Fault) {
    match fault
    case CaseActionFault(_) => true
    case NullPointerFault => true
    case ProcessorFault => kind == AddDataSource
    case _ => kind == RunIngest
  }

  function FaultOf(e: FolderError): Fault {
    match e
    case CaseAction(reason) => CaseActionFault(reason)
    case NullPointer => NullPointerFault
  }

  /**
   * Whether the arm for `kind` handles `fault` itself (its own catch clause, or
   * the RUN_INGEST content checks); any other fault reaches the Throwable
   * firewall around the command loop.
   */
  predicate Caught(kind: CommandType, fault: Fault) {
    match kind
    case CreateCase => fault.CaseActionFault?
    case AddDataSource => fault.CaseActionFault? || fault == ProcessorFault
    case RunIngest => fault.CaseActionFault? || fault == ContentLookupFault || fault == ContentNotFound
    case ListAllDataSources => fault.CaseActionFault?
  }

  /** The task's fields and the file system, between two steps. */
  datatype Context = Context(
    caseForJob: Option<Case>,
    dataSource: Option<DataSource>,
    disk: FileSystem,
    events: seq<Event>)

  /** How a command arm ends: on to the next command, stopped by a fault, or blocked for ever. */
  datatype Step = Next | Abort(fault: Fault) | Hang

  /** How the task ends. */
  datatype Outcome =
    | NoCommands
    | Completed
    | Failed(index: nat, fault: Fault, caughtByArm: bool)
    | Hung(index: nat)

  /** Events a command arm may add: everything but a command start, a case close or the exit. */
  predicate ArmEvent(e: Event) {
    !e.CommandStarted? && !e.CurrentCaseClosed? && !e.Exited?
  }

  /** `after` is `before` followed by arm events only. */
  predicate PlainSuffix(before: seq<Event>, after: seq<Event>) {
    && |before| <= |after|
    && after[..|before|] == before
    && forall k :: |before| <= k < |after| ==> ArmEvent(after[k])
  }

  // ---------------------------------------------------------------------------
  // The command arms

  /** openCase(String): open the case whose metadata file findAutFile finds in the folder. */
  function OpenExistingCaseStep(env: Env, ctx: Context, folder: Option<string>): (r: (Step, Context))
    ensures r.0.Next? ==> folder.Some? && r.1.caseForJob == Some(Case(folder.value))
    ensures r.0.Next? ==> AutFile(ctx.disk, folder.value).Ok? && ListingOf(ctx.disk, folder.value).Listed?
    ensures folder.None? ==> r.0 == Abort(NullPointerFault)
    ensures !r.0.Next? ==> r.0.Abort? && r.1 == ctx
    ensures r.1.disk == ctx.disk && r.1.dataSource == ctx.dataSource
    ensures PlainSuffix(ctx.events, r.1.events)
  {
    match folder
    case None => (Abort(NullPointerFault), ctx)
    case Some(dir) =>
      match AutFile(ctx.disk, dir)
      case Err(e) => (Abort(FaultOf(e)), ctx)
      case Ok(meta) =>
        if !env.backend.opensCase(meta) then (Abort(CaseActionFault(CaseBackendRefused)), ctx)
        else (Next, ctx.(caseForJob := Some(Case(dir)), events := ctx.events + [CaseOpened(meta)]))
  }

  /** The guard of ADD_DATA_SOURCE, RUN_INGEST and LIST_ALL_DATA_SOURCES: open a case only when none is open. */
  function EnsureCaseStep(env: Env, ctx: Context, c: Command): (r: (Step, Context))
    ensures r.0.Next? ==> r.1.caseForJob.Some?
    ensures ctx.caseForJob.Some? ==> r == (Next, ctx)
    ensures ctx.caseForJob.None? && r.0.Next? ==>
      Input(c, CaseFolderPath).Some? && r.1.caseForJob == Some(Case(Input(c, CaseFolderPath).value))
    ensures !r.0.Next? ==> r.0.Abort? && r.1 == ctx
    ensures r.1.disk == ctx.disk && r.1.dataSource == ctx.dataSource
    ensures PlainSuffix(ctx.events, r.1.events)
  {
    if ctx.caseForJob.Some? then (Next, ctx) else OpenExistingCaseStep(env, ctx, Input(c, CaseFolderPath))
  }

  /** findCaseDirectory finds a case folder for CREATE_CASE's case name under its base folder. */
  predicate CaseFolderExists(env: Env, ctx: Context, c: Command) {
    && Input(c, CasesBaseDirPath).Some?
    && var found := CaseDirectory(ctx.disk, Input(c, CasesBaseDirPath).value, Input(c, CaseName), env.timeStamps);
       found.Ok? && found.value.Some?
  }

  /** The case folder CREATE_CASE at command `index` creates. */
  function NewCasePath(env: Env, c: Command, index: nat): string
    requires Input(c, CasesBaseDirPath).Some?
  {
    CreateCaseFolderPath(Input(c, CasesBaseDirPath).value, Input(c, CaseName), env.clock(index).stamp)
  }

  /**
   * openCase(command): refuse a case name that already has a case folder under
   * the base folder, otherwise create `<base>/<name>_<time stamp>` and a case in it.
   */
  function OpenNewCaseStep(env: Env, ctx: Context, c: Command, index: nat): (r: (Step, Context))
    ensures r.0.Next? ==> Input(c, CasesBaseDirPath).Some? && r.1.caseForJob == Some(Case(NewCasePath(env, c, index)))
    ensures r.0 == Abort(CaseActionFault(CaseAlreadyExists)) <==> CaseFolderExists(env, ctx, c)
    ensures CaseFolderExists(env, ctx, c) ==> r.1 == ctx
    ensures !r.0.Next? ==> r.0.Abort? && r.1.caseForJob == ctx.caseForJob
    ensures r.1.dataSource == ctx.dataSource
    ensures PlainSuffix(ctx.events, r.1.events)
  {
    var name := Input(c, CaseName);
    match Input(c, CasesBaseDirPath)
    case None => (Abort(NullPointerFault), ctx)
    case Some(base) =>
      match CaseDirectory(ctx.disk, base, name, env.timeStamps)
      case Err(e) => (Abort(FaultOf(e)), ctx)
      case Ok(Some(_)) => (Abort(CaseActionFault(CaseAlreadyExists)), ctx)
      case Ok(None) =>
        var now := env.clock(index);
        var path := CreateCaseFolderPath(base, name, now.stamp);
        if !env.backend.createsDirectory(path) then (Abort(CaseActionFault(CaseBackendRefused)), ctx)
        else
          var made := ctx.(disk := CaseDirectoryMade(ctx.disk, base, CaseFolderName(name, now.stamp), now.millis),
                           events := ctx.events + [CaseDirectoryCreated(path)]);
          if !env.backend.createsCase(path) then (Abort(CaseActionFault(CaseBackendRefused)), made)
          else (Next, made.(caseForJob := Some(Case(path)),
                            disk := MetadataWritten(made.disk, path, name, now.millis),
                            events := made.events + [CaseCreated(path)]))
  }

  /** The CREATE_CASE arm. */
  function CreateCaseStep(env: Env, ctx: Context, c: Command, index: nat): (r: (Step, Context))
    ensures r.0.Next? ==> Input(c, CasesBaseDirPath).Some? && r.1.caseForJob == Some(Case(NewCasePath(env, c, index)))
    ensures r.0.Next? ==>
      |r.1.events| > 0 && r.1.events[|r.1.events| - 1] == OutputSaved(CreateCase, JoinPath(NewCasePath(env, c, index), "Command Output"))
    ensures r.0 == Abort(CaseActionFault(CaseAlreadyExists)) <==> CaseFolderExists(env, ctx, c)
    ensures CaseFolderExists(env, ctx, c) ==> r.1 == ctx
    ensures !r.0.Next? ==> r.0.Abort? && r.1.caseForJob == ctx.caseForJob
    ensures r.1.dataSource == ctx.dataSource
    ensures PlainSuffix(ctx.events, r.1.events)
  {
    var (step, withCase) := OpenNewCaseStep(env, ctx, c, index);
    if step.Next? then
      (Next, withCase.(events := withCase.events + [OutputSaved(CreateCase, OutputDirPath(withCase.caseForJob.value))]))
    else (step, withCase)
  }

  /** The ADD_DATA_SOURCE arm: a new data source for the path, run through the ranked processors. */
  function AddDataSourceStep(env: Env, ctx: Context, c: Command): (r: (Step, Context))
    ensures ctx.caseForJob.Some? ==> r.1.caseForJob == ctx.caseForJob
    ensures r.0.Next? ==>
      && Input(c, DataSourcePath).Some?
      && r.1.dataSource.Some?
      && var ds := r.1.dataSource.value;
         ds.path == Input(c, DataSourcePath).value &&
         (Succeeded(ds) || ds == NewDataSource("", ds.path))
    ensures r.0.Next? ==>
      && r.1.caseForJob.Some?
      && |r.1.events| > 0
      && r.1.events[|r.1.events| - 1] == OutputSaved(AddDataSource, JoinPath(r.1.caseForJob.value.directory, "Command Output"))
    ensures r.0 == Abort(ProcessorFault) ==>
      && Input(c, DataSourcePath).Some?
      && var lookup := env.processors(Input(c, DataSourcePath).value);
         lookup.LookupFailed? ||
         forall j :: 0 <= j < |lookup.attempts| ==> FailedAttempt(lookup.attempts[j])
    ensures r.1.disk == ctx.disk
    ensures PlainSuffix(ctx.events, r.1.events)
  {
    var (step, withCase) := EnsureCaseStep(env, ctx, c);
    if !step.Next? then (step, withCase)
    else match Input(c, DataSourcePath)
      case None => (Abort(NullPointerFault), withCase)
      case Some(path) =>
        AcquireIsRankedFallback(env.processors(path), NewDataSource("", path));
        var (acquisition, ds) := Acquire(env.processors(path), NewDataSource("", path));
        var added := withCase.(dataSource := Some(ds));
        match acquisition
        case Stalled(_) => (Hang, added)
        case AllFailed => (Abort(ProcessorFault), added)
        case UtilityFailed => (Abort(ProcessorFault), added)
        case _ => (Next, added.(events := added.events + [OutputSaved(AddDataSource, OutputDirPath(added.caseForJob.value))]))
  }

  /** The data source RUN_INGEST builds from one content object of the case database. */
  function DataSourceOf(content: Content): DataSource {
    DataSource("", content.name, Some(NoErrors), [], [content])
  }

  /** RUN_INGEST's data source: the one the task already has, or the content with the DATA_SOURCE_ID object id. */
  function DataSourceForIngestStep(env: Env, ctx: Context, c: Command): (r: (Step, Context))
    requires ctx.caseForJob.Some?
    ensures r.0.Next? ==> r.1.dataSource.Some?
    ensures ctx.dataSource.Some? ==> r == (Next, ctx)
    ensures ctx.dataSource.None? && r.0.Next? ==>
      && var ds := r.1.dataSource.value;
      && ParseLong(Input(c, DataSourceId)).Some?
      && |ds.content| == 1
      && env.contentById(ctx.caseForJob.value, ParseLong(Input(c, DataSourceId)).value) == Found(ds.content[0])
      && ds.path == ds.content[0].name && ds.deviceId == ""
      && ds.resultCode == Some(NoErrors) && ds.errors == []
    ensures r.0 == Abort(ContentNotFound) <==>
      && ctx.dataSource.None?
      && ParseLong(Input(c, DataSourceId)).Some?
      && env.contentById(ctx.caseForJob.value, ParseLong(Input(c, DataSourceId)).value) == NotFound
    ensures !r.0.Next? ==> r.0.Abort? && r.1 == ctx
    ensures r.1.events == ctx.events && r.1.caseForJob == ctx.caseForJob && r.1.disk == ctx.disk
  {
    if ctx.dataSource.Some? then (Next, ctx)
    else match ParseLong(Input(c, DataSourceId))
      case None => (Abort(NumberFormatFault), ctx)
      case Some(id) =>
        match env.contentById(ctx.caseForJob.value, id)
        case LookupError => (Abort(ContentLookupFault), ctx)
        case NotFound => (Abort(ContentNotFound), ctx)
        case Found(content) => (Next, ctx.(dataSource := Some(DataSourceOf(content))))
  }

  /** The ingest manager calls analyze makes, as events. */
  function IngestEvents(actions: seq<IngestAction>): (r: seq<Event>)
    ensures |r| == |actions| && forall k :: 0 <= k < |r| ==> r[k] == IngestCall(actions[k])
  {
    seq(|actions|, k requires 0 <= k < |actions| => IngestCall(actions[k]))
  }

  /** The RUN_INGEST arm. */
  function RunIngestStep(env: Env, ctx: Context, c: Command): (r: (Step, Context))
    ensures ctx.caseForJob.Some? ==> r.1.caseForJob == ctx.caseForJob
    ensures ctx.caseForJob.Some? && ctx.dataSource.Some? ==> r.1.dataSource == ctx.dataSource
    ensures r.0.Abort? && !r.0.fault.AnalysisFault? ==>
      forall k :: |ctx.events| <= k < |r.1.events| ==> !r.1.events[k].IngestCall?
    ensures r.0.Abort? && r.0.fault.AnalysisFault? ==>
      r.1.dataSource.Some? &&
      AnalysisOf(env.settingsWarnings, env.beginIngestJob, r.1.dataSource.value.content).0 == AnalysisFailed(r.0.fault.failure)
    ensures r.0.Next? ==>
      r.1.dataSource.Some? && AnalysisOf(env.settingsWarnings, env.beginIngestJob, r.1.dataSource.value.content).0 == Analyzed
    ensures r.1.disk == ctx.disk
    ensures PlainSuffix(ctx.events, r.1.events)
  {
    var (step, withCase) := EnsureCaseStep(env, ctx, c);
    if !step.Next? then (step, withCase)
    else
      var (ready, prepared) := DataSourceForIngestStep(env, withCase, c);
      if !ready.Next? then (ready, prepared)
      else
        var (outcome, actions) := AnalysisOf(env.settingsWarnings, env.beginIngestJob, prepared.dataSource.value.content);
        var analyzed := prepared.(events := prepared.events + IngestEvents(actions));
        match outcome
        case Analyzed => (Next, analyzed)
        case AnalysisFailed(f) => (Abort(AnalysisFault(f)), analyzed)
        case AnalysisHung => (Hang, analyzed)
  }

  /** The LIST_ALL_DATA_SOURCES arm. */
  function ListAllDataSourcesStep(env: Env, ctx: Context, c: Command): (r: (Step, Context))
    ensures ctx.caseForJob.Some? ==> r.1.caseForJob == ctx.caseForJob
    ensures r.0.Next? ==>
      && r.1.caseForJob.Some?
      && |r.1.events| > |ctx.events|
      && r.1.events[|r.1.events| - 1] == OutputSaved(ListAllDataSources, JoinPath(r.1.caseForJob.value.directory, "Command Output"))
    ensures r.0 != Hang
    ensures r.1.disk == ctx.disk && r.1.dataSource == ctx.dataSource
    ensures PlainSuffix(ctx.events, r.1.events)
  {
    var (step, withCase) := EnsureCaseStep(env, ctx, c);
    if !step.Next? then (step, withCase)
    else (Next, withCase.(events := withCase.events + [OutputSaved(ListAllDataSources, OutputDirPath(withCase.caseForJob.value))]))
  }

  /** The switch on the command type. */
  function DispatchStep(env: Env, ctx: Context, c: Command, index: nat): (r: (Step, Context))
    ensures r.0.Abort? ==> Raises(c.kind, r.0.fault)
    ensures r.0.Hang? ==> c.kind == AddDataSource || c.kind == RunIngest
    ensures c.kind != CreateCase ==> r.1.disk == ctx.disk
    ensures c.kind != CreateCase && ctx.caseForJob.Some? ==> r.1.caseForJob == ctx.caseForJob
    ensures c.kind != AddDataSource && c.kind != RunIngest ==> r.1.dataSource == ctx.dataSource
    ensures PlainSuffix(ctx.events, r.1.events)
  {
    match c.kind
    case CreateCase => CreateCaseStep(env, ctx, c, index)
    case AddDataSource => AddDataSourceStep(env, ctx, c)
    case RunIngest => RunIngestStep(env, ctx, c)
    case ListAllDataSources => ListAllDataSourcesStep(env, ctx, c)
  }

  /** The command loop from command `i` on. */
  function RunFrom(env: Env, ctx: Context, cmds: seq<Command>, i: nat): (Outcome, Context)
    requires i <= |cmds|
    decreases |cmds| - i
  {
    if i == |cmds| then (Completed, ctx)
    else
      var started := ctx.(events := ctx.events + [CommandStarted(i, cmds[i].kind)]);
      var (step, after) := DispatchStep(env, started, cmds[i], i);
      match step
      case Next => RunFrom(env, after, cmds, i + 1)
      case Abort(f) => (Failed(i, f, Caught(cmds[i].kind, f)), after)
      case Hang => (Hung(i), after)
  }

  /**
   * JobProcessingTask.run: with no commands, only stop(); otherwise the command
   * loop, the case close in its finally clause, and then stop(), which closes
   * the case again and exits. A task blocked for ever does neither.
   */
  function RunOf(env: Env, ctx: Context, commands: Option<seq<Command>>): (Outcome, Context) {
    if commands.None? || |commands.value| == 0 then
      (NoCommands, ctx.(events := ctx.events + [CurrentCaseClosed, Exited]))
    else
      var (outcome, after) := RunFrom(env, ctx, commands.value, 0);
      if outcome.Hung? then (outcome, after)
      else (outcome, after.(events := after.events + [CurrentCaseClosed] + [CurrentCaseClosed, Exited]))
  }

  // ---------------------------------------------------------------------------
  // The manager

  class CommandLineIngestManager {
    var caseForJob: Option<Case>
    var dataSource: Option<DataSource>
    /** The file system as the task sees it. */
    var disk: FileSystem
    /** What the task has done so far. */
    var events: seq<Event>

    constructor(fs: FileSystem)
      ensures Snapshot() == Context(None, None, fs, [])
    {
      caseForJob := None;
      dataSource := None;
      disk := fs;
      events := [];
    }

    function Snapshot(): Context
      reads this
    {
      Context(caseForJob, dataSource, disk, events)
    }

    /** openCase(String). */
    method OpenExistingCase(env: Env, folder: Option<string>) returns (step: Step)
      modifies this
      ensures (step, Snapshot()) == OpenExistingCaseStep(env, old(Snapshot()), folder)
    {
      if folder.None? {
        return Abort(NullPointerFault);
      }
      var metadataFilePath := FindAutFile(disk, folder.value);
      if metadataFilePath.Err? {
        return Abort(FaultOf(metadataFilePath.error));
      }
      if !env.backend.opensCase(metadataFilePath.value) {
        return Abort(CaseActionFault(CaseBackendRefused));
      }
      caseForJob := Some(Case(folder.value));
      events := events + [CaseOpened(metadataFilePath.value)];
      return Next;
    }

    /** The `caseForJob == null` guard before openCase(String). */
    method EnsureCase(env: Env, command: Command) returns (step: Step)
      modifies this
      ensures (step, Snapshot()) == EnsureCaseStep(env, old(Snapshot()), command)
    {
      if caseForJob.Some? {
        return Next;
      }
      step := OpenExistingCase(env, Input(command, CaseFolderPath));
    }

    /** openCase(command). */
    method OpenNewCase(env: Env, command: Command, index: nat) returns (step: Step)
      modifies this
      ensures (step, Snapshot()) == OpenNewCaseStep(env, old(Snapshot()), command, index)
    {
      var baseCaseName := Input(command, CaseName);
      var rootOutputDirectory := Input(command, CasesBaseDirPath);
      if rootOutputDirectory.None? {
        return Abort(NullPointerFault);
      }
      var base := rootOutputDirectory.value;
      var caseDirectoryPath := FindCaseDirectory(disk, base, baseCaseName, env.timeStamps);
      if caseDirectoryPath.Err? {
        return Abort(FaultOf(caseDirectoryPath.error));
      }
      if caseDirectoryPath.value.Some? {
        return Abort(CaseActionFault(CaseAlreadyExists));
      }
      var now := env.clock(index);
      var path := CreateCaseFolderPath(base, baseCaseName, now.stamp);
      if !env.backend.createsDirectory(path) {
        return Abort(CaseActionFault(CaseBackendRefused));
      }
      disk := CaseDirectoryMade(disk, base, CaseFolderName(baseCaseName, now.stamp), now.millis);
      events := events + [CaseDirectoryCreated(path)];
      if !env.backend.createsCase(path) {
        return Abort(CaseActionFault(CaseBackendRefused));
      }
      disk := MetadataWritten(disk, path, baseCaseName, now.millis);
      events := events + [CaseCreated(path)];
      caseForJob := Some(Case(path));
      return Next;
    }

    /** case CREATE_CASE. */
    method CreateCase(env: Env, command: Command, index: nat) returns (step: Step)
      modifies this
      ensures (step, Snapshot()) == CreateCaseStep(env, old(Snapshot()), command, index)
    {
      step := OpenNewCase(env, command, index);
      if step.Next? {
        events := events + [OutputSaved(CommandType.CreateCase, OutputDirPath(caseForJob.value))];
      }
    }

    /** case ADD_DATA_SOURCE. */
    method AddDataSource(env: Env, command: Command) returns (step: Step)
      modifies this
      ensures (step, Snapshot()) == AddDataSourceStep(env, old(Snapshot()), command)
    {
      step := EnsureCase(env, command);
      if !step.Next? {
        return;
      }
      var dataSourcePath := Input(command, DataSourcePath);
      if dataSourcePath.None? {
        return Abort(NullPointerFault);
      }
      var acquisition, ds := RunDataSourceProcessor(env.processors(dataSourcePath.value), NewDataSource("", dataSourcePath.value));
      dataSource := Some(ds);
      match acquisition
      case Stalled(_) => step := Hang;
      case AllFailed => step := Abort(ProcessorFault);
      case UtilityFailed => step := Abort(ProcessorFault);
      case _ =>
        events := events + [OutputSaved(CommandType.AddDataSource, OutputDirPath(caseForJob.value))];
        step := Next;
    }

    /** The `dataSource == null` branch of RUN_INGEST. */
    method DataSourceForIngest(env: Env, command: Command) returns (step: Step)
      requires caseForJob.Some?
      modifies this
      ensures (step, Snapshot()) == DataSourceForIngestStep(env, old(Snapshot()), command)
    {
      if dataSource.Some? {
        return Next;
      }
      var dataSourceObjId := ParseLong(Input(command, DataSourceId));
      if dataSourceObjId.None? {
        return Abort(NumberFormatFault);
      }
      var lookup := env.contentById(caseForJob.value, dataSourceObjId.value);
      match lookup
      case LookupError => step := Abort(ContentLookupFault);
      case NotFound => step := Abort(ContentNotFound);
      case Found(content) =>
        dataSource := Some(DataSource("", content.name, Some(NoErrors), [], [content]));
        step := Next;
    }

    /** case RUN_INGEST. */
    method RunIngest(env: Env, command: Command) returns (step: Step)
      modifies this
      ensures (step, Snapshot()) == RunIngestStep(env, old(Snapshot()), command)
    {
      step := EnsureCase(env, command);
      if !step.Next? {
        return;
      }
      step := DataSourceForIngest(env, command);
      if !step.Next? {
        return;
      }
      var outcome, actions := Analyze(env.settingsWarnings, env.beginIngestJob, dataSource.value);
      events := events + IngestEvents(actions);
      match outcome
      case Analyzed => step := Next;
      case AnalysisFailed(f) => step := Abort(AnalysisFault(f));
      case AnalysisHung => step := Hang;
    }

    /** case LIST_ALL_DATA_SOURCES. */
    method ListAllDataSources(env: Env, command: Command) returns (step: Step)
      modifies this
      ensures (step, Snapshot()) == ListAllDataSourcesStep(env, old(Snapshot()), command)
    {
      step := EnsureCase(env, command);
      if step.Next? {
        events := events + [OutputSaved(CommandType.ListAllDataSources, OutputDirPath(caseForJob.value))];
      }
    }

    /** stop(): close the current case and exit the application. */
    method Stop()
      modifies this
      ensures Snapshot() == old(Snapshot()).(events := old(events) + [CurrentCaseClosed, Exited])
    {
      events := events + [CurrentCaseClosed, Exited];
    }

    /** The switch on the command type inside the command loop. */
    method Dispatch(env: Env, command: Command, index: nat) returns (step: Step)
      modifies this
      ensures (step, Snapshot()) == DispatchStep(env, old(Snapshot()), command, index)
    {
      match command.kind {
        case CreateCase => step := CreateCase(env, command, index);
        case AddDataSource => step := AddDataSource(env, command);
        case RunIngest => step := RunIngest(env, command);
        case ListAllDataSources => step := ListAllDataSources(env, command);
      }
    }

    /** JobProcessingTask.run. */
    method Run(env: Env, commands: Option<seq<Command>>) returns (outcome: Outcome)
      modifies this
      ensures (outcome, Snapshot()) == RunOf(env, old(Snapshot()), commands)
    {
      if commands.None? || |commands.value| == 0 {
        Stop();
        return NoCommands;
      }
      var cmds := commands.value;
      outcome := Completed;
      var i := 0;
      while i < |cmds|
        invariant i <= |cmds|
        invariant outcome == Completed
        invariant RunFrom(env, old(Snapshot()), cmds, 0) == RunFrom(env, Snapshot(), cmds, i)
      {
        var command := cmds[i];
        events := events + [CommandStarted(i, command.kind)];
        var step := Dispatch(env, command, i);
        if step.Hang? {
          return Hung(i);
        }
        if step.Abort? {
          outcome := Failed(i, step.fault, Caught(command.kind, step.fault));
          break;
        }
        i := i + 1;
      }
      events := events + [CurrentCaseClosed];
      Stop();
    }
  }
}
