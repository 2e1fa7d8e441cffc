/**
 * Properties of the command-line batch pipeline: command order, the close and
 * exit protocol, how each arm treats the case and the data source, and what a
 * second CREATE_CASE for the same name runs into.
 */
module PipelineProperties {
  import opened Wrappers
  import opened Files
  import opened CaseFolders
  import opened DataSources
  import opened Ingest
  import opened CommandLineIngest

  // ---------------------------------------------------------------------------
  // Command order and the close/exit protocol

  /** The events no command arm adds (command starts, case closes, the exit), in order. */
  function Milestones(es: seq<Event>): seq<Event> {
    if es == [] then []
    else Milestones(es[..|es| - 1]) + (if ArmEvent(es[|es| - 1]) then [] else [es[|es| - 1]])
  }

  lemma {:induction false} MilestonesAppend(a: seq<Event>, b: seq<Event>)
    ensures Milestones(a + b) == Milestones(a) + Milestones(b)
    decreases |b|
  {
    if b != [] {
      var b' := b[..|b| - 1];
      assert (a + b)[..|a + b| - 1] == a + b';
      MilestonesAppend(a, b');
    } else {
      assert a + b == a;
    }
  }

  lemma {:induction false} MilestonesOfArmEvents(s: seq<Event>)
    requires forall k :: 0 <= k < |s| ==> ArmEvent(s[k])
    ensures Milestones(s) == []
    decreases |s|
  {
    if s != [] {
      MilestonesOfArmEvents(s[..|s| - 1]);
    }
  }

  lemma {:induction false} MilestonesOfMilestones(s: seq<Event>)
    requires forall k :: 0 <= k < |s| ==> !ArmEvent(s[k])
    ensures Milestones(s) == s
    decreases |s|
  {
    if s != [] {
      MilestonesOfMilestones(s[..|s| - 1]);
    }
  }

  /** An arm leaves the milestones as they were. */
  lemma MilestonesKept(a: seq<Event>, b: seq<Event>)
    requires PlainSuffix(a, b)
    ensures Milestones(b) == Milestones(a)
  {
    var tail := b[|a|..];
    assert b == a + tail;
    assert forall k :: 0 <= k < |tail| ==> tail[k] == b[|a| + k];
    MilestonesOfArmEvents(tail);
    MilestonesAppend(a, tail);
  }

  /** Running one command adds its start to the milestones, and nothing else. */
  lemma CommandMilestones(env: Env, ctx: Context, c: Command, i: nat)
    ensures var started := ctx.(events := ctx.events + [CommandStarted(i, c.kind)]);
      Milestones(DispatchStep(env, started, c, i).1.events) == Milestones(ctx.events) + [CommandStarted(i, c.kind)]
  {
    var started := ctx.(events := ctx.events + [CommandStarted(i, c.kind)]);
    MilestonesAppend(ctx.events, [CommandStarted(i, c.kind)]);
    MilestonesOfMilestones([CommandStarted(i, c.kind)]);
    MilestonesKept(started.events, DispatchStep(env, started, c, i).1.events);
  }

  /** The command starts of commands lo, lo+1, ..., hi-1. */
  function Starts(cmds: seq<Command>, lo: nat, hi: nat): (r: seq<Event>)
    requires hi <= |cmds|
    ensures |r| == if lo <= hi then hi - lo else 0
    ensures forall k :: 0 <= k < |r| ==> r[k] == CommandStarted(lo + k, cmds[lo + k].kind)
    decreases hi - lo
  {
    if lo >= hi then [] else [CommandStarted(lo, cmds[lo].kind)] + Starts(cmds, lo + 1, hi)
  }

  /** One past the last command a loop outcome started. */
  function StartedUpTo(o: Outcome, count: nat): nat {
    match o
    case Failed(i, _, _) => i + 1
    case Hung(i) => i + 1
    case _ => count
  }

  /**
   * From command `i` on, the loop starts commands i, i+1, ... in list order and
   * nothing after the command that failed or blocked; the loop itself closes
   * nothing and does not exit.
   */
  lemma {:induction false} RunFromStartsInOrder(env: Env, ctx: Context, cmds: seq<Command>, i: nat)
    requires i <= |cmds|
    ensures var (o, after) := RunFrom(env, ctx, cmds, i);
      && (o.Completed? || ((o.Failed? || o.Hung?) && i <= o.index < |cmds|))
      && Milestones(after.events) == Milestones(ctx.events) + Starts(cmds, i, StartedUpTo(o, |cmds|))
    decreases |cmds| - i
  {
    if i < |cmds| {
      var started := ctx.(events := ctx.events + [CommandStarted(i, cmds[i].kind)]);
      var (step, after) := DispatchStep(env, started, cmds[i], i);
      CommandMilestones(env, ctx, cmds[i], i);
      if step.Next? {
        RunFromStartsInOrder(env, after, cmds, i + 1);
      }
    }
  }

  /**
   * JobProcessingTask.run starts the commands in list order and runs none after
   * the first that fails. Unless the task blocks for ever, it then closes the
   * case in the loop's finally clause, and stop() closes it again and exits, so
   * exiting happens exactly once and last; with a null or empty command list
   * only stop() runs.
   */
  lemma RunClosesAndExitsOnce(env: Env, ctx: Context, commands: Option<seq<Command>>)
    requires Milestones(ctx.events) == []
    ensures var (o, after) := RunOf(env, ctx, commands);
      && (o == NoCommands <==> commands.None? || |commands.value| == 0)
      && (o == NoCommands ==> Milestones(after.events) == [CurrentCaseClosed, Exited])
      && (o != NoCommands ==>
            var cmds := commands.value;
            && (o.Completed? || ((o.Failed? || o.Hung?) && o.index < |cmds|))
            && Milestones(after.events) ==
                 Starts(cmds, 0, StartedUpTo(o, |cmds|)) +
                 (if o.Hung? then [] else [CurrentCaseClosed, CurrentCaseClosed, Exited]))
  {
    if commands.None? || |commands.value| == 0 {
      MilestonesAppend(ctx.events, [CurrentCaseClosed, Exited]);
      MilestonesOfMilestones([CurrentCaseClosed, Exited]);
    } else {
      var (o, after) := RunFrom(env, ctx, commands.value, 0);
      LoopThenCleanup(env, ctx, commands.value, o, after);
    }
  }

  /** The milestones of a non-empty run: the loop's command starts, then the two closes and the exit. */
  lemma LoopThenCleanup(env: Env, ctx: Context, cmds: seq<Command>, o: Outcome, after: Context)
    requires Milestones(ctx.events) == [] && |cmds| > 0
    requires (o, after) == RunFrom(env, ctx, cmds, 0)
    ensures o.Completed? || ((o.Failed? || o.Hung?) && o.index < |cmds|)
    ensures !o.Hung? ==>
      Milestones(after.events + [CurrentCaseClosed] + [CurrentCaseClosed, Exited]) ==
        Starts(cmds, 0, StartedUpTo(o, |cmds|)) + [CurrentCaseClosed, CurrentCaseClosed, Exited]
    ensures o.Hung? ==> Milestones(after.events) == Starts(cmds, 0, StartedUpTo(o, |cmds|))
  {
    RunFromStartsInOrder(env, ctx, cmds, 0);
    var starts := Starts(cmds, 0, StartedUpTo(o, |cmds|));
    assert Milestones(ctx.events) + starts == starts;
    if !o.Hung? {
      CleanupMilestones(after.events, starts);
    }
  }

  /** The two closes and the exit after the loop add exactly those milestones. */
  lemma CleanupMilestones(events: seq<Event>, starts: seq<Event>)
    requires Milestones(events) == starts
    ensures Milestones(events + [CurrentCaseClosed] + [CurrentCaseClosed, Exited]) ==
      starts + [CurrentCaseClosed, CurrentCaseClosed, Exited]
  {
    var tail: seq<Event> := [CurrentCaseClosed, CurrentCaseClosed, Exited];
    assert events + [CurrentCaseClosed] + [CurrentCaseClosed, Exited] == events + tail;
    MilestonesAppend(events, tail);
    MilestonesOfMilestones(tail);
    assert Milestones(events + tail) == starts + tail;
  }

  // ---------------------------------------------------------------------------
  // Faults

  /** The faults no arm catches, which reach the Throwable firewall around the command loop. */
  predicate FirewallFault(f: Fault) {
    f.AnalysisFault? || f == NullPointerFault || f == NumberFormatFault
  }

  /**
   * A failing command fails with a fault its arm can raise, and its arm catches
   * the fault unless it is an AnalysisStartupException, a NullPointerException
   * or a NumberFormatException; analysis failures arise only in RUN_INGEST.
   */
  lemma {:induction false} FailuresReachFirewall(env: Env, ctx: Context, cmds: seq<Command>, i: nat)
    requires i <= |cmds|
    ensures var o := RunFrom(env, ctx, cmds, i).0;
      o.Failed? ==>
        && i <= o.index < |cmds|
        && Raises(cmds[o.index].kind, o.fault)
        && (o.caughtByArm <==> !FirewallFault(o.fault))
        && (o.fault.AnalysisFault? ==> cmds[o.index].kind == RunIngest)
    decreases |cmds| - i
  {
    if i < |cmds| {
      var started := ctx.(events := ctx.events + [CommandStarted(i, cmds[i].kind)]);
      var (step, after) := DispatchStep(env, started, cmds[i], i);
      if step.Next? {
        FailuresReachFirewall(env, after, cmds, i + 1);
      }
    }
  }

  // ---------------------------------------------------------------------------
  // A second CREATE_CASE for the same name

  /** The file system once CREATE_CASE has made the case folder and written its metadata file. */
  function WithNewCase(fs: FileSystem, base: string, name: Option<string>, stamp: string, millis: nat): FileSystem {
    var folder := CaseFolderName(name, stamp);
    MetadataWritten(CaseDirectoryMade(fs, base, folder, millis), JoinPath(base, folder), name, millis)
  }

  lemma JoinPathInjective(base: string, a: string, b: string)
    requires JoinPath(base, a) == JoinPath(base, b)
    ensures a == b
  {
    var n := |base| + |Separator|;
    assert a == JoinPath(base, a)[n..];
    assert b == JoinPath(base, b)[n..];
  }

  /** A filter pass that succeeds met no folder it could not list. */
  lemma {:induction false} FilteredFromOkAll(fs: FileSystem, base: string, caseName: Option<string>, ts: TimeStampFormat,
                                             es: seq<Entry>, i: nat, acc: seq<Entry>)
    requires i <= |es| && FilteredFrom(fs, base, caseName, ts, es, i, acc).Ok?
    ensures forall j :: i <= j < |es| ==> Accepts(fs, base, caseName, ts, es[j]).Ok?
    decreases |es| - i
  {
    if i < |es| {
      var keep := Accepts(fs, base, caseName, ts, es[i]).value;
      FilteredFromOkAll(fs, base, caseName, ts, es, i + 1, if keep then acc + [es[i]] else acc);
    }
  }

  /** A filter pass over folders it can all list succeeds. */
  lemma {:induction false} FilteredFromOkIf(fs: FileSystem, base: string, caseName: Option<string>, ts: TimeStampFormat,
                                            es: seq<Entry>, i: nat, acc: seq<Entry>)
    requires i <= |es|
    requires forall j :: i <= j < |es| ==> Accepts(fs, base, caseName, ts, es[j]).Ok?
    ensures FilteredFrom(fs, base, caseName, ts, es, i, acc).Ok?
    decreases |es| - i
  {
    if i < |es| {
      var keep := Accepts(fs, base, caseName, ts, es[i]).value;
      FilteredFromOkIf(fs, base, caseName, ts, es, i + 1, if keep then acc + [es[i]] else acc);
    }
  }

  /** What the new case leaves in the base folder and in the case folder. */
  lemma NewCaseListings(fs: FileSystem, base: string, name: string, stamp: string, millis: nat)
    ensures var fs' := WithNewCase(fs, base, Some(name), stamp, millis);
            var folder := CaseFolderName(Some(name), stamp);
      && ListingOf(fs', base) == Listed(EntriesOf(ListingOf(fs, base)) + [Entry(folder, true, false, millis)])
      && ListingOf(fs', JoinPath(base, folder)).Listed?
      && IsCaseMetadataFile(ListingOf(fs', JoinPath(base, folder)).entries[|ListingOf(fs', JoinPath(base, folder)).entries| - 1])
      && forall p :: p != base && p != JoinPath(base, folder) ==> ListingOf(fs', p) == ListingOf(fs, p)
  {
    var folder := CaseFolderName(Some(name), stamp);
    var path := JoinPath(base, folder);
    assert |path| > |base|;
    MetadataNameOf(name);
  }

  /**
   * Once CREATE_CASE has created a case for a non-empty name, findCaseDirectory
   * finds a case folder for that name under the same base folder, provided the
   * time stamp is one TimeStampUtils recognises at the expected length.
   */
  lemma CreatedCaseIsFound(fs: FileSystem, base: string, name: string, stamp: string, millis: nat, ts: TimeStampFormat)
    requires |name| > 0 && ts.length == |stamp| + 1 && ts.endsWithTimeStamp(CaseFolderName(Some(name), stamp))
    requires CaseDirectory(fs, base, Some(name), ts) == Ok(None)
    ensures var found := CaseDirectory(WithNewCase(fs, base, Some(name), stamp, millis), base, Some(name), ts);
      found.Ok? && found.value.Some?
  {
    var fs' := WithNewCase(fs, base, Some(name), stamp, millis);
    var folder := CaseFolderName(Some(name), stamp);
    var path := JoinPath(base, folder);
    var e := Entry(folder, true, false, millis);
    var old_es := EntriesOf(ListingOf(fs, base));
    var es := old_es + [e];
    NewCaseListings(fs, base, name, stamp, millis);
    assert ListingOf(fs', base) == Listed(es);
    if ListingOf(fs, base).Listed? {
      FilteredFromOkAll(fs, base, Some(name), ts, old_es, 0, []);
    }
    forall j | 0 <= j < |old_es|
      ensures Accepts(fs', base, Some(name), ts, es[j]).Ok?
    {
      assert es[j] == old_es[j];
      if JoinPath(base, es[j].name) != path {
        assert Accepts(fs', base, Some(name), ts, es[j]) == Accepts(fs, base, Some(name), ts, old_es[j]);
      }
    }
    assert Accepts(fs', base, Some(name), ts, es[|old_es|]) == Ok(true) by {
      var l := ListingOf(fs', path).entries;
      assert IsCaseMetadataFile(l[|l| - 1]);
      CreatedFolderIsAccepted(fs', base, name, stamp, ts, e);
    }
    FilteredFromOkIf(fs', base, Some(name), ts, es, 0, []);
    FilteredFromKeeps(fs', base, Some(name), ts, es, 0, [], |old_es|);
    var cands := FilteredFrom(fs', base, Some(name), ts, es, 0, []).value;
    assert CaseFolderCandidates(fs', base, Some(name), ts) == Ok(Some(cands));
    var k :| 0 <= k < |cands| && cands[k] == e;
    assert TimesOf(cands)[k] >= 0;
    MostRecentIndexIsLastMaximum(TimesOf(cands));
  }

  /**
   * Two CREATE_CASE commands for the same non-empty name and base folder: the
   * first creates the case, the second finds its folder and stops the run with
   * the "already exists" CaseActionException, which its arm catches.
   */
  lemma DuplicateCaseNameStopsRun(env: Env, fs: FileSystem, base: string, name: string)
    requires |name| > 0
    requires env.timeStamps.length == |env.clock(0).stamp| + 1
    requires env.timeStamps.endsWithTimeStamp(CaseFolderName(Some(name), env.clock(0).stamp))
    requires CaseDirectory(fs, base, Some(name), env.timeStamps) == Ok(None)
    requires env.backend.createsDirectory(CreateCaseFolderPath(base, Some(name), env.clock(0).stamp))
    requires env.backend.createsCase(CreateCaseFolderPath(base, Some(name), env.clock(0).stamp))
    ensures var create := Command(CreateCase, map[CaseName := name, CasesBaseDirPath := base]);
      RunOf(env, Context(None, None, fs, []), Some([create, create])).0 == Failed(1, CaseActionFault(CaseAlreadyExists), true)
  {
    var create := Command(CreateCase, map[CaseName := name, CasesBaseDirPath := base]);
    var cmds := [create, create];
    var ctx0 := Context(None, None, fs, []);
    var now := env.clock(0);
    assert Input(create, CaseName) == Some(name) && Input(create, CasesBaseDirPath) == Some(base);
    var started0 := ctx0.(events := ctx0.events + [CommandStarted(0, CreateCase)]);
    var (step0, after0) := DispatchStep(env, started0, create, 0);
    assert step0 == Next && after0.disk == WithNewCase(fs, base, Some(name), now.stamp, now.millis);
    CreatedCaseIsFound(fs, base, name, now.stamp, now.millis, env.timeStamps);
    var started1 := after0.(events := after0.events + [CommandStarted(1, CreateCase)]);
    assert CaseFolderExists(env, started1, create);
    assert RunFrom(env, ctx0, cmds, 0) == RunFrom(env, after0, cmds, 1);
  }

  /**
   * CREATE_CASE refuses a case name exactly when findCaseDirectory as written,
   * reading the candidates' times relative to any working directory, finds a
   * folder; the search the model runs differs from it only in which folder it
   * returns, never in whether it returns one.
   */
  lemma CreateCaseRefusesAsWritten(env: Env, ctx: Context, c: Command, index: nat, cwd: string)
    ensures OpenNewCaseStep(env, ctx, c, index).0 == Abort(CaseActionFault(CaseAlreadyExists)) <==>
      && Input(c, CasesBaseDirPath).Some?
      && var found := CaseDirectoryAsWritten(ctx.disk, cwd, Input(c, CasesBaseDirPath).value, Input(c, CaseName), env.timeStamps);
         found.Ok? && found.value.Some?
    ensures CreateCaseStep(env, ctx, c, index).0 == Abort(CaseActionFault(CaseAlreadyExists)) <==>
      && Input(c, CasesBaseDirPath).Some?
      && var found := CaseDirectoryAsWritten(ctx.disk, cwd, Input(c, CasesBaseDirPath).value, Input(c, CaseName), env.timeStamps);
         found.Ok? && found.value.Some?
  {
    if Input(c, CasesBaseDirPath).Some? {
      AsWrittenAgreesOnNullness(ctx.disk, cwd, Input(c, CasesBaseDirPath).value, Input(c, CaseName), env.timeStamps);
    }
  }
}
