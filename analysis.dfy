/**
 * Ingest analysis of a data source (analyze) and the ingest job event
 * listener that ends its wait.
 */
module Ingest {
  import opened Wrappers
  import opened DataSources

  /** AutopsyEvent.SourceType. */
  datatype SourceType = Local | Remote

  /** IngestManager.IngestJobEvent, by property name. */
  datatype IngestJobEvent =
    | JobStarted | JobCompleted | JobCancelled
    | DataSourceAnalysisStarted | DataSourceAnalysisCompleted | DataSourceAnalysisCancelled

  /**
   * An ingest job event delivered to the listener while analyze waits. The
   * listener sees events of every ingest job, not only of the job it waits for.
   */
  datatype JobEventNotice = JobEventNotice(source: SourceType, kind: IngestJobEvent)

  /** IngestJob.CancellationReason; the reasons other than the first two are told apart by display name. */
  datatype CancellationReason = NotCancelled | UserCancelled | OtherReason(displayName: string)

  /** IngestJob.ProgressSnapshot.DataSourceProcessingSnapshot. */
  datatype DataSourceSnapshot = DataSourceSnapshot(
    cancelled: bool,
    reason: CancellationReason,
    cancelledModules: seq<string>)

  /**
   * A started ingest job: the events the listener receives after the job has
   * begun, and the data source snapshots of its progress snapshot.
   */
  datatype IngestJob = IngestJob(notices: seq<JobEventNotice>, snapshots: seq<DataSourceSnapshot>)

  /** IngestJobStartResult: the job (null when it did not start) and the module start-up errors. */
  datatype JobStartResult = JobStartResult(job: Option<IngestJob>, moduleErrors: seq<string>)

  /** The AnalysisStartupException cases. */
  datatype AnalysisFailure =
    | SettingsErrors
    | ModuleStartupErrors
    | JobStartError
    | CancelledBy(reasonName: string)

  datatype AnalysisOutcome = Analyzed | AnalysisFailed(failure: AnalysisFailure) | AnalysisHung

  /** What analyze does to the ingest manager, in order. */
  datatype IngestAction = ListenerAdded | JobBegun | ListenerRemoved

  /** IngestJobEventListener.propertyChange: notify the waiting task on a local job-completed or job-cancelled event. */
  predicate Notifies(e: JobEventNotice) {
    e.source == Local && (e.kind == JobCompleted || e.kind == JobCancelled)
  }

  /** The index of the first notice from `i` on that wakes the waiting task. */
  function FirstNotifyingFrom(notices: seq<JobEventNotice>, i: nat): (r: Option<nat>)
    requires i <= |notices|
    ensures r.Some? ==> i <= r.value < |notices| && Notifies(notices[r.value])
    decreases |notices| - i
  {
    if i == |notices| then None
    else if Notifies(notices[i]) then Some(i)
    else FirstNotifyingFrom(notices, i + 1)
  }

  /** The wait ends at the first waking notice, and never ends when no notice wakes the task. */
  lemma {:induction false} FirstNotifyingIsFirst(notices: seq<JobEventNotice>, i: nat)
    requires i <= |notices|
    ensures FirstNotifyingFrom(notices, i).Some? ==>
      forall j :: i <= j < FirstNotifyingFrom(notices, i).value ==> !Notifies(notices[j])
    ensures FirstNotifyingFrom(notices, i).None? <==> forall j :: i <= j < |notices| ==> !Notifies(notices[j])
    decreases |notices| - i
  {
    if i < |notices| && !Notifies(notices[i]) {
      FirstNotifyingIsFirst(notices, i + 1);
    }
  }

  /** A cancelled snapshot whose reason is neither "not cancelled" nor "cancelled by the user". */
  predicate FatalCancellation(s: DataSourceSnapshot) {
    s.cancelled && s.reason != NotCancelled && s.reason != UserCancelled
  }

  /** The index of the first snapshot from `i` on that makes analyze throw. */
  function FirstFatalFrom(snapshots: seq<DataSourceSnapshot>, i: nat): (r: Option<nat>)
    requires i <= |snapshots|
    ensures r.Some? ==> i <= r.value < |snapshots| && FatalCancellation(snapshots[r.value])
    decreases |snapshots| - i
  {
    if i == |snapshots| then None
    else if FatalCancellation(snapshots[i]) then Some(i)
    else FirstFatalFrom(snapshots, i + 1)
  }

  lemma {:induction false} FirstFatalIsFirst(snapshots: seq<DataSourceSnapshot>, i: nat)
    requires i <= |snapshots|
    ensures FirstFatalFrom(snapshots, i).Some? ==>
      forall j :: i <= j < FirstFatalFrom(snapshots, i).value ==> !FatalCancellation(snapshots[j])
    ensures FirstFatalFrom(snapshots, i).None? <==> forall j :: i <= j < |snapshots| ==> !FatalCancellation(snapshots[j])
    decreases |snapshots| - i
  {
    if i < |snapshots| && !FatalCancellation(snapshots[i]) {
      FirstFatalIsFirst(snapshots, i + 1);
    }
  }

  /** The outcome of analyzing a job that started and whose wait ended. */
  function JobOutcome(job: IngestJob): AnalysisOutcome {
    match FirstFatalFrom(job.snapshots, 0)
    case Some(k) => AnalysisFailed(CancelledBy(job.snapshots[k].reason.displayName))
    case None => Analyzed
  }

  /**
   * What analyze does, given the settings warnings and the ingest manager's
   * answer to beginIngestJob: how it ends, and what it does to the ingest
   * manager on the way.
   */
  function AnalysisOf(settingsWarnings: seq<string>, beginIngestJob: seq<Content> -> JobStartResult,
                      content: seq<Content>): (AnalysisOutcome, seq<IngestAction>)
  {
    if |settingsWarnings| > 0 then (AnalysisFailed(SettingsErrors), [ListenerAdded, ListenerRemoved])
    else
      var start := beginIngestJob(content);
      match start.job
      case None =>
        var failure := if |start.moduleErrors| > 0 then ModuleStartupErrors else JobStartError;
        (AnalysisFailed(failure), [ListenerAdded, JobBegun, ListenerRemoved])
      case Some(job) =>
        if FirstNotifyingFrom(job.notices, 0).None? then (AnalysisHung, [ListenerAdded, JobBegun])
        else (JobOutcome(job), [ListenerAdded, JobBegun, ListenerRemoved])
  }

  /** ingestLock.wait(): deliver the job's events to the listener until one wakes the task. */
  method AwaitNotification(notices: seq<JobEventNotice>) returns (woken: bool)
    ensures woken <==> FirstNotifyingFrom(notices, 0).Some?
  {
    var i := 0;
    while i < |notices|
      invariant i <= |notices|
      invariant FirstNotifyingFrom(notices, 0) == FirstNotifyingFrom(notices, i)
    {
      if Notifies(notices[i]) {
        return true;
      }
      i := i + 1;
    }
    return false;
  }

  /** analyze: start an ingest job on the data source's content, wait for it, and classify its snapshots. */
  method Analyze(settingsWarnings: seq<string>, beginIngestJob: seq<Content> -> JobStartResult, dataSource: DataSource)
    returns (outcome: AnalysisOutcome, actions: seq<IngestAction>)
    ensures (outcome, actions) == AnalysisOf(settingsWarnings, beginIngestJob, dataSource.content)
  {
    actions := [ListenerAdded];
    if |settingsWarnings| == 0 {
      var startResult := beginIngestJob(dataSource.content);
      actions := actions + [JobBegun];
      if startResult.job.Some? {
        var job := startResult.job.value;
        var woken := AwaitNotification(job.notices);
        if !woken {
          assert actions == [ListenerAdded, JobBegun];
          return AnalysisHung, actions;
        }
        outcome := Analyzed;
        for i := 0 to |job.snapshots|
          invariant FirstFatalFrom(job.snapshots, 0) == FirstFatalFrom(job.snapshots, i)
          invariant outcome == Analyzed
        {
          var snapshot := job.snapshots[i];
          if snapshot.cancelled {
            var reason := snapshot.reason;
            if reason != NotCancelled && reason != UserCancelled {
              outcome := AnalysisFailed(CancelledBy(reason.displayName));
              break;
            }
          }
        }
      } else if |startResult.moduleErrors| > 0 {
        outcome := AnalysisFailed(ModuleStartupErrors);
      } else {
        outcome := AnalysisFailed(JobStartError);
      }
    } else {
      outcome := AnalysisFailed(SettingsErrors);
    }
    actions := actions + [ListenerRemoved];
    // the outcome and the actions are matched separately against the specification
    assert outcome == AnalysisOf(settingsWarnings, beginIngestJob, dataSource.content).0;
    assert actions == AnalysisOf(settingsWarnings, beginIngestJob, dataSource.content).1;
  }

  /**
   * The classification analyze makes: settings warnings fail before any job is
   * begun; a job that did not start fails, with or without module errors; once
   * woken, analysis fails exactly when some snapshot was cancelled for a reason
   * other than "not cancelled" or "cancelled by the user" (cancelled modules do
   * not count), naming the first such reason; and the listener added first is
   * removed last on every path except an endless wait.
   */
  lemma AnalysisClassification(settingsWarnings: seq<string>, beginIngestJob: seq<Content> -> JobStartResult,
                               content: seq<Content>)
    ensures var (outcome, actions) := AnalysisOf(settingsWarnings, beginIngestJob, content);
      && |actions| >= 2 && actions[0] == ListenerAdded
      && (actions[|actions| - 1] == ListenerRemoved <==> outcome != AnalysisHung)
      && (JobBegun in actions <==> |settingsWarnings| == 0)
      && (|settingsWarnings| > 0 ==> outcome == AnalysisFailed(SettingsErrors))
      && (|settingsWarnings| == 0 && beginIngestJob(content).job.None? ==>
            outcome.AnalysisFailed? && outcome.failure in {ModuleStartupErrors, JobStartError})
      && (outcome == AnalysisHung <==>
            && |settingsWarnings| == 0
            && beginIngestJob(content).job.Some?
            && forall j :: 0 <= j < |beginIngestJob(content).job.value.notices| ==>
                 !Notifies(beginIngestJob(content).job.value.notices[j]))
      && (outcome == Analyzed <==>
            && |settingsWarnings| == 0
            && beginIngestJob(content).job.Some?
            && outcome != AnalysisHung
            && forall j :: 0 <= j < |beginIngestJob(content).job.value.snapshots| ==>
                 !FatalCancellation(beginIngestJob(content).job.value.snapshots[j]))
  {
    var start := beginIngestJob(content);
    if |settingsWarnings| == 0 && start.job.Some? {
      FirstNotifyingIsFirst(start.job.value.notices, 0);
      FirstFatalIsFirst(start.job.value.snapshots, 0);
    }
  }

  /** A fatal cancellation fails the analysis with the reason of the first cancelled snapshot that is fatal. */
  lemma FatalCancellationNamesFirstReason(job: IngestJob, k: nat)
    requires k < |job.snapshots| && FatalCancellation(job.snapshots[k])
    requires forall j :: 0 <= j < k ==> !FatalCancellation(job.snapshots[j])
    ensures JobOutcome(job) == AnalysisFailed(CancelledBy(job.snapshots[k].reason.displayName))
  {
    FirstFatalIsFirst(job.snapshots, 0);
  }
}
