/**
 * Data-source acquisition: the ranked fallback over data source processors
 * (runDataSourceProcessor). Each processor is one attempt whose completion
 * callback is taken as the value the wait on the ingest lock returns.
 */
module DataSources {
  import opened Wrappers

  /** DataSourceProcessorCallback.DataSourceProcessorResult. */
  datatype ProcessorResult = NoErrors | NonCriticalErrors | CriticalErrors

  /** A content object of the case database. */
  datatype Content = Content(objectId: int, name: string)

  /**
   * AutoIngestDataSource: device id, path, and the processor output the last
   * callback stored (`resultCode` is null until a callback has run).
   */
  datatype DataSource = DataSource(
    deviceId: string,
    path: string,
    resultCode: Option<ProcessorResult>,
    errors: seq<string>,
    content: seq<Content>)

  /** new AutoIngestDataSource(deviceId, path). */
  function NewDataSource(deviceId: string, path: string): DataSource {
    DataSource(deviceId, path, None, [], [])
  }

  /** What one processor does when invoked: call back with its output, or never call back. */
  datatype Attempt =
    | Completes(result: ProcessorResult, errorMessages: seq<string>, produced: seq<Content>)
    | NeverCompletes

  /**
   * DataSourceProcessorUtility.getOrderedListOfDataSourceProcessors: it throws,
   * or gives the processors in decreasing order of confidence.
   */
  datatype ProcessorLookup = LookupFailed | Ranked(attempts: seq<Attempt>)

  /** How runDataSourceProcessor ends. */
  datatype Acquisition =
    | Accepted(rank: nat)   // returned after the processor at `rank` succeeded
    | NoProcessor           // returned at once: the processor list was empty
    | AllFailed             // threw: every processor failed
    | UtilityFailed         // threw: the processor list could not be built
    | Stalled(rank: nat)    // waits for ever on the processor at `rank`

  /** AutoIngestDataSource.setDataSourceProcessorOutput, done by the completion callback. */
  function Record(ds: DataSource, a: Attempt): DataSource
    requires a.Completes?
  {
    ds.(resultCode := Some(a.result), errors := a.errorMessages, content := a.produced)
  }

  /** The processor output is accepted unless it is a critical error or has no content. */
  predicate Succeeded(ds: DataSource) {
    ds.resultCode != Some(CriticalErrors) && |ds.content| > 0
  }

  /** The fallback loop from rank `i` on. */
  function AcquireFrom(attempts: seq<Attempt>, i: nat, ds: DataSource): (r: (Acquisition, DataSource))
    requires i <= |attempts|
    ensures r.0.Accepted? || r.0.Stalled? ==> i <= r.0.rank < |attempts|
    decreases |attempts| - i
  {
    if i == |attempts| then (AllFailed, ds)
    else match attempts[i]
      case NeverCompletes => (Stalled(i), ds)
      case Completes(_, _, _) =>
        var ds' := Record(ds, attempts[i]);
        if Succeeded(ds') then (Accepted(i), ds') else AcquireFrom(attempts, i + 1, ds')
  }

  /** What runDataSourceProcessor does to a data source, and how it ends. */
  function Acquire(lookup: ProcessorLookup, ds: DataSource): (r: (Acquisition, DataSource))
    ensures r.0.Accepted? || r.0.Stalled? ==> lookup.Ranked? && r.0.rank < |lookup.attempts|
  {
    match lookup
    case LookupFailed => (UtilityFailed, ds)
    case Ranked(attempts) =>
      if |attempts| == 0 then (NoProcessor, ds) else AcquireFrom(attempts, 0, ds)
  }

  /** How many processors were invoked before the loop ended. */
  function InvokedCount(acq: Acquisition, lookup: ProcessorLookup): nat {
    match acq
    case Accepted(k) => k + 1
    case Stalled(k) => k + 1
    case AllFailed => if lookup.Ranked? then |lookup.attempts| else 0
    case _ => 0
  }

  /** runDataSourceProcessor: try each processor in rank order until one succeeds. */
  method RunDataSourceProcessor(lookup: ProcessorLookup, dataSource: DataSource)
    returns (outcome: Acquisition, ds: DataSource)
    ensures (outcome, ds) == Acquire(lookup, dataSource)
  {
    ds := dataSource;
    if lookup.LookupFailed? {
      return UtilityFailed, ds;
    }
    var processors := lookup.attempts;
    if |processors| == 0 {
      return NoProcessor, ds;
    }
    for i := 0 to |processors|
      invariant AcquireFrom(processors, 0, dataSource) == AcquireFrom(processors, i, ds)
    {
      var callback := processors[i];
      if callback.NeverCompletes? {
        return Stalled(i), ds;
      }
      ds := ds.(resultCode := Some(callback.result), errors := callback.errorMessages, content := callback.produced);
      if ds.resultCode == Some(CriticalErrors) || |ds.content| == 0 {
        continue;
      }
      return Accepted(i), ds;
    }
    return AllFailed, ds;
  }

  /** An attempt that called back with output the loop rejects. */
  predicate FailedAttempt(a: Attempt) {
    a.Completes? && (a.result == CriticalErrors || |a.produced| == 0)
  }

  /** An attempt that called back with output the loop accepts. */
  predicate SucceededAttempt(a: Attempt) {
    a.Completes? && a.result != CriticalErrors && |a.produced| > 0
  }

  /**
   * From rank `i` on: the loop stops at the first processor that succeeds or
   * never calls back, keeping that processor's output, and throws only after
   * every processor has failed.
   */
  lemma {:induction false} AcquireFromStopsAtFirst(attempts: seq<Attempt>, i: nat, ds: DataSource)
    requires i <= |attempts|
    ensures var (acq, ds') := AcquireFrom(attempts, i, ds);
      && (acq.Accepted? ==>
            && i <= acq.rank < |attempts|
            && SucceededAttempt(attempts[acq.rank])
            && ds' == Record(ds, attempts[acq.rank])
            && forall j :: i <= j < acq.rank ==> FailedAttempt(attempts[j]))
      && (acq.Stalled? ==>
            && i <= acq.rank < |attempts|
            && attempts[acq.rank].NeverCompletes?
            && forall j :: i <= j < acq.rank ==> FailedAttempt(attempts[j]))
      && (acq == AllFailed <==> forall j :: i <= j < |attempts| ==> FailedAttempt(attempts[j]))
      && (acq.Accepted? || acq.Stalled? || acq == AllFailed)
    decreases |attempts| - i
  {
    if i < |attempts| && attempts[i].Completes? && !Succeeded(Record(ds, attempts[i])) {
      AcquireFromStopsAtFirst(attempts, i + 1, Record(ds, attempts[i]));
    }
  }

  /**
   * runDataSourceProcessor tries the processors in rank order and invokes none
   * after the first that succeeds; it throws when all fail or the list cannot
   * be built, and returns normally, invoking nothing, on an empty list.
   */
  lemma AcquireIsRankedFallback(lookup: ProcessorLookup, ds: DataSource)
    ensures var (acq, ds') := Acquire(lookup, ds);
      && (lookup.Ranked? && |lookup.attempts| == 0 <==> acq == NoProcessor)
      && (acq == NoProcessor ==> ds' == ds && InvokedCount(acq, lookup) == 0)
      && (acq == UtilityFailed <==> lookup.LookupFailed?)
      && (acq.Accepted? ==>
            && lookup.Ranked?
            && acq.rank < |lookup.attempts|
            && SucceededAttempt(lookup.attempts[acq.rank])
            && ds' == Record(ds, lookup.attempts[acq.rank])
            && InvokedCount(acq, lookup) == acq.rank + 1
            && forall j :: 0 <= j < acq.rank ==> FailedAttempt(lookup.attempts[j]))
      && (acq == AllFailed <==>
            && lookup.Ranked?
            && |lookup.attempts| > 0
            && forall j :: 0 <= j < |lookup.attempts| ==> FailedAttempt(lookup.attempts[j]))
  {
    if lookup.Ranked? && |lookup.attempts| > 0 {
      AcquireFromStopsAtFirst(lookup.attempts, 0, ds);
    }
  }

  /**
   * Processors ranked after the one the loop stops at are never consulted:
   * replacing them, or adding more, leaves the outcome and the data source
   * unchanged.
   */
  lemma {:induction false} AcquireFromIgnoresLaterRanks(attempts: seq<Attempt>, other: seq<Attempt>, i: nat, ds: DataSource)
    requires i <= |attempts| && i <= |other|
    requires AcquireFrom(attempts, i, ds).0.Accepted? || AcquireFrom(attempts, i, ds).0.Stalled?
    requires AcquireFrom(attempts, i, ds).0.rank < |other|
    requires forall j :: i <= j <= AcquireFrom(attempts, i, ds).0.rank ==> other[j] == attempts[j]
    ensures AcquireFrom(other, i, ds) == AcquireFrom(attempts, i, ds)
    decreases |attempts| - i
  {
    AcquireFromStopsAtFirst(attempts, i, ds);
    assert other[i] == attempts[i];
    if attempts[i].Completes? && !Succeeded(Record(ds, attempts[i])) {
      AcquireFromStopsAtFirst(attempts, i + 1, Record(ds, attempts[i]));
      AcquireFromIgnoresLaterRanks(attempts, other, i + 1, Record(ds, attempts[i]));
    }
  }

  /**
   * runDataSourceProcessor invokes no processor ranked after the one it
   * accepts or waits on for ever: any lookup that agrees up to that rank gives
   * the same result.
   */
  lemma NoLaterProcessorInvoked(attempts: seq<Attempt>, other: seq<Attempt>, ds: DataSource)
    requires Acquire(Ranked(attempts), ds).0.Accepted? || Acquire(Ranked(attempts), ds).0.Stalled?
    requires Acquire(Ranked(attempts), ds).0.rank < |other|
    requires other[..Acquire(Ranked(attempts), ds).0.rank + 1] == attempts[..Acquire(Ranked(attempts), ds).0.rank + 1]
    ensures Acquire(Ranked(other), ds) == Acquire(Ranked(attempts), ds)
  {
    var k := Acquire(Ranked(attempts), ds).0.rank;
    AcquireFromStopsAtFirst(attempts, 0, ds);
    forall j | 0 <= j <= k
      ensures other[j] == attempts[j]
    {
      assert other[..k + 1][j] == attempts[..k + 1][j];
    }
    AcquireFromIgnoresLaterRanks(attempts, other, 0, ds);
  }
}
