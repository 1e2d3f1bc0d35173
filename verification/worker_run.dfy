/**
 * What the worker's loop guarantees over a whole run: it stops at the first
 * closed queue or cancelled context, its trace is the handlers' traces in
 * the order the jobs arrived, it logs exactly the errors the handlers
 * return, and it calls the package manager once per unregister job and at
 * most once per register job.
 */
module RunProperties {
  import opened Wrappers
  import opened Hub
  import opened Tracker
  import opened Worker
  import WorkerProperties

  /** The handlers' traces of `jobs`, one after the other. */
  function Traces(env: Env, jobs: seq<Job>): seq<Effect> {
    if |jobs| == 0 then [] else HandleJob(env, jobs[0]).effects + Traces(env, jobs[1..])
  }

  /** The errors the handlers of `jobs` return, in order, each with its job. */
  function Logs(env: Env, jobs: seq<Job>): seq<Logged> {
    if |jobs| == 0 then [] else LogOf(jobs[0], HandleJob(env, jobs[0])) + Logs(env, jobs[1..])
  }

  /** How many of `jobs` are of kind `kind`. */
  function CountKind(jobs: seq<Job>, kind: JobKind): (n: nat)
    ensures n <= |jobs|
  {
    if |jobs| == 0 then 0 else (if jobs[0].kind == kind then 1 else 0) + CountKind(jobs[1..], kind)
  }

  /** A run is the fold of the handlers over the jobs received before the first stop signal. */
  lemma {:induction false} RunIsFoldOfHandlers(env: Env, events: seq<Event>)
    ensures Run(env, events) == RunOutcome(Delivered(events), Traces(env, Delivered(events)), Logs(env, Delivered(events)))
  {
    if |events| > 0 && events[0].Received? {
      RunIsFoldOfHandlers(env, events[1..]);
      var jobs := Delivered(events);
      assert jobs[0] == events[0].job && jobs[1..] == Delivered(events[1..]);
    }
  }

  /** Nothing after a closed queue or a cancelled context is handled. */
  lemma {:induction false} RunStopsAtSignal(env: Env, before: seq<Event>, signal: Event, after: seq<Event>)
    requires forall e :: e in before ==> e.Received?
    requires !signal.Received?
    ensures Run(env, before + [signal] + after) == Run(env, before)
    ensures Run(env, before + [signal] + after).handled == seq(|before|, i requires 0 <= i < |before| => before[i].job)
  {
    var events := before + [signal] + after;
    if |before| == 0 {
      assert events[0] == signal;
    } else {
      assert events[0] == before[0];
      assert events[1..] == before[1..] + [signal] + after;
      RunStopsAtSignal(env, before[1..], signal, after);
    }
  }

  /** A logged entry is exactly a handled job together with the error its handler returned. */
  lemma {:induction false} LogsAreHandlerErrors(env: Env, jobs: seq<Job>)
    ensures forall l :: l in Logs(env, jobs) <==> l.job in jobs && HandleJob(env, l.job).err == Some(l.err)
    ensures |Logs(env, jobs)| <= |jobs|
  {
    if |jobs| > 0 {
      LogsAreHandlerErrors(env, jobs[1..]);
      assert forall j :: j in jobs <==> j == jobs[0] || j in jobs[1..];
    }
  }

  /** Every error a run logs was returned by the handler of a job it handled, and every such error is logged. */
  lemma RunLogsExactlyHandlerErrors(env: Env, events: seq<Event>)
    ensures var r := Run(env, events);
            forall l :: l in r.logged <==> l.job in r.handled && HandleJob(env, l.job).err == Some(l.err)
  {
    RunIsFoldOfHandlers(env, events);
    LogsAreHandlerErrors(env, Delivered(events));
  }

  /** Selecting from the run's trace selects from each job's trace in turn. */
  lemma {:induction false} TracesFilter(env: Env, jobs: seq<Job>, keep: Effect -> bool)
    ensures |jobs| > 0 ==>
              Filter(Traces(env, jobs), keep) == Filter(HandleJob(env, jobs[0]).effects, keep) + Filter(Traces(env, jobs[1..]), keep)
  {
    if |jobs| > 0 {
      FilterConcat(HandleJob(env, jobs[0]).effects, Traces(env, jobs[1..]), keep);
    }
  }

  /** The catalog calls of the handlers of `jobs`: one `Unregister` per unregister job, at most one `Register` per register job. */
  lemma {:induction false} CatalogCallsOfJobs(env: Env, jobs: seq<Job>)
    ensures |UnregisterCalls(Traces(env, jobs))| == CountKind(jobs, UnregisterJob)
    ensures |RegisterCalls(Traces(env, jobs))| <= CountKind(jobs, RegisterJob)
  {
    if |jobs| > 0 {
      var j := jobs[0];
      CatalogCallsOfJobs(env, jobs[1..]);
      TracesFilter(env, jobs, IsUnregisterCall);
      TracesFilter(env, jobs, IsRegisterCall);
      match j.kind
      case RegisterJob =>
        WorkerProperties.RecordedErrorKinds(env, j);
      case UnregisterJob =>
        WorkerProperties.UnregisterRecorded(env, j);
    }
  }

  /** Over a whole run, the package manager is called once per unregister job and at most once per register job. */
  lemma RunCatalogCalls(env: Env, events: seq<Event>)
    ensures var r := Run(env, events);
            && |UnregisterCalls(r.effects)| == CountKind(r.handled, UnregisterJob)
            && |RegisterCalls(r.effects)| <= CountKind(r.handled, RegisterJob)
  {
    RunIsFoldOfHandlers(env, events);
    CatalogCallsOfJobs(env, Delivered(events));
  }

  /** Every error appended during a run names the repository of the job that appended it. */
  lemma {:induction false} AppendedForOwnRepository(env: Env, jobs: seq<Job>)
    ensures forall e :: e in Appended(Traces(env, jobs)) ==>
              exists j :: j in jobs && e in Appended(HandleJob(env, j).effects) && e.repositoryID == j.repo.repositoryID
  {
    if |jobs| > 0 {
      var j := jobs[0];
      AppendedForOwnRepository(env, jobs[1..]);
      TracesFilter(env, jobs, IsAppend);
      match j.kind {
        case RegisterJob => WorkerProperties.RecordedErrorKinds(env, j);
        case UnregisterJob => WorkerProperties.UnregisterRecorded(env, j);
      }
      assert forall k :: k in jobs[1..] ==> k in jobs;
    }
  }
}
