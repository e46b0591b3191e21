/** When a sleeping cluster must be awake again: the earliest enabled CronJob run, less the wake lead. */
module SleepSchedule {
  import opened Common

  /** A CronJob with the outcome of resolving its time zone and computing its next run after now. */
  datatype CronJob = CronJob(suspended: bool, zoneKnown: bool, nextRun: Option<int>)

  predicate Broken(job: CronJob) {
    !job.suspended && (!job.zoneKnown || job.nextRun.None?)
  }

  predicate Scheduled(job: CronJob) {
    !job.suspended && job.zoneKnown && job.nextRun.Some?
  }

  /** The earliest scheduled run minus the lead; fails exactly when an enabled job cannot be evaluated. */
  method NextWake(jobs: seq<CronJob>, lead: int) returns (wake: Result<Option<int>, string>)
    ensures wake.Err? <==> exists i :: 0 <= i < |jobs| && Broken(jobs[i])
    ensures wake.Ok? && wake.value.None? ==> forall i :: 0 <= i < |jobs| ==> !Scheduled(jobs[i])
    ensures wake.Ok? && wake.value.Some? ==>
              && (exists i :: 0 <= i < |jobs| && Scheduled(jobs[i]) && wake.value.value == jobs[i].nextRun.value - lead)
              && (forall i :: 0 <= i < |jobs| && Scheduled(jobs[i]) ==>
                    wake.value.value <= jobs[i].nextRun.value - lead)
  {
    var earliest: Option<int> := None;
    for n := 0 to |jobs|
      invariant forall i :: 0 <= i < n ==> !Broken(jobs[i])
      invariant earliest.None? ==> forall i :: 0 <= i < n ==> !Scheduled(jobs[i])
      invariant earliest.Some? ==>
                  && (exists i :: 0 <= i < n && Scheduled(jobs[i]) && earliest.value == jobs[i].nextRun.value - lead)
                  && (forall i :: 0 <= i < n && Scheduled(jobs[i]) ==> earliest.value <= jobs[i].nextRun.value - lead)
    {
      var job := jobs[n];
      if job.suspended {
        continue;
      }
      if !job.zoneKnown {
        return Err("invalid time zone");
      }
      if job.nextRun.None? {
        return Err("invalid schedule");
      }
      var candidate := job.nextRun.value - lead;
      assert Scheduled(jobs[n]) && candidate == jobs[n].nextRun.value - lead;
      if earliest.None? || candidate < earliest.value {
        earliest := Some(candidate);
      }
    }
    return Ok(earliest);
  }

  /**
   The look-ahead guard of normal sleep. The wake lead enters it twice and
   cancels: sleep is refused exactly when some enabled job runs within the
   look-ahead window, however long the lead is.
   */
  method DueWithinLookAhead(jobs: seq<CronJob>, now: int, lookAhead: int, lead: int) returns (due: Result<bool, string>)
    ensures due.Err? <==> exists i :: 0 <= i < |jobs| && Broken(jobs[i])
    ensures due.Ok? ==>
              (due.value <==>
                 exists i :: 0 <= i < |jobs| && Scheduled(jobs[i]) && jobs[i].nextRun.value <= now + lookAhead)
  {
    var wake := NextWake(jobs, lead);
    if wake.Err? {
      return Err(wake.error);
    }
    return Ok(wake.value.Some? && !(wake.value.value > now + (lookAhead - lead)));
  }
}
