/** Runs, completion and recovery keep the lifecycle's invariant, and so does every whole run of it. */
module LifeRunProofs {
  import opened Types
  import opened ManagerOps
  import opened Lifecycle
  import opened LifeInvariant
  import opened LifeProofs
  import opened LifeJobProofs

  lemma RunAt(l: Life, r: RunId)
    requires LifeInv(l) && r in l.runs
    ensures r < l.nextId && RunSound(l.runs[r], r, l.jobs, l.sessions)
  {
    hide SessionsSound, WarmersSound, JobsSound, TransfersSound, UsesSound, RunSound;
  }

  lemma UseAt(l: Life, s: SessionId)
    requires LifeInv(l) && s in l.sessions && l.sessions[s].activeJob.Some?
    ensures Active(l, s)
  {
    hide SessionsSound, WarmersSound, JobsSound, TransfersSound, RunsSound;
    var r :| r in l.runs && Names(l.runs[r], s, l.sessions[s].activeJob.value);
    assert InUseBy(l, s, r);
  }

  // ----------------------------------------------------------------------- start

  /** What a start may assume of the rows it claims. */
  predicate Startable(l: Life, j: JobId, s: SessionId) {
    && j in l.jobs && s in l.sessions && l.jobs[j].state.JobReady? && l.jobs[j].session == Some(s) && l.jobs[j].activeRun.None?
    && Prepared(l.sessions[s]) && !l.sessions[s].state.Recovering? && !l.sessions[s].state.Warming? && !l.sessions[s].state.New?
    && l.sessions[s].activeJob.None? && !Active(l, s)
  }

  lemma StartAllowed(l: Life, j: JobId)
    requires LifeInv(l) && StartJob(l, j).1.None?
    ensures j in l.jobs && l.jobs[j].session.Some? && Startable(l, j, l.jobs[j].session.value)
  {
    hide LifeInv, Active, ValidJob;
    JobAt(l, j);
    var s := l.jobs[j].session.value;
    SessionAt(l, s);
    if l.sessions[s].activeJob.Some? {
      UseAt(l, s);
    }
  }

  lemma StartRuns(l: Life, j: JobId, s: SessionId)
    requires LifeInv(l) && Startable(l, j, s)
    ensures var jobs := l.jobs[j := l.jobs[j].(state := JobRunning, attempts := l.jobs[j].attempts + 1, activeRun := Some(l.nextId))];
            var sessions := l.sessions[s := l.sessions[s].(state := InUse, activeJob := Some(j))];
            var runs := l.runs[l.nextId := NativeRun(j, s, l.jobs[j].attempts + 1, RunRunning)];
            RunsSound(runs, jobs, sessions, l.nextId + 1)
  {
    hide LifeInv, SessionSound;
    var jobs := l.jobs[j := l.jobs[j].(state := JobRunning, attempts := l.jobs[j].attempts + 1, activeRun := Some(l.nextId))];
    var sessions := l.sessions[s := l.sessions[s].(state := InUse, activeJob := Some(j))];
    var runs := l.runs[l.nextId := NativeRun(j, s, l.jobs[j].attempts + 1, RunRunning)];
    forall r | r in l.runs ensures r < l.nextId && RunSound(l.runs[r], r, jobs, sessions) && l.runs[r].attempt <= l.jobs[l.runs[r].job].attempts {
      RunAt(l, r);
      assert InUseBy(l, s, r) ==> Active(l, s);
    }
    RunsDistinct(l);
    hide RunSound, Active;
  }

  lemma RunsDistinct(l: Life)
    requires LifeInv(l)
    ensures forall q, r :: q in l.runs && r in l.runs && q != r && l.runs[q].job == l.runs[r].job ==> l.runs[q].attempt != l.runs[r].attempt
    ensures forall r :: r in l.runs ==> l.runs[r].job in l.jobs
  {
    hide SessionsSound, WarmersSound, JobsSound, TransfersSound, UsesSound;
  }

  lemma StartUses(runs: map<RunId, NativeRun>, jobs: map<JobId, Job>, sessions: map<SessionId, Session>, r: RunId, j: JobId, s: SessionId,
                  run: NativeRun, job: Job, session: Session)
    requires UsesSound(runs, jobs, sessions) && r !in runs && j in jobs && s in sessions
    requires run.job == j && run.session == s && run.state.RunRunning? && job.activeRun == Some(r) && session.activeJob == Some(j)
    ensures UsesSound(runs[r := run], jobs[j := job], sessions[s := session])
  {
    var runs1, sessions1 := runs[r := run], sessions[s := session];
    forall x | x in sessions1 && sessions1[x].activeJob.Some?
      ensures exists q :: q in runs1 && Names(runs1[q], x, sessions1[x].activeJob.value)
    {
      if x == s {
        assert Names(runs1[r], s, j);
      } else {
        var q :| q in runs && Names(runs[q], x, sessions[x].activeJob.value);
        assert Names(runs1[q], x, sessions1[x].activeJob.value);
      }
    }
  }

  lemma StartJobs(jobs: map<JobId, Job>, sessions: map<SessionId, Session>, transfers: map<(JobId, JobId), Handover>, j: JobId, job: Job)
    requires JobsSound(jobs, sessions, transfers) && TransfersSound(jobs, transfers) && j in jobs
    requires !jobs[j].state.JobSucceeded? && !jobs[j].state.JobPending? && !job.state.JobPending?
    requires job.spec == jobs[j].spec && job.session == jobs[j].session && (job.state.JobRunning? <==> job.activeRun.Some?)
    ensures JobsSound(jobs[j := job], sessions, transfers) && TransfersSound(jobs[j := job], transfers)
  {
    hide ValidJob;
    forall i | i in jobs ensures JobSound(jobs[j := job], sessions, transfers, i) {
      assert JobSound(jobs, sessions, transfers, i);
      forall d | d in jobs[i].spec.dependencies && HandedOver(jobs, transfers, d, i) ensures HandedOver(jobs[j := job], transfers, d, i) {}
    }
  }

  lemma UsedWarmers(sessions: map<SessionId, Session>, warmers: map<WarmerId, Warmer>, s: SessionId, row: Session)
    requires WarmersSound(sessions, warmers) && s in sessions && Prepared(sessions[s]) && Prepared(row)
    requires row.state.InUse? || row.state.Completed? || row.state.SessionFailed? || row.state.SessionReady?
    ensures WarmersSound(sessions[s := row], warmers)
  {
    hide Prepared, StepsLeft;
  }

  lemma SessionsUsed(sessions: map<SessionId, Session>, nextId: nat, s: SessionId, row: Session, nextId': nat)
    requires SessionsSound(sessions, nextId) && s in sessions && SessionSound(row) && nextId <= nextId'
    ensures SessionsSound(sessions[s := row], nextId')
  {
    hide SessionSound;
  }

  lemma StartKeeps(l: Life, j: JobId)
    requires LifeInv(l)
    ensures LifeInv(StartJob(l, j).0) && LifeAdvances(l, StartJob(l, j).0)
  {
    hide LifeInv, LifeAdvances, Active, BothSucceeded;
    Unchanged(l);
    if StartJob(l, j).1.None? {
      StartAllowed(l, j);
      StartedKeeps(l, j, l.jobs[j].session.value);
    }
  }

  lemma StartedKeeps(l: Life, j: JobId, s: SessionId)
    requires LifeInv(l) && Startable(l, j, s)
    ensures var run := NativeRun(j, s, l.jobs[j].attempts + 1, RunRunning);
            var job := l.jobs[j].(state := JobRunning, attempts := l.jobs[j].attempts + 1, activeRun := Some(l.nextId));
            var row := l.sessions[s].(state := InUse, activeJob := Some(j));
            var l1 := l.(runs := l.runs[l.nextId := run], jobs := l.jobs[j := job], sessions := l.sessions[s := row], nextId := l.nextId + 1);
            LifeInv(l1) && LifeAdvances(l, l1)
  {
    hide JobsSound, TransfersSound, RunsSound, UsesSound, WarmersSound, SessionsSound, Active, LifeAdvances;
    var job := l.jobs[j].(state := JobRunning, attempts := l.jobs[j].attempts + 1, activeRun := Some(l.nextId));
    var row := l.sessions[s].(state := InUse, activeJob := Some(j));
    var run := NativeRun(j, s, l.jobs[j].attempts + 1, RunRunning);
    SessionAt(l, s);
    KnownRuns(l);
    StartRuns(l, j, s);
    StartUses(l.runs, l.jobs, l.sessions, l.nextId, j, s, run, job, row);
    StartJobs(l.jobs, l.sessions, l.transfers, j, job);
    RowJobs(l.jobs[j := job], l.sessions, l.transfers, s, row);
    UsedWarmers(l.sessions, l.warmers, s, row);
    SessionsUsed(l.sessions, l.nextId, s, row, l.nextId + 1);
    StartedAdvances(l, j, s, job, row, run);
  }

  lemma StartedAdvances(l: Life, j: JobId, s: SessionId, job: Job, row: Session, run: NativeRun)
    requires LifeInv(l) && Startable(l, j, s) && JobAdvances(l.jobs[j], job) && SessionAdvances(l.sessions[s], row)
    requires run.job == j && run.session == s
    ensures LifeAdvances(l, l.(runs := l.runs[l.nextId := run], jobs := l.jobs[j := job], sessions := l.sessions[s := row], nextId := l.nextId + 1))
  {
    hide LifeInv, Active, SessionAdvances, JobAdvances;
    KnownRuns(l);
    SessionSame(l);
    JobSame(l);
    forall r | r in l.runs && l.runs[r].state.RunUnknown? ensures l.runs[r].session != s {
      RunAt(l, r);
    }
  }

  lemma SessionSame(l: Life)
    ensures forall s :: s in l.sessions ==> SessionAdvances(l.sessions[s], l.sessions[s])
  {
  }

  lemma JobSame(l: Life)
    ensures forall j :: j in l.jobs ==> JobAdvances(l.jobs[j], l.jobs[j])
  {
  }

  // ------------------------------------------------------------------ completion

  predicate Ends(state: RunState) {
    !state.RunRunning? && !state.RunUnknown?
  }

  /** A running run is the only one of its job and of its session. */
  lemma OnlyRunning(l: Life, q: RunId, r: RunId)
    requires LifeInv(l) && q in l.runs && r in l.runs && l.runs[q].state.RunRunning? && l.runs[r].state.RunRunning?
    requires l.runs[q].job == l.runs[r].job || l.runs[q].session == l.runs[r].session
    ensures q == r
  {
    hide LifeInv, Prepared;
    RunAt(l, q);
    RunAt(l, r);
  }

  lemma ClosedRuns(l: Life, r: RunId, state: RunState, result: Option<Label>)
    requires LifeInv(l) && r in l.runs && l.runs[r].state.RunRunning? && Ends(state)
    requires l.runs[r].job in l.jobs && l.runs[r].session in l.sessions
    ensures var l1 := ClosedRun(l, r, state, result); RunsSound(l1.runs, l1.jobs, l1.sessions, l1.nextId)
  {
    hide LifeInv, Prepared;
    var l1 := ClosedRun(l, r, state, result);
    RunAt(l, r);
    JobAt(l, l.runs[r].job);
    forall q | q in l.runs ensures q < l.nextId && RunSound(l1.runs[q], q, l1.jobs, l1.sessions) {
      RunAt(l, q);
      if q != r && l.runs[q].state.RunRunning? && (l.runs[q].job == l.runs[r].job || l.runs[q].session == l.runs[r].session) {
        OnlyRunning(l, q, r);
      }
    }
    RunsDistinct(l);
    hide RunSound;
  }

  lemma ClosedUses(l: Life, r: RunId, state: RunState, result: Option<Label>)
    requires LifeInv(l) && r in l.runs && l.runs[r].state.RunRunning? && Ends(state)
    requires l.runs[r].job in l.jobs && l.runs[r].session in l.sessions
    ensures var l1 := ClosedRun(l, r, state, result); UsesSound(l1.runs, l1.jobs, l1.sessions)
  {
    hide SessionsSound, WarmersSound, JobsSound, TransfersSound, RunsSound;
    var l1 := ClosedRun(l, r, state, result);
    RunAt(l, r);
    forall x | x in l1.sessions && l1.sessions[x].activeJob.Some?
      ensures exists q :: q in l1.runs && Names(l1.runs[q], x, l1.sessions[x].activeJob.value)
    {
      var q :| q in l.runs && Names(l.runs[q], x, l.sessions[x].activeJob.value);
      assert Names(l1.runs[q], x, l1.sessions[x].activeJob.value);
    }
  }

  lemma ClosedKeeps(l: Life, r: RunId, state: RunState, result: Option<Label>)
    requires LifeInv(l) && r in l.runs && l.runs[r].state.RunRunning? && Ends(state)
    requires l.runs[r].job in l.jobs && l.runs[r].session in l.sessions
    ensures LifeInv(ClosedRun(l, r, state, result)) && LifeAdvances(l, ClosedRun(l, r, state, result))
  {
    hide JobsSound, TransfersSound, RunsSound, UsesSound, WarmersSound, SessionsSound, LifeAdvances;
    var l1 := ClosedRun(l, r, state, result);
    var j, s := l.runs[r].job, l.runs[r].session;
    RunAt(l, r);
    JobAt(l, j);
    SessionAt(l, s);
    ClosedRuns(l, r, state, result);
    ClosedUses(l, r, state, result);
    StartJobs(l.jobs, l.sessions, l.transfers, j, l1.jobs[j]);
    RowJobs(l1.jobs, l.sessions, l.transfers, s, l1.sessions[s]);
    UsedWarmers(l.sessions, l.warmers, s, l1.sessions[s]);
    SessionsUsed(l.sessions, l.nextId, s, l1.sessions[s], l.nextId);
    ClosedAdvances(l, r, state, result);
  }

  lemma ClosedAdvances(l: Life, r: RunId, state: RunState, result: Option<Label>)
    requires LifeInv(l) && r in l.runs && l.runs[r].state.RunRunning? && Ends(state)
    requires l.runs[r].job in l.jobs && l.runs[r].session in l.sessions
    ensures LifeAdvances(l, ClosedRun(l, r, state, result))
  {
    hide LifeInv;
    RunAt(l, r);
    JobAt(l, l.runs[r].job);
  }

  lemma CompleteKeeps(l: Life, r: RunId, state: RunState, result: Option<Label>)
    requires LifeInv(l)
    ensures LifeInv(CompleteRun(l, r, state, result).0) && LifeAdvances(l, CompleteRun(l, r, state, result).0)
    ensures CompleteRun(l, r, state, result).1 != Some(Clash)
  {
    hide LifeInv, LifeAdvances, PrepareDependents, ClosedRun;
    Unchanged(l);
    if Ends(state) && r in l.runs && l.runs[r].state.RunRunning? && l.runs[r].job in l.jobs && l.runs[r].session in l.sessions {
      var closed := ClosedRun(l, r, state, result);
      ClosedKeeps(l, r, state, result);
      PrepareDependentsKeeps(closed, l.runs[r].job);
      var prepared := PrepareDependents(closed, l.runs[r].job);
      if prepared.Success? {
        LifeTransitive(l, closed, prepared.life);
      }
    }
  }

  lemma RetryJobKeeps(l: Life, j: JobId)
    requires LifeInv(l)
    ensures LifeInv(RetryJob(l, j).0) && LifeAdvances(l, RetryJob(l, j).0)
  {
    hide JobsSound, TransfersSound, RunsSound, UsesSound, WarmersSound, SessionsSound, LifeAdvances;
    Unchanged(l);
    if RetryJob(l, j).1.None? {
      JobAt(l, j);
      var job := l.jobs[j].(state := JobReady);
      StartJobs(l.jobs, l.sessions, l.transfers, j, job);
      ReadyChildRuns(l.runs, l.jobs, l.sessions, l.nextId, j, job);
      ReadyChildAdvances(l, j, job, l.transfers);
      assert RetryJob(l, j).0 == l.(jobs := l.jobs[j := job], transfers := l.transfers);
    }
  }

  // -------------------------------------------------------------------- recovery

  lemma RecoveredSessions(l: Life)
    requires LifeInv(l)
    ensures SessionsSound(Recover(l).sessions, l.nextId)
    ensures forall s :: s in l.sessions ==> SessionAdvances(l.sessions[s], Recover(l).sessions[s])
  {
    hide LifeInv;
    forall s | s in l.sessions
      ensures s < l.nextId && SessionSound(Recover(l).sessions[s]) && SessionAdvances(l.sessions[s], Recover(l).sessions[s])
    {
      RecoveredSound(l, s);
    }
    hide SessionSound, SessionAdvances, Recover;
    assert Recover(l).sessions.Keys == l.sessions.Keys by { RecoveredKeys(l); }
  }

  lemma RecoveredKeys(l: Life)
    ensures Recover(l).sessions.Keys == l.sessions.Keys && Recover(l).jobs.Keys == l.jobs.Keys && Recover(l).runs.Keys == l.runs.Keys
    ensures forall s :: s in l.sessions ==> Recover(l).sessions[s] == RecoveredSession(l.sessions[s], Active(l, s))
  {
    hide Active, Interrupted, RecoveredSession;
  }

  lemma RecoveredSound(l: Life, s: SessionId)
    requires LifeInv(l) && s in l.sessions
    ensures s < l.nextId && SessionSound(RecoveredSession(l.sessions[s], Active(l, s)))
    ensures SessionAdvances(l.sessions[s], RecoveredSession(l.sessions[s], Active(l, s)))
  {
    hide LifeInv;
    SessionAt(l, s);
    if l.sessions[s].activeJob.Some? {
      UseAt(l, s);
    }
    if Active(l, s) {
      var r :| r in l.runs && InUseBy(l, s, r);
      RunAt(l, r);
    }
  }

  lemma RecoveredJob(l: Life, j: JobId)
    requires LifeInv(l) && j in l.jobs
    ensures var job := Recover(l).jobs[j];
            && job.spec == l.jobs[j].spec && job.session == l.jobs[j].session && job.attempts == l.jobs[j].attempts && job.result == l.jobs[j].result
            && job.activeRun.None? && !job.state.JobRunning?
            && (job.state == l.jobs[j].state || (l.jobs[j].state.JobRunning? && job.state.NeedsOperator?))
    ensures Interrupted(l, j) <==> l.jobs[j].state.JobRunning?
  {
    hide LifeInv, ValidJob;
    JobAt(l, j);
    if Interrupted(l, j) {
      var r :| r in l.runs && l.runs[r].job == j && l.runs[r].state.RunRunning?;
      RunAt(l, r);
    }
    if l.jobs[j].activeRun.Some? {
      ActiveRunAt(l, j);
    }
  }

  lemma ActiveRunAt(l: Life, j: JobId)
    requires LifeInv(l) && j in l.jobs && l.jobs[j].activeRun.Some?
    ensures Interrupted(l, j)
  {
    hide SessionsSound, WarmersSound, JobsSound, TransfersSound, RunsSound;
  }

  lemma RecoveredJobs(l: Life)
    requires LifeInv(l)
    ensures JobsSound(Recover(l).jobs, Recover(l).sessions, l.transfers) && TransfersSound(Recover(l).jobs, l.transfers)
  {
    hide LifeInv;
    var l1 := Recover(l);
    RecoveredKeys(l);
    hide Recover, Interrupted, ValidJob;
    forall j | j in l.jobs ensures JobSound(l1.jobs, l1.sessions, l.transfers, j) {
      JobAt(l, j);
      RecoveredJob(l, j);
      forall d | d in l.jobs[j].spec.dependencies && HandedOver(l.jobs, l.transfers, d, j) ensures HandedOver(l1.jobs, l.transfers, d, j) {
        RecoveredJob(l, d);
      }
    }
    forall p | p in l.transfers ensures p.1 in l1.jobs && p.0 in l1.jobs[p.1].spec.dependencies && !l1.jobs[p.1].state.JobPending? {
      TransferAt(l, p);
      RecoveredJob(l, p.1);
    }
  }

  lemma RecoveredRun(l: Life, r: RunId)
    requires LifeInv(l) && r in l.runs
    ensures RunSound(Recover(l).runs[r], r, Recover(l).jobs, Recover(l).sessions) && r < l.nextId
    ensures RunAdvances(l.runs[r], Recover(l).runs[r]) && !Recover(l).runs[r].state.RunRunning?
  {
    hide LifeInv, Interrupted;
    RunAt(l, r);
    RecoveredKeys(l);
    RecoveredJob(l, l.runs[r].job);
    var run := l.runs[r];
    assert Recover(l).runs[r] == if run.state.RunRunning? then run.(state := RunUnknown) else run;
    assert run.state.RunRunning? ==> InUseBy(l, run.session, r) && Active(l, run.session);
    JobAt(l, run.job);
    hide Recover, LostStep, Prepared, Active, ValidJob;
  }

  lemma RecoveredRuns(l: Life)
    requires LifeInv(l)
    ensures RunsSound(Recover(l).runs, Recover(l).jobs, Recover(l).sessions, l.nextId)
    ensures UsesSound(Recover(l).runs, Recover(l).jobs, Recover(l).sessions)
  {
    hide LifeInv, Interrupted, RunSound;
    var l1 := Recover(l);
    RecoveredKeys(l);
    forall r | r in l.runs ensures r < l.nextId && RunSound(l1.runs[r], r, l1.jobs, l1.sessions) && RunAdvances(l.runs[r], l1.runs[r]) {
      RecoveredRun(l, r);
    }
    RunsDistinct(l);
    forall j | j in l.jobs ensures l1.jobs[j].activeRun.None? {
      RecoveredJob(l, j);
    }
    forall s | s in l.sessions ensures l1.sessions[s].activeJob.None? {
      if l.sessions[s].activeJob.Some? {
        UseAt(l, s);
      }
    }
    hide Recover, Active;
  }

  lemma RecoverKeeps(l: Life)
    requires LifeInv(l)
    ensures LifeInv(Recover(l)) && LifeAdvances(l, Recover(l))
  {
    hide LifeInv, LifeAdvances;
    RecoveredSessions(l);
    RecoveredJobs(l);
    RecoveredRuns(l);
    RecoveredListed(l);
    RecoverAdvances(l);
    RecoverParts(l);
  }

  lemma RecoveredListed(l: Life)
    requires LifeInv(l)
    ensures Listed(Recover(l))
  {
    hide SessionsSound, WarmersSound, JobsSound, TransfersSound, RunsSound, UsesSound;
    RecoveredKeys(l);
    hide Active, Interrupted, RecoveredSession;
  }

  lemma RecoverParts(l: Life)
    requires SessionsSound(Recover(l).sessions, l.nextId) && JobsSound(Recover(l).jobs, Recover(l).sessions, l.transfers)
    requires TransfersSound(Recover(l).jobs, l.transfers) && Listed(Recover(l))
    requires RunsSound(Recover(l).runs, Recover(l).jobs, Recover(l).sessions, l.nextId)
    requires UsesSound(Recover(l).runs, Recover(l).jobs, Recover(l).sessions)
    ensures LifeInv(Recover(l))
  {
    hide SessionsSound, JobsSound, TransfersSound, RunsSound, UsesSound, Listed, Interrupted, RecoveredSession, Active;
  }

  lemma RecoverAdvances(l: Life)
    requires LifeInv(l)
    ensures LifeAdvances(l, Recover(l))
  {
    hide LifeInv, SessionAdvances, MayBegin, Interrupted, RunAdvances;
    RecoveredKeys(l);
    RecoveredSessions(l);
    forall j | j in l.jobs ensures JobAdvances(l.jobs[j], Recover(l).jobs[j]) {
      RecoveredJob(l, j);
    }
    forall r | r in l.runs ensures RunAdvances(l.runs[r], Recover(l).runs[r]) {
      RecoveredRun(l, r);
    }
    assert Recover(l).transfers == l.transfers && Recover(l).nextId == l.nextId;
    hide Recover, JobAdvances;
  }

  // ------------------------------------------------------------------- whole runs

  lemma LifeNextKeeps(l: Life, step: LifeStep)
    requires LifeInv(l)
    ensures LifeInv(LifeNext(l, step)) && LifeAdvances(l, LifeNext(l, step))
  {
    hide LifeInv, LifeAdvances, EnsureSession, BranchSession, RegisterJob, AdoptPrepared, ClaimWarmup, ExpireWarmer, BeginStep, EndStep;
    hide FinishWarmer, RetryWarmup, StartJob, CompleteRun, RetryJob, ReadyJobs, Recover;
    match step
    case Ensure(s, profile, permission, inherited) => EnsureKeeps(l, s, profile, permission, inherited);
    case Fork(s, j) => ForkKeeps(l, s, j);
    case Register(spec) => RegisterKeeps(l, spec);
    case Adopt(s) => AdoptKeeps(l, s);
    case Claim(s) => ClaimKeeps(l, s);
    case Expire(w) => ExpireKeeps(l, w);
    case Begin(w) => BeginKeeps(l, w);
    case End(w, outcome) => EndKeeps(l, w, outcome);
    case Finish(w) => FinishKeeps(l, w);
    case WarmerDies(w) => FewerWarmers(l, l.warmers - {w});
    case Rewarm(s, confirmed) => RewarmKeeps(l, s, confirmed);
    case Start(j) => StartKeeps(l, j);
    case Complete(r, state, result) => CompleteKeeps(l, r, state, result);
    case Retry(j) => RetryJobKeeps(l, j);
    case Settle => ReadyJobsKeeps(l);
    case Restart => RecoverKeeps(l);
  }

  lemma ForkKeeps(l: Life, s: SessionId, j: JobId)
    requires LifeInv(l)
    ensures LifeInv(BranchSession(l, s, j).0) && LifeAdvances(l, BranchSession(l, s, j).0)
  {
    hide LifeInv, LifeAdvances, Branch;
    Unchanged(l);
    if s in l.sessions && Branch(l, s, j).Some? {
      BranchKeeps(l, s, j);
    }
  }

  lemma {:induction false} LifeExecKeeps(l: Life, steps: seq<LifeStep>)
    requires LifeInv(l)
    ensures LifeInv(LifeExec(l, steps)) && LifeAdvances(l, LifeExec(l, steps))
  {
    hide LifeInv, LifeAdvances, LifeNext;
    if steps == [] {
      Unchanged(l);
    } else {
      var n := |steps| - 1;
      var l1 := LifeExec(l, steps[..n]);
      LifeExecKeeps(l, steps[..n]);
      LifeNextKeeps(l1, steps[n]);
      LifeTransitive(l, l1, LifeExec(l, steps));
    }
  }
}
