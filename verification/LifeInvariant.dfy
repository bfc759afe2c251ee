/** What holds of sessions, jobs and runs in every reachable state of the lifecycle. */
module LifeInvariant {
  import opened Types
  import opened Lifecycle

  // --------------------------------------------------------------------- sessions

  /** Both steps succeeded and the warm-up was closed: this is never undone. */
  predicate Prepared(s: Session) {
    BothSucceeded(s) && s.warmupStep.None?
  }

  /** A warm-up that stopped before its end, at the step it would have to repeat. */
  predicate Halted(s: Session) {
    && s.warmupStep.Some? && !s.rpaInit.StepSucceeded?
    && (s.warmupStep == Some(Compact) ==> s.rpaInit.StepPending?)
    && (s.warmupStep == Some(RpaInit) ==> s.compact.StepSucceeded?)
  }

  predicate SessionSound(s: Session) {
    && (s.rpaInit.StepSucceeded? ==> s.compact.StepSucceeded?)
    && match s.state
       case New => !s.compact.StepRunning? && s.rpaInit.StepPending? && s.activeJob.None?
       case Warming =>
         && s.warmupStep.Some? && s.activeJob.None?
         && (s.warmupStep == Some(Compact) ==> s.rpaInit.StepPending?)
         && (s.warmupStep == Some(RpaInit) ==> s.compact.StepSucceeded?)
       case SessionReady => Prepared(s)
       case InUse => Prepared(s) && s.activeJob.Some?
       case Completed => Prepared(s)
       case SessionFailed => Prepared(s) || (Halted(s) && s.activeJob.None?)
       case Recovering => (Prepared(s) || Halted(s)) && s.activeJob.None?
  }

  predicate StepsLeft(s: Session, steps: seq<WarmupCommand>) {
    || (steps == [] && BothSucceeded(s))
    || (steps == [RpaInit] && s.compact.StepSucceeded? && !s.rpaInit.StepSucceeded?)
    || (steps == [Compact, RpaInit] && !s.compact.StepSucceeded? && s.rpaInit.StepPending?)
  }

  /** A warm-up owns its Warming session, unless it found the session prepared and only has to close. */
  predicate WarmerSound(s: Session, w: Warmer) {
    if Prepared(s) then w.steps == [] && !w.executing && (s.state.SessionReady? || s.state.InUse? || s.state.Completed? || s.state.SessionFailed?)
    else
      && s.state.Warming? && StepsLeft(s, w.steps)
      && (w.executing ==> w.steps != [] && StatusOf(s, w.steps[0]).StepRunning? && s.warmupStep == Some(w.steps[0]))
      && (!w.executing ==> !s.compact.StepRunning? && !s.rpaInit.StepRunning?)
  }

  ghost predicate SessionsSound(sessions: map<SessionId, Session>, nextId: nat) {
    forall s :: s in sessions ==> s < nextId && SessionSound(sessions[s])
  }

  ghost predicate WarmersSound(sessions: map<SessionId, Session>, warmers: map<WarmerId, Warmer>) {
    && (forall w :: w in warmers ==> warmers[w].session in sessions && WarmerSound(sessions[warmers[w].session], warmers[w]))
    && (forall v, w :: v in warmers && w in warmers && v != w && warmers[v].session == warmers[w].session
                       ==> Prepared(sessions[warmers[v].session]))
  }

  // ------------------------------------------------------------------------- jobs

  predicate HandedOver(jobs: map<JobId, Job>, transfers: map<(JobId, JobId), Handover>, d: JobId, c: JobId) {
    && d in jobs && jobs[d].state.JobSucceeded? && jobs[d].session.Some?
    && (d, c) in transfers && transfers[(d, c)] == Handover(d, jobs[d].session.value, jobs[d].result)
  }

  predicate JobSound(jobs: map<JobId, Job>, sessions: map<SessionId, Session>, transfers: map<(JobId, JobId), Handover>, j: JobId)
    requires j in jobs
  {
    var job := jobs[j];
    && job.spec.id == j && ValidJob(job.spec)
    && (job.session.Some? ==> job.session.value in sessions)
    && (forall d :: d in job.spec.dependencies ==> d in jobs)
    && (job.state.JobPending? ==> job.spec.dependencies != [])
    && (!job.state.JobPending? ==> job.session.Some? && forall d :: d in job.spec.dependencies ==> HandedOver(jobs, transfers, d, j))
    && (job.state.JobRunning? <==> job.activeRun.Some?)
  }

  ghost predicate JobsSound(jobs: map<JobId, Job>, sessions: map<SessionId, Session>, transfers: map<(JobId, JobId), Handover>) {
    forall j :: j in jobs ==> JobSound(jobs, sessions, transfers, j)
  }

  /** Handovers follow dependency edges, and only into jobs that have left pending. */
  ghost predicate TransfersSound(jobs: map<JobId, Job>, transfers: map<(JobId, JobId), Handover>) {
    forall p :: p in transfers ==> p.1 in jobs && p.0 in jobs[p.1].spec.dependencies && !jobs[p.1].state.JobPending?
  }

  // ------------------------------------------------------------------------- runs

  predicate RunSound(run: NativeRun, r: RunId, jobs: map<JobId, Job>, sessions: map<SessionId, Session>) {
    && run.job in jobs && run.session in sessions && 1 <= run.attempt <= jobs[run.job].attempts
    && (run.state.RunRunning? ==>
          && jobs[run.job].activeRun == Some(r) && jobs[run.job].session == Some(run.session)
          && sessions[run.session].activeJob == Some(run.job) && Prepared(sessions[run.session])
          && (sessions[run.session].state.InUse? || sessions[run.session].state.SessionReady?))
    && (run.state.RunUnknown? ==>
          && jobs[run.job].state.NeedsOperator? && sessions[run.session].state.Recovering? && Prepared(sessions[run.session]))
  }

  ghost predicate RunsSound(runs: map<RunId, NativeRun>, jobs: map<JobId, Job>, sessions: map<SessionId, Session>, nextId: nat) {
    && (forall r :: r in runs ==> r < nextId && RunSound(runs[r], r, jobs, sessions))
    && (forall q, r :: q in runs && r in runs && q != r && runs[q].job == runs[r].job ==> runs[q].attempt != runs[r].attempt)
  }

  predicate Names(run: NativeRun, s: SessionId, j: JobId) {
    run.session == s && run.job == j && run.state.RunRunning?
  }

  ghost predicate UsesSound(runs: map<RunId, NativeRun>, jobs: map<JobId, Job>, sessions: map<SessionId, Session>) {
    && (forall s :: s in sessions && sessions[s].activeJob.Some? ==> exists r :: r in runs && Names(runs[r], s, sessions[s].activeJob.value))
    && (forall j :: j in jobs && jobs[j].activeRun.Some? ==>
          jobs[j].activeRun.value in runs && runs[jobs[j].activeRun.value].job == j && runs[jobs[j].activeRun.value].state.RunRunning?)
  }

  ghost predicate Listed(l: Life) {
    && (forall j :: j in l.order <==> j in l.jobs)
    && (forall i, k :: 0 <= i < k < |l.order| ==> l.order[i] != l.order[k])
    && (forall b :: b in l.branches ==> b.0 in l.sessions && l.branches[b] in l.sessions)
  }

  ghost predicate LifeInv(l: Life) {
    && SessionsSound(l.sessions, l.nextId)
    && WarmersSound(l.sessions, l.warmers)
    && (forall w :: w in l.warmers ==> w < l.nextId)
    && JobsSound(l.jobs, l.sessions, l.transfers)
    && TransfersSound(l.jobs, l.transfers)
    && RunsSound(l.runs, l.jobs, l.sessions, l.nextId)
    && UsesSound(l.runs, l.jobs, l.sessions)
    && Listed(l)
  }

  // -------------------------------------------------------------------- progress

  /** A prepared session stays prepared; one with an uncertain run stays with the operator. */
  predicate SessionAdvances(x: Session, y: Session) {
    && y.profile == x.profile && y.parent == x.parent
    && (Prepared(x) ==> Prepared(y))
  }

  /** A job's contract and its success are final, and so is the operator's say over an uncertain one. */
  predicate JobAdvances(x: Job, y: Job) {
    && y.spec == x.spec && x.attempts <= y.attempts
    && (x.session.Some? ==> y.session == x.session)
    && (x.state.JobSucceeded? ==> y == x)
    && (x.state.NeedsOperator? ==> y == x)
    && (!x.state.JobPending? ==> !y.state.JobPending?)
  }

  /** No run of an uncertain job or session begins. */
  predicate MayBegin(l: Life, run: NativeRun) {
    && (run.job in l.jobs ==> !l.jobs[run.job].state.NeedsOperator?)
    && forall r :: r in l.runs && l.runs[r].state.RunUnknown? ==> l.runs[r].session != run.session
  }

  ghost predicate LifeAdvances(x: Life, y: Life) {
    && x.nextId <= y.nextId
    && (forall s :: s in x.sessions ==> s in y.sessions && SessionAdvances(x.sessions[s], y.sessions[s]))
    && (forall j :: j in x.jobs ==> j in y.jobs && JobAdvances(x.jobs[j], y.jobs[j]))
    && (forall p :: p in x.transfers ==> p in y.transfers && y.transfers[p] == x.transfers[p])
    && (forall r :: r in x.runs ==> r in y.runs && RunAdvances(x.runs[r], y.runs[r]))
    && (forall r :: r in y.runs && r !in x.runs ==> r >= x.nextId && MayBegin(x, y.runs[r]))
  }

  predicate RunAdvances(x: NativeRun, y: NativeRun) {
    && y.job == x.job && y.session == x.session && y.attempt == x.attempt
    && (!x.state.RunRunning? ==> y == x)
  }
}
