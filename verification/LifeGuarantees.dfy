/** What the session lifecycle promises over every sequence of its transactions. */
module LifeGuarantees {
  import opened Types
  import opened ManagerOps
  import opened Lifecycle
  import opened LifeInvariant
  import opened LifeProofs
  import opened LifeJobProofs
  import opened LifeRunProofs

  /** The state that a sequence of transactions reaches from an empty lifecycle. */
  function Lived(steps: seq<LifeStep>): Life {
    LifeExec(NEWBORN, steps)
  }

  lemma LivedSound(steps: seq<LifeStep>)
    ensures LifeInv(Lived(steps))
  {
    BornSound();
    hide LifeInv, LifeAdvances;
    LifeExecKeeps(NEWBORN, steps);
  }

  lemma BornSound()
    ensures LifeInv(NEWBORN)
  {
  }

  // ------------------------------------------------------------------ exclusive use

  /** Two running runs share neither a job nor a session, in any reachable state. */
  lemma ExclusiveUse(steps: seq<LifeStep>, q: RunId, r: RunId)
    requires var l := Lived(steps);
             && q in l.runs && r in l.runs && l.runs[q].state.RunRunning? && l.runs[r].state.RunRunning?
             && (l.runs[q].job == l.runs[r].job || l.runs[q].session == l.runs[r].session)
    ensures q == r
  {
    hide Lived, LifeInv;
    LivedSound(steps);
    OnlyRunning(Lived(steps), q, r);
  }

  /** A running run, its job and its session agree, and the session has both warm-up steps. */
  lemma RunningAgrees(steps: seq<LifeStep>, r: RunId)
    requires r in Lived(steps).runs && Lived(steps).runs[r].state.RunRunning?
    ensures var l := Lived(steps);
            var run := l.runs[r];
            && run.job in l.jobs && run.session in l.sessions
            && l.jobs[run.job].state.JobRunning? && l.jobs[run.job].activeRun == Some(r)
            && l.sessions[run.session].activeJob == Some(run.job) && BothSucceeded(l.sessions[run.session])
  {
    hide Lived, LifeInv, ValidJob;
    LivedSound(steps);
    var l := Lived(steps);
    RunAt(l, r);
    JobAt(l, l.runs[r].job);
  }

  /** Every session marked as in use, and every session with an active job, is named by a running run. */
  lemma InUseIsActive(steps: seq<LifeStep>, s: SessionId)
    requires var l := Lived(steps); s in l.sessions && (l.sessions[s].state.InUse? || l.sessions[s].activeJob.Some?)
    ensures Active(Lived(steps), s)
  {
    hide Lived, LifeInv;
    LivedSound(steps);
    SessionAt(Lived(steps), s);
    UseAt(Lived(steps), s);
  }

  /** A session is marked as in use exactly while a running run names it. */
  predicate Consistent(l: Life) {
    forall s :: s in l.sessions ==> (l.sessions[s].state.InUse? <==> Active(l, s))
  }

  /** The closing transaction of a warm-up writes `ready` without looking at the state.  It keeps
      the mark exact if and only if the session is not in use at that moment. */
  lemma FinishConsistentIff(l: Life, w: WarmerId)
    requires LifeInv(l) && Consistent(l) && CanFinish(l, w) && BothSucceeded(l.sessions[l.warmers[w].session])
    ensures Consistent(FinishWarmer(l, w)) <==> !l.sessions[l.warmers[w].session].state.InUse?
  {
    hide LifeInv;
    var s, l1 := l.warmers[w].session, FinishWarmer(l, w);
    forall x ensures Active(l1, x) == Active(l, x) {
      SameRuns(l, l1, x);
    }
    if !l.sessions[s].state.InUse? {
      FinishElsewhere(l, w);
    } else {
      assert Active(l1, s) && !l1.sessions[s].state.InUse?;
    }
  }

  lemma FinishElsewhere(l: Life, w: WarmerId)
    requires LifeInv(l) && Consistent(l) && CanFinish(l, w) && !l.sessions[l.warmers[w].session].state.InUse?
    ensures Consistent(FinishWarmer(l, w))
  {
    hide LifeInv, Active;
    var l1 := FinishWarmer(l, w);
    forall x | x in l1.sessions ensures l1.sessions[x].state.InUse? <==> Active(l1, x) {
      SameRuns(l, l1, x);
    }
  }

  lemma SameRuns(l: Life, l1: Life, s: SessionId)
    requires l1.runs == l.runs
    ensures Active(l1, s) == Active(l, s)
  {
    if Active(l, s) {
      var r :| r in l.runs && InUseBy(l, s, r);
      assert InUseBy(l1, s, r);
    }
    if Active(l1, s) {
      var r :| r in l1.runs && InUseBy(l1, s, r);
      assert InUseBy(l, s, r);
    }
  }

  /** A late closing: the step overtakes the start of a run on the session it closes. */
  predicate LateFinish(l: Life, step: LifeStep) {
    step.Finish? && CanFinish(l, step.warmer) && l.sessions[l.warmers[step.warmer].session].state.InUse?
  }

  lemma ActiveAgrees(l: Life, s: SessionId)
    requires LifeInv(l) && s in l.sessions
    ensures Active(l, s) <==> l.sessions[s].activeJob.Some?
  {
    hide LifeInv;
    if l.sessions[s].activeJob.Some? {
      UseAt(l, s);
    }
    if Active(l, s) {
      var r :| r in l.runs && InUseBy(l, s, r);
      RunAt(l, r);
    }
  }

  /** Whether a row's mark agrees with its active job. */
  predicate Marked(s: Session) {
    s.state.InUse? <==> s.activeJob.Some?
  }

  lemma ConsistentMarks(l: Life)
    requires LifeInv(l)
    ensures Consistent(l) <==> AllMarked(l)
  {
    hide LifeInv, Active;
    forall s | s in l.sessions ensures Active(l, s) <==> l.sessions[s].activeJob.Some? {
      ActiveAgrees(l, s);
    }
  }

  ghost predicate AllMarked(l: Life) {
    forall s :: s in l.sessions ==> Marked(l.sessions[s])
  }

  /** Only a late closing separates a row's mark from its active job. */
  lemma MarksKept(l: Life, step: LifeStep)
    requires LifeInv(l) && !LateFinish(l, step) && AllMarked(l)
    ensures AllMarked(LifeNext(l, step))
  {
    hide LifeInv, AllMarked, EnsureSession, BranchSession, RegisterJob, AdoptPrepared, ClaimWarmup, ExpireWarmer, BeginStep, EndStep;
    hide FinishWarmer, RetryWarmup, StartJob, CompleteRun, RetryJob, ReadyJobs, Recover, LateFinish;
    match step
    case Complete(r, state, result) => CompletedMarks(l, r, state, result);
    case Settle => SettledMarks(l);
    case Restart => RecoveredMarks(l);
    case Start(j) => StartedMarks(l, j);
    case Register(spec) => RegisteredMarks(l, spec);
    case Fork(x, j) => ForkedMarks(l, x, j);
    case Ensure(x, profile, permission, inherited) => EnsuredMarks(l, x, profile, permission, inherited);
    case Adopt(x) => AdoptedMarks(l, x);
    case Claim(x) => ClaimedMarks(l, x);
    case Expire(w) => WarmingMarks(l, w, Finished);
    case Begin(w) => WarmingMarks(l, w, Finished);
    case End(w, outcome) => WarmingMarks(l, w, outcome);
    case Finish(w) => FinishedMarks(l, w);
    case WarmerDies(w) => SameSessions(l, l.(warmers := l.warmers - {w}));
    case Rewarm(x, confirmed) => RewarmedMarks(l, x, confirmed);
    case Retry(j) => SameSessions(l, RetryJob(l, j).0) by { RetrySessions(l, j); }
  }

  lemma SameSessions(l: Life, l1: Life)
    requires AllMarked(l) && l1.sessions == l.sessions
    ensures AllMarked(l1)
  {
  }

  lemma RetrySessions(l: Life, j: JobId)
    ensures RetryJob(l, j).0.sessions == l.sessions
  {
  }

  lemma StartedMarks(l: Life, j: JobId)
    requires AllMarked(l)
    ensures AllMarked(StartJob(l, j).0)
  {
    hide Active, BothSucceeded;
  }

  lemma ForkedMarks(l: Life, s: SessionId, j: JobId)
    requires AllMarked(l)
    ensures AllMarked(BranchSession(l, s, j).0)
  {
  }

  lemma EnsuredMarks(l: Life, s: SessionId, profile: Label, permission: Permission, inherited: bool)
    requires AllMarked(l)
    ensures AllMarked(EnsureSession(l, s, profile, permission, inherited).0)
  {
  }

  lemma AdoptedMarks(l: Life, s: SessionId)
    requires LifeInv(l) && AllMarked(l)
    ensures AllMarked(AdoptPrepared(l, s).0)
  {
    hide LifeInv, BothSucceeded;
    SessionMark(l, s);
  }

  lemma ClaimedMarks(l: Life, s: SessionId)
    requires LifeInv(l) && AllMarked(l)
    ensures AllMarked(ClaimWarmup(l, s).0)
  {
    hide LifeInv, BothSucceeded;
    SessionMark(l, s);
  }

  lemma RewarmedMarks(l: Life, s: SessionId, confirmed: bool)
    requires LifeInv(l) && AllMarked(l)
    ensures AllMarked(RetryWarmup(l, s, confirmed).0)
  {
    hide LifeInv;
    SessionMark(l, s);
  }

  lemma WarmingMarks(l: Life, w: WarmerId, outcome: StepOutcome)
    requires LifeInv(l) && AllMarked(l)
    ensures AllMarked(ExpireWarmer(l, w)) && AllMarked(BeginStep(l, w)) && AllMarked(EndStep(l, w, outcome))
  {
    hide LifeInv;
    WarmerMark(l, w);
  }

  lemma SessionMark(l: Life, s: SessionId)
    requires LifeInv(l)
    ensures s in l.sessions && (l.sessions[s].state.New? || (l.sessions[s].state.Recovering?) || (l.sessions[s].state.SessionFailed? && l.sessions[s].warmupStep.Some?))
            ==> l.sessions[s].activeJob.None?
  {
    hide LifeInv;
    if s in l.sessions {
      SessionAt(l, s);
    }
  }

  lemma WarmerMark(l: Life, w: WarmerId)
    requires LifeInv(l)
    ensures w in l.warmers ==> l.warmers[w].session in l.sessions
    ensures w in l.warmers && l.warmers[w].steps != [] ==> l.sessions[l.warmers[w].session].activeJob.None?
  {
    hide LifeInv;
    if w in l.warmers {
      WarmerAt(l, w);
    }
  }

  lemma FinishedMarks(l: Life, w: WarmerId)
    requires LifeInv(l) && !LateFinish(l, Finish(w)) && AllMarked(l)
    ensures AllMarked(FinishWarmer(l, w))
  {
    hide LifeInv;
  }

  lemma RegisteredMarks(l: Life, spec: JobSpec)
    requires AllMarked(l)
    ensures AllMarked(RegisterJob(l, spec).0)
  {
    hide ValidJob;
  }

  lemma RecoveredMarks(l: Life)
    requires LifeInv(l) && AllMarked(l)
    ensures AllMarked(Recover(l))
  {
    hide LifeInv, Active, Interrupted;
    RecoveredKeys(l);
    forall s | s in l.sessions ensures Marked(Recover(l).sessions[s]) {
      ActiveAgrees(l, s);
      SessionAt(l, s);
    }
  }

  /** Preparing dependents only adds fresh sessions. */
  lemma ChosenMarks(l: Life, c: JobId, consumers: nat)
    requires c in l.jobs && (l.jobs[c].session.None? ==> l.jobs[c].spec.dependencies != [])
    requires forall d :: d in l.jobs[c].spec.dependencies ==> Supplied(l, d) && l.jobs[d].session.value in l.sessions
    requires AllMarked(l) && ChooseSession(l, c, consumers).Some?
    ensures AllMarked(ChooseSession(l, c, consumers).value.0)
  {
    if l.jobs[c].session.None? {
      assert Supplied(l, l.jobs[c].spec.dependencies[0]);
    }
  }

  lemma PreparedMarks(l: Life, source: JobId, c: JobId, consumers: nat)
    requires LifeInv(l) && AllMarked(l)
    ensures var r := PrepareChild(l, source, c, consumers); r.Success? ==> AllMarked(r.life)
  {
    hide LifeInv, LifeAdvances, ChooseSession, RecordTransfers, Listed, AllMarked, OnlyBranched;
    Known(l);
    if Preparable(l, source, c) && ChooseSession(l, c, consumers).Some? {
      ReadiedChild(l, c, consumers);
      var (l1, s) := ChooseSession(l, c, consumers).value;
      ChosenMarks(l, c, consumers);
      SameSessions(l1, PrepareChild(l, source, c, consumers).life);
    }
  }

  lemma {:induction false} PreparedAllMarks(l: Life, source: JobId, children: seq<JobId>, consumers: nat)
    requires LifeInv(l) && AllMarked(l)
    ensures var r := PrepareAll(l, source, children, consumers); r.Success? ==> AllMarked(r.life)
  {
    hide LifeInv, LifeAdvances, PrepareChild, AllMarked;
    if children != [] {
      var n := |children| - 1;
      PreparedAllMarks(l, source, children[..n], consumers);
      PrepareAllKeeps(l, source, children[..n], consumers);
      var first := PrepareAll(l, source, children[..n], consumers);
      if first.Success? {
        PreparedMarks(first.life, source, children[n], consumers);
      }
    }
  }

  lemma DependentsMarks(l: Life, source: JobId)
    requires LifeInv(l) && AllMarked(l)
    ensures var r := PrepareDependents(l, source); r.Success? ==> AllMarked(r.life)
  {
    hide LifeInv, PrepareAll, AllMarked, Consumers;
    PreparedAllMarks(l, source, l.order, Consumers(l, source));
  }

  lemma {:induction false} ReadyAllMarks(l: Life, sources: seq<JobId>)
    requires LifeInv(l) && AllMarked(l)
    ensures var r := ReadyAll(l, sources); r.Success? ==> AllMarked(r.life)
  {
    hide LifeInv, LifeAdvances, PrepareDependents, AllMarked;
    if sources != [] {
      var n := |sources| - 1;
      ReadyAllMarks(l, sources[..n]);
      ReadyAllKeeps(l, sources[..n]);
      var first := ReadyAll(l, sources[..n]);
      if first.Success? {
        DependentsMarks(first.life, sources[n]);
      }
    }
  }

  lemma SettledMarks(l: Life)
    requires LifeInv(l) && AllMarked(l)
    ensures AllMarked(ReadyJobs(l).0)
  {
    hide LifeInv, ReadyAll, AllMarked, SucceededJobs;
    ReadyAllMarks(l, Ascending(SucceededJobs(l)));
  }

  lemma CompletedMarks(l: Life, r: RunId, state: RunState, result: Option<Label>)
    requires LifeInv(l) && AllMarked(l)
    ensures AllMarked(CompleteRun(l, r, state, result).0)
  {
    hide LifeInv, LifeAdvances, PrepareDependents, AllMarked, ClosedRun;
    if Ends(state) && r in l.runs && l.runs[r].state.RunRunning? && l.runs[r].job in l.jobs && l.runs[r].session in l.sessions {
      ClosedMarks(l, r, state, result);
      ClosedKeeps(l, r, state, result);
      DependentsMarks(ClosedRun(l, r, state, result), l.runs[r].job);
    }
  }

  lemma ClosedMarks(l: Life, r: RunId, state: RunState, result: Option<Label>)
    requires r in l.runs && l.runs[r].job in l.jobs && l.runs[r].session in l.sessions && AllMarked(l)
    ensures AllMarked(ClosedRun(l, r, state, result))
  {
  }

  /** Every run of the lifecycle in which no closing overtakes a start. */
  ghost predicate Timely(l: Life, steps: seq<LifeStep>) {
    forall i :: 0 <= i < |steps| ==> !LateFinish(LifeExec(l, steps[..i]), steps[i])
  }

  lemma {:induction false} TimelyMarks(steps: seq<LifeStep>)
    requires Timely(NEWBORN, steps)
    ensures AllMarked(Lived(steps))
  {
    if steps != [] {
      var n := |steps| - 1;
      forall i | 0 <= i < n ensures !LateFinish(LifeExec(NEWBORN, steps[..n][..i]), steps[..n][i]) {
        assert steps[..n][..i] == steps[..i];
      }
      TimelyMarks(steps[..n]);
      LivedSound(steps[..n]);
      hide LifeInv, LifeNext, AllMarked, LateFinish;
      assert !LateFinish(LifeExec(NEWBORN, steps[..n]), steps[n]);
      MarksKept(Lived(steps[..n]), steps[n]);
    }
  }

  /** Unless a closing overtakes a start, a session is marked as in use exactly while a running run names it. */
  lemma MarksExact(steps: seq<LifeStep>)
    requires Timely(NEWBORN, steps)
    ensures Consistent(Lived(steps))
  {
    hide Lived, LifeInv, Consistent, Timely, AllMarked;
    LivedSound(steps);
    TimelyMarks(steps);
    ConsistentMarks(Lived(steps));
  }

  // ------------------------------------------------------------------- a late closing

  /** One session, one job and two processes: the one claims a warm-up that has nothing left to do,
      and closes it after the other has started the job on the session. */
  const LONE := JobSpec(7, [], None, false, 0, 0, true)
  const RACE: seq<LifeStep> := [Register(LONE), Adopt(0), Claim(0), Start(7), Finish(1)]

  const WARM := Session(SessionReady, 0, ASK, StepSucceeded, StepSucceeded, None, None, None)
  const RACE_1 := Life(map[0 := FreshSession(0, ASK, None)], map[7 := Job(LONE, Some(0), JobReady, 0, None, None)], [7], map[], map[], map[], map[], 1)
  const RACE_2 := RACE_1.(sessions := map[0 := WARM])
  const RACE_3 := RACE_2.(warmers := map[1 := Warmer(0, [], false)], nextId := 2)
  const RACE_4 := Life(map[0 := WARM.(state := InUse, activeJob := Some(7))], map[7 := Job(LONE, Some(0), JobRunning, 1, Some(2), None)], [7],
                       map[2 := NativeRun(7, 0, 1, RunRunning)], map[], map[], map[1 := Warmer(0, [], false)], 3)
  const RACE_5 := RACE_4.(sessions := map[0 := WARM.(activeJob := Some(7))], warmers := map[])

  lemma RaceRegisters()
    ensures LifeNext(NEWBORN, RACE[0]) == RACE_1 && LifeNext(RACE_1, RACE[1]) == RACE_2
  {
  }

  lemma RaceClaims()
    ensures LifeNext(RACE_2, RACE[2]) == RACE_3
  {
  }

  lemma RaceStarts()
    ensures LifeNext(RACE_3, RACE[3]) == RACE_4
  {
    assert !Active(RACE_3, 0);
  }

  lemma RaceFinishes()
    ensures LifeNext(RACE_4, RACE[4]) == RACE_5
  {
  }

  lemma RaceRuns()
    ensures Lived(RACE) == RACE_5
  {
    hide LifeNext;
    assert RACE[..4][..3] == RACE[..3] && RACE[..3][..2] == RACE[..2] && RACE[..2][..1] == RACE[..1] && RACE[..1][..0] == [];
    RaceRegisters();
    RaceClaims();
    RaceStarts();
    RaceFinishes();
    assert LifeExec(NEWBORN, RACE[..1]) == RACE_1;
    assert LifeExec(NEWBORN, RACE[..2]) == RACE_2;
    assert LifeExec(NEWBORN, RACE[..3]) == RACE_3;
    assert LifeExec(NEWBORN, RACE[..4]) == RACE_4;
  }

  /** The exact mark is lost in this run: the session says `ready` while a run uses it.  No second
      run can start on it all the same. */
  lemma LateClosingUnmarks()
    ensures var l := Lived(RACE);
            && 0 in l.sessions && l.sessions[0].state.SessionReady? && Active(l, 0) && !Consistent(l)
            && StartJob(l, 7).1 == Some(Busy)
  {
    RaceRuns();
    assert InUseBy(RACE_5, 0, 2);
    hide LifeExec, LifeNext;
  }

  // ------------------------------------------------------------------ warm-up order

  /** `/rpa-init` succeeds only after `/compact`, and a session that was ever prepared stays so:
      neither completion, recovery nor a retry repeats a step of it. */
  lemma WarmupOrder(before: seq<LifeStep>, after: seq<LifeStep>, s: SessionId)
    requires s in Lived(before).sessions
    ensures var x, y := Lived(before), LifeExec(Lived(before), after);
            && s in y.sessions
            && (y.sessions[s].rpaInit.StepSucceeded? ==> y.sessions[s].compact.StepSucceeded?)
            && (x.sessions[s].state.SessionReady? || x.sessions[s].state.InUse? || x.sessions[s].state.Completed? ==> BothSucceeded(y.sessions[s]))
  {
    hide Lived, LifeInv;
    LivedSound(before);
    LifeExecKeeps(Lived(before), after);
    SessionAt(Lived(before), s);
    SessionAt(LifeExec(Lived(before), after), s);
    hide LifeExec;
  }

  // --------------------------------------------------------------------- recovery

  /** After a restart no run is running; what was running is now with the operator. */
  lemma RestartLeavesNone(steps: seq<LifeStep>, r: RunId)
    requires r in Lived(steps).runs
    ensures var x, y := Lived(steps), Recover(Lived(steps));
            && r in y.runs && !y.runs[r].state.RunRunning?
            && (x.runs[r].state.RunRunning? ==>
                  y.runs[r].state.RunUnknown? && y.runs[r].job in y.jobs && y.jobs[y.runs[r].job].state.NeedsOperator?
                  && y.runs[r].session in y.sessions && y.sessions[y.runs[r].session].state.Recovering?)
  {
    hide Lived, LifeInv, Prepared;
    LivedSound(steps);
    RecoveredRun(Lived(steps), r);
    RecoveredKeys(Lived(steps));
    hide RecoveredSession, Interrupted, Active;
  }

  /** A job whose run became uncertain never gets another run, and neither does its session. */
  lemma UncertainNeverReruns(before: seq<LifeStep>, after: seq<LifeStep>, q: RunId, r: RunId)
    requires q in Lived(before).runs && Lived(before).runs[q].state.RunUnknown?
    requires r in LifeExec(Lived(before), after).runs && r !in Lived(before).runs
    ensures var run, lost := LifeExec(Lived(before), after).runs[r], Lived(before).runs[q];
            run.job != lost.job && run.session != lost.session
  {
    hide Lived, LifeInv;
    LivedSound(before);
    LifeExecKeeps(Lived(before), after);
    RunAt(Lived(before), q);
    assert MayBegin(Lived(before), LifeExec(Lived(before), after).runs[r]);
    hide LifeExec;
  }

  // ---------------------------------------------------------- readiness and handovers

  /** A job that has left `pending` has every dependency succeeded, and received from each exactly
      its session and result; a pending job has received nothing. */
  lemma HandoversExact(steps: seq<LifeStep>, d: JobId, c: JobId)
    requires c in Lived(steps).jobs
    ensures var l := Lived(steps);
            && ((d, c) in l.transfers <==> !l.jobs[c].state.JobPending? && d in l.jobs[c].spec.dependencies)
            && ((d, c) in l.transfers ==>
                  d in l.jobs && l.jobs[d].state.JobSucceeded? && l.jobs[d].session.Some?
                  && l.transfers[(d, c)] == Handover(d, l.jobs[d].session.value, l.jobs[d].result))
  {
    hide Lived, LifeInv, ValidJob;
    LivedSound(steps);
    var l := Lived(steps);
    JobAt(l, c);
    if (d, c) in l.transfers {
      TransferAt(l, (d, c));
    }
    if !l.jobs[c].state.JobPending? && d in l.jobs[c].spec.dependencies {
      assert HandedOver(l.jobs, l.transfers, d, c);
    }
  }

  /** Handing over never meets different data under its key, so no completion is refused for it. */
  lemma HandoverNeverConflicts(steps: seq<LifeStep>, r: RunId, state: RunState, result: Option<Label>)
    ensures CompleteRun(Lived(steps), r, state, result).1 != Some(Clash) && ReadyJobs(Lived(steps)).1 != Some(Clash)
  {
    hide Lived, LifeInv, LifeAdvances, CompleteRun, ReadyJobs;
    LivedSound(steps);
    CompleteKeeps(Lived(steps), r, state, result);
    ReadyJobsKeeps(Lived(steps));
  }

  // ------------------------------------------------------------- barred preparations

  /** The child is due but would need a new branch of a bypassing session, which is refused. */
  predicate Barred(l: Life, c: JobId) {
    && c in l.jobs && l.jobs[c].state.JobPending? && l.jobs[c].session.None? && l.jobs[c].spec.dependencies != []
    && (forall d :: d in l.jobs[c].spec.dependencies ==> Supplied(l, d))
    && var first := l.jobs[c].spec.dependencies[0];
       && first in l.jobs && l.jobs[first].session.Some? && l.jobs[first].session.value in l.sessions
       && !(|l.jobs[c].spec.dependencies| == 1 && Consumers(l, first) == 1)
       && (l.jobs[first].session.value, c) !in l.branches && l.sessions[l.jobs[first].session.value].permission.bypass
  }

  /** A barred child that depends on `source`. */
  predicate BarredFor(l: Life, source: JobId, c: JobId) {
    Barred(l, c) && source in l.jobs[c].spec.dependencies
  }

  /** One preparation fails exactly for a barred child. */
  lemma ChildFailsIff(l: Life, source: JobId, c: JobId)
    requires LifeInv(l)
    ensures PrepareChild(l, source, c, Consumers(l, source)).Failure? <==> BarredFor(l, source, c)
  {
    hide LifeInv, LifeAdvances, Consumers, RecordTransfers, Listed, ValidJob, OnlyBranched;
    Known(l);
    if Preparable(l, source, c) {
      JobAt(l, c);
      SupplySessions(l, c);
      if l.jobs[c].session.None? {
        var ds := l.jobs[c].spec.dependencies;
        assert Supplied(l, ds[0]);
        assert |ds| == 1 ==> source == ds[0];
      }
      if ChooseSession(l, c, Consumers(l, source)).Some? {
        ReadiedChild(l, c, Consumers(l, source));
      }
    }
  }

  lemma SupplySessions(l: Life, c: JobId)
    requires LifeInv(l) && c in l.jobs && forall d :: d in l.jobs[c].spec.dependencies ==> Supplied(l, d)
    ensures forall d :: d in l.jobs[c].spec.dependencies ==> Supplied(l, d) && l.jobs[d].session.value in l.sessions
  {
    hide LifeInv, Listed;
    Known(l);
    forall d | d in l.jobs[c].spec.dependencies ensures l.jobs[d].session.value in l.sessions {
      assert Supplied(l, d);
    }
  }

  /** Preparation leaves every bar, and what bars depend on, as it was. */
  ghost predicate BarsKept(x: Life, y: Life) {
    && (forall source, j :: BarredFor(x, source, j) <==> BarredFor(y, source, j))
    && (forall j :: Consumers(x, j) == Consumers(y, j))
    && y.order == x.order
  }

  lemma ConsumersKept(x: Life, y: Life, c: JobId, preparable: bool, source: JobId)
    requires ChildPrepared(x, y, c, preparable) && (preparable ==> x.jobs[c].state.JobPending?)
    ensures Consumers(x, source) == Consumers(y, source)
  {
    assert ConsumerJobs(x, source) == ConsumerJobs(y, source);
  }

  lemma SuppliedKept(x: Life, y: Life, c: JobId, preparable: bool, d: JobId)
    requires ChildPrepared(x, y, c, preparable) && (preparable ==> x.jobs[c].state.JobPending?)
    ensures Supplied(x, d) <==> Supplied(y, d)
    ensures Supplied(x, d) ==> y.jobs[d] == x.jobs[d]
  {
  }

  lemma BarKept(x: Life, y: Life, c: JobId, preparable: bool, j: JobId)
    requires LifeInv(x) && ChildPrepared(x, y, c, preparable) && (preparable ==> x.jobs[c].state.JobPending?)
    requires j != c || !preparable
    ensures Barred(x, j) <==> Barred(y, j)
  {
    hide LifeInv, Consumers, Listed;
    if preparable && j in x.jobs && j in y.jobs && x.jobs[j].spec.dependencies != [] {
      var first := x.jobs[j].spec.dependencies[0];
      forall d ensures (Supplied(x, d) <==> Supplied(y, d)) && (Supplied(x, d) ==> y.jobs[d] == x.jobs[d]) {
        SuppliedKept(x, y, c, preparable, d);
      }
      ConsumersKept(x, y, c, preparable, first);
      Known(x);
      hide Supplied;
    }
  }

  lemma PreparedReady(x: Life, y: Life, source: JobId, c: JobId)
    requires ChildPrepared(x, y, c, true) && !BarredFor(x, source, c) && Preparable(x, source, c)
    ensures !Barred(x, c) && !Barred(y, c)
  {
  }

  lemma PreparedSpecs(x: Life, y: Life, c: JobId, preparable: bool)
    requires ChildPrepared(x, y, c, preparable)
    ensures y.jobs.Keys == x.jobs.Keys && y.order == x.order && forall j :: j in x.jobs ==> y.jobs[j].spec == x.jobs[j].spec
  {
  }

  lemma BarredKnown(l: Life, c: JobId)
    ensures Barred(l, c) ==> c in l.jobs
  {
  }

  lemma StepBars(l: Life, source: JobId, c: JobId)
    requires LifeInv(l) && PrepareChild(l, source, c, Consumers(l, source)).Success?
    ensures BarsKept(l, PrepareChild(l, source, c, Consumers(l, source)).life)
  {
    hide LifeInv, LifeAdvances, PrepareChild, Consumers, ChildPrepared, Barred;
    var y := PrepareChild(l, source, c, Consumers(l, source)).life;
    var preparable := Preparable(l, source, c);
    PrepareChildKeeps(l, source, c, Consumers(l, source));
    ChildFailsIff(l, source, c);
    PreparedSpecs(l, y, c, preparable);
    forall j ensures Consumers(l, j) == Consumers(y, j) {
      ConsumersKept(l, y, c, preparable, j);
    }
    forall x, j ensures BarredFor(l, x, j) <==> BarredFor(y, x, j) {
      BarredKnown(l, j);
      BarredKnown(y, j);
      if j != c || !preparable {
        BarKept(l, y, c, preparable, j);
      } else {
        PreparedReady(l, y, source, c);
      }
    }
  }

  lemma BarsSame(l: Life)
    ensures BarsKept(l, l)
  {
  }

  lemma BarsCompose(x: Life, y: Life, z: Life)
    requires BarsKept(x, y) && BarsKept(y, z)
    ensures BarsKept(x, z)
  {
    hide BarredFor, Consumers;
  }

  lemma BarsGive(x: Life, y: Life, source: JobId, c: JobId)
    requires BarsKept(x, y)
    ensures Consumers(x, source) == Consumers(y, source)
    ensures BarredFor(x, source, c) <==> BarredFor(y, source, c)
  {
    hide Consumers, BarredFor;
  }

  /** Some barred child among `children` depends on `source`. */
  ghost predicate BarredOf(l: Life, source: JobId, children: seq<JobId>) {
    exists c :: c in children && BarredFor(l, source, c)
  }

  lemma LastOfAll(l: Life, source: JobId, children: seq<JobId>)
    requires children != []
    ensures var n := |children| - 1;
            BarredOf(l, source, children) <==> BarredOf(l, source, children[..n]) || BarredFor(l, source, children[n])
  {
    hide BarredFor;
    var n := |children| - 1;
    assert children == children[..n] + [children[n]];
    assert forall c :: c in children <==> c in children[..n] || c == children[n];
  }

  lemma {:induction false} AllFailsIff(l: Life, source: JobId, children: seq<JobId>)
    requires LifeInv(l)
    ensures var r := PrepareAll(l, source, children, Consumers(l, source));
            && (r.Failure? <==> BarredOf(l, source, children))
            && (r.Success? ==> BarsKept(l, r.life))
  {
    hide LifeInv, LifeAdvances, PrepareChild, Consumers, BarredFor, BarsKept;
    if children == [] {
      BarsSame(l);
    } else {
      var n := |children| - 1;
      var consumers := Consumers(l, source);
      AllFailsIff(l, source, children[..n]);
      PrepareAllKeeps(l, source, children[..n], consumers);
      LastOfAll(l, source, children);
      var first := PrepareAll(l, source, children[..n], consumers);
      if first.Success? {
        BarsGive(l, first.life, source, children[n]);
        ChildFailsIff(first.life, source, children[n]);
        if PrepareChild(first.life, source, children[n], consumers).Success? {
          StepBars(first.life, source, children[n]);
          BarsCompose(l, first.life, PrepareChild(first.life, source, children[n], consumers).life);
        }
      }
    }
  }

  lemma DependentsFailIff(l: Life, source: JobId)
    requires LifeInv(l)
    ensures var r := PrepareDependents(l, source);
            && (r.Failure? <==> BarredOf(l, source, l.order))
            && (r.Success? ==> BarsKept(l, r.life))
  {
    hide LifeInv, PrepareAll, Consumers, BarsKept;
    AllFailsIff(l, source, l.order);
    BarsSame(l);
    if BarredOf(l, source, l.order) {
      var c :| c in l.order && BarredFor(l, source, c);
      assert Supplied(l, source);
    }
  }

  lemma BarsSource(x: Life, y: Life, source: JobId)
    requires BarsKept(x, y)
    ensures BarredOf(x, source, x.order) <==> BarredOf(y, source, y.order)
  {
    hide BarredFor, Consumers;
  }

  lemma {:induction false} ReadyFailsIff(l: Life, sources: seq<JobId>)
    requires LifeInv(l)
    ensures var r := ReadyAll(l, sources);
            && (r.Failure? <==> exists source :: source in sources && BarredOf(l, source, l.order))
            && (r.Success? ==> BarsKept(l, r.life))
  {
    hide LifeInv, LifeAdvances, PrepareDependents, BarredOf, BarsKept;
    if sources == [] {
      BarsSame(l);
    } else {
      var n := |sources| - 1;
      ReadyFailsIff(l, sources[..n]);
      ReadyAllKeeps(l, sources[..n]);
      assert sources == sources[..n] + [sources[n]];
      assert forall x :: x in sources <==> x in sources[..n] || x == sources[n];
      var first := ReadyAll(l, sources[..n]);
      if first.Success? {
        BarsSource(l, first.life, sources[n]);
        DependentsFailIff(first.life, sources[n]);
        if PrepareDependents(first.life, sources[n]).Success? {
          BarsCompose(l, first.life, PrepareDependents(first.life, sources[n]).life);
        }
      }
    }
  }

  lemma BarredSource(l: Life, c: JobId)
    requires Barred(l, c)
    ensures c in l.jobs && l.jobs[c].spec.dependencies != []
    ensures l.jobs[c].spec.dependencies[0] in SucceededJobs(l) && BarredFor(l, l.jobs[c].spec.dependencies[0], c)
  {
    assert Supplied(l, l.jobs[c].spec.dependencies[0]);
  }

  /** `ready_jobs` is refused exactly while some due job would need a new branch of a bypassing session. */
  lemma ReadyRefusedIff(steps: seq<LifeStep>)
    ensures var l := Lived(steps);
            && (ReadyJobs(l).1.Some? <==> exists c :: c in l.jobs && Barred(l, c))
            && (ReadyJobs(l).1.Some? ==> ReadyJobs(l) == (l, Some(Unfit)))
  {
    hide Lived, LifeInv, ReadyAll, Barred, SucceededJobs;
    LivedSound(steps);
    var l := Lived(steps);
    ReadyJobsKeeps(l);
    ReadyFailsIff(l, Ascending(SucceededJobs(l)));
    Known(l);
    if c :| c in l.jobs && Barred(l, c) {
      BarredSource(l, c);
      var d := l.jobs[c].spec.dependencies[0];
      AscendingHolds(SucceededJobs(l), d);
      assert BarredOf(l, d, l.order);
    }
  }

  /** The completion of a running run is refused exactly when its success would make such a job due:
      the run then stays running, and its result is not recorded. */
  lemma CompletionRefusedIff(steps: seq<LifeStep>, r: RunId, state: RunState, result: Option<Label>)
    requires r in Lived(steps).runs && Lived(steps).runs[r].state.RunRunning? && Ends(state)
    ensures var l := Lived(steps);
            && l.runs[r].job in l.jobs && l.runs[r].session in l.sessions
            && (CompleteRun(l, r, state, result).1.Some?
                <==> state.RunSucceeded? && BarredOf(ClosedRun(l, r, state, result), l.runs[r].job, l.order))
            && (CompleteRun(l, r, state, result).1.Some? ==> CompleteRun(l, r, state, result) == (l, Some(Unfit)))
  {
    hide Lived, LifeInv, LifeAdvances, BarredOf, PrepareDependents, Prepared;
    LivedSound(steps);
    var l := Lived(steps);
    RunAt(l, r);
    ClosedKeeps(l, r, state, result);
    CompleteKeeps(l, r, state, result);
    DependentsFailIff(ClosedRun(l, r, state, result), l.runs[r].job);
    PrepareDependentsKeeps(ClosedRun(l, r, state, result), l.runs[r].job);
  }

  /** A session that inherited a bypassing mode, a job on it, and two jobs that depend on that job. */
  const BYPASS := Permission(9, true)
  const HEAD := JobSpec(7, [], Some(0), false, 0, 0, true)
  const LEFT := JobSpec(8, [7], None, false, 0, 0, true)
  const RIGHT := JobSpec(9, [7], None, false, 0, 0, true)
  const FORK: seq<LifeStep> := [Ensure(0, 0, BYPASS, true), Adopt(0), Register(HEAD), Register(LEFT), Register(RIGHT), Start(7)]

  const OPEN_MODE := Session(SessionReady, 0, BYPASS, StepSucceeded, StepSucceeded, None, None, None)
  const HEAD_JOB := Job(HEAD, Some(0), JobReady, 0, None, None)
  const LEFT_JOB := Job(LEFT, None, JobPending, 0, None, None)
  const RIGHT_JOB := Job(RIGHT, None, JobPending, 0, None, None)
  const FORK_1 := Life(map[0 := FreshSession(0, BYPASS, None)], map[], [], map[], map[], map[], map[], 1)
  const FORK_2 := FORK_1.(sessions := map[0 := OPEN_MODE])
  const FORK_3 := FORK_2.(jobs := map[7 := HEAD_JOB], order := [7])
  const FORK_4 := FORK_2.(jobs := map[7 := HEAD_JOB, 8 := LEFT_JOB], order := [7, 8])
  const FORK_5 := FORK_2.(jobs := map[7 := HEAD_JOB, 8 := LEFT_JOB, 9 := RIGHT_JOB], order := [7, 8, 9])
  const FORK_6 := Life(map[0 := OPEN_MODE.(state := InUse, activeJob := Some(7))],
                       map[7 := Job(HEAD, Some(0), JobRunning, 1, Some(1), None), 8 := LEFT_JOB, 9 := RIGHT_JOB], [7, 8, 9],
                       map[1 := NativeRun(7, 0, 1, RunRunning)], map[], map[], map[], 2)

  lemma ForkOpens()
    ensures LifeNext(NEWBORN, FORK[0]) == FORK_1 && LifeNext(FORK_1, FORK[1]) == FORK_2
  {
  }

  lemma ForkHead()
    ensures LifeNext(FORK_2, FORK[2]) == FORK_3
  {
  }

  lemma ForkLeft()
    ensures LifeNext(FORK_3, FORK[3]) == FORK_4
  {
  }

  lemma ForkRight()
    ensures LifeNext(FORK_4, FORK[4]) == FORK_5
  {
  }

  lemma ForkStarts()
    ensures LifeNext(FORK_5, FORK[5]) == FORK_6
  {
    assert !Active(FORK_5, 0);
  }

  lemma ForkRuns()
    ensures Lived(FORK) == FORK_6
  {
    hide LifeNext;
    assert FORK[..5][..4] == FORK[..4] && FORK[..4][..3] == FORK[..3] && FORK[..3][..2] == FORK[..2];
    assert FORK[..2][..1] == FORK[..1] && FORK[..1][..0] == [];
    ForkOpens();
    ForkHead();
    ForkLeft();
    ForkRight();
    ForkStarts();
    assert LifeExec(NEWBORN, FORK[..1]) == FORK_1;
    assert LifeExec(NEWBORN, FORK[..2]) == FORK_2;
    assert LifeExec(NEWBORN, FORK[..3]) == FORK_3;
    assert LifeExec(NEWBORN, FORK[..4]) == FORK_4;
    assert LifeExec(NEWBORN, FORK[..5]) == FORK_5;
  }

  lemma ForkBars(result: Option<Label>)
    ensures BarredOf(ClosedRun(FORK_6, 1, RunSucceeded, result), 7, FORK_6.order)
  {
    var closed := ClosedRun(FORK_6, 1, RunSucceeded, result);
    assert closed.jobs[7].state.JobSucceeded? && closed.jobs[8] == LEFT_JOB && closed.jobs[9] == RIGHT_JOB;
    assert 8 in ConsumerJobs(closed, 7) && 9 in ConsumerJobs(closed, 7);
    AtLeastTwo(ConsumerJobs(closed, 7), 8, 9);
    assert Supplied(closed, 7);
    assert BarredFor(closed, 7, 8) && 8 in FORK_6.order;
  }

  lemma AtLeastTwo(s: set<JobId>, x: JobId, y: JobId)
    requires x in s && y in s && x != y
    ensures |s| >= 2
  {
    assert s == {x, y} + (s - {x, y});
  }

  /** Such a run cannot be recorded as succeeded while its session bypasses: its dependents need branches of it. */
  lemma BypassBlocksSuccess(result: Option<Label>)
    ensures var l := Lived(FORK);
            1 in l.runs && l.runs[1].state.RunRunning? && CompleteRun(l, 1, RunSucceeded, result) == (l, Some(Unfit))
  {
    ForkRuns();
    ForkBars(result);
    hide LifeExec, BarredOf, CompleteRun, ClosedRun;
    CompletionRefusedIff(FORK, 1, RunSucceeded, result);
  }

  // ------------------------------------------------------------------- exact pending

  predicate AllSucceeded(l: Life, c: JobId) {
    c in l.jobs && forall d :: d in l.jobs[c].spec.dependencies ==> d in l.jobs && l.jobs[d].state.JobSucceeded?
  }

  /** What preparing does to jobs: pending ones may become ready, the others stay as they are. */
  ghost predicate OnlyReadied(x: Life, y: Life) {
    && y.jobs.Keys == x.jobs.Keys && y.order == x.order
    && forall j :: j in x.jobs ==> y.jobs[j] == x.jobs[j]
                                   || (x.jobs[j].state.JobPending? && y.jobs[j].state.JobReady? && y.jobs[j].spec == x.jobs[j].spec)
  }

  lemma PrepareChildReadies(l: Life, source: JobId, c: JobId, consumers: nat)
    requires LifeInv(l) && PrepareChild(l, source, c, consumers).Success?
    ensures var y := PrepareChild(l, source, c, consumers).life;
            OnlyReadied(l, y) && (Preparable(l, source, c) ==> c in y.jobs && y.jobs[c].state.JobReady?)
  {
    hide LifeInv, LifeAdvances, PrepareChild;
    PrepareChildKeeps(l, source, c, consumers);
  }

  /** No due child of `source` among `children` is still pending. */
  ghost predicate Served(l: Life, source: JobId, children: seq<JobId>) {
    forall c :: c in children && c in l.jobs && source in l.jobs[c].spec.dependencies && AllSucceeded(l, c) ==> !l.jobs[c].state.JobPending?
  }

  lemma {:induction false} PrepareAllReadies(l: Life, source: JobId, children: seq<JobId>, consumers: nat)
    requires LifeInv(l) && PrepareAll(l, source, children, consumers).Success?
    ensures var y := PrepareAll(l, source, children, consumers).life; OnlyReadied(l, y) && Served(y, source, children)
  {
    hide LifeInv, LifeAdvances, PrepareChild;
    if children != [] {
      var n := |children| - 1;
      PrepareAllReadies(l, source, children[..n], consumers);
      PrepareAllKeeps(l, source, children[..n], consumers);
      var l1 := PrepareAll(l, source, children[..n], consumers).life;
      PrepareChildReadies(l1, source, children[n], consumers);
      LastReadied(l1, PrepareChild(l1, source, children[n], consumers).life, source, children[n]);
      assert children == children[..n] + [children[n]];
    }
  }

  lemma LastReadied(x: Life, y: Life, source: JobId, c: JobId)
    requires LifeInv(x) && OnlyReadied(x, y) && (Preparable(x, source, c) ==> c in y.jobs && y.jobs[c].state.JobReady?)
    ensures c in y.jobs && source in y.jobs[c].spec.dependencies && AllSucceeded(y, c) ==> !y.jobs[c].state.JobPending?
  {
    hide LifeInv, ValidJob;
    if c in y.jobs && source in y.jobs[c].spec.dependencies && AllSucceeded(y, c) && y.jobs[c].state.JobPending? {
      forall d | d in x.jobs[c].spec.dependencies ensures Supplied(x, d) {
        JobAt(x, d);
      }
    }
  }

  lemma {:induction false} ReadyAllReadies(l: Life, sources: seq<JobId>)
    requires LifeInv(l) && ReadyAll(l, sources).Success?
    ensures var y := ReadyAll(l, sources).life; OnlyReadied(l, y) && forall source :: source in sources ==> Served(y, source, y.order)
  {
    hide LifeInv, LifeAdvances, PrepareDependents;
    if sources != [] {
      var n := |sources| - 1;
      ReadyAllReadies(l, sources[..n]);
      ReadyAllKeeps(l, sources[..n]);
      DependentsReadied(ReadyAll(l, sources[..n]).life, sources[n]);
      assert sources == sources[..n] + [sources[n]];
    }
  }

  lemma DependentsReadied(l: Life, source: JobId)
    requires LifeInv(l) && PrepareDependents(l, source).Success?
    ensures var y := PrepareDependents(l, source).life; OnlyReadied(l, y) && Served(y, source, y.order)
  {
    hide LifeInv, PrepareAll, Consumers, ValidJob;
    if Supplied(l, source) {
      PrepareAllReadies(l, source, l.order, Consumers(l, source));
    } else if source in l.jobs {
      JobAt(l, source);
    }
  }

  /** After `ready_jobs` the pending jobs are exactly those with a dependency that has not succeeded,
      unless the call is refused, which `ReadyRefusedIff` decides. */
  lemma PendingExact(steps: seq<LifeStep>, c: JobId)
    requires c in Lived(steps).jobs
    ensures var (y, fault) := ReadyJobs(Lived(steps));
            && c in y.jobs
            && (!AllSucceeded(y, c) ==> y.jobs[c].state.JobPending?)
            && (fault.None? && AllSucceeded(y, c) ==> !y.jobs[c].state.JobPending?)
  {
    hide Lived, LifeInv, ReadyAll, ValidJob, SucceededJobs;
    LivedSound(steps);
    var l, y := Lived(steps), ReadyJobs(Lived(steps)).0;
    ReadyJobsKeeps(l);
    JobAt(y, c);
    if ReadyJobs(l).1.None? {
      ReadyAllReadies(l, Ascending(SucceededJobs(l)));
      Known(y);
      if AllSucceeded(y, c) && y.jobs[c].state.JobPending? {
        var d := y.jobs[c].spec.dependencies[0];
        assert d in y.jobs[c].spec.dependencies;
        StillSucceeded(l, y, d);
        AscendingHolds(SucceededJobs(l), d);
      }
    }
  }

  lemma StillSucceeded(x: Life, y: Life, d: JobId)
    requires OnlyReadied(x, y) && d in y.jobs && y.jobs[d].state.JobSucceeded?
    ensures d in SucceededJobs(x)
  {
  }
}
