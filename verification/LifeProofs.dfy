/** Every transaction of the lifecycle keeps its invariant. */
module LifeProofs {
  import opened Types
  import opened ManagerOps
  import opened Lifecycle
  import opened LifeInvariant

  // ------------------------------------------------------------- one session row

  /** A session row may change like this whatever runs and jobs refer to it. */
  predicate RowAllowed(x: Session, y: Session) {
    && SessionAdvances(x, y) && y.activeJob == x.activeJob
    && (x.activeJob.Some? ==> Prepared(y) && (y.state.InUse? || y.state.SessionReady?))
    && (x.state.Recovering? && Prepared(x) ==> y.state.Recovering?)
  }

  lemma RowRuns(runs: map<RunId, NativeRun>, jobs: map<JobId, Job>, sessions: map<SessionId, Session>, nextId: nat, s: SessionId, row: Session)
    requires RunsSound(runs, jobs, sessions, nextId) && UsesSound(runs, jobs, sessions)
    requires s in sessions && RowAllowed(sessions[s], row)
    ensures RunsSound(runs, jobs, sessions[s := row], nextId) && UsesSound(runs, jobs, sessions[s := row])
  {
    forall r | r in runs ensures RunSound(runs[r], r, jobs, sessions[s := row]) {
      assert RunSound(runs[r], r, jobs, sessions);
    }
  }

  lemma RowJobs(jobs: map<JobId, Job>, sessions: map<SessionId, Session>, transfers: map<(JobId, JobId), Handover>, s: SessionId, row: Session)
    requires JobsSound(jobs, sessions, transfers)
    ensures JobsSound(jobs, sessions[s := row], transfers)
  {
    forall j | j in jobs ensures JobSound(jobs, sessions[s := row], transfers, j) {
      assert JobSound(jobs, sessions, transfers, j);
    }
  }

  lemma RowKeeps(l: Life, s: SessionId, row: Session, warmers: map<WarmerId, Warmer>, nextId: nat)
    requires LifeInv(l) && s in l.sessions && SessionSound(row) && RowAllowed(l.sessions[s], row)
    requires WarmersSound(l.sessions[s := row], warmers) && l.nextId <= nextId && forall w :: w in warmers ==> w < nextId
    ensures var l1 := l.(sessions := l.sessions[s := row], warmers := warmers, nextId := nextId); LifeInv(l1) && LifeAdvances(l, l1)
  {
    hide JobsSound, TransfersSound, RunsSound, UsesSound, WarmersSound, SessionSound;
    RowRuns(l.runs, l.jobs, l.sessions, l.nextId, s, row);
    LaterRuns(l.runs, l.jobs, l.sessions[s := row], l.nextId, nextId);
    RowJobs(l.jobs, l.sessions, l.transfers, s, row);
  }

  lemma LaterRuns(runs: map<RunId, NativeRun>, jobs: map<JobId, Job>, sessions: map<SessionId, Session>, nextId: nat, nextId': nat)
    requires RunsSound(runs, jobs, sessions, nextId) && nextId <= nextId'
    ensures RunsSound(runs, jobs, sessions, nextId')
  {
    hide RunSound;
  }

  /** Warm-ups of other sessions do not notice; `s` keeps at most the warm-up `w`. */
  lemma OtherWarmers(sessions: map<SessionId, Session>, warmers: map<WarmerId, Warmer>, s: SessionId, row: Session, w: WarmerId, left: map<WarmerId, Warmer>)
    requires WarmersSound(sessions, warmers) && s in sessions
    requires forall v :: v in warmers && warmers[v].session == s ==> v == w
    requires forall v :: v in left && v != w ==> v in warmers && left[v] == warmers[v]
    requires w in left ==> left[w].session == s && WarmerSound(row, left[w])
    ensures WarmersSound(sessions[s := row], left)
  {
    hide WarmerSound;
  }

  /** A session that is not prepared has at most one warm-up. */
  lemma OnlyWarmer(l: Life, w: WarmerId)
    requires LifeInv(l) && w in l.warmers && !Prepared(l.sessions[l.warmers[w].session])
    ensures forall v :: v in l.warmers && l.warmers[v].session == l.warmers[w].session ==> v == w
  {
    hide SessionsSound, JobsSound, TransfersSound, RunsSound, UsesSound, WarmerSound, Prepared;
  }

  lemma WarmerAt(l: Life, w: WarmerId)
    requires LifeInv(l) && w in l.warmers
    ensures l.warmers[w].session in l.sessions && WarmerSound(l.sessions[l.warmers[w].session], l.warmers[w]) && w < l.nextId
    ensures SessionSound(l.sessions[l.warmers[w].session])
  {
    hide JobsSound, TransfersSound, RunsSound, UsesSound;
  }

  lemma SessionAt(l: Life, s: SessionId)
    requires LifeInv(l) && s in l.sessions
    ensures SessionSound(l.sessions[s]) && s < l.nextId
  {
    hide JobsSound, TransfersSound, RunsSound, UsesSound, WarmersSound;
  }

  lemma Unchanged(l: Life)
    ensures LifeAdvances(l, l)
  {
  }

  lemma WarmerIds(l: Life)
    requires LifeInv(l)
    ensures WarmersSound(l.sessions, l.warmers) && forall w :: w in l.warmers ==> w < l.nextId
  {
    hide SessionsSound, JobsSound, TransfersSound, RunsSound, UsesSound, WarmersSound;
  }

  /** A session that is neither prepared nor warming has no warm-up. */
  lemma NoWarmer(l: Life, s: SessionId)
    requires LifeInv(l) && s in l.sessions && !Prepared(l.sessions[s]) && !l.sessions[s].state.Warming?
    ensures forall v :: v in l.warmers ==> l.warmers[v].session != s
  {
    hide LifeInv;
    forall v | v in l.warmers ensures l.warmers[v].session != s {
      WarmerAt(l, v);
    }
  }

  // ---------------------------------------------------------------------- warm-up

  lemma AdoptKeeps(l: Life, s: SessionId)
    requires LifeInv(l)
    ensures LifeInv(AdoptPrepared(l, s).0) && LifeAdvances(l, AdoptPrepared(l, s).0)
  {
    hide LifeInv, LifeAdvances, WarmersSound;
    Unchanged(l);
    if s in l.sessions && l.sessions[s].state.New? {
      SessionAt(l, s);
      NoWarmer(l, s);
      WarmerIds(l);
      var row := AdoptPrepared(l, s).0.sessions[s];
      OtherWarmers(l.sessions, l.warmers, s, row, l.nextId, l.warmers);
      RowKeeps(l, s, row, l.warmers, l.nextId);
      assert AdoptPrepared(l, s).0 == l.(sessions := l.sessions[s := row], warmers := l.warmers, nextId := l.nextId);
    }
  }

  lemma MissingLeft(s: Session)
    requires SessionSound(s) && s.state.New?
    ensures StepsLeft(s.(state := Warming, warmupStep := Some(Compact)), MissingSteps(s))
  {
  }

  lemma ExtraWarmer(sessions: map<SessionId, Session>, warmers: map<WarmerId, Warmer>, w: WarmerId, warmer: Warmer)
    requires WarmersSound(sessions, warmers) && warmer.session in sessions
    requires Prepared(sessions[warmer.session]) && WarmerSound(sessions[warmer.session], warmer)
    ensures WarmersSound(sessions, warmers[w := warmer])
  {
    hide WarmerSound, Prepared;
  }

  lemma ClaimKeeps(l: Life, s: SessionId)
    requires LifeInv(l)
    ensures LifeInv(ClaimWarmup(l, s).0) && LifeAdvances(l, ClaimWarmup(l, s).0)
  {
    hide LifeInv, LifeAdvances, WarmersSound;
    Unchanged(l);
    if s in l.sessions {
      SessionAt(l, s);
      WarmerIds(l);
      var row := l.sessions[s];
      if row.state.SessionReady? && BothSucceeded(row) {
        var left := l.warmers[l.nextId := Warmer(s, [], false)];
        ExtraWarmer(l.sessions, l.warmers, l.nextId, Warmer(s, [], false));
        assert l.sessions[s := row] == l.sessions;
        RowKeeps(l, s, row, left, l.nextId + 1);
      } else if row.state.New? {
        var row' := row.(state := Warming, warmupStep := Some(Compact));
        var left := l.warmers[l.nextId := Warmer(s, MissingSteps(row), false)];
        NoWarmer(l, s);
        MissingLeft(row);
        OtherWarmers(l.sessions, l.warmers, s, row', l.nextId, left);
        RowKeeps(l, s, row', left, l.nextId + 1);
      }
    }
  }

  /** One warm-up changes its own session and itself, or ends. */
  lemma WarmerKeeps(l: Life, w: WarmerId, row: Session, left: map<WarmerId, Warmer>)
    requires LifeInv(l) && w in l.warmers && l.warmers[w].session in l.sessions && !Prepared(l.sessions[l.warmers[w].session])
    requires SessionSound(row) && RowAllowed(l.sessions[l.warmers[w].session], row)
    requires forall v :: v in left && v != w ==> v in l.warmers && left[v] == l.warmers[v]
    requires w in left ==> left[w].session == l.warmers[w].session && WarmerSound(row, left[w])
    ensures var l1 := l.(sessions := l.sessions[l.warmers[w].session := row], warmers := left); LifeInv(l1) && LifeAdvances(l, l1)
  {
    hide LifeInv, LifeAdvances, WarmersSound, SessionSound, RowAllowed, WarmerSound, Prepared;
    OnlyWarmer(l, w);
    WarmerIds(l);
    OtherWarmers(l.sessions, l.warmers, l.warmers[w].session, row, w, left);
    RowKeeps(l, l.warmers[w].session, row, left, l.nextId);
    var s := l.warmers[w].session;
    assert l.(sessions := l.sessions[s := row], warmers := left, nextId := l.nextId) == l.(sessions := l.sessions[s := row], warmers := left);
  }

  lemma ExpireKeeps(l: Life, w: WarmerId)
    requires LifeInv(l)
    ensures LifeInv(ExpireWarmer(l, w)) && LifeAdvances(l, ExpireWarmer(l, w))
  {
    hide LifeInv, LifeAdvances;
    Unchanged(l);
    if CanBegin(l, w) {
      WarmerAt(l, w);
      WarmerKeeps(l, w, ExpireWarmer(l, w).sessions[l.warmers[w].session], l.warmers - {w});
    }
  }

  lemma BeginSound(row: Session, w: Warmer)
    requires SessionSound(row) && WarmerSound(row, w) && w.steps != [] && !w.executing
    ensures var row' := WithStatus(row, w.steps[0], StepRunning);
            !StatusOf(row, w.steps[0]).StepSucceeded? && SessionSound(row') && RowAllowed(row, row') && WarmerSound(row', w.(executing := true))
  {
  }

  lemma BeginKeeps(l: Life, w: WarmerId)
    requires LifeInv(l)
    ensures LifeInv(BeginStep(l, w)) && LifeAdvances(l, BeginStep(l, w))
  {
    hide LifeInv, LifeAdvances, SessionSound, RowAllowed, WithStatus;
    Unchanged(l);
    if CanBegin(l, w) {
      WarmerAt(l, w);
      BeginSound(l.sessions[l.warmers[w].session], l.warmers[w]);
      WarmerKeeps(l, w, WithStatus(l.sessions[l.warmers[w].session], l.warmers[w].steps[0], StepRunning),
                  l.warmers[w := l.warmers[w].(executing := true)]);
    }
  }

  lemma EndSound(row: Session, w: Warmer)
    requires SessionSound(row) && WarmerSound(row, w) && w.steps != [] && w.executing
    ensures var row' := WithStatus(row, w.steps[0], StepSucceeded);
            SessionSound(row') && RowAllowed(row, row') && WarmerSound(row', Warmer(w.session, w.steps[1..], false))
    ensures forall state :: state == SessionFailed || state == Recovering ==>
              SessionSound(row.(state := state)) && RowAllowed(row, row.(state := state))
    ensures !Prepared(row)
  {
  }

  lemma EndKeeps(l: Life, w: WarmerId, outcome: StepOutcome)
    requires LifeInv(l)
    ensures LifeInv(EndStep(l, w, outcome)) && LifeAdvances(l, EndStep(l, w, outcome))
  {
    hide LifeInv, LifeAdvances, SessionSound, RowAllowed, WithStatus, WarmerSound;
    Unchanged(l);
    if EndStep(l, w, outcome) != l {
      WarmerAt(l, w);
      var warmer := l.warmers[w];
      var row := l.sessions[warmer.session];
      EndSound(row, warmer);
      match outcome
      case ConfirmedFailure => WarmerKeeps(l, w, row.(state := SessionFailed), l.warmers - {w});
      case Uncertain => WarmerKeeps(l, w, row.(state := Recovering), l.warmers - {w});
      case Finished =>
        WarmerKeeps(l, w, WithStatus(row, warmer.steps[0], StepSucceeded), l.warmers[w := Warmer(warmer.session, warmer.steps[1..], false)]);
    }
  }

  /** Closing a prepared session again leaves every other warm-up of it in order. */
  lemma CloseWarmers(sessions: map<SessionId, Session>, warmers: map<WarmerId, Warmer>, s: SessionId, w: WarmerId)
    requires WarmersSound(sessions, warmers) && s in sessions && w in warmers && warmers[w].session == s
    requires Prepared(sessions[s]) || forall v :: v in warmers && warmers[v].session == s ==> v == w
    requires BothSucceeded(sessions[s])
    ensures WarmersSound(sessions[s := sessions[s].(state := SessionReady, warmupStep := None)], warmers - {w})
  {
  }

  lemma FewerWarmers(l: Life, warmers: map<WarmerId, Warmer>)
    requires LifeInv(l) && forall w :: w in warmers ==> w in l.warmers && warmers[w] == l.warmers[w]
    ensures LifeInv(l.(warmers := warmers)) && LifeAdvances(l, l.(warmers := warmers))
  {
    hide SessionsSound, JobsSound, TransfersSound, RunsSound, UsesSound, WarmerSound;
  }

  lemma FinishKeeps(l: Life, w: WarmerId)
    requires LifeInv(l)
    ensures LifeInv(FinishWarmer(l, w)) && LifeAdvances(l, FinishWarmer(l, w))
  {
    hide LifeInv, LifeAdvances, WarmersSound;
    Unchanged(l);
    if CanFinish(l, w) {
      WarmerAt(l, w);
      WarmerIds(l);
      var s := l.warmers[w].session;
      var row := l.sessions[s];
      if BothSucceeded(row) {
        if !Prepared(row) {
          OnlyWarmer(l, w);
        }
        CloseWarmers(l.sessions, l.warmers, s, w);
        RowKeeps(l, s, row.(state := SessionReady, warmupStep := None), l.warmers - {w}, l.nextId);
      } else {
        FewerWarmers(l, l.warmers - {w});
      }
    }
  }

  lemma RewarmSound(row: Session)
    requires SessionSound(row) && (row.state.SessionFailed? || row.state.Recovering?) && row.warmupStep.Some?
    ensures var row' := WithStatus(row, row.warmupStep.value, StepPending).(state := New);
            SessionSound(row') && RowAllowed(row, row') && !Prepared(row)
  {
  }

  lemma RewarmKeeps(l: Life, s: SessionId, confirmed: bool)
    requires LifeInv(l)
    ensures LifeInv(RetryWarmup(l, s, confirmed).0) && LifeAdvances(l, RetryWarmup(l, s, confirmed).0)
  {
    hide LifeInv, LifeAdvances, SessionSound, WarmersSound, RowAllowed, WithStatus;
    Unchanged(l);
    var (l1, fault) := RetryWarmup(l, s, confirmed);
    if fault.None? {
      SessionAt(l, s);
      WarmerIds(l);
      RewarmSound(l.sessions[s]);
      NoWarmer(l, s);
      OtherWarmers(l.sessions, l.warmers, s, l1.sessions[s], l.nextId, l.warmers);
      RowKeeps(l, s, l1.sessions[s], l.warmers, l.nextId);
      assert l1 == l.(sessions := l.sessions[s := l1.sessions[s]], warmers := l.warmers, nextId := l.nextId);
    }
  }
}
