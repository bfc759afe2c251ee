/** Registration, readiness, runs and recovery keep the lifecycle's invariant. */
module LifeJobProofs {
  import opened Types
  import opened ManagerOps
  import opened Lifecycle
  import opened LifeInvariant
  import opened LifeProofs

  lemma LifeTransitive(x: Life, y: Life, z: Life)
    requires LifeInv(x) && LifeAdvances(x, y) && LifeAdvances(y, z)
    ensures LifeAdvances(x, z)
  {
    hide LifeInv, MayBegin, RunAdvances, JobAdvances, SessionAdvances;
    ComposeRuns(x, y, z);
    ComposeJobs(x, y, z);
    ComposeSessions(x, y, z);
  }

  lemma ComposeJobs(x: Life, y: Life, z: Life)
    requires LifeAdvances(x, y) && LifeAdvances(y, z)
    ensures forall j :: j in x.jobs ==> j in z.jobs && JobAdvances(x.jobs[j], z.jobs[j])
  {
    hide MayBegin, RunAdvances, SessionAdvances;
    forall j | j in x.jobs ensures j in z.jobs && JobAdvances(x.jobs[j], z.jobs[j]) {
      assert JobAdvances(x.jobs[j], y.jobs[j]) && JobAdvances(y.jobs[j], z.jobs[j]);
    }
  }

  lemma ComposeSessions(x: Life, y: Life, z: Life)
    requires LifeAdvances(x, y) && LifeAdvances(y, z)
    ensures forall s :: s in x.sessions ==> s in z.sessions && SessionAdvances(x.sessions[s], z.sessions[s])
  {
    hide MayBegin, RunAdvances, JobAdvances;
    forall s | s in x.sessions ensures s in z.sessions && SessionAdvances(x.sessions[s], z.sessions[s]) {
      assert SessionAdvances(x.sessions[s], y.sessions[s]) && SessionAdvances(y.sessions[s], z.sessions[s]);
    }
  }

  lemma KnownRuns(l: Life)
    requires LifeInv(l)
    ensures forall r :: r in l.runs ==> r < l.nextId
  {
    hide SessionsSound, WarmersSound, JobsSound, TransfersSound, UsesSound, RunSound;
  }

  lemma ComposeRuns(x: Life, y: Life, z: Life)
    requires LifeAdvances(x, y) && LifeAdvances(y, z)
    ensures forall r :: r in x.runs ==> r in z.runs && RunAdvances(x.runs[r], z.runs[r])
    ensures forall r :: r in z.runs && r !in x.runs ==> r >= x.nextId && MayBegin(x, z.runs[r])
  {
    hide SessionAdvances;
    forall r | r in x.runs ensures r in z.runs && RunAdvances(x.runs[r], z.runs[r]) {
      assert RunAdvances(x.runs[r], y.runs[r]) && RunAdvances(y.runs[r], z.runs[r]);
    }
    forall r | r in z.runs && r !in x.runs ensures r >= x.nextId && MayBegin(x, z.runs[r]) {
      if r in y.runs {
        assert RunAdvances(y.runs[r], z.runs[r]);
        assert MayBegin(x, y.runs[r]);
      } else {
        assert MayBegin(y, z.runs[r]);
        assert z.runs[r].job in x.jobs ==> JobAdvances(x.jobs[z.runs[r].job], y.jobs[z.runs[r].job]);
        forall q | q in x.runs && x.runs[q].state.RunUnknown? ensures x.runs[q].session != z.runs[r].session {
          assert RunAdvances(x.runs[q], y.runs[q]);
        }
      }
    }
  }

  // -------------------------------------------------------------------- new sessions

  lemma NewRowRuns(runs: map<RunId, NativeRun>, jobs: map<JobId, Job>, sessions: map<SessionId, Session>, nextId: nat, s: SessionId, row: Session)
    requires RunsSound(runs, jobs, sessions, nextId) && UsesSound(runs, jobs, sessions) && s !in sessions && row.activeJob.None?
    ensures RunsSound(runs, jobs, sessions[s := row], nextId) && UsesSound(runs, jobs, sessions[s := row])
  {
    forall r | r in runs ensures RunSound(runs[r], r, jobs, sessions[s := row]) {
      assert RunSound(runs[r], r, jobs, sessions);
    }
  }

  lemma NewSessionKeeps(l: Life, s: SessionId, row: Session, nextId: nat, branches: map<(SessionId, JobId), SessionId>)
    requires LifeInv(l) && s !in l.sessions && SessionSound(row) && row.activeJob.None? && s < nextId && l.nextId <= nextId
    requires forall b :: b in branches ==> (b in l.branches && branches[b] == l.branches[b]) || (b.0 in l.sessions && branches[b] == s)
    ensures var l1 := l.(sessions := l.sessions[s := row], nextId := nextId, branches := branches); LifeInv(l1) && LifeAdvances(l, l1)
  {
    hide JobsSound, TransfersSound, RunsSound, UsesSound, SessionSound, WarmerSound;
    NewRowRuns(l.runs, l.jobs, l.sessions, l.nextId, s, row);
    LaterRuns(l.runs, l.jobs, l.sessions[s := row], l.nextId, nextId);
    RowJobs(l.jobs, l.sessions, l.transfers, s, row);
  }

  lemma FreshSessionId(l: Life)
    requires LifeInv(l)
    ensures l.nextId !in l.sessions
  {
    hide JobsSound, TransfersSound, RunsSound, UsesSound, WarmersSound, SessionSound;
  }

  lemma EnsureKeeps(l: Life, s: SessionId, profile: Label, permission: Permission, inherited: bool)
    requires LifeInv(l)
    ensures LifeInv(EnsureSession(l, s, profile, permission, inherited).0)
    ensures LifeAdvances(l, EnsureSession(l, s, profile, permission, inherited).0)
  {
    hide LifeInv, LifeAdvances;
    Unchanged(l);
    var l1 := EnsureSession(l, s, profile, permission, inherited).0;
    if permission.bypass && !inherited {
    } else if s !in l.sessions {
      var row := FreshSession(profile, permission, None);
      KnownBranches(l);
      NewSessionKeeps(l, s, row, l1.nextId, l.branches);
      assert l1 == l.(sessions := l.sessions[s := row], nextId := l1.nextId, branches := l.branches);
    } else if l.sessions[s].profile == profile {
      PermissionKeeps(l, s, permission);
    }
  }

  /** A permission mode plays no part in a session's progress. */
  lemma PermissionSound(sessions: map<SessionId, Session>, warmers: map<WarmerId, Warmer>, s: SessionId, permission: Permission)
    requires WarmersSound(sessions, warmers) && s in sessions
    ensures WarmersSound(sessions[s := sessions[s].(permission := permission)], warmers)
  {
    var row := sessions[s].(permission := permission);
    forall w | w in warmers && warmers[w].session == s ensures WarmerSound(row, warmers[w]) {
      assert WarmerSound(sessions[s], warmers[w]);
    }
    hide WarmerSound;
  }

  lemma PermissionKeeps(l: Life, s: SessionId, permission: Permission)
    requires LifeInv(l) && s in l.sessions
    ensures var l1 := l.(sessions := l.sessions[s := l.sessions[s].(permission := permission)]); LifeInv(l1) && LifeAdvances(l, l1)
  {
    hide LifeInv, LifeAdvances, WarmersSound;
    var row := l.sessions[s].(permission := permission);
    SessionAt(l, s);
    WarmerIds(l);
    PermissionSound(l.sessions, l.warmers, s, permission);
    PermissionRow(l, s, permission);
    RowKeeps(l, s, row, l.warmers, l.nextId);
    assert l.(sessions := l.sessions[s := row], warmers := l.warmers, nextId := l.nextId) == l.(sessions := l.sessions[s := row]);
  }

  lemma PermissionRow(l: Life, s: SessionId, permission: Permission)
    requires LifeInv(l) && s in l.sessions
    ensures RowAllowed(l.sessions[s], l.sessions[s].(permission := permission))
  {
    hide SessionsSound, WarmersSound, JobsSound, TransfersSound;
    if l.sessions[s].activeJob.Some? {
      var r :| r in l.runs && Names(l.runs[r], s, l.sessions[s].activeJob.value);
      assert RunSound(l.runs[r], r, l.jobs, l.sessions);
    }
  }

  lemma BranchKeeps(l: Life, parent: SessionId, j: JobId)
    requires LifeInv(l) && parent in l.sessions && Branch(l, parent, j).Some?
    ensures var (l1, s) := Branch(l, parent, j).value;
            LifeInv(l1) && LifeAdvances(l, l1) && s in l1.sessions && OnlyBranched(l, l1, j)
  {
    hide LifeInv, LifeAdvances, SessionsExist;
    Known(l);
    Unchanged(l);
    if (parent, j) !in l.branches {
      FreshSessionId(l);
      var row := FreshSession(l.sessions[parent].profile, l.sessions[parent].permission, Some(parent));
      var branches := l.branches[(parent, j) := l.nextId];
      NewSessionKeeps(l, l.nextId, row, l.nextId + 1, branches);
      assert Branch(l, parent, j).value.0 == l.(sessions := l.sessions[l.nextId := row], nextId := l.nextId + 1, branches := branches);
    }
  }

  /** At most a session and its branch entry for job `j` were added. */
  ghost predicate OnlyBranched(x: Life, y: Life, j: JobId) {
    && y.jobs == x.jobs && y.transfers == x.transfers && y.order == x.order
    && (forall s :: s in x.sessions ==> s in y.sessions && y.sessions[s] == x.sessions[s])
    && (forall b :: b in x.branches ==> b in y.branches)
    && (forall b :: b in y.branches && b !in x.branches ==> b.1 == j)
  }

  lemma Known(l: Life)
    requires LifeInv(l)
    ensures Listed(l) && SessionsExist(l)
  {
    hide SessionsSound, WarmersSound, TransfersSound, RunsSound, UsesSound;
    forall j | j in l.jobs && l.jobs[j].session.Some? ensures l.jobs[j].session.value in l.sessions {
      assert JobSound(l.jobs, l.sessions, l.transfers, j);
    }
  }

  // -------------------------------------------------------------------- registration

  lemma NewJobJobs(jobs: map<JobId, Job>, sessions: map<SessionId, Session>, transfers: map<(JobId, JobId), Handover>, j: JobId, job: Job)
    requires JobsSound(jobs, sessions, transfers) && TransfersSound(jobs, transfers) && j !in jobs
    requires JobSound(jobs[j := job], sessions, transfers, j)
    ensures JobsSound(jobs[j := job], sessions, transfers) && TransfersSound(jobs[j := job], transfers)
  {
    forall i | i in jobs ensures JobSound(jobs[j := job], sessions, transfers, i) {
      assert JobSound(jobs, sessions, transfers, i);
      hide ValidJob;
    }
  }

  lemma NewJobRuns(runs: map<RunId, NativeRun>, jobs: map<JobId, Job>, sessions: map<SessionId, Session>, nextId: nat, j: JobId, job: Job)
    requires RunsSound(runs, jobs, sessions, nextId) && UsesSound(runs, jobs, sessions) && j !in jobs && job.activeRun.None?
    ensures RunsSound(runs, jobs[j := job], sessions, nextId) && UsesSound(runs, jobs[j := job], sessions)
  {
    hide Prepared;
    forall r | r in runs ensures RunSound(runs[r], r, jobs[j := job], sessions) {
      assert RunSound(runs[r], r, jobs, sessions);
    }
  }

  lemma NewJobKeeps(l: Life, job: Job)
    requires LifeInv(l) && job.spec.id !in l.jobs && ValidJob(job.spec) && job.activeRun.None?
    requires job.session.Some? ==> job.session.value in l.sessions
    requires forall d :: d in job.spec.dependencies ==> d in l.jobs
    requires if job.spec.dependencies == [] then job.state.JobReady? && job.session.Some? else job.state.JobPending?
    ensures var l1 := l.(jobs := l.jobs[job.spec.id := job], order := l.order + [job.spec.id]); LifeInv(l1) && LifeAdvances(l, l1)
  {
    hide SessionsSound, WarmersSound, RunsSound, UsesSound, ValidJob, JobsSound, TransfersSound;
    NewJobJobs(l.jobs, l.sessions, l.transfers, job.spec.id, job);
    NewJobRuns(l.runs, l.jobs, l.sessions, l.nextId, job.spec.id, job);
  }

  lemma InsertKeeps(l: Life, profile: Label, permission: Permission, parent: Option<SessionId>)
    requires LifeInv(l)
    ensures var l1 := InsertSession(l, profile, permission, parent);
            LifeInv(l1) && LifeAdvances(l, l1) && l.nextId in l1.sessions && l1.jobs == l.jobs && l1.order == l.order
  {
    hide LifeInv, LifeAdvances;
    FreshSessionId(l);
    KnownBranches(l);
    NewSessionKeeps(l, l.nextId, FreshSession(profile, permission, parent), l.nextId + 1, l.branches);
    assert InsertSession(l, profile, permission, parent)
        == l.(sessions := l.sessions[l.nextId := FreshSession(profile, permission, parent)], nextId := l.nextId + 1, branches := l.branches);
  }

  lemma KnownBranches(l: Life)
    requires LifeInv(l)
    ensures forall b :: b in l.branches ==> b.0 in l.sessions
  {
    hide SessionsSound, WarmersSound, JobsSound, TransfersSound, RunsSound, UsesSound;
  }

  lemma RegisterKeeps(l: Life, spec: JobSpec)
    requires LifeInv(l)
    ensures LifeInv(RegisterJob(l, spec).0) && LifeAdvances(l, RegisterJob(l, spec).0)
  {
    hide LifeInv, LifeAdvances, ValidJob, InsertSession;
    Unchanged(l);
    var l2 := RegisterJob(l, spec).0;
    if l2 != l {
      var rooted := spec.session.None? && spec.dependencies == [];
      if rooted {
        InsertKeeps(l, spec.profile, ASK, None);
        var l1 := InsertSession(l, spec.profile, ASK, None);
        NewJobKeeps(l1, l2.jobs[spec.id]);
        LifeTransitive(l, l1, l2);
      } else {
        NewJobKeeps(l, l2.jobs[spec.id]);
      }
    }
  }

  // ----------------------------------------------------------------------- readiness

  /** `t1` adds to `t0` exactly the handovers of `dependencies` into `c`. */
  ghost predicate Handed(jobs: map<JobId, Job>, t0: map<(JobId, JobId), Handover>, t1: map<(JobId, JobId), Handover>, c: JobId, dependencies: seq<JobId>) {
    && (forall p :: p in t0 ==> p in t1 && t1[p] == t0[p])
    && (forall p :: p in t1 ==> p in t0 || (p.1 == c && p.0 in dependencies))
    && (forall d :: d in dependencies ==> HandedOver(jobs, t1, d, c))
  }

  lemma HandedMore(jobs: map<JobId, Job>, t0: map<(JobId, JobId), Handover>, t1: map<(JobId, JobId), Handover>, c: JobId,
                   dependencies: seq<JobId>, d: JobId)
    requires Handed(jobs, t0, t1, c, dependencies) && (d, c) !in t0 && d !in dependencies
    requires d in jobs && jobs[d].state.JobSucceeded? && jobs[d].session.Some?
    ensures (d, c) !in t1
    ensures Handed(jobs, t0, t1[(d, c) := Handover(d, jobs[d].session.value, jobs[d].result)], c, dependencies + [d])
  {
  }

  lemma HandedNone(jobs: map<JobId, Job>, t0: map<(JobId, JobId), Handover>, c: JobId)
    ensures Handed(jobs, t0, t0, c, [])
  {
  }

  lemma HandedGrows(jobs: map<JobId, Job>, t0: map<(JobId, JobId), Handover>, t1: map<(JobId, JobId), Handover>, c: JobId, dependencies: seq<JobId>)
    requires Handed(jobs, t0, t1, c, dependencies)
    ensures forall p :: p in t0 ==> p in t1 && t1[p] == t0[p]
  {
  }

  lemma RecordsOne(l: Life, c: JobId, dependencies: seq<JobId>, d: JobId)
    requires (forall x :: x in dependencies ==> Supplied(l, x)) && Supplied(l, d)
    requires RecordTransfers(l, c, dependencies).Success? && (d, c) !in RecordTransfers(l, c, dependencies).life.transfers
    ensures forall x :: x in dependencies + [d] ==> Supplied(l, x)
    ensures var first := RecordTransfers(l, c, dependencies).life;
            RecordTransfers(l, c, dependencies + [d])
            == Success(first.(transfers := first.transfers[(d, c) := Handover(d, l.jobs[d].session.value, l.jobs[d].result)]))
  {
    assert (dependencies + [d])[..|dependencies|] == dependencies;
  }

  /** A pending job has received nothing, so no handover of it can conflict. */
  lemma {:induction false} TransfersFit(l: Life, c: JobId, dependencies: seq<JobId>)
    requires forall d :: d in dependencies ==> Supplied(l, d)
    requires forall d :: d in dependencies ==> (d, c) !in l.transfers
    requires forall i, j :: 0 <= i < j < |dependencies| ==> dependencies[i] < dependencies[j]
    ensures var r := RecordTransfers(l, c, dependencies);
            r.Success? && r.life == l.(transfers := r.life.transfers) && Handed(l.jobs, l.transfers, r.life.transfers, c, dependencies)
  {
    hide Handed;
    if dependencies == [] {
      HandedNone(l.jobs, l.transfers, c);
    } else {
      var n := |dependencies| - 1;
      var d, less := dependencies[n], dependencies[..n];
      assert Supplied(l, d) && d !in less;
      assert forall x :: x in less ==> x in dependencies;
      TransfersFit(l, c, less);
      hide RecordTransfers;
      HandedMore(l.jobs, l.transfers, RecordTransfers(l, c, less).life.transfers, c, less, d);
      RecordsOne(l, c, less, d);
      assert dependencies == less + [d];
    }
  }

  lemma ReadyChildJobs(jobs: map<JobId, Job>, sessions: map<SessionId, Session>, t0: map<(JobId, JobId), Handover>,
                       t1: map<(JobId, JobId), Handover>, c: JobId, s: SessionId)
    requires JobsSound(jobs, sessions, t0) && TransfersSound(jobs, t0) && c in jobs && jobs[c].state.JobPending? && s in sessions
    requires Handed(jobs[c := jobs[c].(session := Some(s), state := JobReady)], t0, t1, c, jobs[c].spec.dependencies)
    ensures JobsSound(jobs[c := jobs[c].(session := Some(s), state := JobReady)], sessions, t1)
    ensures TransfersSound(jobs[c := jobs[c].(session := Some(s), state := JobReady)], t1)
  {
    hide JobSound;
    var jobs1 := jobs[c := jobs[c].(session := Some(s), state := JobReady)];
    forall j | j in jobs1 ensures JobSound(jobs1, sessions, t1, j) {
      if j == c {
        ReadiedSound(jobs, sessions, t0, t1, c, s);
      } else {
        OtherSound(jobs, sessions, t0, t1, c, jobs1[c], j);
      }
    }
  }

  lemma ReadiedSound(jobs: map<JobId, Job>, sessions: map<SessionId, Session>, t0: map<(JobId, JobId), Handover>,
                     t1: map<(JobId, JobId), Handover>, c: JobId, s: SessionId)
    requires c in jobs && JobSound(jobs, sessions, t0, c) && jobs[c].state.JobPending? && s in sessions
    requires Handed(jobs[c := jobs[c].(session := Some(s), state := JobReady)], t0, t1, c, jobs[c].spec.dependencies)
    ensures JobSound(jobs[c := jobs[c].(session := Some(s), state := JobReady)], sessions, t1, c)
  {
    hide ValidJob, HandedOver;
  }

  lemma OtherSound(jobs: map<JobId, Job>, sessions: map<SessionId, Session>, t0: map<(JobId, JobId), Handover>,
                   t1: map<(JobId, JobId), Handover>, c: JobId, row: Job, j: JobId)
    requires c in jobs && j in jobs && j != c && JobSound(jobs, sessions, t0, j) && !jobs[c].state.JobSucceeded?
    requires forall p :: p in t0 ==> p in t1 && t1[p] == t0[p]
    ensures JobSound(jobs[c := row], sessions, t1, j)
  {
    hide ValidJob;
    forall d | d in jobs[j].spec.dependencies && HandedOver(jobs, t0, d, j) ensures HandedOver(jobs[c := row], t1, d, j) {}
  }

  lemma ReadyChildRuns(runs: map<RunId, NativeRun>, jobs: map<JobId, Job>, sessions: map<SessionId, Session>, nextId: nat, c: JobId, row: Job)
    requires RunsSound(runs, jobs, sessions, nextId) && UsesSound(runs, jobs, sessions) && c in jobs
    requires jobs[c].activeRun.None? && !jobs[c].state.NeedsOperator? && row.activeRun.None? && jobs[c].attempts <= row.attempts
    ensures RunsSound(runs, jobs[c := row], sessions, nextId) && UsesSound(runs, jobs[c := row], sessions)
  {
    forall r | r in runs ensures RunSound(runs[r], r, jobs[c := row], sessions) {
      assert RunSound(runs[r], r, jobs, sessions);
    }
  }

  lemma ReadyChildKeeps(l: Life, c: JobId, s: SessionId, transfers: map<(JobId, JobId), Handover>)
    requires LifeInv(l) && c in l.jobs && l.jobs[c].state.JobPending? && s in l.sessions
    requires l.jobs[c].session.Some? ==> l.jobs[c].session == Some(s)
    requires Handed(l.jobs[c := l.jobs[c].(session := Some(s), state := JobReady)], l.transfers, transfers, c, l.jobs[c].spec.dependencies)
    ensures var l1 := l.(jobs := l.jobs[c := l.jobs[c].(session := Some(s), state := JobReady)], transfers := transfers);
            LifeInv(l1) && LifeAdvances(l, l1)
  {
    hide SessionsSound, WarmersSound, RunsSound, UsesSound, JobsSound, TransfersSound, Handed, ValidJob, LifeAdvances;
    JobAt(l, c);
    var row := l.jobs[c].(session := Some(s), state := JobReady);
    ReadyChildJobs(l.jobs, l.sessions, l.transfers, transfers, c, s);
    ReadyChildRuns(l.runs, l.jobs, l.sessions, l.nextId, c, row);
    HandedGrows(l.jobs[c := row], l.transfers, transfers, c, l.jobs[c].spec.dependencies);
    ReadyChildAdvances(l, c, row, transfers);
  }

  lemma ReadyChildAdvances(l: Life, c: JobId, row: Job, transfers: map<(JobId, JobId), Handover>)
    requires c in l.jobs && JobAdvances(l.jobs[c], row)
    requires forall p :: p in l.transfers ==> p in transfers && transfers[p] == l.transfers[p]
    ensures LifeAdvances(l, l.(jobs := l.jobs[c := row], transfers := transfers))
  {
  }

  lemma JobAt(l: Life, j: JobId)
    requires LifeInv(l) && j in l.jobs
    ensures JobSound(l.jobs, l.sessions, l.transfers, j)
  {
    hide SessionsSound, WarmersSound, RunsSound, UsesSound, TransfersSound, JobSound;
  }

  lemma TransferAt(l: Life, p: (JobId, JobId))
    requires LifeInv(l) && p in l.transfers
    ensures p.1 in l.jobs && p.0 in l.jobs[p.1].spec.dependencies && !l.jobs[p.1].state.JobPending?
  {
    hide SessionsSound, WarmersSound, RunsSound, UsesSound, JobsSound;
  }

  lemma ChosenSession(l: Life, c: JobId, consumers: nat)
    requires LifeInv(l) && c in l.jobs && l.jobs[c].state.JobPending?
    requires (l.jobs[c].session.None? ==> l.jobs[c].spec.dependencies != [])
    requires forall d :: d in l.jobs[c].spec.dependencies ==> Supplied(l, d) && l.jobs[d].session.value in l.sessions
    requires ChooseSession(l, c, consumers).Some?
    ensures var (l1, s) := ChooseSession(l, c, consumers).value;
            && LifeInv(l1) && LifeAdvances(l, l1) && s in l1.sessions && OnlyBranched(l, l1, c)
            && (l.jobs[c].session.Some? ==> l.jobs[c].session == Some(s))
  {
    hide LifeInv, LifeAdvances, Branch, Listed, OnlyBranched;
    Known(l);
    Unchanged(l);
    NoneBranched(l, c);
    if l.jobs[c].session.None? {
      assert Supplied(l, l.jobs[c].spec.dependencies[0]);
      var first := l.jobs[l.jobs[c].spec.dependencies[0]].session.value;
      if Branch(l, first, c).Some? {
        BranchKeeps(l, first, c);
      }
    }
  }

  lemma NoneBranched(l: Life, j: JobId)
    ensures OnlyBranched(l, l, j)
  {
  }

  lemma BranchedJobs(x: Life, y: Life, j: JobId)
    requires OnlyBranched(x, y, j)
    ensures y.jobs == x.jobs && y.transfers == x.transfers && y.order == x.order
  {
  }

  /** The chosen session with its job and handovers: what one ready child becomes. */
  lemma ReadiedChild(l: Life, c: JobId, consumers: nat)
    requires LifeInv(l) && c in l.jobs && l.jobs[c].state.JobPending? && l.jobs[c].spec.dependencies != []
    requires forall d :: d in l.jobs[c].spec.dependencies ==> Supplied(l, d) && l.jobs[d].session.value in l.sessions
    requires ChooseSession(l, c, consumers).Some?
    ensures var (l1, s) := ChooseSession(l, c, consumers).value;
            var l2 := l1.(jobs := l1.jobs[c := l1.jobs[c].(session := Some(s), state := JobReady)]);
            && l1.jobs == l.jobs && OnlyBranched(l, l1, c)
            && (forall d :: d in l.jobs[c].spec.dependencies ==> Supplied(l2, d))
            && var r := RecordTransfers(l2, c, l.jobs[c].spec.dependencies);
               r.Success? && LifeInv(r.life) && LifeAdvances(l, r.life) && r.life == l2.(transfers := r.life.transfers)
               && r.life.order == l.order
  {
    hide LifeInv, LifeAdvances, ChooseSession, ValidJob, Handed, OnlyBranched;
    JobAt(l, c);
    ChosenSession(l, c, consumers);
    var (l1, s) := ChooseSession(l, c, consumers).value;
    BranchedJobs(l, l1, c);
    var l2 := l1.(jobs := l1.jobs[c := l1.jobs[c].(session := Some(s), state := JobReady)]);
    var dependencies := l.jobs[c].spec.dependencies;
    forall d | d in dependencies ensures Supplied(l2, d) && (d, c) !in l2.transfers {
      assert Supplied(l, d);
      NothingYet(l, d, c);
    }
    DependenciesSorted(l, c);
    TransfersFit(l2, c, dependencies);
    var l3 := RecordTransfers(l2, c, dependencies).life;
    HandedKeeps(l1, l2, l3, c, s, dependencies);
    LifeTransitive(l, l1, l3);
  }

  lemma HandedKeeps(l1: Life, l2: Life, l3: Life, c: JobId, s: SessionId, dependencies: seq<JobId>)
    requires LifeInv(l1) && c in l1.jobs && l1.jobs[c].state.JobPending? && s in l1.sessions && dependencies == l1.jobs[c].spec.dependencies
    requires l1.jobs[c].session.Some? ==> l1.jobs[c].session == Some(s)
    requires l2 == l1.(jobs := l1.jobs[c := l1.jobs[c].(session := Some(s), state := JobReady)])
    requires l3 == l2.(transfers := l3.transfers) && Handed(l2.jobs, l2.transfers, l3.transfers, c, dependencies)
    ensures LifeInv(l3) && LifeAdvances(l1, l3)
  {
    hide LifeInv, LifeAdvances, Handed;
    ReadyChildKeeps(l1, c, s, l3.transfers);
    assert l3 == l1.(jobs := l1.jobs[c := l1.jobs[c].(session := Some(s), state := JobReady)], transfers := l3.transfers);
  }

  lemma NothingYet(l: Life, d: JobId, c: JobId)
    requires LifeInv(l) && c in l.jobs && l.jobs[c].state.JobPending?
    ensures (d, c) !in l.transfers
  {
    hide LifeInv;
    if (d, c) in l.transfers {
      TransferAt(l, (d, c));
    }
  }

  lemma DependenciesSorted(l: Life, c: JobId)
    requires LifeInv(l) && c in l.jobs
    ensures var ds := l.jobs[c].spec.dependencies; forall i, j :: 0 <= i < j < |ds| ==> ds[i] < ds[j]
  {
    hide LifeInv;
    JobAt(l, c);
  }

  /** One preparation step: the child becomes ready if it can, nothing else about jobs changes. */
  ghost predicate ChildPrepared(x: Life, y: Life, c: JobId, preparable: bool) {
    && y.order == x.order && y.jobs.Keys == x.jobs.Keys
    && (forall j :: j in x.jobs && j != c ==> y.jobs[j] == x.jobs[j])
    && (if preparable
        then c in x.jobs && y.jobs[c] == x.jobs[c].(session := y.jobs[c].session, state := JobReady)
        else y == x)
    && (forall s :: s in x.sessions ==> s in y.sessions && y.sessions[s] == x.sessions[s])
    && (forall b :: b in x.branches ==> b in y.branches)
    && (forall b :: b in y.branches && b !in x.branches ==> b.1 == c)
  }

  /** Preparing a child fails only because it may not branch a bypassing session, never by conflict. */
  lemma PrepareChildKeeps(l: Life, source: JobId, c: JobId, consumers: nat)
    requires LifeInv(l)
    ensures var r := PrepareChild(l, source, c, consumers);
            && (r.Failure? ==> r.fault == Unfit)
            && (r.Success? ==> LifeInv(r.life) && LifeAdvances(l, r.life) && ChildPrepared(l, r.life, c, Preparable(l, source, c)))
  {
    hide LifeInv, LifeAdvances, ChooseSession, Listed, RecordTransfers, ChildPrepared, OnlyBranched;
    Known(l);
    Unchanged(l);
    if !Preparable(l, source, c) {
      NonePrepared(l, c);
    } else if ChooseSession(l, c, consumers).Some? {
      ReadiedChild(l, c, consumers);
      var (l1, s) := ChooseSession(l, c, consumers).value;
      OnePrepared(l, l1, PrepareChild(l, source, c, consumers).life, c, s);
    }
  }

  lemma NonePrepared(l: Life, c: JobId)
    ensures ChildPrepared(l, l, c, false)
  {
  }

  lemma OnePrepared(l: Life, l1: Life, l2: Life, c: JobId, s: SessionId)
    requires OnlyBranched(l, l1, c) && c in l.jobs
    requires l2 == l1.(jobs := l1.jobs[c := l1.jobs[c].(session := Some(s), state := JobReady)], transfers := l2.transfers)
    ensures ChildPrepared(l, l2, c, true)
  {
  }

  lemma PreparedKeys(x: Life, y: Life, c: JobId, preparable: bool)
    requires ChildPrepared(x, y, c, preparable)
    ensures y.order == x.order && y.jobs.Keys == x.jobs.Keys
  {
  }

  lemma {:induction false} PrepareAllKeeps(l: Life, source: JobId, children: seq<JobId>, consumers: nat)
    requires LifeInv(l)
    ensures var r := PrepareAll(l, source, children, consumers);
            && (r.Failure? ==> r.fault == Unfit)
            && (r.Success? ==> LifeInv(r.life) && LifeAdvances(l, r.life) && r.life.order == l.order && r.life.jobs.Keys == l.jobs.Keys)
  {
    hide LifeInv, LifeAdvances, PrepareChild, ChildPrepared;
    if children == [] {
      Unchanged(l);
    } else {
      var n := |children| - 1;
      PrepareAllKeeps(l, source, children[..n], consumers);
      var first := PrepareAll(l, source, children[..n], consumers);
      if first.Success? {
        PrepareChildKeeps(first.life, source, children[n], consumers);
        var r := PrepareChild(first.life, source, children[n], consumers);
        if r.Success? {
          PreparedKeys(first.life, r.life, children[n], Preparable(first.life, source, children[n]));
          LifeTransitive(l, first.life, r.life);
        }
      }
    }
  }

  lemma PrepareDependentsKeeps(l: Life, source: JobId)
    requires LifeInv(l)
    ensures var r := PrepareDependents(l, source);
            && (r.Failure? ==> r.fault == Unfit)
            && (r.Success? ==> LifeInv(r.life) && LifeAdvances(l, r.life) && r.life.jobs.Keys == l.jobs.Keys)
  {
    hide LifeInv, LifeAdvances, PrepareAll, Consumers;
    Unchanged(l);
    PrepareAllKeeps(l, source, l.order, Consumers(l, source));
  }

  lemma {:induction false} ReadyAllKeeps(l: Life, sources: seq<JobId>)
    requires LifeInv(l)
    ensures var r := ReadyAll(l, sources);
            && (r.Failure? ==> r.fault == Unfit)
            && (r.Success? ==> LifeInv(r.life) && LifeAdvances(l, r.life) && r.life.jobs.Keys == l.jobs.Keys)
  {
    hide LifeInv, LifeAdvances, PrepareDependents;
    if sources == [] {
      Unchanged(l);
    } else {
      var n := |sources| - 1;
      ReadyAllKeeps(l, sources[..n]);
      var first := ReadyAll(l, sources[..n]);
      if first.Success? {
        PrepareDependentsKeeps(first.life, sources[n]);
        var r := PrepareDependents(first.life, sources[n]);
        if r.Success? {
          LifeTransitive(l, first.life, r.life);
        }
      }
    }
  }

  lemma ReadyJobsKeeps(l: Life)
    requires LifeInv(l)
    ensures LifeInv(ReadyJobs(l).0) && LifeAdvances(l, ReadyJobs(l).0)
    ensures ReadyJobs(l).1 == None || ReadyJobs(l).1 == Some(Unfit)
  {
    hide LifeInv, LifeAdvances, ReadyAll, SucceededJobs;
    Unchanged(l);
    ReadyAllKeeps(l, Ascending(SucceededJobs(l)));
  }
}
