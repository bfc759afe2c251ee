/** What each transaction of the session lifecycle does, and exactly when it is refused. */
module LifeOutcomes {
  import opened Types
  import opened ManagerOps
  import opened Lifecycle
  import opened LifeInvariant
  import opened LifeProofs
  import opened LifeJobProofs
  import opened LifeRunProofs
  import opened LifeGuarantees

  // --------------------------------------------------------------- prepared dependents

  /** A pending job that became ready, with the session it continues in. */
  predicate BecameReady(x: Job, y: Job) {
    x.state.JobPending? && y == x.(state := JobReady, session := y.session) && y.session.Some?
    && (x.session.Some? ==> y.session == x.session)
  }

  /** What preparing leaves: known sessions, branches, transfers and runs stay, and jobs at most become ready. */
  ghost predicate Extends(x: Life, y: Life) {
    && y.runs == x.runs && y.warmers == x.warmers && y.order == x.order && x.nextId <= y.nextId
    && (forall s :: s in x.sessions ==> s in y.sessions && y.sessions[s] == x.sessions[s])
    && (forall b :: b in x.branches ==> b in y.branches && y.branches[b] == x.branches[b])
    && (forall p :: p in x.transfers ==> p in y.transfers && y.transfers[p] == x.transfers[p])
    && y.jobs.Keys == x.jobs.Keys && (forall j :: j in x.jobs ==> y.jobs[j] == x.jobs[j] || BecameReady(x.jobs[j], y.jobs[j]))
  }

  lemma ExtendsSelf(l: Life)
    ensures Extends(l, l)
  {
  }

  lemma ExtendsCompose(x: Life, y: Life, z: Life)
    requires Extends(x, y) && Extends(y, z)
    ensures Extends(x, z)
  {
  }

  lemma BranchExtends(l: Life, parent: SessionId, c: JobId)
    requires parent in l.sessions && Branch(l, parent, c).Some? && l.nextId !in l.sessions
    ensures Extends(l, Branch(l, parent, c).value.0)
  {
  }

  /** The session a due job continues in: its own; the one of its only dependency, if that has no other consumer; or
      the branch of its first dependency's session, made now unless it exists. */
  ghost predicate ContinuesIn(x: Life, y: Life, c: JobId, only: bool, s: SessionId)
    requires c in x.jobs
  {
    var job := x.jobs[c];
    if job.session.Some? then s == job.session.value
    else
      && job.spec.dependencies != []
      && var first := job.spec.dependencies[0];
         && first in x.jobs && x.jobs[first].session.Some? && x.jobs[first].session.value in x.sessions
         && var parent := x.jobs[first].session.value;
            if |job.spec.dependencies| == 1 && only then s == parent
            else
              && (parent, c) in y.branches && y.branches[(parent, c)] == s
              && ((parent, c) !in x.branches ==>
                    s >= x.nextId && s in y.sessions && NewBranch(y.sessions[s], x.sessions[parent], parent))
  }

  /** A branch starts afresh with its parent's profile and permission. */
  predicate NewBranch(row: Session, parent: Session, p: SessionId) {
    && row.state.New? && row.compact.StepPending? && row.rpaInit.StepPending? && row.warmupStep.None? && row.activeJob.None?
    && row.profile == parent.profile && row.permission == parent.permission && row.parent == Some(p)
  }

  lemma ChoiceContinues(l: Life, c: JobId, consumers: nat)
    requires c in l.jobs && (l.jobs[c].session.None? ==> l.jobs[c].spec.dependencies != []) && l.nextId !in l.sessions
    requires forall d :: d in l.jobs[c].spec.dependencies ==> Supplied(l, d) && l.jobs[d].session.value in l.sessions
    requires ChooseSession(l, c, consumers).Some?
    ensures var (l1, s) := ChooseSession(l, c, consumers).value;
            Extends(l, l1) && l1.jobs == l.jobs && l1.transfers == l.transfers && ContinuesIn(l, l1, c, consumers == 1, s)
  {
    ExtendsSelf(l);
    if l.jobs[c].session.None? {
      assert Supplied(l, l.jobs[c].spec.dependencies[0]);
      var first := l.jobs[l.jobs[c].spec.dependencies[0]].session.value;
      if Branch(l, first, c).Some? {
        BranchExtends(l, first, c);
      }
      hide Extends;
    }
  }

  lemma ContinuesSame(x: Life, y: Life, z: Life, c: JobId, only: bool, s: SessionId)
    requires c in x.jobs && ContinuesIn(x, y, c, only, s) && Extends(y, z)
    ensures ContinuesIn(x, z, c, only, s)
  {
    hide NewBranch, BecameReady;
  }

  lemma ReadyExtends(l1: Life, l2: Life, c: JobId, s: SessionId)
    requires c in l1.jobs && l1.jobs[c].state.JobPending? && (l1.jobs[c].session.Some? ==> l1.jobs[c].session == Some(s))
    requires l2 == l1.(jobs := l1.jobs[c := l1.jobs[c].(session := Some(s), state := JobReady)], transfers := l2.transfers)
    requires forall p :: p in l1.transfers ==> p in l2.transfers && l2.transfers[p] == l1.transfers[p]
    ensures Extends(l1, l2)
  {
  }

  /** One preparation: a child that is due becomes ready in the session it continues in. */
  lemma ChildExtends(l: Life, source: JobId, c: JobId, consumers: nat)
    requires LifeInv(l) && PrepareChild(l, source, c, consumers).Success?
    ensures var y := PrepareChild(l, source, c, consumers).life;
            && Extends(l, y)
            && (if Preparable(l, source, c)
                then c in y.jobs && y.jobs[c].state.JobReady? && y.jobs[c].session.Some? && ContinuesIn(l, y, c, consumers == 1, y.jobs[c].session.value)
                else y == l)
  {
    hide LifeInv, LifeAdvances, ChooseSession, Listed, RecordTransfers, OnlyBranched, ContinuesIn, Extends, ValidJob;
    Known(l);
    ExtendsSelf(l);
    if Preparable(l, source, c) {
      FreshSessionId(l);
      SupplySessions(l, c);
      ReadiedChild(l, c, consumers);
      ChosenSession(l, c, consumers);
      ChoiceContinues(l, c, consumers);
      var (l1, s) := ChooseSession(l, c, consumers).value;
      var y := PrepareChild(l, source, c, consumers).life;
      TransfersGrow(l, y);
      ReadyExtends(l1, y, c, s);
      ExtendsCompose(l, l1, y);
      ContinuesSame(l, l1, y, c, consumers == 1, s);
    }
  }

  lemma TransfersGrow(x: Life, y: Life)
    requires LifeAdvances(x, y)
    ensures forall p :: p in x.transfers ==> p in y.transfers && y.transfers[p] == x.transfers[p]
  {
  }

  /** What one call of the preparation does to the child `c`: it becomes ready exactly when it is due. */
  ghost predicate DueServed(x: Life, y: Life, source: JobId, c: JobId, only: bool) {
    c in x.jobs ==>
      && c in y.jobs
      && (Preparable(x, source, c) ==>
            BecameReady(x.jobs[c], y.jobs[c]) && ContinuesIn(x, y, c, only, y.jobs[c].session.value))
      && (!Preparable(x, source, c) ==> y.jobs[c] == x.jobs[c])
  }

  /** Preparing has not reached `c`. */
  ghost predicate Untouched(x: Life, y: Life, c: JobId) {
    && (c in x.jobs <==> c in y.jobs) && (c in x.jobs ==> y.jobs[c] == x.jobs[c])
    && (forall b :: b in y.branches && b.1 == c ==> b in x.branches)
  }

  lemma UntouchedByChild(x: Life, y: Life, c: JobId, preparable: bool, j: JobId)
    requires ChildPrepared(x, y, c, preparable) && j != c
    ensures Untouched(x, y, j)
  {
  }

  lemma UntouchedCompose(x: Life, y: Life, z: Life, c: JobId)
    requires Untouched(x, y, c) && Untouched(y, z, c)
    ensures Untouched(x, z, c)
  {
  }

  lemma SuppliedSame(x: Life, y: Life, d: JobId)
    requires Extends(x, y)
    ensures Supplied(x, d) <==> Supplied(y, d)
    ensures Supplied(x, d) ==> y.jobs[d] == x.jobs[d]
  {
  }

  lemma PreparableSame(x: Life, y: Life, source: JobId, c: JobId)
    requires Extends(x, y) && Untouched(x, y, c)
    ensures Preparable(x, source, c) <==> Preparable(y, source, c)
  {
    forall d ensures Supplied(x, d) <==> Supplied(y, d) {
      SuppliedSame(x, y, d);
    }
    hide Extends, Supplied;
  }

  lemma ContinuesEarlier(x: Life, y: Life, z: Life, c: JobId, only: bool, s: SessionId)
    requires Extends(x, y) && Untouched(x, y, c) && c in x.jobs && c in y.jobs && ContinuesIn(y, z, c, only, s)
    requires forall d :: d in x.jobs[c].spec.dependencies ==> Supplied(x, d) && x.jobs[d].session.value in x.sessions
    ensures ContinuesIn(x, z, c, only, s)
  {
    if x.jobs[c].session.None? {
      var first := x.jobs[c].spec.dependencies[0];
      assert Supplied(x, first);
      SuppliedSame(x, y, first);
      hide NewBranch, BecameReady;
    }
  }

  lemma LastServed(l: Life, mid: Life, y: Life, source: JobId, c: JobId, only: bool)
    requires LifeInv(l) && Extends(l, mid) && Untouched(l, mid, c) && Extends(mid, y)
    requires if Preparable(mid, source, c)
             then c in y.jobs && y.jobs[c].state.JobReady? && y.jobs[c].session.Some? && ContinuesIn(mid, y, c, only, y.jobs[c].session.value)
             else y == mid
    ensures DueServed(l, y, source, c, only)
  {
    hide LifeInv, ContinuesIn, Listed, ValidJob;
    PreparableSame(l, mid, source, c);
    if Preparable(l, source, c) {
      SupplySessions(l, c);
      ContinuesEarlier(l, mid, y, c, only, y.jobs[c].session.value);
    }
  }

  lemma ServedStays(l: Life, mid: Life, y: Life, source: JobId, c: JobId, only: bool)
    requires DueServed(l, mid, source, c, only) && Untouched(mid, y, c) && Extends(mid, y)
    ensures DueServed(l, y, source, c, only)
  {
    hide Extends, Preparable;
    if c in l.jobs && Preparable(l, source, c) {
      ContinuesSame(l, mid, y, c, only, mid.jobs[c].session.value);
    }
  }

  lemma NoneUntouched(l: Life)
    ensures forall c :: Untouched(l, l, c)
  {
  }

  lemma {:induction false} AllServed(l: Life, source: JobId, children: seq<JobId>, consumers: nat)
    requires LifeInv(l) && PrepareAll(l, source, children, consumers).Success?
    requires forall i, k :: 0 <= i < k < |children| ==> children[i] != children[k]
    ensures var y := PrepareAll(l, source, children, consumers).life;
            && Extends(l, y)
            && (forall c :: c in children ==> DueServed(l, y, source, c, consumers == 1))
            && (forall c :: c !in children ==> Untouched(l, y, c))
  {
    hide LifeInv, LifeAdvances, PrepareChild, Extends, DueServed, Untouched, ChildPrepared, ContinuesIn, Preparable;
    if children == [] {
      ExtendsSelf(l);
      NoneUntouched(l);
    } else {
      var n := |children| - 1;
      AllServed(l, source, children[..n], consumers);
      PrepareAllKeeps(l, source, children[..n], consumers);
      var mid := PrepareAll(l, source, children[..n], consumers).life;
      var y := PrepareChild(mid, source, children[n], consumers).life;
      ChildExtends(mid, source, children[n], consumers);
      PrepareChildKeeps(mid, source, children[n], consumers);
      ExtendsCompose(l, mid, y);
      LastServed(l, mid, y, source, children[n], consumers == 1);
      assert children == children[..n] + [children[n]];
      forall c | c != children[n]
        ensures (c in children ==> DueServed(l, y, source, c, consumers == 1)) && (c !in children ==> Untouched(l, y, c))
      {
        UntouchedByChild(mid, y, children[n], Preparable(mid, source, children[n]), c);
        if c in children[..n] {
          ServedStays(l, mid, y, source, c, consumers == 1);
        } else {
          UntouchedCompose(l, mid, y, c);
        }
      }
    }
  }

  // ------------------------------------------------------------------------ completion

  /** The job state that a completed run's state means. */
  predicate JobEnds(state: RunState, after: JobState) {
    && (state.RunSucceeded? ==> after.JobSucceeded?) && (state.RunFailed? ==> after.JobFailed?)
    && (state.RunCancelled? ==> after.JobCancelled?)
  }

  /** The rows of the completed run itself. */
  ghost predicate RunCloses(l: Life, y: Life, r: RunId, state: RunState, result: Option<Label>) {
    && r in l.runs && r in y.runs && y.runs == l.runs[r := l.runs[r].(state := state)]
    && var j, s := l.runs[r].job, l.runs[r].session;
       && j in l.jobs && j in y.jobs && s in l.sessions && s in y.sessions
       && JobEnds(state, y.jobs[j].state)
       && y.jobs[j] == l.jobs[j].(state := y.jobs[j].state, activeRun := None, result := result)
       && y.sessions[s] == l.sessions[s].(state := if state.RunSucceeded? then Completed else SessionFailed, activeJob := None)
       && (forall x :: x in l.sessions && x != s ==> x in y.sessions && y.sessions[x] == l.sessions[x])
       && y.warmers == l.warmers && y.order == l.order && y.jobs.Keys == l.jobs.Keys
  }

  lemma CloseShape(l: Life, r: RunId, state: RunState, result: Option<Label>)
    requires r in l.runs && l.runs[r].job in l.jobs && l.runs[r].session in l.sessions && Ends(state)
    ensures var closed := ClosedRun(l, r, state, result);
            && RunCloses(l, closed, r, state, result) && closed.transfers == l.transfers && closed.branches == l.branches && closed.nextId == l.nextId && closed.sessions.Keys == l.sessions.Keys
            && forall j :: j in l.jobs && j != l.runs[r].job ==> closed.jobs[j] == l.jobs[j]
  {
  }

  lemma CloseStays(l: Life, closed: Life, y: Life, r: RunId, state: RunState, result: Option<Label>)
    requires RunCloses(l, closed, r, state, result) && Extends(closed, y) && Ends(state)
    ensures RunCloses(l, y, r, state, result)
  {
  }

  /** What a completion that is not refused does: the run, its job and its session close with the reported state and
      result, and nothing is lost of either; unless it succeeded no other job changes; if it did, each dependent that
      becomes ready holds exactly the reported result and the session it was produced in. */
  ghost predicate Completes(l: Life, y: Life, r: RunId, state: RunState, result: Option<Label>) {
    && RunCloses(l, y, r, state, result)
    && var j, s := l.runs[r].job, l.runs[r].session;
       && (!state.RunSucceeded? ==> y.transfers == l.transfers && forall c :: c in l.jobs && c != j ==> y.jobs[c] == l.jobs[c])
       && (state.RunSucceeded? ==> forall c :: c in l.jobs && c != j ==> Follows(l, y, c, j, s, result))
  }

  predicate AllDone(l: Life, c: JobId) {
    c in l.jobs && forall d :: d in l.jobs[c].spec.dependencies ==> d in l.jobs && l.jobs[d].state.JobSucceeded?
  }

  /** No other job that may still run consumes the session of `j`. */
  ghost predicate OnlyConsumer(l: Life, j: JobId, c: JobId) {
    forall k :: k in l.jobs && j in l.jobs[k].spec.dependencies && !l.jobs[k].state.JobCancelled? && !l.jobs[k].state.JobFailed? ==> k == c
  }

  lemma OneConsumer(l: Life, j: JobId, c: JobId)
    requires c in l.jobs && l.jobs[c].state.JobPending? && j in l.jobs[c].spec.dependencies
    ensures Consumers(l, j) == 1 <==> OnlyConsumer(l, j, c)
  {
    var all := ConsumerJobs(l, j);
    assert c in all;
    if OnlyConsumer(l, j, c) {
      assert all == {c};
    } else {
      var k :| k in l.jobs && j in l.jobs[k].spec.dependencies && !l.jobs[k].state.JobCancelled? && !l.jobs[k].state.JobFailed? && k != c;
      AtLeastTwo(all, c, k);
    }
  }

  lemma SameConsumer(l: Life, closed: Life, r: RunId, result: Option<Label>, c: JobId)
    requires r in l.runs && l.runs[r].job in l.jobs && RunCloses(l, closed, r, RunSucceeded, result) && l.jobs[l.runs[r].job].state.JobRunning?
    requires forall j :: j in l.jobs && j != l.runs[r].job ==> closed.jobs[j] == l.jobs[j]
    ensures OnlyConsumer(closed, l.runs[r].job, c) <==> OnlyConsumer(l, l.runs[r].job, c)
  {
    forall k | k in l.jobs
      ensures closed.jobs[k].spec == l.jobs[k].spec
      ensures closed.jobs[k].state.JobCancelled? || closed.jobs[k].state.JobFailed? <==> l.jobs[k].state.JobCancelled? || l.jobs[k].state.JobFailed?
    {
    }
  }

  lemma ContinuesBefore(l: Life, closed: Life, y: Life, r: RunId, result: Option<Label>, c: JobId, only: bool, s: SessionId)
    requires r in l.runs && l.runs[r].job in l.jobs && RunCloses(l, closed, r, RunSucceeded, result) && c in l.jobs
    requires closed.branches == l.branches && closed.nextId == l.nextId && closed.sessions.Keys == l.sessions.Keys
    requires forall j :: j in l.jobs && j != l.runs[r].job ==> closed.jobs[j] == l.jobs[j]
    requires ContinuesIn(closed, y, c, only, s)
    ensures ContinuesIn(l, y, c, only, s)
  {
  }

  /** A dependent of the succeeded job `j` leaves `pending` exactly when it has nothing else to wait for, in the session it
      continues in, with the handover of `j` in hand. */
  ghost predicate Follows(l: Life, y: Life, c: JobId, j: JobId, s: SessionId, result: Option<Label>)
    requires c in l.jobs
  {
    && c in y.jobs
    && (if l.jobs[c].state.JobPending? && j in l.jobs[c].spec.dependencies && AllDone(y, c)
        then
          && BecameReady(l.jobs[c], y.jobs[c]) && ContinuesIn(l, y, c, OnlyConsumer(l, j, c), y.jobs[c].session.value)
          && (j, c) in y.transfers && y.transfers[(j, c)] == Handover(j, s, result)
        else y.jobs[c] == l.jobs[c])
  }

  lemma DoneSupplied(x: Life, y: Life, c: JobId)
    requires LifeInv(x) && Extends(x, y) && c in x.jobs && c in y.jobs
    ensures AllDone(y, c) <==> forall d :: d in x.jobs[c].spec.dependencies ==> Supplied(x, d)
  {
    hide LifeInv, ValidJob;
    JobAt(x, c);
    forall d | d in x.jobs[c].spec.dependencies ensures d in y.jobs && (y.jobs[d].state.JobSucceeded? <==> Supplied(x, d)) {
      JobAt(x, d);
    }
  }

  lemma FollowsOne(l: Life, closed: Life, y: Life, c: JobId, r: RunId, result: Option<Label>, only: bool)
    requires RunCloses(l, closed, r, RunSucceeded, result) && LifeInv(closed) && LifeInv(y) && Extends(closed, y)
    requires c in l.jobs && c != l.runs[r].job && closed.jobs[c] == l.jobs[c] && DueServed(closed, y, l.runs[r].job, c, only)
    requires l.jobs[l.runs[r].job].session == Some(l.runs[r].session) && closed.branches == l.branches && closed.nextId == l.nextId && closed.sessions.Keys == l.sessions.Keys
    requires forall j :: j in l.jobs && j != l.runs[r].job ==> closed.jobs[j] == l.jobs[j]
    requires Preparable(closed, l.runs[r].job, c) ==> only == OnlyConsumer(l, l.runs[r].job, c)
    ensures Follows(l, y, c, l.runs[r].job, l.runs[r].session, result)
  {
    hide LifeInv, ValidJob, ContinuesIn, OnlyConsumer;
    var j := l.runs[r].job;
    DoneSupplied(closed, y, c);
    if Preparable(closed, j, c) {
      ContinuesBefore(l, closed, y, r, result, c, only, y.jobs[c].session.value);
    }
    CloseStays(l, closed, y, r, RunSucceeded, result);
    if Preparable(closed, j, c) {
      JobAt(y, c);
      assert HandedOver(y.jobs, y.transfers, j, c);
    }
  }

  /** A completion that is not refused closes its run with exactly what was reported, in every reachable state. */
  lemma CompletionExactly(steps: seq<LifeStep>, r: RunId, state: RunState, result: Option<Label>)
    requires r in Lived(steps).runs && Lived(steps).runs[r].state.RunRunning? && Ends(state)
    requires CompleteRun(Lived(steps), r, state, result).1.None?
    ensures Completes(Lived(steps), CompleteRun(Lived(steps), r, state, result).0, r, state, result)
  {
    hide Lived, LifeInv, LifeAdvances, ClosedRun, RunCloses, Follows, PrepareDependents, Prepared, Extends, JobEnds, ValidJob;
    LivedSound(steps);
    var l := Lived(steps);
    RunAt(l, r);
    JobAt(l, l.runs[r].job);
    CloseShape(l, r, state, result);
    ClosedKeeps(l, r, state, result);
    CompleteKeeps(l, r, state, result);
    var closed, y := ClosedRun(l, r, state, result), CompleteRun(l, r, state, result).0;
    if state.RunSucceeded? {
      DependentsServed(l, closed, y, r, result);
    }
  }

  lemma ClosedSource(l: Life, closed: Life, r: RunId, result: Option<Label>)
    requires RunCloses(l, closed, r, RunSucceeded, result) && l.jobs[l.runs[r].job].session == Some(l.runs[r].session)
    ensures Supplied(closed, l.runs[r].job)
  {
  }

  lemma DependentsServed(l: Life, closed: Life, y: Life, r: RunId, result: Option<Label>)
    requires r in l.runs && l.runs[r].job in l.jobs && RunCloses(l, closed, r, RunSucceeded, result) && LifeInv(closed) && LifeInv(y)
    requires l.jobs[l.runs[r].job].session == Some(l.runs[r].session) && PrepareDependents(closed, l.runs[r].job) == Success(y)
    requires forall j :: j in l.jobs && j != l.runs[r].job ==> closed.jobs[j] == l.jobs[j]
    requires closed.branches == l.branches && closed.nextId == l.nextId && closed.sessions.Keys == l.sessions.Keys && l.jobs[l.runs[r].job].state.JobRunning?
    ensures RunCloses(l, y, r, RunSucceeded, result)
    ensures forall c :: c in l.jobs && c != l.runs[r].job ==> Follows(l, y, c, l.runs[r].job, l.runs[r].session, result)
  {
    hide LifeInv, PrepareAll, Consumers, RunCloses, Follows, Extends, DueServed, Untouched, OnlyConsumer;
    var j := l.runs[r].job;
    ClosedSource(l, closed, r, result);
    Known(closed);
    AllServed(closed, j, closed.order, Consumers(closed, j));
    CloseStays(l, closed, y, r, RunSucceeded, result);
    ClosedKeys(l, closed, r, result);
    forall c | c in l.jobs && c != j ensures Follows(l, y, c, j, l.runs[r].session, result) {
      if Preparable(closed, j, c) {
        OneConsumer(closed, j, c);
        SameConsumer(l, closed, r, result, c);
      }
      FollowsOne(l, closed, y, c, r, result, Consumers(closed, j) == 1);
    }
  }

  lemma ClosedKeys(l: Life, closed: Life, r: RunId, result: Option<Label>)
    requires RunCloses(l, closed, r, RunSucceeded, result)
    ensures closed.jobs.Keys == l.jobs.Keys
  {
  }

  /** A report on a run that is not running changes nothing; one without an end, or on an unknown run, is refused. */
  lemma CompletionOtherwise(l: Life, r: RunId, state: RunState, result: Option<Label>)
    requires state.RunRunning? || state.RunUnknown? || r !in l.runs || !l.runs[r].state.RunRunning?
    ensures var (y, fault) := CompleteRun(l, r, state, result);
            && y == l
            && fault == (if state.RunRunning? || state.RunUnknown? then Some(Unfit) else if r !in l.runs then Some(Missing) else None)
  {
  }

  // ------------------------------------------------------------------------------ runs

  /** The session has both warm-up steps and was opened for work. */
  predicate Opened(s: Session) {
    && s.compact.StepSucceeded? && s.rpaInit.StepSucceeded?
    && (s.state.SessionReady? || s.state.InUse? || s.state.Completed? || s.state.SessionFailed?)
  }

  /** The job is ready, and its session is opened and free. */
  ghost predicate Startable(l: Life, j: JobId) {
    && j in l.jobs && l.jobs[j].state.JobReady? && l.jobs[j].session.Some? && l.jobs[j].session.value in l.sessions
    && Opened(l.sessions[l.jobs[j].session.value])
    && forall r :: r in l.runs && l.runs[r].state.RunRunning? ==> l.runs[r].session != l.jobs[j].session.value
  }

  /** A job starts exactly when it is startable: one more run under a fresh identifier, counted as its next attempt, with
      the job and its session marked; everything else stays. */
  lemma StartExactly(steps: seq<LifeStep>, j: JobId)
    ensures var l := Lived(steps);
            var (y, fault) := StartJob(l, j);
            && (fault.None? <==> Startable(l, j))
            && (fault.Some? ==> y == l && fault.value == if j in l.jobs then Busy else Missing)
            && (fault.None? ==>
                  var job, s := l.jobs[j], l.jobs[j].session.value;
                  && l.nextId !in l.runs
                  && y == l.(runs := l.runs[l.nextId := NativeRun(j, s, job.attempts + 1, RunRunning)],
                             jobs := l.jobs[j := job.(state := JobRunning, attempts := job.attempts + 1, activeRun := Some(l.nextId))],
                             sessions := l.sessions[s := l.sessions[s].(state := InUse, activeJob := Some(j))], nextId := l.nextId + 1))
  {
    hide Lived, LifeInv, ValidJob, Prepared, Halted;
    LivedSound(steps);
    var l := Lived(steps);
    KnownRuns(l);
    if j in l.jobs {
      JobAt(l, j);
      if l.jobs[j].session.Some? {
        SessionAt(l, l.jobs[j].session.value);
        FreeExactly(l, l.jobs[j].session.value);
      }
    }
    hide Active;
  }

  lemma FreeExactly(l: Life, s: SessionId)
    ensures Active(l, s) <==> exists r :: r in l.runs && l.runs[r].state.RunRunning? && l.runs[r].session == s
  {
    if r :| r in l.runs && l.runs[r].state.RunRunning? && l.runs[r].session == s {
      assert InUseBy(l, s, r);
    }
    if Active(l, s) {
      var r :| r in l.runs && InUseBy(l, s, r);
      assert l.runs[r].state.RunRunning? && l.runs[r].session == s;
    }
  }

  /** A job is queued again exactly when it failed for certain, may be replayed, and its session is not with the
      operator; nothing but its state changes. */
  lemma RetryExactly(steps: seq<LifeStep>, j: JobId)
    ensures var l := Lived(steps);
            var (y, fault) := RetryJob(l, j);
            && (fault.None? <==>
                  && j in l.jobs && l.jobs[j].state.JobFailed? && l.jobs[j].spec.replaySafe
                  && l.jobs[j].session.Some? && l.jobs[j].session.value in l.sessions && !l.sessions[l.jobs[j].session.value].state.Recovering?)
            && (fault.Some? ==> y == l)
            && (fault.None? ==> y == l.(jobs := l.jobs[j := l.jobs[j].(state := JobReady)]))
  {
    hide Lived;
  }

  // -------------------------------------------------------------------------- warm-ups

  /** Remote preparation is adopted only by a new session, which is then ready; a ready one stays as it is. */
  lemma AdoptExactly(steps: seq<LifeStep>, s: SessionId)
    ensures var l := Lived(steps);
            var (y, fault) := AdoptPrepared(l, s);
            && (fault.None? <==> s in l.sessions && (l.sessions[s].state.New? || l.sessions[s].state.SessionReady?))
            && (fault.Some? ==> y == l)
            && (fault.None? && l.sessions[s].state.SessionReady? ==> y == l)
            && (fault.None? && l.sessions[s].state.New? ==>
                  y == l.(sessions := l.sessions[s := l.sessions[s].(state := SessionReady, compact := StepSucceeded, rpaInit := StepSucceeded,
                                                                     warmupStep := None)]))
  {
    hide Lived, LifeInv, Halted;
    LivedSound(steps);
    if s in Lived(steps).sessions {
      SessionAt(Lived(steps), s);
    }
  }

  /** The steps that a session still lacks, in their order. */
  predicate Lacks(s: Session, steps: seq<WarmupCommand>) {
    && (s.compact.StepSucceeded? && s.rpaInit.StepSucceeded? ==> steps == [])
    && (s.compact.StepSucceeded? && !s.rpaInit.StepSucceeded? ==> steps == [RpaInit])
    && (!s.compact.StepSucceeded? && s.rpaInit.StepSucceeded? ==> steps == [Compact])
    && (!s.compact.StepSucceeded? && !s.rpaInit.StepSucceeded? ==> steps == [Compact, RpaInit])
  }

  /** A warm-up is claimed exactly for a new session, which it marks, or a ready one, which it leaves alone; it has the
      steps before it that the session lacks. */
  lemma ClaimExactly(steps: seq<LifeStep>, s: SessionId)
    ensures var l := Lived(steps);
            var (y, fault) := ClaimWarmup(l, s);
            && (fault.None? <==> s in l.sessions && (l.sessions[s].state.New? || l.sessions[s].state.SessionReady?))
            && (fault.Some? ==> y == l)
            && (fault.None? ==>
                  && l.nextId in y.warmers && y.warmers == l.warmers[l.nextId := y.warmers[l.nextId]] && y.nextId == l.nextId + 1
                  && y.warmers[l.nextId].session == s && !y.warmers[l.nextId].executing && Lacks(l.sessions[s], y.warmers[l.nextId].steps)
                  && y == l.(sessions := y.sessions, warmers := y.warmers, nextId := y.nextId)
                  && y.sessions == (if l.sessions[s].state.New? then l.sessions[s := l.sessions[s].(state := Warming, warmupStep := Some(Compact))]
                                    else l.sessions))
  {
    hide Lived, LifeInv, Halted;
    LivedSound(steps);
    if s in Lived(steps).sessions {
      SessionAt(Lived(steps), s);
    }
  }

  /** A stopped warm-up is opened again exactly from the step it stopped at; an uncertain one needs the operator's word. */
  lemma RewarmExactly(l: Life, s: SessionId, confirmed: bool)
    ensures var (y, fault) := RetryWarmup(l, s, confirmed);
            && (fault.None? <==>
                  && s in l.sessions && l.sessions[s].warmupStep.Some?
                  && (l.sessions[s].state.SessionFailed? || (l.sessions[s].state.Recovering? && confirmed)))
            && (fault.Some? ==> y == l)
            && (fault.None? ==>
                  && s in y.sessions && y == l.(sessions := l.sessions[s := y.sessions[s]])
                  && y.sessions[s] == l.sessions[s].(state := New, compact := y.sessions[s].compact, rpaInit := y.sessions[s].rpaInit)
                  && y.sessions[s].compact == (if l.sessions[s].warmupStep == Some(Compact) then StepPending else l.sessions[s].compact)
                  && y.sessions[s].rpaInit == (if l.sessions[s].warmupStep == Some(RpaInit) then StepPending else l.sessions[s].rpaInit))
  {
  }

  /** One command of a warm-up under way: marked running before it is sent; then its outcome is recorded.  Only a command
      that finished is counted as succeeded and leaves the rest to do; a confirmed failure or a missed deadline fails
      the session, and an uncertain outcome leaves it to the operator. */
  lemma CommandExactly(l: Life, w: WarmerId, outcome: StepOutcome)
    requires LifeInv(l) && w in l.warmers && l.warmers[w].steps != []
    ensures var s, c := l.warmers[w].session, l.warmers[w].steps[0];
            && s in l.sessions
            && (!l.warmers[w].executing ==>
                  && BeginStep(l, w) == l.(sessions := l.sessions[s := Marked(l.sessions[s], c, StepRunning)],
                                           warmers := l.warmers[w := l.warmers[w].(executing := true)])
                  && ExpireWarmer(l, w) == l.(sessions := l.sessions[s := l.sessions[s].(state := SessionFailed)], warmers := l.warmers - {w})
                  && EndStep(l, w, outcome) == l)
            && (l.warmers[w].executing ==>
                  && BeginStep(l, w) == l && ExpireWarmer(l, w) == l
                  && EndStep(l, w, outcome) ==
                     match outcome
                     case Finished => l.(sessions := l.sessions[s := Marked(l.sessions[s], c, StepSucceeded)],
                                         warmers := l.warmers[w := Warmer(s, l.warmers[w].steps[1..], false)])
                     case ConfirmedFailure => l.(sessions := l.sessions[s := l.sessions[s].(state := SessionFailed)], warmers := l.warmers - {w})
                     case Uncertain => l.(sessions := l.sessions[s := l.sessions[s].(state := Recovering)], warmers := l.warmers - {w}))
  {
    hide LifeInv, Halted;
    WarmerAt(l, w);
  }

  /** The step's column and the step under way. */
  function Marked(s: Session, c: WarmupCommand, status: StepStatus): Session {
    match c
    case Compact => s.(compact := status, warmupStep := Some(Compact))
    case RpaInit => s.(rpaInit := status, warmupStep := Some(RpaInit))
  }

  /** A warm-up with nothing left to do opens its session, and is over. */
  lemma ClosesExactly(l: Life, w: WarmerId)
    requires LifeInv(l) && w in l.warmers && l.warmers[w].steps == []
    ensures var s := l.warmers[w].session;
            && s in l.sessions
            && FinishWarmer(l, w) == l.(sessions := l.sessions[s := l.sessions[s].(state := SessionReady, warmupStep := None)], warmers := l.warmers - {w})
  {
    hide LifeInv, Halted;
    WarmerAt(l, w);
  }

  // ----------------------------------------------------------------- sessions and jobs

  predicate BrandNew(row: Session, profile: Label, permission: Permission, parent: Option<SessionId>) {
    && row.state.New? && row.compact.StepPending? && row.rpaInit.StepPending? && row.warmupStep.None? && row.activeJob.None?
    && row.profile == profile && row.permission == permission && row.parent == parent
  }

  /** A session is created once; a known one must have the same profile, and takes over the permission mode.  A mode that
      bypasses permissions must have been inherited. */
  lemma EnsureExactly(l: Life, s: SessionId, profile: Label, permission: Permission, inherited: bool)
    ensures var (y, fault) := EnsureSession(l, s, profile, permission, inherited);
            && (fault == Some(Unfit) <==> permission.bypass && !inherited)
            && (fault == Some(Clash) <==> (permission.bypass ==> inherited) && s in l.sessions && l.sessions[s].profile != profile)
            && (fault.Some? ==> y == l)
            && (fault.None? ==> s in y.sessions && y == l.(sessions := l.sessions[s := y.sessions[s]], nextId := y.nextId))
            && (fault.None? && s in l.sessions ==> y.sessions[s] == l.sessions[s].(permission := permission) && y.nextId == l.nextId)
            && (fault.None? && s !in l.sessions ==> BrandNew(y.sessions[s], profile, permission, None) && y.nextId > s && y.nextId >= l.nextId)
  {
  }

  /** A session branches once for each job, and a bypassing one only into branches it already has. */
  lemma BranchExactly(l: Life, parent: SessionId, job: JobId)
    ensures var (y, fault) := BranchSession(l, parent, job);
            && (fault == Some(Missing) <==> parent !in l.sessions)
            && (fault == Some(Unfit) <==> parent in l.sessions && (parent, job) !in l.branches && l.sessions[parent].permission.bypass)
            && (fault.Some? ==> y == l)
            && (fault.None? && (parent, job) in l.branches ==> y == l)
            && (fault.None? && (parent, job) !in l.branches ==>
                  && l.nextId in y.sessions && BrandNew(y.sessions[l.nextId], l.sessions[parent].profile, l.sessions[parent].permission, Some(parent))
                  && y == l.(sessions := l.sessions[l.nextId := y.sessions[l.nextId]], branches := l.branches[(parent, job) := l.nextId],
                             nextId := l.nextId + 1))
  {
  }

  /** Why a job cannot be registered. */
  predicate Unregistrable(l: Life, spec: JobSpec, fault: Fault) {
    var orderly := spec.sound && forall i, k :: 0 <= i < k < |spec.dependencies| ==> spec.dependencies[i] < spec.dependencies[k];
    || (!orderly && fault == Unfit)
    || (orderly && spec.id in l.jobs && l.jobs[spec.id].spec != spec && fault == Clash)
    || (orderly && spec.id !in l.jobs && (exists d :: d in spec.dependencies && d !in l.jobs) && fault == Unfit)
    || (orderly && spec.id !in l.jobs && (forall d :: d in spec.dependencies ==> d in l.jobs)
        && spec.session.Some? && spec.session.value !in l.sessions && fault == Missing)
  }

  /** A job is registered once, behind the jobs it depends on: ready if there are none, in the session it names, or in a new
      one that asks for every permission if it names none and depends on nothing. */
  lemma RegisterExactly(l: Life, spec: JobSpec)
    ensures var (y, fault) := RegisterJob(l, spec);
            && (forall f :: fault == Some(f) <==> Unregistrable(l, spec, f))
            && (fault.Some? ==> y == l)
            && (fault.None? && spec.id in l.jobs ==> y == l)
            && (fault.None? && spec.id !in l.jobs ==>
                  var rooted := spec.session.None? && spec.dependencies == [];
                  && spec.id in y.jobs && y.jobs == l.jobs[spec.id := y.jobs[spec.id]] && y.order == l.order + [spec.id]
                  && y.jobs[spec.id] == Job(spec, y.jobs[spec.id].session, if spec.dependencies == [] then JobReady else JobPending, 0, None, None)
                  && y == l.(jobs := y.jobs, order := y.order, sessions := y.sessions, nextId := y.nextId)
                  && (!rooted ==> y.jobs[spec.id].session == spec.session && y.sessions == l.sessions && y.nextId == l.nextId)
                  && (rooted ==>
                        && y.jobs[spec.id].session == Some(l.nextId) && y.nextId == l.nextId + 1 && l.nextId in y.sessions
                        && BrandNew(y.sessions[l.nextId], spec.profile, Permission(0, false), None)
                        && y.sessions == l.sessions[l.nextId := y.sessions[l.nextId]]))
  {
    assert ValidJob(spec) <==> spec.sound && forall i, k :: 0 <= i < k < |spec.dependencies| ==> spec.dependencies[i] < spec.dependencies[k];
    hide ValidJob;
  }

  // -------------------------------------------------------------------------- recovery

  /** After a restart, a session that no run was using is uncertain exactly if a command of its warm-up was under way,
      and otherwise as it was; so is every job and run that was not running. */
  lemma RestartKeepsTheRest(steps: seq<LifeStep>)
    ensures var l, y := Lived(steps), Recover(Lived(steps));
            && y.sessions.Keys == l.sessions.Keys && y.jobs.Keys == l.jobs.Keys && y.runs.Keys == l.runs.Keys
            && y.branches == l.branches && y.transfers == l.transfers && y.order == l.order && y.nextId == l.nextId
            && (forall s :: s in l.sessions && l.sessions[s].activeJob.None? ==>
                  y.sessions[s] == if l.sessions[s].state.Warming? && (l.sessions[s].compact.StepRunning? || l.sessions[s].rpaInit.StepRunning?)
                                   then l.sessions[s].(state := Recovering) else l.sessions[s])
            && (forall j :: j in l.jobs && !l.jobs[j].state.JobRunning? ==> y.jobs[j] == l.jobs[j])
            && (forall j :: j in l.jobs && l.jobs[j].state.JobRunning? ==> y.jobs[j] == l.jobs[j].(state := NeedsOperator, activeRun := None))
            && (forall r :: r in l.runs && !l.runs[r].state.RunRunning? ==> y.runs[r] == l.runs[r])
  {
    hide Lived, LifeInv, Active, Interrupted;
    LivedSound(steps);
    var l := Lived(steps);
    forall s | s in l.sessions && l.sessions[s].activeJob.None?
      ensures Recover(l).sessions[s] == if l.sessions[s].state.Warming? && (l.sessions[s].compact.StepRunning? || l.sessions[s].rpaInit.StepRunning?)
                                        then l.sessions[s].(state := Recovering) else l.sessions[s]
    {
      ActiveAgrees(l, s);
      SessionAt(l, s);
      LostExactly(l.sessions[s]);
    }
    forall j | j in l.jobs ensures Interrupted(l, j) <==> l.jobs[j].state.JobRunning? {
      InterruptedExactly(l, j);
    }
  }

  lemma LostExactly(s: Session)
    requires SessionSound(s)
    ensures RecoveredSession(s, false) == if s.state.Warming? && (s.compact.StepRunning? || s.rpaInit.StepRunning?) then s.(state := Recovering) else s
  {
    if s.state.Warming? {
      assert s.warmupStep.value == Compact || s.warmupStep.value == RpaInit;
    }
  }

  lemma InterruptedExactly(l: Life, j: JobId)
    requires LifeInv(l) && j in l.jobs
    ensures Interrupted(l, j) <==> l.jobs[j].state.JobRunning?
  {
    hide LifeInv, ValidJob;
    JobAt(l, j);
    if Interrupted(l, j) {
      var r :| r in l.runs && l.runs[r].job == j && l.runs[r].state.RunRunning?;
      RunAt(l, r);
    }
    if l.jobs[j].activeRun.Some? {
      ActiveRunAt(l, j);
    }
  }
}
