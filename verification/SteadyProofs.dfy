/** What the manager's and the workflow's transactions leave alone: commands, artifacts,
    reported usage, and every success but the one a commit decides. */
module SteadyProofs {
  import opened Types
  import opened StoreOps
  import opened WorkflowOps
  import opened ManagerOps
  import opened Invariant
  import opened SettleProofs
  import opened ScheduleProofs
  import opened RetireProofs

  /** The worker the round-robin cursor stands on before placement `i`. */
  function Before(ps: seq<Placement>, i: nat): WorkerId
    requires i <= |ps|
  {
    if i == 0 then 0 else ps[i - 1].worker
  }

  predicate Fair(ps: seq<Placement>, i: nat)
    requires i < |ps|
  {
    && ps[i].feasible != [] && ps[i].worker == Pick(Before(ps, i), ps[i].feasible)
    && forall j, k :: 0 <= j < k < |ps[i].feasible| ==> ps[i].feasible[j] < ps[i].feasible[k]
  }

  /** Every placement was the round-robin choice among the workers feasible for it. */
  ghost predicate Rotation(ps: seq<Placement>, last: WorkerId) {
    && (forall i :: 0 <= i < |ps| ==> Fair(ps, i))
    && last == Before(ps, |ps|)
  }

  predicate KnownUsage(x: map<AttemptId, Attempt>, y: map<AttemptId, Attempt>) {
    forall a :: a in y ==> y[a].knownTokens == if a in x then x[a].knownTokens else 0
  }

  /** Only `decided` may have become Succeeded. */
  predicate Successes(x: map<TaskId, Task>, y: map<TaskId, Task>, decided: Option<TaskId>) {
    forall t :: t in y && y[t].status.Succeeded? && decided != Some(t) ==> t in x && x[t].status.Succeeded?
  }

  ghost predicate Steady(x: Db, y: Db, decided: Option<TaskId>) {
    && y.commands == x.commands && y.intents == x.intents && y.files == x.files && y.clock == x.clock
    && y.roots.Keys == x.roots.Keys
    && KnownUsage(x.attempts, y.attempts)
    && Successes(x.tasks, y.tasks, decided)
    && (Rotation(x.placements, x.lastWorker) ==> Rotation(y.placements, y.lastWorker))
  }

  lemma SteadyReflexive(x: Db)
    ensures Steady(x, x, None)
  {
  }

  lemma SteadyCompose(x: Db, y: Db, z: Db, decided: Option<TaskId>)
    requires Steady(x, y, None) && Steady(y, z, decided)
    requires forall a :: a in x.attempts && a !in y.attempts ==> a !in z.attempts
    ensures Steady(x, z, decided)
  {
    hide Rotation;
  }

  lemma SteadyAfter(x: Db, y: Db, z: Db, decided: Option<TaskId>)
    requires Steady(x, y, decided) && Steady(y, z, None)
    requires forall t :: decided == Some(t) ==> (t in z.tasks ==> t in y.tasks)
    requires forall a :: a in x.attempts && a !in y.attempts ==> a !in z.attempts
    ensures Steady(x, z, decided)
  {
    hide Rotation;
  }

  /** No attempt row disappears. */
  predicate KeepsAttempts(x: Db, y: Db) {
    x.attempts.Keys <= y.attempts.Keys
  }

  // -------------------------------------------------------------- reconciliation

  lemma EnforceDeadlineSteady(db: Db, t: TaskId)
    requires t in db.tasks
    ensures Steady(db, EnforceDeadline(db, t), None) && KeepsAttempts(db, EnforceDeadline(db, t))
  {
    hide Rotation, SucceededInTime;
  }

  lemma PairSteady(db: Db, db1: Db, t: TaskId, row: Task, a: AttemptId, arow: Attempt, decided: Option<TaskId>)
    requires t in db.tasks && a in db.attempts && arow.knownTokens == db.attempts[a].knownTokens
    requires row.status.Succeeded? ==> decided == Some(t) || db.tasks[t].status.Succeeded?
    requires db1 == db.(tasks := db.tasks[t := row], attempts := db.attempts[a := arow], roots := db1.roots, events := db1.events)
    requires db1.roots.Keys == db.roots.Keys
    ensures Steady(db, db1, decided) && KeepsAttempts(db, db1)
  {
    hide Rotation;
  }

  lemma ProbeSteady(db: Db, cfg: Config, env: Env, t: TaskId)
    requires Settleable(db, t)
    ensures Steady(db, Probe(db, cfg, env, t), None) && KeepsAttempts(db, Probe(db, cfg, env, t))
  {
    hide Steady, WorkerLostNow;
    var a := db.tasks[t].current.value;
    var db1 := Probe(db, cfg, env, t);
    PairSteady(db, db1, t, db1.tasks[t], a, db1.attempts[a], None);
  }

  lemma SettledUsageSame(task: Task, row: Attempt, accepted: bool, executed: nat, now: Time)
    ensures var (task', row') := SettledRows(task, row, accepted, executed, now);
            row'.knownTokens == row.knownTokens && (task'.status.Succeeded? ==> accepted || task.status.Succeeded?)
  {
  }

  lemma SettleSteady(db: Db, t: TaskId, accepted: bool)
    requires Settleable(db, t)
    ensures Steady(db, Settle(db, t, accepted), if accepted then Some(t) else None) && KeepsAttempts(db, Settle(db, t, accepted))
  {
    var a := db.tasks[t].current.value;
    hide Steady, SettledRows, Executions, RecordUsage;
    SettledUsageSame(db.tasks[t], db.attempts[a], accepted, Executions(db.attempts, t), db.clock);
    var db1 := Settle(db, t, accepted);
    PairSteady(db, db1, t, db1.tasks[t], a, db1.attempts[a], if accepted then Some(t) else None);
  }

  lemma EndSteady(db: Db, t: TaskId, row: Task, events: seq<Event>)
    requires t in db.tasks && !row.status.Succeeded?
    ensures Steady(db, db.(tasks := db.tasks[t := row], events := events), None)
  {
    hide Rotation;
  }

  lemma ReconcileSteady(cfg: Config, db: Db, env: Env, t: TaskId)
    ensures Steady(db, Reconcile(db, cfg, env, t).0, None) && KeepsAttempts(db, Reconcile(db, cfg, env, t).0)
  {
    hide EnforceDeadline, Probe, Settle, Steady, ProbedRow, WorkerLostNow;
    SteadyReflexive(db);
    if t in db.tasks {
      var db1 := EnforceDeadline(db, t);
      EnforceDeadlineSteady(db, t);
      EnforceDeadlineFrame(db, t);
      var task := db1.tasks[t];
      if task.status.Pending? {
        if task.desired.Cancel? {
          var done := Log(db1.(tasks := db1.tasks[t := FinishCancelled(task, db.clock)]), t, TaskFinished);
          EndSteady(db1, t, FinishCancelled(task, db.clock), done.events);
          SteadyCompose(db, db1, done, None);
        }
      } else if Settleable(db1, t) {
        var db2 := Probe(db1, cfg, env, t);
        ProbeSteady(db1, cfg, env, t);
        SteadyCompose(db, db1, db2, None);
        ProbeSettleable(db1, cfg, env, t);
        SettleSteady(db2, t, false);
        SteadyCompose(db, db2, Settle(db2, t, false), None);
      }
    }
  }

  lemma ProbeSettleable(db: Db, cfg: Config, env: Env, t: TaskId)
    requires Settleable(db, t)
    ensures Settleable(Probe(db, cfg, env, t), t)
    ensures Probe(db, cfg, env, t).tasks[t].current == db.tasks[t].current
  {
    hide ProbedRow, WorkerLostNow;
  }

  lemma {:induction false} ReconcileAllSteady(cfg: Config, db: Db, env: Env, ids: seq<TaskId>)
    ensures Steady(db, ReconcileAll(db, cfg, env, ids).0, None) && KeepsAttempts(db, ReconcileAll(db, cfg, env, ids).0)
  {
    hide Reconcile, Steady;
    if ids == [] {
      SteadyReflexive(db);
    } else {
      var n := |ids| - 1;
      var db1 := ReconcileAll(db, cfg, env, ids[..n]).0;
      ReconcileAllSteady(cfg, db, env, ids[..n]);
      ReconcileSteady(cfg, db1, env, ids[n]);
      SteadyCompose(db, db1, Reconcile(db1, cfg, env, ids[n]).0, None);
    }
  }

  // ------------------------------------------------------------------ scheduling

  lemma RefuseSteady(db: Db, c: Child, s: TaskId)
    ensures Steady(db, RefuseDependency(db, c, s), None)
    ensures RefuseDependency(db, c, s).attempts == db.attempts && RefuseDependency(db, c, s).placements == db.placements
    ensures RefuseDependency(db, c, s).lastWorker == db.lastWorker
  {
    hide Rotation;
  }

  lemma {:induction false} DeliverFromSteady(db: Db, c: Child, keys: seq<Label>, sound: set<TaskId>)
    ensures Steady(db, DeliverFrom(db, c, keys, sound).0, None)
    ensures DeliverFrom(db, c, keys, sound).0.attempts == db.attempts && DeliverFrom(db, c, keys, sound).0.placements == db.placements
    ensures DeliverFrom(db, c, keys, sound).0.lastWorker == db.lastWorker
    decreases |keys|
  {
    hide RefuseDependency, Terminal, Steady;
    SteadyReflexive(db);
    if keys != [] {
      var source := SourceChild(db.children, c.root, keys[0], c.revision);
      RefuseSteady(db, c, c.task);
      if source.Some? {
        var db1 := Send(db, source.value.task, c.task);
        RefuseSteady(db, c, source.value.task);
        SendSteady(db, source.value.task, c.task);
        DeliverFromSteady(db1, c, keys[1..], sound);
        SteadyCompose(db, db1, DeliverFrom(db1, c, keys[1..], sound).0, None);
      }
    }
  }

  lemma SendSteady(db: Db, s: TaskId, t: TaskId)
    ensures Steady(db, Send(db, s, t), None) && Send(db, s, t).attempts == db.attempts
    ensures Send(db, s, t).placements == db.placements && Send(db, s, t).lastWorker == db.lastWorker
  {
    hide Rotation;
  }

  lemma DeliverSteady(db: Db, t: TaskId, sound: set<TaskId>)
    ensures Steady(db, Deliver(db, t, sound).0, None)
    ensures Deliver(db, t, sound).0.attempts == db.attempts && Deliver(db, t, sound).0.placements == db.placements
    ensures Deliver(db, t, sound).0.lastWorker == db.lastWorker
  {
    hide DeliverFrom, Steady;
    SteadyReflexive(db);
    var c := LatestChild(db.children, t);
    if c.Some? {
      var db1 := DeliverFrom(db, c.value, c.value.dependencies, sound).0;
      DeliverFromSteady(db, c.value, c.value.dependencies, sound);
      LogSteady(db1, t, DependenciesDelivered);
      SteadyCompose(db, db1, Log(db1, t, DependenciesDelivered), None);
    }
  }

  lemma LogSteady(db: Db, t: TaskId, kind: EventKind)
    ensures Steady(db, Log(db, t, kind), None)
  {
    hide Rotation;
  }

  lemma RowSteady(db: Db, db1: Db, t: TaskId, row: Task)
    requires t in db.tasks && !row.status.Succeeded?
    requires db1 == db.(tasks := db.tasks[t := row], events := db1.events)
    ensures Steady(db, db1, None)
  {
    hide Rotation;
  }

  lemma ClaimSteady(db: Db, t: TaskId)
    ensures Steady(db, ClaimAttempt(db, t).0, None) && ClaimAttempt(db, t).0.attempts == db.attempts
    ensures ClaimAttempt(db, t).0.placements == db.placements && ClaimAttempt(db, t).0.lastWorker == db.lastWorker
  {
    hide Steady, Exhausted;
    var (db1, claimed) := ClaimAttempt(db, t);
    SteadyReflexive(db);
    if claimed {
      OnlyRoots(db, db1.roots);
    } else if t in db.tasks && db.tasks[t].status.Pending? {
      RowSteady(db, db1, t, db1.tasks[t]);
    } else {
      LogSteady(db, t, TaskFinished);
    }
  }

  lemma OnlyRoots(db: Db, roots: map<TaskId, Root>)
    requires roots.Keys == db.roots.Keys
    ensures Steady(db, db.(roots := roots), None)
  {
    hide Rotation;
  }

  lemma RotationMore(ps: seq<Placement>, last: WorkerId, feasible: seq<WorkerId>)
    requires Rotation(ps, last) && feasible != []
    requires forall j, k :: 0 <= j < k < |feasible| ==> feasible[j] < feasible[k]
    ensures Rotation(ps + [Placement(Pick(last, feasible), feasible)], Pick(last, feasible))
  {
    var qs := ps + [Placement(Pick(last, feasible), feasible)];
    forall i | 0 <= i < |qs| ensures Fair(qs, i) {
      if i < |ps| {
        assert Fair(ps, i);
      }
    }
  }

  lemma PlaceSteady(db: Db, t: TaskId, feasible: seq<WorkerId>)
    requires t in db.tasks && feasible != [] && db.nextId !in db.attempts
    requires forall j, k :: 0 <= j < k < |feasible| ==> feasible[j] < feasible[k]
    ensures var db1 := Place(db, t, Pick(db.lastWorker, feasible), feasible); Steady(db, db1, None) && KeepsAttempts(db, db1)
  {
    hide Rotation, AttemptsOf, Pick;
    if Rotation(db.placements, db.lastWorker) {
      RotationMore(db.placements, db.lastWorker, feasible);
    }
  }

  lemma ScheduleOneSteady(cfg: Config, db: Db, env: Env, t: TaskId)
    requires db.nextId !in db.attempts
    ensures Steady(db, ScheduleOne(db, cfg, env, t), None) && KeepsAttempts(db, ScheduleOne(db, cfg, env, t))
  {
    hide Steady, Deliver, ClaimAttempt, Place, Pick, FeasibleWorkers;
    SteadyReflexive(db);
    if t in db.tasks && FeasibleWorkers(db, cfg, db.tasks[t].spec) != [] {
      var feasible := FeasibleWorkers(db, cfg, db.tasks[t].spec);
      var db1 := Deliver(db, t, env.sound).0;
      DeliverSteady(db, t, env.sound);
      var (db2, claimed) := ClaimAttempt(db1, t);
      ClaimSteady(db1, t);
      SteadyCompose(db, db1, db2, None);
      if claimed && t in db2.tasks {
        FeasibleSorted(db, cfg, db.tasks[t].spec);
        FrameSupply(db, t, env.sound);
        PlaceSteady(db2, t, feasible);
        SteadyCompose(db, db2, Place(db2, t, Pick(db2.lastWorker, feasible), feasible), None);
      }
    }
  }

  lemma FrameSupply(db: Db, t: TaskId, sound: set<TaskId>)
    ensures ClaimAttempt(Deliver(db, t, sound).0, t).0.nextId == db.nextId
  {
    hide Deliver, ClaimAttempt;
    DeliverLocal(db, t, sound);
    ClaimFrame(Deliver(db, t, sound).0, t);
  }

  lemma FeasibleSorted(db: Db, cfg: Config, spec: Spec)
    ensures var ws := FeasibleWorkers(db, cfg, spec); forall j, k :: 0 <= j < k < |ws| ==> ws[j] < ws[k]
  {
    AscendingSorted((set w | w in db.workers && Feasible(db, cfg, spec, w)));
  }

  // ------------------------------------------------------------------------ plans

  lemma RetireSteady(db: Db, t: TaskId)
    requires t in db.tasks
    ensures Steady(db, Retire(db, t), None) && KeepsAttempts(db, Retire(db, t))
  {
    hide Rotation;
  }

  lemma {:induction false} RetireAllSteady(db: Db, ids: seq<TaskId>)
    requires forall t :: t in ids ==> t in db.tasks
    ensures Steady(db, RetireAll(db, ids), None) && KeepsAttempts(db, RetireAll(db, ids))
  {
    hide Retire, Steady;
    if ids == [] {
      SteadyReflexive(db);
    } else {
      var n := |ids| - 1;
      RetireAllSteady(db, ids[..n]);
      RetireSteady(RetireAll(db, ids[..n]), ids[n]);
      SteadyCompose(db, RetireAll(db, ids[..n]), RetireAll(db, ids), None);
    }
  }

  lemma InsertTaskSteady(db: Db, spec: Spec)
    ensures Steady(db, InsertTask(db, spec), None) && InsertTask(db, spec).attempts == db.attempts
  {
    hide Rotation;
  }

  lemma AddRowSteady(db: Db, row: Child)
    ensures Steady(db, AddRow(db, row), None) && AddRow(db, row).attempts == db.attempts
  {
    hide Rotation;
  }

  lemma InsertChildSteady(db: Db, r: TaskId, revision: nat, index: nat, p: Prepared)
    ensures Steady(db, InsertChild(db, r, revision, index, p).0, None)
    ensures InsertChild(db, r, revision, index, p).0.attempts == db.attempts
  {
    hide Steady, InsertTask, AddRow;
    if p.carried.Some? {
      AddRowSteady(db, Child(r, revision, index, p.child.id, p.carried.value.task, p.child.dependencies, p.child.delivery, true));
    } else {
      var row := Child(r, revision, index, p.child.id, db.nextId, p.child.dependencies, p.child.delivery, false);
      var db1 := InsertTask(db, p.spec);
      InsertTaskSteady(db, p.spec);
      AddRowSteady(db1, row);
      SteadyCompose(db, db1, AddRow(db1, row), None);
    }
  }

  lemma {:induction false} InsertChildrenSteady(db: Db, r: TaskId, revision: nat, ps: seq<Prepared>)
    ensures Steady(db, InsertChildren(db, r, revision, ps).0, None)
    ensures InsertChildren(db, r, revision, ps).0.attempts == db.attempts
  {
    hide InsertChild, Steady;
    if ps == [] {
      SteadyReflexive(db);
    } else {
      var n := |ps| - 1;
      var db1 := InsertChildren(db, r, revision, ps[..n]).0;
      InsertChildrenSteady(db, r, revision, ps[..n]);
      InsertChildSteady(db1, r, revision, n, ps[n]);
      SteadyCompose(db, db1, InsertChild(db1, r, revision, n, ps[n]).0, None);
    }
  }

  lemma RootsSteady(db: Db, roots: map<TaskId, Root>, t: TaskId, kind: EventKind)
    requires roots.Keys == db.roots.Keys
    ensures Steady(db, Log(db.(roots := roots), t, kind), None)
  {
    hide Rotation;
  }

  lemma AcceptSteady(db: Db, r: TaskId, doc: PlanDoc, replan: bool, ps: seq<Prepared>)
    requires r in db.roots
    ensures Steady(db, AcceptPlan(db, r, doc, replan, ps).0, None) && KeepsAttempts(db, AcceptPlan(db, r, doc, replan, ps).0)
  {
    hide RetireAll, InsertChildren, Steady, OpenChildren;
    var ids := if replan then OpenChildren(db, r) else [];
    assert forall t :: t in ids ==> t in db.tasks by { OpenInTasks(db, r); }
    var x := RetireAll(db, ids);
    RetireAllSteady(db, ids);
    var f := InsertChildren(x, r, |db.roots[r].plans| + 1, ps).0;
    InsertChildrenSteady(x, r, |db.roots[r].plans| + 1, ps);
    SteadyCompose(db, x, f, None);
    var y := AcceptPlan(db, r, doc, replan, ps).0;
    SteadyRoots(db, f);
    RootsSteady(f, y.roots, r, PlanAccepted);
    SteadyCompose(db, f, y, None);
  }

  lemma SteadyRoots(x: Db, y: Db)
    requires Steady(x, y, None)
    ensures y.roots.Keys == x.roots.Keys
  {
    hide Rotation, KnownUsage, Successes;
  }

  lemma OpenInTasks(db: Db, r: TaskId)
    ensures forall t :: t in OpenChildren(db, r) ==> t in db.tasks
  {
  }

  lemma SettlePlanSteady(db: Db, r: TaskId, doc: PlanDoc, replan: bool)
    requires r in db.roots
    ensures Steady(db, SettlePlan(db, r, doc, replan).0, None) && KeepsAttempts(db, SettlePlan(db, r, doc, replan).0)
  {
    hide AcceptPlan, PreparePlan, Steady;
    LogSteady(db, r, PlanIgnored);
    if !(!replan && db.roots[r].planRevision > 0) {
      var ps := PreparePlan(db, r, doc, replan);
      if ps.None? {
        RootsSteady(db, RecordRejected(db, r, doc).roots, r, PlanRejected);
      } else {
        AcceptSteady(db, r, doc, replan, ps.value);
      }
    }
  }
}
