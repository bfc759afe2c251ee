/** Every commit point of retention keeps the invariant, whatever runs between phases. */
module RetainProofs {
  import opened Types
  import opened Sums
  import opened StoreOps
  import opened WorkflowOps
  import opened Invariant
  import opened PairProofs
  import opened TaskProofs
  import opened StoreProofs
  import opened SettleProofs
  import opened ScheduleProofs
  import opened RevisionProofs

  // -------------------------------------------------------------------- marking

  lemma MarkOutcomes(tasks: map<TaskId, Task>, attempts: map<AttemptId, Attempt>, x: map<TaskId, Intent>, y: map<TaskId, Intent>)
    requires Outcomes(tasks, attempts, x) && Accounted(tasks, attempts, x)
    requires forall t :: t in tasks ==> (Whole(y, t) ==> Whole(x, t)) && (Whole(x, t) ==> Whole(y, t))
    ensures Outcomes(tasks, attempts, y) && Accounted(tasks, attempts, y)
  {
    hide Whole;
    forall t | t in tasks ensures Explained(tasks[t], t, attempts, y) {
      assert Explained(tasks[t], t, attempts, x);
    }
  }

  lemma MarkedIntent(cfg: Config, db: Db, t: TaskId, now: Time)
    requires Inv(cfg, db) && Retirable(db, cfg, t, now)
    ensures IntentSound(db, t, Intent(Dependents, ResultPaths(db.attempts, t), now))
  {
    hide Inv;
    SoundTask(cfg, db, t);
    forall p | p in ResultPaths(db.attempts, t) ensures p < db.nextId && (p in db.attempts ==> db.attempts[p].task == t) {
      var a :| a in db.attempts && db.attempts[a].task == t && db.attempts[a].resultPath == Some(p);
      SoundAttempt(cfg, db, a);
    }
  }

  lemma MarkReferences(cfg: Config, db: Db, now: Time)
    requires Inv(cfg, db)
    ensures Referenced(RetainMark(db, cfg, now))
  {
    hide Inv, Retirable, ResultPaths;
    InvReferences(cfg, db);
    var db1 := RetainMark(db, cfg, now);
    forall t | t in db1.intents ensures IntentSound(db1, t, db1.intents[t]) {
      if t in db.intents {
        assert IntentSound(db, t, db.intents[t]);
      } else {
        MarkedIntent(cfg, db, t, now);
        assert IntentSound(db, t, db1.intents[t]);
      }
    }
  }

  lemma MarkFrame(db: Db, cfg: Config, now: Time)
    ensures var db1 := RetainMark(db, cfg, now);
            db1 == db.(intents := db1.intents) && forall t :: Whole(db1.intents, t) <==> Whole(db.intents, t)
  {
    hide Retirable, ResultPaths;
  }

  lemma RetainMarkKeeps(cfg: Config, db: Db, now: Time)
    requires Inv(cfg, db)
    ensures Inv(cfg, RetainMark(db, cfg, now)) && Advances(db, RetainMark(db, cfg, now))
  {
    hide Rows, Linked, Outcomes, Numbered, Limited, Accounted, Reserved, RootsSound, ChildrenSound, Distinct;
    hide RootsAccounted, Allocated, Plans, Gated, Sent, Referenced, Whole, RetainMark;
    var db1 := RetainMark(db, cfg, now);
    MarkFrame(db, cfg, now);
    MarkOutcomes(db.tasks, db.attempts, db.intents, db1.intents);
    MarkReferences(cfg, db, now);
  }

  // -------------------------------------------------------------------- deletion

  /** The tables without anything that refers to `t`; `gone` removes the task row as well. */
  ghost predicate Removed(db: Db, db1: Db, t: TaskId, gone: bool, stage: Stage) {
    && t in db.intents && !stage.Dependents? && gone == stage.Artifact?
    && db1.tasks == (if gone then db.tasks - {t} else db.tasks)
    && db1.attempts == (map a | a in db.attempts && db.attempts[a].task != t :: db.attempts[a])
    && (forall a :: a in db1.outbox ==> a in db.outbox && !(a in db.attempts && db.attempts[a].task == t))
    && db1.transfers == (map p | p in db.transfers && p.0 != t && p.1 != t :: db.transfers[p])
    && db1.events == WithoutTask(db.events, t) && db1.children == db.children && db1.roots == db.roots
    && db1.workers == db.workers && db1.commands == db.commands && db1.nextId == db.nextId && db1.clock == db.clock
    && db1.intents == db.intents[t := db.intents[t].(stage := stage)]
  }

  /** A finished task outside every workflow. */
  predicate Detached(db: Db, t: TaskId) {
    t in db.tasks && Terminal(db.tasks[t].status) && !Named(db.children, t) && t !in db.roots
  }

  lemma RemovedRows(tasks: map<TaskId, Task>, attempts: map<AttemptId, Attempt>, t: TaskId, tasks': map<TaskId, Task>,
                    attempts': map<AttemptId, Attempt>, nextId: nat, clock: Time)
    requires Rows(tasks, attempts, nextId, clock) && Linked(tasks, attempts)
    requires t in tasks && Terminal(tasks[t].status)
    requires tasks' == tasks || tasks' == tasks - {t}
    requires attempts' == map a | a in attempts && attempts[a].task != t :: attempts[a]
    ensures Rows(tasks', attempts', nextId, clock) && Linked(tasks', attempts')
  {
    forall x | x in tasks' ensures Holds(tasks'[x], x, attempts') {
      assert Holds(tasks[x], x, attempts);
    }
    forall a | a in attempts' ensures attempts'[a].task in tasks' && HeldBy(tasks'[attempts'[a].task], a, attempts'[a]) {
      assert HeldBy(tasks[attempts[a].task], a, attempts[a]);
    }
  }

  lemma RemovedOutcomes(tasks: map<TaskId, Task>, attempts: map<AttemptId, Attempt>, intents: map<TaskId, Intent>, t: TaskId,
                        tasks': map<TaskId, Task>, attempts': map<AttemptId, Attempt>, i: Intent)
    requires Outcomes(tasks, attempts, intents) && Linked(tasks, attempts) && !i.stage.Dependents?
    requires tasks' == tasks || tasks' == tasks - {t}
    requires attempts' == map a | a in attempts && attempts[a].task != t :: attempts[a]
    ensures Outcomes(tasks', attempts', intents[t := i])
  {
    forall x | x in tasks' ensures Explained(tasks'[x], x, attempts', intents[t := i]) {
      assert Explained(tasks[x], x, attempts, intents);
      assert Whole(intents[t := i], x) ==> x != t && Whole(intents, x);
    }
  }

  lemma RemovedNumbers(attempts: map<AttemptId, Attempt>, t: TaskId, attempts': map<AttemptId, Attempt>)
    requires Numbered(attempts) && attempts' == map a | a in attempts && attempts[a].task != t :: attempts[a]
    ensures Numbered(attempts') && |Reserved(attempts')| <= |Reserved(attempts)|
  {
    forall a | a in attempts' ensures AttemptsOf(attempts', attempts'[a].task) == AttemptsOf(attempts, attempts[a].task) {}
    Subset(Reserved(attempts'), Reserved(attempts));
  }

  lemma RemovedLimits(tasks: map<TaskId, Task>, attempts: map<AttemptId, Attempt>, intents: map<TaskId, Intent>, t: TaskId,
                      tasks': map<TaskId, Task>, attempts': map<AttemptId, Attempt>, i: Intent)
    requires Limited(tasks, attempts) && Accounted(tasks, attempts, intents) && !i.stage.Dependents?
    requires tasks' == tasks || tasks' == tasks - {t}
    requires attempts' == map a | a in attempts && attempts[a].task != t :: attempts[a]
    ensures Limited(tasks', attempts') && Accounted(tasks', attempts', intents[t := i])
  {
    forall x | x in tasks' ensures WithinLimit(tasks'[x], x, attempts') {
      assert WithinLimit(tasks[x], x, attempts);
      Subset(Earlier(attempts', x, tasks[x].current), Earlier(attempts, x, tasks[x].current));
    }
    forall x | x in tasks' && Whole(intents[t := i], x) ensures tasks'[x].tokensUsed == Sum(SettledUsage(attempts', x)) {
      assert SettledUsage(attempts', x) == SettledUsage(attempts, x);
    }
  }

  lemma RemovedRecords(cfg: Config, db: Db, db1: Db, t: TaskId, gone: bool, stage: Stage)
    requires Records(cfg, db) && Detached(db, t) && Removed(db, db1, t, gone, stage)
    ensures Records(cfg, db1)
  {
    hide Rows, Linked, Outcomes, Numbered, Limited, Accounted, Reserved;
    RemovedRows(db.tasks, db.attempts, t, db1.tasks, db1.attempts, db.nextId, db.clock);
    RemovedOutcomes(db.tasks, db.attempts, db.intents, t, db1.tasks, db1.attempts, db1.intents[t]);
    RemovedNumbers(db.attempts, t, db1.attempts);
    RemovedLimits(db.tasks, db.attempts, db.intents, t, db1.tasks, db1.attempts, db1.intents[t]);
  }

  /** A task that no child row names is in no workflow's totals. */
  lemma RemovedTotals(tasks: map<TaskId, Task>, attempts: map<AttemptId, Attempt>, rows: seq<Child>, r: TaskId, t: TaskId,
                      tasks': map<TaskId, Task>, attempts': map<AttemptId, Attempt>)
    requires !Named(rows, t) && (tasks' == tasks || tasks' == tasks - {t})
    requires attempts' == map a | a in attempts && attempts[a].task != t :: attempts[a]
    ensures ChildUsage(tasks', rows, r) == ChildUsage(tasks, rows, r)
    ensures Commitments(tasks', rows, r) == Commitments(tasks, rows, r)
    ensures ChildAttempts(attempts', rows, r) == ChildAttempts(attempts, rows, r)
  {
    assert !IsChild(rows, r, t);
    hide IsChild, Named;
  }

  lemma RemovedRoots(tasks: map<TaskId, Task>, attempts: map<AttemptId, Attempt>, roots: map<TaskId, Root>, rows: seq<Child>, t: TaskId,
                     tasks': map<TaskId, Task>, attempts': map<AttemptId, Attempt>)
    requires RootsSound(tasks, roots) && ChildrenSound(tasks, roots, rows)
    requires RootsAccounted(tasks, attempts, roots, rows) && Allocated(tasks, roots, rows)
    requires !Named(rows, t) && t !in roots && (tasks' == tasks || tasks' == tasks - {t})
    requires attempts' == map a | a in attempts && attempts[a].task != t :: attempts[a]
    ensures RootsSound(tasks', roots) && ChildrenSound(tasks', roots, rows)
    ensures RootsAccounted(tasks', attempts', roots, rows) && Allocated(tasks', roots, rows)
  {
    hide ChildUsage, Commitments, ChildAttempts, Sum;
    forall r | r in roots
      ensures ChildUsage(tasks', rows, r) == ChildUsage(tasks, rows, r)
      ensures Commitments(tasks', rows, r) == Commitments(tasks, rows, r)
      ensures ChildAttempts(attempts', rows, r) == ChildAttempts(attempts, rows, r)
    {
      RemovedTotals(tasks, attempts, rows, r, t, tasks', attempts');
    }
    hide ChildSound;
  }

  lemma RemovedGates(tasks: map<TaskId, Task>, attempts: map<AttemptId, Attempt>, rows: seq<Child>, transfers: map<(TaskId, TaskId), Transfer>,
                     t: TaskId, tasks': map<TaskId, Task>, attempts': map<AttemptId, Attempt>, transfers': map<(TaskId, TaskId), Transfer>)
    requires Gated(tasks, attempts, rows, transfers) && Sent(tasks, transfers)
    requires !Named(rows, t) && (tasks' == tasks || tasks' == tasks - {t})
    requires attempts' == map a | a in attempts && attempts[a].task != t :: attempts[a]
    requires transfers' == map p | p in transfers && p.0 != t && p.1 != t :: transfers[p]
    ensures Gated(tasks', attempts', rows, transfers') && Sent(tasks', transfers')
  {
    forall c, d | c in rows && d in rows && !c.carried && DependsOn(c, d) && Attempted(attempts', c.task)
      ensures Satisfied(tasks', transfers', c, d)
    {
      var b :| b in attempts' && attempts'[b].task == c.task;
      assert b in attempts && attempts[b].task == c.task;
      assert Satisfied(tasks, transfers, c, d);
    }
  }

  lemma RemovedFlow(db: Db, db1: Db, t: TaskId, gone: bool, stage: Stage)
    requires Flow(db) && Detached(db, t) && Removed(db, db1, t, gone, stage)
    ensures Flow(db1)
  {
    hide RootsSound, ChildrenSound, Distinct, RootsAccounted, Allocated, Plans, Gated, Sent, Named;
    RemovedRoots(db.tasks, db.attempts, db.roots, db.children, t, db1.tasks, db1.attempts);
    RemovedGates(db.tasks, db.attempts, db.children, db.transfers, t, db1.tasks, db1.attempts, db1.transfers);
  }

  lemma RemovedIntents(db: Db, db1: Db, t: TaskId, gone: bool, stage: Stage, x: TaskId)
    requires Referenced(db) && Detached(db, t) && Removed(db, db1, t, gone, stage) && x in db1.intents
    requires db.intents[t].stage.Dependents? || db.intents[t].stage.TaskRow?
    ensures IntentSound(db1, x, db1.intents[x])
  {
    assert IntentSound(db, x, db.intents[x]);
    assert db1.intents[x].paths == db.intents[x].paths;
    if Attempted(db1.attempts, x) {
      var b :| b in db1.attempts && db1.attempts[b].task == x;
      assert b in db.attempts && db.attempts[b].task == x;
    }
  }

  lemma RemovedReferences(db: Db, db1: Db, t: TaskId, gone: bool, stage: Stage)
    requires Referenced(db) && Detached(db, t) && Removed(db, db1, t, gone, stage)
    requires db.intents[t].stage.Dependents? || db.intents[t].stage.TaskRow?
    requires forall a :: a in db.attempts ==> db.attempts[a].task in db.tasks
    ensures Referenced(db1)
  {
    hide IntentSound, Named;
    forall x | x in db1.intents ensures IntentSound(db1, x, db1.intents[x]) {
      RemovedIntents(db, db1, t, gone, stage, x);
    }
  }

  lemma RemovedAdvances(db: Db, db1: Db, t: TaskId, gone: bool, stage: Stage)
    requires Removed(db, db1, t, gone, stage) && Detached(db, t)
    ensures Advances(db, db1)
  {
    hide Named;
  }

  lemma RemoveKeeps(cfg: Config, db: Db, db1: Db, t: TaskId, gone: bool, stage: Stage)
    requires Inv(cfg, db) && Detached(db, t) && Removed(db, db1, t, gone, stage)
    requires db.intents[t].stage.Dependents? || db.intents[t].stage.TaskRow?
    ensures Inv(cfg, db1) && Advances(db, db1)
  {
    assert t in db.intents;
    hide Inv, Advances, Records, Flow, Referenced, Removed, Detached;
    InvSplit(cfg, db);
    KnownTasks(cfg, db);
    RemovedRecords(cfg, db, db1, t, gone, stage);
    RemovedFlow(db, db1, t, gone, stage);
    RemovedReferences(db, db1, t, gone, stage);
    RemovedAdvances(db, db1, t, gone, stage);
    Assembled(cfg, db1);
  }

  lemma DeleteRemoves(db: Db, t: TaskId, gone: bool, stage: Stage)
    requires t in db.intents && !stage.Dependents? && gone == stage.Artifact? && !Named(db.children, t)
    ensures var db1 := DeleteDependents(db, t).(tasks := if gone then db.tasks - {t} else db.tasks,
                                               intents := db.intents[t := db.intents[t].(stage := stage)]);
            Removed(db, db1, t, gone, stage)
  {
    hide Named;
  }

  lemma DeleteTasks(db: Db, t: TaskId)
    ensures DeleteDependents(db, t).tasks == db.tasks
  {
  }

  lemma Marked(cfg: Config, db: Db, t: TaskId)
    requires Inv(cfg, db) && t in db.intents && !db.intents[t].stage.Artifact?
    ensures Detached(db, t)
  {
    hide Inv;
    InvReferences(cfg, db);
    assert IntentSound(db, t, db.intents[t]);
  }

  // ----------------------------------------------------------------- completion

  lemma CompletedReferences(db: Db, t: TaskId, files: set<AttemptId>)
    requires Referenced(db)
    ensures Referenced(db.(files := files, intents := db.intents - {t}))
  {
    var db1 := db.(files := files, intents := db.intents - {t});
    forall x | x in db1.intents ensures IntentSound(db1, x, db1.intents[x]) {
      assert IntentSound(db, x, db.intents[x]);
    }
  }

  lemma CompletedKeeps(cfg: Config, db: Db, t: TaskId, files: set<AttemptId>)
    requires Inv(cfg, db) && t in db.intents && t !in db.tasks
    ensures var db1 := db.(files := files, intents := db.intents - {t}); Inv(cfg, db1) && Advances(db, db1)
  {
    hide Rows, Linked, Outcomes, Numbered, Limited, Accounted, Reserved, RootsSound, ChildrenSound, Distinct;
    hide RootsAccounted, Allocated, Plans, Gated, Sent, Referenced;
    MarkOutcomes(db.tasks, db.attempts, db.intents, db.intents - {t});
    CompletedReferences(db, t, files);
  }

  lemma RetainPhaseKeeps(cfg: Config, db: Db, t: TaskId)
    requires Inv(cfg, db) && t in db.intents
    ensures Inv(cfg, RetainPhase(db, t)) && Advances(db, RetainPhase(db, t))
  {
    hide Inv, Advances, Removed, DeleteDependents;
    var db1 := RetainPhase(db, t);
    match db.intents[t].stage
    case Artifact =>
      InvReferences(cfg, db);
      assert IntentSound(db, t, db.intents[t]);
      CompletedKeeps(cfg, db, t, db.files - db.intents[t].paths);
    case Dependents =>
      Marked(cfg, db, t);
      DeleteRemoves(db, t, false, TaskRow);
      DeleteTasks(db, t);
      RemoveKeeps(cfg, db, db1, t, false, TaskRow);
    case TaskRow =>
      Marked(cfg, db, t);
      DeleteRemoves(db, t, true, Artifact);
      DeleteTasks(db, t);
      RemoveKeeps(cfg, db, db1, t, true, Artifact);
  }

  lemma RetainPurgeKeeps(cfg: Config, db: Db, now: Time)
    requires Inv(cfg, db)
    ensures Inv(cfg, RetainPurge(db, cfg, now)) && Advances(db, RetainPurge(db, cfg, now))
  {
    hide Inv;
    InvReferences(cfg, db);
    AsideSame(db);
    AsideKeeps(cfg, db, RetainPurge(db, cfg, now));
  }
}
