/** One task row changes alone, or only records beside the tasks change. */
module TaskProofs {
  import opened Types
  import opened Sums
  import opened StoreOps
  import opened WorkflowOps
  import opened Invariant
  import opened PairProofs

  /** New intent on an open task, a start, or the end of a Pending task. */
  predicate TaskChange(task: Task, row: Task) {
    && !Terminal(task.status) && TaskAdvances(task, row) && TaskSound(row)
    && row.current == task.current && row.tokensUsed == task.tokensUsed
    && (row.status == task.status || (task.status.Pending? && (row.status.Failed? || row.status.Cancelled?)))
  }

  lemma TaskRows(tasks: map<TaskId, Task>, attempts: map<AttemptId, Attempt>, intents: map<TaskId, Intent>,
                 t: TaskId, row: Task, nextId: nat, clock: Time)
    requires Rows(tasks, attempts, nextId, clock) && Linked(tasks, attempts) && Outcomes(tasks, attempts, intents)
    requires t in tasks && TaskChange(tasks[t], row)
    ensures Rows(tasks[t := row], attempts, nextId, clock)
    ensures Linked(tasks[t := row], attempts)
    ensures Outcomes(tasks[t := row], attempts, intents)
  {
    forall x | x in tasks ensures Holds(tasks[t := row][x], x, attempts) && Explained(tasks[t := row][x], x, attempts, intents) {
      assert Holds(tasks[x], x, attempts) && Explained(tasks[x], x, attempts, intents);
    }
    forall b | b in attempts ensures attempts[b].task in tasks && HeldBy(tasks[t := row][attempts[b].task], b, attempts[b]) {
      assert HeldBy(tasks[attempts[b].task], b, attempts[b]);
    }
  }

  lemma TaskLimits(tasks: map<TaskId, Task>, attempts: map<AttemptId, Attempt>, intents: map<TaskId, Intent>, t: TaskId, row: Task)
    requires Limited(tasks, attempts) && Accounted(tasks, attempts, intents) && t in tasks && TaskChange(tasks[t], row)
    ensures Limited(tasks[t := row], attempts) && Accounted(tasks[t := row], attempts, intents)
  {
    forall x | x in tasks ensures WithinLimit(tasks[t := row][x], x, attempts) {
      assert WithinLimit(tasks[x], x, attempts);
    }
  }

  lemma TaskRoots(tasks: map<TaskId, Task>, attempts: map<AttemptId, Attempt>, roots: map<TaskId, Root>, rows: seq<Child>, t: TaskId, row: Task)
    requires RootsAccounted(tasks, attempts, roots, rows) && t in tasks && row.tokensUsed == tasks[t].tokensUsed
    ensures RootsAccounted(tasks[t := row], attempts, roots, rows)
  {
    forall r | r in roots ensures roots[r].tokensUsed == Sum(ChildUsage(tasks[t := row], rows, r)) {
      UsageTotal(tasks, rows, r, t, row);
    }
  }

  lemma TaskGates(tasks: map<TaskId, Task>, attempts: map<AttemptId, Attempt>, rows: seq<Child>,
                  transfers: map<(TaskId, TaskId), Transfer>, t: TaskId, row: Task)
    requires Gated(tasks, attempts, rows, transfers) && t in tasks && TaskAdvances(tasks[t], row)
    ensures Gated(tasks[t := row], attempts, rows, transfers)
  {
    forall c, d | c in rows && d in rows && !c.carried && DependsOn(c, d) && Attempted(attempts, c.task)
      ensures Satisfied(tasks[t := row], transfers, c, d)
    {
      assert Satisfied(tasks, transfers, c, d);
    }
  }

  lemma TaskReferences(db: Db, t: TaskId, row: Task, events: seq<Event>)
    requires Referenced(db) && t in db.tasks && TaskAdvances(db.tasks[t], row)
    requires forall e :: e in events ==> e.task in db.tasks
    ensures Referenced(db.(tasks := db.tasks[t := row], events := events))
  {
    var db1 := db.(tasks := db.tasks[t := row], events := events);
    forall x | x in db1.intents ensures IntentSound(db1, x, db1.intents[x]) {
      assert IntentSound(db, x, db.intents[x]);
    }
  }

  lemma TaskKeeps(cfg: Config, db: Db, t: TaskId, row: Task, events: seq<Event>)
    requires Inv(cfg, db) && t in db.tasks && TaskChange(db.tasks[t], row)
    requires forall e :: e in events ==> e.task in db.tasks
    ensures var db1 := db.(tasks := db.tasks[t := row], events := events); Inv(cfg, db1) && Advances(db, db1)
  {
    hide Rows, Linked, Outcomes, Numbered, Limited, Accounted, RootsSound, ChildrenSound, Distinct;
    hide RootsAccounted, Allocated, Plans, Gated, Sent, Referenced;
    TaskRows(db.tasks, db.attempts, db.intents, t, row, db.nextId, db.clock);
    TaskLimits(db.tasks, db.attempts, db.intents, t, row);
    TaskRoots(db.tasks, db.attempts, db.roots, db.children, t, row);
    TaskAllocation(db.tasks, db.roots, db.children, t, row);
    TaskChildren(db.tasks, db.roots, db.children, t, row);
    TaskGates(db.tasks, db.attempts, db.children, db.transfers, t, row);
    TaskSent(db.tasks, db.transfers, t, row);
    TaskReferences(db, t, row, events);
  }

  // ------------------------------------------------------- records beside tasks

  /** Changes to anything but tasks, attempts, children, intents, roots and the supply. */
  ghost predicate Aside(db: Db, db1: Db) {
    && db1.tasks == db.tasks && db1.attempts == db.attempts && db1.children == db.children
    && db1.intents == db.intents && db1.roots == db.roots && db1.nextId == db.nextId && db1.clock == db.clock
    && (forall p :: p in db.transfers ==> p in db1.transfers && db1.transfers[p] == db.transfers[p])
    && (forall p :: p in db1.transfers ==> p.0 in db.tasks && p.1 in db.tasks)
    && (forall p :: p in db1.transfers && p !in db.transfers && p.1 in db.tasks ==>
          db1.transfers[p].Delivered? || Terminal(db.tasks[p.1].status))
    && (forall a :: a in db1.outbox ==> a in db.attempts)
    && (forall e :: e in db1.events ==> e.task in db.tasks)
    && (forall k :: k in db1.commands ==> db1.commands[k].task < db.nextId)
    && (forall w :: w in db.workers ==> w in db1.workers)
  }

  lemma AsideReferences(db: Db, db1: Db)
    requires Referenced(db) && Aside(db, db1)
    ensures Referenced(db1)
  {
    forall x | x in db1.intents ensures IntentSound(db1, x, db1.intents[x]) {
      assert IntentSound(db, x, db.intents[x]);
    }
  }

  lemma AsideGates(tasks: map<TaskId, Task>, attempts: map<AttemptId, Attempt>, rows: seq<Child>,
                   transfers: map<(TaskId, TaskId), Transfer>, transfers': map<(TaskId, TaskId), Transfer>)
    requires Gated(tasks, attempts, rows, transfers)
    requires forall p :: p in transfers ==> p in transfers' && transfers'[p] == transfers[p]
    ensures Gated(tasks, attempts, rows, transfers')
  {
    forall c, d | c in rows && d in rows && !c.carried && DependsOn(c, d) && Attempted(attempts, c.task)
      ensures Satisfied(tasks, transfers', c, d)
    {
      assert Satisfied(tasks, transfers, c, d);
    }
  }

  lemma AsideKeeps(cfg: Config, db: Db, db1: Db)
    requires Inv(cfg, db) && Aside(db, db1)
    ensures Inv(cfg, db1) && Advances(db, db1)
  {
    hide Rows, Linked, Outcomes, Numbered, Limited, Accounted, RootsSound, ChildrenSound, Distinct;
    hide RootsAccounted, Allocated, Plans, Gated, Sent, Referenced;
    AsideReferences(db, db1);
    AsideGates(db.tasks, db.attempts, db.children, db.transfers, db1.transfers);
    AsideSent(db, db1);
  }

  lemma AsideSent(db: Db, db1: Db)
    requires Sent(db.tasks, db.transfers) && Aside(db, db1)
    ensures Sent(db1.tasks, db1.transfers)
  {
  }

  /** A note on one root that leaves its counters, bounds and plans alone. */
  lemma RootNoteKeeps(cfg: Config, db: Db, r: TaskId, root: Root)
    requires Inv(cfg, db) && r in db.roots && ChargedRoot(db.roots[r], root, 0)
    ensures var db1 := db.(roots := db.roots[r := root]); Inv(cfg, db1) && Advances(db, db1)
  {
    hide Rows, Linked, Outcomes, Numbered, Limited, Accounted, RootsSound, ChildrenSound, Distinct;
    hide RootsAccounted, Allocated, Plans, Gated, Sent, Referenced;
    RootReferences(db, r, root);
    RootTotals(db.tasks, db.attempts, db.roots, db.children, r, root);
    assert Charged(db.roots, db.children, r, 0, db.roots[r := root]);
    ChargedChildren(db.tasks, db.roots, db.children, r, 0, db.roots[r := root]);
    ChargedAllocation(db.tasks, db.roots, db.children, r, 0, db.roots[r := root]);
  }

  lemma RootTotals(tasks: map<TaskId, Task>, attempts: map<AttemptId, Attempt>, roots: map<TaskId, Root>, rows: seq<Child>, r: TaskId, root: Root)
    requires RootsAccounted(tasks, attempts, roots, rows) && r in roots && ChargedRoot(roots[r], root, 0)
    ensures RootsAccounted(tasks, attempts, roots[r := root], rows)
  {
  }

  lemma RootReferences(db: Db, r: TaskId, root: Root)
    requires Referenced(db) && r in db.roots
    ensures Referenced(db.(roots := db.roots[r := root]))
  {
    var db1 := db.(roots := db.roots[r := root]);
    forall x | x in db1.intents ensures IntentSound(db1, x, db1.intents[x]) {
      assert IntentSound(db, x, db.intents[x]);
    }
  }

  lemma WaitKeeps(cfg: Config, db: Db, d: Time)
    requires Inv(cfg, db) && d >= 0.0
    ensures var db1 := db.(clock := db.clock + d); Inv(cfg, db1) && Advances(db, db1)
  {
    hide Rows, Linked, Outcomes, Numbered, Limited, Accounted, RootsSound, ChildrenSound, Distinct;
    hide RootsAccounted, Allocated, Plans, Gated, Sent, Referenced;
    LaterRows(db.tasks, db.attempts, db.nextId, db.clock, db.clock + d);
    LaterReferences(db, db.clock + d);
  }

  lemma LaterRows(tasks: map<TaskId, Task>, attempts: map<AttemptId, Attempt>, nextId: nat, clock: Time, clock': Time)
    requires Rows(tasks, attempts, nextId, clock) && clock <= clock'
    ensures Rows(tasks, attempts, nextId, clock')
  {
  }

  lemma LaterReferences(db: Db, clock: Time)
    requires Referenced(db)
    ensures Referenced(db.(clock := clock))
  {
    var db1 := db.(clock := clock);
    forall x | x in db1.intents ensures IntentSound(db1, x, db1.intents[x]) {
      assert IntentSound(db, x, db.intents[x]);
    }
  }

  // ------------------------------------------------------------------ a new task

  lemma NewTaskRows(tasks: map<TaskId, Task>, attempts: map<AttemptId, Attempt>, intents: map<TaskId, Intent>,
                    spec: Spec, now: Time, nextId: nat, clock: Time)
    requires Rows(tasks, attempts, nextId, clock) && Linked(tasks, attempts) && Outcomes(tasks, attempts, intents)
    requires ValidSpec(spec)
    ensures Rows(tasks[nextId := NewTask(spec, now)], attempts, nextId + 1, clock)
    ensures Linked(tasks[nextId := NewTask(spec, now)], attempts)
    ensures Outcomes(tasks[nextId := NewTask(spec, now)], attempts, intents)
  {
    var tasks1 := tasks[nextId := NewTask(spec, now)];
    assert nextId !in tasks;
    forall x | x in tasks1 ensures Holds(tasks1[x], x, attempts) && Explained(tasks1[x], x, attempts, intents) {
      if x != nextId {
        assert Holds(tasks[x], x, attempts) && Explained(tasks[x], x, attempts, intents);
      }
    }
    forall b | b in attempts ensures attempts[b].task in tasks1 && HeldBy(tasks1[attempts[b].task], b, attempts[b]) {
      assert HeldBy(tasks[attempts[b].task], b, attempts[b]);
    }
  }

  lemma NewTaskLimits(tasks: map<TaskId, Task>, attempts: map<AttemptId, Attempt>, intents: map<TaskId, Intent>, t: TaskId, row: Task)
    requires Limited(tasks, attempts) && Accounted(tasks, attempts, intents) && Linked(tasks, attempts)
    requires t !in tasks && row.tokensUsed == 0 && ValidSpec(row.spec)
    ensures Limited(tasks[t := row], attempts) && Accounted(tasks[t := row], attempts, intents)
  {
    assert Earlier(attempts, t, row.current) == {};
    assert SettledUsage(attempts, t) == map[];
  }

  /** A task without a child row enters no workflow's totals. */
  lemma NewTaskTotals(tasks: map<TaskId, Task>, rows: seq<Child>, r: TaskId, t: TaskId, row: Task)
    requires forall c :: c in rows ==> c.task in tasks
    requires t !in tasks
    ensures ChildUsage(tasks[t := row], rows, r) == ChildUsage(tasks, rows, r)
    ensures Commitments(tasks[t := row], rows, r) == Commitments(tasks, rows, r)
  {
    assert !IsChild(rows, r, t);
  }

  lemma NewTaskFlow(tasks: map<TaskId, Task>, attempts: map<AttemptId, Attempt>, roots: map<TaskId, Root>, rows: seq<Child>, t: TaskId, row: Task)
    requires RootsSound(tasks, roots) && ChildrenSound(tasks, roots, rows)
    requires RootsAccounted(tasks, attempts, roots, rows) && Allocated(tasks, roots, rows)
    requires t !in tasks
    ensures RootsSound(tasks[t := row], roots) && ChildrenSound(tasks[t := row], roots, rows)
    ensures RootsAccounted(tasks[t := row], attempts, roots, rows) && Allocated(tasks[t := row], roots, rows)
  {
    forall r | r in roots
      ensures ChildUsage(tasks[t := row], rows, r) == ChildUsage(tasks, rows, r)
      ensures Commitments(tasks[t := row], rows, r) == Commitments(tasks, rows, r)
    {
      NewTaskTotals(tasks, rows, r, t, row);
    }
  }

  lemma NewTaskGates(tasks: map<TaskId, Task>, attempts: map<AttemptId, Attempt>, rows: seq<Child>,
                     transfers: map<(TaskId, TaskId), Transfer>, t: TaskId, row: Task)
    requires Gated(tasks, attempts, rows, transfers) && t !in tasks
    ensures Gated(tasks[t := row], attempts, rows, transfers)
  {
    forall c, d | c in rows && d in rows && !c.carried && DependsOn(c, d) && Attempted(attempts, c.task)
      ensures Satisfied(tasks[t := row], transfers, c, d)
    {
      assert Satisfied(tasks, transfers, c, d);
    }
  }

  lemma NewTaskSent(tasks: map<TaskId, Task>, transfers: map<(TaskId, TaskId), Transfer>, t: TaskId, row: Task)
    requires Sent(tasks, transfers)
    requires forall p :: p in transfers ==> p.1 != t
    ensures Sent(tasks[t := row], transfers)
  {
  }

  lemma NewTaskReferences(db: Db, row: Task, events: seq<Event>)
    requires Referenced(db)
    requires forall e :: e in events ==> e.task in db.tasks || e.task == db.nextId
    ensures Referenced(db.(tasks := db.tasks[db.nextId := row], nextId := db.nextId + 1, events := events))
  {
    var db1 := db.(tasks := db.tasks[db.nextId := row], nextId := db.nextId + 1, events := events);
    forall x | x in db1.intents ensures IntentSound(db1, x, db1.intents[x]) {
      assert IntentSound(db, x, db.intents[x]);
    }
  }

  lemma InsertTaskKeeps(cfg: Config, db: Db, spec: Spec)
    requires Inv(cfg, db) && ValidSpec(spec)
    ensures var db1 := InsertTask(db, spec);
            && Inv(cfg, db1) && Advances(db, db1)
            && db.nextId !in db.tasks && db.nextId !in db.roots && db.nextId !in db.intents
            && !Named(db1.children, db.nextId) && !Attempted(db1.attempts, db.nextId)
  {
    hide Rows, Linked, Outcomes, Numbered, Limited, Accounted, RootsSound, ChildrenSound, Distinct;
    hide RootsAccounted, Allocated, Plans, Gated, Sent, Referenced;
    var row := NewTask(spec, db.clock);
    var events := db.events + [Event(db.nextId, TaskAccepted)];
    assert InsertTask(db, spec) == db.(tasks := db.tasks[db.nextId := row], nextId := db.nextId + 1, events := events);
    FreshId(cfg, db);
    EventsKnown(db);
    NewTaskSent(db.tasks, db.transfers, db.nextId, row);
    NewTaskReferences(db, row, events);
    NewTaskRows(db.tasks, db.attempts, db.intents, spec, db.clock, db.nextId, db.clock);
    NewTaskLimits(db.tasks, db.attempts, db.intents, db.nextId, row);
    NewTaskFlow(db.tasks, db.attempts, db.roots, db.children, db.nextId, row);
    NewTaskGates(db.tasks, db.attempts, db.children, db.transfers, db.nextId, row);
  }

  lemma EventsKnown(db: Db)
    requires Referenced(db)
    ensures forall e :: e in db.events ==> e.task in db.tasks
  {
  }

  /** The next identifier is used nowhere. */
  lemma FreshId(cfg: Config, db: Db)
    requires Inv(cfg, db)
    ensures db.nextId !in db.tasks && db.nextId !in db.attempts && db.nextId !in db.roots && db.nextId !in db.intents
    ensures !Named(db.children, db.nextId) && !Attempted(db.attempts, db.nextId)
    ensures forall p :: p in db.transfers ==> p.1 != db.nextId
  {
    assert Linked(db.tasks, db.attempts) && RootsSound(db.tasks, db.roots) && Referenced(db);
  }
}
