/** Caller commands, observations and launch claims keep the invariant. */
module StoreProofs {
  import opened Types
  import opened Sums
  import opened StoreOps
  import opened WorkflowOps
  import opened RunnerOps
  import opened Invariant
  import opened PairProofs
  import opened TaskProofs

  /** Progress composes over consecutive transactions. */
  lemma AdvancesTransitive(cfg: Config, x: Db, y: Db, z: Db)
    requires Inv(cfg, x) && Inv(cfg, z) && Advances(x, y) && Advances(y, z)
    ensures Advances(x, z)
  {
    KnownIds(cfg, x);
    KnownTasks(cfg, x);
    KnownTasks(cfg, z);
    ComposeTasks(x, y, z);
    ComposeAttempts(x, y, z);
    ComposeCleaned(x, y, z);
    ComposeRoots(x, y, z);
    ComposeRows(x, y, z);
  }

  lemma KnownIds(cfg: Config, db: Db)
    requires Inv(cfg, db)
    ensures forall t :: t in db.tasks ==> t < db.nextId
    ensures forall a :: a in db.attempts ==> a < db.nextId
  {
    hide Linked, Outcomes, Numbered, Limited, Accounted, RootsSound, ChildrenSound, Distinct;
    hide RootsAccounted, Allocated, Plans, Gated, Sent, Referenced;
  }

  lemma KnownTasks(cfg: Config, db: Db)
    requires Inv(cfg, db)
    ensures forall a :: a in db.attempts ==> db.attempts[a].task in db.tasks
  {
    hide Rows, Outcomes, Numbered, Limited, Accounted, RootsSound, ChildrenSound, Distinct;
    hide RootsAccounted, Allocated, Plans, Gated, Sent, Referenced;
  }

  lemma ComposeTasks(x: Db, y: Db, z: Db)
    requires Advances(x, y) && Advances(y, z)
    requires forall t :: t in x.tasks ==> t < x.nextId
    ensures forall t :: t in z.tasks ==> if t in x.tasks then TaskAdvances(x.tasks[t], z.tasks[t]) else t >= x.nextId
  {
    forall t | t in z.tasks ensures if t in x.tasks then TaskAdvances(x.tasks[t], z.tasks[t]) else t >= x.nextId {
      if t in y.tasks && t in x.tasks {
        assert TaskAdvances(x.tasks[t], y.tasks[t]) && TaskAdvances(y.tasks[t], z.tasks[t]);
      }
    }
  }

  lemma ComposeAttempts(x: Db, y: Db, z: Db)
    requires Advances(x, y) && Advances(y, z)
    requires forall t :: t in x.tasks ==> t < x.nextId
    requires forall a :: a in x.attempts ==> a < x.nextId
    requires forall a :: a in z.attempts ==> z.attempts[a].task in z.tasks
    ensures forall a :: a in z.attempts ==>
      if a in x.attempts then AttemptAdvances(x.attempts[a], z.attempts[a])
      else a >= x.nextId && StillWanted(x.tasks, z.attempts[a].task)
  {
    forall a | a in z.attempts
      ensures if a in x.attempts then AttemptAdvances(x.attempts[a], z.attempts[a])
              else a >= x.nextId && StillWanted(x.tasks, z.attempts[a].task)
    {
      if a in y.attempts {
        assert AttemptAdvances(y.attempts[a], z.attempts[a]);
        if a in x.attempts {
          assert AttemptAdvances(x.attempts[a], y.attempts[a]);
        }
      } else {
        var t := z.attempts[a].task;
        assert a >= y.nextId && StillWanted(y.tasks, t);
        if t in x.tasks {
          assert t in y.tasks && TaskAdvances(x.tasks[t], y.tasks[t]);
        }
      }
    }
  }

  lemma ComposeCleaned(x: Db, y: Db, z: Db)
    requires Advances(x, y) && Advances(y, z)
    requires forall t :: t in x.tasks ==> t < x.nextId
    requires forall a :: a in x.attempts ==> x.attempts[a].task in x.tasks
    requires forall a :: a in z.attempts ==> z.attempts[a].task in z.tasks
    ensures forall a :: a in x.attempts && a !in z.attempts ==> Cleaned(z, x.attempts[a].task) && !Named(x.children, x.attempts[a].task)
  {
    forall a | a in x.attempts && a !in z.attempts
      ensures Cleaned(z, x.attempts[a].task) && !Named(x.children, x.attempts[a].task)
    {
      var t := x.attempts[a].task;
      if a in y.attempts {
        SameTask(x.attempts[a], y.attempts[a]);
      } else if t in y.tasks {
        StaysCleaned(y, z, t);
      } else {
        StaysGone(x, y, z, t);
      }
    }
  }

  lemma SameTask(x: Attempt, y: Attempt)
    requires AttemptAdvances(x, y)
    ensures y.task == x.task
  {
  }

  lemma StaysGone(x: Db, y: Db, z: Db, t: TaskId)
    requires Advances(x, y) && Advances(y, z) && t < x.nextId && t !in y.tasks
    requires forall a :: a in z.attempts ==> z.attempts[a].task in z.tasks
    ensures Cleaned(z, t)
  {
    hide TaskAdvances, AttemptAdvances, RootAdvances, StillWanted;
    assert t !in z.tasks;
  }

  lemma StaysCleaned(y: Db, z: Db, t: TaskId)
    requires Advances(y, z) && Cleaned(y, t) && t in y.tasks
    ensures Cleaned(z, t)
  {
    hide RootAdvances, AttemptAdvances;
    forall a | a in z.attempts ensures z.attempts[a].task != t {
      if a in y.attempts {
        SameTask(y.attempts[a], z.attempts[a]);
        assert y.attempts[a].task == t ==> Attempted(y.attempts, t);
      }
    }
  }

  lemma ComposeRoots(x: Db, y: Db, z: Db)
    requires Advances(x, y) && Advances(y, z)
    ensures forall r :: r in x.roots ==> r in z.roots && RootAdvances(x.roots[r], z.roots[r])
  {
    forall r | r in x.roots ensures r in z.roots && RootAdvances(x.roots[r], z.roots[r]) {
      assert RootAdvances(x.roots[r], y.roots[r]) && RootAdvances(y.roots[r], z.roots[r]);
    }
  }

  lemma ComposeRows(x: Db, y: Db, z: Db)
    requires Advances(x, y) && Advances(y, z)
    ensures forall c :: c in x.children ==> c in z.children
    ensures forall t :: t in x.tasks && t !in z.tasks ==> t !in x.roots && !Named(x.children, t)
  {
    hide TaskAdvances, AttemptAdvances, RootAdvances, StillWanted, Cleaned;
    forall t | t in x.tasks && t !in z.tasks ensures t !in x.roots && !Named(x.children, t) {
      assert t in y.tasks ==> !Named(y.children, t);
    }
  }

  lemma AdvancesReflexive(db: Db)
    ensures Advances(db, db)
  {
  }

  // ----------------------------------------------------------- caller commands

  lemma RecordKeeps(cfg: Config, db: Db, key: Label, c: Command)
    requires Inv(cfg, db) && c.task < db.nextId
    ensures Inv(cfg, Record(db, key, c)) && Advances(db, Record(db, key, c))
  {
    hide Inv;
    InvReferences(cfg, db);
    AsideSame(db);
    AsideKeeps(cfg, db, Record(db, key, c));
  }

  lemma LogKeeps(cfg: Config, db: Db, t: TaskId, kind: EventKind)
    requires Inv(cfg, db) && t in db.tasks
    ensures Inv(cfg, Log(db, t, kind)) && Advances(db, Log(db, t, kind))
  {
    hide Inv;
    InvReferences(cfg, db);
    AsideSame(db);
    AsideKeeps(cfg, db, Log(db, t, kind));
  }

  lemma InvReferences(cfg: Config, db: Db)
    requires Inv(cfg, db)
    ensures Referenced(db)
  {
  }

  lemma AsideSame(db: Db)
    requires Referenced(db)
    ensures Aside(db, db)
  {
  }

  lemma SubmitKeeps(cfg: Config, db: Db, key: Label, raw: Raw)
    requires Inv(cfg, db)
    ensures Inv(cfg, Submit(db, key, raw).0) && Advances(db, Submit(db, key, raw).0)
  {
    hide Inv, Advances;
    if key !in db.commands && raw.sound && ValidSpec(raw.spec) {
      var db1 := InsertTask(db, raw.spec);
      InsertTaskKeeps(cfg, db, raw.spec);
      RecordKeeps(cfg, db1, key, Command(db.nextId, SubmitPayload(raw), db.clock, None));
      AdvancesTransitive(cfg, db, db1, Submit(db, key, raw).0);
    } else {
      AdvancesReflexive(db);
    }
  }

  lemma CancelOpenKeeps(cfg: Config, db: Db, t: TaskId)
    requires Inv(cfg, db) && t in db.tasks && !Terminal(db.tasks[t].status)
    ensures Inv(cfg, CancelOpen(db, t)) && Advances(db, CancelOpen(db, t))
  {
    hide Inv, Advances, Holds, Referenced, TaskChange, TaskSound;
    InvReferences(cfg, db);
    EventsKnown(db);
    SoundTask(cfg, db, t);
    var db1 := CancelOpen(db, t);
    CancelChanges(db, t);
    TaskKeeps(cfg, db, t, db1.tasks[t], db1.events);
  }

  lemma CancelChanges(db: Db, t: TaskId)
    requires t in db.tasks && TaskSound(db.tasks[t]) && !Terminal(db.tasks[t].status)
    ensures var db1 := CancelOpen(db, t);
            t in db1.tasks && TaskChange(db.tasks[t], db1.tasks[t])
            && db1 == db.(tasks := db.tasks[t := db1.tasks[t]], events := db1.events)
            && forall e :: e in db1.events ==> e in db.events || e.task == t
  {
  }

  lemma SoundTask(cfg: Config, db: Db, t: TaskId)
    requires Inv(cfg, db) && t in db.tasks
    ensures TaskSound(db.tasks[t]) && t < db.nextId && Holds(db.tasks[t], t, db.attempts)
  {
  }

  lemma SoundAttempt(cfg: Config, db: Db, a: AttemptId)
    requires Inv(cfg, db) && a in db.attempts
    ensures a < db.nextId && AttemptSound(a, db.attempts[a], db.clock)
    ensures db.attempts[a].task in db.tasks && HeldBy(db.tasks[db.attempts[a].task], a, db.attempts[a])
  {
  }

  lemma CancelKeeps(cfg: Config, db: Db, t: TaskId, key: Label)
    requires Inv(cfg, db)
    ensures Inv(cfg, StoreOps.Cancel(db, t, key).0) && Advances(db, StoreOps.Cancel(db, t, key).0)
  {
    hide Inv, Advances;
    if key !in db.commands && t in db.tasks {
      SoundTask(cfg, db, t);
      var db1 := Record(db, key, Command(t, CancelPayload(t), db.clock, None));
      RecordKeeps(cfg, db, key, Command(t, CancelPayload(t), db.clock, None));
      if Terminal(db.tasks[t].status) {
        LogKeeps(cfg, db1, t, CancelIgnored);
      } else {
        CancelOpenKeeps(cfg, db1, t);
      }
      AdvancesTransitive(cfg, db, db1, StoreOps.Cancel(db, t, key).0);
    } else {
      AdvancesReflexive(db);
    }
  }

  lemma RegisterKeeps(cfg: Config, db: Db, w: WorkerId, worker: Worker)
    requires Inv(cfg, db)
    ensures var db1 := db.(workers := db.workers[w := worker]); Inv(cfg, db1) && Advances(db, db1)
  {
    hide Inv;
    InvReferences(cfg, db);
    AsideSame(db);
    AsideKeeps(cfg, db, db.(workers := db.workers[w := worker]));
  }

  // ------------------------------------------------------------- new workflows

  lemma NewRootFlow(tasks: map<TaskId, Task>, attempts: map<AttemptId, Attempt>, roots: map<TaskId, Root>, rows: seq<Child>, r: TaskId, root: Root)
    requires RootsSound(tasks, roots) && ChildrenSound(tasks, roots, rows)
    requires RootsAccounted(tasks, attempts, roots, rows) && Allocated(tasks, roots, rows) && Plans(roots, rows)
    requires r in tasks && r !in roots && !Named(rows, r)
    requires root.planRevision == 0 && root.maxAttempts >= 1 && root.tokensUsed == 0 && root.attemptsUsed == 0
    requires root.maxTokens.Some? ==> root.maxTokens.value >= 0
    ensures var roots1 := roots[r := root];
            && RootsSound(tasks, roots1) && ChildrenSound(tasks, roots1, rows)
            && RootsAccounted(tasks, attempts, roots1, rows) && Allocated(tasks, roots1, rows) && Plans(roots1, rows)
  {
    assert forall c :: c in rows ==> c.root != r && c.task != r;
    assert ChildUsage(tasks, rows, r) == map[];
    assert Commitments(tasks, rows, r) == map[];
    assert ChildAttempts(attempts, rows, r) == {};
  }

  lemma NewRootReferences(db: Db, r: TaskId, root: Root)
    requires Referenced(db) && r !in db.intents
    ensures Referenced(db.(roots := db.roots[r := root]))
  {
    var db1 := db.(roots := db.roots[r := root]);
    forall x | x in db1.intents ensures IntentSound(db1, x, db1.intents[x]) {
      assert IntentSound(db, x, db.intents[x]);
    }
  }

  lemma NewRootKeeps(cfg: Config, db: Db, r: TaskId, root: Root)
    requires Inv(cfg, db) && r in db.tasks && r !in db.roots && r !in db.intents && !Named(db.children, r)
    requires root.planRevision == 0 && root.maxAttempts >= 1 && root.tokensUsed == 0 && root.attemptsUsed == 0
    requires root.maxTokens.Some? ==> root.maxTokens.value >= 0
    ensures var db1 := db.(roots := db.roots[r := root]); Inv(cfg, db1) && Advances(db, db1)
  {
    hide Rows, Linked, Outcomes, Numbered, Limited, Accounted, RootsSound, ChildrenSound, Distinct;
    hide RootsAccounted, Allocated, Plans, Gated, Sent, Referenced;
    NewRootFlow(db.tasks, db.attempts, db.roots, db.children, r, root);
    NewRootReferences(db, r, root);
  }

  lemma CreateKeeps(cfg: Config, db: Db, key: Label, raw: Raw)
    requires Inv(cfg, db)
    ensures Inv(cfg, CreateWorkflow(db, key, raw).0) && Advances(db, CreateWorkflow(db, key, raw).0)
  {
    hide Inv, Advances;
    var result := CreateWorkflow(db, key, raw).0;
    if result == db {
      AdvancesReflexive(db);
    } else {
      var w := raw.workflow.value;
      var t := db.nextId;
      var db1 := InsertTask(db, PlannerSpec(raw, w));
      InsertTaskKeeps(cfg, db, PlannerSpec(raw, w));
      var c := Command(t, SubmitPayload(raw), db.clock, None);
      var db2 := Record(db1, key, c);
      RecordKeeps(cfg, db1, key, c);
      AdvancesTransitive(cfg, db, db1, db2);
      var root := Root(Planning, 0, 0, [], raw.spec, w.maxChildren, w.maxTokens, w.maxAttempts, 0, 0, None);
      var db3 := db2.(roots := db2.roots[t := root]);
      NewRootKeeps(cfg, db2, t, root);
      AdvancesTransitive(cfg, db, db2, db3);
      LogKeeps(cfg, db3, t, WorkflowCreated);
      AdvancesTransitive(cfg, db, db3, Log(db3, t, WorkflowCreated));
    }
  }

  // -------------------------------------------------------------- observations

  /** Only the current attempt's row changes. */
  lemma AttemptKeeps(cfg: Config, db: Db, a: AttemptId, arow: Attempt, events: seq<Event>)
    requires Inv(cfg, db) && a in db.attempts && !db.attempts[a].settled && !arow.settled
    requires AttemptSound(a, arow, db.clock) && AttemptAdvances(db.attempts[a], arow)
    requires forall e :: e in events ==> e.task in db.tasks
    ensures var db1 := db.(attempts := db.attempts[a := arow], events := events); Inv(cfg, db1) && Advances(db, db1)
  {
    hide Inv, Advances, Executions;
    SoundAttempt(cfg, db, a);
    var t := db.attempts[a].task;
    SoundTask(cfg, db, t);
    var task := db.tasks[t];
    assert PairChange(t, task, task, a, db.attempts[a], arow, Executions(db.attempts[a := arow], t), db.clock);
    assert Charged(db.roots, db.children, t, 0, db.roots);
    PairKeeps(cfg, db, t, task, a, arow, db.roots, events);
    assert db.tasks[t := task] == db.tasks;
  }

  lemma ObservedSound(a: AttemptId, row: Attempt, sequence: nat, state: AttemptState, r: Report, now: Time)
    requires AttemptSound(a, row, now) && !row.settled && Transition(row.state, state) && sequence > row.sequence
    ensures var row' := ObservedRow(a, row, sequence, state, r, now);
            AttemptSound(a, row', now) && AttemptAdvances(row, row') && !row'.settled
  {
  }

  lemma ObserveKeeps(cfg: Config, db: Db, a: AttemptId, w: WorkerId, sequence: nat, state: AttemptState, r: Report)
    requires Inv(cfg, db)
    ensures var db1 := Observe(db, a, w, sequence, state, r).0; Inv(cfg, db1) && Advances(db, db1)
  {
    hide Inv, Advances;
    var (db1, observed) := Observe(db, a, w, sequence, state, r);
    if observed.Applied? {
      var row := db.attempts[a];
      SoundAttempt(cfg, db, a);
      SoundTask(cfg, db, row.task);
      ObservedSound(a, row, sequence, state, r, db.clock);
      InvReferences(cfg, db);
      EventsKnown(db);
      AttemptKeeps(cfg, db, a, ObservedRow(a, row, sequence, state, r, db.clock), db1.events);
    } else {
      AdvancesReflexive(db);
    }
  }

  lemma ResolveKeeps(cfg: Config, db: Db, a: AttemptId, confirmed: bool)
    requires Inv(cfg, db)
    ensures Inv(cfg, Resolve(db, a, confirmed).0) && Advances(db, Resolve(db, a, confirmed).0)
  {
    hide Inv, Advances;
    var (db1, error) := Resolve(db, a, confirmed);
    if error.None? {
      SoundAttempt(cfg, db, a);
      InvReferences(cfg, db);
      EventsKnown(db);
      AttemptKeeps(cfg, db, a, db1.attempts[a], db1.events);
    } else {
      AdvancesReflexive(db);
    }
  }

  lemma ClaimKeeps(cfg: Config, db: Db, a: AttemptId, w: WorkerId, identified: bool)
    requires Inv(cfg, db)
    ensures var db1 := ClaimLaunch(db, a, w, identified).0; Inv(cfg, db1) && Advances(db, db1)
  {
    hide Inv, Advances;
    var (db1, claim) := ClaimLaunch(db, a, w, identified);
    if claim.Skipped? {
      AdvancesReflexive(db);
    } else {
      SoundAttempt(cfg, db, a);
      InvReferences(cfg, db);
      EventsKnown(db);
      var db2 := db.(attempts := db.attempts[a := db1.attempts[a]], events := db1.events);
      AttemptKeeps(cfg, db, a, db1.attempts[a], db1.events);
      if claim.Claimed? {
        InvReferences(cfg, db2);
        AsideSame(db2);
        AsideKeeps(cfg, db2, db1);
        AdvancesTransitive(cfg, db, db2, db1);
      }
    }
  }
}
