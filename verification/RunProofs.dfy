/** What every reachable state of the whole orchestrator satisfies. */
module RunProofs {
  import opened Types
  import opened Sums
  import opened Graph
  import opened StoreOps
  import opened WorkflowOps
  import opened ManagerOps
  import opened RunnerOps
  import opened System
  import opened Invariant
  import opened PairProofs
  import opened TaskProofs
  import opened StoreProofs
  import opened SettleProofs
  import opened ScheduleProofs
  import opened PlanProofs
  import opened RetainProofs
  import opened CommitProofs
  import opened SteadyProofs

  function LargestOf(largest: map<TaskId, nat>, t: TaskId): nat {
    if t in largest then largest[t] else 0
  }

  /** An execution whose outcome was or is uncertain. */
  predicate Stuck(row: Attempt) {
    row.state.Unknown? || (row.state.Failed? && row.kind == Some(Permanent))
  }

  predicate Started(row: Attempt) {
    !row.state.Queued? && row.kind != Some(NotStarted)
  }

  /** The history marks are still visible on the rows they are about. */
  ghost predicate Marks(db: Db, everUnknown: set<AttemptId>, everLaunched: set<AttemptId>) {
    && (forall a :: a in everUnknown ==> a < db.nextId && (a in db.attempts ==> Stuck(db.attempts[a])))
    && (forall a :: a in everLaunched ==> a < db.nextId && (a in db.attempts ==> Started(db.attempts[a])))
  }

  ghost function KnownUses(attempts: map<AttemptId, Attempt>, t: TaskId): map<AttemptId, int> {
    map a | a in attempts && attempts[a].task == t :: attempts[a].knownTokens
  }

  /** A task's known usage over all its attempts exceeds its ceiling by less than one response. */
  ghost predicate Spending(db: Db, largest: map<TaskId, nat>) {
    forall t :: t in db.tasks && db.tasks[t].spec.budget.maxTokens.Some? ==>
      Sum(KnownUses(db.attempts, t)) < db.tasks[t].spec.budget.maxTokens.value + LargestOf(largest, t)
  }

  /** A runner's remembered base is what its task has really used, as long as its attempt is unsettled. */
  predicate RunnerSound(db: Db, largest: map<TaskId, nat>, a: AttemptId, r: Runner) {
    && a < db.nextId
    && (a in db.attempts ==> db.attempts[a].task == r.task && !db.attempts[a].state.Queued?)
    && (a in db.attempts && !db.attempts[a].settled ==>
          r.task in db.tasks && r.base == db.tasks[r.task].tokensUsed && r.ceiling == db.tasks[r.task].spec.budget.maxTokens)
    && (r.ceiling.Some? ==> r.base + r.tokens < r.ceiling.value + LargestOf(largest, r.task))
  }

  ghost predicate Sound(cfg: Config, m: Machine) {
    && Inv(cfg, m.db)
    && (forall s :: s in m.flight ==> SnapSound(m.db, s))
    && (forall a :: a in m.runners ==> RunnerSound(m.db, m.largest, a, m.runners[a]))
    && Marks(m.db, m.everUnknown, m.everLaunched)
    && Spending(m.db, m.largest)
    && Rotation(m.db.placements, m.db.lastWorker)
  }

  // --------------------------------------------------------------- token spending

  lemma {:induction false} SumMonotone(m: map<nat, int>, n: map<nat, int>)
    requires forall k :: k in m ==> m[k] <= if k in n then n[k] else 0
    requires forall k :: k in n ==> n[k] >= 0
    ensures Sum(m) <= Sum(n)
    decreases |m| + |n|
  {
    if m != map[] {
      var k :| k in m;
      SumRemove(m, k);
      if k in n {
        SumRemove(n, k);
        SumMonotone(m - {k}, n - {k});
      } else {
        SumMonotone(m - {k}, n);
      }
    } else if n != map[] {
      var k :| k in n;
      SumRemove(n, k);
      SumMonotone(m, n - {k});
    }
  }

  /** Known usage never grows without a report. */
  lemma SteadyUses(x: Db, y: Db, t: TaskId)
    requires KnownUsage(x.attempts, y.attempts) && Advances(x, y)
    ensures Sum(KnownUses(y.attempts, t)) <= Sum(KnownUses(x.attempts, t))
  {
    forall a | a in KnownUses(y.attempts, t) && a in x.attempts ensures x.attempts[a].task == t {
      SameTask(x.attempts[a], y.attempts[a]);
    }
    hide Advances;
    SumMonotone(KnownUses(y.attempts, t), KnownUses(x.attempts, t));
  }

  lemma SteadySpending(cfg: Config, x: Db, y: Db, largest: map<TaskId, nat>)
    requires Inv(cfg, x) && Inv(cfg, y) && Advances(x, y) && KnownUsage(x.attempts, y.attempts) && Spending(x, largest)
    ensures Spending(y, largest)
  {
    hide Inv, KnownUses, Sum;
    forall t | t in y.tasks && y.tasks[t].spec.budget.maxTokens.Some?
      ensures Sum(KnownUses(y.attempts, t)) < y.tasks[t].spec.budget.maxTokens.value + LargestOf(largest, t)
    {
      SteadyUses(x, y, t);
      if t in x.tasks {
        assert TaskAdvances(x.tasks[t], y.tasks[t]);
      } else {
        NoUses(cfg, x, t);
        SoundTask(cfg, y, t);
      }
    }
  }

  lemma NoUses(cfg: Config, db: Db, t: TaskId)
    requires Inv(cfg, db) && t !in db.tasks
    ensures Sum(KnownUses(db.attempts, t)) == 0
  {
    KnownTasks(cfg, db);
    assert KnownUses(db.attempts, t) == map[];
  }

  lemma OpenWhole(cfg: Config, db: Db, t: TaskId)
    requires Inv(cfg, db) && t in db.tasks && !Terminal(db.tasks[t].status)
    ensures Whole(db.intents, t)
    ensures db.tasks[t].tokensUsed == Sum(SettledUsage(db.attempts, t))
  {
    InvReferences(cfg, db);
    assert t in db.intents ==> IntentSound(db, t, db.intents[t]);
    assert Accounted(db.tasks, db.attempts, db.intents);
  }

  /** An unsettled attempt's known usage is all that its task has not accounted yet. */
  lemma OpenUses(cfg: Config, db: Db, a: AttemptId)
    requires Inv(cfg, db) && a in db.attempts && !db.attempts[a].settled
    ensures var t := db.attempts[a].task; t in db.tasks && Sum(KnownUses(db.attempts, t)) == db.tasks[t].tokensUsed + db.attempts[a].knownTokens
  {
    hide Inv;
    SoundAttempt(cfg, db, a);
    var t := db.attempts[a].task;
    OpenWhole(cfg, db, t);
    var settled, all := SettledUsage(db.attempts, t), KnownUses(db.attempts, t);
    forall b | b in db.attempts && db.attempts[b].task == t && b != a ensures db.attempts[b].settled {
      SoundAttempt(cfg, db, b);
    }
    assert all == settled[a := db.attempts[a].knownTokens];
    SumSet(settled, a, db.attempts[a].knownTokens);
  }

  /** While an attempt stays unsettled, its task's accounted usage does not move. */
  lemma UsageFrozen(cfg: Config, x: Db, y: Db, a: AttemptId)
    requires Inv(cfg, x) && Inv(cfg, y) && Advances(x, y)
    requires a in x.attempts && a in y.attempts && !y.attempts[a].settled
    ensures var t := y.attempts[a].task;
            t == x.attempts[a].task && t in x.tasks && t in y.tasks && y.tasks[t].tokensUsed == x.tasks[t].tokensUsed
            && y.tasks[t].spec == x.tasks[t].spec && !x.attempts[a].settled
  {
    hide Inv;
    assert AttemptAdvances(x.attempts[a], y.attempts[a]);
    SoundAttempt(cfg, x, a);
    SoundAttempt(cfg, y, a);
    KnownIds(cfg, x);
    var t := y.attempts[a].task;
    OpenWhole(cfg, x, t);
    OpenWhole(cfg, y, t);
    assert TaskAdvances(x.tasks[t], y.tasks[t]);
    SettledSame(cfg, x, y, a, t);
  }

  lemma SettledSame(cfg: Config, x: Db, y: Db, a: AttemptId, t: TaskId)
    requires Inv(cfg, x) && Inv(cfg, y) && Advances(x, y)
    requires a in x.attempts && a in y.attempts && !y.attempts[a].settled && !x.attempts[a].settled
    requires x.attempts[a].task == t && y.attempts[a].task == t
    ensures SettledUsage(x.attempts, t) == SettledUsage(y.attempts, t)
  {
    hide Inv;
    SoundAttempt(cfg, x, a);
    SoundAttempt(cfg, y, a);
    KnownIds(cfg, x);
    forall b | b in y.attempts && y.attempts[b].task == t && y.attempts[b].settled
      ensures b in x.attempts && x.attempts[b] == y.attempts[b]
    {
      SoundAttempt(cfg, y, b);
      if b in x.attempts {
        SoundAttempt(cfg, x, b);
        assert AttemptAdvances(x.attempts[b], y.attempts[b]);
      }
    }
    assert Attempted(y.attempts, t);
    forall b | b in x.attempts && x.attempts[b].task == t && x.attempts[b].settled
      ensures b in y.attempts && y.attempts[b] == x.attempts[b]
    {
      assert b !in y.attempts ==> Cleaned(y, t);
      assert b in y.attempts ==> AttemptAdvances(x.attempts[b], y.attempts[b]);
    }
  }

  lemma RunnerStays(cfg: Config, x: Db, y: Db, largest: map<TaskId, nat>, a: AttemptId, r: Runner)
    requires Inv(cfg, x) && Inv(cfg, y) && Advances(x, y) && RunnerSound(x, largest, a, r)
    ensures RunnerSound(y, largest, a, r)
  {
    hide Inv;
    if a in y.attempts {
      assert a in x.attempts && AttemptAdvances(x.attempts[a], y.attempts[a]);
      if !y.attempts[a].settled {
        UsageFrozen(cfg, x, y, a);
      }
    }
  }

  lemma MarksStay(x: Db, y: Db, everUnknown: set<AttemptId>, everLaunched: set<AttemptId>)
    requires Marks(x, everUnknown, everLaunched) && Advances(x, y)
    ensures Marks(y, everUnknown, everLaunched)
  {
    forall a | a in y.attempts && a in x.attempts
      ensures (Stuck(x.attempts[a]) ==> Stuck(y.attempts[a])) && (Started(x.attempts[a]) ==> Started(y.attempts[a]))
    {
      assert AttemptAdvances(x.attempts[a], y.attempts[a]);
    }
    hide Stuck, Started, AttemptAdvances, TaskAdvances, RootAdvances;
  }

  lemma MarksNow(cfg: Config, db: Db, everUnknown: set<AttemptId>, everLaunched: set<AttemptId>)
    requires Inv(cfg, db) && Marks(db, everUnknown, everLaunched)
    ensures Marks(db, everUnknown + InUnknown(db), everLaunched + InLaunch(db))
  {
    hide Inv;
    KnownIds(cfg, db);
    forall a | a in db.attempts && db.attempts[a].state.Launching? ensures Started(db.attempts[a]) {
      SoundAttempt(cfg, db, a);
    }
  }

  // ------------------------------------------------------------------------ steps

  /** A new database that advances the old one keeps the machine sound. */
  lemma DbKeeps(cfg: Config, m: Machine, db1: Db)
    requires Sound(cfg, m) && Inv(cfg, db1) && Advances(m.db, db1)
    requires Spending(db1, m.largest) && Rotation(db1.placements, db1.lastWorker)
    ensures Sound(cfg, m.(db := db1))
  {
    hide Inv, Advances, SnapSound, RunnerSound, Marks, Spending, Rotation;
    forall s | s in m.flight ensures SnapSound(db1, s) {
      SnapStays(m.db, db1, s);
    }
    forall a | a in m.runners ensures RunnerSound(db1, m.largest, a, m.runners[a]) {
      RunnerStays(cfg, m.db, db1, m.largest, a, m.runners[a]);
    }
    MarksStay(m.db, db1, m.everUnknown, m.everLaunched);
  }

  /** So does a committed transaction, which extends the history. */
  lemma InstallKeeps(cfg: Config, m: Machine, db1: Db)
    requires Sound(cfg, m) && Inv(cfg, db1) && Advances(m.db, db1)
    requires Spending(db1, m.largest) && Rotation(db1.placements, db1.lastWorker)
    ensures Sound(cfg, Install(m, db1))
  {
    DbKeeps(cfg, m, db1);
    hide Inv, Advances, SnapSound, RunnerSound, Marks, Spending, Rotation, InUnknown, InLaunch;
    MarksNow(cfg, db1, m.everUnknown, m.everLaunched);
  }

  lemma Accessors(cfg: Config, m: Machine)
    requires Sound(cfg, m)
    ensures Marks(m.db, m.everUnknown, m.everLaunched) && Spending(m.db, m.largest) && Rotation(m.db.placements, m.db.lastWorker)
  {
    hide Inv, SnapSound, RunnerSound, Marks, Spending, Rotation;
  }

  lemma FlightSound(cfg: Config, m: Machine, s: Snapshot)
    requires Sound(cfg, m) && s in m.flight
    ensures SnapSound(m.db, s)
  {
    hide Inv, SnapSound, RunnerSound, Marks, Spending, Rotation;
  }

  lemma MoreSnaps(cfg: Config, m: Machine, snaps: seq<Snapshot>)
    requires Sound(cfg, m) && forall s :: s in snaps ==> SnapSound(m.db, s)
    ensures Sound(cfg, m.(flight := m.flight + multiset(snaps)))
  {
    hide Inv, SnapSound, RunnerSound, Marks, Spending, Rotation;
  }

  lemma MoreRunners(cfg: Config, m: Machine, a: AttemptId, r: Runner)
    requires Sound(cfg, m) && RunnerSound(m.db, m.largest, a, r)
    ensures Sound(cfg, m.(runners := m.runners[a := r]))
  {
    hide Inv, SnapSound, RunnerSound, Marks, Spending, Rotation;
  }

  lemma RunnerAt(cfg: Config, m: Machine, a: AttemptId)
    requires Sound(cfg, m) && a in m.runners
    ensures RunnerSound(m.db, m.largest, a, m.runners[a])
  {
    hide Inv, SnapSound, RunnerSound, Marks, Spending, Rotation;
  }

  lemma QuietKeeps(cfg: Config, m: Machine, db1: Db)
    requires Sound(cfg, m) && Inv(cfg, db1) && Advances(m.db, db1) && KnownUsage(m.db.attempts, db1.attempts)
    requires Rotation(m.db.placements, m.db.lastWorker) ==> Rotation(db1.placements, db1.lastWorker)
    ensures Sound(cfg, Install(m, db1))
  {
    hide Inv, Advances, Spending, Rotation, KnownUsage;
    SteadySpending(cfg, m.db, db1, m.largest);
    InstallKeeps(cfg, m, db1);
  }

  lemma SteadyKeeps(cfg: Config, m: Machine, db1: Db, decided: Option<TaskId>)
    requires Sound(cfg, m) && Inv(cfg, db1) && Advances(m.db, db1) && Steady(m.db, db1, decided)
    ensures Sound(cfg, Install(m, db1))
  {
    hide Inv, Advances, Sound, Rotation, KnownUsage;
    QuietKeeps(cfg, m, db1);
  }

  lemma SameUsage(x: Db, y: Db)
    requires y.attempts == x.attempts
    ensures KnownUsage(x.attempts, y.attempts)
  {
  }

  predicate SameWork(x: Db, y: Db) {
    y.attempts == x.attempts && y.placements == x.placements && y.lastWorker == x.lastWorker
  }

  lemma SubmitFrame(db: Db, key: Label, raw: Raw)
    ensures SameWork(db, Submit(db, key, raw).0)
  {
    hide ValidSpec;
  }

  lemma CreateFrame(db: Db, key: Label, raw: Raw)
    ensures SameWork(db, CreateWorkflow(db, key, raw).0)
  {
    hide ValidSpec, ValidWorkflow, PlannerSpec, NewTask;
    var db1 := CreateWorkflow(db, key, raw).0;
    if db1 != db {
      assert db1 == db.(tasks := db1.tasks, nextId := db1.nextId, events := db1.events, commands := db1.commands, roots := db1.roots);
    }
  }

  lemma CancelOpenFrame(db: Db, t: TaskId)
    requires t in db.tasks
    ensures CancelOpen(db, t).attempts == db.attempts && CancelOpen(db, t).commands == db.commands && CancelOpen(db, t).roots == db.roots
    ensures CancelOpen(db, t).placements == db.placements && CancelOpen(db, t).lastWorker == db.lastWorker
  {
  }

  lemma CancelFrame(db: Db, key: Label, t: TaskId)
    ensures SameWork(db, StoreOps.Cancel(db, t, key).0)
  {
    hide CancelOpen;
    if t in db.tasks {
      CancelOpenFrame(Record(db, key, Command(t, CancelPayload(t), db.clock, None)), t);
    }
  }

  lemma CommandKeeps(cfg: Config, m: Machine, db1: Db)
    requires Sound(cfg, m) && Inv(cfg, db1) && Advances(m.db, db1)
    requires SameWork(m.db, db1)
    ensures Sound(cfg, Install(m, db1))
  {
    hide Inv, Advances, Sound, Rotation;
    SameUsage(m.db, db1);
    QuietKeeps(cfg, m, db1);
  }

  lemma SubmitSound(cfg: Config, m: Machine, key: Label, raw: Raw)
    requires Sound(cfg, m)
    ensures Sound(cfg, Install(m, Submit(m.db, key, raw).0)) && Sound(cfg, Install(m, CreateWorkflow(m.db, key, raw).0))
  {
    hide Inv, Advances, Sound, Submit, CreateWorkflow;
    SoundDb(cfg, m);
    SubmitFrame(m.db, key, raw);
    CreateFrame(m.db, key, raw);
    SubmitKeeps(cfg, m.db, key, raw);
    CommandKeeps(cfg, m, Submit(m.db, key, raw).0);
    CreateKeeps(cfg, m.db, key, raw);
    CommandKeeps(cfg, m, CreateWorkflow(m.db, key, raw).0);
  }

  lemma SoundDb(cfg: Config, m: Machine)
    requires Sound(cfg, m)
    ensures Inv(cfg, m.db)
  {
  }

  lemma CancelSound(cfg: Config, m: Machine, t: TaskId, key: Label)
    requires Sound(cfg, m)
    ensures Sound(cfg, Install(m, StoreOps.Cancel(m.db, t, key).0))
  {
    hide Inv, Advances, Sound, StoreOps.Cancel;
    SoundDb(cfg, m);
    CancelFrame(m.db, key, t);
    CancelKeeps(cfg, m.db, t, key);
    CommandKeeps(cfg, m, StoreOps.Cancel(m.db, t, key).0);
  }

  lemma AsideSound(cfg: Config, m: Machine, db1: Db)
    requires Sound(cfg, m) && Aside(m.db, db1) && SameWork(m.db, db1)
    ensures Sound(cfg, Install(m, db1))
  {
    hide Inv, Advances, Sound, Aside, SameWork;
    SoundDb(cfg, m);
    AsideKeeps(cfg, m.db, db1);
    CommandKeeps(cfg, m, db1);
  }

  lemma WorkersAside(db: Db, workers: map<WorkerId, Worker>)
    requires Referenced(db) && db.workers.Keys <= workers.Keys
    ensures Aside(db, db.(workers := workers)) && SameWork(db, db.(workers := workers))
  {
    AsideSame(db);
    hide Referenced;
  }

  lemma WorkerAside(db: Db, w: WorkerId, runtimes: set<Label>, slots: nat, allowWrite: bool)
    requires Referenced(db)
    ensures Aside(db, RegisterWorker(db, w, runtimes, slots, allowWrite).0) && SameWork(db, RegisterWorker(db, w, runtimes, slots, allowWrite).0)
    ensures Aside(db, HeartbeatWorker(db, w)) && SameWork(db, HeartbeatWorker(db, w))
  {
    hide Referenced, Aside, SameWork;
    WorkersAside(db, db.workers);
    WorkersAside(db, RegisterWorker(db, w, runtimes, slots, allowWrite).0.workers);
    WorkersAside(db, HeartbeatWorker(db, w).workers);
  }

  lemma WorkerSound(cfg: Config, m: Machine, w: WorkerId, runtimes: set<Label>, slots: nat, allowWrite: bool)
    requires Sound(cfg, m)
    ensures Sound(cfg, Install(m, RegisterWorker(m.db, w, runtimes, slots, allowWrite).0))
    ensures Sound(cfg, Install(m, HeartbeatWorker(m.db, w)))
  {
    hide Inv, Sound, Aside, SameWork, RegisterWorker, HeartbeatWorker, Referenced;
    SoundDb(cfg, m);
    InvReferences(cfg, m.db);
    WorkerAside(m.db, w, runtimes, slots, allowWrite);
    AsideSound(cfg, m, RegisterWorker(m.db, w, runtimes, slots, allowWrite).0);
    AsideSound(cfg, m, HeartbeatWorker(m.db, w));
  }

  lemma PublishSound(cfg: Config, m: Machine, a: AttemptId)
    requires Sound(cfg, m)
    ensures Sound(cfg, Install(m, m.db.(files := m.db.files + {a})))
  {
    hide Inv, Sound, Referenced;
    SoundDb(cfg, m);
    InvReferences(cfg, m.db);
    AsideSame(m.db);
    AsideSound(cfg, m, m.db.(files := m.db.files + {a}));
  }

  lemma OneRowUses(db: Db, a: AttemptId, row: Attempt, events: seq<Event>)
    requires a in db.attempts && row.knownTokens == db.attempts[a].knownTokens
    ensures KnownUsage(db.attempts, db.(attempts := db.attempts[a := row], events := events).attempts)
  {
  }

  lemma ResolveUses(db: Db, a: AttemptId, confirmed: bool)
    ensures var db1 := Resolve(db, a, confirmed).0;
            KnownUsage(db.attempts, db1.attempts) && db1.placements == db.placements && db1.lastWorker == db.lastWorker
  {
    hide KnownUsage;
    SameUsage(db, db);
    var (db1, error) := Resolve(db, a, confirmed);
    if error.None? {
      OneRowUses(db, a, db1.attempts[a], db1.events);
    }
  }

  lemma ResolveSound(cfg: Config, m: Machine, a: AttemptId, confirmed: bool)
    requires Sound(cfg, m)
    ensures Sound(cfg, Install(m, Resolve(m.db, a, confirmed).0))
  {
    hide Inv, Advances, Sound, Resolve, Rotation, KnownUsage;
    SoundDb(cfg, m);
    ResolveKeeps(cfg, m.db, a, confirmed);
    ResolveUses(m.db, a, confirmed);
    QuietKeeps(cfg, m, Resolve(m.db, a, confirmed).0);
  }

  lemma TickSteady(cfg: Config, db: Db, env: Env)
    requires Inv(cfg, db)
    ensures Steady(db, Tick(db, cfg, env).0, None)
  {
    hide Inv, Advances, Steady, ReconcileAll, ScheduleAll;
    var db1 := ReconcileAll(db, cfg, env, OpenTasks(db)).0;
    ReconcileAllKeeps(cfg, db, env, OpenTasks(db));
    ReconcileAllSteady(cfg, db, env, OpenTasks(db));
    ScheduleAllSteady(cfg, db1, env, EligibleTasks(db1));
    SteadyCompose(db, db1, Tick(db, cfg, env).0, None);
  }

  lemma {:induction false} ScheduleAllSteady(cfg: Config, db: Db, env: Env, ids: seq<TaskId>)
    requires Inv(cfg, db) && Ascends(ids) && forall t :: t in ids ==> Queueable(db, t)
    ensures Steady(db, ScheduleAll(db, cfg, env, ids), None) && KeepsAttempts(db, ScheduleAll(db, cfg, env, ids))
  {
    hide Inv, Advances, Steady, ScheduleOne, Reserved;
    if ids == [] {
      SteadyReflexive(db);
    } else {
      var n := |ids| - 1;
      var db1 := ScheduleAll(db, cfg, env, ids[..n]);
      assert forall t :: t in ids[..n] ==> t in ids;
      ScheduleAllKeeps(cfg, db, env, ids[..n]);
      ScheduleAllSteady(cfg, db, env, ids[..n]);
      if |Reserved(db1.attempts)| < cfg.maxActive {
        FreshId(cfg, db1);
        ScheduleOneSteady(cfg, db1, env, ids[n]);
        SteadyCompose(db, db1, ScheduleOne(db1, cfg, env, ids[n]), None);
      }
    }
  }

  lemma TickSound(cfg: Config, m: Machine, env: Env)
    requires Sound(cfg, m)
    ensures Sound(cfg, TickStep(cfg, m, env))
  {
    hide Inv, Advances, Tick, Steady, SnapSound, Sound, InUnknown, InLaunch;
    SoundDb(cfg, m);
    var (db1, snaps) := Tick(m.db, cfg, env);
    TickKeeps(cfg, m.db, env);
    TickSteady(cfg, m.db, env);
    SteadyKeeps(cfg, m, db1, None);
    TickSnaps(cfg, m.db, env);
    MoreSnaps(cfg, Install(m, db1), snaps);
  }

  lemma CommitSteady(db: Db, t: TaskId, accepted: bool, plan: Option<PlanDoc>)
    requires Settleable(db, t)
    ensures Steady(db, SettleWithPlan(db, t, accepted, plan), if accepted then Some(t) else None)
  {
    hide Steady, Settle, SettlePlan;
    SettledPair(db, t, accepted);
    SteadyReflexive(db);
    SettleSteady(db, t, accepted);
    WeakerSteady(db, t);
    var settled := Settle(db, t, accepted);
    if settled.tasks[t].status.Succeeded? && t in db.roots && plan.Some? {
      var z := SettlePlan(settled, t, plan.value, false).0;
      SettlePlanSteady(settled, t, plan.value, false);
      SteadyAfter(db, settled, z, if accepted then Some(t) else None);
    }
  }

  lemma WeakerSteady(db: Db, t: TaskId)
    ensures Steady(db, db, Some(t))
  {
  }

  lemma CommitSound(cfg: Config, m: Machine, s: Snapshot, valid: bool, plan: Option<PlanDoc>)
    requires Sound(cfg, m) && s in m.flight
    ensures Sound(cfg, Install(m.(flight := m.flight - multiset{s}), Commit(m.db, s, VerdictOf(s, valid), plan)))
  {
    hide Inv, Advances, Sound, SnapSound, Commit, SettleWithPlan, Steady;
    SoundDb(cfg, m);
    FlightSound(cfg, m, s);
    var m1 := m.(flight := m.flight - multiset{s});
    FewerRunners(cfg, m, m.runners, m1.flight);
    var db1 := Commit(m.db, s, VerdictOf(s, valid), plan);
    CommitKeeps(cfg, m.db, s, valid, plan);
    CommitRefinesAtomic(m.db, s, valid, plan);
    if Awaits(m.db, s) {
      CommitSteady(m.db, s.task, valid, plan);
      SteadyKeeps(cfg, m1, db1, if valid then Some(s.task) else None);
    } else {
      SteadyReflexive(m.db);
      SteadyKeeps(cfg, m1, db1, None);
    }
  }

  lemma RecordSound(cfg: Config, m: Machine, db1: Db, key: Option<Label>, c: Command)
    requires Sound(cfg, m) && Inv(cfg, db1) && Advances(m.db, db1) && Steady(m.db, db1, None)
    requires var db2 := if key.None? then db1 else Record(db1, key.value, c); Inv(cfg, db2) && Advances(m.db, db2)
    ensures Sound(cfg, Install(m, if key.None? then db1 else Record(db1, key.value, c)))
  {
    hide Inv, Advances, Sound, Rotation, KnownUsage, Successes;
    QuietKeeps(cfg, m, if key.None? then db1 else Record(db1, key.value, c));
  }

  lemma SettlePlanSound(cfg: Config, m: Machine, r: TaskId, doc: PlanDoc, replan: bool, key: Option<Label>)
    requires Sound(cfg, m)
    ensures Sound(cfg, Install(m, SettlePlanCommand(m.db, r, doc, replan, key).0))
  {
    hide Inv, Advances, Sound, SettlePlan, Steady;
    SoundDb(cfg, m);
    var db1 := SettlePlanCommand(m.db, r, doc, replan, key).0;
    SettlePlanCommandKeeps(cfg, m.db, r, doc, replan, key);
    if db1 == m.db {
      SteadyReflexive(m.db);
      SteadyKeeps(cfg, m, m.db, None);
    } else {
      var (db2, receipt) := SettlePlan(m.db, r, doc, replan);
      SettlePlanKeeps(cfg, m.db, r, doc, replan);
      SettlePlanSteady(m.db, r, doc, replan);
      RecordSound(cfg, m, db2, key, Command(r, PlanPayload(replan, r, doc), m.db.clock, Some(receipt)));
    }
  }

  lemma DeliverSound(cfg: Config, m: Machine, t: TaskId, sound: set<TaskId>)
    requires Sound(cfg, m)
    ensures Sound(cfg, Install(m, Deliver(m.db, t, sound).0))
  {
    hide Inv, Advances, Sound, Deliver, Steady;
    SoundDb(cfg, m);
    DeliverKeeps(cfg, m.db, t, sound);
    DeliverSteady(m.db, t, sound);
    SteadyKeeps(cfg, m, Deliver(m.db, t, sound).0, None);
  }

  lemma RetainFrame(db: Db, cfg: Config, now: Time)
    ensures SameWork(db, RetainMark(db, cfg, now)) && SameWork(db, RetainPurge(db, cfg, now))
  {
    hide Retirable, ResultPaths;
  }

  lemma DeleteUses(db: Db, t: TaskId)
    ensures var db1 := DeleteDependents(db, t);
            KnownUsage(db.attempts, db1.attempts) && db1.placements == db.placements && db1.lastWorker == db.lastWorker
  {
    hide Named;
  }

  lemma PhaseFrame(db: Db, t: TaskId)
    requires t in db.intents
    ensures var db1, d := RetainPhase(db, t), DeleteDependents(db, t);
            && (db1.attempts == db.attempts || db1.attempts == d.attempts)
            && (db1.placements == db.placements || db1.placements == d.placements)
            && (db1.lastWorker == db.lastWorker || db1.lastWorker == d.lastWorker)
  {
    hide DeleteDependents;
  }

  lemma RetainUses(db: Db, t: TaskId)
    requires t in db.intents
    ensures KnownUsage(db.attempts, RetainPhase(db, t).attempts)
    ensures RetainPhase(db, t).placements == db.placements && RetainPhase(db, t).lastWorker == db.lastWorker
  {
    hide DeleteDependents, KnownUsage, RetainPhase;
    DeleteUses(db, t);
    SameUsage(db, db);
    PhaseFrame(db, t);
  }

  lemma RetainSound(cfg: Config, m: Machine, t: TaskId, now: Time)
    requires Sound(cfg, m)
    ensures Sound(cfg, Install(m, RetainMark(m.db, cfg, now))) && Sound(cfg, Install(m, RetainPurge(m.db, cfg, now)))
    ensures t in m.db.intents ==> Sound(cfg, Install(m, RetainPhase(m.db, t)))
  {
    hide Inv, Advances, Sound, RetainMark, RetainPurge, RetainPhase, Rotation, KnownUsage;
    SoundDb(cfg, m);
    RetainFrame(m.db, cfg, now);
    RetainMarkKeeps(cfg, m.db, now);
    CommandKeeps(cfg, m, RetainMark(m.db, cfg, now));
    RetainPurgeKeeps(cfg, m.db, now);
    CommandKeeps(cfg, m, RetainPurge(m.db, cfg, now));
    if t in m.db.intents {
      RetainUses(m.db, t);
      RetainPhaseKeeps(cfg, m.db, t);
      QuietKeeps(cfg, m, RetainPhase(m.db, t));
    }
  }

  lemma WaitSound(cfg: Config, m: Machine, d: Time)
    requires Sound(cfg, m) && d >= 0.0
    ensures Sound(cfg, m.(db := m.db.(clock := m.db.clock + d)))
  {
    hide Inv, Advances, Sound, Rotation, Spending, Marks;
    SoundDb(cfg, m);
    var db1 := m.db.(clock := m.db.clock + d);
    WaitKeeps(cfg, m.db, d);
    Accessors(cfg, m);
    SameUsage(m.db, db1);
    SteadySpending(cfg, m.db, db1, m.largest);
    DbKeeps(cfg, m, db1);
  }

  // ---------------------------------------------------------------------- runners

  lemma ClaimUses(db: Db, a: AttemptId, w: WorkerId, identified: bool)
    ensures var db1 := ClaimLaunch(db, a, w, identified).0;
            KnownUsage(db.attempts, db1.attempts) && db1.placements == db.placements && db1.lastWorker == db.lastWorker
  {
    hide Permitted;
  }

  /** A fresh claim starts below its task's ceiling. */
  lemma ClaimedRunner(cfg: Config, db: Db, a: AttemptId, w: WorkerId, identified: bool, largest: map<TaskId, nat>)
    requires Inv(cfg, db) && ClaimLaunch(db, a, w, identified).1.Claimed?
    ensures RunnerSound(ClaimLaunch(db, a, w, identified).0, largest, a, ClaimLaunch(db, a, w, identified).1.runner)
  {
    hide Inv, Permitted;
    SoundAttempt(cfg, db, a);
    SoundTask(cfg, db, db.attempts[a].task);
  }

  lemma ClaimSound(cfg: Config, m: Machine, a: AttemptId, w: WorkerId, identified: bool)
    requires Sound(cfg, m)
    ensures Sound(cfg, ClaimStep(m, a, w, identified))
  {
    hide Inv, Advances, ClaimLaunch, Sound, RunnerSound, Rotation, KnownUsage, InUnknown, InLaunch;
    SoundDb(cfg, m);
    var (db1, claim) := ClaimLaunch(m.db, a, w, identified);
    ClaimKeeps(cfg, m.db, a, w, identified);
    ClaimUses(m.db, a, w, identified);
    QuietKeeps(cfg, m, db1);
    if claim.Claimed? {
      ClaimedRunner(cfg, m.db, a, w, identified, m.largest);
      MoreRunners(cfg, Install(m, db1), a, claim.runner);
    }
  }

  ghost predicate Grown(x: map<TaskId, nat>, y: map<TaskId, nat>) {
    forall t :: LargestOf(x, t) <= LargestOf(y, t)
  }

  lemma GrownRunner(db: Db, x: map<TaskId, nat>, y: map<TaskId, nat>, a: AttemptId, r: Runner)
    requires RunnerSound(db, x, a, r) && Grown(x, y)
    ensures RunnerSound(db, y, a, r)
  {
    assert LargestOf(x, r.task) <= LargestOf(y, r.task);
  }

  lemma GrownSpending(db: Db, x: map<TaskId, nat>, y: map<TaskId, nat>)
    requires Spending(db, x) && Grown(x, y)
    ensures Spending(db, y)
  {
    forall t | t in db.tasks && db.tasks[t].spec.budget.maxTokens.Some?
      ensures Sum(KnownUses(db.attempts, t)) < db.tasks[t].spec.budget.maxTokens.value + LargestOf(y, t)
    {
      assert LargestOf(x, t) <= LargestOf(y, t);
    }
  }

  /** A request is sent only below the ceiling, so its response is the whole overshoot. */
  lemma ResponseFits(db: Db, x: map<TaskId, nat>, y: map<TaskId, nat>, a: AttemptId, r: Runner, response: Response)
    requires RunnerSound(db, x, a, r) && MayRequest(r) && Grown(x, y)
    requires response.Counted? ==> response.tokens <= LargestOf(y, r.task)
    ensures RunnerSound(db, y, a, AfterResponse(r, response))
  {
    assert LargestOf(x, r.task) <= LargestOf(y, r.task);
  }

  lemma RequestSound(cfg: Config, m: Machine, a: AttemptId, response: Response)
    requires Sound(cfg, m)
    ensures Sound(cfg, RequestStep(m, a, response))
  {
    hide Inv, SnapSound, RunnerSound, Marks, Spending, Rotation, MayRequest, AfterResponse;
    if a in m.runners && MayRequest(m.runners[a]) {
      var m1 := RequestStep(m, a, response);
      assert Grown(m.largest, m1.largest);
      GrownSpending(m.db, m.largest, m1.largest);
      forall b | b in m.runners ensures RunnerSound(m.db, m1.largest, b, m1.runners[b]) {
        GrownRunner(m.db, m.largest, m1.largest, b, m.runners[b]);
        if b == a {
          ResponseFits(m.db, m.largest, m1.largest, a, m.runners[a], response);
        }
      }
    }
  }

  /** An accepted report leaves the larger of the row's usage and the runner's. */
  lemma ObservedKnown(a: AttemptId, row: Attempt, r: Runner, sequence: nat, state: AttemptState, report: Report, now: Time)
    requires report.knownTokens == Some(r.tokens) && (report.tokens.Some? && report.tokens.value.Some? ==> report.tokens.value.value == r.tokens)
    ensures var row' := ObservedRow(a, row, sequence, state, report, now);
            row'.knownTokens == Max(row.knownTokens, r.tokens) && row'.task == row.task
  {
  }

  lemma ObservationShape(db: Db, a: AttemptId, sequence: nat, state: AttemptState, report: Report)
    requires a in db.attempts
    ensures var db1 := Observation(db, a, sequence, state, report);
            && db1.tasks == db.tasks && db1.placements == db.placements && db1.lastWorker == db.lastWorker
            && db1.attempts == db.attempts[a := ObservedRow(a, db.attempts[a], sequence, state, report, db.clock)]
  {
    hide UsageConflict, ObservedRow;
  }

  lemma ObservedShape(db: Db, a: AttemptId, w: WorkerId, sequence: nat, state: AttemptState, report: Report)
    requires Observe(db, a, w, sequence, state, report).1.Applied?
    ensures a in db.attempts && db.attempts[a].task in db.tasks
    ensures var db1 := Observe(db, a, w, sequence, state, report).0;
            && db1.tasks == db.tasks
            && db1.attempts == db.attempts[a := ObservedRow(a, db.attempts[a], sequence, state, report, db.clock)]
            && !Terminal(db.tasks[db.attempts[a].task].status) && db.tasks[db.attempts[a].task].current == Some(a)
  {
    hide Transition, Observation;
    ObservationShape(db, a, sequence, state, report);
  }

  lemma ObservedUses(cfg: Config, db: Db, a: AttemptId, r: Runner, sequence: nat, state: AttemptState, report: Report, largest: map<TaskId, nat>)
    requires Inv(cfg, db) && RunnerSound(db, largest, a, r) && Spending(db, largest)
    requires report.knownTokens == Some(r.tokens) && (report.tokens.Some? && report.tokens.value.Some? ==> report.tokens.value.value == r.tokens)
    requires Observe(db, a, r.worker, sequence, state, report).1.Applied?
    ensures Spending(Observe(db, a, r.worker, sequence, state, report).0, largest)
  {
    hide Inv, Observe, ObservedRow, KnownUses, Sum, AttemptSound, TaskSound;
    ObservedShape(db, a, r.worker, sequence, state, report);
    ObservedKnown(a, db.attempts[a], r, sequence, state, report, db.clock);
    var db1 := Observe(db, a, r.worker, sequence, state, report).0;
    var t := db.attempts[a].task;
    SoundTask(cfg, db, t);
    SoundAttempt(cfg, db, a);
    CurrentOpen(cfg, db, t);
    OpenUses(cfg, db, a);
    forall x | x in db1.tasks && db1.tasks[x].spec.budget.maxTokens.Some?
      ensures Sum(KnownUses(db1.attempts, x)) < db1.tasks[x].spec.budget.maxTokens.value + LargestOf(largest, x)
    {
      ReportedUses(db.attempts, db1.attempts, a, x);
    }
  }

  lemma CurrentOpen(cfg: Config, db: Db, t: TaskId)
    requires Inv(cfg, db) && t in db.tasks && !Terminal(db.tasks[t].status) && db.tasks[t].current.Some?
    ensures var a := db.tasks[t].current.value; a in db.attempts && !db.attempts[a].settled
  {
    hide Inv;
    SoundTask(cfg, db, t);
  }

  lemma ReportedUses(x: map<AttemptId, Attempt>, y: map<AttemptId, Attempt>, a: AttemptId, t: TaskId)
    requires a in x && a in y && y == x[a := y[a]] && y[a].task == x[a].task
    ensures Sum(KnownUses(y, t)) == Sum(KnownUses(x, t)) + (if x[a].task == t then y[a].knownTokens - x[a].knownTokens else 0)
  {
    var before := KnownUses(x, t);
    if x[a].task == t {
      assert KnownUses(y, t) == before[a := y[a].knownTokens];
      SumSet(before, a, y[a].knownTokens);
    } else {
      assert KnownUses(y, t) == before;
    }
  }

  lemma ReportSound(cfg: Config, m: Machine, a: AttemptId, state: AttemptState, sha: Option<Label>, kind: Option<RunnerKind>, withTotal: bool)
    requires Sound(cfg, m)
    ensures Sound(cfg, ReportStep(m, a, state, sha, kind, withTotal))
  {
    hide Inv, Advances, Sound, RunnerSound, Marks, Spending, Rotation, Observe, InUnknown, InLaunch;
    if a in m.runners {
      var r := m.runners[a].(sequence := m.runners[a].sequence + 1);
      var (db1, observed) := Observe(m.db, a, r.worker, r.sequence, state, RunnerReport(r, sha, kind, withTotal));
      SoundDb(cfg, m);
      Accessors(cfg, m);
      RunnerAt(cfg, m, a);
      ObserveKeeps(cfg, m.db, a, r.worker, r.sequence, state, RunnerReport(r, sha, kind, withTotal));
      ObserveFrame(m.db, a, r.worker, r.sequence, state, RunnerReport(r, sha, kind, withTotal));
      SequenceAside(m.db, m.largest, a, m.runners[a], r.sequence);
      if observed.Applied? {
        ObservedUses(cfg, m.db, a, r, r.sequence, state, RunnerReport(r, sha, kind, withTotal), m.largest);
        MoreRunners(cfg, m, a, r);
        InstallKeeps(cfg, m.(runners := m.runners[a := r]), db1);
      } else {
        FewerRunners(cfg, m, m.runners - {a}, m.flight);
        InstallKeeps(cfg, m.(runners := m.runners - {a}), db1);
      }
    }
  }

  lemma SequenceAside(db: Db, largest: map<TaskId, nat>, a: AttemptId, r: Runner, sequence: nat)
    requires RunnerSound(db, largest, a, r)
    ensures RunnerSound(db, largest, a, r.(sequence := sequence))
  {
  }

  lemma ObserveFrame(db: Db, a: AttemptId, w: WorkerId, sequence: nat, state: AttemptState, report: Report)
    ensures var (db1, observed) := Observe(db, a, w, sequence, state, report);
            db1.placements == db.placements && db1.lastWorker == db.lastWorker && (!observed.Applied? ==> db1 == db)
  {
    hide Transition, Outdated, Observation;
    if a in db.attempts {
      ObservationShape(db, a, sequence, state, report);
    }
  }

  // ------------------------------------------------------------------- whole runs

  lemma NextKeeps(cfg: Config, m: Machine, step: Step)
    requires Sound(cfg, m)
    ensures Sound(cfg, Next(cfg, m, step))
  {
    hide Sound, ProcessNext, Install;
    match step
    case Wait(d) => if d >= 0.0 { WaitSound(cfg, m, d); }
    case DoSubmit(key, raw) => SubmitSound(cfg, m, key, raw);
    case DoCreate(key, raw) => SubmitSound(cfg, m, key, raw);
    case DoCancel(t, key) => CancelSound(cfg, m, t, key);
    case DoResolve(a, confirmed) => ResolveSound(cfg, m, a, confirmed);
    case DoSettlePlan(r, doc, replan, key) => SettlePlanSound(cfg, m, r, doc, replan, key);
    case DoDeliver(t, sound) => DeliverSound(cfg, m, t, sound);
    case DoRetainMark(now) => RetainSound(cfg, m, 0, now);
    case DoRetainPhase(t) => RetainSound(cfg, m, t, 0.0);
    case DoRetainPurge(now) => RetainSound(cfg, m, 0, now);
    case _ => ProcessKeeps(cfg, m, step);
  }

  lemma ProcessKeeps(cfg: Config, m: Machine, step: Step)
    requires Sound(cfg, m)
    ensures Sound(cfg, ProcessNext(cfg, m, step))
  {
    hide Sound, Install;
    match step
    case DoRegister(w, runtimes, slots, allowWrite) => WorkerSound(cfg, m, w, runtimes, slots, allowWrite);
    case DoHeartbeat(w) => WorkerSound(cfg, m, w, {}, 0, false);
    case DoClaim(a, w, identified) => ClaimSound(cfg, m, a, w, identified);
    case DoRequest(a, response) => RequestSound(cfg, m, a, response);
    case DoPublish(a) => PublishSound(cfg, m, a);
    case DoReport(a, state, sha, kind, withTotal) => ReportSound(cfg, m, a, state, sha, kind, withTotal);
    case RunnerDies(a) => FewerRunners(cfg, m, m.runners - {a}, m.flight);
    case DoTick(env) => TickSound(cfg, m, env);
    case DoCommit(s, valid, plan) => if s in m.flight { CommitSound(cfg, m, s, valid, plan); }
    case ManagerDies(s) => FewerRunners(cfg, m, m.runners, m.flight - multiset{s});
    case _ =>
  }

  lemma FewerRunners(cfg: Config, m: Machine, runners: map<AttemptId, Runner>, flight: multiset<Snapshot>)
    requires Sound(cfg, m)
    requires forall a :: a in runners ==> a in m.runners && runners[a] == m.runners[a]
    requires forall s :: s in flight ==> s in m.flight
    ensures Sound(cfg, m.(runners := runners, flight := flight))
  {
    hide Inv, SnapSound, RunnerSound, Marks, Spending, Rotation;
  }

  lemma StartSound(cfg: Config)
    ensures Sound(cfg, START)
  {
    hide Acyclic, PlanGraph;
  }

  /** Every run keeps the invariant: any steps of any participants, in any order. */
  lemma {:induction false} ExecKeeps(cfg: Config, m: Machine, steps: seq<Step>)
    requires Sound(cfg, m)
    ensures Sound(cfg, Exec(cfg, m, steps))
  {
    hide Sound, Next;
    if steps != [] {
      var n := |steps| - 1;
      ExecKeeps(cfg, m, steps[..n]);
      NextKeeps(cfg, Exec(cfg, m, steps[..n]), steps[n]);
    }
  }
}
