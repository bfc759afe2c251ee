/** The promises of the attempt protocol, over every run of the whole orchestrator. */
module RunGuarantees {
  import opened Types
  import opened Sums
  import opened Graph
  import opened StoreOps
  import opened WorkflowOps
  import opened ManagerOps
  import opened RunnerOps
  import opened System
  import opened Invariant
  import opened PairProofs
  import opened TaskProofs
  import opened StoreProofs
  import opened SettleProofs
  import opened ScheduleProofs
  import opened PlanProofs
  import opened RetainProofs
  import opened CommitProofs
  import opened RunProofs

  // ------------------------------------------------------------------ run relations

  lemma NextAdvances(cfg: Config, m: Machine, step: Step)
    requires Sound(cfg, m)
    ensures Advances(m.db, Next(cfg, m, step).db)
  {
    hide Inv, Advances, Sound, Submit, CreateWorkflow, StoreOps.Cancel, ProcessNext, InUnknown, InLaunch;
    hide Resolve, SettlePlanCommand, Deliver, RetainMark, RetainPhase, RetainPurge;
    SoundDb(cfg, m);
    AdvancesReflexive(m.db);
    match step
    case Wait(d) => if d >= 0.0 { WaitKeeps(cfg, m.db, d); }
    case DoSubmit(key, raw) => SubmitKeeps(cfg, m.db, key, raw);
    case DoCreate(key, raw) => CreateKeeps(cfg, m.db, key, raw);
    case DoCancel(t, key) => CancelKeeps(cfg, m.db, t, key);
    case DoResolve(a, confirmed) => ResolveKeeps(cfg, m.db, a, confirmed);
    case DoSettlePlan(r, doc, replan, key) => SettlePlanCommandKeeps(cfg, m.db, r, doc, replan, key);
    case DoDeliver(t, sound) => DeliverKeeps(cfg, m.db, t, sound);
    case DoRetainMark(now) => RetainMarkKeeps(cfg, m.db, now);
    case DoRetainPhase(t) => if t in m.db.intents { RetainPhaseKeeps(cfg, m.db, t); }
    case DoRetainPurge(now) => RetainPurgeKeeps(cfg, m.db, now);
    case _ => ProcessAdvances(cfg, m, step);
  }

  lemma ProcessAdvances(cfg: Config, m: Machine, step: Step)
    requires Sound(cfg, m)
    ensures Advances(m.db, ProcessNext(cfg, m, step).db)
  {
    hide Inv, Advances, Sound, RegisterWorker, HeartbeatWorker, ClaimLaunch, ReportStep, Tick, Commit, RequestStep, InUnknown, InLaunch;
    SoundDb(cfg, m);
    AdvancesReflexive(m.db);
    match step
    case DoRegister(w, runtimes, slots, allowWrite) => WorkerAdvances(cfg, m.db, w, runtimes, slots, allowWrite);
    case DoHeartbeat(w) => WorkerAdvances(cfg, m.db, w, {}, 0, false);
    case DoClaim(a, w, identified) => ClaimKeeps(cfg, m.db, a, w, identified);
    case DoRequest(a, response) => RequestFrame(m, a, response);
    case DoPublish(a) => FilesAdvance(m.db, m.db.files + {a});
    case DoReport(a, state, sha, kind, withTotal) => ReportAdvances(cfg, m, a, state, sha, kind, withTotal);
    case DoTick(env) => TickKeeps(cfg, m.db, env);
    case DoCommit(s, valid, plan) => if s in m.flight { FlightSound(cfg, m, s); CommitKeeps(cfg, m.db, s, valid, plan); }
    case _ =>
  }

  lemma RequestFrame(m: Machine, a: AttemptId, response: Response)
    ensures RequestStep(m, a, response).db == m.db
  {
  }

  lemma FilesAdvance(db: Db, files: set<AttemptId>)
    ensures Advances(db, db.(files := files))
  {
  }

  lemma WorkerAdvances(cfg: Config, db: Db, w: WorkerId, runtimes: set<Label>, slots: nat, allowWrite: bool)
    requires Inv(cfg, db)
    ensures Advances(db, RegisterWorker(db, w, runtimes, slots, allowWrite).0) && Advances(db, HeartbeatWorker(db, w))
  {
    hide Inv, Advances;
    AdvancesReflexive(db);
    RegisterKeeps(cfg, db, w, Worker(runtimes, slots, allowWrite, db.clock));
    if w in db.workers {
      RegisterKeeps(cfg, db, w, db.workers[w].(lastSeen := db.clock));
    }
  }

  lemma ReportAdvances(cfg: Config, m: Machine, a: AttemptId, state: AttemptState, sha: Option<Label>, kind: Option<RunnerKind>, withTotal: bool)
    requires Sound(cfg, m)
    ensures Advances(m.db, ReportStep(m, a, state, sha, kind, withTotal).db)
  {
    hide Inv, Advances, Sound, Observe;
    SoundDb(cfg, m);
    AdvancesReflexive(m.db);
    if a in m.runners {
      var r := m.runners[a].(sequence := m.runners[a].sequence + 1);
      ObserveKeeps(cfg, m.db, a, r.worker, r.sequence, state, RunnerReport(r, sha, kind, withTotal));
    }
  }

  lemma NextRemembers(cfg: Config, m: Machine, step: Step)
    ensures m.everUnknown <= Next(cfg, m, step).everUnknown && m.everLaunched <= Next(cfg, m, step).everLaunched
  {
    hide Submit, CreateWorkflow, StoreOps.Cancel, ProcessNext, InUnknown, InLaunch;
    hide Resolve, SettlePlanCommand, Deliver, RetainMark, RetainPhase, RetainPurge;
    ProcessRemembers(cfg, m, step);
  }

  lemma ProcessRemembers(cfg: Config, m: Machine, step: Step)
    ensures m.everUnknown <= ProcessNext(cfg, m, step).everUnknown && m.everLaunched <= ProcessNext(cfg, m, step).everLaunched
  {
    hide RegisterWorker, HeartbeatWorker, ClaimLaunch, Observe, Tick, Commit, InUnknown, InLaunch;
  }

  /** Databases of one run are related whatever lies between them. */
  lemma {:induction false} ExecAdvances(cfg: Config, m: Machine, steps: seq<Step>)
    requires Sound(cfg, m)
    ensures Sound(cfg, Exec(cfg, m, steps)) && Advances(m.db, Exec(cfg, m, steps).db)
    ensures m.everUnknown <= Exec(cfg, m, steps).everUnknown && m.everLaunched <= Exec(cfg, m, steps).everLaunched
  {
    hide Sound, Next, Advances, Inv;
    SoundDb(cfg, m);
    if steps == [] {
      AdvancesReflexive(m.db);
    } else {
      var n := |steps| - 1;
      var m1 := Exec(cfg, m, steps[..n]);
      ExecAdvances(cfg, m, steps[..n]);
      NextKeeps(cfg, m1, steps[n]);
      NextAdvances(cfg, m1, steps[n]);
      NextRemembers(cfg, m1, steps[n]);
      SoundDb(cfg, Exec(cfg, m, steps));
      AdvancesTransitive(cfg, m.db, m1.db, Exec(cfg, m, steps).db);
    }
  }

  /** The state that a sequence of steps reaches from an empty store. */
  ghost function Reached(cfg: Config, steps: seq<Step>): Machine {
    Exec(cfg, START, steps)
  }

  lemma ReachedSound(cfg: Config, steps: seq<Step>)
    ensures Sound(cfg, Reached(cfg, steps)) && Inv(cfg, Reached(cfg, steps).db)
  {
    hide Sound, Inv;
    StartSound(cfg);
    ExecKeeps(cfg, START, steps);
    SoundDb(cfg, Reached(cfg, steps));
  }

  // ------------------------------------------------------------------- reservations

  /** `a` is the current attempt of a Scheduled or Running task. */
  predicate Current(db: Db, a: AttemptId)
    requires a in db.attempts
  {
    var t := db.attempts[a].task;
    t in db.tasks && db.tasks[t].current == Some(a) && Open(db.tasks[t].status)
  }

  /** Capacity is held exactly from placement to settlement, by current attempts only. */
  lemma ReservationExact(cfg: Config, steps: seq<Step>, a: AttemptId)
    requires a in Reached(cfg, steps).db.attempts
    ensures var db := Reached(cfg, steps).db;
            var row := db.attempts[a];
            (row.reserved <==> !row.settled) && (row.reserved <==> Current(db, a))
  {
    hide Reached, Inv;
    ReachedSound(cfg, steps);
    var db := Reached(cfg, steps).db;
    SoundAttempt(cfg, db, a);
    SoundTask(cfg, db, db.attempts[a].task);
  }

  predicate Competing(x: Attempt, y: Attempt) {
    x.reserved && y.reserved && x.task == y.task
  }

  /** A Pending task holds nothing, an open task one reservation, the store at most `maxActive`. */
  lemma ReservationBounds(cfg: Config, steps: seq<Step>)
    ensures var db := Reached(cfg, steps).db;
            && |Reserved(db.attempts)| <= cfg.maxActive
            && (forall t :: t in db.tasks && db.tasks[t].status.Pending? ==> db.tasks[t].current.None?)
            && (forall t :: t in db.tasks && Open(db.tasks[t].status) ==>
                  db.tasks[t].current.Some? && db.tasks[t].current.value in db.attempts
                  && db.attempts[db.tasks[t].current.value].reserved)
            && (forall a, b :: a in db.attempts && b in db.attempts && Competing(db.attempts[a], db.attempts[b]) ==> a == b)
  {
    hide Reached, Inv;
    ReachedSound(cfg, steps);
    var db := Reached(cfg, steps).db;
    InvRecords(cfg, db);
    hide Rows, Linked, Outcomes, Numbered, Limited, Accounted, Reserved;
    forall t | t in db.tasks && (db.tasks[t].status.Pending? || Open(db.tasks[t].status))
      ensures db.tasks[t].status.Pending? ==> db.tasks[t].current.None?
      ensures Open(db.tasks[t].status) ==> db.tasks[t].current.Some? && db.tasks[t].current.value in db.attempts
                                           && db.attempts[db.tasks[t].current.value].reserved
    {
      SoundTask(cfg, db, t);
      if Open(db.tasks[t].status) {
        SoundAttempt(cfg, db, db.tasks[t].current.value);
      }
    }
    forall a | a in db.attempts && db.attempts[a].reserved
      ensures db.attempts[a].task in db.tasks && db.tasks[db.attempts[a].task].current == Some(a)
    {
      SoundAttempt(cfg, db, a);
    }
  }

  // ---------------------------------------------------------------------- no replay

  lemma StuckIsLast(cfg: Config, db: Db, a: AttemptId, b: AttemptId)
    requires Inv(cfg, db) && a in db.attempts && b in db.attempts && db.attempts[b].task == db.attempts[a].task
    requires Stuck(db.attempts[a])
    ensures b <= a
  {
    hide Inv;
    SoundAttempt(cfg, db, a);
    SoundAttempt(cfg, db, b);
  }

  lemma MarkedStuck(cfg: Config, m: Machine, a: AttemptId)
    requires Sound(cfg, m) && a in m.everUnknown && a in m.db.attempts
    ensures Stuck(m.db.attempts[a])
  {
    hide Inv, SnapSound, RunnerSound, Spending;
  }

  /** Once an attempt of a task was Unknown in any state of a run, no later state holds an
      attempt of that task created after it: neither loss, resolution nor retention replays it. */
  lemma NoReplay(cfg: Config, before: seq<Step>, after: seq<Step>, a: AttemptId, b: AttemptId)
    requires var m := Reached(cfg, before); a in m.everUnknown && a in m.db.attempts
    requires var m1 := Exec(cfg, Reached(cfg, before), after);
             b in m1.db.attempts && m1.db.attempts[b].task == Reached(cfg, before).db.attempts[a].task
    ensures b <= a
  {
    hide Reached, Inv, Advances, Sound;
    ReachedSound(cfg, before);
    var m := Reached(cfg, before);
    var m1 := Exec(cfg, m, after);
    ExecAdvances(cfg, m, after);
    SoundDb(cfg, m1);
    StillThere(m.db, m1.db, a, b);
    MarkedStuck(cfg, m1, a);
    StuckIsLast(cfg, m1.db, a, b);
  }

  lemma StillThere(x: Db, y: Db, a: AttemptId, b: AttemptId)
    requires Advances(x, y) && a in x.attempts && b in y.attempts && y.attempts[b].task == x.attempts[a].task
    ensures a in y.attempts && y.attempts[a].task == x.attempts[a].task
  {
    hide RootAdvances, TaskAdvances;
    assert Attempted(y.attempts, x.attempts[a].task);
  }

  ghost function LaunchedOf(m: Machine, t: TaskId): set<AttemptId> {
    set a | a in m.db.attempts && a in m.everLaunched && m.db.attempts[a].task == t
  }

  lemma LaunchedExecuted(cfg: Config, m: Machine, t: TaskId)
    requires Sound(cfg, m)
    ensures LaunchedOf(m, t) <= Executed(m.db.attempts, t)
  {
    Accessors(cfg, m);
    hide Sound, Inv;
    forall a | a in LaunchedOf(m, t) ensures a in Executed(m.db.attempts, t) {
      assert Started(m.db.attempts[a]);
    }
  }

  /** Over a task's life at most `max_attempts` attempts ever launch, one if it is not replay-safe,
      however many confirmed non-starts happened in between. */
  lemma LaunchLimit(cfg: Config, steps: seq<Step>, t: TaskId)
    requires t in Reached(cfg, steps).db.tasks
    ensures |LaunchedOf(Reached(cfg, steps), t)| <= Limit(Reached(cfg, steps).db.tasks[t].spec)
  {
    hide Reached, Inv, Sound, LaunchedOf;
    ReachedSound(cfg, steps);
    var m := Reached(cfg, steps);
    var current := m.db.tasks[t].current;
    LaunchedExecuted(cfg, m, t);
    RoomLeft(cfg, m.db, t);
    var earlier := Earlier(m.db.attempts, t, current);
    assert Executed(m.db.attempts, t) <= earlier + (if current.Some? then {current.value} else {});
    hide Executed, Earlier;
    Subset(LaunchedOf(m, t), earlier + (if current.Some? then {current.value} else {}));
  }

  // ------------------------------------------------------------- intent and deadline

  /** Cancel intent and terminal outcomes are final over any further run. */
  lemma IntentAbsorbs(cfg: Config, before: seq<Step>, after: seq<Step>, t: TaskId)
    requires t in Reached(cfg, before).db.tasks
    ensures var x := Reached(cfg, before).db;
            var y := Exec(cfg, Reached(cfg, before), after).db;
            && (t in y.tasks && Terminal(x.tasks[t].status) ==> y.tasks[t] == x.tasks[t])
            && (t in y.tasks && x.tasks[t].desired.Cancel? ==>
                  y.tasks[t].desired.Cancel? && (y.tasks[t].status.Succeeded? ==> x.tasks[t].status.Succeeded?))
            && (x.tasks[t].desired.Cancel? || Terminal(x.tasks[t].status) ==>
                  forall a :: a in y.attempts && y.attempts[a].task == t ==> a in x.attempts)
  {
    hide Reached, Inv, Sound;
    ReachedSound(cfg, before);
    var m := Reached(cfg, before);
    var y := Exec(cfg, m, after).db;
    ExecAdvances(cfg, m, after);
    SoundDb(cfg, Exec(cfg, m, after));
    if t in y.tasks {
      assert TaskAdvances(m.db.tasks[t], y.tasks[t]);
      SoundTask(cfg, y, t);
    }
  }

  /** Success is never late and never against intent, and its result is its attempt's. */
  lemma SuccessInTime(cfg: Config, steps: seq<Step>, t: TaskId)
    requires var db := Reached(cfg, steps).db; t in db.tasks && db.tasks[t].status.Succeeded? && Whole(db.intents, t)
    ensures var db := Reached(cfg, steps).db;
            var task := db.tasks[t];
            && task.desired.Run? && task.current.Some? && task.current.value in db.attempts
            && var row := db.attempts[task.current.value];
               && row.task == t && row.state.Succeeded? && row.settled
               && row.finishedAt.Some? && row.finishedAt.value <= task.deadline
               && task.resultPath == row.resultPath && task.resultSha == row.resultSha
  {
    hide Reached, Inv;
    ReachedSound(cfg, steps);
    var db := Reached(cfg, steps).db;
    SoundTask(cfg, db, t);
    InvRecords(cfg, db);
    assert Explained(db.tasks[t], t, db.attempts, db.intents);
  }

  /** Workflows endure: no continuation removes a root, a child row, a planner or a child task,
      and a succeeded one keeps its whole row, whatever retention does meanwhile. */
  lemma WorkflowsEndure(cfg: Config, before: seq<Step>, after: seq<Step>, t: TaskId)
    requires var x := Reached(cfg, before).db; t in x.tasks && (t in x.roots || Named(x.children, t))
    ensures var x, y := Reached(cfg, before).db, Exec(cfg, Reached(cfg, before), after).db;
            && t in y.tasks && x.roots.Keys <= y.roots.Keys && (forall c :: c in x.children ==> c in y.children)
            && (x.tasks[t].status.Succeeded? ==> y.tasks[t] == x.tasks[t])
  {
    hide Reached, Inv, Sound, Named, AttemptAdvances, RootAdvances;
    ReachedSound(cfg, before);
    ExecAdvances(cfg, Reached(cfg, before), after);
  }

  // ------------------------------------------------------------------ usage, tokens

  /** Every settled attempt is accounted once, on its task and on its workflow. */
  lemma UsageConserved(cfg: Config, steps: seq<Step>)
    ensures var db := Reached(cfg, steps).db;
            && (forall t :: t in db.tasks && Whole(db.intents, t) ==> db.tasks[t].tokensUsed == Sum(SettledUsage(db.attempts, t)))
            && (forall r :: r in db.roots ==>
                  && db.roots[r].tokensUsed == Sum(ChildUsage(db.tasks, db.children, r))
                  && db.roots[r].attemptsUsed == |ChildAttempts(db.attempts, db.children, r)| <= db.roots[r].maxAttempts)
  {
    hide Reached, Inv, SettledUsage, ChildUsage, ChildAttempts, Sum;
    ReachedSound(cfg, steps);
    var db := Reached(cfg, steps).db;
    InvRecords(cfg, db);
    forall r | r in db.roots
      ensures db.roots[r].tokensUsed == Sum(ChildUsage(db.tasks, db.children, r))
      ensures db.roots[r].attemptsUsed == |ChildAttempts(db.attempts, db.children, r)| <= db.roots[r].maxAttempts
    {
      InvAccounted(cfg, db, r);
    }
  }

  /** A workflow that has used its tokens admits no further attempt in any continuation. */
  lemma ExhaustedAdmitsNone(cfg: Config, before: seq<Step>, after: seq<Step>, r: TaskId)
    requires var db := Reached(cfg, before).db;
             r in db.roots && db.roots[r].maxTokens.Some? && db.roots[r].tokensUsed >= db.roots[r].maxTokens.value
    ensures var x := Reached(cfg, before).db;
            var y := Exec(cfg, Reached(cfg, before), after).db;
            r in y.roots && ChildAttempts(y.attempts, y.children, r) == ChildAttempts(x.attempts, x.children, r)
  {
    hide Reached, Inv, Sound, ChildAttempts, ChildUsage, Sum, Advances;
    ReachedSound(cfg, before);
    var m := Reached(cfg, before);
    ExecAdvances(cfg, m, after);
    var y := Exec(cfg, m, after).db;
    SoundDb(cfg, Exec(cfg, m, after));
    RootStep(m.db, y, r);
    InvAccounted(cfg, m.db, r);
    InvAccounted(cfg, y, r);
    ChildAttemptsStay(m.db, y, r);
    SameSize(ChildAttempts(m.db.attempts, m.db.children, r), ChildAttempts(y.attempts, y.children, r));
  }

  lemma RootStep(x: Db, y: Db, r: TaskId)
    requires Advances(x, y) && r in x.roots
    ensures r in y.roots && RootAdvances(x.roots[r], y.roots[r])
  {
  }

  /** Attempts of workflow children are never removed. */
  lemma ChildAttemptsStay(x: Db, y: Db, r: TaskId)
    requires Advances(x, y)
    ensures ChildAttempts(x.attempts, x.children, r) <= ChildAttempts(y.attempts, y.children, r)
  {
    hide TaskAdvances, RootAdvances, StillWanted, Cleaned;
    forall a | a in x.attempts && IsChild(x.children, r, x.attempts[a].task)
      ensures a in y.attempts && IsChild(y.children, r, y.attempts[a].task)
    {
      var c :| c in x.children && c.root == r && c.task == x.attempts[a].task;
      assert Named(x.children, c.task) && c in y.children;
      SameTask(x.attempts[a], y.attempts[a]);
    }
  }

  lemma SameSize(x: set<nat>, y: set<nat>)
    requires x <= y && |x| == |y|
    ensures x == y
  {
    assert y == x + (y - x);
  }

  /** Over its whole life, across retries, a task's known usage exceeds its token ceiling by
      less than the largest single response it received. */
  lemma OvershootBelowOneResponse(cfg: Config, steps: seq<Step>, t: TaskId)
    requires var db := Reached(cfg, steps).db; t in db.tasks && db.tasks[t].spec.budget.maxTokens.Some?
    ensures var m := Reached(cfg, steps);
            Sum(KnownUses(m.db.attempts, t)) < m.db.tasks[t].spec.budget.maxTokens.value + LargestOf(m.largest, t)
  {
    hide Reached, Sound, Inv, KnownUses, Sum;
    ReachedSound(cfg, steps);
    Accessors(cfg, Reached(cfg, steps));
  }

  /** Reports of one attempt only add: the ledger never loses what was reported, and an
      inconsistent total becomes unknown. */
  lemma LedgerMonotone(cfg: Config, steps: seq<Step>, a: AttemptId, w: WorkerId, sequence: nat, state: AttemptState, r: Report)
    requires Observe(Reached(cfg, steps).db, a, w, sequence, state, r).1.Applied?
    ensures var x := Reached(cfg, steps).db;
            var y := Observe(x, a, w, sequence, state, r).0;
            && a in x.attempts && a in y.attempts
            && x.attempts[a].sequence < y.attempts[a].sequence
            && x.attempts[a].knownTokens <= y.attempts[a].knownTokens
            && (r.knownTokens.Some? ==> r.knownTokens.value <= y.attempts[a].knownTokens)
            && (r.tokens.Some? && r.tokens.value.Some? ==> r.tokens.value.value <= y.attempts[a].knownTokens)
            && (y.attempts[a].tokens.Some? ==> y.attempts[a].tokens.value == y.attempts[a].knownTokens)
  {
    hide Reached, Inv, Transition, Observe;
    ReachedSound(cfg, steps);
    var x := Reached(cfg, steps).db;
    ObservedShape(x, a, w, sequence, state, r);
    ObservedAdds(x, a, w, sequence, state, r);
    ObserveKeeps(cfg, x, a, w, sequence, state, r);
    SoundAttempt(cfg, Observe(x, a, w, sequence, state, r).0, a);
  }

  lemma ObservedAdds(x: Db, a: AttemptId, w: WorkerId, sequence: nat, state: AttemptState, r: Report)
    requires Observe(x, a, w, sequence, state, r).1.Applied?
    ensures a in x.attempts && x.attempts[a].sequence < sequence
    ensures var row' := ObservedRow(a, x.attempts[a], sequence, state, r, x.clock);
            && x.attempts[a].knownTokens <= row'.knownTokens && row'.sequence == sequence
            && (r.knownTokens.Some? ==> r.knownTokens.value <= row'.knownTokens)
            && (r.tokens.Some? && r.tokens.value.Some? ==> r.tokens.value.value <= row'.knownTokens)
  {
    hide Transition, Observation;
  }
}
