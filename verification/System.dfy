/** The whole orchestrator: every transaction is one step, and steps of any number of
    callers, managers, workers, runners and operators interleave in any order. */
module System {
  import opened Types
  import opened StoreOps
  import opened WorkflowOps
  import opened ManagerOps
  import opened RunnerOps

  /** `flight` holds the snapshots that managers are validating outside any transaction,
      `runners` the live runners.  The last three fields are history: attempts that were
      ever Unknown, attempts that ever launched, and each task's largest response. */
  datatype Machine = Machine(db: Db, flight: multiset<Snapshot>, runners: map<AttemptId, Runner>,
                             everUnknown: set<AttemptId>, everLaunched: set<AttemptId>, largest: map<TaskId, nat>)

  const START := Machine(EMPTY, multiset{}, map[], {}, {}, map[])

  datatype Step =
    | Wait(duration: Time)
    | DoSubmit(key: Label, raw: Raw)
    | DoCreate(key: Label, raw: Raw)
    | DoCancel(task: TaskId, key: Label)
    | DoRegister(worker: WorkerId, runtimes: set<Label>, slots: nat, allowWrite: bool)
    | DoHeartbeat(worker: WorkerId)
    | DoClaim(attempt: AttemptId, worker: WorkerId, identified: bool)
    | DoRequest(attempt: AttemptId, response: Response)
    | DoPublish(attempt: AttemptId)
    | DoReport(attempt: AttemptId, state: AttemptState, resultSha: Option<Label>, kind: Option<RunnerKind>, withTotal: bool)
    | RunnerDies(attempt: AttemptId)
    | DoResolve(attempt: AttemptId, confirmed: bool)
    | DoTick(env: Env)
    | DoCommit(snapshot: Snapshot, valid: bool, plan: Option<PlanDoc>)
    | ManagerDies(snapshot: Snapshot)
    | DoSettlePlan(root: TaskId, doc: PlanDoc, replan: bool, commandKey: Option<Label>)
    | DoDeliver(task: TaskId, sound: set<TaskId>)
    | DoRetainMark(now: Time)
    | DoRetainPhase(task: TaskId)
    | DoRetainPurge(now: Time)

  function InUnknown(db: Db): set<AttemptId> {
    set a | a in db.attempts && db.attempts[a].state.Unknown?
  }

  function InLaunch(db: Db): set<AttemptId> {
    set a | a in db.attempts && db.attempts[a].state.Launching?
  }

  /** Installs a committed database and extends the history. */
  function Install(m: Machine, db: Db): Machine {
    m.(db := db, everUnknown := m.everUnknown + InUnknown(db), everLaunched := m.everLaunched + InLaunch(db))
  }

  function Largest(m: Machine, t: TaskId): nat {
    if t in m.largest then m.largest[t] else 0
  }

  /** Steps of callers, operators and retention. */
  ghost function Next(cfg: Config, m: Machine, step: Step): Machine {
    var db := m.db;
    match step
    case Wait(d) => if d >= 0.0 then m.(db := db.(clock := db.clock + d)) else m
    case DoSubmit(key, raw) => Install(m, Submit(db, key, raw).0)
    case DoCreate(key, raw) => Install(m, CreateWorkflow(db, key, raw).0)
    case DoCancel(t, key) => Install(m, StoreOps.Cancel(db, t, key).0)
    case DoResolve(a, confirmed) => Install(m, Resolve(db, a, confirmed).0)
    case DoSettlePlan(r, doc, replan, key) => Install(m, SettlePlanCommand(db, r, doc, replan, key).0)
    case DoDeliver(t, sound) => Install(m, Deliver(db, t, sound).0)
    case DoRetainMark(now) => if now <= db.clock then Install(m, RetainMark(db, cfg, now)) else m
    case DoRetainPhase(t) => if t in db.intents then Install(m, RetainPhase(db, t)) else m
    case DoRetainPurge(now) => if now <= db.clock then Install(m, RetainPurge(db, cfg, now)) else m
    case _ => ProcessNext(cfg, m, step)
  }

  /** Steps of workers, runners and managers. */
  ghost function ProcessNext(cfg: Config, m: Machine, step: Step): Machine {
    var db := m.db;
    match step
    case DoRegister(w, runtimes, slots, allowWrite) => Install(m, RegisterWorker(db, w, runtimes, slots, allowWrite).0)
    case DoHeartbeat(w) => Install(m, HeartbeatWorker(db, w))
    case DoClaim(a, w, identified) => ClaimStep(m, a, w, identified)
    case DoRequest(a, response) => RequestStep(m, a, response)
    case DoPublish(a) => if a in m.runners then Install(m, db.(files := db.files + {a})) else m
    case DoReport(a, state, sha, kind, withTotal) => ReportStep(m, a, state, sha, kind, withTotal)
    case RunnerDies(a) => m.(runners := m.runners - {a})
    case DoTick(env) => TickStep(cfg, m, env)
    case DoCommit(s, valid, plan) =>
      if s in m.flight then Install(m.(flight := m.flight - multiset{s}), Commit(db, s, VerdictOf(s, valid), plan)) else m
    case ManagerDies(s) => m.(flight := m.flight - multiset{s})
    case _ => m
  }

  function ClaimStep(m: Machine, a: AttemptId, w: WorkerId, identified: bool): Machine {
    var (db1, claim) := ClaimLaunch(m.db, a, w, identified);
    Install(if claim.Claimed? then m.(runners := m.runners[a := claim.runner]) else m, db1)
  }

  /** A runner asks its provider; a blocked request ends in a report instead. */
  function RequestStep(m: Machine, a: AttemptId, response: Response): Machine {
    if a in m.runners && MayRequest(m.runners[a]) then
      var r := m.runners[a];
      var size := if response.Counted? then response.tokens else 0;
      m.(runners := m.runners[a := AfterResponse(r, response)],
         largest := m.largest[r.task := Max(Largest(m, r.task), size)])
    else m
  }

  /** A report that is not applied stops its runner. */
  function ReportStep(m: Machine, a: AttemptId, state: AttemptState, sha: Option<Label>,
                      kind: Option<RunnerKind>, withTotal: bool): Machine {
    if a !in m.runners then m
    else
      var r := m.runners[a].(sequence := m.runners[a].sequence + 1);
      var (db1, observed) := Observe(m.db, a, r.worker, r.sequence, state, RunnerReport(r, sha, kind, withTotal));
      Install(m.(runners := if observed.Applied? then m.runners[a := r] else m.runners - {a}), db1)
  }

  function TickStep(cfg: Config, m: Machine, env: Env): Machine {
    var (db1, snaps) := Tick(m.db, cfg, env);
    Install(m.(flight := m.flight + multiset(snaps)), db1)
  }

  ghost function Exec(cfg: Config, m: Machine, steps: seq<Step>): Machine {
    if steps == [] then m
    else var n := |steps| - 1; Next(cfg, Exec(cfg, m, steps[..n]), steps[n])
  }
}
