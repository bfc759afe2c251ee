/** The store as the program keeps it: tables that every transaction updates in place. */
module StoreClass {
  import opened Types
  import opened StoreOps
  import opened WorkflowOps
  import opened RunnerOps

  class Store {
    const cfg: Config
    var tasks: map<TaskId, Task>
    var attempts: map<AttemptId, Attempt>
    var outbox: map<AttemptId, bool>
    var workers: map<WorkerId, Worker>
    var roots: map<TaskId, Root>
    var children: seq<Child>
    var transfers: map<(TaskId, TaskId), Transfer>
    var commands: map<Label, Command>
    var intents: map<TaskId, Intent>
    var events: seq<Event>
    var files: set<AttemptId>
    var placements: seq<Placement>
    var lastWorker: WorkerId
    var nextId: nat
    var clock: Time

    /** All tables as one value: what a transaction reads when it starts. */
    function View(): Db
      reads this
    {
      Db(tasks, attempts, outbox, workers, roots, children, transfers, commands, intents, events, files,
         placements, lastWorker, nextId, clock)
    }

    constructor (cfg: Config)
      ensures this.cfg == cfg && View() == EMPTY
    {
      this.cfg := cfg;
      tasks, attempts, outbox, workers, roots, children := map[], map[], map[], map[], map[], [];
      transfers, commands, intents, events, files := map[], map[], map[], [], {};
      placements, lastWorker, nextId, clock := [], 0, 0, 0.0;
    }

    method LoadTasks(db: Db)
      modifies this`tasks, this`attempts, this`outbox, this`workers, this`roots, this`children, this`transfers
      ensures tasks == db.tasks && attempts == db.attempts && outbox == db.outbox && workers == db.workers
      ensures roots == db.roots && children == db.children && transfers == db.transfers
    {
      tasks, attempts, outbox, workers := db.tasks, db.attempts, db.outbox, db.workers;
      roots, children, transfers := db.roots, db.children, db.transfers;
    }

    /** The tables as other processes have left them. */
    method Load(db: Db)
      modifies this
      ensures View() == db
    {
      commands, intents, events, files := db.commands, db.intents, db.events, db.files;
      placements, lastWorker, nextId, clock := db.placements, db.lastWorker, db.nextId, db.clock;
      LoadTasks(db);
    }

    method Note(t: TaskId, kind: EventKind)
      modifies this`events
      ensures View() == Log(old(View()), t, kind)
    {
      events := events + [Event(t, kind)];
    }

    method Record(key: Label, c: Command)
      modifies this`commands
      ensures View() == StoreOps.Record(old(View()), key, c)
    {
      commands := commands[key := c];
    }

    method InsertTask(spec: Spec) returns (t: TaskId)
      modifies this`tasks, this`nextId, this`events
      ensures t == old(nextId) && View() == StoreOps.InsertTask(old(View()), spec)
    {
      t := nextId;
      tasks := tasks[t := NewTask(spec, clock)];
      nextId := nextId + 1;
      Note(t, TaskAccepted);
    }

    // -------------------------------------------------------- caller commands

    method Submit(key: Label, raw: Raw) returns (outcome: Outcome)
      modifies this
      ensures (View(), outcome) == StoreOps.Submit(old(View()), key, raw)
    {
      if key in commands {
        if commands[key].payload != SubmitPayload(raw) {
          return Outcome.Refused(Conflict);
        }
        return Receipted(commands[key].task, true);
      }
      if !raw.sound || !ValidSpec(raw.spec) {
        return Outcome.Refused(Invalid);
      }
      var t := InsertTask(raw.spec);
      Record(key, Command(t, SubmitPayload(raw), clock, None));
      return Receipted(t, false);
    }

    method Cancel(t: TaskId, key: Label) returns (outcome: Outcome)
      modifies this
      ensures (View(), outcome) == StoreOps.Cancel(old(View()), t, key)
    {
      if key in commands {
        if commands[key].payload != CancelPayload(t) {
          return Outcome.Refused(Conflict);
        }
        return Receipted(commands[key].task, true);
      }
      if t !in tasks {
        return Outcome.Refused(NotFound);
      }
      Record(key, Command(t, CancelPayload(t), clock, None));
      if Terminal(tasks[t].status) {
        Note(t, CancelIgnored);
      } else {
        CancelOpen(t);
      }
      return Receipted(t, false);
    }

    method CancelOpen(t: TaskId)
      requires t in tasks
      modifies this`tasks, this`events
      ensures View() == StoreOps.CancelOpen(old(View()), t)
    {
      tasks := tasks[t := tasks[t].(desired := Action.Cancel, reason := Some(UserCancelled))];
      Note(t, CancelRequested);
      if tasks[t].status.Pending? {
        tasks := tasks[t := tasks[t].(status := Status.Cancelled, finishedAt := Some(clock))];
        Note(t, TaskFinished);
      }
    }

    // ----------------------------------------------------------------- workers

    method RegisterWorker(w: WorkerId, runtimes: set<Label>, slots: nat, allowWrite: bool) returns (error: Option<Error>)
      modifies this`workers
      ensures (View(), error) == StoreOps.RegisterWorker(old(View()), w, runtimes, slots, allowWrite)
    {
      if w == 0 || runtimes == {} || !(1 <= slots <= 128) {
        return Some(Invalid);
      }
      workers := workers[w := Worker(runtimes, slots, allowWrite, clock)];
      return None;
    }

    method HeartbeatWorker(w: WorkerId)
      modifies this`workers
      ensures View() == StoreOps.HeartbeatWorker(old(View()), w)
    {
      if w in workers {
        workers := workers[w := workers[w].(lastSeen := clock)];
      }
    }

    // ------------------------------------------------------------ observations

    /** Usage is cumulative within an attempt; a total below what is known becomes unknown. */
    static method MergeReport(row: Attempt, r: Report) returns (tokens: Option<nat>, known: nat, conflict: bool)
      ensures (tokens, known) == MergeUsage(row, r) && conflict == UsageConflict(row, r)
    {
      tokens, known, conflict := row.tokens, row.knownTokens, false;
      if r.tokens.Some? || r.knownTokens.Some? {
        known := Max(Max(known, r.knownTokens.GetOr(0)), r.tokens.GetOr(None).GetOr(0));
        var total := if r.tokens.Some? then r.tokens.value else row.tokens;
        tokens := total;
        if total.Some? && total.value < known {
          tokens, conflict := None, true;
        }
      }
    }

    /** The attempt row with the columns of one observation. */
    static method ReportedRow(a: AttemptId, row: Attempt, sequence: nat, state: AttemptState, r: Report, tokens: Option<nat>, known: nat, now: Time)
      returns (observed: Attempt)
      requires (tokens, known) == MergeUsage(row, r)
      ensures observed == ObservedRow(a, row, sequence, state, r, now)
    {
      hide MergeUsage;
      observed := row.(state := state, sequence := sequence, heartbeat := now, tokens := tokens, knownTokens := known);
      if r.resultSha.Some? {
        observed := observed.(resultPath := Some(a), resultSha := r.resultSha);
      }
      if r.kind.Some? {
        observed := observed.(kind := Some(r.kind.value));
      }
      if state.Running? && row.startedAt.None? {
        observed := observed.(startedAt := Some(now));
      }
      if Done(state) {
        observed := observed.(finishedAt := Some(now));
      }
    }

    /** Writes the columns of one accepted observation. */
    method ApplyReport(a: AttemptId, sequence: nat, state: AttemptState, r: Report)
      requires a in attempts
      modifies this`attempts, this`events
      ensures View() == Observation(old(View()), a, sequence, state, r)
    {
      hide ObservedRow, MergeUsage, UsageConflict;
      var row := attempts[a];
      var tokens, known, conflict := MergeReport(row, r);
      var observed := ReportedRow(a, row, sequence, state, r, tokens, known, clock);
      attempts := attempts[a := observed];
      events := events + (if conflict then [Event(row.task, UsageInconsistent)] else [])
                       + (if state != row.state then [Event(row.task, AttemptObserved)] else []);
    }

    method Observe(a: AttemptId, worker: WorkerId, sequence: nat, state: AttemptState, r: Report) returns (observed: Observed)
      modifies this`attempts, this`events
      ensures (View(), observed) == StoreOps.Observe(old(View()), a, worker, sequence, state, r)
    {
      if state.Queued? || sequence < 1 {
        return Denied(Invalid);
      }
      if a !in attempts || attempts[a].task !in tasks {
        return Denied(NotFound);
      }
      var row := attempts[a];
      if Outdated(row, tasks[row.task], a, worker, sequence) {
        return Dropped;
      }
      if !Transition(row.state, state) {
        return Denied(Conflict);
      }
      ApplyReport(a, sequence, state, r);
      return Applied;
    }

    method Resolve(a: AttemptId, confirmed: bool) returns (error: Option<Error>)
      modifies this`attempts, this`events
      ensures (View(), error) == StoreOps.Resolve(old(View()), a, confirmed)
    {
      if !confirmed {
        return Some(Invalid);
      }
      if a !in attempts {
        return Some(NotFound);
      }
      var row := attempts[a];
      if !row.state.Unknown? {
        return Some(Conflict);
      }
      attempts := attempts[a := row.(state := AttemptState.Failed, kind := Some(Permanent), sequence := row.sequence + 1,
                                     heartbeat := clock, finishedAt := Some(clock))];
      Note(row.task, AttemptResolved);
      return None;
    }

    // --------------------------------------------------------------- retention

    method DeleteDependents(t: TaskId)
      modifies this`transfers, this`children, this`outbox, this`attempts, this`events
      ensures View() == StoreOps.DeleteDependents(old(View()), t)
    {
      hide Named, WithoutTask, WithoutChild, TransfersWithout, OutboxWithout, AttemptsWithout;
      transfers := TransfersWithout(transfers, t);
      children := WithoutChild(children, t);
      outbox := OutboxWithout(outbox, attempts, t);
      attempts := AttemptsWithout(attempts, t);
      events := WithoutTask(events, t);
    }

    /** One durable phase of the oldest intent; false when no intent is left. */
    method RetainNext() returns (more: bool)
      modifies this
      ensures var oldest := OldestIntent(old(intents), old(nextId));
              && more == oldest.Some?
              && View() == if more then RetainPhase(old(View()), oldest.value) else old(View())
    {
      var oldest := OldestIntent(intents, nextId);
      if oldest.None? {
        return false;
      }
      more := true;
      var t := oldest.value;
      var intent := intents[t];
      match intent.stage
      case Dependents =>
        DeleteDependents(t);
        intents := intents[t := intent.(stage := TaskRow)];
      case TaskRow =>
        DeleteDependents(t);
        tasks := tasks - {t};
        intents := intents[t := intent.(stage := Artifact)];
      case Artifact =>
        files := files - intent.paths;
        intents := intents - {t};
    }

    /** An uninterrupted retention pass: marks, completes every intent, then drops old tombstones. */
    method Retain(now: Time)
      modifies this
      ensures View() == RetainPurge(Drain(RetainMark(old(View()), cfg, now)), cfg, now)
    {
      intents := intents + map t | t in tasks && t !in intents && Retirable(View(), cfg, t, now)
                             :: Intent(Dependents, ResultPaths(attempts, t), now);
      ghost var marked := View();
      var more := true;
      while more
        invariant Drain(View()) == Drain(marked)
        invariant !more ==> View() == Drain(marked)
        decreases PhasesLeft(intents, nextId) + if more then 1 else 0
      {
        ghost var before := View();
        more := RetainNext();
        if more {
          PhaseProgresses(before, OldestIntent(before.intents, before.nextId).value);
        }
      }
      commands := map k | k in commands && !(commands[k].acceptedAt + cfg.horizon < now && commands[k].task !in tasks) :: commands[k];
    }

    // ------------------------------------------------------------ launch claim

    /** The claim transaction of a runner that starts for attempt `a` on worker `w`. */
    method ClaimLaunch(a: AttemptId, w: WorkerId, identified: bool) returns (claim: Claim)
      modifies this`attempts, this`outbox, this`events
      ensures (View(), claim) == RunnerOps.ClaimLaunch(old(View()), a, w, identified)
    {
      if a !in attempts || attempts[a].worker != w || !attempts[a].state.Queued? {
        return Skipped;
      }
      var row := attempts[a];
      if row.task !in tasks || tasks[row.task].current != Some(a) {
        return Skipped;
      }
      var task := tasks[row.task];
      if !Permitted(View(), w, task.spec) || !identified {
        attempts := attempts[a := RejectedRow(row, clock)];
        Note(row.task, AttemptRejected);
        return Claim.Failed;
      }
      attempts := attempts[a := row.(state := Launching, sequence := row.sequence + 1, heartbeat := clock)];
      outbox := outbox[a := true];
      Note(row.task, AttemptClaimed);
      return Claimed(Runner(row.task, w, row.sequence + 1, 0, true, task.tokensUsed, task.usageUnknown, task.spec.budget.maxTokens));
    }
  }
}
