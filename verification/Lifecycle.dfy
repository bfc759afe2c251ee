/** Native sessions, jobs and runs: every durable transaction of the session lifecycle, and
    the warm-ups that run between transactions. */
module Lifecycle {
  import opened Types
  import opened ManagerOps

  type JobId = Label
  type SessionId = nat
  type RunId = nat
  type WarmerId = nat

  datatype WarmupCommand = Compact | RpaInit

  datatype StepStatus = StepPending | StepRunning | StepSucceeded

  datatype SessionState = New | Warming | SessionReady | InUse | Completed | SessionFailed | Recovering

  /** A permission mode; `bypass` says that its name asks to bypass or skip permissions. */
  datatype Permission = Permission(mode: Label, bypass: bool)

  const ASK := Permission(0, false)

  datatype Session = Session(state: SessionState, profile: Label, permission: Permission, compact: StepStatus, rpaInit: StepStatus,
                             warmupStep: Option<WarmupCommand>, activeJob: Option<JobId>, parent: Option<SessionId>)

  /** `sound` says that the parts not represented here (workspace, text lengths) validate. */
  datatype JobSpec = JobSpec(id: JobId, dependencies: seq<JobId>, session: Option<SessionId>, replaySafe: bool,
                             profile: Label, content: Label, sound: bool)

  datatype JobState = JobPending | JobReady | JobRunning | JobSucceeded | JobFailed | NeedsOperator | JobCancelled

  datatype Job = Job(spec: JobSpec, session: Option<SessionId>, state: JobState, attempts: nat,
                     activeRun: Option<RunId>, result: Option<Label>)

  datatype RunState = RunRunning | RunSucceeded | RunFailed | RunUnknown | RunCancelled

  datatype NativeRun = NativeRun(job: JobId, session: SessionId, attempt: nat, state: RunState)

  datatype Handover = Handover(job: JobId, session: SessionId, result: Option<Label>)

  /** One warm-up under way: what is left to do, and whether a command is being executed. */
  datatype Warmer = Warmer(session: SessionId, steps: seq<WarmupCommand>, executing: bool)

  datatype Life = Life(sessions: map<SessionId, Session>, jobs: map<JobId, Job>, order: seq<JobId>, runs: map<RunId, NativeRun>,
                       branches: map<(SessionId, JobId), SessionId>, transfers: map<(JobId, JobId), Handover>,
                       warmers: map<WarmerId, Warmer>, nextId: nat)

  const NEWBORN := Life(map[], map[], [], map[], map[], map[], map[], 0)

  datatype Fault = Clash | Missing | Unfit | Busy

  /** What a part of a transaction leads to; a failure rolls the whole transaction back. */
  datatype Result = Success(life: Life) | Failure(fault: Fault)

  function StatusOf(s: Session, c: WarmupCommand): StepStatus {
    if c.Compact? then s.compact else s.rpaInit
  }

  function WithStatus(s: Session, c: WarmupCommand, status: StepStatus): Session {
    if c.Compact? then s.(compact := status, warmupStep := Some(c)) else s.(rpaInit := status, warmupStep := Some(c))
  }

  // --------------------------------------------------------------------- sessions

  function FreshSession(profile: Label, permission: Permission, parent: Option<SessionId>): Session {
    Session(New, profile, permission, StepPending, StepPending, None, None, parent)
  }

  function InsertSession(l: Life, profile: Label, permission: Permission, parent: Option<SessionId>): Life {
    l.(sessions := l.sessions[l.nextId := FreshSession(profile, permission, parent)], nextId := l.nextId + 1)
  }

  /** Creates transport metadata once, or checks that it matches; a known session takes over a new
      permission mode.  A bypassing mode must have been inherited. */
  function EnsureSession(l: Life, s: SessionId, profile: Label, permission: Permission, inherited: bool): (Life, Option<Fault>) {
    if permission.bypass && !inherited then (l, Some(Unfit))
    else if s in l.sessions then
      if l.sessions[s].profile != profile then (l, Some(Clash))
      else (l.(sessions := l.sessions[s := l.sessions[s].(permission := permission)]), None)
    else (l.(sessions := l.sessions[s := FreshSession(profile, permission, None)], nextId := if s < l.nextId then l.nextId else s + 1), None)
  }

  /** The branch of `parent` for a job.  A new session may not start with a bypassing mode, so a
      bypassing parent gets no new branch. */
  function Branch(l: Life, parent: SessionId, job: JobId): Option<(Life, SessionId)>
    requires parent in l.sessions
  {
    var row := l.sessions[parent];
    if (parent, job) in l.branches then Some((l, l.branches[(parent, job)]))
    else if row.permission.bypass then None
    else
      Some((InsertSession(l, row.profile, row.permission, Some(parent)).(branches := l.branches[(parent, job) := l.nextId]), l.nextId))
  }

  function BranchSession(l: Life, parent: SessionId, job: JobId): (Life, Option<Fault>) {
    if parent !in l.sessions then (l, Some(Missing))
    else
      var branch := Branch(l, parent, job);
      if branch.None? then (l, Some(Unfit)) else (branch.value.0, None)
  }

  // ----------------------------------------------------------------- registration

  predicate ValidJob(spec: JobSpec) {
    spec.sound && forall i, j :: 0 <= i < j < |spec.dependencies| ==> spec.dependencies[i] < spec.dependencies[j]
  }

  function RegisterJob(l: Life, spec: JobSpec): (Life, Option<Fault>) {
    if !ValidJob(spec) then (l, Some(Unfit))
    else if spec.id in l.jobs then (l, if l.jobs[spec.id].spec == spec then None else Some(Clash))
    else if exists d :: d in spec.dependencies && d !in l.jobs then (l, Some(Unfit))
    else if spec.session.Some? && spec.session.value !in l.sessions then (l, Some(Missing))
    else
      var rooted := spec.session.None? && spec.dependencies == [];
      var l1 := if rooted then InsertSession(l, spec.profile, ASK, None) else l;
      var session := if rooted then Some(l.nextId) else spec.session;
      var state := if spec.dependencies == [] then JobReady else JobPending;
      (l1.(jobs := l1.jobs[spec.id := Job(spec, session, state, 0, None, None)], order := l1.order + [spec.id]), None)
  }

  /** Registers the jobs of a sequence one after another; stops at the first refusal. */
  function RegisterSeq(l: Life, specs: seq<JobSpec>): (Life, Option<Fault>) {
    if specs == [] then (l, None)
    else
      var n := |specs| - 1;
      var (l1, fault) := RegisterSeq(l, specs[..n]);
      if fault.Some? then (l1, fault) else RegisterJob(l1, specs[n])
  }

  // -------------------------------------------------------------------- readiness

  /** Jobs that still may consume the session of `source`. */
  function ConsumerJobs(l: Life, source: JobId): set<JobId> {
    set j | j in l.jobs && source in l.jobs[j].spec.dependencies && !l.jobs[j].state.JobCancelled? && !l.jobs[j].state.JobFailed?
  }

  function Consumers(l: Life, source: JobId): nat {
    |ConsumerJobs(l, source)|
  }

  predicate Supplied(l: Life, d: JobId) {
    d in l.jobs && l.jobs[d].state.JobSucceeded? && l.jobs[d].session.Some?
  }

  predicate Preparable(l: Life, source: JobId, c: JobId) {
    && c in l.jobs && l.jobs[c].state.JobPending? && source in l.jobs[c].spec.dependencies
    && forall d :: d in l.jobs[c].spec.dependencies ==> Supplied(l, d)
  }

  /** One handover per dependency; it fails when a recorded one carries different data. */
  function RecordTransfers(l: Life, c: JobId, dependencies: seq<JobId>): Result
    requires forall d :: d in dependencies ==> Supplied(l, d)
  {
    if dependencies == [] then Success(l)
    else
      var n := |dependencies| - 1;
      var first := RecordTransfers(l, c, dependencies[..n]);
      if first.Failure? then first
      else
        var d := dependencies[n];
        assert Supplied(l, d);
        var handover := Handover(d, l.jobs[d].session.value, l.jobs[d].result);
        if (d, c) in first.life.transfers then if first.life.transfers[(d, c)] == handover then first else Failure(Clash)
        else Success(first.life.(transfers := first.life.transfers[(d, c) := handover]))
  }

  /** The session a child continues in: its own, its only dependency's, or a branch of the first. */
  function ChooseSession(l: Life, c: JobId, consumers: nat): Option<(Life, SessionId)>
    requires c in l.jobs && (l.jobs[c].session.None? ==> l.jobs[c].spec.dependencies != [])
    requires forall d :: d in l.jobs[c].spec.dependencies ==> Supplied(l, d) && l.jobs[d].session.value in l.sessions
  {
    var job := l.jobs[c];
    if job.session.Some? then Some((l, job.session.value))
    else
      assert Supplied(l, job.spec.dependencies[0]);
      var first := l.jobs[job.spec.dependencies[0]].session.value;
      if |job.spec.dependencies| == 1 && consumers == 1 then Some((l, first)) else Branch(l, first, c)
  }

  predicate SessionsExist(l: Life) {
    forall j :: j in l.jobs && l.jobs[j].session.Some? ==> l.jobs[j].session.value in l.sessions
  }

  function PrepareChild(l: Life, source: JobId, c: JobId, consumers: nat): Result {
    if !Preparable(l, source, c) || !SessionsExist(l) then Success(l)
    else
      var choice := ChooseSession(l, c, consumers);
      if choice.None? then Failure(Unfit)
      else
        var (l1, session) := choice.value;
        RecordTransfers(l1.(jobs := l1.jobs[c := l1.jobs[c].(session := Some(session), state := JobReady)]), c, l.jobs[c].spec.dependencies)
  }

  function PrepareAll(l: Life, source: JobId, children: seq<JobId>, consumers: nat): Result {
    if children == [] then Success(l)
    else
      var n := |children| - 1;
      var first := PrepareAll(l, source, children[..n], consumers);
      if first.Failure? then first else PrepareChild(first.life, source, children[n], consumers)
  }

  function PrepareDependents(l: Life, source: JobId): Result {
    if !Supplied(l, source) then Success(l) else PrepareAll(l, source, l.order, Consumers(l, source))
  }

  function ReadyAll(l: Life, sources: seq<JobId>): Result {
    if sources == [] then Success(l)
    else
      var n := |sources| - 1;
      var first := ReadyAll(l, sources[..n]);
      if first.Failure? then first else PrepareDependents(first.life, sources[n])
  }

  function SucceededJobs(l: Life): set<JobId> {
    set j | j in l.jobs && l.jobs[j].state.JobSucceeded?
  }

  function ReadyJobs(l: Life): (Life, Option<Fault>) {
    var prepared := ReadyAll(l, Ascending(SucceededJobs(l)));
    if prepared.Failure? then (l, Some(prepared.fault)) else (prepared.life, None)
  }

  // ---------------------------------------------------------------------- warm-up

  predicate BothSucceeded(s: Session) {
    s.compact.StepSucceeded? && s.rpaInit.StepSucceeded?
  }

  function AdoptPrepared(l: Life, s: SessionId): (Life, Option<Fault>) {
    if s !in l.sessions then (l, Some(Missing))
    else if l.sessions[s].state.SessionReady? && BothSucceeded(l.sessions[s]) then (l, None)
    else if !l.sessions[s].state.New? then (l, Some(Busy))
    else (l.(sessions := l.sessions[s := l.sessions[s].(state := SessionReady, compact := StepSucceeded, rpaInit := StepSucceeded,
                                                         warmupStep := None)]), None)
  }

  function MissingSteps(s: Session): seq<WarmupCommand> {
    (if s.compact.StepSucceeded? then [] else [Compact]) + (if s.rpaInit.StepSucceeded? then [] else [RpaInit])
  }

  /** The claim of a warm-up; a session that is already prepared leaves nothing to do. */
  function ClaimWarmup(l: Life, s: SessionId): (Life, Option<Fault>) {
    if s !in l.sessions then (l, Some(Missing))
    else
      var row := l.sessions[s];
      var l1 := l.(nextId := l.nextId + 1);
      if row.state.SessionReady? && BothSucceeded(row) then
        (l1.(warmers := l.warmers[l.nextId := Warmer(s, [], false)]), None)
      else if row.state.Recovering? || row.state.Warming? || row.state.InUse? || row.state.Completed? || row.state.SessionFailed? then
        (l, Some(Busy))
      else
        (l1.(sessions := l.sessions[s := row.(state := Warming, warmupStep := Some(Compact))],
             warmers := l.warmers[l.nextId := Warmer(s, MissingSteps(row), false)]), None)
  }

  function StopWarmer(l: Life, w: WarmerId, state: SessionState): Life
    requires w in l.warmers && l.warmers[w].session in l.sessions
  {
    var s := l.warmers[w].session;
    l.(sessions := l.sessions[s := l.sessions[s].(state := state)], warmers := l.warmers - {w})
  }

  predicate CanBegin(l: Life, w: WarmerId) {
    w in l.warmers && l.warmers[w].session in l.sessions && l.warmers[w].steps != [] && !l.warmers[w].executing
  }

  /** The deadline passed between two commands. */
  function ExpireWarmer(l: Life, w: WarmerId): Life {
    if CanBegin(l, w) then StopWarmer(l, w, SessionFailed) else l
  }

  /** Marks a command as running before it is sent. */
  function BeginStep(l: Life, w: WarmerId): Life {
    if !CanBegin(l, w) then l
    else
      var warmer := l.warmers[w];
      var row := l.sessions[warmer.session];
      if StatusOf(row, warmer.steps[0]).StepSucceeded? then l.(warmers := l.warmers[w := warmer.(steps := warmer.steps[1..])])
      else
        l.(sessions := l.sessions[warmer.session := WithStatus(row, warmer.steps[0], StepRunning)],
           warmers := l.warmers[w := warmer.(executing := true)])
  }

  /** How a command ended: a late success counts as a confirmed failure. */
  datatype StepOutcome = Finished | ConfirmedFailure | Uncertain

  function EndStep(l: Life, w: WarmerId, outcome: StepOutcome): Life {
    if w !in l.warmers || l.warmers[w].session !in l.sessions || l.warmers[w].steps == [] || !l.warmers[w].executing then l
    else
      var warmer := l.warmers[w];
      match outcome
      case ConfirmedFailure => StopWarmer(l, w, SessionFailed)
      case Uncertain => StopWarmer(l, w, Recovering)
      case Finished =>
        l.(sessions := l.sessions[warmer.session := WithStatus(l.sessions[warmer.session], warmer.steps[0], StepSucceeded)],
           warmers := l.warmers[w := Warmer(warmer.session, warmer.steps[1..], false)])
  }

  predicate CanFinish(l: Life, w: WarmerId) {
    w in l.warmers && l.warmers[w].session in l.sessions && l.warmers[w].steps == []
  }

  /** The closing transaction looks at the two steps only, not at the session's state. */
  function FinishWarmer(l: Life, w: WarmerId): Life {
    if !CanFinish(l, w) then l
    else
      var s := l.warmers[w].session;
      var l1 := l.(warmers := l.warmers - {w});
      if BothSucceeded(l.sessions[s]) then l1.(sessions := l.sessions[s := l.sessions[s].(state := SessionReady, warmupStep := None)]) else l1
  }

  function RetryWarmup(l: Life, s: SessionId, confirmed: bool): (Life, Option<Fault>) {
    if s !in l.sessions then (l, Some(Missing))
    else
      var row := l.sessions[s];
      if row.state.Recovering? && !confirmed then (l, Some(Busy))
      else if !row.state.SessionFailed? && !row.state.Recovering? then (l, Some(Busy))
      else if row.warmupStep.None? then (l, Some(Busy))
      else (l.(sessions := l.sessions[s := WithStatus(row, row.warmupStep.value, StepPending).(state := New)]), None)
  }

  // ------------------------------------------------------------------------- runs

  predicate InUseBy(l: Life, s: SessionId, r: RunId) {
    r in l.runs && l.runs[r].session == s && l.runs[r].state.RunRunning?
  }

  predicate Active(l: Life, s: SessionId) {
    exists r :: r in l.runs && InUseBy(l, s, r)
  }

  /** Claims one run; a session is never shared by two of them. */
  function StartJob(l: Life, j: JobId): (Life, Option<Fault>) {
    if j !in l.jobs then (l, Some(Missing))
    else if !l.jobs[j].state.JobReady? || l.jobs[j].session.None? then (l, Some(Busy))
    else if l.jobs[j].session.value !in l.sessions then (l, Some(Missing))
    else
      var s := l.jobs[j].session.value;
      var row := l.sessions[s];
      if !BothSucceeded(row) || row.state.New? || row.state.Warming? || row.state.Recovering? || Active(l, s) then (l, Some(Busy))
      else
        var r := l.nextId;
        var attempt := l.jobs[j].attempts + 1;
        (l.(runs := l.runs[r := NativeRun(j, s, attempt, RunRunning)],
            jobs := l.jobs[j := l.jobs[j].(state := JobRunning, attempts := attempt, activeRun := Some(r))],
            sessions := l.sessions[s := row.(state := InUse, activeJob := Some(j))],
            nextId := l.nextId + 1), None)
  }

  function JobStateOf(state: RunState): JobState {
    if state.RunSucceeded? then JobSucceeded else if state.RunCancelled? then JobCancelled else JobFailed
  }

  function ClosedRun(l: Life, r: RunId, state: RunState, result: Option<Label>): Life
    requires r in l.runs && l.runs[r].job in l.jobs && l.runs[r].session in l.sessions
  {
    var run := l.runs[r];
    l.(runs := l.runs[r := run.(state := state)],
       jobs := l.jobs[run.job := l.jobs[run.job].(state := JobStateOf(state), activeRun := None, result := result)],
       sessions := l.sessions[run.session := l.sessions[run.session].(state := if state.RunSucceeded? then Completed else SessionFailed,
                                                                       activeJob := None)])
  }

  function CompleteRun(l: Life, r: RunId, state: RunState, result: Option<Label>): (Life, Option<Fault>) {
    if state.RunRunning? || state.RunUnknown? then (l, Some(Unfit))
    else if r !in l.runs then (l, Some(Missing))
    else if !l.runs[r].state.RunRunning? then (l, None)
    else if l.runs[r].job !in l.jobs || l.runs[r].session !in l.sessions then (l, Some(Missing))
    else
      var closed := ClosedRun(l, r, state, result);
      var prepared := if state.RunSucceeded? then PrepareDependents(closed, l.runs[r].job) else Success(closed);
      if prepared.Failure? then (l, Some(prepared.fault)) else (prepared.life, None)
  }

  function RetryJob(l: Life, j: JobId): (Life, Option<Fault>) {
    if j !in l.jobs then (l, Some(Missing))
    else if !l.jobs[j].state.JobFailed? || !l.jobs[j].spec.replaySafe then (l, Some(Busy))
    else if l.jobs[j].session.None? || l.jobs[j].session.value !in l.sessions then (l, Some(Missing))
    else if l.sessions[l.jobs[j].session.value].state.Recovering? then (l, Some(Busy))
    else (l.(jobs := l.jobs[j := l.jobs[j].(state := JobReady)]), None)
  }

  // --------------------------------------------------------------------- recovery

  predicate Interrupted(l: Life, j: JobId) {
    exists r :: r in l.runs && l.runs[r].job == j && l.runs[r].state.RunRunning?
  }

  predicate LostStep(s: Session) {
    s.state.Warming? && (if s.warmupStep == Some(Compact) then s.compact.StepRunning? else s.rpaInit.StepRunning?)
  }

  function RecoveredSession(s: Session, active: bool): Session {
    if active then s.(state := Recovering, activeJob := None)
    else if LostStep(s) then s.(state := Recovering) else s
  }

  /** After a restart nothing is replayed: what was under way becomes uncertain.  The crash
      has ended every warm-up that was in flight. */
  function Recover(l: Life): Life {
    l.(runs := map r | r in l.runs :: if l.runs[r].state.RunRunning? then l.runs[r].(state := RunUnknown) else l.runs[r],
       jobs := map j | j in l.jobs :: if Interrupted(l, j) then l.jobs[j].(state := NeedsOperator, activeRun := None) else l.jobs[j],
       sessions := map s | s in l.sessions :: RecoveredSession(l.sessions[s], Active(l, s)),
       warmers := map[])
  }

  // ------------------------------------------------------------------ whole machine

  datatype LifeStep =
    | Ensure(session: SessionId, profile: Label, permission: Permission, inherited: bool)
    | Fork(session: SessionId, job: JobId)
    | Register(spec: JobSpec)
    | Adopt(session: SessionId)
    | Claim(session: SessionId)
    | Expire(warmer: WarmerId)
    | Begin(warmer: WarmerId)
    | End(warmer: WarmerId, outcome: StepOutcome)
    | Finish(warmer: WarmerId)
    | WarmerDies(warmer: WarmerId)
    | Rewarm(session: SessionId, confirmed: bool)
    | Start(job: JobId)
    | Complete(run: RunId, state: RunState, result: Option<Label>)
    | Retry(job: JobId)
    | Settle
    | Restart

  function LifeNext(l: Life, step: LifeStep): Life {
    match step
    case Ensure(s, profile, permission, inherited) => EnsureSession(l, s, profile, permission, inherited).0
    case Fork(s, j) => BranchSession(l, s, j).0
    case Register(spec) => RegisterJob(l, spec).0
    case Adopt(s) => AdoptPrepared(l, s).0
    case Claim(s) => ClaimWarmup(l, s).0
    case Expire(w) => ExpireWarmer(l, w)
    case Begin(w) => BeginStep(l, w)
    case End(w, outcome) => EndStep(l, w, outcome)
    case Finish(w) => FinishWarmer(l, w)
    case WarmerDies(w) => l.(warmers := l.warmers - {w})
    case Rewarm(s, confirmed) => RetryWarmup(l, s, confirmed).0
    case Start(j) => StartJob(l, j).0
    case Complete(r, state, result) => CompleteRun(l, r, state, result).0
    case Retry(j) => RetryJob(l, j).0
    case Settle => ReadyJobs(l).0
    case Restart => Recover(l)
  }

  function LifeExec(l: Life, steps: seq<LifeStep>): Life {
    if steps == [] then l else var n := |steps| - 1; LifeNext(LifeExec(l, steps[..n]), steps[n])
  }
}
