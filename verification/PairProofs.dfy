/** One task and its current attempt change together. */
module PairProofs {
  import opened Types
  import opened Sums
  import opened StoreOps
  import opened WorkflowOps
  import opened Invariant

  /** A legal change from the rows `task`, `att` of an open task `t` and its current
      attempt `a` to `row`, `arow`; `executed` counts executions afterwards. */
  predicate PairChange(t: TaskId, task: Task, row: Task, a: AttemptId, att: Attempt, arow: Attempt, executed: nat, clock: Time) {
    && task.current == Some(a) && Open(task.status) && !att.settled && att.task == t
    && TaskAdvances(task, row) && AttemptAdvances(att, arow)
    && TaskSound(row) && AttemptSound(a, arow, clock)
    && arow.settled == !Open(row.status)
    && (!row.status.Pending? ==> row.current == Some(a))
    && (row.status.Pending? ==> Retriable(arow.kind) && executed < Limit(row.spec))
    && (row.status.Succeeded? ==> Accepts(row, t, arow))
    && row.tokensUsed == task.tokensUsed + (if arow.settled then arow.knownTokens else 0)
  }

  /** The workflow roots after `tokens` of `t` were accounted, whatever else the settlement notes on them. */
  ghost predicate Charged(roots: map<TaskId, Root>, rows: seq<Child>, t: TaskId, tokens: nat, roots': map<TaskId, Root>) {
    && roots'.Keys == roots.Keys
    && forall r :: r in roots ==> ChargedRoot(roots[r], roots'[r], if IsChild(rows, r, t) then tokens else 0)
  }

  predicate ChargedRoot(x: Root, y: Root, tokens: nat) {
    && y.tokensUsed == x.tokensUsed + tokens
    && y.planRevision == x.planRevision && y.plans == x.plans && y.authority == x.authority
    && y.maxTokens == x.maxTokens && y.maxAttempts == x.maxAttempts && y.attemptsUsed == x.attemptsUsed
  }

  lemma PairRows(tasks: map<TaskId, Task>, attempts: map<AttemptId, Attempt>, intents: map<TaskId, Intent>,
                 t: TaskId, row: Task, a: AttemptId, arow: Attempt, executed: nat, nextId: nat, clock: Time)
    requires Rows(tasks, attempts, nextId, clock) && Linked(tasks, attempts) && Outcomes(tasks, attempts, intents)
    requires t in tasks && a in attempts && PairChange(t, tasks[t], row, a, attempts[a], arow, executed, clock)
    ensures Rows(tasks[t := row], attempts[a := arow], nextId, clock)
    ensures Linked(tasks[t := row], attempts[a := arow])
    ensures Outcomes(tasks[t := row], attempts[a := arow], intents)
  {
    PairLinks(tasks, attempts, t, row, a, arow, executed, clock);
    PairOutcomes(tasks, attempts, intents, t, row, a, arow, executed, clock);
  }

  lemma PairLinks(tasks: map<TaskId, Task>, attempts: map<AttemptId, Attempt>, t: TaskId, row: Task,
                  a: AttemptId, arow: Attempt, executed: nat, clock: Time)
    requires Linked(tasks, attempts)
    requires t in tasks && a in attempts && PairChange(t, tasks[t], row, a, attempts[a], arow, executed, clock)
    ensures Linked(tasks[t := row], attempts[a := arow])
  {
    forall x | x in tasks && x != t ensures Holds(tasks[x], x, attempts[a := arow]) {
      assert Holds(tasks[x], x, attempts);
    }
    assert Holds(row, t, attempts[a := arow]);
    forall b | b in attempts && b != a
      ensures attempts[b].task in tasks && HeldBy(tasks[t := row][attempts[b].task], b, attempts[b])
    {
      assert HeldBy(tasks[attempts[b].task], b, attempts[b]);
    }
    assert HeldBy(row, a, arow);
  }

  lemma PairOutcomes(tasks: map<TaskId, Task>, attempts: map<AttemptId, Attempt>, intents: map<TaskId, Intent>,
                     t: TaskId, row: Task, a: AttemptId, arow: Attempt, executed: nat, clock: Time)
    requires Outcomes(tasks, attempts, intents)
    requires t in tasks && a in attempts && PairChange(t, tasks[t], row, a, attempts[a], arow, executed, clock)
    ensures Outcomes(tasks[t := row], attempts[a := arow], intents)
  {
    forall x | x in tasks && x != t ensures Explained(tasks[x], x, attempts[a := arow], intents) {
      assert Explained(tasks[x], x, attempts, intents);
    }
    assert Explained(row, t, attempts[a := arow], intents);
  }

  lemma ExecutedSet(attempts: map<AttemptId, Attempt>, a: AttemptId, arow: Attempt, t: TaskId)
    requires a in attempts && arow.task == attempts[a].task
    requires attempts[a].kind == Some(NotStarted) ==> arow.kind == Some(NotStarted)
    ensures Executions(attempts[a := arow], t)
            == Executions(attempts, t) - (if t == arow.task && arow.kind == Some(NotStarted) && attempts[a].kind != Some(NotStarted) then 1 else 0)
  {
    var x, y := Executed(attempts, t), Executed(attempts[a := arow], t);
    if t == arow.task && arow.kind == Some(NotStarted) && attempts[a].kind != Some(NotStarted) {
      assert y == x - {a};
    } else {
      assert y == x;
    }
  }

  lemma AttemptsOfSet(attempts: map<AttemptId, Attempt>, a: AttemptId, arow: Attempt, t: TaskId)
    requires a in attempts && arow.task == attempts[a].task
    ensures AttemptsOf(attempts[a := arow], t) == AttemptsOf(attempts, t)
  {
  }

  lemma PairNumbers(attempts: map<AttemptId, Attempt>, a: AttemptId, arow: Attempt)
    requires Numbered(attempts) && a in attempts && AttemptAdvances(attempts[a], arow)
    ensures Numbered(attempts[a := arow])
  {
    forall b | b in attempts ensures AttemptsOf(attempts[a := arow], attempts[b].task) == AttemptsOf(attempts, attempts[b].task) {
      AttemptsOfSet(attempts, a, arow, attempts[b].task);
    }
  }

  lemma PairLimits(tasks: map<TaskId, Task>, attempts: map<AttemptId, Attempt>, t: TaskId, row: Task,
                   a: AttemptId, arow: Attempt, clock: Time)
    requires Limited(tasks, attempts) && t in tasks && a in attempts
    requires PairChange(t, tasks[t], row, a, attempts[a], arow, Executions(attempts[a := arow], t), clock)
    ensures Limited(tasks[t := row], attempts[a := arow])
  {
    forall x | x in tasks ensures WithinLimit(tasks[t := row][x], x, attempts[a := arow]) {
      assert WithinLimit(tasks[x], x, attempts);
      if x == t && row.status.Pending? {
        assert Earlier(attempts[a := arow], t, None) == Executed(attempts[a := arow], t);
      } else {
        assert Earlier(attempts[a := arow], x, tasks[x].current) == Earlier(attempts, x, tasks[x].current);
      }
    }
  }

  lemma PairReserved(attempts: map<AttemptId, Attempt>, a: AttemptId, arow: Attempt)
    requires a in attempts && (attempts[a].settled ==> arow.settled)
    requires attempts[a].reserved == !attempts[a].settled && arow.reserved == !arow.settled
    ensures |Reserved(attempts[a := arow])| <= |Reserved(attempts)|
  {
    Subset(Reserved(attempts[a := arow]), Reserved(attempts));
  }

  lemma Subset(x: set<nat>, y: set<nat>)
    requires x <= y
    ensures |x| <= |y|
  {
    assert y == x + (y - x);
  }

  lemma PairUsage(tasks: map<TaskId, Task>, attempts: map<AttemptId, Attempt>, intents: map<TaskId, Intent>,
                  t: TaskId, row: Task, a: AttemptId, arow: Attempt, executed: nat, clock: Time)
    requires Accounted(tasks, attempts, intents) && t in tasks && a in attempts
    requires PairChange(t, tasks[t], row, a, attempts[a], arow, executed, clock)
    ensures Accounted(tasks[t := row], attempts[a := arow], intents)
  {
    forall x | x in tasks && Whole(intents, x)
      ensures tasks[t := row][x].tokensUsed == Sum(SettledUsage(attempts[a := arow], x))
    {
      SettledUsageSet(attempts, a, arow, x);
    }
  }

  lemma SettledUsageSet(attempts: map<AttemptId, Attempt>, a: AttemptId, arow: Attempt, t: TaskId)
    requires a in attempts && !attempts[a].settled && arow.task == attempts[a].task
    ensures Sum(SettledUsage(attempts[a := arow], t))
            == Sum(SettledUsage(attempts, t)) + (if t == arow.task && arow.settled then arow.knownTokens else 0)
  {
    var before := SettledUsage(attempts, t);
    if t == arow.task && arow.settled {
      assert SettledUsage(attempts[a := arow], t) == before[a := arow.knownTokens];
      SumSet(before, a, arow.knownTokens);
    } else {
      assert SettledUsage(attempts[a := arow], t) == before;
    }
  }

  lemma PairRoots(tasks: map<TaskId, Task>, attempts: map<AttemptId, Attempt>, roots: map<TaskId, Root>, rows: seq<Child>,
                  t: TaskId, row: Task, a: AttemptId, arow: Attempt, roots': map<TaskId, Root>, tokens: nat)
    requires RootsAccounted(tasks, attempts, roots, rows) && t in tasks && a in attempts && arow.task == attempts[a].task
    requires row.tokensUsed == tasks[t].tokensUsed + tokens && Charged(roots, rows, t, tokens, roots')
    ensures RootsAccounted(tasks[t := row], attempts[a := arow], roots', rows)
  {
    forall r | r in roots
      ensures roots'[r].tokensUsed == Sum(ChildUsage(tasks[t := row], rows, r))
      ensures roots'[r].attemptsUsed == |ChildAttempts(attempts[a := arow], rows, r)| <= roots'[r].maxAttempts
    {
      UsageTotal(tasks, rows, r, t, row);
      assert ChildAttempts(attempts[a := arow], rows, r) == ChildAttempts(attempts, rows, r);
      assert ChargedRoot(roots[r], roots'[r], if IsChild(rows, r, t) then tokens else 0);
    }
  }

  lemma TaskAllocation(tasks: map<TaskId, Task>, roots: map<TaskId, Root>, rows: seq<Child>, t: TaskId, row: Task)
    requires Allocated(tasks, roots, rows) && t in tasks && Commitment(row) <= Commitment(tasks[t])
    ensures Allocated(tasks[t := row], roots, rows)
  {
    forall r | r in roots && roots[r].maxTokens.Some?
      ensures Sum(Commitments(tasks[t := row], rows, r)) <= roots[r].maxTokens.value
    {
      CommitmentTotal(tasks, rows, r, t, row);
    }
  }

  lemma ChargedAllocation(tasks: map<TaskId, Task>, roots: map<TaskId, Root>, rows: seq<Child>, t: TaskId, tokens: nat, roots': map<TaskId, Root>)
    requires Allocated(tasks, roots, rows) && Charged(roots, rows, t, tokens, roots')
    ensures Allocated(tasks, roots', rows)
  {
    forall r | r in roots' && roots'[r].maxTokens.Some? ensures Sum(Commitments(tasks, rows, r)) <= roots'[r].maxTokens.value {
      assert ChargedRoot(roots[r], roots'[r], if IsChild(rows, r, t) then tokens else 0);
    }
  }

  lemma UsageTotal(tasks: map<TaskId, Task>, rows: seq<Child>, r: TaskId, t: TaskId, row: Task)
    requires t in tasks
    ensures Sum(ChildUsage(tasks[t := row], rows, r))
            == Sum(ChildUsage(tasks, rows, r)) + (if IsChild(rows, r, t) then row.tokensUsed - tasks[t].tokensUsed else 0)
  {
    var u := ChildUsage(tasks, rows, r);
    if IsChild(rows, r, t) {
      assert ChildUsage(tasks[t := row], rows, r) == u[t := row.tokensUsed];
      SumSet(u, t, row.tokensUsed);
    } else {
      assert ChildUsage(tasks[t := row], rows, r) == u;
    }
  }

  lemma CommitmentTotal(tasks: map<TaskId, Task>, rows: seq<Child>, r: TaskId, t: TaskId, row: Task)
    requires t in tasks
    ensures Sum(Commitments(tasks[t := row], rows, r))
            == Sum(Commitments(tasks, rows, r)) + (if IsChild(rows, r, t) then Commitment(row) - Commitment(tasks[t]) else 0)
  {
    var c := Commitments(tasks, rows, r);
    if IsChild(rows, r, t) {
      assert Commitments(tasks[t := row], rows, r) == c[t := Commitment(row)];
      SumSet(c, t, Commitment(row));
    } else {
      assert Commitments(tasks[t := row], rows, r) == c;
    }
  }

  /** A task row that advances keeps every child row sound. */
  lemma TaskChildren(tasks: map<TaskId, Task>, roots: map<TaskId, Root>, rows: seq<Child>, t: TaskId, row: Task)
    requires ChildrenSound(tasks, roots, rows) && RootsSound(tasks, roots) && t in tasks && TaskAdvances(tasks[t], row)
    ensures ChildrenSound(tasks[t := row], roots, rows) && RootsSound(tasks[t := row], roots)
  {
    forall c | c in rows
      ensures c.root in roots && c.task in tasks && c.task !in roots && ChildSound(tasks[t := row][c.task], roots[c.root], c)
    {
      assert ChildSound(tasks[c.task], roots[c.root], c);
    }
  }

  lemma ChargedChildren(tasks: map<TaskId, Task>, roots: map<TaskId, Root>, rows: seq<Child>, t: TaskId, tokens: nat, roots': map<TaskId, Root>)
    requires ChildrenSound(tasks, roots, rows) && RootsSound(tasks, roots) && Plans(roots, rows)
    requires Charged(roots, rows, t, tokens, roots')
    ensures ChildrenSound(tasks, roots', rows) && RootsSound(tasks, roots') && Plans(roots', rows)
  {
    forall c | c in rows
      ensures c.root in roots' && ChildSound(tasks[c.task], roots'[c.root], c) && Planned(roots'[c.root], rows, c)
    {
      assert ChildSound(tasks[c.task], roots[c.root], c) && Planned(roots[c.root], rows, c);
      assert ChargedRoot(roots[c.root], roots'[c.root], if IsChild(rows, c.root, t) then tokens else 0);
    }
    forall r | r in roots' ensures r in tasks && roots'[r].planRevision <= |roots'[r].plans| && roots'[r].maxAttempts >= 1 {
      assert ChargedRoot(roots[r], roots'[r], if IsChild(rows, r, t) then tokens else 0);
    }
  }

  lemma PairGates(tasks: map<TaskId, Task>, attempts: map<AttemptId, Attempt>, rows: seq<Child>,
                  transfers: map<(TaskId, TaskId), Transfer>, t: TaskId, row: Task, a: AttemptId, arow: Attempt)
    requires Gated(tasks, attempts, rows, transfers) && t in tasks && a in attempts
    requires TaskAdvances(tasks[t], row) && arow.task == attempts[a].task
    ensures Gated(tasks[t := row], attempts[a := arow], rows, transfers)
  {
    forall c, d | c in rows && d in rows && !c.carried && DependsOn(c, d) && Attempted(attempts[a := arow], c.task)
      ensures Satisfied(tasks[t := row], transfers, c, d)
    {
      var b :| b in attempts[a := arow] && attempts[a := arow][b].task == c.task;
      assert b in attempts && attempts[b].task == c.task;
      assert Satisfied(tasks, transfers, c, d);
    }
  }

  lemma TaskSent(tasks: map<TaskId, Task>, transfers: map<(TaskId, TaskId), Transfer>, t: TaskId, row: Task)
    requires Sent(tasks, transfers) && t in tasks && TaskAdvances(tasks[t], row)
    ensures Sent(tasks[t := row], transfers)
  {
  }

  lemma PairReferences(db: Db, t: TaskId, row: Task, a: AttemptId, arow: Attempt,
                       roots: map<TaskId, Root>, tokens: nat, events: seq<Event>)
    requires Referenced(db) && Charged(db.roots, db.children, t, tokens, roots)
    requires t in db.tasks && a in db.attempts
    requires TaskAdvances(db.tasks[t], row) && arow.task == db.attempts[a].task && arow.worker == db.attempts[a].worker
    requires Open(db.tasks[t].status) && arow.task == t
    requires forall e :: e in events ==> e.task in db.tasks
    ensures Referenced(db.(tasks := db.tasks[t := row], attempts := db.attempts[a := arow], roots := roots, events := events))
  {
    var db1 := db.(tasks := db.tasks[t := row], attempts := db.attempts[a := arow], roots := roots, events := events);
    forall x | x in db1.intents ensures IntentSound(db1, x, db1.intents[x]) {
      assert IntentSound(db, x, db.intents[x]);
      if Attempted(db1.attempts, x) {
        var b :| b in db1.attempts && db1.attempts[b].task == x;
        assert b in db.attempts && db.attempts[b].task == x;
      }
    }
  }

  lemma PairAdvances(db: Db, t: TaskId, row: Task, a: AttemptId, arow: Attempt, roots: map<TaskId, Root>, tokens: nat, events: seq<Event>)
    requires t in db.tasks && a in db.attempts && TaskAdvances(db.tasks[t], row) && AttemptAdvances(db.attempts[a], arow)
    requires Charged(db.roots, db.children, t, tokens, roots)
    ensures Advances(db, db.(tasks := db.tasks[t := row], attempts := db.attempts[a := arow], roots := roots, events := events))
  {
    forall r | r in db.roots ensures r in roots && RootAdvances(db.roots[r], roots[r]) {
      assert ChargedRoot(db.roots[r], roots[r], if IsChild(db.children, r, t) then tokens else 0);
    }
  }

  /** What the smaller lemmas need of a legal change. */
  lemma PairFacts(t: TaskId, task: Task, row: Task, a: AttemptId, att: Attempt, arow: Attempt, executed: nat, clock: Time)
    requires PairChange(t, task, row, a, att, arow, executed, clock) && AttemptSound(a, att, clock)
    ensures TaskAdvances(task, row) && AttemptAdvances(att, arow)
    ensures Open(task.status) && arow.task == att.task == t && arow.worker == att.worker
    ensures att.reserved == !att.settled && arow.reserved == !arow.settled && (att.settled ==> arow.settled)
    ensures row.tokensUsed == task.tokensUsed + (if arow.settled then arow.knownTokens else 0)
    ensures Commitment(row) <= Commitment(task)
  {
  }

  /** The joint change keeps everything, whatever it logs about existing tasks. */
  lemma PairKeeps(cfg: Config, db: Db, t: TaskId, row: Task, a: AttemptId, arow: Attempt, roots: map<TaskId, Root>, events: seq<Event>)
    requires Inv(cfg, db) && t in db.tasks && a in db.attempts
    requires PairChange(t, db.tasks[t], row, a, db.attempts[a], arow, Executions(db.attempts[a := arow], t), db.clock)
    requires Charged(db.roots, db.children, t, if arow.settled then arow.knownTokens else 0, roots)
    requires forall e :: e in events ==> e.task in db.tasks
    ensures var db1 := db.(tasks := db.tasks[t := row], attempts := db.attempts[a := arow], roots := roots, events := events);
            Inv(cfg, db1) && Advances(db, db1)
  {
    assert AttemptSound(a, db.attempts[a], db.clock);
    hide Rows, Linked, Outcomes, Numbered, Limited, Accounted, Reserved, RootsSound, ChildrenSound, Distinct;
    hide RootsAccounted, Allocated, Plans, Gated, Sent, Referenced, Advances, Executions, Charged;
    hide PairChange, AttemptSound, TaskSound, TaskAdvances, AttemptAdvances, Commitment;
    PairFacts(t, db.tasks[t], row, a, db.attempts[a], arow, Executions(db.attempts[a := arow], t), db.clock);
    var tasks, attempts := db.tasks[t := row], db.attempts[a := arow];
    var executed, tokens := Executions(attempts, t), if arow.settled then arow.knownTokens else 0;
    PairRows(db.tasks, db.attempts, db.intents, t, row, a, arow, executed, db.nextId, db.clock);
    PairNumbers(db.attempts, a, arow);
    PairLimits(db.tasks, db.attempts, t, row, a, arow, db.clock);
    PairReserved(db.attempts, a, arow);
    PairUsage(db.tasks, db.attempts, db.intents, t, row, a, arow, executed, db.clock);
    PairRoots(db.tasks, db.attempts, db.roots, db.children, t, row, a, arow, roots, tokens);
    TaskAllocation(db.tasks, db.roots, db.children, t, row);
    ChargedAllocation(tasks, db.roots, db.children, t, tokens, roots);
    TaskChildren(db.tasks, db.roots, db.children, t, row);
    ChargedChildren(tasks, db.roots, db.children, t, tokens, roots);
    PairGates(db.tasks, db.attempts, db.children, db.transfers, t, row, a, arow);
    TaskSent(db.tasks, db.transfers, t, row);
    PairReferences(db, t, row, a, arow, roots, tokens, events);
    PairAdvances(db, t, row, a, arow, roots, tokens, events);
  }
}
