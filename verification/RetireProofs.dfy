/** Replaced children: what a replan cancels at once, asks to stop, and holds tokens for. */
module RetireProofs {
  import opened Types
  import opened Sums
  import opened StoreOps
  import opened WorkflowOps
  import opened ManagerOps
  import opened Invariant
  import opened PairProofs
  import opened TaskProofs
  import opened StoreProofs
  import opened SettleProofs

  predicate Unfinished(db: Db, t: TaskId) {
    t in db.tasks && !Terminal(db.tasks[t].status)
  }

  lemma RetiredTaskSound(task: Task, unstarted: bool, now: Time)
    requires TaskSound(task) && !Terminal(task.status)
    ensures var row := RetiredTask(task, unstarted, now);
            TaskSound(row) && TaskAdvances(task, row) && row.current == task.current && row.tokensUsed == task.tokensUsed
  {
  }

  lemma RetiredAttemptSound(a: AttemptId, row: Attempt, now: Time)
    requires AttemptSound(a, row, now) && row.state.Queued?
    ensures var row' := RetiredAttempt(row, now);
            AttemptSound(a, row', now) && AttemptAdvances(row, row') && row'.settled && row'.knownTokens == 0
  {
  }

  lemma RetireQueuedKeeps(cfg: Config, db: Db, t: TaskId, events: seq<Event>)
    requires Inv(cfg, db) && Active(db, t) && Settleable(db, t)
    requires db.attempts[db.tasks[t].current.value].state.Queued?
    requires forall e :: e in events ==> e.task in db.tasks
    ensures var a := db.tasks[t].current.value;
            var db1 := db.(tasks := db.tasks[t := RetiredTask(db.tasks[t], true, db.clock)],
                           attempts := db.attempts[a := RetiredAttempt(db.attempts[a], db.clock)], events := events);
            Inv(cfg, db1) && Advances(db, db1)
  {
    hide Inv, Advances, Executions, Charged, AttemptSound, TaskSound, TaskAdvances, AttemptAdvances;
    ActivePair(cfg, db, t);
    var a, row := db.tasks[t].current.value, RetiredTask(db.tasks[t], true, db.clock);
    var att, arow := db.attempts[a], RetiredAttempt(db.attempts[a], db.clock);
    RetiredTaskSound(db.tasks[t], true, db.clock);
    RetiredAttemptSound(a, att, db.clock);
    Uncharged(db.roots, db.children, t);
    assert PairChange(t, db.tasks[t], row, a, att, arow, Executions(db.attempts[a := arow], t), db.clock);
    PairKeeps(cfg, db, t, row, a, arow, db.roots, events);
    assert db.(tasks := db.tasks[t := row], attempts := db.attempts[a := arow], roots := db.roots, events := events)
        == db.(tasks := db.tasks[t := row], attempts := db.attempts[a := arow], events := events);
  }

  lemma RetireAloneKeeps(cfg: Config, db: Db, t: TaskId, unstarted: bool, events: seq<Event>)
    requires Inv(cfg, db) && Unfinished(db, t) && (unstarted ==> db.tasks[t].status.Pending?)
    requires forall e :: e in events ==> e.task in db.tasks
    ensures var db1 := db.(tasks := db.tasks[t := RetiredTask(db.tasks[t], unstarted, db.clock)], events := events);
            Inv(cfg, db1) && Advances(db, db1)
  {
    hide Inv, Advances, TaskSound, TaskAdvances, Holds;
    SoundTask(cfg, db, t);
    RetiredTaskSound(db.tasks[t], unstarted, db.clock);
    TaskKeeps(cfg, db, t, RetiredTask(db.tasks[t], unstarted, db.clock), events);
  }

  lemma PendingIdle(cfg: Config, db: Db, t: TaskId)
    requires Inv(cfg, db) && Unfinished(db, t)
    ensures db.tasks[t].status.Pending? <==> db.tasks[t].current.None?
    ensures db.tasks[t].current.Some? ==> Active(db, t) && Settleable(db, t)
    ensures db.tasks[t].current.Some? ==> db.attempts[db.tasks[t].current.value].task == t
    ensures db.tasks[t].current.Some? ==> !db.attempts[db.tasks[t].current.value].settled
  {
    hide Inv;
    SoundTask(cfg, db, t);
  }

  lemma RetireKeeps(cfg: Config, db: Db, t: TaskId)
    requires Inv(cfg, db) && Unfinished(db, t)
    ensures Inv(cfg, Retire(db, t)) && Advances(db, Retire(db, t))
  {
    hide Inv, Advances, Referenced;
    InvReferences(cfg, db);
    EventsKnown(db);
    PendingIdle(cfg, db, t);
    var db1 := Retire(db, t);
    var row := RetiredTask(db.tasks[t], Unstarted(db, t), db.clock);
    if db.tasks[t].current.Some? && Unstarted(db, t) {
      var a := db.tasks[t].current.value;
      RetireQueuedKeeps(cfg, db, t, db1.events);
      assert db1 == db.(tasks := db.tasks[t := row], attempts := db.attempts[a := RetiredAttempt(db.attempts[a], db.clock)], events := db1.events);
    } else {
      RetireAloneKeeps(cfg, db, t, Unstarted(db, t), db1.events);
      assert db1 == db.(tasks := db.tasks[t := row], events := db1.events);
    }
  }

  /** What retiring one task leaves: every other task with its attempt, and no attempt but a Queued one ended. */
  ghost predicate RetiredOne(db: Db, db1: Db, t: TaskId) {
    && t in db.tasks && db1.tasks == db.tasks[t := RetiredTask(db.tasks[t], Unstarted(db, t), db.clock)]
    && db1.attempts.Keys == db.attempts.Keys
    && (forall a :: a in db.attempts && (db.tasks[t].current != Some(a) || !Unstarted(db, t)) ==> db1.attempts[a] == db.attempts[a])
    && (Unstarted(db, t) && db.tasks[t].current.Some? ==>
          db1.attempts[db.tasks[t].current.value] == RetiredAttempt(db.attempts[db.tasks[t].current.value], db.clock))
    && db1.roots == db.roots && db1.children == db.children && db1.transfers == db.transfers
    && db1.nextId == db.nextId && db1.clock == db.clock
  }

  lemma RetireOne(db: Db, t: TaskId)
    requires t in db.tasks
    ensures RetiredOne(db, Retire(db, t), t)
  {
    hide RetiredTask, RetiredAttempt;
  }

  /** All of `ids` retired, everything else untouched. */
  ghost predicate RetiredSet(db: Db, db1: Db, ids: seq<TaskId>) {
    && (forall t :: t in ids ==> t in db.tasks)
    && db1.tasks.Keys == db.tasks.Keys && db1.attempts.Keys == db.attempts.Keys
    && (forall t :: t in db.tasks ==>
          db1.tasks[t] == if t in ids then RetiredTask(db.tasks[t], Unstarted(db, t), db.clock) else db.tasks[t])
    && (forall a :: a in db.attempts && db.attempts[a].task !in ids ==> db1.attempts[a] == db.attempts[a])
    && (forall a :: a in db.attempts && !db.attempts[a].state.Queued? ==> db1.attempts[a] == db.attempts[a])
    && db1.roots == db.roots && db1.children == db.children && db1.transfers == db.transfers
    && db1.nextId == db.nextId && db1.clock == db.clock
  }

  lemma RetiredOneMore(cfg: Config, db: Db, mid: Db, db1: Db, ids: seq<TaskId>, t: TaskId)
    requires Inv(cfg, db) && RetiredSet(db, mid, ids) && t !in ids && Unfinished(db, t) && RetiredOne(mid, db1, t)
    ensures RetiredSet(db, db1, ids + [t])
  {
    hide Inv, RetiredTask, RetiredAttempt;
    PendingIdle(cfg, db, t);
    assert Unstarted(mid, t) == Unstarted(db, t);
  }

  lemma RetiredNone(db: Db)
    ensures RetiredSet(db, db, [])
  {
  }

  lemma {:induction false} RetireAllShape(cfg: Config, db: Db, ids: seq<TaskId>)
    requires Inv(cfg, db) && Ascends(ids) && forall t :: t in ids ==> t in db.tasks && Unfinished(db, t)
    ensures RetiredSet(db, RetireAll(db, ids), ids)
  {
    hide Inv, Retire, RetiredOne, RetiredSet, Terminal;
    if ids == [] {
      RetiredNone(db);
    } else {
      var n := |ids| - 1;
      var t := ids[n];
      assert t in ids && t !in ids[..n];
      assert forall x :: x in ids[..n] ==> x in ids;
      var mid, db1 := RetireAll(db, ids[..n]), RetireAll(db, ids);
      RetireAllShape(cfg, db, ids[..n]);
      RetireOne(mid, t);
      RetiredOneMore(cfg, db, mid, db1, ids[..n], t);
      assert ids == ids[..n] + [t];
    }
  }

  lemma Untouched(db: Db, mid: Db, ids: seq<TaskId>, t: TaskId)
    requires RetiredSet(db, mid, ids) && Unfinished(db, t) && t !in ids
    ensures Unfinished(mid, t)
  {
    hide Unstarted, RetiredTask;
  }

  lemma {:induction false} RetireAllKeeps(cfg: Config, db: Db, ids: seq<TaskId>)
    requires Inv(cfg, db) && Ascends(ids) && forall t :: t in ids ==> t in db.tasks && Unfinished(db, t)
    ensures Inv(cfg, RetireAll(db, ids)) && Advances(db, RetireAll(db, ids))
  {
    hide Inv, Advances, Retire, RetiredSet, Terminal;
    if ids == [] {
      AdvancesReflexive(db);
    } else {
      var n := |ids| - 1;
      var t := ids[n];
      assert t in ids && t !in ids[..n];
      assert forall x :: x in ids[..n] ==> x in ids;
      var mid := RetireAll(db, ids[..n]);
      RetireAllKeeps(cfg, db, ids[..n]);
      RetireAllShape(cfg, db, ids[..n]);
      Untouched(db, mid, ids[..n], t);
      RetireKeeps(cfg, mid, t);
      AdvancesTransitive(cfg, db, mid, Retire(mid, t));
    }
  }

  // ------------------------------------------------------------- token accounting

  /** What a child still binds beyond its own usage once the plan is replaced. */
  function Holding(db: Db, ids: seq<TaskId>, t: TaskId): int
    requires t in db.tasks
  {
    if t in ids && !Unstarted(db, t) then Unspent(db.tasks[t]) else 0
  }

  ghost function Holdings(db: Db, r: TaskId, ids: seq<TaskId>): map<TaskId, int> {
    map t | t in db.tasks && IsChild(db.children, r, t) :: Holding(db, ids, t)
  }

  lemma {:induction false} HoldingsTotal(db: Db, r: TaskId, ids: seq<TaskId>)
    requires Ascends(ids) && forall t :: t in ids ==> t in db.tasks && IsOpenChild(db, r, t)
    ensures Sum(Holdings(db, r, ids)) == HeldTokens(db, ids)
  {
    if ids == [] {
      ZeroTotal(Holdings(db, r, ids));
    } else {
      var n := |ids| - 1;
      var t := ids[n];
      HoldingsTotal(db, r, ids[..n]);
      assert t in ids && t !in ids[..n];
      assert ids == ids[..n] + [t];
      HoldingsMore(db, r, ids[..n], t);
    }
  }

  lemma HoldingsMore(db: Db, r: TaskId, ids: seq<TaskId>, t: TaskId)
    requires t in db.tasks && IsChild(db.children, r, t) && t !in ids
    ensures Sum(Holdings(db, r, ids + [t])) == Sum(Holdings(db, r, ids)) + if Unstarted(db, t) then 0 else Unspent(db.tasks[t])
  {
    hide IsChild, Unspent, Unstarted;
    var less := Holdings(db, r, ids);
    var v := if Unstarted(db, t) then 0 else Unspent(db.tasks[t]);
    assert Holdings(db, r, ids + [t]) == less[t := v];
    SumSet(less, t, v);
  }

  lemma {:induction false} ZeroTotal(m: map<nat, int>)
    requires forall k :: k in m ==> m[k] == 0
    ensures Sum(m) == 0
    decreases |m|
  {
    if m != map[] {
      var k :| k in m;
      SumRemove(m, k);
      ZeroTotal(m - {k});
    }
  }

  /** After the replacement, old children bind what they used plus what launched ones may still spend. */
  lemma RetiredCommitments(db: Db, db1: Db, r: TaskId, ids: seq<TaskId>)
    requires RetiredSet(db, db1, ids) && Ascends(ids)
    requires forall t :: t in ids <==> IsOpenChild(db, r, t)
    ensures Sum(Commitments(db1.tasks, db1.children, r)) <= Sum(ChildUsage(db.tasks, db.children, r)) + HeldTokens(db, ids)
  {
    var usage, held := ChildUsage(db.tasks, db.children, r), Holdings(db, r, ids);
    var both := map t | t in usage :: usage[t] + held[t];
    SumAdd(usage, held, both);
    HoldingsTotal(db, r, ids);
    var bound := Commitments(db1.tasks, db1.children, r);
    forall t | t in bound ensures bound[t] <= both[t] {
      RetiredBinds(db, db1, r, ids, t);
    }
    SumLe(bound, both);
  }

  lemma RetiredBinds(db: Db, db1: Db, r: TaskId, ids: seq<TaskId>, t: TaskId)
    requires RetiredSet(db, db1, ids) && t in db.tasks && IsChild(db.children, r, t)
    requires t in ids <==> IsOpenChild(db, r, t)
    ensures Commitment(db1.tasks[t]) <= db.tasks[t].tokensUsed + Holding(db, ids, t)
  {
    hide IsChild;
  }
}
