/** Dependency delivery, admission and placement keep the invariant. */
module ScheduleProofs {
  import opened Types
  import opened Sums
  import opened Graph
  import opened StoreOps
  import opened WorkflowOps
  import opened ManagerOps
  import opened Invariant
  import opened PairProofs
  import opened TaskProofs
  import opened StoreProofs
  import opened SettleProofs

  // ------------------------------------------------------------------- delivery

  lemma PlanNames(root: Root, rows: seq<Child>, c: Child, key: Label)
    requires Planned(root, rows, c) && key in c.dependencies
    ensures InRevision(rows, c.root, c.revision, key)
  {
    hide Acyclic, PlanGraph, InRevision;
    var g := PlanGraph(root.plans[c.revision - 1].doc.children);
    assert key in g[c.key] && g[c.key] <= g.Keys;
  }

  /** A dependency resolves to the row of its own revision: the plan that named it
      also created it, and no other row of that revision has its key. */
  lemma SourceFound(roots: map<TaskId, Root>, rows: seq<Child>, c: Child, key: Label)
    requires Plans(roots, rows) && c in rows && key in c.dependencies
    ensures var source := SourceChild(rows, c.root, key, c.revision);
            source.Some? && DependsOn(c, source.value) && source.value.key == key
  {
    hide Planned;
    PlanNames(roots[c.root], rows, c, key);
    var d :| d in rows && d.root == c.root && d.revision == c.revision && d.key == key;
  }

  lemma InvRows(cfg: Config, db: Db)
    requires Inv(cfg, db)
    ensures Rows(db.tasks, db.attempts, db.nextId, db.clock) && Linked(db.tasks, db.attempts)
    ensures Plans(db.roots, db.children) && Sent(db.tasks, db.transfers)
    ensures Gated(db.tasks, db.attempts, db.children, db.transfers)
  {
  }

  lemma KnownChild(cfg: Config, db: Db, c: Child)
    requires Inv(cfg, db) && c in db.children
    ensures c.root in db.roots && c.task in db.tasks && c.task !in db.roots && ChildSound(db.tasks[c.task], db.roots[c.root], c)
  {
    hide Rows, Linked, Outcomes, Numbered, Limited, Accounted, RootsSound, Distinct;
    hide RootsAccounted, Allocated, Plans, Gated, Sent, Referenced;
  }

  lemma SourceKnown(cfg: Config, db: Db, c: Child, key: Label)
    requires Inv(cfg, db) && c in db.children && key in c.dependencies
    ensures var source := SourceChild(db.children, c.root, key, c.revision);
            source.Some? && DependsOn(c, source.value) && source.value.key == key && source.value in db.children
            && source.value.task in db.tasks && c.task in db.tasks
  {
    hide Inv;
    InvRows(cfg, db);
    SourceFound(db.roots, db.children, c, key);
    KnownChild(cfg, db, c);
    KnownChild(cfg, db, SourceChild(db.children, c.root, key, c.revision).value);
  }

  lemma SendKeeps(cfg: Config, db: Db, s: TaskId, t: TaskId)
    requires Inv(cfg, db) && s in db.tasks && t in db.tasks
    ensures Inv(cfg, Send(db, s, t)) && Advances(db, Send(db, s, t))
  {
    hide Inv;
    InvReferences(cfg, db);
    AsideSame(db);
    AsideKeeps(cfg, db, Send(db, s, t));
  }

  /** A child that holds an attempt has been sent everything it depends on. */
  lemma OpenSupplied(cfg: Config, db: Db, c: Child, d: Child)
    requires Inv(cfg, db) && c in db.children && d in db.children && DependsOn(c, d)
    requires c.task in db.tasks && Open(db.tasks[c.task].status)
    ensures Satisfied(db.tasks, db.transfers, c, d)
  {
    hide Inv;
    ActivePair(cfg, db, c.task);
    KnownChild(cfg, db, c);
    InvRows(cfg, db);
    assert Attempted(db.attempts, c.task);
  }

  lemma EndedSound(task: Task, reason: Option<Reason>, now: Time)
    requires TaskSound(task) && task.status.Pending?
    ensures TaskChange(task, task.(status := Status.Failed, reason := reason, finishedAt := Some(now)))
  {
  }

  lemma EndPendingKeeps(cfg: Config, db: Db, t: TaskId, reason: Option<Reason>)
    requires Inv(cfg, db) && t in db.tasks && db.tasks[t].status.Pending?
    ensures var db1 := db.(tasks := db.tasks[t := db.tasks[t].(status := Status.Failed, reason := reason, finishedAt := Some(db.clock))]);
            Inv(cfg, db1) && Advances(db, db1)
  {
    hide Inv, Advances, TaskSound, TaskChange, Holds, Referenced;
    SoundTask(cfg, db, t);
    InvReferences(cfg, db);
    EventsKnown(db);
    EndedSound(db.tasks[t], reason, db.clock);
    var ended := db.tasks[t].(status := Status.Failed, reason := reason, finishedAt := Some(db.clock));
    TaskKeeps(cfg, db, t, ended, db.events);
    assert db.(tasks := db.tasks[t := ended]) == db.(tasks := db.tasks[t := ended], events := db.events);
  }

  /** The refused consumer ends if it was Pending; an open one had been supplied. */
  lemma RefusedTaskKeeps(cfg: Config, db: Db, c: Child, d: Child)
    requires Inv(cfg, db) && c in db.children && d in db.children && DependsOn(c, d) && c.task in db.tasks
    ensures var db1 := db.(tasks := RefuseDependency(db, c, d.task).tasks);
            Inv(cfg, db1) && Advances(db, db1) && c.task in db1.tasks
            && (Terminal(db1.tasks[c.task].status) || (d.task, c.task) in db.transfers)
  {
    hide Inv, Advances, DependsOn;
    if db.tasks[c.task].status.Pending? {
      EndPendingKeeps(cfg, db, c.task, Some(DependencyFailed));
    } else {
      AdvancesReflexive(db);
      assert db.(tasks := db.tasks) == db;
      if Open(db.tasks[c.task].status) {
        OpenSupplied(cfg, db, c, d);
      }
    }
  }

  lemma FailedTransferKeeps(cfg: Config, db: Db, s: TaskId, t: TaskId)
    requires Inv(cfg, db) && s in db.tasks && t in db.tasks
    requires Terminal(db.tasks[t].status) || (s, t) in db.transfers
    ensures var db1 := db.(transfers := if (s, t) in db.transfers then db.transfers else db.transfers[(s, t) := Undelivered]);
            Inv(cfg, db1) && Advances(db, db1)
  {
    hide Inv, Advances;
    InvReferences(cfg, db);
    AsideSame(db);
    AsideKeeps(cfg, db, db.(transfers := if (s, t) in db.transfers then db.transfers else db.transfers[(s, t) := Undelivered]));
  }

  lemma RefuseKeeps(cfg: Config, db: Db, c: Child, d: Child)
    requires Inv(cfg, db) && c in db.children && d in db.children && DependsOn(c, d)
    ensures Inv(cfg, RefuseDependency(db, c, d.task)) && Advances(db, RefuseDependency(db, c, d.task))
  {
    hide Inv, Advances, Terminal, DependsOn;
    KnownChild(cfg, db, c);
    KnownChild(cfg, db, d);
    var s, result := d.task, RefuseDependency(db, c, d.task);
    var db1 := db.(tasks := result.tasks);
    RefusedTaskKeeps(cfg, db, c, d);
    var db2 := db1.(transfers := result.transfers);
    FailedTransferKeeps(cfg, db1, s, c.task);
    AdvancesTransitive(cfg, db, db1, db2);
    var root := db.roots[c.root].(reason := Some(DependencyFailed));
    var db3 := db2.(roots := db2.roots[c.root := root]);
    RootNoteKeeps(cfg, db2, c.root, root);
    AdvancesTransitive(cfg, db, db2, db3);
    LogKeeps(cfg, db3, c.task, DependencyRefused);
    AdvancesTransitive(cfg, db, db3, result);
  }

  /** A dependency of `c` for `key` that has been delivered. */
  ghost predicate Supplied(db: Db, c: Child, key: Label) {
    var source := SourceChild(db.children, c.root, key, c.revision);
    source.Some? && Satisfied(db.tasks, db.transfers, c, source.value)
  }

  /** Only transfers were added. */
  predicate TransfersOnly(db: Db, db1: Db) {
    db1 == db.(transfers := db1.transfers)
  }

  lemma {:induction false} DeliverFromKeeps(cfg: Config, db: Db, c: Child, keys: seq<Label>, sound: set<TaskId>)
    requires Inv(cfg, db) && c in db.children && forall k :: k in keys ==> k in c.dependencies
    ensures Inv(cfg, DeliverFrom(db, c, keys, sound).0) && Advances(db, DeliverFrom(db, c, keys, sound).0)
    decreases |keys|
  {
    hide Inv, Advances, RefuseDependency;
    if keys == [] {
      AdvancesReflexive(db);
    } else {
      SourceKnown(cfg, db, c, keys[0]);
      var d := SourceChild(db.children, c.root, keys[0], c.revision).value;
      if !Terminal(db.tasks[d.task].status) {
        AdvancesReflexive(db);
      } else if !db.tasks[d.task].status.Succeeded? || d.task !in sound {
        RefuseKeeps(cfg, db, c, d);
      } else {
        var db1 := Send(db, d.task, c.task);
        SendKeeps(cfg, db, d.task, c.task);
        DeliverFromKeeps(cfg, db1, c, keys[1..], sound);
        AdvancesTransitive(cfg, db, db1, DeliverFrom(db, c, keys, sound).0);
      }
    }
  }

  /** Ready means that every dependency succeeded and was delivered, and nothing else changed. */
  lemma {:induction false} DeliverFromSupplies(cfg: Config, db: Db, c: Child, keys: seq<Label>, sound: set<TaskId>)
    requires Inv(cfg, db) && c in db.children && forall k :: k in keys ==> k in c.dependencies
    requires c.task in db.tasks && !Terminal(db.tasks[c.task].status) && DeliverFrom(db, c, keys, sound).1.Ready?
    ensures var db1 := DeliverFrom(db, c, keys, sound).0;
            TransfersOnly(db, db1) && (forall k :: k in keys ==> Supplied(db1, c, k))
            && forall p :: p in db.transfers ==> p in db1.transfers && db1.transfers[p] == db.transfers[p]
    decreases |keys|
  {
    hide Inv, Advances, RefuseDependency, DependsOn, Terminal;
    if keys != [] {
      SourceKnown(cfg, db, c, keys[0]);
      var d := SourceChild(db.children, c.root, keys[0], c.revision).value;
      var db1 := Send(db, d.task, c.task);
      SendKeeps(cfg, db, d.task, c.task);
      SentNow(cfg, db, d.task, c.task);
      DeliverFromSupplies(cfg, db1, c, keys[1..], sound);
      assert Supplied(DeliverFrom(db1, c, keys[1..], sound).0, c, keys[0]);
      assert keys == [keys[0]] + keys[1..];
    }
  }

  lemma SentNow(cfg: Config, db: Db, s: TaskId, t: TaskId)
    requires Inv(cfg, db) && s in db.tasks && t in db.tasks && !Terminal(db.tasks[t].status)
    ensures var db1 := Send(db, s, t);
            (s, t) in db1.transfers && db1.transfers[(s, t)].Delivered? && TransfersOnly(db, db1)
            && forall p :: p in db.transfers ==> p in db1.transfers && db1.transfers[p] == db.transfers[p]
  {
    hide Inv, Terminal;
    InvRows(cfg, db);
  }

  /** The refusal touches no task but the consumer. */
  /** Only the consumer's task row, transfers, root notes and events change. */
  ghost predicate Local(db: Db, db1: Db, t: TaskId) {
    && OthersKept(db, db1, t)
    && db1.tasks.Keys == db.tasks.Keys && db1.nextId == db.nextId && db1.attempts == db.attempts && db1.workers == db.workers
    && db1.clock == db.clock && db1.children == db.children && db1.placements == db.placements && db1.lastWorker == db.lastWorker
  }

  lemma RefuseLocal(db: Db, c: Child, s: TaskId)
    ensures Local(db, RefuseDependency(db, c, s), c.task)
  {
  }

  lemma {:induction false} DeliverFromLocal(db: Db, c: Child, keys: seq<Label>, sound: set<TaskId>)
    ensures Local(db, DeliverFrom(db, c, keys, sound).0, c.task)
    decreases |keys|
  {
    hide RefuseDependency, Terminal;
    if keys != [] {
      var source := SourceChild(db.children, c.root, keys[0], c.revision);
      RefuseLocal(db, c, c.task);
      if source.Some? {
        RefuseLocal(db, c, source.value.task);
        DeliverFromLocal(Send(db, source.value.task, c.task), c, keys[1..], sound);
      }
    }
  }

  lemma DeliverKeeps(cfg: Config, db: Db, t: TaskId, sound: set<TaskId>)
    requires Inv(cfg, db)
    ensures Inv(cfg, Deliver(db, t, sound).0) && Advances(db, Deliver(db, t, sound).0)
  {
    hide Inv, Advances, DeliverFrom;
    var c := LatestChild(db.children, t);
    if c.None? || c.value.dependencies == [] {
      AdvancesReflexive(db);
    } else {
      var (db1, d) := DeliverFrom(db, c.value, c.value.dependencies, sound);
      DeliverFromKeeps(cfg, db, c.value, c.value.dependencies, sound);
      if d.Ready? {
        KnownChild(cfg, db, c.value);
        DeliverReady(cfg, db, c.value, sound);
        LogKeeps(cfg, db1, t, DependenciesDelivered);
        AdvancesTransitive(cfg, db, db1, Deliver(db, t, sound).0);
      }
    }
  }

  lemma {:induction false} DeliverReady(cfg: Config, db: Db, c: Child, sound: set<TaskId>)
    requires Inv(cfg, db) && c in db.children
    requires DeliverFrom(db, c, c.dependencies, sound).1.Ready?
    ensures DeliverFrom(db, c, c.dependencies, sound).0.tasks == db.tasks
  {
    DeliverFromTasks(db, c, c.dependencies, sound);
  }

  lemma {:induction false} DeliverFromTasks(db: Db, c: Child, keys: seq<Label>, sound: set<TaskId>)
    requires DeliverFrom(db, c, keys, sound).1.Ready?
    ensures DeliverFrom(db, c, keys, sound).0.tasks == db.tasks
    decreases |keys|
  {
    if keys != [] {
      var source := SourceChild(db.children, c.root, keys[0], c.revision);
      DeliverFromTasks(Send(db, source.value.task, c.task), c, keys[1..], sound);
    }
  }

  lemma DeliverLocal(db: Db, t: TaskId, sound: set<TaskId>)
    ensures Local(db, Deliver(db, t, sound).0, t)
  {
    hide DeliverFrom;
    var c := LatestChild(db.children, t);
    if c.Some? {
      DeliverFromLocal(db, c.value, c.value.dependencies, sound);
    }
  }

  /** Every dependency of every row that created `t` is delivered. */
  ghost predicate Cleared(tasks: map<TaskId, Task>, rows: seq<Child>, transfers: map<(TaskId, TaskId), Transfer>, t: TaskId) {
    forall c, d :: c in rows && d in rows && c.task == t && !c.carried && DependsOn(c, d) ==> Satisfied(tasks, transfers, c, d)
  }

  /** A task that is not finished has one child row, the one that created it. */
  lemma OnlyRow(cfg: Config, db: Db, c: Child, d: Child)
    requires Inv(cfg, db) && c in db.children && d in db.children && c.task == d.task
    requires c.task in db.tasks && !db.tasks[c.task].status.Succeeded?
    ensures c == d
  {
    hide Inv;
    KnownChild(cfg, db, c);
    KnownChild(cfg, db, d);
    InvFlow(cfg, db);
    assert Akin(c, d);
  }

  lemma SameKey(cfg: Config, db: Db, c: Child, d: Child)
    requires Inv(cfg, db) && c in db.children && d in db.children && DependsOn(c, d)
    ensures SourceChild(db.children, c.root, d.key, c.revision) == Some(d)
  {
    hide Inv;
    SourceKnown(cfg, db, c, d.key);
    InvFlow(cfg, db);
    assert Akin(SourceChild(db.children, c.root, d.key, c.revision).value, d);
  }

  lemma DeliverClears(cfg: Config, db: Db, t: TaskId, sound: set<TaskId>)
    requires Inv(cfg, db) && t in db.tasks && !Terminal(db.tasks[t].status)
    requires Deliver(db, t, sound).1.Ready?
    ensures var db1 := Deliver(db, t, sound).0;
            && db1 == db.(transfers := db1.transfers, events := db1.events)
            && Cleared(db1.tasks, db1.children, db1.transfers, t)
  {
    hide Inv, DeliverFrom, Satisfied;
    var found := LatestChild(db.children, t);
    var db1 := Deliver(db, t, sound).0;
    if found.Some? {
      var row := found.value;
      var db2 := DeliverFrom(db, row, row.dependencies, sound).0;
      if row.dependencies != [] {
        DeliverFromSupplies(cfg, db, row, row.dependencies, sound);
      }
      forall c, d | c in db.children && d in db.children && c.task == t && !c.carried && DependsOn(c, d)
        ensures Satisfied(db1.tasks, db1.transfers, c, d)
      {
        OnlyRow(cfg, db, c, row);
        SameKey(cfg, db, c, d);
        assert Supplied(db2, c, d.key);
      }
    }
  }

  // ------------------------------------------------------------------ admission

  /** One more attempt of `t` is counted on the workflow that owns it. */
  ghost predicate Admitted(roots: map<TaskId, Root>, rows: seq<Child>, t: TaskId, roots': map<TaskId, Root>) {
    && roots'.Keys == roots.Keys
    && forall r :: r in roots ==> AdmittedRoot(roots[r], roots'[r], IsChild(rows, r, t))
  }

  predicate OutOfTokens(root: Root) {
    root.maxTokens.Some? && root.tokensUsed >= root.maxTokens.value
  }

  predicate AdmittedRoot(x: Root, y: Root, owned: bool) {
    if owned then y == x.(attemptsUsed := x.attemptsUsed + 1) && y.attemptsUsed <= y.maxAttempts && !OutOfTokens(x) else y == x
  }

  lemma OneOwner(rows: seq<Child>, r: TaskId, t: TaskId)
    requires Distinct(rows)
    ensures var found := LatestChild(rows, t); IsChild(rows, r, t) <==> found.Some? && found.value.root == r
  {
    if IsChild(rows, r, t) {
      var c :| c in rows && c.root == r && c.task == t;
      assert Akin(c, LatestChild(rows, t).value);
    }
  }

  lemma ClaimAdmits(cfg: Config, db: Db, t: TaskId)
    requires Inv(cfg, db) && ClaimAttempt(db, t).1
    ensures var db1 := ClaimAttempt(db, t).0; db1 == db.(roots := db1.roots) && Admitted(db.roots, db.children, t, db1.roots)
  {
    hide Inv, IsChild, Distinct;
    InvFlow(cfg, db);
    var found := LatestChild(db.children, t);
    var roots' := ClaimAttempt(db, t).0.roots;
    assert found.Some? ==> found.value.root in db.roots;
    hide ChildrenSound;
    forall r | r in db.roots ensures AdmittedRoot(db.roots[r], roots'[r], IsChild(db.children, r, t)) {
      OneOwner(db.children, r, t);
    }
  }

  lemma ClaimFrame(db: Db, t: TaskId)
    ensures var db1 := ClaimAttempt(db, t).0;
            && db1.attempts == db.attempts && db1.workers == db.workers && db1.clock == db.clock && db1.nextId == db.nextId
            && db1.children == db.children && db1.tasks.Keys == db.tasks.Keys
  {
    hide Exhausted;
    var (db1, claimed) := ClaimAttempt(db, t);
    if claimed {
      assert db1 == db.(roots := db1.roots);
    } else {
      assert db1 == db.(tasks := db1.tasks, events := db1.events);
    }
  }

  lemma RefusedClaimKeeps(cfg: Config, db: Db, t: TaskId)
    requires Inv(cfg, db) && t in db.tasks && !ClaimAttempt(db, t).1
    ensures Inv(cfg, ClaimAttempt(db, t).0) && Advances(db, ClaimAttempt(db, t).0)
  {
    hide Inv, Advances, Exhausted;
    SoundTask(cfg, db, t);
    var db1 := ClaimAttempt(db, t).0;
    InvReferences(cfg, db);
    EventsKnown(db);
    if db.tasks[t].status.Pending? {
      TaskKeeps(cfg, db, t, db1.tasks[t], db1.events);
      assert db1 == db.(tasks := db.tasks[t := db1.tasks[t]], events := db1.events);
    } else {
      LogKeeps(cfg, db, t, TaskFinished);
    }
  }

  // ------------------------------------------------------------------ placement

  predicate PlacedTask(task: Task, a: AttemptId, row: Task) {
    task.status.Pending? && row == task.(status := Scheduled, current := Some(a), reason := None)
  }

  lemma PlaceRows(tasks: map<TaskId, Task>, attempts: map<AttemptId, Attempt>,
                  t: TaskId, row: Task, number: nat, w: WorkerId, nextId: nat, clock: Time)
    requires Rows(tasks, attempts, nextId, clock) && t in tasks && PlacedTask(tasks[t], nextId, row)
    ensures Rows(tasks[t := row], attempts[nextId := NewAttempt(t, number, w, clock)], nextId + 1, clock)
  {
  }

  lemma PlaceLinks(tasks: map<TaskId, Task>, attempts: map<AttemptId, Attempt>,
                   t: TaskId, row: Task, a: AttemptId, arow: Attempt)
    requires Linked(tasks, attempts)
    requires t in tasks && a !in attempts && PlacedTask(tasks[t], a, row) && tasks[t].current.None?
    requires arow.task == t && !arow.settled && forall b :: b in attempts ==> b < a
    ensures Linked(tasks[t := row], attempts[a := arow])
  {
    var attempts1 := attempts[a := arow];
    forall x | x in tasks ensures Holds(tasks[t := row][x], x, attempts1) {
      assert Holds(tasks[x], x, attempts);
    }
    forall b | b in attempts1 ensures attempts1[b].task in tasks && HeldBy(tasks[t := row][attempts1[b].task], b, attempts1[b]) {
      if b != a {
        assert HeldBy(tasks[attempts[b].task], b, attempts[b]);
      }
    }
  }

  lemma PlaceOutcomes(tasks: map<TaskId, Task>, attempts: map<AttemptId, Attempt>, intents: map<TaskId, Intent>,
                      t: TaskId, row: Task, a: AttemptId, arow: Attempt)
    requires Outcomes(tasks, attempts, intents) && t in tasks && PlacedTask(tasks[t], a, row)
    requires forall x :: x in tasks && x != t ==> tasks[x].current != Some(a)
    ensures Outcomes(tasks[t := row], attempts[a := arow], intents)
  {
    forall x | x in tasks ensures Explained(tasks[t := row][x], x, attempts[a := arow], intents) {
      assert Explained(tasks[x], x, attempts, intents);
    }
  }

  lemma NotCurrent(cfg: Config, db: Db)
    requires Inv(cfg, db)
    ensures forall x :: x in db.tasks ==> db.tasks[x].current != Some(db.nextId)
  {
    hide Inv;
    InvRows(cfg, db);
    forall x | x in db.tasks ensures db.tasks[x].current != Some(db.nextId) {
      assert db.tasks[x].current.GetOr(0) < db.nextId;
    }
  }

  lemma PlacedAttempts(attempts: map<AttemptId, Attempt>, a: AttemptId, arow: Attempt, t: TaskId)
    requires a !in attempts
    ensures |AttemptsOf(attempts[a := arow], t)| == |AttemptsOf(attempts, t)| + (if t == arow.task then 1 else 0)
  {
    assert AttemptsOf(attempts[a := arow], t) == AttemptsOf(attempts, t) + (if t == arow.task then {a} else {});
  }

  lemma PlaceNumbers(attempts: map<AttemptId, Attempt>, a: AttemptId, arow: Attempt)
    requires Numbered(attempts) && a !in attempts && arow.number == |AttemptsOf(attempts, arow.task)| + 1
    ensures Numbered(attempts[a := arow])
  {
    forall t ensures |AttemptsOf(attempts[a := arow], t)| == |AttemptsOf(attempts, t)| + (if t == arow.task then 1 else 0) {
      PlacedAttempts(attempts, a, arow, t);
    }
    hide AttemptsOf;
  }

  lemma PlacedUsage(attempts: map<AttemptId, Attempt>, a: AttemptId, arow: Attempt, x: TaskId)
    requires a !in attempts && !arow.settled
    ensures SettledUsage(attempts[a := arow], x) == SettledUsage(attempts, x)
  {
  }

  lemma PlacedEarlier(attempts: map<AttemptId, Attempt>, a: AttemptId, arow: Attempt, x: TaskId, current: Option<AttemptId>)
    requires a !in attempts
    requires if x == arow.task then current.None? else true
    ensures Earlier(attempts[a := arow], x, if x == arow.task then Some(a) else current) == Earlier(attempts, x, current)
  {
  }

  lemma PlaceLimits(tasks: map<TaskId, Task>, attempts: map<AttemptId, Attempt>, intents: map<TaskId, Intent>,
                    t: TaskId, row: Task, a: AttemptId, arow: Attempt)
    requires Limited(tasks, attempts) && Accounted(tasks, attempts, intents)
    requires t in tasks && a !in attempts && PlacedTask(tasks[t], a, row) && tasks[t].current.None?
    requires arow.task == t && !arow.settled
    ensures Limited(tasks[t := row], attempts[a := arow]) && Accounted(tasks[t := row], attempts[a := arow], intents)
  {
    hide Earlier, SettledUsage;
    var attempts1 := attempts[a := arow];
    forall x | x in tasks ensures WithinLimit(tasks[t := row][x], x, attempts1) && SettledUsage(attempts1, x) == SettledUsage(attempts, x) {
      assert WithinLimit(tasks[x], x, attempts);
      PlacedEarlier(attempts, a, arow, x, tasks[x].current);
      PlacedUsage(attempts, a, arow, x);
    }
  }

  lemma PlaceReserved(attempts: map<AttemptId, Attempt>, a: AttemptId, arow: Attempt)
    requires a !in attempts
    ensures |Reserved(attempts[a := arow])| <= |Reserved(attempts)| + 1
  {
    Subset(Reserved(attempts[a := arow]), Reserved(attempts) + {a});
  }

  lemma PlacedChildAttempts(attempts: map<AttemptId, Attempt>, rows: seq<Child>, a: AttemptId, arow: Attempt, r: TaskId)
    requires a !in attempts
    ensures |ChildAttempts(attempts[a := arow], rows, r)| == |ChildAttempts(attempts, rows, r)| + (if IsChild(rows, r, arow.task) then 1 else 0)
  {
    hide IsChild;
    assert ChildAttempts(attempts[a := arow], rows, r) == ChildAttempts(attempts, rows, r) + (if IsChild(rows, r, arow.task) then {a} else {});
  }

  lemma PlaceRoots(tasks: map<TaskId, Task>, attempts: map<AttemptId, Attempt>, roots: map<TaskId, Root>, rows: seq<Child>,
                   t: TaskId, row: Task, a: AttemptId, arow: Attempt, roots': map<TaskId, Root>)
    requires RootsAccounted(tasks, attempts, roots, rows) && Admitted(roots, rows, t, roots')
    requires t in tasks && a !in attempts && row.tokensUsed == tasks[t].tokensUsed && arow.task == t
    ensures RootsAccounted(tasks[t := row], attempts[a := arow], roots', rows)
  {
    hide IsChild, ChildUsage, ChildAttempts, Sum;
    forall r | r in roots
      ensures roots'[r].tokensUsed == Sum(ChildUsage(tasks[t := row], rows, r))
      ensures roots'[r].attemptsUsed == |ChildAttempts(attempts[a := arow], rows, r)| <= roots'[r].maxAttempts
    {
      UsageTotal(tasks, rows, r, t, row);
      assert AdmittedRoot(roots[r], roots'[r], IsChild(rows, r, t));
      PlacedChildAttempts(attempts, rows, a, arow, r);
    }
  }

  lemma AdmittedFlow(tasks: map<TaskId, Task>, roots: map<TaskId, Root>, rows: seq<Child>, t: TaskId, roots': map<TaskId, Root>)
    requires RootsSound(tasks, roots) && ChildrenSound(tasks, roots, rows) && Plans(roots, rows) && Allocated(tasks, roots, rows)
    requires Admitted(roots, rows, t, roots')
    ensures RootsSound(tasks, roots') && ChildrenSound(tasks, roots', rows) && Plans(roots', rows) && Allocated(tasks, roots', rows)
  {
    forall c | c in rows
      ensures c.root in roots' && ChildSound(tasks[c.task], roots'[c.root], c) && Planned(roots'[c.root], rows, c)
    {
      assert ChildSound(tasks[c.task], roots[c.root], c) && Planned(roots[c.root], rows, c);
      assert AdmittedRoot(roots[c.root], roots'[c.root], IsChild(rows, c.root, t));
    }
    forall r | r in roots'
      ensures r in tasks && roots'[r].planRevision <= |roots'[r].plans| && roots'[r].maxAttempts >= 1
      ensures roots'[r].maxTokens.Some? ==> Sum(Commitments(tasks, rows, r)) <= roots'[r].maxTokens.value
    {
      assert AdmittedRoot(roots[r], roots'[r], IsChild(rows, r, t));
    }
  }

  lemma PlaceGates(tasks: map<TaskId, Task>, attempts: map<AttemptId, Attempt>, rows: seq<Child>,
                   transfers: map<(TaskId, TaskId), Transfer>, t: TaskId, a: AttemptId, arow: Attempt)
    requires Gated(tasks, attempts, rows, transfers) && Cleared(tasks, rows, transfers, t)
    requires a !in attempts && arow.task == t
    ensures Gated(tasks, attempts[a := arow], rows, transfers)
  {
    forall c, d | c in rows && d in rows && !c.carried && DependsOn(c, d) && Attempted(attempts[a := arow], c.task)
      ensures Satisfied(tasks, transfers, c, d)
    {
      var b :| b in attempts[a := arow] && attempts[a := arow][b].task == c.task;
      if b != a {
        assert b in attempts && attempts[b].task == c.task;
      }
    }
  }

  /** `db1` is `db` with one more attempt of `t`. */
  predicate Placed(db: Db, db1: Db, t: TaskId, w: WorkerId) {
    && t in db.tasks
    && var a, row := db.nextId, db.tasks[t].(status := Scheduled, current := Some(db.nextId), reason := None);
       && db1.tasks == db.tasks[t := row]
       && db1.attempts == db.attempts[a := NewAttempt(t, |AttemptsOf(db.attempts, t)| + 1, w, db.clock)]
       && db1.outbox == db.outbox[a := false] && db1.nextId == a + 1 && db1.clock == db.clock
       && db1.workers == db.workers && db1.children == db.children && db1.transfers == db.transfers
       && db1.commands == db.commands && db1.intents == db.intents && db1.files == db.files
       && db1.events == db.events + [Event(t, TaskScheduled)]
  }

  lemma PlaceShape(db: Db, mid: Db, t: TaskId, w: WorkerId, feasible: seq<WorkerId>)
    requires t in db.tasks && mid == db.(roots := mid.roots)
    ensures Placed(db, Place(mid, t, w, feasible), t, w) && Place(mid, t, w, feasible).roots == mid.roots
  {
    hide AttemptsOf;
  }

  lemma FreshAttempt(cfg: Config, db: Db, t: TaskId)
    requires Inv(cfg, db) && t in db.tasks
    ensures db.nextId !in db.attempts
    ensures forall x :: x in db.tasks ==> db.tasks[x].current != Some(db.nextId)
    ensures db.tasks[t].status.Pending? ==> db.tasks[t].current.None?
  {
    hide Inv;
    FreshId(cfg, db);
    NotCurrent(cfg, db);
    SoundTask(cfg, db, t);
  }

  lemma InvRecords(cfg: Config, db: Db)
    requires Inv(cfg, db)
    ensures Rows(db.tasks, db.attempts, db.nextId, db.clock) && Linked(db.tasks, db.attempts)
    ensures Outcomes(db.tasks, db.attempts, db.intents) && Numbered(db.attempts)
    ensures Limited(db.tasks, db.attempts) && Accounted(db.tasks, db.attempts, db.intents)
    ensures |Reserved(db.attempts)| <= cfg.maxActive
  {
  }

  ghost predicate Records(cfg: Config, db: Db) {
    && Rows(db.tasks, db.attempts, db.nextId, db.clock) && Linked(db.tasks, db.attempts)
    && Outcomes(db.tasks, db.attempts, db.intents) && Numbered(db.attempts)
    && Limited(db.tasks, db.attempts) && Accounted(db.tasks, db.attempts, db.intents)
    && |Reserved(db.attempts)| <= cfg.maxActive
  }

  ghost predicate Flow(db: Db) {
    && RootsSound(db.tasks, db.roots) && ChildrenSound(db.tasks, db.roots, db.children) && Distinct(db.children)
    && RootsAccounted(db.tasks, db.attempts, db.roots, db.children) && Allocated(db.tasks, db.roots, db.children)
    && Plans(db.roots, db.children) && Gated(db.tasks, db.attempts, db.children, db.transfers)
    && Sent(db.tasks, db.transfers)
  }

  lemma Assembled(cfg: Config, db: Db)
    requires Records(cfg, db) && Flow(db) && Referenced(db)
    ensures Inv(cfg, db)
  {
    hide Rows, Linked, Outcomes, Numbered, Limited, Accounted, Reserved, RootsSound, ChildrenSound, Distinct;
    hide RootsAccounted, Allocated, Plans, Gated, Sent, Referenced;
  }

  lemma PlaceRecords(cfg: Config, db: Db, t: TaskId, w: WorkerId, db1: Db)
    requires Inv(cfg, db) && Placed(db, db1, t, w) && db.tasks[t].status.Pending? && |Reserved(db.attempts)| < cfg.maxActive
    ensures Records(cfg, db1)
  {
    hide Inv, TaskSound, AttemptsOf, Reserved, Rows, Linked, Outcomes, Numbered, Limited, Accounted;
    FreshAttempt(cfg, db, t);
    InvRecords(cfg, db);
    KnownIds(cfg, db);
    var row, arow := db1.tasks[t], db1.attempts[db.nextId];
    PlaceRows(db.tasks, db.attempts, t, row, arow.number, w, db.nextId, db.clock);
    PlaceLinks(db.tasks, db.attempts, t, row, db.nextId, arow);
    PlaceOutcomes(db.tasks, db.attempts, db.intents, t, row, db.nextId, arow);
    PlaceNumbers(db.attempts, db.nextId, arow);
    PlaceLimits(db.tasks, db.attempts, db.intents, t, row, db.nextId, arow);
    PlaceReserved(db.attempts, db.nextId, arow);
  }

  lemma PlaceFlow(cfg: Config, db: Db, t: TaskId, w: WorkerId, db1: Db)
    requires Inv(cfg, db) && Placed(db, db1, t, w) && db.tasks[t].status.Pending? && db.nextId !in db.attempts
    requires Admitted(db.roots, db.children, t, db1.roots) && Cleared(db.tasks, db.children, db.transfers, t)
    ensures Flow(db1)
  {
    hide Rows, Linked, Outcomes, Numbered, Limited, Accounted, Reserved, RootsSound, ChildrenSound, Distinct;
    hide RootsAccounted, Allocated, Plans, Gated, Sent, Referenced, Admitted, Cleared, AttemptsOf;
    var a, row, arow := db.nextId, db1.tasks[t], db1.attempts[db.nextId];
    PlaceRoots(db.tasks, db.attempts, db.roots, db.children, t, row, a, arow, db1.roots);
    TaskAllocation(db.tasks, db.roots, db.children, t, row);
    TaskChildren(db.tasks, db.roots, db.children, t, row);
    AdmittedFlow(db.tasks[t := row], db.roots, db.children, t, db1.roots);
    PlaceGates(db.tasks, db.attempts, db.children, db.transfers, t, a, arow);
    TaskGates(db.tasks, db.attempts[a := arow], db.children, db.transfers, t, row);
    TaskSent(db.tasks, db.transfers, t, row);
  }

  lemma PlaceReferences(db: Db, t: TaskId, w: WorkerId, db1: Db)
    requires Referenced(db) && Placed(db, db1, t, w) && db.tasks[t].status.Pending?
    requires w in db.workers && db1.roots.Keys == db.roots.Keys && db.nextId !in db.attempts
    ensures Referenced(db1)
  {
    hide AttemptsOf;
    forall x | x in db1.intents ensures IntentSound(db1, x, db1.intents[x]) {
      assert IntentSound(db, x, db.intents[x]);
      if Attempted(db1.attempts, x) {
        var b :| b in db1.attempts && db1.attempts[b].task == x;
        assert b in db.attempts && db.attempts[b].task == x;
      }
    }
  }

  lemma PlaceAdvances(db: Db, t: TaskId, w: WorkerId, db1: Db)
    requires Placed(db, db1, t, w) && db.tasks[t].status.Pending? && db.tasks[t].desired.Run?
    requires Admitted(db.roots, db.children, t, db1.roots) && db.nextId !in db.attempts
    ensures Advances(db, db1)
  {
    hide AttemptsOf;
    forall r | r in db.roots ensures r in db1.roots && RootAdvances(db.roots[r], db1.roots[r]) {
      assert AdmittedRoot(db.roots[r], db1.roots[r], IsChild(db.children, r, t));
    }
  }

  /** Placing one attempt: `mid` is the database after admission. */
  lemma PlaceKeeps(cfg: Config, db: Db, mid: Db, t: TaskId, w: WorkerId, feasible: seq<WorkerId>)
    requires Inv(cfg, db) && t in db.tasks && db.tasks[t].status.Pending? && db.tasks[t].desired.Run?
    requires mid == db.(roots := mid.roots) && Admitted(db.roots, db.children, t, mid.roots)
    requires Cleared(db.tasks, db.children, db.transfers, t)
    requires w in db.workers && |Reserved(db.attempts)| < cfg.maxActive
    ensures Inv(cfg, Place(mid, t, w, feasible)) && Advances(db, Place(mid, t, w, feasible))
  {
    assert mid.roots.Keys == db.roots.Keys;
    hide Inv, Advances, Admitted, Cleared, Reserved, Referenced, Placed, Place, Records, Flow;
    var db1 := Place(mid, t, w, feasible);
    PlaceShape(db, mid, t, w, feasible);
    FreshAttempt(cfg, db, t);
    PlaceRecords(cfg, db, t, w, db1);
    PlaceFlow(cfg, db, t, w, db1);
    InvReferences(cfg, db);
    PlaceReferences(db, t, w, db1);
    PlaceAdvances(db, t, w, db1);
    Assembled(cfg, db1);
  }

  // ----------------------------------------------------------------- scheduling

  lemma PickFeasible(cursor: WorkerId, ws: seq<WorkerId>)
    requires ws != []
    ensures Pick(cursor, ws) in ws
  {
    FirstAfterIn(cursor, ws);
  }

  lemma {:induction false} FirstAfterIn(cursor: WorkerId, ws: seq<WorkerId>)
    ensures FirstAfter(cursor, ws).Some? ==> FirstAfter(cursor, ws).value in ws && FirstAfter(cursor, ws).value > cursor
    ensures FirstAfter(cursor, ws).None? ==> forall w :: w in ws ==> w <= cursor
  {
    if ws != [] && ws[0] <= cursor {
      FirstAfterIn(cursor, ws[1..]);
      assert ws == [ws[0]] + ws[1..];
    }
  }

  lemma FeasibleListed(db: Db, cfg: Config, spec: Spec, w: WorkerId)
    ensures w in FeasibleWorkers(db, cfg, spec) <==> w in db.workers && Feasible(db, cfg, spec, w)
  {
    AscendingHolds((set x | x in db.workers && Feasible(db, cfg, spec, x)), w);
  }

  predicate Queueable(db: Db, t: TaskId) {
    t in db.tasks && db.tasks[t].status.Pending? && db.tasks[t].desired.Run?
  }

  lemma ScheduleOneKeeps(cfg: Config, db: Db, env: Env, t: TaskId)
    requires Inv(cfg, db) && Queueable(db, t) && |Reserved(db.attempts)| < cfg.maxActive
    ensures Inv(cfg, ScheduleOne(db, cfg, env, t)) && Advances(db, ScheduleOne(db, cfg, env, t))
  {
    hide Inv, Advances, Deliver, ClaimAttempt, FeasibleWorkers, Pick, Place, Cleared, Reserved;
    var feasible := FeasibleWorkers(db, cfg, db.tasks[t].spec);
    if feasible == [] {
      AdvancesReflexive(db);
    } else {
      var (db1, dependency) := Deliver(db, t, env.sound);
      DeliverKeeps(cfg, db, t, env.sound);
      if dependency.Ready? {
        DeliverClears(cfg, db, t, env.sound);
        var (db2, claimed) := ClaimAttempt(db1, t);
        var w := Pick(db.lastWorker, feasible);
        if claimed {
          ClaimAdmits(cfg, db1, t);
          PickFeasible(db.lastWorker, feasible);
          FeasibleListed(db, cfg, db.tasks[t].spec, w);
          PlaceKeeps(cfg, db1, db2, t, w, feasible);
        } else {
          RefusedClaimKeeps(cfg, db1, t);
        }
        AdvancesTransitive(cfg, db, db1, ScheduleOne(db, cfg, env, t));
      }
    }
  }

  lemma ClaimOthers(db: Db, t: TaskId)
    ensures OthersKept(db, ClaimAttempt(db, t).0, t)
  {
    hide Exhausted;
    var (db1, claimed) := ClaimAttempt(db, t);
    if claimed {
      assert db1 == db.(roots := db1.roots);
    } else {
      assert db1 == db.(tasks := db1.tasks, events := db1.events);
    }
  }

  lemma PlaceOthers(db: Db, t: TaskId, w: WorkerId, feasible: seq<WorkerId>)
    requires t in db.tasks
    ensures OthersKept(db, Place(db, t, w, feasible), t)
  {
    hide AttemptsOf;
  }

  lemma ScheduleOneOthers(cfg: Config, db: Db, env: Env, t: TaskId)
    ensures OthersKept(db, ScheduleOne(db, cfg, env, t), t)
  {
    hide Deliver, FeasibleWorkers, Pick, ClaimAttempt, Place;
    if t in db.tasks && FeasibleWorkers(db, cfg, db.tasks[t].spec) != [] {
      var feasible := FeasibleWorkers(db, cfg, db.tasks[t].spec);
      var db1 := Deliver(db, t, env.sound).0;
      DeliverLocal(db, t, env.sound);
      var (db2, claimed) := ClaimAttempt(db1, t);
      ClaimOthers(db1, t);
      if t in db2.tasks {
        PlaceOthers(db2, t, Pick(db.lastWorker, feasible), feasible);
      }
    }
  }

  lemma {:induction false} ScheduleAllKeeps(cfg: Config, db: Db, env: Env, ids: seq<TaskId>)
    requires Inv(cfg, db) && Ascends(ids) && forall t :: t in ids ==> Queueable(db, t)
    ensures Inv(cfg, ScheduleAll(db, cfg, env, ids)) && Advances(db, ScheduleAll(db, cfg, env, ids))
    ensures forall x :: x in db.tasks && x !in ids ==>
      x in ScheduleAll(db, cfg, env, ids).tasks && ScheduleAll(db, cfg, env, ids).tasks[x] == db.tasks[x]
  {
    hide Inv, Advances, ScheduleOne, Reserved;
    if ids == [] {
      AdvancesReflexive(db);
    } else {
      var n := |ids| - 1;
      var t := ids[n];
      var db1 := ScheduleAll(db, cfg, env, ids[..n]);
      ScheduleAllKeeps(cfg, db, env, ids[..n]);
      if |Reserved(db1.attempts)| < cfg.maxActive {
        var db2 := ScheduleOne(db1, cfg, env, t);
        assert t in ids && t !in ids[..n];
        ScheduleOneKeeps(cfg, db1, env, t);
        ScheduleOneOthers(cfg, db1, env, t);
        AdvancesTransitive(cfg, db, db1, db2);
        forall x | x in db.tasks && x !in ids ensures x in db2.tasks && db2.tasks[x] == db.tasks[x] {
          assert x != t && x !in ids[..n];
        }
      }
    }
  }

  lemma TickKeeps(cfg: Config, db: Db, env: Env)
    requires Inv(cfg, db)
    ensures Inv(cfg, Tick(db, cfg, env).0) && Advances(db, Tick(db, cfg, env).0)
  {
    hide Inv, Advances, ReconcileAll, ScheduleAll;
    var db1 := ReconcileAll(db, cfg, env, OpenTasks(db)).0;
    ReconcileAllKeeps(cfg, db, env, OpenTasks(db));
    ScheduleAllKeeps(cfg, db1, env, EligibleTasks(db1));
    AdvancesTransitive(cfg, db, db1, Tick(db, cfg, env).0);
  }
}
