/** What the scheduler promises: fairness between workers, slots respected, no idle capacity. */
module ScheduleGuarantees {
  import opened Types
  import opened StoreOps
  import opened WorkflowOps
  import opened ManagerOps
  import opened System
  import opened Invariant
  import opened PairProofs
  import opened TaskProofs
  import opened StoreProofs
  import opened SettleProofs
  import opened ScheduleProofs
  import opened SteadyProofs
  import opened RunProofs
  import opened RunGuarantees

  // ---------------------------------------------------------------------- fairness

  /** Where the cursor can be, having left `w`, before it has served or skipped `v`. */
  predicate Short(w: WorkerId, v: WorkerId, cursor: WorkerId) {
    if v > w then w < cursor < v else cursor > w || cursor < v
  }

  lemma {:induction false} FirstAfterLeast(cursor: WorkerId, ws: seq<WorkerId>, v: WorkerId)
    requires v in ws && v > cursor && forall j, k :: 0 <= j < k < |ws| ==> ws[j] < ws[k]
    ensures FirstAfter(cursor, ws).Some? && cursor < FirstAfter(cursor, ws).value <= v
  {
    if ws[0] <= cursor {
      FirstAfterLeast(cursor, ws[1..], v);
    } else {
      var i :| 0 <= i < |ws| && ws[i] == v;
      assert i > 0 ==> ws[0] < ws[i];
    }
  }

  /** One placement never jumps over a worker that is feasible for it. */
  lemma PickNeverSkips(cursor: WorkerId, ws: seq<WorkerId>, w: WorkerId, v: WorkerId)
    requires v in ws && v != w && forall j, k :: 0 <= j < k < |ws| ==> ws[j] < ws[k]
    requires cursor == w || Short(w, v, cursor)
    ensures Pick(cursor, ws) == v || Short(w, v, Pick(cursor, ws))
  {
    FirstAfterIn(cursor, ws);
    if v > cursor {
      FirstAfterLeast(cursor, ws, v);
    } else {
      var i :| 0 <= i < |ws| && ws[i] == v;
      assert i > 0 ==> ws[0] < ws[i];
    }
  }

  predicate FeasibleBetween(ps: seq<Placement>, v: WorkerId, i: nat, j: nat) {
    forall k :: i < k <= j && k < |ps| ==> v in ps[k].feasible
  }

  predicate ServedBetween(ps: seq<Placement>, v: WorkerId, i: nat, j: nat) {
    exists k :: i < k <= j && k < |ps| && ps[k].worker == v
  }

  lemma {:induction false} CursorShort(ps: seq<Placement>, last: WorkerId, v: WorkerId, i: nat, j: nat)
    requires Rotation(ps, last) && i < j < |ps| && FeasibleBetween(ps, v, i, j) && v != ps[i].worker
    ensures ServedBetween(ps, v, i, j) || Short(ps[i].worker, v, ps[j].worker)
  {
    var w := ps[i].worker;
    assert Fair(ps, j);
    if j > i + 1 {
      CursorShort(ps, last, v, i, j - 1);
    }
    hide Rotation, Short, Pick;
    PickCase(ps, v, i, j);
  }

  lemma PickCase(ps: seq<Placement>, v: WorkerId, i: nat, j: nat)
    requires i < j < |ps| && Fair(ps, j) && FeasibleBetween(ps, v, i, j) && v != ps[i].worker
    requires j > i + 1 ==> ServedBetween(ps, v, i, j - 1) || Short(ps[i].worker, v, ps[j - 1].worker)
    ensures ServedBetween(ps, v, i, j) || Short(ps[i].worker, v, ps[j].worker)
  {
    hide Short, Pick;
    if j > i + 1 && ServedBetween(ps, v, i, j - 1) {
      var k :| i < k <= j - 1 && k < |ps| && ps[k].worker == v;
      assert ServedBetween(ps, v, i, j);
    } else {
      PickNeverSkips(ps[j - 1].worker, ps[j].feasible, ps[i].worker, v);
      if ps[j].worker == v {
        assert ServedBetween(ps, v, i, j);
      }
    }
  }

  /** Round-robin over ticks: between two placements on the same worker, every other worker that
      was feasible for all placements in between received one. */
  lemma RoundRobinFair(cfg: Config, steps: seq<Step>, v: WorkerId, i: nat, j: nat)
    requires var ps := Reached(cfg, steps).db.placements;
             && i < j < |ps| && ps[i].worker == ps[j].worker != v && FeasibleBetween(ps, v, i, j)
    ensures ServedBetween(Reached(cfg, steps).db.placements, v, i, j)
  {
    hide Reached, Sound, Inv, Rotation;
    ReachedSound(cfg, steps);
    Accessors(cfg, Reached(cfg, steps));
    CursorShort(Reached(cfg, steps).db.placements, Reached(cfg, steps).db.lastWorker, v, i, j);
  }

  // ------------------------------------------------------------------------- slots

  predicate SlotsKept(x: Db, y: Db) {
    forall w :: w in x.workers && |ReservedBy(y.attempts, w)| > |ReservedBy(x.attempts, w)| ==>
      |ReservedBy(y.attempts, w)| <= x.workers[w].slots
  }

  lemma PlacedReservations(attempts: map<AttemptId, Attempt>, a: AttemptId, row: Attempt, w: WorkerId)
    requires a !in attempts && row.reserved
    ensures |ReservedBy(attempts[a := row], w)| == |ReservedBy(attempts, w)| + (if row.worker == w then 1 else 0)
  {
    assert ReservedBy(attempts[a := row], w) == ReservedBy(attempts, w) + (if row.worker == w then {a} else {});
  }

  predicate NewlyPlaced(cfg: Config, db: Db, db1: Db, t: TaskId, w: WorkerId, n: nat)
    requires t in db.tasks
  {
    Feasible(db, cfg, db.tasks[t].spec, w) && db1.attempts == db.attempts[db.nextId := NewAttempt(t, n, w, db.clock)]
  }

  /** Everything but one new attempt and the rows of its task and workflow stays. */
  lemma ScheduleOneAttempts(cfg: Config, db: Db, env: Env, t: TaskId)
    requires db.nextId !in db.attempts
    ensures var db1 := ScheduleOne(db, cfg, env, t);
            && db1.workers == db.workers && db1.clock == db.clock && db1.children == db.children
            && (db1.attempts == db.attempts
                || (t in db.tasks && exists w, n :: NewlyPlaced(cfg, db, db1, t, w, n)))
  {
    hide Deliver, ClaimAttempt, Pick, FeasibleWorkers, Feasible, AttemptsOf;
    if t in db.tasks && FeasibleWorkers(db, cfg, db.tasks[t].spec) != [] {
      var feasible := FeasibleWorkers(db, cfg, db.tasks[t].spec);
      var (db1, dependency) := Deliver(db, t, env.sound);
      DeliverLocal(db, t, env.sound);
      var (db2, claimed) := ClaimAttempt(db1, t);
      ClaimFrame(db1, t);
      if dependency.Ready? && claimed && t in db2.tasks {
        var w := Pick(db.lastWorker, feasible);
        PickFeasible(db.lastWorker, feasible);
        FeasibleListed(db, cfg, db.tasks[t].spec, w);
        var n := |AttemptsOf(db2.attempts, t)| + 1;
        assert NewlyPlaced(cfg, db, ScheduleOne(db, cfg, env, t), t, w, n);
      }
    }
  }

  lemma ScheduleOneSlots(cfg: Config, db: Db, env: Env, t: TaskId)
    requires db.nextId !in db.attempts
    ensures SlotsKept(db, ScheduleOne(db, cfg, env, t)) && ScheduleOne(db, cfg, env, t).workers == db.workers
    ensures forall w :: |ReservedBy(db.attempts, w)| <= |ReservedBy(ScheduleOne(db, cfg, env, t).attempts, w)|
  {
    hide ScheduleOne, ReservedBy;
    ScheduleOneAttempts(cfg, db, env, t);
    var db1 := ScheduleOne(db, cfg, env, t);
    if db1.attempts != db.attempts {
      var w, n :| NewlyPlaced(cfg, db, db1, t, w, n);
      forall x ensures |ReservedBy(db1.attempts, x)| == |ReservedBy(db.attempts, x)| + (if x == w then 1 else 0) {
        PlacedReservations(db.attempts, db.nextId, NewAttempt(t, n, w, db.clock), x);
      }
    }
  }

  /** No scheduling transaction pushes a worker above its slots. */
  lemma {:induction false} ScheduleRespectsSlots(cfg: Config, db: Db, env: Env, ids: seq<TaskId>)
    requires Inv(cfg, db) && Ascends(ids) && forall t :: t in ids ==> Queueable(db, t)
    ensures SlotsKept(db, ScheduleAll(db, cfg, env, ids)) && ScheduleAll(db, cfg, env, ids).workers == db.workers
    ensures forall w :: |ReservedBy(db.attempts, w)| <= |ReservedBy(ScheduleAll(db, cfg, env, ids).attempts, w)|
  {
    hide Inv, Advances, ScheduleOne, Reserved, ReservedBy;
    if ids != [] {
      var n := |ids| - 1;
      var db1 := ScheduleAll(db, cfg, env, ids[..n]);
      assert forall t :: t in ids[..n] ==> t in ids;
      ScheduleRespectsSlots(cfg, db, env, ids[..n]);
      ScheduleAllKeeps(cfg, db, env, ids[..n]);
      if |Reserved(db1.attempts)| < cfg.maxActive {
        FreshId(cfg, db1);
        ScheduleOneSlots(cfg, db1, env, ids[n]);
      }
    }
  }

  // --------------------------------------------------------------- work conservation

  /** Some dependency of `t` has not succeeded. */
  ghost predicate Unsupplied(db: Db, t: TaskId) {
    exists c, d :: c in db.children && d in db.children && c.task == t && DependsOn(c, d)
                   && d.task in db.tasks && !db.tasks[d.task].status.Succeeded?
  }

  /** `t` was left Pending for a reason that still holds. */
  ghost predicate Excused(cfg: Config, db: Db, t: TaskId) {
    t in db.tasks && db.tasks[t].status.Pending? ==> FeasibleWorkers(db, cfg, db.tasks[t].spec) == [] || Unsupplied(db, t)
  }

  lemma {:induction false} WaitingUnsupplied(cfg: Config, db: Db, c: Child, keys: seq<Label>, sound: set<TaskId>)
    requires Inv(cfg, db) && c in db.children && (forall k :: k in keys ==> k in c.dependencies)
    requires DeliverFrom(db, c, keys, sound).1.Waiting?
    ensures var db1 := DeliverFrom(db, c, keys, sound).0; Unsupplied(db1, c.task) && db1.tasks == db.tasks
    decreases |keys|
  {
    hide Inv, Advances, RefuseDependency;
    SourceKnown(cfg, db, c, keys[0]);
    var d := SourceChild(db.children, c.root, keys[0], c.revision).value;
    if Terminal(db.tasks[d.task].status) {
      SendKeeps(cfg, db, d.task, c.task);
      WaitingUnsupplied(cfg, Send(db, d.task, c.task), c, keys[1..], sound);
    }
  }

  lemma RefusedEnds(db: Db, c: Child, s: TaskId)
    requires c.task in db.tasks
    ensures var db1 := RefuseDependency(db, c, s); c.task in db1.tasks && !db1.tasks[c.task].status.Pending?
  {
  }

  lemma {:induction false} BlockedEnds(db: Db, c: Child, keys: seq<Label>, sound: set<TaskId>)
    requires c.task in db.tasks && DeliverFrom(db, c, keys, sound).1.Blocked?
    ensures var db1 := DeliverFrom(db, c, keys, sound).0; c.task in db1.tasks && !db1.tasks[c.task].status.Pending?
    decreases |keys|
  {
    hide RefuseDependency, Terminal;
    var source := SourceChild(db.children, c.root, keys[0], c.revision);
    RefusedEnds(db, c, c.task);
    if source.Some? {
      RefusedEnds(db, c, source.value.task);
      var db1 := Send(db, source.value.task, c.task);
      if DeliverFrom(db1, c, keys[1..], sound).1.Blocked? {
        BlockedEnds(db1, c, keys[1..], sound);
      }
    }
  }

  lemma DeliverExcuses(cfg: Config, db: Db, t: TaskId, sound: set<TaskId>)
    requires Inv(cfg, db) && t in db.tasks && !Deliver(db, t, sound).1.Ready?
    ensures var db1 := Deliver(db, t, sound).0; t in db1.tasks && (db1.tasks[t].status.Pending? ==> Unsupplied(db1, t))
  {
    hide Inv, DeliverFrom, Unsupplied;
    var c := LatestChild(db.children, t).value;
    DeliverLocal(db, t, sound);
    if DeliverFrom(db, c, c.dependencies, sound).1.Waiting? {
      WaitingUnsupplied(cfg, db, c, c.dependencies, sound);
    } else {
      BlockedEnds(db, c, c.dependencies, sound);
    }
  }

  lemma RefusedClaimEnds(db: Db, t: TaskId)
    requires t in db.tasks && !ClaimAttempt(db, t).1
    ensures var db1 := ClaimAttempt(db, t).0; t in db1.tasks && !db1.tasks[t].status.Pending?
  {
    hide Exhausted;
  }

  lemma ScheduleOneExcuses(cfg: Config, db: Db, env: Env, t: TaskId)
    requires Inv(cfg, db) && t in db.tasks
    ensures Excused(cfg, ScheduleOne(db, cfg, env, t), t)
  {
    hide Inv, Deliver, ClaimAttempt, FeasibleWorkers, Pick, Unsupplied, AttemptsOf;
    if FeasibleWorkers(db, cfg, db.tasks[t].spec) != [] {
      var (db1, dependency) := Deliver(db, t, env.sound);
      DeliverLocal(db, t, env.sound);
      if !dependency.Ready? {
        DeliverExcuses(cfg, db, t, env.sound);
      } else {
        ClaimFrame(db1, t);
        if !ClaimAttempt(db1, t).1 {
          RefusedClaimEnds(db1, t);
        }
      }
    }
  }

  /** Placements only use capacity up, so an excuse stays valid for the rest of the loop. */
  lemma FeasibleShrinks(cfg: Config, x: Db, y: Db, spec: Spec)
    requires y.workers == x.workers && y.clock == x.clock && FeasibleWorkers(x, cfg, spec) == []
    requires forall w :: |ReservedBy(x.attempts, w)| <= |ReservedBy(y.attempts, w)|
    ensures FeasibleWorkers(y, cfg, spec) == []
  {
    hide FeasibleWorkers, ReservedBy;
    if FeasibleWorkers(y, cfg, spec) != [] {
      var w := FeasibleWorkers(y, cfg, spec)[0];
      FeasibleListed(y, cfg, spec, w);
      FeasibleListed(x, cfg, spec, w);
      assert false;
    }
  }

  lemma ExcuseStays(cfg: Config, x: Db, y: Db, t: TaskId, s: TaskId)
    requires Excused(cfg, x, t) && OthersKept(x, y, s) && t != s && x.tasks.Keys == y.tasks.Keys && t in x.tasks
    requires y.workers == x.workers && y.clock == x.clock && y.children == x.children
    requires forall w :: |ReservedBy(x.attempts, w)| <= |ReservedBy(y.attempts, w)|
    requires Successes(x.tasks, y.tasks, None)
    ensures Excused(cfg, y, t)
  {
    hide FeasibleWorkers, ReservedBy;
    if x.tasks[t].status.Pending? {
      if FeasibleWorkers(x, cfg, x.tasks[t].spec) == [] {
        FeasibleShrinks(cfg, x, y, x.tasks[t].spec);
      } else {
        var c, d :| c in x.children && d in x.children && c.task == t && DependsOn(c, d)
                    && d.task in x.tasks && !x.tasks[d.task].status.Succeeded?;
        assert !y.tasks[d.task].status.Succeeded?;
      }
    }
  }

  lemma ScheduleOneTasks(cfg: Config, db: Db, env: Env, t: TaskId)
    ensures ScheduleOne(db, cfg, env, t).tasks.Keys == db.tasks.Keys
  {
    hide Deliver, ClaimAttempt, FeasibleWorkers, Pick, AttemptsOf;
    DeliverLocal(db, t, env.sound);
    ClaimFrame(Deliver(db, t, env.sound).0, t);
  }

  /** The loop is work-conserving: it stops at the capacity limit, or every task it left Pending
      has no feasible worker or a dependency that has not succeeded. */
  lemma {:induction false} ScheduleExcuses(cfg: Config, db: Db, env: Env, ids: seq<TaskId>)
    requires Inv(cfg, db) && Ascends(ids) && forall t :: t in ids ==> Queueable(db, t)
    ensures var db1 := ScheduleAll(db, cfg, env, ids);
            |Reserved(db1.attempts)| >= cfg.maxActive || forall t :: t in ids ==> Excused(cfg, db1, t)
    ensures ScheduleAll(db, cfg, env, ids).tasks.Keys == db.tasks.Keys
  {
    hide Inv, Advances, ScheduleOne, Reserved, Excused;
    if ids != [] {
      var n := |ids| - 1;
      var db1 := ScheduleAll(db, cfg, env, ids[..n]);
      assert forall t :: t in ids[..n] ==> t in ids;
      ScheduleExcuses(cfg, db, env, ids[..n]);
      ScheduleAllKeeps(cfg, db, env, ids[..n]);
      if |Reserved(db1.attempts)| < cfg.maxActive {
        var db2 := ScheduleOne(db1, cfg, env, ids[n]);
        ScheduleOneTasks(cfg, db1, env, ids[n]);
        forall t | t in ids ensures Excused(cfg, db2, t) {
          LastExcused(cfg, db1, env, ids, t, db);
        }
      }
    }
  }

  lemma LastExcused(cfg: Config, db1: Db, env: Env, ids: seq<TaskId>, t: TaskId, db: Db)
    requires Inv(cfg, db1) && Ascends(ids) && ids != [] && t in ids && db.tasks.Keys <= db1.tasks.Keys
    requires forall x :: x in ids ==> x in db.tasks
    requires forall x :: x in ids[..|ids| - 1] ==> Excused(cfg, db1, x)
    ensures Excused(cfg, ScheduleOne(db1, cfg, env, ids[|ids| - 1]), t)
  {
    hide Inv, ScheduleOne, ReservedBy, Excused, Rotation, KnownUsage;
    var last := ids[|ids| - 1];
    assert last in ids;
    if t == last {
      ScheduleOneExcuses(cfg, db1, env, t);
    } else {
      assert t in ids[..|ids| - 1];
      FreshId(cfg, db1);
      ScheduleOneSlots(cfg, db1, env, last);
      ScheduleOneAttempts(cfg, db1, env, last);
      ScheduleOneOthers(cfg, db1, env, last);
      ScheduleOneTasks(cfg, db1, env, last);
      ScheduleOneSteady(cfg, db1, env, last);
      ExcuseStays(cfg, db1, ScheduleOne(db1, cfg, env, last), t, last);
    }
  }

  /** After every tick the capacity is used up, or each eligible task still Pending is excused. */
  lemma TickWorkConserving(cfg: Config, db: Db, env: Env)
    requires Inv(cfg, db)
    ensures var x := ReconcileAll(db, cfg, env, OpenTasks(db)).0;
            var y := Tick(db, cfg, env).0;
            && SlotsKept(x, y)
            && (|Reserved(y.attempts)| >= cfg.maxActive || forall t :: Eligible(x, t) ==> Excused(cfg, y, t))
  {
    hide Inv, Advances, ReconcileAll, ScheduleAll, Excused, Reserved, SlotsKept, ReservedBy;
    ReconcileAllKeeps(cfg, db, env, OpenTasks(db));
    var x := ReconcileAll(db, cfg, env, OpenTasks(db)).0;
    ScheduleExcuses(cfg, x, env, EligibleTasks(x));
    ScheduleRespectsSlots(cfg, x, env, EligibleTasks(x));
    KnownIds(cfg, x);
    assert forall t :: Eligible(x, t) ==> t in EligibleTasks(x);
  }
}
