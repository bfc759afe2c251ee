/** Exactly when a consumer receives its dependencies, is admitted, and is placed, and on which worker. */
module DeliveryGuarantees {
  import opened Types
  import opened Graph
  import opened StoreOps
  import opened WorkflowOps
  import opened ManagerOps
  import opened System
  import opened Invariant
  import opened PairProofs
  import opened TaskProofs
  import opened StoreProofs
  import opened SettleProofs
  import opened ScheduleProofs
  import opened SteadyProofs
  import opened RunProofs
  import opened RunGuarantees
  import opened ScheduleGuarantees
  import opened TickGuarantees

  // ---------------------------------------------------------------------- deliveries

  /** `d` is what `key` means to the consumer `c`: the row of that key in its own revision. */
  predicate Provides(db: Db, c: Child, key: Label, d: Child) {
    d in db.children && d.root == c.root && d.revision == c.revision && d.key == key
  }

  /** The work succeeded, and what the consumer wants of it can be built. */
  predicate Usable(db: Db, d: Child, sound: set<TaskId>) {
    d.task in db.tasks && db.tasks[d.task].status.Succeeded? && d.task in sound
  }

  ghost predicate UsableKey(db: Db, c: Child, key: Label, sound: set<TaskId>) {
    exists d :: Provides(db, c, key, d) && Usable(db, d, sound)
  }

  ghost predicate OpenKey(db: Db, c: Child, key: Label) {
    exists d :: Provides(db, c, key, d) && d.task in db.tasks && !Terminal(db.tasks[d.task].status)
  }

  /** The first key that cannot be sent, if there is one. */
  ghost predicate StopsAt(db: Db, c: Child, keys: seq<Label>, sound: set<TaskId>, i: nat) {
    && i <= |keys| && (forall j :: 0 <= j < i ==> UsableKey(db, c, keys[j], sound))
    && (i < |keys| ==> !UsableKey(db, c, keys[i], sound))
  }

  ghost predicate SentFor(db: Db, c: Child, keys: seq<Label>, i: nat, p: (TaskId, TaskId))
    requires i <= |keys|
  {
    p.1 == c.task && exists j, d :: 0 <= j < i && Provides(db, c, keys[j], d) && p.0 == d.task
  }

  /** Exactly `sent` is delivered, and no recorded transfer is changed. */
  ghost predicate Deliveries(x: map<(TaskId, TaskId), Transfer>, y: map<(TaskId, TaskId), Transfer>, sent: iset<(TaskId, TaskId)>) {
    && (forall p :: p in y <==> p in x || p in sent)
    && (forall p :: p in y ==> y[p] == if p in x then x[p] else Delivered)
  }

  ghost function SentSet(db: Db, c: Child, keys: seq<Label>, i: nat): iset<(TaskId, TaskId)>
    requires i <= |keys|
  {
    iset p | SentFor(db, c, keys, i, p)
  }

  /** Deliveries are made for exactly the keys before `i`. */
  ghost predicate SendsBefore(db: Db, y: Db, c: Child, keys: seq<Label>, i: nat)
    requires i <= |keys|
  {
    && y == db.(transfers := y.transfers)
    && Deliveries(db.transfers, y.transfers, SentSet(db, c, keys, i))
  }

  /** The delivery of `d` to `c` has failed, and with it the consumer if it was still waiting. */
  predicate Refuses(x: Db, y: Db, c: Child, d: Child) {
    && (d.task, c.task) in y.transfers
    && y.transfers == x.transfers[(d.task, c.task) := if (d.task, c.task) in x.transfers then x.transfers[(d.task, c.task)] else Undelivered]
    && y == x.(transfers := y.transfers, tasks := y.tasks, roots := y.roots, events := y.events)
    && c.task in x.tasks && c.task in y.tasks && y.tasks == x.tasks[c.task := y.tasks[c.task]]
    && y.tasks[c.task] == (if x.tasks[c.task].status.Pending?
                           then x.tasks[c.task].(status := Status.Failed, reason := Some(DependencyFailed), finishedAt := Some(x.clock))
                           else x.tasks[c.task])
    && c.root in x.roots && c.root in y.roots && y.roots == x.roots[c.root := x.roots[c.root].(reason := Some(DependencyFailed))]
  }

  /** The outcome of a delivery that stops at key `i`. */
  ghost predicate Delivers(db: Db, y: Db, answer: Dependency, c: Child, keys: seq<Label>, i: nat)
    requires i <= |keys|
  {
    if i == |keys| then answer.Ready? && SendsBefore(db, y, c, keys, i)
    else if OpenKey(db, c, keys[i]) then answer.Waiting? && SendsBefore(db, y, c, keys, i)
    else answer.Blocked? && exists x, d :: SendsBefore(db, x, c, keys, i) && Provides(db, c, keys[i], d) && Refuses(x, y, c, d)
  }

  lemma OneProvider(cfg: Config, db: Db, c: Child, key: Label) returns (d: Child)
    requires Inv(cfg, db) && c in db.children && key in c.dependencies
    ensures Provides(db, c, key, d) && SourceChild(db.children, c.root, key, c.revision) == Some(d)
    ensures forall e :: Provides(db, c, key, e) ==> e == d
    ensures d.task in db.tasks && c.task in db.tasks && c.root in db.roots
  {
    hide Inv;
    SourceKnown(cfg, db, c, key);
    KnownChild(cfg, db, c);
    d := SourceChild(db.children, c.root, key, c.revision).value;
    InvFlow(cfg, db);
    forall e | Provides(db, c, key, e) ensures e == d {
      assert Akin(e, d);
    }
  }

  lemma NothingSent(db: Db, c: Child, keys: seq<Label>)
    ensures SendsBefore(db, db, c, keys, 0)
  {
  }

  lemma RefusesOne(db: Db, c: Child, d: Child)
    requires c.task in db.tasks && c.root in db.roots
    ensures Refuses(db, RefuseDependency(db, c, d.task), c, d)
  {
    assert db.tasks[c.task := db.tasks[c.task]] == db.tasks;
    assert (d.task, c.task) in db.transfers ==> db.transfers[(d.task, c.task) := db.transfers[(d.task, c.task)]] == db.transfers;
  }

  lemma SentMore(db: Db, mid: Db, c: Child, keys: seq<Label>, i: nat, d: Child, p: (TaskId, TaskId))
    requires i < |keys| && mid.children == db.children
    requires Provides(db, c, keys[0], d) && forall e :: Provides(db, c, keys[0], e) ==> e == d
    ensures SentFor(db, c, keys, i + 1, p) <==> SentFor(mid, c, keys[1..], i, p) || p == (d.task, c.task)
  {
    if SentFor(db, c, keys, i + 1, p) {
      var j, e :| 0 <= j < i + 1 && Provides(db, c, keys[j], e) && p.0 == e.task;
      if j > 0 {
        assert Provides(mid, c, keys[1..][j - 1], e);
      }
    }
    if SentFor(mid, c, keys[1..], i, p) {
      var j, e :| 0 <= j < i && Provides(mid, c, keys[1..][j], e) && p.0 == e.task;
      assert Provides(db, c, keys[j + 1], e);
    }
    if p == (d.task, c.task) {
      assert Provides(db, c, keys[0], d);
    }
  }

  lemma TransfersMore(x: map<(TaskId, TaskId), Transfer>, mid: map<(TaskId, TaskId), Transfer>, y: map<(TaskId, TaskId), Transfer>,
                      first: (TaskId, TaskId), less: iset<(TaskId, TaskId)>, more: iset<(TaskId, TaskId)>)
    requires mid == if first in x then x else x[first := Delivered]
    requires more == less + iset{first} && Deliveries(mid, y, less)
    ensures Deliveries(x, y, more)
  {
  }

  /** One more key was sent first. */
  lemma SendsMore(db: Db, mid: Db, y: Db, c: Child, keys: seq<Label>, i: nat, d: Child)
    requires i < |keys| && mid == Send(db, d.task, c.task) && SendsBefore(mid, y, c, keys[1..], i)
    requires Provides(db, c, keys[0], d) && forall e :: Provides(db, c, keys[0], e) ==> e == d
    ensures SendsBefore(db, y, c, keys, i + 1)
  {
    hide SentFor, Provides, Deliveries;
    var first := (d.task, c.task);
    var less, more := SentSet(mid, c, keys[1..], i), SentSet(db, c, keys, i + 1);
    forall p ensures p in more <==> p in less || p == first {
      SentMore(db, mid, c, keys, i, d, p);
    }
    TransfersMore(db.transfers, mid.transfers, y.transfers, first, less, more);
  }

  lemma SameKeys(db: Db, mid: Db, c: Child, key: Label, sound: set<TaskId>)
    requires mid.children == db.children && mid.tasks == db.tasks
    ensures UsableKey(mid, c, key, sound) <==> UsableKey(db, c, key, sound)
    ensures OpenKey(mid, c, key) <==> OpenKey(db, c, key)
    ensures forall d :: Provides(mid, c, key, d) <==> Provides(db, c, key, d)
  {
    if UsableKey(db, c, key, sound) {
      var d :| Provides(db, c, key, d) && Usable(db, d, sound);
      assert Provides(mid, c, key, d) && Usable(mid, d, sound);
    }
    if OpenKey(db, c, key) {
      var d :| Provides(db, c, key, d) && d.task in db.tasks && !Terminal(db.tasks[d.task].status);
      assert Provides(mid, c, key, d);
    }
  }

  lemma LaterStop(db: Db, mid: Db, c: Child, keys: seq<Label>, sound: set<TaskId>, i: nat)
    requires mid.children == db.children && mid.tasks == db.tasks && 0 < i && StopsAt(db, c, keys, sound, i)
    ensures StopsAt(mid, c, keys[1..], sound, i - 1)
  {
    hide UsableKey, OpenKey;
    forall j | 0 <= j < |keys| ensures UsableKey(mid, c, keys[j], sound) <==> UsableKey(db, c, keys[j], sound) {
      SameKeys(db, mid, c, keys[j], sound);
    }
  }

  lemma LaterDelivers(db: Db, mid: Db, y: Db, answer: Dependency, c: Child, keys: seq<Label>, i: nat, d: Child)
    requires 0 < i <= |keys| && mid == Send(db, d.task, c.task) && Delivers(mid, y, answer, c, keys[1..], i - 1)
    requires Provides(db, c, keys[0], d) && forall e :: Provides(db, c, keys[0], e) ==> e == d
    ensures Delivers(db, y, answer, c, keys, i)
  {
    hide SendsBefore, Refuses;
    if i < |keys| {
      SameKeys(db, mid, c, keys[i], {});
      assert keys[1..][i - 1] == keys[i];
    }
    if i == |keys| || OpenKey(db, c, keys[i]) {
      SendsMore(db, mid, y, c, keys, i - 1, d);
    } else {
      var x, e :| SendsBefore(mid, x, c, keys[1..], i - 1) && Provides(mid, c, keys[1..][i - 1], e) && Refuses(x, y, c, e);
      SendsMore(db, mid, x, c, keys, i - 1, d);
      assert Provides(db, c, keys[i], e);
    }
  }

  /** Delivery sends key after key until the first that is not usable, waits for it if it is still open, and refuses
      the consumer otherwise. */
  lemma {:induction false} DeliverFromExactly(cfg: Config, db: Db, c: Child, keys: seq<Label>, sound: set<TaskId>, i: nat)
    requires Inv(cfg, db) && c in db.children && (forall k :: k in keys ==> k in c.dependencies) && StopsAt(db, c, keys, sound, i)
    ensures var (y, answer) := DeliverFrom(db, c, keys, sound); Delivers(db, y, answer, c, keys, i)
    decreases |keys|
  {
    hide Inv, Advances, SendsBefore, Refuses, RefuseDependency;
    NothingSent(db, c, keys);
    if keys != [] {
      var d := OneProvider(cfg, db, c, keys[0]);
      if i == 0 {
        RefusesOne(db, c, d);
        hide Delivers;
        FirstStops(cfg, db, c, keys, sound, d);
      } else {
        var mid := Send(db, d.task, c.task);
        SendKeeps(cfg, db, d.task, c.task);
        LaterStop(db, mid, c, keys, sound, i);
        DeliverFromExactly(cfg, mid, c, keys[1..], sound, i - 1);
        LaterDelivers(db, mid, DeliverFrom(mid, c, keys[1..], sound).0, DeliverFrom(mid, c, keys[1..], sound).1, c, keys, i, d);
        hide Delivers;
        assert Usable(db, d, sound);
      }
    }
  }

  lemma FirstStops(cfg: Config, db: Db, c: Child, keys: seq<Label>, sound: set<TaskId>, d: Child)
    requires keys != [] && StopsAt(db, c, keys, sound, 0) && SendsBefore(db, db, c, keys, 0)
    requires Provides(db, c, keys[0], d) && SourceChild(db.children, c.root, keys[0], c.revision) == Some(d) && d.task in db.tasks
    requires forall e :: Provides(db, c, keys[0], e) ==> e == d
    requires Refuses(db, RefuseDependency(db, c, d.task), c, d)
    ensures var (y, answer) := DeliverFrom(db, c, keys, sound); Delivers(db, y, answer, c, keys, 0)
  {
    hide SendsBefore, Refuses, RefuseDependency;
    assert !Usable(db, d, sound);
    if Terminal(db.tasks[d.task].status) {
      assert !OpenKey(db, c, keys[0]);
      assert SendsBefore(db, db, c, keys, 0) && Provides(db, c, keys[0], d);
    } else {
      assert Provides(db, c, keys[0], d);
    }
  }

  /** The consumer's row that counts: the latest one. */
  ghost predicate Latest(db: Db, t: TaskId, c: Child) {
    c in db.children && c.task == t && forall e :: e in db.children && e.task == t ==> e.revision <= c.revision
  }

  lemma LatestRow(cfg: Config, db: Db, t: TaskId, c: Child)
    requires Inv(cfg, db) && Latest(db, t, c)
    ensures LatestChild(db.children, t) == Some(c)
  {
    hide Inv;
    InvFlow(cfg, db);
    assert Akin(c, LatestChild(db.children, t).value);
  }

  ghost predicate LoggedOnly(x: Db, y: Db) {
    y == x.(events := y.events)
  }

  /** The delivery of a workflow child, as far as its keys reach; a task of no workflow, or without dependencies, is
      ready as it is. */
  lemma DeliverExactly(cfg: Config, db: Db, t: TaskId, sound: set<TaskId>, c: Child, i: nat)
    requires Inv(cfg, db) && Latest(db, t, c) && StopsAt(db, c, c.dependencies, sound, i)
    ensures var (y, answer) := Deliver(db, t, sound);
            exists x :: Delivers(db, x, answer, c, c.dependencies, i) && LoggedOnly(x, y)
  {
    hide Inv, DeliverFrom, Delivers;
    LatestRow(cfg, db, t, c);
    DeliverFromExactly(cfg, db, c, c.dependencies, sound, i);
    if c.dependencies == [] {
      NothingDelivered(db, c);
      assert LoggedOnly(db, Deliver(db, t, sound).0);
    } else {
      assert LoggedOnly(DeliverFrom(db, c, c.dependencies, sound).0, Deliver(db, t, sound).0);
    }
  }

  lemma NothingDelivered(db: Db, c: Child)
    requires c.dependencies == []
    ensures Delivers(db, db, Ready, c, c.dependencies, 0)
  {
    NothingSent(db, c, c.dependencies);
    hide SendsBefore;
  }

  lemma DeliverAlone(db: Db, t: TaskId, sound: set<TaskId>)
    requires forall c :: c in db.children ==> c.task != t
    ensures Deliver(db, t, sound) == (db, Ready)
  {
  }

  /** Succeeded dependencies whose payloads can be built always make their consumer ready, and nothing else does. */
  lemma ReadyExactly(cfg: Config, db: Db, t: TaskId, sound: set<TaskId>, c: Child)
    requires Inv(cfg, db) && Latest(db, t, c)
    ensures Deliver(db, t, sound).1.Ready? <==> forall key :: key in c.dependencies ==> UsableKey(db, c, key, sound)
  {
    hide Inv, Deliver, UsableKey, SendsBefore, OpenKey, LoggedOnly;
    var i := FirstUnusable(db, c, c.dependencies, sound);
    DeliverExactly(cfg, db, t, sound, c, i);
    if i < |c.dependencies| {
      assert c.dependencies[i] in c.dependencies;
    }
  }

  lemma {:induction false} FirstUnusable(db: Db, c: Child, keys: seq<Label>, sound: set<TaskId>) returns (i: nat)
    ensures StopsAt(db, c, keys, sound, i)
  {
    hide UsableKey;
    if keys == [] {
      i := 0;
    } else {
      var n := |keys| - 1;
      i := FirstUnusable(db, c, keys[..n], sound);
      if i == n && UsableKey(db, c, keys[n], sound) {
        i := n + 1;
      }
    }
  }

  // ----------------------------------------------------------------------- admission

  /** The workflow that owns `t` admits no further attempt, for this reason. */
  predicate Closed(root: Root, reason: Reason) {
    || (root.maxTokens.Some? && root.tokensUsed >= root.maxTokens.value && reason == TokensExhausted)
    || (!(root.maxTokens.Some? && root.tokensUsed >= root.maxTokens.value) && root.state.RootFailed?
        && reason == (match root.reason case Some(r) => r case None => WorkflowFailed))
    || (!(root.maxTokens.Some? && root.tokensUsed >= root.maxTokens.value) && !root.state.RootFailed?
        && root.attemptsUsed >= root.maxAttempts && reason == AttemptsExhausted)
  }

  /** A workflow admits an attempt of its child exactly while it has tokens and attempts left and has not failed; the
      attempt is counted, and a refused child that was waiting fails for the workflow's reason. */
  lemma AdmitsExactly(cfg: Config, db: Db, t: TaskId, c: Child)
    requires Inv(cfg, db) && Latest(db, t, c)
    ensures c.root in db.roots && t in db.tasks
    ensures var (y, admitted) := ClaimAttempt(db, t);
            && (admitted <==> forall reason :: !Closed(db.roots[c.root], reason))
            && (admitted ==> y == db.(roots := db.roots[c.root := db.roots[c.root].(attemptsUsed := db.roots[c.root].attemptsUsed + 1)]))
            && (forall reason :: Closed(db.roots[c.root], reason) ==>
                  && t in y.tasks && y == db.(tasks := db.tasks[t := y.tasks[t]], events := y.events)
                  && y.tasks[t] == (if db.tasks[t].status.Pending?
                                    then db.tasks[t].(status := Status.Failed, reason := Some(reason), finishedAt := Some(db.clock))
                                    else db.tasks[t]))
  {
    hide Inv;
    LatestRow(cfg, db, t, c);
    KnownChild(cfg, db, c);
    assert db.tasks[t := db.tasks[t]] == db.tasks;
    var root := db.roots[c.root];
    assert Exhausted(root).Some? ==> Closed(root, Exhausted(root).value);
    assert forall reason :: Closed(root, reason) ==> Exhausted(root) == Some(reason);
  }

  // ----------------------------------------------------------------------- placement

  function HeldAt(attempts: map<AttemptId, Attempt>, w: WorkerId): set<AttemptId> {
    set a | a in attempts && attempts[a].reserved && attempts[a].worker == w
  }

  /** The worker was heard of, has a free slot, and may run this contract. */
  predicate Able(cfg: Config, db: Db, spec: Spec, w: WorkerId) {
    && w in db.workers && db.clock <= db.workers[w].lastSeen + cfg.workerTtl
    && |HeldAt(db.attempts, w)| < db.workers[w].slots
    && spec.runtime in db.workers[w].runtimes
    && (spec.sandbox.WorkspaceWrite? ==> db.workers[w].allowWrite)
  }

  lemma AbleFeasible(cfg: Config, db: Db, spec: Spec, w: WorkerId)
    ensures Able(cfg, db, spec, w) <==> w in FeasibleWorkers(db, cfg, spec)
  {
    assert HeldAt(db.attempts, w) == ReservedBy(db.attempts, w);
    AscendingHolds((set v | v in db.workers && Feasible(db, cfg, spec, v)), w);
  }

  /** The worker whose turn it is: the next one after the cursor, or the first of all. */
  ghost predicate InTurn(cfg: Config, db: Db, spec: Spec, w: WorkerId) {
    && Able(cfg, db, spec, w)
    && (w > db.lastWorker ==> forall v: WorkerId :: Able(cfg, db, spec, v) && v > db.lastWorker ==> w <= v)
    && (w <= db.lastWorker ==> forall v: WorkerId :: Able(cfg, db, spec, v) ==> w <= v <= db.lastWorker)
  }

  lemma PicksTurn(cfg: Config, db: Db, spec: Spec)
    requires FeasibleWorkers(db, cfg, spec) != []
    ensures InTurn(cfg, db, spec, Pick(db.lastWorker, FeasibleWorkers(db, cfg, spec)))
  {
    hide Able;
    var ws := FeasibleWorkers(db, cfg, spec);
    FeasibleSorted(db, cfg, spec);
    forall v: WorkerId ensures Able(cfg, db, spec, v) <==> v in ws {
      AbleFeasible(cfg, db, spec, v);
    }
    hide FeasibleWorkers;
    PickTurn(db.lastWorker, ws);
  }

  lemma {:induction false} NoneAfter(cursor: WorkerId, ws: seq<WorkerId>)
    requires forall j, k :: 0 <= j < k < |ws| ==> ws[j] < ws[k]
    ensures FirstAfter(cursor, ws).None? ==> forall v :: v in ws ==> v <= cursor
    ensures FirstAfter(cursor, ws).Some? ==> FirstAfter(cursor, ws).value in ws && FirstAfter(cursor, ws).value > cursor
                                             && forall v :: v in ws && v > cursor ==> FirstAfter(cursor, ws).value <= v
  {
    if ws != [] && ws[0] <= cursor {
      NoneAfter(cursor, ws[1..]);
      assert ws == [ws[0]] + ws[1..];
    } else if ws != [] {
      forall v | v in ws ensures ws[0] <= v {
        var k :| 0 <= k < |ws| && ws[k] == v;
      }
    }
  }

  lemma PickTurn(cursor: WorkerId, ws: seq<WorkerId>)
    requires ws != [] && forall j, k :: 0 <= j < k < |ws| ==> ws[j] < ws[k]
    ensures var w := Pick(cursor, ws);
            && w in ws
            && (w > cursor ==> forall v :: v in ws && v > cursor ==> w <= v)
            && (w <= cursor ==> forall v :: v in ws ==> w <= v <= cursor)
  {
    NoneAfter(cursor, ws);
    forall v | v in ws ensures ws[0] <= v {
      var k :| 0 <= k < |ws| && ws[k] == v;
    }
  }

  /** One more attempt of `t`, Queued and reserved on worker `w`, not yet handed to it. */
  ghost predicate PlacedOn(x: Db, y: Db, t: TaskId, w: WorkerId) {
    var a := x.nextId;
    && t in x.tasks && t in y.tasks && a in y.attempts
    && y.tasks == x.tasks[t := x.tasks[t].(status := Scheduled, current := Some(a), reason := None)]
    && y.attempts == x.attempts[a := y.attempts[a]]
    && y.outbox == x.outbox[a := false] && y.lastWorker == w && y.nextId == a + 1 && y.clock == x.clock && y.workers == x.workers
    && var row := y.attempts[a];
       && row.task == t && row.worker == w && row.state.Queued? && row.reserved && !row.settled && row.sequence == 0
       && row.number == |set b | b in x.attempts && x.attempts[b].task == t| + 1
       && row.heartbeat == x.clock && row.startedAt.None? && row.finishedAt.None? && row.kind.None? && row.tokens.None? && row.knownTokens == 0
       && row.resultPath.None? && row.resultSha.None?
  }

  /** One task's turn in the placement loop: it stays if no worker is able; it stays, or ends, if its dependencies or
      its workflow do not let it start; otherwise it is placed on the able worker whose turn it is. */
  ghost predicate TurnOf(cfg: Config, db: Db, env: Env, t: TaskId, y: Db)
    requires t in db.tasks
  {
    var (db1, answer) := Deliver(db, t, env.sound);
    var (db2, admitted) := ClaimAttempt(db1, t);
    && ((forall w :: !Able(cfg, db, db.tasks[t].spec, w)) ==> y == db)
    && (forall w :: Able(cfg, db, db.tasks[t].spec, w) ==>
          if !answer.Ready? then y == db1
          else if !admitted then y == db2
          else exists v :: InTurn(cfg, db, db.tasks[t].spec, v) && PlacedOn(db2, y, t, v))
  }

  lemma TurnExactly(cfg: Config, db: Db, env: Env, t: TaskId)
    requires t in db.tasks
    ensures TurnOf(cfg, db, env, t, ScheduleOne(db, cfg, env, t))
  {
    hide Deliver, ClaimAttempt, FeasibleWorkers, InTurn, Able, Pick, Place, PlacedOn;
    forall w ensures Able(cfg, db, db.tasks[t].spec, w) <==> w in FeasibleWorkers(db, cfg, db.tasks[t].spec) {
      AbleFeasible(cfg, db, db.tasks[t].spec, w);
    }
    var feasible := FeasibleWorkers(db, cfg, db.tasks[t].spec);
    var db1 := Deliver(db, t, env.sound).0;
    DeliverLocal(db, t, env.sound);
    ClaimFrame(db1, t);
    if feasible != [] {
      assert Able(cfg, db, db.tasks[t].spec, feasible[0]);
      PicksTurn(cfg, db, db.tasks[t].spec);
      PlacesOn(ClaimAttempt(db1, t).0, t, Pick(db.lastWorker, feasible), feasible);
    }
  }

  lemma PlacesOn(db: Db, t: TaskId, w: WorkerId, feasible: seq<WorkerId>)
    requires t in db.tasks
    ensures PlacedOn(db, Place(db, t, w, feasible), t, w)
  {
    assert AttemptsOf(db.attempts, t) == set b | b in db.attempts && db.attempts[b].task == t;
  }

  /** Why a due task may still be Pending after a tick. */
  ghost predicate Held(cfg: Config, y: Db, t: TaskId) {
    t in y.tasks && y.tasks[t].status.Pending? ==> Unsupplied(y, t) || forall w :: !Able(cfg, y, y.tasks[t].spec, w)
  }

  lemma ExcusedHeld(cfg: Config, y: Db, t: TaskId)
    requires Excused(cfg, y, t)
    ensures Held(cfg, y, t)
  {
    hide Able, Unsupplied, FeasibleWorkers;
    if t in y.tasks && FeasibleWorkers(y, cfg, y.tasks[t].spec) == [] {
      forall w ensures !Able(cfg, y, y.tasks[t].spec, w) {
        AbleFeasible(cfg, y, y.tasks[t].spec, w);
      }
    }
  }

  /** After a tick the store's capacity is used up, or every task that was due for placement was placed, ended, still
      lacks a dependency, or has no able worker. */
  lemma NoIdleCapacity(cfg: Config, db: Db, env: Env, t: TaskId)
    requires Inv(cfg, db)
    requires var x := ReconcileAll(db, cfg, env, OpenTasks(db)).0; t in x.tasks && Due(x.tasks[t], db.clock)
    ensures var y := Tick(db, cfg, env).0; |set a | a in y.attempts && y.attempts[a].reserved| >= cfg.maxActive || Held(cfg, y, t)
  {
    hide Inv, Tick, ReconcileAll, Excused, Held, SlotsKept;
    TickWorkConserving(cfg, db, env);
    SameClock(cfg, db, env);
    var y := Tick(db, cfg, env).0;
    assert Reserved(y.attempts) == set a | a in y.attempts && y.attempts[a].reserved;
    if Excused(cfg, y, t) {
      ExcusedHeld(cfg, y, t);
    }
  }

  /** The worker of an attempt may run its task: it was heard of, knows the runtime, and may write if that is needed. */
  predicate Compatible(cfg: Config, db: Db, spec: Spec, w: WorkerId) {
    && w in db.workers && db.clock <= db.workers[w].lastSeen + cfg.workerTtl
    && spec.runtime in db.workers[w].runtimes && (spec.sandbox.WorkspaceWrite? ==> db.workers[w].allowWrite)
  }

  predicate CompatibleAttempt(cfg: Config, db: Db, ids: seq<TaskId>, row: Attempt) {
    row.task in ids && row.task in db.tasks && Compatible(cfg, db, db.tasks[row.task].spec, row.worker)
  }

  lemma CompatibleSame(cfg: Config, x: Db, y: Db, ids: seq<TaskId>, row: Attempt)
    requires CompatibleAttempt(cfg, y, ids, row) && row.task in x.tasks && Advances(x, y) && y.workers == x.workers && y.clock == x.clock
    ensures CompatibleAttempt(cfg, x, ids, row)
  {
    assert TaskAdvances(x.tasks[row.task], y.tasks[row.task]);
  }

  lemma {:induction false} PlacesCompatible(cfg: Config, db: Db, env: Env, ids: seq<TaskId>, a: AttemptId)
    requires Inv(cfg, db) && Ascends(ids) && forall t :: t in ids ==> Queueable(db, t)
    requires a in ScheduleAll(db, cfg, env, ids).attempts && a !in db.attempts
    ensures CompatibleAttempt(cfg, db, ids, ScheduleAll(db, cfg, env, ids).attempts[a])
    ensures ScheduleAll(db, cfg, env, ids).attempts[a].reserved
  {
    hide Inv, Advances, ScheduleOne, Reserved, CompatibleAttempt, Feasible, ReservedBy;
    var n := |ids| - 1;
    var db1, db2 := ScheduleAll(db, cfg, env, ids[..n]), ScheduleAll(db, cfg, env, ids);
    assert forall t :: t in ids[..n] ==> t in ids;
    ScheduleAllKeeps(cfg, db, env, ids[..n]);
    ScheduleRespectsSlots(cfg, db, env, ids[..n]);
    ScheduleApart(cfg, db, env, ids[..n]);
    if a in db1.attempts {
      PlacesCompatible(cfg, db, env, ids[..n], a);
      MoreIds(cfg, db, ids, db1.attempts[a]);
      if |Reserved(db1.attempts)| < cfg.maxActive {
        FreshId(cfg, db1);
        ScheduleOneAttempts(cfg, db1, env, ids[n]);
      }
    } else {
      FreshId(cfg, db1);
      ScheduleOneAttempts(cfg, db1, env, ids[n]);
      var w, number :| NewlyPlaced(cfg, db1, db2, ids[n], w, number);
      assert ids[n] in ids && Queueable(db, ids[n]);
      FeasibleCompatible(cfg, db1, ids, ids[n], db2.attempts[a]);
      CompatibleSame(cfg, db, db1, ids, db2.attempts[a]);
    }
  }

  lemma MoreIds(cfg: Config, db: Db, ids: seq<TaskId>, row: Attempt)
    requires ids != [] && CompatibleAttempt(cfg, db, ids[..|ids| - 1], row)
    ensures CompatibleAttempt(cfg, db, ids, row)
  {
  }

  lemma FeasibleCompatible(cfg: Config, db: Db, ids: seq<TaskId>, t: TaskId, row: Attempt)
    requires t in ids && t in db.tasks && row.task == t && Feasible(db, cfg, db.tasks[t].spec, row.worker)
    ensures CompatibleAttempt(cfg, db, ids, row)
  {
  }

  /** Every attempt that a tick creates belongs to a task that was due for it, on a worker that may run it and that
      still holds no more than its slots. */
  lemma TickPlacesCompatible(cfg: Config, db: Db, env: Env, a: AttemptId)
    requires Inv(cfg, db) && a in Tick(db, cfg, env).0.attempts && a !in db.attempts
    ensures var x, y := ReconcileAll(db, cfg, env, OpenTasks(db)).0, Tick(db, cfg, env).0;
            var row := y.attempts[a];
            && row.task in x.tasks && Due(x.tasks[row.task], db.clock) && Compatible(cfg, x, x.tasks[row.task].spec, row.worker)
            && |HeldAt(y.attempts, row.worker)| <= x.workers[row.worker].slots
  {
    hide Inv, Advances, ReconcileAll, ScheduleAll, OpenTasks, EligibleTasks, Due, Compatible;
    OpenIds(cfg, db);
    ReconcileAllKeeps(cfg, db, env, OpenTasks(db));
    var x, y := ReconcileAll(db, cfg, env, OpenTasks(db)).0, Tick(db, cfg, env).0;
    SameClock(cfg, db, env);
    NoNewAttempts(cfg, db, env);
    DueIds(cfg, x);
    DueQueueable(x);
    PlacesCompatible(cfg, x, env, EligibleTasks(x), a);
    ScheduleRespectsSlots(cfg, x, env, EligibleTasks(x));
    ScheduleApart(cfg, x, env, EligibleTasks(x));
    CompatibleWorker(cfg, x, y.attempts[a]);
    hide SlotsKept, CompatibleAttempt;
    MoreReserved(x, y, a);
  }

  lemma CompatibleWorker(cfg: Config, x: Db, row: Attempt)
    requires row.task in x.tasks && Compatible(cfg, x, x.tasks[row.task].spec, row.worker)
    ensures row.worker in x.workers
  {
  }

  /** Reconciliation creates no attempt. */
  lemma {:induction false} ReconcileSame(cfg: Config, db: Db, env: Env, ids: seq<TaskId>)
    requires Inv(cfg, db) && Ascends(ids)
    requires forall u :: u in ids ==> u in db.tasks && !Terminal(db.tasks[u].status)
    ensures ReconcileAll(db, cfg, env, ids).0.attempts.Keys == db.attempts.Keys
  {
    hide Inv, Reconcile, Reviewed, PendingReviewed;
    if ids != [] {
      var n := |ids| - 1;
      var db1 := ReconcileAll(db, cfg, env, ids[..n]).0;
      Unreached(cfg, db, env, ids, ids[..n], ids[n], db1);
      ReconcileSame(cfg, db, env, ids[..n]);
      if db1.tasks[ids[n]].status.Pending? {
        var noted := PendingLook(cfg, db1, env, ids[n]);
      } else {
        ActivePair(cfg, db1, ids[n]);
        var noted := OpenLook(cfg, db1, env, ids[n]);
      }
    }
  }

  lemma NoNewAttempts(cfg: Config, db: Db, env: Env)
    requires Inv(cfg, db)
    ensures ReconcileAll(db, cfg, env, OpenTasks(db)).0.attempts.Keys == db.attempts.Keys
  {
    hide Inv, ReconcileAll, OpenTasks;
    OpenIds(cfg, db);
    ReconcileSame(cfg, db, env, OpenTasks(db));
  }

  lemma MoreReserved(x: Db, y: Db, a: AttemptId)
    requires a in y.attempts && a !in x.attempts && y.attempts[a].reserved && SlotsKept(x, y) && y.attempts[a].worker in x.workers
    requires forall b :: b in x.attempts ==> b in y.attempts && y.attempts[b] == x.attempts[b]
    ensures |HeldAt(y.attempts, y.attempts[a].worker)| <= x.workers[y.attempts[a].worker].slots
  {
    var w := y.attempts[a].worker;
    assert HeldAt(y.attempts, w) == ReservedBy(y.attempts, w);
    Subset(ReservedBy(x.attempts, w) + {a}, ReservedBy(y.attempts, w));
  }
}
