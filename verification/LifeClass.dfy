/** The session lifecycle as the program keeps it: tables that each transaction updates in place. */
module LifeClass {
  import opened Types
  import opened Graph
  import opened ManagerOps
  import opened Lifecycle
  import opened LifeInvariant
  import opened LifeProofs
  import opened LifeJobProofs
  import opened LifeRunProofs

  /** One command of a warm-up: too late to be sent, or sent with an outcome. */
  datatype Turn = TooLate | Sent(outcome: StepOutcome)

  class SessionLifecycle {
    var sessions: map<SessionId, Session>
    var jobs: map<JobId, Job>
    var order: seq<JobId>
    var runs: map<RunId, NativeRun>
    var branches: map<(SessionId, JobId), SessionId>
    var transfers: map<(JobId, JobId), Handover>
    var warmers: map<WarmerId, Warmer>
    var nextId: nat

    /** All tables, and the warm-ups in flight, as one value. */
    function View(): Life
      reads this
    {
      Life(sessions, jobs, order, runs, branches, transfers, warmers, nextId)
    }

    constructor ()
      ensures View() == NEWBORN
    {
      sessions, jobs, order, runs, branches, transfers, warmers, nextId := map[], map[], [], map[], map[], map[], map[], 0;
    }

    method Restore(l: Life)
      modifies this
      ensures View() == l
    {
      sessions, jobs, order, runs := l.sessions, l.jobs, l.order, l.runs;
      branches, transfers, warmers, nextId := l.branches, l.transfers, l.warmers, l.nextId;
    }

    // --------------------------------------------------------------- sessions

    method InsertSession(profile: Label, permission: Permission, parent: Option<SessionId>) returns (s: SessionId)
      modifies this
      ensures s == old(nextId) && View() == Lifecycle.InsertSession(old(View()), profile, permission, parent)
    {
      s := nextId;
      sessions := sessions[s := FreshSession(profile, permission, parent)];
      nextId := nextId + 1;
    }

    /** A known session must match and takes over the permission mode; a bypassing mode must have been
        inherited. */
    method EnsureSession(s: SessionId, profile: Label, permission: Permission, inherited: bool) returns (fault: Option<Fault>)
      modifies this
      ensures (View(), fault) == Lifecycle.EnsureSession(old(View()), s, profile, permission, inherited)
      ensures fault == Some(Unfit) <==> permission.bypass && !inherited
      ensures fault == Some(Clash) <==> fault != Some(Unfit) && s in old(sessions) && old(sessions)[s].profile != profile
      ensures fault.None? ==> s in sessions && sessions[s].profile == profile && sessions[s].permission == permission
      ensures fault.None? && s in old(sessions) ==> sessions == old(sessions)[s := old(sessions)[s].(permission := permission)]
    {
      if permission.bypass && !inherited {
        return Some(Unfit);
      }
      if s in sessions {
        if sessions[s].profile != profile {
          return Some(Clash);
        }
        if sessions[s].permission == permission {
          assert sessions[s := sessions[s].(permission := permission)] == sessions;
          return None;
        }
        sessions := sessions[s := sessions[s].(permission := permission)];
        return None;
      }
      sessions := sessions[s := FreshSession(profile, permission, None)];
      if s >= nextId {
        nextId := s + 1;
      }
      return None;
    }

    /** One branch per parent and job; a bypassing parent gets no new one. */
    method Branch(parent: SessionId, j: JobId) returns (child: Option<SessionId>)
      requires parent in sessions
      modifies this
      ensures var branch := Lifecycle.Branch(old(View()), parent, j);
              if branch.Some? then View() == branch.value.0 && child == Some(branch.value.1) else View() == old(View()) && child.None?
    {
      if (parent, j) in branches {
        return Some(branches[(parent, j)]);
      }
      var row := sessions[parent];
      if row.permission.bypass {
        return None;
      }
      var s := InsertSession(row.profile, row.permission, Some(parent));
      branches := branches[(parent, j) := s];
      return Some(s);
    }

    method AdoptPrepared(s: SessionId) returns (fault: Option<Fault>)
      modifies this
      ensures (View(), fault) == Lifecycle.AdoptPrepared(old(View()), s)
    {
      if s !in sessions {
        return Some(Missing);
      }
      var row := sessions[s];
      if row.state.SessionReady? && BothSucceeded(row) {
        return None;
      }
      if !row.state.New? {
        return Some(Busy);
      }
      sessions := sessions[s := row.(state := SessionReady, compact := StepSucceeded, rpaInit := StepSucceeded, warmupStep := None)];
      return None;
    }

    // ------------------------------------------------------------ registration

    method RegisterJob(spec: JobSpec) returns (fault: Option<Fault>)
      modifies this
      ensures (View(), fault) == Lifecycle.RegisterJob(old(View()), spec)
    {
      if !ValidJob(spec) {
        return Some(Unfit);
      }
      if spec.id in jobs {
        return if jobs[spec.id].spec == spec then None else Some(Clash);
      }
      if exists d :: d in spec.dependencies && d !in jobs {
        return Some(Unfit);
      }
      var session := spec.session;
      if session.Some? {
        if session.value !in sessions {
          return Some(Missing);
        }
      } else if spec.dependencies == [] {
        var s := InsertSession(spec.profile, ASK, None);
        session := Some(s);
      }
      var state := if spec.dependencies == [] then JobReady else JobPending;
      jobs := jobs[spec.id := Job(spec, session, state, 0, None, None)];
      order := order + [spec.id];
      return None;
    }

    /** The dependency graph of a batch: edges into jobs outside the batch are left out. */
    static function JobGraph(specs: seq<JobSpec>, ids: set<JobId>): Edges {
      if specs == [] then map[]
      else
        var n := |specs| - 1;
        JobGraph(specs[..n], ids)[specs[n].id := (set d | d in specs[n].dependencies) * ids]
    }

    static predicate IdsUnique(specs: seq<JobSpec>) {
      forall i, k :: 0 <= i < k < |specs| ==> specs[i].id != specs[k].id
    }

    static function IdsOf(specs: seq<JobSpec>): set<JobId> {
      set i | 0 <= i < |specs| :: specs[i].id
    }

    static lemma {:induction false} JobGraphOf(specs: seq<JobSpec>, ids: set<JobId>, i: nat)
      requires IdsUnique(specs) && i < |specs|
      ensures specs[i].id in JobGraph(specs, ids) && JobGraph(specs, ids)[specs[i].id] == (set d | d in specs[i].dependencies) * ids
    {
      var n := |specs| - 1;
      if i < n {
        JobGraphOf(specs[..n], ids, i);
      }
    }

    static lemma {:induction false} JobGraphKeys(specs: seq<JobSpec>, ids: set<JobId>)
      ensures JobGraph(specs, ids).Keys == IdsOf(specs)
    {
      if specs != [] {
        var n := |specs| - 1;
        JobGraphKeys(specs[..n], ids);
        assert specs == specs[..n] + [specs[n]];
        assert IdsOf(specs) == IdsOf(specs[..n]) + {specs[n].id};
      }
    }

    /** Every dependency is registered before, or earlier in the sequence. */
    static predicate DependenciesFirst(l: Life, sequence: seq<JobSpec>) {
      forall i :: 0 <= i < |sequence| ==> forall d :: d in sequence[i].dependencies ==> d in l.jobs || d in IdsOf(sequence[..i])
    }

    static lemma FirstExtends(l: Life, sequence: seq<JobSpec>, spec: JobSpec)
      requires DependenciesFirst(l, sequence) && forall d :: d in spec.dependencies ==> d in l.jobs || d in IdsOf(sequence)
      ensures DependenciesFirst(l, sequence + [spec])
    {
      var more := sequence + [spec];
      forall i | 0 <= i < |more| ensures forall d :: d in more[i].dependencies ==> d in l.jobs || d in IdsOf(more[..i]) {
        if i < |sequence| {
          assert more[..i] == sequence[..i];
        } else {
          assert more[..i] == sequence;
        }
      }
    }

    static method BuildGraph(specs: seq<JobSpec>) returns (graph: Edges)
      requires IdsUnique(specs)
      ensures graph == JobGraph(specs, IdsOf(specs)) && Closed(graph) && graph.Keys == IdsOf(specs)
    {
      graph := map[];
      var i := 0;
      while i < |specs|
        invariant 0 <= i <= |specs| && graph == JobGraph(specs[..i], IdsOf(specs))
      {
        graph := graph[specs[i].id := (set d | d in specs[i].dependencies) * IdsOf(specs)];
        assert specs[..i + 1][..i] == specs[..i];
        i := i + 1;
      }
      assert specs[..|specs|] == specs;
      JobGraphKeys(specs, IdsOf(specs));
      forall k | k in graph ensures graph[k] <= graph.Keys {
        var j :| 0 <= j < |specs| && specs[j].id == k;
        JobGraphOf(specs, IdsOf(specs), j);
      }
    }

    static lemma IdsMore(specs: seq<JobSpec>, i: nat)
      requires i < |specs|
      ensures IdsOf(specs[..i + 1]) == IdsOf(specs[..i]) + {specs[i].id}
    {
      assert specs[..i + 1] == specs[..i] + [specs[i]];
      var more := specs[..i + 1];
      forall id | id in IdsOf(specs[..i]) ensures id in IdsOf(more) {
        var k :| 0 <= k < i && specs[..i][k].id == id;
        assert more[k].id == id;
      }
      assert more[i].id == specs[i].id;
    }

    static method BatchUnique(specs: seq<JobSpec>) returns (ok: bool)
      ensures ok == IdsUnique(specs)
    {
      var seen := {};
      var i := 0;
      while i < |specs|
        invariant 0 <= i <= |specs| && seen == IdsOf(specs[..i]) && IdsUnique(specs[..i])
      {
        assert forall k :: 0 <= k < i ==> specs[..i][k] == specs[k];
        if specs[i].id in seen {
          return false;
        }
        IdsMore(specs, i);
        seen := seen + {specs[i].id};
        i := i + 1;
      }
      assert specs[..|specs|] == specs;
      return true;
    }

    /** The batch itself is in order: unique valid jobs, an acyclic graph, no unknown dependency. */
    static ghost predicate Shaped(l: Life, specs: seq<JobSpec>) {
      && specs != [] && IdsUnique(specs) && Acyclic(JobGraph(specs, IdsOf(specs)))
      && (forall i :: 0 <= i < |specs| ==> ValidJob(specs[i]) && Resolves(l, specs, specs[i]))
    }

    static predicate Resolves(l: Life, specs: seq<JobSpec>, spec: JobSpec) {
      forall d :: d in spec.dependencies ==> d in IdsOf(specs) || d in l.jobs
    }

    /** The store already holds a different job under this identifier. */
    static predicate Clashes(l: Life, spec: JobSpec) {
      spec.id in l.jobs && l.jobs[spec.id].spec != spec
    }

    /** A new job mentions a session that does not exist. */
    static predicate Homeless(l: Life, spec: JobSpec) {
      spec.id !in l.jobs && spec.session.Some? && spec.session.value !in l.sessions
    }

    /** The tables after registering `sequence`, every job after its dependencies. */
    static ghost predicate Registered(start: Life, l: Life, available: set<JobId>, sequence: seq<JobSpec>) {
      && RegisterSeq(start, sequence) == (l, None) && DependenciesFirst(start, sequence)
      && available == start.jobs.Keys + IdsOf(sequence) == l.jobs.Keys
      && (forall j :: j in start.jobs ==> l.jobs[j] == start.jobs[j])
      && start.sessions.Keys <= l.sessions.Keys
      && (forall k :: 0 <= k < |sequence| ==> l.jobs[sequence[k].id].spec == sequence[k])
    }

    static lemma RegisterAdds(l: Life, spec: JobSpec)
      requires Lifecycle.RegisterJob(l, spec).1.None?
      ensures var l1 := Lifecycle.RegisterJob(l, spec).0;
              && l1.jobs.Keys == l.jobs.Keys + {spec.id} && l1.jobs[spec.id].spec == spec
              && (forall j :: j in l.jobs ==> l1.jobs[j] == l.jobs[j]) && l.sessions.Keys <= l1.sessions.Keys
    {
      hide ValidJob;
    }

    static lemma RegistersOne(start: Life, l: Life, available: set<JobId>, sequence: seq<JobSpec>, spec: JobSpec, l': Life)
      requires Registered(start, l, available, sequence) && Lifecycle.RegisterJob(l, spec) == (l', None)
      requires forall d :: d in spec.dependencies ==> d in available
      ensures Registered(start, l', available + {spec.id}, sequence + [spec])
    {
      hide Lifecycle.RegisterJob, DependenciesFirst, RegisterSeq;
      FirstExtends(start, sequence, spec);
      RegisteredMore(start, sequence, spec);
      RegisterAdds(l, spec);
      var more := sequence + [spec];
      forall k | 0 <= k < |more| ensures more[k].id in l'.jobs && l'.jobs[more[k].id].spec == more[k] {
        if k < |sequence| {
          assert more[k] == sequence[k] && sequence[k].id in IdsOf(sequence);
        }
      }
    }

    /** A job whose dependencies are available is refused only for a real conflict with the store. */
    static lemma RefusedOne(start: Life, l: Life, available: set<JobId>, sequence: seq<JobSpec>, specs: seq<JobSpec>, spec: JobSpec)
      requires Registered(start, l, available, sequence) && Lifecycle.RegisterJob(l, spec).1.Some?
      requires ValidJob(spec) && forall d :: d in spec.dependencies ==> d in available
      requires IdsUnique(specs) && spec in specs && forall x :: x in sequence ==> x in specs
      ensures Lifecycle.RegisterJob(l, spec).1 != Some(Unfit)
      ensures Clashes(start, spec) || Homeless(start, spec)
    {
      hide ValidJob, DependenciesFirst, RegisterSeq;
      if spec.id in l.jobs && spec.id !in start.jobs {
        var k :| 0 <= k < |sequence| && sequence[k].id == spec.id;
        SameSpec(specs, sequence[k], spec);
      }
    }

    static lemma SameSpec(specs: seq<JobSpec>, x: JobSpec, y: JobSpec)
      requires IdsUnique(specs) && x in specs && y in specs && x.id == y.id
      ensures x == y
    {
      var i :| 0 <= i < |specs| && specs[i] == x;
      var k :| 0 <= k < |specs| && specs[k] == y;
    }

    /** Every spec misses a dependency. */
    static ghost predicate Stalled(specs: seq<JobSpec>, available: set<JobId>) {
      forall i :: 0 <= i < |specs| ==> Misses(specs[i], available)
    }

    static predicate Misses(spec: JobSpec, available: set<JobId>) {
      exists d :: d in spec.dependencies && d !in available
    }

    /** Some job of the batch conflicts with what the store holds. */
    static ghost predicate Conflicts(l: Life, specs: seq<JobSpec>) {
      exists spec :: spec in specs && (Clashes(l, spec) || Homeless(l, spec))
    }

    /** One scan over the remaining specs: registers each whose dependencies are available. */
    method Scan(remaining: seq<JobSpec>, before: set<JobId>, ghost specs: seq<JobSpec>, ghost start: Life, ghost sequence: seq<JobSpec>)
      returns (rest: seq<JobSpec>, available: set<JobId>, fault: Option<Fault>, ghost longer: seq<JobSpec>)
      requires Registered(start, View(), before, sequence) && IdsUnique(specs)
      requires forall x :: x in sequence || x in remaining ==> x in specs && ValidJob(x)
      modifies this
      ensures fault.None? ==> Registered(start, View(), available, longer) && |rest| <= |remaining|
      ensures fault.None? ==> multiset(rest) + multiset(longer) == multiset(remaining) + multiset(sequence)
      ensures fault.None? ==> forall x :: x in longer || x in rest ==> x in specs && ValidJob(x)
      ensures fault.None? && |rest| == |remaining| ==> longer == sequence && Stalled(remaining, before)
      ensures fault.Some? ==> fault != Some(Unfit) && Conflicts(start, specs)
    {
      hide RegisterSeq, DependenciesFirst, Registered, Misses, ValidJob, IdsUnique, Clashes, Homeless;
      rest, available, fault, longer := [], before, None, sequence;
      var i := 0;
      while i < |remaining|
        invariant 0 <= i <= |remaining| && fault.None? && |rest| <= i && Registered(start, View(), available, longer)
        invariant multiset(rest) + multiset(longer) == multiset(remaining[..i]) + multiset(sequence)
        invariant forall x :: x in longer || x in rest ==> x in specs && ValidJob(x)
        invariant |rest| == i ==> longer == sequence && available == before && Stalled(remaining[..i], before)
      {
        var spec := remaining[i];
        assert remaining[..i + 1] == remaining[..i] + [spec];
        Counted(rest, longer, remaining[..i], sequence, spec);
        if Misses(spec, available) {
          rest := rest + [spec];
        } else {
          ghost var l := View();
          NothingMissing(spec, available);
          fault := RegisterJob(spec);
          if fault.Some? {
            RefusedOne(start, l, available, longer, specs, spec);
            return;
          }
          RegistersOne(start, l, available, longer, spec, View());
          longer := longer + [spec];
          available := available + {spec.id};
        }
        i := i + 1;
      }
      assert remaining[..|remaining|] == remaining;
    }

    static lemma Counted(rest: seq<JobSpec>, longer: seq<JobSpec>, done: seq<JobSpec>, sequence: seq<JobSpec>, spec: JobSpec)
      requires multiset(rest) + multiset(longer) == multiset(done) + multiset(sequence)
      ensures multiset(rest + [spec]) + multiset(longer) == multiset(done + [spec]) + multiset(sequence)
      ensures multiset(rest) + multiset(longer + [spec]) == multiset(done + [spec]) + multiset(sequence)
    {
      var one := multiset{spec};
      assert multiset(rest + [spec]) == multiset(rest) + one;
      assert multiset(longer + [spec]) == multiset(longer) + one;
      assert multiset(done + [spec]) == multiset(done) + one;
      assert multiset(rest) + one + multiset(longer) == (multiset(rest) + multiset(longer)) + one;
      assert multiset(rest) + (multiset(longer) + one) == (multiset(rest) + multiset(longer)) + one;
      assert multiset(done) + one + multiset(sequence) == (multiset(done) + multiset(sequence)) + one;
    }

    static lemma NothingMissing(spec: JobSpec, available: set<JobId>)
      requires !Misses(spec, available)
      ensures forall d :: d in spec.dependencies ==> d in available
    {
    }

    static lemma RegisteredMore(l: Life, sequence: seq<JobSpec>, spec: JobSpec)
      requires RegisterSeq(l, sequence).1.None?
      ensures RegisterSeq(l, sequence + [spec]) == Lifecycle.RegisterJob(RegisterSeq(l, sequence).0, spec)
      ensures IdsOf(sequence + [spec]) == IdsOf(sequence) + {spec.id}
    {
      assert (sequence + [spec])[..|sequence|] == sequence;
      hide Lifecycle.RegisterJob;
      var more := sequence + [spec];
      forall id | id in IdsOf(sequence) ensures id in IdsOf(more) {
        var i :| 0 <= i < |sequence| && sequence[i].id == id;
        assert more[i].id == id;
      }
      assert more[|sequence|].id == spec.id;
    }

    /** While specs of an acyclic batch remain, one of them has all its dependencies available:
        the scan cannot stall. */
    static lemma SomeAvailable(specs: seq<JobSpec>, l: Life, remaining: seq<JobSpec>, sequence: seq<JobSpec>)
      requires IdsUnique(specs) && Acyclic(JobGraph(specs, IdsOf(specs))) && remaining != []
      requires forall i :: 0 <= i < |specs| ==> Resolves(l, specs, specs[i])
      requires multiset(remaining) + multiset(sequence) == multiset(specs)
      ensures !Stalled(remaining, l.jobs.Keys + IdsOf(sequence))
    {
      var ids := IdsOf(specs);
      var g := JobGraph(specs, ids);
      JobGraphKeys(specs, ids);
      forall spec | spec in remaining || spec in sequence ensures spec in specs {
        assert multiset(specs)[spec] > 0;
      }
      assert remaining[0].id in IdsOf(remaining);
      forall id | id in IdsOf(remaining) ensures id in ids {
        var i :| 0 <= i < |remaining| && remaining[i].id == id;
        assert remaining[i] in specs;
        var k :| 0 <= k < |specs| && specs[k] == remaining[i];
        assert specs[k].id == id;
      }
      var key := AcyclicHasMinimal(g, IdsOf(remaining));
      var i :| 0 <= i < |remaining| && remaining[i].id == key;
      assert remaining[i] in specs;
      var k :| 0 <= k < |specs| && specs[k] == remaining[i];
      JobGraphOf(specs, ids, k);
      assert Misses(remaining[i], l.jobs.Keys + IdsOf(sequence)) || !Stalled(remaining, l.jobs.Keys + IdsOf(sequence));
      forall d | d in remaining[i].dependencies ensures d in l.jobs.Keys + IdsOf(sequence) {
        if d in ids {
          assert d in g[key];
          var x :| 0 <= x < |specs| && specs[x].id == d;
          assert multiset(specs)[specs[x]] > 0;
          assert specs[x] in remaining || specs[x] in sequence;
          NotRemaining(remaining, specs[x], g[key]);
          var y :| 0 <= y < |sequence| && sequence[y] == specs[x];
          assert sequence[y].id == d;
        }
      }
    }

    static lemma NotRemaining(remaining: seq<JobSpec>, spec: JobSpec, edges: set<JobId>)
      requires edges * IdsOf(remaining) == {} && spec.id in edges
      ensures spec !in remaining
    {
      forall i | 0 <= i < |remaining| ensures remaining[i] != spec {
        assert remaining[i].id !in edges * IdsOf(remaining);
      }
    }

    /** The checks of a batch before anything is registered. */
    method CheckBatch(specs: seq<JobSpec>) returns (ok: bool)
      ensures ok == Shaped(View(), specs)
    {
      hide ValidJob, Acyclic;
      var unique := BatchUnique(specs);
      if specs == [] || !unique {
        return false;
      }
      var graph := BuildGraph(specs);
      var search := new CycleSearch(graph);
      var acyclic := search.Check();
      return acyclic && forall i :: 0 <= i < |specs| ==> ValidJob(specs[i]) && Resolves(View(), specs, specs[i]);
    }

    /** Registers a batch in one transaction: either nothing changes, or every job of the batch is
        registered once, after all its dependencies.  The batch is unfit exactly when it is not in order
        in itself; an orderly one is refused only for a conflict with what the store holds, so once the
        graph check has passed the scan never ends in its cycle branch. */
    method RegisterWorkflow(specs: seq<JobSpec>) returns (fault: Option<Fault>, ghost sequence: seq<JobSpec>)
      modifies this
      ensures fault.Some? ==> View() == old(View())
      ensures fault.None? ==> View() == RegisterSeq(old(View()), sequence).0 && RegisterSeq(old(View()), sequence).1.None?
      ensures fault.None? ==> multiset(sequence) == multiset(specs) && DependenciesFirst(old(View()), sequence)
      ensures fault == Some(Unfit) <==> !Shaped(old(View()), specs)
      ensures Shaped(old(View()), specs) && !Conflicts(old(View()), specs) ==> fault.None?
      ensures fault.None? ==> forall spec :: spec in specs ==> spec.id in jobs && jobs[spec.id].spec == spec && !Clashes(old(View()), spec)
    {
      hide ValidJob, Acyclic, RegisterSeq, DependenciesFirst;
      sequence := [];
      var shaped := CheckBatch(specs);
      if !shaped {
        return Some(Unfit), [];
      }
      var saved := View();
      var remaining, available := specs, jobs.Keys;
      fault := None;
      StartsRegistered(saved);
      while remaining != []
        invariant fault.None? && Registered(saved, View(), available, sequence)
        invariant multiset(remaining) + multiset(sequence) == multiset(specs)
        invariant forall x :: x in sequence || x in remaining ==> x in specs && ValidJob(x)
        decreases |remaining|
      {
        var rest, more;
        ghost var longer;
        rest, more, fault, longer := Scan(remaining, available, specs, saved, sequence);
        if fault.Some? {
          Restore(saved);
          return;
        }
        if |rest| == |remaining| {
          SomeAvailable(specs, saved, remaining, sequence);
          assert false;
        }
        remaining, available, sequence := rest, more, longer;
      }
      AllRegistered(saved, View(), available, sequence, specs);
    }

    static lemma StartsRegistered(l: Life)
      ensures Registered(l, l, l.jobs.Keys, [])
    {
    }

    static lemma AllRegistered(start: Life, l: Life, available: set<JobId>, sequence: seq<JobSpec>, specs: seq<JobSpec>)
      requires Registered(start, l, available, sequence) && multiset(sequence) == multiset(specs)
      ensures forall spec :: spec in specs ==> spec.id in l.jobs && l.jobs[spec.id].spec == spec && !Clashes(start, spec)
    {
      hide RegisterSeq, DependenciesFirst;
      forall spec | spec in specs ensures spec.id in l.jobs && l.jobs[spec.id].spec == spec && !Clashes(start, spec) {
        assert multiset(specs)[spec] > 0;
        var k :| 0 <= k < |sequence| && sequence[k] == spec;
        assert spec.id in IdsOf(sequence);
      }
    }

    // ---------------------------------------------------------------- readiness

    /** How a part of a transaction reports the result that its specification gives. */
    static predicate Reports(result: Result, l: Life, fault: Option<Fault>) {
      if result.Success? then fault.None? && l == result.life else fault == Some(result.fault)
    }

    method RecordTransfers(c: JobId, dependencies: seq<JobId>) returns (fault: Option<Fault>)
      requires forall d :: d in dependencies ==> Supplied(View(), d)
      modifies this`transfers
      ensures Reports(Lifecycle.RecordTransfers(old(View()), c, dependencies), View(), fault)
    {
      ghost var before := View();
      var i := 0;
      while i < |dependencies|
        invariant 0 <= i <= |dependencies| && jobs == before.jobs
        invariant Lifecycle.RecordTransfers(before, c, dependencies[..i]) == Success(View())
      {
        assert dependencies[..i + 1][..i] == dependencies[..i];
        var d := dependencies[i];
        assert Supplied(before, d);
        var handover := Handover(d, jobs[d].session.value, jobs[d].result);
        if (d, c) in transfers {
          if transfers[(d, c)] != handover {
            Conflicting(before, c, dependencies, i);
            return Some(Clash);
          }
        } else {
          transfers := transfers[(d, c) := handover];
        }
        i := i + 1;
      }
      assert dependencies[..|dependencies|] == dependencies;
      return None;
    }

    /** One conflicting handover refuses the rest. */
    static lemma {:induction false} Conflicting(l: Life, c: JobId, dependencies: seq<JobId>, i: nat)
      requires i < |dependencies| && forall d :: d in dependencies ==> Supplied(l, d)
      requires Lifecycle.RecordTransfers(l, c, dependencies[..i + 1]).Failure?
      ensures Lifecycle.RecordTransfers(l, c, dependencies) == Lifecycle.RecordTransfers(l, c, dependencies[..i + 1])
    {
      var n := |dependencies| - 1;
      if i < n {
        assert dependencies[..n][..i + 1] == dependencies[..i + 1];
        assert forall d :: d in dependencies[..n] ==> d in dependencies;
        Conflicting(l, c, dependencies[..n], i);
      } else {
        assert dependencies[..i + 1] == dependencies;
      }
    }

    /** A child keeps its session, continues its only dependency's, or gets a branch of the first one's. */
    method ChooseSession(c: JobId, consumers: nat) returns (s: Option<SessionId>)
      requires c in jobs && (jobs[c].session.None? ==> jobs[c].spec.dependencies != [])
      requires forall d :: d in jobs[c].spec.dependencies ==> Supplied(View(), d) && jobs[d].session.value in sessions
      modifies this
      ensures var choice := Lifecycle.ChooseSession(old(View()), c, consumers);
              if choice.Some? then View() == choice.value.0 && s == Some(choice.value.1) else View() == old(View()) && s.None?
    {
      var job := jobs[c];
      if job.session.Some? {
        return job.session;
      }
      assert Supplied(View(), job.spec.dependencies[0]);
      var first := jobs[job.spec.dependencies[0]].session.value;
      if |job.spec.dependencies| == 1 && consumers == 1 {
        return Some(first);
      }
      s := Branch(first, c);
    }

    method PrepareChild(source: JobId, c: JobId, consumers: nat) returns (fault: Option<Fault>)
      modifies this
      ensures Reports(Lifecycle.PrepareChild(old(View()), source, c, consumers), View(), fault)
    {
      if !Preparable(View(), source, c) || !SessionsExist(View()) {
        return None;
      }
      var dependencies := jobs[c].spec.dependencies;
      assert forall d :: d in dependencies ==> Supplied(View(), d) && jobs[d].session.value in sessions;
      hide SessionsExist, Lifecycle.ChooseSession;
      ChoiceFrame(View(), c, consumers);
      var session := ChooseSession(c, consumers);
      if session.None? {
        return Some(Unfit);
      }
      jobs := jobs[c := jobs[c].(session := session, state := JobReady)];
      fault := RecordTransfers(c, dependencies);
    }

    static lemma ChoiceFrame(l: Life, c: JobId, consumers: nat)
      requires c in l.jobs && (l.jobs[c].session.None? ==> l.jobs[c].spec.dependencies != [])
      requires forall d :: d in l.jobs[c].spec.dependencies ==> Supplied(l, d) && l.jobs[d].session.value in l.sessions
      ensures var choice := Lifecycle.ChooseSession(l, c, consumers); choice.Some? ==> choice.value.0.jobs == l.jobs
    {
      if l.jobs[c].session.None? {
        assert Supplied(l, l.jobs[c].spec.dependencies[0]);
      }
    }

    method PrepareDependents(source: JobId) returns (fault: Option<Fault>)
      modifies this
      ensures Reports(Lifecycle.PrepareDependents(old(View()), source), View(), fault)
    {
      hide Lifecycle.PrepareChild;
      if !Supplied(View(), source) {
        return None;
      }
      ghost var before := View();
      var consumers := Consumers(View(), source);
      var children := order;
      var i := 0;
      while i < |children|
        invariant 0 <= i <= |children| && PrepareAll(before, source, children[..i], consumers) == Success(View())
      {
        assert children[..i + 1][..i] == children[..i];
        fault := PrepareChild(source, children[i], consumers);
        if fault.Some? {
          PrepareStops(before, source, children, consumers, i);
          return;
        }
        i := i + 1;
      }
      assert children[..|children|] == children;
      return None;
    }

    static lemma {:induction false} PrepareStops(l: Life, source: JobId, children: seq<JobId>, consumers: nat, i: nat)
      requires i < |children| && PrepareAll(l, source, children[..i + 1], consumers).Failure?
      ensures PrepareAll(l, source, children, consumers) == PrepareAll(l, source, children[..i + 1], consumers)
    {
      hide Lifecycle.PrepareChild;
      var n := |children| - 1;
      if i < n {
        assert children[..n][..i + 1] == children[..i + 1];
        PrepareStops(l, source, children[..n], consumers, i);
      } else {
        assert children[..i + 1] == children;
      }
    }

    /** Settles the dependents of every succeeded job; one that cannot be settled undoes them all. */
    method ReadyJobs() returns (fault: Option<Fault>)
      modifies this
      ensures (View(), fault) == Lifecycle.ReadyJobs(old(View()))
    {
      hide Lifecycle.PrepareDependents, SucceededJobs;
      var saved := View();
      var sources := Ascending(SucceededJobs(View()));
      var i := 0;
      while i < |sources|
        invariant 0 <= i <= |sources| && ReadyAll(saved, sources[..i]) == Success(View())
      {
        assert sources[..i + 1][..i] == sources[..i];
        fault := PrepareDependents(sources[i]);
        if fault.Some? {
          ReadyStops(saved, sources, i);
          Restore(saved);
          return;
        }
        i := i + 1;
      }
      assert sources[..|sources|] == sources;
      return None;
    }

    static lemma {:induction false} ReadyStops(l: Life, sources: seq<JobId>, i: nat)
      requires i < |sources| && ReadyAll(l, sources[..i + 1]).Failure?
      ensures ReadyAll(l, sources) == ReadyAll(l, sources[..i + 1])
    {
      hide Lifecycle.PrepareDependents;
      var n := |sources| - 1;
      if i < n {
        assert sources[..n][..i + 1] == sources[..i + 1];
        ReadyStops(l, sources[..n], i);
      } else {
        assert sources[..i + 1] == sources;
      }
    }

    // ------------------------------------------------------------------ warm-up

    method ClaimWarmup(s: SessionId) returns (w: WarmerId, fault: Option<Fault>)
      modifies this
      ensures (View(), fault) == Lifecycle.ClaimWarmup(old(View()), s) && w == old(nextId)
    {
      w := nextId;
      if s !in sessions {
        return w, Some(Missing);
      }
      var row := sessions[s];
      if row.state.SessionReady? && BothSucceeded(row) {
        warmers := warmers[w := Warmer(s, [], false)];
        nextId := nextId + 1;
        return w, None;
      }
      if row.state.Recovering? || row.state.Warming? || row.state.InUse? || row.state.Completed? || row.state.SessionFailed? {
        return w, Some(Busy);
      }
      sessions := sessions[s := row.(state := Warming, warmupStep := Some(Compact))];
      warmers := warmers[w := Warmer(s, MissingSteps(row), false)];
      nextId := nextId + 1;
      return w, None;
    }

    method BeginStep(w: WarmerId)
      modifies this
      ensures View() == Lifecycle.BeginStep(old(View()), w)
    {
      if !CanBegin(View(), w) {
        return;
      }
      var warmer := warmers[w];
      if StatusOf(sessions[warmer.session], warmer.steps[0]).StepSucceeded? {
        warmers := warmers[w := warmer.(steps := warmer.steps[1..])];
      } else {
        sessions := sessions[warmer.session := WithStatus(sessions[warmer.session], warmer.steps[0], StepRunning)];
        warmers := warmers[w := warmer.(executing := true)];
      }
    }

    method EndStep(w: WarmerId, outcome: StepOutcome)
      modifies this
      ensures View() == Lifecycle.EndStep(old(View()), w, outcome)
    {
      if w !in warmers || warmers[w].session !in sessions || warmers[w].steps == [] || !warmers[w].executing {
        return;
      }
      var warmer := warmers[w];
      var row := sessions[warmer.session];
      match outcome
      case ConfirmedFailure =>
        sessions, warmers := sessions[warmer.session := row.(state := SessionFailed)], warmers - {w};
      case Uncertain =>
        sessions, warmers := sessions[warmer.session := row.(state := Recovering)], warmers - {w};
      case Finished =>
        sessions := sessions[warmer.session := WithStatus(row, warmer.steps[0], StepSucceeded)];
        warmers := warmers[w := Warmer(warmer.session, warmer.steps[1..], false)];
    }

    method FinishWarmer(w: WarmerId) returns (ok: bool)
      modifies this
      ensures View() == Lifecycle.FinishWarmer(old(View()), w)
      ensures ok <==> CanFinish(old(View()), w) && BothSucceeded(old(sessions)[old(warmers)[w].session])
    {
      if !CanFinish(View(), w) {
        return false;
      }
      var s := warmers[w].session;
      warmers := warmers - {w};
      if !BothSucceeded(sessions[s]) {
        return false;
      }
      sessions := sessions[s := sessions[s].(state := SessionReady, warmupStep := None)];
      return true;
    }

    /** The deadline passed before the next command of warm-up `w`. */
    method ExpireWarmer(w: WarmerId)
      modifies this
      ensures View() == Lifecycle.ExpireWarmer(old(View()), w)
    {
      if CanBegin(View(), w) {
        var s := warmers[w].session;
        sessions, warmers := sessions[s := sessions[s].(state := SessionFailed)], warmers - {w};
      }
    }

    /** What becomes of a command: the deadline passes before it is sent, or it is sent and ends. */
    static function Answer(c: WarmupCommand, compact: Turn, rpaInit: Turn): Turn {
      if c.Compact? then compact else rpaInit
    }

    /** The commands that are sent: up to the first that does not finish. */
    static function SentOf(steps: seq<WarmupCommand>, compact: Turn, rpaInit: Turn): seq<WarmupCommand> {
      if steps == [] || Answer(steps[0], compact, rpaInit).TooLate? then []
      else if Answer(steps[0], compact, rpaInit) == Sent(Finished) then [steps[0]] + SentOf(steps[1..], compact, rpaInit)
      else [steps[0]]
    }

    static predicate AllFinish(steps: seq<WarmupCommand>, compact: Turn, rpaInit: Turn) {
      forall c :: c in steps ==> Answer(c, compact, rpaInit) == Sent(Finished)
    }

    /** The state in which a warm-up that stops at `turn` leaves its session. */
    static function StoppedState(turn: Turn): SessionState {
      if turn == Sent(StepOutcome.Uncertain) then Recovering else SessionFailed
    }

    /** Takes the next command of warm-up `w`: sends it if there is time, and records how it ended. */
    method TakeTurn(w: WarmerId, turn: Turn) returns (sent: seq<WarmupCommand>)
      requires LifeInv(View()) && w in warmers && warmers[w].steps != [] && !warmers[w].executing
      modifies this
      ensures LifeInv(View())
      ensures sent == if turn.TooLate? then [] else [old(warmers)[w].steps[0]]
      ensures old(warmers)[w].session in sessions
      ensures turn == Sent(Finished) ==>
        w in warmers && warmers[w] == Warmer(old(warmers)[w].session, old(warmers)[w].steps[1..], false)
      ensures turn != Sent(Finished) ==> sessions[old(warmers)[w].session].state == StoppedState(turn)
    {
      hide LifeInv, LifeAdvances, WithStatus;
      ghost var idle := View();
      WarmerAt(idle, w);
      if turn.TooLate? {
        ExpireKeeps(idle, w);
        ExpireWarmer(w);
        return [];
      }
      sent := [warmers[w].steps[0]];
      BeginSound(idle.sessions[idle.warmers[w].session], idle.warmers[w]);
      BeginKeeps(idle, w);
      BeginStep(w);
      EndKeeps(View(), w, turn.outcome);
      EndStep(w, turn.outcome);
    }

    static lemma OneTurn(left: seq<WarmupCommand>, compact: Turn, rpaInit: Turn)
      requires left != []
      ensures var turn := Answer(left[0], compact, rpaInit);
              && turn in {compact, rpaInit}
              && SentOf(left, compact, rpaInit)
                 == (if turn.TooLate? then [] else [left[0]]) + (if turn == Sent(Finished) then SentOf(left[1..], compact, rpaInit) else [])
              && (AllFinish(left, compact, rpaInit) <==> turn == Sent(Finished) && AllFinish(left[1..], compact, rpaInit))
    {
      assert left == [left[0]] + left[1..];
    }

    static lemma NoTurn(compact: Turn, rpaInit: Turn)
      ensures SentOf([], compact, rpaInit) == [] && AllFinish([], compact, rpaInit)
    {
    }

    /** Takes the turns of warm-up `w` one after another, up to the first that stops it. */
    method TakeTurns(w: WarmerId, compact: Turn, rpaInit: Turn) returns (executed: seq<WarmupCommand>, stop: Turn)
      requires LifeInv(View()) && w in warmers && !warmers[w].executing
      modifies this
      ensures LifeInv(View()) && old(warmers)[w].session in sessions
      ensures executed == SentOf(old(warmers)[w].steps, compact, rpaInit)
      ensures stop == Sent(Finished) <==> AllFinish(old(warmers)[w].steps, compact, rpaInit)
      ensures if stop == Sent(Finished) then w in warmers && warmers[w] == Warmer(old(warmers)[w].session, [], false)
              else stop in {compact, rpaInit} && sessions[old(warmers)[w].session].state == StoppedState(stop)
    {
      hide LifeInv, LifeAdvances, StoppedState, SentOf, AllFinish, Answer;
      ghost var s, steps := warmers[w].session, warmers[w].steps;
      executed, stop := [], Sent(Finished);
      while warmers[w].steps != []
        invariant LifeInv(View()) && w in warmers && warmers[w].session == s && !warmers[w].executing
        invariant executed + SentOf(warmers[w].steps, compact, rpaInit) == SentOf(steps, compact, rpaInit)
        invariant AllFinish(warmers[w].steps, compact, rpaInit) <==> AllFinish(steps, compact, rpaInit)
        decreases |warmers[w].steps|
      {
        var left := warmers[w].steps;
        OneTurn(left, compact, rpaInit);
        var turn := Answer(left[0], compact, rpaInit);
        var sent := TakeTurn(w, turn);
        executed := executed + sent;
        if turn != Sent(Finished) {
          stop := turn;
          return;
        }
      }
      NoTurn(compact, rpaInit);
      WarmerAt(View(), w);
    }

    /** A whole warm-up without interruption: sends the missing commands in order, stops at the first that
        does not finish or comes too late, and succeeds exactly when all of them finish in time. */
    method WarmSession(s: SessionId, compact: Turn, rpaInit: Turn) returns (executed: seq<WarmupCommand>, ok: bool, stop: Turn)
      requires LifeInv(View())
      modifies this
      ensures LifeInv(View())
      ensures Lifecycle.ClaimWarmup(old(View()), s).1.Some? ==> !ok && executed == [] && View() == old(View())
      ensures Lifecycle.ClaimWarmup(old(View()), s).1.None? ==>
        && s in old(sessions) && s in sessions
        && var steps := MissingSteps(old(sessions)[s]);
           executed == SentOf(steps, compact, rpaInit) && (ok <==> AllFinish(steps, compact, rpaInit))
      ensures ok ==> s in sessions && sessions[s].state.SessionReady? && BothSucceeded(sessions[s])
      ensures Lifecycle.ClaimWarmup(old(View()), s).1.None? && !ok ==>
        stop in {compact, rpaInit} && stop != Sent(Finished) && sessions[s].state == StoppedState(stop)
    {
      hide LifeInv, LifeAdvances, Lifecycle.ClaimWarmup, MissingSteps, SentOf, AllFinish, StoppedState;
      executed, stop := [], Sent(Finished);
      ghost var before := View();
      var w, fault := ClaimWarmup(s);
      ClaimKeeps(before, s);
      if fault.Some? {
        ClaimRefused(before, s);
        return executed, false, stop;
      }
      ClaimedWarmer(before, s);
      executed, stop := TakeTurns(w, compact, rpaInit);
      if stop != Sent(Finished) {
        return executed, false, stop;
      }
      WarmerAt(View(), w);
      FinishKeeps(View(), w);
      ok := FinishWarmer(w);
    }

    static lemma ClaimRefused(l: Life, s: SessionId)
      requires Lifecycle.ClaimWarmup(l, s).1.Some?
      ensures Lifecycle.ClaimWarmup(l, s).0 == l
    {
    }

    static lemma ClaimedWarmer(l: Life, s: SessionId)
      requires LifeInv(l) && Lifecycle.ClaimWarmup(l, s).1.None?
      ensures s in l.sessions
      ensures var l1 := Lifecycle.ClaimWarmup(l, s).0; l.nextId in l1.warmers && l1.warmers[l.nextId] == Warmer(s, MissingSteps(l.sessions[s]), false)
    {
      hide LifeInv;
    }

    method RetryWarmup(s: SessionId, confirmed: bool) returns (fault: Option<Fault>)
      modifies this
      ensures (View(), fault) == Lifecycle.RetryWarmup(old(View()), s, confirmed)
    {
      if s !in sessions {
        return Some(Missing);
      }
      var row := sessions[s];
      if (row.state.Recovering? && !confirmed) || (!row.state.SessionFailed? && !row.state.Recovering?) || row.warmupStep.None? {
        return Some(Busy);
      }
      sessions := sessions[s := WithStatus(row, row.warmupStep.value, StepPending).(state := New)];
      return None;
    }

    // --------------------------------------------------------------------- runs

    method StartJob(j: JobId) returns (fault: Option<Fault>)
      modifies this
      ensures (View(), fault) == Lifecycle.StartJob(old(View()), j)
    {
      if j !in jobs {
        return Some(Missing);
      }
      if !jobs[j].state.JobReady? || jobs[j].session.None? {
        return Some(Busy);
      }
      var s := jobs[j].session.value;
      if s !in sessions {
        return Some(Missing);
      }
      var row := sessions[s];
      if !BothSucceeded(row) || row.state.New? || row.state.Warming? || row.state.Recovering? || Active(View(), s) {
        return Some(Busy);
      }
      hide Active, BothSucceeded;
      var r, attempt := nextId, jobs[j].attempts + 1;
      nextId := nextId + 1;
      runs := runs[r := NativeRun(j, s, attempt, RunRunning)];
      jobs := jobs[j := jobs[j].(state := JobRunning, attempts := attempt, activeRun := Some(r))];
      sessions := sessions[s := row.(state := InUse, activeJob := Some(j))];
      return None;
    }

    method CompleteRun(r: RunId, state: RunState, result: Option<Label>) returns (fault: Option<Fault>)
      modifies this
      ensures (View(), fault) == Lifecycle.CompleteRun(old(View()), r, state, result)
    {
      hide Lifecycle.PrepareDependents;
      if state.RunRunning? || state.RunUnknown? {
        return Some(Unfit);
      }
      if r !in runs {
        return Some(Missing);
      }
      var run := runs[r];
      if !run.state.RunRunning? {
        return None;
      }
      if run.job !in jobs || run.session !in sessions {
        return Some(Missing);
      }
      var saved := View();
      runs := runs[r := run.(state := state)];
      jobs := jobs[run.job := jobs[run.job].(state := JobStateOf(state), activeRun := None, result := result)];
      sessions := sessions[run.session := sessions[run.session].(state := if state.RunSucceeded? then Completed else SessionFailed, activeJob := None)];
      assert View() == ClosedRun(saved, r, state, result);
      if state.RunSucceeded? {
        fault := PrepareDependents(run.job);
        if fault.Some? {
          Restore(saved);
          return;
        }
      }
      return None;
    }

    method RetryJob(j: JobId) returns (fault: Option<Fault>)
      modifies this
      ensures (View(), fault) == Lifecycle.RetryJob(old(View()), j)
    {
      if j !in jobs {
        return Some(Missing);
      }
      if !jobs[j].state.JobFailed? || !jobs[j].spec.replaySafe {
        return Some(Busy);
      }
      if jobs[j].session.None? || jobs[j].session.value !in sessions {
        return Some(Missing);
      }
      if sessions[jobs[j].session.value].state.Recovering? {
        return Some(Busy);
      }
      jobs := jobs[j := jobs[j].(state := JobReady)];
      return None;
    }

    // ----------------------------------------------------------------- recovery

    static predicate RunsJob(l: Life, done: set<RunId>, j: JobId) {
      exists r :: r in done && r in l.runs && l.runs[r].job == j
    }

    static predicate RunsSession(l: Life, done: set<RunId>, s: SessionId) {
      exists r :: r in done && r in l.runs && l.runs[r].session == s
    }

    static function LostRun(run: NativeRun): NativeRun {
      run.(state := RunUnknown)
    }

    static function LostJob(job: Job): Job {
      job.(state := NeedsOperator, activeRun := None)
    }

    static function LostSession(s: Session): Session {
      s.(state := Recovering, activeJob := None)
    }

    /** The tables after the runs `done` were handed to the operator. */
    static ghost predicate RunsLost(l: Life, l1: Life, done: set<RunId>) {
      && l1.runs == (map r | r in l.runs :: if r in done then LostRun(l.runs[r]) else l.runs[r])
      && l1.jobs == (map j | j in l.jobs :: if RunsJob(l, done, j) then LostJob(l.jobs[j]) else l.jobs[j])
      && l1.sessions == (map s | s in l.sessions :: if RunsSession(l, done, s) then LostSession(l.sessions[s]) else l.sessions[s])
      && l1 == l.(runs := l1.runs, jobs := l1.jobs, sessions := l1.sessions)
    }

    static lemma NoneLost(l: Life)
      ensures RunsLost(l, l, {})
    {
    }

    static lemma RunsMore(l: Life, done: set<RunId>, r: RunId)
      requires r in l.runs
      ensures forall j :: RunsJob(l, done + {r}, j) <==> RunsJob(l, done, j) || j == l.runs[r].job
      ensures forall s :: RunsSession(l, done + {r}, s) <==> RunsSession(l, done, s) || s == l.runs[r].session
    {
      assert r in done + {r};
    }

    static lemma OneMoreLost(l: Life, l1: Life, l2: Life, done: set<RunId>, r: RunId)
      requires RunsLost(l, l1, done) && r in l.runs && r !in done && l.runs[r].job in l.jobs && l.runs[r].session in l.sessions
      requires l2 == l1.(runs := l1.runs[r := LostRun(l1.runs[r])], jobs := l1.jobs[l.runs[r].job := LostJob(l1.jobs[l.runs[r].job])],
                         sessions := l1.sessions[l.runs[r].session := LostSession(l1.sessions[l.runs[r].session])])
      ensures RunsLost(l, l2, done + {r})
    {
      RunsMore(l, done, r);
      hide RunsJob, RunsSession;
    }

    static lemma AllLost(l: Life, l1: Life, running: set<RunId>)
      requires RunsLost(l, l1, running) && running == set r | r in l.runs && l.runs[r].state.RunRunning?
      ensures l1.runs == Lifecycle.Recover(l).runs && l1.jobs == Lifecycle.Recover(l).jobs
      ensures l1.sessions == map s | s in l.sessions :: if Active(l, s) then LostSession(l.sessions[s]) else l.sessions[s]
    {
      forall j ensures RunsJob(l, running, j) == Interrupted(l, j) {
        if Interrupted(l, j) {
          var r :| r in l.runs && l.runs[r].job == j && l.runs[r].state.RunRunning?;
          assert r in running;
        }
      }
      forall s ensures RunsSession(l, running, s) == Active(l, s) {
        if Active(l, s) {
          var r :| r in l.runs && InUseBy(l, s, r);
          assert r in running;
        }
        if RunsSession(l, running, s) {
          var r :| r in running && r in l.runs && l.runs[r].session == s;
          assert InUseBy(l, s, r);
        }
      }
      hide RunsJob, RunsSession, Interrupted, Active;
    }

    static lemma WarmupsLost(l: Life, x: map<SessionId, Session>, y: map<SessionId, Session>, lost: set<SessionId>)
      requires x == map s | s in l.sessions :: if Active(l, s) then LostSession(l.sessions[s]) else l.sessions[s]
      requires lost == set s | s in x && LostStep(x[s])
      requires y == map s | s in x :: if s in lost then x[s].(state := Recovering) else x[s]
      ensures y == Lifecycle.Recover(l).sessions
    {
      hide Active, Interrupted;
    }

    method LoseRun(r: RunId)
      requires r in runs && runs[r].job in jobs && runs[r].session in sessions
      modifies this`runs, this`jobs, this`sessions
      ensures var run := old(runs)[r];
              && runs == old(runs)[r := LostRun(run)] && jobs == old(jobs)[run.job := LostJob(old(jobs)[run.job])]
              && sessions == old(sessions)[run.session := LostSession(old(sessions)[run.session])]
    {
      var run := runs[r];
      runs := runs[r := run.(state := RunUnknown)];
      jobs := jobs[run.job := jobs[run.job].(state := NeedsOperator, activeRun := None)];
      sessions := sessions[run.session := sessions[run.session].(state := Recovering, activeJob := None)];
    }

    /** Running work goes to the operator. */
    method LoseRuns()
      requires forall r :: r in runs ==> runs[r].job in jobs && runs[r].session in sessions
      modifies this
      ensures View() == old(View()).(runs := runs, jobs := jobs, sessions := sessions)
      ensures runs == Lifecycle.Recover(old(View())).runs && jobs == Lifecycle.Recover(old(View())).jobs
      ensures var l := old(View()); sessions == map s | s in l.sessions :: if Active(l, s) then LostSession(l.sessions[s]) else l.sessions[s]
    {
      hide RunsLost, Lifecycle.Recover, Active, LostJob, LostSession;
      ghost var l := View();
      var running := set r | r in runs && runs[r].state.RunRunning?;
      var todo := running;
      NoneLost(l);
      assert running - todo == {};
      while todo != {}
        invariant todo <= running && RunsLost(l, View(), running - todo) && View() == l.(runs := runs, jobs := jobs, sessions := sessions)
        invariant runs.Keys == l.runs.Keys && jobs.Keys == l.jobs.Keys && sessions.Keys == l.sessions.Keys
        invariant forall r :: r in runs ==> runs[r].job == l.runs[r].job && runs[r].session == l.runs[r].session
      {
        var r :| r in todo;
        ghost var before := View();
        LoseRun(r);
        OneMoreLost(l, before, View(), running - todo, r);
        assert running - (todo - {r}) == running - todo + {r};
        todo := todo - {r};
      }
      assert running - todo == running;
      AllLost(l, View(), running);
    }

    /** A warm-up command that was sent and never answered is uncertain as well. */
    method LoseWarmups()
      modifies this`sessions
      ensures var lost := set s | s in old(sessions) && LostStep(old(sessions)[s]);
              sessions == map s | s in old(sessions) :: if s in lost then old(sessions)[s].(state := Recovering) else old(sessions)[s]
    {
      ghost var before := sessions;
      var lost := set s | s in sessions && LostStep(sessions[s]);
      var left := lost;
      while left != {}
        invariant left <= lost
        invariant sessions == map s | s in before :: if s in lost - left then before[s].(state := Recovering) else before[s]
      {
        var s :| s in left;
        sessions := sessions[s := sessions[s].(state := Recovering)];
        left := left - {s};
      }
    }

    /** After a restart: runs and warm-ups that were under way become uncertain, nothing is replayed. */
    method Recover()
      requires forall r :: r in runs ==> runs[r].job in jobs && runs[r].session in sessions
      modifies this
      ensures View() == Lifecycle.Recover(old(View()))
    {
      hide Lifecycle.Recover, Active, LostStep;
      ghost var l := View();
      LoseRuns();
      ghost var halfway := sessions;
      LoseWarmups();
      WarmupsLost(l, halfway, sessions, set s | s in halfway && LostStep(halfway[s]));
      warmers := map[];
      RecoverShape(l);
    }

    static lemma RecoverShape(l: Life)
      ensures Lifecycle.Recover(l) == l.(runs := Lifecycle.Recover(l).runs, jobs := Lifecycle.Recover(l).jobs,
                                         sessions := Lifecycle.Recover(l).sessions, warmers := map[])
    {
    }
  }
}
