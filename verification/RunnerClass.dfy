/** The supervisor of one attempt: what it counts, when it stops, and the discipline of its reports. */
module RunnerClass {
  import opened Types
  import opened StoreOps
  import opened RunnerOps
  import opened StoreClass

  class Controller {
    const store: Store
    const attempt: AttemptId
    const task: TaskId
    const worker: WorkerId
    const base: nat
    const baseUnknown: bool
    const budget: Budget
    /** When the attempt has to end, on the monotonic clock and on the wall clock. */
    const end: Time
    const deadline: Time
    var sequence: nat
    var tokens: nat
    var usageKnown: bool
    var lastHeartbeat: Time

    /** The controller's memory as the value that its steps are specified on. */
    function Memory(): Runner
      reads this
    {
      Runner(task, worker, sequence, tokens, usageKnown, base, baseUnknown, budget.maxTokens)
    }

    /** The controller between two looks at the store. */
    function Waiting(): Pulse
      reads this, store
    {
      Pulse(store.View(), Memory(), lastHeartbeat, true)
    }

    /** The attempt ends after its own seconds or with the task, whichever comes first. */
    constructor (store: Store, attempt: AttemptId, claimed: Runner, budget: Budget, deadline: Time, now: Moment)
      requires claimed.tokens == 0 && claimed.usageKnown && claimed.ceiling == budget.maxTokens && budget.attemptSeconds > 0.0
      ensures this.store == store && this.attempt == attempt && Memory() == claimed && lastHeartbeat == 0.0
      ensures this.budget == budget && this.deadline == deadline
      ensures end <= now.monotonic + budget.attemptSeconds && (now.monotonic < end <==> now.wall < deadline)
      ensures now.wall < deadline ==> end - now.monotonic <= deadline - now.wall
      ensures end == now.monotonic + budget.attemptSeconds || end == now.monotonic || end == now.monotonic + deadline - now.wall
    {
      this.store, this.attempt, this.budget, this.deadline := store, attempt, budget, deadline;
      task, worker, base, baseUnknown := claimed.task, claimed.worker, claimed.base, claimed.baseUnknown;
      sequence, tokens, usageKnown, lastHeartbeat := claimed.sequence, 0, true, 0.0;
      var left := if deadline - now.wall < 0.0 then 0.0 else deadline - now.wall;
      end := now.monotonic + (if budget.attemptSeconds < left then budget.attemptSeconds else left);
    }

    /** Sends one observation under the next sequence number; false means: stop executing. */
    method Report(state: AttemptState, resultSha: Option<Label>, kind: Option<RunnerKind>, withTotal: bool) returns (accepted: bool)
      modifies this`sequence, store`attempts, store`events
      ensures Memory() == old(Memory()).(sequence := old(sequence) + 1)
      ensures var (db, observed) := StoreOps.Observe(old(store.View()), attempt, worker, sequence, state,
                                                     RunnerReport(Memory(), resultSha, kind, withTotal));
              store.View() == db && accepted == observed.Applied?
    {
      sequence := sequence + 1;
      var total := if !withTotal then None else Some(if usageKnown then Some(tokens) else None);
      var observed := store.Observe(attempt, worker, sequence, state, StoreOps.Report.Report(resultSha, kind, total, Some(tokens)));
      return observed.Applied?;
    }

    /** Reports progress at most once per heartbeat interval. */
    method Heartbeat(now: Time) returns (accepted: bool)
      modifies this`sequence, this`lastHeartbeat, store`attempts, store`events
      ensures now - old(lastHeartbeat) < HEARTBEAT_SECONDS ==>
        accepted && Memory() == old(Memory()) && store.View() == old(store.View()) && lastHeartbeat == old(lastHeartbeat)
      ensures now - old(lastHeartbeat) >= HEARTBEAT_SECONDS ==>
        && Memory() == old(Memory()).(sequence := old(sequence) + 1)
        && var (db, observed) := StoreOps.Observe(old(store.View()), attempt, worker, sequence, AttemptState.Running,
                                                 RunnerReport(Memory(), None, None, true));
           store.View() == db && accepted == observed.Applied? && lastHeartbeat == if accepted then now else old(lastHeartbeat)
    {
      accepted := true;
      if now - lastHeartbeat >= HEARTBEAT_SECONDS {
        accepted := Report(AttemptState.Running, None, None, true);
        if accepted {
          lastHeartbeat := now;
        }
      }
    }

    /** Stops before the next operation when the task is gone, cancelled or out of time. */
    method Checkpoint(now: Moment) returns (stop: Option<Ending>)
      ensures stop == RunnerOps.Checkpoint(store.View(), task, end, deadline, now)
      ensures stop.None? ==> task in store.tasks && !store.tasks[task].desired.Cancel? && now.monotonic < end && now.wall < deadline
    {
      if task !in store.tasks {
        return Some(TaskGone);
      }
      if store.tasks[task].desired.Cancel? {
        return Some(Raised(Stopped));
      }
      return if now.monotonic >= end || now.wall >= deadline then Some(Raised(Permanent)) else None;
    }

    /** Other processes have committed; progress is due or not. */
    method LookUp(now: Moment) returns (alive: bool)
      modifies this`sequence, this`lastHeartbeat, store
      ensures Pulse(store.View(), Memory(), lastHeartbeat, alive) == Beat(old(Waiting()), attempt, now)
      ensures tokens == old(tokens) && usageKnown == old(usageKnown)
    {
      hide StoreOps.Observe;
      store.Load(now.commits(store.View()));
      alive := Heartbeat(now.monotonic);
    }

    /** Waits for the reply: one heartbeat at each moment, until the reply is there or one is not applied. */
    method Await(waits: seq<Moment>) returns (alive: bool)
      modifies this`sequence, this`lastHeartbeat, store
      ensures Pulse(store.View(), Memory(), lastHeartbeat, alive) == Beats(old(Waiting()), attempt, waits)
      ensures tokens == old(tokens) && usageKnown == old(usageKnown)
    {
      hide Beat;
      ghost var before := Waiting();
      alive := true;
      var i := 0;
      while i < |waits|
        invariant 0 <= i <= |waits| && alive && Waiting() == Beats(before, attempt, waits[..i])
        invariant tokens == old(tokens) && usageKnown == old(usageKnown)
      {
        assert waits[..i + 1][..i] == waits[..i];
        alive := LookUp(waits[i]);
        if !alive {
          StopsBeating(before, attempt, waits, i + 1);
          return;
        }
        i := i + 1;
      }
      assert waits[..|waits|] == waits;
    }

    static lemma {:induction false} StopsBeating(p: Pulse, a: AttemptId, moments: seq<Moment>, n: nat)
      requires n <= |moments| && !Beats(p, a, moments[..n]).alive
      ensures Beats(p, a, moments) == Beats(p, a, moments[..n])
    {
      hide Beat;
      if n < |moments| {
        assert moments[..|moments| - 1][..n] == moments[..n];
        StopsBeating(p, a, moments[..|moments| - 1], n);
      } else {
        assert moments[..n] == moments;
      }
    }

    /** The largest output limit that fits the request and the task, and the longest duration that fits the
        request and ends with the attempt, a millisecond at least. */
    predicate Within(limit: int, duration: Time, tokens: nat, start: Moment) {
      && limit <= budget.outputTokens && (budget.maxTokens.Some? ==> base + tokens + limit <= budget.maxTokens.value)
      && (limit == budget.outputTokens || (budget.maxTokens.Some? && base + tokens + limit == budget.maxTokens.value))
      && duration <= budget.requestSeconds && (duration <= 0.001 || start.monotonic + duration <= end)
      && (duration == budget.requestSeconds || duration == 0.001 || start.monotonic + duration == end)
    }

    /** The token budget allows another request, with at most `limit` more tokens in `duration` seconds. */
    method Permit(start: Moment) returns (allowed: bool, limit: int, duration: Time)
      ensures allowed == MayRequest(Memory())
      ensures allowed ==> Within(limit, duration, tokens, start)
    {
      allowed, limit := true, budget.outputTokens;
      if budget.maxTokens.Some? {
        var remaining := budget.maxTokens.value - base - tokens;
        if !usageKnown || baseUnknown || remaining <= 0 {
          return false, 0, 0.0;
        }
        limit := if remaining < limit then remaining else limit;
      }
      duration := if end - start.monotonic < 0.001 then 0.001 else end - start.monotonic;
      duration := if budget.requestSeconds < duration then budget.requestSeconds else duration;
    }

    /** Counts what a reply used; a confirmed refusal used nothing, every other failure may have used anything. */
    method Count(reply: Reply)
      modifies this`tokens, this`usageKnown
      ensures Memory() == AfterResponse(old(Memory()), ResponseOf(reply))
      ensures old(tokens) <= tokens && (usageKnown ==> old(usageKnown))
      ensures Concluded(reply, None) == Raised(Uncertain) ==> !usageKnown
    {
      if reply.Completed? && reply.tokens.Some? {
        tokens := tokens + reply.tokens.value;
      } else if reply != Fault(Transient) {
        usageKnown := false;
      }
    }

    /** Asks the provider once and waits for what becomes of it.  Usage that cannot be counted makes the
        total unknown and so blocks every later request of a bounded task.  A completion is counted even when
        the second check then stops the attempt; `limit` is the output limit the provider is given. */
    method Request(start: Moment, waits: seq<Moment>, reply: Reply, finish: Moment)
      returns (ending: Ending, sent: bool, limit: int, duration: Time)
      modifies this`tokens, this`usageKnown, this`sequence, this`lastHeartbeat, store
      // whether the provider is asked at all
      ensures var check := RunnerOps.Checkpoint(start.commits(old(store.View())), task, end, deadline, start);
              && sent == (check.None? && MayRequest(old(Memory())))
              && (!sent ==> ending == if check.Some? then check.value else Raised(Permanent))
      ensures !sent ==> Memory() == old(Memory()) && store.View() == start.commits(old(store.View()))
      // how long, and for how much
      ensures sent ==> Within(limit, duration, old(tokens), start)
      // what is counted, and how it ends
      ensures sent ==>
        var p := Beats(old(Waiting()).(db := start.commits(old(store.View()))), attempt, waits);
        && sequence == p.runner.sequence && lastHeartbeat == p.lastBeat
        && (!p.alive ==> ending == Unobserved && Memory() == p.runner && store.View() == p.db)
        && (p.alive ==>
             && Memory() == AfterResponse(p.runner, ResponseOf(reply))
             && store.View() == (if reply.Completed? then finish.commits(p.db) else p.db)
             && ending == Concluded(reply, RunnerOps.Checkpoint(store.View(), task, end, deadline, finish)))
      // what follows for the caller
      ensures ending == Answered ==> task in store.tasks && !store.tasks[task].desired.Cancel? && finish.monotonic < end && finish.wall < deadline
      ensures ending == Raised(Uncertain) ==> !usageKnown
      ensures old(tokens) <= tokens && (usageKnown ==> old(usageKnown))
    {
      hide Beats, Beat, AfterResponse, MayRequest, ResponseOf;
      sent, limit, duration := false, 0, 0.0;
      store.Load(start.commits(store.View()));
      var stop := Checkpoint(start);
      if stop.Some? {
        return stop.value, sent, limit, duration;
      }
      sent, limit, duration := Permit(start);
      if !sent {
        return Raised(Permanent), sent, limit, duration;
      }
      ghost var asked := Waiting();
      var alive := Await(waits);
      BeatsSpaced(asked, attempt, waits);
      if !alive {
        return Unobserved, sent, limit, duration;
      }
      Count(reply);
      if reply.Completed? {
        store.Load(finish.commits(store.View()));
        stop := Checkpoint(finish);
      }
      return Concluded(reply, stop), sent, limit, duration;
    }
  }
}
