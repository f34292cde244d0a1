/** How many commands the workers can still issue: the queue drains, and a stopped worker leaves. */
module WorkerProgress {
  import opened Wrappers
  import opened WorkerProtocol

  const STEPS_PER_TASK := 14

  function SumLeft(workers: seq<Pc>): nat {
    if workers == [] then 0 else Left(workers[0]) + SumLeft(workers[1..])
  }

  /** Steps still owed to the tasks in the ready list and in the workers' hands. */
  function Debt(s: State): nat { STEPS_PER_TASK * |s.redis.ready| + SumLeft(s.workers) }

  /** A worker that holds no task before the step and takes none in it. */
  predicate Idle(s: State, w: nat, o: Outcome)
    requires w < |s.workers|
  {
    Holds(s.workers[w]).None? && !(s.workers[w].Pop? && o.applied && s.redis.ready != [])
  }

  lemma {:induction false} SumLeftUpdate(workers: seq<Pc>, w: nat, pc: Pc)
    requires w < |workers|
    ensures SumLeft(workers[w := pc]) + Left(workers[w]) == SumLeft(workers) + Left(pc)
  {
    if w > 0 {
      SumLeftUpdate(workers[1..], w - 1, pc);
      assert workers[w := pc][1..] == workers[1..][w - 1 := pc];
    } else {
      assert workers[w := pc][1..] == workers[1..];
    }
  }

  lemma NextLeft(r: Redis, stop: bool, pc: Pc, o: Outcome)
    requires Possible(pc, o)
    ensures Holds(pc).Some? ==> Left(Next(r, stop, pc, o)) < Left(pc)
    ensures pc.Pop? && r.ready != [] && o.applied ==> Left(Next(r, stop, pc, o)) < STEPS_PER_TASK
    ensures Holds(pc).None? && !(pc.Pop? && r.ready != [] && o.applied) ==> Left(Next(r, stop, pc, o)) == 0
  {
  }

  lemma ReadyLength(s: State, w: nat, o: Outcome)
    requires Enabled(s, Work(w, o))
    ensures |Apply(s, Work(w, o)).redis.ready| ==
      |s.redis.ready| - if s.workers[w].Pop? && o.applied && s.redis.ready != [] then 1 else 0
  {
  }

  /** Whatever fails, a step that is not idle lowers the debt and an idle one leaves it as it is. */
  lemma WorkPaysDebt(s: State, w: nat, o: Outcome)
    requires Enabled(s, Work(w, o))
    ensures var t := Apply(s, Work(w, o));
      if Idle(s, w, o) then Debt(t) == Debt(s) else Debt(t) < Debt(s)
  {
    SumLeftUpdate(s.workers, w, Next(s.redis, s.stop, s.workers[w], o));
    NextLeft(s.redis, s.stop, s.workers[w], o);
    ReadyLength(s, w, o);
  }

  function Commands(s: State, es: seq<Event>): nat
    requires CanRun(s, es)
    decreases |es|
  {
    if es == [] then 0 else
    var here := if es[0].Work? && !Idle(s, es[0].worker, es[0].outcome) then 1 else 0;
    here + Commands(Apply(s, es[0]), es[1..])
  }

  function Pushes(es: seq<Event>): nat {
    if es == [] then 0 else (if es[0].Push? then 1 else 0) + Pushes(es[1..])
  }

  /** Every run, under any faults, issues at most fourteen commands per task pushed, beyond what it owed at the start. */
  lemma {:induction false} QueueDrains(s: State, es: seq<Event>)
    requires CanRun(s, es)
    ensures Commands(s, es) + Debt(After(s, es)) <= Debt(s) + STEPS_PER_TASK * Pushes(es)
    decreases |es|
  {
    if es != [] {
      match es[0] {
        case Work(w, o) => WorkPaysDebt(s, w, o);
        case _ => assert Debt(Apply(s, es[0])) == Debt(s) + if es[0].Push? then STEPS_PER_TASK else 0;
      }
      QueueDrains(Apply(s, es[0]), es[1..]);
    }
  }

  /** A paid debt means an empty ready list and no task in anyone's hands. */
  lemma {:induction false} NoDebtNoTask(s: State, w: nat)
    requires Debt(s) == 0 && w < |s.workers|
    ensures s.redis.ready == [] && Holds(s.workers[w]) == None
  {
    SumLeftUpdate(s.workers, w, Dead);
  }

  // ---- after the stop event ----

  /** Steps a worker can still take once the stop event is set. */
  function StepsToExit(pc: Pc): nat {
    if pc.Exited? || pc.Dead? then 0
    else if pc.Check? then 1
    else if pc.Sleep? then 2
    else if pc.Pop? then 15
    else Left(pc) + 1
  }

  function StepsOf(es: seq<Event>, w: nat): nat {
    if es == [] then 0 else (if es[0].Work? && es[0].worker == w then 1 else 0) + StepsOf(es[1..], w)
  }

  /** Tasks worker `w` takes off the ready list along a run. */
  function Taken(s: State, es: seq<Event>, w: nat): nat
    requires CanRun(s, es)
    decreases |es|
  {
    if es == [] then 0 else
    var mine := es[0].Work? && es[0].worker == w;
    var here := if mine && s.workers[w].Pop? && es[0].outcome.applied && s.redis.ready != [] then 1 else 0;
    here + Taken(Apply(s, es[0]), es[1..], w)
  }

  lemma NextAfterStop(r: Redis, pc: Pc, o: Outcome)
    requires Possible(pc, o)
    ensures StepsToExit(Next(r, true, pc, o)) < StepsToExit(pc)
    ensures !Next(r, true, pc, o).Pop?
  {
  }

  /**
   Once stop is set a worker takes at most one more task, and only if it was already waiting
   for one; it makes at most fifteen more steps, and what it has not used up bounds the rest.
   */
  lemma {:induction false} StopEndsWorker(s: State, es: seq<Event>, w: nat)
    requires s.stop && w < |s.workers| && CanRun(s, es)
    ensures var t := After(s, es);
      && t.stop && w < |t.workers|
      && StepsOf(es, w) + StepsToExit(t.workers[w]) <= StepsToExit(s.workers[w])
      && Taken(s, es, w) <= if s.workers[w].Pop? then 1 else 0
    decreases |es|
  {
    if es != [] {
      if es[0].Work? {
        NextAfterStop(s.redis, s.workers[es[0].worker], es[0].outcome);
      }
      StopEndsWorker(Apply(s, es[0]), es[1..], w);
    }
  }

  /** Until it has left, a worker can always take a step; when it cannot, it holds nothing. */
  lemma OnlyLeaversRest(pc: Pc)
    ensures Possible(pc, Outcome(true, Ok, true)) <==> StepsToExit(pc) > 0
    ensures StepsToExit(pc) == 0 ==> Holds(pc).None?
  {
  }

  // ---- a worker keeps serving ----

  /** A worker that has not left leaves only for the stop event or when it is cancelled. */
  lemma LeavesOnlyWhenTold(r: Redis, stop: bool, pc: Pc, o: Outcome)
    requires Possible(pc, o)
    ensures Next(r, stop, pc, o) == Exited ==> o.reply.Cancelled? || (stop && pc.Check?)
    ensures Next(r, stop, pc, o) == Dead ==> o.reply.Crashed?
  {
  }

  /** An answered step. */
  const ANSWERED := Outcome(true, Ok, true)

  predicate AllBy(es: seq<Event>, w: nat) { forall e | e in es :: e == Work(w, ANSWERED) }

  /** Answered steps a worker makes until it takes the next task. */
  function StepsToTake(pc: Pc): nat {
    if pc.Pop? then 0 else if pc.Check? then 1 else if pc.Sleep? then 2 else Left(pc) + 1
  }

  lemma NextTowardsTake(r: Redis, pc: Pc)
    requires !pc.Exited? && !pc.Dead? && !pc.Pop?
    ensures
      var next := Next(r, false, pc, ANSWERED);
      && Possible(pc, ANSWERED) && !next.Exited? && !next.Dead? && StepsToTake(next) < StepsToTake(pc)
      && Perform(r, pc, ANSWERED).ready == r.ready
  {
  }

  /**
   As long as stop is not set, a worker that has not left takes a waiting task after at most
   fourteen answered steps of its own: idle polls, the rest of its task and the pause included.
   */
  lemma {:induction false} TakesWaitingTask(s: State, w: nat) returns (es: seq<Event>)
    requires !s.stop && s.redis.ready != [] && w < |s.workers| && !s.workers[w].Exited? && !s.workers[w].Dead?
    ensures AllBy(es, w) && CanRun(s, es) && |es| <= StepsToTake(s.workers[w]) + 1
    ensures
      var t := After(s, es);
      t.redis.ready == s.redis.ready[1..] && |t.workers| == |s.workers| && t.workers[w] == Load(s.redis.ready[0])
    decreases StepsToTake(s.workers[w])
  {
    var e := Work(w, ANSWERED);
    if s.workers[w].Pop? {
      es := [e];
      assert es[1..] == [];
    } else {
      NextTowardsTake(s.redis, s.workers[w]);
      var rest := TakesWaitingTask(Apply(s, e), w);
      es := [e] + rest;
      assert es[1..] == rest;
    }
  }

  /** The longest wait is that of a worker which has just taken another task. */
  lemma WaitIsBounded(pc: Pc)
    ensures StepsToTake(pc) <= STEPS_PER_TASK
  {
  }

  /**
   Which outcomes a step of a worker that has not left can meet: it may die at any place, be
   cancelled wherever it awaits, and see an exception wherever a command or call can raise.
   */
  lemma FaultsAnywhere(pc: Pc, applied: bool, success: bool)
    requires !pc.Exited? && !pc.Dead?
    ensures Possible(pc, Outcome(applied, Crashed, success))
    ensures Possible(pc, Outcome(applied, Cancelled, success)) <==> !pc.Check?
    ensures Possible(pc, Outcome(applied, Error, success)) <==> !pc.Check? && !pc.Sleep?
    ensures Possible(pc, Outcome(applied, Ok, success)) <==> applied
  {
  }

  /** The stop event is seen by every worker at its next test, and it leaves. */
  lemma StopIsSeen(s: State, w: nat)
    requires w < |s.workers| && s.workers[w].Check?
    ensures var stopped := Apply(s, Stop);
      && Enabled(stopped, Work(w, ANSWERED))
      && Apply(stopped, Work(w, ANSWERED)) == s.(stop := true, workers := s.workers[w := Exited])
  {
  }

  /** A waiting task whose hash has gone is popped and dropped, and the worker polls again. */
  lemma LostHashIsDropped(s: State, w: nat, id: TaskId)
    requires w < |s.workers| && s.workers[w].Pop? && s.redis.ready != [] && s.redis.ready[0] == id
    requires id in s.redis.status && s.redis.status[id] == Queued
    ensures
      var lost := Apply(s, LoseHash(id));
      Enabled(lost, Work(w, ANSWERED)) &&
      var popped := Apply(lost, Work(w, ANSWERED));
      Enabled(popped, Work(w, ANSWERED)) &&
      var end := Apply(popped, Work(w, ANSWERED));
      && end.redis == s.redis.(ready := s.redis.ready[1..], status := s.redis.status - {id})
      && end.workers[w] == Check && end.place == s.place[id := Dropped]
  {
    var lost := Apply(s, LoseHash(id));
    var popped := Apply(lost, Work(w, ANSWERED));
    assert popped.workers[w] == Load(id);
    assert Apply(popped, Work(w, ANSWERED)).place == s.place[id := Held(w)][id := Dropped];
  }
}
