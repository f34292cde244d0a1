/**
 `process_task` as the source writes it, with its two nested handlers, over a Redis object
 updated command by command; proved to be exactly the program counter of the protocol.
 */
module ProcessTask {
  import opened Wrappers
  import opened WorkerProtocol

  /** What each step of one call meets; a step is reached at most once. */
  datatype Script = Script(
    load: Outcome, markStatus: Outcome, markSet: Outcome, prepare: Outcome, analyse: Outcome, recover: Outcome,
    saveStatus: Outcome, leaveSet: Outcome, joinSet: Outcome,
    failStatus: Outcome, failLeave: Outcome, failJoin: Outcome, failPublish: Outcome)

  predicate Answers(o: Outcome) { o.reply.Ok? ==> o.applied }

  /** Answered commands took effect. */
  predicate Playable(c: Script) {
    && Answers(c.load) && Answers(c.markStatus) && Answers(c.markSet) && Answers(c.prepare) && Answers(c.analyse)
    && Answers(c.recover) && Answers(c.saveStatus) && Answers(c.leaveSet) && Answers(c.joinSet)
    && Answers(c.failStatus) && Answers(c.failLeave) && Answers(c.failJoin) && Answers(c.failPublish)
  }

  function At(c: Script, pc: Pc): Outcome
    requires Holds(pc).Some?
  {
    match pc
    case Load(_) => c.load
    case MarkStatus(_) => c.markStatus
    case MarkSet(_) => c.markSet
    case Prepare(_) => c.prepare
    case Analyse(_) => c.analyse
    case Recover(_) => c.recover
    case SaveStatus(_, _) => c.saveStatus
    case LeaveSet(_, _) => c.leaveSet
    case JoinSet(_, _) => c.joinSet
    case FailStatus(_, _) => c.failStatus
    case FailLeave(_, _) => c.failLeave
    case FailJoin(_) => c.failJoin
    case FailPublish(_) => c.failPublish
  }

  /** The protocol's worker, left alone with the shared data until it lets go of its task. */
  function Exec(r: Redis, pc: Pc, c: Script): (Redis, Pc)
    decreases Left(pc)
  {
    if Holds(pc).None? then (r, pc)
    else Exec(Perform(r, pc, At(c, pc)), Next(r, false, pc, At(c, pc)), c)
  }

  /** One step of `Exec`; a worker that lets go stays where the step left it. */
  lemma ExecOnce(r: Redis, pc: Pc, c: Script)
    requires Holds(pc).Some?
    ensures var r', next := Perform(r, pc, At(c, pc)), Next(r, false, pc, At(c, pc));
      Exec(r, pc, c) == if Holds(next).None? then (r', next) else Exec(r', next, c)
  {
  }

  /** How a call ends: it returns, an exception reaches the caller, it is cancelled, or the process dies. */
  datatype Ending = Returned | Raised | WasCancelled | Died

  function Resume(e: Ending): Pc {
    match e
    case Returned => Check
    case Raised => Sleep
    case WasCancelled => Exited
    case Died => Dead
  }

  /** One turn of the loop: what the others do to the data before it, the stop event, and what the worker's steps meet. */
  datatype Turn = Turn(others: Redis -> Redis, stop: bool, pop: Outcome, call: Script, sleep: Outcome)

  /** The program counter of the protocol from the test of the stop event to the next one, or to its end. */
  function OneTurn(before: Redis, t: Turn): (Redis, Pc) {
    var r := t.others(before);
    var polling := Next(r, t.stop, Check, Outcome(true, Ok, true));
    if !polling.Pop? then (r, polling)
    else
      var (after, pc) := Exec(Perform(r, polling, t.pop), Next(r, t.stop, polling, t.pop), t.call);
      if pc.Sleep? then (after, Next(after, t.stop, pc, t.sleep)) else (after, pc)
  }

  function Loop(r: Redis, turns: seq<Turn>): (Redis, Pc)
    decreases |turns|
  {
    if turns == [] then (r, Check)
    else
      var (after, pc) := OneTurn(r, turns[0]);
      if pc == Check then Loop(after, turns[1..]) else (after, pc)
  }

  lemma LoopStep(r: Redis, turns: seq<Turn>)
    requires turns != []
    ensures Loop(r, turns) ==
      var (after, pc) := OneTurn(r, turns[0]);
      if pc == Check then Loop(after, turns[1..]) else (after, pc)
  {
  }

  lemma TurnAfterPop(found: Redis, t: Turn, after: Redis, end: Ending)
    requires !t.stop && Answers(t.pop)
    requires if !t.pop.reply.Ok? then end == Escape(t.pop.reply) && after == Perform(found, Pop, t.pop)
      else found.ready != [] && (after, Resume(end)) == Exec(Perform(found, Pop, t.pop), Load(found.ready[0]), t.call)
    ensures forall before | t.others(before) == found ::
      OneTurn(before, t) == if end.Raised? then (after, Next(after, false, Sleep, t.sleep)) else (after, Resume(end))
  {
  }

  lemma NothingToRun(found: Redis, t: Turn)
    requires !t.stop && Answers(t.pop) && t.pop.reply.Ok? && found.ready == []
    ensures forall before | t.others(before) == found :: OneTurn(before, t) == (found, Check)
  {
  }

  /** The outcomes a step on a held task can meet are those of the scripts: any that keeps what was answered. */
  lemma PossibleIffAnswers(pc: Pc, o: Outcome)
    requires Holds(pc).Some?
    ensures Possible(pc, o) <==> Answers(o)
  {
  }

  /** The Redis server the worker talks to: every command may change its data before it answers or fails. */
  class RedisClient {
    var data: Redis

    method HSetStatus(id: TaskId, value: Status, o: Outcome) returns (reply: Reply)
      modifies this
      ensures reply == o.reply
      ensures data == if o.applied then old(data).(status := old(data).status[id := value]) else old(data)
    {
      if o.applied { data := data.(status := data.status[id := value]); }
      reply := o.reply;
    }

    method SAddProcessing(id: TaskId, o: Outcome) returns (reply: Reply)
      modifies this
      ensures reply == o.reply
      ensures data == if o.applied then old(data).(processing := old(data).processing + {id}) else old(data)
    {
      if o.applied { data := data.(processing := data.processing + {id}); }
      reply := o.reply;
    }

    method SRemProcessing(id: TaskId, o: Outcome) returns (reply: Reply)
      modifies this
      ensures reply == o.reply
      ensures data == if o.applied then old(data).(processing := old(data).processing - {id}) else old(data)
    {
      if o.applied { data := data.(processing := data.processing - {id}); }
      reply := o.reply;
    }

    method SAddCompleted(id: TaskId, o: Outcome) returns (reply: Reply)
      modifies this
      ensures reply == o.reply
      ensures data == if o.applied then old(data).(completed := old(data).completed + {id}) else old(data)
    {
      if o.applied { data := data.(completed := data.completed + {id}); }
      reply := o.reply;
    }

    method SAddFailed(id: TaskId, o: Outcome) returns (reply: Reply)
      modifies this
      ensures reply == o.reply
      ensures data == if o.applied then old(data).(failed := old(data).failed + {id}) else old(data)
    {
      if o.applied { data := data.(failed := data.failed + {id}); }
      reply := o.reply;
    }

    /** The last two steps of the outer handler; publish_progress swallows every exception. */
    method JoinFailed(id: TaskId, c: Script) returns (end: Ending)
      modifies this
      ensures (data, Resume(end)) == Exec(old(data), FailJoin(id), c)
    {
      ExecOnce(data, FailJoin(id), c);
      var reply := SAddFailed(id, c.failJoin);
      if !reply.Ok? { return Escape(reply); }
      ExecOnce(data, FailPublish(id), c);
      end := if c.failPublish.reply.Error? then Returned else Escape(c.failPublish.reply);
    }

    /** The outer handler; what it raises reaches the caller. */
    method OuterHandler(id: TaskId, cleared: bool, c: Script) returns (end: Ending)
      modifies this
      ensures (data, Resume(end)) == Exec(old(data), FailStatus(id, cleared), c)
    {
      ExecOnce(data, FailStatus(id, cleared), c);
      var reply := HSetStatus(id, Failed, c.failStatus);
      if !reply.Ok? { return Escape(reply); }
      ExecOnce(data, FailLeave(id, cleared), c);
      reply := SRemProcessing(id, c.failLeave);
      if !reply.Ok? { return Escape(reply); }
      end := JoinFailed(id, c);
    }

    /** Leave the processing set and join a terminal set. */
    method LeaveAndJoin(id: TaskId, ok: bool, c: Script) returns (end: Ending)
      modifies this
      ensures (data, Resume(end)) == Exec(old(data), LeaveSet(id, ok), c)
    {
      ExecOnce(data, LeaveSet(id, ok), c);
      var reply := SRemProcessing(id, c.leaveSet);
      if reply.Error? {
        end := OuterHandler(id, c.leaveSet.applied, c);
      } else if !reply.Ok? {
        end := Escape(reply);
      } else {
        ExecOnce(data, JoinSet(id, ok), c);
        if ok { reply := SAddCompleted(id, c.joinSet); } else { reply := SAddFailed(id, c.joinSet); }
        if reply.Error? { end := OuterHandler(id, true, c); } else { end := Escape(reply); }
      }
    }

    /** The end of the outer try: store the result, then settle the sets. */
    method Settle(id: TaskId, ok: bool, c: Script) returns (end: Ending)
      modifies this
      ensures (data, Resume(end)) == Exec(old(data), SaveStatus(id, ok), c)
    {
      ExecOnce(data, SaveStatus(id, ok), c);
      var reply := HSetStatus(id, Final(ok), c.saveStatus);
      if reply.Error? {
        end := OuterHandler(id, false, c);
      } else if !reply.Ok? {
        end := Escape(reply);
      } else {
        end := LeaveAndJoin(id, ok, c);
      }
    }

    /** The outer try from the parameters on; the inner try runs the analysis. */
    method RunAndSettle(id: TaskId, c: Script) returns (end: Ending)
      modifies this
      ensures (data, Resume(end)) == Exec(old(data), Prepare(id), c)
    {
      ExecOnce(data, Prepare(id), c);
      ExecOnce(data, Analyse(id), c);
      ExecOnce(data, Recover(id), c);
      if c.prepare.reply.Error? {
        end := OuterHandler(id, false, c);
      } else if !c.prepare.reply.Ok? {
        end := Escape(c.prepare.reply);
      } else if c.analyse.reply.Ok? {
        end := Settle(id, c.analyse.success, c);
      } else if !c.analyse.reply.Error? {
        end := Escape(c.analyse.reply);
      } else if c.recover.reply.Ok? {
        end := Settle(id, false, c);
      } else if c.recover.reply.Error? {
        end := OuterHandler(id, false, c);
      } else {
        end := Escape(c.recover.reply);
      }
    }

    method ProcessTask(id: TaskId, c: Script) returns (end: Ending)
      modifies this
      ensures (data, Resume(end)) == Exec(old(data), Load(id), c)
    {
      ExecOnce(data, Load(id), c);
      if !c.load.reply.Ok? { return Escape(c.load.reply); }
      if id !in data.status { return Returned; }
      ExecOnce(data, MarkStatus(id), c);
      var reply := HSetStatus(id, Processing, c.markStatus);
      if !reply.Ok? { return Escape(reply); }
      ExecOnce(data, MarkSet(id), c);
      reply := SAddProcessing(id, c.markSet);
      if !reply.Ok? { return Escape(reply); }
      end := RunAndSettle(id, c);
    }

    /** BLPOP with a timeout: the first id, or nothing when the list stays empty. */
    method BlPop(o: Outcome) returns (item: Option<TaskId>, reply: Reply)
      modifies this
      ensures reply == o.reply
      ensures item == if old(data).ready == [] then None else Some(old(data).ready[0])
      ensures data == if o.applied && old(data).ready != [] then old(data).(ready := old(data).ready[1..]) else old(data)
    {
      item, reply := None, o.reply;
      if data.ready != [] {
        item := Some(data.ready[0]);
        if o.applied { data := data.(ready := data.ready[1..]); }
      }
    }

    /** The body of the loop: poll, process, and pause after an exception. */
    method TakeTurn(t: Turn) returns (pc: Pc)
      requires Answers(t.pop) && !t.sleep.reply.Error?
      modifies this
      ensures (data, pc) == OneTurn(old(data), t)
    {
      hide Exec;
      data := t.others(data);
      if t.stop { return Exited; }
      ghost var found := data;
      var item, reply := BlPop(t.pop);
      var end := Escape(reply);
      if reply.Ok? {
        if item == None {
          NothingToRun(found, t);
          return Check;
        }
        end := ProcessTask(item.value, t.call);
      }
      TurnAfterPop(found, t, data, end);
      pc := if end.Raised? then Resume(Escape(t.sleep.reply)) else Resume(end);
    }

    /** `worker_loop`: turn after turn until the stop event, a cancellation or a crash. */
    method WorkerLoop(turns: seq<Turn>) returns (pc: Pc)
      requires forall t | t in turns :: Answers(t.pop) && !t.sleep.reply.Error?
      modifies this
      ensures (data, pc) == Loop(old(data), turns)
    {
      hide OneTurn;
      ghost var start := data;
      pc := Check;
      for i := 0 to |turns|
        invariant pc == Check && Loop(start, turns) == Loop(data, turns[i..])
      {
        assert turns[i] in turns && turns[i..][0] == turns[i] && turns[i..][1..] == turns[i + 1..];
        LoopStep(data, turns[i..]);
        pc := TakeTurn(turns[i]);
        if !pc.Check? { return; }
      }
    }
  }

  function Escape(reply: Reply): Ending {
    match reply
    case Ok => Returned
    case Error => Raised
    case Cancelled => WasCancelled
    case Crashed => Died
  }

  /** The call got as far as the analysis, which said `ok` on the way to the sets. */
  predicate AnalysedAs(ok: bool, c: Script) {
    && c.load.reply.Ok? && c.markStatus.reply.Ok? && c.markSet.reply.Ok? && c.prepare.reply.Ok?
    && (ok == (c.analyse.reply.Ok? && c.analyse.success))
  }

  /**
   The one fault that spoils a call: everything went well up to the last SADD, to the completed
   set, which took effect although the worker saw it fail.
   */
  predicate Tears(c: Script) {
    && AnalysedAs(true, c) && c.saveStatus.reply.Ok? && c.leaveSet.reply.Ok?
    && c.joinSet.applied && c.joinSet.reply.Error?
  }

  /** What is known of the task at `pc`, and of the call so far, when it started in neither terminal set. */
  predicate OnTheWay(r: Redis, pc: Pc, c: Script)
    requires Holds(pc).Some?
  {
    var id := pc.id;
    var neither := id !in r.completed && id !in r.failed;
    match pc
    case Load(_) => neither && id in r.status
    case MarkStatus(_) => neither && c.load.reply.Ok?
    case MarkSet(_) => neither && c.load.reply.Ok? && c.markStatus.reply.Ok?
    case Prepare(_) => neither && c.load.reply.Ok? && c.markStatus.reply.Ok? && c.markSet.reply.Ok?
    case Analyse(_) => neither && AnalysedAs(c.analyse.reply.Ok? && c.analyse.success, c)
    case Recover(_) => neither && AnalysedAs(false, c)
    case SaveStatus(_, ok) => neither && AnalysedAs(ok, c)
    case LeaveSet(_, ok) => neither && AnalysedAs(ok, c) && c.saveStatus.reply.Ok? && id in r.status && r.status[id] == Final(ok)
    case JoinSet(_, ok) =>
      neither && AnalysedAs(ok, c) && c.saveStatus.reply.Ok? && c.leaveSet.reply.Ok?
      && id in r.status && r.status[id] == Final(ok) && id !in r.processing
    case FailStatus(_, _) => id in r.completed <==> Tears(c)
    case FailLeave(_, _) => (id in r.completed <==> Tears(c)) && id in r.status && r.status[id] == Failed
    case FailJoin(_) =>
      (id in r.completed <==> Tears(c)) && id in r.status && r.status[id] == Failed && id !in r.processing
    case FailPublish(_) =>
      (id in r.completed <==> Tears(c)) && id in r.status && r.status[id] == Failed
      && id !in r.processing && id in r.failed
  }

  predicate Done(r: Redis, id: TaskId, c: Script) {
    && id !in r.processing && id in r.status
    && (id in r.completed || id in r.failed)
    && (id in r.failed ==> r.status[id] == Failed)
    && (id in r.completed && id !in r.failed ==> r.status[id] == Completed)
    && (id in r.completed && id in r.failed <==> Tears(c))
  }

  lemma StepOnTheWay(r: Redis, pc: Pc, c: Script)
    requires Playable(c) && Holds(pc).Some? && OnTheWay(r, pc, c)
    ensures var o := At(c, pc);
      var r', next := Perform(r, pc, o), Next(r, false, pc, o);
      if Holds(next).Some? then next.id == pc.id && OnTheWay(r', next, c)
      else next == Check ==> Done(r', pc.id, c)
  {
  }

  lemma {:induction false} ReturnsSettled(r: Redis, pc: Pc, c: Script)
    requires Playable(c) && Holds(pc).Some? && OnTheWay(r, pc, c)
    ensures Exec(r, pc, c).1 == Check ==> Done(Exec(r, pc, c).0, pc.id, c)
    decreases Left(pc)
  {
    hide OnTheWay, Done, Perform;
    StepOnTheWay(r, pc, c);
    var next := Next(r, false, pc, At(c, pc));
    if Holds(next).Some? { ReturnsSettled(Perform(r, pc, At(c, pc)), next, c); }
  }

  /**
   Whenever `process_task` returns normally for a task that exists and is in no terminal set, the
   task has left processing and joined a terminal set. It is in exactly one, the one its stored
   status names, unless the reply to the last SADD of a successful task was lost, and then it is
   in both.
   */
  lemma ReturnMeansSettled(r: Redis, id: TaskId, c: Script)
    requires Playable(c) && id in r.status && id !in r.completed && id !in r.failed
    requires Exec(r, Load(id), c).1 == Check
    ensures var t := Exec(r, Load(id), c).0;
      && id !in t.processing && id in t.status && (id in t.completed || id in t.failed)
      && ((id in t.completed <==> id !in t.failed) <==> !Tears(c))
      && (!Tears(c) ==>
            (id in t.completed <==> t.status[id] == Completed) && (id in t.failed <==> t.status[id] == Failed))
      && (Tears(c) ==> t.status[id] == Failed)
  {
    hide Exec;
    ReturnsSettled(r, Load(id), c);
  }
}
