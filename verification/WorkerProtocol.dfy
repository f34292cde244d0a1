/**
 Any number of queue workers over one shared Redis, one Redis command per step.

 A worker is a program counter over the lines of `worker_loop` and `process_task`.
 Every command may be answered, may raise, or may be cut short by a cancellation or a
 crash; in each of the last three cases it may or may not have taken effect, so a reply
 lost on the network is one of the faults.
 */
module WorkerProtocol {
  import opened Wrappers

  type TaskId = string

  datatype Status = Queued | Processing | Completed | Failed

  /** A missing hash ranks with a queued one: the worker has not touched the task. */
  function Rank(status: Option<Status>): nat {
    match status
    case None => 0
    case Some(Queued) => 0
    case Some(Processing) => 1
    case Some(Completed) => 2
    case Some(Failed) => 3
  }

  /** The keys of `qa:*` the worker reads and writes; a task hash is reduced to its status field. */
  datatype Redis = Redis(
    ready: seq<TaskId>,
    status: map<TaskId, Status>,
    processing: set<TaskId>,
    completed: set<TaskId>,
    failed: set<TaskId>)

  /**
   Where a worker is. `cleared` in the outer handler records what the handler cannot see:
   whether the task had already left the processing set when the exception was raised.
   */
  datatype Pc =
    | Check                                // test of the stop event
    | Pop                                  // BLPOP of the ready list
    | Load(id: TaskId)                     // HGETALL of the task
    | MarkStatus(id: TaskId)               // HSET status = processing
    | MarkSet(id: TaskId)                  // SADD processing
    | Prepare(id: TaskId)                  // parameters, provider key, first progress message
    | Analyse(id: TaskId)                  // body of the inner try
    | Recover(id: TaskId)                  // inner handler
    | SaveStatus(id: TaskId, ok: bool)     // HSET status = completed or failed, with the result
    | LeaveSet(id: TaskId, ok: bool)       // SREM processing
    | JoinSet(id: TaskId, ok: bool)        // SADD completed or failed
    | FailStatus(id: TaskId, cleared: bool)// outer handler: HSET status = failed
    | FailLeave(id: TaskId, cleared: bool) // outer handler: SREM processing
    | FailJoin(id: TaskId)                 // outer handler: SADD failed
    | FailPublish(id: TaskId)              // outer handler: progress message
    | Sleep                                // one second after an exception reached the loop
    | Exited                               // left the loop
    | Dead                                 // the process is gone

  datatype Reply = Ok | Error | Cancelled | Crashed

  /** What happens to one step: did it take effect, how did it end, and what did the analysis say. */
  datatype Outcome = Outcome(applied: bool, reply: Reply, success: bool)

  function Final(ok: bool): Status { if ok then Completed else Failed }

  /** The task a worker is responsible for. */
  function Holds(pc: Pc): Option<TaskId> {
    if pc.Check? || pc.Pop? || pc.Sleep? || pc.Exited? || pc.Dead? then None else Some(pc.id)
  }

  /** Steps with no await point cannot raise; an answered command took effect; a stopped worker does nothing. */
  predicate Possible(pc: Pc, o: Outcome) {
    && !pc.Exited? && !pc.Dead?
    && (o.reply.Ok? ==> o.applied)
    && (pc.Check? ==> o.reply.Ok? || o.reply.Crashed?)
    && (pc.Sleep? ==> !o.reply.Error?)
  }

  /** The effect of the command at `pc` on the shared data. */
  function Effect(r: Redis, pc: Pc): Redis {
    match pc
    case Pop => if r.ready == [] then r else r.(ready := r.ready[1..])
    case MarkStatus(id) => r.(status := r.status[id := Processing])
    case MarkSet(id) => r.(processing := r.processing + {id})
    case SaveStatus(id, ok) => r.(status := r.status[id := Final(ok)])
    case LeaveSet(id, _) => r.(processing := r.processing - {id})
    case JoinSet(id, ok) =>
      if ok then r.(completed := r.completed + {id}) else r.(failed := r.failed + {id})
    case FailStatus(id, _) => r.(status := r.status[id := Failed])
    case FailLeave(id, _) => r.(processing := r.processing - {id})
    case FailJoin(id) => r.(failed := r.failed + {id})
    case _ => r
  }

  function Perform(r: Redis, pc: Pc, o: Outcome): Redis {
    if o.applied then Effect(r, pc) else r
  }

  /** Control flow after an answered step; `r` is the shared data the step found. */
  function OnOk(r: Redis, stop: bool, pc: Pc, success: bool): Pc {
    match pc
    case Check => if stop then Exited else Pop
    case Pop => if r.ready == [] then Check else Load(r.ready[0])
    case Load(id) => if id in r.status then MarkStatus(id) else Check
    case MarkStatus(id) => MarkSet(id)
    case MarkSet(id) => Prepare(id)
    case Prepare(id) => Analyse(id)
    case Analyse(id) => SaveStatus(id, success)
    case Recover(id) => SaveStatus(id, false)
    case SaveStatus(id, ok) => LeaveSet(id, ok)
    case LeaveSet(id, ok) => JoinSet(id, ok)
    case JoinSet(_, _) => Check
    case FailStatus(id, cleared) => FailLeave(id, cleared)
    case FailLeave(id, _) => FailJoin(id)
    case FailJoin(id) => FailPublish(id)
    case FailPublish(_) => Check
    case Sleep => Check
    case Exited => Exited
    case Dead => Dead
  }

  /** Control flow after an exception: inner handler, outer handler, or the handler of the loop. */
  function OnError(pc: Pc, applied: bool): Pc {
    match pc
    case Prepare(id) => FailStatus(id, false)
    case Analyse(id) => Recover(id)
    case Recover(id) => FailStatus(id, false)
    case SaveStatus(id, _) => FailStatus(id, false)
    case LeaveSet(id, _) => FailStatus(id, applied)
    case JoinSet(id, _) => FailStatus(id, true)
    case FailPublish(_) => Check
    case _ => Sleep
  }

  function Next(r: Redis, stop: bool, pc: Pc, o: Outcome): Pc {
    match o.reply
    case Ok => OnOk(r, stop, pc, o.success)
    case Error => OnError(pc, o.applied)
    case Cancelled => Exited
    case Crashed => Dead
  }

  /** The longest way from a program point to the end of `process_task`, through both handlers. */
  function Left(pc: Pc): nat {
    match pc
    case Load(_) => 13
    case MarkStatus(_) => 12
    case MarkSet(_) => 11
    case Prepare(_) => 10
    case Analyse(_) => 9
    case Recover(_) => 8
    case SaveStatus(_, _) => 7
    case LeaveSet(_, _) => 6
    case JoinSet(_, _) => 5
    case FailStatus(_, _) => 4
    case FailLeave(_, _) => 3
    case FailJoin(_) => 2
    case FailPublish(_) => 1
    case _ => 0
  }

  /**
   History of one task: where it is. `Ready` carries the position of its LPUSH among all
   pushes; `Abandoned` says whether the id was left behind in the processing set.
   */
  datatype Place =
    | Admitted            // passed the concurrency check of enqueue_task
    | Saved               // its hash is written
    | Ready(stamp: nat)   // in the ready list
    | Held(worker: nat)   // in the hands of one worker
    | Finished            // process_task returned after joining a terminal set
    | Dropped             // popped, but its hash was missing
    | Abandoned(leaked: bool) // released by an error, a cancellation or a crash

  /**
   The whole system. `place`, `torn` and `pushes` are history: `torn` holds the tasks whose
   SADD to the completed set took effect although the worker saw it fail.
   */
  datatype State = State(
    redis: Redis,
    stop: bool,
    workers: seq<Pc>,
    place: map<TaskId, Place>,
    torn: set<TaskId>,
    pushes: nat)

  /** The limit on the processing set, unless the settings give another one. */
  const GLOBAL_CONCURRENT_LIMIT := 3

  datatype Event =
    | Admit(id: TaskId, limit: int)     // enqueue_task: SCARD processing below the limit in force, fresh uuid
    | Save(id: TaskId)                  // enqueue_task: HSET
    | Push(id: TaskId)                  // enqueue_task: LPUSH
    | LoseHash(id: TaskId)              // the hash of an untouched task disappears
    | Stop                              // the signal handler sets the stop event
    | Work(worker: nat, outcome: Outcome)

  predicate Enabled(s: State, e: Event) {
    match e
    case Admit(id, limit) => id !in s.place && |s.redis.processing| < limit
    case Save(id) => id in s.place && s.place[id] == Admitted
    case Push(id) => id in s.place && s.place[id] == Saved
    case LoseHash(id) => id in s.redis.status && s.redis.status[id] == Queued
    case Stop => true
    case Work(w, o) => w < |s.workers| && Possible(s.workers[w], o)
  }

  /** What a worker's step does to the history of the task it holds or pops. */
  function Released(pc: Pc, o: Outcome, leaked: bool): Place {
    if pc.FailPublish? then Finished
    else if o.reply.Ok? then (if pc.Load? then Dropped else Finished)
    else Abandoned(leaked)
  }

  function Track(s: State, w: nat, o: Outcome): map<TaskId, Place>
    requires w < |s.workers|
  {
    var pc := s.workers[w];
    var next := Next(s.redis, s.stop, pc, o);
    if pc.Pop? && o.applied && s.redis.ready != [] then
      s.place[s.redis.ready[0] := if next.Load? then Held(w) else Abandoned(false)]
    else if Holds(pc).Some? && Holds(next).None? then
      s.place[pc.id := Released(pc, o, pc.id in Perform(s.redis, pc, o).processing)]
    else s.place
  }

  function Apply(s: State, e: Event): State
    requires Enabled(s, e)
  {
    match e
    case Admit(id, _) => s.(place := s.place[id := Admitted])
    case Save(id) =>
      s.(redis := s.redis.(status := s.redis.status[id := Queued]), place := s.place[id := Saved])
    case Push(id) =>
      s.(redis := s.redis.(ready := [id] + s.redis.ready), place := s.place[id := Ready(s.pushes)],
         pushes := s.pushes + 1)
    case LoseHash(id) => s.(redis := s.redis.(status := s.redis.status - {id}))
    case Stop => s.(stop := true)
    case Work(w, o) =>
      var pc := s.workers[w];
      s.(redis := Perform(s.redis, pc, o),
         workers := s.workers[w := Next(s.redis, s.stop, pc, o)],
         place := Track(s, w, o),
         torn := if pc.JoinSet? && pc.ok && o.applied && o.reply.Error? then s.torn + {pc.id} else s.torn)
  }

  /** `workers` workers about to start, over an empty Redis. */
  function Init(workers: nat): State {
    State(Redis([], map[], {}, {}, {}), false, seq(workers, _ => Check), map[], {}, 0)
  }

  predicate CanRun(s: State, es: seq<Event>)
    decreases |es|
  {
    es == [] || (Enabled(s, es[0]) && CanRun(Apply(s, es[0]), es[1..]))
  }

  function After(s: State, es: seq<Event>): State
    requires CanRun(s, es)
    decreases |es|
  {
    if es == [] then s else After(Apply(s, es[0]), es[1..])
  }
}
