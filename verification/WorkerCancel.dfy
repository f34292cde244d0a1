/**
 Cancelling through the queue service, interleaved with workers and producer. A cancellation
 reads the status, removes the task from where that status says it is, and overwrites the status,
 in separate commands; any number of them may be under way, for tasks in any state.
 */
module WorkerCancel {
  import opened Wrappers
  import opened WorkerProtocol
  import opened WorkerSafety
  import opened WorkerTheorems
  import opened WorkerWitness

  /** What a cancellation under way still has to remove, as the status it read told it. */
  datatype Remains = FromProcessing | FromReady | Nothing

  datatype Canceller = Canceller(id: TaskId, remains: Remains)

  /**
   The protocol's state, the tasks whose stored status is now `cancelled`, and the cancellations
   under way. For a cancelled task `run.redis.status` keeps the status that was overwritten.
   */
  datatype Board = Board(run: State, cancelled: set<TaskId>, cancelling: multiset<Canceller>)

  datatype Op =
    | Step(e: Event)
    | Look(id: TaskId)         // get_task: a task without a hash is not cancelled
    | Remove(c: Canceller)     // SREM processing, or LREM of the ready list
    | Record(id: TaskId)       // HSET status = cancelled
    | GiveUp(c: Canceller)     // an exception ends the cancellation

  predicate Shows(b: Board, id: TaskId, status: Status) {
    id !in b.cancelled && id in b.run.redis.status && b.run.redis.status[id] == status
  }

  predicate Allowed(b: Board, op: Op) {
    match op
    case Step(e) => Enabled(b.run, e)
    case Look(id) => id in b.run.redis.status
    case Remove(c) => c in b.cancelling && c.remains != Nothing
    case Record(id) => Canceller(id, Nothing) in b.cancelling
    case GiveUp(c) => c in b.cancelling
  }

  /** The task whose hash a step writes or removes. */
  function Writes(s: State, e: Event): set<TaskId>
    requires Enabled(s, e)
  {
    match e
    case Save(id) => {id}
    case LoseHash(id) => {id}
    case Work(w, o) =>
      var pc := s.workers[w];
      if o.applied && (pc.MarkStatus? || pc.SaveStatus? || pc.FailStatus?) then {pc.id} else {}
    case _ => {}
  }

  /** LREM of every occurrence. */
  function Dropping(ready: seq<TaskId>, id: TaskId): seq<TaskId> {
    if ready == [] then []
    else if ready[0] == id then Dropping(ready[1..], id)
    else [ready[0]] + Dropping(ready[1..], id)
  }

  function Unmarked(s: State, id: TaskId): State {
    s.(redis := s.redis.(processing := s.redis.processing - {id}),
       place := if id in s.place && s.place[id].Abandoned? then s.place[id := Abandoned(false)] else s.place)
  }

  function Unqueued(s: State, id: TaskId): State {
    s.(redis := s.redis.(ready := Dropping(s.redis.ready, id)),
       place := if id in s.place && s.place[id].Ready? then s.place[id := Abandoned(false)] else s.place)
  }

  /** The HSET makes a hash again if it has gone in the meantime. */
  function Rehashed(s: State, id: TaskId): State {
    if id in s.redis.status then s else s.(redis := s.redis.(status := s.redis.status[id := Queued]))
  }

  function Do(b: Board, op: Op): Board
    requires Allowed(b, op)
  {
    match op
    case Step(e) => b.(run := Apply(b.run, e), cancelled := b.cancelled - Writes(b.run, e))
    case Look(id) =>
      var remains := if Shows(b, id, Processing) then FromProcessing else if Shows(b, id, Queued) then FromReady else Nothing;
      b.(cancelling := b.cancelling + multiset{Canceller(id, remains)})
    case Remove(c) =>
      b.(run := match c.remains
           case FromProcessing => Unmarked(b.run, c.id)
           case FromReady => Unqueued(b.run, c.id)
           case Nothing => b.run,
         cancelling := b.cancelling - multiset{c} + multiset{Canceller(c.id, Nothing)})
    case Record(id) =>
      Board(Rehashed(b.run, id), b.cancelled + {id}, b.cancelling - multiset{Canceller(id, Nothing)})
    case GiveUp(c) => b.(cancelling := b.cancelling - multiset{c})
  }

  predicate CanDo(b: Board, ops: seq<Op>)
    decreases |ops|
  {
    ops == [] || (Allowed(b, ops[0]) && CanDo(Do(b, ops[0]), ops[1..]))
  }

  function Reached(b: Board, ops: seq<Op>): Board
    requires CanDo(b, ops)
    decreases |ops|
  {
    if ops == [] then b else Reached(Do(b, ops[0]), ops[1..])
  }

  lemma Then(b: Board, op: Op, ops: seq<Op>) returns (all: seq<Op>)
    requires Allowed(b, op) && CanDo(Do(b, op), ops)
    ensures all == [op] + ops && CanDo(b, all) && Reached(b, all) == Reached(Do(b, op), ops)
  {
    hide Allowed, Do;
    all := [op] + ops;
    assert all[1..] == ops;
  }

  lemma NoOps(b: Board)
    ensures CanDo(b, []) && Reached(b, []) == b
  {
  }

  function Steps(es: seq<Event>): seq<Op> { seq(|es|, i requires 0 <= i < |es| => Step(es[i])) }

  /** Without a cancellation the board runs as the protocol does. */
  lemma {:induction false} StepsAreRun(b: Board, es: seq<Event>)
    requires CanRun(b.run, es)
    ensures CanDo(b, Steps(es)) && Reached(b, Steps(es)).run == After(b.run, es)
    ensures Reached(b, Steps(es)).cancelling == b.cancelling
    decreases |es|
  {
    if es != [] {
      assert Steps(es)[1..] == Steps(es[1..]);
      StepsAreRun(Do(b, Step(es[0])), es[1..]);
    }
  }

  /** A worker that writes a status overwrites a cancellation. */
  lemma StatusWriteWins(b: Board, w: nat, o: Outcome)
    requires Enabled(b.run, Work(w, o)) && o.applied && Holds(b.run.workers[w]).Some?
    ensures var pc, after := b.run.workers[w], Do(b, Step(Work(w, o)));
      && (pc.MarkStatus? ==> Shows(after, pc.id, Processing))
      && (pc.SaveStatus? ==> Shows(after, pc.id, if pc.ok then Completed else Failed))
      && (pc.FailStatus? ==> Shows(after, pc.id, Failed))
      && (!pc.MarkStatus? && !pc.SaveStatus? && !pc.FailStatus? ==> after.cancelled == b.cancelled)
  {
  }

  // ---- what cancelling leaves of the invariant ----

  /** What a worker knows of its task when a cancellation may have taken it out of the processing set. */
  predicate HeldLoose(pc: Pc, v: View)
    requires Holds(pc).Some?
  {
    (v.processing ==> Marked(pc)) && HeldOk(pc, v.(processing := Marked(pc)))
  }

  predicate TaskLoose(s: State, id: TaskId)
    requires id in s.place
  {
    var v := ViewOf(s, id);
    && Consistent(v)
    && match s.place[id]
       case Admitted => v.status == None && InNoSet(v)
       case Saved => Untouched(v)
       case Ready(stamp) => Untouched(v) && stamp < s.pushes
       case Held(w) => w < |s.workers| && Holds(s.workers[w]) == Some(id) && HeldLoose(s.workers[w], v)
       case Finished => FinishedOk(v)
       case Dropped => Untouched(v)
       case Abandoned(leaked) => v.processing == leaked
  }

  /** Cancelled tasks and those being cancelled have been saved, and a cancelled one has its hash. */
  ghost predicate CancelsKnown(b: Board) {
    && b.cancelled <= b.run.redis.status.Keys
    && forall c | c in b.cancelling :: c.id in b.run.place && b.run.place[c.id] != Admitted
  }

  ghost predicate LooseInv(b: Board) {
    && (forall id | id in b.run.place :: TaskLoose(b.run, id))
    && ReadyOk(b.run) && HoldersOk(b.run) && KnownOnly(b.run)
    && CancelsKnown(b)
  }

  lemma InvIsLoose(s: State)
    requires Inv(s)
    ensures LooseInv(Board(s, {}, multiset{}))
  {
    forall id | id in s.place ensures TaskLoose(s, id) { assert TaskOk(s, id); }
  }

  /** The step of `HeldStep`, whether or not the task was taken out of the processing set. */
  lemma HeldLooseStep(v: View, r: Redis, stop: bool, pc: Pc, o: Outcome)
    requires Possible(pc, o) && Holds(pc).Some? && Consistent(v) && HeldLoose(pc, v)
    requires v.status.Some? <==> pc.id in r.status
    ensures var v' := Seen(v, pc, o);
      var next := Next(r, stop, pc, o);
      && Consistent(v')
      && (Holds(next).Some? ==> next.id == pc.id && HeldLoose(next, v'))
      && (Holds(next).None? && Released(pc, o, v'.processing) == Finished ==> FinishedOk(v'))
      && (Holds(next).None? && Released(pc, o, v'.processing) == Dropped ==> Untouched(v'))
  {
    HeldStep(v.(processing := Marked(pc)), r, stop, pc, o);
  }

  lemma LooseElsewhere(s: State, w: nat, o: Outcome, id: TaskId)
    requires Enabled(s, Work(w, o)) && id in s.place && TaskLoose(s, id) && Touched(s, w, o) != Some(id)
    ensures id in Track(s, w, o) && TaskLoose(Apply(s, Work(w, o)), id)
  {
    PlaceElsewhere(s, w, o, id);
    ViewElsewhere(s, w, o, id);
  }

  lemma LooseHeld(s: State, w: nat, o: Outcome)
    requires Enabled(s, Work(w, o)) && HoldersOk(s) && Holds(s.workers[w]).Some?
    requires s.workers[w].id in s.place && TaskLoose(s, s.workers[w].id)
    ensures s.workers[w].id in Track(s, w, o) && TaskLoose(Apply(s, Work(w, o)), s.workers[w].id)
  {
    hide HeldLoose;
    var pc := s.workers[w];
    assert s.place[pc.id] == Held(w);
    SeenIsView(s.redis, pc.id in s.torn, pc, o);
    HeldLooseStep(ViewOf(s, pc.id), s.redis, s.stop, pc, o);
  }

  lemma LoosePopped(s: State, w: nat, o: Outcome)
    requires Enabled(s, Work(w, o)) && ReadyOk(s) && s.workers[w].Pop? && o.applied && s.redis.ready != []
    requires s.redis.ready[0] in s.place && TaskLoose(s, s.redis.ready[0])
    ensures s.redis.ready[0] in Track(s, w, o) && TaskLoose(Apply(s, Work(w, o)), s.redis.ready[0])
  {
  }

  lemma WorkKeepsLoose(s: State, w: nat, o: Outcome, id: TaskId)
    requires Enabled(s, Work(w, o)) && ReadyOk(s) && HoldersOk(s) && id in Track(s, w, o)
    requires forall other | other in s.place :: TaskLoose(s, other)
    ensures TaskLoose(Apply(s, Work(w, o)), id)
  {
    hide TaskLoose, ReadyOk;
    TouchedIsKnown(s, w, o);
    if Touched(s, w, o) != Some(id) {
      LooseElsewhere(s, w, o, id);
    } else if s.workers[w].Pop? {
      LoosePopped(s, w, o);
    } else {
      LooseHeld(s, w, o);
    }
  }

  lemma TouchedIsKnown(s: State, w: nat, o: Outcome)
    requires Enabled(s, Work(w, o)) && ReadyOk(s) && HoldersOk(s)
    ensures Touched(s, w, o).Some? ==> Touched(s, w, o).value in s.place
    ensures Track(s, w, o).Keys == s.place.Keys
  {
    if Holds(s.workers[w]).Some? { assert s.place[s.workers[w].id] == Held(w); }
  }

  lemma WorkKeepsKnownIds(s: State, w: nat, o: Outcome)
    requires Enabled(s, Work(w, o)) && ReadyOk(s) && HoldersOk(s) && KnownOnly(s)
    ensures KnownOnly(Apply(s, Work(w, o)))
  {
    hide Track, Next, Perform, ReadyOk, HoldersOk, Touched;
    TouchedIsKnown(s, w, o);
    var t := Apply(s, Work(w, o));
    forall id | ViewOf(t, id) != View(None, false, false, false, false) ensures id in t.place {
      if Touched(s, w, o) != Some(id) { ViewElsewhere(s, w, o, id); }
    }
    KnownByView(t);
  }

  lemma LooseProducer(s: State, e: Event, id: TaskId)
    requires KnownOnly(s) && Enabled(s, e) && !e.Work? && (id in s.place ==> TaskLoose(s, id)) && id in Apply(s, e).place
    ensures TaskLoose(Apply(s, e), id)
  {
  }

  lemma PushKeepsReady(s: State, e: Event)
    requires ReadyOk(s) && Enabled(s, e) && e.Push? && forall id | id in s.place :: TaskLoose(s, id)
    ensures ReadyOk(Apply(s, e))
  {
    forall i | 0 <= i < |s.redis.ready| ensures s.place[s.redis.ready[i]].stamp < s.pushes {
      assert TaskLoose(s, s.redis.ready[i]);
    }
    PushOnStack(s.redis.ready, s.place, e.id, s.pushes);
  }

  lemma ProducerKeepsRest(s: State, e: Event)
    requires ReadyOk(s) && HoldersOk(s) && KnownOnly(s) && Enabled(s, e) && !e.Work?
    requires forall id | id in s.place :: TaskLoose(s, id)
    ensures ReadyOk(Apply(s, e)) && HoldersOk(Apply(s, e)) && KnownOnly(Apply(s, e))
  {
    if e.Push? { PushKeepsReady(s, e); }
  }

  lemma StepKeepsCancels(b: Board, e: Event)
    requires ReadyOk(b.run) && HoldersOk(b.run) && Enabled(b.run, e) && CancelsKnown(b)
    ensures CancelsKnown(Do(b, Step(e)))
  {
    if e.Work? { TouchedIsKnown(b.run, e.worker, e.outcome); }
  }

  lemma StepKeepsLoose(b: Board, e: Event)
    requires LooseInv(b) && Enabled(b.run, e)
    ensures LooseInv(Do(b, Step(e)))
  {
    hide TaskLoose, ReadyOk, HoldersOk, KnownOnly, CancelsKnown, Enabled;
    var s, t := b.run, Apply(b.run, e);
    StepKeepsCancels(b, e);
    if e.Work? {
      WorkKeepsReady(s, e.worker, e.outcome);
      WorkKeepsHolders(s, e.worker, e.outcome);
      WorkKeepsKnownIds(s, e.worker, e.outcome);
      forall id | id in t.place ensures TaskLoose(t, id) { WorkKeepsLoose(s, e.worker, e.outcome, id); }
    } else {
      ProducerKeepsRest(s, e);
      forall id | id in t.place ensures TaskLoose(t, id) { LooseProducer(s, e, id); }
    }
  }

  // ---- the commands of a cancellation ----

  lemma UnmarkedTask(s: State, id: TaskId, other: TaskId)
    requires other in s.place && TaskLoose(s, other)
    ensures TaskLoose(Unmarked(s, id), other)
  {
  }

  lemma UnmarkedKeepsLoose(b: Board, id: TaskId)
    requires LooseInv(b)
    ensures LooseInv(b.(run := Unmarked(b.run, id)))
  {
    hide TaskLoose;
    var t := Unmarked(b.run, id);
    forall other | other in t.place ensures TaskLoose(t, other) { UnmarkedTask(b.run, id, other); }
  }

  lemma {:induction false} DroppingMembers(ready: seq<TaskId>, id: TaskId, other: TaskId)
    ensures other in Dropping(ready, id) <==> other in ready && other != id
  {
    if ready != [] { DroppingMembers(ready[1..], id, other); }
  }

  lemma {:induction false} DroppingKeepsStack(ready: seq<TaskId>, place: map<TaskId, Place>, id: TaskId)
    requires StackOk(ready, place)
    ensures StackOk(Dropping(ready, id), place)
  {
    if ready != [] {
      var rest := Dropping(ready[1..], id);
      assert forall i | 0 <= i < |ready[1..]| :: ready[1..][i] == ready[i + 1];
      DroppingKeepsStack(ready[1..], place, id);
      forall i | 0 <= i < |rest| ensures place[rest[i]].stamp < place[ready[0]].stamp {
        DroppingMembers(ready[1..], id, rest[i]);
        var j :| 0 <= j < |ready[1..]| && ready[1..][j] == rest[i];
        assert ready[j + 1] == rest[i];
      }
    }
  }

  lemma StackElsewhere(ready: seq<TaskId>, place: map<TaskId, Place>, id: TaskId, p: Place)
    requires StackOk(ready, place) && id !in ready
    ensures StackOk(ready, place[id := p])
  {
  }

  lemma UnqueuedTask(s: State, id: TaskId, other: TaskId)
    requires other in s.place && TaskLoose(s, other)
    ensures TaskLoose(Unqueued(s, id), other)
  {
  }

  lemma UnqueuedKeepsLoose(b: Board, id: TaskId)
    requires LooseInv(b)
    ensures LooseInv(b.(run := Unqueued(b.run, id)))
  {
    hide TaskLoose, StackOk;
    var s, t := b.run, Unqueued(b.run, id);
    forall other | other in t.place ensures TaskLoose(t, other) { UnqueuedTask(s, id, other); }
    DroppingKeepsStack(s.redis.ready, s.place, id);
    DroppingMembers(s.redis.ready, id, id);
    StackElsewhere(t.redis.ready, s.place, id, Abandoned(false));
  }

  lemma RehashedTask(s: State, id: TaskId, other: TaskId)
    requires other in s.place && TaskLoose(s, other) && (other == id ==> s.place[id] != Admitted)
    ensures TaskLoose(Rehashed(s, id), other)
  {
  }

  lemma RehashedKeepsLoose(b: Board, id: TaskId)
    requires LooseInv(b) && id in b.run.place && b.run.place[id] != Admitted
    ensures LooseInv(b.(run := Rehashed(b.run, id), cancelled := b.cancelled + {id}))
  {
    hide TaskLoose;
    var t := Rehashed(b.run, id);
    forall other | other in t.place ensures TaskLoose(t, other) { RehashedTask(b.run, id, other); }
  }

  lemma OnlyCancelling(b: Board, cancelling: multiset<Canceller>)
    requires LooseInv(b) && forall c | c in cancelling :: c.id in b.run.place && b.run.place[c.id] != Admitted
    ensures LooseInv(b.(cancelling := cancelling))
  {
    hide TaskLoose, ReadyOk, HoldersOk, KnownOnly;
  }

  lemma SavedHasPlace(b: Board, id: TaskId)
    requires LooseInv(b) && id in b.run.redis.status
    ensures id in b.run.place && b.run.place[id] != Admitted
  {
    assert id in b.run.place && TaskLoose(b.run, id);
  }

  lemma CancelKeepsLoose(b: Board, op: Op)
    requires LooseInv(b) && Allowed(b, op) && !op.Step?
    ensures LooseInv(Do(b, op))
  {
    hide TaskLoose, ReadyOk, HoldersOk, KnownOnly;
    match op {
      case Look(id) =>
        SavedHasPlace(b, id);
        OnlyCancelling(b, Do(b, op).cancelling);
      case Remove(c) => RemoveKeepsLoose(b, c);
      case Record(id) => RecordKeepsLoose(b, id);
      case GiveUp(c) => OnlyCancelling(b, Do(b, op).cancelling);
    }
  }

  lemma RemoveKeepsLoose(b: Board, c: Canceller)
    requires LooseInv(b) && Allowed(b, Remove(c))
    ensures LooseInv(Do(b, Remove(c)))
  {
    hide TaskLoose, ReadyOk, HoldersOk, KnownOnly, Unmarked, Unqueued;
    var cancelling := b.cancelling - multiset{c} + multiset{Canceller(c.id, Nothing)};
    OnlyCancelling(b, cancelling);
    hide LooseInv;
    UnmarkedKeepsLoose(b.(cancelling := cancelling), c.id);
    UnqueuedKeepsLoose(b.(cancelling := cancelling), c.id);
  }

  lemma RecordKeepsLoose(b: Board, id: TaskId)
    requires LooseInv(b) && Allowed(b, Record(id))
    ensures LooseInv(Do(b, Record(id)))
  {
    hide TaskLoose, ReadyOk, HoldersOk, KnownOnly, Rehashed;
    assert Canceller(id, Nothing) in b.cancelling;
    var cancelling := b.cancelling - multiset{Canceller(id, Nothing)};
    OnlyCancelling(b, cancelling);
    RehashedKeepsLoose(b.(cancelling := cancelling), id);
  }

  /** Every step of workers, producer and cancellations keeps what is left of the invariant. */
  lemma OpKeepsInv(b: Board, op: Op)
    requires LooseInv(b) && Allowed(b, op)
    ensures LooseInv(Do(b, op))
  {
    hide LooseInv, Enabled;
    if op.Step? { StepKeepsLoose(b, op.e); } else { CancelKeepsLoose(b, op); }
  }

  lemma {:induction false} OpsKeepInv(b: Board, ops: seq<Op>)
    requires LooseInv(b) && CanDo(b, ops)
    ensures LooseInv(Reached(b, ops))
    decreases |ops|
  {
    hide LooseInv, Allowed, Do;
    if ops != [] {
      OpKeepsInv(b, ops[0]);
      OpsKeepInv(Do(b, ops[0]), ops[1..]);
    }
  }

  function Start(workers: nat): Board { Board(Init(workers), {}, multiset{}) }

  /**
   Along every run with cancelling, a task in a terminal set shows the status of that set exactly
   when it is not cancelled; a torn one in both sets never shows `completed`.
   */
  lemma TerminalShownIff(workers: nat, ops: seq<Op>, id: TaskId)
    requires CanDo(Start(workers), ops)
    ensures
      var t := Reached(Start(workers), ops);
      var r := t.run.redis;
      && (id in r.failed ==> (Shows(t, id, Failed) <==> id !in t.cancelled))
      && (id in r.completed && id !in t.run.torn ==> (Shows(t, id, Completed) <==> id !in t.cancelled))
      && (id in r.completed && id in r.failed ==> id in t.run.torn && !Shows(t, id, Completed))
  {
    hide CanDo, Reached;
    InitInv(workers);
    InvIsLoose(Init(workers));
    OpsKeepInv(Start(workers), ops);
    var t := Reached(Start(workers), ops);
    if id in t.run.place { assert TaskLoose(t.run, id) && Consistent(ViewOf(t.run, id)); }
  }

  /** A finished task can be cancelled: it stays in its set and its status is overwritten. */
  lemma FinishedIsOverwritten(b: Board, id: TaskId) returns (ops: seq<Op>)
    requires id in b.run.redis.status && !Shows(b, id, Processing) && !Shows(b, id, Queued)
    ensures CanDo(b, ops) && id in Reached(b, ops).cancelled && Reached(b, ops).run == b.run
  {
    hide CanDo, Reached;
    var b1 := Do(b, Look(id));
    assert Canceller(id, Nothing) in b1.cancelling;
    NoOps(Do(b1, Record(id)));
    ops := Then(b1, Record(id), []);
    ops := Then(b, Look(id), ops);
  }

  // ---- leaked tasks ----

  /** In the processing set with nobody to take it out. */
  ghost predicate Stuck(s: State, id: TaskId) {
    && Leaked(s, id) && id in s.redis.processing && id !in s.redis.ready
    && forall w | 0 <= w < |s.workers| :: Holds(s.workers[w]) != Some(id)
  }

  lemma LeakedIsStuck(b: Board, id: TaskId)
    requires LooseInv(b) && Leaked(b.run, id)
    ensures Stuck(b.run, id)
  {
    assert TaskLoose(b.run, id);
    assert forall i | 0 <= i < |b.run.redis.ready| :: b.run.place[b.run.redis.ready[i]].Ready?;
  }

  /** It shows `processing`, or a cancellation under way has seen it so. */
  predicate CanBeFreed(b: Board, id: TaskId) { Shows(b, id, Processing) || Canceller(id, FromProcessing) in b.cancelling }

  lemma StuckIsUntouched(s: State, w: nat, o: Outcome, id: TaskId)
    requires Enabled(s, Work(w, o)) && Stuck(s, id)
    ensures Holds(s.workers[w]) != Some(id) && Touched(s, w, o) != Some(id)
  {
    if s.redis.ready != [] { assert s.redis.ready[0] in s.redis.ready; }
  }

  /** A worker takes over no task but the one it holds or pops. */
  lemma NextHolds(s: State, w: nat, o: Outcome, id: TaskId)
    requires Enabled(s, Work(w, o)) && Holds(s.workers[w]) != Some(id) && Touched(s, w, o) != Some(id)
    ensures Holds(Next(s.redis, s.stop, s.workers[w], o)) != Some(id)
  {
  }

  lemma WorkKeepsStuck(s: State, w: nat, o: Outcome, id: TaskId)
    requires Enabled(s, Work(w, o)) && Stuck(s, id)
    ensures Stuck(Apply(s, Work(w, o)), id)
    ensures ViewOf(Apply(s, Work(w, o)), id).status == ViewOf(s, id).status && id !in Writes(s, Work(w, o))
  {
    hide Perform, Next, Track, Touched, Possible;
    StuckIsUntouched(s, w, o, id);
    NextHolds(s, w, o, id);
    ViewElsewhere(s, w, o, id);
    PlaceElsewhere(s, w, o, id);
    ReadyAfterWork(s, w, o);
    assert ViewOf(Apply(s, Work(w, o)), id).processing;
  }

  lemma StepKeepsStuck(b: Board, e: Event, id: TaskId)
    requires Enabled(b.run, e) && Stuck(b.run, id) && !CanBeFreed(b, id)
    ensures Stuck(Apply(b.run, e), id) && !CanBeFreed(Do(b, Step(e)), id)
  {
    if e.Work? { WorkKeepsStuck(b.run, e.worker, e.outcome, id); }
  }

  lemma RemoveKeepsStuck(b: Board, c: Canceller, id: TaskId)
    requires Allowed(b, Remove(c)) && Stuck(b.run, id) && !CanBeFreed(b, id)
    ensures Stuck(Do(b, Remove(c)).run, id) && !CanBeFreed(Do(b, Remove(c)), id)
  {
    DroppingMembers(b.run.redis.ready, c.id, id);
  }

  /** No step of a worker, the producer or any cancellation frees it or makes it possible. */
  lemma OpKeepsStuck(b: Board, op: Op, id: TaskId)
    requires Allowed(b, op) && Stuck(b.run, id) && !CanBeFreed(b, id)
    ensures Stuck(Do(b, op).run, id) && !CanBeFreed(Do(b, op), id)
  {
    match op {
      case Step(e) => StepKeepsStuck(b, e, id);
      case Remove(c) => RemoveKeepsStuck(b, c, id);
      case _ =>
    }
  }

  lemma {:induction false} StuckStays(b: Board, ops: seq<Op>, id: TaskId)
    requires CanDo(b, ops) && Stuck(b.run, id) && !CanBeFreed(b, id)
    ensures Stuck(Reached(b, ops).run, id)
    decreases |ops|
  {
    hide Allowed, Do, Stuck, CanBeFreed;
    if ops != [] {
      OpKeepsStuck(b, ops[0], id);
      StuckStays(Do(b, ops[0]), ops[1..], id);
    }
  }

  lemma FreeingRun(b: Board, id: TaskId) returns (ops: seq<Op>)
    requires CanBeFreed(b, id)
    ensures CanDo(b, ops) && id !in Reached(b, ops).run.redis.processing
  {
    hide CanDo, Reached;
    var c := Canceller(id, FromProcessing);
    var looked := if c in b.cancelling then b else Do(b, Look(id));
    assert c in looked.cancelling;
    NoOps(Do(looked, Remove(c)));
    ops := Then(looked, Remove(c), []);
    if c !in b.cancelling { ops := Then(b, Look(id), ops); }
  }

  /**
   A task left behind in the processing set can still leave it exactly while its stored status is
   `processing` or a cancellation under way has read that; cancelling anything else does not help.
   */
  lemma LeakCanBeFreedIff(b: Board, id: TaskId)
    requires LooseInv(b) && Leaked(b.run, id)
    ensures (exists ops :: CanDo(b, ops) && id !in Reached(b, ops).run.redis.processing) <==> CanBeFreed(b, id)
  {
    hide LooseInv, CanDo, Reached;
    LeakedIsStuck(b, id);
    if CanBeFreed(b, id) {
      var ops := FreeingRun(b, id);
    } else {
      forall ops | CanDo(b, ops) ensures id in Reached(b, ops).run.redis.processing { StuckStays(b, ops, id); }
    }
  }

  /** As many such tasks as the limit in force stop every later enqueue, whatever tasks are cancelled. */
  lemma {:induction false} PermanentLeaksBlock(b: Board, ops: seq<Op>, leaks: set<TaskId>)
    requires CanDo(b, ops) && forall id | id in leaks :: Stuck(b.run, id) && !CanBeFreed(b, id)
    ensures forall i | 0 <= i < |ops| && ops[i].Step? && ops[i].e.Admit? :: |leaks| < ops[i].e.limit
    decreases |ops|
  {
    hide CanBeFreed, Do;
    if ops != [] {
      assert leaks <= b.run.redis.processing;
      SubsetSize(leaks, b.run.redis.processing);
      forall id | id in leaks ensures Stuck(Do(b, ops[0]).run, id) && !CanBeFreed(Do(b, ops[0]), id) {
        OpKeepsStuck(b, ops[0], id);
      }
      PermanentLeaksBlock(Do(b, ops[0]), ops[1..], leaks);
      forall i | 0 <= i < |ops| && ops[i].Step? && ops[i].e.Admit? ensures |leaks| < ops[i].e.limit {
        if i > 0 { assert ops[1..][i - 1] == ops[i]; }
      }
    }
  }

  // ---- one cancellation that nothing interrupts ----

  lemma {:induction false} DroppingOne(before: seq<TaskId>, id: TaskId, after: seq<TaskId>)
    requires id !in before && id !in after
    ensures Dropping(before + [id] + after, id) == before + after
    decreases |before|
  {
    var all := before + [id] + after;
    if before == [] {
      assert all[1..] == after;
      DroppingNone(after, id);
    } else {
      assert all[0] == before[0] && all[1..] == before[1..] + [id] + after;
      DroppingOne(before[1..], id, after);
    }
  }

  lemma {:induction false} DroppingNone(ready: seq<TaskId>, id: TaskId)
    requires id !in ready
    ensures Dropping(ready, id) == ready
  {
    if ready != [] { DroppingNone(ready[1..], id); }
  }

  /** What a cancellation that reads the status of this task has to remove. */
  function ToRemove(b: Board, id: TaskId): Remains {
    if Shows(b, id, Processing) then FromProcessing else if Shows(b, id, Queued) then FromReady else Nothing
  }

  lemma Looking(b: Board, id: TaskId)
    requires id in b.run.redis.status
    ensures Allowed(b, Look(id))
    ensures Do(b, Look(id)) == b.(cancelling := b.cancelling + multiset{Canceller(id, ToRemove(b, id))})
  {
  }

  lemma Removing(b: Board, rest: multiset<Canceller>, c: Canceller)
    requires b.cancelling == rest + multiset{c} && c.remains != Nothing
    ensures Allowed(b, Remove(c)) && var after := Do(b, Remove(c));
      && after.cancelling == rest + multiset{Canceller(c.id, Nothing)} && after.cancelled == b.cancelled
      && after.run.workers == b.run.workers
      && (c.remains == FromReady && c.id in b.run.place && b.run.place[c.id].Ready? ==>
            after.run.place == b.run.place[c.id := Abandoned(false)])
      && after.run.redis ==
           if c.remains == FromReady then b.run.redis.(ready := Dropping(b.run.redis.ready, c.id))
           else b.run.redis.(processing := b.run.redis.processing - {c.id})
  {
  }

  lemma Recording(b: Board, rest: multiset<Canceller>, id: TaskId)
    requires b.cancelling == rest + multiset{Canceller(id, Nothing)} && id in b.run.redis.status
    ensures Allowed(b, Record(id)) && Do(b, Record(id)) == Board(b.run, b.cancelled + {id}, rest)
  {
  }

  /** What the commands of one cancellation leave in Redis. */
  lemma CancelAtOnce(b: Board, id: TaskId) returns (ops: seq<Op>)
    requires id in b.run.redis.status
    ensures CanDo(b, ops) && forall op | op in ops :: !op.Step?
    ensures var after := Reached(b, ops);
      && after.cancelled == b.cancelled + {id} && after.cancelling == b.cancelling
      && after.run.workers == b.run.workers
      && (Shows(b, id, Queued) && id in b.run.place && b.run.place[id].Ready? ==>
            after.run.place == b.run.place[id := Abandoned(false)])
      && after.run.redis ==
           if Shows(b, id, Queued) then b.run.redis.(ready := Dropping(b.run.redis.ready, id))
           else if Shows(b, id, Processing) then b.run.redis.(processing := b.run.redis.processing - {id})
           else b.run.redis
  {
    hide Do, Allowed, CanDo, Reached, Dropping;
    Looking(b, id);
    var looked := Do(b, Look(id));
    var c := Canceller(id, ToRemove(b, id));
    var removed := looked;
    if c.remains != Nothing {
      Removing(looked, b.cancelling, c);
      removed := Do(looked, Remove(c));
    }
    Recording(removed, b.cancelling, id);
    NoOps(Do(removed, Record(id)));
    ops := Then(removed, Record(id), []);
    if c.remains != Nothing { ops := Then(looked, Remove(c), ops); }
    ops := Then(b, Look(id), ops);
  }

  /** A waiting task that is cancelled leaves the ready list, and the others keep their order. */
  lemma QueuedTaskIsTakenOff(b: Board, before: seq<TaskId>, id: TaskId, after: seq<TaskId>) returns (ops: seq<Op>)
    requires b.run.redis.ready == before + [id] + after && id !in before && id !in after && Shows(b, id, Queued)
    ensures CanDo(b, ops) && Reached(b, ops).run.redis == b.run.redis.(ready := before + after)
    ensures id in Reached(b, ops).cancelled
  {
    hide Dropping, CanDo, Reached;
    ops := CancelAtOnce(b, id);
    DroppingOne(before, id, after);
  }

  /** A cancellation that fails after the removal: the task is in no list or set, and its status still says that it waits. */
  lemma FailedCancelLosesTask(b: Board, before: seq<TaskId>, id: TaskId, after: seq<TaskId>) returns (ops: seq<Op>)
    requires b.run.redis.ready == before + [id] + after && id !in before && id !in after && Shows(b, id, Queued)
    requires id in b.run.place && b.run.place[id].Ready?
    ensures CanDo(b, ops) && Reached(b, ops) ==
      b.(run := b.run.(redis := b.run.redis.(ready := before + after), place := b.run.place[id := Abandoned(false)]))
    ensures Shows(Reached(b, ops), id, Queued)
  {
    hide Allowed, CanDo, Reached, Dropping;
    var c, left := Canceller(id, FromReady), Canceller(id, Nothing);
    Looking(b, id);
    var looked := Do(b, Look(id));
    Removing(looked, b.cancelling, c);
    DroppingOne(before, id, after);
    var removed := Do(looked, Remove(c));
    assert Allowed(removed, GiveUp(left)) by { assert left in removed.cancelling; CanGiveUp(removed, left); }
    assert removed.cancelling - multiset{left} == b.cancelling;
    NoOps(Do(removed, GiveUp(left)));
    ops := Then(removed, GiveUp(left), []);
    ops := Then(looked, Remove(c), ops);
    ops := Then(b, Look(id), ops);
  }

  lemma CanGiveUp(b: Board, c: Canceller)
    requires c in b.cancelling
    ensures Allowed(b, GiveUp(c))
  {
  }

  // ---- three such tasks, from the start ----

  const CRASHED := Outcome(false, Crashed, true)

  lemma Killed(s: State, w: nat, r: Redis, id: TaskId)
    requires w < |s.workers| && id in r.processing
    ensures Enabled(Moved(s, w, r, LeaveSet(id, true)), Work(w, CRASHED))
    ensures Apply(Moved(s, w, r, LeaveSet(id, true)), Work(w, CRASHED)) ==
      Moved(s, w, r, Dead).(place := s.place[id := Abandoned(true)])
  {
  }

  /** Worker `w` is killed between storing the result and SREM. */
  lemma KilledRun(s: State, w: nat, r: Redis, id: TaskId) returns (es: seq<Event>)
    requires w < |s.workers|
    ensures CanRun(Moved(s, w, r, MarkSet(id)), es)
    ensures
      var done := r.(status := r.status[id := Completed], processing := r.processing + {id});
      After(Moved(s, w, r, MarkSet(id)), es) == Moved(s, w, done, Dead).(place := s.place[id := Abandoned(true)])
  {
    hide CanRun, After, Apply, Enabled, Moved;
    var marked := r.(processing := r.processing + {id});
    var done := marked.(status := r.status[id := Completed]);
    Advance(s, w, r, MarkSet(id), Prepare(id));
    Advance(s, w, marked, Prepare(id), Analyse(id));
    Advance(s, w, marked, Analyse(id), SaveStatus(id, true));
    Advance(s, w, marked, SaveStatus(id, true), LeaveSet(id, true));
    Killed(s, w, done, id);
    NoEvents(Moved(s, w, done, Dead).(place := s.place[id := Abandoned(true)]));
    es := Prepend(Moved(s, w, done, LeaveSet(id, true)), Work(w, CRASHED), []);
    es := Prepend(Moved(s, w, marked, SaveStatus(id, true)), Work(w, FINE), es);
    es := Prepend(Moved(s, w, marked, Analyse(id)), Work(w, FINE), es);
    es := Prepend(Moved(s, w, marked, Prepare(id)), Work(w, FINE), es);
    es := Prepend(Moved(s, w, r, MarkSet(id)), Work(w, FINE), es);
  }

  lemma LeakRun(s: State, w: nat, id: TaskId) returns (es: seq<Event>)
    requires w < |s.workers| && s.workers[w] == Check && !s.stop
    requires s.redis.ready == [id] && id in s.redis.status && id in s.place
    ensures CanRun(s, es) && After(s, es) == s.(
      redis := s.redis.(ready := [], status := s.redis.status[id := Completed], processing := s.redis.processing + {id}),
      workers := s.workers[w := Dead], place := s.place[id := Abandoned(true)])
  {
    hide CanRun, After, Apply, Enabled;
    var taken := s.(redis := s.redis.(ready := []), place := s.place[id := Held(w)]);
    var r := taken.redis;
    var marked := r.(status := r.status[id := Processing]);
    Taking(s, w, id);
    Advance(taken, w, r, Load(id), MarkStatus(id));
    Advance(taken, w, r, MarkStatus(id), MarkSet(id));
    es := KilledRun(taken, w, marked, id);
    es := Prepend(Moved(taken, w, r, MarkStatus(id)), Work(w, FINE), es);
    es := Prepend(Moved(taken, w, r, Load(id)), Work(w, FINE), es);
    es := Prepend(Apply(s, Work(w, FINE)), Work(w, FINE), es);
    es := Prepend(s, Work(w, FINE), es);
    assert taken.place[id := Abandoned(true)] == s.place[id := Abandoned(true)];
    assert marked.status[id := Completed] == s.redis.status[id := Completed];
  }

  /** The state after one worker more has been killed with one task more. */
  function OneMoreLeak(s: State, w: nat, id: TaskId): State
    requires w < |s.workers|
  {
    s.(redis := s.redis.(status := s.redis.status[id := Completed], processing := s.redis.processing + {id}),
       workers := s.workers[w := Dead], place := s.place[id := Abandoned(true)], pushes := s.pushes + 1)
  }

  lemma EnqueueAndLeak(s: State, w: nat, id: TaskId) returns (es: seq<Event>)
    requires w < |s.workers| && s.workers[w] == Check && !s.stop && s.redis.ready == []
    requires id !in s.place && |s.redis.processing| < GLOBAL_CONCURRENT_LIMIT
    ensures CanRun(s, es) && After(s, es) == OneMoreLeak(s, w, id)
  {
    hide CanRun, After;
    EnqueueRun(s, id);
    var first := [Admit(id, GLOBAL_CONCURRENT_LIMIT), Save(id), Push(id)];
    var middle := After(s, first);
    assert middle.redis.ready == [id];
    var rest := LeakRun(middle, w, id);
    Concat(s, first, rest);
    es := first + rest;
    assert s.place[id := Ready(s.pushes)][id := Abandoned(true)] == s.place[id := Abandoned(true)];
    assert s.redis.status[id := Queued][id := Completed] == s.redis.status[id := Completed];
  }

  /** Stuck, with a result stored and nobody about to cancel it. */
  ghost predicate StuckDone(s: State, id: TaskId) { Stuck(s, id) && id in s.redis.status && s.redis.status[id] == Completed }

  lemma OneMoreStuck(s: State, w: nat, id: TaskId)
    requires w < |s.workers| && s.redis.ready == [] && forall pc | pc in s.workers :: Holds(pc).None?
    ensures var t := OneMoreLeak(s, w, id);
      && StuckDone(t, id) && t.redis.ready == [] && (forall pc | pc in t.workers :: Holds(pc).None?)
      && forall other | StuckDone(s, other) :: StuckDone(t, other)
  {
    var t := OneMoreLeak(s, w, id);
    forall i | 0 <= i < |t.workers| ensures Holds(t.workers[i]).None? {
      if i != w { assert s.workers[i] in s.workers; }
    }
  }

  function ThreeKilled(a: TaskId, b: TaskId, c: TaskId): State {
    OneMoreLeak(OneMoreLeak(OneMoreLeak(Init(3), 0, a), 1, b), 2, c)
  }

  lemma KillThree(a: TaskId, b: TaskId, c: TaskId) returns (es: seq<Event>)
    requires a != b && a != c && b != c
    ensures CanRun(Init(3), es) && After(Init(3), es) == ThreeKilled(a, b, c)
  {
    hide CanRun, After;
    var s0 := Init(3);
    var s1 := OneMoreLeak(s0, 0, a);
    var s2 := OneMoreLeak(s1, 1, b);
    var e1 := EnqueueAndLeak(s0, 0, a);
    assert s1.redis.processing == {a};
    var e2 := EnqueueAndLeak(s1, 1, b);
    assert s2.redis.processing == {a, b};
    var e3 := EnqueueAndLeak(s2, 2, c);
    Concat(s0, e1, e2);
    Concat(s0, e1 + e2, e3);
    es := e1 + e2 + e3;
  }

  lemma ThreeAreStuck(a: TaskId, b: TaskId, c: TaskId)
    ensures forall id | id in {a, b, c} :: StuckDone(ThreeKilled(a, b, c), id)
  {
    hide StuckDone;
    OneMoreStuck(Init(3), 0, a);
    OneMoreStuck(OneMoreLeak(Init(3), 0, a), 1, b);
    OneMoreStuck(OneMoreLeak(OneMoreLeak(Init(3), 0, a), 1, b), 2, c);
  }

  /** Three workers killed at the same place, and the queue takes nothing any more. */
  lemma ThreeLeaks(a: TaskId, b: TaskId, c: TaskId) returns (es: seq<Event>)
    requires a != b && a != c && b != c
    ensures CanRun(Init(3), es)
    ensures var board := Board(After(Init(3), es), {}, multiset{});
      forall id | id in {a, b, c} :: Stuck(board.run, id) && !CanBeFreed(board, id)
    ensures |{a, b, c}| == GLOBAL_CONCURRENT_LIMIT
  {
    hide CanRun, After, ThreeKilled;
    es := KillThree(a, b, c);
    ThreeAreStuck(a, b, c);
    var board := Board(ThreeKilled(a, b, c), {}, multiset{});
    hide Stuck;
    forall id | id in {a, b, c} ensures Stuck(board.run, id) && !CanBeFreed(board, id) {
      assert StuckDone(board.run, id);
    }
  }
}
