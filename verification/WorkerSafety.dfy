/** Safety of the worker protocol over every run: one place per task, statuses that only climb, terminal sets. */
module WorkerSafety {
  import opened Wrappers
  import opened WorkerProtocol

  /** Everything the shared data says about one task. */
  datatype View = View(status: Option<Status>, processing: bool, completed: bool, failed: bool, torn: bool)

  /** The view of a task, given the data and whether its reply was torn. */
  function DataView(r: Redis, torn: bool, id: TaskId): View {
    View(if id in r.status then Some(r.status[id]) else None, id in r.processing, id in r.completed, id in r.failed, torn)
  }

  function ViewOf(s: State, id: TaskId): View {
    DataView(s.redis, id in s.torn, id)
  }

  predicate InNoSet(v: View) { !v.processing && !v.completed && !v.failed && !v.torn }

  predicate Untouched(v: View) { Rank(v.status) == 0 && InNoSet(v) }

  /** The facts that hold of a task in every place: terminal membership fixes the status. */
  predicate Consistent(v: View) {
    && (v.failed ==> v.status == Some(Failed))
    && (v.completed && !v.torn ==> v.status == Some(Completed))
    && (v.completed && v.failed ==> v.torn)
    && (v.torn ==> v.completed && Rank(v.status) >= 2)
  }

  /** What a worker at `pc` knows of the task it holds. */
  predicate HeldOk(pc: Pc, v: View)
    requires Holds(pc).Some?
  {
    match pc
    case Load(_) => Untouched(v)
    case MarkStatus(_) => Untouched(v)
    case MarkSet(_) => v.status == Some(Processing) && InNoSet(v)
    case SaveStatus(_, _) => v == View(Some(Processing), true, false, false, false)
    case LeaveSet(_, ok) => v == View(Some(Final(ok)), true, false, false, false)
    case JoinSet(_, ok) => v == View(Some(Final(ok)), false, false, false, false)
    case FailStatus(_, cleared) => Rank(v.status) >= 1 && v.processing == !cleared && v.completed == v.torn
    case FailLeave(_, cleared) => v.status == Some(Failed) && v.processing == !cleared && v.completed == v.torn
    case FailJoin(_) => v.status == Some(Failed) && !v.processing && v.completed == v.torn
    case FailPublish(_) => v.status == Some(Failed) && !v.processing && v.failed && v.completed == v.torn
    case _ => v == View(Some(Processing), true, false, false, false)
  }

  /** A finished task is in exactly one terminal set, the one its status names, unless its reply was torn. */
  predicate FinishedOk(v: View) {
    && !v.processing
    && (|| (v.completed && !v.failed && !v.torn && v.status == Some(Completed))
        || (v.failed && v.completed == v.torn && v.status == Some(Failed)))
  }

  predicate TaskOk(s: State, id: TaskId)
    requires id in s.place
  {
    var v := ViewOf(s, id);
    && Consistent(v)
    && match s.place[id]
       case Admitted => v.status == None && InNoSet(v)
       case Saved => Untouched(v)
       case Ready(stamp) => Untouched(v) && id in s.redis.ready && stamp < s.pushes
       case Held(w) => w < |s.workers| && Holds(s.workers[w]) == Some(id) && HeldOk(s.workers[w], v)
       case Finished => FinishedOk(v)
       case Dropped => v.status == None && InNoSet(v)
       case Abandoned(leaked) => v.processing == leaked
  }

  /** The ready list holds tasks in place `Ready` only, most recent push first. */
  ghost predicate StackOk(ready: seq<TaskId>, place: map<TaskId, Place>) {
    && (forall i | 0 <= i < |ready| :: ready[i] in place && place[ready[i]].Ready?)
    && (forall i, j | 0 <= i < j < |ready| :: place[ready[i]].stamp > place[ready[j]].stamp)
  }

  ghost predicate ReadyOk(s: State) { StackOk(s.redis.ready, s.place) }

  ghost predicate HoldersOk(s: State) {
    forall w | 0 <= w < |s.workers| && Holds(s.workers[w]).Some? ::
      s.workers[w].id in s.place && s.place[s.workers[w].id] == Held(w)
  }

  ghost predicate KnownOnly(s: State) {
    s.redis.status.Keys + s.redis.processing + s.redis.completed + s.redis.failed + s.torn <= s.place.Keys
  }

  ghost predicate Inv(s: State) {
    && (forall id | id in s.place :: TaskOk(s, id))
    && ReadyOk(s)
    && HoldersOk(s)
    && KnownOnly(s)
  }

  /** The effect of one worker step on the view of the task it holds. */
  function Seen(v: View, pc: Pc, o: Outcome): View {
    if !o.applied then v else
    match pc
    case MarkStatus(_) => v.(status := Some(Processing))
    case MarkSet(_) => v.(processing := true)
    case SaveStatus(_, ok) => v.(status := Some(Final(ok)))
    case LeaveSet(_, _) => v.(processing := false)
    case JoinSet(_, ok) =>
      if ok then v.(completed := true, torn := v.torn || o.reply.Error?) else v.(failed := true)
    case FailStatus(_, _) => v.(status := Some(Failed))
    case FailLeave(_, _) => v.(processing := false)
    case FailJoin(_) => v.(failed := true)
    case _ => v
  }

  lemma SeenIsView(r: Redis, torn: bool, pc: Pc, o: Outcome)
    requires Holds(pc).Some?
    ensures DataView(Perform(r, pc, o), torn || (pc.JoinSet? && pc.ok && o.applied && o.reply.Error?), pc.id)
      == Seen(DataView(r, torn, pc.id), pc, o)
  {
  }

  /** One step of a worker on the task it holds: what it knew, plus the outcome, gives what it knows next. */
  lemma HeldStep(v: View, r: Redis, stop: bool, pc: Pc, o: Outcome)
    requires Possible(pc, o) && Holds(pc).Some? && Consistent(v) && HeldOk(pc, v)
    requires v.status.Some? <==> pc.id in r.status
    ensures var v' := Seen(v, pc, o);
      var next := Next(r, stop, pc, o);
      && Consistent(v')
      && Rank(v.status) <= Rank(v'.status)
      && (Holds(next).Some? ==> next.id == pc.id && HeldOk(next, v'))
      && (Holds(next).None? && Released(pc, o, v'.processing) == Finished ==> FinishedOk(v'))
      && (Holds(next).None? && Released(pc, o, v'.processing) == Dropped ==> v'.status == None && InNoSet(v'))
  {
  }

  // ---- one step keeps the invariant ----

  /** The task a worker step concerns: the one it holds, or the one its BLPOP removes. */
  function Touched(s: State, w: nat, o: Outcome): Option<TaskId>
    requires w < |s.workers|
  {
    if s.workers[w].Pop? then (if o.applied && s.redis.ready != [] then Some(s.redis.ready[0]) else None)
    else Holds(s.workers[w])
  }

  lemma EffectElsewhere(r: Redis, pc: Pc, o: Outcome, id: TaskId)
    requires Holds(pc) != Some(id)
    ensures var r' := Perform(r, pc, o);
      && (id in r'.status <==> id in r.status) && (id in r.status ==> r'.status[id] == r.status[id])
      && (id in r'.processing <==> id in r.processing)
      && (id in r'.completed <==> id in r.completed) && (id in r'.failed <==> id in r.failed)
  {
  }

  /** How many tasks a worker step takes off the ready list. */
  function Popped(s: State, w: nat, o: Outcome): (n: nat)
    requires w < |s.workers|
    ensures n <= |s.redis.ready|
  {
    if s.workers[w].Pop? && o.applied && s.redis.ready != [] then 1 else 0
  }

  lemma ReadyAfterWork(s: State, w: nat, o: Outcome)
    requires Enabled(s, Work(w, o))
    ensures Apply(s, Work(w, o)).redis.ready == s.redis.ready[Popped(s, w, o)..]
  {
  }

  lemma PlaceElsewhere(s: State, w: nat, o: Outcome, id: TaskId)
    requires Enabled(s, Work(w, o)) && id in s.place && Touched(s, w, o) != Some(id)
    ensures id in Track(s, w, o) && Track(s, w, o)[id] == s.place[id]
  {
  }

  lemma ViewElsewhere(s: State, w: nat, o: Outcome, id: TaskId)
    requires Enabled(s, Work(w, o)) && Touched(s, w, o) != Some(id)
    ensures ViewOf(Apply(s, Work(w, o)), id) == ViewOf(s, id)
  {
    EffectElsewhere(s.redis, s.workers[w], o, id);
  }

  lemma StaysReady(s: State, w: nat, o: Outcome, id: TaskId)
    requires Enabled(s, Work(w, o)) && id in s.redis.ready && Touched(s, w, o) != Some(id)
    ensures id in Apply(s, Work(w, o)).redis.ready
  {
    ReadyAfterWork(s, w, o);
    var i :| 0 <= i < |s.redis.ready| && s.redis.ready[i] == id;
    assert s.redis.ready[Popped(s, w, o)..][i - Popped(s, w, o)] == id;
  }

  lemma UntouchedTask(s: State, w: nat, o: Outcome, id: TaskId)
    requires Enabled(s, Work(w, o)) && id in s.place && TaskOk(s, id) && Touched(s, w, o) != Some(id)
    ensures var s' := Apply(s, Work(w, o));
      id in s'.place && s'.place[id] == s.place[id] && ViewOf(s', id) == ViewOf(s, id) && TaskOk(s', id)
  {
    PlaceElsewhere(s, w, o, id);
    ViewElsewhere(s, w, o, id);
    if id in s.redis.ready { StaysReady(s, w, o, id); }
  }

  lemma PoppedTask(s: State, w: nat, o: Outcome)
    requires Inv(s) && Enabled(s, Work(w, o)) && s.workers[w].Pop? && o.applied && s.redis.ready != []
    ensures var id := s.redis.ready[0];
      id in s.place && id in Track(s, w, o) && TaskOk(Apply(s, Work(w, o)), id)
      && ViewOf(Apply(s, Work(w, o)), id) == ViewOf(s, id)
  {
    assert TaskOk(s, s.redis.ready[0]);
  }

  lemma HeldTask(s: State, w: nat, o: Outcome)
    requires Inv(s) && Enabled(s, Work(w, o)) && Holds(s.workers[w]).Some?
    ensures var id := s.workers[w].id;
      id in s.place && id in Track(s, w, o) && TaskOk(Apply(s, Work(w, o)), id)
      && Rank(ViewOf(s, id).status) <= Rank(ViewOf(Apply(s, Work(w, o)), id).status)
  {
    var pc := s.workers[w];
    assert s.place[pc.id] == Held(w) && TaskOk(s, pc.id);
    SeenIsView(s.redis, pc.id in s.torn, pc, o);
    HeldStep(ViewOf(s, pc.id), s.redis, s.stop, pc, o);
  }

  lemma TouchedTask(s: State, w: nat, o: Outcome, id: TaskId)
    requires Inv(s) && Enabled(s, Work(w, o)) && Touched(s, w, o) == Some(id)
    ensures id in s.place && id in Apply(s, Work(w, o)).place && TaskOk(Apply(s, Work(w, o)), id)
    ensures Rank(ViewOf(s, id).status) <= Rank(ViewOf(Apply(s, Work(w, o)), id).status)
  {
    if s.workers[w].Pop? { PoppedTask(s, w, o); } else { HeldTask(s, w, o); }
  }

  lemma StampElsewhere(s: State, w: nat, o: Outcome, i: nat)
    requires ReadyOk(s) && Enabled(s, Work(w, o)) && HoldersOk(s) && Popped(s, w, o) <= i < |s.redis.ready|
    ensures Touched(s, w, o) != Some(s.redis.ready[i])
    ensures var id := s.redis.ready[i]; id in Track(s, w, o) && Track(s, w, o)[id] == s.place[id]
  {
    var id := s.redis.ready[i];
    if Popped(s, w, o) == 1 {
      assert s.place[s.redis.ready[0]].stamp > s.place[id].stamp;
    } else if Holds(s.workers[w]).Some? {
      assert s.place[s.workers[w].id] == Held(w);
    }
    PlaceElsewhere(s, w, o, id);
  }

  lemma WorkKeepsReady(s: State, w: nat, o: Outcome)
    requires ReadyOk(s) && HoldersOk(s) && Enabled(s, Work(w, o))
    ensures ReadyOk(Apply(s, Work(w, o)))
  {
    var s' := Apply(s, Work(w, o));
    var n := Popped(s, w, o);
    ReadyAfterWork(s, w, o);
    forall i: nat | i < |s'.redis.ready|
      ensures var id := s.redis.ready[i + n];
        s'.redis.ready[i] == id && id in s'.place && s'.place[id] == s.place[id]
    {
      StampElsewhere(s, w, o, i + n);
    }
  }

  lemma HolderElsewhere(s: State, w: nat, o: Outcome, x: nat)
    requires ReadyOk(s) && HoldersOk(s) && Enabled(s, Work(w, o))
    requires x < |s.workers| && x != w && Holds(s.workers[x]).Some?
    ensures var id := s.workers[x].id; id in Track(s, w, o) && Track(s, w, o)[id] == Held(x)
  {
    var id := s.workers[x].id;
    assert s.place[id] == Held(x);
    PlaceElsewhere(s, w, o, id);
  }

  lemma HolderHere(s: State, w: nat, o: Outcome)
    requires HoldersOk(s) && Enabled(s, Work(w, o))
    ensures var next := Next(s.redis, s.stop, s.workers[w], o);
      Holds(next).Some? ==> next.id in Track(s, w, o) && Track(s, w, o)[next.id] == Held(w)
  {
    if Holds(s.workers[w]).Some? { assert s.place[s.workers[w].id] == Held(w); }
  }

  lemma WorkKeepsHolders(s: State, w: nat, o: Outcome)
    requires ReadyOk(s) && HoldersOk(s) && Enabled(s, Work(w, o))
    ensures HoldersOk(Apply(s, Work(w, o)))
  {
    var s' := Apply(s, Work(w, o));
    forall x: nat | x < |s'.workers| && Holds(s'.workers[x]).Some?
      ensures s'.workers[x].id in s'.place && s'.place[s'.workers[x].id] == Held(x)
    {
      if x != w { HolderElsewhere(s, w, o, x); } else { HolderHere(s, w, o); }
    }
  }

  lemma WorkKeepsKnown(s: State, w: nat, o: Outcome)
    requires Inv(s) && Enabled(s, Work(w, o))
    ensures KnownOnly(Apply(s, Work(w, o)))
  {
    if Touched(s, w, o).Some? { TouchedTask(s, w, o, Touched(s, w, o).value); }
    var s' := Apply(s, Work(w, o));
    forall id | ViewOf(s', id) != View(None, false, false, false, false) ensures id in s'.place {
      if Touched(s, w, o) != Some(id) {
        ViewElsewhere(s, w, o, id);
        assert id in s.place;
        PlaceElsewhere(s, w, o, id);
      }
    }
    KnownByView(s');
  }

  lemma KnownByView(s: State)
    requires forall id | ViewOf(s, id) != View(None, false, false, false, false) :: id in s.place
    ensures KnownOnly(s)
  {
    forall id | id in s.redis.status.Keys + s.redis.processing + s.redis.completed + s.redis.failed + s.torn
      ensures id in s.place
    {
      assert ViewOf(s, id) != View(None, false, false, false, false);
    }
  }

  lemma WorkKeepsTasks(s: State, w: nat, o: Outcome, id: TaskId)
    requires Inv(s) && Enabled(s, Work(w, o)) && id in Track(s, w, o)
    ensures TaskOk(Apply(s, Work(w, o)), id)
  {
    if Touched(s, w, o) == Some(id) {
      TouchedTask(s, w, o, id);
    } else {
      assert id in s.place && TaskOk(s, id);
      UntouchedTask(s, w, o, id);
    }
  }

  lemma WorkKeepsInv(s: State, w: nat, o: Outcome)
    requires Inv(s) && Enabled(s, Work(w, o))
    ensures Inv(Apply(s, Work(w, o)))
  {
    var s' := Apply(s, Work(w, o));
    WorkKeepsReady(s, w, o);
    WorkKeepsHolders(s, w, o);
    WorkKeepsKnown(s, w, o);
    forall id | id in s'.place ensures TaskOk(s', id) { WorkKeepsTasks(s, w, o, id); }
  }

  lemma PushKeepsTask(s: State, e: Event, id: TaskId)
    requires Enabled(s, e) && e.Push? && id in s.place && TaskOk(s, id)
    ensures TaskOk(Apply(s, e), id) && ViewOf(Apply(s, e), id) == ViewOf(s, id)
  {
    var ready' := Apply(s, e).redis.ready;
    if id in s.redis.ready {
      var i :| 0 <= i < |s.redis.ready| && s.redis.ready[i] == id;
      assert ready'[i + 1] == id;
    }
    assert ready'[0] == e.id;
  }

  lemma AdmitKeepsTask(s: State, e: Event, id: TaskId)
    requires KnownOnly(s) && Enabled(s, e) && e.Admit? && (id in s.place ==> TaskOk(s, id)) && id in Apply(s, e).place
    ensures TaskOk(Apply(s, e), id) && ViewOf(Apply(s, e), id) == ViewOf(s, id)
  {
  }

  lemma ProducerKeepsTask(s: State, e: Event, id: TaskId)
    requires KnownOnly(s) && Enabled(s, e) && !e.Work? && (id in s.place ==> TaskOk(s, id)) && id in Apply(s, e).place
    ensures TaskOk(Apply(s, e), id)
    ensures Rank(ViewOf(s, id).status) <= Rank(ViewOf(Apply(s, e), id).status)
  {
    if e.Push? { PushKeepsTask(s, e, id); }
    if e.Admit? { AdmitKeepsTask(s, e, id); }
  }

  lemma PushOnStack(ready: seq<TaskId>, place: map<TaskId, Place>, id: TaskId, stamp: nat)
    requires StackOk(ready, place) && id !in ready
    requires forall i | 0 <= i < |ready| :: place[ready[i]].stamp < stamp
    ensures StackOk([id] + ready, place[id := Ready(stamp)])
  {
    var ready', place' := [id] + ready, place[id := Ready(stamp)];
    forall i | 0 <= i < |ready'|
      ensures ready'[i] in place' && place'[ready'[i]] == if i == 0 then Ready(stamp) else place[ready[i - 1]]
    {
    }
  }

  lemma ProducerKeepsInv(s: State, e: Event)
    requires Inv(s) && Enabled(s, e) && !e.Work?
    ensures Inv(Apply(s, e))
  {
    var s' := Apply(s, e);
    forall id | id in s'.place ensures TaskOk(s', id) { ProducerKeepsTask(s, e, id); }
    if e.Push? {
      forall i | 0 <= i < |s.redis.ready| ensures s.place[s.redis.ready[i]].stamp < s.pushes {
        assert TaskOk(s, s.redis.ready[i]);
      }
      PushOnStack(s.redis.ready, s.place, e.id, s.pushes);
    }
    if e.LoseHash? { assert TaskOk(s, e.id); }
  }
}
