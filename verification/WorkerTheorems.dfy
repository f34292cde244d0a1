/** What the worker protocol guarantees over whole runs, from its start with any number of workers. */
module WorkerTheorems {
  import opened Wrappers
  import opened WorkerProtocol
  import opened WorkerSafety

  lemma InitInv(workers: nat)
    ensures Inv(Init(workers))
  {
  }

  lemma StepKeepsInv(s: State, e: Event)
    requires Inv(s) && Enabled(s, e)
    ensures Inv(Apply(s, e))
  {
    if e.Work? { WorkKeepsInv(s, e.worker, e.outcome); } else { ProducerKeepsInv(s, e); }
  }

  lemma {:induction false} RunKeepsInv(s: State, es: seq<Event>)
    requires Inv(s) && CanRun(s, es)
    ensures Inv(After(s, es))
    decreases |es|
  {
    if es != [] {
      StepKeepsInv(s, es[0]);
      RunKeepsInv(Apply(s, es[0]), es[1..]);
    }
  }

  // ---- statuses climb, terminal sets are permanent ----

  lemma StepClimbs(s: State, e: Event, id: TaskId)
    requires Inv(s) && Enabled(s, e)
    ensures Rank(ViewOf(s, id).status) <= Rank(ViewOf(Apply(s, e), id).status)
  {
    if e.Work? {
      if Touched(s, e.worker, e.outcome) == Some(id) {
        TouchedTask(s, e.worker, e.outcome, id);
      } else {
        ViewElsewhere(s, e.worker, e.outcome, id);
      }
    } else if id in Apply(s, e).place {
      ProducerKeepsTask(s, e, id);
    }
  }

  /** Along every run a status only climbs: queued or missing, processing, completed, failed. */
  lemma {:induction false} StatusOnlyClimbs(s: State, es: seq<Event>, id: TaskId)
    requires Inv(s) && CanRun(s, es)
    ensures Rank(ViewOf(s, id).status) <= Rank(ViewOf(After(s, es), id).status)
    decreases |es|
  {
    if es != [] {
      StepClimbs(s, es[0], id);
      StepKeepsInv(s, es[0]);
      StatusOnlyClimbs(Apply(s, es[0]), es[1..], id);
    }
  }

  /** So a task that was started is never queued again, a finished one is never processed again, and a failed one stays failed. */
  lemma StatusNeverGoesBack(s: State, es: seq<Event>, id: TaskId)
    requires Inv(s) && CanRun(s, es)
    ensures var was, now := ViewOf(s, id).status, ViewOf(After(s, es), id).status;
      && (was == Some(Processing) ==> now == Some(Processing) || now == Some(Completed) || now == Some(Failed))
      && (was == Some(Completed) ==> now == Some(Completed) || now == Some(Failed))
      && (was == Some(Failed) ==> now == Some(Failed))
  {
    hide Inv, ViewOf, After, CanRun;
    StatusOnlyClimbs(s, es, id);
  }

  lemma StepKeepsTerminal(s: State, e: Event)
    requires Enabled(s, e)
    ensures s.redis.completed <= Apply(s, e).redis.completed && s.redis.failed <= Apply(s, e).redis.failed
    ensures s.torn <= Apply(s, e).torn
  {
  }

  lemma {:induction false} TerminalSetsGrow(s: State, es: seq<Event>)
    requires CanRun(s, es)
    ensures var t := After(s, es);
      s.redis.completed <= t.redis.completed && s.redis.failed <= t.redis.failed && s.torn <= t.torn
    decreases |es|
  {
    if es != [] {
      StepKeepsTerminal(s, es[0]);
      TerminalSetsGrow(Apply(s, es[0]), es[1..]);
    }
  }

  lemma ConsistentTask(s: State, id: TaskId)
    requires Inv(s)
    ensures Consistent(ViewOf(s, id))
  {
    if id in s.place { assert TaskOk(s, id); }
  }

  /** Membership in a terminal set fixes the stored status in that state and in every later one. */
  lemma TerminalForever(s: State, es: seq<Event>, id: TaskId)
    requires Inv(s) && CanRun(s, es)
    ensures var t := After(s, es);
      && (id in s.redis.failed ==> id in t.redis.failed && id in t.redis.status && t.redis.status[id] == Failed)
      && (id in s.redis.completed ==> id in t.redis.completed && id in t.redis.status)
      && (id in s.redis.completed && id !in t.torn ==> t.redis.status[id] == Completed)
  {
    RunKeepsInv(s, es);
    TerminalSetsGrow(s, es);
    ConsistentTask(After(s, es), id);
  }

  /** The terminal sets overlap exactly in the tasks whose SADD to completed took effect unseen and which then failed. */
  lemma TerminalOverlap(workers: nat, es: seq<Event>)
    requires CanRun(Init(workers), es)
    ensures var t := After(Init(workers), es);
      t.torn <= t.redis.completed && t.redis.completed * t.redis.failed == t.torn * t.redis.failed
  {
    InitInv(workers);
    RunKeepsInv(Init(workers), es);
    var t := After(Init(workers), es);
    forall id ensures Consistent(ViewOf(t, id)) { ConsistentTask(t, id); }
    forall id ensures id in t.torn ==> id in t.redis.completed { assert Consistent(ViewOf(t, id)); }
    forall id | id in t.redis.completed * t.redis.failed ensures id in t.torn { assert Consistent(ViewOf(t, id)); }
  }

  /** The one fault that can tear a task: the SADD to completed takes effect and its reply is lost. */
  predicate LosesReply(s: State, e: Event)
    requires Enabled(s, e)
  {
    e.Work? && s.workers[e.worker].JoinSet? && s.workers[e.worker].ok
      && e.outcome.applied && e.outcome.reply.Error?
  }

  predicate KeepsReplies(s: State, es: seq<Event>)
    requires CanRun(s, es)
    decreases |es|
  {
    es == [] || (!LosesReply(s, es[0]) && KeepsReplies(Apply(s, es[0]), es[1..]))
  }

  lemma {:induction false} TornOnlyByLostReply(s: State, es: seq<Event>)
    requires CanRun(s, es) && s.torn == {}
    ensures KeepsReplies(s, es) <==> After(s, es).torn == {}
    decreases |es|
  {
    if es != [] {
      if LosesReply(s, es[0]) {
        TerminalSetsGrow(Apply(s, es[0]), es[1..]);
        assert s.workers[es[0].worker].id in Apply(s, es[0]).torn;
      } else {
        TornOnlyByLostReply(Apply(s, es[0]), es[1..]);
      }
    }
  }

  /** Without that fault, whatever else fails, no task is ever both completed and failed. */
  lemma TerminalSetsDisjoint(workers: nat, es: seq<Event>)
    requires CanRun(Init(workers), es) && KeepsReplies(Init(workers), es)
    ensures After(Init(workers), es).redis.completed !! After(Init(workers), es).redis.failed
  {
    TornOnlyByLostReply(Init(workers), es);
    TerminalOverlap(workers, es);
    var t := After(Init(workers), es);
    assert t.torn * t.redis.failed == {};
  }

  // ---- every task is in exactly one place ----

  function Positions(s: State, id: TaskId): set<nat> {
    set i: nat | i < |s.redis.ready| && s.redis.ready[i] == id
  }

  function Holders(s: State, id: TaskId): set<nat> {
    set w: nat | w < |s.workers| && Holds(s.workers[w]) == Some(id)
  }

  /** Not in the queue and not with a worker: still with the producer, finished, dropped or abandoned. */
  predicate Elsewhere(place: Place) { !place.Ready? && !place.Held? }

  /** The ready list and the workers together hold a task once, or not at all when it is elsewhere. */
  lemma ExactlyOnePlace(s: State, id: TaskId)
    requires Inv(s) && id in s.place
    ensures |Positions(s, id)| + |Holders(s, id)| + (if Elsewhere(s.place[id]) then 1 else 0) == 1
    ensures s.place[id] == Finished ==> FinishedOk(ViewOf(s, id))
    ensures s.place[id] == Dropped ==> ViewOf(s, id) == View(None, false, false, false, false)
  {
    assert TaskOk(s, id);
    var p := s.place[id];
    forall i | i in Positions(s, id) ensures p.Ready? {}
    forall w | w in Holders(s, id) ensures p == Held(w) {}
    if p.Ready? {
      var i: nat :| i < |s.redis.ready| && s.redis.ready[i] == id;
      forall j | j in Positions(s, id) ensures j == i {}
      assert Positions(s, id) == {i} && Holders(s, id) == {};
    } else if p.Held? {
      assert Positions(s, id) == {} && Holders(s, id) == {p.worker};
    } else {
      assert Positions(s, id) == {} && Holders(s, id) == {};
    }
  }

  /** The program points at which a held task is in the processing set. */
  predicate Marked(pc: Pc) {
    pc.Prepare? || pc.Analyse? || pc.Recover? || pc.SaveStatus? || pc.LeaveSet?
    || (pc.FailStatus? && !pc.cleared) || (pc.FailLeave? && !pc.cleared)
  }

  /** The processing set is the marked tasks in the workers' hands, and those abandoned while marked. */
  lemma ProcessingExact(s: State, id: TaskId)
    requires Inv(s)
    ensures id in s.redis.processing <==>
      (id in s.place && s.place[id] == Abandoned(true))
      || exists w :: 0 <= w < |s.workers| && Holds(s.workers[w]) == Some(id) && Marked(s.workers[w])
  {
    if id in s.place { assert TaskOk(s, id); }
    if id in s.redis.processing && s.place[id].Held? {
      assert Marked(s.workers[s.place[id].worker]);
    }
  }

  // ---- no task is lost in the count ----

  function PushedIds(s: State): set<TaskId> {
    set id | id in s.place && s.place[id] != Admitted && s.place[id] != Saved
  }

  function Settled(s: State): set<TaskId> {
    set id | id in s.place && (s.place[id].Finished? || s.place[id].Dropped? || s.place[id].Abandoned?)
  }

  function Busy(s: State): set<nat> { set w: nat | w < |s.workers| && Holds(s.workers[w]).Some? }

  lemma WorkKeepsPushed(s: State, w: nat, o: Outcome)
    requires ReadyOk(s) && HoldersOk(s) && Enabled(s, Work(w, o))
    ensures PushedIds(Apply(s, Work(w, o))) == PushedIds(s)
  {
    if s.redis.ready != [] { assert s.place[s.redis.ready[0]].Ready?; }
    if Holds(s.workers[w]).Some? { assert s.place[s.workers[w].id] == Held(w); }
    assert Track(s, w, o).Keys == s.place.Keys;
    forall id | id in s.place ensures id in PushedIds(Apply(s, Work(w, o))) <==> id in PushedIds(s) {
      if Touched(s, w, o) != Some(id) { PlaceElsewhere(s, w, o, id); }
    }
  }

  lemma ProducerPushes(s: State, e: Event)
    requires Enabled(s, e) && !e.Work?
    ensures PushedIds(Apply(s, e)) == if e.Push? then PushedIds(s) + {e.id} else PushedIds(s)
    ensures e.Push? ==> e.id !in PushedIds(s)
  {
  }

  lemma StepCountsPushes(s: State, e: Event)
    requires ReadyOk(s) && HoldersOk(s) && Enabled(s, e) && |PushedIds(s)| == s.pushes
    ensures |PushedIds(Apply(s, e))| == Apply(s, e).pushes
  {
    if e.Work? { WorkKeepsPushed(s, e.worker, e.outcome); } else { ProducerPushes(s, e); }
  }

  lemma {:induction false} RunCountsPushes(s: State, es: seq<Event>)
    requires Inv(s) && CanRun(s, es) && |PushedIds(s)| == s.pushes
    ensures |PushedIds(After(s, es))| == After(s, es).pushes
    decreases |es|
  {
    if es != [] {
      StepCountsPushes(s, es[0]);
      StepKeepsInv(s, es[0]);
      RunCountsPushes(Apply(s, es[0]), es[1..]);
    }
  }

  lemma {:induction false} InjectiveSize<A, B>(m: map<A, B>)
    requires forall x, y | x in m && y in m && m[x] == m[y] :: x == y
    ensures |m.Values| == |m.Keys|
    decreases |m|
  {
    if m != map[] {
      var x :| x in m;
      var rest := m - {x};
      assert m.Keys == rest.Keys + {x};
      assert m.Values == rest.Values + {m[x]} by {
        forall v | v in m.Values ensures v in rest.Values + {m[x]} {
          var y :| y in m && m[y] == v;
          if y != x { assert y in rest && rest[y] == v; }
        }
      }
      assert m[x] !in rest.Values;
      InjectiveSize(rest);
    }
  }

  lemma {:induction false} DistinctSize(ids: seq<TaskId>)
    requires forall i, j | 0 <= i < j < |ids| :: ids[i] != ids[j]
    ensures |set id | id in ids| == |ids|
  {
    if ids != [] {
      DistinctSize(ids[1..]);
      assert (set id | id in ids) == (set id | id in ids[1..]) + {ids[0]};
    }
  }

  lemma ReadySize(s: State)
    requires Inv(s)
    ensures |set id | id in s.place && s.place[id].Ready?| == |s.redis.ready|
  {
    DistinctSize(s.redis.ready);
    forall id | id in s.place && s.place[id].Ready? ensures id in s.redis.ready { assert TaskOk(s, id); }
    assert (set id | id in s.place && s.place[id].Ready?) == set id | id in s.redis.ready;
  }

  lemma BusySize(s: State)
    requires Inv(s)
    ensures |set id | id in s.place && s.place[id].Held?| == |Busy(s)|
  {
    var m := map w | w in Busy(s) :: s.workers[w].id;
    InjectiveSize(m);
    assert m.Keys == Busy(s);
    forall id | id in s.place && s.place[id].Held? ensures id in m.Values {
      assert TaskOk(s, id);
      assert m[s.place[id].worker] == id;
    }
    assert m.Values == set id | id in s.place && s.place[id].Held?;
  }

  lemma UnionSize(all: set<TaskId>, a: set<TaskId>, b: set<TaskId>, c: set<TaskId>)
    requires all == a + b + c && a !! b && a !! c && b !! c
    ensures |all| == |a| + |b| + |c|
  {
    assert |a + b| == |a| + |b|;
    assert (a + b) !! c;
  }

  lemma PartitionSize(s: State)
    ensures |PushedIds(s)| == |set id | id in s.place && s.place[id].Ready?|
      + |set id | id in s.place && s.place[id].Held?| + |Settled(s)|
  {
    var ready := set id | id in s.place && s.place[id].Ready?;
    var held := set id | id in s.place && s.place[id].Held?;
    UnionSize(PushedIds(s), ready, held, Settled(s));
  }

  /** Every id ever pushed is counted once: waiting, with a worker, finished, dropped or abandoned. */
  lemma NothingUnaccounted(workers: nat, es: seq<Event>)
    requires CanRun(Init(workers), es)
    ensures var t := After(Init(workers), es);
      t.pushes == |t.redis.ready| + |Busy(t)| + |Settled(t)|
  {
    InitInv(workers);
    RunKeepsInv(Init(workers), es);
    assert PushedIds(Init(workers)) == {};
    RunCountsPushes(Init(workers), es);
    var t := After(Init(workers), es);
    ReadySize(t);
    BusySize(t);
    PartitionSize(t);
  }

  // ---- runs without faults ----

  /** The analysis may raise anywhere, but every Redis command is answered and nobody is cancelled or killed. */
  predicate Faultless(s: State, e: Event)
    requires Enabled(s, e)
  {
    e.Work? ==>
      var pc := s.workers[e.worker];
      e.outcome.reply.Ok? || (e.outcome.reply.Error? && (pc.Prepare? || pc.Analyse? || pc.Recover? || pc.FailPublish?))
  }

  predicate FaultlessRun(s: State, es: seq<Event>)
    requires CanRun(s, es)
    decreases |es|
  {
    es == [] || (Faultless(s, es[0]) && FaultlessRun(Apply(s, es[0]), es[1..]))
  }

  ghost predicate NothingLost(s: State) {
    && (forall id | id in s.place :: !s.place[id].Abandoned?)
    && (forall pc | pc in s.workers :: !pc.Sleep? && !pc.Dead? && (pc.FailStatus? || pc.FailLeave? ==> !pc.cleared))
  }

  lemma FaultlessStep(s: State, e: Event)
    requires NothingLost(s) && Enabled(s, e) && Faultless(s, e)
    ensures NothingLost(Apply(s, e))
  {
    if e.Work? {
      var s' := Apply(s, e);
      assert s.workers[e.worker] in s.workers;
      forall pc | pc in s'.workers && pc !in s.workers
        ensures pc == Next(s.redis, s.stop, s.workers[e.worker], e.outcome) {}
    }
  }

  /** Without faults nothing is abandoned, and the processing set is exactly the marked tasks in the workers' hands. */
  lemma {:induction false} FaultlessKeepsAll(s: State, es: seq<Event>)
    requires Inv(s) && NothingLost(s) && CanRun(s, es) && FaultlessRun(s, es)
    ensures var t := After(s, es);
      && NothingLost(t)
      && forall id :: id in t.redis.processing <==>
           exists w :: 0 <= w < |t.workers| && Holds(t.workers[w]) == Some(id) && Marked(t.workers[w])
    decreases |es|
  {
    if es == [] {
      forall id ensures id in s.redis.processing <==>
        exists w :: 0 <= w < |s.workers| && Holds(s.workers[w]) == Some(id) && Marked(s.workers[w])
      {
        ProcessingExact(s, id);
      }
    } else {
      FaultlessStep(s, es[0]);
      StepKeepsInv(s, es[0]);
      FaultlessKeepsAll(Apply(s, es[0]), es[1..]);
    }
  }

  // ---- a leaked task blocks the queue ----

  ghost predicate Leaked(s: State, id: TaskId) { id in s.place && s.place[id] == Abandoned(true) }

  lemma LeakIsUntouched(s: State, w: nat, o: Outcome, id: TaskId)
    requires ReadyOk(s) && HoldersOk(s) && Enabled(s, Work(w, o)) && Leaked(s, id)
    ensures Touched(s, w, o) != Some(id)
  {
    if Holds(s.workers[w]).Some? { assert s.place[s.workers[w].id] == Held(w); }
  }

  lemma WorkKeepsLeak(s: State, w: nat, o: Outcome, id: TaskId)
    requires ReadyOk(s) && HoldersOk(s) && Enabled(s, Work(w, o)) && Leaked(s, id)
    ensures id in Track(s, w, o) && Track(s, w, o)[id] == s.place[id]
  {
    hide Track, Touched, ReadyOk, HoldersOk;
    LeakIsUntouched(s, w, o, id);
    PlaceElsewhere(s, w, o, id);
  }

  lemma StepKeepsLeak(s: State, e: Event, id: TaskId)
    requires Inv(s) && Enabled(s, e) && Leaked(s, id)
    ensures Leaked(Apply(s, e), id)
  {
    hide Track, Perform, Next, TaskOk, ReadyOk, HoldersOk, KnownOnly;
    if e.Work? { WorkKeepsLeak(s, e.worker, e.outcome, id); }
  }

  lemma LeaksAreProcessing(s: State, leaks: set<TaskId>)
    requires Inv(s) && forall id | id in leaks :: Leaked(s, id)
    ensures leaks <= s.redis.processing && |leaks| <= |s.redis.processing|
  {
    forall id | id in leaks ensures id in s.redis.processing { assert TaskOk(s, id); }
    SubsetSize(leaks, s.redis.processing);
  }

  lemma {:induction false} SubsetSize<T>(small: set<T>, big: set<T>)
    requires small <= big
    ensures |small| <= |big|
  {
    if small != {} {
      var x :| x in small;
      SubsetSize(small - {x}, big - {x});
    }
  }

  lemma LeaksStay(s: State, e: Event, leaks: set<TaskId>)
    requires Inv(s) && Enabled(s, e) && forall id | id in leaks :: Leaked(s, id)
    ensures e.Admit? ==> |leaks| < e.limit
    ensures forall id | id in leaks :: Leaked(Apply(s, e), id)
  {
    LeaksAreProcessing(s, leaks);
    forall id | id in leaks ensures Leaked(Apply(s, e), id) { StepKeepsLeak(s, e, id); }
  }

  /**
   As long as nobody cancels it, a task abandoned while marked stays in the processing set; as
   many of them as the limit in force stop every later enqueue.
   */
  lemma {:induction false} LeaksBlockTheQueue(s: State, es: seq<Event>, leaks: set<TaskId>)
    requires Inv(s) && CanRun(s, es) && forall id | id in leaks :: Leaked(s, id)
    ensures forall id | id in leaks :: id in After(s, es).redis.processing
    ensures forall i | 0 <= i < |es| && es[i].Admit? :: |leaks| < es[i].limit
    decreases |es|
  {
    hide Inv, Leaked, Enabled, Apply;
    if es == [] {
      LeaksAreProcessing(s, leaks);
    } else {
      LeaksStay(s, es[0], leaks);
      StepKeepsInv(s, es[0]);
      LeaksBlockTheQueue(Apply(s, es[0]), es[1..], leaks);
      forall i | 0 <= i < |es| && es[i].Admit? ensures |leaks| < es[i].limit {
        if i > 0 { assert es[1..][i - 1] == es[i]; }
      }
    }
  }

  // ---- order of service ----

  /** LPUSH and BLPOP work on the same end: the task taken is always the newest one waiting. */
  lemma NewestFirst(s: State, id: TaskId)
    requires Inv(s) && s.redis.ready != [] && id in s.redis.ready[1..]
    ensures s.place[id].Ready? && s.place[s.redis.ready[0]].Ready?
    ensures s.place[id].stamp < s.place[s.redis.ready[0]].stamp
  {
  }

  /** First in, first out, as the queue service documents it, holds for a pop exactly when one task waits. */
  lemma OldestFirstIff(s: State)
    requires Inv(s) && s.redis.ready != []
    ensures (forall id | id in s.redis.ready :: s.place[s.redis.ready[0]].stamp <= s.place[id].stamp)
      <==> |s.redis.ready| == 1
  {
    if |s.redis.ready| > 1 { assert s.redis.ready[1] in s.redis.ready; }
  }
}
