/** Concrete runs that show where two promises of the queue fail. */
module WorkerWitness {
  import opened Wrappers
  import opened WorkerProtocol

  lemma Prepend(s: State, e: Event, es: seq<Event>) returns (run: seq<Event>)
    requires Enabled(s, e) && CanRun(Apply(s, e), es)
    ensures run == [e] + es && CanRun(s, run) && After(s, run) == After(Apply(s, e), es)
  {
    run := [e] + es;
    assert run[1..] == es;
  }

  lemma NoEvents(s: State)
    ensures CanRun(s, []) && After(s, []) == s
  {
  }

  const FINE := Outcome(true, Ok, true)
  const LOST := Outcome(true, Error, true)

  /** Worker `w` at `pc` over the data `r`, everything else as in `s`. */
  function Moved(s: State, w: nat, r: Redis, pc: Pc): State
    requires w < |s.workers|
  {
    s.(redis := r, workers := s.workers[w := pc])
  }

  /** An answered step from one point to another at which the task is still held. */
  lemma Advance(s: State, w: nat, r: Redis, pc: Pc, next: Pc)
    requires w < |s.workers| && Holds(pc).Some? && Holds(next).Some? && next == OnOk(r, s.stop, pc, true)
    ensures Enabled(Moved(s, w, r, pc), Work(w, FINE))
    ensures Apply(Moved(s, w, r, pc), Work(w, FINE)) == Moved(s, w, Effect(r, pc), next)
  {
  }

  lemma Taking(s: State, w: nat, id: TaskId)
    requires w < |s.workers| && s.workers[w] == Check && !s.stop && s.redis.ready == [id]
    ensures Enabled(s, Work(w, FINE))
    ensures
      var polling := Apply(s, Work(w, FINE));
      var taken := s.(redis := s.redis.(ready := []), place := s.place[id := Held(w)]);
      Enabled(polling, Work(w, FINE)) && Apply(polling, Work(w, FINE)) == Moved(taken, w, taken.redis, Load(id))
  {
  }

  /** The SADD to completed takes effect and its reply is lost. */
  lemma Losing(s: State, w: nat, r: Redis, id: TaskId)
    requires w < |s.workers|
    ensures Enabled(Moved(s, w, r, JoinSet(id, true)), Work(w, LOST))
    ensures Apply(Moved(s, w, r, JoinSet(id, true)), Work(w, LOST)) ==
      Moved(s.(torn := s.torn + {id}), w, r.(completed := r.completed + {id}), FailStatus(id, true))
  {
  }

  /** A worker in the outer handler after a lost reply puts the task into the failed set as well. */
  lemma HandlerRun(s: State, w: nat, r: Redis, id: TaskId) returns (es: seq<Event>)
    requires w < |s.workers|
    ensures CanRun(Moved(s, w, r, FailStatus(id, true)), es)
    ensures
      var t := After(Moved(s, w, r, FailStatus(id, true)), es).redis;
      t.completed == r.completed && t.failed == r.failed + {id}
  {
    hide CanRun, After, Apply, Enabled, Moved;
    var marked := r.(status := r.status[id := Failed]);
    var cleared := marked.(processing := marked.processing - {id});
    var joined := cleared.(failed := cleared.failed + {id});
    Advance(s, w, r, FailStatus(id, true), FailLeave(id, true));
    Advance(s, w, marked, FailLeave(id, true), FailJoin(id));
    Advance(s, w, cleared, FailJoin(id), FailPublish(id));
    var last := Moved(s, w, joined, FailPublish(id));
    NoEvents(last);
    RedisOfMoved(s, w, joined, FailPublish(id));
    es := Prepend(Moved(s, w, cleared, FailJoin(id)), Work(w, FINE), []);
    es := Prepend(Moved(s, w, marked, FailLeave(id, true)), Work(w, FINE), es);
    es := Prepend(Moved(s, w, r, FailStatus(id, true)), Work(w, FINE), es);
  }

  lemma RedisOfMoved(s: State, w: nat, r: Redis, pc: Pc)
    requires w < |s.workers|
    ensures Moved(s, w, r, pc).redis == r
  {
  }

  /** From the parameters to the end, when the reply to SADD completed is lost. */
  lemma LostReplyRun(s: State, w: nat, r: Redis, id: TaskId) returns (es: seq<Event>)
    requires w < |s.workers|
    ensures CanRun(Moved(s, w, r, Prepare(id)), es)
    ensures id in After(Moved(s, w, r, Prepare(id)), es).redis.completed * After(Moved(s, w, r, Prepare(id)), es).redis.failed
  {
    hide CanRun, After, Apply, Enabled, Moved;
    var stored := r.(status := r.status[id := Completed]);
    var cleared := stored.(processing := stored.processing - {id});
    Advance(s, w, r, Prepare(id), Analyse(id));
    Advance(s, w, r, Analyse(id), SaveStatus(id, true));
    Advance(s, w, r, SaveStatus(id, true), LeaveSet(id, true));
    Advance(s, w, stored, LeaveSet(id, true), JoinSet(id, true));
    Losing(s, w, cleared, id);
    es := HandlerRun(s.(torn := s.torn + {id}), w, cleared.(completed := cleared.completed + {id}), id);
    es := Prepend(Moved(s, w, cleared, JoinSet(id, true)), Work(w, LOST), es);
    es := Prepend(Moved(s, w, stored, LeaveSet(id, true)), Work(w, FINE), es);
    es := Prepend(Moved(s, w, r, SaveStatus(id, true)), Work(w, FINE), es);
    es := Prepend(Moved(s, w, r, Analyse(id)), Work(w, FINE), es);
    es := Prepend(Moved(s, w, r, Prepare(id)), Work(w, FINE), es);
  }

  lemma ServiceRun(s: State, w: nat, id: TaskId) returns (es: seq<Event>)
    requires w < |s.workers| && s.workers[w] == Check && !s.stop && s.redis.ready == [id] && id in s.redis.status
    ensures CanRun(s, es) && id in After(s, es).redis.completed * After(s, es).redis.failed
  {
    hide CanRun, After, Apply, Enabled, Moved;
    var taken := s.(redis := s.redis.(ready := []), place := s.place[id := Held(w)]);
    var r := taken.redis;
    var marked := r.(status := r.status[id := Processing]);
    Taking(s, w, id);
    Advance(taken, w, r, Load(id), MarkStatus(id));
    Advance(taken, w, r, MarkStatus(id), MarkSet(id));
    Advance(taken, w, marked, MarkSet(id), Prepare(id));
    es := LostReplyRun(taken, w, marked.(processing := marked.processing + {id}), id);
    es := Prepend(Moved(taken, w, marked, MarkSet(id)), Work(w, FINE), es);
    es := Prepend(Moved(taken, w, r, MarkStatus(id)), Work(w, FINE), es);
    es := Prepend(Moved(taken, w, r, Load(id)), Work(w, FINE), es);
    es := Prepend(Apply(s, Work(w, FINE)), Work(w, FINE), es);
    es := Prepend(s, Work(w, FINE), es);
  }

  /** Enqueue a task from a state with room for it. */
  lemma EnqueueRun(s: State, id: TaskId)
    requires id !in s.place && |s.redis.processing| < GLOBAL_CONCURRENT_LIMIT
    ensures var es := [Admit(id, GLOBAL_CONCURRENT_LIMIT), Save(id), Push(id)];
      && CanRun(s, es)
      && var t := After(s, es);
         t == s.(redis := s.redis.(ready := [id] + s.redis.ready, status := s.redis.status[id := Queued]),
                 place := s.place[id := Ready(s.pushes)], pushes := s.pushes + 1)
  {
    hide CanRun, After;
    var s1 := Apply(s, Admit(id, GLOBAL_CONCURRENT_LIMIT));
    var s2 := Apply(s1, Save(id));
    NoEvents(Apply(s2, Push(id)));
    var es := Prepend(s2, Push(id), []);
    es := Prepend(s1, Save(id), es);
    es := Prepend(s, Admit(id, GLOBAL_CONCURRENT_LIMIT), es);
    assert es == [Admit(id, GLOBAL_CONCURRENT_LIMIT), Save(id), Push(id)];
    assert s.place[id := Admitted][id := Saved][id := Ready(s.pushes)] == s.place[id := Ready(s.pushes)];
  }

  lemma {:induction false} Concat(s: State, es: seq<Event>, fs: seq<Event>)
    requires CanRun(s, es) && CanRun(After(s, es), fs)
    ensures CanRun(s, es + fs) && After(s, es + fs) == After(After(s, es), fs)
    decreases |es|
  {
    if es == [] {
      assert es + fs == fs;
    } else {
      Concat(Apply(s, es[0]), es[1..], fs);
      assert (es + fs)[1..] == es[1..] + fs;
    }
  }

  /** One worker, one task, one lost reply: the task ends in both terminal sets. */
  lemma LostReplyOverlaps(id: TaskId) returns (es: seq<Event>)
    ensures CanRun(Init(1), es)
    ensures id in After(Init(1), es).redis.completed * After(Init(1), es).redis.failed
  {
    EnqueueRun(Init(1), id);
    var first := [Admit(id, GLOBAL_CONCURRENT_LIMIT), Save(id), Push(id)];
    var rest := ServiceRun(After(Init(1), first), 0, id);
    Concat(Init(1), first, rest);
    es := first + rest;
  }

  /** Two tasks enqueued one after the other: the next pop takes the later one. */
  lemma LaterTaskFirst(a: TaskId, b: TaskId) returns (es: seq<Event>)
    requires a != b
    ensures CanRun(Init(1), es) && After(Init(1), es).redis.ready == [b, a]
    ensures es == [Admit(a, GLOBAL_CONCURRENT_LIMIT), Save(a), Push(a)] + [Admit(b, GLOBAL_CONCURRENT_LIMIT), Save(b), Push(b)]
  {
    EnqueueRun(Init(1), a);
    var first := [Admit(a, GLOBAL_CONCURRENT_LIMIT), Save(a), Push(a)];
    var second := [Admit(b, GLOBAL_CONCURRENT_LIMIT), Save(b), Push(b)];
    EnqueueRun(After(Init(1), first), b);
    Concat(Init(1), first, second);
    es := first + second;
  }
}
