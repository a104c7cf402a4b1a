/** What each step does to the runtime's data, in terms that do not mention the
    code: a step does at most one deed, and the deed says the whole change. */
module UthreadDeeds {
  import opened Uthreads
  import opened UthreadSafety
  import opened UthreadSteps
  import opened UthreadMoves
  import opened UthreadRuns

  /** Something that a thread does, or that an LWP does with it. */
  datatype Event =
    | Acquired(m: Mid)                         // it finds the mutex free and becomes its owner
    | Refused(m: Mid)                          // its trylock finds an owner
    | Released(m: Mid, to: Option<Tid>)        // its mutex goes to the first waiter, or to nobody
    | Roused(c: Cid, who: Option<Tid>)         // it takes the first waiter off a condition, if there is one
    | Readied(u: Tid)                          // it puts u, which may be itself, behind the runnable ones
    | Joined(q: Queue)                         // it goes to the end of a wait queue
    | Dispatched                               // an LWP takes it up

  datatype Deed = Deed(t: Tid, e: Event)

  function First(q: seq<Tid>): Option<Tid> {
    if q == [] then None else Some(q[0])
  }

  /** The mutexes with their waiters, the conditions and the run queues. */
  predicate SameData(s: State, s': State) {
    s'.mtx == s.mtx && s'.cond == s.cond && s'.runq == s.runq
  }

  /** What a deed needs, and all that it changes. */
  ghost predicate Changes(s: State, s': State, d: Deed) {
    match d.e
    case Acquired(m) =>
      && s'.cond == s.cond && s'.runq == s.runq
      && m in s.mtx && s.mtx[m] == Mutex(None, []) && s'.mtx == s.mtx[m := Mutex(Some(d.t), [])]
    case Refused(m) => m in s.mtx && s.mtx[m].owner != None && SameData(s, s')
    case Released(m, to) =>
      && s'.cond == s.cond && s'.runq == s.runq
      && m in s.mtx && s.mtx[m].owner == Some(d.t)
      && (match to
          case None => s.mtx[m].waiters == [] && s'.mtx == s.mtx[m := Mutex(None, [])]
          case Some(u) =>
            exists rest :: s.mtx[m].waiters == [u] + rest && s'.mtx == s.mtx[m := Mutex(Some(u), rest)])
    case Roused(c, who) =>
      && s'.mtx == s.mtx && s'.runq == s.runq && c in s.cond
      && (match who
          case None => s.cond[c] == [] && s'.cond == s.cond
          case Some(u) => exists rest :: s.cond[c] == [u] + rest && s'.cond == s.cond[c := rest])
    case Readied(u) =>
      && s'.mtx == s.mtx && s'.cond == s.cond && u in s.uth && u in s'.uth && s'.uth[u].state == Runnable
      && s.uth[u].prio < |s.runq| && s'.runq == s.runq[s.uth[u].prio := s.runq[s.uth[u].prio] + [u]]
    case Joined(MtxQ(m)) =>
      && s'.cond == s.cond && s'.runq == s.runq
      && m in s.mtx && s.mtx[m].owner != None
      && s'.mtx == s.mtx[m := Mutex(s.mtx[m].owner, s.mtx[m].waiters + [d.t])]
    case Joined(CondQ(c)) =>
      && s'.mtx == s.mtx && s'.runq == s.runq && c in s.cond && s'.cond == s.cond[c := s.cond[c] + [d.t]]
    case Dispatched =>
      && s'.mtx == s.mtx && s'.cond == s.cond && d.t in s'.uth && s'.uth[d.t].state == OnCpu
      && exists p :: IsHighest(s.runq, p) && s.runq[p][0] == d.t && s'.runq == s.runq[p := s.runq[p][1..]]
  }

  /** The highest priority at which somebody is runnable. */
  ghost predicate IsHighest(runq: seq<seq<Tid>>, p: int) {
    0 <= p < |runq| && runq[p] != [] && forall i :: p < i < |runq| ==> runq[i] == []
  }

  /** The deed of thread t's next step. */
  function PcEvent(s: State, pc: Pc): Option<Event> {
    match pc
    case LockTest(m) => if m in s.mtx && s.mtx[m].owner == None then Some(Acquired(m)) else None
    case TryTest(m) => Some(if m in s.mtx && s.mtx[m].owner == None then Acquired(m) else Refused(m))
    case UnlTest(m, _) => Some(Released(m, First(QueueOf(s, MtxQ(m)))))
    case SigTest(c) => Some(Roused(c, First(QueueOf(s, CondQ(c)))))
    case BcTest(c) => Some(Roused(c, First(QueueOf(s, CondQ(c)))))
    case WakeTest(u, _) => Some(Readied(u))
    case _ => None
  }

  function LeaveEvent(t: Tid, q: Option<Queue>): Event {
    match q case Some(w) => Joined(w) case None => Readied(t)
  }

  ghost function DeedOf(s: State, l: Lid): Option<Deed>
    requires l in s.lwp
  {
    match s.lwp[l]
    case Runs(t) =>
      if t !in s.uth then None else
      (match PcEvent(s, s.uth[t].pc) case Some(e) => Some(Deed(t, e)) case None => None)
    case Enqueue(t, q, _) => Some(Deed(t, LeaveEvent(t, q)))
    case Find =>
      var p := Highest(s.runq, |s.runq|);
      if p >= 0 then Some(Deed(s.runq[p][0], Dispatched)) else None
    case _ => None
  }

  ghost predicate StepIsDeed(s: State, l: Lid, s': State)
    requires l in s.lwp
  {
    match DeedOf(s, l) case Some(d) => Changes(s, s', d) case None => SameData(s, s')
  }

  // ---------------------------------------------------------------- steps of a running thread

  lemma LockingDeed(s: State, l: Lid, t: Tid, call: Call, mu: map<Cid, Mid>)
    requires l in s.lwp && t in s.uth && Locking(s.uth[t].pc) && ThreadStep(s, l, t, call, mu).Moved?
    ensures PcEvent(s, s.uth[t].pc) == None && SameData(s, ThreadStep(s, l, t, call, mu).s)
  {
    LockingIs(s, l, t, call, mu);
    hide ThreadStep;
  }

  lemma UnlockingDeed(s: State, l: Lid, t: Tid, call: Call, mu: map<Cid, Mid>)
    requires l in s.lwp && t in s.uth && Unlocking(s.uth[t].pc) && ThreadStep(s, l, t, call, mu).Moved?
    ensures PcEvent(s, s.uth[t].pc) == None && SameData(s, ThreadStep(s, l, t, call, mu).s)
  {
    UnlockingIs(s, l, t, call, mu);
    hide ThreadStep;
  }

  lemma PlainDeed(s: State, l: Lid, t: Tid, call: Call, mu: map<Cid, Mid>)
    requires l in s.lwp && t in s.uth && ThreadStep(s, l, t, call, mu).Moved?
    requires var pc := s.uth[t].pc; pc.User? || pc.WaitTake? || pc.WaitSet? || pc.Switch?
    ensures PcEvent(s, s.uth[t].pc) == None && SameData(s, ThreadStep(s, l, t, call, mu).s)
  {
    hide RunqEnqueue, Queued;
  }

  /** A step at a test of an owner or of a queue. */
  lemma TestDeed(s: State, l: Lid, t: Tid, call: Call, mu: map<Cid, Mid>)
    requires l in s.lwp && t in s.uth && Testing(s, t) && s.uth[t].pc.m in s.mtx && MtxOk(s, s.uth[t].pc.m)
    requires s.uth[t].pc.UnlTest? ==> OwnedBy(s, s.uth[t].pc.m, t)
    ensures ThreadStep(s, l, t, call, mu).Moved?
    ensures var s', e := ThreadStep(s, l, t, call, mu).s, PcEvent(s, s.uth[t].pc);
      match e case Some(e) => Changes(s, s', Deed(t, e)) case None => SameData(s, s')
  {
    TestIs(s, l, t, call, mu);
    hide ThreadStep;
  }

  lemma TakeDeed(s: State, l: Lid, t: Tid, call: Call, mu: map<Cid, Mid>)
    requires l in s.lwp && t in s.uth && Taking(s, t)
    requires s.uth[t].pc.UnlTest? ==> OwnedBy(s, s.uth[t].pc.m, t)
    ensures ThreadStep(s, l, t, call, mu).Moved?
    ensures var e := PcEvent(s, s.uth[t].pc);
      e.Some? && Changes(s, ThreadStep(s, l, t, call, mu).s, Deed(t, e.value))
  {
    TakingIs(s, l, t, call, mu);
    hide ThreadStep;
    var pc := s.uth[t].pc;
    var w := QueueOf(s, if pc.UnlTest? then MtxQ(pc.m) else CondQ(pc.c));
    assert w == [w[0]] + w[1..];
  }

  lemma NobodyDeed(s: State, l: Lid, t: Tid, call: Call, mu: map<Cid, Mid>)
    requires l in s.lwp && t in s.uth && FindsNobody(s, t) && !s.uth[t].pc.WaitSet?
    ensures ThreadStep(s, l, t, call, mu).Moved?
    ensures var e := PcEvent(s, s.uth[t].pc);
      e.Some? && Changes(s, ThreadStep(s, l, t, call, mu).s, Deed(t, e.value))
  {
    NobodyIs(s, l, t, call, mu);
    hide ThreadStep;
  }

  lemma WakeDeed(s: State, at: Places, mu: map<Cid, Mid>, l: Lid, call: Call)
    requires Inv(s, at, mu) && l in s.lwp && s.lwp[l].Runs? && s.lwp[l].t in s.uth && s.uth[s.lwp[l].t].pc.WakeTest?
    requires Next(s, l, call, mu).Moved?
    ensures Changes(s, Next(s, l, call, mu).s, Deed(s.lwp[l].t, Readied(s.uth[s.lwp[l].t].pc.u)))
  {
    WakeIsEffective(s, at, mu, l, call);
    RunningIs(s, at, mu, l);
    var t := s.lwp[l].t;
    RunsIs(s, l, t, call, mu);
    WakeKeepsRest(s, l, t, call, mu);
    hide Inv, Next, ThreadStep;
  }

  lemma WakeKeepsRest(s: State, l: Lid, t: Tid, call: Call, mu: map<Cid, Mid>)
    requires l in s.lwp && t in s.uth && s.uth[t].pc.WakeTest? && ThreadStep(s, l, t, call, mu).Moved?
    ensures var s' := ThreadStep(s, l, t, call, mu).s; s'.mtx == s.mtx && s'.cond == s.cond && |s'.runq| == |s.runq|
  {
    hide Queued;
  }

  lemma RunningDeed(s: State, at: Places, mu: map<Cid, Mid>, l: Lid, call: Call)
    requires Inv(s, at, mu) && l in s.lwp && s.lwp[l].Runs? && Next(s, l, call, mu).Moved?
    ensures StepIsDeed(s, l, Next(s, l, call, mu).s)
  {
    RunningIs(s, at, mu, l);
    var t := s.lwp[l].t;
    RunsIs(s, l, t, call, mu);
    OutIsStuck(s, l, t, call, mu);
    var pc := s.uth[t].pc;
    if pc.LockTest? || pc.TryTest? || pc.UnlTest? {
      MtxIsOk(s, at, mu, pc.m);
    }
    hide Next, ThreadStep, Changes, PcEvent, MtxOk;
    if Locking(pc) { LockingDeed(s, l, t, call, mu); }
    else if Unlocking(pc) { UnlockingDeed(s, l, t, call, mu); }
    else if pc.WakeTest? { WakeDeed(s, at, mu, l, call); WakeEvent(s, pc); }
    else if pc.User? || pc.WaitTake? || pc.WaitSet? || pc.Switch? { PlainDeed(s, l, t, call, mu); }
    else {
      PcAllows(s, mu, t);
      if Taking(s, t) { TakeDeed(s, l, t, call, mu); }
      else if Testing(s, t) { TestDeed(s, l, t, call, mu); }
      else { NobodyDeed(s, l, t, call, mu); }
    }
  }

  lemma WakeEvent(s: State, pc: Pc)
    requires pc.WakeTest?
    ensures PcEvent(s, pc) == Some(Readied(pc.u))
  {
  }

  lemma PcAllows(s: State, mu: map<Cid, Mid>, t: Tid)
    requires t in s.uth && PcOk(s, mu, t)
    ensures var pc := s.uth[t].pc;
      && (pc.LockTest? || pc.TryTest? ==> pc.m in s.mtx)
      && (pc.UnlTest? ==> OwnedBy(s, pc.m, t))
      && (pc.SigTest? || pc.BcTest? ==> pc.c in s.cond)
  {
  }

  // ---------------------------------------------------------------- steps of an LWP

  lemma LeaveDeed(s: State, at: Places, mu: map<Cid, Mid>, l: Lid, call: Call)
    requires Inv(s, at, mu) && l in s.lwp && s.lwp[l].Enqueue? && Next(s, l, call, mu).Moved?
    ensures Changes(s, Next(s, l, call, mu).s, Deed(s.lwp[l].t, LeaveEvent(s.lwp[l].t, s.lwp[l].q)))
  {
    var t := s.lwp[l].t;
    assert LwpOk(s, at, l) && at[t] == OnLwp(l) && ThreadOk(s, at, mu, t);
    hide Inv, ThreadOk, Queued, ThreadStep;
  }

  lemma FindDeed(s: State, l: Lid, call: Call, mu: map<Cid, Mid>)
    requires l in s.lwp && s.lwp[l].Find? && Next(s, l, call, mu).Moved?
    ensures StepIsDeed(s, l, Next(s, l, call, mu).s)
  {
    hide Queued, ThreadStep, Highest;
    var p := Highest(s.runq, |s.runq|);
    if p >= 0 { assert IsHighest(s.runq, p); }
  }

  /** A step changes the data just as its deed says, and not at all when it has none. */
  lemma StepDoesDeed(s: State, at: Places, mu: map<Cid, Mid>, l: Lid, call: Call)
    requires Inv(s, at, mu) && l in s.lwp && Next(s, l, call, mu).Moved?
    ensures StepIsDeed(s, l, Next(s, l, call, mu).s)
  {
    match s.lwp[l]
    case Runs(_) => RunningDeed(s, at, mu, l, call);
    case Enqueue(_, _, _) => LeaveDeed(s, at, mu, l, call);
    case Find => FindDeed(s, l, call, mu);
    case _ => hide Inv, ThreadStep, Queued;
  }

  /** In every run every step does what its deed says, and nothing else. */
  lemma RunsDoDeeds(states: seq<State>, acts: seq<Action>, mu: map<Cid, Mid>, i: nat)
    requires IsRun(states, acts, mu) && i < |acts|
    ensures acts[i].l in states[i].lwp && StepIsDeed(states[i], acts[i].l, states[i + 1])
  {
    assert Follows(states[i], acts[i], states[i + 1], mu);
    var at := RunsAreSafe(states, acts, mu, i);
    StepDoesDeed(states[i], at, mu, acts[i].l, acts[i].call);
  }

  /** The step of an unlock that decides makes the first waiter the owner, or nobody. */
  lemma UnlockDecides(s: State, at: Places, mu: map<Cid, Mid>, l: Lid, call: Call, t: Tid, m: Mid)
    requires Inv(s, at, mu) && l in s.lwp && s.lwp[l] == Runs(t) && t in s.uth && Next(s, l, call, mu).Moved?
    requires s.uth[t].pc.UnlTest? && s.uth[t].pc.m == m
    ensures var s' := Next(s, l, call, mu).s;
      && m in s.mtx && s.mtx[m].owner == Some(t) && m in s'.mtx
      && s'.mtx[m] == if s.mtx[m].waiters == [] then Mutex(None, [])
                      else Mutex(Some(s.mtx[m].waiters[0]), s.mtx[m].waiters[1..])
  {
    StepDoesDeed(s, at, mu, l, call);
    RunningIs(s, at, mu, l);
    hide Inv, Next;
  }
}
