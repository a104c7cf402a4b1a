/** What the runtime guarantees over whole runs. */
module UthreadRuns {
  import opened Uthreads
  import opened UthreadSafety
  import opened UthreadSteps
  import opened UthreadMoves

  // ---------------------------------------------------------------- every step

  /** How a step moves threads. */
  ghost function NextPlaces(s: State, at: Places, l: Lid): Places
    requires l in s.lwp
  {
    match s.lwp[l]
    case Runs(t) =>
      if t !in s.uth then at else
      (match s.uth[t].pc
       case UnlTest(m, _) => if QueueOf(s, MtxQ(m)) != [] then at[QueueOf(s, MtxQ(m))[0] := InHand(t)] else at
       case SigTest(c) => if QueueOf(s, CondQ(c)) != [] then at[QueueOf(s, CondQ(c))[0] := InHand(t)] else at
       case BcTest(c) => if QueueOf(s, CondQ(c)) != [] then at[QueueOf(s, CondQ(c))[0] := InHand(t)] else at
       case WakeTest(x, _) => at[x := OnRunQ]
       case _ => at)
    case Enqueue(t, Some(q), _) => at[t := OnWait(q)]
    case Enqueue(t, None, _) => at[t := OnRunQ]
    case Find => var p := Highest(s.runq, |s.runq|); if p >= 0 then at[s.runq[p][0] := OnLwp(l)] else at
    case _ => at
  }

  lemma TakeWaiterStep(s: State, at: Places, mu: map<Cid, Mid>, l: Lid, call: Call)
    requires Inv(s, at, mu) && l in s.lwp && s.lwp[l].Runs? && s.lwp[l].t in s.uth
    requires var pc := s.uth[s.lwp[l].t].pc;
             || (pc.UnlTest? && QueueOf(s, MtxQ(pc.m)) != [])
             || ((pc.SigTest? || pc.BcTest?) && QueueOf(s, CondQ(pc.c)) != [])
    ensures Next(s, l, call, mu).Moved? && Inv(Next(s, l, call, mu).s, NextPlaces(s, at, l), mu)
  {
    hide Inv;
    RunningIs(s, at, mu, l);
    var t := s.lwp[l].t;
    var pc := s.uth[t].pc;
    var q := if pc.UnlTest? then MtxQ(pc.m) else CondQ(pc.c);
    TakingIs(s, l, t, call, mu);
    RunsIs(s, l, t, call, mu);
    hide Next, ThreadStep;
    var s' := Next(s, l, call, mu).s;
    TakenIs(s, Taken(s, t), at, mu, l, t, q);
    hide Taken, PcOk, HasOk, PcLocks;
    TakeWaiterKeepsInv(s, s', at, mu, l, t, q, QueueOf(s, q)[0], s'.uth[t].pc);
  }

  /** Thread t finds a waiter. */
  ghost predicate Taking(s: State, t: Tid)
    requires t in s.uth
  {
    var pc := s.uth[t].pc;
    (pc.UnlTest? && QueueOf(s, MtxQ(pc.m)) != []) || ((pc.SigTest? || pc.BcTest?) && QueueOf(s, CondQ(pc.c)) != [])
  }

  function Taken(s: State, t: Tid): State
    requires t in s.uth
  {
    match s.uth[t].pc
    case UnlTest(m, k) =>
      var w := QueueOf(s, MtxQ(m));
      if w == [] then s else SetPc(SetMtx(s, m, Mutex(Some(w[0]), w[1..])), t, UnlHand(m, k, w[0]))
    case SigTest(c) =>
      var w := QueueOf(s, CondQ(c));
      if w == [] then s else SetPc(s.(cond := s.cond[c := w[1..]]), t, SigHand(c, w[0]))
    case BcTest(c) =>
      var w := QueueOf(s, CondQ(c));
      if w == [] then s else SetPc(s.(cond := s.cond[c := w[1..]]), t, BcHand(c, w[0]))
    case _ => s
  }

  lemma TakingIs(s: State, l: Lid, t: Tid, call: Call, mu: map<Cid, Mid>)
    requires l in s.lwp && t in s.uth && Taking(s, t)
    ensures ThreadStep(s, l, t, call, mu) == Moved(Taken(s, t))
  {
    hide RunqEnqueue, Queued;
  }

  lemma TakenIs(s: State, s': State, at: Places, mu: map<Cid, Mid>, l: Lid, t: Tid, q: Queue)
    requires l in s.lwp && s.lwp[l] == Runs(t) && t in s.uth && t in at && PcOk(s, mu, t) && Taking(s, t)
    requires s' == Taken(s, t)
    requires q == if s.uth[t].pc.UnlTest? then MtxQ(s.uth[t].pc.m) else CondQ(s.uth[t].pc.c)
    ensures QueueOf(s, q) != [] && TakesWaiter(s, s', l, t, q, QueueOf(s, q)[0], s'.uth[t].pc) && PcOk(s', mu, t)
  {
  }

  lemma WakeStep(s: State, at: Places, mu: map<Cid, Mid>, l: Lid, call: Call)
    requires Inv(s, at, mu) && l in s.lwp && s.lwp[l].Runs? && s.lwp[l].t in s.uth && s.uth[s.lwp[l].t].pc.WakeTest?
    ensures Next(s, l, call, mu).Moved? && Inv(Next(s, l, call, mu).s, NextPlaces(s, at, l), mu)
  {
    RunningIs(s, at, mu, l);
    var t := s.lwp[l].t;
    var WakeTest(x, k) := s.uth[t].pc;
    assert x in at && at[x] == InHand(t) && ThreadOk(s, at, mu, x);
    QueuedMeans(s, at, x);
    hide Inv;
    var s0 := s.(uth := s.uth[x := s.uth[x].(state := Runnable)]);
    assert Queued(s0, x) == Queued(s, x);
    var s' := SetPc(OnRunq(s0, x), t, WakeFree(k));
    assert Next(s, l, call, mu) == Moved(s');
    MakeRunnableKeepsInv(s, s', at, mu, l, t, x, WakeFree(k));
  }

  lemma EnqueueStep(s: State, at: Places, mu: map<Cid, Mid>, l: Lid, call: Call)
    requires Inv(s, at, mu) && l in s.lwp && s.lwp[l].Enqueue?
    ensures Next(s, l, call, mu).Moved? && Inv(Next(s, l, call, mu).s, NextPlaces(s, at, l), mu)
  {
    var Enqueue(t, q, pm) := s.lwp[l];
    assert LwpOk(s, at, l) && at[t] == OnLwp(l) && ThreadOk(s, at, mu, t);
    QueuedMeans(s, at, t);
    hide Inv;
    if q.Some? {
      PutOnWaitKeepsInv(s, Next(s, l, call, mu).s, at, mu, l, t, q.value, pm);
    } else {
      var s0 := s.(uth := s.uth[t := s.uth[t].(state := Runnable)], lwp := s.lwp[l := Drop(pm)]);
      assert Queued(s0, t) == Queued(s, t);
      PutOnRunqKeepsInv(s, OnRunq(s0, t), at, mu, l, t, pm);
    }
  }

  lemma FindStep(s: State, at: Places, mu: map<Cid, Mid>, l: Lid, call: Call)
    requires Inv(s, at, mu) && l in s.lwp && s.lwp[l].Find?
    ensures Next(s, l, call, mu).Moved? || Next(s, l, call, mu).AllParked?
    ensures Next(s, l, call, mu).Moved? ==> Inv(Next(s, l, call, mu).s, NextPlaces(s, at, l), mu)
  {
    CanFree(s, at, mu, l, RunqMtx);
    var p := Highest(s.runq, |s.runq|);
    if p >= 0 {
      TotalZero(s.runq, p);
      assert RunqOk(s, at, p) && s.runq[p][0] in s.runq[p];
      hide Inv;
      DispatchKeepsInv(s, Next(s, l, call, mu).s, at, mu, l, s.runq[p][0], p);
    } else if Next(s, l, call, mu).Moved? {
      var s' := Next(s, l, call, mu).s;
      assert SameLocksBut(s, s', l);
      FreeKeepsHeld(s, s', l, RunqMtx);
      LwpKeepsInv(s, s', at, mu, l);
    }
  }

  lemma OwnLwpStep(s: State, at: Places, mu: map<Cid, Mid>, l: Lid, call: Call)
    requires Inv(s, at, mu) && l in s.lwp && (s.lwp[l].Start? || s.lwp[l].Parked? || s.lwp[l].Drop?)
    ensures Next(s, l, call, mu) != Fault
    ensures Next(s, l, call, mu).Moved? ==> Inv(Next(s, l, call, mu).s, at, mu)
  {
    assert LwpOk(s, at, l);
    if s.lwp[l].Drop? { CanFree(s, at, mu, l, s.lwp[l].pm); }
    if Next(s, l, call, mu).Moved? {
      var s' := Next(s, l, call, mu).s;
      assert SameLocksBut(s, s', l);
      if s.lwp[l].Drop? { FreeKeepsHeld(s, s', l, s.lwp[l].pm); } else { TakeKeepsHeld(s, s', l, RunqMtx); }
      LwpKeepsInv(s, s', at, mu, l);
    }
  }

  /** No step faults: no assertion of the runtime fails, no POSIX mutex is
      released by an LWP that does not hold it; and every step keeps the invariant. */
  lemma StepKeepsInv(s: State, at: Places, mu: map<Cid, Mid>, l: Lid, call: Call)
    requires Inv(s, at, mu) && l in s.lwp
    ensures Next(s, l, call, mu) != Fault
    ensures Next(s, l, call, mu).Moved? ==> Inv(Next(s, l, call, mu).s, NextPlaces(s, at, l), mu)
  {
    match s.lwp[l]
    case Start => OwnLwpStep(s, at, mu, l, call);
    case Parked => OwnLwpStep(s, at, mu, l, call);
    case Drop(_) => OwnLwpStep(s, at, mu, l, call);
    case Find => FindStep(s, at, mu, l, call);
    case Enqueue(_, _, _) => EnqueueStep(s, at, mu, l, call);
    case Runs(_) =>
      RunningIs(s, at, mu, l);
      RunningStepKeepsInv(s, at, mu, l, call);
  }

  lemma RunningStepKeepsInv(s: State, at: Places, mu: map<Cid, Mid>, l: Lid, call: Call)
    requires Inv(s, at, mu) && l in s.lwp && s.lwp[l].Runs? && s.lwp[l].t in s.uth && PcOk(s, mu, s.lwp[l].t)
    ensures Next(s, l, call, mu) != Fault
    ensures Next(s, l, call, mu).Moved? ==> Inv(Next(s, l, call, mu).s, NextPlaces(s, at, l), mu)
  {
    hide Inv;
    var pc := s.uth[s.lwp[l].t].pc;
    if pc == User { BeginKeepsInv(s, at, mu, l, call); }
    else if Locking(pc) { LockingKeepsInv(s, at, mu, l, call); }
    else if Unlocking(pc) { UnlockingKeepsInv(s, at, mu, l, call); }
    else if pc.WaitTake? { WaitTakeKeepsInv(s, at, mu, l, call); }
    else if pc.Switch? { SwitchKeepsInv(s, at, mu, l, call); }
    else if pc.WakeTest? { WakeStep(s, at, mu, l, call); }
    else if pc.UnlTest? {
      if s.mtx[pc.m].waiters == [] { TestKeepsInv(s, at, mu, l, call); } else { TakeWaiterStep(s, at, mu, l, call); }
    } else if pc.SigTest? || pc.BcTest? {
      if s.cond[pc.c] == [] { NobodyKeepsInv(s, at, mu, l, call); } else { TakeWaiterStep(s, at, mu, l, call); }
    } else if pc.WaitSet? { NobodyKeepsInv(s, at, mu, l, call); }
    else { TestKeepsInv(s, at, mu, l, call); }
  }

  // ---------------------------------------------------------------- runs

  datatype Action = Action(l: Lid, call: Call)

  ghost predicate Follows(s: State, a: Action, s': State, mu: map<Cid, Mid>) {
    a.l in s.lwp && Next(s, a.l, a.call, mu) == Moved(s')
  }

  /** A run: any number of LWPs and threads, in any interleaving. */
  ghost predicate IsRun(states: seq<State>, acts: seq<Action>, mu: map<Cid, Mid>) {
    && |states| == |acts| + 1 && Init(states[0])
    && forall i :: 0 <= i < |acts| ==> Follows(states[i], acts[i], states[i + 1], mu)
  }

  lemma InitIsOk(s: State, mu: map<Cid, Mid>)
    requires Init(s)
    ensures Inv(s, map t | t in s.uth :: OnRunQ, mu)
  {
    var at: Places := map t | t in s.uth :: OnRunQ;
    forall l, pm | l in s.lwp ensures PmOk(s, l, pm) {}
    InitPlaces(s, at);
    hide PlacesHold;
    forall t | t in s.uth
      ensures ThreadOk(s, at, mu, t)
      ensures HasOk(s, at, t)
    {
    }
  }

  lemma InitPlaces(s: State, at: Places)
    requires Init(s) && at == map t | t in s.uth :: OnRunQ
    ensures PlacesHold(s, at)
  {
    forall t | t in s.uth ensures HandOk(s, at, t) {}
    forall p | 0 <= p < |s.runq| ensures RunqOk(s, at, p) {}
    forall q ensures WaitOk(s, at, q) { assert QueueOf(s, q) == []; }
  }

  /** Every state of every run satisfies the invariant. */
  lemma {:induction false} RunsAreSafe(states: seq<State>, acts: seq<Action>, mu: map<Cid, Mid>, i: nat)
      returns (at: Places)
    requires IsRun(states, acts, mu) && i < |states|
    ensures Inv(states[i], at, mu)
  {
    if i == 0 {
      InitIsOk(states[0], mu);
      at := map t | t in states[0].uth :: OnRunQ;
    } else {
      var before := RunsAreSafe(states, acts, mu, i - 1);
      assert Follows(states[i - 1], acts[i - 1], states[i], mu);
      StepKeepsInv(states[i - 1], before, mu, acts[i - 1].l, acts[i - 1].call);
      at := NextPlaces(states[i - 1], before, acts[i - 1].l);
    }
  }

  /** Whatever LWP steps next, it releases no POSIX mutex that it does not hold and
      queues no thread that is on a queue or not runnable. When the assertion of
      lwp_park fails is UthreadProgress.ParkAssertionFails. */
  lemma RunsNeverFault(states: seq<State>, acts: seq<Action>, mu: map<Cid, Mid>, i: nat, l: Lid, call: Call)
    requires IsRun(states, acts, mu) && i < |states| && l in states[i].lwp
    ensures Next(states[i], l, call, mu) != Fault
  {
    var at := RunsAreSafe(states, acts, mu, i);
    StepKeepsInv(states[i], at, mu, l, call);
  }

  // ---------------------------------------------------------------- one place for each thread

  /** An occurrence of a thread in the runtime's data. */
  datatype Spot = AtLwp(l: Lid) | AtRunq(p: nat, i: nat) | AtQueue(q: Queue, i: nat) | AtHand(waker: Tid)

  ghost predicate IsAt(s: State, t: Tid, spot: Spot) {
    match spot
    case AtLwp(l) => l in s.lwp && Carries(s.lwp[l]) == Some(t)
    case AtRunq(p, i) => p < |s.runq| && i < |s.runq[p]| && s.runq[p][i] == t
    case AtQueue(q, i) => i < |QueueOf(s, q)| && QueueOf(s, q)[i] == t
    case AtHand(w) => w in s.uth && Hand(s.uth[w].pc) == Some(t)
  }

  lemma SpotIsPlace(s: State, at: Places, mu: map<Cid, Mid>, t: Tid, spot: Spot)
    requires Inv(s, at, mu) && IsAt(s, t, spot)
    ensures t in at
    ensures match spot
            case AtLwp(l) => at[t] == OnLwp(l)
            case AtRunq(p, i) => at[t] == OnRunQ && t in s.uth && s.uth[t].prio == p && NoDup(s.runq[p])
            case AtQueue(q, i) => at[t] == OnWait(q) && NoDup(QueueOf(s, q))
            case AtHand(w) => at[t] == InHand(w)
  {
    match spot
    case AtLwp(l) => assert LwpOk(s, at, l);
    case AtRunq(p, i) => assert RunqOk(s, at, p) && s.runq[p][i] in s.runq[p];
    case AtQueue(q, i) => assert WaitOk(s, at, q) && QueueOf(s, q)[i] in QueueOf(s, q);
    case AtHand(w) => assert HandOk(s, at, w);
  }

  /** Every thread is in exactly one place: carried by one LWP, once on one run
      queue, once on one wait queue, or in the hands of one waker. In particular
      no two LWPs run the same thread, and none runs a queued one. */
  lemma ExactlyOnePlace(s: State, at: Places, mu: map<Cid, Mid>, t: Tid) returns (spot: Spot)
    requires Inv(s, at, mu) && t in s.uth
    ensures IsAt(s, t, spot)
    ensures forall other :: IsAt(s, t, other) ==> other == spot
  {
    assert ThreadOk(s, at, mu, t);
    match at[t] {
      case OnLwp(l) =>
        assert LwpOk(s, at, l);
        spot := AtLwp(l);
      case OnRunQ =>
        var p := s.uth[t].prio;
        assert RunqOk(s, at, p);
        var i: nat :| i < |s.runq[p]| && s.runq[p][i] == t;
        spot := AtRunq(p, i);
      case OnWait(q) =>
        assert WaitOk(s, at, q);
        var i: nat :| i < |QueueOf(s, q)| && QueueOf(s, q)[i] == t;
        spot := AtQueue(q, i);
      case InHand(w) =>
        assert HandOk(s, at, w);
        spot := AtHand(w);
    }
    forall other | IsAt(s, t, other)
      ensures other == spot
    {
      SpotIsPlace(s, at, mu, t, other);
    }
  }

  /** A thread on a queue, or about to be made runnable, has left its stack: its
      context is saved, and its state is what its waker expects. */
  lemma VisibleOnlyWhenOut(s: State, at: Places, mu: map<Cid, Mid>, t: Tid, spot: Spot)
    requires Inv(s, at, mu) && t in s.uth && IsAt(s, t, spot) && !spot.AtLwp?
    ensures s.uth[t].pc.Out?
    ensures s.uth[t].state == if spot.AtRunq? then Runnable else Wait
    ensures forall l :: l in s.lwp ==> s.lwp[l] != Runs(t)
  {
    SpotIsPlace(s, at, mu, t, spot);
    assert ThreadOk(s, at, mu, t);
    forall l | l in s.lwp ensures s.lwp[l] != Runs(t) { assert LwpOk(s, at, l); }
  }

  // ---------------------------------------------------------------- the uthread mutex

  /** Mutual exclusion: a mutex is held by one thread at a time, and what a thread
      holds has not been handed to another. */
  lemma MutualExclusion(s: State, at: Places, mu: map<Cid, Mid>, m: Mid, t: Tid, u: Tid)
    requires Inv(s, at, mu) && t in s.uth && u in s.uth && m in s.uth[t].has
    requires m in s.uth[u].has || (Handed(s, at, u) && s.uth[u].pc.after.m == m)
    ensures t == u
  {
    assert HasOk(s, at, t) && HasOk(s, at, u);
  }

  /** Ownership changes hands only as the mutex code intends: a thread that finds
      no owner takes a mutex nobody waits for, and the owner's unlock gives it to
      the first waiter or, when there is none, to nobody. */
  lemma OwnershipPassesInOrder(s: State, at: Places, mu: map<Cid, Mid>, l: Lid, call: Call, m: Mid)
    requires Inv(s, at, mu) && l in s.lwp && Next(s, l, call, mu).Moved? && m in s.mtx
    ensures m in Next(s, l, call, mu).s.mtx
    ensures var x, x' := s.mtx[m], Next(s, l, call, mu).s.mtx[m];
            x'.owner != x.owner ==>
              && s.lwp[l].Runs? && s.lwp[l].t in s.uth
              && var t := s.lwp[l].t;
                 || (x.owner == None && x.waiters == [] && x' == Mutex(Some(t), [])
                   && (s.uth[t].pc == LockTest(m) || s.uth[t].pc == TryTest(m)))
                 || (x.owner == Some(t) && s.uth[t].pc.UnlTest? && x.waiters == [] && x' == Mutex(None, []))
                 || (x.owner == Some(t) && s.uth[t].pc.UnlTest? && x.waiters != []
                   && x' == Mutex(Some(x.waiters[0]), x.waiters[1..]))
  {
    MtxIsOk(s, at, mu, m);
    if s.lwp[l].Runs? { RunningIs(s, at, mu, l); }
    hide Inv, Next, ThreadStep, PcOk;
    MtxMoves(s, l, call, mu, m);
  }

  /** What one step can do to mutex m: an LWP queues its thread; a thread becomes
      the owner; the owner's unlock leaves it free, or to the first waiter. */
  ghost predicate MtxStep(s: State, l: Lid, x: Mutex, x': Mutex, m: Mid)
    requires l in s.lwp
  {
    || (x' == x && !(s.lwp[l].Enqueue? && s.lwp[l].q == Some(MtxQ(m)))
      && !(RunsAt(s, l) && PcOf(s, l).UnlTest? && PcOf(s, l).m == m && x.waiters != []))
    || (s.lwp[l].Enqueue? && s.lwp[l].q == Some(MtxQ(m)) && x' == x.(waiters := x.waiters + [s.lwp[l].t]))
    || (RunsAt(s, l) && (PcOf(s, l) == LockTest(m) || PcOf(s, l) == TryTest(m)) && x.owner == None
      && x' == x.(owner := Some(s.lwp[l].t)))
    || (RunsAt(s, l) && PcOf(s, l).UnlTest? && PcOf(s, l).m == m &&
        x' == if x.waiters == [] then x.(owner := None) else Mutex(Some(x.waiters[0]), x.waiters[1..]))
  }

  predicate RunsAt(s: State, l: Lid)
    requires l in s.lwp
  {
    s.lwp[l].Runs? && s.lwp[l].t in s.uth
  }

  function PcOf(s: State, l: Lid): Pc
    requires l in s.lwp && RunsAt(s, l)
  {
    s.uth[s.lwp[l].t].pc
  }

  lemma MtxMoves(s: State, l: Lid, call: Call, mu: map<Cid, Mid>, m: Mid)
    requires l in s.lwp && Next(s, l, call, mu).Moved? && m in s.mtx
    ensures m in Next(s, l, call, mu).s.mtx && MtxStep(s, l, s.mtx[m], Next(s, l, call, mu).s.mtx[m], m)
  {
    hide Queued, ThreadStep;
    if s.lwp[l].Runs? {
      var t := s.lwp[l].t;
      var pc := s.uth[t].pc;
      if pc.LockTest? || pc.TryTest? || pc.UnlTest? { MtxTested(s, l, t, call, mu, m); }
        else { MtxStays(s, l, t, call, mu); }
    }
  }

  lemma MtxTested(s: State, l: Lid, t: Tid, call: Call, mu: map<Cid, Mid>, m: Mid)
    requires t in s.uth && l in s.lwp && s.lwp[l] == Runs(t) && ThreadStep(s, l, t, call, mu).Moved? && m in s.mtx
    requires s.uth[t].pc.LockTest? || s.uth[t].pc.TryTest? || s.uth[t].pc.UnlTest?
    ensures m in ThreadStep(s, l, t, call, mu).s.mtx
    ensures MtxStep(s, l, s.mtx[m], ThreadStep(s, l, t, call, mu).s.mtx[m], m)
  {
    hide RunqEnqueue, Queued;
  }

  lemma MtxStays(s: State, l: Lid, t: Tid, call: Call, mu: map<Cid, Mid>)
    requires t in s.uth && l in s.lwp && ThreadStep(s, l, t, call, mu).Moved?
    requires !s.uth[t].pc.LockTest? && !s.uth[t].pc.TryTest? && !s.uth[t].pc.UnlTest?
    ensures ThreadStep(s, l, t, call, mu).s.mtx == s.mtx
  {
    StepEffects(s, l, t, call, mu);
    hide ThreadStep;
  }

  /** First come, first served: along any run, the threads that were handed the
      mutex, followed by those still waiting, are the threads that queued for it,
      in the order in which they queued. */
  lemma {:induction false} HandedInArrivalOrder(states: seq<State>, acts: seq<Action>, mu: map<Cid, Mid>, m: Mid,
      n: nat)
    requires IsRun(states, acts, mu) && n < |states| && m in states[0].mtx
    ensures m in states[n].mtx
    ensures Arrivals(states, acts, m, n) == Handoffs(states, acts, m, n) + states[n].mtx[m].waiters
  {
    hide Inv, Next, Init, Follows;
    RunShape(states, acts, mu, m);
    if n > 0 {
      HandedInArrivalOrder(states, acts, mu, m, n - 1);
      var at := RunsAreSafe(states, acts, mu, n - 1);
      ArrivalStep(states, acts, mu, m, n, at);
    }
  }

  lemma RunShape(states: seq<State>, acts: seq<Action>, mu: map<Cid, Mid>, m: Mid)
    requires IsRun(states, acts, mu)
    ensures |states| == |acts| + 1 && (m in states[0].mtx ==> states[0].mtx[m].waiters == [])
    ensures forall i :: 0 < i <= |acts| ==> Follows(states[i - 1], acts[i - 1], states[i], mu)
  {
  }

  lemma ArrivalStep(states: seq<State>, acts: seq<Action>, mu: map<Cid, Mid>, m: Mid, n: nat, at: Places)
    requires |states| == |acts| + 1 && 0 < n < |states| && m in states[n - 1].mtx
    requires Inv(states[n - 1], at, mu) && Follows(states[n - 1], acts[n - 1], states[n], mu)
    requires Arrivals(states, acts, m, n - 1) == Handoffs(states, acts, m, n - 1) + states[n - 1].mtx[m].waiters
    ensures m in states[n].mtx
    ensures Arrivals(states, acts, m, n) == Handoffs(states, acts, m, n) + states[n].mtx[m].waiters
  {
    hide Inv, Next;
    WaitersChange(states[n - 1], at, mu, acts[n - 1].l, acts[n - 1].call, m);
    OneMoreArrival(states, acts, m, n);
    hide Follows, Arrivals, Handoffs;
  }

  lemma OneMoreArrival(states: seq<State>, acts: seq<Action>, m: Mid, n: nat)
    requires |states| == |acts| + 1 && 0 < n < |states|
    ensures var s, l := states[n - 1], acts[n - 1].l;
      var w := QueueOf(s, MtxQ(m));
      var puts := l in s.lwp && s.lwp[l].Enqueue? && s.lwp[l].q == Some(MtxQ(m));
      var takes := l in s.lwp && s.lwp[l].Runs? && s.lwp[l].t in s.uth && s.uth[s.lwp[l].t].pc.UnlTest?
                   && s.uth[s.lwp[l].t].pc.m == m && w != [];
      && Arrivals(states, acts, m, n) == Arrivals(states, acts, m, n - 1) + (if puts then [s.lwp[l].t] else [])
      && (if takes then Handoffs(states, acts, m, n) + w[1..] == Handoffs(states, acts, m, n - 1) + w
          else Handoffs(states, acts, m, n) == Handoffs(states, acts, m, n - 1))
      && (forall a: seq<Tid> {:trigger a + w} :: puts ==> a + w + [s.lwp[l].t] == a + (w + [s.lwp[l].t]))
  {
    var w := QueueOf(states[n - 1], MtxQ(m));
    assert w != [] ==> w == [w[0]] + w[1..];
  }

  /** The threads put on m's queue by the first n actions, in order. */
  function Arrivals(states: seq<State>, acts: seq<Action>, m: Mid, n: nat): seq<Tid>
    requires n <= |acts| <= |states|
  {
    if n == 0 then [] else
    var s, l := states[n - 1], acts[n - 1].l;
    Arrivals(states, acts, m, n - 1) +
      (if l in s.lwp && s.lwp[l].Enqueue? && s.lwp[l].q == Some(MtxQ(m)) then [s.lwp[l].t] else [])
  }

  /** The threads that an unlock made the owner of m, in order. */
  function Handoffs(states: seq<State>, acts: seq<Action>, m: Mid, n: nat): seq<Tid>
    requires n <= |acts| <= |states|
  {
    if n == 0 then [] else
    var s, l := states[n - 1], acts[n - 1].l;
    Handoffs(states, acts, m, n - 1) +
      (if l in s.lwp && s.lwp[l].Runs? && s.lwp[l].t in s.uth && s.uth[s.lwp[l].t].pc.UnlTest?
        && s.uth[s.lwp[l].t].pc.m == m
          && QueueOf(s, MtxQ(m)) != []
       then [QueueOf(s, MtxQ(m))[0]] else [])
  }

  /** The queue of a mutex grows only at its end, when an LWP has put its thread
      away, and shrinks only at its front, when an unlock hands the mutex over. */
  lemma WaitersChange(s: State, at: Places, mu: map<Cid, Mid>, l: Lid, call: Call, m: Mid)
    requires Inv(s, at, mu) && l in s.lwp && Next(s, l, call, mu).Moved? && m in s.mtx
    ensures m in Next(s, l, call, mu).s.mtx
    ensures var w, w' := QueueOf(s, MtxQ(m)), QueueOf(Next(s, l, call, mu).s, MtxQ(m));
            if s.lwp[l].Enqueue? && s.lwp[l].q == Some(MtxQ(m)) then w' == w + [s.lwp[l].t]
            else if s.lwp[l].Runs? && s.lwp[l].t in s.uth && s.uth[s.lwp[l].t].pc.UnlTest?
              && s.uth[s.lwp[l].t].pc.m == m && w != []
            then w' == w[1..]
            else w' == w
  {
    hide Inv, Next, ThreadStep;
    MtxMoves(s, l, call, mu, m);
  }

  // ---------------------------------------------------------------- condition variables

  function ContIsSleep(k: Cont, c: Cid): bool {
    k.Sleep? && k.c == c
  }

  predicate PcAsleep(pc: Pc, c: Cid) {
    match pc
    case UnlTake(_, k) => ContIsSleep(k, c)
    case UnlTest(_, k) => ContIsSleep(k, c)
    case UnlFree(_, k) => ContIsSleep(k, c)
    case UnlHand(_, k, _) => ContIsSleep(k, c)
    case WakeTake(_, k) => ContIsSleep(k, c)
    case WakeTest(_, k) => ContIsSleep(k, c)
    case WakeFree(k) => ContIsSleep(k, c)
    case WaitSet(d, _) => d == c
    case Switch(q, _, _) => q == Some(CondQ(c))
    case _ => false
  }

  ghost predicate PuttingToSleep(s: State, l: Lid, u: Tid, c: Cid) {
    l in s.lwp && s.lwp[l].Enqueue? && s.lwp[l].t == u && s.lwp[l].q == Some(CondQ(c))
  }

  /** u has entered uthread_cond_wait(c), counts its mutex as given up, and is not yet on c's queue. */
  ghost predicate FallingAsleep(s: State, u: Tid, c: Cid) {
    (u in s.uth && PcAsleep(s.uth[u].pc, c)) || exists l :: PuttingToSleep(s, l, u, c)
  }

  /** While a thread is falling asleep on c, its LWP holds c's POSIX mutex. */
  lemma SleeperHoldsCond(s: State, at: Places, mu: map<Cid, Mid>, u: Tid, c: Cid)
    requires Inv(s, at, mu) && FallingAsleep(s, u, c)
    ensures u in s.uth && u in at && at[u].OnLwp? && at[u].l in s.lwp && CondPm(c) in Locks(s, at[u].l)
    ensures (s.lwp[at[u].l] == Runs(u) && PcAsleep(s.uth[u].pc, c)) || PuttingToSleep(s, at[u].l, u, c)
  {
    if l :| PuttingToSleep(s, l, u, c) {
      assert LwpOk(s, at, l) && at[u] == OnLwp(l) && ThreadOk(s, at, mu, u);
    } else {
      assert ThreadOk(s, at, mu, u);
      assert LwpOk(s, at, at[u].l);
    }
  }

  /** A signal or broadcast that inspects c's queue finds every thread that gave
      up its mutex in uthread_cond_wait(c) before: none is still on its way. */
  lemma NoWakeupIsLost(s: State, at: Places, mu: map<Cid, Mid>, l: Lid, c: Cid, u: Tid)
    requires Inv(s, at, mu) && l in s.lwp && s.lwp[l].Runs? && s.lwp[l].t in s.uth
    requires s.uth[s.lwp[l].t].pc == SigTest(c) || s.uth[s.lwp[l].t].pc == BcTest(c)
    ensures !FallingAsleep(s, u, c)
  {
    if FallingAsleep(s, u, c) {
      RunningIs(s, at, mu, l);
      SleeperHoldsCond(s, at, mu, u, c);
      LockIsExclusive(s, CondPm(c), l, at[u].l);
    }
  }

  lemma PuttingFalls(s: State, l: Lid, u: Tid, c: Cid)
    requires PuttingToSleep(s, l, u, c)
    ensures FallingAsleep(s, u, c)
  {
  }

  lemma SleeperSteps(s: State, l: Lid, u: Tid, call: Call, mu: map<Cid, Mid>, c: Cid)
    requires l in s.lwp && u in s.uth && PcAsleep(s.uth[u].pc, c) && ThreadStep(s, l, u, call, mu).Moved?
    ensures var s' := ThreadStep(s, l, u, call, mu).s;
      PuttingToSleep(s', l, u, c) || (u in s'.uth && PcAsleep(s'.uth[u].pc, c))
  {
    hide Queued;
  }

  /** A thread that is falling asleep goes on until it is on c's queue. */
  lemma SleeperIsQueued(s: State, at: Places, mu: map<Cid, Mid>, l: Lid, call: Call, u: Tid, c: Cid)
    requires Inv(s, at, mu) && l in s.lwp && Next(s, l, call, mu).Moved? && c in s.cond
    requires FallingAsleep(s, u, c)
    ensures var s' := Next(s, l, call, mu).s; FallingAsleep(s', u, c) || u in QueueOf(s', CondQ(c))
  {
    SleeperHoldsCond(s, at, mu, u, c);
    var s' := Next(s, l, call, mu).s;
    var k := at[u].l;
    if k == l && s.lwp[l] == Runs(u) {
      RunsIs(s, l, u, call, mu);
      SleeperSteps(s, l, u, call, mu, c);
      hide Inv, Next, ThreadStep;
      if PuttingToSleep(s', l, u, c) { PuttingFalls(s', l, u, c); }
    } else if k == l {
      hide Inv, ThreadStep;
    } else {
      assert Carries(s.lwp[l]) != Some(u) by { assert LwpOk(s, at, l); }
      StrangerStays(s, at, mu, l, call, u);
      if PuttingToSleep(s, k, u, c) { assert PuttingToSleep(s', k, u, c); }
    }
  }

  /** What a step of thread t on LWP l can change: t's own record, the state of
      the thread it wakes, its own LWP when it switches, and a queue's front. */
  ghost predicate ThreadEffects(s: State, s': State, l: Lid, t: Tid)
    requires t in s.uth && l in s.lwp
  {
    && s'.uth.Keys == s.uth.Keys && s'.cond.Keys == s.cond.Keys && s'.lwp.Keys == s.lwp.Keys
    && s'.lwpCnt == s.lwpCnt && s'.parkedCnt == s.parkedCnt
    && (s'.mtx == s.mtx || s.uth[t].pc.LockTest? || s.uth[t].pc.TryTest? || s.uth[t].pc.UnlTest?)
    && (forall u :: u in s.uth && u != t ==> s'.uth[u].pc == s.uth[u].pc && s'.uth[u].has == s.uth[u].has)
    && (forall k :: k in s.lwp && k != l ==> s'.lwp[k] == s.lwp[k])
    && (s'.lwp[l] == s.lwp[l]
      || (s.uth[t].pc.Switch? && s'.lwp[l] == Enqueue(t, s.uth[t].pc.q, s.uth[t].pc.pm) && s'.uth[t].pc.Out?))
    && (forall c :: c in s.cond ==>
          || s'.cond[c] == s.cond[c]
          || (s.cond[c] != [] && s'.cond[c] == s.cond[c][1..]
            && (s.uth[t].pc == SigTest(c) || s.uth[t].pc == BcTest(c))))
    && (forall c {:trigger PcAsleep(s'.uth[t].pc, c)} ::
          PcAsleep(s'.uth[t].pc, c) ==> PcAsleep(s.uth[t].pc, c) || (s.uth[t].pc.WaitTake? && s.uth[t].pc.c == c))
  }

  lemma WakeEffects(s: State, l: Lid, t: Tid, call: Call, mu: map<Cid, Mid>)
    requires t in s.uth && l in s.lwp && s.uth[t].pc.WakeTest? && ThreadStep(s, l, t, call, mu).Moved?
    ensures ThreadEffects(s, ThreadStep(s, l, t, call, mu).s, l, t)
  {
    hide Queued;
  }

  lemma LockingEffects(s: State, l: Lid, t: Tid, call: Call, mu: map<Cid, Mid>)
    requires t in s.uth && l in s.lwp && ThreadStep(s, l, t, call, mu).Moved?
    requires Locking(s.uth[t].pc)
    ensures ThreadEffects(s, ThreadStep(s, l, t, call, mu).s, l, t)
  {
    LockingIs(s, l, t, call, mu);
    hide ThreadStep;
  }

  lemma WaitTakeEffects(s: State, l: Lid, t: Tid, call: Call, mu: map<Cid, Mid>)
    requires t in s.uth && l in s.lwp && ThreadStep(s, l, t, call, mu).Moved? && s.uth[t].pc.WaitTake?
    ensures ThreadEffects(s, ThreadStep(s, l, t, call, mu).s, l, t)
  {
    hide RunqEnqueue, Queued;
  }

  lemma UnlockingEffects(s: State, l: Lid, t: Tid, call: Call, mu: map<Cid, Mid>)
    requires t in s.uth && l in s.lwp && ThreadStep(s, l, t, call, mu).Moved?
    requires Unlocking(s.uth[t].pc)
    ensures ThreadEffects(s, ThreadStep(s, l, t, call, mu).s, l, t)
  {
    UnlockingIs(s, l, t, call, mu);
    hide ThreadStep;
  }

  lemma MutexEffects(s: State, l: Lid, t: Tid, call: Call, mu: map<Cid, Mid>)
    requires t in s.uth && l in s.lwp && ThreadStep(s, l, t, call, mu).Moved?
    requires s.uth[t].pc.LockTest? || s.uth[t].pc.TryTest? || s.uth[t].pc.UnlTest?
    ensures ThreadEffects(s, ThreadStep(s, l, t, call, mu).s, l, t)
  {
    if s.uth[t].pc.UnlTest? { UnlTestEffects(s, l, t, call, mu); } else { OwnerTestEffects(s, l, t, call, mu); }
  }

  lemma OwnerTestEffects(s: State, l: Lid, t: Tid, call: Call, mu: map<Cid, Mid>)
    requires t in s.uth && l in s.lwp && ThreadStep(s, l, t, call, mu).Moved?
    requires s.uth[t].pc.LockTest? || s.uth[t].pc.TryTest?
    ensures ThreadEffects(s, ThreadStep(s, l, t, call, mu).s, l, t)
  {
    TestsExisting(s, l, t, call, mu);
    TestIs(s, l, t, call, mu);
    hide ThreadStep;
  }

  lemma TestsExisting(s: State, l: Lid, t: Tid, call: Call, mu: map<Cid, Mid>)
    requires t in s.uth && l in s.lwp && ThreadStep(s, l, t, call, mu).Moved?
    ensures var pc := s.uth[t].pc;
      && (pc.LockTest? || pc.TryTest? || pc.UnlTest? ==> pc.m in s.mtx)
      && (pc.SigTest? || pc.BcTest? ==> pc.c in s.cond)
  {
    hide RunqEnqueue, Queued, Begin;
  }

  lemma UnlTestEffects(s: State, l: Lid, t: Tid, call: Call, mu: map<Cid, Mid>)
    requires t in s.uth && l in s.lwp && ThreadStep(s, l, t, call, mu).Moved? && s.uth[t].pc.UnlTest?
    ensures ThreadEffects(s, ThreadStep(s, l, t, call, mu).s, l, t)
  {
    hide RunqEnqueue, Queued;
  }

  lemma CondEffects(s: State, l: Lid, t: Tid, call: Call, mu: map<Cid, Mid>)
    requires t in s.uth && l in s.lwp && ThreadStep(s, l, t, call, mu).Moved?
    requires s.uth[t].pc.SigTest? || s.uth[t].pc.BcTest?
    ensures ThreadEffects(s, ThreadStep(s, l, t, call, mu).s, l, t)
  {
    TestsExisting(s, l, t, call, mu);
    if Taking(s, t) {
      TakingIs(s, l, t, call, mu);
      TakenEffects(s, l, t);
    } else {
      NobodyIs(s, l, t, call, mu);
      NobodyEffects(s, l, t);
    }
    hide ThreadStep, ThreadEffects, Taken, FoundNobody;
  }

  lemma TakenEffects(s: State, l: Lid, t: Tid)
    requires t in s.uth && l in s.lwp && Taking(s, t) && !s.uth[t].pc.UnlTest?
    ensures ThreadEffects(s, Taken(s, t), l, t)
  {
  }

  lemma NobodyEffects(s: State, l: Lid, t: Tid)
    requires t in s.uth && l in s.lwp && FindsNobody(s, t)
    ensures ThreadEffects(s, FoundNobody(s, t), l, t)
  {
  }

  lemma OutIsStuck(s: State, l: Lid, t: Tid, call: Call, mu: map<Cid, Mid>)
    requires t in s.uth && l in s.lwp && ThreadStep(s, l, t, call, mu).Moved?
    ensures !s.uth[t].pc.Out?
  {
    hide Queued, RunqEnqueue, Begin;
  }

  lemma StepEffects(s: State, l: Lid, t: Tid, call: Call, mu: map<Cid, Mid>)
    requires t in s.uth && l in s.lwp && ThreadStep(s, l, t, call, mu).Moved?
    ensures ThreadEffects(s, ThreadStep(s, l, t, call, mu).s, l, t)
  {
    var pc := s.uth[t].pc;
    OutIsStuck(s, l, t, call, mu);
    hide ThreadStep, ThreadEffects;
    if Locking(pc) { LockingEffects(s, l, t, call, mu); }
    else if pc.WaitTake? { WaitTakeEffects(s, l, t, call, mu); }
    else if Unlocking(pc) { UnlockingEffects(s, l, t, call, mu); }
    else if pc.WakeTest? { WakeEffects(s, l, t, call, mu); }
    else if pc.LockTest? || pc.TryTest? || pc.UnlTest? { MutexEffects(s, l, t, call, mu); }
    else if pc.SigTest? || pc.BcTest? { CondEffects(s, l, t, call, mu); }
    else { OwnEffects(s, l, t, call, mu); }
  }

  lemma OwnEffects(s: State, l: Lid, t: Tid, call: Call, mu: map<Cid, Mid>)
    requires t in s.uth && l in s.lwp && ThreadStep(s, l, t, call, mu).Moved?
    requires s.uth[t].pc.User? || s.uth[t].pc.WaitSet? || s.uth[t].pc.Switch?
    ensures ThreadEffects(s, ThreadStep(s, l, t, call, mu).s, l, t)
  {
    if s.uth[t].pc.WaitSet? {
      NobodyIs(s, l, t, call, mu);
      NobodyEffects(s, l, t);
      hide ThreadStep, ThreadEffects, FoundNobody;
    } else if s.uth[t].pc.User? {
      UserEffects(s, l, t, call, mu);
    } else {
      hide RunqEnqueue, Queued, Begin;
    }
  }

  lemma UserEffects(s: State, l: Lid, t: Tid, call: Call, mu: map<Cid, Mid>)
    requires t in s.uth && l in s.lwp && s.uth[t].pc.User? && ThreadStep(s, l, t, call, mu).Moved?
    ensures ThreadEffects(s, ThreadStep(s, l, t, call, mu).s, l, t)
  {
    hide RunqEnqueue, Queued;
  }

  /** A step of one LWP neither changes what another LWP does nor the code of the
      thread that it carries. */
  lemma StrangerStays(s: State, at: Places, mu: map<Cid, Mid>, l: Lid, call: Call, u: Tid)
    requires Inv(s, at, mu) && l in s.lwp && Next(s, l, call, mu).Moved?
    requires u in s.uth && u in at && at[u].OnLwp? && at[u].l != l
    ensures var s' := Next(s, l, call, mu).s;
            u in s'.uth && s'.uth[u].pc == s.uth[u].pc && s'.uth[u].has == s.uth[u].has
            && forall k :: k in s.lwp && k != l ==> k in s'.lwp && s'.lwp[k] == s.lwp[k]
  {
    FirstRunnable(s, at, mu);
    assert LwpOk(s, at, l);
    hide Inv;
    if s.lwp[l].Runs? {
      RunsIs(s, l, s.lwp[l].t, call, mu);
      StepEffects(s, l, s.lwp[l].t, call, mu);
      hide Next, ThreadStep;
    } else {
      LwpOwnStep(s, l, call, mu, u);
      hide Next, ThreadStep;
    }
  }

  lemma FirstRunnable(s: State, at: Places, mu: map<Cid, Mid>)
    requires Inv(s, at, mu)
    ensures var p := Highest(s.runq, |s.runq|); p >= 0 ==> s.runq[p][0] in at && at[s.runq[p][0]] == OnRunQ
  {
    var p := Highest(s.runq, |s.runq|);
    if p >= 0 { assert RunqOk(s, at, p) && s.runq[p][0] in s.runq[p]; }
  }

  /** An LWP's own step changes the code only of the thread that it carries or takes up. */
  lemma LwpOwnStep(s: State, l: Lid, call: Call, mu: map<Cid, Mid>, u: Tid)
    requires l in s.lwp && !s.lwp[l].Runs? && Next(s, l, call, mu).Moved? && u in s.uth
    requires var p := Highest(s.runq, |s.runq|); s.lwp[l].Find? && p >= 0 ==> s.runq[p][0] != u
    ensures var s' := Next(s, l, call, mu).s;
            u in s'.uth && s'.uth[u].pc == s.uth[u].pc && s'.uth[u].has == s.uth[u].has
            && forall k :: k in s.lwp && k != l ==> k in s'.lwp && s'.lwp[k] == s.lwp[k]
  {
    LwpTurns(s, l, call, mu);
    OneRecord(s, l, call, mu, u);
    hide Next;
  }

  lemma OneRecord(s: State, l: Lid, call: Call, mu: map<Cid, Mid>, u: Tid)
    requires l in s.lwp && !s.lwp[l].Runs? && Next(s, l, call, mu).Moved? && u in s.uth
    requires var p := Highest(s.runq, |s.runq|); s.lwp[l].Find? && p >= 0 ==> s.runq[p][0] != u
    ensures var s' := Next(s, l, call, mu).s;
      u in s'.uth && s'.uth[u].pc == s.uth[u].pc && s'.uth[u].has == s.uth[u].has
  {
    hide ThreadStep, Queued;
  }

  // ---------------------------------------------------------------- broadcast

  /** Nobody is falling asleep on c. */
  ghost predicate AllAsleep(s: State, c: Cid) {
    forall u :: !FallingAsleep(s, u, c)
  }

  ghost predicate IsSuffix(a: seq<Tid>, b: seq<Tid>) {
    |a| <= |b| && a == b[|b| - |a|..]
  }

  /** While a thread keeps c's mutex, nobody new falls asleep on c, and c's queue
      only loses threads from its front. */
  lemma HolderKeepsOthersOut(s: State, at: Places, mu: map<Cid, Mid>, l: Lid, call: Call, t: Tid, c: Cid)
    requires Inv(s, at, mu) && l in s.lwp && Next(s, l, call, mu).Moved? && c in s.cond && c in mu
    requires AllAsleep(s, c) && t in s.uth && mu[c] in s.uth[t].has
    requires var s' := Next(s, l, call, mu).s; t in s'.uth && mu[c] in s'.uth[t].has
    ensures var s' := Next(s, l, call, mu).s; AllAsleep(s', c) && IsSuffix(QueueOf(s', CondQ(c)), QueueOf(s, CondQ(c)))
  {
    var s' := Next(s, l, call, mu).s;
    QueueLosesFront(s, at, mu, l, call, c);
    forall u
      ensures !FallingAsleep(s', u, c)
    {
      NobodyDozesOff(s, at, mu, l, call, t, c, u);
    }
  }

  lemma QueueLosesFront(s: State, at: Places, mu: map<Cid, Mid>, l: Lid, call: Call, c: Cid)
    requires Inv(s, at, mu) && l in s.lwp && Next(s, l, call, mu).Moved? && c in s.cond && AllAsleep(s, c)
    ensures IsSuffix(QueueOf(Next(s, l, call, mu).s, CondQ(c)), QueueOf(s, CondQ(c)))
  {
    if s.lwp[l].Enqueue? && s.lwp[l].q == Some(CondQ(c)) {
      PuttingFalls(s, l, s.lwp[l].t, c);
    }
    hide Inv, ThreadStep, Queued, FallingAsleep;
    if s.lwp[l].Runs? { StepEffects(s, l, s.lwp[l].t, call, mu); }
  }

  lemma NobodyDozesOff(s: State, at: Places, mu: map<Cid, Mid>, l: Lid, call: Call, t: Tid, c: Cid, u: Tid)
    requires Inv(s, at, mu) && l in s.lwp && Next(s, l, call, mu).Moved? && c in s.cond && c in mu
    requires AllAsleep(s, c) && t in s.uth && mu[c] in s.uth[t].has
    requires var s' := Next(s, l, call, mu).s; t in s'.uth && mu[c] in s'.uth[t].has
    ensures !FallingAsleep(Next(s, l, call, mu).s, u, c)
  {
    var s' := Next(s, l, call, mu).s;
    assert !FallingAsleep(s, u, c);
    forall k ensures !PuttingToSleep(s', k, u, c) { LwpArgs(s, at, mu, l, call, k, u, c); }
    NoPcDozesOff(s, at, mu, l, call, t, c, u);
  }

  lemma WaitTakeGivesUp(s: State, l: Lid, t: Tid, call: Call, mu: map<Cid, Mid>)
    requires t in s.uth && l in s.lwp && ThreadStep(s, l, t, call, mu).Moved?
    ensures s.uth[t].pc.WaitTake? ==> s.uth[t].pc.m !in ThreadStep(s, l, t, call, mu).s.uth[t].has
  {
  }

  lemma NoPcDozesOff(s: State, at: Places, mu: map<Cid, Mid>, l: Lid, call: Call, t: Tid, c: Cid, u: Tid)
    requires Inv(s, at, mu) && l in s.lwp && Next(s, l, call, mu).Moved? && c in s.cond && c in mu
    requires !FallingAsleep(s, u, c) && t in s.uth && mu[c] in s.uth[t].has
    requires var s' := Next(s, l, call, mu).s; t in s'.uth && mu[c] in s'.uth[t].has
    ensures var s' := Next(s, l, call, mu).s; u in s'.uth ==> !PcAsleep(s'.uth[u].pc, c)
  {
    DozeFacts(s, at, mu, l);
    if s.lwp[l].Runs? {
      RunningIs(s, at, mu, l);
      var r := s.lwp[l].t;
      if s.uth[r].pc.WaitTake? && s.uth[r].pc.c == c { MutualExclusion(s, at, mu, mu[c], t, r); }
      StepEffects(s, l, r, call, mu);
      WaitTakeGivesUp(s, l, r, call, mu);
    }
    hide Inv, Queued, PuttingToSleep, ThreadStep;
    assert u in s.uth ==> !PcAsleep(s.uth[u].pc, c);
  }

  lemma LwpArgs(s: State, at: Places, mu: map<Cid, Mid>, l: Lid, call: Call, k: Lid, u: Tid, c: Cid)
    requires Inv(s, at, mu) && l in s.lwp && Next(s, l, call, mu).Moved? && !FallingAsleep(s, u, c)
    ensures !PuttingToSleep(Next(s, l, call, mu).s, k, u, c)
  {
    assert !PuttingToSleep(s, k, u, c);
    hide Inv;
    if s.lwp[l].Runs? {
      RunsIs(s, l, s.lwp[l].t, call, mu);
      StepEffects(s, l, s.lwp[l].t, call, mu);
    } else {
      LwpTurns(s, l, call, mu);
    }
    hide Next, ThreadStep;
  }

  lemma LwpTurns(s: State, l: Lid, call: Call, mu: map<Cid, Mid>)
    requires l in s.lwp && !s.lwp[l].Runs? && Next(s, l, call, mu).Moved?
    ensures var s' := Next(s, l, call, mu).s; l in s'.lwp && s'.lwp == s.lwp[l := s'.lwp[l]] && !s'.lwp[l].Enqueue?
  {
    hide ThreadStep, Queued, Highest;
    if s.lwp[l].Enqueue? { EnqueueTurns(s, l, call, mu); } else { hide RunqEnqueue; }
  }

  lemma EnqueueTurns(s: State, l: Lid, call: Call, mu: map<Cid, Mid>)
    requires l in s.lwp && s.lwp[l].Enqueue? && Next(s, l, call, mu).Moved?
    ensures Next(s, l, call, mu).s.lwp == s.lwp[l := Drop(s.lwp[l].pm)]
  {
    hide ThreadStep, Queued, Highest;
  }

  lemma DozeFacts(s: State, at: Places, mu: map<Cid, Mid>, l: Lid)
    requires Inv(s, at, mu) && l in s.lwp
    ensures var p := Highest(s.runq, |s.runq|);
            s.lwp[l].Find? && p >= 0 ==> s.runq[p][0] in s.uth && s.uth[s.runq[p][0]].pc.Out?
  {
    var p := Highest(s.runq, |s.runq|);
    if p >= 0 {
      assert RunqOk(s, at, p) && s.runq[p][0] in s.runq[p];
      assert ThreadOk(s, at, mu, s.runq[p][0]);
    }
  }

  /** A broadcast by a thread that keeps c's mutex: from the moment i at which it
      first inspects the queue, the queue only shrinks from its front, so the
      loop ends, and whoever it takes was waiting when it began. */
  lemma {:induction false} BroadcastWakesThoseWaiting(states: seq<State>, acts: seq<Action>, mu: map<Cid, Mid>, l: Lid,
      t: Tid, c: Cid, i: nat, j: nat)
    requires IsRun(states, acts, mu) && i <= j < |states| && c in mu && c in states[i].cond
    requires l in states[i].lwp && states[i].lwp[l] == Runs(t) && t in states[i].uth && states[i].uth[t].pc == BcTest(c)
    requires forall n :: i <= n <= j ==> t in states[n].uth && mu[c] in states[n].uth[t].has
    ensures AllAsleep(states[j], c) && c in states[j].cond
    ensures IsSuffix(QueueOf(states[j], CondQ(c)), QueueOf(states[i], CondQ(c)))
    decreases j
  {
    var at := RunsAreSafe(states, acts, mu, if i == j then i else j - 1);
    if i == j {
      forall u ensures !FallingAsleep(states[i], u, c) { NoWakeupIsLost(states[i], at, mu, l, c, u); }
    } else {
      BroadcastWakesThoseWaiting(states, acts, mu, l, t, c, i, j - 1);
      assert Follows(states[j - 1], acts[j - 1], states[j], mu);
      HolderKeepsOthersOut(states[j - 1], at, mu, acts[j - 1].l, acts[j - 1].call, t, c);
      CondsStay(states[j - 1], acts[j - 1].l, acts[j - 1].call, mu, c);
    }
  }

  lemma CondsStay(s: State, l: Lid, call: Call, mu: map<Cid, Mid>, c: Cid)
    requires l in s.lwp && Next(s, l, call, mu).Moved? && c in s.cond
    ensures c in Next(s, l, call, mu).s.cond
  {
    hide ThreadStep, Queued, Highest;
    if s.lwp[l].Runs? { StepEffects(s, l, s.lwp[l].t, call, mu); }
  }

  /** The waking thread always makes the thread in its hands runnable. */
  lemma WakeIsEffective(s: State, at: Places, mu: map<Cid, Mid>, l: Lid, call: Call)
    requires Inv(s, at, mu) && l in s.lwp && s.lwp[l].Runs? && s.lwp[l].t in s.uth && s.uth[s.lwp[l].t].pc.WakeTest?
    ensures Next(s, l, call, mu).Moved?
    ensures var x, s' := s.uth[s.lwp[l].t].pc.u, Next(s, l, call, mu).s;
            x in s.uth && x in s'.uth && s'.uth[x].state == Runnable && s.uth[x].prio < |s'.runq|
            && s'.runq == s.runq[s.uth[x].prio := s.runq[s.uth[x].prio] + [x]] && s'.runqSize == s.runqSize + 1
  {
    RunningIs(s, at, mu, l);
    var t := s.lwp[l].t;
    var x := s.uth[t].pc.u;
    assert x in at && at[x] == InHand(t) && ThreadOk(s, at, mu, x);
    QueuedMeans(s, at, x);
    var s0 := s.(uth := s.uth[x := s.uth[x].(state := Runnable)]);
    assert Queued(s0, x) == Queued(s, x);
  }
}
