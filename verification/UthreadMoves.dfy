/** The steps that move a thread from one place to another. */
module UthreadMoves {
  import opened Uthreads
  import opened UthreadSafety
  import opened UthreadSteps

  // ---------------------------------------------------------------- an LWP puts its thread on a queue

  ghost predicate PutsOnWait(s: State, s': State, l: Lid, t: Tid, q: Queue, pm: Pm) {
    && l in s.lwp && t in s.uth && s.lwp[l] == Enqueue(t, Some(q), pm) && pm != RunqMtx
    && s' == Append(s.(lwp := s.lwp[l := Drop(pm)]), q, t)
    && (match q case MtxQ(m) => m in s.mtx case CondQ(c) => c in s.cond)
  }

  lemma PutOnWaitKeepsPlaces(s: State, s': State, at: Places, l: Lid, t: Tid, q: Queue, pm: Pm)
    requires PlacesHold(s, at) && PutsOnWait(s, s', l, t, q, pm)
    ensures PlacesHold(s', at[t := OnWait(q)])
  {
    var at' := at[t := OnWait(q)];
    assert LwpOk(s, at, l) && at[t] == OnLwp(l);
    forall p | 0 <= p < |s'.runq| ensures RunqOk(s', at', p) { assert RunqOk(s, at, p); }
    forall k ensures WaitOk(s', at', k) { assert WaitOk(s, at, k); }
    forall k | k in s'.lwp ensures LwpOk(s', at', k) { assert LwpOk(s, at, k); }
    forall u | u in s'.uth ensures HandOk(s', at', u) { assert HandOk(s, at, u); }
  }

  lemma PutOnWaitKeepsThreads(s: State, s': State, at: Places, mu: map<Cid, Mid>, l: Lid, t: Tid, q: Queue, pm: Pm)
    requires PlacesHold(s, at) && Threads(s, at, mu) && PutsOnWait(s, s', l, t, q, pm)
    ensures Threads(s', at[t := OnWait(q)], mu)
  {
    var at' := at[t := OnWait(q)];
    assert LwpOk(s, at, l) && at[t] == OnLwp(l);
    hide LwpOk, HandOk, WaitOk, RunqOk;
    forall u | u in s'.uth
      ensures ThreadOk(s', at', mu, u)
      ensures HasOk(s', at', u)
    {
      assert ThreadOk(s, at, mu, u) && HasOk(s, at, u) && ThreadOk(s, at, mu, t);
      PutOnWaitKeepsThread(s, s', at, mu, l, t, q, pm, u);
    }
  }

  lemma PutOnWaitKeepsThread(s: State, s': State, at: Places, mu: map<Cid, Mid>, l: Lid, t: Tid, q: Queue, pm: Pm,
      u: Tid)
    requires at.Keys == s.uth.Keys && PutsOnWait(s, s', l, t, q, pm) && u in s.uth && at[t] == OnLwp(l)
    requires ThreadOk(s, at, mu, u) && HasOk(s, at, u) && ThreadOk(s, at, mu, t)
    ensures ThreadOk(s', at[t := OnWait(q)], mu, u) && HasOk(s', at[t := OnWait(q)], u)
  {
  }

  lemma PutOnWaitKeepsInv(s: State, s': State, at: Places, mu: map<Cid, Mid>, l: Lid, t: Tid, q: Queue, pm: Pm)
    requires Inv(s, at, mu) && PutsOnWait(s, s', l, t, q, pm)
    ensures Inv(s', at[t := OnWait(q)], mu)
  {
    assert q.MtxQ? ==> s.mtx[q.m].owner.Some? by {
      assert LwpOk(s, at, l) && at[t] == OnLwp(l) && ThreadOk(s, at, mu, t);
    }
    hide ThreadOk, HasOk, RunqOk, WaitOk, LwpOk, HandOk;
    PutOnWaitKeepsPlaces(s, s', at, l, t, q, pm);
    PutOnWaitKeepsThreads(s, s', at, mu, l, t, q, pm);
    SameKeepsHeld(s, s', l);
    forall m | m in s'.mtx ensures MtxOk(s', m) { assert MtxOk(s, m); }
  }

  ghost predicate PutsOnRunq(s: State, s': State, l: Lid, t: Tid, pm: Pm) {
    && l in s.lwp && t in s.uth && s.lwp[l] == Enqueue(t, None, pm) && pm != RunqMtx && s.uth[t].prio < |s.runq|
    && s' == OnRunq(s.(uth := s.uth[t := s.uth[t].(state := Runnable)], lwp := s.lwp[l := Drop(pm)]), t)
  }

  lemma PutOnRunqKeepsPlaces(s: State, s': State, at: Places, l: Lid, t: Tid, pm: Pm)
    requires PlacesHold(s, at) && PutsOnRunq(s, s', l, t, pm)
    ensures PlacesHold(s', at[t := OnRunQ])
  {
    var at' := at[t := OnRunQ];
    assert LwpOk(s, at, l) && at[t] == OnLwp(l);
    forall p | 0 <= p < |s'.runq| ensures RunqOk(s', at', p) { assert RunqOk(s, at, p); }
    forall k ensures WaitOk(s', at', k) { assert WaitOk(s, at, k) && QueueOf(s', k) == QueueOf(s, k); }
    forall k | k in s'.lwp ensures LwpOk(s', at', k) { assert LwpOk(s, at, k); }
    forall u | u in s'.uth ensures HandOk(s', at', u) { assert HandOk(s, at, u); }
  }

  lemma PutOnRunqKeepsThreads(s: State, s': State, at: Places, mu: map<Cid, Mid>, l: Lid, t: Tid, pm: Pm)
    requires PlacesHold(s, at) && Threads(s, at, mu) && PutsOnRunq(s, s', l, t, pm)
    ensures Threads(s', at[t := OnRunQ], mu)
  {
    var at' := at[t := OnRunQ];
    assert LwpOk(s, at, l) && at[t] == OnLwp(l);
    forall u | u in s'.uth
      ensures ThreadOk(s', at', mu, u)
      ensures HasOk(s', at', u)
    {
      assert ThreadOk(s, at, mu, u) && HasOk(s, at, u);
    }
  }

  lemma PutOnRunqKeepsInv(s: State, s': State, at: Places, mu: map<Cid, Mid>, l: Lid, t: Tid, pm: Pm)
    requires Inv(s, at, mu) && PutsOnRunq(s, s', l, t, pm)
    ensures Inv(s', at[t := OnRunQ], mu)
  {
    hide ThreadOk, HasOk, RunqOk, WaitOk, LwpOk, HandOk;
    PutOnRunqKeepsPlaces(s, s', at, l, t, pm);
    PutOnRunqKeepsThreads(s, s', at, mu, l, t, pm);
    SameKeepsHeld(s, s', l);
    TotalUpdate(s.runq, s.uth[t].prio, s.runq[s.uth[t].prio] + [t]);
    forall m | m in s'.mtx ensures MtxOk(s', m) { assert MtxOk(s, m); }
  }

  // ---------------------------------------------------------------- a waker takes a thread off a wait queue

  /** t takes the first waiter of q; for a mutex it becomes the owner. */
  ghost predicate TakesWaiter(s: State, s': State, l: Lid, t: Tid, q: Queue, x: Tid, pc: Pc) {
    && l in s.lwp && t in s.uth && s.lwp[l] == Runs(t) && QueueOf(s, q) != [] && x == QueueOf(s, q)[0]
    && s'.uth == s.uth[t := s.uth[t].(pc := pc)] && s'.lwp == s.lwp && s'.held == s.held
    && s'.runq == s.runq && s'.runqSize == s.runqSize
    && Hand(s.uth[t].pc) == None && Hand(pc) == Some(x) && !pc.Out? && PcLocks(pc) == PcLocks(s.uth[t].pc)
    && match q
       case MtxQ(m) =>
         && m in s.mtx && s.mtx[m].owner == Some(t) && MtxPm(m) in PcLocks(s.uth[t].pc) && m !in s.uth[t].has
         && s'.mtx == s.mtx[m := Mutex(Some(x), s.mtx[m].waiters[1..])] && s'.cond == s.cond
       case CondQ(c) => c in s.cond && s'.cond == s.cond[c := s.cond[c][1..]] && s'.mtx == s.mtx
  }

  lemma TakeWaiterKeepsPlaces(s: State, s': State, at: Places, l: Lid, t: Tid, q: Queue, x: Tid, pc: Pc)
    requires PlacesHold(s, at) && TakesWaiter(s, s', l, t, q, x, pc)
    ensures x in at && at[x] == OnWait(q) && x != t && PlacesHold(s', at[x := InHand(t)])
  {
    var at' := at[x := InHand(t)];
    assert LwpOk(s, at, l) && WaitOk(s, at, q);
    assert x in QueueOf(s, q);
    assert at[t] == OnLwp(l);
    forall k ensures WaitOk(s', at', k) {
      assert WaitOk(s, at, k);
      TakeWaiterQueues(s, s', at, l, t, q, x, pc, k);
    }
    hide WaitOk;
    forall p | 0 <= p < |s'.runq| ensures RunqOk(s', at', p) { assert RunqOk(s, at, p); }
    hide RunqOk;
    forall k | k in s'.lwp ensures LwpOk(s', at', k) { assert LwpOk(s, at, k); }
    hide LwpOk;
    forall u | u in s'.uth ensures HandOk(s', at', u) {
      assert HandOk(s, at, u);
      TakeWaiterHands(s, s', at, l, t, q, x, pc, u);
    }
  }

  lemma TakeWaiterHands(s: State, s': State, at: Places, l: Lid, t: Tid, q: Queue, x: Tid, pc: Pc, u: Tid)
    requires TakesWaiter(s, s', l, t, q, x, pc) && u in s.uth && HandOk(s, at, u) && x in at && at[x] == OnWait(q)
    ensures HandOk(s', at[x := InHand(t)], u)
  {
  }

  lemma TakeWaiterQueues(s: State, s': State, at: Places, l: Lid, t: Tid, q: Queue, x: Tid, pc: Pc, k: Queue)
    requires TakesWaiter(s, s', l, t, q, x, pc) && WaitOk(s, at, q) && WaitOk(s, at, k)
    ensures WaitOk(s', at[x := InHand(t)], k)
  {
    NoDupTail(QueueOf(s, q));
    assert QueueOf(s', q) == QueueOf(s, q)[1..];
    if k != q { assert QueueOf(s', k) == QueueOf(s, k); }
  }

  lemma TakeWaiterKeepsThread(s: State, s': State, at: Places, mu: map<Cid, Mid>, l: Lid, t: Tid, q: Queue, x: Tid,
      pc: Pc, u: Tid)
    requires Inv(s, at, mu) && TakesWaiter(s, s', l, t, q, x, pc) && u in s.uth
    requires x in s.uth && x != t && at[x] == OnWait(q) && PcOk(s', mu, t)
    ensures ThreadOk(s', at[x := InHand(t)], mu, u) && HasOk(s', at[x := InHand(t)], u)
  {
    assert ThreadOk(s, at, mu, u) && HasOk(s, at, u) && LwpOk(s, at, l);
    if u != t && at[u].OnLwp? {
      assert LwpOk(s, at, at[u].l);
      if q.MtxQ? && MtxPm(q.m) in Locks(s, at[u].l) && MtxPm(q.m) in Locks(s, l) {
        LockIsExclusive(s, MtxPm(q.m), l, at[u].l);
      }
    }
    assert |s'.runq| == |s.runq| && at.Keys == s.uth.Keys && at[t] == OnLwp(l);
    hide Inv, PlacesHold, Threads, HeldOk, LwpOk, HandOk, RunqOk, WaitOk;
    TakeWaiterThread(s, s', at, mu, l, t, q, x, pc, u);
  }

  lemma TakeWaiterThread(s: State, s': State, at: Places, mu: map<Cid, Mid>, l: Lid, t: Tid, q: Queue, x: Tid,
      pc: Pc, u: Tid)
    requires at.Keys == s.uth.Keys && TakesWaiter(s, s', l, t, q, x, pc) && u in s.uth
    requires ThreadOk(s, at, mu, u) && HasOk(s, at, u)
    requires x in s.uth && x != t && at[x] == OnWait(q) && at[t] == OnLwp(l) && PcOk(s', mu, t)
    requires u != t && at[u].OnLwp? && at[u].l in s.lwp && q.MtxQ? ==> MtxPm(q.m) !in Locks(s, at[u].l)
    ensures ThreadOk(s', at[x := InHand(t)], mu, u)
    ensures HasOk(s', at[x := InHand(t)], u)
  {
    TakeWaiterHas(s, s', at, mu, l, t, q, x, pc, u);
    hide HasOk;
  }

  lemma TakeWaiterHas(s: State, s': State, at: Places, mu: map<Cid, Mid>, l: Lid, t: Tid, q: Queue, x: Tid, pc: Pc,
      u: Tid)
    requires at.Keys == s.uth.Keys && TakesWaiter(s, s', l, t, q, x, pc) && u in s.uth && HasOk(s, at, u)
    requires ThreadOk(s, at, mu, u) && x in s.uth && x != t && at[x] == OnWait(q) && at[t] == OnLwp(l)
    ensures HasOk(s', at[x := InHand(t)], u)
  {
    hide PcOk, SwitchOk, AfterOk, PcLocks;
  }

  lemma TakeWaiterKeepsInv(s: State, s': State, at: Places, mu: map<Cid, Mid>, l: Lid, t: Tid, q: Queue, x: Tid, pc: Pc)
    requires Inv(s, at, mu) && TakesWaiter(s, s', l, t, q, x, pc) && PcOk(s', mu, t)
    ensures x in at && Inv(s', at[x := InHand(t)], mu)
  {
    hide ThreadOk, HasOk, RunqOk, WaitOk, LwpOk, HandOk;
    TakeWaiterKeepsPlaces(s, s', at, l, t, q, x, pc);
    var at' := at[x := InHand(t)];
    forall u | u in s'.uth
      ensures ThreadOk(s', at', mu, u)
      ensures HasOk(s', at', u)
    {
      TakeWaiterKeepsThread(s, s', at, mu, l, t, q, x, pc, u);
    }
    OthersKeepLocks(s, s', at, l, t);
    SameKeepsHeld(s, s', l);
    forall m | m in s'.mtx ensures MtxOk(s', m) { assert MtxOk(s, m); }
  }

  // ---------------------------------------------------------------- a waker makes its thread runnable

  ghost predicate MakesRunnable(s: State, s': State, l: Lid, t: Tid, x: Tid, pc: Pc) {
    && l in s.lwp && t in s.uth && s.lwp[l] == Runs(t) && x in s.uth && x != t && s.uth[x].prio < |s.runq|
    && s' == SetPc(OnRunq(s.(uth := s.uth[x := s.uth[x].(state := Runnable)]), x), t, pc)
    && Hand(s.uth[t].pc) == Some(x) && Hand(pc) == None && !pc.Out? && PcLocks(pc) == PcLocks(s.uth[t].pc)
  }

  lemma MakeRunnableKeepsPlaces(s: State, s': State, at: Places, l: Lid, t: Tid, x: Tid, pc: Pc)
    requires PlacesHold(s, at) && MakesRunnable(s, s', l, t, x, pc)
    ensures at[x] == InHand(t) && PlacesHold(s', at[x := OnRunQ])
  {
    var at' := at[x := OnRunQ];
    assert LwpOk(s, at, l) && HandOk(s, at, t);
    forall p | 0 <= p < |s'.runq| ensures RunqOk(s', at', p) {
      assert RunqOk(s, at, p);
      MakeRunnableQueues(s, s', at, l, t, x, pc, p);
    }
    hide RunqOk;
    forall k ensures WaitOk(s', at', k) { assert WaitOk(s, at, k) && QueueOf(s', k) == QueueOf(s, k); }
    forall k | k in s'.lwp ensures LwpOk(s', at', k) { assert LwpOk(s, at, k); }
    hide WaitOk, LwpOk;
    forall u | u in s'.uth ensures HandOk(s', at', u) { assert HandOk(s, at, u); }
  }

  lemma MakeRunnableQueues(s: State, s': State, at: Places, l: Lid, t: Tid, x: Tid, pc: Pc, p: nat)
    requires MakesRunnable(s, s', l, t, x, pc) && p < |s.runq| && RunqOk(s, at, p) && x in at && at[x] == InHand(t)
    ensures RunqOk(s', at[x := OnRunQ], p)
  {
  }

  lemma MakeRunnableKeepsInv(s: State, s': State, at: Places, mu: map<Cid, Mid>, l: Lid, t: Tid, x: Tid, pc: Pc)
    requires Inv(s, at, mu) && MakesRunnable(s, s', l, t, x, pc) && PcOk(s', mu, t)
    ensures Inv(s', at[x := OnRunQ], mu)
  {
    hide ThreadOk, HasOk, RunqOk, WaitOk, LwpOk, HandOk, PcOk;
    MakeRunnableKeepsPlaces(s, s', at, l, t, x, pc);
    MakeRunnableKeepsThreads(s, s', at, mu, l, t, x, pc);
    OthersKeepLocks2(s, s', at, l, t, x);
    hide PlacesHold, Threads;
    SameKeepsHeld(s, s', l);
    TotalUpdate(s.runq, s.uth[x].prio, s.runq[s.uth[x].prio] + [x]);
    forall m | m in s'.mtx ensures MtxOk(s', m) { assert MtxOk(s, m); }
  }

  lemma MakeRunnableKeepsThreads(s: State, s': State, at: Places, mu: map<Cid, Mid>, l: Lid, t: Tid, x: Tid, pc: Pc)
    requires PlacesHold(s, at) && Threads(s, at, mu) && MakesRunnable(s, s', l, t, x, pc) && PcOk(s', mu, t)
    requires at[x] == InHand(t)
    ensures Threads(s', at[x := OnRunQ], mu)
  {
    assert LwpOk(s, at, l) && at[t] == OnLwp(l);
    hide ThreadOk, HasOk, RunqOk, WaitOk, LwpOk, HandOk;
    forall u | u in s'.uth
      ensures ThreadOk(s', at[x := OnRunQ], mu, u)
      ensures HasOk(s', at[x := OnRunQ], u)
    {
      assert ThreadOk(s, at, mu, u) && HasOk(s, at, u);
      MakeRunnableKeepsThread(s, s', at, mu, l, t, x, pc, u);
    }
  }

  lemma MakeRunnableKeepsThread(s: State, s': State, at: Places, mu: map<Cid, Mid>, l: Lid, t: Tid, x: Tid, pc: Pc,
      u: Tid)
    requires at.Keys == s.uth.Keys && MakesRunnable(s, s', l, t, x, pc) && PcOk(s', mu, t) && u in s.uth
    requires at[t] == OnLwp(l) && at[x] == InHand(t) && ThreadOk(s, at, mu, u) && HasOk(s, at, u)
    ensures ThreadOk(s', at[x := OnRunQ], mu, u) && HasOk(s', at[x := OnRunQ], u)
  {
  }

  lemma OthersKeepLocks2(s: State, s': State, at: Places, l: Lid, t: Tid, x: Tid)
    requires PlacesHold(s, at) && l in s.lwp && s.lwp[l] == Runs(t) && s'.lwp == s.lwp && s'.uth.Keys == s.uth.Keys
    requires forall u :: u in s.uth && u != t ==> s'.uth[u].pc == s.uth[u].pc
    ensures SameLocksBut(s, s', l)
  {
    OthersKeepLocks(s, s', at, l, t);
  }

  // ---------------------------------------------------------------- an LWP takes up a thread

  ghost predicate Dispatches(s: State, s': State, l: Lid, t: Tid, p: nat) {
    && l in s.lwp && s.lwp[l] == Find && p < |s.runq| && s.runq[p] != [] && t == s.runq[p][0] && t in s.uth
      && 0 < s.runqSize
    && s' == s.(held := s.held - {RunqMtx}, lwp := s.lwp[l := Runs(t)], runq := s.runq[p := s.runq[p][1..]],
                runqSize := s.runqSize - 1, uth := s.uth[t := Resume(s.uth[t])])
  }

  lemma DispatchKeepsPlaces(s: State, s': State, at: Places, l: Lid, t: Tid, p: nat)
    requires PlacesHold(s, at) && Dispatches(s, s', l, t, p) && s.uth[t].pc.Out?
    ensures at[t] == OnRunQ && PlacesHold(s', at[t := OnLwp(l)])
  {
    var at' := at[t := OnLwp(l)];
    assert LwpOk(s, at, l) && RunqOk(s, at, p);
    NoDupTail(s.runq[p]);
    forall k | 0 <= k < |s'.runq| ensures RunqOk(s', at', k) { assert RunqOk(s, at, k); }
    forall k ensures WaitOk(s', at', k) { assert WaitOk(s, at, k) && QueueOf(s', k) == QueueOf(s, k); }
    forall k | k in s'.lwp ensures LwpOk(s', at', k) { assert LwpOk(s, at, k); }
    forall u | u in s'.uth ensures HandOk(s', at', u) { assert HandOk(s, at, u); }
  }

  lemma DispatchKeepsThreads(s: State, s': State, at: Places, mu: map<Cid, Mid>, l: Lid, t: Tid, p: nat)
    requires PlacesHold(s, at) && Threads(s, at, mu) && Dispatches(s, s', l, t, p) && at[t] == OnRunQ
    ensures Threads(s', at[t := OnLwp(l)], mu)
  {
    var at' := at[t := OnLwp(l)];
    forall u | u in s'.uth
      ensures ThreadOk(s', at', mu, u)
      ensures HasOk(s', at', u)
    {
      assert ThreadOk(s, at, mu, u) && HasOk(s, at, u) && LwpOk(s, at, l);
    }
  }

  lemma DispatchKeepsInv(s: State, s': State, at: Places, mu: map<Cid, Mid>, l: Lid, t: Tid, p: nat)
    requires Inv(s, at, mu) && Dispatches(s, s', l, t, p)
    ensures Inv(s', at[t := OnLwp(l)], mu)
  {
    assert at[t] == OnRunQ && s.uth[t].pc.Out? by { assert RunqOk(s, at, p) && ThreadOk(s, at, mu, t); }
    DispatchLocks(s, s', at, l, t, p);
    hide ThreadOk, HasOk, RunqOk, WaitOk, LwpOk, HandOk;
    DispatchKeepsPlaces(s, s', at, l, t, p);
    DispatchKeepsThreads(s, s', at, mu, l, t, p);
    FreeKeepsHeld(s, s', l, RunqMtx);
    TotalUpdate(s.runq, p, s.runq[p][1..]);
    forall m | m in s'.mtx ensures MtxOk(s', m) { assert MtxOk(s, m); }
  }

  lemma DispatchLocks(s: State, s': State, at: Places, l: Lid, t: Tid, p: nat)
    requires PlacesHold(s, at) && Dispatches(s, s', l, t, p) && at[t] == OnRunQ && s.uth[t].pc.Out?
    ensures SameLocksBut(s, s', l) && Locks(s, l) == {RunqMtx} && Locks(s', l) == {}
  {
    forall k | k in s.lwp && k != l ensures Locks(s', k) == Locks(s, k) { assert LwpOk(s, at, k); }
  }

  // ---------------------------------------------------------------- an LWP's own steps

  /** Only LWP l and the POSIX mutexes change, and l carries no thread before or after. */
  lemma LwpKeepsInv(s: State, s': State, at: Places, mu: map<Cid, Mid>, l: Lid)
    requires Inv(s, at, mu) && l in s.lwp && s'.lwp.Keys == s.lwp.Keys && HeldOk(s')
    requires s' == s.(held := s'.held, lwp := s.lwp[l := s'.lwp[l]], lwpCnt := s'.lwpCnt, parkedCnt := s'.parkedCnt)
    requires Carries(s.lwp[l]) == None && Carries(s'.lwp[l]) == None && !s'.lwp[l].Drop?
    ensures Inv(s', at, mu)
  {
    LwpKeepsPlaces(s, s', at, l);
    LwpKeepsThreads(s, s', at, mu, l);
    hide PlacesHold, Threads;
    forall m | m in s'.mtx ensures MtxOk(s', m) { assert MtxOk(s, m); }
  }

  lemma LwpKeepsPlaces(s: State, s': State, at: Places, l: Lid)
    requires PlacesHold(s, at) && l in s.lwp && s'.lwp.Keys == s.lwp.Keys
    requires s' == s.(held := s'.held, lwp := s.lwp[l := s'.lwp[l]], lwpCnt := s'.lwpCnt, parkedCnt := s'.parkedCnt)
    requires Carries(s.lwp[l]) == None && Carries(s'.lwp[l]) == None && !s'.lwp[l].Drop?
    ensures PlacesHold(s', at)
  {
    forall p | 0 <= p < |s'.runq| ensures RunqOk(s', at, p) { assert RunqOk(s, at, p); }
    forall k ensures WaitOk(s', at, k) { assert WaitOk(s, at, k) && QueueOf(s', k) == QueueOf(s, k); }
    forall k | k in s'.lwp ensures LwpOk(s', at, k) { assert LwpOk(s, at, k); }
    forall u | u in s'.uth ensures HandOk(s', at, u) { assert HandOk(s, at, u); }
  }

  lemma LwpKeepsThreads(s: State, s': State, at: Places, mu: map<Cid, Mid>, l: Lid)
    requires PlacesHold(s, at) && Threads(s, at, mu) && l in s.lwp && s'.lwp.Keys == s.lwp.Keys
    requires s' == s.(held := s'.held, lwp := s.lwp[l := s'.lwp[l]], lwpCnt := s'.lwpCnt, parkedCnt := s'.parkedCnt)
    requires Carries(s.lwp[l]) == None && Carries(s'.lwp[l]) == None
    ensures Threads(s', at, mu)
  {
    assert LwpOk(s, at, l);
    forall u | u in s'.uth
      ensures ThreadOk(s', at, mu, u)
      ensures HasOk(s', at, u)
    {
      assert ThreadOk(s, at, mu, u) && HasOk(s, at, u);
    }
  }
}
