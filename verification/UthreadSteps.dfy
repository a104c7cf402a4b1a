/** Every step of every LWP keeps the invariant and never faults. */
module UthreadSteps {
  import opened Uthreads
  import opened UthreadSafety

  // ---------------------------------------------------------------- steps that move nobody

  lemma BeginKeepsInv(s: State, at: Places, mu: map<Cid, Mid>, l: Lid, call: Call)
    requires Inv(s, at, mu) && l in s.lwp && s.lwp[l].Runs? && s.lwp[l].t in s.uth && s.uth[s.lwp[l].t].pc == User
    ensures Next(s, l, call, mu) != Fault
    ensures Next(s, l, call, mu).Moved? ==> Inv(Next(s, l, call, mu).s, at, mu)
  {
    hide Inv;
    RunningIs(s, at, mu, l);
    var t := s.lwp[l].t;
    assert Next(s, l, call, mu) == Begin(s, t, call, mu) by { hide Begin, Queued, RunqEnqueue; }
    hide Next, ThreadStep;
    if Next(s, l, call, mu).Moved? {
      BegunIsQuiet(s, at, mu, t, call);
      hide Begin, PcOk, HasOk, PcLocks;
      StillKeepsInv(s, Next(s, l, call, mu).s, at, mu, l, t);
    }
  }

  lemma BegunIsQuiet(s: State, at: Places, mu: map<Cid, Mid>, t: Tid, call: Call)
    requires t in s.uth && t in at && at[t].OnLwp? && HasOk(s, at, t) && s.uth[t].pc == User
    requires Begin(s, t, call, mu).Moved?
    ensures var s' := Begin(s, t, call, mu).s;
      && Quiet(s, s', t) && s'.held == s.held && s'.mtx == s.mtx
      && PcOk(s', mu, t) && HasOk(s', at, t) && PcLocks(s'.uth[t].pc) == PcLocks(s.uth[t].pc)
  {
  }

  ghost predicate Locking(pc: Pc) {
    pc.YieldTake? || pc.LockTake? || pc.TryTake? || pc.UnlTake? || pc.WakeTake? || pc.SigTake? || pc.BcTake?
  }

  function LockedPm(pc: Pc, t: Tid): Pm {
    match pc
    case YieldTake => OwnPm(t)
    case LockTake(m) => MtxPm(m)
    case TryTake(m) => MtxPm(m)
    case UnlTake(m, _) => MtxPm(m)
    case SigTake(c) => CondPm(c)
    case BcTake(c) => CondPm(c)
    case WaitTake(c, _) => CondPm(c)
    case _ => RunqMtx
  }

  lemma LockingKeepsInv(s: State, at: Places, mu: map<Cid, Mid>, l: Lid, call: Call)
    requires Inv(s, at, mu) && l in s.lwp && s.lwp[l].Runs? && s.lwp[l].t in s.uth
    requires Locking(s.uth[s.lwp[l].t].pc)
    ensures Next(s, l, call, mu) != Fault
    ensures Next(s, l, call, mu).Moved? ==> Inv(Next(s, l, call, mu).s, at, mu)
  {
    hide Inv;
    RunningIs(s, at, mu, l);
    var t := s.lwp[l].t;
    LockingIs(s, l, t, call, mu);
    RunsIs(s, l, t, call, mu);
    hide Next, ThreadStep;
    if Next(s, l, call, mu).Moved? {
      var s' := Next(s, l, call, mu).s;
      LockedIsQuiet(s, s', at, mu, t);
      hide PcOk, HasOk, PcLocks;
      TakeKeepsInv(s, s', at, mu, l, t, LockedPm(s.uth[t].pc, t));
    }
  }

  function PcLocked(pc: Pc, t: Tid): Pc {
    match pc
    case YieldTake => Switch(None, OwnPm(t), Back)
    case LockTake(m) => LockTest(m)
    case TryTake(m) => TryTest(m)
    case UnlTake(m, k) => UnlTest(m, k)
    case WakeTake(x, k) => WakeTest(x, k)
    case SigTake(c) => SigTest(c)
    case BcTake(c) => BcTest(c)
    case _ => pc
  }

  lemma RunsIs(s: State, l: Lid, t: Tid, call: Call, mu: map<Cid, Mid>)
    requires l in s.lwp && s.lwp[l] == Runs(t) && t in s.uth
    ensures Next(s, l, call, mu) == ThreadStep(s, l, t, call, mu)
  {
    hide ThreadStep;
  }

  lemma LockingIs(s: State, l: Lid, t: Tid, call: Call, mu: map<Cid, Mid>)
    requires l in s.lwp && t in s.uth && Locking(s.uth[t].pc)
    ensures var pm := LockedPm(s.uth[t].pc, t);
      ThreadStep(s, l, t, call, mu) == if pm in s.held then Blocked
        else Moved(SetPc(s.(held := s.held[pm := l]), t, PcLocked(s.uth[t].pc, t)))
  {
    hide Queued, RunqEnqueue;
  }

  lemma LockedIsQuiet(s: State, s': State, at: Places, mu: map<Cid, Mid>, t: Tid)
    requires t in s.uth && t in at && PcOk(s, mu, t) && HasOk(s, at, t) && Locking(s.uth[t].pc) && at[t].OnLwp?
    requires exists h :: s' == SetPc(s.(held := h), t, PcLocked(s.uth[t].pc, t))
    ensures PcOk(s', mu, t) && HasOk(s', at, t) && Quiet(s, s', t)
    ensures PcLocks(s'.uth[t].pc) == PcLocks(s.uth[t].pc) + {LockedPm(s.uth[t].pc, t)}
  {
  }

  /** uthread_cond_wait locks the condition, and from then on its mutex counts as given up. */
  lemma WaitTakeKeepsInv(s: State, at: Places, mu: map<Cid, Mid>, l: Lid, call: Call)
    requires Inv(s, at, mu) && l in s.lwp && s.lwp[l].Runs? && s.lwp[l].t in s.uth
    requires s.uth[s.lwp[l].t].pc.WaitTake?
    ensures Next(s, l, call, mu) != Fault
    ensures Next(s, l, call, mu).Moved? ==> Inv(Next(s, l, call, mu).s, at, mu)
  {
    hide Inv;
    RunningIs(s, at, mu, l);
    var t := s.lwp[l].t;
    if Next(s, l, call, mu).Moved? {
      TakeKeepsInv(s, Next(s, l, call, mu).s, at, mu, l, t, CondPm(s.uth[t].pc.c));
    }
  }

  ghost predicate Unlocking(pc: Pc) {
    || pc.LockFree? || pc.TryFree? || pc.UnlFree? || pc.UnlHand? || pc.WakeFree?
    || pc.SigFree? || pc.SigHand? || pc.BcFree? || pc.BcHand?
  }

  function UnlockedPm(pc: Pc): Pm {
    match pc
    case LockFree(m) => MtxPm(m)
    case TryFree(m, _) => MtxPm(m)
    case UnlFree(m, _) => MtxPm(m)
    case UnlHand(m, _, _) => MtxPm(m)
    case SigFree(c) => CondPm(c)
    case SigHand(c, _) => CondPm(c)
    case BcFree(c) => CondPm(c)
    case BcHand(c, _) => CondPm(c)
    case _ => RunqMtx
  }

  lemma UnlockingKeepsInv(s: State, at: Places, mu: map<Cid, Mid>, l: Lid, call: Call)
    requires Inv(s, at, mu) && l in s.lwp && s.lwp[l].Runs? && s.lwp[l].t in s.uth
    requires Unlocking(s.uth[s.lwp[l].t].pc)
    ensures Next(s, l, call, mu).Moved? && Inv(Next(s, l, call, mu).s, at, mu)
  {
    hide Inv;
    RunningIs(s, at, mu, l);
    var t := s.lwp[l].t;
    var pm := UnlockedPm(s.uth[t].pc);
    CanFree(s, at, mu, l, pm);
    UnlockingIs(s, l, t, call, mu);
    RunsIs(s, l, t, call, mu);
    hide Next, ThreadStep;
    UnlockedIsQuiet(s, Unlocked(s, t), mu, t);
    UnlockedPc(s, Unlocked(s, t), at, mu, t);
    hide PcOk, HasOk, PcLocks, Unlocked;
    FreeKeepsInv(s, Next(s, l, call, mu).s, at, mu, l, t, pm);
  }

  function PcUnlocked(pc: Pc): Pc {
    match pc
    case UnlFree(_, k) => Then(k)
    case UnlHand(_, k, x) => WakeTake(x, k)
    case WakeFree(k) => Then(k)
    case SigHand(_, x) => WakeTake(x, Ret)
    case BcHand(c, x) => WakeTake(x, Again(c))
    case _ => User
  }

  function HasUnlocked(u: Uthread): set<Mid> {
    match u.pc
    case LockFree(m) => u.has + {m}
    case TryFree(m, ok) => if ok then u.has + {m} else u.has
    case _ => u.has
  }

  function Unlocked(s: State, t: Tid): State
    requires t in s.uth
  {
    var u := s.uth[t];
    s.(held := s.held - {UnlockedPm(u.pc)}, uth := s.uth[t := u.(pc := PcUnlocked(u.pc), has := HasUnlocked(u))])
  }

  lemma UnlockingIs(s: State, l: Lid, t: Tid, call: Call, mu: map<Cid, Mid>)
    requires l in s.lwp && t in s.uth && Unlocking(s.uth[t].pc)
    ensures var pm := UnlockedPm(s.uth[t].pc);
      ThreadStep(s, l, t, call, mu) == if pm in s.held && s.held[pm] == l then Moved(Unlocked(s, t)) else Fault
  {
    hide Queued, RunqEnqueue;
  }

  lemma UnlockedIsQuiet(s: State, s': State, mu: map<Cid, Mid>, t: Tid)
    requires t in s.uth && PcOk(s, mu, t) && Unlocking(s.uth[t].pc) && s' == Unlocked(s, t)
    ensures Quiet(s, s', t) && s'.mtx == s.mtx
    ensures var pm := UnlockedPm(s.uth[t].pc);
      pm in PcLocks(s.uth[t].pc) && PcLocks(s'.uth[t].pc) == PcLocks(s.uth[t].pc) - {pm} && s'.held == s.held - {pm}
  {
  }

  lemma UnlockedPc(s: State, s': State, at: Places, mu: map<Cid, Mid>, t: Tid)
    requires t in s.uth && t in at && PcOk(s, mu, t) && HasOk(s, at, t) && Unlocking(s.uth[t].pc) && at[t].OnLwp?
    requires s' == Unlocked(s, t)
    ensures PcOk(s', mu, t) && HasOk(s', at, t)
  {
  }

  /** Testing the owner, or finding nobody to wake. */
  lemma TestKeepsInv(s: State, at: Places, mu: map<Cid, Mid>, l: Lid, call: Call)
    requires Inv(s, at, mu) && l in s.lwp && s.lwp[l].Runs? && s.lwp[l].t in s.uth
    requires var pc := s.uth[s.lwp[l].t].pc;
             || pc.LockTest? || pc.TryTest?
             || (pc.UnlTest? && pc.m in s.mtx && s.mtx[pc.m].waiters == [])
    ensures Next(s, l, call, mu).Moved? && Inv(Next(s, l, call, mu).s, at, mu)
  {
    hide Inv;
    RunningIs(s, at, mu, l);
    var t := s.lwp[l].t;
    var m := s.uth[t].pc.m;
    MtxIsOk(s, at, mu, m);
    TestIs(s, l, t, call, mu);
    RunsIs(s, l, t, call, mu);
    hide Next, ThreadStep;
    TestedIsQuiet(s, Tested(s, t), l, t);
    TestedOwner(s, Tested(s, t), l, t);
    TestedPc(s, Tested(s, t), at, mu, t);
    hide PcOk, HasOk, PcLocks, Tested, Locks, MtxOk;
    PlainKeepsInv(s, Next(s, l, call, mu).s, at, mu, l, t, m);
  }

  ghost predicate Testing(s: State, t: Tid)
    requires t in s.uth
  {
    var pc := s.uth[t].pc;
    pc.LockTest? || pc.TryTest? || (pc.UnlTest? && pc.m in s.mtx && s.mtx[pc.m].waiters == [])
  }

  function Tested(s: State, t: Tid): State
    requires t in s.uth
  {
    var u := s.uth[t];
    match u.pc
    case LockTest(m) =>
      if m !in s.mtx then s
      else if s.mtx[m].owner == None then SetPc(SetMtx(s, m, s.mtx[m].(owner := Some(t))), t, LockFree(m))
      else s.(uth := s.uth[t := u.(state := Wait, pc := Switch(Some(MtxQ(m)), MtxPm(m), Got(m)))])
    case TryTest(m) =>
      if m !in s.mtx then s
      else if s.mtx[m].owner == None then SetPc(SetMtx(s, m, s.mtx[m].(owner := Some(t))), t, TryFree(m, true))
      else SetPc(s, t, TryFree(m, false))
    case UnlTest(m, k) => if m in s.mtx then SetPc(SetMtx(s, m, s.mtx[m].(owner := None)), t, UnlFree(m, k)) else s
    case _ => s
  }

  lemma TestIs(s: State, l: Lid, t: Tid, call: Call, mu: map<Cid, Mid>)
    requires l in s.lwp && t in s.uth && Testing(s, t) && s.uth[t].pc.m in s.mtx
    ensures ThreadStep(s, l, t, call, mu) == Moved(Tested(s, t))
  {
    hide Queued, RunqEnqueue;
  }

  lemma TestedFields(s: State, s': State, t: Tid)
    requires t in s.uth && Testing(s, t) && s' == Tested(s, t) && s.uth[t].pc.m in s.mtx
    ensures var m := s.uth[t].pc.m;
      && t in s'.uth && m in s'.mtx
      && s' == s.(uth := s.uth[t := s'.uth[t]], mtx := s.mtx[m := s'.mtx[m]])
      && s'.mtx[m].waiters == s.mtx[m].waiters && s'.uth[t].prio == s.uth[t].prio
  {
  }

  lemma TestedHand(s: State, t: Tid)
    requires t in s.uth && Testing(s, t)
    ensures t in Tested(s, t).uth && Hand(Tested(s, t).uth[t].pc) == Hand(s.uth[t].pc) == None
  {
  }

  lemma TestedIsQuiet(s: State, s': State, l: Lid, t: Tid)
    requires t in s.uth && Testing(s, t) && l in s.lwp && s.lwp[l] == Runs(t) && s' == Tested(s, t)
    requires s.uth[t].pc.m in s.mtx
    ensures Quiet(s, s', t) && s'.held == s.held
  {
    TestedFields(s, s', t);
    TestedHand(s, t);
    hide Tested, Hand, Testing;
  }

  lemma TestedOwner(s: State, s': State, l: Lid, t: Tid)
    requires t in s.uth && Testing(s, t) && l in s.lwp && s.lwp[l] == Runs(t) && s' == Tested(s, t)
    requires var m := s.uth[t].pc.m; m in s.mtx && MtxOk(s, m) && (s.uth[t].pc.UnlTest? ==> OwnedBy(s, m, t))
    ensures var m := s.uth[t].pc.m;
      && m in s'.mtx && MtxOk(s', m) && (forall x :: x in s.mtx && x != m ==> s'.mtx[x] == s.mtx[x])
      && (s'.mtx[m].owner != s.mtx[m].owner ==>
        MtxPm(m) in Locks(s, l) && (s.mtx[m].owner == None || s.mtx[m].owner == Some(t)))
  {
  }

  lemma TestedPc(s: State, s': State, at: Places, mu: map<Cid, Mid>, t: Tid)
    requires t in s.uth && t in at && PcOk(s, mu, t) && HasOk(s, at, t) && Testing(s, t) && at[t].OnLwp?
    requires s.uth[t].pc.m in s.mtx && s' == Tested(s, t)
    ensures PcOk(s', mu, t) && HasOk(s', at, t) && PcLocks(s'.uth[t].pc) == PcLocks(s.uth[t].pc)
  {
  }

  lemma NobodyKeepsInv(s: State, at: Places, mu: map<Cid, Mid>, l: Lid, call: Call)
    requires Inv(s, at, mu) && l in s.lwp && s.lwp[l].Runs? && s.lwp[l].t in s.uth
    requires var pc := s.uth[s.lwp[l].t].pc;
             pc.WaitSet? || ((pc.SigTest? || pc.BcTest?) && pc.c in s.cond && s.cond[pc.c] == [])
    ensures Next(s, l, call, mu).Moved? && Inv(Next(s, l, call, mu).s, at, mu)
  {
    hide Inv;
    RunningIs(s, at, mu, l);
    var t := s.lwp[l].t;
    NobodyIs(s, l, t, call, mu);
    RunsIs(s, l, t, call, mu);
    hide Next, ThreadStep;
    NobodyIsQuiet(s, FoundNobody(s, t), t);
    NobodyPc(s, FoundNobody(s, t), at, mu, t);
    hide PcOk, HasOk, PcLocks, FoundNobody;
    StillKeepsInv(s, Next(s, l, call, mu).s, at, mu, l, t);
  }

  ghost predicate FindsNobody(s: State, t: Tid)
    requires t in s.uth
  {
    var pc := s.uth[t].pc;
    pc.WaitSet? || ((pc.SigTest? || pc.BcTest?) && pc.c in s.cond && s.cond[pc.c] == [])
  }

  function FoundNobody(s: State, t: Tid): State
    requires t in s.uth
  {
    match s.uth[t].pc
    case WaitSet(c, m) => s.(uth :=
      s.uth[t := s.uth[t].(state := Wait, pc := Switch(Some(CondQ(c)), CondPm(c), Relock(m)))])
    case SigTest(c) => SetPc(s, t, SigFree(c))
    case BcTest(c) => SetPc(s, t, BcFree(c))
    case _ => s
  }

  lemma NobodyIs(s: State, l: Lid, t: Tid, call: Call, mu: map<Cid, Mid>)
    requires l in s.lwp && t in s.uth && FindsNobody(s, t)
    ensures ThreadStep(s, l, t, call, mu) == Moved(FoundNobody(s, t))
  {
    hide Queued, RunqEnqueue;
  }

  lemma NobodyIsQuiet(s: State, s': State, t: Tid)
    requires t in s.uth && FindsNobody(s, t) && s' == FoundNobody(s, t)
    ensures Quiet(s, s', t) && s'.held == s.held && s'.mtx == s.mtx
  {
  }

  lemma NobodyPc(s: State, s': State, at: Places, mu: map<Cid, Mid>, t: Tid)
    requires t in s.uth && t in at && PcOk(s, mu, t) && HasOk(s, at, t) && FindsNobody(s, t) && at[t].OnLwp?
    requires s' == FoundNobody(s, t)
    ensures PcOk(s', mu, t) && HasOk(s', at, t) && PcLocks(s'.uth[t].pc) == PcLocks(s.uth[t].pc)
  {
  }

  // ---------------------------------------------------------------- moving a thread

  lemma NoDupTail(q: seq<Tid>)
    requires q != [] && NoDup(q)
    ensures NoDup(q[1..]) && q[0] !in q[1..] && forall t :: t in q[1..] <==> t in q && t != q[0]
  {
    forall t ensures t in q[1..] <==> t in q && t != q[0] {
      if t in q && t != q[0] {
        var i :| 0 <= i < |q| && q[i] == t;
        assert q[1..][i - 1] == t;
      }
    }
  }

  lemma QueuedMeans(s: State, at: Places, t: Tid)
    requires PlacesHold(s, at) && t in s.uth
    ensures Queued(s, t) ==> at[t].OnRunQ? || at[t].OnWait?
  {
    if p :| 0 <= p < |s.runq| && t in s.runq[p] { assert RunqOk(s, at, p); }
    if m :| m in s.mtx && t in s.mtx[m].waiters { assert WaitOk(s, at, MtxQ(m)) && t in QueueOf(s, MtxQ(m)); }
    if c :| c in s.cond && t in s.cond[c] { assert WaitOk(s, at, CondQ(c)) && t in QueueOf(s, CondQ(c)); }
  }

  lemma {:induction false} TotalUpdate(runq: seq<seq<Tid>>, p: nat, q: seq<Tid>)
    requires p < |runq|
    ensures Total(runq[p := q]) == Total(runq) - |runq[p]| + |q|
  {
    var n := |runq| - 1;
    if p == n {
      assert runq[p := q][..n] == runq[..n];
    } else {
      assert runq[p := q][..n] == runq[..n][p := q];
      TotalUpdate(runq[..n], p, q);
    }
  }

  lemma {:induction false} TotalZero(runq: seq<seq<Tid>>, p: nat)
    requires p < |runq|
    ensures |runq[p]| <= Total(runq)
  {
    if p < |runq| - 1 { TotalZero(runq[..|runq| - 1], p); }
  }

  /** LWP l turns from the thread it runs to the LWP's own code. */
  ghost predicate LeavesStack(s: State, s': State, l: Lid, t: Tid) {
    && l in s.lwp && t in s.uth && s.lwp[l] == Runs(t) && s.uth[t].pc.Switch?
    && s' == SetPc(s.(held := s.held[RunqMtx := l], lwp := s.lwp[l := Enqueue(t, s.uth[t].pc.q, s.uth[t].pc.pm)]), t,
      Out(s.uth[t].pc.after))
  }

  lemma LeaveKeepsPlaces(s: State, s': State, at: Places, l: Lid, t: Tid)
    requires PlacesHold(s, at) && LeavesStack(s, s', l, t)
    ensures PlacesHold(s', at)
  {
    forall p | 0 <= p < |s'.runq| ensures RunqOk(s', at, p) { assert RunqOk(s, at, p); }
    forall q ensures WaitOk(s', at, q) { assert WaitOk(s, at, q) && QueueOf(s', q) == QueueOf(s, q); }
    forall k | k in s'.lwp ensures LwpOk(s', at, k) { assert LwpOk(s, at, k); }
    forall u | u in s'.uth ensures HandOk(s', at, u) { assert HandOk(s, at, u); }
  }

  lemma LeaveKeepsThreads(s: State, s': State, at: Places, mu: map<Cid, Mid>, l: Lid, t: Tid)
    requires PlacesHold(s, at) && Threads(s, at, mu) && LeavesStack(s, s', l, t)
    ensures Threads(s', at, mu)
  {
    assert LwpOk(s, at, l);
    hide ThreadOk, HasOk, LwpOk;
    forall u | u in s'.uth
      ensures ThreadOk(s', at, mu, u)
      ensures HasOk(s', at, u)
    {
      assert ThreadOk(s, at, mu, u) && HasOk(s, at, u);
      LeaveKeepsThread(s, s', at, mu, l, t, u);
    }
  }

  lemma LeaveKeepsThread(s: State, s': State, at: Places, mu: map<Cid, Mid>, l: Lid, t: Tid, u: Tid)
    requires at.Keys == s.uth.Keys && LeavesStack(s, s', l, t) && u in s.uth && LwpOk(s, at, l)
    requires ThreadOk(s, at, mu, u) && HasOk(s, at, u)
    ensures ThreadOk(s', at, mu, u) && HasOk(s', at, u)
  {
    assert Carries(s.lwp[l]) == Some(t);
  }

  lemma SwitchKeepsInv(s: State, at: Places, mu: map<Cid, Mid>, l: Lid, call: Call)
    requires Inv(s, at, mu) && l in s.lwp && s.lwp[l].Runs? && s.lwp[l].t in s.uth && s.uth[s.lwp[l].t].pc.Switch?
    ensures Next(s, l, call, mu) != Fault
    ensures Next(s, l, call, mu).Moved? ==> Inv(Next(s, l, call, mu).s, at, mu)
  {
    var t := s.lwp[l].t;
    if Next(s, l, call, mu).Moved? {
      var s' := Next(s, l, call, mu).s;
      hide ThreadOk, HasOk;
      LeaveKeepsPlaces(s, s', at, l, t);
      LeaveKeepsThreads(s, s', at, mu, l, t);
      OthersKeepLocks(s, s', at, l, t);
      TakeKeepsHeld(s, s', l, RunqMtx);
      forall m | m in s'.mtx ensures MtxOk(s', m) { assert MtxOk(s, m); }
    }
  }
}
