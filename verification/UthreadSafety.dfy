/** The invariant of the thread runtime. */
module UthreadSafety {
  import opened Uthreads

  /** Where a thread is: on an LWP (running, or being put away by it), on its
      run queue, on a wait queue, or in the hands of the thread that is waking it. */
  datatype Place = OnLwp(l: Lid) | OnRunQ | OnWait(q: Queue) | InHand(waker: Tid)

  type Places = map<Tid, Place>

  // ---------------------------------------------------------------- who carries, who holds

  function Carries(w: Lwp): Option<Tid> {
    match w
    case Runs(t) => Some(t)
    case Enqueue(t, _, _) => Some(t)
    case _ => None
  }

  /** The thread that a waker has taken off a wait queue and not yet made runnable. */
  function Hand(pc: Pc): Option<Tid> {
    match pc
    case UnlHand(_, _, u) => Some(u)
    case SigHand(_, u) => Some(u)
    case BcHand(_, u) => Some(u)
    case WakeTake(u, _) => Some(u)
    case WakeTest(u, _) => Some(u)
    case _ => None
  }

  function ContLocks(k: Cont): set<Pm> {
    match k case Sleep(c, _) => {CondPm(c)} case _ => {}
  }

  /** The POSIX mutexes that the code has locked at each point. */
  function PcLocks(pc: Pc): set<Pm> {
    match pc
    case LockTest(m) => {MtxPm(m)}
    case LockFree(m) => {MtxPm(m)}
    case TryTest(m) => {MtxPm(m)}
    case TryFree(m, _) => {MtxPm(m)}
    case UnlTake(m, k) => ContLocks(k)
    case UnlTest(m, k) => {MtxPm(m)} + ContLocks(k)
    case UnlFree(m, k) => {MtxPm(m)} + ContLocks(k)
    case UnlHand(m, k, _) => {MtxPm(m)} + ContLocks(k)
    case WakeTake(_, k) => ContLocks(k)
    case WakeTest(_, k) => {RunqMtx} + ContLocks(k)
    case WakeFree(k) => {RunqMtx} + ContLocks(k)
    case WaitSet(c, _) => {CondPm(c)}
    case SigTest(c) => {CondPm(c)}
    case SigFree(c) => {CondPm(c)}
    case SigHand(c, _) => {CondPm(c)}
    case BcTest(c) => {CondPm(c)}
    case BcFree(c) => {CondPm(c)}
    case BcHand(c, _) => {CondPm(c)}
    case Switch(_, pm, _) => {pm}
    case _ => {}
  }

  function Locks(s: State, l: Lid): set<Pm>
    requires l in s.lwp
  {
    match s.lwp[l]
    case Runs(t) => if t in s.uth then PcLocks(s.uth[t].pc) else {}
    case Enqueue(_, _, pm) => {RunqMtx, pm}
    case Drop(pm) => {RunqMtx, pm}
    case Find => {RunqMtx}
    case _ => {}
  }

  ghost predicate PmOk(s: State, l: Lid, pm: Pm)
    requires l in s.lwp
  {
    pm in Locks(s, l) <==> pm in s.held && s.held[pm] == l
  }

  ghost predicate HeldOk(s: State) {
    && (forall pm :: pm in s.held ==> s.held[pm] in s.lwp)
    && (forall l, pm {:trigger PmOk(s, l, pm)} :: l in s.lwp ==> PmOk(s, l, pm))
  }

  // ---------------------------------------------------------------- threads

  ghost predicate OwnedBy(s: State, m: Mid, t: Tid) {
    m in s.mtx && s.mtx[m].owner == Some(t)
  }

  ghost predicate ContOk(s: State, mu: map<Cid, Mid>, k: Cont) {
    match k
    case Ret => true
    case Sleep(c, m) => c in s.cond && c in mu && mu[c] == m && m in s.mtx
    case Again(c) => c in s.cond
  }

  /** The arguments of a switch: what will be queued where, and what unlocked. */
  ghost predicate SwitchOk(s: State, mu: map<Cid, Mid>, t: Tid, state: UState, q: Option<Queue>, pm: Pm, after: After) {
    match q
    case None => pm == OwnPm(t) && after == Back
    case Some(MtxQ(m)) => m in s.mtx && s.mtx[m].owner.Some? && pm == MtxPm(m) && after == Got(m) && state == Wait
    case Some(CondQ(c)) =>
      c in s.cond && c in mu && mu[c] in s.mtx && pm == CondPm(c) && after == Relock(mu[c]) && state == Wait
  }

  ghost predicate PcOk(s: State, mu: map<Cid, Mid>, t: Tid)
    requires t in s.uth
  {
    match s.uth[t].pc
    case LockTake(m) => m in s.mtx
    case LockTest(m) => m in s.mtx
    case LockFree(m) => OwnedBy(s, m, t)
    case TryTake(m) => m in s.mtx
    case TryTest(m) => m in s.mtx
    case TryFree(m, ok) => m in s.mtx && (ok ==> OwnedBy(s, m, t))
    case UnlTake(m, k) => OwnedBy(s, m, t) && m !in s.uth[t].has && ContOk(s, mu, k)
    case UnlTest(m, k) => OwnedBy(s, m, t) && m !in s.uth[t].has && ContOk(s, mu, k)
    case UnlFree(m, k) => m in s.mtx && ContOk(s, mu, k)
    case UnlHand(m, k, _) => m in s.mtx && ContOk(s, mu, k)
    case WakeTake(_, k) => ContOk(s, mu, k)
    case WakeTest(_, k) => ContOk(s, mu, k)
    case WakeFree(k) => ContOk(s, mu, k)
    case WaitTake(c, m) => m in s.uth[t].has && ContOk(s, mu, Sleep(c, m))
    case WaitSet(c, m) => ContOk(s, mu, Sleep(c, m))
    case SigTake(c) => c in s.cond
    case SigTest(c) => c in s.cond
    case SigFree(c) => c in s.cond
    case SigHand(c, _) => c in s.cond
    case BcTake(c) => c in s.cond
    case BcTest(c) => c in s.cond
    case BcFree(c) => c in s.cond
    case BcHand(c, _) => c in s.cond
    case Switch(q, pm, after) => SwitchOk(s, mu, t, s.uth[t].state, q, pm, after)
    case Out(_) => false
    case _ => true
  }

  ghost predicate AfterOk(s: State, pc: Pc) {
    pc.Out? && match pc.after case Back => true case Got(m) => m in s.mtx case Relock(m) => m in s.mtx
  }

  /** What holds of a thread depends on where it is. */
  ghost predicate ThreadOk(s: State, at: Places, mu: map<Cid, Mid>, t: Tid)
    requires t in s.uth && t in at
  {
    var u := s.uth[t];
    && u.prio < |s.runq|
    && match at[t]
       case OnLwp(l) =>
         && l in s.lwp
         && (s.lwp[l] == Runs(t) || s.lwp[l].Enqueue?)
         && (s.lwp[l] == Runs(t) ==> PcOk(s, mu, t))
         && (s.lwp[l].Enqueue? ==>
           s.lwp[l].t == t && AfterOk(s, u.pc) && SwitchOk(s, mu, t, u.state, s.lwp[l].q, s.lwp[l].pm, u.pc.after))
       case OnRunQ => AfterOk(s, u.pc) && u.state == Runnable
       case OnWait(q) =>
         && AfterOk(s, u.pc) && u.state == Wait
         && (match q case MtxQ(m) => u.pc.after == Got(m) case CondQ(c) => c in mu && u.pc.after == Relock(mu[c]))
       case InHand(w) => AfterOk(s, u.pc) && u.state == Wait && w in s.uth
  }

  /** t was waiting for a mutex and has been taken off its queue. */
  ghost predicate Handed(s: State, at: Places, t: Tid)
    requires t in s.uth && t in at
  {
    s.uth[t].pc.Out? && s.uth[t].pc.after.Got? && !at[t].OnLwp? && at[t] != OnWait(MtxQ(s.uth[t].pc.after.m))
  }

  /** The mutexes that t has been given, or has been handed, are t's. */
  ghost predicate HasOk(s: State, at: Places, t: Tid)
    requires t in s.uth && t in at
  {
    && (forall m :: m in s.uth[t].has ==> OwnedBy(s, m, t))
    && (Handed(s, at, t) ==> OwnedBy(s, s.uth[t].pc.after.m, t))
  }

  // ---------------------------------------------------------------- containers

  ghost predicate NoDup(q: seq<Tid>) {
    forall i, j :: 0 <= i < j < |q| ==> q[i] != q[j]
  }

  ghost predicate RunqOk(s: State, at: Places, p: nat)
    requires p < |s.runq|
  {
    && NoDup(s.runq[p])
    && (forall t :: t in s.runq[p] <==> t in at && at[t] == OnRunQ && t in s.uth && s.uth[t].prio == p)
  }

  ghost predicate WaitOk(s: State, at: Places, q: Queue) {
    && NoDup(QueueOf(s, q))
    && (forall t :: t in QueueOf(s, q) <==> t in at && at[t] == OnWait(q))
  }

  ghost predicate LwpOk(s: State, at: Places, l: Lid)
    requires l in s.lwp
  {
    && (forall t :: Carries(s.lwp[l]) == Some(t) <==> t in at && at[t] == OnLwp(l))
    && (s.lwp[l].Drop? ==> s.lwp[l].pm != RunqMtx)
  }

  ghost predicate HandOk(s: State, at: Places, t: Tid)
    requires t in s.uth
  {
    forall u :: Hand(s.uth[t].pc) == Some(u) <==> u in at && at[u] == InHand(t)
  }

  /** A mutex with waiters has an owner. */
  ghost predicate MtxOk(s: State, m: Mid)
    requires m in s.mtx
  {
    s.mtx[m].waiters != [] ==> s.mtx[m].owner.Some?
  }

  ghost predicate PlacesHold(s: State, at: Places) {
    && at.Keys == s.uth.Keys
    && (forall p {:trigger RunqOk(s, at, p)} :: 0 <= p < |s.runq| ==> RunqOk(s, at, p))
    && (forall q {:trigger WaitOk(s, at, q)} :: WaitOk(s, at, q))
    && (forall l {:trigger LwpOk(s, at, l)} :: l in s.lwp ==> LwpOk(s, at, l))
    && (forall t {:trigger HandOk(s, at, t)} :: t in s.uth ==> HandOk(s, at, t))
  }

  ghost predicate Threads(s: State, at: Places, mu: map<Cid, Mid>)
    requires at.Keys == s.uth.Keys
  {
    && (forall t {:trigger ThreadOk(s, at, mu, t)} :: t in s.uth ==> ThreadOk(s, at, mu, t))
    && (forall t {:trigger HasOk(s, at, t)} :: t in s.uth ==> HasOk(s, at, t))
  }

  ghost predicate Inv(s: State, at: Places, mu: map<Cid, Mid>) {
    && |s.runq| == UTH_MAXPRIO + 1
    && PlacesHold(s, at) && Threads(s, at, mu) && HeldOk(s)
    && (forall m {:trigger MtxOk(s, m)} :: m in s.mtx ==> MtxOk(s, m))
    && s.runqSize == Total(s.runq)
  }

  // ---------------------------------------------------------------- locks

  lemma LockIsExclusive(s: State, pm: Pm, l: Lid, l': Lid)
    requires HeldOk(s) && l in s.lwp && l' in s.lwp && pm in Locks(s, l) && pm in Locks(s, l')
    ensures l == l'
  {
    assert PmOk(s, l, pm) && PmOk(s, l', pm);
  }

  ghost predicate SameLocksBut(s: State, s': State, l: Lid) {
    && s'.lwp.Keys == s.lwp.Keys && l in s.lwp
    && forall l' :: l' in s.lwp && l' != l ==> Locks(s', l') == Locks(s, l')
  }

  lemma TakeKeepsHeld(s: State, s': State, l: Lid, pm: Pm)
    requires HeldOk(s) && SameLocksBut(s, s', l) && pm !in s.held && s'.held == s.held[pm := l]
    requires Locks(s', l) == Locks(s, l) + {pm}
    ensures HeldOk(s')
  {
    forall k, x | k in s'.lwp
      ensures PmOk(s', k, x)
    {
      assert PmOk(s, k, x) && PmOk(s, l, x);
    }
  }

  lemma FreeKeepsHeld(s: State, s': State, l: Lid, pm: Pm)
    requires HeldOk(s) && SameLocksBut(s, s', l) && pm in Locks(s, l) && s'.held == s.held - {pm}
    requires Locks(s', l) == Locks(s, l) - {pm}
    ensures HeldOk(s')
  {
    forall k, x | k in s'.lwp
      ensures PmOk(s', k, x)
    {
      assert PmOk(s, k, x) && PmOk(s, l, x);
    }
  }

  lemma SameKeepsHeld(s: State, s': State, l: Lid)
    requires HeldOk(s) && SameLocksBut(s, s', l) && s'.held == s.held && Locks(s', l) == Locks(s, l)
    ensures HeldOk(s')
  {
    forall k, x | k in s'.lwp
      ensures PmOk(s', k, x)
    {
      assert PmOk(s, k, x) && PmOk(s, l, x);
    }
  }

  /** Changing only thread t, which l runs, changes only l's locks. */
  lemma OthersKeepLocks(s: State, s': State, at: Places, l: Lid, t: Tid)
    requires PlacesHold(s, at) && l in s.lwp && s.lwp[l] == Runs(t) && s'.lwp.Keys == s.lwp.Keys
    requires forall l' :: l' in s.lwp && l' != l ==> s'.lwp[l'] == s.lwp[l']
    requires s'.uth.Keys == s.uth.Keys
    requires forall u :: u in s.uth && u != t ==> s'.uth[u].pc == s.uth[u].pc
    ensures SameLocksBut(s, s', l)
  {
    forall l' | l' in s.lwp && l' != l ensures Locks(s', l') == Locks(s, l') {
      assert LwpOk(s, at, l) && LwpOk(s, at, l');
    }
  }

  // ---------------------------------------------------------------- steps that move nobody

  /** A step of the running thread t that moves no thread: only t's record and
      mutex owners change. */
  ghost predicate Quiet(s: State, s': State, t: Tid) {
    && t in s.uth && s'.uth.Keys == s.uth.Keys && s'.lwp == s.lwp && s'.runq == s.runq && s'.runqSize == s.runqSize
    && s'.cond == s.cond && s'.mtx.Keys == s.mtx.Keys
    && (forall m :: m in s.mtx ==> s'.mtx[m].waiters == s.mtx[m].waiters)
    && (forall u :: u in s.uth && u != t ==> s'.uth[u] == s.uth[u])
    && s'.uth[t].prio == s.uth[t].prio && Hand(s'.uth[t].pc) == Hand(s.uth[t].pc)
  }

  lemma QuietKeepsPlaces(s: State, s': State, at: Places, t: Tid)
    requires PlacesHold(s, at) && Quiet(s, s', t)
    ensures PlacesHold(s', at)
  {
    forall p | 0 <= p < |s'.runq| ensures RunqOk(s', at, p) { assert RunqOk(s, at, p); }
    forall q ensures WaitOk(s', at, q) { assert WaitOk(s, at, q) && QueueOf(s', q) == QueueOf(s, q); }
    forall l | l in s'.lwp ensures LwpOk(s', at, l) { assert LwpOk(s, at, l); }
    forall u | u in s'.uth ensures HandOk(s', at, u) { assert HandOk(s, at, u); }
  }

  lemma QuietKeepsOthers(s: State, s': State, at: Places, mu: map<Cid, Mid>, l: Lid, t: Tid, m: Mid, u: Tid)
    requires Inv(s, at, mu) && Quiet(s, s', t) && l in s.lwp && s.lwp[l] == Runs(t) && u in s.uth && u != t
    requires forall x :: x in s.mtx && x != m ==> s'.mtx[x] == s.mtx[x]
    requires m in s.mtx && s'.mtx[m].owner != s.mtx[m].owner ==>
               MtxPm(m) in Locks(s, l) && (s.mtx[m].owner == None || s.mtx[m].owner == Some(t))
    ensures ThreadOk(s', at, mu, u) && HasOk(s', at, u)
  {
    assert ThreadOk(s, at, mu, u) && HasOk(s, at, u);
    if at[u].OnLwp? {
      if MtxPm(m) in Locks(s, at[u].l) && MtxPm(m) in Locks(s, l) { LockIsExclusive(s, MtxPm(m), l, at[u].l); }
      assert LwpOk(s, at, l) && LwpOk(s, at, at[u].l);
    }
    hide Inv, ThreadOk, HasOk, LwpOk, Locks;
    QuietKeepsThread(s, s', at, mu, t, m, u);
  }

  lemma QuietKeepsThread(s: State, s': State, at: Places, mu: map<Cid, Mid>, t: Tid, m: Mid, u: Tid)
    requires Quiet(s, s', t) && u in s.uth && u in at && u != t && ThreadOk(s, at, mu, u) && HasOk(s, at, u)
    requires forall x :: x in s.mtx && x != m ==> s'.mtx[x] == s.mtx[x]
    requires m in s.mtx && s'.mtx[m].owner != s.mtx[m].owner ==>
      && (s.mtx[m].owner == None || s.mtx[m].owner == Some(t))
      && (at[u].OnLwp? && at[u].l in s.lwp ==> MtxPm(m) !in Locks(s, at[u].l))
    ensures ThreadOk(s', at, mu, u) && HasOk(s', at, u)
  {
  }

  lemma QuietKeepsInv(s: State, s': State, at: Places, mu: map<Cid, Mid>, l: Lid, t: Tid, m: Mid)
    requires Inv(s, at, mu) && Quiet(s, s', t) && l in s.lwp && s.lwp[l] == Runs(t)
    requires forall x :: x in s.mtx && x != m ==> s'.mtx[x] == s.mtx[x]
    requires m in s.mtx && s'.mtx[m].owner != s.mtx[m].owner ==>
               MtxPm(m) in Locks(s, l) && (s.mtx[m].owner == None || s.mtx[m].owner == Some(t))
    requires m in s.mtx ==> MtxOk(s', m)
    requires t in at && PcOk(s', mu, t) && HasOk(s', at, t)
    requires HeldOk(s')
    ensures Inv(s', at, mu)
  {
    QuietKeepsPlaces(s, s', at, t);
    assert ThreadOk(s, at, mu, t) && LwpOk(s, at, l);
    forall u | u in s'.uth
      ensures ThreadOk(s', at, mu, u)
      ensures HasOk(s', at, u)
    {
      if u != t { QuietKeepsOthers(s, s', at, mu, l, t, m, u); }
    }
    forall x | x in s'.mtx ensures MtxOk(s', x) { assert MtxOk(s, x); }
  }

  /** The thread that LWP l is executing. */
  lemma RunningIs(s: State, at: Places, mu: map<Cid, Mid>, l: Lid)
    requires Inv(s, at, mu) && l in s.lwp && s.lwp[l].Runs?
    ensures var t := s.lwp[l].t;
            && t in s.uth && t in at && at[t] == OnLwp(l) && PcOk(s, mu, t) && HasOk(s, at, t) && HandOk(s, at, t)
            && Locks(s, l) == PcLocks(s.uth[t].pc)
  {
    assert LwpOk(s, at, l);
    var t := s.lwp[l].t;
    assert ThreadOk(s, at, mu, t) && HasOk(s, at, t) && HandOk(s, at, t);
  }

  // ---------------------------------------------------------------- quiet steps, by their effect on the locks

  /** A quiet step that leaves every owner alone. */
  lemma QuietKeepsAll(s: State, s': State, at: Places, mu: map<Cid, Mid>, l: Lid, t: Tid)
    requires Inv(s, at, mu) && Quiet(s, s', t) && l in s.lwp && s.lwp[l] == Runs(t) && s'.mtx == s.mtx
    requires t in at && PcOk(s', mu, t) && HasOk(s', at, t) && HeldOk(s')
    ensures Inv(s', at, mu)
  {
    if 0 in s.mtx { assert MtxOk(s, 0); }
    QuietKeepsInv(s, s', at, mu, l, t, 0);
  }

  /** Locking pm. */
  lemma TakeKeepsInv(s: State, s': State, at: Places, mu: map<Cid, Mid>, l: Lid, t: Tid, pm: Pm)
    requires Inv(s, at, mu) && Quiet(s, s', t) && l in s.lwp && s.lwp[l] == Runs(t) && s'.mtx == s.mtx
    requires pm !in s.held && s'.held == s.held[pm := l]
    requires t in at && PcOk(s', mu, t) && HasOk(s', at, t) && PcLocks(s'.uth[t].pc) == PcLocks(s.uth[t].pc) + {pm}
    ensures Inv(s', at, mu)
  {
    OthersKeepLocks(s, s', at, l, t);
    TakeKeepsHeld(s, s', l, pm);
    QuietKeepsAll(s, s', at, mu, l, t);
  }

  /** Unlocking pm. */
  lemma FreeKeepsInv(s: State, s': State, at: Places, mu: map<Cid, Mid>, l: Lid, t: Tid, pm: Pm)
    requires Inv(s, at, mu) && Quiet(s, s', t) && l in s.lwp && s.lwp[l] == Runs(t) && s'.mtx == s.mtx
    requires pm in PcLocks(s.uth[t].pc) && s'.held == s.held - {pm}
    requires t in at && PcOk(s', mu, t) && HasOk(s', at, t) && PcLocks(s'.uth[t].pc) == PcLocks(s.uth[t].pc) - {pm}
    ensures Inv(s', at, mu)
  {
    OthersKeepLocks(s, s', at, l, t);
    FreeKeepsHeld(s, s', l, pm);
    QuietKeepsAll(s, s', at, mu, l, t);
  }

  lemma CanFree(s: State, at: Places, mu: map<Cid, Mid>, l: Lid, pm: Pm)
    requires Inv(s, at, mu) && l in s.lwp && pm in Locks(s, l)
    ensures pm in s.held && s.held[pm] == l
  {
    assert PmOk(s, l, pm);
  }

  /** Neither locking nor unlocking; at most the owner of m changes. */
  lemma PlainKeepsInv(s: State, s': State, at: Places, mu: map<Cid, Mid>, l: Lid, t: Tid, m: Mid)
    requires Inv(s, at, mu) && Quiet(s, s', t) && l in s.lwp && s.lwp[l] == Runs(t) && s'.held == s.held
    requires forall x :: x in s.mtx && x != m ==> s'.mtx[x] == s.mtx[x]
    requires m in s.mtx && s'.mtx[m].owner != s.mtx[m].owner ==>
               MtxPm(m) in Locks(s, l) && (s.mtx[m].owner == None || s.mtx[m].owner == Some(t))
    requires m in s.mtx ==> MtxOk(s', m)
    requires t in at && PcOk(s', mu, t) && HasOk(s', at, t) && PcLocks(s'.uth[t].pc) == PcLocks(s.uth[t].pc)
    ensures Inv(s', at, mu)
  {
    OthersKeepLocks(s, s', at, l, t);
    SameKeepsHeld(s, s', l);
    QuietKeepsInv(s, s', at, mu, l, t, m);
  }

  /** Neither locking nor unlocking, and no owner changes. */
  lemma StillKeepsInv(s: State, s': State, at: Places, mu: map<Cid, Mid>, l: Lid, t: Tid)
    requires Inv(s, at, mu) && Quiet(s, s', t) && l in s.lwp && s.lwp[l] == Runs(t) && s'.held == s.held
    requires s'.mtx == s.mtx
    requires t in at && PcOk(s', mu, t) && HasOk(s', at, t) && PcLocks(s'.uth[t].pc) == PcLocks(s.uth[t].pc)
    ensures Inv(s', at, mu)
  {
    OthersKeepLocks(s, s', at, l, t);
    SameKeepsHeld(s, s', l);
    QuietKeepsAll(s, s', at, mu, l, t);
  }

  lemma MtxIsOk(s: State, at: Places, mu: map<Cid, Mid>, m: Mid)
    requires Inv(s, at, mu) && m in s.mtx
    ensures MtxOk(s, m)
  {
  }
}
