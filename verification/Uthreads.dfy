/** The two-level thread runtime of mthreads as a step relation.

    User threads (uthreads) run on kernel threads (LWPs). Each step is one action
    of one LWP: locking or unlocking a POSIX mutex, one access to the data that
    the mutex guards, or a switch between a uthread and its LWP. */
module Uthreads {

  type Tid = nat   // a uthread
  type Lid = nat   // an LWP
  type Mid = nat   // a uthread_mtx_t
  type Cid = nat   // a uthread_cond_t

  const UTH_MAXPRIO: nat := 7

  datatype Option<T> = None | Some(value: T)

  /** The POSIX mutexes: runq_mtx, m_pmut, the condition's pmut, ut_pmut. */
  datatype Pm = RunqMtx | MtxPm(m: Mid) | CondPm(c: Cid) | OwnPm(t: Tid)

  /** The wait queues. */
  datatype Queue = MtxQ(m: Mid) | CondQ(c: Cid)

  datatype UState = OnCpu | Runnable | Wait

  /** What unlocking or waking returns to: the caller, the rest of
      uthread_cond_wait, or the loop of uthread_cond_broadcast. */
  datatype Cont = Ret | Sleep(c: Cid, m: Mid) | Again(c: Cid)

  /** Where a thread goes on when it is switched to again. */
  datatype After = Back | Got(m: Mid) | Relock(m: Mid)

  datatype Pc =
    | User                                                   // the thread's own code
    | YieldTake                                              // yield: lock ut_pmut
    | LockTake(m: Mid) | LockTest(m: Mid) | LockFree(m: Mid)  // uthread_mtx_lock
    | TryTake(m: Mid) | TryTest(m: Mid) | TryFree(m: Mid, ok: bool)
    | UnlTake(m: Mid, k: Cont) | UnlTest(m: Mid, k: Cont)     // uthread_mtx_unlock
    | UnlFree(m: Mid, k: Cont) | UnlHand(m: Mid, k: Cont, u: Tid)
    | WakeTake(u: Tid, k: Cont) | WakeTest(u: Tid, k: Cont) | WakeFree(k: Cont)
    | WaitTake(c: Cid, m: Mid) | WaitSet(c: Cid, m: Mid)      // uthread_cond_wait
    | SigTake(c: Cid) | SigTest(c: Cid) | SigFree(c: Cid) | SigHand(c: Cid, u: Tid)
    | BcTake(c: Cid) | BcTest(c: Cid) | BcFree(c: Cid) | BcHand(c: Cid, u: Tid)
    | Switch(q: Option<Queue>, pm: Pm, after: After)          // uthread_switch: lock runq_mtx
    | Out(after: After)                                      // not on any processor's stack

  /** `has` is the client's own account of the mutexes its calls have given it. */
  datatype Uthread = Uthread(state: UState, prio: nat, pc: Pc, has: set<Mid>)

  /** An LWP: starting, executing a thread, acting in lwp_switch for the thread
      it has just left, looking for work, or parked. */
  datatype Lwp =
    | Start
    | Runs(t: Tid)
    | Enqueue(t: Tid, q: Option<Queue>, pm: Pm)
    | Drop(pm: Pm)
    | Find
    | Parked

  datatype Mutex = Mutex(owner: Option<Tid>, waiters: seq<Tid>)

  datatype State = State(
    uth: map<Tid, Uthread>,
    lwp: map<Lid, Lwp>,
    held: map<Pm, Lid>,
    runq: seq<seq<Tid>>,
    runqSize: nat,
    lwpCnt: nat,
    parkedCnt: int,
    mtx: map<Mid, Mutex>,
    cond: map<Cid, seq<Tid>>)

  /** The client's next call. */
  datatype Call =
    | Yield | LockCall(m: Mid) | TryLock(m: Mid) | Unlock(m: Mid)
    | CondWait(c: Cid, m: Mid) | Signal(c: Cid) | Broadcast(c: Cid)

  /** Fault is a broken assertion or a POSIX error: releasing a mutex that the
      LWP does not hold, queueing a thread that is on a queue or not runnable.
      AllParked is the assertion of lwp_park that not every LWP is parked. */
  datatype Outcome = Blocked | Fault | AllParked | Moved(s: State)

  // ---------------------------------------------------------------- helpers

  function SetPc(s: State, t: Tid, pc: Pc): State
    requires t in s.uth
  {
    s.(uth := s.uth[t := s.uth[t].(pc := pc)])
  }

  function Take(s: State, l: Lid, t: Tid, pm: Pm, pc: Pc): Outcome
    requires t in s.uth
  {
    if pm in s.held then Blocked else Moved(SetPc(s.(held := s.held[pm := l]), t, pc))
  }

  function Free(s: State, l: Lid, t: Tid, pm: Pm, pc: Pc): Outcome
    requires t in s.uth
  {
    if pm !in s.held || s.held[pm] != l then Fault else Moved(SetPc(s.(held := s.held - {pm}), t, pc))
  }

  /** On some queue: its link is not NULL. */
  ghost predicate Queued(s: State, t: Tid) {
    || (exists p :: 0 <= p < |s.runq| && t in s.runq[p])
    || (exists m :: m in s.mtx && t in s.mtx[m].waiters)
    || (exists c :: c in s.cond && t in s.cond[c])
  }

  function QueueOf(s: State, q: Queue): seq<Tid> {
    match q
    case MtxQ(m) => if m in s.mtx then s.mtx[m].waiters else []
    case CondQ(c) => if c in s.cond then s.cond[c] else []
  }

  function Append(s: State, q: Queue, t: Tid): State {
    match q
    case MtxQ(m) => if m in s.mtx then s.(mtx := s.mtx[m := s.mtx[m].(waiters := s.mtx[m].waiters + [t])]) else s
    case CondQ(c) => if c in s.cond then s.(cond := s.cond[c := s.cond[c] + [t]]) else s
  }

  function OnRunq(s: State, t: Tid): State
    requires t in s.uth && s.uth[t].prio < |s.runq|
  {
    var p := s.uth[t].prio;
    s.(runq := s.runq[p := s.runq[p] + [t]], runqSize := s.runqSize + 1)
  }

  /** uthread_runq_enqueue, with its assertions. */
  ghost function RunqEnqueue(s: State, t: Tid): Outcome {
    if t !in s.uth || s.uth[t].prio >= |s.runq| || s.uth[t].state != Runnable || Queued(s, t) then Fault
    else Moved(OnRunq(s, t))
  }

  /** The highest priority with a queued thread, or -1. */
  function Highest(runq: seq<seq<Tid>>, n: nat): (p: int)
    requires n <= |runq|
    ensures -1 <= p < n
    ensures p >= 0 ==> runq[p] != []
    ensures forall i :: p < i < n ==> runq[i] == []
  {
    if n == 0 then -1 else if runq[n - 1] != [] then n - 1 else Highest(runq, n - 1)
  }

  function Total(runq: seq<seq<Tid>>): nat {
    if runq == [] then 0 else |runq[|runq| - 1]| + Total(runq[..|runq| - 1])
  }

  function Resume(u: Uthread): Uthread {
    match u.pc
    case Out(Got(m)) => u.(state := OnCpu, pc := User, has := u.has + {m})
    case Out(Relock(m)) => u.(state := OnCpu, pc := LockTake(m))
    case _ => u.(state := OnCpu, pc := User)
  }

  function Then(k: Cont): Pc {
    match k
    case Ret => User
    case Sleep(c, m) => WaitSet(c, m)
    case Again(c) => BcTake(c)
  }

  // ---------------------------------------------------------------- steps of a thread

  /** A call from the client. Its discipline: it unlocks and waits with mutexes
      it holds, and always uses the same mutex `mu(c)` with condition c. */
  function Begin(s: State, t: Tid, call: Call, mu: map<Cid, Mid>): Outcome
    requires t in s.uth
  {
    var u := s.uth[t];
    match call
    case Yield => Moved(s.(uth := s.uth[t := u.(state := Runnable, pc := YieldTake)]))
    case LockCall(m) => if m in s.mtx then Moved(SetPc(s, t, LockTake(m))) else Blocked
    case TryLock(m) => if m in s.mtx then Moved(SetPc(s, t, TryTake(m))) else Blocked
    case Unlock(m) =>
      if m in s.mtx && m in u.has
      then Moved(s.(uth := s.uth[t := u.(has := u.has - {m}, pc := UnlTake(m, Ret))])) else Blocked
    case CondWait(c, m) =>
      if c in s.cond && m in s.mtx && m in u.has && c in mu && mu[c] == m then Moved(SetPc(s, t, WaitTake(c, m)))
        else Blocked
    case Signal(c) => if c in s.cond then Moved(SetPc(s, t, SigTake(c))) else Blocked
    case Broadcast(c) => if c in s.cond then Moved(SetPc(s, t, BcTake(c))) else Blocked
  }

  function SetMtx(s: State, m: Mid, x: Mutex): State {
    s.(mtx := s.mtx[m := x])
  }

  /** One step of thread t, executed by LWP l. */
  ghost function ThreadStep(s: State, l: Lid, t: Tid, call: Call, mu: map<Cid, Mid>): Outcome
    requires t in s.uth && l in s.lwp
  {
    var u := s.uth[t];
    match u.pc
    case User => Begin(s, t, call, mu)
    case YieldTake => Take(s, l, t, OwnPm(t), Switch(None, OwnPm(t), Back))
    // uthread_mtx_lock
    case LockTake(m) => Take(s, l, t, MtxPm(m), LockTest(m))
    case LockTest(m) =>
      if m !in s.mtx then Fault
      else if s.mtx[m].owner == None then Moved(SetPc(SetMtx(s, m, s.mtx[m].(owner := Some(t))), t, LockFree(m)))
      else Moved(s.(uth := s.uth[t := u.(state := Wait, pc := Switch(Some(MtxQ(m)), MtxPm(m), Got(m)))]))
    case LockFree(m) =>
      if MtxPm(m) !in s.held || s.held[MtxPm(m)] != l then Fault
      else Moved(s.(held := s.held - {MtxPm(m)}, uth := s.uth[t := u.(pc := User, has := u.has + {m})]))
    // uthread_mtx_trylock
    case TryTake(m) => Take(s, l, t, MtxPm(m), TryTest(m))
    case TryTest(m) =>
      if m !in s.mtx then Fault
      else if s.mtx[m].owner == None then Moved(SetPc(SetMtx(s, m, s.mtx[m].(owner := Some(t))), t, TryFree(m, true)))
      else Moved(SetPc(s, t, TryFree(m, false)))
    case TryFree(m, ok) =>
      if MtxPm(m) !in s.held || s.held[MtxPm(m)] != l then Fault
      else Moved(s.(held := s.held - {MtxPm(m)},
        uth := s.uth[t := u.(pc := User, has := if ok then u.has + {m} else u.has)]))
    // uthread_mtx_unlock
    case UnlTake(m, k) => Take(s, l, t, MtxPm(m), UnlTest(m, k))
    case UnlTest(m, k) =>
      if m !in s.mtx then Fault
      else if s.mtx[m].waiters == [] then Moved(SetPc(SetMtx(s, m, s.mtx[m].(owner := None)), t, UnlFree(m, k)))
      else
        var w := s.mtx[m].waiters;
        Moved(SetPc(SetMtx(s, m, Mutex(Some(w[0]), w[1..])), t, UnlHand(m, k, w[0])))
    case UnlFree(m, k) => Free(s, l, t, MtxPm(m), Then(k))
    case UnlHand(m, k, x) => Free(s, l, t, MtxPm(m), WakeTake(x, k))
    // uthread_wake: its inner yield never happens, because preemption is masked here
    case WakeTake(x, k) => Take(s, l, t, RunqMtx, WakeTest(x, k))
    case WakeTest(x, k) =>
      if x !in s.uth then Fault
      else if s.uth[x].state == Wait then
        var o := RunqEnqueue(s.(uth := s.uth[x := s.uth[x].(state := Runnable)]), x);
        if o.Moved? && t in o.s.uth then Moved(SetPc(o.s, t, WakeFree(k))) else Fault
      else Moved(SetPc(s, t, WakeFree(k)))
    case WakeFree(k) => Free(s, l, t, RunqMtx, Then(k))
    // uthread_cond_wait
    case WaitTake(c, m) =>
      if CondPm(c) in s.held then Blocked
      else Moved(s.(held := s.held[CondPm(c) := l],
        uth := s.uth[t := u.(pc := UnlTake(m, Sleep(c, m)), has := u.has - {m})]))
    case WaitSet(c, m) => Moved(s.(uth :=
      s.uth[t := u.(state := Wait, pc := Switch(Some(CondQ(c)), CondPm(c), Relock(m)))]))
    // uthread_cond_signal
    case SigTake(c) => Take(s, l, t, CondPm(c), SigTest(c))
    case SigTest(c) =>
      if c !in s.cond then Fault
      else if s.cond[c] == [] then Moved(SetPc(s, t, SigFree(c)))
      else Moved(SetPc(s.(cond := s.cond[c := s.cond[c][1..]]), t, SigHand(c, s.cond[c][0])))
    case SigFree(c) => Free(s, l, t, CondPm(c), User)
    case SigHand(c, x) => Free(s, l, t, CondPm(c), WakeTake(x, Ret))
    // uthread_cond_broadcast
    case BcTake(c) => Take(s, l, t, CondPm(c), BcTest(c))
    case BcTest(c) =>
      if c !in s.cond then Fault
      else if s.cond[c] == [] then Moved(SetPc(s, t, BcFree(c)))
      else Moved(SetPc(s.(cond := s.cond[c := s.cond[c][1..]]), t, BcHand(c, s.cond[c][0])))
    case BcFree(c) => Free(s, l, t, CondPm(c), User)
    case BcHand(c, x) => Free(s, l, t, CondPm(c), WakeTake(x, Again(c)))
    // uthread_switch: the thread leaves its stack, its LWP acts on the arguments
    case Switch(q, pm, after) =>
      if RunqMtx in s.held then Blocked
      else Moved(SetPc(s.(held := s.held[RunqMtx := l], lwp := s.lwp[l := Enqueue(t, q, pm)]), t, Out(after)))
    case Out(_) => Fault
  }

  // ---------------------------------------------------------------- steps of an LWP in lwp_switch

  ghost function Next(s: State, l: Lid, call: Call, mu: map<Cid, Mid>): Outcome
    requires l in s.lwp
  {
    match s.lwp[l]
    case Start =>
      if RunqMtx in s.held then Blocked
      else Moved(s.(held := s.held[RunqMtx := l], lwp := s.lwp[l := Find], lwpCnt := s.lwpCnt + 1))
    case Runs(t) => if t in s.uth then ThreadStep(s, l, t, call, mu) else Fault
    case Enqueue(t, q, pm) =>
      if t !in s.uth then Fault else
      if q.Some? then
        if Queued(s, t) then Fault
        else Moved(Append(s.(lwp := s.lwp[l := Drop(pm)]), q.value, t))
      else
        RunqEnqueue(s.(uth := s.uth[t := s.uth[t].(state := Runnable)], lwp := s.lwp[l := Drop(pm)]), t)
    case Drop(pm) =>
      if pm !in s.held || s.held[pm] != l then Fault
      else Moved(s.(held := s.held - {pm}, lwp := s.lwp[l := Find]))
    case Find =>
      var p := Highest(s.runq, |s.runq|);
      if RunqMtx !in s.held || s.held[RunqMtx] != l then Fault
      else if p < 0 then
        if s.parkedCnt + 1 == s.lwpCnt then AllParked
        else Moved(s.(held := s.held - {RunqMtx}, lwp := s.lwp[l := Parked], parkedCnt := s.parkedCnt + 1))
      else
        var t := s.runq[p][0];
        if t !in s.uth || s.runqSize == 0 then Fault
        else Moved(s.(held := s.held - {RunqMtx}, lwp := s.lwp[l := Runs(t)],
                      runq := s.runq[p := s.runq[p][1..]], runqSize := s.runqSize - 1,
                      uth := s.uth[t := Resume(s.uth[t])]))
    case Parked =>
      if RunqMtx in s.held || s.runqSize == 0 then Blocked
      else Moved(s.(held := s.held[RunqMtx := l], lwp := s.lwp[l := Find], parkedCnt := s.parkedCnt - 1))
  }

  /** Threads on the run queue, LWPs about to enter lwp_switch, everything free. */
  ghost predicate Init(s: State) {
    && |s.runq| == UTH_MAXPRIO + 1 && s.held == map[] && s.lwpCnt == 0 && s.parkedCnt == 0
    && (forall l :: l in s.lwp ==> s.lwp[l] == Start)
    && (forall m :: m in s.mtx ==> s.mtx[m] == Mutex(None, []))
    && (forall c :: c in s.cond ==> s.cond[c] == [])
    && (forall t :: t in s.uth ==> s.uth[t].state == Runnable && s.uth[t].pc == Out(Back) && s.uth[t].has == {}
                                   && s.uth[t].prio <= UTH_MAXPRIO && t in s.runq[s.uth[t].prio])
    && (forall p :: 0 <= p < |s.runq| ==> (forall i, j :: 0 <= i < j < |s.runq[p]| ==> s.runq[p][i] != s.runq[p][j])
                                          && forall t :: t in s.runq[p] ==> t in s.uth && s.uth[t].prio == p)
    && s.runqSize == Total(s.runq)
  }
}
