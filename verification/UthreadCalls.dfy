/** What a client's call has done when it returns: which deeds, in which order,
    in how many steps of its own, and which mutexes the caller then has. */
module UthreadCalls {
  import opened Uthreads
  import opened UthreadSafety
  import opened UthreadSteps
  import opened UthreadMoves
  import opened UthreadRuns
  import opened UthreadConds
  import opened UthreadDeeds

  // ---------------------------------------------------------------- the deeds of each call

  /** A mutex is taken when it is free, or waited for in its queue. */
  ghost predicate GetsMutex(m: Mid, log: seq<Event>) {
    log == [Acquired(m)] || log == [Joined(MtxQ(m)), Dispatched]
  }

  /** A mutex is given to nobody, or to its first waiter, who is made runnable. */
  ghost predicate GivesMutex(m: Mid, log: seq<Event>) {
    log == [Released(m, None)] || exists u :: log == [Released(m, Some(u)), Readied(u)]
  }

  /** The rounds of a broadcast that takes the threads us off the condition. */
  function Rounded(c: Cid, us: seq<Tid>): seq<Event> {
    if us == [] then [] else
      Rounded(c, us[..|us| - 1]) + [Roused(c, Some(us[|us| - 1])), Readied(us[|us| - 1])]
  }

  /** What a call of thread t does from its beginning to its return. */
  ghost predicate Does(call: Call, t: Tid, log: seq<Event>) {
    match call
    case Yield => log == [Readied(t), Dispatched]
    case LockCall(m) => GetsMutex(m, log)
    case TryLock(m) => log == [Acquired(m)] || log == [Refused(m)]
    case Unlock(m) => GivesMutex(m, log)
    case CondWait(c, m) =>
      exists a, b :: GivesMutex(m, a) && GetsMutex(m, b) && log == a + [Joined(CondQ(c)), Dispatched] + b
    case Signal(c) => log == [Roused(c, None)] || exists u :: log == [Roused(c, Some(u)), Readied(u)]
    case Broadcast(c) => exists us :: log == Rounded(c, us) + [Roused(c, None)]
  }

  /** The mutexes that the caller has when the call returns. */
  function HasAfter(call: Call, log: seq<Event>, has: set<Mid>): set<Mid> {
    match call
    case LockCall(m) => has + {m}
    case TryLock(m) => if log == [Acquired(m)] then has + {m} else has
    case Unlock(m) => has - {m}
    case _ => has
  }

  /** How many steps of its own a call may take: 13, and 6 for each deed of a broadcast. */
  function Allowance(call: Call, log: seq<Event>): nat {
    13 + if call.Broadcast? then 6 * |log| else 0
  }

  // ---------------------------------------------------------------- runs

  /** With action i thread t makes the call. */
  ghost predicate Starts(states: seq<State>, acts: seq<Action>, i: nat, t: Tid, call: Call) {
    && i < |acts| < |states| && acts[i].l in states[i].lwp && states[i].lwp[acts[i].l] == Runs(t)
    && t in states[i].uth && states[i].uth[t].pc == User && acts[i].call == call
  }

  /** After the call that began with action i, t is in its own code again first at j. */
  ghost predicate Returns(states: seq<State>, t: Tid, i: nat, j: nat) {
    && i < j < |states| && t in states[j].uth && states[j].uth[t].pc == User
    && forall k :: i < k < j ==> t in states[k].uth && states[k].uth[t].pc != User
  }

  function EventOf(d: Option<Deed>, t: Tid): seq<Event> {
    if d.Some? && d.value.t == t then [d.value.e] else []
  }

  /** The deeds of t among the actions from i to j. */
  ghost function Log(states: seq<State>, acts: seq<Action>, t: Tid, i: nat, j: nat): seq<Event>
    requires i <= j <= |acts| <= |states|
    decreases j - i
  {
    if i == j then [] else
      Log(states, acts, t, i, j - 1) +
      if acts[j - 1].l in states[j - 1].lwp then EventOf(DeedOf(states[j - 1], acts[j - 1].l), t) else []
  }

  // ---------------------------------------------------------------- where a thread stands

  /** In the code at a point, being put away by its LWP, or away until it is taken up. */
  datatype Stage = In(pc: Pc) | Leaving(q: Option<Queue>, after: After) | Away(after: After)

  function StageOf(s: State, at: Places, t: Tid): Stage
    requires t in s.uth && t in at
  {
    if !s.uth[t].pc.Out? then In(s.uth[t].pc)
    else if at[t].OnLwp? && at[t].l in s.lwp && s.lwp[at[t].l].Enqueue?
    then Leaving(s.lwp[at[t].l].q, s.uth[t].pc.after)
    else Away(s.uth[t].pc.after)
  }

  /** The events that a step at pc can have. */
  predicate Fits(pc: Pc, e: Option<Event>) {
    match pc
    case LockTest(m) => e == None || e == Some(Acquired(m))
    case TryTest(m) => e == Some(Acquired(m)) || e == Some(Refused(m))
    case UnlTest(m, _) => e.Some? && e.value.Released? && e.value.m == m
    case SigTest(c) => e.Some? && e.value.Roused? && e.value.c == c
    case BcTest(c) => e.Some? && e.value.Roused? && e.value.c == c
    case WakeTest(u, _) => e == Some(Readied(u))
    case _ => e == None
  }

  /** Where a step from pc with event e leads. */
  function Goes(pc: Pc, t: Tid, e: Option<Event>, call: Call): Stage {
    match pc
    case User => In(Begun(call))
    case YieldTake => In(Switch(None, OwnPm(t), Back))
    case LockTake(m) => In(LockTest(m))
    case LockTest(m) => In(if e == None then Switch(Some(MtxQ(m)), MtxPm(m), Got(m)) else LockFree(m))
    case TryTake(m) => In(TryTest(m))
    case TryTest(m) => In(TryFree(m, e == Some(Acquired(m))))
    case UnlTake(m, k) => In(UnlTest(m, k))
    case UnlTest(m, k) =>
      In(if e.Some? && e.value.Released? && e.value.to.Some? then UnlHand(m, k, e.value.to.value) else UnlFree(m, k))
    case UnlFree(_, k) => In(Then(k))
    case UnlHand(_, k, u) => In(WakeTake(u, k))
    case WakeTake(u, k) => In(WakeTest(u, k))
    case WakeTest(_, k) => In(WakeFree(k))
    case WakeFree(k) => In(Then(k))
    case WaitTake(c, m) => In(UnlTake(m, Sleep(c, m)))
    case WaitSet(c, m) => In(Switch(Some(CondQ(c)), CondPm(c), Relock(m)))
    case SigTake(c) => In(SigTest(c))
    case SigTest(c) => In(if e.Some? && e.value.Roused? && e.value.who.Some? then SigHand(c, e.value.who.value)
      else SigFree(c))
    case SigHand(_, u) => In(WakeTake(u, Ret))
    case BcTake(c) => In(BcTest(c))
    case BcTest(c) => In(if e.Some? && e.value.Roused? && e.value.who.Some? then BcHand(c, e.value.who.value)
      else BcFree(c))
    case BcHand(c, u) => In(WakeTake(u, Again(c)))
    case Switch(q, _, after) => Leaving(q, after)
    case _ => In(User)
  }

  function Begun(call: Call): Pc {
    match call
    case Yield => YieldTake
    case LockCall(m) => LockTake(m)
    case TryLock(m) => TryTake(m)
    case Unlock(m) => UnlTake(m, Ret)
    case CondWait(c, m) => WaitTake(c, m)
    case Signal(c) => SigTake(c)
    case Broadcast(c) => BcTake(c)
  }

  function Resumed(after: After): Pc {
    match after case Relock(m) => LockTake(m) case _ => User
  }

  /** What t has after a step of its own at pc. */
  function HasNext(pc: Pc, has: set<Mid>, call: Call): set<Mid> {
    match pc
    case User => if call.Unlock? then has - {call.m} else has
    case WaitTake(_, m) => has - {m}
    case LockFree(m) => has + {m}
    case TryFree(m, ok) => if ok then has + {m} else has
    case _ => has
  }

  /** How t's stage and the mutexes it has change with an event of t. */
  ghost predicate Moves(t: Tid, st: Stage, has: set<Mid>, e: Option<Event>, st': Stage, has': set<Mid>, call: Call,
      own: bool) {
    if own then st.In? && Fits(st.pc, e) && st' == Goes(st.pc, t, e, call) && has' == HasNext(st.pc, has, call)
    else match st
      case In(_) => st' == st && has' == has && e == None
      case Leaving(q, after) =>
        has' == has && ((st' == st && e == None) || (st' == Away(after) && e == Some(LeaveEvent(t, q))))
      case Away(after) =>
        || (st' == st && has' == has && e == None)
        || (st' == In(Resumed(after)) && e == Some(Dispatched) && has' == if after.Got? then has + {after.m} else has)
  }

  // ---------------------------------------------------------------- a step of the thread's own

  /** What a step of t at pc makes of t's record. */
  ghost predicate GoesOn(s: State, s': State, l: Lid, t: Tid, call: Call)
    requires t in s.uth && l in s.lwp
  {
    var pc, e := s.uth[t].pc, PcEvent(s, s.uth[t].pc);
    && t in s'.uth && l in s'.lwp && Fits(pc, e) && s'.uth[t].has == HasNext(pc, s.uth[t].has, call)
    && (if pc.Switch? then s'.uth[t].pc == Out(pc.after) && s'.lwp[l] == Enqueue(t, pc.q, pc.pm)
        else !s'.uth[t].pc.Out? && Goes(pc, t, e, call) == In(s'.uth[t].pc) && s'.lwp[l] == s.lwp[l])
  }

  lemma LockingGoes(s: State, l: Lid, t: Tid, call: Call, mu: map<Cid, Mid>)
    requires l in s.lwp && t in s.uth && Locking(s.uth[t].pc) && ThreadStep(s, l, t, call, mu).Moved?
    ensures GoesOn(s, ThreadStep(s, l, t, call, mu).s, l, t, call)
  {
    LockingIs(s, l, t, call, mu);
    hide ThreadStep;
  }

  lemma UnlockingGoes(s: State, l: Lid, t: Tid, call: Call, mu: map<Cid, Mid>)
    requires l in s.lwp && t in s.uth && Unlocking(s.uth[t].pc) && ThreadStep(s, l, t, call, mu).Moved?
    ensures GoesOn(s, ThreadStep(s, l, t, call, mu).s, l, t, call)
  {
    UnlockingIs(s, l, t, call, mu);
    hide ThreadStep;
  }

  lemma PlainGoes(s: State, l: Lid, t: Tid, call: Call, mu: map<Cid, Mid>)
    requires l in s.lwp && t in s.uth && ThreadStep(s, l, t, call, mu).Moved?
    requires var pc := s.uth[t].pc; pc.WaitTake? || pc.WaitSet? || pc.Switch? || pc.WakeTest?
    ensures GoesOn(s, ThreadStep(s, l, t, call, mu).s, l, t, call)
  {
    hide Queued;
  }

  lemma BeginGoes(s: State, l: Lid, t: Tid, call: Call, mu: map<Cid, Mid>)
    requires l in s.lwp && t in s.uth && s.uth[t].pc.User? && ThreadStep(s, l, t, call, mu).Moved?
    ensures GoesOn(s, ThreadStep(s, l, t, call, mu).s, l, t, call)
    ensures call.CondWait? ==> call.m in s.uth[t].has
  {
    hide RunqEnqueue, Queued;
  }

  lemma TestGoes(s: State, l: Lid, t: Tid, call: Call, mu: map<Cid, Mid>)
    requires l in s.lwp && t in s.uth && Testing(s, t) && s.uth[t].pc.m in s.mtx
    ensures GoesOn(s, ThreadStep(s, l, t, call, mu).s, l, t, call)
  {
    TestIs(s, l, t, call, mu);
    if s.uth[t].pc.LockTest? { LockTestGoes(s, l, t, call); }
    else if s.uth[t].pc.TryTest? { TryTestGoes(s, l, t, call); }
    else { UnlTestGoes(s, l, t, call); }
    hide ThreadStep, GoesOn, Tested;
  }

  lemma LockTestGoes(s: State, l: Lid, t: Tid, call: Call)
    requires l in s.lwp && t in s.uth && s.uth[t].pc.LockTest? && s.uth[t].pc.m in s.mtx
    ensures GoesOn(s, Tested(s, t), l, t, call)
  {
  }

  lemma TryTestGoes(s: State, l: Lid, t: Tid, call: Call)
    requires l in s.lwp && t in s.uth && s.uth[t].pc.TryTest? && s.uth[t].pc.m in s.mtx
    ensures GoesOn(s, Tested(s, t), l, t, call)
  {
  }

  lemma UnlTestGoes(s: State, l: Lid, t: Tid, call: Call)
    requires l in s.lwp && t in s.uth && Testing(s, t) && s.uth[t].pc.UnlTest? && s.uth[t].pc.m in s.mtx
    ensures GoesOn(s, Tested(s, t), l, t, call)
  {
  }

  lemma TakeGoes(s: State, l: Lid, t: Tid, call: Call, mu: map<Cid, Mid>)
    requires l in s.lwp && t in s.uth && Taking(s, t)
    ensures GoesOn(s, ThreadStep(s, l, t, call, mu).s, l, t, call)
  {
    TakingIs(s, l, t, call, mu);
    if s.uth[t].pc.UnlTest? { HandingGoes(s, l, t, call); } else { RousingGoes(s, l, t, call); }
    hide ThreadStep, GoesOn;
  }

  lemma HandingGoes(s: State, l: Lid, t: Tid, call: Call)
    requires l in s.lwp && t in s.uth && Taking(s, t) && s.uth[t].pc.UnlTest?
    ensures GoesOn(s, Taken(s, t), l, t, call)
  {
  }

  lemma RousingGoes(s: State, l: Lid, t: Tid, call: Call)
    requires l in s.lwp && t in s.uth && Taking(s, t) && !s.uth[t].pc.UnlTest?
    ensures GoesOn(s, Taken(s, t), l, t, call)
  {
  }

  lemma NobodyGoes(s: State, l: Lid, t: Tid, call: Call, mu: map<Cid, Mid>)
    requires l in s.lwp && t in s.uth && FindsNobody(s, t) && !s.uth[t].pc.WaitSet?
    ensures GoesOn(s, ThreadStep(s, l, t, call, mu).s, l, t, call)
  {
    NobodyIs(s, l, t, call, mu);
    hide ThreadStep;
  }

  lemma OwnStepGoes(s: State, at: Places, mu: map<Cid, Mid>, l: Lid, call: Call, t: Tid)
    requires Inv(s, at, mu) && l in s.lwp && s.lwp[l] == Runs(t) && Next(s, l, call, mu).Moved? && t in s.uth
    ensures GoesOn(s, Next(s, l, call, mu).s, l, t, call)
  {
    RunningIs(s, at, mu, l);
    RunsIs(s, l, t, call, mu);
    OutIsStuck(s, l, t, call, mu);
    PcAllows(s, mu, t);
    hide Next, ThreadStep, GoesOn, Inv;
    var pc := s.uth[t].pc;
    if Locking(pc) { LockingGoes(s, l, t, call, mu); }
    else if Unlocking(pc) { UnlockingGoes(s, l, t, call, mu); }
    else if pc.User? { BeginGoes(s, l, t, call, mu); }
    else if pc.WaitTake? || pc.WaitSet? || pc.Switch? || pc.WakeTest? { PlainGoes(s, l, t, call, mu); }
    else if Taking(s, t) { TakeGoes(s, l, t, call, mu); }
    else if Testing(s, t) { TestGoes(s, l, t, call, mu); }
    else { NobodyGoes(s, l, t, call, mu); }
  }

  // ---------------------------------------------------------------- any step

  /** How a step of LWP l changes the stage of t. */
  ghost predicate MovesThread(s: State, at: Places, s': State, at': Places, l: Lid, call: Call, t: Tid)
    requires l in s.lwp && t in s.uth && t in at
  {
    && t in s'.uth && t in at'
    && var e := EventOf(DeedOf(s, l), t);
       Moves(t, StageOf(s, at, t), s.uth[t].has, if e == [] then None else Some(e[0]),
         StageOf(s', at', t), s'.uth[t].has, call, s.lwp[l] == Runs(t))
  }

  lemma OwnMoves(s: State, at: Places, mu: map<Cid, Mid>, l: Lid, call: Call, t: Tid)
    requires Inv(s, at, mu) && l in s.lwp && s.lwp[l] == Runs(t) && Next(s, l, call, mu).Moved? && t in s.uth
    ensures t in at && MovesThread(s, at, Next(s, l, call, mu).s, NextPlaces(s, at, l), l, call, t)
  {
    OwnStepGoes(s, at, mu, l, call, t);
    RunningIs(s, at, mu, l);
    assert LwpOk(s, at, l) && at[t] == OnLwp(l);
    assert ThreadOk(s, at, mu, t);
    OwnPlace(s, at, mu, l, t);
    hide Inv, Next, NextPlaces, GoesOn;
    GoingMoves(s, at, Next(s, l, call, mu).s, NextPlaces(s, at, l), l, call, t);
  }

  lemma GoingMoves(s: State, at: Places, s': State, at': Places, l: Lid, call: Call, t: Tid)
    requires l in s.lwp && s.lwp[l] == Runs(t) && t in s.uth && t in at && t in at' && at'[t] == at[t] == OnLwp(l)
    requires GoesOn(s, s', l, t, call) && !s.uth[t].pc.Out?
    ensures MovesThread(s, at, s', at', l, call, t)
  {
    hide PcEvent, Fits, HasNext;
    if s.uth[t].pc.Switch? {
      assert Goes(s.uth[t].pc, t, PcEvent(s, s.uth[t].pc), call) == Leaving(s.uth[t].pc.q, s.uth[t].pc.after);
    }
    hide Goes;
  }

  lemma OwnPlace(s: State, at: Places, mu: map<Cid, Mid>, l: Lid, t: Tid)
    requires Inv(s, at, mu) && l in s.lwp && s.lwp[l] == Runs(t) && t in s.uth && t in at && at[t] == OnLwp(l)
    ensures t in NextPlaces(s, at, l) && NextPlaces(s, at, l)[t] == OnLwp(l)
  {
    var pc := s.uth[t].pc;
    if pc.UnlTest? { assert WaitOk(s, at, MtxQ(pc.m)); }
    if pc.SigTest? || pc.BcTest? { assert WaitOk(s, at, CondQ(pc.c)); }
    if pc.WakeTest? { assert HandOk(s, at, t); }
  }

  lemma OtherPlace(s: State, at: Places, mu: map<Cid, Mid>, l: Lid, t: Tid)
    requires Inv(s, at, mu) && l in s.lwp && t in s.uth && t in at && Carries(s.lwp[l]) != Some(t)
    requires EventOf(DeedOf(s, l), t) == []
    ensures var at' := NextPlaces(s, at, l);
      t in at' && (at'[t] == at[t] || (!at[t].OnLwp? && !at'[t].OnLwp?))
  {
    assert LwpOk(s, at, l);
    if s.lwp[l].Runs? && s.lwp[l].t in s.uth {
      var u := s.lwp[l].t;
      var pc := s.uth[u].pc;
      if pc.UnlTest? { assert WaitOk(s, at, MtxQ(pc.m)); }
      if pc.SigTest? || pc.BcTest? { assert WaitOk(s, at, CondQ(pc.c)); }
      if pc.WakeTest? { assert HandOk(s, at, u); }
    }
  }

  /** A step that neither runs nor carries nor takes up t. */
  lemma OthersMove(s: State, at: Places, mu: map<Cid, Mid>, l: Lid, call: Call, t: Tid)
    requires Inv(s, at, mu) && l in s.lwp && t in s.uth && Carries(s.lwp[l]) != Some(t)
    requires Next(s, l, call, mu).Moved? && EventOf(DeedOf(s, l), t) == []
    ensures t in at && MovesThread(s, at, Next(s, l, call, mu).s, NextPlaces(s, at, l), l, call, t)
  {
    OtherPlace(s, at, mu, l, t);
    StrangersRecord(s, at, mu, l, call, t);
    assert at[t].OnLwp? ==> at[t].l != l by { assert LwpOk(s, at, l); }
    assert ThreadOk(s, at, mu, t);
    hide Inv, Next, NextPlaces, DeedOf;
  }

  lemma StrangersRecord(s: State, at: Places, mu: map<Cid, Mid>, l: Lid, call: Call, t: Tid)
    requires Inv(s, at, mu) && l in s.lwp && t in s.uth && Carries(s.lwp[l]) != Some(t)
    requires Next(s, l, call, mu).Moved? && EventOf(DeedOf(s, l), t) == []
    ensures var s' := Next(s, l, call, mu).s;
      && t in s'.uth && s'.uth[t].pc == s.uth[t].pc && s'.uth[t].has == s.uth[t].has
      && forall k :: k in s.lwp && k != l ==> k in s'.lwp && s'.lwp[k] == s.lwp[k]
  {
    if s.lwp[l].Runs? {
      RunningIs(s, at, mu, l);
      RunsIs(s, l, s.lwp[l].t, call, mu);
      StepEffects(s, l, s.lwp[l].t, call, mu);
      hide Inv, Next, ThreadStep;
    } else {
      FirstIsOther(s, l, t);
      LwpOwnStep(s, l, call, mu, t);
      hide Inv, Next, ThreadStep;
    }
  }

  lemma FirstIsOther(s: State, l: Lid, t: Tid)
    requires l in s.lwp && EventOf(DeedOf(s, l), t) == [] && !s.lwp[l].Runs?
    ensures var p := Highest(s.runq, |s.runq|); s.lwp[l].Find? && p >= 0 ==> s.runq[p][0] != t
  {
  }

  lemma LeavesPlace(s: State, at: Places, mu: map<Cid, Mid>, l: Lid, call: Call, t: Tid)
    requires Inv(s, at, mu) && l in s.lwp && t in s.uth && s.lwp[l].Enqueue? && s.lwp[l].t == t
    requires Next(s, l, call, mu).Moved?
    ensures t in at && MovesThread(s, at, Next(s, l, call, mu).s, NextPlaces(s, at, l), l, call, t)
  {
    assert LwpOk(s, at, l) && at[t] == OnLwp(l) && ThreadOk(s, at, mu, t);
    hide Inv, Queued, ThreadStep;
  }

  lemma IsTakenUp(s: State, at: Places, mu: map<Cid, Mid>, l: Lid, call: Call, t: Tid)
    requires Inv(s, at, mu) && l in s.lwp && t in s.uth && s.lwp[l].Find? && Next(s, l, call, mu).Moved?
    requires DeedOf(s, l) == Some(Deed(t, Dispatched))
    ensures t in at && MovesThread(s, at, Next(s, l, call, mu).s, NextPlaces(s, at, l), l, call, t)
  {
    var p := Highest(s.runq, |s.runq|);
    assert RunqOk(s, at, p) && s.runq[p][0] in s.runq[p];
    assert ThreadOk(s, at, mu, t);
    hide Inv, Queued, ThreadStep, Highest;
  }

  /** Every step moves every thread in one of these ways. */
  lemma StepMoves(s: State, at: Places, mu: map<Cid, Mid>, l: Lid, call: Call, t: Tid)
    requires Inv(s, at, mu) && l in s.lwp && t in s.uth && Next(s, l, call, mu).Moved?
    ensures t in at && MovesThread(s, at, Next(s, l, call, mu).s, NextPlaces(s, at, l), l, call, t)
  {
    if s.lwp[l] == Runs(t) { OwnMoves(s, at, mu, l, call, t); }
    else if Carries(s.lwp[l]) == Some(t) { LeavesPlace(s, at, mu, l, call, t); }
    else if s.lwp[l].Find? && EventOf(DeedOf(s, l), t) != [] { IsTakenUp(s, at, mu, l, call, t); }
    else { OthersMove(s, at, mu, l, call, t); }
  }

  // ---------------------------------------------------------------- what a call has done so far

  /** Inside uthread_mtx_lock(m), as a call or at the end of a wait. */
  ghost predicate Getting(m: Mid, st: Stage, log: seq<Event>) {
    match st
    case In(LockTake(n)) => n == m && log == []
    case In(LockTest(n)) => n == m && log == []
    case In(LockFree(n)) => n == m && log == [Acquired(m)]
    case In(Switch(q, _, after)) => q == Some(MtxQ(m)) && after == Got(m) && log == []
    case Leaving(q, after) => q == Some(MtxQ(m)) && after == Got(m) && log == []
    case Away(after) => after == Got(m) && log == [Joined(MtxQ(m))]
    case In(User) => GetsMutex(m, log)
    case _ => false
  }

  /** Inside uthread_mtx_unlock(m), which goes on with k. */
  ghost predicate Giving(m: Mid, k: Cont, st: Stage, log: seq<Event>) {
    match st
    case In(UnlTake(n, j)) => n == m && j == k && log == []
    case In(UnlTest(n, j)) => n == m && j == k && log == []
    case In(UnlFree(n, j)) => n == m && j == k && log == [Released(m, None)]
    case In(UnlHand(n, j, u)) => n == m && j == k && log == [Released(m, Some(u))]
    case In(WakeTake(u, j)) => j == k && log == [Released(m, Some(u))]
    case In(WakeTest(u, j)) => j == k && log == [Released(m, Some(u))]
    case In(WakeFree(j)) => j == k && GivesMutex(m, log)
    case In(pc) => pc == Then(k) && GivesMutex(m, log)
    case _ => false
  }

  ghost predicate Waited(c: Cid, m: Mid, log: seq<Event>) {
    exists a :: GivesMutex(m, a) && log == a + [Joined(CondQ(c))]
  }

  ghost predicate Returning(c: Cid, m: Mid, st: Stage, log: seq<Event>) {
    exists a, b :: GivesMutex(m, a) && Getting(m, st, b) && log == a + [Joined(CondQ(c)), Dispatched] + b
  }

  /** Inside uthread_cond_wait(c, m). */
  ghost predicate WaitingOn(c: Cid, m: Mid, st: Stage, log: seq<Event>) {
    || (st == In(WaitTake(c, m)) && log == [])
    || (Giving(m, Sleep(c, m), st, log) && st.In?)
    || (st.In? && st.pc.Switch? && st.pc.q == Some(CondQ(c)) && st.pc.after == Relock(m) && GivesMutex(m, log))
    || (st == Leaving(Some(CondQ(c)), Relock(m)) && GivesMutex(m, log))
    || (st == Away(Relock(m)) && Waited(c, m, log))
    || Returning(c, m, st, log)
  }

  ghost predicate Signalling(c: Cid, st: Stage, log: seq<Event>) {
    match st
    case In(SigTake(d)) => d == c && log == []
    case In(SigTest(d)) => d == c && log == []
    case In(SigFree(d)) => d == c && log == [Roused(c, None)]
    case In(SigHand(d, u)) => d == c && log == [Roused(c, Some(u))]
    case In(WakeTake(u, k)) => k == Ret && log == [Roused(c, Some(u))]
    case In(WakeTest(u, k)) => k == Ret && log == [Roused(c, Some(u))]
    case In(WakeFree(k)) => k == Ret && exists u :: log == [Roused(c, Some(u)), Readied(u)]
    case In(User) => Does(Signal(c), 0, log)
    case _ => false
  }

  ghost predicate RoundsOf(c: Cid, log: seq<Event>, last: seq<Event>) {
    exists us :: log == Rounded(c, us) + last
  }

  ghost predicate InBroadcast(c: Cid, st: Stage, log: seq<Event>) {
    match st
    case In(BcTake(d)) => d == c && RoundsOf(c, log, [])
    case In(BcTest(d)) => d == c && RoundsOf(c, log, [])
    case In(BcFree(d)) => d == c && RoundsOf(c, log, [Roused(c, None)])
    case In(BcHand(d, u)) => d == c && RoundsOf(c, log, [Roused(c, Some(u))])
    case In(WakeTake(u, k)) => k == Again(c) && RoundsOf(c, log, [Roused(c, Some(u))])
    case In(WakeTest(u, k)) => k == Again(c) && RoundsOf(c, log, [Roused(c, Some(u))])
    case In(WakeFree(k)) => k == Again(c) && RoundsOf(c, log, [])
    case In(User) => RoundsOf(c, log, [Roused(c, None)])
    case _ => false
  }

  ghost predicate Yielding(t: Tid, st: Stage, log: seq<Event>) {
    match st
    case In(YieldTake) => log == []
    case In(Switch(q, _, after)) => q == None && after == Back && log == []
    case Leaving(q, after) => q == None && after == Back && log == []
    case Away(after) => after == Back && log == [Readied(t)]
    case In(User) => log == [Readied(t), Dispatched]
    case _ => false
  }

  ghost predicate Trying(m: Mid, st: Stage, log: seq<Event>) {
    match st
    case In(TryTake(n)) => n == m && log == []
    case In(TryTest(n)) => n == m && log == []
    case In(TryFree(n, ok)) => n == m && log == [if ok then Acquired(m) else Refused(m)]
    case In(User) => log == [Acquired(m)] || log == [Refused(m)]
    case _ => false
  }

  ghost predicate Sofar(call: Call, t: Tid, st: Stage, log: seq<Event>, has0: set<Mid>, has: set<Mid>) {
    match call
    case Yield => Yielding(t, st, log) && has == has0
    case LockCall(m) => Getting(m, st, log) && has == if st == In(User) then has0 + {m} else has0
    case TryLock(m) => Trying(m, st, log) && has == if st == In(User) then HasAfter(call, log, has0) else has0
    case Unlock(m) => Giving(m, Ret, st, log) && has == has0 - {m}
    case CondWait(c, m) =>
      && WaitingOn(c, m, st, log) && m in has0
      && has == if st == In(WaitTake(c, m)) || st == In(User) then has0 else has0 - {m}
    case Signal(c) => Signalling(c, st, log) && has == has0
    case Broadcast(c) => InBroadcast(c, st, log) && has == has0
  }

  /** How many steps of its own the thread has left, up to the next round of a broadcast. */
  function Rank(st: Stage): nat {
    match st
    case In(pc) => PcRank(pc)
    case Leaving(_, after) => AfterRank(after)
    case Away(after) => AfterRank(after)
  }

  function AfterRank(after: After): nat {
    match after case Relock(_) => 3 case _ => 0
  }

  function ContRank(k: Cont): nat {
    match k case Ret => 0 case Sleep(_, _) => 5 case Again(_) => 3
  }

  function PcRank(pc: Pc): nat {
    match pc
    case YieldTake => 2
    case LockTake(_) => 3
    case LockTest(_) => 2
    case LockFree(_) => 1
    case TryTake(_) => 3
    case TryTest(_) => 2
    case TryFree(_, _) => 1
    case UnlTake(_, k) => 6 + ContRank(k)
    case UnlTest(_, k) => 5 + ContRank(k)
    case UnlFree(_, k) => 1 + ContRank(k)
    case UnlHand(_, k, _) => 4 + ContRank(k)
    case WakeTake(_, k) => 3 + ContRank(k)
    case WakeTest(_, k) => 2 + ContRank(k)
    case WakeFree(k) => 1 + ContRank(k)
    case WaitTake(_, _) => 12
    case WaitSet(_, _) => 5
    case SigTake(_) => 6
    case SigTest(_) => 5
    case SigHand(_, _) => 4
    case SigFree(_) => 1
    case BcTake(_) => 3
    case BcTest(_) => 2
    case BcHand(_, _) => 7
    case BcFree(_) => 1
    case Switch(_, _, after) => 1 + AfterRank(after)
    case _ => 0
  }

  function ToLog(e: Option<Event>): (log: seq<Event>) {
    match e case Some(x) => [x] case None => []
  }

  lemma GettingGoesOn(m: Mid, t: Tid, st: Stage, has: set<Mid>, e: Option<Event>, st': Stage, has': set<Mid>,
      call: Call,
      own: bool, log: seq<Event>)
    requires Getting(m, st, log) && st != In(User) && Moves(t, st, has, e, st', has', call, own)
    ensures Getting(m, st', log + ToLog(e))
    ensures has' == if st' == In(User) then has + {m} else has
  {
    if log == [Joined(MtxQ(m))] { assert log + [Dispatched] == [Joined(MtxQ(m)), Dispatched]; }
  }

  lemma GivingGoesOn(m: Mid, k: Cont, t: Tid, st: Stage, has: set<Mid>, e: Option<Event>, st': Stage, has': set<Mid>,
      call: Call, own: bool, log: seq<Event>)
    requires Giving(m, k, st, log) && st != In(Then(k)) && Moves(t, st, has, e, st', has', call, own)
    ensures Giving(m, k, st', log + ToLog(e)) && has' == has && st'.In? && (st' == In(User) ==> k == Ret)
  {
    if st.pc.WakeTest? { assert log + [Readied(st.pc.u)] == [Released(m, Some(st.pc.u)), Readied(st.pc.u)]; }
  }

  lemma TryingGoesOn(m: Mid, t: Tid, st: Stage, has: set<Mid>, e: Option<Event>, st': Stage, has': set<Mid>, call: Call,
      own: bool, log: seq<Event>)
    requires Trying(m, st, log) && st != In(User) && Moves(t, st, has, e, st', has', call, own)
    ensures Trying(m, st', log + ToLog(e))
    ensures has' == if st' == In(User) then HasAfter(TryLock(m), log + ToLog(e), has) else has
  {
    assert log + [] == log;
  }

  lemma YieldingGoesOn(t: Tid, st: Stage, has: set<Mid>, e: Option<Event>, st': Stage, has': set<Mid>, call: Call,
      own: bool, log: seq<Event>)
    requires Yielding(t, st, log) && st != In(User) && Moves(t, st, has, e, st', has', call, own)
    ensures Yielding(t, st', log + ToLog(e)) && has' == has
  {
    if log == [Readied(t)] { assert log + [Dispatched] == [Readied(t), Dispatched]; }
  }

  lemma SignallingGoesOn(c: Cid, t: Tid, st: Stage, has: set<Mid>, e: Option<Event>, st': Stage, has': set<Mid>,
      call: Call, own: bool, log: seq<Event>)
    requires Signalling(c, st, log) && st != In(User) && Moves(t, st, has, e, st', has', call, own)
    ensures Signalling(c, st', log + ToLog(e)) && has' == has
  {
    if st.pc.WakeTest? { assert log + [Readied(st.pc.u)] == [Roused(c, Some(st.pc.u)), Readied(st.pc.u)]; }
  }

  lemma BroadcastingGoesOn(c: Cid, t: Tid, st: Stage, has: set<Mid>, e: Option<Event>, st': Stage, has': set<Mid>,
      call: Call, own: bool, log: seq<Event>)
    requires InBroadcast(c, st, log) && st != In(User) && Moves(t, st, has, e, st', has', call, own)
    ensures InBroadcast(c, st', log + ToLog(e)) && has' == has
  {
    assert log + [] == log;
    hide RoundsOf;
    if st.pc.BcTest? && own {
      MoreRounds(c, log, [], e.value);
    } else if st.pc.WakeTest? && own {
      RoundEnds(c, log, st.pc.u);
    }
  }

  lemma MoreRounds(c: Cid, log: seq<Event>, last: seq<Event>, e: Event)
    requires RoundsOf(c, log, last)
    ensures RoundsOf(c, log + [e], last + [e])
    ensures last == [] ==> last + [e] == [e]
  {
    var us :| log == Rounded(c, us) + last;
    assert log + [e] == Rounded(c, us) + (last + [e]);
  }

  lemma RoundEnds(c: Cid, log: seq<Event>, u: Tid)
    requires RoundsOf(c, log, [Roused(c, Some(u))])
    ensures RoundsOf(c, log + [Readied(u)], [])
  {
    var us :| log == Rounded(c, us) + [Roused(c, Some(u))];
    assert (us + [u])[..|us|] == us;
    assert log + [Readied(u)] == Rounded(c, us + [u]) + [];
  }

  lemma WaitingGoesOn(c: Cid, m: Mid, t: Tid, st: Stage, has: set<Mid>, e: Option<Event>, st': Stage, has': set<Mid>,
      call: Call, own: bool, log: seq<Event>)
    requires WaitingOn(c, m, st, log) && st != In(User) && Moves(t, st, has, e, st', has', call, own)
    ensures WaitingOn(c, m, st', log + ToLog(e))
    ensures has' == if st == In(WaitTake(c, m)) && own then has - {m} else if st' == In(User) then has + {m} else has
    ensures st' == In(WaitTake(c, m)) ==> st == st' && !own
    ensures st == In(WaitTake(c, m)) && !own ==> st' == st
  {
    hide Getting, GivesMutex;
    assert log + [] == log;
    if Returning(c, m, st, log) {
      var a, b :| GivesMutex(m, a) && Getting(m, st, b) && log == a + [Joined(CondQ(c)), Dispatched] + b;
      GettingGoesOn(m, t, st, has, e, st', has', call, own, b);
      assert log + ToLog(e) == a + [Joined(CondQ(c)), Dispatched] + (b + ToLog(e));
    } else if st == In(WaitTake(c, m)) {
      WaitBegins(c, m);
      assert log + ToLog(e) == [];
    } else if st.In? && Giving(m, Sleep(c, m), st, log) {
      if st == In(WaitSet(c, m)) {
        GivenUp(c, m, log);
      } else {
        GivingGoesOn(m, Sleep(c, m), t, st, has, e, st', has', call, own, log);
      }
    } else if st == Away(Relock(m)) && Waited(c, m, log) {
      var a :| GivesMutex(m, a) && log == a + [Joined(CondQ(c))];
      if e == Some(Dispatched) {
        RelockBegins(m);
        assert log + [Dispatched] == a + [Joined(CondQ(c)), Dispatched] + [];
      }
    } else if st == Leaving(Some(CondQ(c)), Relock(m)) && e != None {
      assert Waited(c, m, log + [Joined(CondQ(c))]);
    }
  }

  lemma WaitBegins(c: Cid, m: Mid)
    ensures Giving(m, Sleep(c, m), In(UnlTake(m, Sleep(c, m))), [])
  {
  }

  lemma GivenUp(c: Cid, m: Mid, log: seq<Event>)
    requires Giving(m, Sleep(c, m), In(WaitSet(c, m)), log)
    ensures GivesMutex(m, log)
  {
  }

  lemma RelockBegins(m: Mid)
    ensures Getting(m, In(LockTake(m)), [])
  {
  }

  /** A step of the thread's own brings it nearer to its return, but for the rounds of a broadcast. */
  lemma RankFalls(pc: Pc, t: Tid, e: Option<Event>, call: Call)
    requires pc != User && !pc.Out? && Fits(pc, e)
    ensures Rank(Goes(pc, t, e, call)) < PcRank(pc) + if pc.BcTest? then 6 * |ToLog(e)| else 0
  {
  }

  lemma RankStays(t: Tid, st: Stage, has: set<Mid>, e: Option<Event>, st': Stage, has': set<Mid>, call: Call)
    requires Moves(t, st, has, e, st', has', call, false)
    ensures Rank(st') <= Rank(st)
  {
  }

  /** Any step of the run, as the call sees it. */
  lemma SofarGoesOn(call: Call, t: Tid, st: Stage, has0: set<Mid>, has: set<Mid>, e: Option<Event>, st': Stage,
      has': set<Mid>, next: Call, own: bool, log: seq<Event>)
    requires Sofar(call, t, st, log, has0, has) && st != In(User) && Moves(t, st, has, e, st', has', next, own)
    ensures Sofar(call, t, st', log + ToLog(e), has0, has')
  {
    hide Moves, Getting, Giving, Trying, Yielding, WaitingOn, Signalling, InBroadcast;
    match call
    case Yield => YieldingGoesOn(t, st, has, e, st', has', next, own, log);
    case LockCall(m) => GettingGoesOn(m, t, st, has, e, st', has', next, own, log);
    case TryLock(m) => TryingGoesOn(m, t, st, has, e, st', has', next, own, log);
    case Unlock(m) => GivingGoesOn(m, Ret, t, st, has, e, st', has', next, own, log);
    case CondWait(c, m) =>
      WaitingGoesOn(c, m, t, st, has, e, st', has', next, own, log);
      assert has0 - {m} + {m} == has0;
      if own && st == In(WaitTake(c, m)) { TakesCond(c, m, t, st, has, e, st', has', next); }
    case Signal(c) => SignallingGoesOn(c, t, st, has, e, st', has', next, own, log);
    case Broadcast(c) => BroadcastingGoesOn(c, t, st, has, e, st', has', next, own, log);
  }

  lemma TakesCond(c: Cid, m: Mid, t: Tid, st: Stage, has: set<Mid>, e: Option<Event>, st': Stage, has': set<Mid>,
      call: Call)
    requires st == In(WaitTake(c, m)) && Moves(t, st, has, e, st', has', call, true)
    ensures st' == In(UnlTake(m, Sleep(c, m)))
  {
  }

  /** Only a broadcast has rounds. */
  lemma NoRounds(call: Call, t: Tid, st: Stage, log: seq<Event>, has0: set<Mid>, has: set<Mid>)
    requires Sofar(call, t, st, log, has0, has)
    ensures st.In? && st.pc.BcTest? ==> call.Broadcast?
  {
  }

  /** The first step of the call. */
  lemma SofarBegins(call: Call, t: Tid, has: set<Mid>, st': Stage, has': set<Mid>)
    requires Moves(t, In(User), has, None, st', has', call, true) && (call.CondWait? ==> call.m in has)
    ensures Sofar(call, t, st', [], has, has') && Rank(st') < 13 && st' != In(User)
  {
    if call.Broadcast? { assert [] == Rounded(call.c, []) + []; }
  }

  lemma SofarReturns(call: Call, t: Tid, log: seq<Event>, has0: set<Mid>, has: set<Mid>)
    requires Sofar(call, t, In(User), log, has0, has)
    ensures Does(call, t, log) && has == HasAfter(call, log, has0)
  {
    if call.CondWait? {
      var a, b :| GivesMutex(call.m, a) && Getting(call.m, In(User), b)
        && log == a + [Joined(CondQ(call.c)), Dispatched] + b;
    }
  }

  // ---------------------------------------------------------------- calls in runs

  lemma LogStep(states: seq<State>, acts: seq<Action>, t: Tid, i: nat, j: nat, e: Option<Event>)
    requires i < j <= |acts| <= |states| && acts[j - 1].l in states[j - 1].lwp
    requires var ev := EventOf(DeedOf(states[j - 1], acts[j - 1].l), t); e == if ev == [] then None else Some(ev[0])
    ensures Log(states, acts, t, i, j) == Log(states, acts, t, i, j - 1) + ToLog(e)
    ensures OwnSteps(states, acts, t, i, j) ==
      OwnSteps(states, acts, t, i, j - 1) + if states[j - 1].lwp[acts[j - 1].l] == Runs(t) then 1 else 0
  {
  }

  /** A call of t that began with action i, seen at a later moment j before or at its return. */
  lemma {:induction false} CallGoesOn(states: seq<State>, acts: seq<Action>, mu: map<Cid, Mid>, t: Tid, call: Call,
      i: nat, j: nat) returns (at: Places)
    requires IsRun(states, acts, mu) && Starts(states, acts, i, t, call) && i < j < |states|
    requires forall k :: i < k < j ==> t in states[k].uth && states[k].uth[t].pc != User
    ensures Inv(states[j], at, mu) && OnTheWay(states, acts, at, t, call, i, j)
    decreases j - i
  {
    hide Inv, OnTheWay, NextPlaces, Next, Init;
    assert Follows(states[j - 1], acts[j - 1], states[j], mu);
    hide Follows;
    if j == i + 1 {
      var before := RunsAreSafe(states, acts, mu, i);
      at := NextPlaces(states[i], before, acts[i].l);
      CallBegins(states, acts, mu, t, call, i, before);
    } else {
      var before := CallGoesOn(states, acts, mu, t, call, i, j - 1);
      at := NextPlaces(states[j - 1], before, acts[j - 1].l);
      CallStep(states, acts, mu, t, call, i, j, before);
    }
  }

  /** The call's work and steps so far, at j. */
  ghost predicate OnTheWay(states: seq<State>, acts: seq<Action>, at: Places, t: Tid, call: Call, i: nat, j: nat)
    requires i <= j <= |acts| < |states|
  {
    && t in states[i].uth && t in states[j].uth && t in at
    && Sofar(call, t, StageOf(states[j], at, t), Log(states, acts, t, i, j), states[i].uth[t].has,
      states[j].uth[t].has)
    && OwnSteps(states, acts, t, i, j) + Rank(StageOf(states[j], at, t))
      <= Allowance(call, Log(states, acts, t, i, j))
  }

  lemma CallBegins(states: seq<State>, acts: seq<Action>, mu: map<Cid, Mid>, t: Tid, call: Call, i: nat, before: Places)
    requires Starts(states, acts, i, t, call) && i + 1 < |states| && Inv(states[i], before, mu)
    requires Follows(states[i], acts[i], states[i + 1], mu)
    ensures var at := NextPlaces(states[i], before, acts[i].l);
      Inv(states[i + 1], at, mu) && OnTheWay(states, acts, at, t, call, i, i + 1)
  {
    var s, l := states[i], acts[i].l;
    StepKeepsInv(s, before, mu, l, call);
    StepMoves(s, before, mu, l, call, t);
    RunsIs(s, l, t, call, mu);
    BeginGoes(s, l, t, call, mu);
    hide Inv, Next, NextPlaces, Sofar, DeedOf, Log, OwnSteps, StageOf, Moves, ThreadStep, MovesThread, GoesOn, Rank;
    FirstStep(states, acts, before, NextPlaces(s, before, l), t, call, i);
  }

  lemma CallStep(states: seq<State>, acts: seq<Action>, mu: map<Cid, Mid>, t: Tid, call: Call, i: nat, j: nat,
      before: Places)
    requires Starts(states, acts, i, t, call) && i + 1 < j <= |acts| < |states| && Inv(states[j - 1], before, mu)
    requires Follows(states[j - 1], acts[j - 1], states[j], mu)
    requires OnTheWay(states, acts, before, t, call, i, j - 1)
    requires t in states[j - 1].uth && states[j - 1].uth[t].pc != User
    ensures var at := NextPlaces(states[j - 1], before, acts[j - 1].l);
      Inv(states[j], at, mu) && OnTheWay(states, acts, at, t, call, i, j)
  {
    var s, l, next := states[j - 1], acts[j - 1].l, acts[j - 1].call;
    StepKeepsInv(s, before, mu, l, next);
    StepMoves(s, before, mu, l, next, t);
    hide Inv, Next, NextPlaces, Sofar, DeedOf, Log, OwnSteps, StageOf, Moves, ThreadStep, MovesThread, Rank;
    NextStep(states, acts, before, NextPlaces(s, before, l), t, call, i, j);
  }

  lemma FirstStep(states: seq<State>, acts: seq<Action>, before: Places, at: Places, t: Tid, call: Call, i: nat)
    requires Starts(states, acts, i, t, call) && t in before && i + 1 < |states|
    requires MovesThread(states[i], before, states[i + 1], at, acts[i].l, call, t)
    requires call.CondWait? ==> call.m in states[i].uth[t].has
    ensures OnTheWay(states, acts, at, t, call, i, i + 1)
  {
    assert StageOf(states[i], before, t) == In(User);
    assert EventOf(DeedOf(states[i], acts[i].l), t) == [];
    LogStep(states, acts, t, i, i + 1, None);
    SofarBegins(call, t, states[i].uth[t].has, StageOf(states[i + 1], at, t), states[i + 1].uth[t].has);
    assert Log(states, acts, t, i, i) == [] && OwnSteps(states, acts, t, i, i) == 0;
    hide Sofar, StageOf, Moves, DeedOf;
  }

  lemma NextStep(states: seq<State>, acts: seq<Action>, before: Places, at: Places, t: Tid, call: Call, i: nat, j: nat)
    requires Starts(states, acts, i, t, call) && i + 1 < j <= |acts| < |states|
    requires OnTheWay(states, acts, before, t, call, i, j - 1) && states[j - 1].uth[t].pc != User
    requires acts[j - 1].l in states[j - 1].lwp
    requires MovesThread(states[j - 1], before, states[j], at, acts[j - 1].l, acts[j - 1].call, t)
    ensures OnTheWay(states, acts, at, t, call, i, j)
  {
    var s, l, next := states[j - 1], acts[j - 1].l, acts[j - 1].call;
    var ev := EventOf(DeedOf(s, l), t);
    var e := if ev == [] then None else Some(ev[0]);
    var st, st', log := StageOf(s, before, t), StageOf(states[j], at, t), Log(states, acts, t, i, j - 1);
    var own := s.lwp[l] == Runs(t);
    LogStep(states, acts, t, i, j, e);
    assert st != In(User) && (st.In? ==> !st.pc.Out?);
    hide DeedOf, Log, OwnSteps, StageOf;
    SofarGoesOn(call, t, st, states[i].uth[t].has, s.uth[t].has, e, st', states[j].uth[t].has, next, own, log);
    NoRounds(call, t, st, log, states[i].uth[t].has, s.uth[t].has);
    hide Sofar;
    if own { RankFalls(st.pc, t, e, next); }
      else { RankStays(t, st, s.uth[t].has, e, st', states[j].uth[t].has, next); }
    hide Rank, PcRank, Goes, Fits;
    assert |log + ToLog(e)| == |log| + |ToLog(e)|;
  }

  /** What every call of every thread has done when it returns: its deeds are those
      that the call is for, in their order; it took a bounded number of steps of its
      own; and the caller then has the mutexes that it should have, and owns them. */
  lemma CallsDoTheirWork(states: seq<State>, acts: seq<Action>, mu: map<Cid, Mid>, t: Tid, call: Call, i: nat, j: nat)
    requires IsRun(states, acts, mu) && Starts(states, acts, i, t, call) && Returns(states, t, i, j)
    ensures Does(call, t, Log(states, acts, t, i, j))
    ensures OwnSteps(states, acts, t, i, j) <= Allowance(call, Log(states, acts, t, i, j))
    ensures states[j].uth[t].has == HasAfter(call, Log(states, acts, t, i, j), states[i].uth[t].has)
    ensures forall m :: m in states[j].uth[t].has ==> m in states[j].mtx && states[j].mtx[m].owner == Some(t)
  {
    var at := CallGoesOn(states, acts, mu, t, call, i, j);
    assert HasOk(states[j], at, t);
    assert StageOf(states[j], at, t) == In(User);
    SofarReturns(call, t, Log(states, acts, t, i, j), states[i].uth[t].has, states[j].uth[t].has);
  }

  // ---------------------------------------------------------------- the same, call by call

  /** Step k did what t's event e says. */
  ghost predicate Did(states: seq<State>, t: Tid, k: int, e: Event) {
    0 <= k && k + 1 < |states| && Changes(states[k], states[k + 1], Deed(t, e))
  }

  /** The n-th deed in a thread's log was done at some step k, after n others, and did
      what it says. */
  lemma {:induction false} DeedDone(states: seq<State>, acts: seq<Action>, mu: map<Cid, Mid>, t: Tid, i: nat, j: nat,
      n: nat) returns (k: nat)
    requires IsRun(states, acts, mu) && i < j <= |acts| && n < |Log(states, acts, t, i, j)|
    ensures i <= k < j && |Log(states, acts, t, i, k)| == n
    ensures Did(states, t, k, Log(states, acts, t, i, j)[n])
    decreases j - i
  {
    hide IsRun, Log, StepIsDeed, Did, Changes, DeedOf;
    RunLength(states, acts, mu);
    RunsDoDeeds(states, acts, mu, j - 1);
    LastDeed(states, acts, t, i, j);
    if n < |Log(states, acts, t, i, j - 1)| {
      k := DeedDone(states, acts, mu, t, i, j - 1, n);
    } else {
      k := j - 1;
    }
  }

  lemma RunLength(states: seq<State>, acts: seq<Action>, mu: map<Cid, Mid>)
    requires IsRun(states, acts, mu)
    ensures |states| == |acts| + 1
  {
  }

  lemma LastDeed(states: seq<State>, acts: seq<Action>, t: Tid, i: nat, j: nat)
    requires i < j <= |acts| < |states| && acts[j - 1].l in states[j - 1].lwp
    requires StepIsDeed(states[j - 1], acts[j - 1].l, states[j])
    ensures var log, before := Log(states, acts, t, i, j), Log(states, acts, t, i, j - 1);
      && |before| <= |log| <= |before| + 1 && (i + 1 == j ==> before == [])
      && (forall n :: 0 <= n < |before| ==> log[n] == before[n])
      && (|log| > |before| ==> Did(states, t, j - 1, log[|before|]))
  {
    hide Changes, DeedOf;
  }

  /** The deeds of a log of one or two, with the steps at which they were done. */
  lemma ShortLog(states: seq<State>, acts: seq<Action>, mu: map<Cid, Mid>, t: Tid, i: nat, j: nat)
      returns (k: nat, n: nat)
    requires IsRun(states, acts, mu) && i < j <= |acts| && 1 <= |Log(states, acts, t, i, j)| <= 2
    ensures var log := Log(states, acts, t, i, j);
      && i <= k < j && Did(states, t, k, log[0]) && (|log| == 2 ==> k < n < j && Did(states, t, n, log[1]))
  {
    k := DeedDone(states, acts, mu, t, i, j, 0);
    n := k;
    if |Log(states, acts, t, i, j)| == 2 {
      n := DeedDone(states, acts, mu, t, i, j, 1);
      if n <= k { LogGrows(states, acts, t, i, n, k); }
    }
  }

  lemma {:induction false} LogGrows(states: seq<State>, acts: seq<Action>, t: Tid, i: nat, k: nat, n: nat)
    requires i <= k <= n <= |acts| <= |states|
    ensures |Log(states, acts, t, i, k)| <= |Log(states, acts, t, i, n)|
    decreases n - k
  {
    if k < n { LogGrows(states, acts, t, i, k, n - 1); }
  }

  /** uthread_mtx_lock returns with the mutex. */
  lemma LockReturnsWithMutex(states: seq<State>, acts: seq<Action>, mu: map<Cid, Mid>, t: Tid, m: Mid, i: nat, j: nat)
    requires IsRun(states, acts, mu) && Starts(states, acts, i, t, LockCall(m)) && Returns(states, t, i, j)
    ensures states[j].uth[t].has == states[i].uth[t].has + {m}
    ensures m in states[j].mtx && states[j].mtx[m].owner == Some(t)
  {
    CallsDoTheirWork(states, acts, mu, t, LockCall(m), i, j);
    hide Log, Returns, Starts;
  }

  /** uthread_cond_wait returns with the mutex that it gave up, having been queued on
      the condition and taken off it in between. */
  lemma WaitReturnsWithMutex(states: seq<State>, acts: seq<Action>, mu: map<Cid, Mid>, t: Tid, c: Cid, m: Mid, i: nat,
      j: nat)
    requires IsRun(states, acts, mu) && Starts(states, acts, i, t, CondWait(c, m)) && Returns(states, t, i, j)
    ensures m in states[j].uth[t].has && states[j].uth[t].has == states[i].uth[t].has
    ensures m in states[j].mtx && states[j].mtx[m].owner == Some(t)
    ensures Does(CondWait(c, m), t, Log(states, acts, t, i, j))
  {
    CallsDoTheirWork(states, acts, mu, t, CondWait(c, m), i, j);
    assert Follows(states[i], acts[i], states[i + 1], mu);
    RunsIs(states[i], acts[i].l, t, acts[i].call, mu);
    BeginGoes(states[i], acts[i].l, t, acts[i].call, mu);
    hide Log, Next, ThreadStep, Does, GoesOn;
  }

  /** uthread_mtx_trylock takes the mutex just when it finds it free. */
  lemma TryLockAnswers(states: seq<State>, acts: seq<Action>, mu: map<Cid, Mid>, t: Tid, m: Mid, i: nat, j: nat)
      returns (k: nat)
    requires IsRun(states, acts, mu) && Starts(states, acts, i, t, TryLock(m)) && Returns(states, t, i, j)
    ensures i <= k < j && m in states[k].mtx
    ensures if states[k].mtx[m].owner == None
      then states[k + 1].mtx == states[k].mtx[m := Mutex(Some(t), [])]
        && states[j].uth[t].has == states[i].uth[t].has + {m}
      else states[k + 1].mtx == states[k].mtx && states[j].uth[t].has == states[i].uth[t].has
  {
    CallsDoTheirWork(states, acts, mu, t, TryLock(m), i, j);
    var n;
    k, n := ShortLog(states, acts, mu, t, i, j);
    hide Log, Returns;
  }

  /** uthread_mtx_unlock makes the first waiter the owner and runnable, or frees the mutex. */
  lemma UnlockPassesOn(states: seq<State>, acts: seq<Action>, mu: map<Cid, Mid>, t: Tid, m: Mid, i: nat, j: nat)
      returns (k: nat, n: nat)
    requires IsRun(states, acts, mu) && Starts(states, acts, i, t, Unlock(m)) && Returns(states, t, i, j)
    ensures i <= k < j && m in states[k].mtx && states[k].mtx[m].owner == Some(t) && m !in states[j].uth[t].has
    ensures var w := states[k].mtx[m].waiters;
      if w == [] then states[k + 1].mtx == states[k].mtx[m := Mutex(None, [])]
      else
        && states[k + 1].mtx == states[k].mtx[m := Mutex(Some(w[0]), w[1..])]
        && k < n < j && Did(states, t, n, Readied(w[0]))
  {
    CallsDoTheirWork(states, acts, mu, t, Unlock(m), i, j);
    k, n := ShortLog(states, acts, mu, t, i, j);
    hide Log, Returns;
  }

  /** uthread_cond_signal takes the first waiter off and makes it runnable, and takes
      nobody else: none when none waits. */
  lemma SignalWakesOne(states: seq<State>, acts: seq<Action>, mu: map<Cid, Mid>, t: Tid, c: Cid, i: nat, j: nat)
      returns (k: nat, n: nat)
    requires IsRun(states, acts, mu) && Starts(states, acts, i, t, Signal(c)) && Returns(states, t, i, j)
    ensures i <= k < j && c in states[k].cond
    ensures var w := states[k].cond[c];
      if w == [] then Log(states, acts, t, i, j) == [Roused(c, None)] && states[k + 1].cond == states[k].cond
      else
        && Log(states, acts, t, i, j) == [Roused(c, Some(w[0])), Readied(w[0])]
        && states[k + 1].cond == states[k].cond[c := w[1..]]
        && k < n < j && Did(states, t, n, Readied(w[0]))
  {
    CallsDoTheirWork(states, acts, mu, t, Signal(c), i, j);
    k, n := ShortLog(states, acts, mu, t, i, j);
    hide Log, Returns;
  }

  /** uthread_yield puts the caller behind all others of its priority, and it goes on
      when no runnable thread has a higher one and it is the first of its own. */
  lemma YieldGoesBehind(states: seq<State>, acts: seq<Action>, mu: map<Cid, Mid>, t: Tid, i: nat, j: nat)
      returns (k: nat, n: nat)
    requires IsRun(states, acts, mu) && Starts(states, acts, i, t, Yield) && Returns(states, t, i, j)
    ensures i <= k < n < j && t in states[k].uth && states[k].uth[t].prio < |states[k].runq|
    ensures var p := states[k].uth[t].prio;
      states[k + 1].runq == states[k].runq[p := states[k].runq[p] + [t]]
    ensures exists p :: IsHighest(states[n].runq, p) && states[n].runq[p][0] == t
  {
    CallsDoTheirWork(states, acts, mu, t, Yield, i, j);
    k, n := ShortLog(states, acts, mu, t, i, j);
    hide Log, Returns;
  }
}
