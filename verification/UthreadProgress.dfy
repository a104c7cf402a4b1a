/** Parking and progress: when lwp_park's assertion fails, and why otherwise some LWP
    can always go on. */
module UthreadProgress {
  import opened Uthreads
  import opened UthreadSafety
  import opened UthreadSteps
  import opened UthreadRuns
  import opened UthreadConds

  // ---------------------------------------------------------------- the counters

  /** The LWPs that have entered lwp_switch. */
  ghost function Started(s: State): set<Lid> {
    set l | l in s.lwp && !s.lwp[l].Start?
  }

  ghost function ParkedLwps(s: State): set<Lid> {
    set l | l in s.lwp && s.lwp[l].Parked?
  }

  ghost predicate CountsOk(s: State) {
    s.lwpCnt == |Started(s)| && s.parkedCnt == |ParkedLwps(s)|
  }

  lemma CountsStep(s: State, l: Lid, call: Call, mu: map<Cid, Mid>)
    requires CountsOk(s) && l in s.lwp && Next(s, l, call, mu).Moved?
    ensures CountsOk(Next(s, l, call, mu).s)
  {
    if s.lwp[l].Runs? {
      ThreadCounts(s, l, s.lwp[l].t, call, mu);
      RunsIs(s, l, s.lwp[l].t, call, mu);
    } else {
      LwpCounts(s, l, call, mu);
    }
  }

  lemma ThreadCounts(s: State, l: Lid, t: Tid, call: Call, mu: map<Cid, Mid>)
    requires CountsOk(s) && l in s.lwp && s.lwp[l] == Runs(t) && t in s.uth && ThreadStep(s, l, t, call, mu).Moved?
    ensures CountsOk(ThreadStep(s, l, t, call, mu).s)
  {
    var s' := ThreadStep(s, l, t, call, mu).s;
    StepEffects(s, l, t, call, mu);
    hide ThreadStep;
    assert Started(s') == Started(s) && ParkedLwps(s') == ParkedLwps(s);
  }

  lemma LwpCounts(s: State, l: Lid, call: Call, mu: map<Cid, Mid>)
    requires CountsOk(s) && l in s.lwp && !s.lwp[l].Runs? && Next(s, l, call, mu).Moved?
    ensures CountsOk(Next(s, l, call, mu).s)
  {
    var s' := Next(s, l, call, mu).s;
    LwpChange(s, l, call, mu);
    hide Next;
    StartedChange(s, s', l);
    if !(s.lwp[l].Parked? && s'.lwp[l].Parked?) {
      ParkedChange(s, s', l);
    }
  }

  /** How an LWP's own step changes its place and the counters. */
  ghost predicate LwpChanges(s: State, s': State, l: Lid)
    requires l in s.lwp
  {
    && l in s'.lwp && s'.lwp == s.lwp[l := s'.lwp[l]] && !s'.lwp[l].Start?
    && s'.lwpCnt == s.lwpCnt + (if s.lwp[l].Start? then 1 else 0)
    && s'.parkedCnt == s.parkedCnt + (if s'.lwp[l].Parked? then 1 else 0) - (if s.lwp[l].Parked? then 1 else 0)
    && !(s.lwp[l].Parked? && s'.lwp[l].Parked?)
  }

  lemma LwpChange(s: State, l: Lid, call: Call, mu: map<Cid, Mid>)
    requires l in s.lwp && !s.lwp[l].Runs? && Next(s, l, call, mu).Moved?
    ensures LwpChanges(s, Next(s, l, call, mu).s, l)
  {
    if s.lwp[l].Enqueue? {
      EnqueueChange(s, l, call, mu);
    } else {
      hide ThreadStep, Queued, Highest, RunqEnqueue;
    }
  }

  lemma EnqueueChange(s: State, l: Lid, call: Call, mu: map<Cid, Mid>)
    requires l in s.lwp && s.lwp[l].Enqueue? && Next(s, l, call, mu).Moved?
    ensures LwpChanges(s, Next(s, l, call, mu).s, l)
  {
    hide ThreadStep, Queued, Highest;
  }

  lemma StartedChange(s: State, s': State, l: Lid)
    requires l in s.lwp && l in s'.lwp && s'.lwp == s.lwp[l := s'.lwp[l]] && !s'.lwp[l].Start?
    ensures |Started(s')| == |Started(s)| + if s.lwp[l].Start? then 1 else 0
  {
    assert Started(s') == Started(s) + {l} && (l in Started(s) <==> !s.lwp[l].Start?);
    if s.lwp[l].Start? {
      assert |Started(s) + {l}| == |Started(s)| + 1;
    } else {
      assert Started(s) + {l} == Started(s);
    }
  }

  lemma ParkedChange(s: State, s': State, l: Lid)
    requires l in s.lwp && l in s'.lwp && s'.lwp == s.lwp[l := s'.lwp[l]]
    requires !(s.lwp[l].Parked? && s'.lwp[l].Parked?)
    ensures |ParkedLwps(s')| ==
      |ParkedLwps(s)| + (if s'.lwp[l].Parked? then 1 else 0) - (if s.lwp[l].Parked? then 1 else 0)
  {
    assert l in ParkedLwps(s) <==> s.lwp[l].Parked?;
    if s.lwp[l].Parked? {
      assert ParkedLwps(s') == ParkedLwps(s) - {l};
    } else if s'.lwp[l].Parked? {
      assert ParkedLwps(s') == ParkedLwps(s) + {l};
    } else {
      assert ParkedLwps(s') == ParkedLwps(s);
    }
  }

  /** lwp_cnt and lwp_parked_cnt count what they are meant to, in every run. */
  lemma {:induction false} CountsHold(states: seq<State>, acts: seq<Action>, mu: map<Cid, Mid>, i: nat)
    requires IsRun(states, acts, mu) && i < |states|
    ensures CountsOk(states[i])
  {
    if i == 0 {
      assert Started(states[0]) == {} && ParkedLwps(states[0]) == {};
    } else {
      CountsHold(states, acts, mu, i - 1);
      assert Follows(states[i - 1], acts[i - 1], states[i], mu);
      CountsStep(states[i - 1], acts[i - 1].l, acts[i - 1].call, mu);
    }
  }

  // ---------------------------------------------------------------- when the assertion fails

  ghost predicate Waiting(s: State, t: Tid) {
    exists q :: t in QueueOf(s, q)
  }

  /** While an LWP looks for work and finds none, all the other LWPs are parked just
      when every thread is on a wait queue. */
  lemma NoneRunIffAllWait(s: State, at: Places, mu: map<Cid, Mid>, l: Lid)
    requires Inv(s, at, mu) && l in s.lwp && s.lwp[l].Find?
    ensures (forall t :: t in s.uth ==> Waiting(s, t)) <==>
            Highest(s.runq, |s.runq|) < 0 && Started(s) == ParkedLwps(s) + {l}
  {
    if Highest(s.runq, |s.runq|) < 0 && Started(s) == ParkedLwps(s) + {l} {
      forall t | t in s.uth ensures Waiting(s, t) { IdleMeansWaiting(s, at, mu, l, t); }
    }
    if forall t :: t in s.uth ==> Waiting(s, t) { WaitingMeansIdle(s, at, mu, l); }
  }

  lemma WaitingMeansIdle(s: State, at: Places, mu: map<Cid, Mid>, l: Lid)
    requires Inv(s, at, mu) && l in s.lwp && s.lwp[l].Find?
    requires forall t :: t in s.uth ==> Waiting(s, t)
    ensures Highest(s.runq, |s.runq|) < 0 && Started(s) == ParkedLwps(s) + {l}
  {
    RunnableIsNotWaiting(s, at, mu);
    hide Waiting;
    var a, b := Started(s), ParkedLwps(s) + {l};
    forall k | k in a ensures k in b { OthersParked(s, at, mu, l, k); }
    assert a <= b <= a;
  }

  lemma NotElsewhere(s: State, at: Places, mu: map<Cid, Mid>, t: Tid)
    requires Inv(s, at, mu)
    ensures Waiting(s, t) ==> t in at && at[t].OnWait?
    ensures t in at && at[t].OnWait? ==> Waiting(s, t)
  {
    if q :| t in QueueOf(s, q) { assert WaitOk(s, at, q); }
    if t in at && at[t].OnWait? { assert WaitOk(s, at, at[t].q); }
  }

  lemma RunnableIsNotWaiting(s: State, at: Places, mu: map<Cid, Mid>)
    requires Inv(s, at, mu)
    ensures var p := Highest(s.runq, |s.runq|); p >= 0 ==> s.runq[p][0] in s.uth && !Waiting(s, s.runq[p][0])
    ensures forall t :: t in s.uth && t in at && at[t].OnRunQ? ==> Highest(s.runq, |s.runq|) >= 0
  {
    var p := Highest(s.runq, |s.runq|);
    if p >= 0 {
      assert RunqOk(s, at, p) && s.runq[p][0] in s.runq[p];
      NotElsewhere(s, at, mu, s.runq[p][0]);
    }
    forall t | t in s.uth && t in at && at[t].OnRunQ? ensures p >= 0 {
      assert ThreadOk(s, at, mu, t);
      assert RunqOk(s, at, s.uth[t].prio);
      assert t in s.runq[s.uth[t].prio];
    }
  }

  lemma OthersParked(s: State, at: Places, mu: map<Cid, Mid>, l: Lid, k: Lid)
    requires Inv(s, at, mu) && l in s.lwp && s.lwp[l].Find? && k in s.lwp && !s.lwp[k].Start?
    requires forall t :: t in s.uth ==> Waiting(s, t)
    ensures k == l || s.lwp[k].Parked?
  {
    assert LwpOk(s, at, k);
    if Carries(s.lwp[k]).Some? {
      var t := Carries(s.lwp[k]).value;
      assert t in at && at[t] == OnLwp(k);
      NotElsewhere(s, at, mu, t);
    } else if !s.lwp[k].Parked? {
      LockIsExclusive(s, RunqMtx, l, k);
    }
  }

  lemma CarrierIsBusy(s: State, at: Places, mu: map<Cid, Mid>, t: Tid)
    requires Inv(s, at, mu) && t in s.uth && ((t in at && at[t].OnLwp?) || exists u :: u in at && at[u] == InHand(t))
    ensures exists k :: k in Started(s) && !s.lwp[k].Parked? && !s.lwp[k].Find?
  {
    if u :| u in at && at[u] == InHand(t) { assert HandOk(s, at, t); }
    assert ThreadOk(s, at, mu, t);
    assert LwpOk(s, at, at[t].l);
    assert at[t].l in Started(s);
  }

  lemma IdleMeansWaiting(s: State, at: Places, mu: map<Cid, Mid>, l: Lid, t: Tid)
    requires Inv(s, at, mu) && l in s.lwp && s.lwp[l].Find? && t in s.uth
    requires Highest(s.runq, |s.runq|) < 0 && Started(s) == ParkedLwps(s) + {l}
    ensures Waiting(s, t)
  {
    assert ThreadOk(s, at, mu, t);
    match at[t] {
      case OnLwp(k) => CarrierIsBusy(s, at, mu, t);
      case OnRunQ => RunnableIsNotWaiting(s, at, mu);
      case InHand(w) => CarrierIsBusy(s, at, mu, w);
      case OnWait(q) => NotElsewhere(s, at, mu, t);
    }
  }

  /** The assertion of lwp_park fails exactly where an LWP looks for work while every
      thread is on a wait queue, so that nobody is left to wake anybody. */
  lemma ParkAssertionFails(states: seq<State>, acts: seq<Action>, mu: map<Cid, Mid>, i: nat, l: Lid, call: Call)
    requires IsRun(states, acts, mu) && i < |states| && l in states[i].lwp
    ensures Next(states[i], l, call, mu).AllParked? <==>
            states[i].lwp[l].Find? && forall t :: t in states[i].uth ==> Waiting(states[i], t)
  {
    var s := states[i];
    var at := RunsAreSafe(states, acts, mu, i);
    CountsHold(states, acts, mu, i);
    if s.lwp[l].Find? {
      CanFree(s, at, mu, l, RunqMtx);
      NoneRunIffAllWait(s, at, mu, l);
      OneMoreStarted(s, l);
    } else {
      OnlyFindersPark(s, l, call, mu);
    }
  }

  lemma OneMoreStarted(s: State, l: Lid)
    requires CountsOk(s) && l in s.lwp && s.lwp[l].Find?
    ensures s.parkedCnt + 1 == s.lwpCnt <==> Started(s) == ParkedLwps(s) + {l}
  {
    var a, b := ParkedLwps(s) + {l}, Started(s);
    assert a <= b && |a| == |ParkedLwps(s)| + 1;
    if a != b { Smaller(a, b); }
  }

  lemma Smaller(a: set<Lid>, b: set<Lid>)
    requires a < b
    ensures |a| < |b|
  {
    var x :| x in b && x !in a;
    assert a <= b - {x};
    AtMost(a, b - {x});
  }

  lemma AtMost(a: set<Lid>, b: set<Lid>)
    requires a <= b
    ensures |a| <= |b|
  {
    if a != {} {
      var x :| x in a;
      AtMost(a - {x}, b - {x});
    }
  }

  lemma OnlyFindersPark(s: State, l: Lid, call: Call, mu: map<Cid, Mid>)
    requires l in s.lwp && !s.lwp[l].Find?
    ensures !Next(s, l, call, mu).AllParked?
  {
    if s.lwp[l].Runs? && s.lwp[l].t in s.uth { ThreadsDoNotPark(s, l, s.lwp[l].t, call, mu); }
    hide ThreadStep, Queued, Highest;
  }

  lemma ThreadsDoNotPark(s: State, l: Lid, t: Tid, call: Call, mu: map<Cid, Mid>)
    requires t in s.uth && l in s.lwp
    ensures !ThreadStep(s, l, t, call, mu).AllParked?
  {
    hide Queued;
  }

  /** One LWP, one thread of priority 0, one mutex. */
  ghost function Lone(u: Uthread, w: Lwp, held: map<Pm, Lid>, queued: bool, started: nat, m: Mutex): State {
    State(map[0 := u], map[0 := w], held, Queues(if queued then [0] else [], UTH_MAXPRIO + 1),
          if queued then 1 else 0, started, 0, map[0 := m], map[])
  }

  /** n run queues, all empty but that of priority 0. */
  function Queues(q: seq<Tid>, n: nat): (r: seq<seq<Tid>>)
    requires n > 0
    ensures |r| == n && Total(r) == |q| && r[0] == q && forall p :: 0 < p < n ==> r[p] == []
  {
    if n == 1 then [q] else Queues(q, n - 1) + [[]]
  }

  ghost predicate LoneStep(s: State, call: Call, s': State) {
    0 in s.lwp && Next(s, 0, call, map[]) == Moved(s')
  }

  const RUNQ: map<Pm, Lid> := map[RunqMtx := 0]
  const PMUT: map<Pm, Lid> := map[MtxPm(0) := 0]
  const LOCKED: Mutex := Mutex(Some(0), [])

  lemma LoneDispatch(u: Uthread, m: Mutex)
    requires u.prio == 0 && u.pc.Out?
    ensures LoneStep(Lone(u, Find, RUNQ, true, 1, m), Yield, Lone(Resume(u), Runs(0), map[], false, 1, m))
  {
    var s, s' := Lone(u, Find, RUNQ, true, 1, m), Lone(Resume(u), Runs(0), map[], false, 1, m);
    forall p | 0 <= p < |s.runq| ensures s.runq[0 := s.runq[0][1..]][p] == s'.runq[p] {}
    assert s.runq[0 := s.runq[0][1..]] == s'.runq && RUNQ - {RunqMtx} == map[];
    assert Highest(s.runq, |s.runq|) == 0;
  }

  /** Taking the mutex's POSIX mutex; when it is free, taking the mutex. */
  lemma LoneLock(has: set<Mid>, m: Mutex)
    ensures var u := Uthread(OnCpu, 0, User, has);
      && LoneStep(Lone(u, Runs(0), map[], false, 1, m), LockCall(0),
        Lone(u.(pc := LockTake(0)), Runs(0), map[], false, 1, m))
      && LoneStep(Lone(u.(pc := LockTake(0)), Runs(0), map[], false, 1, m), Yield,
        Lone(u.(pc := LockTest(0)), Runs(0), PMUT, false, 1, m))
  {
    hide Queued, Highest;
  }

  lemma LoneGets()
    ensures var u := Uthread(OnCpu, 0, LockTest(0), {});
      && LoneStep(Lone(u, Runs(0), PMUT, false, 1, Mutex(None, [])), Yield,
        Lone(u.(pc := LockFree(0)), Runs(0), PMUT, false, 1, LOCKED))
      && LoneStep(Lone(u.(pc := LockFree(0)), Runs(0), PMUT, false, 1, LOCKED), Yield,
        Lone(Uthread(OnCpu, 0, User, {0}), Runs(0), map[], false, 1, LOCKED))
  {
    hide Queued, Highest;
    assert PMUT - {MtxPm(0)} == map[] && {} + {0} == {0};
  }

  /** Blocking on its own mutex. */
  lemma LoneBlocks()
    ensures var u := Uthread(OnCpu, 0, LockTest(0), {0});
      LoneStep(Lone(u, Runs(0), PMUT, false, 1, LOCKED), Yield,
        Lone(u.(state := Wait, pc := Switch(Some(MtxQ(0)), MtxPm(0), Got(0))), Runs(0), PMUT, false, 1, LOCKED))
  {
    hide Queued, Highest, Begin, RunqEnqueue;
  }

  lemma LoneSwitches()
    ensures var u := Uthread(Wait, 0, Switch(Some(MtxQ(0)), MtxPm(0), Got(0)), {0});
      LoneStep(Lone(u, Runs(0), PMUT, false, 1, LOCKED), Yield,
        Lone(u.(pc := Out(Got(0))), Enqueue(0, Some(MtxQ(0)), MtxPm(0)), PMUT[RunqMtx := 0], false, 1, LOCKED))
  {
    hide Queued, Highest, Begin, RunqEnqueue;
  }

  lemma LoneSleeps(u: Uthread)
    ensures var both := PMUT[RunqMtx := 0];
      LoneStep(Lone(u, Enqueue(0, Some(MtxQ(0)), MtxPm(0)), both, false, 1, LOCKED), Yield,
        Lone(u, Drop(MtxPm(0)), both, false, 1, Mutex(Some(0), [0])))
  {
    var s := Lone(u, Enqueue(0, Some(MtxQ(0)), MtxPm(0)), PMUT[RunqMtx := 0], false, 1, LOCKED);
    assert !Queued(s, 0) && [] + [0] == [0];
    hide Queued;
  }

  lemma LoneParks(u: Uthread, m: Mutex)
    ensures LoneStep(Lone(u, Drop(MtxPm(0)), PMUT[RunqMtx := 0], false, 1, m), Yield,
      Lone(u, Find, RUNQ, false, 1, m))
    ensures Next(Lone(u, Find, RUNQ, false, 1, m), 0, Yield, map[]).AllParked?
  {
    assert PMUT[RunqMtx := 0] - {MtxPm(0)} == RUNQ;
  }

  /** The assertion can fail: a thread that locks a mutex twice leaves nobody to run. */
  lemma LockingTwiceParksAll() returns (states: seq<State>, acts: seq<Action>)
    ensures IsRun(states, acts, map[])
    ensures 0 in states[|acts|].lwp && Next(states[|acts|], 0, Yield, map[]).AllParked?
  {
    var free, run, full := Mutex(None, []), Runs(0), Mutex(Some(0), [0]);
    var made, one, two := Uthread(Runnable, 0, Out(Back), {}), Uthread(OnCpu, 0, User, {}),
      Uthread(OnCpu, 0, User, {0});
    var off := Uthread(Wait, 0, Out(Got(0)), {0});
    var both := PMUT[RunqMtx := 0];
    LoneStart(made, free);
    hide Next, Lone, ThreadStep, Init;
    LoneDispatch(made, free);
    LoneLock({}, free);
    LoneGets();
    LoneLock({0}, LOCKED);
    LoneBlocks();
    LoneSwitches();
    LoneSleeps(off);
    LoneParks(off, Mutex(Some(0), [0]));
    hide LoneStep;
    states, acts := [Lone(made, Start, map[], true, 0, free)], [];
    states, acts := OneMore(states, acts, Yield, Lone(made, Find, RUNQ, true, 1, free));
    states, acts := OneMore(states, acts, Yield, Lone(one, run, map[], false, 1, free));
    states, acts := OneMore(states, acts, LockCall(0), Lone(one.(pc := LockTake(0)), run, map[], false, 1, free));
    states, acts := OneMore(states, acts, Yield, Lone(one.(pc := LockTest(0)), run, PMUT, false, 1, free));
    states, acts := OneMore(states, acts, Yield, Lone(one.(pc := LockFree(0)), run, PMUT, false, 1, LOCKED));
    states, acts := OneMore(states, acts, Yield, Lone(two, run, map[], false, 1, LOCKED));
    states, acts := OneMore(states, acts, LockCall(0), Lone(two.(pc := LockTake(0)), run, map[], false, 1, LOCKED));
    states, acts := OneMore(states, acts, Yield, Lone(two.(pc := LockTest(0)), run, PMUT, false, 1, LOCKED));
    var w := Switch(Some(MtxQ(0)), MtxPm(0), Got(0));
    states, acts := OneMore(states, acts, Yield, Lone(two.(state := Wait, pc := w), run, PMUT, false, 1, LOCKED));
    states, acts := OneMore(states, acts, Yield,
      Lone(off, Enqueue(0, Some(MtxQ(0)), MtxPm(0)), both, false, 1, LOCKED));
    states, acts := OneMore(states, acts, Yield, Lone(off, Drop(MtxPm(0)), both, false, 1, full));
    states, acts := OneMore(states, acts, Yield, Lone(off, Find, RUNQ, false, 1, full));
  }

  /** A run of the LWP 0, one step longer. */
  lemma OneMore(states: seq<State>, acts: seq<Action>, call: Call, s: State)
      returns (states': seq<State>, acts': seq<Action>)
    requires IsRun(states, acts, map[]) && LoneStep(states[|states| - 1], call, s)
    ensures IsRun(states', acts', map[]) && states'[|states'| - 1] == s && states'[|acts'|] == s
  {
    states', acts' := states + [s], acts + [Action(0, call)];
    forall i | 0 <= i < |acts'| ensures Follows(states'[i], acts'[i], states'[i + 1], map[]) {
      if i < |acts| { assert Follows(states[i], acts[i], states[i + 1], map[]); }
    }
  }

  lemma LoneStart(u: Uthread, m: Mutex)
    requires u == Uthread(Runnable, 0, Out(Back), {}) && m == Mutex(None, [])
    ensures Init(Lone(u, Start, map[], true, 0, m))
    ensures LoneStep(Lone(u, Start, map[], true, 0, m), Yield, Lone(u, Find, RUNQ, true, 1, m))
    ensures forall v: Uthread, w: Lwp, held: map<Pm, Lid>, queued: bool, started: nat, x: Mutex ::
      0 in Lone(v, w, held, queued, started, x).lwp
  {
    LoneInit(u, m);
    hide Init, Queued, Highest, ThreadStep;
    assert map[][RunqMtx := 0] == RUNQ;
  }

  lemma LoneInit(u: Uthread, m: Mutex)
    requires u == Uthread(Runnable, 0, Out(Back), {}) && m == Mutex(None, [])
    ensures Init(Lone(u, Start, map[], true, 0, m))
  {
  }

  // ---------------------------------------------------------------- progress

  /** The order in which the POSIX mutexes are taken: runq_mtx always last. */
  function Level(pm: Pm): nat {
    match pm case RunqMtx => 2 case MtxPm(_) => 1 case _ => 0
  }

  /** The POSIX mutex that LWP l takes next. */
  ghost function NextPm(s: State, l: Lid): Option<Pm>
    requires l in s.lwp
  {
    match s.lwp[l]
    case Start => Some(RunqMtx)
    case Parked => Some(RunqMtx)
    case Runs(t) =>
      if t !in s.uth then None
      else if Locking(s.uth[t].pc) then Some(LockedPm(s.uth[t].pc, t))
      else if s.uth[t].pc.WaitTake? then Some(CondPm(s.uth[t].pc.c))
      else if s.uth[t].pc.Switch? then Some(RunqMtx)
      else None
    case _ => None
  }

  lemma LocksGoUp(s: State, at: Places, mu: map<Cid, Mid>, l: Lid, pm: Pm)
    requires Inv(s, at, mu) && l in s.lwp && pm in Locks(s, l) && NextPm(s, l).Some?
    ensures Level(pm) < Level(NextPm(s, l).value)
  {
    if s.lwp[l].Runs? { RunningIs(s, at, mu, l); }
    hide Inv;
  }

  /** An LWP that cannot step waits for a POSIX mutex that is held, or is parked with
      nothing to run, or is the one whose parking would stop everything. */
  lemma BlockedMeans(s: State, at: Places, mu: map<Cid, Mid>, l: Lid)
    requires Inv(s, at, mu) && l in s.lwp
    ensures || Next(s, l, Yield, mu).Moved?
            || Next(s, l, Yield, mu).AllParked?
            || (s.lwp[l].Parked? && s.runqSize == 0)
            || (NextPm(s, l).Some? && NextPm(s, l).value in s.held)
  {
    StepKeepsInv(s, at, mu, l, Yield);
    if s.lwp[l].Runs? {
      RunningIs(s, at, mu, l);
      RunsIs(s, l, s.lwp[l].t, Yield, mu);
      if ThreadStep(s, l, s.lwp[l].t, Yield, mu).Blocked? { ThreadBlocks(s, l, s.lwp[l].t, mu); }
    }
    hide Inv, ThreadStep, Queued, Highest;
  }

  lemma ThreadBlocks(s: State, l: Lid, t: Tid, mu: map<Cid, Mid>)
    requires t in s.uth && l in s.lwp && s.lwp[l] == Runs(t) && ThreadStep(s, l, t, Yield, mu).Blocked?
    ensures NextPm(s, l).Some? && NextPm(s, l).value in s.held
  {
    hide Queued, RunqEnqueue;
  }

  lemma PmHolder(s: State, pm: Pm) returns (k: Lid)
    requires HeldOk(s) && pm in s.held
    ensures k in s.lwp && pm in Locks(s, k)
  {
    k := s.held[pm];
    assert PmOk(s, k, pm);
  }

  /** Following the chain of POSIX mutexes upwards from l leads to an LWP that can step. */
  lemma {:induction false} FindLwp(s: State, at: Places, mu: map<Cid, Mid>, t: Tid, l: Lid) returns (k: Lid)
    requires Inv(s, at, mu) && CountsOk(s) && l in s.lwp && t in s.uth && !Waiting(s, t)
    requires s.lwp[l].Parked? ==> s.runqSize > 0
    ensures k in s.lwp && Next(s, k, Yield, mu).Moved?
    decreases if NextPm(s, l).Some? then 2 - Level(NextPm(s, l).value) else 3
  {
    BlockedMeans(s, at, mu, l);
    if Next(s, l, Yield, mu).Moved? {
      k := l;
    } else {
      if Next(s, l, Yield, mu).AllParked? { StuckMeansAllWait(s, at, mu, l, t); }
      var h := PmHolder(s, NextPm(s, l).value);
      BlockedMeans(s, at, mu, h);
      if Next(s, h, Yield, mu).Moved? {
        k := h;
      } else {
        if Next(s, h, Yield, mu).AllParked? { StuckMeansAllWait(s, at, mu, h, t); }
        LocksGoUp(s, at, mu, h, NextPm(s, l).value);
        k := FindLwp(s, at, mu, t, h);
      }
    }
  }

  lemma StuckMeansAllWait(s: State, at: Places, mu: map<Cid, Mid>, l: Lid, t: Tid)
    requires Inv(s, at, mu) && CountsOk(s) && l in s.lwp && t in s.uth && Next(s, l, Yield, mu).AllParked?
    ensures Waiting(s, t)
  {
    if !s.lwp[l].Find? { OnlyFindersPark(s, l, Yield, mu); }
    NoneRunIffAllWait(s, at, mu, l);
    OneMoreStarted(s, l);
  }

  /** Progress: in every run, as long as some thread is not on a wait queue, some LWP
      can step. */
  lemma SomeLwpMoves(states: seq<State>, acts: seq<Action>, mu: map<Cid, Mid>, i: nat, t: Tid, l: Lid) returns (k: Lid)
    requires IsRun(states, acts, mu) && i < |states| && t in states[i].uth && !Waiting(states[i], t)
    requires l in states[i].lwp
    ensures k in states[i].lwp && Next(states[i], k, Yield, mu).Moved?
  {
    var s := states[i];
    var at := RunsAreSafe(states, acts, mu, i);
    CountsHold(states, acts, mu, i);
    assert ThreadOk(s, at, mu, t);
    match at[t] {
      case OnLwp(h) => k := FindLwp(s, at, mu, t, h);
      case InHand(w) =>
        assert HandOk(s, at, w);
        var h := RunningThread(s, at, mu, w);
        k := FindLwp(s, at, mu, t, h);
      case OnRunQ =>
        assert RunqOk(s, at, s.uth[t].prio);
        TotalZero(s.runq, s.uth[t].prio);
        k := FindLwp(s, at, mu, t, l);
      case OnWait(q) => NotElsewhere(s, at, mu, t);
    }
  }
}
