/** Condition variables over whole runs: no waiter is missed, and a broadcast ends
    and wakes exactly the threads that waited when it began. */
module UthreadConds {
  import opened Uthreads
  import opened UthreadSafety
  import opened UthreadSteps
  import opened UthreadRuns

  // ---------------------------------------------------------------- how a condition's queue changes

  /** LWP l is about to queue its thread on c. */
  predicate Puts(s: State, l: Lid, c: Cid) {
    l in s.lwp && s.lwp[l].Enqueue? && s.lwp[l].q == Some(CondQ(c))
  }

  /** LWP l runs a signal or broadcast that is about to take c's first waiter. */
  predicate Takes(s: State, l: Lid, c: Cid) {
    && l in s.lwp && RunsAt(s, l) && (PcOf(s, l) == SigTest(c) || PcOf(s, l) == BcTest(c))
    && QueueOf(s, CondQ(c)) != []
  }

  predicate TakesThread(s: State, l: Lid, c: Cid, u: Tid) {
    Takes(s, l, c) && QueueOf(s, CondQ(c))[0] == u
  }

  /** A condition's queue grows only at its end, when an LWP has put its thread
      away, and shrinks only at its front, by a signal or a broadcast. */
  lemma CondMoves(s: State, l: Lid, call: Call, mu: map<Cid, Mid>, c: Cid)
    requires l in s.lwp && Next(s, l, call, mu).Moved? && c in s.cond
    ensures c in Next(s, l, call, mu).s.cond
    ensures var w, w' := QueueOf(s, CondQ(c)), QueueOf(Next(s, l, call, mu).s, CondQ(c));
            w' == if Puts(s, l, c) then w + [s.lwp[l].t] else if Takes(s, l, c) then w[1..] else w
  {
    if s.lwp[l].Runs? {
      assert s.lwp[l].t in s.uth;
      RunCondMoves(s, l, s.lwp[l].t, call, mu, c);
      RunsIs(s, l, s.lwp[l].t, call, mu);
      hide Next, ThreadStep;
    } else {
      LwpCondMoves(s, l, call, mu, c);
      hide Next;
    }
  }

  lemma RunCondMoves(s: State, l: Lid, t: Tid, call: Call, mu: map<Cid, Mid>, c: Cid)
    requires l in s.lwp && s.lwp[l] == Runs(t) && t in s.uth && ThreadStep(s, l, t, call, mu).Moved? && c in s.cond
    ensures var s' := ThreadStep(s, l, t, call, mu).s;
      c in s'.cond && s'.cond[c] == if Takes(s, l, c) then s.cond[c][1..] else s.cond[c]
  {
    StepEffects(s, l, t, call, mu);
    if Takes(s, l, c) { TakingIs(s, l, t, call, mu); }
    hide ThreadStep;
  }

  lemma LwpCondMoves(s: State, l: Lid, call: Call, mu: map<Cid, Mid>, c: Cid)
    requires l in s.lwp && !s.lwp[l].Runs? && Next(s, l, call, mu).Moved? && c in s.cond
    ensures var s' := Next(s, l, call, mu).s;
      c in s'.cond && s'.cond[c] == if Puts(s, l, c) then s.cond[c] + [s.lwp[l].t] else s.cond[c]
  {
    hide Queued, ThreadStep, Highest;
  }

  /** The threads taken off c's queue by the actions from i to j, in order. */
  function TakenOff(states: seq<State>, acts: seq<Action>, c: Cid, i: nat, j: nat): seq<Tid>
    requires i <= j <= |acts| <= |states|
    decreases j - i
  {
    if i == j then [] else
      TakenOff(states, acts, c, i, j - 1) +
      if Takes(states[j - 1], acts[j - 1].l, c) then [QueueOf(states[j - 1], CondQ(c))[0]] else []
  }

  // ---------------------------------------------------------------- no wake-up is lost

  /** u came onto c's queue between i and j and is still there or has been taken off. */
  ghost predicate QueuedAndMaybeTaken(states: seq<State>, acts: seq<Action>, c: Cid, u: Tid, i: nat, j: nat)
    requires j < |states| && |states| == |acts| + 1
  {
    exists k :: i < k <= j && u in QueueOf(states[k], CondQ(c)) && StillOrTaken(states, acts, c, u, k, j)
  }

  ghost predicate StillOrTaken(states: seq<State>, acts: seq<Action>, c: Cid, u: Tid, k: int, j: nat)
    requires j < |states| && |states| == |acts| + 1 && 0 <= k
  {
    || u in QueueOf(states[j], CondQ(c))
    || exists m :: k <= m < j && TakesThread(states[m], acts[m].l, c, u)
  }

  /** The general step of the theorem below. */
  lemma {:induction false} SleeperGoesOn(states: seq<State>, acts: seq<Action>, mu: map<Cid, Mid>, c: Cid, u: Tid,
      i: nat, j: nat)
    requires IsRun(states, acts, mu) && i <= j < |states| && c in states[i].cond && FallingAsleep(states[i], u, c)
    ensures c in states[j].cond && (FallingAsleep(states[j], u, c) || QueuedAndMaybeTaken(states, acts, c, u, i, j))
    decreases j - i
  {
    if i < j {
      SleeperGoesOn(states, acts, mu, c, u, i, j - 1);
      var s, l, call := states[j - 1], acts[j - 1].l, acts[j - 1].call;
      assert Follows(s, acts[j - 1], states[j], mu);
      var at := RunsAreSafe(states, acts, mu, j - 1);
      hide Next, Inv, FallingAsleep, Init;
      CondMoves(s, l, call, mu, c);
      if FallingAsleep(s, u, c) {
        SleeperIsQueued(s, at, mu, l, call, u, c);
        if u in QueueOf(states[j], CondQ(c)) { assert StillOrTaken(states, acts, c, u, j, j); }
      } else {
        var k :| i < k <= j - 1 && u in QueueOf(states[k], CondQ(c)) && StillOrTaken(states, acts, c, u, k, j - 1);
        StaysOrIsTaken(states, acts, c, u, k, j);
      }
    }
  }

  lemma StaysOrIsTaken(states: seq<State>, acts: seq<Action>, c: Cid, u: Tid, k: int, j: nat)
    requires 0 < j < |states| && |states| == |acts| + 1 && 0 <= k < j && StillOrTaken(states, acts, c, u, k, j - 1)
    requires var s, l, w := states[j - 1], acts[j - 1].l, QueueOf(states[j - 1], CondQ(c));
      QueueOf(states[j], CondQ(c)) == if Puts(s, l, c) then w + [s.lwp[l].t] else if Takes(s, l, c) then w[1..] else w
    ensures StillOrTaken(states, acts, c, u, k, j)
  {
    var s, l, w := states[j - 1], acts[j - 1].l, QueueOf(states[j - 1], CondQ(c));
    if u in w && !(u in QueueOf(states[j], CondQ(c))) {
      assert w == [w[0]] + w[1..];
      assert TakesThread(s, l, c, u);
    }
  }

  /** No wake-up is lost: whoever has given up the mutex in uthread_cond_wait(c) at
      i is, when a later signal or broadcast looks at c's queue, on that queue or
      has been taken off it by another signal or broadcast. */
  lemma WaiterIsFound(states: seq<State>, acts: seq<Action>, mu: map<Cid, Mid>, c: Cid, u: Tid, i: nat, j: nat, l: Lid)
    requires IsRun(states, acts, mu) && i <= j < |states| && c in states[i].cond && FallingAsleep(states[i], u, c)
    requires l in states[j].lwp && RunsAt(states[j], l)
    requires PcOf(states[j], l) == SigTest(c) || PcOf(states[j], l) == BcTest(c)
    ensures QueuedAndMaybeTaken(states, acts, c, u, i, j)
  {
    SleeperGoesOn(states, acts, mu, c, u, i, j);
    var at := RunsAreSafe(states, acts, mu, j);
    NoWakeupIsLost(states[j], at, mu, l, c, u);
  }

  // ---------------------------------------------------------------- broadcast

  /** Inside the loop of uthread_cond_broadcast(c), or past it. */
  predicate Broadcasting(pc: Pc, c: Cid) {
    match pc
    case BcTake(d) => d == c
    case BcTest(d) => d == c
    case BcFree(d) => d == c
    case BcHand(d, _) => d == c
    case WakeTake(_, k) => k == Again(c)
    case WakeTest(_, k) => k == Again(c)
    case WakeFree(k) => k == Again(c)
    case _ => false
  }

  /** How many steps of its own a broadcast has left when n threads wait. */
  function Left(pc: Pc, n: nat): nat {
    match pc
    case BcHand(_, _) => 6 * n + 6
    case WakeTake(_, _) => 6 * n + 5
    case WakeTest(_, _) => 6 * n + 4
    case WakeFree(_) => 6 * n + 3
    case BcTake(_) => 6 * n + 2
    case BcTest(_) => 6 * n + 1
    case _ => 0
  }

  /** The steps that t itself makes from i to j. */
  function OwnSteps(states: seq<State>, acts: seq<Action>, t: Tid, i: nat, j: nat): nat
    requires i <= j <= |acts| <= |states|
    decreases j - i
  {
    if i == j then 0 else
      var s, l := states[j - 1], acts[j - 1].l;
      OwnSteps(states, acts, t, i, j - 1) + if l in s.lwp && s.lwp[l] == Runs(t) then 1 else 0
  }

  /** The rounds in which t itself takes a waiter. */
  function Rounds(states: seq<State>, acts: seq<Action>, t: Tid, c: Cid, i: nat, j: nat): nat
    requires i <= j <= |acts| <= |states|
    decreases j - i
  {
    if i == j then 0 else
      var s, l := states[j - 1], acts[j - 1].l;
      Rounds(states, acts, t, c, i, j - 1) + if Takes(s, l, c) && s.lwp[l] == Runs(t) then 1 else 0
  }

  lemma {:induction false} RoundsTake(states: seq<State>, acts: seq<Action>, t: Tid, c: Cid, i: nat, j: nat)
    requires i <= j <= |acts| <= |states|
    ensures Rounds(states, acts, t, c, i, j) <= |TakenOff(states, acts, c, i, j)|
    decreases j - i
  {
    if i < j { RoundsTake(states, acts, t, c, i, j - 1); }
  }

  /** A thread inside the runtime's code is run by an LWP, and only that LWP changes it. */
  lemma RunningThread(s: State, at: Places, mu: map<Cid, Mid>, t: Tid) returns (l: Lid)
    requires Inv(s, at, mu) && t in s.uth && !s.uth[t].pc.Out?
    ensures l in s.lwp && s.lwp[l] == Runs(t) && t in at && at[t] == OnLwp(l)
  {
    assert ThreadOk(s, at, mu, t);
    l := at[t].l;
    assert LwpOk(s, at, l);
  }

  lemma OneRunner(s: State, at: Places, mu: map<Cid, Mid>, t: Tid, k: Lid, l: Lid)
    requires Inv(s, at, mu) && k in s.lwp && l in s.lwp && s.lwp[k] == Runs(t) && s.lwp[l] == Runs(t)
    ensures k == l
  {
    assert LwpOk(s, at, k) && LwpOk(s, at, l);
    assert Carries(s.lwp[k]) == Carries(s.lwp[l]) == Some(t);
  }

  /** A step of t itself inside its broadcast. */
  lemma OwnBroadcastStep(s: State, l: Lid, call: Call, mu: map<Cid, Mid>, t: Tid, c: Cid)
    requires l in s.lwp && s.lwp[l] == Runs(t) && t in s.uth && Next(s, l, call, mu).Moved?
    requires Broadcasting(s.uth[t].pc, c) && !s.uth[t].pc.BcFree? && c in s.cond
    ensures var s', n := Next(s, l, call, mu).s, |QueueOf(s, CondQ(c))|;
            && t in s'.uth && s'.uth[t].has == s.uth[t].has && Broadcasting(s'.uth[t].pc, c)
            && (s'.uth[t].pc.BcFree? ==> s.uth[t].pc == BcTest(c) && n == 0)
            && 1 + Left(s'.uth[t].pc, if s.uth[t].pc.BcTest? && n > 0 then n - 1 else n) <= Left(s.uth[t].pc, n)
  {
    RunsIs(s, l, t, call, mu);
    hide Queued, Next;
  }

  /** Everything about a broadcast from its first look at the queue, at i, to any
      later moment j inside it: the mutex is kept, nobody joins the queue, those
      taken off are the first of those who waited, and t's own steps are bounded. */
  lemma {:induction false} BroadcastGoesOn(states: seq<State>, acts: seq<Action>, mu: map<Cid, Mid>, t: Tid, c: Cid,
      i: nat, j: nat)
    requires IsRun(states, acts, mu) && i <= j < |states| && c in mu && c in states[i].cond
    requires t in states[i].uth && states[i].uth[t].pc == BcTest(c) && mu[c] in states[i].uth[t].has
    requires forall n :: i <= n <= j ==> t in states[n].uth && Broadcasting(states[n].uth[t].pc, c)
    ensures c in states[j].cond && AllAsleep(states[j], c) && mu[c] in states[j].uth[t].has
    ensures TakenOff(states, acts, c, i, j) + QueueOf(states[j], CondQ(c)) == QueueOf(states[i], CondQ(c))
    ensures OwnSteps(states, acts, t, i, j) + Left(states[j].uth[t].pc, |QueueOf(states[j], CondQ(c))|)
            <= 6 * |QueueOf(states[i], CondQ(c))| + 1
    ensures states[j].uth[t].pc.BcFree? ==> QueueOf(states[j], CondQ(c)) == []
    decreases j - i
  {
    hide Next, Inv, Init, AllAsleep, Left, TakenOff, OwnSteps, Takes;
    if i == j {
      NoCounts(states, acts, t, c, i);
      var at := RunsAreSafe(states, acts, mu, i);
      NobodyDozing(states[i], at, mu, t, c);
    } else {
      BroadcastGoesOn(states, acts, mu, t, c, i, j - 1);
      assert Follows(states[j - 1], acts[j - 1], states[j], mu);
      var at := RunsAreSafe(states, acts, mu, j - 1);
      BroadcastStep(states[j - 1], at, mu, acts[j - 1].l, acts[j - 1].call, t, c);
      CountsGoOn(states, acts, t, c, i, j);
    }
  }

  lemma NoCounts(states: seq<State>, acts: seq<Action>, t: Tid, c: Cid, i: nat)
    requires i <= |acts| < |states|
    ensures OwnSteps(states, acts, t, i, i) == 0 && TakenOff(states, acts, c, i, i) == []
    ensures forall n: nat :: Left(BcTest(c), n) == 6 * n + 1
  {
  }

  lemma CountsGoOn(states: seq<State>, acts: seq<Action>, t: Tid, c: Cid, i: nat, j: nat)
    requires i < j <= |acts| < |states|
    ensures var s, l, q := states[j - 1], acts[j - 1].l, QueueOf(states[j - 1], CondQ(c));
      && OwnSteps(states, acts, t, i, j) ==
           OwnSteps(states, acts, t, i, j - 1) + (if l in s.lwp && s.lwp[l] == Runs(t) then 1 else 0)
      && TakenOff(states, acts, c, i, j) + (if Takes(s, l, c) then q[1..] else q)
        == TakenOff(states, acts, c, i, j - 1) + q
  {
    var q := QueueOf(states[j - 1], CondQ(c));
    assert q != [] ==> q == [q[0]] + q[1..];
  }

  lemma NobodyDozing(s: State, at: Places, mu: map<Cid, Mid>, t: Tid, c: Cid)
    requires Inv(s, at, mu) && t in s.uth && s.uth[t].pc == BcTest(c)
    ensures AllAsleep(s, c)
  {
    var l := RunningThread(s, at, mu, t);
    forall u ensures !FallingAsleep(s, u, c) { NoWakeupIsLost(s, at, mu, l, c, u); }
  }

  /** Any step while t broadcasts. */
  lemma BroadcastStep(s: State, at: Places, mu: map<Cid, Mid>, l: Lid, call: Call, t: Tid, c: Cid)
    requires Inv(s, at, mu) && l in s.lwp && Next(s, l, call, mu).Moved? && c in mu && c in s.cond && AllAsleep(s, c)
    requires t in s.uth && Broadcasting(s.uth[t].pc, c) && mu[c] in s.uth[t].has
    requires s.uth[t].pc.BcFree? ==> QueueOf(s, CondQ(c)) == []
    requires var s' := Next(s, l, call, mu).s; t in s'.uth && Broadcasting(s'.uth[t].pc, c)
    ensures var s' := Next(s, l, call, mu).s;
            && c in s'.cond && AllAsleep(s', c) && mu[c] in s'.uth[t].has
            && QueueOf(s', CondQ(c)) == (if Takes(s, l, c) then QueueOf(s, CondQ(c))[1..] else QueueOf(s, CondQ(c)))
            && (s'.uth[t].pc.BcFree? ==> QueueOf(s', CondQ(c)) == [])
            && (if s.lwp[l] == Runs(t) then 1 else 0) + Left(s'.uth[t].pc, |QueueOf(s', CondQ(c))|)
              <= Left(s.uth[t].pc, |QueueOf(s, CondQ(c))|)
  {
    var k := RunningThread(s, at, mu, t);
    var s' := Next(s, l, call, mu).s;
    CondMoves(s, l, call, mu, c);
    if Puts(s, l, c) { PuttingFalls(s, l, s.lwp[l].t, c); }
    if k == l {
      if s.uth[t].pc.BcFree? { LeavesLoop(s, l, call, mu, t, c); } else { OwnBroadcastStep(s, l, call, mu, t, c); }
    } else {
      if s.lwp[l] == Runs(t) { OneRunner(s, at, mu, t, k, l); }
      StrangerStays(s, at, mu, l, call, t);
    }
    HolderKeepsOthersOut(s, at, mu, l, call, t, c);
  }

  lemma LeavesLoop(s: State, l: Lid, call: Call, mu: map<Cid, Mid>, t: Tid, c: Cid)
    requires l in s.lwp && s.lwp[l] == Runs(t) && t in s.uth && Next(s, l, call, mu).Moved? && s.uth[t].pc == BcFree(c)
    ensures var s' := Next(s, l, call, mu).s; t in s'.uth && !Broadcasting(s'.uth[t].pc, c)
  {
    RunsIs(s, l, t, call, mu);
    hide Queued, Next;
  }

  // ---------------------------------------------------------------- whoever is taken is woken

  /** Between k and j thread w made u, which was waiting, runnable and queued it to run. */
  ghost predicate Woken(states: seq<State>, acts: seq<Action>, w: Tid, u: Tid, k: nat, j: nat)
    requires j < |states| && |states| == |acts| + 1
  {
    exists n :: k < n < j && Wakes(states[n], acts[n].l, states[n + 1], w, u)
  }

  ghost predicate Wakes(s: State, l: Lid, s': State, w: Tid, u: Tid) {
    && l in s.lwp && s.lwp[l] == Runs(w)
    && u in s.uth && u in s'.uth && s.uth[u].state == Wait && s'.uth[u].state == Runnable
    && s.uth[u].prio < |s'.runq| && u in s'.runq[s.uth[u].prio]
  }

  ghost predicate InHandOf(s: State, w: Tid, u: Tid) {
    w in s.uth && Hand(s.uth[w].pc) == Some(u)
  }

  /** Any step keeps u in w's hands, unless it is w's wake-up of u. */
  lemma HandStep(s: State, at: Places, mu: map<Cid, Mid>, l: Lid, call: Call, w: Tid, u: Tid)
    requires Inv(s, at, mu) && l in s.lwp && Next(s, l, call, mu).Moved? && InHandOf(s, w, u)
    ensures var s' := Next(s, l, call, mu).s; InHandOf(s', w, u) || Wakes(s, l, s', w, u)
  {
    var k := RunningThread(s, at, mu, w);
    if k != l {
      StrangerStays(s, at, mu, l, call, w);
    } else if s.uth[w].pc.WakeTest? {
      WakeIsEffective(s, at, mu, l, call);
      HandIsWaiting(s, at, mu, w, u);
    } else {
      OwnHandStep(s, l, call, mu, w);
    }
  }

  lemma HandIsWaiting(s: State, at: Places, mu: map<Cid, Mid>, w: Tid, u: Tid)
    requires Inv(s, at, mu) && InHandOf(s, w, u)
    ensures u in s.uth && s.uth[u].state == Wait
  {
    assert HandOk(s, at, w);
    assert ThreadOk(s, at, mu, u);
  }

  lemma OwnHandStep(s: State, l: Lid, call: Call, mu: map<Cid, Mid>, w: Tid)
    requires l in s.lwp && s.lwp[l] == Runs(w) && w in s.uth && Next(s, l, call, mu).Moved?
    requires Hand(s.uth[w].pc).Some? && !s.uth[w].pc.WakeTest?
    ensures var s' := Next(s, l, call, mu).s; w in s'.uth && Hand(s'.uth[w].pc) == Hand(s.uth[w].pc)
  {
    RunsIs(s, l, w, call, mu);
    hide Queued, Next;
  }

  lemma TakerHolds(s: State, l: Lid, call: Call, mu: map<Cid, Mid>, c: Cid, u: Tid)
    requires TakesThread(s, l, c, u) && Next(s, l, call, mu).Moved?
    ensures InHandOf(Next(s, l, call, mu).s, s.lwp[l].t, u)
  {
    var t := s.lwp[l].t;
    RunsIs(s, l, t, call, mu);
    TakingIs(s, l, t, call, mu);
    hide Next, ThreadStep;
  }

  /** A thread taken off c's queue by w at k is in w's hands until w wakes it. */
  lemma {:induction false} TakenIsWoken(states: seq<State>, acts: seq<Action>, mu: map<Cid, Mid>, c: Cid, w: Tid,
      u: Tid, k: nat, j: nat)
    requires IsRun(states, acts, mu) && k < j < |states|
    requires TakesThread(states[k], acts[k].l, c, u) && states[k].lwp[acts[k].l] == Runs(w)
    ensures InHandOf(states[j], w, u) || Woken(states, acts, w, u, k, j)
    decreases j - k
  {
    var s, l, call := states[j - 1], acts[j - 1].l, acts[j - 1].call;
    assert Follows(s, acts[j - 1], states[j], mu);
    if k + 1 == j {
      TakerHolds(s, l, call, mu, c, u);
    } else {
      TakenIsWoken(states, acts, mu, c, w, u, k, j - 1);
      var at := RunsAreSafe(states, acts, mu, j - 1);
      hide Next, Inv, Init, InHandOf, Wakes, TakesThread;
      if InHandOf(s, w, u) {
        HandStep(s, at, mu, l, call, w, u);
      } else {
        var n :| k < n < j - 1 && Wakes(states[n], acts[n].l, states[n + 1], w, u);
      }
    }
  }

  // ---------------------------------------------------------------- the broadcast as a whole

  /** A broadcast by a thread that has the mutex, from its first look at c's queue at
      i to j, when it is past the loop: in its own rounds and those of other signals
      and broadcasts, exactly the threads that waited at i have been taken off, in
      their order; each one that the broadcast took has been woken, and each that
      another thread took has been or is in that thread's hands; and the broadcast
      has made at most as many rounds as threads waited, and a bounded number of steps. */
  lemma BroadcastWakesExactly(states: seq<State>, acts: seq<Action>, mu: map<Cid, Mid>, t: Tid, c: Cid, i: nat, j: nat)
    requires IsRun(states, acts, mu) && i <= j < |states| && c in mu && c in states[i].cond
    requires t in states[i].uth && states[i].uth[t].pc == BcTest(c) && mu[c] in states[i].uth[t].has
    requires forall n :: i <= n <= j ==> t in states[n].uth && Broadcasting(states[n].uth[t].pc, c)
    requires states[j].uth[t].pc == BcFree(c)
    ensures TakenOff(states, acts, c, i, j) == QueueOf(states[i], CondQ(c)) && QueueOf(states[j], CondQ(c)) == []
    ensures forall k: nat, w: Tid, u: Tid :: i <= k < j && TakenBy(states, acts, c, w, u, k) ==>
              Woken(states, acts, w, u, k, j) || (w != t && InHandOf(states[j], w, u))
  {
    BroadcastGoesOn(states, acts, mu, t, c, i, j);
    forall k: nat, w: Tid, u: Tid | i <= k < j && TakenBy(states, acts, c, w, u, k)
      ensures Woken(states, acts, w, u, k, j) || (w != t && InHandOf(states[j], w, u))
    {
      TakenIsWoken(states, acts, mu, c, w, u, k, j);
    }
  }

  ghost predicate TakenBy(states: seq<State>, acts: seq<Action>, c: Cid, w: Tid, u: Tid, k: nat)
    requires k < |acts| < |states|
  {
    TakesThread(states[k], acts[k].l, c, u) && states[k].lwp[acts[k].l] == Runs(w)
  }

  /** The loop ends: a broadcast by a thread that has the mutex takes at most as many
      threads as waited when it began, and makes at most six steps for each and one. */
  lemma BroadcastEnds(states: seq<State>, acts: seq<Action>, mu: map<Cid, Mid>, t: Tid, c: Cid, i: nat, j: nat)
    requires IsRun(states, acts, mu) && i <= j < |states| && c in mu && c in states[i].cond
    requires t in states[i].uth && states[i].uth[t].pc == BcTest(c) && mu[c] in states[i].uth[t].has
    requires forall n :: i <= n <= j ==> t in states[n].uth && Broadcasting(states[n].uth[t].pc, c)
    ensures Rounds(states, acts, t, c, i, j) <= |QueueOf(states[i], CondQ(c))|
    ensures OwnSteps(states, acts, t, i, j) <= 6 * |QueueOf(states[i], CondQ(c))| + 1
  {
    BroadcastGoesOn(states, acts, mu, t, c, i, j);
    RoundsTake(states, acts, t, c, i, j);
  }
}
