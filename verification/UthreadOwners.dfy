/** No mutex is lost: whoever owns one has it, is about to get it, or is about to give it up. */
module UthreadOwners {
  import opened Uthreads
  import opened UthreadSafety
  import opened UthreadSteps
  import opened UthreadMoves
  import opened UthreadRuns
  import opened UthreadConds
  import opened UthreadDeeds
  import opened UthreadCalls

  /** t's call has taken m and not yet returned, or has not yet given m up. */
  predicate TakingOrGiving(pc: Pc, m: Mid) {
    match pc
    case LockFree(n) => n == m
    case TryFree(n, ok) => n == m && ok
    case UnlTake(n, _) => n == m
    case UnlTest(n, _) => n == m
    case _ => false
  }

  /** t has m, or was handed it while it was away, or is taking or giving it. */
  ghost predicate Accounted(s: State, at: Places, m: Mid, t: Tid) {
    && t in s.uth && t in at
    && (|| m in s.uth[t].has
        || (Handed(s, at, t) && s.uth[t].pc.after.m == m)
        || TakingOrGiving(s.uth[t].pc, m))
  }

  ghost predicate OwnerOk(s: State, at: Places, m: Mid) {
    m in s.mtx && s.mtx[m].owner.Some? ==> Accounted(s, at, m, s.mtx[m].owner.value)
  }

  ghost predicate OwnersOk(s: State, at: Places) {
    forall m {:trigger OwnerOk(s, at, m)} :: OwnerOk(s, at, m)
  }

  /** The owner keeps the mutex, or gives it up in UnlTest. */
  lemma OwnerStays(s: State, at: Places, mu: map<Cid, Mid>, l: Lid, call: Call, m: Mid, t: Tid)
    requires Inv(s, at, mu) && l in s.lwp && Next(s, l, call, mu).Moved? && Accounted(s, at, m, t)
    requires !(s.lwp[l] == Runs(t) && s.uth[t].pc.UnlTest? && s.uth[t].pc.m == m)
    ensures Accounted(Next(s, l, call, mu).s, NextPlaces(s, at, l), m, t)
  {
    hide Inv, Next, NextPlaces, DeedOf, MovesThread;
    StepMoves(s, at, mu, l, call, t);
    if !at[t].OnLwp? { NotRequeued(s, at, mu, l, t); }
    StepKeepsInv(s, at, mu, l, call);
    AccountStays(s, at, mu, Next(s, l, call, mu).s, NextPlaces(s, at, l), l, call, m, t);
  }

  lemma AccountStays(s: State, at: Places, mu: map<Cid, Mid>, s': State, at': Places, l: Lid, call: Call, m: Mid,
      t: Tid)
    requires Inv(s, at, mu) && Inv(s', at', mu) && l in s.lwp
    requires Accounted(s, at, m, t) && MovesThread(s, at, s', at', l, call, t)
    requires !(s.lwp[l] == Runs(t) && s.uth[t].pc.UnlTest? && s.uth[t].pc.m == m)
    requires !at[t].OnLwp? && at'[t] != at[t] ==> !at'[t].OnWait?
    ensures Accounted(s', at', m, t)
  {
    assert ThreadOk(s, at, mu, t) && ThreadOk(s', at', mu, t);
    hide Inv, DeedOf;
  }

  /** Whoever is away is put on a wait queue by nobody else. */
  lemma NotRequeued(s: State, at: Places, mu: map<Cid, Mid>, l: Lid, t: Tid)
    requires Inv(s, at, mu) && l in s.lwp && t in at && !at[t].OnLwp?
    ensures t in NextPlaces(s, at, l)
    ensures NextPlaces(s, at, l)[t] != at[t] ==> !NextPlaces(s, at, l)[t].OnWait?
  {
    assert LwpOk(s, at, l);
  }

  /** A thread that finds the mutex free is its owner, and in the middle of taking it. */
  lemma TakerOwns(s: State, at: Places, mu: map<Cid, Mid>, l: Lid, call: Call, m: Mid, t: Tid)
    requires Inv(s, at, mu) && l in s.lwp && Next(s, l, call, mu).Moved?
    requires DeedOf(s, l) == Some(Deed(t, Acquired(m)))
    ensures Accounted(Next(s, l, call, mu).s, NextPlaces(s, at, l), m, t)
  {
    RunningIs(s, at, mu, l);
    StepMoves(s, at, mu, l, call, t);
    StepKeepsInv(s, at, mu, l, call);
    hide Inv, Next, NextPlaces;
  }

  /** The first waiter, when it becomes the owner, is away and off the queue. */
  lemma HandedOwns(s: State, at: Places, mu: map<Cid, Mid>, l: Lid, call: Call, m: Mid, t: Tid)
    requires Inv(s, at, mu) && l in s.lwp && s.lwp[l].Runs? && s.lwp[l].t in s.uth && Next(s, l, call, mu).Moved?
    requires s.uth[s.lwp[l].t].pc.UnlTest? && s.uth[s.lwp[l].t].pc.m == m && First(QueueOf(s, MtxQ(m))) == Some(t)
    ensures Accounted(Next(s, l, call, mu).s, NextPlaces(s, at, l), m, t)
  {
    var u := s.lwp[l].t;
    assert WaitOk(s, at, MtxQ(m)) && t in QueueOf(s, MtxQ(m));
    assert ThreadOk(s, at, mu, t);
    assert LwpOk(s, at, l);
    RunsIs(s, l, u, call, mu);
    TakingIs(s, l, u, call, mu);
    hide Inv, Next, ThreadStep;
  }

  lemma OwnerStep(s: State, at: Places, mu: map<Cid, Mid>, l: Lid, call: Call, m: Mid)
    requires Inv(s, at, mu) && l in s.lwp && Next(s, l, call, mu).Moved? && OwnerOk(s, at, m)
    ensures OwnerOk(Next(s, l, call, mu).s, NextPlaces(s, at, l), m)
  {
    var s' := Next(s, l, call, mu).s;
    StepDoesDeed(s, at, mu, l, call);
    var d := DeedOf(s, l);
    DeedAtTest(s, l, m);
    hide Next, NextPlaces, Inv, DeedOf;
    if d.Some? && d.value.e == Acquired(m) {
      TakerOwns(s, at, mu, l, call, m, d.value.t);
    } else if d.Some? && d.value.e.Released? && d.value.e.m == m {
      if d.value.e.to.Some? { HandedOwns(s, at, mu, l, call, m, d.value.e.to.value); }
    } else if m in s.mtx && s.mtx[m].owner.Some? {
      OwnerStays(s, at, mu, l, call, m, s.mtx[m].owner.value);
    }
    hide Accounted;
  }

  lemma DeedAtTest(s: State, l: Lid, m: Mid)
    requires l in s.lwp
    ensures var d := DeedOf(s, l);
      && (d.Some? && d.value.e.Released? && d.value.e.m == m ==>
           && s.lwp[l] == Runs(d.value.t) && d.value.t in s.uth
           && s.uth[d.value.t].pc.UnlTest? && s.uth[d.value.t].pc.m == m
           && d.value.e.to == First(QueueOf(s, MtxQ(m))))
      && (s.lwp[l].Runs? && s.lwp[l].t in s.uth && s.uth[s.lwp[l].t].pc.UnlTest? && s.uth[s.lwp[l].t].pc.m == m ==>
           d.Some? && d.value.e.Released? && d.value.e.m == m)
  {
  }

  /** In every run whoever owns a mutex has it, was handed it while it was away, or is
      inside the call that takes it or gives it up. */
  lemma {:induction false} OwnersAreKnown(states: seq<State>, acts: seq<Action>, mu: map<Cid, Mid>, i: nat)
      returns (at: Places)
    requires IsRun(states, acts, mu) && i < |states|
    ensures Inv(states[i], at, mu) && OwnersOk(states[i], at)
  {
    if i == 0 {
      InitIsOk(states[0], mu);
      at := map t | t in states[0].uth :: OnRunQ;
      forall m ensures OwnerOk(states[0], at, m) {}
    } else {
      var before := OwnersAreKnown(states, acts, mu, i - 1);
      assert Follows(states[i - 1], acts[i - 1], states[i], mu);
      hide Init, IsRun, Inv, Next, NextPlaces, OwnerOk;
      var s, l, call := states[i - 1], acts[i - 1].l, acts[i - 1].call;
      StepKeepsInv(s, before, mu, l, call);
      at := NextPlaces(s, before, l);
      forall m ensures OwnerOk(states[i], at, m) {
        assert OwnerOk(s, before, m);
        OwnerStep(s, before, mu, l, call, m);
      }
    }
  }
}
