/** The lock-coupled binary search tree of `db.c` as a step relation.

    Any number of threads run `db_query`, `db_add` and `db_remove` on one tree.
    Every lock, every unlock and every write to a node is one step, and the
    scheduler may interleave the steps of different threads in any order. */
module Database {

  /** A name is its rank in the order of strcmp (see CStrings.Rank). */
  type Name = r: real | 0.0 <= r < 1.0

  type Value = string

  type Tid = nat

  type Ptr = int

  const NULL: Ptr := 0

  /** The address of the statically allocated root, whose name is "". */
  const HEAD: Ptr := 1

  datatype Option<T> = None | Some(value: T)

  datatype Cell = Cell(name: Name, value: Value, left: Ptr, right: Ptr)

  /** A pthread_rwlock_t. */
  datatype RwLock = RwLock(writer: Option<Tid>, readers: set<Tid>)

  const UNLOCKED := RwLock(None, {})

  datatype Op = Query(name: Name) | Add(name: Name, value: Value) | Remove(name: Name)

  datatype Result = Missing | Found(value: Value) | Flag(ok: bool)

  /** Where a thread is. Arguments are its local variables. */
  datatype Pc =
    | Idle
    | Start                                            // wrlock(&head.lock)
    | Look(cur: Ptr)                                   // search: choose a child of cur
    | Lock(cur: Ptr, nx: Ptr)                          // search: lock the child
    | Cmp(cur: Ptr, nx: Ptr)                           // search: compare names
    | Advance(cur: Ptr, nx: Ptr)                       // search: unlock cur, go on at nx
    | QMiss(cur: Ptr)                                  // query: unlock cur, not found
    | QHit(cur: Ptr, nx: Ptr)                          // query: unlock cur, found nx
    | QRead(nx: Ptr)                                   // query: copy the value
    | QDrop(nx: Ptr, res: Result)                      // query: unlock nx
    | AHit(cur: Ptr, nx: Ptr)                          // add: unlock nx
    | AHit2(cur: Ptr)                                  // add: unlock cur
    | AMiss(cur: Ptr)                                  // add: link a new node below cur
    | ADone(cur: Ptr)                                  // add: unlock cur
    | RMiss(cur: Ptr)                                  // remove: unlock cur
    | RHit(par: Ptr, d: Ptr)                           // remove: inspect d's children
    | RUnlP(par: Ptr, d: Ptr)                          // remove: unlock par
    | RUnlD(d: Ptr)                                    // remove: unlock the unlinked node
    | RFree(d: Ptr)                                    // remove: node_destructor
    | RLockN(par: Ptr, d: Ptr, n: Ptr)                 // remove: lock d's right child
    | RWalk(par: Ptr, d: Ptr, p: Ptr, n: Ptr)          // remove: is n the leftmost?
    | RLockL(par: Ptr, d: Ptr, p: Ptr, n: Ptr, l: Ptr) // remove: lock n's left child
    | RUnlN(par: Ptr, d: Ptr, p: Ptr, n: Ptr, l: Ptr)  // remove: unlock n, go on at l
    | RName(par: Ptr, d: Ptr, p: Ptr, n: Ptr)          // remove: copy n's name into d
    | RVal(par: Ptr, d: Ptr, p: Ptr, n: Ptr)           // remove: copy n's value into d
    | RPtr(par: Ptr, d: Ptr, p: Ptr, n: Ptr)           // remove: *pnext = n->rchild
    | R2P(par: Ptr, d: Ptr, n: Ptr)                    // remove: unlock par
    | R2D(d: Ptr, n: Ptr)                              // remove: unlock d
    | Done(res: Result)

  datatype Thread = Thread(op: Op, pc: Pc)

  /** The heap (`locks` holds the lock field of each node) and the threads. */
  datatype State = State(cells: map<Ptr, Cell>, locks: map<Ptr, RwLock>, threads: map<Tid, Thread>)

  /** What the environment chooses: the next command, and what malloc returns. */
  datatype Choice = Choice(op: Op, node: Ptr)

  /** Fault is undefined behaviour: a freed node touched, a lock released by a
      thread that does not hold it, or a node destroyed while still in use. */
  datatype Outcome = Blocked | Fault | Moved(s: State)

  // ---------------------------------------------------------------- locks

  /** The nodes a thread has locked at each point of its code. */
  function Holding(pc: Pc): set<Ptr> {
    match pc
    case Look(cur) => {cur}
    case Lock(cur, nx) => {cur}
    case Cmp(cur, nx) => {cur, nx}
    case Advance(cur, nx) => {cur, nx}
    case QMiss(cur) => {cur}
    case QHit(cur, nx) => {cur, nx}
    case QRead(nx) => {nx}
    case QDrop(nx, _) => {nx}
    case AHit(cur, nx) => {cur, nx}
    case AHit2(cur) => {cur}
    case AMiss(cur) => {cur}
    case ADone(cur) => {cur}
    case RMiss(cur) => {cur}
    case RHit(par, d) => {par, d}
    case RUnlP(par, d) => {par, d}
    case RUnlD(d) => {d}
    case RLockN(par, d, n) => {par, d}
    case RWalk(par, d, p, n) => {par, d, n}
    case RLockL(par, d, p, n, l) => {par, d, n}
    case RUnlN(par, d, p, n, l) => {par, d, n, l}
    case RName(par, d, p, n) => {par, d, n}
    case RVal(par, d, p, n) => {par, d, n}
    case RPtr(par, d, p, n) => {par, d, n}
    case R2P(par, d, n) => {par, d, n}
    case R2D(d, n) => {d, n}
    case _ => {}
  }

  /** The node whose lock the thread's next step acquires. */
  function Wants(pc: Pc): Option<Ptr> {
    match pc
    case Start => Some(HEAD)
    case Lock(_, nx) => Some(nx)
    case RLockN(_, _, n) => Some(n)
    case RLockL(_, _, _, _, l) => Some(l)
    case _ => None
  }

  /** Queries take read locks, except on the head. */
  predicate WriteMode(op: Op, x: Ptr) {
    op.Query? ==> x == HEAD
  }

  predicate CanLock(l: RwLock, write: bool) {
    l.writer.None? && (write ==> l.readers == {})
  }

  function Locked(l: RwLock, t: Tid, write: bool): RwLock {
    if write then l.(writer := Some(t)) else l.(readers := l.readers + {t})
  }

  predicate HeldBy(l: RwLock, t: Tid) {
    l.writer == Some(t) || t in l.readers
  }

  function Unlocked(l: RwLock, t: Tid): RwLock {
    if l.writer == Some(t) then l.(writer := None) else l.(readers := l.readers - {t})
  }

  function Go(s: State, t: Tid, pc: Pc): State
    requires t in s.threads
  {
    s.(threads := s.threads[t := s.threads[t].(pc := pc)])
  }

  function Acquire(s: State, t: Tid, x: Ptr, pc: Pc): Outcome
    requires t in s.threads
  {
    var write := WriteMode(s.threads[t].op, x);
    if x !in s.locks then Fault
    else if !CanLock(s.locks[x], write) then Blocked
    else Moved(Go(s.(locks := s.locks[x := Locked(s.locks[x], t, write)]), t, pc))
  }

  function Release(s: State, t: Tid, x: Ptr, pc: Pc): Outcome
    requires t in s.threads
  {
    if x !in s.locks || !HeldBy(s.locks[x], t) then Fault
    else Moved(Go(s.(locks := s.locks[x := Unlocked(s.locks[x], t)]), t, pc))
  }

  // ---------------------------------------------------------------- steps

  /** The child slot of `cur` that a search for `k` follows. */
  function Child(c: Cell, k: Name): Ptr {
    if k < c.name then c.left else c.right
  }

  function SetChild(c: Cell, k: Name, p: Ptr): Cell {
    if k < c.name then c.(left := p) else c.(right := p)
  }

  function Miss(op: Op, cur: Ptr): Pc {
    match op case Query(_) => QMiss(cur) case Add(_, _) => AMiss(cur) case Remove(_) => RMiss(cur)
  }

  function Hit(op: Op, cur: Ptr, nx: Ptr): Pc {
    match op case Query(_) => QHit(cur, nx) case Add(_, _) => AHit(cur, nx) case Remove(_) => RHit(cur, nx)
  }

  /** Some thread is blocked on, or about to lock, node x. */
  predicate Awaited(s: State, x: Ptr) {
    exists u :: u in s.threads && Wants(s.threads[u].pc) == Some(x)
  }

  /** Replaces d by its only child c below par: the one-child branches of db_remove. */
  function Bypass(s: State, t: Tid, par: Ptr, d: Ptr, c: Ptr): Outcome
    requires t in s.threads && d in s.cells
  {
    if par !in s.cells then Fault
    else Moved(Go(s.(cells := s.cells[par := SetChild(s.cells[par], s.cells[d].name, c)]), t, RUnlP(par, d)))
  }

  /** One step of thread t. */
  function Next(s: State, t: Tid, c: Choice): Outcome
    requires t in s.threads
  {
    var th := s.threads[t];
    var k := th.op.name;
    match th.pc
    case Idle => Moved(s.(threads := s.threads[t := Thread(c.op, Start)]))
    case Start => Acquire(s, t, HEAD, Look(HEAD))
    case Look(cur) =>
      if cur !in s.cells then Fault else
      var nx := Child(s.cells[cur], k);
      Moved(Go(s, t, if nx == NULL then Miss(th.op, cur) else Lock(cur, nx)))
    case Lock(cur, nx) => Acquire(s, t, nx, Cmp(cur, nx))
    case Cmp(cur, nx) =>
      if nx !in s.cells then Fault else
      Moved(Go(s, t, if k == s.cells[nx].name then Hit(th.op, cur, nx) else Advance(cur, nx)))
    case Advance(cur, nx) => Release(s, t, cur, Look(nx))
    case QMiss(cur) => Release(s, t, cur, Done(Missing))
    case QHit(cur, nx) => Release(s, t, cur, QRead(nx))
    case QRead(nx) =>
      if nx !in s.cells then Fault else Moved(Go(s, t, QDrop(nx, Found(s.cells[nx].value))))
    case QDrop(nx, res) => Release(s, t, nx, Done(res))
    case AHit(cur, nx) => Release(s, t, nx, AHit2(cur))
    case AHit2(cur) => Release(s, t, cur, Done(Flag(false)))
    case AMiss(cur) =>
      if cur !in s.cells || !th.op.Add? then Fault
      else if c.node in s.cells || c.node == NULL then Blocked  // malloc never returns these
      else
        var grown := s.cells[c.node := Cell(k, th.op.value, NULL, NULL)];
        var linked := grown[cur := SetChild(s.cells[cur], k, c.node)];
        Moved(Go(s.(cells := linked, locks := s.locks[c.node := UNLOCKED]), t, ADone(cur)))
    case ADone(cur) => Release(s, t, cur, Done(Flag(true)))
    case RMiss(cur) => Release(s, t, cur, Done(Flag(false)))
    case RHit(par, d) =>
      if d !in s.cells then Fault
      else if s.cells[d].right == NULL then Bypass(s, t, par, d, s.cells[d].left)
      else if s.cells[d].left == NULL then Bypass(s, t, par, d, s.cells[d].right)
      else Moved(Go(s, t, RLockN(par, d, s.cells[d].right)))
    case RUnlP(par, d) => Release(s, t, par, RUnlD(d))
    case RUnlD(d) => Release(s, t, d, RFree(d))
    case RFree(d) =>
      if d !in s.cells || d !in s.locks || s.locks[d] != UNLOCKED || Awaited(s, d) then Fault
      else Moved(Go(s.(cells := s.cells - {d}, locks := s.locks - {d}), t, Done(Flag(true))))
    case RLockN(par, d, n) => Acquire(s, t, n, RWalk(par, d, d, n))
    case RWalk(par, d, p, n) =>
      if n !in s.cells then Fault else
      var l := s.cells[n].left;
      Moved(Go(s, t, if l == NULL then RName(par, d, p, n) else RLockL(par, d, p, n, l)))
    case RLockL(par, d, p, n, l) => Acquire(s, t, l, RUnlN(par, d, p, n, l))
    case RUnlN(par, d, p, n, l) => Release(s, t, n, RWalk(par, d, n, l))
    case RName(par, d, p, n) =>
      if d !in s.cells || n !in s.cells then Fault else
      Moved(Go(s.(cells := s.cells[d := s.cells[d].(name := s.cells[n].name)]), t, RVal(par, d, p, n)))
    case RVal(par, d, p, n) =>
      if d !in s.cells || n !in s.cells then Fault else
      Moved(Go(s.(cells := s.cells[d := s.cells[d].(value := s.cells[n].value)]), t, RPtr(par, d, p, n)))
    case RPtr(par, d, p, n) =>
      if p !in s.cells || n !in s.cells then Fault else
      var r := s.cells[n].right;
      var cell := if p == d then s.cells[p].(right := r) else s.cells[p].(left := r);
      Moved(Go(s.(cells := s.cells[p := cell]), t, R2P(par, d, n)))
    case R2P(par, d, n) => Release(s, t, par, R2D(d, n))
    case R2D(d, n) => Release(s, t, d, RUnlD(n))
    case Done(_) => Moved(Go(s, t, Idle))
  }

  /** An empty tree: only the head, no lock held, no thread running. */
  predicate Init(s: State) {
    && s.cells == map[HEAD := Cell(0.0, "", NULL, NULL)]
    && s.locks == map[HEAD := UNLOCKED]
    && forall t :: t in s.threads ==> s.threads[t].pc == Idle
  }
}
