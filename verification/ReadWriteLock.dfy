/** The reader/writer lock: any number of threads, each at some point of opening
    or closing a guard, over a shared mutex, four counters, and a list of holders
    behind a spin lock.  One step is one access to shared state. */
module ReadWriteLock {
  import opened Seqs
  import opened Wrappers

  type Tid = nat

  datatype Mode = R | W

  /** What a guard being opened asks first: does this thread hold `asked`? */
  datatype Query = Query(opening: Mode, asked: Mode)

  datatype Pc =
    | Out
    // does the thread hold it already?
    | CountTest(q: Query)
    | QuerySpin(q: Query)
    | QueryScan(q: Query, i: nat)
    | QueryDrop(q: Query, yes: bool)
    | Peek(i: nat)
    // opening
    | WaitUp(m: Mode)
    | Acquire(m: Mode)
    | NoWriters(m: Mode)
    | NoReaders
    | WaitDown(m: Mode)
    | CountUp(m: Mode)
    | PushSpin(m: Mode)
    | DupScan(i: nat)
    | Push(m: Mode)
    | PushDrop(m: Mode)
    // closing
    | OwnTest(m: Mode)
    | OtherTest(m: Mode)
    | SoleTest
    | EraseSpin(m: Mode)
    | EraseScan(m: Mode, i: nat, found: Option<nat>)
    | Erase(m: Mode, found: Option<nat>)
    | EraseDrop(m: Mode)
    | CountDown(m: Mode)
    | Release(m: Mode)
    // a check has failed
    | Fatal

  /** `hold` is the mode in which the thread has the mutex. */
  datatype Hold = Free | Has(m: Mode)

  datatype Thread = Thread(hold: Hold, pc: Pc)

  datatype Holder = Holder(thread: Tid, mode: Mode)

  datatype Lock = Lock(
    threads: map<Tid, Thread>,
    mutexShared: set<Tid>, mutexExclusive: set<Tid>,
    readers: int, writers: int, readWaiters: int, writeWaiters: int,
    metaLock: bool, holders: seq<Holder>)

  /* ---- the steps ---- */

  datatype Act = OpenRead | OpenWrite | Close

  /** No guard is upgraded, and only a guard that locked is closed. */
  predicate Allowed(th: Thread, act: Act) {
    match act
    case OpenRead => true
    case OpenWrite => th.hold != Has(R)
    case Close => th.hold != Free
  }

  function Begin(th: Thread, act: Act): Pc {
    match act
    case OpenRead => CountTest(Query(R, W))
    case OpenWrite => CountTest(Query(W, R))
    case Close => if th.hold == Free then Out else OwnTest(th.hold.m)
  }

  function Counter(s: Lock, m: Mode): int {
    if m == R then s.readers else s.writers
  }

  /** What one step does to the shared state; `pc` is where its thread goes. */
  datatype Effect =
    | Stay  // the thread waits
    | Go(pc: Pc)
    | TakeMeta(pc: Pc)
    | DropMeta(pc: Pc)
    | AddWaiters(m: Mode, d: int, pc: Pc)
    | AddCounter(m: Mode, d: int, pc: Pc)
    | LockMutex(m: Mode, pc: Pc)
    | UnlockMutex(m: Mode, pc: Pc)
    | Append(m: Mode, pc: Pc)
    | Cut(i: nat, pc: Pc)

  /** Where a thread goes with the answer.  A guard opened by a thread that holds
      the lock already is nested: it does not lock, nor will it unlock. */
  function Answered(q: Query, yes: bool): Pc {
    if q.opening == R then
      if q.asked == W then (if yes then Peek(0) else CountTest(Query(R, R)))
      else if yes then Out else WaitUp(R)
    else
      if q.asked == R then (if yes then Fatal else CountTest(Query(W, W)))
      else if yes then Out else WaitUp(W)
  }

  /** The spin lock is taken if it can be. */
  function Spin(s: Lock, pc: Pc): Effect {
    if s.metaLock then Stay else TakeMeta(pc)
  }

  /** Opening: whether the thread may hold it already. */
  function Asked(s: Lock, pc: Pc): Effect {
    match pc
    case CountTest(q) => Go(if Counter(s, q.asked) == 0 then Answered(q, false) else QuerySpin(q))
    case QuerySpin(q) => Spin(s, QueryScan(q, 0))
    // the debug build looks up the writer, without the spin lock
    case Peek(i) => Go(if i >= |s.holders| then Out else Peek(i + 1))
    case _ => Stay
  }

  /** Whether it is on the list of holders. */
  function Scanned(s: Lock, t: Tid, pc: Pc): Effect {
    match pc
    case QueryScan(q, i) =>
      Go(if i >= |s.holders| then QueryDrop(q, false)
         else if s.holders[i] == Holder(t, q.asked) then QueryDrop(q, true)
         else QueryScan(q, i + 1))
    case QueryDrop(q, yes) => DropMeta(Answered(q, yes))
    case _ => Stay
  }

  /** Opening, as far as the counter. */
  function Locked(s: Lock, pc: Pc): Effect {
    match pc
    case WaitUp(m) => AddWaiters(m, 1, Acquire(m))
    case Acquire(m) =>
      if s.mutexExclusive == {} && (m == R || s.mutexShared == {}) then LockMutex(m, NoWriters(m)) else Stay
    case WaitDown(m) => AddWaiters(m, -1, CountUp(m))
    case CountUp(m) => AddCounter(m, 1, PushSpin(m))
    case _ => Stay
  }

  /** Opening: that the counters are as they should be. */
  function Cleared(s: Lock, pc: Pc): Effect {
    match pc
    case NoWriters(m) => Go(if s.writers != 0 then Fatal else if m == R then WaitDown(R) else NoReaders)
    case NoReaders => Go(if s.readers != 0 then Fatal else WaitDown(W))
    case _ => Stay
  }

  /** Getting onto the list of holders. */
  function Enrolled(s: Lock, t: Tid, pc: Pc): Effect {
    match pc
    case PushSpin(m) => Spin(s, if m == R then DupScan(0) else Push(W))
    case DupScan(i) =>
      Go(if i >= |s.holders| then Push(R) else if s.holders[i].thread == t then Fatal else DupScan(i + 1))
    case Push(m) => Append(m, PushDrop(m))
    case PushDrop(m) => DropMeta(Out)
    case _ => Stay
  }

  /** Closing: that the counters are as they should be. */
  function Tested(s: Lock, pc: Pc): Effect {
    match pc
    case OwnTest(m) => Go(if Counter(s, m) == 0 then Fatal else OtherTest(m))
    case OtherTest(m) =>
      Go(if Counter(s, if m == R then W else R) != 0 then Fatal else if m == R then EraseSpin(R) else SoleTest)
    case SoleTest => Go(if s.writers != 1 then Fatal else EraseSpin(W))
    case _ => Stay
  }

  /** Getting off the list of holders. */
  function Struck(s: Lock, t: Tid, pc: Pc): Effect {
    match pc
    case EraseSpin(m) => Spin(s, EraseScan(m, 0, None))
    case EraseScan(m, i, found) =>
      Go(if i >= |s.holders| then Erase(m, found)
         else if s.holders[i] != Holder(t, m) then EraseScan(m, i + 1, found)
         else if found != None then Fatal
         else EraseScan(m, i + 1, Some(i)))
    case Erase(m, found) =>
      if found == None || found.value >= |s.holders| then Go(Fatal) else Cut(found.value, EraseDrop(m))
    case EraseDrop(m) => DropMeta(CountDown(m))
    case _ => Stay
  }

  /** And the counter and the mutex. */
  function Unlocked(s: Lock, pc: Pc): Effect {
    match pc
    case CountDown(m) => AddCounter(m, -1, Release(m))
    case Release(m) => UnlockMutex(m, Out)
    case _ => Stay
  }

  predicate Asking(pc: Pc) {
    pc.CountTest? || pc.QuerySpin? || pc.Peek?
  }

  predicate Scanning(pc: Pc) {
    pc.QueryScan? || pc.QueryDrop?
  }

  predicate Locking(pc: Pc) {
    pc.WaitUp? || pc.Acquire? || pc.WaitDown? || pc.CountUp?
  }

  predicate Clearing(pc: Pc) {
    pc.NoWriters? || pc.NoReaders?
  }

  predicate Enrolling(pc: Pc) {
    pc.PushSpin? || pc.DupScan? || pc.Push? || pc.PushDrop?
  }

  predicate Testing(pc: Pc) {
    pc.OwnTest? || pc.OtherTest? || pc.SoleTest?
  }

  predicate Striking(pc: Pc) {
    pc.EraseSpin? || pc.EraseScan? || pc.Erase? || pc.EraseDrop?
  }

  function EffectOf(s: Lock, t: Tid, th: Thread, act: Act): Effect {
    if th.pc.Out? then (if Allowed(th, act) then Go(Begin(th, act)) else Stay)
    else if Asking(th.pc) then Asked(s, th.pc)
    else if Scanning(th.pc) then Scanned(s, t, th.pc)
    else if Locking(th.pc) then Locked(s, th.pc)
    else if Clearing(th.pc) then Cleared(s, th.pc)
    else if Enrolling(th.pc) then Enrolled(s, t, th.pc)
    else if Testing(th.pc) then Tested(s, th.pc)
    else if Striking(th.pc) then Struck(s, t, th.pc)
    else Unlocked(s, th.pc)
  }

  /** The thread itself after a step. */
  function Moved(th: Thread, e: Effect): Thread {
    match e
    case Stay => th
    case LockMutex(m, pc) => Thread(Has(m), pc)
    case UnlockMutex(_, pc) => Thread(Free, pc)
    case _ => th.(pc := e.pc)
  }

  /** The shared state after a step, which is all of it but the threads. */
  function Shared(s: Lock, t: Tid, e: Effect): Lock {
    match e
    case Stay => s
    case Go(_) => s
    case TakeMeta(_) => s.(metaLock := true)
    case DropMeta(_) => s.(metaLock := false)
    case AddWaiters(m, d, _) =>
      if m == R then s.(readWaiters := s.readWaiters + d) else s.(writeWaiters := s.writeWaiters + d)
    case AddCounter(m, d, _) => if m == R then s.(readers := s.readers + d) else s.(writers := s.writers + d)
    case LockMutex(m, _) =>
      if m == R then s.(mutexShared := s.mutexShared + {t}) else s.(mutexExclusive := s.mutexExclusive + {t})
    case UnlockMutex(m, _) =>
      if m == R then s.(mutexShared := s.mutexShared - {t}) else s.(mutexExclusive := s.mutexExclusive - {t})
    case Append(m, _) => s.(holders := s.holders + [Holder(t, m)])
    case Cut(i, _) => if i < |s.holders| then s.(holders := RemoveAt(s.holders, i)) else s
  }

  function Do(s: Lock, t: Tid, e: Effect): Lock
    requires t in s.threads
  {
    Shared(s, t, e).(threads := s.threads[t := Moved(s.threads[t], e)])
  }

  /** Thread `t` does its next step; `act` is what it starts if it is in no call. */
  function Step(s: Lock, t: Tid, act: Act): Lock {
    if t in s.threads then Do(s, t, EffectOf(s, t, s.threads[t], act)) else s
  }

  /* ---- the invariant ---- */

  /** Kinds of threads that something is counted over. */
  datatype Kind = Holding(m: Mode) | Counted(m: Mode) | Waiting(m: Mode) | Critical

  predicate Is(k: Kind, th: Thread) {
    match k
    case Holding(m) => th.hold == Has(m)
    case Counted(m) => th.hold == Has(m) && IsCounted(th.pc)
    case Waiting(m) => IsWaiting(th.pc, m)
    case Critical => IsCritical(th.pc)
  }

  /** Of a thread that has the mutex: whether the counter says so. */
  predicate IsCounted(pc: Pc) {
    !pc.NoWriters? && !pc.NoReaders? && !pc.WaitDown? && !pc.CountUp? && !pc.Release?
  }

  /** Of a thread that is counted: whether it is in the list of holders. */
  predicate IsListed(pc: Pc) {
    !pc.PushSpin? && !pc.DupScan? && !pc.Push? && !pc.EraseDrop? && !pc.CountDown?
  }

  predicate IsWaiting(pc: Pc, m: Mode) {
    || pc == Acquire(m) || pc == NoWriters(m) || (m == W && pc.NoReaders?) || pc == WaitDown(m)
  }

  predicate IsCritical(pc: Pc) {
    || pc.QueryScan? || pc.QueryDrop? || pc.DupScan? || pc.Push? || pc.PushDrop?
    || pc.EraseScan? || pc.Erase? || pc.EraseDrop?
  }

  predicate Listed(th: Thread, m: Mode) {
    th.hold == Has(m) && IsCounted(th.pc) && IsListed(th.pc)
  }

  ghost function Those(k: Kind, ths: map<Tid, Thread>): set<Tid> {
    set t <- ths | Is(k, ths[t])
  }

  ghost predicate Exclusive(ths: map<Tid, Thread>) {
    forall t <- ths, u <- ths :: ths[t].hold == Has(W) && t != u ==> ths[u].hold == Free
  }

  ghost predicate MutexTrue(s: Lock) {
    && s.mutexShared == Those(Holding(R), s.threads)
    && s.mutexExclusive == Those(Holding(W), s.threads)
  }

  ghost predicate Counts(s: Lock) {
    && s.readers == |Those(Counted(R), s.threads)|
    && s.writers == |Those(Counted(W), s.threads)|
    && s.readWaiters == |Those(Waiting(R), s.threads)|
    && s.writeWaiters == |Those(Waiting(W), s.threads)|
    && |Those(Critical, s.threads)| == if s.metaLock then 1 else 0
  }

  /** One entry for each thread listed, and no other. */
  ghost predicate Rolled(s: Lock) {
    && (forall i, j | 0 <= i < j < |s.holders| :: s.holders[i].thread != s.holders[j].thread)
    && (forall e <- s.holders :: e.thread in s.threads && Listed(s.threads[e.thread], e.mode))
    && (forall t <- s.threads, m | Listed(s.threads[t], m) :: Holder(t, m) in s.holders)
  }

  /** Where a thread can be, given what it holds. */
  predicate Fits(th: Thread) {
    match th.pc
    case Out => true
    case CountTest(q) => FitsQuery(th.hold, q)
    case QuerySpin(q) => FitsQuery(th.hold, q)
    case QueryScan(q, _) => FitsQuery(th.hold, q)
    case QueryDrop(q, yes) => FitsQuery(th.hold, q) && (yes <==> th.hold == Has(q.asked))
    case Peek(_) => th.hold == Has(W)
    case WaitUp(m) => th.hold == Free
    case Acquire(m) => th.hold == Free
    case NoReaders => th.hold == Has(W)
    case DupScan(_) => th.hold == Has(R)
    case SoleTest => th.hold == Has(W)
    case Fatal => false
    case _ => th.hold == Has(th.pc.m)
  }

  predicate FitsQuery(hold: Hold, q: Query) {
    && (q.opening == W ==> hold != Has(R))
    && (q == Query(R, R) ==> hold != Has(W))
  }

  /** What a thread going through the list of holders has found so far. */
  predicate Searched(s: Lock, t: Tid)
    requires t in s.threads
  {
    match s.threads[t].pc
    case QueryScan(q, i) => i <= |s.holders| && Holder(t, q.asked) !in s.holders[..i]
    case EraseScan(m, i, found) => i <= |s.holders| && FoundIn(s.holders[..i], Holder(t, m), found)
    case Erase(m, found) => FoundIn(s.holders, Holder(t, m), found)
    case _ => true
  }

  predicate FoundIn(hs: seq<Holder>, h: Holder, found: Option<nat>) {
    && (found == None ==> h !in hs)
    && (found != None ==> found.value < |hs| && hs[found.value] == h)
  }

  ghost predicate Inv(s: Lock) {
    && Exclusive(s.threads) && MutexTrue(s) && Counts(s) && Rolled(s)
    && (forall t <- s.threads :: Fits(s.threads[t]))
    && (forall t <- s.threads :: Searched(s, t))
  }

  const Fresh := Thread(Free, Out)

  /** Nobody has done anything yet. */
  ghost predicate Initial(s: Lock) {
    && (forall t <- s.threads :: s.threads[t] == Fresh)
    && s == Lock(s.threads, {}, {}, 0, 0, 0, 0, false, [])
  }

  lemma InitialInv(s: Lock)
    requires Initial(s)
    ensures Inv(s)
  {
    assert Those(Holding(R), s.threads) == {} && Those(Holding(W), s.threads) == {};
    assert Those(Counted(R), s.threads) == {} && Those(Counted(W), s.threads) == {};
    assert Those(Waiting(R), s.threads) == {} && Those(Waiting(W), s.threads) == {};
    assert Those(Critical, s.threads) == {};
  }

  /* ---- counting over one thread's move ---- */

  function One(b: bool): int {
    if b then 1 else 0
  }

  lemma KindMoved(k: Kind, ths: map<Tid, Thread>, t: Tid, x: Thread)
    requires t in ths
    ensures Those(k, ths[t := x]) == if Is(k, x) then Those(k, ths) + {t} else Those(k, ths) - {t}
  {
  }

  predicate Shifts(th: Thread, x: Thread, k: Kind, d: int) {
    One(Is(k, x)) == One(Is(k, th)) + d
  }

  lemma CountMoved(k: Kind, ths: map<Tid, Thread>, t: Tid, x: Thread, d: int)
    requires t in ths && Shifts(ths[t], x, k, d)
    ensures |Those(k, ths[t := x])| == |Those(k, ths)| + d
  {
    KindMoved(k, ths, t, x);
    assert t in Those(k, ths) <==> Is(k, ths[t]);
  }

  /* ---- what the invariant says to the checks ---- */

  lemma Disjoint(s: Lock, t: Tid)
    requires Exclusive(s.threads) && t in s.threads
    ensures s.threads[t].hold == Has(R) ==> Those(Holding(W), s.threads) == {}
    ensures s.threads[t].hold == Has(W) ==> Those(Holding(W), s.threads) == {t} && Those(Holding(R), s.threads) == {}
  {
  }

  lemma CountedHold(ths: map<Tid, Thread>, m: Mode)
    ensures Those(Counted(m), ths) <= Those(Holding(m), ths)
  {
  }

  lemma CountersTrue(s: Lock, t: Tid)
    requires Exclusive(s.threads) && Counts(s) && t in s.threads
    ensures CountersTell(s, s.threads[t])
  {
    var th := s.threads[t];
    Disjoint(s, t);
    CountedHold(s.threads, R);
    CountedHold(s.threads, W);
    if Is(Counted(R), th) {
      assert t in Those(Counted(R), s.threads);
    }
    if th.hold == Has(W) {
      assert Those(Counted(R), s.threads) == {};
      assert Those(Counted(W), s.threads) == if IsCounted(th.pc) then {t} else {};
    }
    if th.hold == Has(R) {
      assert Those(Counted(W), s.threads) == {};
    }
  }

  lemma OnlyOneCritical(s: Lock, t: Tid, u: Tid)
    requires Counts(s) && t in s.threads && u in s.threads
    requires IsCritical(s.threads[t].pc) && IsCritical(s.threads[u].pc)
    ensures t == u && s.metaLock
  {
    var those := Those(Critical, s.threads);
    assert {t, u} <= those && |those - {t, u}| == |those| - |{t, u}|;
  }

  lemma ListTrue(s: Lock, t: Tid)
    requires Rolled(s) && t in s.threads
    ensures ListTells(s, t, s.threads[t])
  {
    forall i | 0 <= i < |s.holders| && s.holders[i].thread == t ensures Listed(s.threads[t], s.holders[i].mode) {
      assert s.holders[i] in s.holders;
    }
  }

  /* ---- a step does what it should, and no check fails ---- */

  /** The effect moves the thread from one kind to another just as it changes
      what counts them. */
  predicate Legal(th: Thread, e: Effect) {
    && Fits(Moved(th, e)) && Tallied(th, Moved(th, e), e)
    && (e.LockMutex? ==> th.hold == Free) && (e.UnlockMutex? ==> th.hold == Has(e.m))
  }

  predicate Tallied(th: Thread, x: Thread, e: Effect) {
    && Shifts(th, x, Waiting(R), if e.AddWaiters? && e.m == R then e.d else 0)
    && Shifts(th, x, Waiting(W), if e.AddWaiters? && e.m == W then e.d else 0)
    && Shifts(th, x, Counted(R), if e.AddCounter? && e.m == R then e.d else 0)
    && Shifts(th, x, Counted(W), if e.AddCounter? && e.m == W then e.d else 0)
    && Shifts(th, x, Critical, if e.TakeMeta? then 1 else if e.DropMeta? then -1 else 0)
  }

  /** What the counters tell a thread. */
  predicate CountersTell(s: Lock, th: Thread) {
    && (th.hold == Has(R) ==> s.writers == 0)
    && (th.hold == Has(W) ==> s.readers == 0 && s.writers == One(IsCounted(th.pc)))
    && (Is(Counted(R), th) ==> s.readers > 0)
  }

  /** What the list of holders tells a thread. */
  ghost predicate ListTells(s: Lock, t: Tid, th: Thread) {
    && (forall i | 0 <= i < |s.holders| && s.holders[i].thread == t :: Listed(th, s.holders[i].mode))
    && (Listed(th, R) ==> Holder(t, R) in s.holders)
    && (Listed(th, W) ==> Holder(t, W) in s.holders)
    && (forall i, j | 0 <= i < j < |s.holders| :: s.holders[i].thread != s.holders[j].thread)
  }

  lemma AnsweredFits(th: Thread, q: Query, yes: bool)
    requires FitsQuery(th.hold, q) && (yes <==> th.hold == Has(q.asked))
    ensures Fits(th.(pc := Answered(q, yes))) && Steady(Answered(q, yes))
  {
    assert th.hold == Free || th.hold.m == R || th.hold.m == W;
  }

  /** Where a thread is neither waiting, nor in the critical part, and counted. */
  predicate Steady(pc: Pc) {
    pc.Out? || pc.CountTest? || pc.QuerySpin? || pc.Peek? || pc.WaitUp?
  }

  lemma AskedLegal(s: Lock, th: Thread)
    requires Fits(th) && CountersTell(s, th) && Asking(th.pc)
    ensures Legal(th, Asked(s, th.pc))
  {
    if th.pc.CountTest? && Counter(s, th.pc.q.asked) == 0 {
      assert th.pc.q.asked == R || th.pc.q.asked == W;
      AnsweredFits(th, th.pc.q, false);
    }
  }

  lemma ScannedTallied(s: Lock, t: Tid, th: Thread)
    requires Fits(th) && Scanning(th.pc)
    ensures var e := Scanned(s, t, th.pc); e == Go(Fatal) || Tallied(th, Moved(th, e), e)
  {
  }

  lemma ScannedLegal(s: Lock, t: Tid, th: Thread)
    requires Fits(th) && ListTells(s, t, th) && Scanning(th.pc)
    requires th.pc.QueryScan? ==> th.pc.i <= |s.holders| && Holder(t, th.pc.q.asked) !in s.holders[..th.pc.i]
    ensures Legal(th, Scanned(s, t, th.pc))
  {
    hide Tallied;
    ScannedTallied(s, t, th);
    match th.pc
    case QueryScan(q, i) =>
      assert q.asked == R || q.asked == W;
      assert i == |s.holders| ==> s.holders[..i] == s.holders;
    case QueryDrop(q, yes) => AnsweredFits(th, q, yes);
  }

  lemma LockedWaits(s: Lock, th: Thread, m: Mode)
    requires Fits(th) && Locking(th.pc)
    ensures var e := Locked(s, th.pc);
      Shifts(th, Moved(th, e), Waiting(m), if e.AddWaiters? && e.m == m then e.d else 0)
  {
  }

  lemma LockedCounts(s: Lock, th: Thread, m: Mode)
    requires Fits(th) && Locking(th.pc)
    ensures var e := Locked(s, th.pc);
      Shifts(th, Moved(th, e), Counted(m), if e.AddCounter? && e.m == m then e.d else 0)
    ensures Shifts(th, Moved(th, Locked(s, th.pc)), Critical, 0)
  {
  }

  lemma LockedTallied(s: Lock, th: Thread)
    requires Fits(th) && Locking(th.pc)
    ensures Tallied(th, Moved(th, Locked(s, th.pc)), Locked(s, th.pc))
  {
    hide Shifts, Fits;
    LockedWaits(s, th, R);
    LockedWaits(s, th, W);
    LockedCounts(s, th, R);
    LockedCounts(s, th, W);
  }

  lemma LockedLegal(s: Lock, th: Thread)
    requires Fits(th) && Locking(th.pc)
    ensures Legal(th, Locked(s, th.pc))
  {
    hide Tallied;
    LockedTallied(s, th);
  }

  lemma ClearedLegal(s: Lock, th: Thread)
    requires Fits(th) && CountersTell(s, th) && Clearing(th.pc)
    ensures Legal(th, Cleared(s, th.pc))
  {
    assert th.pc.NoWriters? ==> th.pc.m == R || th.pc.m == W;
  }

  lemma EnrolledTallied(s: Lock, t: Tid, th: Thread)
    requires Fits(th) && Enrolling(th.pc)
    ensures var e := Enrolled(s, t, th.pc); e == Go(Fatal) || Tallied(th, Moved(th, e), e)
  {
  }

  lemma EnrolledLegal(s: Lock, t: Tid, th: Thread)
    requires Fits(th) && ListTells(s, t, th) && Enrolling(th.pc)
    ensures Legal(th, Enrolled(s, t, th.pc))
  {
    hide Tallied;
    EnrolledTallied(s, t, th);
  }

  lemma TestedLegal(s: Lock, th: Thread)
    requires Fits(th) && CountersTell(s, th) && Testing(th.pc)
    ensures Legal(th, Tested(s, th.pc))
  {
    hide Tallied;
    TestedTallied(s, th);
    assert !th.pc.SoleTest? ==> th.pc.m == R || th.pc.m == W;
  }

  lemma TestedTallied(s: Lock, th: Thread)
    requires Fits(th) && Testing(th.pc)
    ensures var e := Tested(s, th.pc); e == Go(Fatal) || Tallied(th, Moved(th, e), e)
  {
  }

  lemma StruckTallied(s: Lock, t: Tid, th: Thread)
    requires Fits(th) && Striking(th.pc)
    ensures var e := Struck(s, t, th.pc); e == Go(Fatal) || Tallied(th, Moved(th, e), e)
  {
  }

  lemma StruckLegal(s: Lock, t: Tid, th: Thread)
    requires Fits(th) && ListTells(s, t, th) && Striking(th.pc)
    requires th.pc.EraseScan? ==>
             th.pc.i <= |s.holders| && FoundIn(s.holders[..th.pc.i], Holder(t, th.pc.m), th.pc.found)
    requires th.pc.Erase? ==> FoundIn(s.holders, Holder(t, th.pc.m), th.pc.found)
    ensures Legal(th, Struck(s, t, th.pc))
  {
    hide Tallied;
    StruckTallied(s, t, th);
    hide RemoveAt, NoDup;
    assert th.pc.Erase? ==> th.pc.m == R || th.pc.m == W;
  }

  lemma UnlockedTallied(s: Lock, th: Thread)
    requires Fits(th) && (th.pc.CountDown? || th.pc.Release?)
    ensures Tallied(th, Moved(th, Unlocked(s, th.pc)), Unlocked(s, th.pc))
  {
  }

  lemma UnlockedLegal(s: Lock, th: Thread)
    requires Fits(th) && (th.pc.CountDown? || th.pc.Release?)
    ensures Legal(th, Unlocked(s, th.pc))
  {
    hide Tallied;
    UnlockedTallied(s, th);
  }

  /** Whatever a thread does next, no check of it fails. */
  lemma StepLegal(s: Lock, t: Tid, act: Act)
    requires Inv(s) && t in s.threads
    ensures Legal(s.threads[t], EffectOf(s, t, s.threads[t], act))
  {
    var th := s.threads[t];
    CountersTrue(s, t);
    ListTrue(s, t);
    assert Searched(s, t);
    if Asking(th.pc) { AskedLegal(s, th); }
    else if Scanning(th.pc) { ScannedLegal(s, t, th); }
    else if Locking(th.pc) { LockedLegal(s, th); }
    else if Clearing(th.pc) { ClearedLegal(s, th); }
    else if Enrolling(th.pc) { EnrolledLegal(s, t, th); }
    else if Testing(th.pc) { TestedLegal(s, th); }
    else if Striking(th.pc) { StruckLegal(s, t, th); }
    else if th.pc.Out? { BegunLegal(th, act); }
    else { UnlockedLegal(s, th); }
  }

  lemma BegunLegal(th: Thread, act: Act)
    requires th.pc.Out?
    ensures Legal(th, if Allowed(th, act) then Go(Begin(th, act)) else Stay)
  {
  }

  /* ---- every step keeps the invariant ---- */

  lemma CountsKeep(s: Lock, t: Tid, x: Thread, e: Effect)
    requires Counts(s) && t in s.threads && Tallied(s.threads[t], x, e)
    requires e.TakeMeta? ==> !s.metaLock
    requires IsCritical(s.threads[t].pc) ==> s.metaLock
    ensures Counts(Shared(s, t, e).(threads := s.threads[t := x]))
  {
    CountMoved(Waiting(R), s.threads, t, x, if e.AddWaiters? && e.m == R then e.d else 0);
    CountMoved(Waiting(W), s.threads, t, x, if e.AddWaiters? && e.m == W then e.d else 0);
    CountMoved(Counted(R), s.threads, t, x, if e.AddCounter? && e.m == R then e.d else 0);
    CountMoved(Counted(W), s.threads, t, x, if e.AddCounter? && e.m == W then e.d else 0);
    CountMoved(Critical, s.threads, t, x, if e.TakeMeta? then 1 else if e.DropMeta? then -1 else 0);
  }

  /** The mutex holds as the thread does. */
  predicate Holds(th: Thread, x: Thread, e: Effect) {
    x.hold == if e.LockMutex? then Has(e.m) else if e.UnlockMutex? then Free else th.hold
  }

  lemma MutexKeeps(s: Lock, t: Tid, x: Thread, e: Effect)
    requires MutexTrue(s) && t in s.threads && Holds(s.threads[t], x, e)
    requires e.LockMutex? ==> s.threads[t].hold == Free
    requires e.UnlockMutex? ==> s.threads[t].hold == Has(e.m)
    ensures MutexTrue(Shared(s, t, e).(threads := s.threads[t := x]))
  {
    KindMoved(Holding(R), s.threads, t, x);
    KindMoved(Holding(W), s.threads, t, x);
    assert t in Those(Holding(R), s.threads) <==> s.threads[t].hold == Has(R);
    assert t in Those(Holding(W), s.threads) <==> s.threads[t].hold == Has(W);
    if e.LockMutex? || e.UnlockMutex? { assert e.m == R || e.m == W; }
  }

  lemma HoldIs(hold: Hold)
    ensures hold == Free || hold == Has(R) || hold == Has(W)
  {
    if hold.Has? { assert hold.m == R || hold.m == W; }
  }

  lemma ExclusiveKeeps(s: Lock, t: Tid, e: Effect)
    requires Exclusive(s.threads) && MutexTrue(s) && t in s.threads && Legal(s.threads[t], e)
    requires e.LockMutex? ==> s.mutexExclusive == {} && (e.m == W ==> s.mutexShared == {})
    ensures Exclusive(Do(s, t, e).threads)
  {
    if e.LockMutex? {
      forall u <- s.threads ensures s.threads[u].hold == Free || (e.m == R && s.threads[u].hold == Has(R)) {
        assert u !in Those(Holding(W), s.threads);
        assert u in Those(Holding(R), s.threads) <==> s.threads[u].hold == Has(R);
        HoldIs(s.threads[u].hold);
      }
    }
  }

  /* ---- the list of holders ---- */

  predicate OnList(th: Thread) {
    Listed(th, R) || Listed(th, W)
  }

  /** A thread goes onto the list and off it as it should. */
  predicate ListMoves(th: Thread, x: Thread, e: Effect) {
    if e.Append? then !OnList(th) && Listed(x, e.m)
    else if e.Cut? then OnList(th) && !OnList(x)
    else Listed(x, R) == Listed(th, R) && Listed(x, W) == Listed(th, W)
  }

  predicate Inside(pc: Pc) {
    pc.Out? || Asking(pc) || Scanning(pc) || Testing(pc)
  }

  lemma InsideListMoves(s: Lock, t: Tid, th: Thread, act: Act)
    requires Fits(th) && Inside(th.pc) && Legal(th, EffectOf(s, t, th, act))
    ensures ListMoves(th, Moved(th, EffectOf(s, t, th, act)), EffectOf(s, t, th, act))
  {
    hide Tallied, Shifts;
  }

  lemma UncountedListMoves(s: Lock, t: Tid, th: Thread, act: Act)
    requires Fits(th) && !Inside(th.pc) && !Enrolling(th.pc) && !Striking(th.pc)
    requires Fits(Moved(th, EffectOf(s, t, th, act)))
    ensures ListMoves(th, Moved(th, EffectOf(s, t, th, act)), EffectOf(s, t, th, act))
  {
  }

  lemma EnrolledListMoves(s: Lock, t: Tid, th: Thread)
    requires Fits(th) && Enrolling(th.pc) && Legal(th, Enrolled(s, t, th.pc))
    ensures ListMoves(th, Moved(th, Enrolled(s, t, th.pc)), Enrolled(s, t, th.pc))
  {
    hide Tallied, Shifts;
  }

  lemma StruckListMoves(s: Lock, t: Tid, th: Thread)
    requires Fits(th) && Striking(th.pc) && Legal(th, Struck(s, t, th.pc))
    ensures ListMoves(th, Moved(th, Struck(s, t, th.pc)), Struck(s, t, th.pc))
  {
    assert th.pc.Erase? ==> th.pc.m == R || th.pc.m == W;
  }

  lemma StepListMoves(s: Lock, t: Tid, th: Thread, act: Act)
    requires Fits(th) && Legal(th, EffectOf(s, t, th, act))
    ensures var e := EffectOf(s, t, th, act);
      ListMoves(th, Moved(th, e), e)
  {
    hide Tallied, Shifts;
    if Inside(th.pc) { InsideListMoves(s, t, th, act); }
    else if Enrolling(th.pc) { EnrolledListMoves(s, t, th); }
    else if Striking(th.pc) { StruckListMoves(s, t, th); }
    else { UncountedListMoves(s, t, th, act); }
  }

  lemma RolledSame(s: Lock, n: Lock, t: Tid, x: Thread)
    requires Rolled(s) && t in s.threads && n.threads == s.threads[t := x] && n.holders == s.holders
    requires Listed(x, R) == Listed(s.threads[t], R) && Listed(x, W) == Listed(s.threads[t], W)
    ensures Rolled(n)
  {
    forall e <- n.holders ensures e.thread in n.threads && Listed(n.threads[e.thread], e.mode) {
      assert e.mode == R || e.mode == W;
    }
    forall u <- n.threads, m | Listed(n.threads[u], m) ensures Holder(u, m) in n.holders {
      assert m == R || m == W;
    }
  }

  lemma RolledAppend(s: Lock, n: Lock, t: Tid, x: Thread, m: Mode)
    requires Rolled(s) && t in s.threads && n.threads == s.threads[t := x] && n.holders == s.holders + [Holder(t, m)]
    requires !OnList(s.threads[t]) && Listed(x, m)
    ensures Rolled(n)
  {
    ListTrue(s, t);
    forall i | 0 <= i < |s.holders| ensures s.holders[i].thread != t {
      assert s.holders[i].mode == R || s.holders[i].mode == W;
    }
  }

  lemma RolledCut(s: Lock, n: Lock, t: Tid, x: Thread, i: nat)
    requires Rolled(s) && t in s.threads && n.threads == s.threads[t := x]
    requires i < |s.holders| && s.holders[i].thread == t && n.holders == RemoveAt(s.holders, i)
    requires !OnList(x)
    ensures Rolled(n)
  {
    forall u <- n.threads, m | Listed(n.threads[u], m) ensures Holder(u, m) in n.holders {
      assert m == R || m == W;
      var j := IndexOf(s.holders, Holder(u, m));
      assert n.holders[if j < i then j else j - 1] == Holder(u, m);
    }
  }

  lemma RolledKeeps(s: Lock, t: Tid, x: Thread, e: Effect)
    requires Rolled(s) && t in s.threads && ListMoves(s.threads[t], x, e)
    requires e.Cut? ==> e.i < |s.holders| && s.holders[e.i].thread == t
    ensures Rolled(Shared(s, t, e).(threads := s.threads[t := x]))
  {
    var n := Shared(s, t, e).(threads := s.threads[t := x]);
    match e
    case Append(m, _) => RolledAppend(s, n, t, x, m);
    case Cut(i, _) => RolledCut(s, n, t, x, i);
    case _ => RolledSame(s, n, t, x);
  }

  lemma OtherSearched(s: Lock, t: Tid, x: Thread, e: Effect, u: Tid)
    requires t in s.threads && u in s.threads && u != t && Searched(s, u)
    requires e.Append? || e.Cut? ==> !IsCritical(s.threads[u].pc)
    ensures Searched(Shared(s, t, e).(threads := s.threads[t := x]), u)
  {
  }

  predicate Searching(pc: Pc) {
    pc.QueryScan? || pc.EraseScan? || pc.Erase?
  }

  lemma ScannedSearched(s: Lock, t: Tid, x: Thread, n: Lock)
    requires t in s.threads && Searched(s, t) && Scanning(s.threads[t].pc)
    requires x == Moved(s.threads[t], Scanned(s, t, s.threads[t].pc))
    requires n.threads == s.threads[t := x] && n.holders == s.holders
    ensures Searched(n, t)
  {
    var pc := s.threads[t].pc;
    assert pc.QueryScan? && pc.i < |s.holders| ==> s.holders[..pc.i + 1] == s.holders[..pc.i] + [s.holders[pc.i]];
    assert pc.QueryDrop? ==> !Searching(x.pc);
  }

  lemma StruckSearched(s: Lock, t: Tid, x: Thread, n: Lock)
    requires t in s.threads && Searched(s, t) && Striking(s.threads[t].pc)
    requires x == Moved(s.threads[t], Struck(s, t, s.threads[t].pc))
    requires n.threads == s.threads[t := x] && (s.threads[t].pc.EraseScan? ==> n.holders == s.holders)
    ensures Searched(n, t)
  {
    var pc := s.threads[t].pc;
    if pc.EraseScan? {
      assert pc.i < |s.holders| ==> s.holders[..pc.i + 1] == s.holders[..pc.i] + [s.holders[pc.i]];
      assert pc.i == |s.holders| ==> s.holders[..pc.i] == s.holders;
    }
  }

  lemma RestUnsearching(s: Lock, t: Tid, th: Thread, act: Act)
    requires !Scanning(th.pc) && !Striking(th.pc)
    ensures var pc := Moved(th, EffectOf(s, t, th, act)).pc;
      Searching(pc) ==> pc.QueryScan? && pc.i == 0
  {
  }

  lemma SelfSearched(s: Lock, t: Tid, act: Act)
    requires t in s.threads && Searched(s, t)
    ensures Searched(Step(s, t, act), t)
  {
    var th, n := s.threads[t], Step(s, t, act);
    if Scanning(th.pc) { ScannedSearched(s, t, n.threads[t], n); }
    else if Striking(th.pc) { StruckSearched(s, t, n.threads[t], n); }
    else { RestUnsearching(s, t, th, act); }
  }

  lemma StepKeeps(s: Lock, t: Tid, act: Act)
    requires Inv(s) && t in s.threads
    ensures Inv(Step(s, t, act))
  {
    var th, e := s.threads[t], EffectOf(s, t, s.threads[t], act);
    var x, n := Moved(th, e), Step(s, t, act);
    StepLegal(s, t, act);
    StepListMoves(s, t, th, act);
    StepNeeds(s, t, act);
    if IsCritical(th.pc) { OnlyOneCritical(s, t, t); }
    CountsKeep(s, t, x, e);
    MutexKeeps(s, t, x, e);
    ExclusiveKeeps(s, t, e);
    RolledKeeps(s, t, x, e);
    SelfSearched(s, t, act);
    forall u <- s.threads | u != t ensures Searched(n, u) {
      if IsCritical(th.pc) && IsCritical(s.threads[u].pc) { OnlyOneCritical(s, t, u); }
      OtherSearched(s, t, x, e, u);
    }
  }

  /** What a step waits for, or has made sure of. */
  lemma StepNeeds(s: Lock, t: Tid, act: Act)
    requires t in s.threads && Searched(s, t)
    ensures var e := EffectOf(s, t, s.threads[t], act);
      && (e.TakeMeta? ==> !s.metaLock)
      && (e.LockMutex? ==> s.mutexExclusive == {} && (e.m == W ==> s.mutexShared == {}))
      && (e.Cut? ==> e.i < |s.holders| && s.holders[e.i].thread == t)
      && (e.Append? || e.Cut? ==> IsCritical(s.threads[t].pc))
  {
  }

  /* ---- what every run keeps ---- */

  /** Threads in any interleaving, each doing or starting what it will. */
  function Run(s: Lock, steps: seq<(Tid, Act)>): Lock
    decreases |steps|
  {
    if steps == [] then s else Run(Step(s, steps[0].0, steps[0].1), steps[1..])
  }

  lemma {:induction false} RunKeeps(s: Lock, steps: seq<(Tid, Act)>)
    requires Inv(s)
    ensures Inv(Run(s, steps)) && Run(s, steps).threads.Keys == s.threads.Keys
    decreases |steps|
  {
    if steps != [] {
      if steps[0].0 in s.threads { StepKeeps(s, steps[0].0, steps[0].1); }
      RunKeeps(Step(s, steps[0].0, steps[0].1), steps[1..]);
    }
  }

  /** Whether a thread's next step changes the list of holders. */
  predicate Writing(pc: Pc) {
    pc.Push? || pc.Erase?
  }

  /** Whether its next step looks at the list. */
  predicate Reading(pc: Pc) {
    pc.QueryScan? || pc.DupScan? || pc.EraseScan? || pc.Peek?
  }

  /** The thread is between the opening of a guard that locks and its closing. */
  predicate InGuard(th: Thread) {
    th.hold != Free && IsCounted(th.pc) && IsListed(th.pc)
  }

  /** Each thread in a guard has its one entry in the list of holders, and there
      are no other entries. */
  ghost predicate RollTrue(s: Lock) {
    && (forall t <- s.threads :: InGuard(s.threads[t]) ==> Holder(t, s.threads[t].hold.m) in s.holders)
    && (forall e <- s.holders ::
          e.thread in s.threads && InGuard(s.threads[e.thread]) && s.threads[e.thread].hold == Has(e.mode))
    && (forall i, j | 0 <= i < j < |s.holders| :: s.holders[i].thread != s.holders[j].thread)
  }

  /** Nobody changes the list of holders while another changes it or looks at it. */
  ghost predicate ListGuarded(s: Lock) {
    forall t <- s.threads, u <- s.threads ::
      t != u && Writing(s.threads[t].pc) ==> !Writing(s.threads[u].pc) && !Reading(s.threads[u].pc)
  }

  lemma InvRoll(s: Lock)
    requires Rolled(s)
    ensures RollTrue(s)
  {
    forall t <- s.threads ensures InGuard(s.threads[t]) ==> Holder(t, s.threads[t].hold.m) in s.holders {
      assert InGuard(s.threads[t]) ==> Listed(s.threads[t], s.threads[t].hold.m);
    }
  }

  lemma InvGuards(s: Lock)
    requires Inv(s)
    ensures ListGuarded(s)
  {
    forall t <- s.threads, u <- s.threads | t != u && Writing(s.threads[t].pc)
      ensures !Writing(s.threads[u].pc) && !Reading(s.threads[u].pc)
    {
      OneWriter(s, t, u);
    }
  }

  ghost predicate NoCheckFailed(s: Lock) {
    forall t <- s.threads :: !s.threads[t].pc.Fatal?
  }

  lemma InvChecks(s: Lock)
    requires Inv(s)
    ensures NoCheckFailed(s)
  {
    forall t <- s.threads ensures !s.threads[t].pc.Fatal? {
      assert Fits(s.threads[t]);
    }
  }

  /** No check has failed; a writer excludes everyone else; the list of holders is
      true, and guarded, even against the debug build's look at it without the
      spin lock. */
  ghost predicate Safe(s: Lock) {
    NoCheckFailed(s) && Exclusive(s.threads) && RollTrue(s) && ListGuarded(s)
  }

  /** So it is after any interleaving of any number of threads. */
  lemma LockSafe(s: Lock, steps: seq<(Tid, Act)>)
    requires Initial(s)
    ensures Safe(Run(s, steps))
  {
    InitialInv(s);
    RunKeeps(s, steps);
    InvSafe(Run(s, steps));
  }

  lemma InvSafe(s: Lock)
    requires Inv(s)
    ensures Safe(s)
  {
    InvChecks(s);
    InvRoll(s);
    InvGuards(s);
  }

  lemma SomebodyListed(s: Lock)
    requires Rolled(s) && s.holders != []
    ensures exists t <- s.threads :: OnList(s.threads[t])
  {
    var e := s.holders[0];
    assert e in s.holders;
    assert e.mode == R || e.mode == W;
    assert OnList(s.threads[e.thread]);
  }

  lemma OneWriter(s: Lock, t: Tid, u: Tid)
    requires Inv(s) && t in s.threads && u in s.threads && t != u && Writing(s.threads[t].pc)
    ensures !Writing(s.threads[u].pc) && !Reading(s.threads[u].pc)
  {
    if IsCritical(s.threads[u].pc) { OnlyOneCritical(s, t, u); }
    assert Fits(s.threads[t]) && Fits(s.threads[u]);
    assert s.threads[t].hold != Free;
  }

  /** With every guard closed and nobody in a call the counters are back at
      zero, the spin lock and the mutex free, and the list empty: the lock may be
      destroyed. */
  lemma AllClosed(s: Lock, steps: seq<(Tid, Act)>)
    requires Initial(s) && forall t <- Run(s, steps).threads :: Run(s, steps).threads[t] == Fresh
    ensures Initial(Run(s, steps))
  {
    InitialInv(s);
    RunKeeps(s, steps);
    var n := Run(s, steps);
    assert Those(Holding(R), n.threads) == {} && Those(Holding(W), n.threads) == {};
    assert Those(Counted(R), n.threads) == {} && Those(Counted(W), n.threads) == {};
    assert Those(Waiting(R), n.threads) == {} && Those(Waiting(W), n.threads) == {};
    assert Those(Critical, n.threads) == {};
    if n.holders != [] { SomebodyListed(n); }
  }

  /** What a thread is told of its own guards is right: having gone through the
      list, it goes on to lock exactly if it does not hold the lock already. */
  lemma NestedIsNoticed(s: Lock, steps: seq<(Tid, Act)>, t: Tid)
    requires Initial(s) && t in Run(s, steps).threads
    ensures var th := Run(s, steps).threads[t];
      && (th.pc.QueryDrop? ==> (th.pc.yes <==> th.hold == Has(th.pc.q.asked)))
      && (th.pc.WaitUp? || th.pc.Acquire? ==> th.hold == Free)
      && (th.pc.Peek? ==> th.hold == Has(W))
  {
    InitialInv(s);
    RunKeeps(s, steps);
    assert Fits(Run(s, steps).threads[t]);
  }

  /** After any run, one that waits for the lock gets it with its next step exactly if
      nobody writes and, if it is to write, nobody reads: readers share. */
  lemma LetIn(s: Lock, steps: seq<(Tid, Act)>, t: Tid, m: Mode, act: Act)
    requires Initial(s) && t in Run(s, steps).threads && Run(s, steps).threads[t].pc == Acquire(m)
    ensures var n := Run(s, steps);
      && t in Step(n, t, act).threads
      && (Step(n, t, act).threads[t].hold == Has(m) <==>
          forall u <- n.threads :: n.threads[u].hold != Has(W) && (m == W ==> n.threads[u].hold == Free))
  {
    InitialInv(s);
    RunKeeps(s, steps);
    var n := Run(s, steps);
    assert n.threads[t].hold == Free && MutexTrue(n) by { assert Fits(n.threads[t]); }
    LetInNow(n, t, m, act);
  }

  lemma LetInNow(n: Lock, t: Tid, m: Mode, act: Act)
    requires t in n.threads && n.threads[t] == Thread(Free, Acquire(m)) && MutexTrue(n)
    ensures t in Step(n, t, act).threads
    ensures Step(n, t, act).threads[t].hold == Has(m) <==>
            forall u <- n.threads :: n.threads[u].hold != Has(W) && (m == W ==> n.threads[u].hold == Free)
  {
    HoldersAre(n);
    hide MutexTrue;
    if n.mutexExclusive != {} {
      var u :| u in n.mutexExclusive;
    }
    if n.mutexShared != {} {
      var u :| u in n.mutexShared;
    }
  }

  lemma HoldersAre(n: Lock)
    requires MutexTrue(n)
    ensures forall u <- n.threads :: u in n.mutexExclusive <==> n.threads[u].hold == Has(W)
    ensures forall u <- n.threads :: u in n.mutexShared <==> n.threads[u].hold == Has(R)
    ensures n.mutexExclusive <= n.threads.Keys && n.mutexShared <= n.threads.Keys
  {
  }

  /* ---- upgrades ---- */

  /** `t`, which reads, is at `pc`. */
  function ReaderAt(s: Lock, t: Tid, pc: Pc, meta: bool): Lock {
    s.(threads := s.threads[t := Thread(Has(R), pc)], metaLock := meta)
  }

  /** Some steps of one thread. */
  function Alone(s: Lock, t: Tid, steps: nat): Lock {
    if steps == 0 then s else Step(Alone(s, t, steps - 1), t, Close)
  }

  /** It goes through the list of holders as far as `j`. */
  lemma {:induction false} ScansTo(s: Lock, t: Tid, j: nat)
    requires t in s.threads && s.readers > 0 && !s.metaLock
    requires j <= |s.holders| && forall k | 0 <= k < j :: s.holders[k] != Holder(t, R)
    ensures Alone(ReaderAt(s, t, CountTest(Query(W, R)), false), t, j + 2) ==
            ReaderAt(s, t, QueryScan(Query(W, R), j), true)
  {
    hide Step, ReaderAt;
    var q := Query(W, R);
    var start := ReaderAt(s, t, CountTest(q), false);
    if j == 0 {
      ScanBegins(s, t);
      assert Alone(start, t, 1) == Step(start, t, Close);
      assert Alone(start, t, 2) == Step(Alone(start, t, 1), t, Close);
    } else {
      ScansTo(s, t, j - 1);
      ScanGoesOn(s, t, j - 1);
      assert Alone(start, t, j + 2) == Step(Alone(start, t, j + 1), t, Close);
    }
  }

  lemma ScanBegins(s: Lock, t: Tid)
    requires t in s.threads && s.readers > 0 && !s.metaLock
    ensures var q := Query(W, R);
      && Step(ReaderAt(s, t, CountTest(q), false), t, Close) == ReaderAt(s, t, QuerySpin(q), false)
      && Step(ReaderAt(s, t, QuerySpin(q), false), t, Close) == ReaderAt(s, t, QueryScan(q, 0), true)
  {
  }

  lemma ScanGoesOn(s: Lock, t: Tid, i: nat)
    requires t in s.threads && i < |s.holders| && s.holders[i] != Holder(t, R)
    ensures var q := Query(W, R);
      Step(ReaderAt(s, t, QueryScan(q, i), true), t, Close) == ReaderAt(s, t, QueryScan(q, i + 1), true)
  {
  }

  lemma ReaderListed(s: Lock, t: Tid)
    requires Inv(s) && t in s.threads && s.threads[t] == Thread(Has(R), Out)
    ensures s.readers > 0 && t in s.mutexShared && Holder(t, R) in s.holders
  {
    assert Listed(s.threads[t], R) && t in Those(Counted(R), s.threads);
  }

  lemma AtEntry(s: Lock, t: Tid, i: nat)
    requires t in s.threads && i < |s.holders| && s.holders[i] == Holder(t, R)
    ensures Step(ReaderAt(s, t, QueryScan(Query(W, R), i), true), t, Close) ==
            ReaderAt(s, t, QueryDrop(Query(W, R), true), true)
    ensures Step(ReaderAt(s, t, QueryDrop(Query(W, R), true), true), t, Close) == ReaderAt(s, t, Fatal, false)
  {
  }

  lemma ToldOff(s: Lock, t: Tid) returns (n: nat)
    requires t in s.threads && s.readers > 0 && !s.metaLock && Holder(t, R) in s.holders
    ensures Alone(ReaderAt(s, t, CountTest(Query(W, R)), false), t, n) == ReaderAt(s, t, Fatal, false)
  {
    hide EffectOf, Do, Step;
    var i := IndexOf(s.holders, Holder(t, R));
    ScansTo(s, t, i);
    AtEntry(s, t, i);
    var start := ReaderAt(s, t, CountTest(Query(W, R)), false);
    assert Alone(start, t, i + 3) == Step(Alone(start, t, i + 2), t, Close);
    n := i + 4;
    assert Alone(start, t, n) == Step(Alone(start, t, i + 3), t, Close);
  }

  /** `t` waits for the mutex as a writer while it reads. */
  predicate Stuck(s: Lock, t: Tid) {
    t in s.threads && s.threads[t] == Thread(Has(R), Acquire(W)) && t in s.mutexShared
  }

  lemma {:induction false} StaysStuck(s: Lock, t: Tid, steps: seq<(Tid, Act)>)
    requires Stuck(s, t)
    ensures Stuck(Run(s, steps), t)
    decreases |steps|
  {
    if steps != [] {
      StaysStuck(Step(s, steps[0].0, steps[0].1), t, steps[1..]);
    }
  }

  /** Without the rule against upgrades a check does fail: after any run, a thread
      that reads and goes on to open a writer is told off, with nobody in its way;
      in a build without that check it waits for itself, for ever, whatever it and
      the others do. */
  lemma UpgradeFails(s0: Lock, steps: seq<(Tid, Act)>, t: Tid, more: seq<(Tid, Act)>)
    requires Initial(s0) && t in Run(s0, steps).threads && !Run(s0, steps).metaLock
    requires Run(s0, steps).threads[t] == Thread(Has(R), Out)
    ensures var s := Run(s0, steps);
      && (exists n: nat ::
            Alone(ReaderAt(s, t, CountTest(Query(W, R)), false), t, n).threads == s.threads[t := Thread(Has(R), Fatal)])
      && Stuck(Run(ReaderAt(s, t, Acquire(W), false), more), t)
  {
    InitialInv(s0);
    RunKeeps(s0, steps);
    var s := Run(s0, steps);
    ReaderListed(s, t);
    StaysStuck(ReaderAt(s, t, Acquire(W), false), t, more);
    hide Inv, Run, EffectOf, Do, Those;
    var n := ToldOff(s, t);
    assert ReaderAt(s, t, Fatal, false).threads == s.threads[t := Thread(Has(R), Fatal)];
  }

  /* ---- no deadlock ---- */

  /** The thread can go on with what it is doing, or is free to close its guard. */
  predicate CanGoOn(s: Lock, t: Tid)
    requires t in s.threads
  {
    var th := s.threads[t];
    if th.pc.Out? then th.hold != Free else EffectOf(s, t, th, Close) != Stay
  }

  predicate Spinning(pc: Pc) {
    pc.QuerySpin? || pc.PushSpin? || pc.EraseSpin?
  }

  /** Only the spin lock and the mutex are waited for. */
  lemma WaitsOnly(s: Lock, t: Tid)
    requires t in s.threads && !s.threads[t].pc.Out? && !s.threads[t].pc.Fatal?
    requires !Spinning(s.threads[t].pc) && !s.threads[t].pc.Acquire?
    ensures CanGoOn(s, t)
  {
  }

  lemma SpinsWhileHeld(s: Lock, t: Tid)
    requires t in s.threads && Spinning(s.threads[t].pc) && !s.metaLock
    ensures CanGoOn(s, t)
  {
  }

  /** Who has the spin lock can go on. */
  lemma MetaGoesOn(s: Lock) returns (u: Tid)
    requires Inv(s) && s.metaLock
    ensures u in s.threads && CanGoOn(s, u)
  {
    hide Rolled, Searched, Exclusive;
    assert |Those(Critical, s.threads)| == 1;
    u :| u in Those(Critical, s.threads);
    WaitsOnly(s, u);
  }

  lemma NotAcquiring(s: Lock, t: Tid) returns (u: Tid)
    requires Inv(s) && t in s.threads && !s.threads[t].pc.Acquire?
    requires s.threads[t].pc.Out? ==> s.threads[t].hold != Free
    ensures u in s.threads && CanGoOn(s, u)
  {
    assert Fits(s.threads[t]);
    if Spinning(s.threads[t].pc) && s.metaLock {
      u := MetaGoesOn(s);
    } else {
      u := t;
      if Spinning(s.threads[t].pc) {
        SpinsWhileHeld(s, t);
      } else if !s.threads[t].pc.Out? {
        WaitsOnly(s, t);
      }
    }
  }

  lemma SomebodyGoesOn(s: Lock, t: Tid) returns (u: Tid)
    requires Inv(s) && t in s.threads && !s.threads[t].pc.Out?
    ensures u in s.threads && CanGoOn(s, u)
  {
    if !s.threads[t].pc.Acquire? {
      u := NotAcquiring(s, t);
    } else if s.mutexExclusive == {} && s.mutexShared == {} {
      u := t;
    } else {
      var h :| h in s.mutexExclusive + s.mutexShared;
      assert h in Those(Holding(R), s.threads) || h in Those(Holding(W), s.threads);
      assert Fits(s.threads[h]);
      u := NotAcquiring(s, h);
    }
  }

  /** After any run, as long as somebody is in the middle of opening or closing a
      guard, somebody can go on with that, or holds a guard it is free to close. */
  lemma NoDeadlock(s0: Lock, steps: seq<(Tid, Act)>, t: Tid)
    requires Initial(s0) && t in Run(s0, steps).threads && !Run(s0, steps).threads[t].pc.Out?
    ensures var s := Run(s0, steps); exists u <- s.threads :: CanGoOn(s, u)
  {
    InitialInv(s0);
    RunKeeps(s0, steps);
    var u := SomebodyGoesOn(Run(s0, steps), t);
  }
}
