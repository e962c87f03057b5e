/**
 * The per-GPU token gate: any number of threads in any number of processes
 * scan the same tokens.  A token is held through a process-local lock and a
 * file lock; every lock operation is one atomic step.
 */
module GpuGate {

  type ThreadId = nat

  /** Where a thread is inside `acquire`; the offset counts the tokens tried in the current scan. */
  datatype Pc =
    | Outside
    | Scan(offset: nat)
    | HoldsLocal(offset: nat)
    | OpenFile(offset: nat)
    | Inside(offset: nat)
    | Closing(offset: nat, retry: bool)     // the file lock is freed, or was never taken
    | Releasing(offset: nat, retry: bool)   // the file is closed, the local lock still held
    | TimedOut

  /** The token a scan starting at `start` tries after `offset` others. */
  function TokenAt(start: nat, offset: nat, slots: nat): (token: nat)
    requires slots > 0
    ensures token < slots
  {
    (start + offset) % slots
  }

  datatype Thread = Thread(process: nat, start: nat, pc: Pc, busy: seq<nat>)
  {
    predicate HoldsLocalLock()
    {
      pc.HoldsLocal? || pc.OpenFile? || pc.Inside? || pc.Closing? || pc.Releasing?
    }

    predicate Left() { pc.Outside? || pc.TimedOut? }

    function Token(slots: nat): nat
      requires slots > 0 && HoldsLocalLock()
    {
      TokenAt(start, pc.offset, slots)
    }
  }

  /**
   * `local` are the held process-local locks, `leaked` those whose holder left
   * by an exception before it could free them; `abandoned` are tokens whose
   * file could not be unlocked, locked until the file object is collected.
   */
  datatype Gate = Gate(slots: nat, threads: map<ThreadId, Thread>, local: set<(nat, nat)>, file: map<nat, ThreadId>,
                       leaked: set<(nat, nat)>, abandoned: set<nat>)
  {
    function Key(t: ThreadId): (nat, nat)
      requires slots > 0 && t in threads && threads[t].HoldsLocalLock()
    {
      (threads[t].process, threads[t].Token(slots))
    }
  }

  /** System calls may fail: `ok` says whether this one did not. */
  datatype Step =
    | Enter(t: ThreadId)
    | TryLocal(t: ThreadId)
    | Open(t: ThreadId, ok: bool)
    | TryFile(t: ThreadId, ok: bool)
    | Unlock(t: ThreadId, ok: bool)    // the body ended, normally or by an exception
    | Close(t: ThreadId, ok: bool)
    | ReleaseLocal(t: ThreadId)
    | Deadline(t: ThreadId, passed: bool)
    | Collect(t: ThreadId, token: nat) // an abandoned file object is collected

  function Goto(g: Gate, t: ThreadId, pc: Pc): Gate
    requires t in g.threads
  {
    g.(threads := g.threads[t := g.threads[t].(pc := pc)])
  }

  /** Go on to the next token, having found this one busy. */
  function Busy(g: Gate, t: ThreadId, token: nat, offset: nat): Gate
    requires t in g.threads
  {
    g.(threads := g.threads[t := g.threads[t].(pc := Scan(offset + 1), busy := g.threads[t].busy + [token])])
  }

  /** An exception passes by the release of the local lock. */
  function Leak(g: Gate, t: ThreadId): Gate
    requires g.slots > 0 && t in g.threads && g.threads[t].HoldsLocalLock()
  {
    Goto(g, t, Outside).(leaked := g.leaked + {g.Key(t)})
  }

  predicate Enabled(g: Gate, s: Step)
  {
    g.slots > 0 && s.t in g.threads
    && var pc := g.threads[s.t].pc;
       match s
       case Enter(_) => pc.Outside? || pc.TimedOut?
       case TryLocal(_) => pc.Scan? && pc.offset < g.slots
       case Open(_, _) => pc.HoldsLocal?
       case TryFile(_, _) => pc.OpenFile?
       case Unlock(_, _) => pc.Inside?
       case Close(_, _) => pc.Closing?
       case ReleaseLocal(_) => pc.Releasing?
       case Deadline(_, _) => pc.Scan? && pc.offset == g.slots
       case Collect(_, token) => token in g.abandoned
  }

  function Next(g: Gate, s: Step): Gate
    requires Enabled(g, s)
  {
    var t := s.t;
    var me := g.threads[t];
    match s
    case Enter(_) => g.(threads := g.threads[t := me.(pc := Scan(0), busy := [])])
    case TryLocal(_) =>
      var token := TokenAt(me.start, me.pc.offset, g.slots);
      if (me.process, token) in g.local then Busy(g, t, token, me.pc.offset)
      else Goto(g, t, HoldsLocal(me.pc.offset)).(local := g.local + {(me.process, token)})
    case Open(_, ok) =>
      if ok then Goto(g, t, OpenFile(me.pc.offset)) else Leak(g, t)
    case TryFile(_, ok) =>
      var token := me.Token(g.slots);
      if !ok then Goto(g, t, Closing(me.pc.offset, false))
      else if token in g.file || token in g.abandoned then Goto(g, t, Closing(me.pc.offset, true))
      else Goto(g, t, Inside(me.pc.offset)).(file := g.file[token := t])
    case Unlock(_, ok) =>
      var token := me.Token(g.slots);
      var unlocked := g.(file := g.file - {token});
      if ok then Goto(unlocked, t, Closing(me.pc.offset, false))
      else Leak(unlocked, t).(abandoned := g.abandoned + {token})
    case Close(_, ok) =>
      if ok then Goto(g, t, Releasing(me.pc.offset, me.pc.retry)) else Leak(g, t)
    case ReleaseLocal(_) =>
      var freed := g.(local := g.local - {g.Key(t)});
      if me.pc.retry then Busy(freed, t, me.Token(g.slots), me.pc.offset) else Goto(freed, t, Outside)
    case Deadline(_, passed) =>
      if passed then Goto(g, t, TimedOut)
      else g.(threads := g.threads[t := me.(pc := Scan(0), busy := [])])
    case Collect(_, token) => g.(abandoned := g.abandoned - {token})
  }

  function Start(slots: nat, threads: map<ThreadId, Thread>): Gate
  {
    Gate(slots, threads, {}, map[], {}, {})
  }

  // ---- Invariant ---------------------------------------------------------

  /** The tokens a scan has tried and found busy, in order. */
  predicate ScanRecord(slots: nat, me: Thread, tried: nat)
    requires slots > 0
  {
    |me.busy| == tried <= slots && forall k | 0 <= k < tried :: me.busy[k] == TokenAt(me.start, k, slots)
  }

  ghost predicate ThreadInv(g: Gate, t: ThreadId)
    requires g.slots > 0 && t in g.threads
  {
    var me := g.threads[t];
    && (me.pc.Scan? ==> ScanRecord(g.slots, me, me.pc.offset))
    && (me.HoldsLocalLock() ==>
          && me.pc.offset < g.slots && ScanRecord(g.slots, me, me.pc.offset)
          && g.Key(t) in g.local && g.Key(t) !in g.leaked)
    && (me.pc.Inside? ==> me.Token(g.slots) in g.file && g.file[me.Token(g.slots)] == t)
    && (me.pc.TimedOut? ==> ScanRecord(g.slots, me, g.slots))
  }

  ghost predicate ThreadsInv(g: Gate)
  {
    g.slots > 0 && forall t | t in g.threads :: ThreadInv(g, t)
  }

  /** No local lock has two holders. */
  ghost predicate Exclusive(g: Gate)
  {
    g.slots > 0 && forall t, u | t in g.threads && u in g.threads && t != u
                                 && g.threads[t].HoldsLocalLock() && g.threads[u].HoldsLocalLock() :: g.Key(t) != g.Key(u)
  }

  ghost predicate HeldBySomeone(g: Gate, k: (nat, nat))
    requires g.slots > 0
  {
    exists t :: t in g.threads && g.threads[t].HoldsLocalLock() && g.Key(t) == k
  }

  /** Every held local lock has a holder or was leaked. */
  ghost predicate Accounted(g: Gate)
  {
    g.slots > 0 && g.leaked <= g.local && forall k | k in g.local :: k in g.leaked || HeldBySomeone(g, k)
  }

  ghost predicate FilesInv(g: Gate)
  {
    g.slots > 0 && forall k | k in g.file ::
      g.file[k] in g.threads && g.threads[g.file[k]].pc.Inside? && g.threads[g.file[k]].Token(g.slots) == k
  }

  ghost predicate Inv(g: Gate)
  {
    ThreadsInv(g) && Exclusive(g) && Accounted(g) && FilesInv(g)
  }

  lemma OwnInv(g: Gate, s: Step)
    requires Inv(g) && Enabled(g, s)
    ensures Next(g, s).slots == g.slots && s.t in Next(g, s).threads && ThreadInv(Next(g, s), s.t)
  {
    hide TokenAt;
    assert ThreadInv(g, s.t);
  }

  /** A step of one thread leaves every other thread, and what it holds, alone. */
  lemma OthersKeep(g: Gate, s: Step, t: ThreadId)
    requires Inv(g) && Enabled(g, s) && t in g.threads && t != s.t
    ensures var h := Next(g, s);
      && h.slots == g.slots && t in h.threads && h.threads[t] == g.threads[t]
      && (g.threads[t].HoldsLocalLock() ==> h.Key(t) == g.Key(t) && g.Key(t) in h.local && g.Key(t) !in h.leaked)
      && (g.threads[t].pc.Inside? ==>
            var k := g.threads[t].Token(g.slots); k in h.file && h.file[k] == t)
  {
    hide TokenAt, ScanRecord, Accounted;
    assert ThreadInv(g, t) && ThreadInv(g, s.t);
    assert g.threads[t].HoldsLocalLock() && g.threads[s.t].HoldsLocalLock() ==> g.Key(t) != g.Key(s.t);
  }

  lemma StepThreads(g: Gate, s: Step)
    requires Inv(g) && Enabled(g, s)
    ensures ThreadsInv(Next(g, s))
  {
    hide TokenAt, Next, ScanRecord, Exclusive, Accounted, FilesInv;
    OwnInv(g, s);
    forall t | t in Next(g, s).threads ensures ThreadInv(Next(g, s), t) {
      if t != s.t {
        SameThreads(g, s);
        OthersKeep(g, s, t);
        assert ThreadInv(g, t);
      }
    }
  }

  lemma SameThreads(g: Gate, s: Step)
    requires Enabled(g, s)
    ensures Next(g, s).threads.Keys == g.threads.Keys && Next(g, s).slots == g.slots
  {
  }

  /** A lock a thread takes was free. */
  lemma TakenWasFree(g: Gate, s: Step)
    requires Enabled(g, s) && Next(g, s).threads[s.t].HoldsLocalLock()
    ensures Next(g, s).Key(s.t) !in g.local || (g.threads[s.t].HoldsLocalLock() && Next(g, s).Key(s.t) == g.Key(s.t))
  {
    hide TokenAt;
  }

  lemma StepExclusive(g: Gate, s: Step)
    requires Inv(g) && Enabled(g, s)
    ensures Exclusive(Next(g, s))
  {
    hide TokenAt, Next, ScanRecord, Accounted, FilesInv;
    var h := Next(g, s);
    SameThreads(g, s);
    forall t, u | t in h.threads && u in h.threads && t != u
                  && h.threads[t].HoldsLocalLock() && h.threads[u].HoldsLocalLock()
      ensures h.Key(t) != h.Key(u)
    {
      if t != s.t {
        OthersKeep(g, s, t);
        assert ThreadInv(g, t);
      }
      if u != s.t {
        OthersKeep(g, s, u);
        assert ThreadInv(g, u);
      }
      if t == s.t || u == s.t {
        TakenWasFree(g, s);
      }
    }
  }

  lemma StepAccounted(g: Gate, s: Step)
    requires Inv(g) && Enabled(g, s)
    ensures Accounted(Next(g, s))
  {
    hide TokenAt, ScanRecord, Exclusive, FilesInv, HeldBySomeone;
    var h := Next(g, s);
    assert ThreadInv(g, s.t);
    forall k | k in h.local && k !in h.leaked ensures HeldBySomeone(h, k) {
      StillHeld(g, s, k);
    }
  }

  lemma StillHeld(g: Gate, s: Step, k: (nat, nat))
    requires Inv(g) && Enabled(g, s) && k in Next(g, s).local && k !in Next(g, s).leaked
    ensures HeldBySomeone(Next(g, s), k)
  {
    hide TokenAt, ScanRecord, Exclusive, FilesInv, ThreadsInv;
    var h := Next(g, s);
    if k in g.local {
      var t :| t in g.threads && g.threads[t].HoldsLocalLock() && g.Key(t) == k;
      assert h.threads[t].HoldsLocalLock() && h.Key(t) == k;
    } else {
      assert h.threads[s.t].HoldsLocalLock() && h.Key(s.t) == k;
    }
  }

  lemma StepFiles(g: Gate, s: Step)
    requires Inv(g) && Enabled(g, s)
    ensures FilesInv(Next(g, s))
  {
    hide TokenAt, ScanRecord, Exclusive, Accounted;
    assert ThreadInv(g, s.t);
  }

  lemma StepKeepsInv(g: Gate, s: Step)
    requires Inv(g) && Enabled(g, s)
    ensures Inv(Next(g, s))
  {
    StepThreads(g, s);
    StepExclusive(g, s);
    StepAccounted(g, s);
    StepFiles(g, s);
    hide Next, ThreadsInv, Exclusive, Accounted, FilesInv;
  }

  ghost predicate Runs(g: Gate, steps: seq<Step>, h: Gate)
    decreases |steps|
  {
    if steps == [] then g == h else Enabled(g, steps[0]) && Runs(Next(g, steps[0]), steps[1..], h)
  }

  lemma {:induction false} RunKeepsInv(g: Gate, steps: seq<Step>, h: Gate)
    requires Inv(g) && Runs(g, steps, h)
    ensures Inv(h)
    decreases |steps|
  {
    hide Inv, Next, Enabled;
    if steps != [] {
      StepKeepsInv(g, steps[0]);
      RunKeepsInv(Next(g, steps[0]), steps[1..], h);
    }
  }

  ghost predicate Initial(g: Gate)
  {
    g.slots > 0 && g.local == {} && g.file == map[] && g.leaked == {} && g.abandoned == {}
    && forall t | t in g.threads :: g.threads[t].pc.Outside?
  }

  // ---- What every run guarantees -----------------------------------------

  function InsideThreads(g: Gate): set<ThreadId>
  {
    set t | t in g.threads && g.threads[t].pc.Inside?
  }

  /** Each token has at most one holder, whatever thread or process it is in. */
  lemma TokensAreExclusive(g: Gate, steps: seq<Step>, h: Gate, t: ThreadId, u: ThreadId)
    requires Initial(g) && Runs(g, steps, h)
    requires t in h.threads && u in h.threads && t != u && h.threads[t].pc.Inside? && h.threads[u].pc.Inside?
    ensures h.slots > 0 && h.threads[t].Token(h.slots) != h.threads[u].Token(h.slots)
  {
    RunKeepsInv(g, steps, h);
    assert ThreadInv(h, t) && ThreadInv(h, u);
  }

  lemma {:induction false} InjectionIsSmall(g: Gate, ts: set<ThreadId>, n: nat)
    requires g.slots > 0 && ts <= InsideThreads(g)
    requires forall t | t in ts :: g.threads[t].Token(g.slots) < n
    requires forall t, u | t in ts && u in ts && t != u :: g.threads[t].Token(g.slots) != g.threads[u].Token(g.slots)
    ensures |ts| <= n
    decreases n
  {
    hide TokenAt;
    if n == 0 {
      assert forall t :: t !in ts;
    } else {
      if t :| t in ts && g.threads[t].Token(g.slots) == n - 1 {
        InjectionIsSmall(g, ts - {t}, n - 1);
      } else {
        InjectionIsSmall(g, ts, n - 1);
      }
    }
  }

  /** So at most `slots` threads are inside at once. */
  lemma AtMostSlotsInside(g: Gate, steps: seq<Step>, h: Gate)
    requires Initial(g) && Runs(g, steps, h)
    ensures |InsideThreads(h)| <= h.slots
  {
    RunKeepsInv(g, steps, h);
    forall t, u | t in InsideThreads(h) && u in InsideThreads(h) && t != u
      ensures h.threads[t].Token(h.slots) != h.threads[u].Token(h.slots)
    {
      TokensAreExclusive(g, steps, h, t, u);
    }
    InjectionIsSmall(h, InsideThreads(h), h.slots);
  }

  /** A timeout was raised only after a full scan tried every token exactly once and found each busy. */
  lemma TimeoutAfterFullScan(g: Gate, steps: seq<Step>, h: Gate, t: ThreadId)
    requires Initial(g) && Runs(g, steps, h)
    requires t in h.threads && h.threads[t].pc.TimedOut?
    ensures |h.threads[t].busy| == h.slots
    ensures forall k | 0 <= k < h.slots :: k in h.threads[t].busy
    ensures forall i, j | 0 <= i < j < h.slots :: h.threads[t].busy[i] != h.threads[t].busy[j]
  {
    RunKeepsInv(g, steps, h);
    var me := h.threads[t];
    assert ThreadInv(h, t);
    forall k: nat | k < h.slots ensures k in me.busy {
      var i := ScanPosition(me.start, k, h.slots);
      assert me.busy[i] == k;
    }
    forall i, j | 0 <= i < j < h.slots ensures me.busy[i] != me.busy[j] {
      ScanIsInjective(me.start, i, j, h.slots);
    }
  }

  lemma ScanPosition(start: nat, token: nat, slots: nat) returns (i: nat)
    requires token < slots
    ensures i < slots && (start + i) % slots == token
  {
    var r := start % slots;
    i := if token >= r then token - r else token + slots - r;
    var q := start / slots;
    assert start == q * slots + r;
    if token >= r {
      SumModulo(q, token, slots);
    } else {
      assert start + i == (q + 1) * slots + token;
      SumModulo(q + 1, token, slots);
    }
  }

  lemma SumModulo(q: nat, r: nat, n: nat)
    requires r < n
    ensures (q * n + r) % n == r
  {
    var x := q * n + r;
    assert x == (x / n) * n + x % n;
    var d := x / n - q;
    assert d * n == r - x % n;
    if d != 0 {
      BigMultiple(d, n);
    }
  }

  lemma BigMultiple(d: int, n: nat)
    requires d != 0 && n > 0
    ensures d * n >= n || d * n + n <= 0
  {
    if d >= 1 {
      assert d * n >= n;
    } else {
      assert d * n + n <= 0;
    }
  }

  lemma ScanIsInjective(start: nat, i: nat, j: nat, slots: nat)
    requires i < j < slots
    ensures (start + i) % slots != (start + j) % slots
  {
    var a, b := start + i, start + j;
    var d := b / slots - a / slots;
    assert a == (a / slots) * slots + a % slots && b == (b / slots) * slots + b % slots;
    assert d * slots == (b - a) - (b % slots - a % slots);
    if d != 0 {
      BigMultiple(d, slots);
    }
  }

  /** A system call failed between taking the local lock and freeing it, other than taking the file lock. */
  predicate LeakyFailure(s: Step)
  {
    (s.Open? || s.Unlock? || s.Close?) && !s.ok
  }

  predicate UnlockFailed(s: Step)
  {
    s.Unlock? && !s.ok
  }

  lemma {:induction false} LeaksOnlyGrow(g: Gate, steps: seq<Step>, h: Gate)
    requires Runs(g, steps, h)
    ensures g.leaked <= h.leaked && h.slots == g.slots
    ensures (exists s <- steps :: LeakyFailure(s)) ==> h.leaked != {}
    ensures (forall s <- steps :: !LeakyFailure(s)) ==> h.leaked == g.leaked
    ensures (forall s <- steps :: !UnlockFailed(s)) ==> h.abandoned <= g.abandoned
    decreases |steps|
  {
    hide TokenAt;
    if steps != [] {
      var n := Next(g, steps[0]);
      LeaksOnlyGrow(n, steps[1..], h);
      if LeakyFailure(steps[0]) {
        assert g.Key(steps[0].t) in n.leaked;
      } else {
        assert n.leaked == g.leaked;
        if exists s <- steps :: LeakyFailure(s) {
          var s :| s in steps && LeakyFailure(s);
          assert s in steps[1..];
        }
      }
    }
  }

  /**
   * Which exits free both locks.  Once every thread has left, no file lock is
   * held, except through files that could not be unlocked; and no local lock
   * is held exactly when no file failed to open, unlock or close: the file is
   * opened before the block that frees the locks, and the local lock is the
   * last thing that block frees.
   */
  lemma ExitsFreeTheLocksIff(g: Gate, steps: seq<Step>, h: Gate)
    requires Initial(g) && Runs(g, steps, h)
    requires forall t | t in h.threads :: h.threads[t].Left()
    ensures h.file == map[]
    ensures h.abandoned != {} ==> exists s <- steps :: UnlockFailed(s)
    ensures h.local == {} <==> forall s <- steps :: !LeakyFailure(s)
  {
    RunKeepsInv(g, steps, h);
    LeaksOnlyGrow(g, steps, h);
    assert forall k | k in h.local :: k in h.leaked;
  }

  /** A leaked local lock starves its process: no thread of it ever holds that token again. */
  lemma LeakedTokenIsLost(g: Gate, steps: seq<Step>, h: Gate, more: seq<Step>, end: Gate, key: (nat, nat), t: ThreadId)
    requires Initial(g) && Runs(g, steps, h) && key in h.leaked && Runs(h, more, end)
    requires t in end.threads && end.threads[t].process == key.0
    ensures end.threads[t].HoldsLocalLock() ==> end.slots > 0 && end.threads[t].Token(end.slots) != key.1
  {
    RunKeepsInv(g, steps, h);
    RunKeepsInv(h, more, end);
    LeaksOnlyGrow(h, more, end);
    assert ThreadInv(end, t);
  }

  /** One failing open: the thread is out, and its token is locked for good in its process. */
  lemma FailedOpenLeaks()
    ensures var g := Start(1, map[0 := Thread(7, 0, Outside, [])]);
      exists h :: Initial(g) && Runs(g, [Enter(0), TryLocal(0), Open(0, false)], h)
                  && h.threads[0].Left() && h.local == {(7, 0)}
  {
    var g := Start(1, map[0 := Thread(7, 0, Outside, [])]);
    var a := Next(g, Enter(0));
    var b := Next(a, TryLocal(0));
    var h := Next(b, Open(0, false));
    assert b.threads[0] == Thread(7, 0, HoldsLocal(0), []) && b.local == {(7, 0)};
    var steps := [Enter(0), TryLocal(0), Open(0, false)];
    assert steps[1..] == [TryLocal(0), Open(0, false)] && steps[1..][1..] == [Open(0, false)] && steps[1..][1..][1..] == [];
    assert Runs(h, [], h);
    assert Runs(b, [Open(0, false)], h);
    assert Runs(a, [TryLocal(0), Open(0, false)], h);
    assert Runs(g, steps, h);
  }

  // ---- Progress ----------------------------------------------------------

  /** Nobody holds the token this thread tries after `offset` others. */
  predicate FreeFor(g: Gate, t: ThreadId, offset: nat)
    requires g.slots > 0 && t in g.threads
  {
    var token := TokenAt(g.threads[t].start, offset, g.slots);
    (g.threads[t].process, token) !in g.local && token !in g.file && token !in g.abandoned
  }

  /** Steps of one thread whose system calls succeed. */
  ghost predicate Alone(t: ThreadId, steps: seq<Step>)
  {
    forall s <- steps :: s.t == t && !LeakyFailure(s) && (s.TryFile? ==> s.ok)
  }

  lemma {:induction false} RunsJoin(g: Gate, a: seq<Step>, h: Gate, b: seq<Step>, end: Gate)
    requires Runs(g, a, h) && Runs(h, b, end)
    ensures Runs(g, a + b, end)
    decreases |a|
  {
    hide Next, Enabled;
    if a == [] {
      assert a + b == b;
    } else {
      assert (a + b)[0] == a[0] && (a + b)[1..] == a[1..] + b;
      RunsJoin(Next(g, a[0]), a[1..], h, b, end);
    }
  }

  lemma OneStep(g: Gate, s: Step)
    requires Enabled(g, s)
    ensures Runs(g, [s], Next(g, s))
  {
    hide Enabled, Next;
    assert [s][1..] == [];
    assert Runs(Next(g, s), [], Next(g, s));
  }

  lemma TakesFree(g: Gate, t: ThreadId) returns (steps: seq<Step>, h: Gate)
    requires g.slots > 0 && t in g.threads && g.threads[t].pc.Scan? && g.threads[t].pc.offset < g.slots
    requires FreeFor(g, t, g.threads[t].pc.offset)
    ensures Runs(g, steps, h) && Alone(t, steps)
    ensures var me := g.threads[t]; var token := TokenAt(me.start, me.pc.offset, g.slots);
      h == g.(threads := g.threads[t := me.(pc := Inside(me.pc.offset))], local := g.local + {(me.process, token)},
              file := g.file[token := t])
  {
    hide TokenAt;
    var a := Next(g, TryLocal(t));
    var b := Next(a, Open(t, true));
    h := Next(b, TryFile(t, true));
    OneStep(g, TryLocal(t));
    OneStep(a, Open(t, true));
    OneStep(b, TryFile(t, true));
    RunsJoin(g, [TryLocal(t)], a, [Open(t, true)], b);
    steps := [TryLocal(t)] + [Open(t, true)] + [TryFile(t, true)];
    RunsJoin(g, [TryLocal(t)] + [Open(t, true)], b, [TryFile(t, true)], h);
  }

  lemma SkipsHeld(g: Gate, t: ThreadId) returns (steps: seq<Step>, h: Gate)
    requires g.slots > 0 && t in g.threads && g.threads[t].pc.Scan? && g.threads[t].pc.offset < g.slots
    requires !FreeFor(g, t, g.threads[t].pc.offset)
    ensures Runs(g, steps, h) && Alone(t, steps)
    ensures var me := g.threads[t]; var token := TokenAt(me.start, me.pc.offset, g.slots);
      h == g.(threads := g.threads[t := me.(pc := Scan(me.pc.offset + 1), busy := me.busy + [token])])
  {
    hide TokenAt;
    var me := g.threads[t];
    var a := Next(g, TryLocal(t));
    OneStep(g, TryLocal(t));
    if (me.process, TokenAt(me.start, me.pc.offset, g.slots)) in g.local {
      steps, h := [TryLocal(t)], a;
    } else {
      var b := Next(a, Open(t, true));
      var c := Next(b, TryFile(t, true));
      var d := Next(c, Close(t, true));
      h := Next(d, ReleaseLocal(t));
      OneStep(a, Open(t, true));
      OneStep(b, TryFile(t, true));
      OneStep(c, Close(t, true));
      OneStep(d, ReleaseLocal(t));
      RunsJoin(g, [TryLocal(t)], a, [Open(t, true)], b);
      RunsJoin(g, [TryLocal(t)] + [Open(t, true)], b, [TryFile(t, true)], c);
      RunsJoin(g, [TryLocal(t)] + [Open(t, true)] + [TryFile(t, true)], c, [Close(t, true)], d);
      RunsJoin(g, [TryLocal(t)] + [Open(t, true)] + [TryFile(t, true)] + [Close(t, true)], d, [ReleaseLocal(t)], h);
      steps := [TryLocal(t)] + [Open(t, true)] + [TryFile(t, true)] + [Close(t, true)] + [ReleaseLocal(t)];
    }
  }

  /**
   * Progress.  Left alone with calls that succeed, a thread that scans from
   * any state of the gate, with some token left to try that nobody holds,
   * gets inside with the first such token, and changes nothing else.
   */
  lemma {:induction false} GetsFirstFree(g: Gate, t: ThreadId, offset: nat) returns (steps: seq<Step>, h: Gate)
    requires g.slots > 0 && t in g.threads && g.threads[t].pc.Scan? && g.threads[t].pc.offset <= offset < g.slots
    requires FreeFor(g, t, offset) && forall k: nat | g.threads[t].pc.offset <= k < offset :: !FreeFor(g, t, k)
    ensures Runs(g, steps, h) && Alone(t, steps)
    ensures t in h.threads && h.threads[t].pc == Inside(offset) && h.threads - {t} == g.threads - {t}
    ensures var token := TokenAt(g.threads[t].start, offset, g.slots);
      && h.local == g.local + {(g.threads[t].process, token)} && h.file == g.file[token := t]
      && h.slots == g.slots && h.leaked == g.leaked && h.abandoned == g.abandoned
    decreases offset - g.threads[t].pc.offset
  {
    hide TokenAt, Runs;
    if g.threads[t].pc.offset == offset {
      steps, h := TakesFree(g, t);
    } else {
      var first, n := SkipsHeld(g, t);
      assert n.threads[t].pc == Scan(g.threads[t].pc.offset + 1);
      forall k: nat | n.threads[t].pc.offset <= k <= offset ensures FreeFor(n, t, k) == FreeFor(g, t, k) { }
      var rest;
      rest, h := GetsFirstFree(n, t, offset);
      assert n.threads - {t} == g.threads - {t};
      RunsJoin(g, first, n, rest, h);
      steps := first + rest;
    }
  }

  /** Left alone when every token left to try is held, it gives up on this scan with all of them recorded. */
  lemma {:induction false} GivesUpIfNoneFree(g: Gate, t: ThreadId) returns (steps: seq<Step>, h: Gate)
    requires g.slots > 0 && t in g.threads && g.threads[t].pc.Scan? && g.threads[t].pc.offset <= g.slots
    requires forall k: nat | g.threads[t].pc.offset <= k < g.slots :: !FreeFor(g, t, k)
    ensures Runs(g, steps, h) && Alone(t, steps)
    ensures t in h.threads && h.threads[t].pc == TimedOut && h == g.(threads := g.threads[t := h.threads[t]])
    decreases g.slots - g.threads[t].pc.offset
  {
    hide TokenAt, Runs;
    if g.threads[t].pc.offset == g.slots {
      steps, h := [Deadline(t, true)], Next(g, Deadline(t, true));
      OneStep(g, Deadline(t, true));
    } else {
      var first, n := SkipsHeld(g, t);
      forall k: nat | n.threads[t].pc.offset <= k < n.slots ensures FreeFor(n, t, k) == FreeFor(g, t, k) { }
      var rest;
      rest, h := GivesUpIfNoneFree(n, t);
      RunsJoin(g, first, n, rest, h);
      steps := first + rest;
    }
  }
}
