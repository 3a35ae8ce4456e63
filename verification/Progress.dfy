/** Any number of operations running at once over fair reader-writer locks. */
module Progress {
  import opened Types
  import opened Locks

  datatype Thread = Thread(prog: Program, pc: nat, queued: bool, held: map<Lock, Mode>) {
    predicate Done() {
      pc >= |prog|
    }

    predicate Wants(l: Lock) {
      queued && !Done() && prog[pc].Acquire? && prog[pc].lock == l
    }
  }

  /** The threads, and the queued ones in the order in which they asked. */
  datatype System = System(threads: seq<Thread>, arrivals: seq<nat>)

  datatype Move = Request(i: nat) | Grant(j: nat) | Free(i: nat) | Resume(i: nat)

  predicate Compatible(threads: seq<Thread>, l: Lock, m: Mode) {
    forall k :: 0 <= k < |threads| && l in threads[k].held ==> m == Read && threads[k].held[l] == Read
  }

  /** No earlier arrival waits for the same lock. */
  predicate FirstInLine(s: System, j: nat, l: Lock) {
    forall i :: 0 <= i < j < |s.arrivals| && s.arrivals[i] < |s.threads| ==> !s.threads[s.arrivals[i]].Wants(l)
  }

  predicate At(s: System, i: nat) {
    i < |s.threads| && !s.threads[i].Done() && !s.threads[i].queued
  }

  predicate CanMove(s: System, a: Move) {
    match a
    case Request(i) => At(s, i) && s.threads[i].prog[s.threads[i].pc].Acquire?
    case Free(i) => At(s, i) && s.threads[i].prog[s.threads[i].pc].Release?
    case Resume(i) =>
      && At(s, i) && s.threads[i].prog[s.threads[i].pc].AwaitReply?
      && var callee := s.threads[i].prog[s.threads[i].pc].callee; callee < |s.threads| && s.threads[callee].Done()
    case Grant(j) =>
      && j < |s.arrivals| && s.arrivals[j] < |s.threads|
      && var t := s.threads[s.arrivals[j]];
         && t.queued && !t.Done() && t.prog[t.pc].Acquire?
         && FirstInLine(s, j, t.prog[t.pc].lock)
         && Compatible(s.threads, t.prog[t.pc].lock, t.prog[t.pc].mode)
  }

  function MoveThread(t: Thread): Thread
    requires !t.Done()
  {
    match t.prog[t.pc]
    case Acquire(l, m) =>
      if t.queued then t.(pc := t.pc + 1, queued := false, held := t.held[l := m]) else t.(queued := true)
    case Release(l) => t.(pc := t.pc + 1, held := t.held - {l})
    case AwaitReply(_) => t.(pc := t.pc + 1)
  }

  function Mover(s: System, a: Move): nat
    requires CanMove(s, a)
  {
    match a case Request(i) => i case Free(i) => i case Resume(i) => i case Grant(j) => s.arrivals[j]
  }

  function Moved(s: System, a: Move): System
    requires CanMove(s, a)
  {
    var i := Mover(s, a);
    System(s.threads[i := MoveThread(s.threads[i])],
           match a
           case Request(_) => s.arrivals + [i]
           case Grant(j) => s.arrivals[..j] + s.arrivals[j + 1..]
           case _ => s.arrivals)
  }

  // --- What every state keeps ---

  ghost predicate ThreadOk(t: Thread) {
    && t.pc <= |t.prog|
    && Ordered(t.prog[t.pc..], t.held.Keys)
    && (t.queued ==> !t.Done() && t.prog[t.pc].Acquire?)
    && (forall l :: l in t.held ==> Acquire(l, t.held[l]) in t.prog)
  }

  ghost predicate QueueOk(s: System) {
    && (forall j :: 0 <= j < |s.arrivals| ==> s.arrivals[j] < |s.threads| && s.threads[s.arrivals[j]].queued)
    && (forall i :: 0 <= i < |s.threads| && s.threads[i].queued ==> i in s.arrivals)
    && (forall i, j :: 0 <= i < j < |s.arrivals| ==> s.arrivals[i] != s.arrivals[j])
  }

  /** A lock held for writing is held by nobody else. */
  ghost predicate Exclusive(s: System) {
    forall i, k, l ::
      (0 <= i < |s.threads| && 0 <= k < |s.threads| && i != k && l in s.threads[i].held && l in s.threads[k].held) ==>
        s.threads[i].held[l] == Read
  }

  ghost predicate SystemOk(s: System) {
    && (forall i :: 0 <= i < |s.threads| ==> ThreadOk(s.threads[i]))
    && QueueOk(s)
    && Exclusive(s)
  }

  lemma ThreadKept(t: Thread)
    requires ThreadOk(t) && !t.Done()
    ensures ThreadOk(MoveThread(t))
  {
    assert t.prog[t.pc..][1..] == t.prog[t.pc + 1..];
    assert t.prog[t.pc..][0] == t.prog[t.pc];
    match t.prog[t.pc] {
      case Acquire(l, m) => assert t.held[l := m].Keys == t.held.Keys + {l};
      case Release(l) => assert (t.held - {l}).Keys == t.held.Keys - {l};
      case AwaitReply(_) =>
    }
  }

  lemma QueueKeptByRequest(s: System, i: nat)
    requires QueueOk(s) && CanMove(s, Request(i))
    ensures QueueOk(Moved(s, Request(i)))
  {
    var s' := Moved(s, Request(i));
    assert forall j :: 0 <= j < |s.arrivals| ==> s'.arrivals[j] == s.arrivals[j];
    assert i !in s.arrivals;
    forall k | 0 <= k < |s'.threads| && s'.threads[k].queued ensures k in s'.arrivals {
      if k != i {
        assert k in s.arrivals;
      }
    }
  }

  lemma QueueKeptByGrant(s: System, j: nat, t: Thread)
    requires QueueOk(s) && j < |s.arrivals| && !t.queued
    ensures QueueOk(System(s.threads[s.arrivals[j] := t], s.arrivals[..j] + s.arrivals[j + 1..]))
  {
    var arrivals := s.arrivals[..j] + s.arrivals[j + 1..];
    assert forall k :: 0 <= k < |arrivals| ==> arrivals[k] == s.arrivals[if k < j then k else k + 1];
    forall i | 0 <= i < |s.threads| && i != s.arrivals[j] && s.threads[i].queued ensures i in arrivals {
      var k :| 0 <= k < |s.arrivals| && s.arrivals[k] == i;
      assert arrivals[if k < j then k else k - 1] == i;
    }
  }

  lemma QueueKept(s: System, a: Move)
    requires QueueOk(s) && CanMove(s, a)
    ensures QueueOk(Moved(s, a))
  {
    match a {
      case Grant(j) => QueueKeptByGrant(s, j, MoveThread(s.threads[s.arrivals[j]]));
      case Request(i) => QueueKeptByRequest(s, i);
      case _ =>
    }
  }

  lemma ExclusiveKept(s: System, a: Move)
    requires SystemOk(s) && CanMove(s, a)
    ensures Exclusive(Moved(s, a))
  {
  }

  lemma SystemKept(s: System, a: Move)
    requires SystemOk(s) && CanMove(s, a)
    ensures SystemOk(Moved(s, a))
  {
    ThreadKept(s.threads[Mover(s, a)]);
    QueueKept(s, a);
    ExclusiveKept(s, a);
  }

  // --- Somebody can always move ---

  predicate AllDone(s: System) {
    forall i :: 0 <= i < |s.threads| ==> s.threads[i].Done()
  }

  function WantedRank(s: System, j: nat): nat
    requires j < |s.arrivals| && s.arrivals[j] < |s.threads|
    requires var t := s.threads[s.arrivals[j]]; !t.Done() && t.prog[t.pc].Acquire?
  {
    var t := s.threads[s.arrivals[j]];
    Rank(t.prog[t.pc].lock)
  }

  /** Some queued thread waits for a lock of highest rank. */
  lemma {:induction false} HighestWanted(s: System, n: nat) returns (j: nat)
    requires SystemOk(s) && 0 < n <= |s.arrivals|
    ensures j < n && forall k :: 0 <= k < n ==> WantedRank(s, k) <= WantedRank(s, j)
  {
    if n == 1 {
      j := 0;
    } else {
      j := HighestWanted(s, n - 1);
      if WantedRank(s, j) < WantedRank(s, n - 1) {
        j := n - 1;
      }
    }
  }

  /** The first in line for the lock that arrival `j` waits for. */
  lemma {:induction false} FirstFor(s: System, j: nat) returns (f: nat)
    requires SystemOk(s) && j < |s.arrivals|
    ensures f <= j
    ensures var t, u := s.threads[s.arrivals[j]], s.threads[s.arrivals[f]];
            u.prog[u.pc].lock == t.prog[t.pc].lock && FirstInLine(s, f, u.prog[u.pc].lock)
  {
    var t := s.threads[s.arrivals[j]];
    if i :| 0 <= i < j && s.threads[s.arrivals[i]].Wants(t.prog[t.pc].lock) {
      f := FirstFor(s, i);
    } else {
      f := j;
    }
  }

  // --- Calls made while handling calls ---

  /** While call `i` is handled, call `c` is made. */
  predicate Calls(ops: seq<Op>, i: nat, c: nat) {
    i < |ops| && ops[i].HandlerCall? && c in ops[i].nested
  }

  /** Nested calls are handler calls, numbered after the call they are made for. They may run at any time,
      side by side: that leaves more interleavings than there are. */
  ghost predicate CallsOk(ops: seq<Op>) {
    forall i: nat, c: nat :: Calls(ops, i, c) ==> i < c < |ops| && ops[c].HandlerCall?
  }

  /** A chain of one or more nested calls leads from call `i` to call `j`. */
  ghost predicate Leads(ops: seq<Op>, i: nat, j: nat)
    decreases |ops| - i
  {
    exists c: nat :: Calls(ops, i, c) && i < c < |ops| && (c == j || Leads(ops, c, j))
  }

  /** Some chain of calls comes back into a group it has left, and a link operation patches the links of
      that group. */
  ghost predicate Returns(ops: seq<Op>) {
    exists i: nat, j: nat, w: nat :: ReturnsAt(ops, i, j, w)
  }

  ghost predicate ReturnsAt(ops: seq<Op>, i: nat, j: nat, w: nat) {
    && i < |ops| && j < |ops| && w < |ops| && Leads(ops, i, j)
    && ops[i].HandlerCall? && ops[j].HandlerCall? && ops[i].g == ops[j].g && Patches(ops[w], ops[i].g)
  }

  /** The threads run the programs of `ops`. */
  ghost predicate Hosting(s: System, ops: seq<Op>) {
    |s.threads| == |ops| && forall i :: 0 <= i < |ops| ==> s.threads[i].prog == ProgramOf(ops[i])
  }

  ghost predicate Still(s: System) {
    forall a :: !CanMove(s, a)
  }

  predicate Awaiting(t: Thread) {
    !t.Done() && !t.queued && t.prog[t.pc].AwaitReply?
  }

  /** When nothing moves, a thread is done, queued, or waits for a call that is not done. */
  lemma StillThread(s: System, i: nat)
    requires SystemOk(s) && Still(s) && i < |s.threads|
    ensures var t := s.threads[i];
            || t.Done() || t.queued
            || (Awaiting(t) && var c := t.prog[t.pc].callee; c < |s.threads| ==> !s.threads[c].Done())
  {
    var t := s.threads[i];
    if !t.Done() && !t.queued {
      assert !CanMove(s, Request(i)) && !CanMove(s, Free(i)) && !CanMove(s, Resume(i));
    }
  }

  /** What a thread that is queued, done or waiting holds, compared with what another one wants. */
  lemma HolderIsAwaiting(s: System, j: nat, k: nat)
    requires SystemOk(s) && Still(s) && j < |s.arrivals| && k < |s.threads|
    requires forall i :: 0 <= i < |s.arrivals| ==> WantedRank(s, i) <= WantedRank(s, j)
    requires var t := s.threads[s.arrivals[j]]; t.prog[t.pc].lock in s.threads[k].held
    ensures Awaiting(s.threads[k]) && WantedRank(s, j) == 7
  {
    var t, h := s.threads[s.arrivals[j]], s.threads[k];
    StillThread(s, k);
    HolderGoesUp(h);
    if h.queued {
      QueuedWantsLess(s, j, k);
    }
  }

  lemma QueuedWantsLess(s: System, j: nat, k: nat)
    requires SystemOk(s) && j < |s.arrivals| && k < |s.threads| && s.threads[k].queued
    requires forall i :: 0 <= i < |s.arrivals| ==> WantedRank(s, i) <= WantedRank(s, j)
    ensures var h := s.threads[k]; Rank(h.prog[h.pc].lock) <= WantedRank(s, j)
  {
    var i :| 0 <= i < |s.arrivals| && s.arrivals[i] == k;
    assert WantedRank(s, i) <= WantedRank(s, j);
  }

  /** A thread that holds something is not done; it asks for something higher, or waits for a reply holding
      the links of a group. */
  lemma HolderGoesUp(h: Thread)
    requires ThreadOk(h) && h.held != map[]
    ensures !h.Done()
    ensures h.queued ==> forall l :: l in h.held ==> Rank(l) < Rank(h.prog[h.pc].lock)
    ensures Awaiting(h) ==> MayAwait(h.held.Keys)
  {
    if !h.Done() {
      assert h.prog[h.pc..][0] == h.prog[h.pc];
    }
  }

  /** When nothing moves, the first in line for a lock of highest wanted rank is a link operation, held up
      by a handler call that waits for a reply. */
  lemma WriterBlocked(s: System, ops: seq<Op>, j: nat) returns (f: nat, k: nat)
    requires SystemOk(s) && Hosting(s, ops) && Still(s) && j < |s.arrivals|
    requires forall i :: 0 <= i < |s.arrivals| ==> WantedRank(s, i) <= WantedRank(s, j)
    ensures f < |s.arrivals| && k < |ops| && Awaiting(s.threads[k]) && ops[k].HandlerCall?
    ensures var t, u := s.threads[s.arrivals[j]], s.threads[s.arrivals[f]];
            && t.prog[t.pc].lock == GroupLinks(ops[k].g)
            && u.prog[u.pc] == Acquire(GroupLinks(ops[k].g), Write)
            && Patches(ops[s.arrivals[f]], ops[k].g)
  {
    f := FirstFor(s, j);
    var u := s.threads[s.arrivals[f]];
    var l, m := u.prog[u.pc].lock, u.prog[u.pc].mode;
    assert !CanMove(s, Grant(f));
    assert !Compatible(s.threads, l, m);
    k :| 0 <= k < |s.threads| && l in s.threads[k].held && !(m == Read && s.threads[k].held[l] == Read);
    HolderIsAwaiting(s, j, k);
    AwaitingIsHandler(s, ops, k);
    HandlerUses(ops[k], Acquire(l, s.threads[k].held[l]));
    var w := s.arrivals[f];
    assert u.prog[u.pc] in ProgramOf(ops[w]);
    if ops[w].HandlerCall? {
      HandlerUses(ops[w], u.prog[u.pc]);
    } else {
      OthersForeign(ops[w], u.prog[u.pc]);
    }
  }

  lemma AwaitingIsHandler(s: System, ops: seq<Op>, k: nat)
    requires Hosting(s, ops) && k < |ops| && Awaiting(s.threads[k])
    ensures var t := s.threads[k]; ops[k].HandlerCall? && t.prog[t.pc].callee in ops[k].nested
  {
    var x := s.threads[k].prog[s.threads[k].pc];
    assert x in ProgramOf(ops[k]);
    if ops[k].HandlerCall? {
      HandlerUses(ops[k], x);
    } else {
      OthersForeign(ops[k], x);
    }
  }

  /** A call that waits leads, through calls that wait, to one that is queued. */
  lemma {:induction false} EndOfChain(s: System, ops: seq<Op>, k: nat) returns (e: nat)
    requires SystemOk(s) && Hosting(s, ops) && CallsOk(ops) && Still(s) && k < |ops| && Awaiting(s.threads[k])
    ensures Leads(ops, k, e) && e < |ops| && ops[e].HandlerCall? && s.threads[e].queued
    decreases |ops| - k
  {
    AwaitingIsHandler(s, ops, k);
    var c := s.threads[k].prog[s.threads[k].pc].callee;
    assert Calls(ops, k, c);
    StillThread(s, k);
    StillThread(s, c);
    e := c;
    if !s.threads[c].queued {
      e := EndOfChain(s, ops, c);
    }
  }

  /** Link operations exclude one another: two queued for caches are one. */
  lemma OneWriter(s: System, ops: seq<Op>, v: nat, w: nat)
    requires SystemOk(s) && Hosting(s, ops) && v < |ops| && w < |ops|
    requires forall i :: i == v || i == w ==>
               var t := s.threads[i];
               !t.Done() && t.prog[t.pc].Acquire? && t.prog[t.pc].lock.GroupLinks? && t.prog[t.pc].mode == Write
    ensures v == w
  {
    HoldsLinkLock(s, ops, v);
    HoldsLinkLock(s, ops, w);
  }

  lemma HoldsLinkLock(s: System, ops: seq<Op>, w: nat)
    requires SystemOk(s) && Hosting(s, ops) && w < |ops|
    requires var t := s.threads[w];
             !t.Done() && t.prog[t.pc].Acquire? && t.prog[t.pc].lock.GroupLinks? && t.prog[t.pc].mode == Write
    ensures CtxLinks in s.threads[w].held && s.threads[w].held[CtxLinks] == Write
  {
    var t := s.threads[w];
    assert ThreadOk(t);
    assert t.prog[t.pc..][0] == t.prog[t.pc];
    assert MayTake(t.held.Keys, t.prog[t.pc].lock, Write);
    var x := Acquire(CtxLinks, t.held[CtxLinks]);
    assert x in ProgramOf(ops[w]);
    if ops[w].HandlerCall? {
      HandlerUses(ops[w], x);
    } else {
      OthersForeign(ops[w], x);
    }
  }

  /** When nothing moves although something is unfinished, a chain of calls has come back into a group
      whose links are about to be patched. */
  lemma StuckReturns(s: System, ops: seq<Op>)
    requires SystemOk(s) && Hosting(s, ops) && CallsOk(ops) && Still(s) && !AllDone(s)
    ensures Returns(ops)
  {
    SomebodyQueued(s, ops);
    var j := HighestWanted(s, |s.arrivals|);
    var f, k := WriterBlocked(s, ops, j);
    var e := EndOfChain(s, ops, k);
    var b := QueuedCall(s, ops, e);
    var f', k' := WriterBlocked(s, ops, b);
    OneWriter(s, ops, s.arrivals[f], s.arrivals[f']);
    assert ReturnsAt(ops, k, e, s.arrivals[f]);
  }

  /** A queued call asks for the links of its group, which no lock ranks above. */
  lemma QueuedCall(s: System, ops: seq<Op>, e: nat) returns (b: nat)
    requires SystemOk(s) && Hosting(s, ops) && e < |ops| && ops[e].HandlerCall? && s.threads[e].queued
    ensures b < |s.arrivals| && s.arrivals[b] == e
    ensures var t := s.threads[e]; t.prog[t.pc].lock == GroupLinks(ops[e].g)
    ensures forall i :: 0 <= i < |s.arrivals| ==> WantedRank(s, i) <= WantedRank(s, b)
  {
    var t := s.threads[e];
    assert t.prog[t.pc] in ProgramOf(ops[e]);
    HandlerUses(ops[e], t.prog[t.pc]);
    b :| 0 <= b < |s.arrivals| && s.arrivals[b] == e;
  }

  lemma SomebodyQueued(s: System, ops: seq<Op>)
    requires SystemOk(s) && Hosting(s, ops) && CallsOk(ops) && Still(s) && !AllDone(s)
    ensures s.arrivals != []
  {
    var i :| 0 <= i < |s.threads| && !s.threads[i].Done();
    StillThread(s, i);
    if !s.threads[i].queued {
      var e := EndOfChain(s, ops, i);
      assert e in s.arrivals;
    }
  }

  /** As long as no chain of calls comes back into a group whose links are patched, an unfinished
      operation means that some operation can move: no circular wait. */
  lemma NeverStuck(s: System, ops: seq<Op>)
    requires SystemOk(s) && Hosting(s, ops) && CallsOk(ops) && !Returns(ops) && !AllDone(s)
    ensures exists a :: CanMove(s, a)
  {
    if Still(s) {
      StuckReturns(s, ops);
    }
  }

  // --- Whole runs ---

  ghost predicate Moves(s: System, moves: seq<Move>, s': System)
    decreases moves
  {
    if moves == [] then s == s'
    else CanMove(s, moves[0]) && Moves(Moved(s, moves[0]), moves[1..], s')
  }

  /** All operations at their start. */
  function Start(ops: seq<Op>): System {
    System(seq(|ops|, i requires 0 <= i < |ops| => Thread(ProgramOf(ops[i]), 0, false, map[])), [])
  }

  lemma StartOk(ops: seq<Op>)
    ensures SystemOk(Start(ops))
  {
    forall i | 0 <= i < |ops| ensures ThreadOk(Start(ops).threads[i]) {
      EveryOpOrdered(ops[i]);
      var t := Start(ops).threads[i];
      assert t.held.Keys == {} && t.prog[t.pc..] == ProgramOf(ops[i]);
    }
  }

  lemma StartHosts(ops: seq<Op>)
    ensures Hosting(Start(ops), ops)
  {
  }

  lemma {:induction false} SystemOkAlong(s: System, ops: seq<Op>, moves: seq<Move>, s': System)
    requires SystemOk(s) && Hosting(s, ops) && Moves(s, moves, s')
    ensures SystemOk(s') && Hosting(s', ops)
    decreases moves
  {
    if moves != [] {
      SystemKept(s, moves[0]);
      SystemOkAlong(Moved(s, moves[0]), ops, moves[1..], s');
    }
  }

  /** How much is left to do: two moves per acquisition, one per release. */
  function Left(t: Thread): nat {
    if t.Done() then 0 else 2 * (|t.prog| - t.pc) - (if t.queued then 1 else 0)
  }

  function Work(threads: seq<Thread>): nat {
    if threads == [] then 0 else Left(threads[0]) + Work(threads[1..])
  }

  lemma {:induction false} WorkUpdate(threads: seq<Thread>, i: nat, t: Thread)
    requires i < |threads|
    ensures Work(threads[i := t]) == Work(threads) - Left(threads[i]) + Left(t)
  {
    if i == 0 {
      assert threads[i := t][1..] == threads[1..];
    } else {
      assert threads[i := t][1..] == threads[1..][i - 1 := t];
      WorkUpdate(threads[1..], i - 1, t);
    }
  }

  lemma MoveWorks(s: System, a: Move)
    requires CanMove(s, a)
    ensures Work(Moved(s, a).threads) < Work(s.threads)
  {
    var i := Mover(s, a);
    WorkUpdate(s.threads, i, MoveThread(s.threads[i]));
  }

  lemma {:induction false} RunIsShort(s: System, moves: seq<Move>, s': System)
    requires Moves(s, moves, s')
    ensures |moves| + Work(s'.threads) <= Work(s.threads)
    decreases moves
  {
    if moves != [] {
      MoveWorks(s, moves[0]);
      RunIsShort(Moved(s, moves[0]), moves[1..], s');
    }
  }

  /** Any number of control operations and calls, started together and interleaved in any way: every run
      is bounded, a writer is always alone, and unless a chain of calls comes back into a group whose
      links are patched, a run that cannot be continued has finished every operation. */
  lemma AllOperationsFinish(ops: seq<Op>, moves: seq<Move>, s: System)
    requires CallsOk(ops) && Moves(Start(ops), moves, s)
    ensures |moves| <= Work(Start(ops).threads)
    ensures Exclusive(s)
    ensures !Returns(ops) && Still(s) ==> AllDone(s)
  {
    StartOk(ops);
    StartHosts(ops);
    SystemOkAlong(Start(ops), ops, moves, s);
    RunIsShort(Start(ops), moves, s);
    if !AllDone(s) && !Returns(ops) {
      NeverStuck(s, ops);
    }
  }

  /** It is enough that calls go upwards in some numbering of the groups. */
  lemma {:induction false} UpwardCallsFinish(ops: seq<Op>, level: nat -> nat)
    requires CallsOk(ops)
    requires forall i: nat, c: nat :: Calls(ops, i, c) ==> level(ops[i].g) < level(ops[c].g)
    ensures !Returns(ops)
  {
    if i: nat, j: nat, w: nat :| ReturnsAt(ops, i, j, w) {
      ChainGoesUp(ops, level, i, j);
    }
  }

  lemma {:induction false} ChainGoesUp(ops: seq<Op>, level: nat -> nat, i: nat, j: nat)
    requires CallsOk(ops) && Leads(ops, i, j)
    requires forall i: nat, c: nat :: Calls(ops, i, c) ==> level(ops[i].g) < level(ops[c].g)
    ensures i < j < |ops| && ops[i].HandlerCall? && ops[j].HandlerCall? && level(ops[i].g) < level(ops[j].g)
    decreases |ops| - i
  {
    var c: nat :| Calls(ops, i, c) && i < c < |ops| && (c == j || Leads(ops, c, j));
    if c != j {
      ChainGoesUp(ops, level, c, j);
    }
  }
}
