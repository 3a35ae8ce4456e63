/** Where progress ends: a handler keeps reading its group's links until the reply to its call arrives.
    If a chain of calls comes back into the same group while a link operation waits to patch that cache,
    the inner call queues behind the writer, the writer behind the outer call, and the outer call waits
    for the inner one. */
module Reentry {
  import opened Types
  import opened Locks
  import opened Progress

  ghost predicate CanReach(s: System, s': System) {
    exists moves :: Moves(s, moves, s')
  }

  lemma {:induction false} MovesThen(s: System, moves: seq<Move>, m: System, a: Move)
    requires Moves(s, moves, m) && CanMove(m, a)
    ensures Moves(s, moves + [a], Moved(m, a))
    decreases moves
  {
    if moves == [] {
      assert (moves + [a])[1..] == [];
    } else {
      assert (moves + [a])[1..] == moves[1..] + [a];
      MovesThen(Moved(s, moves[0]), moves[1..], m, a);
    }
  }

  lemma ReachMove(s: System, m: System, a: Move)
    requires CanReach(s, m) && CanMove(m, a)
    ensures CanReach(s, Moved(m, a))
  {
    var moves :| Moves(s, moves, m);
    MovesThen(s, moves, m, a);
  }

  /** A lone request for a compatible lock is granted. */
  lemma GrantAlone(m: System, i: nat, l: Lock, mode: Mode)
    requires m.arrivals == [] && At(m, i)
    requires m.threads[i].prog[m.threads[i].pc] == Acquire(l, mode) && Compatible(m.threads, l, mode)
    ensures var t := m.threads[i];
            var q := System(m.threads[i := t.(queued := true)], [i]);
            && Moved(m, Request(i)) == q
            && CanMove(q, Grant(0))
            && Moved(q, Grant(0)) == System(m.threads[i := t.(pc := t.pc + 1, held := t.held[l := mode])], [])
  {
    var q := System(m.threads[i := m.threads[i].(queued := true)], [i]);
    assert forall k :: 0 <= k < |q.threads| ==> q.threads[k].held == m.threads[k].held;
    assert Compatible(q.threads, l, mode);
  }

  lemma ReachTake(s: System, m: System, i: nat, l: Lock, mode: Mode)
    requires CanReach(s, m) && m.arrivals == [] && At(m, i)
    requires m.threads[i].prog[m.threads[i].pc] == Acquire(l, mode) && Compatible(m.threads, l, mode)
    ensures var t := m.threads[i];
            CanReach(s, System(m.threads[i := t.(pc := t.pc + 1, held := t.held[l := mode])], []))
  {
    GrantAlone(m, i, l, mode);
    ReachMove(s, m, Request(i));
    ReachMove(s, System(m.threads[i := m.threads[i].(queued := true)], [i]), Grant(0));
  }

  // --- Into the trap ---

  function Fresh(ops: seq<Op>, k: nat): Thread
    requires k < |ops|
  {
    Thread(ProgramOf(ops[k]), 0, false, map[])
  }

  function Inside(ops: seq<Op>, k: nat): Thread
    requires k < |ops| && ops[k].HandlerCall?
  {
    Thread(ProgramOf(ops[k]), 1, false, map[GroupLinks(ops[k].g) := Read])
  }

  predicate Handlers(ops: seq<Op>, inside: set<nat>) {
    forall k :: k in inside ==> k < |ops| && ops[k].HandlerCall?
  }

  /** The calls `inside` have been made; everything else is at its start. */
  function Entered(ops: seq<Op>, inside: set<nat>): (s: System)
    requires Handlers(ops, inside)
    ensures |s.threads| == |ops| && s.arrivals == []
    ensures forall k :: 0 <= k < |ops| ==> s.threads[k] == if k in inside then Inside(ops, k) else Fresh(ops, k)
  {
    System(seq(|ops|, k requires 0 <= k < |ops| => if k in inside then Inside(ops, k) else Fresh(ops, k)), [])
  }

  /** One more call is made. */
  lemma EnterOne(ops: seq<Op>, inside: set<nat>, i: nat)
    requires Handlers(ops, inside) && i !in inside && i < |ops| && ops[i].HandlerCall?
    requires CanReach(Start(ops), Entered(ops, inside))
    ensures CanReach(Start(ops), Entered(ops, inside + {i}))
  {
    var m := Entered(ops, inside);
    HandlerProgram(ops[i].g, ops[i].nested);
    assert m.threads[i].prog == ProgramOf(HandlerCall(ops[i].g, ops[i].nested));
    ReachTake(Start(ops), m, i, GroupLinks(ops[i].g), Read);
    assert m.threads[i := Inside(ops, i)] == Entered(ops, inside + {i}).threads;
  }

  /** Each call inside is made for `j`, or for another call inside. */
  ghost predicate Chained(ops: seq<Op>, inside: set<nat>, j: nat) {
    forall k :: k in inside ==> exists c: nat :: Calls(ops, k, c) && (c in inside || c == j)
  }

  lemma ChainedOne(ops: seq<Op>, inside: set<nat>, i: nat, c: nat)
    requires Chained(ops, inside, i) && Calls(ops, i, c)
    ensures Chained(ops, inside + {i}, c)
  {
    forall k | k in inside + {i} ensures exists d: nat :: Calls(ops, k, d) && (d in inside + {i} || d == c) {
      if k == i {
        assert Calls(ops, k, c);
      } else {
        var d: nat :| Calls(ops, k, d) && (d in inside || d == i);
      }
    }
  }

  /** The calls of a chain up to call `i` have been made, and nothing else. */
  ghost predicate Ready(ops: seq<Op>, inside: set<nat>, i: nat) {
    && Handlers(ops, inside) && (forall k :: k in inside ==> k < i) && Chained(ops, inside, i)
    && CanReach(Start(ops), Entered(ops, inside))
  }

  lemma NoneEntered(ops: seq<Op>, i: nat)
    ensures Ready(ops, {}, i)
  {
    assert Entered(ops, {}) == Start(ops);
    assert Moves(Start(ops), [], Start(ops));
  }

  lemma EnterStep(ops: seq<Op>, inside: set<nat>, i: nat, c: nat)
    requires Ready(ops, inside, i) && Calls(ops, i, c) && i < c
    ensures Ready(ops, inside + {i}, c)
  {
    EnterOne(ops, inside, i);
    ChainedOne(ops, inside, i, c);
  }

  /** From the outer call inwards, the calls of a chain are made, up to the last one. */
  lemma {:induction false} EnterChain(ops: seq<Op>, before: set<nat>, i: nat, j: nat) returns (inside: set<nat>)
    requires Leads(ops, i, j) && Ready(ops, before, i)
    ensures before + {i} <= inside && Ready(ops, inside, j)
    decreases |ops| - i
  {
    var c: nat :| Calls(ops, i, c) && i < c < |ops| && (c == j || Leads(ops, c, j));
    EnterStep(ops, before, i, c);
    inside := before + {i};
    if c != j {
      inside := EnterChain(ops, inside, c, j);
    }
  }

  // --- The writer in line ---

  function WriterAt(ops: seq<Op>, w: nat, pc: nat, queued: bool, held: map<Lock, Mode>): Thread
    requires w < |ops|
  {
    Thread(ProgramOf(ops[w]), pc, queued, held)
  }

  lemma WriterProgram(op: Op, g: nat)
    requires Patches(op, g)
    ensures ProgramOf(op) ==
            [Acquire(CtxLinks, Write), Acquire(HostLinks, Write), Release(HostLinks), Acquire(Actors, Read),
             Acquire(GroupLinks(g), Write), Release(GroupLinks(g)), Release(Actors), Release(CtxLinks)]
  {
  }

  /** Nobody but thread `w` holds anything else than group links, and those for reading. */
  predicate OnlyReaders(threads: seq<Thread>, w: nat) {
    forall k, l :: 0 <= k < |threads| && k != w && l in threads[k].held ==> l.GroupLinks? && threads[k].held[l] == Read
  }

  lemma NoReaderInTheWay(threads: seq<Thread>, w: nat, l: Lock, m: Mode)
    requires OnlyReaders(threads, w) && w < |threads| && l !in threads[w].held && !l.GroupLinks?
    ensures Compatible(threads, l, m)
  {
  }

  /** With only readers besides, the writer gets as far as asking for the cache. */
  lemma WriterComes(s: System, m: System, ops: seq<Op>, w: nat, g: nat)
    requires CanReach(s, m) && m.arrivals == [] && w < |ops| == |m.threads|
    requires Patches(ops[w], g) && m.threads[w] == Fresh(ops, w) && OnlyReaders(m.threads, w)
    ensures var held := map[CtxLinks := Write, Actors := Read];
            CanReach(s, System(m.threads[w := WriterAt(ops, w, 4, false, held)], []))
  {
    WriterProgram(ops[w], g);
    NoReaderInTheWay(m.threads, w, CtxLinks, Write);
    ReachTake(s, m, w, CtxLinks, Write);
    var m1 := System(m.threads[w := WriterAt(ops, w, 1, false, map[CtxLinks := Write])], []);
    assert map[][CtxLinks := Write] == map[CtxLinks := Write];
    assert CanReach(s, m1);
    assert OnlyReaders(m1.threads, w);
    NoReaderInTheWay(m1.threads, w, HostLinks, Write);
    ReachTake(s, m1, w, HostLinks, Write);
    var m2 := System(m.threads[w := WriterAt(ops, w, 2, false, map[CtxLinks := Write, HostLinks := Write])], []);
    assert m1.threads[w := m2.threads[w]] == m2.threads;
    WriterGoesOn(s, m, m2, ops, w, g);
  }

  lemma WriterGoesOn(s: System, m: System, m2: System, ops: seq<Op>, w: nat, g: nat)
    requires CanReach(s, m2) && m.arrivals == [] && w < |ops| == |m.threads|
    requires Patches(ops[w], g) && OnlyReaders(m.threads, w)
    requires m2 == System(m.threads[w := WriterAt(ops, w, 2, false, map[CtxLinks := Write, HostLinks := Write])], [])
    ensures var held := map[CtxLinks := Write, Actors := Read];
            CanReach(s, System(m.threads[w := WriterAt(ops, w, 4, false, held)], []))
  {
    WriterProgram(ops[w], g);
    ReachMove(s, m2, Free(w));
    var m3 := System(m.threads[w := WriterAt(ops, w, 3, false, map[CtxLinks := Write])], []);
    assert map[CtxLinks := Write, HostLinks := Write] - {HostLinks} == map[CtxLinks := Write];
    assert m2.threads[w := m3.threads[w]] == m3.threads;
    WriterTakesActors(s, m, m3, ops, w, g);
  }

  lemma WriterTakesActors(s: System, m: System, m3: System, ops: seq<Op>, w: nat, g: nat)
    requires CanReach(s, m3) && w < |ops| == |m.threads| && Patches(ops[w], g) && OnlyReaders(m.threads, w)
    requires m3 == System(m.threads[w := WriterAt(ops, w, 3, false, map[CtxLinks := Write])], [])
    ensures var held := map[CtxLinks := Write, Actors := Read];
            CanReach(s, System(m.threads[w := WriterAt(ops, w, 4, false, held)], []))
  {
    WriterProgram(ops[w], g);
    assert OnlyReaders(m3.threads, w);
    NoReaderInTheWay(m3.threads, w, Actors, Read);
    ReachTake(s, m3, w, Actors, Read);
    var m4 := System(m.threads[w := WriterAt(ops, w, 4, false, map[CtxLinks := Write, Actors := Read])], []);
    assert m3.threads[w := m4.threads[w]] == m4.threads;
  }

  // --- The trap ---

  /** Thread `t` is inside call `op` and has yet to see the end of call `c`. */
  ghost predicate Expects(t: Thread, op: Op, c: nat) {
    && op.HandlerCall? && t.prog == ProgramOf(op) && !t.queued && t.held == map[GroupLinks(op.g) := Read]
    && 1 <= t.pc <= |op.nested| && c in op.nested[t.pc - 1..]
  }

  /** The calls inside wait for one another and in the end for call `j`, which stands in line behind
      link operation `w`, which stands in line behind call `i`. */
  ghost predicate Trapped(s: System, ops: seq<Op>, inside: set<nat>, i: nat, j: nat, w: nat) {
    && |s.threads| == |ops| && i in inside && j < |ops| && w < |ops| && w !in inside && j !in inside
    && Handlers(ops, inside)
    && InsideWait(s, ops, inside, j)
    && AsksFor(s.threads[w], Acquire(GroupLinks(ops[i].g), Write))
    && AsksFor(s.threads[j], Acquire(GroupLinks(ops[i].g), Read))
    && InLine(s.arrivals, w, j)
  }

  ghost predicate InsideWait(s: System, ops: seq<Op>, inside: set<nat>, j: nat)
    requires |s.threads| == |ops| && Handlers(ops, inside)
  {
    forall k :: k in inside ==> exists c: nat :: (c in inside || c == j) && Expects(s.threads[k], ops[k], c)
  }

  predicate AsksFor(t: Thread, x: Instr) {
    t.queued && !t.Done() && t.prog[t.pc] == x
  }

  ghost predicate InLine(arrivals: seq<nat>, w: nat, j: nat) {
    exists a, b :: 0 <= a < b < |arrivals| && arrivals[a] == w && arrivals[b] == j
  }

  lemma InsideExpects(ops: seq<Op>, k: nat, c: nat)
    requires Calls(ops, k, c)
    ensures Expects(Inside(ops, k), ops[k], c)
  {
    assert ops[k].nested[0..] == ops[k].nested;
  }

  lemma AllExpect(s: System, ops: seq<Op>, inside: set<nat>, j: nat)
    requires Handlers(ops, inside) && Chained(ops, inside, j) && |s.threads| == |ops|
    requires forall k :: k in inside ==> s.threads[k] == Inside(ops, k)
    ensures InsideWait(s, ops, inside, j)
  {
    forall k | k in inside ensures exists c: nat :: (c in inside || c == j) && Expects(s.threads[k], ops[k], c) {
      var c: nat :| Calls(ops, k, c) && (c in inside || c == j);
      InsideExpects(ops, k, c);
    }
  }

  /** The link operation and then the inner call stand in line. */
  function Closed(ops: seq<Op>, inside: set<nat>, j: nat, w: nat): (s: System)
    requires Handlers(ops, inside) && j < |ops| && w < |ops| && j !in inside && w !in inside && j != w
    ensures |s.threads| == |ops| && s.arrivals == [w, j]
    ensures s.threads[w] == WriterAt(ops, w, 4, true, map[CtxLinks := Write, Actors := Read])
    ensures s.threads[j] == Fresh(ops, j).(queued := true)
    ensures forall k :: k in inside ==> s.threads[k] == Inside(ops, k)
  {
    System(Entered(ops, inside).threads[w := WriterAt(ops, w, 4, true, map[CtxLinks := Write, Actors := Read])]
                                       [j := Fresh(ops, j).(queued := true)], [w, j])
  }

  lemma TrapCloses(ops: seq<Op>, inside: set<nat>, i: nat, j: nat, w: nat)
    requires Handlers(ops, inside) && i in inside && j !in inside && Chained(ops, inside, j)
    requires j < |ops| && w < |ops| && ops[j].HandlerCall? && ops[j].g == ops[i].g && Patches(ops[w], ops[i].g)
    ensures Trapped(Closed(ops, inside, j, w), ops, inside, i, j, w)
  {
    var s := Closed(ops, inside, j, w);
    WriterThenCall(s.arrivals, w, j);
    BothAsk(ops, j, w, ops[i].g);
    AllExpect(s, ops, inside, j);
  }

  lemma WriterThenCall(arrivals: seq<nat>, w: nat, j: nat)
    requires arrivals == [w, j]
    ensures InLine(arrivals, w, j)
  {
    assert arrivals[0] == w && arrivals[1] == j;
  }

  lemma BothAsk(ops: seq<Op>, j: nat, w: nat, g: nat)
    requires j < |ops| && w < |ops| && ops[j].HandlerCall? && ops[j].g == g && Patches(ops[w], g)
    ensures AsksFor(WriterAt(ops, w, 4, true, map[CtxLinks := Write, Actors := Read]), Acquire(GroupLinks(g), Write))
    ensures AsksFor(Fresh(ops, j).(queued := true), Acquire(GroupLinks(g), Read))
  {
    WriterProgram(ops[w], g);
    HandlerProgram(ops[j].g, ops[j].nested);
    assert ops[j] == HandlerCall(ops[j].g, ops[j].nested);
  }

  lemma ClosedReachable(ops: seq<Op>, inside: set<nat>, j: nat, w: nat, g: nat)
    requires Handlers(ops, inside) && CanReach(Start(ops), Entered(ops, inside))
    requires j < |ops| && w < |ops| && j !in inside && ops[j].HandlerCall? && Patches(ops[w], g)
    ensures CanReach(Start(ops), Closed(ops, inside, j, w))
  {
    var m := Entered(ops, inside);
    WriterComes(Start(ops), m, ops, w, g);
    WriterAsks(ops, m, w, g);
    var m2 := System(m.threads[w := WriterAt(ops, w, 4, true, map[CtxLinks := Write, Actors := Read])], [w]);
    HandlerProgram(ops[j].g, ops[j].nested);
    assert m2.threads[j] == Fresh(ops, j) && ops[j] == HandlerCall(ops[j].g, ops[j].nested);
    ReachMove(Start(ops), m2, Request(j));
    assert [w] + [j] == [w, j];
  }

  lemma WriterAsks(ops: seq<Op>, m: System, w: nat, g: nat)
    requires |m.threads| == |ops| && w < |ops| && Patches(ops[w], g)
    requires var held := map[CtxLinks := Write, Actors := Read];
             CanReach(Start(ops), System(m.threads[w := WriterAt(ops, w, 4, false, held)], []))
    ensures var held := map[CtxLinks := Write, Actors := Read];
            CanReach(Start(ops), System(m.threads[w := WriterAt(ops, w, 4, true, held)], [w]))
  {
    var held := map[CtxLinks := Write, Actors := Read];
    var m1 := System(m.threads[w := WriterAt(ops, w, 4, false, held)], []);
    WriterProgram(ops[w], g);
    ReachMove(Start(ops), m1, Request(w));
    assert m1.threads[w := WriterAt(ops, w, 4, true, held)] == m.threads[w := WriterAt(ops, w, 4, true, held)];
    assert [] + [w] == [w];
  }

  /** From the start the trap can be reached. */
  lemma TrapReachable(ops: seq<Op>, i: nat, j: nat, w: nat) returns (s: System, inside: set<nat>)
    requires CallsOk(ops) && ReturnsAt(ops, i, j, w)
    ensures CanReach(Start(ops), s) && Trapped(s, ops, inside, i, j, w)
  {
    NoneEntered(ops, i);
    inside := EnterChain(ops, {}, i, j);
    ClosedReachable(ops, inside, j, w, ops[i].g);
    TrapCloses(ops, inside, i, j, w);
    s := Closed(ops, inside, j, w);
  }

  // --- No way out ---

  /** A thread inside keeps waiting, whatever moves. */
  lemma ExpectsKept(s: System, a: Move, op: Op, k: nat, c: nat)
    requires CanMove(s, a) && k < |s.threads| && c < |s.threads| && !s.threads[c].Done()
    requires Expects(s.threads[k], op, c)
    ensures Expects(Moved(s, a).threads[k], op, c)
  {
    if Mover(s, a) == k {
      var t := s.threads[k];
      HandlerProgram(op.g, op.nested);
      assert op == HandlerCall(op.g, op.nested);
      assert t.prog[t.pc] == AwaitReply(op.nested[t.pc - 1]);
      assert op.nested[t.pc - 1..] == [op.nested[t.pc - 1]] + op.nested[t.pc..];
    }
  }

  /** The two threads in line stay where they are. */
  lemma LineKept(s: System, a: Move, w: nat, j: nat, k: nat, g: nat)
    requires QueueOk(s) && CanMove(s, a) && w < |s.threads| && j < |s.threads| && k < |s.threads|
    requires AsksFor(s.threads[w], Acquire(GroupLinks(g), Write)) && AsksFor(s.threads[j], Acquire(GroupLinks(g), Read))
    requires GroupLinks(g) in s.threads[k].held && InLine(s.arrivals, w, j)
    ensures Mover(s, a) != w && Mover(s, a) != j && InLine(Moved(s, a).arrivals, w, j)
  {
    if a.Grant? {
      GrantGoesElsewhere(s, a.j, w, j, k, g);
      LineAfterGrant(s.arrivals, a.j, w, j);
    } else {
      LineAfterRequest(s.arrivals, Mover(s, a), w, j);
    }
  }

  lemma GrantGoesElsewhere(s: System, x: nat, w: nat, j: nat, k: nat, g: nat)
    requires QueueOk(s) && CanMove(s, Grant(x)) && w < |s.threads| && j < |s.threads| && k < |s.threads|
    requires AsksFor(s.threads[w], Acquire(GroupLinks(g), Write)) && AsksFor(s.threads[j], Acquire(GroupLinks(g), Read))
    requires GroupLinks(g) in s.threads[k].held && InLine(s.arrivals, w, j)
    ensures s.arrivals[x] != w && s.arrivals[x] != j
  {
    assert !Compatible(s.threads, GroupLinks(g), Write);
    var a, b :| 0 <= a < b < |s.arrivals| && s.arrivals[a] == w && s.arrivals[b] == j;
    assert s.threads[s.arrivals[a]].Wants(GroupLinks(g));
    assert x != b;
  }

  lemma LineAfterGrant(arrivals: seq<nat>, x: nat, w: nat, j: nat)
    requires InLine(arrivals, w, j) && x < |arrivals| && arrivals[x] != w && arrivals[x] != j
    ensures InLine(arrivals[..x] + arrivals[x + 1..], w, j)
  {
    var a, b :| 0 <= a < b < |arrivals| && arrivals[a] == w && arrivals[b] == j;
    var after := arrivals[..x] + arrivals[x + 1..];
    assert after[if a < x then a else a - 1] == w && after[if b < x then b else b - 1] == j;
  }

  lemma LineAfterRequest(arrivals: seq<nat>, i: nat, w: nat, j: nat)
    requires InLine(arrivals, w, j)
    ensures InLine(arrivals + [i], w, j)
  {
    var a, b :| 0 <= a < b < |arrivals| && arrivals[a] == w && arrivals[b] == j;
    assert (arrivals + [i])[a] == w && (arrivals + [i])[b] == j;
  }

  lemma TrapKept(s: System, a: Move, ops: seq<Op>, inside: set<nat>, i: nat, j: nat, w: nat)
    requires QueueOk(s) && CanMove(s, a) && Trapped(s, ops, inside, i, j, w)
    ensures Trapped(Moved(s, a), ops, inside, i, j, w)
  {
    var s' := Moved(s, a);
    LineKept(s, a, w, j, i, ops[i].g);
    forall k | k in inside ensures exists c: nat :: (c in inside || c == j) && Expects(s'.threads[k], ops[k], c) {
      var c: nat :| (c in inside || c == j) && Expects(s.threads[k], ops[k], c);
      if c in inside {
        NotDone(s.threads[c], ops[c]);
      }
      ExpectsKept(s, a, ops[k], k, c);
    }
  }

  lemma NotDone(t: Thread, op: Op)
    requires exists c: nat :: Expects(t, op, c)
    ensures !t.Done()
  {
    HandlerProgram(op.g, op.nested);
    assert op == HandlerCall(op.g, op.nested);
  }

  lemma {:induction false} TrappedForEver(s: System, moves: seq<Move>, s': System, ops: seq<Op>, inside: set<nat>,
                                          i: nat, j: nat, w: nat)
    requires SystemOk(s) && Moves(s, moves, s') && Trapped(s, ops, inside, i, j, w)
    ensures Trapped(s', ops, inside, i, j, w)
    decreases moves
  {
    if moves != [] {
      SystemKept(s, moves[0]);
      TrapKept(s, moves[0], ops, inside, i, j, w);
      TrappedForEver(Moved(s, moves[0]), moves[1..], s', ops, inside, i, j, w);
    }
  }

  /** Every run can be continued until nothing moves. */
  lemma {:induction false} RunsDry(s: System) returns (moves: seq<Move>, s': System)
    ensures Moves(s, moves, s') && Still(s')
    decreases Work(s.threads)
  {
    moves, s' := [], s;
    if a :| CanMove(s, a) {
      MoveWorks(s, a);
      moves, s' := RunsDry(Moved(s, a));
      moves := [a] + moves;
      assert moves[1..] == moves[1..] && moves[0] == a;
    }
  }

  /** A chain of calls that comes back into a group whose links are patched can get stuck for ever. */
  lemma ReturningChainCanBlock(ops: seq<Op>, i: nat, j: nat, w: nat) returns (s: System)
    requires CallsOk(ops) && ReturnsAt(ops, i, j, w)
    ensures CanReach(Start(ops), s) && Still(s) && !AllDone(s)
  {
    var m, inside := TrapReachable(ops, i, j, w);
    ReachableOk(ops, m);
    var rest;
    rest, s := RunsDry(m);
    ReachFrom(Start(ops), m, rest, s);
    TrappedForEver(m, rest, s, ops, inside, i, j, w);
    assert !s.threads[j].Done();
  }

  lemma ReachableOk(ops: seq<Op>, s: System)
    requires CanReach(Start(ops), s)
    ensures SystemOk(s)
  {
    var moves :| Moves(Start(ops), moves, s);
    StartOk(ops);
    StartHosts(ops);
    SystemOkAlong(Start(ops), ops, moves, s);
  }

  lemma {:induction false} ReachFrom(s: System, m: System, rest: seq<Move>, s': System)
    requires CanReach(s, m) && Moves(m, rest, s')
    ensures CanReach(s, s')
    decreases rest
  {
    if rest != [] {
      ReachMove(s, m, rest[0]);
      ReachFrom(s, Moved(m, rest[0]), rest[1..], s');
    }
  }

  /** Exactly when control operations and calls always finish: every run that cannot be continued has
      finished every operation if and only if no chain of calls comes back into a group whose links one
      of the link operations patches. */
  lemma FinishExactlyWhen(ops: seq<Op>)
    requires CallsOk(ops)
    ensures (forall s :: CanReach(Start(ops), s) && Still(s) ==> AllDone(s)) <==> !Returns(ops)
  {
    if Returns(ops) {
      var i: nat, j: nat, w: nat :| ReturnsAt(ops, i, j, w);
      var s := ReturningChainCanBlock(ops, i, j, w);
    } else {
      forall s | CanReach(Start(ops), s) && Still(s) ensures AllDone(s) {
        var moves :| Moves(Start(ops), moves, s);
        AllOperationsFinish(ops, moves, s);
      }
    }
  }

  /** The smallest case: a call handled by a call back into the same group, and one `add_link`. */
  lemma ReentrantCallCanBlock(g: nat) returns (s: System)
    ensures CanReach(Start([HandlerCall(g, [1]), HandlerCall(g, []), AddLink(true, true, Some(g))]), s)
    ensures Still(s) && !AllDone(s)
  {
    var ops := [HandlerCall(g, [1]), HandlerCall(g, []), AddLink(true, true, Some(g))];
    assert Calls(ops, 0, 1);
    assert ReturnsAt(ops, 0, 1, 2);
    s := ReturningChainCanBlock(ops, 0, 1, 2);
  }
}
