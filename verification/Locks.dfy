/** The locks the host's operations take, and that the operations never block each other for ever.

    A lock is a fair reader-writer lock: requests queue in arrival order, and the first request for a
    lock is granted when it is compatible with the holders. */
module Locks {
  import opened Types

  datatype Lock =
    | ActorKeys
    | CtxLinks
    | Actors
    | GroupActors(g: nat)
    | Instances(g: nat, name: string)
    | Providers
    | HostLinks
    | GroupLinks(g: nat)

  function Rank(l: Lock): nat {
    match l
    case ActorKeys => 0
    case CtxLinks => 1
    case Actors => 2
    case GroupActors(_) => 3
    case Instances(_, _) => 4
    case Providers => 5
    case HostLinks => 6
    case GroupLinks(_) => 7
  }

  datatype Mode = Read | Write

  datatype Instr =
    | Acquire(lock: Lock, mode: Mode)
    | Release(lock: Lock)
    | AwaitReply(callee: nat)

  type Program = seq<Instr>

  // --- The operations ---

  /** Every branch the operations take, as far as it decides which locks are taken. A handler of group
      `g` that makes a call keeps reading the group's links until the reply: until the calls `nested`,
      made in turn by whoever handles it, are through. */
  datatype Op =
    | AddLink(vacant: bool, unknown: bool, group: Option<nat>)
    | DeleteLink(found: bool, last: bool, known: bool, group: Option<nat>)
    | ReconcileActor(keyChanged: bool, newGroup: bool, g: nat, present: bool, name: string)
    | RemoveActor(registered: bool, group: Option<nat>, present: bool, name: string)
    | Stats(groups: seq<(nat, seq<string>)>)
    | StartProvider(running: bool)
    | StopProvider
    | HandlerCall(g: nat, nested: seq<nat>)

  function Locked(l: Lock, m: Mode, body: Program): Program {
    [Acquire(l, m)] + body + [Release(l)]
  }

  function When(c: bool, p: Program): Program {
    if c then p else []
  }

  /** Second and third part of a link operation: the cache of the actor's group, if there is one. */
  function PatchProgram(group: Option<nat>): Program {
    Locked(Actors, Read, When(group.Some?, Locked(GroupLinks(group.GetOr(0)), Write, [])))
  }

  function Awaits(nested: seq<nat>): Program {
    if nested == [] then [] else [AwaitReply(nested[0])] + Awaits(nested[1..])
  }

  function StatsActors(g: nat, names: seq<string>): Program {
    if names == [] then [] else Locked(Instances(g, names[0]), Read, []) + StatsActors(g, names[1..])
  }

  function StatsGroups(groups: seq<(nat, seq<string>)>): Program {
    if groups == [] then []
    else Locked(GroupActors(groups[0].0), Read, StatsActors(groups[0].0, groups[0].1)) + StatsGroups(groups[1..])
  }

  function ProgramOf(op: Op): Program {
    match op
    case AddLink(vacant, unknown, group) =>
      Locked(CtxLinks, Write, When(vacant, Locked(HostLinks, Write, []) + When(unknown, PatchProgram(group))))
    case DeleteLink(found, last, known, group) =>
      Locked(CtxLinks, Write, When(found && last, Locked(HostLinks, Write, []) + When(known, PatchProgram(group))))
    case ReconcileActor(keyChanged, newGroup, g, present, name) =>
      Locked(ActorKeys, Read, []) +
      When(!keyChanged,
        Locked(ActorKeys, Write, []) +
        Locked(Actors, Write, When(newGroup, Locked(HostLinks, Read, []))) +
        Locked(GroupActors(g), Write, When(present, Locked(Instances(g, name), Write, []))))
    case RemoveActor(registered, group, present, name) =>
      var g := group.GetOr(0);
      Locked(ActorKeys, Read, []) +
      When(registered,
        Locked(Actors, Write,
          When(group.Some?,
            Locked(GroupActors(g), Write, When(present, Locked(Instances(g, name), Write, []))) +
            Locked(GroupActors(g), Read, []))) +
        Locked(ActorKeys, Write, []))
    case Stats(groups) => Locked(Actors, Read, StatsGroups(groups) + Locked(Providers, Read, []))
    case StartProvider(running) => Locked(Providers, Write, When(!running, Locked(HostLinks, Read, [])))
    case StopProvider => Locked(Providers, Write, [])
    case HandlerCall(g, nested) => Locked(GroupLinks(g), Read, Awaits(nested))
  }

  // --- The locking discipline ---

  /** A lock may be taken above all held ones, and the key registry only on its own; a cache is
      patched only under the link lock. */
  predicate MayTake(held: set<Lock>, l: Lock, m: Mode) {
    && ActorKeys !in held
    && (forall h :: h in held ==> Rank(h) < Rank(l))
    && (l.GroupLinks? && m == Write ==> CtxLinks in held)
  }

  /** Waiting for a reply, a thread holds nothing but the links of one group. */
  ghost predicate MayAwait(held: set<Lock>) {
    exists g :: held == {GroupLinks(g)}
  }

  ghost predicate Ordered(p: Program, held: set<Lock>) {
    if p == [] then held == {}
    else
      match p[0]
      case Acquire(l, m) => MayTake(held, l, m) && Ordered(p[1..], held + {l})
      case Release(l) => l in held && Ordered(p[1..], held - {l})
      case AwaitReply(_) => MayAwait(held) && Ordered(p[1..], held)
  }

  /** `p` can be run while holding `held`, and gives back all it takes. */
  ghost predicate Balanced(p: Program, held: set<Lock>) {
    forall q :: Ordered(q, held) ==> Ordered(p + q, held)
  }

  lemma BalancedNil(held: set<Lock>)
    ensures Balanced([], held)
  {
    forall q | Ordered(q, held) ensures Ordered([] + q, held) {
      assert [] + q == q;
    }
  }

  lemma BalancedSeq(p: Program, q: Program, held: set<Lock>)
    requires Balanced(p, held) && Balanced(q, held)
    ensures Balanced(p + q, held)
  {
    forall r | Ordered(r, held) ensures Ordered(p + q + r, held) {
      assert p + q + r == p + (q + r);
    }
  }

  lemma BalancedWhen(c: bool, p: Program, held: set<Lock>)
    requires c ==> Balanced(p, held)
    ensures Balanced(When(c, p), held)
  {
    BalancedNil(held);
  }

  lemma BalancedLocked(l: Lock, m: Mode, body: Program, held: set<Lock>)
    requires MayTake(held, l, m) && Balanced(body, held + {l})
    ensures Balanced(Locked(l, m, body), held)
  {
    forall q | Ordered(q, held) ensures Ordered(Locked(l, m, body) + q, held) {
      var rest := [Release(l)] + q;
      assert held + {l} - {l} == held;
      assert rest[1..] == q;
      assert Ordered(rest, held + {l});
      assert Ordered(body + rest, held + {l});
      var p := Locked(l, m, body) + q;
      assert p[1..] == body + rest;
    }
  }

  lemma BalancedLeaf(l: Lock, m: Mode, held: set<Lock>)
    requires MayTake(held, l, m)
    ensures Balanced(Locked(l, m, []), held)
  {
    BalancedNil(held + {l});
    BalancedLocked(l, m, [], held);
  }

  lemma PatchBalanced(group: Option<nat>)
    ensures Balanced(PatchProgram(group), {CtxLinks})
  {
    var held := {CtxLinks} + {Actors};
    BalancedLeaf(GroupLinks(group.GetOr(0)), Write, held);
    BalancedWhen(group.Some?, Locked(GroupLinks(group.GetOr(0)), Write, []), held);
    BalancedLocked(Actors, Read, When(group.Some?, Locked(GroupLinks(group.GetOr(0)), Write, [])), {CtxLinks});
  }

  lemma LinkOpBalanced(go: bool, patch: bool, group: Option<nat>)
    ensures Balanced(
              Locked(CtxLinks, Write, When(go, Locked(HostLinks, Write, []) + When(patch, PatchProgram(group)))), {})
  {
    var held: set<Lock> := {} + {CtxLinks};
    assert held == {CtxLinks};
    PatchBalanced(group);
    BalancedWhen(patch, PatchProgram(group), held);
    BalancedLeaf(HostLinks, Write, held);
    BalancedSeq(Locked(HostLinks, Write, []), When(patch, PatchProgram(group)), held);
    BalancedWhen(go, Locked(HostLinks, Write, []) + When(patch, PatchProgram(group)), held);
    BalancedLocked(CtxLinks, Write, When(go, Locked(HostLinks, Write, []) + When(patch, PatchProgram(group))), {});
  }

  /** The scaling part: the group's own lock, and the instance list's below it. */
  lemma ScaleBalanced(g: nat, present: bool, name: string, held: set<Lock>)
    requires MayTake(held, GroupActors(g), Write)
    ensures Balanced(Locked(GroupActors(g), Write, When(present, Locked(Instances(g, name), Write, []))), held)
  {
    var inner := held + {GroupActors(g)};
    BalancedLeaf(Instances(g, name), Write, inner);
    BalancedWhen(present, Locked(Instances(g, name), Write, []), inner);
    BalancedLocked(GroupActors(g), Write, When(present, Locked(Instances(g, name), Write, [])), held);
  }

  lemma ReconcileBalanced(op: Op)
    requires op.ReconcileActor?
    ensures Balanced(ProgramOf(op), {})
  {
    var ReconcileActor(keyChanged, newGroup, g, present, name) := op;
    var none: set<Lock> := {};
    var groups := Locked(Actors, Write, When(newGroup, Locked(HostLinks, Read, [])));
    var scale := Locked(GroupActors(g), Write, When(present, Locked(Instances(g, name), Write, [])));
    var register := Locked(ActorKeys, Write, []);
    BalancedLeaf(ActorKeys, Read, none);
    BalancedLeaf(ActorKeys, Write, none);
    BalancedLeaf(HostLinks, Read, none + {Actors});
    BalancedWhen(newGroup, Locked(HostLinks, Read, []), none + {Actors});
    BalancedLocked(Actors, Write, When(newGroup, Locked(HostLinks, Read, [])), none);
    ScaleBalanced(g, present, name, none);
    BalancedSeq(register, groups, none);
    BalancedSeq(register + groups, scale, none);
    BalancedWhen(!keyChanged, register + groups + scale, none);
    BalancedSeq(Locked(ActorKeys, Read, []), When(!keyChanged, register + groups + scale), none);
  }

  lemma RemoveBalanced(op: Op)
    requires op.RemoveActor?
    ensures Balanced(ProgramOf(op), {})
  {
    var RemoveActor(registered, group, present, name) := op;
    var g := group.GetOr(0);
    var none: set<Lock> := {};
    var held := none + {Actors};
    var scale := Locked(GroupActors(g), Write, When(present, Locked(Instances(g, name), Write, [])));
    var check := Locked(GroupActors(g), Read, []);
    var detach := Locked(Actors, Write, When(group.Some?, scale + check));
    BalancedLeaf(ActorKeys, Read, none);
    BalancedLeaf(ActorKeys, Write, none);
    ScaleBalanced(g, present, name, held);
    BalancedLeaf(GroupActors(g), Read, held);
    BalancedSeq(scale, check, held);
    BalancedWhen(group.Some?, scale + check, held);
    BalancedLocked(Actors, Write, When(group.Some?, scale + check), none);
    BalancedSeq(detach, Locked(ActorKeys, Write, []), none);
    BalancedWhen(registered, detach + Locked(ActorKeys, Write, []), none);
    BalancedSeq(Locked(ActorKeys, Read, []), When(registered, detach + Locked(ActorKeys, Write, [])), none);
  }

  lemma {:induction false} StatsActorsBalanced(g: nat, names: seq<string>)
    ensures Balanced(StatsActors(g, names), {Actors, GroupActors(g)})
  {
    var held := {Actors, GroupActors(g)};
    if names == [] {
      BalancedNil(held);
    } else {
      StatsActorsBalanced(g, names[1..]);
      BalancedLeaf(Instances(g, names[0]), Read, held);
      BalancedSeq(Locked(Instances(g, names[0]), Read, []), StatsActors(g, names[1..]), held);
    }
  }

  lemma {:induction false} StatsGroupsBalanced(groups: seq<(nat, seq<string>)>)
    ensures Balanced(StatsGroups(groups), {Actors})
  {
    if groups == [] {
      BalancedNil({Actors});
    } else {
      var g, names := groups[0].0, groups[0].1;
      StatsGroupsBalanced(groups[1..]);
      StatsActorsBalanced(g, names);
      assert {Actors} + {GroupActors(g)} == {Actors, GroupActors(g)};
      BalancedLocked(GroupActors(g), Read, StatsActors(g, names), {Actors});
      BalancedSeq(Locked(GroupActors(g), Read, StatsActors(g, names)), StatsGroups(groups[1..]), {Actors});
    }
  }

  lemma StatsBalanced(groups: seq<(nat, seq<string>)>)
    ensures Balanced(ProgramOf(Stats(groups)), {})
  {
    var none: set<Lock> := {};
    assert none + {Actors} == {Actors};
    StatsGroupsBalanced(groups);
    BalancedLeaf(Providers, Read, {Actors});
    BalancedSeq(StatsGroups(groups), Locked(Providers, Read, []), {Actors});
    BalancedLocked(Actors, Read, StatsGroups(groups) + Locked(Providers, Read, []), none);
  }

  lemma StartBalanced(running: bool)
    ensures Balanced(ProgramOf(StartProvider(running)), {})
  {
    var none: set<Lock> := {};
    BalancedLeaf(HostLinks, Read, none + {Providers});
    BalancedWhen(!running, Locked(HostLinks, Read, []), none + {Providers});
    BalancedLocked(Providers, Write, When(!running, Locked(HostLinks, Read, [])), none);
  }

  lemma AwaitBalanced(c: nat, held: set<Lock>)
    requires MayAwait(held)
    ensures Balanced([AwaitReply(c)], held)
  {
    forall q | Ordered(q, held) ensures Ordered([AwaitReply(c)] + q, held) {
      assert ([AwaitReply(c)] + q)[1..] == q;
    }
  }

  lemma {:induction false} AwaitsBalanced(nested: seq<nat>, held: set<Lock>)
    requires MayAwait(held)
    ensures Balanced(Awaits(nested), held)
  {
    if nested == [] {
      BalancedNil(held);
    } else {
      AwaitsBalanced(nested[1..], held);
      AwaitBalanced(nested[0], held);
      BalancedSeq([AwaitReply(nested[0])], Awaits(nested[1..]), held);
    }
  }

  lemma HandlerBalanced(g: nat, nested: seq<nat>)
    ensures Balanced(ProgramOf(HandlerCall(g, nested)), {})
  {
    var none: set<Lock> := {};
    assert none + {GroupLinks(g)} == {GroupLinks(g)};
    AwaitsBalanced(nested, none + {GroupLinks(g)});
    BalancedLocked(GroupLinks(g), Read, Awaits(nested), none);
  }

  /** Every operation, on every branch, takes its locks in the one rank order, takes the key registry on
      its own only, and gives everything back. */
  lemma EveryOpOrdered(op: Op)
    ensures Ordered(ProgramOf(op), {})
  {
    var none: set<Lock> := {};
    match op {
      case AddLink(vacant, unknown, group) => LinkOpBalanced(vacant, unknown, group);
      case DeleteLink(found, last, known, group) => LinkOpBalanced(found && last, known, group);
      case ReconcileActor(_, _, _, _, _) => ReconcileBalanced(op);
      case RemoveActor(_, _, _, _) => RemoveBalanced(op);
      case Stats(groups) => StatsBalanced(groups);
      case StartProvider(running) => StartBalanced(running);
      case StopProvider => BalancedLeaf(Providers, Write, none);
      case HandlerCall(g, nested) => HandlerBalanced(g, nested);
    }
    assert Balanced(ProgramOf(op), none);
    assert ProgramOf(op) + [] == ProgramOf(op);
    assert Ordered([], none);
  }

  // --- How long each lock is held ---

  /** A reconcile checks and registers the name, holds the actors lock while it reads the links for a new
      group, has let go of it before it scales, and scales under the group's own lock; a changed key ends it
      after the check. */
  lemma ReconcileHolds(g: nat, name: string)
    ensures ProgramOf(ReconcileActor(false, true, g, true, name)) ==
            [Acquire(ActorKeys, Read), Release(ActorKeys), Acquire(ActorKeys, Write), Release(ActorKeys),
             Acquire(Actors, Write), Acquire(HostLinks, Read), Release(HostLinks), Release(Actors),
             Acquire(GroupActors(g), Write), Acquire(Instances(g, name), Write), Release(Instances(g, name)),
             Release(GroupActors(g))]
    ensures ProgramOf(ReconcileActor(false, false, g, false, name)) ==
            [Acquire(ActorKeys, Read), Release(ActorKeys), Acquire(ActorKeys, Write), Release(ActorKeys),
             Acquire(Actors, Write), Release(Actors), Acquire(GroupActors(g), Write), Release(GroupActors(g))]
    ensures forall newGroup, present ::
              ProgramOf(ReconcileActor(true, newGroup, g, present, name)) ==
              [Acquire(ActorKeys, Read), Release(ActorKeys)]
  {
  }

  /** A removal holds the actors lock over all it does in the group, and unregisters the name after that. */
  lemma RemoveHolds(g: nat, name: string)
    ensures ProgramOf(RemoveActor(true, Some(g), true, name)) ==
            [Acquire(ActorKeys, Read), Release(ActorKeys), Acquire(Actors, Write), Acquire(GroupActors(g), Write),
             Acquire(Instances(g, name), Write), Release(Instances(g, name)), Release(GroupActors(g)),
             Acquire(GroupActors(g), Read), Release(GroupActors(g)), Release(Actors),
             Acquire(ActorKeys, Write), Release(ActorKeys)]
    ensures forall present ::
              ProgramOf(RemoveActor(true, None, present, name)) ==
              [Acquire(ActorKeys, Read), Release(ActorKeys), Acquire(Actors, Write), Release(Actors),
               Acquire(ActorKeys, Write), Release(ActorKeys)]
    ensures forall group, present ::
              ProgramOf(RemoveActor(false, group, present, name)) == [Acquire(ActorKeys, Read), Release(ActorKeys)]
  {
  }

  /** `stats` holds the actors lock throughout, takes the lock of every group and of every instance list, and no
      other, and reads the providers last. */
  lemma StatsHolds(groups: seq<(nat, seq<string>)>)
    ensures var p := ProgramOf(Stats(groups));
            && |p| >= 4 && p[0] == Acquire(Actors, Read) && p[|p| - 1] == Release(Actors)
            && p[|p| - 3..] == [Acquire(Providers, Read), Release(Providers), Release(Actors)]
            && p[1..|p| - 3] == StatsGroups(groups)
  {
    var inner := StatsGroups(groups) + [Acquire(Providers, Read), Release(Providers)];
    assert Locked(Providers, Read, []) == [Acquire(Providers, Read), Release(Providers)];
    var p := ProgramOf(Stats(groups));
    assert p == [Acquire(Actors, Read)] + inner + [Release(Actors)];
    assert |p| == |StatsGroups(groups)| + 4;
    assert p == ([Acquire(Actors, Read)] + StatsGroups(groups)) +
                [Acquire(Providers, Read), Release(Providers), Release(Actors)];
  }

  lemma {:induction false} StatsTakes(groups: seq<(nat, seq<string>)>, l: Lock)
    ensures Acquire(l, Read) in StatsGroups(groups) <==>
            exists i :: 0 <= i < |groups| &&
              (l == GroupActors(groups[i].0) || exists n :: n in groups[i].1 && l == Instances(groups[i].0, n))
  {
    if groups != [] {
      var g, names := groups[0].0, groups[0].1;
      StatsTakes(groups[1..], l);
      StatsActorsTake(g, names, l);
      assert groups == [groups[0]] + groups[1..];
      assert Acquire(l, Read) in StatsGroups(groups) <==>
             l == GroupActors(g) || Acquire(l, Read) in StatsActors(g, names) ||
             Acquire(l, Read) in StatsGroups(groups[1..]);
    }
  }

  lemma {:induction false} StatsActorsTake(g: nat, names: seq<string>, l: Lock)
    ensures Acquire(l, Read) in StatsActors(g, names) <==> exists n :: n in names && l == Instances(g, n)
  {
    if names != [] {
      StatsActorsTake(g, names[1..], l);
      assert names == [names[0]] + names[1..];
    }
  }

  /** Provider operations hold the providers lock throughout, a start also the links while it starts. */
  lemma ProviderOpsHold()
    ensures ProgramOf(StartProvider(false)) ==
            [Acquire(Providers, Write), Acquire(HostLinks, Read), Release(HostLinks), Release(Providers)]
    ensures ProgramOf(StartProvider(true)) == [Acquire(Providers, Write), Release(Providers)]
    ensures ProgramOf(StopProvider) == [Acquire(Providers, Write), Release(Providers)]
  {
  }

  /** A link operation holds the link lock over the table, and over the cache, which it patches under the
      actors lock. */
  lemma LinkOpsHold(g: nat)
    ensures ProgramOf(AddLink(true, true, Some(g))) == ProgramOf(DeleteLink(true, true, true, Some(g)))
    ensures ProgramOf(AddLink(true, true, Some(g))) ==
            [Acquire(CtxLinks, Write), Acquire(HostLinks, Write), Release(HostLinks), Acquire(Actors, Read),
             Acquire(GroupLinks(g), Write), Release(GroupLinks(g)), Release(Actors), Release(CtxLinks)]
    ensures forall unknown, group ::
              ProgramOf(AddLink(false, unknown, group)) == [Acquire(CtxLinks, Write), Release(CtxLinks)]
    ensures forall found, last, known, group :: !(found && last) ==>
              ProgramOf(DeleteLink(found, last, known, group)) == [Acquire(CtxLinks, Write), Release(CtxLinks)]
  {
  }

  // --- Who uses the caches how ---

  /** Touches no cache, waits for no reply, and takes the link lock for writing only. */
  predicate Foreign(x: Instr) {
    match x
    case Acquire(l, m) => !l.GroupLinks? && (l == CtxLinks ==> m == Write)
    case AwaitReply(_) => false
    case Release(_) => true
  }

  /** The link operations that get as far as patching the cache of group `g`. */
  predicate Patches(op: Op, g: nat) {
    op == AddLink(true, true, Some(g)) || op == DeleteLink(true, true, true, Some(g))
  }

  predicate AllForeign(p: Program) {
    forall x :: x in p ==> Foreign(x)
  }

  lemma ForeignSeq(p: Program, q: Program)
    requires AllForeign(p) && AllForeign(q)
    ensures AllForeign(p + q)
  {
  }

  lemma ForeignLocked(l: Lock, m: Mode, body: Program)
    requires AllForeign(body) && Foreign(Acquire(l, m))
    ensures AllForeign(Locked(l, m, body))
  {
    ForeignSeq([Acquire(l, m)], body);
    ForeignSeq([Acquire(l, m)] + body, [Release(l)]);
  }

  lemma {:induction false} StatsForeign(groups: seq<(nat, seq<string>)>)
    ensures AllForeign(StatsGroups(groups))
  {
    if groups != [] {
      var g, names := groups[0].0, groups[0].1;
      StatsForeign(groups[1..]);
      StatsActorsForeign(g, names);
      ForeignLocked(GroupActors(g), Read, StatsActors(g, names));
      ForeignSeq(Locked(GroupActors(g), Read, StatsActors(g, names)), StatsGroups(groups[1..]));
    }
  }

  lemma {:induction false} StatsActorsForeign(g: nat, names: seq<string>)
    ensures AllForeign(StatsActors(g, names))
  {
    if names != [] {
      StatsActorsForeign(g, names[1..]);
      ForeignLocked(Instances(g, names[0]), Read, []);
      ForeignSeq(Locked(Instances(g, names[0]), Read, []), StatsActors(g, names[1..]));
    }
  }

  lemma LinkOpUses(go: bool, patch: bool, group: Option<nat>, x: Instr)
    requires x in Locked(CtxLinks, Write, When(go, Locked(HostLinks, Write, []) + When(patch, PatchProgram(group))))
    ensures if x.Acquire? && x.lock.GroupLinks?
            then x.mode == Write && go && patch && group == Some(x.lock.g)
            else Foreign(x)
  {
    if x.Acquire? && x.lock.GroupLinks? {
      assert x in When(go, Locked(HostLinks, Write, []) + When(patch, PatchProgram(group)));
      assert x in PatchProgram(group);
    }
  }

  lemma ScaleForeign(g: nat, present: bool, name: string)
    ensures AllForeign(Locked(GroupActors(g), Write, When(present, Locked(Instances(g, name), Write, []))))
  {
    ForeignLocked(Instances(g, name), Write, []);
    ForeignLocked(GroupActors(g), Write, When(present, Locked(Instances(g, name), Write, [])));
  }

  lemma ReconcileForeign(op: Op)
    requires op.ReconcileActor?
    ensures AllForeign(ProgramOf(op))
  {
    var ReconcileActor(keyChanged, newGroup, g, present, name) := op;
    var read, register := Locked(ActorKeys, Read, []), Locked(ActorKeys, Write, []);
    var groups := Locked(Actors, Write, When(newGroup, Locked(HostLinks, Read, [])));
    var scale := Locked(GroupActors(g), Write, When(present, Locked(Instances(g, name), Write, [])));
    ScaleForeign(g, present, name);
    ForeignLocked(ActorKeys, Read, []);
    ForeignLocked(ActorKeys, Write, []);
    ForeignLocked(HostLinks, Read, []);
    ForeignLocked(Actors, Write, When(newGroup, Locked(HostLinks, Read, [])));
    ForeignSeq(register, groups);
    ForeignSeq(register + groups, scale);
    ForeignSeq(read, When(!keyChanged, register + groups + scale));
  }

  lemma RemoveForeign(op: Op)
    requires op.RemoveActor?
    ensures AllForeign(ProgramOf(op))
  {
    var RemoveActor(registered, group, present, name) := op;
    var g := group.GetOr(0);
    var scale := Locked(GroupActors(g), Write, When(present, Locked(Instances(g, name), Write, [])));
    var check := Locked(GroupActors(g), Read, []);
    var detach := Locked(Actors, Write, When(group.Some?, scale + check));
    ScaleForeign(g, present, name);
    ForeignLocked(ActorKeys, Read, []);
    ForeignLocked(ActorKeys, Write, []);
    ForeignLocked(GroupActors(g), Read, []);
    ForeignSeq(scale, check);
    ForeignLocked(Actors, Write, When(group.Some?, scale + check));
    ForeignSeq(detach, Locked(ActorKeys, Write, []));
    ForeignSeq(Locked(ActorKeys, Read, []), When(registered, detach + Locked(ActorKeys, Write, [])));
  }

  lemma StatsOpForeign(groups: seq<(nat, seq<string>)>)
    ensures AllForeign(ProgramOf(Stats(groups)))
  {
    StatsForeign(groups);
    ForeignLocked(Providers, Read, []);
    ForeignSeq(StatsGroups(groups), Locked(Providers, Read, []));
    ForeignLocked(Actors, Read, StatsGroups(groups) + Locked(Providers, Read, []));
  }

  /** Only handler calls read caches and wait for replies, and only link operations write caches. */
  lemma OthersForeign(op: Op, x: Instr)
    requires !op.HandlerCall? && x in ProgramOf(op)
    ensures if x.Acquire? && x.lock.GroupLinks? then x.mode == Write && Patches(op, x.lock.g) else Foreign(x)
  {
    match op {
      case AddLink(vacant, unknown, group) => LinkOpUses(vacant, unknown, group, x);
      case DeleteLink(found, last, known, group) => LinkOpUses(found && last, known, group, x);
      case ReconcileActor(_, _, _, _, _) => ReconcileForeign(op);
      case RemoveActor(_, _, _, _) => RemoveForeign(op);
      case Stats(groups) => StatsOpForeign(groups);
      case _ =>
    }
  }

  lemma {:induction false} AwaitsAre(nested: seq<nat>)
    ensures |Awaits(nested)| == |nested| && forall k :: 0 <= k < |nested| ==> Awaits(nested)[k] == AwaitReply(nested[k])
  {
    if nested != [] {
      AwaitsAre(nested[1..]);
    }
  }

  /** A handler call reads the links of its group, waits for its nested calls one by one, and lets go. */
  lemma HandlerProgram(g: nat, nested: seq<nat>)
    ensures var p := ProgramOf(HandlerCall(g, nested));
            && |p| == |nested| + 2 && p[0] == Acquire(GroupLinks(g), Read) && p[|nested| + 1] == Release(GroupLinks(g))
            && forall k :: 0 < k <= |nested| ==> p[k] == AwaitReply(nested[k - 1])
  {
    AwaitsAre(nested);
  }

  lemma HandlerUses(op: Op, x: Instr)
    requires op.HandlerCall? && x in ProgramOf(op)
    ensures match x
            case Acquire(l, m) => l == GroupLinks(op.g) && m == Read
            case Release(l) => l == GroupLinks(op.g)
            case AwaitReply(c) => c in op.nested
  {
    HandlerProgram(op.g, op.nested);
    var p := ProgramOf(op);
    var k :| 0 <= k < |p| && p[k] == x;
    assert 0 < k <= |op.nested| ==> p[k] == AwaitReply(op.nested[k - 1]);
  }
}
