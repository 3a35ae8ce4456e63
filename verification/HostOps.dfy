/** What each host operation does when no other operation steps in between, as a composition of the
    machine's steps, and that each such composition is a serialised run of the machine. */
module HostOps {
  import opened Types
  import opened LinkKeys
  import opened LinkIndex
  import opened HostMachine
  import opened LinkAgreement

  /** No operation is under way, and the table refers to groups that exist. */
  predicate Quiescent(s: HostState) {
    && s.linkOp.NoLinkOp? && s.ops == map[] && s.writer.None?
    && forall k :: k in s.actors ==> s.actors[k] < |s.heap|
  }

  /** No link operation is under way, and none would have to wait for the actors lock. */
  predicate LinksIdle(s: HostState) {
    s.linkOp.NoLinkOp? && s.writer.None? && forall k :: k in s.actors ==> s.actors[k] < |s.heap|
  }

  /** References to groups stay in range along every run. */
  lemma {:induction false} ShapeAlongRun(serial: bool, s: HostState, steps: seq<Step>, s': HostState)
    requires Shape(s) && Runs(serial, s, steps, s')
    ensures Shape(s')
    decreases steps
  {
    if steps != [] {
      ShapeKept(s, steps[0]);
      ShapeAlongRun(serial, Apply(s, steps[0]), steps[1..], s');
    }
  }

  lemma ReachableShape(s: HostState)
    requires Reachable(false, s)
    ensures Shape(s)
  {
    var steps :| Runs(false, INIT, steps, s);
    ShapeAlongRun(false, INIT, steps, s);
  }

  lemma ReachableInRange(serial: bool, s: HostState)
    requires Reachable(serial, s)
    ensures forall k :: k in s.actors ==> s.actors[k] < |s.heap|
  {
    var steps :| Runs(serial, INIT, steps, s);
    ShapeAlongRun(serial, INIT, steps, s);
  }

  // --- Links ---

  function AddLinkdefTo(s: HostState, ld: LinkDef, ok: bool): HostState
    requires LinksIdle(s)
  {
    var s1 := AddTable(s, ld);
    if s1.linkOp.NoLinkOp? then s1 else Publish(PatchCache(s1), ok)
  }

  function DeleteLinkdefTo(s: HostState, t: Triple, ok: bool): HostState
    requires LinksIdle(s)
  {
    var s1 := DelTable(s, t);
    if s1.linkOp.NoLinkOp? then s1 else Publish(PatchCache(s1), ok)
  }

  lemma AddLinkdefReachable(serial: bool, s: HostState, ld: LinkDef, ok: bool)
    requires LinksIdle(s) && Reachable(serial, s)
    ensures Reachable(serial, AddLinkdefTo(s, ld, ok))
  {
    ReachStep(serial, s, DoAddTable(ld));
    FinishLinkOp(serial, AddTable(s, ld), ok);
  }

  lemma DeleteLinkdefReachable(serial: bool, s: HostState, t: Triple, ok: bool)
    requires LinksIdle(s) && Reachable(serial, s)
    ensures Reachable(serial, DeleteLinkdefTo(s, t, ok))
  {
    ReachStep(serial, s, DoDelTable(t));
    FinishLinkOp(serial, DelTable(s, t), ok);
  }

  lemma FinishLinkOp(serial: bool, s: HostState, ok: bool)
    requires Reachable(serial, s)
    requires s.linkOp.NoLinkOp? || CanPatch(s)
    ensures !s.linkOp.NoLinkOp? ==> Reachable(serial, Publish(PatchCache(s), ok))
  {
    if !s.linkOp.NoLinkOp? {
      ReachStep(serial, s, DoPatchCache);
      ReachStep(serial, PatchCache(s), DoPublish(ok));
    }
  }

  // --- Actors ---

  /** From the registered key to a group of that key, under the actors lock. */
  function GroupFor(s: HostState, name: Name, key: string, replica: nat, order: seq<Digest>): HostState
    requires Quiescent(s) && CanBeginReconcile(s, name, key) && Enumerates(order, s.links)
  {
    var s1 := TakeActors(Register(BeginReconcile(s, name, key, replica), name), name);
    if s1.ops[name].Locked? then InsertGroup(Snapshot(s1, name, order), name) else s1
  }

  lemma GroupForReachable(s: HostState, name: Name, key: string, replica: nat, order: seq<Digest>)
    requires Quiescent(s) && Reachable(true, s) && CanBeginReconcile(s, name, key) && Enumerates(order, s.links)
    ensures Reachable(true, GroupFor(s, name, key, replica, order))
  {
    RegisterReachable(s, name, key, replica);
    var s2 := Register(BeginReconcile(s, name, key, replica), name);
    ReachStep(true, s2, DoTakeActors(name));
    var s3 := TakeActors(s2, name);
    if s3.ops[name].Locked? {
      InsertReachable(s3, name, order);
    }
  }

  lemma InsertReachable(s: HostState, name: Name, order: seq<Digest>)
    requires Reachable(true, s) && CanSnapshot(s, name, order)
    ensures Reachable(true, InsertGroup(Snapshot(s, name, order), name))
  {
    ReachStep(true, s, DoSnapshot(name, order));
    ReachStep(true, Snapshot(s, name, order), DoInsertGroup(name));
  }

  lemma RegisterReachable(s: HostState, name: Name, key: string, replica: nat)
    requires Quiescent(s) && Reachable(true, s) && CanBeginReconcile(s, name, key)
    ensures Reachable(true, Register(BeginReconcile(s, name, key, replica), name))
  {
    ReachStep(true, s, DoBeginReconcile(name, key, replica));
    ReachStep(true, BeginReconcile(s, name, key, replica), DoRegister(name));
  }

  /** Scaling when no other actor operation is under way. */
  function ScaledTo(s: HostState, name: Name, g: nat, replica: nat, good: nat): HostState
    requires g < |s.heap|
  {
    var members := s.heap[g].members;
    var r := ScaleList(ListOf(members, name), replica, s.nextTask, good);
    s.(heap := if r.ok then SetMembers(s.heap, g, StoreList(members, name, r.instances)) else s.heap,
       nextTask := s.nextTask + r.spawned,
       aborted := s.aborted + Elems(r.dropped),
       leaked := if r.ok then s.leaked else s.leaked + BatchSet(s.nextTask, r.spawned),
       declared := if r.ok then s.declared[name := replica] else s.declared)
  }

  lemma ScaleAlone(s: HostState, name: Name, key: string, replica: nat, g: nat, good: nat)
    requires g < |s.heap| && s.ops == map[]
    ensures Scale(s.(ops := map[name := HasGroup(key, replica, g)]), name, good) == ScaledTo(s, name, g, replica, good)
  {
    assert map[name := HasGroup(key, replica, g)] - {name} == map[];
  }

  /** The name is registered and the group of its key exists. */
  function Prepared(s: HostState, name: Name, key: string, order: seq<Digest>): HostState
    requires Quiescent(s) && Enumerates(order, s.links)
  {
    s.(actorKeys := if name in s.actorKeys then s.actorKeys else s.actorKeys[name := key],
       actors := if key in s.actors then s.actors else s.actors[key := |s.heap|],
       heap := if key in s.actors then s.heap else s.heap + [Group(key, ActorLinks(s.links, order, key), map[])])
  }

  /** The reconcile ends up holding the group its key has in the table. */
  lemma GroupForShape(s: HostState, name: Name, key: string, replica: nat, order: seq<Digest>)
    requires Quiescent(s) && CanBeginReconcile(s, name, key) && Enumerates(order, s.links)
    ensures var p := Prepared(s, name, key, order);
            GroupFor(s, name, key, replica, order) == p.(ops := map[name := HasGroup(key, replica, p.actors[key])])
  {
    var s2 := TakeActors(Register(BeginReconcile(s, name, key, replica), name), name);
    if key in s.actors {
      assert s2.ops == map[name := HasGroup(key, replica, s.actors[key])];
    } else {
      assert s2.ops == map[name := Locked(key, replica)];
      InsertShape(s2, name, key, replica, order);
    }
  }

  lemma InsertShape(s: HostState, name: Name, key: string, replica: nat, order: seq<Digest>)
    requires s.ops == map[name := Locked(key, replica)] && CanSnapshot(s, name, order)
    ensures InsertGroup(Snapshot(s, name, order), name) ==
            s.(heap := s.heap + [Group(key, ActorLinks(s.links, order, key), map[])],
               actors := s.actors[key := |s.heap|],
               ops := map[name := HasGroup(key, replica, |s.heap|)], writer := None)
  {
  }

  /** A whole reconcile: prepare, then scale in the group. */
  function ReconcileTo(s: HostState, name: Name, key: string, replica: nat, order: seq<Digest>, good: nat): HostState
    requires Quiescent(s) && Enumerates(order, s.links)
  {
    var p := Prepared(s, name, key, order);
    ScaledTo(p, name, p.actors[key], replica, good)
  }

  lemma ReconcileReachable(s: HostState, name: Name, key: string, replica: nat, order: seq<Digest>, good: nat)
    requires Quiescent(s) && Reachable(true, s) && CanBeginReconcile(s, name, key) && Enumerates(order, s.links)
    ensures Reachable(true, ReconcileTo(s, name, key, replica, order, good))
  {
    var p := Prepared(s, name, key, order);
    GroupForShape(s, name, key, replica, order);
    GroupForReachable(s, name, key, replica, order);
    ScaleReachable(p, name, key, replica, p.actors[key], good);
  }

  lemma ScaleReachable(p: HostState, name: Name, key: string, replica: nat, g: nat, good: nat)
    requires g < |p.heap| && p.ops == map[]
    requires Reachable(true, p.(ops := map[name := HasGroup(key, replica, g)]))
    ensures Reachable(true, ScaledTo(p, name, g, replica, good))
  {
    ReachStep(true, p.(ops := map[name := HasGroup(key, replica, g)]), DoScale(name, good));
    ScaleAlone(p, name, key, replica, g, good);
  }

  function RemoveTo(s: HostState, name: Name): HostState
    requires Quiescent(s)
  {
    if name !in s.actorKeys then s else Unregister(Detach(BeginRemove(s, name), name), name)
  }

  lemma RemoveReachable(s: HostState, name: Name)
    requires Quiescent(s) && Reachable(true, s)
    ensures Reachable(true, RemoveTo(s, name))
  {
    if name in s.actorKeys {
      ReachStep(true, s, DoBeginRemove(name));
      ReachStep(true, BeginRemove(s, name), DoDetach(name));
      ReachStep(true, Detach(BeginRemove(s, name), name), DoUnregister(name));
    }
  }

  /** Removal of a registered name when no other operation is under way, all effects at once. */
  lemma RemoveAlone(s: HostState, name: Name)
    requires Quiescent(s) && name in s.actorKeys
    ensures var key := s.actorKeys[name];
            var members := if key in s.actors then s.heap[s.actors[key]].members else map[];
            RemoveTo(s, name) ==
            s.(actorKeys := s.actorKeys - {name},
               declared := s.declared - {name},
               heap := if key in s.actors then SetMembers(s.heap, s.actors[key], members - {name}) else s.heap,
               aborted := s.aborted + Elems(ListOf(members, name)),
               actors := if key in s.actors && members - {name} == map[] then s.actors - {key} else s.actors)
  {
    var s1 := BeginRemove(s, name);
    assert s1.ops == map[name := Removing(s.actorKeys[name])];
    var s2 := Detach(s1, name);
    assert s2.ops - {name} == map[];
  }
}
