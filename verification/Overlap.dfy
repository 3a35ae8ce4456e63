/** Why the declared load needs operations on one public key to be serialised. Two names share a key.
    While one is between taking its group and scaling in it, the other is removed and takes the
    emptied group out of the table: the first then starts its instance in a group nobody can find. */
module Overlap {
  import opened Types
  import opened LinkKeys
  import opened LinkIndex
  import opened HostMachine
  import opened DeclaredLoad
  import opened Sums

  /** Starting a first instance. */
  lemma ScaleToOne(s: HostState, name: Name)
    requires CanScale(s, name) && s.ops[name].replica == 1 && name !in s.heap[s.ops[name].gid].members
    ensures var g := s.ops[name].gid;
            Scale(s, name, 1) ==
            s.(heap := SetMembers(s.heap, g, s.heap[g].members[name := [s.nextTask]]), ops := s.ops - {name},
               nextTask := s.nextTask + 1, declared := s.declared[name := 1])
  {
    assert [] + Batch(s.nextTask, 1) == [s.nextTask];
    assert s.aborted + Elems([]) == s.aborted;
  }

  /** The host with one name registered under `key` and nothing else. */
  function Alone(key: string, b: Name, op: ActorPhase): HostState {
    INIT.(actorKeys := map[b := key], ops := map[b := op])
  }

  /** A first name of a key comes to hold the actors lock. */
  lemma FirstLocks(key: string, b: Name)
    ensures Reachable(false, Alone(key, b, Locked(key, 1)).(writer := Some(b)))
  {
    assert Runs(false, INIT, [], INIT);
    var s1 := BeginReconcile(INIT, b, key, 1);
    ReachStep(false, INIT, DoBeginReconcile(b, key, 1));
    ReachStep(false, s1, DoRegister(b));
    assert Register(s1, b) == Alone(key, b, Registered(key, 1));
    ReachStep(false, Alone(key, b, Registered(key, 1)), DoTakeActors(b));
    assert TakeActors(Alone(key, b, Registered(key, 1)), b) == Alone(key, b, Locked(key, 1)).(writer := Some(b));
  }

  /** It inserts the group of the key. */
  lemma FirstInserts(key: string, b: Name)
    ensures Reachable(false, Alone(key, b, HasGroup(key, 1, 0)).(actors := map[key := 0],
                                                                 heap := [Group(key, map[], map[])]))
  {
    FirstLocks(key, b);
    var s1 := Alone(key, b, Locked(key, 1)).(writer := Some(b));
    ReachStep(false, s1, DoSnapshot(b, []));
    var s2 := Alone(key, b, Snapped(key, 1, map[])).(writer := Some(b));
    assert Snapshot(s1, b, []) == s2;
    ReachStep(false, s2, DoInsertGroup(b));
    assert InsertGroup(s2, b) ==
           Alone(key, b, HasGroup(key, 1, 0)).(actors := map[key := 0], heap := [Group(key, map[], map[])]);
  }

  /** Name `b` runs one instance in the group of `key`. */
  function OneName(key: string, b: Name): HostState {
    HostState(map[], NoLinkOp, [], map[], map[b := key], map[key := 0],
              [Group(key, map[], map[b := [0]])], map[], None, 1, {}, {}, map[b := 1])
  }

  lemma OneNameReachable(key: string, b: Name)
    ensures Reachable(false, OneName(key, b))
  {
    FirstInserts(key, b);
    var s := Alone(key, b, HasGroup(key, 1, 0)).(actors := map[key := 0], heap := [Group(key, map[], map[])]);
    ScaleToOne(s, b);
    ReachStep(false, s, DoScale(b, 1));
    assert Scale(s, b, 1) == OneName(key, b);
  }

  /** Besides, `a` has taken the same group but not yet scaled in it. */
  function TwoNames(key: string, a: Name, b: Name): HostState {
    OneName(key, b).(actorKeys := map[a := key, b := key], ops := map[a := HasGroup(key, 1, 0)])
  }

  lemma SecondRegisters(key: string, a: Name, b: Name)
    requires a != b
    ensures Reachable(false, TwoNames(key, a, b).(ops := map[a := Registered(key, 1)]))
  {
    SecondBegins(key, a, b);
    var s := OneName(key, b).(ops := map[a := Checked(key, 1)]);
    ReachStep(false, s, DoRegister(a));
    assert Register(s, a) == TwoNames(key, a, b).(ops := map[a := Registered(key, 1)]);
  }

  lemma SecondBegins(key: string, a: Name, b: Name)
    requires a != b
    ensures Reachable(false, OneName(key, b).(ops := map[a := Checked(key, 1)]))
  {
    OneNameReachable(key, b);
    var s := OneName(key, b);
    ReachStep(false, s, DoBeginReconcile(a, key, 1));
    assert BeginReconcile(s, a, key, 1) == s.(ops := map[a := Checked(key, 1)]);
  }

  lemma TwoNamesReachable(key: string, a: Name, b: Name)
    requires a != b
    ensures Reachable(false, TwoNames(key, a, b))
  {
    SecondRegisters(key, a, b);
    var s := TwoNames(key, a, b).(ops := map[a := Registered(key, 1)]);
    ReachStep(false, s, DoTakeActors(a));
    assert TakeActors(s, a) == TwoNames(key, a, b);
  }

  /** The other name is removed, and takes the emptied group out of the table. */
  function TakenAway(key: string, a: Name): HostState {
    HostState(map[], NoLinkOp, [], map[], map[a := key], map[],
              [Group(key, map[], map[])], map[a := HasGroup(key, 1, 0)], None, 1, {0}, {}, map[])
  }

  lemma RemoverBegins(key: string, a: Name, b: Name)
    requires a != b
    ensures Reachable(false, TwoNames(key, a, b).(ops := map[a := HasGroup(key, 1, 0), b := Removing(key)]))
  {
    TwoNamesReachable(key, a, b);
    var s := TwoNames(key, a, b);
    ReachStep(false, s, DoBeginRemove(b));
    assert BeginRemove(s, b) == s.(ops := map[a := HasGroup(key, 1, 0), b := Removing(key)]);
  }

  lemma RemoverDetaches(key: string, a: Name, b: Name)
    requires a != b
    ensures Reachable(false, TakenAway(key, a).(actorKeys := map[a := key, b := key],
                                         ops := map[a := HasGroup(key, 1, 0), b := Detached(key)]))
  {
    RemoverBegins(key, a, b);
    var s := TwoNames(key, a, b).(ops := map[a := HasGroup(key, 1, 0), b := Removing(key)]);
    ReachStep(false, s, DoDetach(b));
    assert map[b := [0]] - {b} == map[];
    assert Detach(s, b).heap == [Group(key, map[], map[])];
    assert Detach(s, b).ops == map[a := HasGroup(key, 1, 0), b := Detached(key)];
    assert Detach(s, b).actors == map[] && Detach(s, b).aborted == {0} && Detach(s, b).declared == map[];
  }

  lemma TakenAwayReachable(key: string, a: Name, b: Name)
    requires a != b
    ensures Reachable(false, TakenAway(key, a))
  {
    RemoverDetaches(key, a, b);
    var s := TakenAway(key, a).(actorKeys := map[a := key, b := key],
                                ops := map[a := HasGroup(key, 1, 0), b := Detached(key)]);
    ReachStep(false, s, DoUnregister(b));
    assert Unregister(s, b) == TakenAway(key, a);
  }

  /** The first name has started its instance in the group that left the table. */
  function Orphaned(key: string, a: Name): HostState {
    HostState(map[], NoLinkOp, [], map[], map[a := key], map[],
              [Group(key, map[], map[a := [1]])], map[], None, 2, {0}, {}, map[a := 1])
  }

  /** `stats` reports nothing although one instance is declared and running. */
  lemma OverlapLosesGroup(key: string, a: Name, b: Name)
    requires a != b
    ensures Reachable(false, Orphaned(key, a))
    ensures var s := Orphaned(key, a);
            InstanceCount(Groups(s.actors, s.heap)) == 0 && DeclaredSum(s.declared) == 1
  {
    TakenAwayReachable(key, a, b);
    ScaleToOne(TakenAway(key, a), a);
    ReachStep(false, TakenAway(key, a), DoScale(a, 1));
    var s := Orphaned(key, a);
    assert Scale(TakenAway(key, a), a, 1) == s;
    SumTake(s.declared.Keys, s.declared, a);
    assert s.declared.Keys - {a} == {};
    assert Groups(s.actors, s.heap).Keys == {};
  }

  /** Removing the name afterwards does not stop its task: nothing is registered and no operation
      runs, yet a task that no failed batch started is alive. */
  lemma OverlapLeavesTaskRunning(key: string, a: Name, b: Name)
    requires a != b
    ensures var s := Orphaned(key, a).(actorKeys := map[], declared := map[]);
            && Reachable(false, s)
            && s.actorKeys == map[] && s.ops == map[] && s.actors == map[]
            && 1 < s.nextTask && 1 !in s.aborted && 1 !in s.leaked
  {
    OrphanDetaches(key, a, b);
    var s := Orphaned(key, a).(ops := map[a := Detached(key)], declared := map[]);
    ReachStep(false, s, DoUnregister(a));
    assert Unregister(s, a) == Orphaned(key, a).(actorKeys := map[], declared := map[]);
  }

  lemma OrphanDetaches(key: string, a: Name, b: Name)
    requires a != b
    ensures Reachable(false, Orphaned(key, a).(ops := map[a := Detached(key)], declared := map[]))
  {
    OverlapLosesGroup(key, a, b);
    var s := Orphaned(key, a);
    ReachStep(false, s, DoBeginRemove(a));
    var s1 := s.(ops := map[a := Removing(key)]);
    assert BeginRemove(s, a) == s1;
    ReachStep(false, s1, DoDetach(a));
    assert Detach(s1, a) == s.(ops := map[a := Detached(key)], declared := map[]);
  }
}
