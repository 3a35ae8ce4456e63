/** Groups the table of groups still knows. A reconcile lets go of the table before it scales, so it can
    start instances in a group that a removal has dropped meanwhile; this is the one step that does so,
    and what it costs: instances nobody can find, and handlers whose links are never patched again. */
module CurrentGroups {
  import opened Types
  import opened LinkKeys
  import opened LinkIndex
  import opened HostMachine
  import opened LinkAgreement
  import opened ActorRegistry
  import opened DeclaredLoad
  import opened HostOps
  import opened Sums

  // --- Serialised runs ---

  lemma {:induction false} SerialIsRun(s: HostState, steps: seq<Step>, s': HostState)
    requires Runs(true, s, steps, s')
    ensures Runs(false, s, steps, s')
    decreases steps
  {
    if steps != [] {
      SerialIsRun(Apply(s, steps[0]), steps[1..], s');
    }
  }

  lemma SerialIsReachable(serial: bool, s: HostState)
    requires Reachable(serial, s)
    ensures Reachable(false, s)
  {
    var steps :| Runs(serial, INIT, steps, s);
    if serial {
      SerialIsRun(INIT, steps, s);
    }
  }

  /** When operations on one key do not overlap, every group with members is the table's. */
  lemma SerialGroupsCurrent(s: HostState, g: nat)
    requires Reachable(true, s) && g < |s.heap| && s.heap[g].members != map[]
    ensures Current(s, g)
  {
    InitLoad(true);
    var steps :| Runs(true, INIT, steps, s);
    LoadInvAlongRun(true, INIT, steps, s);
  }

  /** A group whose handlers can be relied on: the table's, or any with members if operations on one key do
      not overlap. */
  predicate Relied(serial: bool, s: HostState, g: nat) {
    g < |s.heap| && (Current(s, g) || (serial && s.heap[g].members != map[]))
  }

  /** Their caches mirror the link table. */
  lemma ReliedMirrorsTable(serial: bool, s: HostState, g: nat, c: string, n: string)
    requires Reachable(serial, s) && Relied(serial, s, g)
    requires Unpatched(s.linkOp) != Some(Triple(s.heap[g].key, c, n))
    ensures Lookup(s.heap[g].cache, c, n) == TableEntity(s.links, Triple(s.heap[g].key, c, n))
  {
    if !Current(s, g) {
      SerialGroupsCurrent(s, g);
    }
    SerialIsReachable(serial, s);
    CachesMirrorTable(s, s.heap[g].key, c, n);
  }

  // --- Links added later ---

  /** Every definition added to the table for the key of group `g` shows up in the group's cache. */
  ghost predicate NewLinksReach(s: HostState, g: nat)
    requires LinksIdle(s) && g < |s.heap|
  {
    forall ld :: Added(s, g, ld) ==>
      Lookup(AddLinkdefTo(s, ld, true).heap[g].cache, ld.contractId, ld.linkName) == Some(EntityOf(ld))
  }

  predicate Added(s: HostState, g: nat, ld: LinkDef)
    requires g < |s.heap|
  {
    ld.actorId == s.heap[g].key && LinkdefHash(TripleOf(ld)) !in s.links
  }

  lemma {:induction false} LongerThanAll(digests: set<Digest>) returns (n: nat)
    ensures forall d :: d in digests ==> |d.preimage| < n
  {
    n := 0;
    if digests != {} {
      var d :| d in digests;
      n := LongerThanAll(digests - {d});
      n := if |d.preimage| < n then n else |d.preimage| + 1;
    }
  }

  /** There is always a definition the table lacks and the cache of a given group does not know. */
  lemma UnknownLink(s: HostState, g: nat, c: string) returns (ld: LinkDef)
    requires g < |s.heap|
    ensures Added(s, g, ld) && ld.contractId == c && Lookup(s.heap[g].cache, c, ld.linkName) != Some(EntityOf(ld))
  {
    var n := LongerThanAll(s.links.Keys);
    var link := seq(n, i => 'a');
    var known := Lookup(s.heap[g].cache, c, link);
    var provider := if known.Some? then known.value.publicKey + "x" else "x";
    ld := LinkDef(s.heap[g].key, provider, c, link, map[]);
    assert |s.heap[g].key + c + link| >= n;
    if known.Some? {
      assert |provider| == |known.value.publicKey| + 1;
    }
  }

  /** Added definitions reach a group's handlers if and only if the group is the table's. */
  lemma NewLinksReachExactly(s: HostState, g: nat)
    requires LinksIdle(s) && g < |s.heap|
    ensures NewLinksReach(s, g) <==> Current(s, g)
  {
    if !Current(s, g) {
      var ld := UnknownLink(s, g, "");
      StaleCacheStays(s, g, ld);
    }
  }

  lemma StaleCacheStays(s: HostState, g: nat, ld: LinkDef)
    requires LinksIdle(s) && g < |s.heap| && !Current(s, g) && Added(s, g, ld)
    ensures var s' := AddLinkdefTo(s, ld, true);
            |s'.heap| == |s.heap| && s'.heap[g] == s.heap[g] && Stored(s'.links, TripleOf(ld)) == Some(ld)
            && LinksIdle(s')
  {
  }

  /** Even when nothing overlaps, the tasks of a failed batch outlive their group: `a` fails to start its
      second instance and is removed, and the first one goes on in a group that is not the table's. */
  lemma FailedBatchOutlivesGroup(key: string, a: Name) returns (s: HostState)
    ensures Reachable(true, s) && Quiescent(s) && s.actorKeys == map[]
    ensures Live(s, 0) && 0 in s.leaked
    ensures |s.heap| == 1 && s.heap[0].key == key && !Current(s, 0)
  {
    var m := FailedStart(key, a);
    s := RemoveTo(m, a);
    RemoveReachable(m, a);
    RemoveAlone(m, a);
  }

  lemma FailedStart(key: string, a: Name) returns (s: HostState)
    ensures Reachable(true, s) && Quiescent(s) && s.actorKeys == map[a := key] && s.actors == map[key := 0]
    ensures s.nextTask == 1 && s.aborted == {} && s.leaked == {0} && s.heap == [Group(key, map[], map[])]
  {
    assert Runs(true, INIT, [], INIT);
    ReconcileReachable(INIT, a, key, 2, [], 1);
    s := ReconcileTo(INIT, a, key, 2, [], 1);
    assert 0 in BatchSet(0, 1) && BatchSet(0, 1) == {0};
  }

  // --- Instances in the table ---

  /** Task `t` is an instance the table of groups leads to. */
  ghost predicate InTable(s: HostState, t: Task) {
    exists k, n, i: nat :: k in s.actors && TracksAt(s.heap, s.actors[k], n, i, t)
  }

  predicate Live(s: HostState, t: Task) {
    t < s.nextTask && t !in s.aborted
  }

  /** Every group with an instance is the table's. */
  ghost predicate NoneStranded(s: HostState) {
    forall g: nat, n :: g < |s.heap| && n in s.heap[g].members && s.heap[g].members[n] != [] ==> Current(s, g)
  }

  lemma TaskInTable(s: HostState, t: Task)
    requires Reachable(false, s) && NoneStranded(s) && Live(s, t) && t !in s.leaked
    ensures InTable(s, t)
  {
    LiveTasksConserved(s);
    var g: nat, n, i: nat :| TracksAt(s.heap, g, n, i, t);
    assert Current(s, g);
    assert TracksAt(s.heap, s.actors[s.heap[g].key], n, i, t);
  }

  lemma InstanceGroupCurrent(s: HostState, g: nat, n: Name)
    requires Reachable(false, s) && g < |s.heap| && n in s.heap[g].members && s.heap[g].members[n] != []
    requires forall t: Task :: Live(s, t) && t !in s.leaked ==> InTable(s, t)
    ensures Current(s, g)
  {
    LiveTasksConserved(s);
    var t := s.heap[g].members[n][0];
    assert TracksAt(s.heap, g, n, 0, t);
    assert Tracked(s.heap, t);
    assert Live(s, t) && InTable(s, t);
    var k, m, i: nat :| k in s.actors && TracksAt(s.heap, s.actors[k], m, i, t);
    RegistryPartition(s);
    KeysOfGroups(s, k);
  }

  lemma KeysOfGroups(s: HostState, k: string)
    requires Reachable(false, s) && k in s.actors
    ensures s.actors[k] < |s.heap| && s.heap[s.actors[k]].key == k
  {
    var steps :| Runs(false, INIT, steps, s);
    ShapeAlongRun(false, INIT, steps, s);
  }

  /** In every reachable state: every live task of no failed batch is an instance in the table, if and only
      if every group with an instance is the table's. It is so whenever operations on one key do not
      overlap. */
  lemma LiveTasksInTable(serial: bool, s: HostState)
    requires Reachable(serial, s)
    ensures (forall t: Task :: Live(s, t) && t !in s.leaked ==> InTable(s, t)) <==> NoneStranded(s)
    ensures serial ==> NoneStranded(s)
    ensures forall t: Task :: InTable(s, t) ==> Live(s, t) && t !in s.leaked
  {
    if serial {
      forall g: nat, n | g < |s.heap| && n in s.heap[g].members && s.heap[g].members[n] != [] ensures Current(s, g) {
        SerialGroupsCurrent(s, g);
      }
    }
    SerialIsReachable(serial, s);
    LiveTasksConserved(s);
    if NoneStranded(s) {
      forall t: Task | Live(s, t) && t !in s.leaked ensures InTable(s, t) {
        TaskInTable(s, t);
      }
    }
    if forall t: Task :: Live(s, t) && t !in s.leaked ==> InTable(s, t) {
      forall g: nat, n | g < |s.heap| && n in s.heap[g].members && s.heap[g].members[n] != [] ensures Current(s, g) {
        InstanceGroupCurrent(s, g, n);
      }
    }
    forall t: Task | InTable(s, t) ensures Live(s, t) && t !in s.leaked {
      var k, n, i: nat :| k in s.actors && TracksAt(s.heap, s.actors[k], n, i, t);
      assert Tracked(s.heap, t);
    }
  }

  // --- The one step that loses instances ---

  /** A scaling to one instance or more that succeeds in a group that is not the table's. */
  predicate Strays(s: HostState, a: Step) {
    && a.DoScale? && CanScale(s, a.name)
    && !Current(s, s.ops[a.name].gid)
    && var replica := s.ops[a.name].replica;
       0 < replica <= |ListOf(s.heap[s.ops[a.name].gid].members, a.name)| + a.good
  }

  lemma StrayLosesDeclared(s: HostState, name: Name, good: nat)
    requires Shape(s) && RegInv(s) && DeclInv(s) && CanScale(s, name) && Strays(s, DoScale(name, good))
    ensures !DeclaredInTable(Scale(s, name, good))
  {
    var s' := Scale(s, name, good);
    assert s.actorKeys[name] == s.ops[name].key == s.heap[s.ops[name].gid].key;
    assert name in s'.declared && s'.declared[name] > 0;
    assert s.ops[name].key in s.actors ==> Replaced(s, s.ops[name].key, s.ops[name].gid);
  }

  lemma ScaleKeepsDeclared(s: HostState, name: Name, good: nat)
    requires Shape(s) && RegInv(s) && DeclaredInTable(s) && CanScale(s, name) && !Strays(s, DoScale(name, good))
    ensures DeclaredInTable(Scale(s, name, good))
  {
    var s' := Scale(s, name, good);
    assert s.actorKeys[name] == s.ops[name].key == s.heap[s.ops[name].gid].key;
    forall n | n in s'.declared && s'.declared[n] > 0
      ensures && n in s'.actorKeys && s'.actorKeys[n] in s'.actors
              && s'.actors[s'.actorKeys[n]] < |s'.heap| && n in s'.heap[s'.actors[s'.actorKeys[n]]].members
    {
    }
  }

  lemma OtherStepsFound(s: HostState, a: Step)
    requires Shape(s) && DeclInv(s) && DeclaredInTable(s) && Enabled(s, a) && !a.DoScale?
    ensures DeclaredInTable(Apply(s, a))
  {
    match a {
      case DoDetach(name) => DeclaredInTableAfterDetach(s, name);
      case DoInsertGroup(name) => InsertFound(s, name);
      case DoUnregister(name) =>
      case _ =>
        TaskFrame(s, a);
        QuietStepFound(s, a);
    }
  }

  lemma InsertFound(s: HostState, name: Name)
    requires Shape(s) && DeclaredInTable(s) && Enabled(s, DoInsertGroup(name))
    ensures DeclaredInTable(InsertGroup(s, name))
  {
  }

  lemma QuietStepFound(s: HostState, a: Step)
    requires DeclaredInTable(s) && Enabled(s, a)
    requires !a.DoScale? && !a.DoDetach? && !a.DoInsertGroup? && !a.DoUnregister?
    ensures DeclaredInTable(Apply(s, a))
  {
    var s' := Apply(s, a);
    TaskFrame(s, a);
    assert s'.declared == s.declared && s'.actors == s.actors;
    assert forall n :: n in s.actorKeys ==> n in s'.actorKeys && s'.actorKeys[n] == s.actorKeys[n];
  }

  lemma ScaleStrands(s: HostState, name: Name, good: nat)
    requires Shape(s) && NoneStranded(s) && CanScale(s, name)
    ensures NoneStranded(Scale(s, name, good)) <==> !Strays(s, DoScale(name, good))
  {
    var s' := Scale(s, name, good);
    var h := s.ops[name].gid;
    assert forall g: nat :: Current(s', g) == Current(s, g);
    if Strays(s, DoScale(name, good)) {
      assert name in s'.heap[h].members && s'.heap[h].members[name] != [];
    } else {
      forall g: nat, n | g < |s'.heap| && n in s'.heap[g].members && s'.heap[g].members[n] != []
        ensures Current(s', g)
      {
        if g != h || n != name {
          assert s'.heap[g].members[n] == s.heap[g].members[n];
        }
      }
    }
  }

  lemma OtherStepsStrandNone(s: HostState, a: Step)
    requires Shape(s) && NoneStranded(s) && Enabled(s, a) && !a.DoScale?
    ensures NoneStranded(Apply(s, a))
  {
    match a {
      case DoDetach(name) => DetachStrandsNone(s, name);
      case DoInsertGroup(name) => InsertStrandsNone(s, name);
      case _ =>
        TaskFrame(s, a);
        QuietStepStrandsNone(s, a);
    }
  }

  lemma DetachStrandsNone(s: HostState, name: Name)
    requires Shape(s) && NoneStranded(s) && CanDetach(s, name)
    ensures NoneStranded(Detach(s, name))
  {
    var s' := Detach(s, name);
    var key := s.ops[name].key;
    forall g: nat, n | g < |s'.heap| && n in s'.heap[g].members && s'.heap[g].members[n] != [] ensures Current(s', g) {
      assert n in s.heap[g].members && s'.heap[g].members[n] == s.heap[g].members[n];
      assert Current(s, g);
      if s.heap[g].key == key {
        assert n in s.heap[g].members - {name};
      }
    }
  }

  lemma InsertStrandsNone(s: HostState, name: Name)
    requires Shape(s) && NoneStranded(s) && Enabled(s, DoInsertGroup(name))
    ensures NoneStranded(InsertGroup(s, name))
  {
    var s' := InsertGroup(s, name);
    forall g: nat, n | g < |s'.heap| && n in s'.heap[g].members && s'.heap[g].members[n] != [] ensures Current(s', g) {
      assert g < |s.heap| && s'.heap[g] == s.heap[g];
      assert Current(s, g);
    }
  }

  lemma QuietStepStrandsNone(s: HostState, a: Step)
    requires NoneStranded(s) && Enabled(s, a) && !a.DoScale? && !a.DoDetach? && !a.DoInsertGroup?
    ensures NoneStranded(Apply(s, a))
  {
    var s' := Apply(s, a);
    TaskFrame(s, a);
    assert s'.actors == s.actors;
    assert forall g :: 0 <= g < |s.heap| ==> s'.heap[g].key == s.heap[g].key;
    assert forall g: nat :: Current(s', g) == Current(s, g);
  }

  /** In a state where everything declared and every instance can be found through the table, exactly the
      straying steps lead to one where that is not so, for the declared load and for the instances. */
  lemma OnlyStrayingLoses(s: HostState, a: Step)
    requires LoadInv(false, s) && DeclaredInTable(s) && NoneStranded(s) && Enabled(s, a)
    ensures DeclaredInTable(Apply(s, a)) <==> !Strays(s, a)
    ensures NoneStranded(Apply(s, a)) <==> !Strays(s, a)
  {
    if a.DoScale? {
      OnlyStrayingScales(s, a.name, a.good);
    } else {
      OtherStepsFound(s, a);
      OtherStepsStrandNone(s, a);
    }
  }

  lemma OnlyStrayingScales(s: HostState, name: Name, good: nat)
    requires LoadInv(false, s) && DeclaredInTable(s) && NoneStranded(s) && CanScale(s, name)
    ensures DeclaredInTable(Scale(s, name, good)) <==> !Strays(s, DoScale(name, good))
    ensures NoneStranded(Scale(s, name, good)) <==> !Strays(s, DoScale(name, good))
  {
    ScaleStrands(s, name, good);
    if Strays(s, DoScale(name, good)) {
      StrayLosesDeclared(s, name, good);
    } else {
      ScaleKeepsDeclared(s, name, good);
    }
  }

  /** No step of the run strays. */
  ghost predicate NeverStrays(s: HostState, steps: seq<Step>)
    decreases steps
  {
    steps == [] || (Enabled(s, steps[0]) && !Strays(s, steps[0]) && NeverStrays(Apply(s, steps[0]), steps[1..]))
  }

  lemma {:induction false} FoundAlongRun(s: HostState, steps: seq<Step>, s': HostState)
    requires LoadInv(false, s) && DeclaredInTable(s) && NoneStranded(s)
    requires Runs(false, s, steps, s') && NeverStrays(s, steps)
    ensures LoadInv(false, s') && DeclaredInTable(s') && NoneStranded(s')
    decreases steps
  {
    if steps != [] {
      var a := steps[0];
      OnlyStrayingLoses(s, a);
      ShapeKept(s, a);
      RegKept(s, a);
      DeclKept(s, a);
      FoundAlongRun(Apply(s, a), steps[1..], s');
    }
  }

  /** Whatever overlaps: after a run without a straying step `stats` is the declared load, and every live
      task of no failed batch is an instance in the table. */
  lemma NoStrayNoLoss(steps: seq<Step>, s: HostState)
    requires Runs(false, INIT, steps, s) && NeverStrays(INIT, steps)
    ensures InstanceCount(Groups(s.actors, s.heap)) == DeclaredSum(s.declared)
    ensures forall t: Task :: Live(s, t) && t !in s.leaked ==> InTable(s, t)
  {
    InitLoad(false);
    FoundAlongRun(INIT, steps, s);
    StatsIsDeclaredLoad(false, s);
    LiveTasksInTable(false, s);
  }
}
