/** How the instances in the table compare with the declared load: never more, and exactly as much
    when operations on one public key do not overlap. */
module DeclaredLoad {
  import opened Types
  import opened LinkKeys
  import opened LinkIndex
  import opened HostMachine
  import opened LinkAgreement
  import opened ActorRegistry
  import opened Sums

  type Members = map<Name, seq<Task>>

  function Sizes(members: Members): map<Name, nat> {
    map n | n in members :: |members[n]|
  }

  ghost function Size(members: Members): nat {
    SumOn(members.Keys, Sizes(members))
  }

  ghost function GroupSizes(groups: map<string, Members>): map<string, nat> {
    map k | k in groups :: Size(groups[k])
  }

  /** What `stats` reports: all instances of all groups of the table. */
  ghost function InstanceCount(groups: map<string, Members>): nat {
    SumOn(groups.Keys, GroupSizes(groups))
  }

  /** The groups as the table shows them. */
  function Groups(actors: map<string, nat>, heap: seq<Group>): map<string, Members> {
    map k | k in actors && actors[k] < |heap| :: heap[actors[k]].members
  }

  /** The sum of the replica counts of every name's last successful reconcile. */
  ghost function DeclaredSum(declared: map<Name, nat>): nat {
    SumOn(declared.Keys, declared)
  }

  // --- Every run ---

  /** A name in the table has as many instances as its last successful reconcile declared. */
  ghost predicate CountsDeclared(s: HostState) {
    forall k, n :: k in s.actors && s.actors[k] < |s.heap| && n in s.heap[s.actors[k]].members ==>
      n in s.declared && s.declared[n] == |s.heap[s.actors[k]].members[n]|
  }

  predicate Replaced(s: HostState, key: string, gid: nat) {
    key in s.actors && s.actors[key] < |s.heap| && s.actors[key] != gid
  }

  /** A reconcile that holds a group which the table has since replaced is not in the new group. */
  ghost predicate NotInReplacement(s: HostState) {
    forall n :: n in s.ops && s.ops[n].HasGroup? && Replaced(s, s.ops[n].key, s.ops[n].gid) ==>
      n !in s.heap[s.actors[s.ops[n].key]].members
  }

  ghost predicate DeclaredRegistered(s: HostState) {
    && (forall n :: n in s.declared ==> n in s.actorKeys)
    && (forall n :: n in s.ops && s.ops[n].Detached? ==> n !in s.declared)
  }

  ghost predicate DeclInv(s: HostState) {
    CountsDeclared(s) && NotInReplacement(s) && DeclaredRegistered(s)
  }

  lemma DeclKeptByScale(s: HostState, name: Name, good: nat)
    requires Shape(s) && RegInv(s) && DeclInv(s) && CanScale(s, name)
    ensures DeclInv(Scale(s, name, good))
  {
    var s' := Scale(s, name, good);
    var g := s.ops[name].gid;
    forall k, n | k in s'.actors && s'.actors[k] < |s'.heap| && n in s'.heap[s'.actors[k]].members
      ensures n in s'.declared && s'.declared[n] == |s'.heap[s'.actors[k]].members[n]|
    {
      if n == name {
        if n in s.heap[s.actors[k]].members {
          assert Stays(s, n, k);
        }
        assert k == s.ops[name].key;
      }
    }
  }

  lemma DeclKeptByDetach(s: HostState, name: Name)
    requires Shape(s) && RegInv(s) && DeclInv(s) && CanDetach(s, name)
    ensures DeclInv(Detach(s, name))
  {
    var s' := Detach(s, name);
    forall k, n | k in s'.actors && s'.actors[k] < |s'.heap| && n in s'.heap[s'.actors[k]].members
      ensures n in s'.declared && s'.declared[n] == |s'.heap[s'.actors[k]].members[n]|
    {
      assert k in s.actors && s'.actors[k] == s.actors[k];
      assert Stays(s, n, k);
      assert n != name;
    }
  }

  lemma DeclKeptByInsertGroup(s: HostState, name: Name)
    requires Shape(s) && RegInv(s) && DeclInv(s) && Enabled(s, DoInsertGroup(name))
    ensures DeclInv(InsertGroup(s, name))
  {
  }

  lemma DeclKeptByTakeActors(s: HostState, name: Name)
    requires Shape(s) && DeclInv(s) && Enabled(s, DoTakeActors(name))
    ensures DeclInv(TakeActors(s, name))
  {
  }

  lemma DeclKeptByUnregister(s: HostState, name: Name)
    requires Shape(s) && DeclInv(s) && Enabled(s, DoUnregister(name))
    ensures DeclInv(Unregister(s, name))
  {
  }

  /** Steps that touch neither the table, nor the members, nor the declared load. */
  lemma DeclKeptElsewhere(s: HostState, s': HostState, name: Name)
    requires DeclInv(s)
    requires s'.actors == s.actors && s'.declared == s.declared && |s'.heap| == |s.heap|
    requires forall g :: 0 <= g < |s.heap| ==> s'.heap[g].members == s.heap[g].members
    requires forall n :: n in s.actorKeys ==> n in s'.actorKeys
    requires forall n :: n != name && n in s'.ops ==> n in s.ops && s'.ops[n] == s.ops[n]
    requires name in s'.ops ==> !s'.ops[name].HasGroup? && !s'.ops[name].Detached?
    ensures DeclInv(s')
  {
  }

  lemma DeclKeptByLinkStep(s: HostState, s': HostState)
    requires DeclInv(s) && SameActorSide(s, s')
    ensures DeclInv(s')
  {
  }

  lemma DeclKeptByQuietStep(s: HostState, a: Step)
    requires DeclInv(s) && Enabled(s, a)
    requires a.DoBeginReconcile? || a.DoRegister? || a.DoSnapshot? || a.DoBeginRemove?
    ensures DeclInv(Apply(s, a))
  {
    match a {
      case DoBeginReconcile(name, key, replica) => DeclKeptElsewhere(s, BeginReconcile(s, name, key, replica), name);
      case DoRegister(name) => DeclKeptElsewhere(s, Register(s, name), name);
      case DoSnapshot(name, order) => DeclKeptElsewhere(s, Snapshot(s, name, order), name);
      case DoBeginRemove(name) => DeclKeptElsewhere(s, BeginRemove(s, name), name);
    }
  }

  lemma DeclKept(s: HostState, a: Step)
    requires Shape(s) && RegInv(s) && DeclInv(s) && Enabled(s, a)
    ensures DeclInv(Apply(s, a))
  {
    match a {
      case DoBeginReconcile(name, key, replica) => DeclKeptByQuietStep(s, a);
      case DoRegister(name) => DeclKeptByQuietStep(s, a);
      case DoTakeActors(name) => DeclKeptByTakeActors(s, name);
      case DoSnapshot(name, order) => DeclKeptByQuietStep(s, a);
      case DoInsertGroup(name) => DeclKeptByInsertGroup(s, name);
      case DoScale(name, good) => DeclKeptByScale(s, name, good);
      case DoBeginRemove(name) => DeclKeptByQuietStep(s, a);
      case DoDetach(name) => DeclKeptByDetach(s, name);
      case DoUnregister(name) => DeclKeptByUnregister(s, name);
      case _ =>
        LinkStepFrame(s, a);
        DeclKeptByLinkStep(s, Apply(s, a));
    }
  }

  // --- Runs serialised per public key ---

  ghost predicate DistinctKeys(s: HostState) {
    forall n, m :: n in s.ops && m in s.ops && n != m ==> s.ops[n].key != s.ops[m].key
  }

  /** A reconcile's group is the one in the table. */
  ghost predicate GroupsCurrent(s: HostState) {
    forall n :: n in s.ops && s.ops[n].HasGroup? ==>
      s.ops[n].key in s.actors && s.actors[s.ops[n].key] == s.ops[n].gid
  }

  /** Groups that left the table are empty. */
  ghost predicate NoOrphans(s: HostState) {
    forall g: nat :: g < |s.heap| && s.heap[g].members != map[] ==> Current(s, g)
  }

  /** Whatever was declared and is not zero can be found through the table. */
  ghost predicate DeclaredInTable(s: HostState) {
    forall n :: n in s.declared && s.declared[n] > 0 ==>
      && n in s.actorKeys && s.actorKeys[n] in s.actors
      && s.actors[s.actorKeys[n]] < |s.heap| && n in s.heap[s.actors[s.actorKeys[n]]].members
  }

  ghost predicate SerialInv(s: HostState) {
    DistinctKeys(s) && GroupsCurrent(s) && NoOrphans(s) && DeclaredInTable(s)
  }

  lemma SerialKeptByBegin(s: HostState, a: Step)
    requires SerialInv(s) && Enabled(s, a) && Serial(s, a)
    requires a.DoBeginReconcile? || a.DoBeginRemove?
    ensures SerialInv(Apply(s, a))
  {
  }

  lemma SerialKeptByScale(s: HostState, name: Name, good: nat)
    requires Shape(s) && RegInv(s) && SerialInv(s) && CanScale(s, name)
    ensures SerialInv(Scale(s, name, good))
  {
    var s' := Scale(s, name, good);
    var g := s.ops[name].gid;
    assert s.actorKeys[name] == s.ops[name].key;
    assert s.actors[s.ops[name].key] == g && s.heap[g].key == s.ops[name].key;
    assert s'.actors == s.actors && |s'.heap| == |s.heap|;
    assert forall h :: 0 <= h < |s.heap| ==> s'.heap[h].key == s.heap[h].key;
    forall n | n in s'.declared && s'.declared[n] > 0
      ensures && n in s'.actorKeys && s'.actorKeys[n] in s'.actors
              && s'.actors[s'.actorKeys[n]] < |s'.heap| && n in s'.heap[s'.actors[s'.actorKeys[n]]].members
    {
    }
  }

  lemma SerialKeptByDetach(s: HostState, name: Name)
    requires Shape(s) && RegInv(s) && DeclInv(s) && SerialInv(s) && CanDetach(s, name)
    ensures SerialInv(Detach(s, name))
  {
    DeclaredInTableAfterDetach(s, name);
    GroupsAfterDetach(s, name);
  }

  lemma DeclaredInTableAfterDetach(s: HostState, name: Name)
    requires Shape(s) && DeclaredInTable(s) && CanDetach(s, name)
    ensures DeclaredInTable(Detach(s, name))
  {
    var s' := Detach(s, name);
    var key := s.ops[name].key;
    forall n | n in s'.declared && s'.declared[n] > 0
      ensures && n in s'.actorKeys && s'.actorKeys[n] in s'.actors
              && s'.actors[s'.actorKeys[n]] < |s'.heap| && n in s'.heap[s'.actors[s'.actorKeys[n]]].members
    {
      assert n != name;
      if s.actorKeys[n] == key {
        assert n in s.heap[s.actors[key]].members - {name};
      } else {
        assert s.heap[s.actors[s.actorKeys[n]]].key == s.actorKeys[n];
      }
    }
  }

  lemma GroupsAfterDetach(s: HostState, name: Name)
    requires Shape(s) && DistinctKeys(s) && GroupsCurrent(s) && NoOrphans(s) && CanDetach(s, name)
    ensures DistinctKeys(Detach(s, name)) && GroupsCurrent(Detach(s, name)) && NoOrphans(Detach(s, name))
  {
    var s' := Detach(s, name);
    var key := s.ops[name].key;
    assert forall n :: n in s'.ops <==> n in s.ops;
    assert forall n :: n in s'.ops ==> s'.ops[n].key == s.ops[n].key;
  }

  lemma SerialKeptByInsertGroup(s: HostState, name: Name)
    requires Shape(s) && SerialInv(s) && Enabled(s, DoInsertGroup(name))
    ensures SerialInv(InsertGroup(s, name))
  {
  }

  lemma SerialKeptByUnregister(s: HostState, name: Name)
    requires DeclInv(s) && SerialInv(s) && Enabled(s, DoUnregister(name))
    ensures SerialInv(Unregister(s, name))
  {
  }

  /** Steps of a running operation that leave table, members and declared load alone. */
  lemma SerialKeptByAdvance(s: HostState, s': HostState, name: Name)
    requires SerialInv(s) && name in s.ops && name in s'.ops && s'.ops == s.ops[name := s'.ops[name]]
    requires s'.ops[name].key == s.ops[name].key
    requires s'.ops[name].HasGroup? ==> s'.ops[name].key in s.actors && s.actors[s'.ops[name].key] == s'.ops[name].gid
    requires s'.actors == s.actors && s'.declared == s.declared && s'.heap == s.heap
    requires forall n :: n in s.actorKeys ==> n in s'.actorKeys && s'.actorKeys[n] == s.actorKeys[n]
    ensures SerialInv(s')
  {
  }

  lemma SerialKeptByLinkStep(s: HostState, s': HostState)
    requires SerialInv(s) && SameActorSide(s, s')
    ensures SerialInv(s')
  {
  }

  lemma SerialKeptByQuietStep(s: HostState, a: Step)
    requires SerialInv(s) && Enabled(s, a) && (a.DoRegister? || a.DoTakeActors? || a.DoSnapshot?)
    ensures SerialInv(Apply(s, a))
  {
    match a {
      case DoRegister(name) => SerialKeptByAdvance(s, Register(s, name), name);
      case DoTakeActors(name) => SerialKeptByAdvance(s, TakeActors(s, name), name);
      case DoSnapshot(name, order) => SerialKeptByAdvance(s, Snapshot(s, name, order), name);
    }
  }

  lemma SerialKept(s: HostState, a: Step)
    requires Shape(s) && RegInv(s) && DeclInv(s) && SerialInv(s) && Enabled(s, a) && Serial(s, a)
    ensures SerialInv(Apply(s, a))
  {
    match a {
      case DoBeginReconcile(name, key, replica) => SerialKeptByBegin(s, a);
      case DoRegister(name) => SerialKeptByQuietStep(s, a);
      case DoTakeActors(name) => SerialKeptByQuietStep(s, a);
      case DoSnapshot(name, order) => SerialKeptByQuietStep(s, a);
      case DoInsertGroup(name) => SerialKeptByInsertGroup(s, name);
      case DoScale(name, good) => SerialKeptByScale(s, name, good);
      case DoBeginRemove(name) => SerialKeptByBegin(s, a);
      case DoDetach(name) => SerialKeptByDetach(s, name);
      case DoUnregister(name) => SerialKeptByUnregister(s, name);
      case _ =>
        LinkStepFrame(s, a);
        SerialKeptByLinkStep(s, Apply(s, a));
    }
  }

  // --- Counting ---

  /** `f` knows every name of every group with its number of instances. */
  ghost predicate CountsBy(groups: map<string, Members>, f: map<Name, nat>) {
    forall k, n :: k in groups && n in groups[k] ==> n in f && f[n] == |groups[k][n]|
  }

  ghost predicate Disjoint(groups: map<string, Members>) {
    forall k, k', n :: k in groups && k' in groups && n in groups[k] && n in groups[k'] ==> k == k'
  }

  ghost function NamesIn(groups: map<string, Members>, keys: set<string>): set<Name> {
    set k, n | k in keys && k in groups && n in groups[k] :: n
  }

  /** The nested sum over disjoint groups is the flat sum over the names in them. */
  lemma {:induction false} NestedSumIsFlat(groups: map<string, Members>, keys: set<string>, f: map<Name, nat>)
    requires CountsBy(groups, f) && Disjoint(groups) && keys <= groups.Keys
    ensures SumOn(keys, GroupSizes(groups)) == SumOn(NamesIn(groups, keys), f)
  {
    if keys == {} {
      assert NamesIn(groups, keys) == {};
    } else {
      var k :| k in keys;
      NestedSumIsFlat(groups, keys - {k}, f);
      AddGroup(groups, keys, k, f);
    }
  }

  lemma AddGroup(groups: map<string, Members>, keys: set<string>, k: string, f: map<Name, nat>)
    requires CountsBy(groups, f) && Disjoint(groups) && keys <= groups.Keys && k in keys
    requires SumOn(keys - {k}, GroupSizes(groups)) == SumOn(NamesIn(groups, keys - {k}), f)
    ensures SumOn(keys, GroupSizes(groups)) == SumOn(NamesIn(groups, keys), f)
  {
    SumTake(keys, GroupSizes(groups), k);
    OneGroup(groups, k, f);
    SplitNames(groups, keys, k);
    SumUnion(NamesIn(groups, keys - {k}), groups[k].Keys, f);
  }

  lemma OneGroup(groups: map<string, Members>, k: string, f: map<Name, nat>)
    requires CountsBy(groups, f) && k in groups
    ensures At(GroupSizes(groups), k) == SumOn(groups[k].Keys, f)
  {
    SumSame(groups[k].Keys, Sizes(groups[k]), f);
  }

  lemma SplitNames(groups: map<string, Members>, keys: set<string>, k: string)
    requires Disjoint(groups) && keys <= groups.Keys && k in keys
    ensures NamesIn(groups, keys - {k}) !! groups[k].Keys
    ensures NamesIn(groups, keys) == NamesIn(groups, keys - {k}) + groups[k].Keys
  {
  }

  // --- Whole runs ---

  ghost predicate LoadInv(serial: bool, s: HostState) {
    Shape(s) && RegInv(s) && DeclInv(s) && (serial ==> SerialInv(s))
  }

  lemma {:induction false} LoadInvAlongRun(serial: bool, s: HostState, steps: seq<Step>, s': HostState)
    requires LoadInv(serial, s) && Runs(serial, s, steps, s')
    ensures LoadInv(serial, s')
    decreases steps
  {
    if steps != [] {
      var a := steps[0];
      ShapeKept(s, a);
      RegKept(s, a);
      DeclKept(s, a);
      if serial {
        SerialKept(s, a);
      }
      LoadInvAlongRun(serial, Apply(s, a), steps[1..], s');
    }
  }

  lemma CountAgainstDeclared(s: HostState)
    requires LoadInv(false, s)
    ensures InstanceCount(Groups(s.actors, s.heap)) <= DeclaredSum(s.declared)
    ensures InstanceCount(Groups(s.actors, s.heap)) == DeclaredSum(s.declared) <==> DeclaredInTable(s)
  {
    var groups := Groups(s.actors, s.heap);
    TableCounts(s);
    TableHolds(s);
    CountInside(groups, s.declared);
  }

  /** The nested sum falls short of the flat one exactly by the names outside the groups. */
  lemma CountInside(groups: map<string, Members>, f: map<Name, nat>)
    requires CountsBy(groups, f) && Disjoint(groups)
    ensures InstanceCount(groups) <= DeclaredSum(f)
    ensures InstanceCount(groups) == DeclaredSum(f) <==>
            forall n :: n in f && f[n] > 0 ==> n in NamesIn(groups, groups.Keys)
  {
    NamesKnown(groups, f);
    NestedSumIsFlat(groups, groups.Keys, f);
    SumOfPart(NamesIn(groups, groups.Keys), f);
  }

  lemma NamesKnown(groups: map<string, Members>, f: map<Name, nat>)
    requires CountsBy(groups, f)
    ensures NamesIn(groups, groups.Keys) <= f.Keys
  {
    forall n | n in NamesIn(groups, groups.Keys) ensures n in f {
      var k :| k in groups && n in groups[k];
    }
  }

  /** What the invariants say about the groups in the table. */
  lemma TableCounts(s: HostState)
    requires MembersRegistered(s) && CountsDeclared(s)
    ensures var groups := Groups(s.actors, s.heap);
            CountsBy(groups, s.declared) && Disjoint(groups)
  {
    var groups := Groups(s.actors, s.heap);
    forall k, k', n | k in groups && k' in groups && n in groups[k] && n in groups[k'] ensures k == k' {
      assert Stays(s, n, k) && Stays(s, n, k');
    }
  }

  lemma TableHolds(s: HostState)
    requires MembersRegistered(s) && DeclaredRegistered(s)
    ensures var groups := Groups(s.actors, s.heap);
            DeclaredInTable(s) <==>
            forall n :: n in s.declared && s.declared[n] > 0 ==> n in NamesIn(groups, groups.Keys)
  {
    var groups := Groups(s.actors, s.heap);
    forall n | n in s.declared
      ensures n in NamesIn(groups, groups.Keys) <==> s.actorKeys[n] in groups && n in groups[s.actorKeys[n]]
    {
      forall k | k in groups && n in groups[k] ensures k == s.actorKeys[n] {
        assert Stays(s, n, k);
      }
    }
  }

  lemma InitLoad(serial: bool)
    ensures LoadInv(serial, INIT)
  {
  }

  /** The declared load is the sum, over the names registered and not being removed, of the replica count of
      each name's last successful reconcile. After any run `stats` never exceeds it, and equals it exactly when every
      name with a positive count is in the group its key has in the table; after every run serialised
      per public key that is so. */
  lemma StatsIsDeclaredLoad(serial: bool, s: HostState)
    requires Reachable(serial, s)
    ensures InstanceCount(Groups(s.actors, s.heap)) <= DeclaredSum(s.declared)
    ensures InstanceCount(Groups(s.actors, s.heap)) == DeclaredSum(s.declared) <==> DeclaredInTable(s)
    ensures serial ==> InstanceCount(Groups(s.actors, s.heap)) == DeclaredSum(s.declared)
    ensures forall n :: n in s.declared ==> n in s.actorKeys && !(n in s.ops && s.ops[n].Detached?)
  {
    InitLoad(serial);
    var steps :| Runs(serial, INIT, steps, s);
    LoadInvAlongRun(serial, INIT, steps, s);
    CountAgainstDeclared(s);
  }

  // --- Reading group after group ---

  /** The names whose last successful reconcile counts for `key`. */
  function DeclaredUnder(s: HostState, key: string): set<Name> {
    set n | n in s.declared && n in s.actorKeys && s.actorKeys[n] == key
  }

  /** At any moment of a serialised run a group has as many instances as declared for its key. */
  lemma GroupIsDeclaredLoad(s: HostState, key: string)
    requires Reachable(true, s) && key in s.actors
    ensures s.actors[key] < |s.heap|
    ensures Size(s.heap[s.actors[key]].members) == SumOn(DeclaredUnder(s, key), s.declared)
  {
    InitLoad(true);
    var steps :| Runs(true, INIT, steps, s);
    LoadInvAlongRun(true, INIT, steps, s);
    MembersDeclared(s, key);
    var members := s.heap[s.actors[key]].members;
    SumOfAllButZero(members.Keys, DeclaredUnder(s, key), Sizes(members), s.declared);
  }

  lemma MembersDeclared(s: HostState, key: string)
    requires LoadInv(true, s) && key in s.actors
    ensures var members := s.heap[s.actors[key]].members;
            && members.Keys <= DeclaredUnder(s, key)
            && (forall n :: n in members ==> At(Sizes(members), n) == At(s.declared, n))
            && (forall n :: n in DeclaredUnder(s, key) - members.Keys ==> At(s.declared, n) == 0)
  {
    var members := s.heap[s.actors[key]].members;
    forall n | n in members ensures n in DeclaredUnder(s, key) {
      assert Stays(s, n, key);
    }
  }

  /** A group read at one moment. */
  datatype Reading = Reading(state: HostState, key: string)

  ghost function CountRead(readings: seq<Reading>): nat
    requires forall r :: r in readings ==> r.key in r.state.actors && r.state.actors[r.key] < |r.state.heap|
  {
    if readings == [] then 0
    else
      var r := readings[|readings| - 1];
      CountRead(readings[..|readings| - 1]) + Size(r.state.heap[r.state.actors[r.key]].members)
  }

  ghost function DeclaredRead(readings: seq<Reading>): nat {
    if readings == [] then 0
    else
      var r := readings[|readings| - 1];
      DeclaredRead(readings[..|readings| - 1]) + SumOn(DeclaredUnder(r.state, r.key), r.state.declared)
  }

  /** When other operations scale groups between the reads of `stats`, it reports the sum of what was
      declared for each key at the moment its group was read. */
  lemma {:induction false} StatsReadsDeclaredLoad(readings: seq<Reading>)
    requires forall r :: r in readings ==> Reachable(true, r.state)
    requires forall r :: r in readings ==> r.key in r.state.actors && r.state.actors[r.key] < |r.state.heap|
    ensures CountRead(readings) == DeclaredRead(readings)
  {
    if readings != [] {
      var init, r := readings[..|readings| - 1], readings[|readings| - 1];
      assert r in readings && forall x :: x in init ==> x in readings;
      StatsReadsDeclaredLoad(init);
      GroupIsDeclaredLoad(r.state, r.key);
    }
  }
}
