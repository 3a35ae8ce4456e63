/** Every interleaving keeps the actor registry a partition and loses track of no call task except
    those of failed batches. */
module ActorRegistry {
  import opened Types
  import opened LinkKeys
  import opened LinkIndex
  import opened HostMachine
  import opened LinkAgreement

  // --- Registry partition ---

  /** An operation past its first step works on the key its name is registered under. */
  ghost predicate OpsRegistered(s: HostState) {
    forall n :: n in s.ops ==>
      if s.ops[n].Checked? then n in s.actorKeys ==> s.actorKeys[n] == s.ops[n].key
      else n in s.actorKeys && s.actorKeys[n] == s.ops[n].key
  }

  /** Still registered, and not about to be unregistered. */
  ghost predicate Stays(s: HostState, n: Name, key: string) {
    n in s.actorKeys && s.actorKeys[n] == key && (n in s.ops ==> !s.ops[n].Detached?)
  }

  /** A name present in the group of key k stays registered under k. */
  ghost predicate MembersRegistered(s: HostState) {
    forall k, n :: k in s.actors && s.actors[k] < |s.heap| && n in s.heap[s.actors[k]].members ==> Stays(s, n, k)
  }

  /** Every group in the table has a name that stays registered under its key. */
  ghost predicate GroupsInhabited(s: HostState) {
    forall k :: k in s.actors ==> exists n :: Stays(s, n, k)
  }

  ghost predicate RegInv(s: HostState) {
    OpsRegistered(s) && MembersRegistered(s) && GroupsInhabited(s)
  }

  /** A step that leaves the registrations, the table and the members alone and makes no name leave. */
  lemma RegKeptLocally(s: HostState, s': HostState, name: Name)
    requires Shape(s) && RegInv(s)
    requires s'.actorKeys == s.actorKeys && s'.actors == s.actors
    requires |s'.heap| == |s.heap| && forall g :: 0 <= g < |s.heap| ==> s'.heap[g].members == s.heap[g].members
    requires forall n :: n != name ==> (n in s'.ops <==> n in s.ops) && (n in s.ops ==> s'.ops[n] == s.ops[n])
    requires name in s'.ops ==> !s'.ops[name].Detached? && !s'.ops[name].Checked?
                                && name in s.actorKeys && s.actorKeys[name] == s'.ops[name].key
    ensures RegInv(s')
  {
    forall n, k | Stays(s, n, k) ensures Stays(s', n, k) {}
    forall k | k in s'.actors ensures exists n :: Stays(s', n, k) {
      var n :| Stays(s, n, k);
      assert Stays(s', n, k);
    }
  }

  lemma RegKeptByBegin(s: HostState, name: Name, key: string, replica: nat)
    requires Shape(s) && RegInv(s) && CanBeginReconcile(s, name, key)
    ensures RegInv(BeginReconcile(s, name, key, replica))
  {
    var s' := BeginReconcile(s, name, key, replica);
    forall n, k | Stays(s, n, k) ensures Stays(s', n, k) {}
    forall k | k in s'.actors ensures exists n :: Stays(s', n, k) {
      var n :| Stays(s, n, k);
      assert Stays(s', n, k);
    }
  }

  lemma RegKeptByRegister(s: HostState, name: Name)
    requires Shape(s) && RegInv(s) && Enabled(s, DoRegister(name))
    ensures RegInv(Register(s, name))
  {
    var s' := Register(s, name);
    forall n, k | Stays(s, n, k) ensures Stays(s', n, k) {}
    forall k | k in s'.actors ensures exists n :: Stays(s', n, k) {
      var n :| Stays(s, n, k);
      assert Stays(s', n, k);
    }
  }

  lemma RegKeptByInsertGroup(s: HostState, name: Name)
    requires Shape(s) && RegInv(s) && Enabled(s, DoInsertGroup(name))
    ensures RegInv(InsertGroup(s, name))
  {
    var s' := InsertGroup(s, name);
    var key := s.ops[name].key;
    forall n, k | Stays(s, n, k) ensures Stays(s', n, k) {}
    assert Stays(s', name, key);
    forall k | k in s'.actors ensures exists n :: Stays(s', n, k) {
      if k != key {
        var n :| Stays(s, n, k);
        assert Stays(s', n, k);
      }
    }
    forall k, n | k in s'.actors && s'.actors[k] < |s'.heap| && n in s'.heap[s'.actors[k]].members
      ensures Stays(s', n, k)
    {
      assert k != key && s'.heap[s'.actors[k]] == s.heap[s.actors[k]];
    }
  }

  lemma RegKeptByScale(s: HostState, name: Name, good: nat)
    requires Shape(s) && RegInv(s) && CanScale(s, name)
    ensures RegInv(Scale(s, name, good))
  {
    var s' := Scale(s, name, good);
    forall n, k | Stays(s, n, k) ensures Stays(s', n, k) {}
    forall k | k in s'.actors ensures exists n :: Stays(s', n, k) {
      var n :| Stays(s, n, k);
      assert Stays(s', n, k);
    }
    forall k, n | k in s'.actors && s'.actors[k] < |s'.heap| && n in s'.heap[s'.actors[k]].members
      ensures Stays(s', n, k)
    {
      var g := s.actors[k];
      if n !in s.heap[g].members {
        assert g == s.ops[name].gid && n == name;
        assert s.heap[g].key == s.ops[name].key == k;
        assert Stays(s, name, k);
      }
    }
  }

  lemma RegKeptByDetach(s: HostState, name: Name)
    requires Shape(s) && RegInv(s) && CanDetach(s, name)
    ensures RegInv(Detach(s, name))
  {
    var s' := Detach(s, name);
    var key := s.ops[name].key;
    forall n, k | Stays(s, n, k) && n != name ensures Stays(s', n, k) {}
    forall k, n | k in s'.actors && s'.actors[k] < |s'.heap| && n in s'.heap[s'.actors[k]].members
      ensures Stays(s', n, k)
    {
      assert k in s.actors && s'.actors[k] == s.actors[k];
      assert n in s.heap[s.actors[k]].members;
      assert Stays(s, n, k);
      assert n != name;
    }
    forall k | k in s'.actors ensures exists n :: Stays(s', n, k) {
      assert k in s.actors;
      if k == key {
        var rest := s'.heap[s'.actors[k]].members;
        assert rest == s.heap[s.actors[k]].members - {name};
        assert rest != map[];
        var n :| n in rest;
        assert Stays(s', n, k);
      } else {
        var n :| Stays(s, n, k);
        assert n != name;
        assert Stays(s', n, k);
      }
    }
  }

  lemma RegKeptByUnregister(s: HostState, name: Name)
    requires Shape(s) && RegInv(s) && Enabled(s, DoUnregister(name))
    ensures RegInv(Unregister(s, name))
  {
    var s' := Unregister(s, name);
    forall n, k | Stays(s, n, k) ensures Stays(s', n, k) {}
    forall k | k in s'.actors ensures exists n :: Stays(s', n, k) {
      var n :| Stays(s, n, k);
      assert Stays(s', n, k);
    }
  }

  lemma RegKept(s: HostState, a: Step)
    requires Shape(s) && RegInv(s) && Enabled(s, a)
    ensures RegInv(Apply(s, a))
  {
    match a {
      case DoBeginReconcile(name, key, replica) => RegKeptByBegin(s, name, key, replica);
      case DoRegister(name) => RegKeptByRegister(s, name);
      case DoTakeActors(name) => RegKeptByQuietStep(s, a);
      case DoSnapshot(name, order) => RegKeptByQuietStep(s, a);
      case DoInsertGroup(name) => RegKeptByInsertGroup(s, name);
      case DoScale(name, good) => RegKeptByScale(s, name, good);
      case DoBeginRemove(name) => RegKeptByQuietStep(s, a);
      case DoDetach(name) => RegKeptByDetach(s, name);
      case DoUnregister(name) => RegKeptByUnregister(s, name);
      case _ =>
        LinkStepFrame(s, a);
        RegKeptByLinkStep(s, Apply(s, a));
    }
  }

  lemma RegKeptByQuietStep(s: HostState, a: Step)
    requires Shape(s) && RegInv(s) && Enabled(s, a)
    requires a.DoTakeActors? || a.DoSnapshot? || a.DoBeginRemove?
    ensures RegInv(Apply(s, a))
  {
    match a {
      case DoTakeActors(name) => RegKeptLocally(s, TakeActors(s, name), name);
      case DoSnapshot(name, order) => RegKeptLocally(s, Snapshot(s, name, order), name);
      case DoBeginRemove(name) => RegKeptLocally(s, BeginRemove(s, name), name);
    }
  }

  /** Nothing about actors differs, except what the caches hold. */
  ghost predicate SameActorSide(s: HostState, s': HostState) {
    && s'.actorKeys == s.actorKeys && s'.actors == s.actors && s'.ops == s.ops && s'.declared == s.declared
    && s'.nextTask == s.nextTask && s'.aborted == s.aborted && s'.leaked == s.leaked
    && |s'.heap| == |s.heap|
    && forall g :: 0 <= g < |s.heap| ==> s'.heap[g].members == s.heap[g].members && s'.heap[g].key == s.heap[g].key
  }

  lemma LinkStepFrame(s: HostState, a: Step)
    requires Enabled(s, a) && IsLinkStep(a)
    ensures SameActorSide(s, Apply(s, a))
  {
  }

  lemma RegKeptByLinkStep(s: HostState, s': HostState)
    requires Shape(s) && RegInv(s) && SameActorSide(s, s')
    ensures RegInv(s')
  {
    forall n, k | Stays(s, n, k) ensures Stays(s', n, k) {}
    forall k | k in s'.actors ensures exists n :: Stays(s', n, k) {
      var n :| Stays(s, n, k);
      assert Stays(s', n, k);
    }
  }

  // --- Call tasks ---

  /** Task `t` is instance number `i` of `n` in group `g`, whether or not the table still knows `g`. */
  ghost predicate TracksAt(heap: seq<Group>, g: nat, n: Name, i: nat, t: Task) {
    g < |heap| && n in heap[g].members && i < |heap[g].members[n]| && heap[g].members[n][i] == t
  }

  ghost predicate Tracked(heap: seq<Group>, t: Task) {
    exists g: nat, n, i: nat :: TracksAt(heap, g, n, i, t)
  }

  ghost predicate TrackedLive(s: HostState) {
    forall g: nat, n, i: nat, t: Task :: TracksAt(s.heap, g, n, i, t) ==>
      t < s.nextTask && t !in s.aborted && t !in s.leaked
  }

  ghost predicate TrackedOnce(heap: seq<Group>) {
    forall g: nat, n, i: nat, t: Task, g': nat, n', i': nat ::
      TracksAt(heap, g, n, i, t) && TracksAt(heap, g', n', i', t) ==> g == g' && n == n' && i == i'
  }

  ghost predicate NoneLost(s: HostState) {
    && (forall t: Task :: t < s.nextTask && t !in s.aborted && t !in s.leaked ==> Tracked(s.heap, t))
    && (forall t: Task :: t in s.aborted ==> t < s.nextTask && t !in s.leaked)
    && (forall t: Task :: t in s.leaked ==> t < s.nextTask)
  }

  ghost predicate TaskInv(s: HostState) {
    TrackedLive(s) && TrackedOnce(s.heap) && NoneLost(s)
  }

  /** Steps that change no instance list. */
  lemma TasksKeptElsewhere(s: HostState, s': HostState)
    requires TaskInv(s)
    requires s'.nextTask == s.nextTask && s'.aborted == s.aborted && s'.leaked == s.leaked
    requires |s.heap| <= |s'.heap|
    requires forall g :: 0 <= g < |s.heap| ==> s'.heap[g].members == s.heap[g].members
    requires forall g :: |s.heap| <= g < |s'.heap| ==> s'.heap[g].members == map[]
    ensures TaskInv(s')
  {
    forall g: nat, n, i: nat, t: Task ensures TracksAt(s'.heap, g, n, i, t) <==> TracksAt(s.heap, g, n, i, t) {}
    forall t: Task | Tracked(s.heap, t) ensures Tracked(s'.heap, t) {
      var g: nat, n, i: nat :| TracksAt(s.heap, g, n, i, t);
      assert TracksAt(s'.heap, g, n, i, t);
    }
  }

  /** Replacing one instance list: a prefix is dropped and aborted, added tasks are appended. */
  lemma TasksKeptByListChange(s: HostState, s': HostState, g: nat, name: Name, drop: nat, added: nat)
    requires TaskInv(s) && g < |s.heap| && |s'.heap| == |s.heap|
    requires forall h :: 0 <= h < |s.heap| && h != g ==> s'.heap[h].members == s.heap[h].members
    requires forall n :: n != name ==> ListOf(s'.heap[g].members, n) == ListOf(s.heap[g].members, n)
    requires var current := ListOf(s.heap[g].members, name);
             && drop <= |current|
             && ListOf(s'.heap[g].members, name) == current[drop..] + Batch(s.nextTask, added)
             && s'.aborted == s.aborted + Elems(current[..drop])
    requires s'.nextTask == s.nextTask + added && s'.leaked == s.leaked
    ensures TaskInv(s')
  {
    var current := ListOf(s.heap[g].members, name);
    var next := ListOf(s'.heap[g].members, name);
    ListChangeTracks(s.heap, s'.heap, g, name, drop, s.nextTask, added);
    assert TrackedLive(s') by {
      forall h: nat, n, i: nat, t: Task | TracksAt(s'.heap, h, n, i, t)
        ensures t < s'.nextTask && t !in s'.aborted && t !in s'.leaked
      {
        if h == g && n == name && |current| - drop <= i {
          assert t == s.nextTask + (i - (|current| - drop));
          forall d: nat | d < drop ensures current[d] < s.nextTask {
            assert TracksAt(s.heap, g, name, d, current[d]);
          }
        } else {
          var j := if h == g && n == name then i + drop else i;
          assert TracksAt(s.heap, h, n, j, t);
          if t in current[..drop] {
            var d :| 0 <= d < drop && current[d] == t;
            assert TracksAt(s.heap, g, name, d, t);
          }
        }
      }
    }
    assert NoneLost(s') by {
      forall t: Task | t < s'.nextTask && t !in s'.aborted && t !in s'.leaked ensures Tracked(s'.heap, t) {
        if s.nextTask <= t {
          assert TracksAt(s'.heap, g, name, |current| - drop + (t - s.nextTask), t);
        } else {
          var h: nat, n, i: nat :| TracksAt(s.heap, h, n, i, t);
          if h == g && n == name {
            assert forall d :: 0 <= d < drop ==> current[..drop][d] == current[d];
            assert drop <= i;
            assert TracksAt(s'.heap, g, name, i - drop, t);
          } else {
            assert TracksAt(s'.heap, h, n, i, t);
          }
        }
      }
      forall t: Task | t in s'.aborted ensures t < s'.nextTask && t !in s'.leaked {
        if t !in s.aborted {
          var d :| 0 <= d < drop && current[d] == t;
          assert TracksAt(s.heap, g, name, d, t);
        }
      }
    }
    TrackedOnceAfterListChange(s, s'.heap, g, name, drop, added);
  }

  /** Where a task tracked after the change was tracked before it. */
  lemma ListChangeTracks(heap: seq<Group>, heap': seq<Group>, g: nat, name: Name, drop: nat, next: Task, added: nat)
    requires g < |heap| && |heap'| == |heap|
    requires forall h :: 0 <= h < |heap| && h != g ==> heap'[h].members == heap[h].members
    requires forall n :: n != name ==> ListOf(heap'[g].members, n) == ListOf(heap[g].members, n)
    requires drop <= |ListOf(heap[g].members, name)|
    requires ListOf(heap'[g].members, name) == ListOf(heap[g].members, name)[drop..] + Batch(next, added)
    ensures forall h: nat, n, i: nat, t: Task :: !(h == g && n == name) ==>
              (TracksAt(heap', h, n, i, t) <==> TracksAt(heap, h, n, i, t))
    ensures var kept := |ListOf(heap[g].members, name)| - drop;
            forall i: nat, t: Task :: TracksAt(heap', g, name, i, t) <==>
              if i < kept then TracksAt(heap, g, name, i + drop, t) else i < kept + added && t == next + (i - kept)
  {
    forall h: nat, n, i: nat, t: Task | !(h == g && n == name)
      ensures TracksAt(heap', h, n, i, t) <==> TracksAt(heap, h, n, i, t)
    {
      if h == g {
        assert ListOf(heap'[g].members, n) == ListOf(heap[g].members, n);
      }
    }
  }

  lemma TrackedOnceAfterListChange(s: HostState, heap': seq<Group>, g: nat, name: Name, drop: nat, added: nat)
    requires TrackedLive(s) && TrackedOnce(s.heap) && g < |s.heap| && |heap'| == |s.heap|
    requires forall h :: 0 <= h < |s.heap| && h != g ==> heap'[h].members == s.heap[h].members
    requires forall n :: n != name ==> ListOf(heap'[g].members, n) == ListOf(s.heap[g].members, n)
    requires drop <= |ListOf(s.heap[g].members, name)|
    requires ListOf(heap'[g].members, name) == ListOf(s.heap[g].members, name)[drop..] + Batch(s.nextTask, added)
    ensures TrackedOnce(heap')
  {
    forall h: nat, n, i: nat, t: Task, h': nat, n', i': nat |
      TracksAt(heap', h, n, i, t) && TracksAt(heap', h', n', i', t)
      ensures h == h' && n == n' && i == i'
    {
      OldOrNew(s, heap', g, name, drop, added, h, n, i, t);
      OldOrNew(s, heap', g, name, drop, added, h', n', i', t);
    }
  }

  /** After the change exactly the appended positions hold tasks that did not exist before. */
  lemma OldOrNew(s: HostState, heap': seq<Group>, g: nat, name: Name, drop: nat, added: nat,
                 h: nat, n: Name, i: nat, t: Task)
    requires TrackedLive(s) && g < |s.heap| && |heap'| == |s.heap|
    requires forall h :: 0 <= h < |s.heap| && h != g ==> heap'[h].members == s.heap[h].members
    requires forall n :: n != name ==> ListOf(heap'[g].members, n) == ListOf(s.heap[g].members, n)
    requires drop <= |ListOf(s.heap[g].members, name)|
    requires ListOf(heap'[g].members, name) == ListOf(s.heap[g].members, name)[drop..] + Batch(s.nextTask, added)
    requires TracksAt(heap', h, n, i, t)
    ensures var kept := |ListOf(s.heap[g].members, name)| - drop;
            if t < s.nextTask then
              if h == g && n == name then i < kept && TracksAt(s.heap, h, n, i + drop, t)
              else TracksAt(s.heap, h, n, i, t)
            else h == g && n == name && i == kept + (t - s.nextTask)
  {
    ListChangeTracks(s.heap, heap', g, name, drop, s.nextTask, added);
  }

  /** What a scaling must be: all instances dropped or kept, in order, are the old ones followed by the
      spawned ones; either nothing is dropped or nothing is spawned; and the list ends up with
      `replica` instances. When a subscription of the batch fails the list stays as it was. */
  ghost predicate Exact(r: Scaling, current: seq<Task>, replica: nat, next: Task, good: nat) {
    if |current| + good < replica then
      r == Scaling(false, current, good, [])
    else
      && r.ok && |r.instances| == replica
      && r.dropped + r.instances == current + Batch(next, r.spawned)
      && (r.dropped == [] || r.spawned == 0)
  }

  /** Scaling is the only exact one: scaling down drops precisely the prefix that is too much, scaling
      up appends precisely what is missing. */
  lemma ScalingExact(r: Scaling, current: seq<Task>, replica: nat, next: Task, good: nat)
    ensures r == ScaleList(current, replica, next, good) <==> Exact(r, current, replica, next, good)
  {
    var list := ScaleList(current, replica, next, good);
    if replica < |current| {
      assert current[..|current| - replica] + current[|current| - replica..] == current;
      assert current + Batch(next, 0) == current;
    }
    if replica >= |current| && list.ok {
      assert [] + list.instances == list.instances;
    }
    if |current| + good >= replica && Exact(r, current, replica, next, good) {
      var all := current + Batch(next, r.spawned);
      assert |r.dropped| + replica == |current| + r.spawned;
      assert r.dropped == all[..|r.dropped|] && r.instances == all[|r.dropped|..];
    }
  }

  lemma TasksKeptByScale(s: HostState, name: Name, good: nat)
    requires TaskInv(s) && CanScale(s, name)
    ensures TaskInv(Scale(s, name, good))
  {
    var s' := Scale(s, name, good);
    var g := s.ops[name].gid;
    var current := ListOf(s.heap[g].members, name);
    var r := ScaleList(current, s.ops[name].replica, s.nextTask, good);
    if r.ok {
      assert r.instances == current[|r.dropped|..] + Batch(s.nextTask, r.spawned);
      assert r.dropped == current[..|r.dropped|];
      assert forall n :: n != name ==> ListOf(s'.heap[g].members, n) == ListOf(s.heap[g].members, n);
      TasksKeptByListChange(s, s', g, name, |r.dropped|, r.spawned);
    } else {
      assert s'.heap == s.heap && s'.aborted == s.aborted;
      forall t: Task | t < s'.nextTask && t !in s'.aborted && t !in s'.leaked ensures Tracked(s'.heap, t) {
        assert t < s.nextTask;
      }
    }
  }

  lemma TasksKeptByDetach(s: HostState, name: Name)
    requires TaskInv(s) && CanDetach(s, name)
    ensures TaskInv(Detach(s, name))
  {
    var s' := Detach(s, name);
    var key := s.ops[name].key;
    if key in s.actors {
      var g := s.actors[key];
      var current := ListOf(s.heap[g].members, name);
      assert current[..|current|] == current;
      assert ListOf(s'.heap[g].members, name) == current[|current|..] + Batch(s.nextTask, 0);
      TasksKeptByListChange(s, s', g, name, |current|, 0);
    } else {
      TasksKeptElsewhere(s, s');
    }
  }

  lemma TasksKept(s: HostState, a: Step)
    requires TaskInv(s) && Enabled(s, a)
    ensures TaskInv(Apply(s, a))
  {
    match a {
      case DoScale(name, good) => TasksKeptByScale(s, name, good);
      case DoDetach(name) => TasksKeptByDetach(s, name);
      case DoInsertGroup(name) => TasksKeptElsewhere(s, InsertGroup(s, name));
      case _ =>
        TaskFrame(s, a);
        TasksKeptElsewhere(s, Apply(s, a));
    }
  }

  /** Only scaling and removal touch instance lists and tasks. */
  lemma TaskFrame(s: HostState, a: Step)
    requires Enabled(s, a) && !a.DoScale? && !a.DoDetach? && !a.DoInsertGroup?
    ensures var s' := Apply(s, a);
            && s'.nextTask == s.nextTask && s'.aborted == s.aborted && s'.leaked == s.leaked && |s'.heap| == |s.heap|
            && forall g :: 0 <= g < |s.heap| ==> s'.heap[g].members == s.heap[g].members
  {
  }

  // --- Whole runs ---

  ghost predicate ActorInv(s: HostState) {
    Shape(s) && RegInv(s) && TaskInv(s)
  }

  lemma {:induction false} ActorInvAlongRun(s: HostState, steps: seq<Step>, s': HostState)
    requires ActorInv(s) && Runs(false, s, steps, s')
    ensures ActorInv(s')
    decreases steps
  {
    if steps != [] {
      ShapeKept(s, steps[0]);
      RegKept(s, steps[0]);
      TasksKept(s, steps[0]);
      ActorInvAlongRun(Apply(s, steps[0]), steps[1..], s');
    }
  }

  /** In every reachable state a name present in the group of key k is registered under k, so it is
      in at most one group of the table, and every group has a registered name. */
  lemma RegistryPartition(s: HostState)
    requires Reachable(false, s)
    ensures forall k :: k in s.actors ==> s.actors[k] < |s.heap|
    ensures forall k, n :: k in s.actors && n in s.heap[s.actors[k]].members ==>
              n in s.actorKeys && s.actorKeys[n] == k
    ensures forall k, k', n ::
              (&& k in s.actors && n in s.heap[s.actors[k]].members
               && k' in s.actors && n in s.heap[s.actors[k']].members) ==> k == k'
    ensures forall k :: k in s.actors ==> exists n :: n in s.actorKeys && s.actorKeys[n] == k
  {
    var steps :| Runs(false, INIT, steps, s);
    ActorInvAlongRun(INIT, steps, s);
    forall k | k in s.actors ensures exists n :: n in s.actorKeys && s.actorKeys[n] == k {
      var n :| Stays(s, n, k);
    }
    forall k, n | k in s.actors && n in s.heap[s.actors[k]].members ensures n in s.actorKeys && s.actorKeys[n] == k {
      assert Stays(s, n, k);
    }
  }

  /** In every reachable state the spawned tasks that were not aborted are exactly the instances of
      some group plus the tasks of failed batches; no instance is aborted or counted twice. */
  lemma LiveTasksConserved(s: HostState)
    requires Reachable(false, s)
    ensures forall t: Task :: t < s.nextTask && t !in s.aborted <==> Tracked(s.heap, t) || t in s.leaked
    ensures forall t: Task :: t in s.leaked ==> !Tracked(s.heap, t)
    ensures TrackedOnce(s.heap)
  {
    var steps :| Runs(false, INIT, steps, s);
    ActorInvAlongRun(INIT, steps, s);
    forall t: Task | Tracked(s.heap, t) ensures t < s.nextTask && t !in s.aborted && t !in s.leaked {
      var g: nat, n, i: nat :| TracksAt(s.heap, g, n, i, t);
    }
  }
}
