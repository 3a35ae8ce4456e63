/** The host object: its tables as fields, its operations as methods, each proved to do what its
    steps do in the machine when nothing interferes. */
module Hosts {
  import opened Types
  import opened LinkKeys
  import opened LinkIndex
  import opened HostMachine
  import opened LinkAgreement
  import opened DeclaredLoad
  import opened HostOps
  import opened Publishing
  import opened Effects
  import opened Sums

  /** How many subscriptions succeed before the first failure, among the first `count`. */
  function GoodPrefix(subscribe: nat -> bool, count: nat): (r: nat)
    ensures r <= count && (forall i :: 0 <= i < r ==> subscribe(i)) && (r < count ==> !subscribe(r))
  {
    if count == 0 then 0
    else
      var r := GoodPrefix(subscribe, count - 1);
      if r == count - 1 && subscribe(r) then count else r
  }

  /** How many subscriptions a reconcile of `name` to `replica` instances needs. */
  function Needed(s: HostState, name: Name, key: string, replica: nat): nat
    requires Quiescent(s)
  {
    var members := if key in s.actors then s.heap[s.actors[key]].members else map[];
    var current := |ListOf(members, name)|;
    if replica < current then 0 else replica - current
  }

  class Host {
    var links: Table
    var providers: map<string, map<string, Provider>>
    var actorKeys: map<Name, string>
    var actors: map<string, nat>
    var heap: seq<Group>
    var nextTask: Task
    var aborted: set<Task>
    /** Messages published so far. */
    var log: seq<Message>
    /** Tasks of batches that failed half-way. */
    ghost var leaked: set<Task>
    /** Replica count of each name's last successful reconcile. */
    ghost var declared: map<Name, nat>

    ghost function View(): HostState
      reads this
    {
      HostState(links, NoLinkOp, log, providers, actorKeys, actors, heap, map[], None, nextTask, aborted, leaked,
                declared)
    }

    /** The tables are what some serialised run of the machine leads to, so all that is proved of
        every run holds of them. */
    ghost predicate Valid()
      reads this
    {
      Reachable(true, View())
    }

    constructor ()
      ensures View() == INIT && Valid()
      ensures links == map[] && providers == map[] && actorKeys == map[] && actors == map[] && log == []
    {
      links, providers, actorKeys, actors, heap := map[], map[], map[], map[], [];
      nextTask, aborted, log, leaked, declared := 0, {}, [], {}, map[];
      new;
      assert Runs(true, INIT, [], INIT);
    }

    /** Group references are in range. */
    lemma InRange()
      requires Valid()
      ensures Quiescent(View())
    {
      ReachableInRange(true, View());
    }

    // --- Actors ---

    /** Subscribes and spawns one call task after the other; when a subscription fails, the tasks of the
        batch spawned so far are dropped without being aborted. */
    method InstantiateActor(count: nat, subscribe: nat -> bool) returns (ok: bool, instances: seq<Task>)
      modifies `nextTask, `leaked
      ensures ok <==> GoodPrefix(subscribe, count) == count
      ensures nextTask == old(nextTask) + GoodPrefix(subscribe, count)
      ensures ok ==> instances == Batch(old(nextTask), count) && leaked == old(leaked)
      ensures !ok ==> leaked == old(leaked) + BatchSet(old(nextTask), GoodPrefix(subscribe, count))
    {
      instances := [];
      var i := 0;
      while i < count
        invariant i <= count && forall j :: 0 <= j < i ==> subscribe(j)
        invariant instances == Batch(old(nextTask), i)
        invariant nextTask == old(nextTask) + i && leaked == old(leaked)
      {
        if !subscribe(i) {
          assert GoodPrefix(subscribe, count) == i;
          leaked := leaked + BatchSet(old(nextTask), i);
          return false, [];
        }
        instances := instances + [nextTask];
        nextTask := nextTask + 1;
        i := i + 1;
      }
      ok := true;
    }

    method AbortAll(tasks: seq<Task>)
      modifies `aborted
      ensures aborted == old(aborted) + Elems(tasks)
    {
      for i := 0 to |tasks|
        invariant aborted == old(aborted) + Elems(tasks[..i])
      {
        assert tasks[..i + 1] == tasks[..i] + [tasks[i]];
        aborted := aborted + {tasks[i]};
      }
      assert tasks[..|tasks|] == tasks;
    }

    /** Finds the group of `key`, creating it from a snapshot of the links taken in the order `order`. */
    method FindGroup(key: string, order: seq<Digest>) returns (g: nat)
      requires Enumerates(order, links)
      modifies `actors, `heap
      ensures key in old(actors) ==> g == old(actors)[key] && actors == old(actors) && heap == old(heap)
      ensures key !in old(actors) ==>
                && g == |old(heap)| && actors == old(actors)[key := g]
                && heap == old(heap) + [Group(key, ActorLinks(links, order, key), map[])]
    {
      if key !in actors {
        var cache := ActorLinks(links, order, key);
        g := |heap|;
        heap := heap + [Group(key, cache, map[])];
        actors := actors[key := g];
      } else {
        g := actors[key];
      }
    }

    /** Brings the instance list of `name` in group `g` to `replica` instances. */
    method ScaleInGroup(name: Name, g: nat, replica: nat, subscribe: nat -> bool) returns (ok: bool)
      requires g < |heap|
      modifies `heap, `nextTask, `aborted, `leaked
      ensures var members := old(heap)[g].members;
              var current := ListOf(members, name);
              var good := GoodPrefix(subscribe, if replica < |current| then 0 else replica - |current|);
              var r := ScaleList(current, replica, old(nextTask), good);
              && ok == r.ok
              && heap == (if r.ok then SetMembers(old(heap), g, StoreList(members, name, r.instances)) else old(heap))
              && nextTask == old(nextTask) + r.spawned
              && aborted == old(aborted) + Elems(r.dropped)
              && leaked == (if r.ok then old(leaked) else old(leaked) + BatchSet(old(nextTask), r.spawned))
      ensures ok ==> |ListOf(heap[g].members, name)| == replica
    {
      var members := heap[g].members;
      if name !in members {
        if replica > 0 {
          var instances;
          ok, instances := InstantiateActor(replica, subscribe);
          if !ok { return; }
          assert [] + Batch(old(nextTask), replica) == instances;
          heap := SetMembers(heap, g, members[name := instances]);
        } else {
          assert [] + Batch(old(nextTask), 0) == [];
          assert SetMembers(heap, g, members) == heap;
        }
      } else {
        var instances := members[name];
        if replica < |instances| {
          var delta := |instances| - replica;
          AbortAll(instances[..delta]);
          heap := SetMembers(heap, g, members[name := instances[delta..]]);
        } else {
          var delta := replica - |instances|;
          if delta > 0 {
            var more;
            ok, more := InstantiateActor(delta, subscribe);
            if !ok { return; }
            heap := SetMembers(heap, g, members[name := instances + more]);
          } else {
            assert instances + Batch(old(nextTask), 0) == instances;
            assert members[name := instances] == members;
            assert SetMembers(heap, g, members) == heap;
          }
        }
      }
      ok := true;
    }

    /** Scales and, on success, records the declared replica count. */
    method ScaleAndDeclare(name: Name, g: nat, replica: nat, subscribe: nat -> bool, ghost good: nat) returns (ok: bool)
      requires g < |heap|
      requires var current := ListOf(heap[g].members, name);
               good == GoodPrefix(subscribe, if replica < |current| then 0 else replica - |current|)
      modifies `heap, `nextTask, `aborted, `leaked, `declared
      ensures View() == ScaledTo(old(View()), name, g, replica, good)
      ensures ok <==> good >= replica - |ListOf(old(heap)[g].members, name)|
      ensures declared == if ok then old(declared)[name := replica] else old(declared)
      ensures ok ==> |ListOf(heap[g].members, name)| == replica
    {
      ok := ScaleInGroup(name, g, replica, subscribe);
      if ok {
        declared := declared[name := replica];
      }
    }

    /** `reconcile_actor`. `fetched` is the public key in the fetched image's claims, `order` the
        iteration order of the link table, `subscribe` the outcomes of the queue subscriptions. */
    method ReconcileActor(name: Name, fetched: Option<string>, replica: nat, order: seq<Digest>, subscribe: nat -> bool)
      returns (ok: bool, ghost good: nat)
      requires Valid() && Enumerates(order, links)
      modifies this
      ensures Valid() && old(Quiescent(View()))
      ensures ok <==>
              && fetched.Some? && (name in old(actorKeys) ==> old(actorKeys)[name] == fetched.value)
              && forall i: nat :: |old(InstancesOf(View(), name))| + i < replica ==> subscribe(i)
      ensures if fetched.None? || (name in old(actorKeys) && old(actorKeys)[name] != fetched.value)
              then View() == old(View())
              else
                && name in actorKeys && actorKeys[name] == fetched.value
                && actors.Keys == old(actors.Keys) + {fetched.value}
      ensures ok ==> name in actorKeys && actorKeys[name] in actors && actors[actorKeys[name]] < |heap| &&
                     |ListOf(heap[actors[actorKeys[name]]].members, name)| == replica
      ensures if ok then |InstancesOf(View(), name)| == replica
              else InstancesOf(View(), name) == old(InstancesOf(View(), name))
      ensures forall n :: n != name ==> Unaffected(old(View()), View(), n)
      ensures SameLinkSide(old(View()), View())
      ensures if fetched.None? || !CanBeginReconcile(old(View()), name, fetched.value) then !ok && View() == old(View())
              else
                var needed := Needed(old(View()), name, fetched.value, replica);
                && good == GoodPrefix(subscribe, needed)
                && (ok <==> forall i :: 0 <= i < needed ==> subscribe(i))
                && View() == ReconcileTo(old(View()), name, fetched.value, replica, order, good)
      ensures declared == if ok then old(declared)[name := replica] else old(declared)
      ensures !ok ==> InstanceCount(Groups(actors, heap)) == old(InstanceCount(Groups(actors, heap)))
    {
      InRange();
      good := 0;
      if fetched.None? { return false, 0; }
      var key := fetched.value;
      if name in actorKeys && actorKeys[name] != key { return false, 0; }
      ghost var before := View();
      StatsIsDeclaredLoad(true, before);
      InstancesInGroup(before, name, key);
      ok, good := ReconcileKey(name, key, replica, order, subscribe);
      ReconcileEffect(before, name, key, replica, order, good);
      ReconcileReachable(before, name, key, replica, order, good);
      StatsIsDeclaredLoad(true, View());
    }

    /** The rest of `reconcile_actor`, once the key is known to be the registered one. */
    method ReconcileKey(name: Name, key: string, replica: nat, order: seq<Digest>, subscribe: nat -> bool)
      returns (ok: bool, ghost good: nat)
      requires Quiescent(View()) && Enumerates(order, links) && CanBeginReconcile(View(), name, key)
      modifies this
      ensures good == GoodPrefix(subscribe, Needed(old(View()), name, key, replica))
      ensures ok <==> good == Needed(old(View()), name, key, replica)
      ensures View() == ReconcileTo(old(View()), name, key, replica, order, good)
      ensures declared == if ok then old(declared)[name := replica] else old(declared)
      ensures ok ==> name in actorKeys && actorKeys[name] == key && key in actors && actors[key] < |heap| &&
                     |ListOf(heap[actors[key]].members, name)| == replica
    {
      var g := RegisterInGroup(name, key, order);
      ghost var current := ListOf(heap[g].members, name);
      good := GoodPrefix(subscribe, if replica < |current| then 0 else replica - |current|);
      ok := ScaleAndDeclare(name, g, replica, subscribe, good);
    }

    /** Registers the name and finds its group. */
    method RegisterInGroup(name: Name, key: string, order: seq<Digest>) returns (g: nat)
      requires Quiescent(View()) && Enumerates(order, links) && CanBeginReconcile(View(), name, key)
      modifies `actorKeys, `actors, `heap
      ensures View() == Prepared(old(View()), name, key, order)
      ensures name in actorKeys && actorKeys[name] == key && key in actors && actors[key] == g < |heap|
    {
      if name !in actorKeys {
        actorKeys := actorKeys[name := key];
      }
      g := FindGroup(key, order);
    }

    /** `remove_actor`. */
    method RemoveActor(name: Name)
      requires Valid()
      modifies this
      ensures Valid() && old(Quiescent(View())) && View() == RemoveTo(old(View()), name)
      ensures name !in actorKeys && InstancesOf(View(), name) == []
      ensures aborted == old(aborted) + Elems(old(InstancesOf(View(), name)))
      ensures actors.Keys == old(GroupsLeft(View(), name))
      ensures forall n :: n != name ==> Unaffected(old(View()), View(), n)
      ensures SameLinkSide(old(View()), View())
    {
      InRange();
      ghost var before := View();
      RemoveReachable(before, name);
      RemoveEffect(before, name);
      if name !in actorKeys {
        return;
      }
      RemoveAlone(before, name);
      var key := actorKeys[name];
      if key in actors {
        DropFromGroup(name, key);
      }
      actorKeys := actorKeys - {name};
      declared := declared - {name};
      assert View() == RemoveTo(before, name);
    }

    /** Under the actors lock: abort the instances of `name`, drop it, and drop an emptied group. */
    method DropFromGroup(name: Name, key: string)
      requires key in actors && actors[key] < |heap|
      modifies `heap, `aborted, `actors
      ensures var g := old(actors)[key];
              var members := old(heap)[g].members;
              && heap == SetMembers(old(heap), g, members - {name})
              && aborted == old(aborted) + Elems(ListOf(members, name))
              && actors == if members - {name} == map[] then old(actors) - {key} else old(actors)
    {
      var g := actors[key];
      var members := heap[g].members;
      if name in members {
        AbortAll(members[name]);
        heap := SetMembers(heap, g, members - {name});
      } else {
        assert members - {name} == members;
        assert SetMembers(heap, g, members) == heap;
      }
      if heap[g].members == map[] {
        actors := actors - {key};
      }
    }

    /** `stats`: group count, instance count by two nested loops, provider count. */
    method Stats() returns (actorCount: nat, instanceCount: nat, providerCount: nat)
      requires Valid()
      ensures actorCount == |actors| && providerCount == |providers|
      ensures instanceCount == InstanceCount(Groups(actors, heap))
      ensures instanceCount == DeclaredSum(declared)
    {
      var groups := Groups(actors, heap);
      instanceCount := 0;
      var todo := groups.Keys;
      while todo != {}
        invariant todo <= groups.Keys
        invariant instanceCount + SumOn(todo, GroupSizes(groups)) == InstanceCount(groups)
      {
        var k :| k in todo;
        SumTake(todo, GroupSizes(groups), k);
        var members := groups[k];
        ghost var start := instanceCount;
        var names := members.Keys;
        while names != {}
          invariant names <= members.Keys
          invariant instanceCount + SumOn(names, Sizes(members)) == start + Size(members)
        {
          var n :| n in names;
          SumTake(names, Sizes(members), n);
          instanceCount := instanceCount + |members[n]|;
          names := names - {n};
        }
        todo := todo - {k};
      }
      actorCount, providerCount := |actors|, |providers|;
      StatsIsDeclaredLoad(true, View());
    }

    // --- Links ---

    /** `add_linkdef`; `published` says whether the message can be sent. */
    method AddLinkdef(ld: LinkDef, published: bool) returns (ok: bool)
      requires Valid()
      modifies this
      ensures Valid() && old(Quiescent(View())) && View() == AddLinkdefTo(old(View()), ld, published)
      ensures var h := LinkdefHash(TripleOf(ld));
              && ok == (h in old(links) || published)
              && log == (if h !in old(links) && published then old(log) + [Put(ld)] else old(log))
              && links == if h in old(links) then old(links) else old(links)[h := ld]
      ensures SameActors(old(View()), View()) && SameRunning(old(View()), View())
    {
      InRange();
      ghost var before := View();
      AddLinkdefReachable(true, before, ld, published);
      AddLinkdefEffect(before, ld, published);
      var h := LinkdefHash(TripleOf(ld));
      if h in links { return true; }
      links := links[h := ld];
      if ld.actorId in actors {
        var g := actors[ld.actorId];
        heap := SetCache(heap, g, PutLink(heap[g].cache, ld));
      }
      providers := SetMissed(providers, ld, !published);
      if published {
        log := log + [Put(ld)];
      }
      ok := published;
      assert View() == AddLinkdefTo(before, ld, published);
    }

    /** `delete_linkdef`: only the triple of `ld` is used; what is announced is the stored definition. */
    method DeleteLinkdef(ld: LinkDef, published: bool) returns (ok: bool)
      requires Valid()
      modifies this
      ensures Valid() && old(Quiescent(View())) && View() == DeleteLinkdefTo(old(View()), TripleOf(ld), published)
      ensures var h := LinkdefHash(TripleOf(ld));
              && ok == (h in old(links) && published)
              && log == (if h in old(links) && published then old(log) + [Del(old(links)[h])] else old(log))
              && links == old(links) - {h}
      ensures SameActors(old(View()), View()) && SameRunning(old(View()), View())
    {
      InRange();
      ghost var before := View();
      DeleteLinkdefReachable(true, before, TripleOf(ld), published);
      DeleteLinkdefEffect(before, TripleOf(ld), published);
      var h := LinkdefHash(TripleOf(ld));
      if h !in links { return false; }
      var stored := links[h];
      links := links - {h};
      if stored.actorId in actors {
        var g := actors[stored.actorId];
        heap := SetCache(heap, g, DeleteLink(heap[g].cache, stored.contractId, stored.linkName));
      }
      providers := SetMissed(providers, stored, !published);
      if published {
        log := log + [Del(stored)];
      }
      ok := published;
      assert View() == DeleteLinkdefTo(before, TripleOf(ld), published);
    }

    // --- Providers ---

    /** `start_provider`, its table and snapshot part; `started` says whether the process comes up. */
    method StartProvider(key: string, link: string, started: bool) returns (ok: bool)
      requires Valid()
      modifies this
      ensures Valid() && View() == HostMachine.StartProvider(old(View()), key, link, started)
      ensures ok <==> started || (key in old(providers) && link in old(providers)[key])
      ensures ok <==> Running(View(), key, link)
      ensures key in providers
      ensures ok && !Running(old(View()), key, link) ==>
                providers[key][link] == Provider(ProviderLinks(links, key, link), |log|, {})
      ensures forall k, n :: (k != key || n != link || !ok || Running(old(View()), key, link)) ==>
                (Running(View(), k, n) <==> Running(old(View()), k, n))
      ensures forall k, n :: Running(old(View()), k, n) ==> providers[k][n] == old(providers)[k][n]
    {
      StartExactly(View(), key, link, started);
      ReachStep(true, View(), DoStartProvider(key, link, started));
      ok := Launch(key, link, started);
    }

    method Launch(key: string, link: string, started: bool) returns (ok: bool)
      modifies `providers
      ensures providers == HostMachine.StartProvider(old(View()), key, link, started).providers
      ensures ok <==> key in providers && link in providers[key]
    {
      var instances := if key in providers then providers[key] else map[];
      providers := providers[key := instances];
      if link !in instances {
        if !started { return false; }
        var snapshot := ProviderLinks(links, key, link);
        providers := providers[key := instances[link := Provider(snapshot, |log|, {})]];
      }
      ok := true;
    }

    /** `stop_provider`, its table part. */
    method StopProvider(key: string, link: string)
      requires Valid()
      modifies this
      ensures Valid() && View() == HostMachine.StopProvider(old(View()), key, link)
      ensures forall k, n :: Running(View(), k, n) <==> Running(old(View()), k, n) && (k != key || n != link)
      ensures forall k, n :: Running(View(), k, n) ==> providers[k][n] == old(providers)[k][n]
      ensures key in providers <==> exists n :: n != link && Running(old(View()), key, n)
    {
      StopExactly(View(), key, link);
      ReachStep(true, View(), DoStopProvider(key, link));
      if key !in providers { return; }
      var instances := providers[key] - {link};
      if instances == map[] {
        providers := providers - {key};
      } else {
        providers := providers[key := instances];
      }
    }
  }
}
