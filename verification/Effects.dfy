/** What the host's operations do to the names, instances and providers they are about, and that they leave
    all others alone. */
module Effects {
  import opened Types
  import opened LinkKeys
  import opened LinkIndex
  import opened HostMachine
  import opened LinkAgreement
  import opened ActorRegistry
  import opened HostOps
  import opened CurrentGroups
  import opened Publishing

  // --- Single steps ---

  /** The name whose operation takes the step. */
  function Actor(a: Step): Option<Name> {
    match a
    case DoBeginReconcile(name, _, _) => Some(name)
    case DoRegister(name) => Some(name)
    case DoTakeActors(name) => Some(name)
    case DoSnapshot(name, _) => Some(name)
    case DoInsertGroup(name) => Some(name)
    case DoScale(name, _) => Some(name)
    case DoBeginRemove(name) => Some(name)
    case DoDetach(name) => Some(name)
    case DoUnregister(name) => Some(name)
    case _ => None
  }

  /** Registration, instances and declared load of `n` are the same. */
  ghost predicate Unaffected(s: HostState, s': HostState, n: Name) {
    && (n in s'.actorKeys <==> n in s.actorKeys)
    && (n in s.actorKeys ==> s'.actorKeys[n] == s.actorKeys[n])
    && InstancesOf(s', n) == InstancesOf(s, n)
    && (n in s'.declared <==> n in s.declared)
    && (n in s.declared ==> s'.declared[n] == s.declared[n])
  }

  lemma ScaleAffectsOne(s: HostState, name: Name, good: nat, n: Name)
    requires Shape(s) && CanScale(s, name) && n != name
    ensures Unaffected(s, Scale(s, name, good), n)
  {
  }

  lemma DetachAffectsOne(s: HostState, name: Name, n: Name)
    requires Shape(s) && CanDetach(s, name) && n != name
    ensures Unaffected(s, Detach(s, name), n)
  {
    var s' := Detach(s, name);
    var key := s.ops[name].key;
    if n in s.actorKeys && s.actorKeys[n] == key && key in s.actors {
      var members := s.heap[s.actors[key]].members;
      if n in members {
        assert n in members - {name};
      }
    }
    if n in s.actorKeys && s.actorKeys[n] != key && s.actorKeys[n] in s.actors {
      assert s.heap[s.actors[s.actorKeys[n]]].key == s.actorKeys[n];
    }
  }

  lemma InsertAffectsNone(s: HostState, name: Name, n: Name)
    requires Shape(s) && Enabled(s, DoInsertGroup(name))
    ensures Unaffected(s, InsertGroup(s, name), n)
  {
  }

  lemma QuietStepAffectsOne(s: HostState, a: Step, n: Name)
    requires Enabled(s, a) && Actor(a).Some? && Actor(a) != Some(n)
    requires !a.DoScale? && !a.DoDetach? && !a.DoInsertGroup?
    ensures Unaffected(s, Apply(s, a), n)
  {
  }

  lemma LinkStepAffectsNone(s: HostState, a: Step, n: Name)
    requires Enabled(s, a) && IsLinkStep(a)
    ensures Unaffected(s, Apply(s, a), n)
  {
    LinkStepFrame(s, a);
  }

  lemma ActorStepAffectsOne(s: HostState, a: Step, n: Name)
    requires Shape(s) && Enabled(s, a) && !IsLinkStep(a) && Actor(a) != Some(n)
    ensures Unaffected(s, Apply(s, a), n)
  {
    if a.DoScale? {
      ScaleAffectsOne(s, a.name, a.good, n);
    } else if a.DoDetach? {
      DetachAffectsOne(s, a.name, n);
    } else if a.DoInsertGroup? {
      InsertAffectsNone(s, a.name, n);
    } else {
      QuietStepAffectsOne(s, a, n);
    }
  }

  /** Whatever overlaps, a step affects no name but that of its own operation. */
  lemma OthersUnaffected(s: HostState, a: Step, n: Name)
    requires Reachable(false, s) && Enabled(s, a) && Actor(a) != Some(n)
    ensures Unaffected(s, Apply(s, a), n)
  {
    if IsLinkStep(a) {
      LinkStepAffectsNone(s, a, n);
    } else {
      ReachableShape(s);
      ActorStepAffectsOne(s, a, n);
    }
  }

  // --- Whole operations ---

  /** Links, published messages and providers are the same. */
  predicate SameLinkSide(s: HostState, s': HostState) {
    s'.links == s.links && s'.linkOp == s.linkOp && s'.log == s.log && s'.providers == s.providers
  }

  /** The instances of `name` are those in the group of its key, registered or not yet. */
  lemma InstancesInGroup(s: HostState, name: Name, key: string)
    requires Reachable(true, s) && Quiescent(s) && (name in s.actorKeys ==> s.actorKeys[name] == key)
    ensures InstancesOf(s, name) == if key in s.actors then ListOf(s.heap[s.actors[key]].members, name) else []
  {
    SerialIsReachable(true, s);
    RegistryPartition(s);
  }

  lemma PreparedAffectsNone(s: HostState, name: Name, key: string, order: seq<Digest>, n: Name)
    requires Quiescent(s) && Enumerates(order, s.links) && (name in s.actorKeys ==> s.actorKeys[name] == key)
    requires forall k :: k in s.actors ==> s.heap[s.actors[k]].key == k
    requires n != name
    ensures Unaffected(s, Prepared(s, name, key, order), n)
  {
  }

  lemma ScaledAffectsOne(s: HostState, name: Name, g: nat, replica: nat, good: nat, n: Name)
    requires g < |s.heap| && n != name
    ensures Unaffected(s, ScaledTo(s, name, g, replica, good), n)
  {
  }

  /** Scaling in the group the table has under the name's key. */
  lemma ScaledOwn(p: HostState, name: Name, replica: nat, good: nat)
    requires name in p.actorKeys && p.actorKeys[name] in p.actors && p.actors[p.actorKeys[name]] < |p.heap|
    ensures var s' := ScaledTo(p, name, p.actors[p.actorKeys[name]], replica, good);
            var r := ScaleList(InstancesOf(p, name), replica, p.nextTask, good);
            && InstancesOf(s', name) == r.instances && s'.aborted == p.aborted + Elems(r.dropped)
            && s'.actors == p.actors && s'.actorKeys == p.actorKeys && SameLinkSide(p, s')
  {
  }

  lemma PreparedOwn(s: HostState, name: Name, key: string, order: seq<Digest>)
    requires Reachable(true, s) && Quiescent(s) && Enumerates(order, s.links)
    requires name in s.actorKeys ==> s.actorKeys[name] == key
    ensures var p := Prepared(s, name, key, order);
            && name in p.actorKeys && p.actorKeys[name] == key && key in p.actors && p.actors[key] < |p.heap|
            && InstancesOf(p, name) == InstancesOf(s, name) && SameLinkSide(s, p)
            && p.nextTask == s.nextTask && p.aborted == s.aborted && p.actors.Keys == s.actors.Keys + {key}
  {
    InstancesInGroup(s, name, key);
  }

  lemma ReconcileAffectsOne(s: HostState, name: Name, key: string, replica: nat, order: seq<Digest>, good: nat, n: Name)
    requires Reachable(true, s) && Quiescent(s) && Enumerates(order, s.links) && n != name
    requires name in s.actorKeys ==> s.actorKeys[name] == key
    ensures Unaffected(s, ReconcileTo(s, name, key, replica, order, good), n)
  {
    var p := Prepared(s, name, key, order);
    KeysInTable(s);
    PreparedAffectsNone(s, name, key, order, n);
    ScaledAffectsOne(p, name, p.actors[key], replica, good, n);
  }

  /** A whole reconcile: the name is registered under the key, its list is scaled, or left alone when too few
      subscriptions succeed, and no other name is affected. */
  lemma ReconcileEffect(s: HostState, name: Name, key: string, replica: nat, order: seq<Digest>, good: nat)
    requires Reachable(true, s) && Quiescent(s) && Enumerates(order, s.links)
    requires name in s.actorKeys ==> s.actorKeys[name] == key
    ensures var s' := ReconcileTo(s, name, key, replica, order, good);
            var r := ScaleList(InstancesOf(s, name), replica, s.nextTask, good);
            && name in s'.actorKeys && s'.actorKeys[name] == key && SameLinkSide(s, s')
            && s'.actors.Keys == s.actors.Keys + {key}
            && (forall n :: n != name ==> Unaffected(s, s', n))
            && InstancesOf(s', name) == r.instances && s'.aborted == s.aborted + Elems(r.dropped)
  {
    PreparedOwn(s, name, key, order);
    ScaledOwn(Prepared(s, name, key, order), name, replica, good);
    forall n | n != name ensures Unaffected(s, ReconcileTo(s, name, key, replica, order, good), n) {
      ReconcileAffectsOne(s, name, key, replica, order, good, n);
    }
  }

  lemma KeysInTable(s: HostState)
    requires Reachable(true, s)
    ensures forall k :: k in s.actors ==> s.actors[k] < |s.heap| && s.heap[s.actors[k]].key == k
  {
    SerialIsReachable(true, s);
    forall k | k in s.actors ensures s.actors[k] < |s.heap| && s.heap[s.actors[k]].key == k {
      KeysOfGroups(s, k);
    }
  }

  /** The groups left when `name` is removed: its own goes exactly if nobody else is in it. */
  function GroupsLeft(s: HostState, name: Name): set<string> {
    if name in s.actorKeys && s.actorKeys[name] in s.actors && s.actors[s.actorKeys[name]] < |s.heap|
       && s.heap[s.actors[s.actorKeys[name]]].members.Keys <= {name}
    then s.actors.Keys - {s.actorKeys[name]}
    else s.actors.Keys
  }

  lemma GroupsAfterRemoval(s: HostState, name: Name)
    requires Quiescent(s)
    ensures RemoveTo(s, name).actors.Keys == GroupsLeft(s, name)
  {
    if name in s.actorKeys {
      RemoveAlone(s, name);
      var key := s.actorKeys[name];
      if key in s.actors {
        var members := s.heap[s.actors[key]].members;
        assert members - {name} == map[] <==> (members - {name}).Keys == {};
        assert (members - {name}).Keys == members.Keys - {name};
      }
    }
  }

  /** A whole removal: the name is not registered any more, exactly its instances are aborted, and no other
      name is affected. */
  lemma RemoveEffect(s: HostState, name: Name)
    requires Reachable(true, s) && Quiescent(s)
    ensures var s' := RemoveTo(s, name);
            && name !in s'.actorKeys && InstancesOf(s', name) == [] && SameLinkSide(s, s')
            && (forall n :: n != name ==> Unaffected(s, s', n))
            && s'.aborted == s.aborted + Elems(InstancesOf(s, name))
            && s'.nextTask == s.nextTask && s'.actors.Keys == GroupsLeft(s, name)
  {
    var s' := RemoveTo(s, name);
    GroupsAfterRemoval(s, name);
    if name in s.actorKeys {
      RemoveAlone(s, name);
      KeysInTable(s);
      InstancesInGroup(s, name, s.actorKeys[name]);
      forall n | n != name ensures Unaffected(s, s', n) {
        RemovalAffectsOne(s, name, n);
      }
    } else {
      assert s.aborted + Elems([]) == s.aborted;
    }
  }

  lemma RemovalAffectsOne(s: HostState, name: Name, n: Name)
    requires Quiescent(s) && name in s.actorKeys && n != name
    requires forall k :: k in s.actors ==> s.actors[k] < |s.heap| && s.heap[s.actors[k]].key == k
    ensures Unaffected(s, RemoveTo(s, name), n)
  {
    RemoveAlone(s, name);
    var key := s.actorKeys[name];
    if key in s.actors && n in s.heap[s.actors[key]].members {
      assert n in s.heap[s.actors[key]].members - {name};
    }
  }

  /** A whole link operation affects no name, and no provider stops, starts or is given other definitions. */
  predicate SameRunning(s: HostState, s': HostState) {
    && s'.providers.Keys == s.providers.Keys
    && forall k :: k in s.providers ==>
         && s'.providers[k].Keys == s.providers[k].Keys
         && forall n :: n in s.providers[k] ==>
              s'.providers[k][n] == s.providers[k][n].(missed := s'.providers[k][n].missed)
  }

  ghost predicate SameActors(s: HostState, s': HostState) {
    && s'.actorKeys == s.actorKeys && s'.actors == s.actors && s'.declared == s.declared
    && s'.nextTask == s.nextTask && s'.aborted == s.aborted
    && forall n :: InstancesOf(s', n) == InstancesOf(s, n)
  }

  lemma FinishedLinkOp(s: HostState, ok: bool)
    requires CanPatch(s)
    ensures var s' := Publish(PatchCache(s), ok);
            && SameActors(s, s') && SameRunning(s, s') && s'.links == s.links
            && var m := if s.linkOp.AddPatch? then Put(s.linkOp.ld) else Del(s.linkOp.ld);
               s'.log == if ok then s.log + [m] else s.log
  {
  }

  /** `add_linkdef`: one put message if the entry is vacant and the publish works, and nothing else published. */
  lemma AddLinkdefEffect(s: HostState, ld: LinkDef, ok: bool)
    requires LinksIdle(s)
    ensures var s' := AddLinkdefTo(s, ld, ok);
            && SameActors(s, s') && SameRunning(s, s')
            && s'.log == (if LinkdefHash(TripleOf(ld)) !in s.links && ok then s.log + [Put(ld)] else s.log)
            && (LinkdefHash(TripleOf(ld)) in s.links ==> s' == s)
  {
    if LinkdefHash(TripleOf(ld)) !in s.links {
      FinishedLinkOp(AddTable(s, ld), ok);
    }
  }

  lemma DeleteLinkdefEffect(s: HostState, t: Triple, ok: bool)
    requires LinksIdle(s)
    ensures var s', h := DeleteLinkdefTo(s, t, ok), LinkdefHash(t);
            && SameActors(s, s') && SameRunning(s, s')
            && s'.log == (if h in s.links && ok then s.log + [Del(s.links[h])] else s.log)
            && (h !in s.links ==> s' == s)
  {
    if LinkdefHash(t) in s.links {
      FinishedLinkOp(DelTable(s, t), ok);
    }
  }
}
