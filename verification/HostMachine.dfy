/** The host's shared tables and every step a control operation can take on them.

    An operation is cut where it lets go of the lock that protects what it has read or written:
    a link operation updates the table, then the cache, then publishes; a reconcile registers the
    name, takes the actors lock, snapshots the links, inserts the group, and only later, without
    the actors lock, scales the name inside the group. Steps of different operations interleave. */
module HostMachine {
  import opened Types
  import opened LinkKeys
  import opened LinkIndex

  type Name = string
  type Task = nat

  /** An actor group is shared by reference: the table, the handlers and a running reconcile all
      hold its index in the heap. */
  datatype Group = Group(key: string, cache: Cache, members: map<Name, seq<Task>>)

  datatype Message = Put(ld: LinkDef) | Del(ld: LinkDef)

  /** A running provider: the definitions given to it at start, how much had been published by
      then, and the triples whose latest message to it could not be published. */
  datatype Provider = Provider(snapshot: Table, from: nat, missed: set<Triple>)

  /** The link operation that holds the controller's link lock. */
  datatype LinkPhase =
    | NoLinkOp
    | AddPatch(ld: LinkDef)
    | AddPublish(ld: LinkDef)
    | DelPatch(ld: LinkDef)
    | DelPublish(ld: LinkDef)

  /** Where the operation on one Actor object stands. */
  datatype ActorPhase =
    | Checked(key: string, replica: nat)
    | Registered(key: string, replica: nat)
    | Locked(key: string, replica: nat)
    | Snapped(key: string, replica: nat, cache: Cache)
    | HasGroup(key: string, replica: nat, gid: nat)
    | Removing(key: string)
    | Detached(key: string)

  datatype HostState = HostState(
    links: Table,
    linkOp: LinkPhase,
    log: seq<Message>,
    providers: map<string, map<string, Provider>>,
    actorKeys: map<Name, string>,
    actors: map<string, nat>,
    heap: seq<Group>,
    ops: map<Name, ActorPhase>,
    writer: Option<Name>,
    nextTask: Task,
    aborted: set<Task>,
    leaked: set<Task>,
    declared: map<Name, nat>)

  const INIT := HostState(map[], NoLinkOp, [], map[], map[], map[], [], map[], None, 0, {}, {}, map[])

  datatype Step =
    | DoAddTable(ld: LinkDef)
    | DoDelTable(t: Triple)
    | DoPatchCache
    | DoPublish(ok: bool)
    | DoStartProvider(key: string, link: string, ok: bool)
    | DoStopProvider(key: string, link: string)
    | DoBeginReconcile(name: Name, key: string, replica: nat)
    | DoRegister(name: Name)
    | DoTakeActors(name: Name)
    | DoSnapshot(name: Name, order: seq<Digest>)
    | DoInsertGroup(name: Name)
    | DoScale(name: Name, good: nat)
    | DoBeginRemove(name: Name)
    | DoDetach(name: Name)
    | DoUnregister(name: Name)

  // --- Link operations ---

  /** `add_linkdef`, first lock: insert if vacant, otherwise the definition is skipped. */
  function AddTable(s: HostState, ld: LinkDef): HostState {
    var h := LinkdefHash(TripleOf(ld));
    if h in s.links then s
    else s.(links := s.links[h := ld], linkOp := AddPatch(ld))
  }

  /** `delete_linkdef`, first lock: what is removed is the stored definition. */
  function DelTable(s: HostState, t: Triple): HostState {
    var h := LinkdefHash(t);
    if h !in s.links then s
    else s.(links := s.links - {h}, linkOp := DelPatch(s.links[h]))
  }

  predicate CanPatch(s: HostState) {
    && (s.linkOp.AddPatch? || s.linkOp.DelPatch?)
    && s.writer.None?
    && forall k :: k in s.actors ==> s.actors[k] < |s.heap|
  }

  /** Second lock: patch the shared cache of the actor's group, if there is one. */
  function PatchCache(s: HostState): HostState
    requires CanPatch(s)
  {
    var ld := s.linkOp.ld;
    s.(heap := if ld.actorId in s.actors then
                 var g := s.actors[ld.actorId];
                 SetCache(s.heap, g, PatchedCache(s.heap[g].cache, s.linkOp))
               else s.heap,
       linkOp := if s.linkOp.AddPatch? then AddPublish(ld) else DelPublish(ld))
  }

  function PatchedCache(cache: Cache, op: LinkPhase): Cache
    requires op.AddPatch? || op.DelPatch?
  {
    if op.AddPatch? then PutLink(cache, op.ld) else DeleteLink(cache, op.ld.contractId, op.ld.linkName)
  }

  predicate CanPublish(s: HostState) {
    s.linkOp.AddPublish? || s.linkOp.DelPublish?
  }

  predicate Running(s: HostState, key: string, link: string) {
    key in s.providers && link in s.providers[key]
  }

  function SetMissed(providers: map<string, map<string, Provider>>, ld: LinkDef, missed: bool)
    : map<string, map<string, Provider>>
  {
    var k, n, t := ld.providerId, ld.linkName, TripleOf(ld);
    if k in providers && n in providers[k] then
      var p := providers[k][n];
      var p' := p.(missed := if missed then p.missed + {t} else p.missed - {t});
      providers[k := providers[k][n := p']]
    else providers
  }

  /** Last, without a lock: the message reaches the log, or the publish fails. */
  function Publish(s: HostState, ok: bool): HostState
    requires CanPublish(s)
  {
    var ld := s.linkOp.ld;
    var msg := if s.linkOp.AddPublish? then Put(ld) else Del(ld);
    s.(linkOp := NoLinkOp,
       log := if ok then s.log + [msg] else s.log,
       providers := SetMissed(s.providers, ld, !ok))
  }

  // --- Providers ---

  function ProviderLinks(links: Table, key: string, link: string): Table {
    map h | h in links && links[h].providerId == key && links[h].linkName == link :: links[h]
  }

  /** `start_provider` inserts an empty entry even when the process then fails to start. */
  function StartProvider(s: HostState, key: string, link: string, ok: bool): HostState {
    var instances := if key in s.providers then s.providers[key] else map[];
    var instances' :=
      if link in instances || !ok then instances
      else instances[link := Provider(ProviderLinks(s.links, key, link), |s.log|, {})];
    s.(providers := s.providers[key := instances'])
  }

  function StopProvider(s: HostState, key: string, link: string): HostState {
    if key !in s.providers then s
    else
      var instances := s.providers[key] - {link};
      s.(providers := if instances == map[] then s.providers - {key} else s.providers[key := instances])
  }

  /** What a provider holds at a triple: its latest message about it, or its start-up definition. */
  function Held(snapshot: Table, msgs: seq<Message>, key: string, link: string, t: Triple): Option<LinkDef> {
    if msgs == [] then Stored(snapshot, t)
    else
      var m := msgs[|msgs| - 1];
      if m.ld.providerId == key && m.ld.linkName == link && TripleOf(m.ld) == t then
        (match m case Put(ld) => Some(ld) case Del(_) => None)
      else
        Held(snapshot, msgs[..|msgs| - 1], key, link, t)
  }

  /** What it should hold: the table, filtered to its key and link name. */
  function Wanted(links: Table, key: string, link: string, t: Triple): Option<LinkDef> {
    match Stored(links, t)
    case Some(ld) => if ld.providerId == key && ld.linkName == link then Some(ld) else None
    case None => None
  }

  // --- Actor operations ---

  /** The image has been fetched and its key compared with the registered one. */
  predicate CanBeginReconcile(s: HostState, name: Name, key: string) {
    name !in s.ops && (name in s.actorKeys ==> s.actorKeys[name] == key)
  }

  function BeginReconcile(s: HostState, name: Name, key: string, replica: nat): HostState {
    s.(ops := s.ops[name := Checked(key, replica)])
  }

  function Register(s: HostState, name: Name): HostState
    requires name in s.ops && s.ops[name].Checked?
  {
    var key, replica := s.ops[name].key, s.ops[name].replica;
    s.(actorKeys := if name in s.actorKeys then s.actorKeys else s.actorKeys[name := key],
       ops := s.ops[name := Registered(key, replica)])
  }

  /** `actors.write()`: an occupied entry gives its group at once, a vacant one keeps the lock. */
  function TakeActors(s: HostState, name: Name): HostState
    requires name in s.ops && s.ops[name].Registered?
  {
    var key, replica := s.ops[name].key, s.ops[name].replica;
    s.(ops := s.ops[name := if key in s.actors then HasGroup(key, replica, s.actors[key]) else Locked(key, replica)],
       writer := if key in s.actors then s.writer else Some(name))
  }

  predicate CanSnapshot(s: HostState, name: Name, order: seq<Digest>) {
    && name in s.ops && s.ops[name].Locked?
    && (forall h :: h in order ==> h in s.links)
    && (forall h :: h in s.links ==> h in order)
    && (forall i, j :: 0 <= i < j < |order| ==> order[i] != order[j])
  }

  function Snapshot(s: HostState, name: Name, order: seq<Digest>): HostState
    requires CanSnapshot(s, name, order)
  {
    var key, replica := s.ops[name].key, s.ops[name].replica;
    s.(ops := s.ops[name := Snapped(key, replica, ActorLinks(s.links, order, key))])
  }

  function InsertGroup(s: HostState, name: Name): HostState
    requires name in s.ops && s.ops[name].Snapped?
  {
    var key, replica, cache := s.ops[name].key, s.ops[name].replica, s.ops[name].cache;
    s.(heap := s.heap + [Group(key, cache, map[])],
       actors := s.actors[key := |s.heap|],
       ops := s.ops[name := HasGroup(key, replica, |s.heap|)],
       writer := None)
  }

  function Elems(ts: seq<Task>): set<Task> {
    set t | t in ts
  }

  /** Tasks `first .. first + count`. */
  function Batch(first: Task, count: nat): (r: seq<Task>)
    ensures |r| == count && forall i :: 0 <= i < count ==> r[i] == first + i
  {
    seq(count, i requires 0 <= i < count => first + i)
  }

  function BatchSet(first: Task, count: nat): (r: set<Task>)
    ensures forall t :: t in r <==> first <= t < first + count
  {
    var batch := Batch(first, count);
    assert forall t: Task :: first <= t < first + count ==> t in batch by {
      forall t: Task | first <= t < first + count ensures t in batch {
        assert batch[t - first] == t;
      }
    }
    Elems(batch)
  }

  predicate CanScale(s: HostState, name: Name) {
    name in s.ops && s.ops[name].HasGroup? && s.ops[name].gid < |s.heap|
  }

  /** What scaling one instance list does: the list it leaves, how many tasks it spawned, and which
      tasks it dropped from the front and aborted. */
  datatype Scaling = Scaling(ok: bool, instances: seq<Task>, spawned: nat, dropped: seq<Task>)

  /** `good` subscriptions succeed before the first one fails; a failed batch leaves the list alone. */
  function ScaleList(current: seq<Task>, replica: nat, next: Task, good: nat): Scaling {
    if replica < |current| then
      var delta := |current| - replica;
      Scaling(true, current[delta..], 0, current[..delta])
    else
      var delta := replica - |current|;
      if good < delta then Scaling(false, current, good, [])
      else Scaling(true, current + Batch(next, delta), delta, [])
  }

  /** An empty list is not stored for a name that is not there yet. */
  function StoreList(members: map<Name, seq<Task>>, name: Name, instances: seq<Task>): map<Name, seq<Task>> {
    if instances == [] && name !in members then members else members[name := instances]
  }

  function ListOf(members: map<Name, seq<Task>>, name: Name): seq<Task> {
    if name in members then members[name] else []
  }

  /** The instances of `name` in the group the table has under its registered key. */
  function InstancesOf(s: HostState, name: Name): seq<Task> {
    if name in s.actorKeys && s.actorKeys[name] in s.actors && s.actors[s.actorKeys[name]] < |s.heap| then
      ListOf(s.heap[s.actors[s.actorKeys[name]]].members, name)
    else []
  }

  /** The scaling part of `reconcile_actor`, under the group's own lock. Tasks spawned in a batch that
      then fails are never aborted. */
  function Scale(s: HostState, name: Name, good: nat): HostState
    requires CanScale(s, name)
  {
    var g, replica := s.ops[name].gid, s.ops[name].replica;
    var members := s.heap[g].members;
    var r := ScaleList(ListOf(members, name), replica, s.nextTask, good);
    s.(heap := if r.ok then SetMembers(s.heap, g, StoreList(members, name, r.instances)) else s.heap,
       ops := s.ops - {name},
       nextTask := s.nextTask + r.spawned,
       aborted := s.aborted + Elems(r.dropped),
       leaked := if r.ok then s.leaked else s.leaked + BatchSet(s.nextTask, r.spawned),
       declared := if r.ok then s.declared[name := replica] else s.declared)
  }

  function SetMembers(heap: seq<Group>, g: nat, members: map<Name, seq<Task>>): seq<Group>
    requires g < |heap|
  {
    heap[g := heap[g].(members := members)]
  }

  function SetCache(heap: seq<Group>, g: nat, cache: Cache): seq<Group>
    requires g < |heap|
  {
    heap[g := heap[g].(cache := cache)]
  }

  function BeginRemove(s: HostState, name: Name): HostState
    requires name !in s.ops
  {
    if name in s.actorKeys then s.(ops := s.ops[name := Removing(s.actorKeys[name])]) else s
  }

  predicate CanDetach(s: HostState, name: Name) {
    && name in s.ops && s.ops[name].Removing? && s.writer.None?
    && (s.ops[name].key in s.actors ==> s.actors[s.ops[name].key] < |s.heap|)
  }

  /** `remove_actor` under the actors lock: abort and drop the name, drop an emptied group. */
  function Detach(s: HostState, name: Name): HostState
    requires CanDetach(s, name)
  {
    var key := s.ops[name].key;
    var known := key in s.actors;
    var members := if known then s.heap[s.actors[key]].members else map[];
    s.(ops := s.ops[name := Detached(key)],
       declared := s.declared - {name},
       heap := if known then SetMembers(s.heap, s.actors[key], members - {name}) else s.heap,
       aborted := s.aborted + Elems(ListOf(members, name)),
       actors := if known && members - {name} == map[] then s.actors - {key} else s.actors)
  }

  function Unregister(s: HostState, name: Name): HostState
    requires name in s.ops && s.ops[name].Detached?
  {
    s.(actorKeys := s.actorKeys - {name}, ops := s.ops - {name})
  }

  // --- The machine ---

  predicate Enabled(s: HostState, a: Step) {
    match a
    case DoAddTable(ld) => s.linkOp.NoLinkOp?
    case DoDelTable(t) => s.linkOp.NoLinkOp?
    case DoPatchCache => CanPatch(s)
    case DoPublish(_) => CanPublish(s)
    case DoStartProvider(_, _, _) => true
    case DoStopProvider(_, _) => true
    case DoBeginReconcile(name, key, _) => CanBeginReconcile(s, name, key)
    case DoRegister(name) => name in s.ops && s.ops[name].Checked?
    case DoTakeActors(name) => name in s.ops && s.ops[name].Registered? && s.writer.None?
    case DoSnapshot(name, order) => CanSnapshot(s, name, order)
    case DoInsertGroup(name) => name in s.ops && s.ops[name].Snapped?
    case DoScale(name, _) => CanScale(s, name)
    case DoBeginRemove(name) => name !in s.ops
    case DoDetach(name) => CanDetach(s, name)
    case DoUnregister(name) => name in s.ops && s.ops[name].Detached?
  }

  function Apply(s: HostState, a: Step): HostState
    requires Enabled(s, a)
  {
    match a
    case DoAddTable(ld) => AddTable(s, ld)
    case DoDelTable(t) => DelTable(s, t)
    case DoPatchCache => PatchCache(s)
    case DoPublish(ok) => Publish(s, ok)
    case DoStartProvider(key, link, ok) => StartProvider(s, key, link, ok)
    case DoStopProvider(key, link) => StopProvider(s, key, link)
    case DoBeginReconcile(name, key, replica) => BeginReconcile(s, name, key, replica)
    case DoRegister(name) => Register(s, name)
    case DoTakeActors(name) => TakeActors(s, name)
    case DoSnapshot(name, order) => Snapshot(s, name, order)
    case DoInsertGroup(name) => InsertGroup(s, name)
    case DoScale(name, good) => Scale(s, name, good)
    case DoBeginRemove(name) => BeginRemove(s, name)
    case DoDetach(name) => Detach(s, name)
    case DoUnregister(name) => Unregister(s, name)
  }

  /** The key an operation would start on, when the step starts one. */
  function StartsOn(s: HostState, a: Step): Option<string> {
    match a
    case DoBeginReconcile(_, key, _) => Some(key)
    case DoBeginRemove(name) => if name in s.actorKeys then Some(s.actorKeys[name]) else None
    case _ => None
  }

  /** No two operations on one public key overlap. */
  predicate Serial(s: HostState, a: Step) {
    StartsOn(s, a).None? || forall n :: n in s.ops ==> s.ops[n].key != StartsOn(s, a).value
  }

  /** `steps` lead from `s` to `s'`; when `serial`, operations on one public key do not overlap. */
  ghost predicate Runs(serial: bool, s: HostState, steps: seq<Step>, s': HostState)
    decreases steps
  {
    if steps == [] then s == s'
    else
      && Enabled(s, steps[0])
      && (serial ==> Serial(s, steps[0]))
      && Runs(serial, Apply(s, steps[0]), steps[1..], s')
  }

  /** A run can be extended by one step at its end. */
  lemma {:induction false} ThenStep(serial: bool, s: HostState, steps: seq<Step>, m: HostState, a: Step)
    requires Runs(serial, s, steps, m) && Enabled(m, a) && (serial ==> Serial(m, a))
    ensures Runs(serial, s, steps + [a], Apply(m, a))
    decreases steps
  {
    if steps == [] {
      assert (steps + [a])[1..] == [];
    } else {
      assert (steps + [a])[1..] == steps[1..] + [a];
      ThenStep(serial, Apply(s, steps[0]), steps[1..], m, a);
    }
  }

  /** Some run leads to `s`; when `serial`, one in which operations on one key do not overlap. */
  ghost predicate Reachable(serial: bool, s: HostState) {
    exists steps :: Runs(serial, INIT, steps, s)
  }

  lemma ReachStep(serial: bool, s: HostState, a: Step)
    requires Reachable(serial, s) && Enabled(s, a) && (serial ==> Serial(s, a))
    ensures Reachable(serial, Apply(s, a))
  {
    var steps :| Runs(serial, INIT, steps, s);
    ThenStep(serial, INIT, steps, s, a);
  }
}
