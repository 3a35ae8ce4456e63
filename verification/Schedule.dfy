/** When operations can begin and go on: only on the state of their own object, and on the one lock that is
    held across several steps. */
module Schedule {
  import opened Types
  import opened LinkKeys
  import opened LinkIndex
  import opened HostMachine
  import opened LinkAgreement
  import opened HostOps

  /** The actors lock is held only by a reconcile between taking it and inserting its group. */
  ghost predicate WriterBusy(s: HostState) {
    s.writer.Some? ==>
      s.writer.value in s.ops && (s.ops[s.writer.value].Locked? || s.ops[s.writer.value].Snapped?)
  }

  /** Steps that leave the lock alone and do not disturb who holds it. */
  lemma WriterKeptElsewhere(s: HostState, s': HostState, name: Name)
    requires WriterBusy(s) && s'.writer == s.writer
    requires forall n :: n != name && n in s.ops ==> n in s'.ops && s'.ops[n] == s.ops[n]
    requires s.writer == Some(name) ==> name in s'.ops && (s'.ops[name].Locked? || s'.ops[name].Snapped?)
    ensures WriterBusy(s')
  {
  }

  lemma WriterKept(s: HostState, a: Step)
    requires Shape(s) && WriterBusy(s) && Enabled(s, a)
    ensures WriterBusy(Apply(s, a))
  {
    match a {
      case DoBeginReconcile(name, key, replica) => WriterKeptElsewhere(s, BeginReconcile(s, name, key, replica), name);
      case DoRegister(name) => WriterKeptElsewhere(s, Register(s, name), name);
      case DoTakeActors(name) =>
      case DoSnapshot(name, order) => WriterKeptElsewhere(s, Snapshot(s, name, order), name);
      case DoInsertGroup(name) =>
      case DoScale(name, good) => WriterKeptElsewhere(s, Scale(s, name, good), name);
      case DoBeginRemove(name) => WriterKeptElsewhere(s, BeginRemove(s, name), name);
      case DoDetach(name) => WriterKeptElsewhere(s, Detach(s, name), name);
      case DoUnregister(name) => WriterKeptElsewhere(s, Unregister(s, name), name);
      case _ => WriterKeptByLinkStep(s, a);
    }
  }

  lemma WriterKeptByLinkStep(s: HostState, a: Step)
    requires WriterBusy(s) && Enabled(s, a) && IsLinkStep(a)
    ensures WriterBusy(Apply(s, a))
  {
  }

  lemma {:induction false} WriterAlongRun(s: HostState, steps: seq<Step>, s': HostState)
    requires Shape(s) && WriterBusy(s) && Runs(false, s, steps, s')
    ensures Shape(s') && WriterBusy(s')
    decreases steps
  {
    if steps != [] {
      ShapeKept(s, steps[0]);
      WriterKept(s, steps[0]);
      WriterAlongRun(Apply(s, steps[0]), steps[1..], s');
    }
  }

  // --- Beginning ---

  /** A reconcile can begin on every name no operation is working on, a registered one included as long as
      the key is the registered one; a removal on every such name; neither waits for anything else. */
  lemma ActorOpsBegin(s: HostState, name: Name, key: string, replica: nat)
    ensures Enabled(s, DoBeginReconcile(name, key, replica)) <==>
            name !in s.ops && (name in s.actorKeys ==> s.actorKeys[name] == key)
    ensures Enabled(s, DoBeginRemove(name)) <==> name !in s.ops
    ensures Enabled(s, DoBeginReconcile(name, key, replica)) ==>
              (Serial(s, DoBeginReconcile(name, key, replica)) <==> forall n :: n in s.ops ==> s.ops[n].key != key)
    ensures name in s.actorKeys ==>
              (Serial(s, DoBeginRemove(name)) <==> forall n :: n in s.ops ==> s.ops[n].key != s.actorKeys[name])
  {
  }

  /** One link operation at a time; provider operations at any time. */
  lemma OtherOpsBegin(s: HostState, ld: LinkDef, t: Triple, key: string, link: string, ok: bool)
    ensures Enabled(s, DoAddTable(ld)) <==> s.linkOp == NoLinkOp
    ensures Enabled(s, DoDelTable(t)) <==> s.linkOp == NoLinkOp
    ensures Enabled(s, DoStartProvider(key, link, ok)) && Enabled(s, DoStopProvider(key, link))
  {
  }

  // --- Going on ---

  /** What an operation at phase `op` on `name` can do next: it waits for nothing but the actors lock, and only
      when it takes it. */
  ghost predicate GoesOn(s: HostState, name: Name, op: ActorPhase) {
    match op
    case Checked(_, _) => Enabled(s, DoRegister(name))
    case Registered(_, _) => Enabled(s, DoTakeActors(name)) <==> s.writer == None
    case Locked(_, _) => forall order :: Enumerates(order, s.links) ==> Enabled(s, DoSnapshot(name, order))
    case Snapped(_, _, _) => Enabled(s, DoInsertGroup(name))
    case HasGroup(_, _, _) => forall good :: Enabled(s, DoScale(name, good))
    case Removing(_) => Enabled(s, DoDetach(name)) <==> s.writer == None
    case Detached(_) => Enabled(s, DoUnregister(name))
  }

  lemma ActorOpGoesOn(s: HostState, name: Name)
    requires Reachable(false, s) && name in s.ops
    ensures GoesOn(s, name, s.ops[name])
  {
    ReachableShape(s);
    ShapedOpGoesOn(s, name);
  }

  lemma ShapedOpGoesOn(s: HostState, name: Name)
    requires Shape(s) && name in s.ops
    ensures GoesOn(s, name, s.ops[name])
  {
    if s.ops[name].Locked? {
      forall order | Enumerates(order, s.links) ensures Enabled(s, DoSnapshot(name, order)) {
      }
    }
  }

  lemma LinkOpGoesOn(s: HostState)
    requires Reachable(false, s)
    ensures s.linkOp.AddPatch? || s.linkOp.DelPatch? ==> (Enabled(s, DoPatchCache) <==> s.writer == None)
    ensures s.linkOp.AddPublish? || s.linkOp.DelPublish? ==> forall ok :: Enabled(s, DoPublish(ok))
  {
    ReachableShape(s);
  }

  lemma {:induction false} SomeOrder(links: Table, keys: set<Digest>) returns (order: seq<Digest>)
    requires keys <= links.Keys
    ensures forall h :: h in order <==> h in keys
    ensures forall i, j :: 0 <= i < j < |order| ==> order[i] != order[j]
  {
    order := [];
    if keys != {} {
      var h :| h in keys;
      order := SomeOrder(links, keys - {h});
      order := order + [h];
    }
  }

  /** The step belongs to an operation that has begun. */
  predicate Continues(a: Step) {
    || a.DoPatchCache? || a.DoPublish? || a.DoRegister? || a.DoTakeActors? || a.DoSnapshot? || a.DoInsertGroup?
    || a.DoScale? || a.DoDetach? || a.DoUnregister?
  }

  lemma HolderGoesOn(s: HostState, name: Name) returns (a: Step)
    requires Reachable(false, s) && name in s.ops && (s.ops[name].Locked? || s.ops[name].Snapped?)
    ensures Continues(a) && Enabled(s, a)
  {
    ActorOpGoesOn(s, name);
    if s.ops[name].Locked? {
      var order := SomeOrder(s.links, s.links.Keys);
      assert Enumerates(order, s.links);
      a := DoSnapshot(name, order);
    } else {
      a := DoInsertGroup(name);
    }
  }

  lemma FreeOpGoesOn(s: HostState, name: Name) returns (a: Step)
    requires Reachable(false, s) && name in s.ops && s.writer == None
    ensures Continues(a) && Enabled(s, a)
  {
    ActorOpGoesOn(s, name);
    match s.ops[name] {
      case Checked(_, _) => a := DoRegister(name);
      case Registered(_, _) => a := DoTakeActors(name);
      case HasGroup(_, _, _) => a := DoScale(name, 0);
      case Removing(_) => a := DoDetach(name);
      case Detached(_) => a := DoUnregister(name);
      case _ => a := HolderGoesOn(s, name);
    }
  }

  /** In every reachable state, as long as an operation is under way, one that is under way can go on. */
  lemma SomeOpGoesOn(s: HostState) returns (a: Step)
    requires Reachable(false, s) && (s.ops != map[] || s.linkOp != NoLinkOp)
    ensures Continues(a) && Enabled(s, a)
  {
    var steps :| Runs(false, INIT, steps, s);
    WriterAlongRun(INIT, steps, s);
    LinkOpGoesOn(s);
    if s.writer.Some? {
      a := HolderGoesOn(s, s.writer.value);
    } else if s.ops != map[] {
      var name :| name in s.ops;
      a := FreeOpGoesOn(s, name);
    } else {
      a := if s.linkOp.AddPatch? || s.linkOp.DelPatch? then DoPatchCache else DoPublish(true);
    }
  }
}
