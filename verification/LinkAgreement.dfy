/** Every interleaving keeps the link table, the shared link caches and the providers' own copies
    in agreement, up to the one link operation in flight and to messages that could not be sent. */
module LinkAgreement {
  import opened Types
  import opened LinkKeys
  import opened LinkIndex
  import opened HostMachine

  /** Group indices are in range, groups sit under their own key, and exactly the holder of the
      actors lock is between taking it and inserting its group. */
  ghost predicate Shape(s: HostState) {
    && (forall k :: k in s.actors ==> s.actors[k] < |s.heap| && s.heap[s.actors[k]].key == k)
    && (forall n :: n in s.ops && (s.ops[n].Locked? || s.ops[n].Snapped?) ==>
          s.writer == Some(n) && s.ops[n].key !in s.actors)
    && (forall n :: n in s.ops && s.ops[n].HasGroup? ==>
          s.ops[n].gid < |s.heap| && s.heap[s.ops[n].gid].key == s.ops[n].key)
  }

  /** Group `g` is the one the table has under its key. */
  predicate Current(s: HostState, g: nat) {
    g < |s.heap| && s.heap[g].key in s.actors && s.actors[s.heap[g].key] == g
  }

  /** The triple a link operation has changed in the table but not yet in the cache. */
  function Unpatched(op: LinkPhase): Option<Triple> {
    match op
    case AddPatch(ld) => Some(TripleOf(ld))
    case DelPatch(ld) => Some(TripleOf(ld))
    case _ => None
  }

  ghost predicate OpInv(links: Table, op: LinkPhase) {
    && TableOk(links)
    && ((op.AddPatch? || op.AddPublish?) ==> Stored(links, TripleOf(op.ld)) == Some(op.ld))
    && ((op.DelPatch? || op.DelPublish?) ==> Stored(links, TripleOf(op.ld)) == None)
  }

  /** Every cache reachable through the table of groups, and the cache a reconcile is about to put
      there, answers as the link table does, except at the unpatched triple. */
  ghost predicate CacheInv(s: HostState) {
    && (forall k :: k in s.actors && s.actors[k] < |s.heap| ==>
          Agrees(s.heap[s.actors[k]].cache, s.links, k, Unpatched(s.linkOp)))
    && (forall n :: n in s.ops && s.ops[n].Snapped? ==>
          Agrees(s.ops[n].cache, s.links, s.ops[n].key, Unpatched(s.linkOp)))
  }

  /** The provider's start-up definitions and later messages give the filtered table at `t`. */
  ghost predicate ViewAt(p: Provider, links: Table, log: seq<Message>, key: string, link: string, t: Triple) {
    p.from <= |log| && Held(p.snapshot, log[p.from..], key, link, t) == Wanted(links, key, link, t)
  }

  ghost predicate Concerns(op: LinkPhase, key: string, link: string, t: Triple) {
    !op.NoLinkOp? && op.ld.providerId == key && op.ld.linkName == link && TripleOf(op.ld) == t
  }

  ghost predicate ViewInv(p: Provider, links: Table, log: seq<Message>, op: LinkPhase, key: string, link: string) {
    && p.from <= |log|
    && forall t :: t !in p.missed && !Concerns(op, key, link, t) ==> ViewAt(p, links, log, key, link, t)
  }

  ghost predicate ProviderInv(s: HostState) {
    forall k, n :: Running(s, k, n) ==> ViewInv(s.providers[k][n], s.links, s.log, s.linkOp, k, n)
  }

  ghost predicate LinkInv(s: HostState) {
    Shape(s) && OpInv(s.links, s.linkOp) && CacheInv(s) && ProviderInv(s)
  }

  // --- Shape ---

  /** A step of one actor operation that leaves the lock, the table and the groups' keys alone. */
  lemma ShapeKeptLocally(s: HostState, s': HostState, name: Name)
    requires Shape(s)
    requires s'.actors == s.actors && s'.writer == s.writer && SameKeys(s.heap, s'.heap)
    requires forall n :: n != name ==> (n in s'.ops <==> n in s.ops) && (n in s.ops ==> s'.ops[n] == s.ops[n])
    requires name in s'.ops ==> !s'.ops[name].Locked? && !s'.ops[name].HasGroup?
    requires name in s'.ops && s'.ops[name].Snapped? ==>
               name in s.ops && s.ops[name].Locked? && s.ops[name].key == s'.ops[name].key
    ensures Shape(s')
  {
  }

  ghost predicate SameKeys(heap: seq<Group>, heap': seq<Group>) {
    |heap| == |heap'| && forall g :: 0 <= g < |heap| ==> heap'[g].key == heap[g].key
  }

  lemma ShapeKeptByTakeActors(s: HostState, name: Name)
    requires Shape(s) && Enabled(s, DoTakeActors(name))
    ensures Shape(TakeActors(s, name))
  {
  }

  lemma ShapeKeptByInsertGroup(s: HostState, name: Name)
    requires Shape(s) && Enabled(s, DoInsertGroup(name))
    ensures Shape(InsertGroup(s, name))
  {
  }

  lemma ShapeKeptByScale(s: HostState, name: Name, good: nat)
    requires Shape(s) && CanScale(s, name)
    ensures Shape(Scale(s, name, good))
  {
    var s' := Scale(s, name, good);
    assert SameKeys(s.heap, s'.heap) && s'.ops == s.ops - {name};
    ShapeKeptLocally(s, s', name);
  }

  lemma ShapeKeptByDetach(s: HostState, name: Name)
    requires Shape(s) && CanDetach(s, name)
    ensures Shape(Detach(s, name))
  {
    var s' := Detach(s, name);
    assert SameKeys(s.heap, s'.heap);
    forall k | k in s'.actors ensures s'.actors[k] < |s'.heap| && s'.heap[s'.actors[k]].key == k {
      assert k in s.actors && s'.actors[k] == s.actors[k];
    }
  }

  lemma ShapeKeptElsewhere(s: HostState, s': HostState)
    requires Shape(s) && s'.actors == s.actors && s'.writer == s.writer && s'.ops == s.ops && SameKeys(s.heap, s'.heap)
    ensures Shape(s')
  {
  }

  predicate IsLinkStep(a: Step) {
    a.DoAddTable? || a.DoDelTable? || a.DoPatchCache? || a.DoPublish? || a.DoStartProvider? || a.DoStopProvider?
  }

  lemma ShapeKept(s: HostState, a: Step)
    requires Shape(s) && Enabled(s, a)
    ensures Shape(Apply(s, a))
  {
    if IsLinkStep(a) {
      ShapeKeptElsewhere(s, Apply(s, a));
    } else {
      ShapeKeptByActorStep(s, a);
    }
  }

  lemma ShapeKeptByActorStep(s: HostState, a: Step)
    requires Shape(s) && Enabled(s, a) && !IsLinkStep(a)
    ensures Shape(Apply(s, a))
  {
    match a {
      case DoBeginReconcile(name, key, replica) => ShapeKeptLocally(s, BeginReconcile(s, name, key, replica), name);
      case DoRegister(name) => ShapeKeptLocally(s, Register(s, name), name);
      case DoTakeActors(name) => ShapeKeptByTakeActors(s, name);
      case DoSnapshot(name, order) => ShapeKeptLocally(s, Snapshot(s, name, order), name);
      case DoInsertGroup(name) => ShapeKeptByInsertGroup(s, name);
      case DoScale(name, good) => ShapeKeptByScale(s, name, good);
      case DoBeginRemove(name) => ShapeKeptLocally(s, BeginRemove(s, name), name);
      case DoDetach(name) => ShapeKeptByDetach(s, name);
      case DoUnregister(name) => ShapeKeptLocally(s, Unregister(s, name), name);
    }
  }

  // --- The table and the operation in flight ---

  lemma OpInvKept(s: HostState, a: Step)
    requires OpInv(s.links, s.linkOp) && Enabled(s, a)
    ensures OpInv(Apply(s, a).links, Apply(s, a).linkOp)
  {
    match a {
      case DoAddTable(ld) =>
      case DoDelTable(t) =>
      case DoPatchCache =>
      case DoPublish(ok) =>
      case _ => ActorStepFrame(s, a);
    }
  }

  lemma ActorStepFrame(s: HostState, a: Step)
    requires Enabled(s, a)
    requires !a.DoAddTable? && !a.DoDelTable? && !a.DoPatchCache? && !a.DoPublish?
    ensures Apply(s, a).links == s.links && Apply(s, a).linkOp == s.linkOp && Apply(s, a).log == s.log
    ensures !a.DoStartProvider? && !a.DoStopProvider? ==> Apply(s, a).providers == s.providers
  {
  }

  // --- Caches ---

  lemma CacheKeptByTableStep(s: HostState, s': HostState, t: Triple)
    requires Shape(s) && CacheInv(s) && s.linkOp.NoLinkOp?
    requires s' == s.(links := s'.links, linkOp := s'.linkOp)
    requires Unpatched(s'.linkOp) == Some(t)
    requires forall u :: u != t ==> Stored(s'.links, u) == Stored(s.links, u)
    ensures CacheInv(s')
  {
    forall k | k in s'.actors && s'.actors[k] < |s'.heap|
      ensures Agrees(s'.heap[s'.actors[k]].cache, s'.links, k, Unpatched(s'.linkOp))
    {
      AgreesAfterTableStep(s.heap[s.actors[k]].cache, s.links, s'.links, k, t);
    }
    forall n | n in s'.ops && s'.ops[n].Snapped?
      ensures Agrees(s'.ops[n].cache, s'.links, s'.ops[n].key, Unpatched(s'.linkOp))
    {
      AgreesAfterTableStep(s.ops[n].cache, s.links, s'.links, s.ops[n].key, t);
    }
  }

  lemma CacheKeptByAddTable(s: HostState, ld: LinkDef)
    requires Shape(s) && CacheInv(s) && s.linkOp.NoLinkOp?
    ensures CacheInv(AddTable(s, ld))
  {
    if LinkdefHash(TripleOf(ld)) !in s.links {
      forall u ensures u != TripleOf(ld) ==> Stored(AddTable(s, ld).links, u) == Stored(s.links, u) {
        InsertChangesOnlyItsTriple(s.links, ld, u);
      }
      CacheKeptByTableStep(s, AddTable(s, ld), TripleOf(ld));
    }
  }

  lemma CacheKeptByDelTable(s: HostState, t: Triple)
    requires Shape(s) && CacheInv(s) && TableOk(s.links) && s.linkOp.NoLinkOp?
    ensures CacheInv(DelTable(s, t))
  {
    var h := LinkdefHash(t);
    if h in s.links {
      forall u ensures u != TripleOf(s.links[h]) ==> Stored(DelTable(s, t).links, u) == Stored(s.links, u) {
        RemoveChangesOnlyItsTriple(s.links, h, u);
      }
      CacheKeptByTableStep(s, DelTable(s, t), TripleOf(s.links[h]));
    }
  }

  lemma CacheKeptByPatch(s: HostState)
    requires Shape(s) && OpInv(s.links, s.linkOp) && CacheInv(s) && CanPatch(s)
    ensures CacheInv(PatchCache(s))
  {
    var s' := PatchCache(s);
    var ld := s.linkOp.ld;
    forall k | k in s'.actors && s'.actors[k] < |s'.heap|
      ensures Agrees(s'.heap[s'.actors[k]].cache, s'.links, k, None)
    {
      var cache := s.heap[s.actors[k]].cache;
      assert Agrees(cache, s.links, k, Some(TripleOf(ld)));
      if k == ld.actorId {
        PatchedAgrees(cache, s.links, s.linkOp);
      } else {
        assert s'.heap[s'.actors[k]].cache == cache;
        OthersAgree(cache, s.links, k, TripleOf(ld));
      }
    }
  }

  /** An exemption for another actor's triple is no exemption. */
  lemma OthersAgree(cache: Cache, links: Table, actor: string, t: Triple)
    requires Agrees(cache, links, actor, Some(t)) && t.actor != actor
    ensures Agrees(cache, links, actor, None)
  {
    forall c, n ensures Lookup(cache, c, n) == TableEntity(links, Triple(actor, c, n)) {
      assert Some(t) != Some(Triple(actor, c, n));
    }
  }

  /** Patching the exempted triple brings the cache back into full agreement. */
  lemma PatchedAgrees(cache: Cache, links: Table, op: LinkPhase)
    requires op.AddPatch? || op.DelPatch?
    requires OpInv(links, op) && Agrees(cache, links, op.ld.actorId, Some(TripleOf(op.ld)))
    ensures Agrees(PatchedCache(cache, op), links, op.ld.actorId, None)
  {
  }

  lemma CacheKeptBySnapshot(s: HostState, name: Name, order: seq<Digest>)
    requires Shape(s) && OpInv(s.links, s.linkOp) && CacheInv(s) && CanSnapshot(s, name, order)
    ensures CacheInv(Snapshot(s, name, order))
  {
    ActorLinksExact(s.links, order, s.ops[name].key);
  }

  /** Steps that change neither the links nor what a cache in the table or under way holds. */
  lemma CacheKeptElsewhere(s: HostState, s': HostState)
    requires Shape(s) && CacheInv(s)
    requires s'.links == s.links && Unpatched(s'.linkOp) == Unpatched(s.linkOp)
    requires |s'.heap| == |s.heap| && forall g :: 0 <= g < |s.heap| ==> s'.heap[g].cache == s.heap[g].cache
    requires forall k :: k in s'.actors ==> k in s.actors && s'.actors[k] == s.actors[k]
    requires forall n :: n in s'.ops && s'.ops[n].Snapped? ==> n in s.ops && s'.ops[n] == s.ops[n]
    ensures CacheInv(s')
  {
  }

  lemma CacheKeptByInsertGroup(s: HostState, name: Name)
    requires Shape(s) && CacheInv(s) && Enabled(s, DoInsertGroup(name))
    ensures CacheInv(InsertGroup(s, name))
  {
  }

  lemma CacheKeptByScale(s: HostState, name: Name, good: nat)
    requires Shape(s) && CacheInv(s) && CanScale(s, name)
    ensures CacheInv(Scale(s, name, good))
  {
    CacheKeptElsewhere(s, Scale(s, name, good));
  }

  lemma CacheKeptByDetach(s: HostState, name: Name)
    requires Shape(s) && CacheInv(s) && CanDetach(s, name)
    ensures CacheInv(Detach(s, name))
  {
    CacheKeptElsewhere(s, Detach(s, name));
  }

  lemma CacheKeptByActorStep(s: HostState, a: Step)
    requires Shape(s) && CacheInv(s) && Enabled(s, a)
    requires a.DoBeginReconcile? || a.DoRegister? || a.DoTakeActors? || a.DoScale?
             || a.DoBeginRemove? || a.DoDetach? || a.DoUnregister?
    ensures CacheInv(Apply(s, a))
  {
    match a {
      case DoBeginReconcile(name, key, replica) => CacheKeptElsewhere(s, BeginReconcile(s, name, key, replica));
      case DoRegister(name) => CacheKeptElsewhere(s, Register(s, name));
      case DoTakeActors(name) => CacheKeptElsewhere(s, TakeActors(s, name));
      case DoScale(name, good) => CacheKeptByScale(s, name, good);
      case DoBeginRemove(name) => CacheKeptElsewhere(s, BeginRemove(s, name));
      case DoDetach(name) => CacheKeptByDetach(s, name);
      case DoUnregister(name) => CacheKeptElsewhere(s, Unregister(s, name));
    }
  }

  lemma CacheKept(s: HostState, a: Step)
    requires Shape(s) && OpInv(s.links, s.linkOp) && CacheInv(s) && Enabled(s, a)
    ensures CacheInv(Apply(s, a))
  {
    match a {
      case DoAddTable(ld) => CacheKeptByAddTable(s, ld);
      case DoDelTable(t) => CacheKeptByDelTable(s, t);
      case DoPatchCache => CacheKeptByPatch(s);
      case DoPublish(ok) => CacheKeptElsewhere(s, Publish(s, ok));
      case DoStartProvider(key, link, ok) => CacheKeptElsewhere(s, StartProvider(s, key, link, ok));
      case DoStopProvider(key, link) => CacheKeptElsewhere(s, StopProvider(s, key, link));
      case DoSnapshot(name, order) => CacheKeptBySnapshot(s, name, order);
      case DoInsertGroup(name) => CacheKeptByInsertGroup(s, name);
      case _ => CacheKeptByActorStep(s, a);
    }
  }

  // --- Providers ---

  lemma ViewKeptByTableStep(p: Provider, links: Table, links': Table, log: seq<Message>, op: LinkPhase,
                            key: string, link: string)
    requires ViewInv(p, links, log, NoLinkOp, key, link)
    requires op.AddPatch? || op.DelPatch?
    requires forall u :: u != TripleOf(op.ld) ==> Stored(links', u) == Stored(links, u)
    requires op.AddPatch? ==> Stored(links, TripleOf(op.ld)) == None && Stored(links', TripleOf(op.ld)) == Some(op.ld)
    requires op.DelPatch? ==> Stored(links, TripleOf(op.ld)) == Some(op.ld) && Stored(links', TripleOf(op.ld)) == None
    ensures ViewInv(p, links', log, op, key, link)
  {
    forall t | t !in p.missed && !Concerns(op, key, link, t) ensures ViewAt(p, links', log, key, link, t) {
      assert ViewAt(p, links, log, key, link, t);
    }
  }

  lemma ProvidersKeptByAddTable(s: HostState, ld: LinkDef)
    requires ProviderInv(s) && OpInv(s.links, s.linkOp) && s.linkOp.NoLinkOp?
    ensures ProviderInv(AddTable(s, ld))
  {
    var s' := AddTable(s, ld);
    if LinkdefHash(TripleOf(ld)) !in s.links {
      forall u ensures u != TripleOf(ld) ==> Stored(s'.links, u) == Stored(s.links, u) {
        InsertChangesOnlyItsTriple(s.links, ld, u);
      }
      forall k, n | Running(s', k, n) ensures ViewInv(s'.providers[k][n], s'.links, s'.log, s'.linkOp, k, n) {
        assert Running(s, k, n);
        ViewKeptByTableStep(s.providers[k][n], s.links, s'.links, s.log, s'.linkOp, k, n);
      }
    }
  }

  lemma ProvidersKeptByDelTable(s: HostState, t: Triple)
    requires ProviderInv(s) && OpInv(s.links, s.linkOp) && s.linkOp.NoLinkOp?
    ensures ProviderInv(DelTable(s, t))
  {
    var s' := DelTable(s, t);
    var h := LinkdefHash(t);
    if h in s.links {
      forall u ensures u != TripleOf(s.links[h]) ==> Stored(s'.links, u) == Stored(s.links, u) {
        RemoveChangesOnlyItsTriple(s.links, h, u);
      }
      forall k, n | Running(s', k, n) ensures ViewInv(s'.providers[k][n], s'.links, s'.log, s'.linkOp, k, n) {
        assert Running(s, k, n);
        ViewKeptByTableStep(s.providers[k][n], s.links, s'.links, s.log, s'.linkOp, k, n);
      }
    }
  }

  lemma ProvidersKeptByPatch(s: HostState)
    requires ProviderInv(s) && CanPatch(s)
    ensures ProviderInv(PatchCache(s))
  {
    var s' := PatchCache(s);
    forall k, n | Running(s', k, n) ensures ViewInv(s'.providers[k][n], s'.links, s'.log, s'.linkOp, k, n) {
      assert Running(s, k, n);
      assert forall t :: Concerns(s.linkOp, k, n, t) == Concerns(s'.linkOp, k, n, t);
    }
  }

  /** One more message. */
  lemma HeldSnoc(snapshot: Table, log: seq<Message>, m: Message, from: nat, key: string, link: string, t: Triple)
    requires from <= |log|
    ensures Held(snapshot, (log + [m])[from..], key, link, t) ==
            if m.ld.providerId == key && m.ld.linkName == link && TripleOf(m.ld) == t then
              (match m case Put(ld) => Some(ld) case Del(_) => None)
            else Held(snapshot, log[from..], key, link, t)
  {
    var msgs := (log + [m])[from..];
    assert msgs == log[from..] + [m];
    assert msgs[..|msgs| - 1] == log[from..];
  }

  lemma ViewKeptByPublish(p: Provider, p': Provider, links: Table, log: seq<Message>, op: LinkPhase, ok: bool,
                          key: string, link: string)
    requires ViewInv(p, links, log, op, key, link)
    requires op.AddPublish? || op.DelPublish?
    requires OpInv(links, op)
    requires if op.ld.providerId == key && op.ld.linkName == link
             then p' == p.(missed := if ok then p.missed - {TripleOf(op.ld)} else p.missed + {TripleOf(op.ld)})
             else p' == p
    ensures var m := if op.AddPublish? then Put(op.ld) else Del(op.ld);
            ViewInv(p', links, if ok then log + [m] else log, NoLinkOp, key, link)
  {
    var m := if op.AddPublish? then Put(op.ld) else Del(op.ld);
    var log' := if ok then log + [m] else log;
    forall t | t !in p'.missed ensures ViewAt(p', links, log', key, link, t) {
      if ok {
        HeldSnoc(p.snapshot, log, m, p.from, key, link, t);
      }
      if !Concerns(op, key, link, t) {
        assert ViewAt(p, links, log, key, link, t);
      }
    }
  }

  lemma ProvidersKeptByPublish(s: HostState, ok: bool)
    requires ProviderInv(s) && OpInv(s.links, s.linkOp) && CanPublish(s)
    ensures ProviderInv(Publish(s, ok))
  {
    var s' := Publish(s, ok);
    forall k, n | Running(s', k, n) ensures ViewInv(s'.providers[k][n], s'.links, s'.log, s'.linkOp, k, n) {
      assert Running(s, k, n);
      ViewKeptByPublish(s.providers[k][n], s'.providers[k][n], s.links, s.log, s.linkOp, ok, k, n);
    }
  }

  /** A provider starts with exactly what it should hold. */
  lemma FreshView(links: Table, log: seq<Message>, op: LinkPhase, key: string, link: string)
    requires TableOk(links)
    ensures ViewInv(Provider(ProviderLinks(links, key, link), |log|, {}), links, log, op, key, link)
  {
    var p := Provider(ProviderLinks(links, key, link), |log|, {});
    forall t ensures ViewAt(p, links, log, key, link, t) {
      assert log[p.from..] == [];
    }
  }

  lemma ProvidersKeptByStart(s: HostState, key: string, link: string, ok: bool)
    requires ProviderInv(s) && TableOk(s.links)
    ensures ProviderInv(StartProvider(s, key, link, ok))
  {
    var s' := StartProvider(s, key, link, ok);
    FreshView(s.links, s.log, s.linkOp, key, link);
    forall k, n | Running(s', k, n) ensures ViewInv(s'.providers[k][n], s'.links, s'.log, s'.linkOp, k, n) {
      assert Running(s, k, n) || (k == key && n == link);
    }
  }

  lemma ProvidersKeptByStop(s: HostState, key: string, link: string)
    requires ProviderInv(s)
    ensures ProviderInv(StopProvider(s, key, link))
  {
    var s' := StopProvider(s, key, link);
    forall k, n | Running(s', k, n) ensures ViewInv(s'.providers[k][n], s'.links, s'.log, s'.linkOp, k, n) {
      assert Running(s, k, n);
    }
  }

  lemma ProvidersKeptElsewhere(s: HostState, s': HostState)
    requires ProviderInv(s)
    requires s'.providers == s.providers && s'.links == s.links && s'.log == s.log && s'.linkOp == s.linkOp
    ensures ProviderInv(s')
  {
    forall k, n | Running(s', k, n) ensures ViewInv(s'.providers[k][n], s'.links, s'.log, s'.linkOp, k, n) {
      assert Running(s, k, n);
    }
  }

  lemma ProvidersKept(s: HostState, a: Step)
    requires ProviderInv(s) && OpInv(s.links, s.linkOp) && Enabled(s, a)
    ensures ProviderInv(Apply(s, a))
  {
    match a {
      case DoAddTable(ld) => ProvidersKeptByAddTable(s, ld);
      case DoDelTable(t) => ProvidersKeptByDelTable(s, t);
      case DoPatchCache => ProvidersKeptByPatch(s);
      case DoPublish(ok) => ProvidersKeptByPublish(s, ok);
      case DoStartProvider(key, link, ok) => ProvidersKeptByStart(s, key, link, ok);
      case DoStopProvider(key, link) => ProvidersKeptByStop(s, key, link);
      case _ => ProvidersKeptElsewhere(s, Apply(s, a));
    }
  }

  // --- Whole runs ---

  lemma LinkInvKept(s: HostState, a: Step)
    requires LinkInv(s) && Enabled(s, a)
    ensures LinkInv(Apply(s, a))
  {
    ShapeKept(s, a);
    OpInvKept(s, a);
    CacheKept(s, a);
    ProvidersKept(s, a);
  }

  lemma {:induction false} LinkInvAlongRun(s: HostState, steps: seq<Step>, s': HostState)
    requires LinkInv(s) && Runs(false, s, steps, s')
    ensures LinkInv(s')
    decreases steps
  {
    if steps != [] {
      LinkInvKept(s, steps[0]);
      LinkInvAlongRun(Apply(s, steps[0]), steps[1..], s');
    }
  }

  /** In every reachable state every group's shared cache answers exactly as the link table, except
      possibly at the triple of the link operation between its table step and its cache step. */
  lemma CachesMirrorTable(s: HostState, key: string, c: string, n: string)
    requires Reachable(false, s)
    requires key in s.actors
    requires Unpatched(s.linkOp) != Some(Triple(key, c, n))
    ensures s.actors[key] < |s.heap|
    ensures Lookup(s.heap[s.actors[key]].cache, c, n) == TableEntity(s.links, Triple(key, c, n))
  {
    var steps :| Runs(false, INIT, steps, s);
    LinkInvAlongRun(INIT, steps, s);
  }

  /** Snapshot plus log equals state: in every reachable state a running provider that applied its
      start-up definitions and every message published to it since holds exactly the link table
      filtered to its key and link name, except at the triple of the operation whose message to it
      is still to come and at triples whose latest message to it could not be published. */
  lemma SnapshotPlusLogIsTable(s: HostState, key: string, link: string, t: Triple)
    requires Reachable(false, s)
    requires Running(s, key, link)
    requires t !in s.providers[key][link].missed
    requires !Concerns(s.linkOp, key, link, t)
    ensures s.providers[key][link].from <= |s.log|
    ensures Held(s.providers[key][link].snapshot, s.log[s.providers[key][link].from..], key, link, t) ==
            Wanted(s.links, key, link, t)
  {
    var steps :| Runs(false, INIT, steps, s);
    LinkInvAlongRun(INIT, steps, s);
    assert ViewInv(s.providers[key][link], s.links, s.log, s.linkOp, key, link);
    assert ViewAt(s.providers[key][link], s.links, s.log, key, link, t);
  }
}
