/** Calls made by the actors of a running host go where the link table says. */
module Routing {
  import opened Types
  import opened LinkKeys
  import opened LinkIndex
  import opened HostMachine
  import opened LinkAgreement
  import opened ActorRegistry
  import opened HostOps
  import opened Overlap
  import opened CurrentGroups
  import opened Topics
  import opened Rpc

  /** The handler of the instances started in group `g`: it reads the group's shared cache. */
  function HandlerIn(s: HostState, g: nat, lattice: string, metadata: Option<Metadata>, aliases: map<string, Entity>)
    : Handler
    requires g < |s.heap|
  {
    Handler(lattice, metadata, Entity(s.heap[g].key, "", ""), s.heap[g].cache, aliases)
  }

  ghost predicate HandlerOf(h: Handler, s: HostState, g: nat)
    requires g < |s.heap|
  {
    h == HandlerIn(s, g, h.lattice, h.metadata, h.aliases)
  }

  /** The link name a target stands for, when it stands for a link. */
  function LinkOf(target: Target): Option<string> {
    match target
    case DefaultLink => Some("default")
    case LinkNamed(link) => Some(link.GetOr("default"))
    case _ => None
  }

  /** The destination of a call `c/...` to link `n` is what the table holds for (actor, c, n), if the
      claims list `c`. */
  lemma DestinationIsTable(serial: bool, s: HostState, g: nat, h: Handler, target: Target, c: string, rest: string)
    requires Reachable(serial, s) && Relied(serial, s, g) && HandlerOf(h, s, g)
    requires LinkOf(target).Some? && '/' !in c
    requires Unpatched(s.linkOp) != Some(Triple(s.heap[g].key, c, LinkOf(target).value))
    ensures Destination(h, target, c + "/" + rest) ==
            if Capable(h.metadata, c) then TableEntity(s.links, Triple(s.heap[g].key, c, LinkOf(target).value))
            else None
  {
    PackageOfSlashed(c, rest);
    ReliedMirrorsTable(serial, s, g, c, LinkOf(target).value);
    assert ResolveTarget(target, ContractLinks(h.links, c), h.aliases) == Lookup(h.links, c, LinkOf(target).value);
  }

  /** In every reachable state, away from a link operation half-way through its update of that very
      triple, a call with operation `c/...` to link `n` made in a group that is the table's is sent if and
      only if the link table has a definition for (actor, c, n), the claims list c (or c is empty), and a
      large request could be stored; it is then sent to the topic of that definition's provider and link
      name. When operations on one key do not overlap, that is so of every group with members. */
  lemma CallFollowsTable(serial: bool, s: HostState, g: nat, h: Handler, target: Target, c: string, rest: string,
                         chunking: Chunking, request: Bytes, store: Store, w: World)
    requires Reachable(serial, s) && Relied(serial, s, g) && HandlerOf(h, s, g)
    requires LinkOf(target).Some? && '/' !in c
    requires Unpatched(s.linkOp) != Some(Triple(s.heap[g].key, c, LinkOf(target).value))
    ensures var n := LinkOf(target).value;
            var stored := Stored(s.links, Triple(s.heap[g].key, c, n));
            var trace := Call(h, chunking, target, c + "/" + rest, request, store, w);
            && (trace.sent.Some? <==>
                stored.Some? && Capable(h.metadata, c) && (|request| <= chunking.threshold || w.storeWorks))
            && (trace.sent.Some? ==>
                && trace.sent.value.0 == Text(ToProvider(h.lattice, stored.value.providerId, n))
                && trace.sent.value.1.target == Entity(stored.value.providerId, n, c)
                && trace.sent.value.1.origin.publicKey == s.heap[g].key)
            && (trace.sent.None? ==> trace == Trace(Failed, None, store))
  {
    DestinationIsTable(serial, s, g, h, target, c, rest);
  }

  /** Handlers of a group that is not the table's do not follow the link table: for every contract there is
      a definition whose addition, carried out completely, leaves a call to it without that destination. */
  lemma StaleHandlerMissesLink(s: HostState, g: nat, c: string, rest: string) returns (ld: LinkDef)
    requires LinksIdle(s) && g < |s.heap| && !Current(s, g) && '/' !in c
    ensures Added(s, g, ld) && ld.contractId == c
    ensures var s' := AddLinkdefTo(s, ld, true);
            && LinksIdle(s') && g < |s'.heap| && Stored(s'.links, TripleOf(ld)) == Some(ld)
            && forall h :: HandlerOf(h, s', g) ==>
                 Destination(h, LinkNamed(Some(ld.linkName)), c + "/" + rest) != Some(EntityOf(ld))
  {
    ld := UnknownLink(s, g, c);
    StaleCacheStays(s, g, ld);
    PackageOfSlashed(c, rest);
  }

  /** Exactly when the calls of a group keep following the table: every definition added completely for its
      key is where a permitted call to it goes, if and only if the group is the table's. */
  lemma NewLinksCalledExactly(s: HostState, g: nat, c: string, rest: string, metadata: Option<Metadata>)
    requires LinksIdle(s) && g < |s.heap| && '/' !in c && Capable(metadata, c)
    ensures (forall ld :: Added(s, g, ld) && ld.contractId == c ==> CallsReach(s, g, ld, rest, metadata)) <==>
            Current(s, g)
  {
    if Current(s, g) {
      NewLinksReachExactly(s, g);
      forall ld | Added(s, g, ld) && ld.contractId == c ensures CallsReach(s, g, ld, rest, metadata) {
        PackageOfSlashed(c, rest);
      }
    } else {
      var ld := StaleHandlerMissesLink(s, g, c, rest);
      assert !CallsReach(s, g, ld, rest, metadata);
    }
  }

  /** After `ld` has been added, a call to it from group `g` goes to its provider. */
  predicate CallsReach(s: HostState, g: nat, ld: LinkDef, rest: string, metadata: Option<Metadata>)
    requires LinksIdle(s) && g < |s.heap|
  {
    var s' := AddLinkdefTo(s, ld, true);
    && g < |s'.heap|
    && var h := HandlerIn(s', g, "", metadata, map[]);
       Destination(h, LinkNamed(Some(ld.linkName)), ld.contractId + "/" + rest) == Some(EntityOf(ld))
  }

  /** Such a group can have a live instance: after two overlapping operations on one key and one complete
      `add_link`, the running instance of `a` does not find a definition the table holds. */
  lemma OverlapMisroutes(key: string, a: Name, b: Name, c: string, rest: string) returns (s: HostState, ld: LinkDef)
    requires a != b && '/' !in c
    ensures Reachable(false, s) && LinksIdle(s) && s.ops == map[]
    ensures |s.heap| == 1 && TracksAt(s.heap, 0, a, 0, 1) && Live(s, 1)
    ensures ld.actorId == key && ld.contractId == c && Stored(s.links, TripleOf(ld)) == Some(ld)
    ensures forall h :: HandlerOf(h, s, 0) ==>
              Destination(h, LinkNamed(Some(ld.linkName)), c + "/" + rest) != Some(EntityOf(ld))
  {
    OverlapLosesGroup(key, a, b);
    var before := Orphaned(key, a);
    ld := StaleHandlerMissesLink(before, 0, c, rest);
    AddLinkdefReachable(false, before, ld, true);
    StaleCacheStays(before, 0, ld);
    s := AddLinkdefTo(before, ld, true);
  }

  /** For dot-free components the topic tells the provider: a call reaches provider p exactly when the
      table maps the triple to p. */
  lemma TopicTellsProvider(lattice: string, p: string, q: string, n: string)
    requires DotFree(lattice) && DotFree(p) && DotFree(q) && DotFree(n)
    ensures Text(ToProvider(lattice, p, n)) == Text(ToProvider(lattice, q, n)) <==> p == q
  {
    SubjectsNeverClash(ToProvider(lattice, p, n), ToProvider(lattice, q, n));
  }

  /** A target identified as a link is one the table has, and a call to it is then not refused for want
      of a link. */
  lemma IdentifiedTargetResolves(serial: bool, s: HostState, g: nat, h: Handler, n: string, c: string, rest: string,
                                 actor: Target)
    requires Reachable(serial, s) && Relied(serial, s, g) && HandlerOf(h, s, g)
    requires '/' !in c && Unpatched(s.linkOp) != Some(Triple(s.heap[g].key, c, n)) && LinkOf(actor).None?
    ensures Identify(h.links, n, c, actor) == LinkNamed(Some(n)) <==>
            Stored(s.links, Triple(s.heap[g].key, c, n)).Some?
    ensures Stored(s.links, Triple(s.heap[g].key, c, n)).None? ==> Identify(h.links, n, c, actor) == actor
    ensures Identify(h.links, n, c, actor) == LinkNamed(Some(n)) ==>
              (Destination(h, LinkNamed(Some(n)), c + "/" + rest).Some? <==> Capable(h.metadata, c))
  {
    ReliedMirrorsTable(serial, s, g, c, n);
    DestinationIsTable(serial, s, g, h, LinkNamed(Some(n)), c, rest);
  }

  /** The topic the instances of `key` subscribe to. */
  function SubscribedTopic(lattice: string, key: string): string {
    "wasmbus.rpc." + lattice + "." + key
  }

  /** An actor-to-actor call by key needs no capability and is sent on exactly the topic the callee's
      instances subscribe to. */
  lemma ActorCallReachesActor(h: Handler, chunking: Chunking, key: string, other: string, operation: string,
                              request: Bytes, store: Store, w: World)
    requires Package(operation).Some? && (|request| <= chunking.threshold || w.storeWorks)
    requires DotFree(h.lattice) && DotFree(key) && DotFree(other)
    ensures var sent := Call(h, chunking, ActorByKey(key), operation, request, store, w).sent;
            sent.Some? && (sent.value.0 == SubscribedTopic(h.lattice, other) <==> key == other)
  {
    SubjectsNeverClash(ToActor(h.lattice, key), ToActor(h.lattice, other));
  }
}
