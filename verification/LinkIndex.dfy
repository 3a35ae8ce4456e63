/** The host's link table and the per-actor link cache derived from it. */
module LinkIndex {
  import opened Types
  import opened LinkKeys

  type Table = map<Digest, LinkDef>

  /** contract id -> link name -> provider entity */
  type Cache = map<string, map<string, Entity>>

  // --- The table ---

  /** Every definition is stored under the hash of its own triple. */
  ghost predicate TableOk(links: Table) {
    forall h :: h in links ==> h == LinkdefHash(TripleOf(links[h]))
  }

  /** The definition the table holds for a triple. */
  function Stored(links: Table, t: Triple): Option<LinkDef> {
    var h := LinkdefHash(t);
    if h in links && TripleOf(links[h]) == t then Some(links[h]) else None
  }

  /** The provider entity the table holds for a triple. */
  function TableEntity(links: Table, t: Triple): Option<Entity> {
    match Stored(links, t)
    case Some(ld) => Some(EntityOf(ld))
    case None => None
  }

  // --- The cache ---

  function Lookup(cache: Cache, contract: string, link: string): Option<Entity> {
    if contract in cache && link in cache[contract] then Some(cache[contract][link]) else None
  }

  function PutLink(cache: Cache, ld: LinkDef): (r: Cache)
    ensures forall c, n :: Lookup(r, c, n) ==
              if c == ld.contractId && n == ld.linkName then Some(EntityOf(ld)) else Lookup(cache, c, n)
  {
    var inner := if ld.contractId in cache then cache[ld.contractId] else map[];
    cache[ld.contractId := inner[ld.linkName := EntityOf(ld)]]
  }

  /** Removal leaves the (possibly empty) inner map of the contract behind. */
  function DeleteLink(cache: Cache, contract: string, link: string): (r: Cache)
    ensures forall c, n :: Lookup(r, c, n) ==
              if c == contract && n == link then None else Lookup(cache, c, n)
    ensures r.Keys == cache.Keys
  {
    if contract in cache then cache[contract := cache[contract] - {link}] else cache
  }

  /** `get_actor_links`: fold the definitions of one actor, met in some iteration order of the table. */
  function ActorLinks(links: Table, order: seq<Digest>, actor: string): Cache
    requires forall h :: h in order ==> h in links
  {
    if order == [] then map[]
    else
      var rest := ActorLinks(links, order[..|order| - 1], actor);
      var ld := links[order[|order| - 1]];
      if ld.actorId == actor then PutLink(rest, ld) else rest
  }

  /** `order` visits each entry of the table exactly once. */
  ghost predicate Enumerates(order: seq<Digest>, links: Table) {
    && (forall h :: h in order <==> h in links)
    && (forall i, j :: 0 <= i < j < |order| ==> order[i] != order[j])
  }

  /** What the fold knows after visiting `order`. No step overwrites another, because entries with
      one triple share one key. */
  lemma {:induction false} ActorLinksLookup(links: Table, order: seq<Digest>, actor: string, c: string, n: string)
    requires TableOk(links)
    requires forall h :: h in order ==> h in links
    ensures var h := LinkdefHash(Triple(actor, c, n));
            Lookup(ActorLinks(links, order, actor), c, n) ==
            if h in order then TableEntity(links, Triple(actor, c, n)) else None
  {
    if order != [] {
      var last := order[|order| - 1];
      var init := order[..|order| - 1];
      ActorLinksLookup(links, init, actor, c, n);
      assert order == init + [last];
      assert last == LinkdefHash(TripleOf(links[last]));
    }
  }

  /** The contracts the fold opens are exactly those of the visited definitions of the actor. */
  lemma {:induction false} ActorLinksContracts(links: Table, order: seq<Digest>, actor: string, c: string)
    requires forall h :: h in order ==> h in links
    ensures c in ActorLinks(links, order, actor) <==>
            exists h :: h in order && links[h].actorId == actor && links[h].contractId == c
  {
    if order != [] {
      var last := order[|order| - 1];
      var init := order[..|order| - 1];
      ActorLinksContracts(links, init, actor, c);
      assert order == init + [last];
      assert forall h :: h in order <==> h in init || h == last;
    }
  }

  /** `get_actor_links` is exactly the table's function (contract, link name) -> provider for the actor. */
  lemma ActorLinksExact(links: Table, order: seq<Digest>, actor: string)
    requires TableOk(links) && Enumerates(order, links)
    ensures forall c, n :: Lookup(ActorLinks(links, order, actor), c, n) == TableEntity(links, Triple(actor, c, n))
  {
    forall c, n
      ensures Lookup(ActorLinks(links, order, actor), c, n) == TableEntity(links, Triple(actor, c, n))
    {
      ActorLinksLookup(links, order, actor, c, n);
    }
  }

  /** The nested map does not depend on the iteration order of the table. */
  lemma ActorLinksOrderIndependent(links: Table, order: seq<Digest>, order': seq<Digest>, actor: string)
    requires TableOk(links) && Enumerates(order, links) && Enumerates(order', links)
    ensures ActorLinks(links, order, actor) == ActorLinks(links, order', actor)
  {
    var a, b := ActorLinks(links, order, actor), ActorLinks(links, order', actor);
    ActorLinksExact(links, order, actor);
    ActorLinksExact(links, order', actor);
    forall c ensures c in a <==> c in b {
      ActorLinksContracts(links, order, actor, c);
      ActorLinksContracts(links, order', actor, c);
    }
    forall c | c in a ensures a[c] == b[c] {
      forall n ensures n in a[c] <==> n in b[c] {
        assert Lookup(a, c, n) == Lookup(b, c, n);
      }
      forall n | n in a[c] ensures a[c][n] == b[c][n] {
        assert Lookup(a, c, n) == Lookup(b, c, n);
      }
    }
  }

  // --- Agreement of a cache with the table ---

  /** The cache of `actor` answers as the table does, except possibly at the triple `exempt`. */
  ghost predicate Agrees(cache: Cache, links: Table, actor: string, exempt: Option<Triple>) {
    forall c, n :: exempt != Some(Triple(actor, c, n)) ==>
      Lookup(cache, c, n) == TableEntity(links, Triple(actor, c, n))
  }

  /** A table insertion under a fresh key changes the answer at its own triple only. */
  lemma InsertChangesOnlyItsTriple(links: Table, ld: LinkDef, t: Triple)
    requires LinkdefHash(TripleOf(ld)) !in links
    ensures var links' := links[LinkdefHash(TripleOf(ld)) := ld];
            Stored(links', t) == if t == TripleOf(ld) then Some(ld) else Stored(links, t)
  {
  }

  /** A removal changes the answer at the triple of the removed definition only. */
  lemma RemoveChangesOnlyItsTriple(links: Table, h: Digest, t: Triple)
    requires TableOk(links) && h in links
    ensures Stored(links - {h}, t) == if t == TripleOf(links[h]) then None else Stored(links, t)
  {
  }

  /** From a table entry changed at `t`, an agreeing cache stays in agreement away from `t`. */
  lemma AgreesAfterTableStep(cache: Cache, links: Table, links': Table, actor: string, t: Triple)
    requires Agrees(cache, links, actor, None)
    requires forall u :: u != t ==> Stored(links', u) == Stored(links, u)
    ensures Agrees(cache, links', actor, Some(t))
  {
    forall c, n | Some(t) != Some(Triple(actor, c, n))
      ensures Lookup(cache, c, n) == TableEntity(links', Triple(actor, c, n))
    {
      assert Stored(links', Triple(actor, c, n)) == Stored(links, Triple(actor, c, n));
    }
  }
}
