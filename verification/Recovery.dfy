/** Rebuilding the link tables after a restart: replaying `add_link` over the persisted Links. */
module Recovery {
  import opened Types
  import opened LinkKeys
  import opened LinkIndex
  import opened Admission
  import opened Resolver
  import opened LinkController

  /** The registrations a list of Links leads to, each looked up through its own API answers; all
      messages are sent. */
  function Registrations(links: seq<Link>, api: Api): seq<Event> {
    if links == [] then []
    else
      var init := Registrations(links[..|links| - 1], api);
      var last := links[|links| - 1];
      match Resolve(last, api)
      case Resolved(ld) => init + [Add(last.name, ld, true)]
      case _ => init
  }

  function Recover(links: seq<Link>, api: Api): Tables {
    Play(Registrations(links, api))
  }

  /** id -> names */
  function NameSets(s: Tables): map<string, set<string>> {
    map id | id in s.entries :: s.entries[id].names
  }

  ghost predicate Persisted(links: seq<Link>) {
    forall l :: l in links ==> Complete(l.status)
  }

  /** Link `l` is registered with definition `ld`. */
  ghost predicate Registers(l: Link, ld: LinkDef) {
    && Complete(l.status) && !(l.spec.linkName == "" && l.spec.provider.key != "")
    && ld == FromStatus(l.spec, l.status.value)
  }

  /** With complete status the registrations are those of the Links, whatever the API server answers. */
  lemma {:induction false} RegistrationsAre(links: seq<Link>, api: Api)
    requires Persisted(links)
    ensures forall e :: e in Registrations(links, api) ==> e.Add? && e.ok
    ensures forall n, ld :: Add(n, ld, true) in Registrations(links, api) <==>
              exists l :: l in links && l.name == n && Registers(l, ld)
  {
    if links != [] {
      var init, last := links[..|links| - 1], links[|links| - 1];
      assert links == init + [last];
      RegistrationsAre(init, api);
      forall n, ld
        ensures Add(n, ld, true) in Registrations(links, api) <==>
                exists l :: l in links && l.name == n && Registers(l, ld)
      {
        if l :| l in links && l.name == n && Registers(l, ld) {
          assert l in init || l == last;
        }
      }
    }
  }

  /** Only adds: the plain relation is membership. */
  lemma {:induction false} ReferringIsMembership(events: seq<Event>, t: Triple, n: string)
    requires forall e :: e in events ==> e.Add?
    ensures n in Referring(events, t) <==> exists e :: e in events && e.name == n && TripleAt(e) == t
  {
    if events != [] {
      var init, last := events[..|events| - 1], events[|events| - 1];
      assert events == init + [last];
      ReferringIsMembership(init, t, n);
    }
  }

  /** Everything in the tables comes from some registration. */
  ghost predicate EntriesComeFrom(s: Tables, events: seq<Event>) {
    forall id :: id in s.entries ==> exists e :: e in events && DottedId(TripleAt(e)) == id
  }

  ghost predicate LinksComeFrom(s: Tables, events: seq<Event>) {
    forall h :: h in s.links ==>
      exists e :: e in events && e.Add? && LinkdefHash(TripleOf(e.ld)) == h && s.links[h] == e.ld
  }

  lemma AddEntriesComeFrom(s: Tables, events: seq<Event>, e: Event)
    requires EntriesComeFrom(s, events) && e.Add?
    ensures EntriesComeFrom(Handle(s, e), events + [e])
  {
    var s', all := Handle(s, e), events + [e];
    assert e in all;
    forall id | id in s'.entries ensures exists x :: x in all && DottedId(TripleAt(x)) == id {
      if id in s.entries {
        var x :| x in events && DottedId(TripleAt(x)) == id;
        assert x in all;
      }
    }
  }

  lemma AddLinksComeFrom(s: Tables, events: seq<Event>, e: Event)
    requires LinksComeFrom(s, events) && e.Add?
    ensures LinksComeFrom(Handle(s, e), events + [e])
  {
    var s', all := Handle(s, e), events + [e];
    assert e in all;
    forall h | h in s'.links
      ensures exists x :: x in all && x.Add? && LinkdefHash(TripleOf(x.ld)) == h && s'.links[h] == x.ld
    {
      if h in s.links {
        var x :| x in events && x.Add? && LinkdefHash(TripleOf(x.ld)) == h && s.links[h] == x.ld;
        assert x in all;
      }
    }
  }

  lemma {:induction false} PlayComesFrom(events: seq<Event>)
    requires forall e :: e in events ==> e.Add?
    ensures EntriesComeFrom(Play(events), events) && LinksComeFrom(Play(events), events)
  {
    if events != [] {
      var init, last := events[..|events| - 1], events[|events| - 1];
      assert events == init + [last];
      PlayComesFrom(init);
      AddEntriesComeFrom(Play(init), init, last);
      AddLinksComeFrom(Play(init), init, last);
    }
  }

  // --- Order independence ---

  ghost predicate OnlyAdds(events: seq<Event>, u: Universe) {
    u.Valid() && forall e :: e in events ==> e.Add? && e.ok && u.Has(TripleAt(e))
  }

  /** Registrations of one triple agree on provider and values. */
  ghost predicate Consistent(events: seq<Event>) {
    forall d, e :: d in events && e in events && d.Add? && e.Add? && TripleOf(d.ld) == TripleOf(e.ld) ==> d.ld == e.ld
  }

  lemma SameReferring(a: seq<Event>, b: seq<Event>, t: Triple)
    requires forall e :: e in a ==> e.Add?
    requires forall e :: e in a <==> e in b
    ensures Referring(a, t) == Referring(b, t)
  {
    forall n ensures n in Referring(a, t) <==> n in Referring(b, t) {
      ReferringIsMembership(a, t, n);
      ReferringIsMembership(b, t, n);
    }
  }

  /** An entry of one replay is an entry of the other, with the same names. */
  lemma SameEntry(a: seq<Event>, b: seq<Event>, u: Universe, id: string)
    requires OnlyAdds(a, u) && OnlyAdds(b, u) && (forall e :: e in a <==> e in b)
    requires id in Play(a).entries
    ensures id in Play(b).entries && Play(a).entries[id].names == Play(b).entries[id].names
  {
    PlayComesFrom(a);
    var e :| e in a && DottedId(TripleAt(e)) == id;
    RefCountingRefinesRelation(a, u, TripleAt(e));
    RefCountingRefinesRelation(b, u, TripleAt(e));
    SameReferring(a, b, TripleAt(e));
  }

  /** A definition the host has after one replay it also has after the other. */
  lemma SameDefinition(a: seq<Event>, b: seq<Event>, u: Universe, h: Digest)
    requires OnlyAdds(a, u) && OnlyAdds(b, u) && (forall e :: e in a <==> e in b) && Consistent(a)
    requires h in Play(a).links
    ensures h in Play(b).links && Play(a).links[h] == Play(b).links[h]
  {
    PlayComesFrom(a);
    PlayComesFrom(b);
    var e :| e in a && e.Add? && LinkdefHash(TripleOf(e.ld)) == h && Play(a).links[h] == e.ld;
    var t := TripleOf(e.ld);
    RefCountingRefinesRelation(a, u, t);
    RefCountingRefinesRelation(b, u, t);
    SameReferring(a, b, t);
    assert h in Play(b).links;
    var f :| f in b && f.Add? && LinkdefHash(TripleOf(f.ld)) == h && Play(b).links[h] == f.ld;
  }

  lemma ReplayOrderIndependent(a: seq<Event>, b: seq<Event>, u: Universe)
    requires OnlyAdds(a, u) && OnlyAdds(b, u) && (forall e :: e in a <==> e in b)
    ensures NameSets(Play(a)) == NameSets(Play(b))
    ensures Consistent(a) ==> Play(a).links == Play(b).links
  {
    var s, s' := Play(a), Play(b);
    forall id ensures id in s.entries <==> id in s'.entries {
      if id in s.entries { SameEntry(a, b, u, id); }
      if id in s'.entries { SameEntry(b, a, u, id); }
    }
    forall id | id in s.entries ensures s.entries[id].names == s'.entries[id].names {
      SameEntry(a, b, u, id);
    }
    if Consistent(a) {
      forall h ensures h in s.links <==> h in s'.links {
        if h in s.links { SameDefinition(a, b, u, h); }
        if h in s'.links { SameDefinition(b, a, u, h); }
      }
      forall h | h in s.links ensures s.links[h] == s'.links[h] {
        SameDefinition(a, b, u, h);
      }
    }
  }

  /** Links of one triple are registered with one definition. */
  ghost predicate Agreeing(links: seq<Link>) {
    forall l, m, ld, md :: l in links && m in links && Registers(l, ld) && Registers(m, md) ==>
      TripleOf(ld) == TripleOf(md) ==> ld == md
  }

  /** Restart recovery does not depend on the order: replaying `add_link` from empty tables over any two
      orders of the same Links with complete status, whatever the API server answers meanwhile, rebuilds
      the same id -> names map, and the same host table when Links of one triple agree. */
  lemma RecoveryOrderIndependent(links: seq<Link>, links': seq<Link>, api: Api, api': Api, u: Universe)
    requires multiset(links) == multiset(links') && Persisted(links) && u.Valid()
    requires forall l, ld :: l in links && Registers(l, ld) ==> u.Has(TripleOf(ld))
    ensures NameSets(Recover(links, api)) == NameSets(Recover(links', api'))
    ensures Agreeing(links) ==> Recover(links, api).links == Recover(links', api').links
  {
    forall l ensures l in links <==> l in links' {
      assert l in links <==> l in multiset(links);
      assert l in links' <==> l in multiset(links');
    }
    var a, b := Registrations(links, api), Registrations(links', api');
    RegistrationsAre(links, api);
    RegistrationsAre(links', api');
    SameRegistrations(links, links', api, api');
    forall e | e in a ensures u.Has(TripleAt(e)) {
      assert Add(e.name, e.ld, true) in a;
    }
    ReplayOrderIndependent(a, b, u);
    if Agreeing(links) {
      forall d, e | d in a && e in a && TripleOf(d.ld) == TripleOf(e.ld) ensures d.ld == e.ld {
        assert Add(d.name, d.ld, true) in a && Add(e.name, e.ld, true) in a;
      }
    }
  }

  lemma SameRegistrations(links: seq<Link>, links': seq<Link>, api: Api, api': Api)
    requires Persisted(links) && (forall l :: l in links <==> l in links')
    ensures forall e :: e in Registrations(links, api) <==> e in Registrations(links', api')
  {
    RegistrationsAre(links, api);
    RegistrationsAre(links', api');
    forall e ensures e in Registrations(links, api) <==> e in Registrations(links', api') {
      if e in Registrations(links, api) || e in Registrations(links', api') {
        assert e == Add(e.name, e.ld, true);
      }
    }
  }

  // --- Agreement is needed ---

  /** The first registration of a triple keeps its definition, whatever is registered after it. */
  lemma {:induction false} FirstRegistrationSticks(e: Event, later: seq<Event>)
    requires e.Add? && e.ok && forall x :: x in later ==> x.Add?
    ensures var s, id, h := Play([e] + later), DottedId(TripleOf(e.ld)), LinkdefHash(TripleOf(e.ld));
            h in s.links && s.links[h] == e.ld && id in s.entries && s.entries[id].ld == e.ld
  {
    var all := [e] + later;
    if later == [] {
      assert all[..|all| - 1] == [];
    } else {
      var init := later[..|later| - 1];
      FirstRegistrationSticks(e, init);
      assert all[..|all| - 1] == [e] + init;
    }
  }

  lemma {:induction false} RegistrationsFrom(l: Link, ld: LinkDef, rest: seq<Link>, api: Api)
    requires Registers(l, ld)
    ensures Registrations([l] + rest, api) == [Add(l.name, ld, true)] + Registrations(rest, api)
  {
    var all := [l] + rest;
    if rest == [] {
      assert all[..|all| - 1] == [];
    } else {
      RegistrationsFrom(l, ld, rest[..|rest| - 1], api);
      assert all[..|all| - 1] == [l] + rest[..|rest| - 1];
    }
  }

  lemma MoveToFront(links: seq<Link>, l: Link) returns (rest: seq<Link>)
    requires l in links
    ensures multiset([l] + rest) == multiset(links)
  {
    var i :| 0 <= i < |links| && links[i] == l;
    rest := links[..i] + links[i + 1..];
    assert links == links[..i] + [l] + links[i + 1..];
  }

  /** Any registered Link can be the one whose definition the host ends up with. */
  lemma SomeOrderPrefers(links: seq<Link>, l: Link, ld: LinkDef, api: Api) returns (order: seq<Link>)
    requires Persisted(links) && l in links && Registers(l, ld)
    ensures multiset(order) == multiset(links)
    ensures var h := LinkdefHash(TripleOf(ld)); h in Recover(order, api).links && Recover(order, api).links[h] == ld
  {
    var rest := MoveToFront(links, l);
    order := [l] + rest;
    forall x | x in rest ensures Complete(x.status) {
      assert x in multiset(order);
    }
    RegistrationsFrom(l, ld, rest, api);
    RegistrationsAre(rest, api);
    FirstRegistrationSticks(Add(l.name, ld, true), Registrations(rest, api));
  }

  /** All orders of the Links rebuild one host table. */
  ghost predicate OneTable(links: seq<Link>, api: Api, api': Api) {
    forall a, b :: multiset(a) == multiset(links) && multiset(b) == multiset(links) ==>
      Recover(a, api).links == Recover(b, api').links
  }

  /** Whatever the API server answers, all orders of the Links rebuild one host table if and only if Links of
      one triple agree. */
  lemma RecoveryExactlyWhen(links: seq<Link>, api: Api, api': Api, u: Universe)
    requires Persisted(links) && u.Valid()
    requires forall l, ld :: l in links && Registers(l, ld) ==> u.Has(TripleOf(ld))
    ensures OneTable(links, api, api') <==> Agreeing(links)
  {
    if Agreeing(links) {
      forall a, b | multiset(a) == multiset(links) && multiset(b) == multiset(links)
        ensures Recover(a, api).links == Recover(b, api').links
      {
        forall l ensures l in a <==> l in links {
          assert l in a <==> l in multiset(a);
          assert l in links <==> l in multiset(links);
        }
        RecoveryOrderIndependent(a, b, api, api', u);
      }
    } else {
      DisagreeingOrders(links, api, api');
    }
  }

  lemma DisagreeingOrders(links: seq<Link>, api: Api, api': Api)
    requires Persisted(links) && !Agreeing(links)
    ensures !OneTable(links, api, api')
  {
    var l, m, ld, md :| l in links && m in links && Registers(l, ld) && Registers(m, md) &&
                        TripleOf(ld) == TripleOf(md) && ld != md;
    var a := SomeOrderPrefers(links, l, ld, api);
    var b := SomeOrderPrefers(links, m, md, api');
    assert Recover(a, api).links != Recover(b, api').links;
  }

  /** The smallest case: two Links of one triple, either one first. */
  lemma FirstOneWins(n: string, m: string, ld: LinkDef, md: LinkDef)
    requires TripleOf(ld) == TripleOf(md) && ld != md
    ensures var a, b := [Add(n, ld, true), Add(m, md, true)], [Add(m, md, true), Add(n, ld, true)];
            NameSets(Play(a)) == NameSets(Play(b)) && Play(a).links != Play(b).links
  {
    var x, y := Add(n, ld, true), Add(m, md, true);
    var h, id := LinkdefHash(TripleOf(ld)), DottedId(TripleOf(ld));
    PlayTwo(x, y);
    PlayTwo(y, x);
    assert {n} + {m} == {m} + {n};
    assert Play([x, y]).links[h] == ld && Play([y, x]).links[h] == md;
  }

  lemma PlayTwo(x: Event, y: Event)
    ensures Play([x, y]) == Handle(Handle(EMPTY, x), y)
  {
    assert [x][..0] == [] && Play([x]) == Handle(EMPTY, x);
    assert [x, y][..1] == [x];
  }
}
