/** The controller context: its table of Links, the host it drives, and the two Link handlers. */
module Controller {
  import opened Types
  import opened LinkKeys
  import opened LinkIndex
  import opened Admission
  import opened Resolver
  import opened LinkController
  import opened Hosts

  /** The status to write, unless it is already there. */
  function PatchFor(link: Link, ld: LinkDef): Option<LinkStatus> {
    if link.status == Some(StatusOf(ld)) then None else Some(StatusOf(ld))
  }

  /** The Link once the patch, if there is one, has been written. */
  function Patched(link: Link, patch: Option<LinkStatus>): Link {
    link.(status := if patch.Some? then patch else link.status)
  }

  /** Once the patch of a registered Link is written, or when none is needed, the Link's status is what
      deletion needs to find the registered triple. */
  lemma PatchedIsComplete(link: Link, api: Api)
    requires api.Valid() && Resolve(link, api).Resolved?
    ensures var ld := Resolve(link, api).ld;
            var later := Patched(link, PatchFor(link, ld));
            && Complete(later.status)
            && later.status == Some(StatusOf(ld))
            && DeletedTriple(later) == Some(TripleOf(ld))
            && later.name == link.name && later.spec == link.spec
  {
    RegisteredIsComplete(link, api);
  }

  /** A first registration of a definition the host does not have, whose message cannot be sent, fails. */
  predicate AddFails(s: Tables, ld: LinkDef, published: bool) {
    DottedId(TripleOf(ld)) !in s.entries && LinkdefHash(TripleOf(ld)) !in s.links && !published
  }

  /** One more event. */
  lemma PlayThen(events: seq<Event>, e: Event)
    ensures Play(events + [e]) == Handle(Play(events), e)
  {
    assert (events + [e])[..|events|] == events;
  }

  class Ctx {
    var entries: map<string, Entry>
    const host: Host
    /** The registrations and cleanups that were handled. */
    ghost var events: seq<Event>

    constructor ()
      ensures Valid() && fresh(host) && events == []
    {
      host := new Host();
      entries, events := map[], [];
    }

    ghost function State(): Tables
      reads this, host
    {
      Tables(entries, host.links)
    }

    /** The tables are what the handled events lead to, so all that is proved of every run of events
        holds of them. */
    ghost predicate Valid()
      reads this, host
    {
      host.Valid() && State() == Play(events)
    }

    /** Reference counting in the object: for a triple about which no publish failed, the entry's names are
        the Links added and not removed, and the host has the definition iff there is an entry. */
    lemma NamesAreReferring(u: Universe, t: Triple)
      requires Valid() && InUniverse(events, u) && u.Has(t) && Untainted(events, t)
      ensures DottedId(t) in entries <==> Referring(events, t) != {}
      ensures DottedId(t) in entries ==> entries[DottedId(t)].names == Referring(events, t)
      ensures LinkdefHash(t) in host.links <==> DottedId(t) in entries
    {
      RefCountingRefinesRelation(events, u, t);
    }

    /** `add_link`: resolve, register under the dotted id, and say which status to write. */
    method AddLink(link: Link, api: Api, published: bool) returns (patch: Option<LinkStatus>)
      requires Valid()
      modifies this, host
      ensures Valid()
      ensures match Resolve(link, api)
              case Resolved(ld) =>
                && events == old(events) + [Add(link.name, ld, published)]
                && State() == AddStep(old(State()), link.name, ld, published)
                && patch == if AddFails(old(State()), ld, published) then None else PatchFor(link, ld)
              case _ => State() == old(State()) && events == old(events) && patch == None
      ensures api.Valid() && Resolve(link, api).Resolved? ==>
                var ld := Resolve(link, api).ld;
                var id, h := DottedId(TripleOf(ld)), LinkdefHash(TripleOf(ld));
                if id !in old(entries) && h !in old(host.links) && !published then patch == None && id !in entries
                else
                  && id in entries && link.name in entries[id].names
                  && DeletedTriple(Patched(link, patch)) == Some(TripleOf(ld))
                  && (patch == None <==> link.status == Some(LinkStatus(ld.providerId, ld.actorId, ld.linkName, [])))
    {
      if api.Valid() && Resolve(link, api).Resolved? {
        PatchedIsComplete(link, api);
      }
      var r := ResolveLink(link, api);
      if !r.Resolved? {
        return None;
      }
      var ld := r.ld;
      var id := DottedId(TripleOf(ld));
      PlayThen(events, Add(link.name, ld, published));
      events := events + [Add(link.name, ld, published)];
      if id !in entries {
        var ok := host.AddLinkdef(ld, published);
        if !ok {
          return None;
        }
        entries := entries[id := Entry(ld, {link.name})];
      } else {
        var entry := entries[id];
        entries := entries[id := entry.(names := entry.names + {link.name})];
      }
      if link.status == Some(StatusOf(ld)) {
        return None;
      }
      patch := Some(StatusOf(ld));
    }

    /** `delete_link`: drop the reference, and with the last one the definition. */
    method DeleteLink(link: Link, published: bool) returns (requeue: bool)
      requires Valid()
      modifies this, host
      ensures Valid()
      ensures match DeletedTriple(link)
              case Some(t) =>
                && events == old(events) + [Remove(link.name, t, published)]
                && State() == RemoveStep(old(State()), link.name, t, published)
              case None => State() == old(State()) && events == old(events)
      ensures requeue <==>
              && DeletedTriple(link).Some? && DottedId(DeletedTriple(link).value) in old(entries)
              && var entry := old(entries)[DottedId(DeletedTriple(link).value)];
                 entry.names <= {link.name} && !(LinkdefHash(TripleOf(entry.ld)) in old(host.links) && published)
    {
      requeue := false;
      if link.status.Some? {
        var status := link.status.value;
        if status.providerKey != "" && status.actorKey != "" && status.linkName != "" {
          ghost var t := Triple(status.actorKey, link.spec.contractId, status.linkName);
          var id := DottedId(Triple(status.actorKey, link.spec.contractId, status.linkName));
          PlayThen(events, Remove(link.name, t, published));
          events := events + [Remove(link.name, t, published)];
          if id in entries {
            var entry := entries[id];
            var names := entry.names - {link.name};
            entries := entries[id := entry.(names := names)];
            if names == {} {
              var ok := host.DeleteLinkdef(entry.ld, published);
              if !ok {
                return true;
              }
              entries := entries - {id};
            }
          }
        }
      }
    }
  }

  /** The Link as a later event finds it: along its admitted history, with the patch of its registration
      written. */
  function Later(link: Link, ld: LinkDef, spec: LinkSpec): Link {
    Patched(link, PatchFor(link, ld)).(spec := spec)
  }

  /** Sticky resolution is a fixed point: once a Link is registered and the patch returned for it is written,
      every later `add_link`, along every admitted history of the object and whatever the API server
      answers, changes no table and writes nothing. */
  lemma AddLinkIsFixedPoint(s: Tables, link: Link, api: Api, specs: seq<LinkSpec>, i: nat, api': Api, published: bool)
    requires api.Valid() && Resolve(link, api).Resolved?
    requires History(specs) && specs[0] == link.spec && i < |specs|
    requires var id := DottedId(TripleOf(Resolve(link, api).ld)); id in s.entries && link.name in s.entries[id].names
    ensures var later := Later(link, Resolve(link, api).ld, specs[i]);
            && Resolve(later, api').Resolved?
            && AddStep(s, link.name, Resolve(later, api').ld, published) == s
            && PatchFor(later, Resolve(later, api').ld) == None
  {
    PatchedIsComplete(link, api);
    StickyResolution(link, api, specs, i, api');
    AddAgainChangesNothing(s, link.name, Resolve(link, api).ld, published);
  }

  /** Delete undoes add: a Link registered on tables that did not refer to it, then deleted with the
      status the registration asked for, leaves the tables as they were. */
  lemma DeleteLinkUndoesAddLink(s: Tables, link: Link, api: Api, specs: seq<LinkSpec>, i: nat)
    requires api.Valid() && Resolve(link, api).Resolved?
    requires History(specs) && specs[0] == link.spec && i < |specs|
    requires var t := TripleOf(Resolve(link, api).ld);
             if DottedId(t) in s.entries then
               link.name !in s.entries[DottedId(t)].names && s.entries[DottedId(t)].names != {}
             else LinkdefHash(t) !in s.links
    ensures var ld := Resolve(link, api).ld;
            var later := Later(link, ld, specs[i]);
            && DeletedTriple(later).Some?
            && RemoveStep(AddStep(s, link.name, ld, true), link.name, DeletedTriple(later).value, true) == s
  {
    PatchedIsComplete(link, api);
    StickyResolution(link, api, specs, i, api);
    RemoveUndoesAdd(s, link.name, Resolve(link, api).ld);
  }
}
