/** How `add_link` turns a Link object into a link definition. */
module Resolver {
  import opened Types
  import opened LinkKeys
  import opened Admission

  datatype ActorObject = ActorObject(publicKey: Option<string>)
  datatype ProviderObject = ProviderObject(link: string, publicKey: Option<string>)

  /** What the API server answers; a name that is not there stands for a failed request. */
  datatype Api = Api(actors: map<string, ActorObject>, providers: map<string, ProviderObject>) {
    /** The provider schema demands a non-empty link name. */
    ghost predicate Valid() {
      forall n :: n in providers ==> providers[n].link != ""
    }
  }

  datatype Reason = SetLinkName | ActorEmpty | ProviderEmpty | LinkMismatch

  datatype Resolution =
    | Resolved(ld: LinkDef)
    | AwaitChange(reason: Reason)
    | Requeue(seconds: nat)

  predicate Complete(status: Option<LinkStatus>) {
    status.Some? && status.value.providerKey != "" && status.value.actorKey != "" && status.value.linkName != ""
  }

  /** The resolver as the source runs it: a definition filled in step by step, with early exits. */
  method ResolveLink(link: Link, api: Api) returns (r: Resolution)
    ensures r == Resolve(link, api)
  {
    var spec := link.spec;
    var ld := LinkDef("", "", spec.contractId, "", spec.values);
    if spec.linkName != "" {
      ld := ld.(linkName := spec.linkName);
    } else if spec.provider.key != "" {
      return AwaitChange(SetLinkName);
    }

    if link.status.Some? {
      var status := link.status.value;
      if status.providerKey != "" && status.actorKey != "" && status.linkName != "" {
        ld := ld.(actorId := status.actorKey);
        ld := ld.(providerId := status.providerKey);
        ld := ld.(linkName := status.linkName);
      }
    }

    if ld.actorId == "" {
      var key, name := spec.actor.key, spec.actor.name;
      if key != "" {
        ld := ld.(actorId := key);
      } else if name != "" {
        if name in api.actors {
          var actor := api.actors[name];
          if actor.publicKey.Some? {
            if actor.publicKey.value == "" {
              return Requeue(10);
            } else {
              ld := ld.(actorId := actor.publicKey.value);
            }
          } else {
            return Requeue(10);
          }
        } else {
          return Requeue(60);
        }
      } else {
        return AwaitChange(ActorEmpty);
      }
    }

    if ld.providerId == "" || ld.linkName == "" {
      var key, name := spec.provider.key, spec.provider.name;
      if name != "" {
        if name in api.providers {
          var provider := api.providers[name];
          if ld.linkName != "" && ld.linkName != provider.link {
            return AwaitChange(LinkMismatch);
          }
          if provider.publicKey.Some? {
            if provider.publicKey.value == "" {
              return Requeue(10);
            } else if key != "" && provider.publicKey.value != key {
              return Requeue(10);
            } else {
              ld := ld.(providerId := provider.publicKey.value);
              ld := ld.(linkName := provider.link);
            }
          } else {
            return Requeue(10);
          }
        } else {
          return Requeue(60);
        }
      } else if key != "" {
        ld := ld.(providerId := key);
      } else {
        return AwaitChange(ProviderEmpty);
      }
    }
    r := Resolved(ld);
  }

  // --- The same, as a function: a sticky status, or else actor first and provider second ---

  /** A public key an object has published, if any. */
  function Published(key: Option<string>): Option<string> {
    if key.Some? && key.value != "" then key else None
  }

  function ResolveActor(spec: LinkSpec, api: Api): Resolution {
    var blank := LinkDef("", "", spec.contractId, spec.linkName, spec.values);
    if spec.actor.key != "" then Resolved(blank.(actorId := spec.actor.key))
    else if spec.actor.name == "" then AwaitChange(ActorEmpty)
    else if spec.actor.name !in api.actors then Requeue(60)
    else
      match Published(api.actors[spec.actor.name].publicKey)
      case Some(key) => Resolved(blank.(actorId := key))
      case None => Requeue(10)
  }

  function ResolveProvider(spec: LinkSpec, api: Api, ld: LinkDef): Resolution {
    var name := spec.provider.name;
    if name == "" then
      if spec.provider.key != "" then Resolved(ld.(providerId := spec.provider.key)) else AwaitChange(ProviderEmpty)
    else if name !in api.providers then Requeue(60)
    else
      var provider := api.providers[name];
      if spec.linkName != "" && spec.linkName != provider.link then AwaitChange(LinkMismatch)
      else
        match Published(provider.publicKey)
        case Some(key) =>
          if spec.provider.key != "" && key != spec.provider.key then Requeue(10)
          else Resolved(ld.(providerId := key, linkName := provider.link))
        case None => Requeue(10)
  }

  function Resolve(link: Link, api: Api): Resolution {
    var spec := link.spec;
    if spec.linkName == "" && spec.provider.key != "" then AwaitChange(SetLinkName)
    else if Complete(link.status) then Resolved(FromStatus(spec, link.status.value))
    else
      match ResolveActor(spec, api)
      case Resolved(ld) => ResolveProvider(spec, api, ld)
      case other => other
  }

  function FromStatus(spec: LinkSpec, status: LinkStatus): LinkDef {
    LinkDef(status.actorKey, status.providerKey, spec.contractId, status.linkName, spec.values)
  }

  /** The status `add_link` writes. */
  function StatusOf(ld: LinkDef): LinkStatus {
    LinkStatus(ld.providerId, ld.actorId, ld.linkName, [])
  }

  /** The triple `delete_link` works on, when it works at all. */
  function DeletedTriple(link: Link): Option<Triple> {
    if Complete(link.status) then
      Some(Triple(link.status.value.actorKey, link.spec.contractId, link.status.value.linkName))
    else None
  }

  // --- What a resolution means ---

  /** `key` is what an actor source stands for. */
  predicate ActorIs(source: Source, api: Api, key: string) {
    && key != ""
    && if source.key != "" then key == source.key
       else source.name != "" && source.name in api.actors && api.actors[source.name].publicKey == Some(key)
  }

  /** Provider `key` at link name `link` is what a provider source and a wished link name stand for. */
  predicate ProviderIs(source: Source, wished: string, api: Api, key: string, link: string) {
    && key != ""
    && (source.key != "" ==> key == source.key)
    && (wished != "" ==> link == wished)
    && (source.key != "" ==> wished != "")
    && (source.name == "" ==> source.key != "")
    && (source.name != "" ==>
          source.name in api.providers && api.providers[source.name] == ProviderObject(link, Some(key)))
  }

  /** The definition a Link stands for: what its complete status says, otherwise what its sources
      stand for; contract and values always come from the spec. */
  predicate Denotes(link: Link, api: Api, ld: LinkDef) {
    && ld.contractId == link.spec.contractId
    && ld.values == link.spec.values
    && !(link.spec.linkName == "" && link.spec.provider.key != "")
    && if Complete(link.status) then
         link.status.value.actorKey == ld.actorId && link.status.value.providerKey == ld.providerId &&
         link.status.value.linkName == ld.linkName
       else
         ActorIs(link.spec.actor, api, ld.actorId) &&
         ProviderIs(link.spec.provider, link.spec.linkName, api, ld.providerId, ld.linkName)
  }

  /** `add_link` reaches registration exactly with the definition the Link stands for. */
  lemma ResolvesWhatItDenotes(link: Link, api: Api, ld: LinkDef)
    ensures Resolve(link, api) == Resolved(ld) <==> Denotes(link, api, ld)
  {
    if !Complete(link.status) && Denotes(link, api, ld) {
      assert ResolveActor(link.spec, api).Resolved?;
    }
  }

  /** Whenever `add_link` registers, all parts of the definition are set, so the status it writes makes
      `delete_link` find the same triple. */
  lemma RegisteredIsComplete(link: Link, api: Api)
    requires api.Valid() && Resolve(link, api).Resolved?
    ensures var ld := Resolve(link, api).ld;
            && ld.actorId != "" && ld.providerId != "" && ld.linkName != ""
            && DeletedTriple(link.(status := Some(StatusOf(ld)))) == Some(TripleOf(ld))
  {
  }

  /** For admitted specs the "actor is empty" and "provider is empty" exits cannot be taken, and the
      "set link name" exit is taken exactly when provider key and name are given without a link name. */
  lemma AdmittedExits(link: Link, api: Api)
    requires Admissible(link.spec)
    ensures Resolve(link, api) != AwaitChange(ActorEmpty)
    ensures Resolve(link, api) != AwaitChange(ProviderEmpty)
    ensures Resolve(link, api) == AwaitChange(SetLinkName) <==>
            link.spec.provider.key != "" && link.spec.provider.name != "" && link.spec.linkName == ""
  {
  }

  // --- When a Link is tried again, and when it waits for a change ---

  /** Neither refused outright nor decided by a complete status. */
  predicate Open(link: Link) {
    !(link.spec.linkName == "" && link.spec.provider.key != "") && !Complete(link.status)
  }

  predicate HasKey(key: Option<string>) {
    key.Some? && key.value != ""
  }

  /** The actor side stands for some key. */
  predicate ActorFound(spec: LinkSpec, api: Api) {
    || spec.actor.key != ""
    || (spec.actor.name != "" && spec.actor.name in api.actors && HasKey(api.actors[spec.actor.name].publicKey))
  }

  /** A Link is tried again after a minute exactly when an object it names cannot be fetched, and after ten
      seconds exactly when such an object has no public key yet or the provider's is not the one given; it
      is never tried again otherwise. The actor is looked at first. */
  lemma RetriesExactly(link: Link, api: Api)
    ensures var actor, provider := link.spec.actor, link.spec.provider;
            var wished := link.spec.linkName;
            var r := Resolve(link, api);
            && (r == Requeue(60) <==>
                && Open(link)
                && if ActorFound(link.spec, api) then provider.name != "" && provider.name !in api.providers
                   else actor.name != "" && actor.name !in api.actors)
            && (r == Requeue(10) <==>
                && Open(link)
                && if ActorFound(link.spec, api) then
                     && provider.name != "" && provider.name in api.providers
                     && var p := api.providers[provider.name];
                        && (wished == "" || wished == p.link)
                        && (!HasKey(p.publicKey) || (provider.key != "" && p.publicKey != Some(provider.key)))
                   else actor.name != "" && actor.name in api.actors)
            && (r.Requeue? ==> r.seconds == 10 || r.seconds == 60)
  {
  }

  /** The exits that wait for the Link object itself to change. */
  lemma WaitsExactly(link: Link, api: Api)
    ensures var actor, provider := link.spec.actor, link.spec.provider;
            var wished := link.spec.linkName;
            var r := Resolve(link, api);
            && (r == AwaitChange(SetLinkName) <==> wished == "" && provider.key != "")
            && (r == AwaitChange(ActorEmpty) <==> Open(link) && actor == Source("", ""))
            && (r == AwaitChange(ProviderEmpty) <==>
                Open(link) && ActorFound(link.spec, api) && provider == Source("", ""))
            && (r == AwaitChange(LinkMismatch) <==>
                && Open(link) && ActorFound(link.spec, api)
                && provider.name != "" && provider.name in api.providers
                && wished != "" && wished != api.providers[provider.name].link)
  {
  }

  /** Once a registered Link's status is written, every later resolution, whatever the API server then
      answers and along every admitted history of the object, gives the same definition and the same
      status, and deletion finds the same triple. */
  lemma StickyResolution(link: Link, api: Api, specs: seq<LinkSpec>, i: nat, api': Api)
    requires api.Valid() && Resolve(link, api).Resolved?
    requires History(specs) && specs[0] == link.spec && i < |specs|
    ensures var ld := Resolve(link, api).ld;
            var later := Link(link.name, specs[i], Some(StatusOf(ld)));
            && Resolve(later, api') == Resolved(ld)
            && StatusOf(ld) == later.status.value
            && DeletedTriple(later) == Some(TripleOf(ld))
  {
    SpecNeverChanges(specs, i);
    RegisteredIsComplete(link, api);
  }
}
