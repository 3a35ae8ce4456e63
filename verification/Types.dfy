/** Values shared by every part of the host model. */
module Types {
  datatype Option<+T> = None | Some(value: T) {
    function GetOr(default: T): T {
      if None? then default else value
    }
  }

  /** A link definition, as the control interface carries it. */
  datatype LinkDef = LinkDef(
    actorId: string,
    providerId: string,
    contractId: string,
    linkName: string,
    values: map<string, string>)

  /** What identifies a link definition: actor key, contract id and link name. */
  datatype Triple = Triple(actor: string, contract: string, link: string)

  /** A callable entity: a provider behind a link, or an actor (empty contract and link). */
  datatype Entity = Entity(publicKey: string, linkName: string, contractId: string)

  function TripleOf(ld: LinkDef): Triple {
    Triple(ld.actorId, ld.contractId, ld.linkName)
  }

  function EntityOf(ld: LinkDef): Entity {
    Entity(ld.providerId, ld.linkName, ld.contractId)
  }

  predicate DotFree(s: string) {
    '.' !in s
  }
}
