/** Link objects and the webhook that admits them. */
module Admission {
  import opened Types

  datatype Source = Source(key: string, name: string)

  datatype LinkSpec = LinkSpec(
    linkName: string,
    provider: Source,
    actor: Source,
    contractId: string,
    values: map<string, string>)

  datatype LinkStatus = LinkStatus(providerKey: string, actorKey: string, linkName: string, conditions: seq<string>)

  datatype Link = Link(name: string, spec: LinkSpec, status: Option<LinkStatus>)

  datatype FieldError = ActorRequired | ProviderRequired | LinkNameRequired | SpecChanged

  /** The actor is named somehow, the provider is named somehow, and a provider given by key alone
      comes with a link name. */
  predicate Admissible(spec: LinkSpec) {
    && (spec.actor.key != "" || spec.actor.name != "")
    && (spec.provider.name != "" || (spec.provider.key != "" && spec.linkName != ""))
  }

  /** `validate`: appends one error per missing part. */
  method Validate(spec: LinkSpec) returns (errors: seq<FieldError>)
    ensures errors == [] <==> Admissible(spec)
    ensures ActorRequired in errors <==> spec.actor == Source("", "")
    ensures ProviderRequired in errors <==> spec.provider == Source("", "")
    ensures LinkNameRequired in errors <==> spec.provider.key != "" && spec.provider.name == "" && spec.linkName == ""
    ensures SpecChanged !in errors
  {
    errors := [];
    if spec.actor.key == "" && spec.actor.name == "" {
      errors := errors + [ActorRequired];
    }
    if spec.provider.key == "" && spec.provider.name == "" {
      errors := errors + [ProviderRequired];
    } else if spec.provider.name == "" && spec.linkName == "" {
      errors := errors + [LinkNameRequired];
    }
  }

  /** What `ValidateUpdate` lets through. */
  predicate UpdateAdmitted(before: LinkSpec, after: LinkSpec) {
    after == before && Admissible(after)
  }

  method ValidateUpdate(before: LinkSpec, after: LinkSpec) returns (errors: seq<FieldError>)
    ensures errors == [] <==> UpdateAdmitted(before, after)
    ensures errors == [] <==> after == before && Admissible(after)
    ensures SpecChanged in errors <==> after != before
    ensures after == before ==>
              && (ActorRequired in errors <==> after.actor == Source("", ""))
              && (ProviderRequired in errors <==> after.provider == Source("", ""))
              && (LinkNameRequired in errors <==>
                  after.provider.key != "" && after.provider.name == "" && after.linkName == "")
  {
    if after != before {
      return [SpecChanged];
    }
    errors := Validate(after);
  }

  /** The specs one object goes through: an admitted creation, then admitted updates. */
  ghost predicate History(specs: seq<LinkSpec>) {
    && specs != []
    && Admissible(specs[0])
    && forall i :: 0 < i < |specs| ==> UpdateAdmitted(specs[i - 1], specs[i])
  }

  /** Along any history of one object the spec never changes. */
  lemma {:induction false} SpecNeverChanges(specs: seq<LinkSpec>, i: nat)
    requires History(specs) && i < |specs|
    ensures specs[i] == specs[0] && Admissible(specs[i])
  {
    if i > 0 {
      SpecNeverChanges(specs, i - 1);
      assert UpdateAdmitted(specs[i - 1], specs[i]);
    }
  }
}
