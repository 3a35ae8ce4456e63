/** The two keys a link definition is stored under: the dotted id of the controller's table
    and the hash of an unseparated concatenation of the host's table. */
module LinkKeys {
  import opened Types

  /** SHA-256 (section 6.2 of FIPS 180-4) taken as injective: a digest is as good as its preimage. */
  datatype Digest = Sha256(preimage: string)

  function LinkdefHash(t: Triple): Digest {
    Sha256(t.actor + t.contract + t.link)
  }

  function DottedId(t: Triple): string {
    t.contract + "." + t.actor + "." + t.link
  }

  /** The triples over which both keys are meant to be used: keys of one length, a prefix-free
      set of contracts, and no dot in an actor key or a link name. */
  datatype Universe = Universe(keyLength: nat, contracts: set<string>) {
    ghost predicate Valid() {
      forall c, d :: c in contracts && d in contracts && c <= d ==> c == d
    }

    ghost predicate Has(t: Triple) {
      && |t.actor| == keyLength
      && t.contract in contracts
      && DotFree(t.actor)
      && DotFree(t.link)
    }
  }

  // --- The dotted id ---

  /** In a string built around a dot and ending dot-free, that dot is the last one. */
  lemma LastDot(a: string, b: string)
    requires DotFree(b)
    ensures (a + "." + b)[|a|] == '.'
    ensures forall i :: |a| < i < |a + "." + b| ==> (a + "." + b)[i] != '.'
  {
    var s := a + "." + b;
    forall i | |a| < i < |s| ensures s[i] != '.' {
      assert s[i] == b[i - |a| - 1];
    }
  }

  /** Splitting at the last dot is unambiguous. */
  lemma LastDotSplit(a: string, b: string, c: string, d: string)
    requires a + "." + b == c + "." + d
    requires DotFree(b) && DotFree(d)
    ensures a == c && b == d
  {
    LastDot(a, b);
    LastDot(c, d);
    assert |a| == |c|;
    assert a == (a + "." + b)[..|a|] == (c + "." + d)[..|c|] == c;
    assert b == (a + "." + b)[|a| + 1..] == (c + "." + d)[|c| + 1..] == d;
  }

  lemma DottedIdInjective(t: Triple, u: Triple)
    requires DotFree(t.actor) && DotFree(t.link) && DotFree(u.actor) && DotFree(u.link)
    ensures DottedId(t) == DottedId(u) <==> t == u
  {
    if DottedId(t) == DottedId(u) {
      LastDotSplit(t.contract + "." + t.actor, t.link, u.contract + "." + u.actor, u.link);
      LastDotSplit(t.contract, t.actor, u.contract, u.actor);
    }
  }

  /** Each dot-freeness condition is needed: every dotted actor key, and every dotted link name,
      gives an id that a different triple also has. */
  lemma DottedIdNeedsDotFree(contract: string, x: string, y: string, z: string)
    ensures DottedId(Triple(x + "." + y, contract, z)) == DottedId(Triple(y, contract + "." + x, z))
    ensures Triple(x + "." + y, contract, z) != Triple(y, contract + "." + x, z)
    ensures DottedId(Triple(x, contract, y + "." + z)) == DottedId(Triple(y, contract + "." + x, z))
    ensures Triple(x, contract, y + "." + z) != Triple(y, contract + "." + x, z)
  {
    assert contract + "." + (x + "." + y) + "." + z == contract + "." + x + "." + y + "." + z;
    assert contract + "." + x + "." + (y + "." + z) == contract + "." + x + "." + y + "." + z;
    assert |x + "." + y| > |y|;
    assert |y + "." + z| > |z|;
  }

  // --- The hash of the concatenation ---

  /** u's contract extends t's, and t's link name makes up for the difference. */
  predicate Shifted(t: Triple, u: Triple) {
    && t.contract <= u.contract
    && t.link == u.contract[|t.contract|..] + u.link
  }

  /** For keys of one length, exactly the shifted triples of one actor share a hash. */
  lemma HashCollisions(t: Triple, u: Triple)
    requires |t.actor| == |u.actor|
    ensures LinkdefHash(t) == LinkdefHash(u) <==> t.actor == u.actor && (Shifted(t, u) || Shifted(u, t))
  {
    var p, q := t.actor + t.contract + t.link, u.actor + u.contract + u.link;
    if p == q {
      assert t.actor == p[..|t.actor|] && u.actor == q[..|u.actor|];
      ShiftedTails(t, u);
    }
    if t.actor == u.actor && Shifted(t, u) {
      assert u.contract == t.contract + u.contract[|t.contract|..];
      assert p == q;
    }
    if t.actor == u.actor && Shifted(u, t) {
      assert t.contract == u.contract + t.contract[|u.contract|..];
      assert p == q;
    }
  }

  lemma ShiftedTails(t: Triple, u: Triple)
    requires t.actor == u.actor
    requires t.actor + t.contract + t.link == u.actor + u.contract + u.link
    ensures Shifted(t, u) || Shifted(u, t)
  {
    var n := |t.actor|;
    var p, q := t.contract + t.link, u.contract + u.link;
    assert p == (t.actor + t.contract + t.link)[n..];
    assert q == (u.actor + u.contract + u.link)[n..];
    assert p == q;
    if |t.contract| <= |u.contract| {
      assert t.contract == p[..|t.contract|] == q[..|t.contract|] == u.contract[..|t.contract|];
      assert t.link == p[|t.contract|..] == q[|t.contract|..];
    } else {
      assert u.contract == q[..|u.contract|] == p[..|u.contract|] == t.contract[..|u.contract|];
      assert u.link == q[|u.contract|..] == p[|u.contract|..];
    }
  }

  /** Prefix-freeness is needed: as soon as one contract extends another, every actor and every
      link name give two triples with one hash. */
  lemma HashNeedsPrefixFree(actor: string, c: string, d: string, link: string)
    requires c < d
    ensures LinkdefHash(Triple(actor, c, d[|c|..] + link)) == LinkdefHash(Triple(actor, d, link))
    ensures Triple(actor, c, d[|c|..] + link) != Triple(actor, d, link)
  {
    HashCollisions(Triple(actor, c, d[|c|..] + link), Triple(actor, d, link));
  }

  /** Equal key lengths are needed too: a longer actor key can swallow the start of a contract. */
  lemma HashNeedsEqualLength(actor: string, x: string, contract: string, link: string)
    requires x != ""
    ensures LinkdefHash(Triple(actor + x, contract, link)) == LinkdefHash(Triple(actor, x + contract, link))
    ensures Triple(actor + x, contract, link) != Triple(actor, x + contract, link)
  {
    assert actor + x + contract + link == actor + (x + contract) + link;
    assert |actor + x| > |actor|;
  }

  // --- Both keys together ---

  /** On a universe the two tables' keys identify exactly the same triples. */
  lemma KeysAgree(u: Universe, s: Triple, t: Triple)
    requires u.Valid() && u.Has(s) && u.Has(t)
    ensures DottedId(s) == DottedId(t) <==> s == t
    ensures LinkdefHash(s) == LinkdefHash(t) <==> s == t
  {
    DottedIdInjective(s, t);
    HashCollisions(s, t);
  }
}
