/** Subject names on the message bus. */
module Topics {
  import opened Types

  datatype Subject =
    | ToActor(lattice: string, key: string)
    | ToProvider(lattice: string, key: string, link: string)
    | Shutdown(lattice: string, key: string, link: string)
    | LinkPut(lattice: string, key: string, link: string)
    | LinkDel(lattice: string, key: string, link: string)

  function Text(s: Subject): string {
    match s
    case ToActor(l, k) => "wasmbus.rpc." + l + "." + k
    case ToProvider(l, k, n) => "wasmbus.rpc." + l + "." + k + "." + n
    case Shutdown(l, k, n) => "wasmbus.rpc." + l + "." + k + "." + n + ".shutdown"
    case LinkPut(l, k, n) => "wasmbus.rpc." + l + "." + k + "." + n + ".linkdefs.put"
    case LinkDel(l, k, n) => "wasmbus.rpc." + l + "." + k + "." + n + ".linkdefs.del"
  }

  function Parts(s: Subject): seq<string> {
    match s
    case ToActor(l, k) => ["wasmbus", "rpc", l, k]
    case ToProvider(l, k, n) => ["wasmbus", "rpc", l, k, n]
    case Shutdown(l, k, n) => ["wasmbus", "rpc", l, k, n, "shutdown"]
    case LinkPut(l, k, n) => ["wasmbus", "rpc", l, k, n, "linkdefs", "put"]
    case LinkDel(l, k, n) => ["wasmbus", "rpc", l, k, n, "linkdefs", "del"]
  }

  predicate Plain(s: Subject) {
    DotFree(s.lattice) && DotFree(s.key) && (!s.ToActor? ==> DotFree(s.link))
  }

  function Join(parts: seq<string>): string
    requires parts != []
  {
    if |parts| == 1 then parts[0] else parts[0] + "." + Join(parts[1..])
  }

  /** In a string that starts dot-free before a dot, that dot is the first one. */
  lemma FirstDot(a: string, b: string)
    requires DotFree(a)
    ensures (a + "." + b)[|a|] == '.'
    ensures forall i :: 0 <= i < |a| ==> (a + "." + b)[i] != '.'
  {
  }

  lemma FirstDotSplit(a: string, b: string, c: string, d: string)
    requires DotFree(a) && DotFree(c) && a + "." + b == c + "." + d
    ensures a == c && b == d
  {
    FirstDot(a, b);
    FirstDot(c, d);
    assert |a| == |c|;
    assert a == (a + "." + b)[..|a|] == (c + "." + d)[..|c|] == c;
    assert b == (a + "." + b)[|a| + 1..] == (c + "." + d)[|c| + 1..] == d;
  }

  /** A dot-free joined text has one part. */
  lemma DotsBetween(parts: seq<string>)
    requires parts != [] && forall p :: p in parts ==> DotFree(p)
    ensures DotFree(Join(parts)) <==> |parts| == 1
  {
    assert parts[0] in parts;
    if |parts| > 1 {
      FirstDot(parts[0], Join(parts[1..]));
    }
  }

  lemma {:induction false} JoinInjective(a: seq<string>, b: seq<string>)
    requires a != [] && b != [] && Join(a) == Join(b)
    requires forall p :: p in a ==> DotFree(p)
    requires forall p :: p in b ==> DotFree(p)
    ensures a == b
  {
    DotsBetween(a);
    DotsBetween(b);
    if |a| > 1 {
      FirstDotSplit(a[0], Join(a[1..]), b[0], Join(b[1..]));
      JoinInjective(a[1..], b[1..]);
      assert a == [a[0]] + a[1..] && b == [b[0]] + b[1..];
    }
  }

  lemma {:induction false} JoinSnoc(parts: seq<string>, last: string)
    requires parts != []
    ensures Join(parts + [last]) == Join(parts) + "." + last
  {
    if |parts| == 1 {
      assert (parts + [last])[1..] == [last];
    } else {
      assert (parts + [last])[1..] == parts[1..] + [last];
      JoinSnoc(parts[1..], last);
    }
  }

  lemma TextIsJoin(s: Subject)
    ensures Text(s) == Join(Parts(s))
  {
    match s {
      case ToActor(l, k) => JoinActor(l, k);
      case ToProvider(l, k, n) => JoinProvider(l, k, n);
      case Shutdown(l, k, n) => JoinShutdown(l, k, n);
      case LinkPut(l, k, n) =>
        JoinProvider(l, k, n);
        JoinLinkdefs(s, Parts(ToProvider(l, k, n)), "put");
        assert ".linkdefs." + "put" == ".linkdefs.put";
      case LinkDel(l, k, n) =>
        JoinProvider(l, k, n);
        JoinLinkdefs(s, Parts(ToProvider(l, k, n)), "del");
        assert ".linkdefs." + "del" == ".linkdefs.del";
    }
  }

  lemma JoinShutdown(l: string, k: string, n: string)
    ensures Text(Shutdown(l, k, n)) == Join(Parts(Shutdown(l, k, n)))
  {
    JoinProvider(l, k, n);
    JoinSnoc(Parts(ToProvider(l, k, n)), "shutdown");
    assert Parts(Shutdown(l, k, n)) == Parts(ToProvider(l, k, n)) + ["shutdown"];
    assert "." + "shutdown" == ".shutdown";
  }

  lemma JoinActor(l: string, k: string)
    ensures Text(ToActor(l, k)) == Join(Parts(ToActor(l, k)))
  {
    var p2 := ["wasmbus", "rpc"];
    assert p2[1..] == ["rpc"];
    assert Join(p2) == "wasmbus.rpc";
    JoinSnoc(p2, l);
    JoinSnoc(p2 + [l], k);
    assert Parts(ToActor(l, k)) == p2 + [l] + [k];
    assert "wasmbus.rpc" + "." == "wasmbus.rpc.";
  }

  lemma JoinProvider(l: string, k: string, n: string)
    ensures Text(ToProvider(l, k, n)) == Join(Parts(ToProvider(l, k, n)))
  {
    JoinActor(l, k);
    JoinSnoc(Parts(ToActor(l, k)), n);
    assert Parts(ToProvider(l, k, n)) == Parts(ToActor(l, k)) + [n];
  }

  lemma JoinLinkdefs(s: Subject, p5: seq<string>, verb: string)
    requires p5 != [] && Parts(s) == p5 + ["linkdefs"] + [verb]
    ensures Join(Parts(s)) == Join(p5) + ".linkdefs." + verb
  {
    JoinSnoc(p5, "linkdefs");
    JoinSnoc(p5 + ["linkdefs"], verb);
    assert "." + "linkdefs" + "." == ".linkdefs.";
  }

  /** Subjects with dot-free components are pairwise distinct, and each determines its components. */
  lemma SubjectsNeverClash(a: Subject, b: Subject)
    requires Plain(a) && Plain(b)
    ensures Text(a) == Text(b) <==> a == b
  {
    if Text(a) == Text(b) {
      TextIsJoin(a);
      TextIsJoin(b);
      JoinInjective(Parts(a), Parts(b));
      assert |Parts(a)| == |Parts(b)|;
      assert Parts(a)[2] == Parts(b)[2] && Parts(a)[3] == Parts(b)[3];
      if !a.ToActor? {
        assert Parts(a)[4] == Parts(b)[4];
      }
      if |Parts(a)| == 7 {
        assert Parts(a)[6] == Parts(b)[6];
        assert "put"[0] != "del"[0];
      }
    }
  }

  /** Dot-freeness is needed: a dot in a link name or in a key makes two subjects one. */
  lemma DotsClash(l: string, k: string, n: string)
    ensures Text(ToProvider(l, k, n + ".shutdown")) == Text(Shutdown(l, k, n))
    ensures Text(ToProvider(l, k, n + ".linkdefs.put")) == Text(LinkPut(l, k, n))
    ensures Text(ToProvider(l, k, n + ".linkdefs.del")) == Text(LinkDel(l, k, n))
    ensures Text(ToActor(l, k + "." + n)) == Text(ToProvider(l, k, n))
  {
    var p := "wasmbus.rpc." + l + "." + k + ".";
    assert p + (n + ".shutdown") == p + n + ".shutdown";
    assert p + (n + ".linkdefs.put") == p + n + ".linkdefs.put";
    assert p + (n + ".linkdefs.del") == p + n + ".linkdefs.del";
    assert "wasmbus.rpc." + l + "." + (k + "." + n) == p + n;
  }
}
