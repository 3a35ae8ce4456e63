/** What is published, which providers run, and which of them has missed what. */
module Publishing {
  import opened Types
  import opened LinkKeys
  import opened LinkIndex
  import opened HostMachine
  import opened LinkAgreement

  // --- Which providers run ---

  /** A provider runs after a step exactly if the step started it, or it ran before and was not stopped; one
      that goes on running keeps its start-up definitions. */
  lemma RunningExactly(s: HostState, a: Step, key: string, link: string)
    requires Enabled(s, a)
    ensures var s' := Apply(s, a);
            && (Running(s', key, link) <==>
                a == DoStartProvider(key, link, true) || (Running(s, key, link) && a != DoStopProvider(key, link)))
            && (Running(s, key, link) && Running(s', key, link) ==>
                && s'.providers[key][link].snapshot == s.providers[key][link].snapshot
                && s'.providers[key][link].from == s.providers[key][link].from)
  {
    match a {
      case DoPublish(ok) =>
      case DoStartProvider(k, n, ok) => StartExactly(s, k, n, ok);
      case DoStopProvider(k, n) =>
        StopExactly(s, k, n);
        assert Running(s, key, link) && a != DoStopProvider(key, link) ==> k != key || n != link;
      case _ => ProvidersElsewhere(s, a);
    }
  }

  lemma ProvidersElsewhere(s: HostState, a: Step)
    requires Enabled(s, a) && !a.DoPublish? && !a.DoStartProvider? && !a.DoStopProvider?
    ensures Apply(s, a).providers == s.providers && Apply(s, a).log == s.log
  {
  }

  /** A provider that starts holds exactly its definitions of that moment and has missed nothing; a start that
      fails, or finds it running, changes no running provider. */
  lemma StartExactly(s: HostState, key: string, link: string, ok: bool)
    ensures var s' := StartProvider(s, key, link, ok);
            && key in s'.providers
            && (ok && !Running(s, key, link) ==>
                  && Running(s', key, link)
                  && s'.providers[key][link] == Provider(ProviderLinks(s.links, key, link), |s.log|, {}))
            && (forall k, n :: Running(s, k, n) ==> Running(s', k, n) && s'.providers[k][n] == s.providers[k][n])
            && (forall k, n :: Running(s', k, n) ==> Running(s, k, n) || (ok && k == key && n == link))
  {
  }

  /** Stopping takes away that provider alone, and its key with the last one. */
  lemma StopExactly(s: HostState, key: string, link: string)
    ensures var s' := StopProvider(s, key, link);
            && !Running(s', key, link)
            && (forall k, n :: (k != key || n != link) && Running(s, k, n) ==>
                  Running(s', k, n) && s'.providers[k][n] == s.providers[k][n])
            && (forall k, n :: Running(s', k, n) ==> Running(s, k, n))
            && (key in s'.providers <==> exists n :: n != link && Running(s, key, n))
  {
    if key in s.providers {
      KeyLeft(s, key, link);
    }
  }

  lemma KeyLeft(s: HostState, key: string, link: string)
    requires key in s.providers
    ensures s.providers[key] - {link} != map[] <==> exists n :: n != link && Running(s, key, n)
  {
    var rest := s.providers[key] - {link};
    if rest != map[] {
      var n :| n in rest;
      assert n != link && Running(s, key, n);
    } else {
      forall n | n != link ensures !Running(s, key, n) {
        assert n !in rest;
      }
    }
  }

  // --- What is published ---

  /** Exactly the successful publishes reach the log, each with the message of the operation in flight. */
  lemma LogExactly(s: HostState, a: Step)
    requires Enabled(s, a)
    ensures var s' := Apply(s, a);
            match a
            case DoPublish(ok) =>
              s'.log == if !ok then s.log
                        else s.log + [if s.linkOp.AddPublish? then Put(s.linkOp.ld) else Del(s.linkOp.ld)]
            case _ => s'.log == s.log
  {
    match a {
      case DoPublish(ok) =>
      case DoStartProvider(k, n, ok) =>
      case DoStopProvider(k, n) =>
      case _ => ProvidersElsewhere(s, a);
    }
  }

  // --- Who has missed what ---

  /** How the latest publish about `t` to provider (`key`, `link`) since its start went, after one step. */
  ghost function Noted(s: HostState, a: Step, key: string, link: string, t: Triple, before: Option<bool>)
    : Option<bool>
  {
    if a.DoPublish? && Concerns(s.linkOp, key, link, t) then Some(a.ok)
    else if a == DoStartProvider(key, link, true) && !Running(s, key, link) then None
    else before
  }

  ghost function Latest(s: HostState, steps: seq<Step>, key: string, link: string, t: Triple, before: Option<bool>)
    : Option<bool>
    decreases steps
  {
    if steps == [] || !Enabled(s, steps[0]) then before
    else Latest(Apply(s, steps[0]), steps[1..], key, link, t, Noted(s, steps[0], key, link, t, before))
  }

  ghost predicate MissedIs(s: HostState, key: string, link: string, t: Triple, latest: Option<bool>) {
    Running(s, key, link) ==> (t in s.providers[key][link].missed <==> latest == Some(false))
  }

  lemma MissedStep(s: HostState, a: Step, key: string, link: string, t: Triple, latest: Option<bool>)
    requires Enabled(s, a) && MissedIs(s, key, link, t, latest)
    ensures MissedIs(Apply(s, a), key, link, t, Noted(s, a, key, link, t, latest))
  {
    match a {
      case DoPublish(ok) =>
      case DoStartProvider(k, n, ok) =>
      case DoStopProvider(k, n) =>
      case _ => ProvidersElsewhere(s, a);
    }
  }

  lemma {:induction false} MissedAlongRun(s: HostState, steps: seq<Step>, s': HostState, key: string, link: string,
                                          t: Triple, latest: Option<bool>)
    requires Runs(false, s, steps, s') && MissedIs(s, key, link, t, latest)
    ensures MissedIs(s', key, link, t, Latest(s, steps, key, link, t, latest))
    decreases steps
  {
    if steps != [] {
      var a := steps[0];
      MissedStep(s, a, key, link, t, latest);
      MissedAlongRun(Apply(s, a), steps[1..], s', key, link, t, Noted(s, a, key, link, t, latest));
    }
  }

  /** After every run a running provider has missed a triple if and only if the latest publish about it
      since the provider started has failed. */
  lemma MissedExactly(steps: seq<Step>, s: HostState, key: string, link: string, t: Triple)
    requires Runs(false, INIT, steps, s) && Running(s, key, link)
    ensures t in s.providers[key][link].missed <==> Latest(INIT, steps, key, link, t, None) == Some(false)
  {
    MissedAlongRun(INIT, steps, s, key, link, t, None);
  }

  lemma {:induction false} NoFailureNoted(s: HostState, steps: seq<Step>, key: string, link: string, t: Triple,
                                          before: Option<bool>)
    requires DoPublish(false) !in steps && before != Some(false)
    ensures Latest(s, steps, key, link, t, before) != Some(false)
    decreases steps
  {
    if steps != [] && Enabled(s, steps[0]) {
      assert steps[0] in steps && forall a :: a in steps[1..] ==> a in steps;
      NoFailureNoted(Apply(s, steps[0]), steps[1..], key, link, t, Noted(s, steps[0], key, link, t, before));
    }
  }

  /** After a run in which no publish failed, every running provider that applied what it was given and sent
      holds exactly the filtered table, except at the operation in flight. */
  lemma PublishedRunMirrors(steps: seq<Step>, s: HostState, key: string, link: string, t: Triple)
    requires Runs(false, INIT, steps, s) && DoPublish(false) !in steps
    requires Running(s, key, link) && !Concerns(s.linkOp, key, link, t)
    ensures s.providers[key][link].from <= |s.log|
    ensures Held(s.providers[key][link].snapshot, s.log[s.providers[key][link].from..], key, link, t) ==
            Wanted(s.links, key, link, t)
  {
    MissedExactly(steps, s, key, link, t);
    NoFailureNoted(INIT, steps, key, link, t, None);
    SnapshotPlusLogIsTable(s, key, link, t);
  }
}
