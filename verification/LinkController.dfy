/** The controller's reference-counted table of Links over the host's link table. */
module LinkController {
  import opened Types
  import opened LinkKeys
  import opened LinkIndex

  /** The definition first registered under an id, and the Links that refer to it. */
  datatype Entry = Entry(ld: LinkDef, names: set<string>)

  /** The controller's table, by dotted id, and the host's table, by hash. */
  datatype Tables = Tables(entries: map<string, Entry>, links: Table)

  const EMPTY := Tables(map[], map[])

  /** A registration of a resolved Link, or the cleanup of a Link with a complete status; `ok` says
      whether a message published on the way can be sent. */
  datatype Event = Add(name: string, ld: LinkDef, ok: bool) | Remove(name: string, t: Triple, ok: bool)

  function TripleAt(e: Event): Triple {
    match e case Add(_, ld, _) => TripleOf(ld) case Remove(_, t, _) => t
  }

  /** `add_link` from the computed id on. */
  function AddStep(s: Tables, name: string, ld: LinkDef, ok: bool): Tables {
    var id, h := DottedId(TripleOf(ld)), LinkdefHash(TripleOf(ld));
    if id in s.entries then
      s.(entries := s.entries[id := s.entries[id].(names := s.entries[id].names + {name})])
    else if h in s.links then
      s.(entries := s.entries[id := Entry(ld, {name})])
    else
      Tables(if ok then s.entries[id := Entry(ld, {name})] else s.entries, s.links[h := ld])
  }

  /** `delete_link` from the computed id on. The definition the host is asked to delete is the stored one. */
  function RemoveStep(s: Tables, name: string, t: Triple, ok: bool): Tables {
    var id := DottedId(t);
    if id !in s.entries then s
    else
      var names := s.entries[id].names - {name};
      var h := LinkdefHash(TripleOf(s.entries[id].ld));
      if names != {} then s.(entries := s.entries[id := s.entries[id].(names := names)])
      else if h in s.links && ok then Tables(s.entries - {id}, s.links - {h})
      else Tables(s.entries[id := s.entries[id].(names := {})], s.links - {h})
  }

  function Handle(s: Tables, e: Event): Tables {
    match e
    case Add(name, ld, ok) => AddStep(s, name, ld, ok)
    case Remove(name, t, ok) => RemoveStep(s, name, t, ok)
  }

  function Play(events: seq<Event>): Tables {
    if events == [] then EMPTY else Handle(Play(events[..|events| - 1]), events[|events| - 1])
  }

  // --- The reference: one small automaton per triple, and a plain relation of names ---

  /** Absent: no trace. Live: registered, the host has it. HostOnly: an add failed to publish.
      Dead: a delete failed to publish; the controller still has an entry, the host has nothing. */
  datatype Phase = Absent | Live | HostOnly | Dead

  datatype Cell = Cell(phase: Phase, names: set<string>)

  function CellAdd(c: Cell, name: string, ok: bool): Cell {
    match c.phase
    case Absent => if ok then Cell(Live, {name}) else Cell(HostOnly, {})
    case HostOnly => Cell(Live, {name})
    case _ => c.(names := c.names + {name})
  }

  function CellRemove(c: Cell, name: string, ok: bool): Cell {
    match c.phase
    case Live =>
      if c.names - {name} != {} then Cell(Live, c.names - {name})
      else if ok then Cell(Absent, {}) else Cell(Dead, {})
    case Dead => Cell(Dead, c.names - {name})
    case _ => c
  }

  /** The cell of one triple after a run: events about other triples do not touch it. */
  function CellOf(events: seq<Event>, t: Triple): Cell {
    if events == [] then Cell(Absent, {})
    else
      var c := CellOf(events[..|events| - 1], t);
      var e := events[|events| - 1];
      if TripleAt(e) != t then c
      else
        match e
        case Add(name, _, ok) => CellAdd(c, name, ok)
        case Remove(name, _, ok) => CellRemove(c, name, ok)
  }

  /** The plain relation: the Links added for a triple and not removed since. */
  function Referring(events: seq<Event>, t: Triple): set<string> {
    if events == [] then {}
    else
      var names := Referring(events[..|events| - 1], t);
      var e := events[|events| - 1];
      if TripleAt(e) != t then names
      else if e.Add? then names + {e.name} else names - {e.name}
  }

  /** No publish about the triple ever failed. */
  predicate Untainted(events: seq<Event>, t: Triple) {
    forall i :: 0 <= i < |events| && TripleAt(events[i]) == t ==> events[i].ok
  }

  ghost predicate InUniverse(events: seq<Event>, u: Universe) {
    u.Valid() && forall i :: 0 <= i < |events| ==> u.Has(TripleAt(events[i]))
  }

  // --- The tables show exactly the cells ---

  ghost predicate Shows(s: Tables, t: Triple, c: Cell) {
    var id, h := DottedId(t), LinkdefHash(t);
    match c.phase
    case Absent => id !in s.entries && h !in s.links && c.names == {}
    case HostOnly => id !in s.entries && h in s.links && TripleOf(s.links[h]) == t && c.names == {}
    case Live =>
      && id in s.entries && h in s.links && c.names != {}
      && s.entries[id].names == c.names
      && TripleOf(s.links[h]) == t && TripleOf(s.entries[id].ld) == t
    case Dead =>
      && id in s.entries && h !in s.links
      && s.entries[id].names == c.names
      && TripleOf(s.entries[id].ld) == t
  }

  /** Handling an event about `d` moves the cell of `d` and, the keys being injective, no other. */
  lemma HandleShows(s: Tables, e: Event, u: Universe, t: Triple, c: Cell, own: Cell)
    requires u.Valid() && u.Has(t) && u.Has(TripleAt(e))
    requires Shows(s, t, c) && Shows(s, TripleAt(e), own)
    ensures Shows(Handle(s, e), t,
              if TripleAt(e) != t then c
              else
                match e
                case Add(name, _, ok) => CellAdd(c, name, ok)
                case Remove(name, _, ok) => CellRemove(c, name, ok))
  {
    KeysAgree(u, t, TripleAt(e));
    match e
    case Add(name, ld, ok) =>
    case Remove(name, d, ok) =>
  }

  lemma {:induction false} PlayShows(events: seq<Event>, u: Universe, t: Triple)
    requires InUniverse(events, u) && u.Has(t)
    ensures Shows(Play(events), t, CellOf(events, t))
  {
    if events != [] {
      var init, e := events[..|events| - 1], events[|events| - 1];
      PlayShows(init, u, t);
      PlayShows(init, u, TripleAt(e));
      HandleShows(Play(init), e, u, t, CellOf(init, t), CellOf(init, TripleAt(e)));
    }
  }

  // --- What the cells say ---

  lemma {:induction false} UntaintedCell(events: seq<Event>, t: Triple)
    requires Untainted(events, t)
    ensures var c := CellOf(events, t);
            && c.names == Referring(events, t)
            && c.phase == if Referring(events, t) == {} then Absent else Live
  {
    if events != [] {
      var init := events[..|events| - 1];
      assert forall i :: 0 <= i < |init| ==> init[i] == events[i];
      UntaintedCell(init, t);
    }
  }

  /** Reference counting refines the plain relation: after every run of registrations and cleanups, for
      every triple about which no publish failed, the name set is exactly the Links added and not yet
      removed, it is never empty, and the host has the definition iff the controller has an entry. */
  lemma RefCountingRefinesRelation(events: seq<Event>, u: Universe, t: Triple)
    requires InUniverse(events, u) && u.Has(t) && Untainted(events, t)
    ensures var s, id, h := Play(events), DottedId(t), LinkdefHash(t);
            && (id in s.entries <==> Referring(events, t) != {})
            && (h in s.links <==> id in s.entries)
            && (id in s.entries ==> s.entries[id].names == Referring(events, t))
            && (h in s.links ==> TripleOf(s.links[h]) == t)
  {
    PlayShows(events, u, t);
    UntaintedCell(events, t);
  }

  /** Exactly when the two tables disagree about a triple: after an add whose message could not be sent
      until the next add, and from the first delete whose message could not be sent on. */
  lemma TablesDisagreeExactlyWhen(events: seq<Event>, u: Universe, t: Triple)
    requires InUniverse(events, u) && u.Has(t)
    ensures var s, c := Play(events), CellOf(events, t);
            && (LinkdefHash(t) in s.links <==> c.phase == Live || c.phase == HostOnly)
            && (DottedId(t) in s.entries <==> c.phase == Live || c.phase == Dead)
  {
    PlayShows(events, u, t);
  }

  /** A failed delete publish is for ever: whatever happens later, the host never has the definition
      again and the controller never forgets the id. */
  lemma {:induction false} FailedDeleteIsForever(events: seq<Event>, later: seq<Event>, u: Universe, t: Triple)
    requires InUniverse(events + later, u) && u.Has(t)
    requires CellOf(events, t).phase == Dead
    ensures LinkdefHash(t) !in Play(events + later).links && DottedId(t) in Play(events + later).entries
  {
    DeadStays(events, later, t);
    TablesDisagreeExactlyWhen(events + later, u, t);
  }

  lemma {:induction false} DeadStays(events: seq<Event>, later: seq<Event>, t: Triple)
    requires CellOf(events, t).phase == Dead
    ensures CellOf(events + later, t).phase == Dead
  {
    if later == [] {
      assert events + later == events;
    } else {
      var init := later[..|later| - 1];
      DeadStays(events, init, t);
      var all := events + later;
      assert all[..|all| - 1] == events + init;
    }
  }

  /** The whole failing family: the last Link of a live triple is removed while publishing fails. */
  lemma FailedDeleteKills(events: seq<Event>, t: Triple, name: string)
    requires CellOf(events, t).phase == Live && CellOf(events, t).names <= {name}
    ensures CellOf(events + [Remove(name, t, false)], t).phase == Dead
  {
    var all := events + [Remove(name, t, false)];
    assert all[..|all| - 1] == events;
  }

  // --- Idempotence and undoing ---

  /** Registering again a Link that is registered changes nothing. */
  lemma AddAgainChangesNothing(s: Tables, name: string, ld: LinkDef, ok: bool)
    requires DottedId(TripleOf(ld)) in s.entries && name in s.entries[DottedId(TripleOf(ld))].names
    ensures AddStep(s, name, ld, ok) == s
  {
    var e := s.entries[DottedId(TripleOf(ld))];
    assert e.names + {name} == e.names;
  }

  /** Removing a Link right after adding it restores both tables, unless it was registered before. */
  lemma RemoveUndoesAdd(s: Tables, name: string, ld: LinkDef)
    requires var id, h := DottedId(TripleOf(ld)), LinkdefHash(TripleOf(ld));
             if id in s.entries then name !in s.entries[id].names && s.entries[id].names != {} else h !in s.links
    ensures RemoveStep(AddStep(s, name, ld, true), name, TripleOf(ld), true) == s
  {
    var id, h := DottedId(TripleOf(ld)), LinkdefHash(TripleOf(ld));
    var m := AddStep(s, name, ld, true);
    if id in s.entries {
      assert s.entries[id].names + {name} - {name} == s.entries[id].names;
    } else {
      assert {name} - {name} == {};
      assert m.entries - {id} == s.entries && m.links - {h} == s.links;
    }
  }
}
