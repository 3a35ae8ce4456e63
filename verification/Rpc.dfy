/** Calls out of an actor and into an actor: target resolution, the capability gate, topics, and the
    framing of large payloads through the chunk store. */
module Rpc {
  import opened Types
  import opened LinkIndex
  import opened Topics

  type Bytes = seq<bv8>
  type Store = map<string, Bytes>

  datatype Target =
    | DefaultLink
    | LinkNamed(link: Option<string>)
    | ActorByKey(key: string)
    | ActorByAlias(alias: string)

  /** Claims metadata, when present, may list capabilities. */
  datatype Metadata = Metadata(caps: Option<seq<string>>)

  datatype Handler = Handler(
    lattice: string,
    metadata: Option<Metadata>,
    origin: Entity,
    links: Cache,
    aliases: map<string, Entity>)

  datatype Invocation = Invocation(
    id: string,
    origin: Entity,
    target: Entity,
    operation: string,
    msg: Bytes,
    contentLength: nat)

  datatype Response = Response(invocationId: string, msg: Bytes, contentLength: nat, error: Option<string>)

  /** The chunk store's rules, which belong to a library: the size above which a payload goes through
      the store, the object name a response is stored under, and whether reading takes the object out. */
  datatype Chunking = Chunking(threshold: nat, responseName: string -> string, takes: bool)

  /** The outside of one call: a fresh invocation id, whether the store accepts a write, and what comes
      back from the bus for a message on a topic. */
  datatype World = World(
    id: string,
    storeWorks: bool,
    bus: (string, Invocation, Store) -> (Option<Response>, Store))

  datatype Outcome = Failed | Refused(error: string) | Returned(bytes: Bytes)

  /** What a call amounts to: its outcome, what was sent, and the store it leaves. */
  datatype Trace = Trace(outcome: Outcome, sent: Option<(string, Invocation)>, store: Store)

  // --- Small parts ---

  /** The part of an operation before its first slash. */
  function Package(operation: string): Option<string> {
    if operation == "" then None
    else if operation[0] == '/' then Some("")
    else
      match Package(operation[1..])
      case Some(p) => Some([operation[0]] + p)
      case None => None
  }

  lemma {:induction false} PackageOfSlashed(c: string, rest: string)
    requires '/' !in c
    ensures Package(c + "/" + rest) == Some(c)
  {
    var s := c + "/" + rest;
    if c != "" {
      PackageOfSlashed(c[1..], rest);
      assert s[1..] == c[1..] + "/" + rest;
      assert s[0] == c[0] && c == [c[0]] + c[1..];
    }
  }

  function Answer(links: Option<map<string, Entity>>, link: string): Option<Entity> {
    if links.Some? && link in links.value then Some(links.value[link]) else None
  }

  function ResolveTarget(target: Target, links: Option<map<string, Entity>>, aliases: map<string, Entity>)
    : Option<Entity>
  {
    match target
    case DefaultLink => Answer(links, "default")
    case LinkNamed(link) => Answer(links, link.GetOr("default"))
    case ActorByKey(key) => Some(Entity(key, "", ""))
    case ActorByAlias(alias) => if alias in aliases then Some(aliases[alias]) else None
  }

  function ContractLinks(cache: Cache, contract: string): Option<map<string, Entity>> {
    if contract in cache then Some(cache[contract]) else None
  }

  /** `ensure_actor_capability` */
  predicate Capable(metadata: Option<Metadata>, contract: string) {
    contract == "" || (metadata.Some? && metadata.value.caps.Some? && contract in metadata.value.caps.value)
  }

  function TopicFor(lattice: string, target: Target, entity: Entity): string {
    match target
    case DefaultLink => Text(ToProvider(lattice, entity.publicKey, entity.linkName))
    case LinkNamed(_) => Text(ToProvider(lattice, entity.publicKey, entity.linkName))
    case _ => Text(ToActor(lattice, entity.publicKey))
  }

  function Unchunk(c: Chunking, store: Store, name: string): Option<(Bytes, Store)> {
    if name in store then Some((store[name], if c.takes then store - {name} else store)) else None
  }

  /** `identify_wasmbus_target`; `actor` is the actor identifier made of the namespace. */
  function Identify(cache: Cache, binding: string, namespace: string, actor: Target): Target {
    if namespace in cache && binding in cache[namespace] then LinkNamed(Some(binding)) else actor
  }

  // --- One call, as a function ---

  /** Where a call goes: the entity its target resolves to, if there is one and the gate lets it through. */
  function Destination(h: Handler, target: Target, operation: string): Option<Entity> {
    match Package(operation)
    case None => None
    case Some(package) =>
      match ResolveTarget(target, ContractLinks(h.links, package), h.aliases)
      case None => None
      case Some(entity) => if Capable(h.metadata, entity.contractId) then Some(entity) else None
  }

  function Receive(c: Chunking, id: string, reply: Option<Response>, store: Store): (Outcome, Store) {
    match reply
    case None => (Failed, store)
    case Some(r) =>
      if r.invocationId != id then (Failed, store)
      else if r.contentLength > c.threshold then
        match Unchunk(c, store, id)
        case None => (Failed, store)
        case Some((bytes, store')) => (if r.error.Some? then Refused(r.error.value) else Returned(bytes), store')
      else if r.contentLength != |r.msg| then (Failed, store)
      else (if r.error.Some? then Refused(r.error.value) else Returned(r.msg), store)
  }

  function Call(h: Handler, c: Chunking, target: Target, operation: string, request: Bytes, store: Store, w: World)
    : Trace
  {
    match Destination(h, target, operation)
    case None => Trace(Failed, None, store)
    case Some(entity) =>
      var large := |request| > c.threshold;
      if large && !w.storeWorks then Trace(Failed, None, store)
      else
        var store1 := if large then store[w.id := request] else store;
        var msg := Invocation(w.id, h.origin, entity, operation, if large then [] else request, |request|);
        var topic := TopicFor(h.lattice, target, entity);
        var (reply, store2) := w.bus(topic, msg, store1);
        var (outcome, store3) := Receive(c, w.id, reply, store2);
        Trace(outcome, Some((topic, msg)), store3)
  }

  // --- The two call paths of the source ---

  /** `call_operation_with_payload`: typed errors, the reply returned. */
  method CallOperationWithPayload(h: Handler, c: Chunking, target: Target, operation: string, request: Bytes,
                                  store: Store, w: World) returns (trace: Trace)
    ensures trace == Call(h, c, target, operation, request, store, w)
  {
    var package := Package(operation);
    if package.None? { return Trace(Failed, None, store); }
    var resolved := ResolveTarget(target, ContractLinks(h.links, package.value), h.aliases);
    if resolved.None? { return Trace(Failed, None, store); }
    var chunks := store;
    var needsChunking := |request| > c.threshold;
    var invocation := Invocation(w.id, h.origin, resolved.value, operation, request, |request|);
    if !Capable(h.metadata, invocation.target.contractId) { return Trace(Failed, None, store); }
    if needsChunking {
      if !w.storeWorks { return Trace(Failed, None, store); }
      chunks := chunks[invocation.id := invocation.msg];
      invocation := invocation.(msg := []);
    }
    var topic := TopicFor(h.lattice, target, invocation.target);
    var reply;
    var answer := w.bus(topic, invocation, chunks);
    reply, chunks := answer.0, answer.1;
    var sent := Some((topic, invocation));
    if reply.None? { return Trace(Failed, sent, chunks); }
    var r := reply.value;
    if r.invocationId != invocation.id { return Trace(Failed, sent, chunks); }
    var msg := r.msg;
    if r.contentLength > c.threshold {
      var chunk := Unchunk(c, chunks, r.invocationId);
      if chunk.None? { return Trace(Failed, sent, chunks); }
      msg := chunk.value.0;
      chunks := chunk.value.1;
    } else if r.contentLength != |msg| {
      return Trace(Failed, sent, chunks);
    }
    trace := Trace(if r.error.Some? then Refused(r.error.value) else Returned(msg), sent, chunks);
  }

  /** `Bus::call`: the second copy. Failures and refusals are both plain errors, the reply is written out. */
  method BusCall(h: Handler, c: Chunking, target: Target, operation: string, request: Bytes, store: Store, w: World)
    returns (ok: bool, written: Bytes, sent: Option<(string, Invocation)>, store': Store)
    ensures var trace := Call(h, c, target, operation, request, store, w);
            && sent == trace.sent && store' == trace.store
            && ok == trace.outcome.Returned?
            && written == if ok then trace.outcome.bytes else []
  {
    ok, written, sent, store' := false, [], None, store;
    var package := Package(operation);
    if package.None? { return; }
    var resolved := ResolveTarget(target, ContractLinks(h.links, package.value), h.aliases);
    if resolved.None? { return; }
    var needsChunking := |request| > c.threshold;
    var invocation := Invocation(w.id, h.origin, resolved.value, operation, request, |request|);
    if !Capable(h.metadata, invocation.target.contractId) { return; }
    if needsChunking {
      if !w.storeWorks { return; }
      store' := store'[invocation.id := invocation.msg];
      invocation := invocation.(msg := []);
    }
    var topic;
    var Entity(key, link, _) := invocation.target;
    match target {
      case DefaultLink => topic := Text(ToProvider(h.lattice, key, link));
      case LinkNamed(_) => topic := Text(ToProvider(h.lattice, key, link));
      case ActorByKey(_) => topic := Text(ToActor(h.lattice, key));
      case ActorByAlias(_) => topic := Text(ToActor(h.lattice, key));
    }
    sent := Some((topic, invocation));
    var answer := w.bus(topic, invocation, store');
    ok, written, store' := BusReply(c, invocation.id, answer.0, answer.1);
  }

  /** The second half of `Bus::call`: take in the reply and write it out. */
  method BusReply(c: Chunking, id: string, reply: Option<Response>, store: Store)
    returns (ok: bool, written: Bytes, store': Store)
    ensures var (outcome, after) := Receive(c, id, reply, store);
            store' == after && ok == outcome.Returned? && written == if ok then outcome.bytes else []
  {
    ok, written, store' := false, [], store;
    if reply.None? || reply.value.invocationId != id { return; }
    var msg := reply.value.msg;
    if reply.value.contentLength > c.threshold {
      var chunk := Unchunk(c, store', reply.value.invocationId);
      if chunk.None? { return; }
      msg := chunk.value.0;
      store' := chunk.value.1;
    } else if reply.value.contentLength != |msg| {
      return;
    }
    if reply.value.error.None? {
      ok, written := true, msg;
    }
  }

  // --- The receiving side ---

  /** What an actor makes of a request: bytes, an error of its own, or no answer at all. */
  datatype ActorResult = Answers(bytes: Bytes) | Rejects(error: string) | Breaks

  /** An actor instance: its claims, and its behaviour by operation and request. */
  datatype Instance = Instance(metadata: Option<Metadata>, behaviour: (string, Bytes) -> ActorResult)

  /** `handle_call`: unframe the request, check the caller's contract, frame the response. `authentic`
      stands for the antiforgery check, `storeWorks` for the store accepting the response. */
  method HandleCall(a: Instance, c: Chunking, inv: Invocation, authentic: bool, storeWorks: bool, store: Store)
    returns (reply: Option<Response>, store': Store)
    ensures (reply, store') == Handle(a, c, inv, authentic, storeWorks, store)
  {
    reply, store' := None, store;
    if !authentic { return; }
    var msg := inv.msg;
    if inv.contentLength > c.threshold {
      var chunk := Unchunk(c, store', inv.id);
      if chunk.None? { return; }
      msg := chunk.value.0;
      store' := chunk.value.1;
    }
    if !Capable(a.metadata, inv.origin.contractId) { return; }
    var result := a.behaviour(inv.operation, msg);
    match result {
      case Breaks =>
      case Rejects(e) => reply := Some(Response(inv.id, [], 0, Some(e)));
      case Answers(bytes) =>
        var out := bytes;
        if |bytes| > c.threshold {
          if !storeWorks { return; }
          store' := store'[c.responseName(inv.id) := bytes];
          out := [];
        }
        reply := Some(Response(inv.id, out, |bytes|, None));
    }
  }

  function Handle(a: Instance, c: Chunking, inv: Invocation, authentic: bool, storeWorks: bool, store: Store)
    : (Option<Response>, Store)
  {
    if !authentic then (None, store)
    else if inv.contentLength > c.threshold then
      match Unchunk(c, store, inv.id)
      case None => (None, store)
      case Some((msg, store')) => Respond(a, c, inv, msg, storeWorks, store')
    else Respond(a, c, inv, inv.msg, storeWorks, store)
  }

  function Respond(a: Instance, c: Chunking, inv: Invocation, msg: Bytes, storeWorks: bool, store: Store)
    : (Option<Response>, Store)
  {
    if !Capable(a.metadata, inv.origin.contractId) then (None, store)
    else
      match a.behaviour(inv.operation, msg)
      case Breaks => (None, store)
      case Rejects(e) => (Some(Response(inv.id, [], 0, Some(e))), store)
      case Answers(bytes) =>
        if |bytes| <= c.threshold then (Some(Response(inv.id, bytes, |bytes|, None)), store)
        else if !storeWorks then (None, store)
        else (Some(Response(inv.id, [], |bytes|, None)), store[c.responseName(inv.id) := bytes])
  }

  // --- Framing is transparent ---

  /** The bus delivers every message to instance `a`, and nothing else goes wrong. */
  ghost predicate ServedBy(w: World, a: Instance, c: Chunking) {
    && w.storeWorks
    && forall topic, inv, store :: w.bus(topic, inv, store) == Handle(a, c, inv, true, true, store)
  }

  /** What the caller should see. */
  function Expected(result: ActorResult): Outcome {
    match result case Answers(b) => Returned(b) case Rejects(e) => Refused(e) case Breaks => Failed
  }

  /** Exactly when a response of more than the threshold arrives: when it is stored under the name it is
      read by, or when what is read instead, a request of the same bytes left in the store, happens to
      be equal. */
  predicate Arrives(c: Chunking, id: string, request: Bytes, response: Bytes) {
    || |response| <= c.threshold
    || c.responseName(id) == id
    || (|request| > c.threshold && !c.takes && request == response)
  }

  /** The actor receives exactly the caller's bytes whatever their length, and the caller gets exactly
      the actor's answer or error, for every request and response length, provided a large response is
      stored under the name it is read by; for a large response that condition is exact. */
  lemma FramingTransparent(h: Handler, c: Chunking, target: Target, operation: string, request: Bytes, store: Store,
                           w: World, a: Instance)
    requires ServedBy(w, a, c) && w.id !in store
    requires Destination(h, target, operation).Some? && Capable(a.metadata, h.origin.contractId)
    ensures var result := a.behaviour(operation, request);
            var outcome := Call(h, c, target, operation, request, store, w).outcome;
            && (!result.Answers? ==> outcome == Expected(result))
            && (result.Answers? ==> (outcome == Returned(result.bytes) <==> Arrives(c, w.id, request, result.bytes)))
  {
    var entity := Destination(h, target, operation).value;
    var large := |request| > c.threshold;
    var store1 := if large then store[w.id := request] else store;
    var inv := Invocation(w.id, h.origin, entity, operation, if large then [] else request, |request|);
    DeliveredExactly(a, c, inv, request, store1);
    var store2 := if large && c.takes then store1 - {w.id} else store1;
    AnswerReceived(a, c, inv, request, store2);
  }

  /** Framing and unframing of the answer. */
  lemma AnswerReceived(a: Instance, c: Chunking, inv: Invocation, request: Bytes, store: Store)
    requires Capable(a.metadata, inv.origin.contractId)
    requires inv.id in store <==> |request| > c.threshold && !c.takes
    requires inv.id in store ==> store[inv.id] == request
    ensures var result := a.behaviour(inv.operation, request);
            var (reply, store') := Respond(a, c, inv, request, true, store);
            var outcome := Receive(c, inv.id, reply, store').0;
            && (!result.Answers? ==> outcome == Expected(result))
            && (result.Answers? ==> (outcome == Returned(result.bytes) <==> Arrives(c, inv.id, request, result.bytes)))
  {
  }

  /** Unframing gives back the request. */
  lemma DeliveredExactly(a: Instance, c: Chunking, inv: Invocation, request: Bytes, store: Store)
    requires inv.contentLength == |request|
    requires if |request| > c.threshold then inv.id in store && store[inv.id] == request else inv.msg == request
    ensures Handle(a, c, inv, true, true, store) ==
            Respond(a, c, inv, request, true, if |request| > c.threshold && c.takes then store - {inv.id} else store)
  {
  }

  // --- What is refused, and what is let through ---

  /** An operation has a package exactly when it has a slash. */
  lemma {:induction false} PackageExactly(operation: string)
    ensures Package(operation).Some? <==> '/' in operation
  {
    if operation != "" && operation[0] != '/' {
      PackageExactly(operation[1..]);
      assert operation == [operation[0]] + operation[1..];
    }
  }

  /** The claims list contract `c`; the empty contract, of calls between actors, needs no claim. */
  ghost predicate Claimed(metadata: Option<Metadata>, c: string) {
    c == "" || c in Claims(metadata)
  }

  ghost function Claims(metadata: Option<Metadata>): set<string> {
    match metadata
    case Some(Metadata(Some(caps))) => set x | x in caps
    case _ => {}
  }

  /** Nothing is sent under a contract the caller does not claim, or for an operation without a slash. */
  lemma GateOnSending(h: Handler, c: Chunking, target: Target, operation: string, request: Bytes, store: Store,
                      w: World)
    ensures var trace := Call(h, c, target, operation, request, store, w);
            && (trace.sent.Some? ==>
                '/' in operation && Claimed(h.metadata, trace.sent.value.1.target.contractId))
            && (trace.sent.None? ==> trace == Trace(Failed, None, store))
  {
    PackageExactly(operation);
  }

  /** A call to an alias goes to what the alias stands for, if it is known and its contract is claimed, and a
      large request could be stored; an unknown alias sends nothing. */
  lemma AliasCallExactly(h: Handler, c: Chunking, alias: string, operation: string, request: Bytes, store: Store,
                         w: World)
    ensures var trace := Call(h, c, ActorByAlias(alias), operation, request, store, w);
            && (trace.sent.Some? <==>
                && '/' in operation && alias in h.aliases && Claimed(h.metadata, h.aliases[alias].contractId)
                && (|request| <= c.threshold || w.storeWorks))
            && (trace.sent.Some? ==>
                && trace.sent.value.0 == "wasmbus.rpc." + h.lattice + "." + h.aliases[alias].publicKey
                && trace.sent.value.1.target == h.aliases[alias])
  {
    PackageExactly(operation);
  }

  /** What the caller takes for an answer: a reply to its own invocation, of the announced length or, when that
      is above the threshold, found in the store. Anything else is a failure. */
  lemma ReplyAcceptedExactly(c: Chunking, id: string, reply: Option<Response>, store: Store)
    ensures var (outcome, store') := Receive(c, id, reply, store);
            var whole := reply.Some? && reply.value.invocationId == id &&
                         if reply.value.contentLength > c.threshold then id in store
                         else |reply.value.msg| == reply.value.contentLength;
            && (outcome == Failed <==> !whole)
            && (forall e :: outcome == Refused(e) <==> whole && reply.value.error == Some(e))
            && (forall b :: outcome == Returned(b) <==>
                  && whole && reply.value.error == None
                  && b == if reply.value.contentLength > c.threshold then store[id] else reply.value.msg)
            && (store' == if whole && reply.value.contentLength > c.threshold && c.takes then store - {id} else store)
  {
  }

  /** The request an instance is to handle, if it can be had. */
  function RequestOf(c: Chunking, inv: Invocation, store: Store): Option<Bytes> {
    if inv.contentLength <= c.threshold then Some(inv.msg)
    else if inv.id in store then Some(store[inv.id])
    else None
  }

  /** An instance replies exactly when the invocation is authentic, its request can be had, its origin's contract
      is claimed, the actor answers or rejects, and a large answer can be stored; the reply announces the
      length of the answer and carries it when it is not large. */
  lemma HandledExactly(a: Instance, c: Chunking, inv: Invocation, authentic: bool, storeWorks: bool, store: Store)
    ensures var reply := Handle(a, c, inv, authentic, storeWorks, store).0;
            var request := RequestOf(c, inv, store);
            var heard := authentic && request.Some? && Claimed(a.metadata, inv.origin.contractId);
            && (!heard ==> reply == None)
            && (heard ==>
                match a.behaviour(inv.operation, request.value)
                case Breaks => reply == None
                case Rejects(e) => reply == Some(Response(inv.id, [], 0, Some(e)))
                case Answers(bytes) =>
                  if |bytes| <= c.threshold then reply == Some(Response(inv.id, bytes, |bytes|, None))
                  else reply == if storeWorks then Some(Response(inv.id, [], |bytes|, None)) else None)
  {
  }

  /** An invocation that is not authentic, or whose origin's contract the claims do not list, gets no reply,
      and the actor is never asked: any other behaviour gives the same. */
  lemma GateOnReceiving(a: Instance, other: (string, Bytes) -> ActorResult, c: Chunking, inv: Invocation,
                        authentic: bool, storeWorks: bool, store: Store)
    requires !authentic || !Claimed(a.metadata, inv.origin.contractId)
    ensures Handle(a, c, inv, authentic, storeWorks, store).0 == None
    ensures Handle(a.(behaviour := other), c, inv, authentic, storeWorks, store) ==
            Handle(a, c, inv, authentic, storeWorks, store)
  {
  }

  /** Handling touches the store at two names at most: it may take the request out, and it puts in a large answer
      it replies to. */
  lemma HandlingStores(a: Instance, c: Chunking, inv: Invocation, authentic: bool, storeWorks: bool, store: Store,
                       name: string)
    ensures var (reply, store') := Handle(a, c, inv, authentic, storeWorks, store);
            && (name != inv.id && name != c.responseName(inv.id) ==>
                  (name in store' <==> name in store) && (name in store ==> store'[name] == store[name]))
            && (reply.Some? && reply.value.contentLength > c.threshold ==>
                  && c.responseName(inv.id) in store'
                  && |store'[c.responseName(inv.id)]| == reply.value.contentLength
                  && a.behaviour(inv.operation, RequestOf(c, inv, store).value) ==
                     Answers(store'[c.responseName(inv.id)]))
  {
    HandledExactly(a, c, inv, authentic, storeWorks, store);
  }

  /** A target is a link if the cache has the binding, and the actor of the namespace otherwise. */
  lemma IdentifiedExactly(cache: Cache, binding: string, namespace: string, actor: Target)
    ensures Identify(cache, binding, namespace, actor) ==
            match Lookup(cache, namespace, binding)
            case Some(_) => LinkNamed(Some(binding))
            case None => actor
  {
  }
}
