# KasmCloud host: tables in agreement

A KasmCloud host reconciles Link, Actor and Provider objects into several in-memory tables while events
arrive and interleave. This project models one host and proves that the tables stay in agreement.

The model has four parts.

* **Link table, link caches, provider copies.** `HostMachine` is a step relation: every control operation is
  cut where it lets go of a lock, and steps of different operations interleave freely. A link operation
  updates the table, then the shared cache of the actor's group, then publishes; a reconcile registers,
  takes the actors lock, snapshots the links, inserts the group and scales. `LinkAgreement` proves that in
  every reachable state every cache, and every provider's own copy, says what the table says.
* **Actor registry and replica scaling.** `ActorRegistry` and `DeclaredLoad` prove the registry partition,
  conservation of call tasks, and that `stats` is the declared load; `CurrentGroups` proves exactly which step
  can lose a group that is still in use, and what it costs. `Hosts.Host` is the host object with its methods;
  `HostOps` shows that each method, run alone, is a run of the machine, so `Valid()` is "reachable" and
  everything proved of runs holds of the object.
* **Reference-counted Links.** `Admission` (the webhook), `Resolver`, `LinkController`, `Recovery` and
  `Controller.Ctx` cover Link objects from admission to the two tables kept under two different keys.
* **Calls.** `Topics`, `Rpc` and `Routing` cover subject names, the two call paths, the chunking of large
  payloads and the agreement of call routing with the link table.

`Schedule`, `Publishing` and `Effects` say what the steps and whole operations do beyond the invariants: when they
can begin and go on, what is published and missed, and that nobody else is affected.

`Locks`, `Progress` and `Reentry` are about the locks themselves: any number of control operations and calls,
nested calls included, over fair reader-writer locks.

Outside events are parameters: whether a publish, a subscription, a chunk-store write or a process start
succeeds; what the API server, an image's claims or the bus answer; the order in which a hash map is
iterated. Published messages form a log in the state. SHA-256 (section 6.2 of FIPS 180-4) is taken as
injective: a digest is its preimage.

Read first: `LinkAgreement.CachesMirrorTable`, `LinkAgreement.SnapshotPlusLogIsTable`,
`CurrentGroups.LiveTasksInTable`, `CurrentGroups.OnlyStrayingLoses`, `DeclaredLoad.StatsIsDeclaredLoad`,
`Publishing.MissedExactly`, `Effects.OthersUnaffected`, `Reentry.FinishExactlyWhen`,
`LinkController.RefCountingRefinesRelation`, `Recovery.RecoveryExactlyWhen`,
`Controller.AddLinkIsFixedPoint`, `Routing.CallFollowsTable`, `Routing.NewLinksCalledExactly`,
`Rpc.FramingTransparent`.

Where the code gives less than one would hope, the model keeps the code and says exactly how much less:

* A group can be orphaned. `reconcile_actor` lets go of `actors` before it scales, so an overlapping removal
  of another name with the same key can drop the group meanwhile; the instance then started is counted by
  nobody and survives the removal of its name (`Overlap`), and its calls no longer follow the link table
  (`Routing.OverlapMisroutes`). A successful scaling to one instance or more in a group that is not the
  table's is the only step that does this, and it always does (`CurrentGroups.OnlyStrayingLoses`). Without
  such a step, and so always when operations on one key do not overlap, `stats` is the declared load and every
  live task of no failed batch is an instance in the table. In every run `stats` is at most the declared load.
* Calls follow the link table for handlers of groups that are the table's, and definitions added later reach a
  group's handlers exactly then. Tasks of a failed batch may outlive their group even when nothing overlaps
  (`CurrentGroups.FailedBatchOutlivesGroup`).
* A failed delete publish is final: the name set stays, the host's definition is gone, and no later
  `add_link` brings it back (`LinkController.FailedDeleteIsForever`). A failed add publish lasts until the
  next add.
* Of two Links with one id the first one wins, provider and values included: all orders of replay rebuild one
  host table exactly when Links of one triple agree (`Recovery.RecoveryExactlyWhen`).
* Both link keys collide on some inputs: dots in an actor key or link name, contracts that extend each
  other, actor keys of different lengths. The collision condition of the hash is an exact one.
* A handler reads its group's links until its call is answered. Operations and calls always finish exactly when
  no chain of nested calls comes back into a group whose links one of the link operations patches
  (`Reentry.FinishExactlyWhen`); otherwise a state can be reached from which they never do, until a request
  times out.
* A large response reaches its caller exactly if it is stored under the name it is read by, or the same
  bytes were left there by the request (`Rpc.Arrives`); that naming belongs to a library.
* If the status patch of a Link is lost, `delete_link` sees no complete status and drops no reference:
  `Controller.Ctx.DeleteLink` then changes nothing.

## Model

| member | source | states |
|---|---|---|
| LinkKeys.DottedIdInjective | src/main.rs:529 | with dot-free actor key and link name, two triples have one dotted id iff they are equal |
| LinkKeys.DottedIdNeedsDotFree | src/main.rs:583-586 | every dotted actor key and every dotted link name gives an id that a different triple has too |
| LinkKeys.HashCollisions | crates/host/src/lib.rs:744-754 | for actor keys of one length, exactly the triples of one actor whose contracts extend each other, the link name making up the difference, share a hash |
| LinkKeys.HashNeedsPrefixFree | crates/host/src/lib.rs:744-754 | whenever one contract properly extends another, every actor and link name give a collision |
| LinkKeys.HashNeedsEqualLength | crates/host/src/lib.rs:744-754 | a longer actor key can swallow the start of a contract |
| LinkKeys.KeysAgree | src/main.rs:529-530 | over keys of one length, prefix-free contracts and dot-free parts the two keys identify the same triples |
| LinkIndex.PutLink | crates/host/src/lib.rs:677-688 | the nested insertion changes the answer at its own contract and link name only |
| LinkIndex.DeleteLink | crates/host/src/lib.rs:724-729 | the nested removal changes the answer at its own contract and link name only, and leaves the contracts known |
| LinkIndex.ActorLinksLookup | crates/host/src/lib.rs:639-663 | after any part of the iteration, a lookup is the table's answer for visited entries and nothing otherwise: no fold step overwrites another |
| LinkIndex.ActorLinksExact | crates/host/src/lib.rs:635-664 | `get_actor_links` is exactly the function (contract, link name) -> provider of that actor |
| LinkIndex.ActorLinksOrderIndependent | crates/host/src/lib.rs:635-664 | the same nested map, empty levels included, for every iteration order of the table |
| LinkAgreement.CachesMirrorTable | crates/host/src/lib.rs:268-280 | in every reachable state each group's cache answers as the link table, except at the triple of the link operation between table and cache update |
| LinkAgreement.SnapshotPlusLogIsTable | crates/host/src/lib.rs:509-521 | in every reachable state a provider's start-up definitions followed by all messages published to it since are the table filtered to its key and link name, except at the operation in flight and at triples whose latest message could not be published |
| LinkAgreement.LinkInvKept | crates/host/src/lib.rs:667-741 | every step of every operation keeps table, caches, snapshots under way and provider copies in agreement |
| LinkAgreement.PatchedAgrees | crates/host/src/lib.rs:677-688 | patching the exempted triple restores full agreement of the cache |
| LinkAgreement.FreshView | crates/host/src/lib.rs:509-521 | a provider starts with exactly what it should hold, whatever link operation is in flight |
| LinkAgreement.ViewKeptByPublish | crates/host/src/lib.rs:690-701 | a published message settles the triple in flight; a failed one exempts it |
| Publishing.MissedExactly | crates/host/src/lib.rs:690-701 | after every run a running provider has missed a triple iff the latest publish about it since its start failed |
| Publishing.PublishedRunMirrors | crates/host/src/lib.rs:731-739 | after every run in which no publish failed, every running provider holds exactly the filtered table, except at the operation in flight |
| Publishing.LogExactly | crates/host/src/lib.rs:690-739 | exactly the successful publishes reach the log, each with its put or del message |
| Publishing.RunningExactly | crates/host/src/lib.rs:493-585 | a provider runs after a step iff the step started it, or it ran before and was not stopped; meanwhile it keeps its start-up definitions |
| Publishing.StartExactly | crates/host/src/lib.rs:566-585 | a successful start runs the provider with its definitions of that moment and nothing missed; a failed one runs nothing new; no other provider changes |
| Publishing.StopExactly | crates/host/src/lib.rs:592-631 | a stop takes away that instance alone, and the key iff no other instance runs |
| Schedule.ActorOpsBegin | crates/host/src/lib.rs:258-262 | a reconcile can begin iff no operation works on the name and the key is the registered one or there is none; a removal on any such name |
| Schedule.ActorOpGoesOn | crates/host/src/lib.rs:264-322 | in every reachable state the next step of an operation waits for nothing but the actors lock, and only when it takes it |
| Schedule.LinkOpGoesOn | crates/host/src/lib.rs:677-701 | a link operation patches its cache as soon as the actors lock is free, and its publish may succeed or fail |
| Schedule.SomeOpGoesOn | crates/host/src/lib.rs:249-366 | in every reachable state with an operation under way, one of those under way can go on |
| ActorRegistry.RegistryPartition | crates/host/src/lib.rs:258-290 | in every reachable state a name in the group of key k is registered under k, so in at most one group, and every group has a registered name |
| ActorRegistry.RegKept | crates/host/src/lib.rs:328-363 | every step of every operation keeps the partition, removal and zero-replica reconciles included |
| ActorRegistry.LiveTasksConserved | crates/host/src/lib.rs:426-470 | in every reachable state the un-aborted spawned tasks are exactly the instances of some group, in the table or dropped from it, plus the tasks of failed batches; no instance is aborted, leaked or counted twice; CurrentGroups.LiveTasksInTable says when the group is in the table |
| ActorRegistry.ScalingExact | crates/host/src/lib.rs:294-321 | scaling is the one operation for which dropped and kept instances, in order, are the old ones followed by the spawned ones, only one of the two happens, and `replica` instances remain; a failed batch leaves the list alone |
| ActorRegistry.TasksKeptByListChange | crates/host/src/lib.rs:298-321 | dropping and aborting a prefix and appending new tasks keeps the account of tasks |
| DeclaredLoad.StatsIsDeclaredLoad | crates/host/src/lib.rs:219-234 | after any run the instance count is at most the sum of the last successful replica counts of the names registered and not being removed, equal iff each positive one is found through the table, and equal after every run serialised per public key |
| DeclaredLoad.GroupIsDeclaredLoad | crates/host/src/lib.rs:223-227 | at every moment of a serialised run a group has as many instances as declared for its key |
| DeclaredLoad.StatsReadsDeclaredLoad | crates/host/src/lib.rs:223-227 | when groups change between the reads of the loop, it reports the sum of what was declared for each key at the moment its group was read |
| DeclaredLoad.NestedSumIsFlat | crates/host/src/lib.rs:223-227 | the nested sum over disjoint groups is the flat sum over the names in them |
| DeclaredLoad.CountAgainstDeclared | crates/host/src/lib.rs:223-227 | the nested count against the declared load, under the invariants |
| DeclaredLoad.DeclKept | crates/host/src/lib.rs:249-324 | every step keeps: a name in the table has as many instances as it last declared |
| DeclaredLoad.SerialKept | crates/host/src/lib.rs:268-281 | when operations on one key do not overlap, no group with members leaves the table and no reconcile holds a replaced group |
| CurrentGroups.LiveTasksInTable | crates/host/src/lib.rs:268-321 | in every reachable state every live task of no failed batch is an instance in the table iff every group with an instance is the table's; so it is after every run serialised per public key |
| CurrentGroups.OnlyStrayingLoses | crates/host/src/lib.rs:281-322 | where everything declared and every instance can be found through the table, a step leads to a state where it cannot iff it scales, successfully and to one instance or more, in a group that is not the table's |
| CurrentGroups.NoStrayNoLoss | crates/host/src/lib.rs:268-281 | after every run without such a step, whatever overlaps, `stats` is the declared load and every live task of no failed batch is in the table |
| CurrentGroups.SerialGroupsCurrent | crates/host/src/lib.rs:268-281 | after every run serialised per public key every group with members is the table's |
| CurrentGroups.ReliedMirrorsTable | crates/host/src/lib.rs:268-280 | the cache of a group that is the table's, or in serialised runs of any group with members, answers as the link table away from the operation in flight |
| CurrentGroups.NewLinksReachExactly | crates/host/src/lib.rs:677-688 | every definition added for a group's key shows up in its cache iff the group is the table's |
| CurrentGroups.FailedBatchOutlivesGroup | crates/host/src/lib.rs:431-468 | a serialised run after which the task of a failed batch lives on in a group that is not the table's |
| Effects.OthersUnaffected | crates/host/src/lib.rs:249-366 | in every reachable state, whatever overlaps, a step leaves registration, instances and declared load of every name but its own operation's alone |
| Effects.ReconcileEffect | crates/host/src/lib.rs:249-324 | a whole reconcile registers the name under the key, scales exactly its list, aborts exactly what was dropped from it, and affects no other name, link or provider |
| Effects.RemoveEffect | crates/host/src/lib.rs:327-366 | a whole removal unregisters the name, aborts exactly its instances, and affects no other name, link or provider |
| Effects.AddLinkdefEffect | crates/host/src/lib.rs:667-704 | one put message if the entry is vacant and the publish works, none otherwise; no actor is affected and no provider stops or starts |
| Effects.DeleteLinkdefEffect | crates/host/src/lib.rs:707-741 | one del message for the stored definition if there is one and the publish works, none otherwise; no actor is affected and no provider stops or starts |
| Overlap.OverlapLosesGroup | crates/host/src/lib.rs:335-359 | a reachable state with one declared running instance that `stats` does not count |
| Overlap.OverlapLeavesTaskRunning | crates/host/src/lib.rs:327-366 | a reachable state with nothing registered and a live task no failed batch started |
| HostOps.AddLinkdefReachable | crates/host/src/lib.rs:667-704 | `add_linkdef` run alone is a run of the machine |
| HostOps.DeleteLinkdefReachable | crates/host/src/lib.rs:707-741 | `delete_linkdef` run alone is a run of the machine |
| HostOps.ReconcileReachable | crates/host/src/lib.rs:249-324 | a whole reconcile run alone is a run of the machine |
| HostOps.RemoveReachable | crates/host/src/lib.rs:327-366 | a whole removal run alone is a run of the machine |
| Hosts.GoodPrefix | crates/host/src/lib.rs:431-468 | the number of subscriptions that succeed before the first failure |
| Hosts.Host.InstantiateActor | crates/host/src/lib.rs:412-471 | returns a batch of new tasks, or on the first failed subscription leaves exactly the tasks spawned so far running and untracked |
| Hosts.Host.AbortAll | crates/host/src/lib.rs:311-319 | aborts exactly the given tasks |
| Hosts.Host.FindGroup | crates/host/src/lib.rs:268-280 | the group of the key, created from a snapshot of the links if there is none |
| Hosts.Host.ScaleInGroup | crates/host/src/lib.rs:281-322 | brings the instance list to `replica`, aborting the dropped prefix; a failed batch changes no list |
| Hosts.Host.ReconcileActor | crates/host/src/lib.rs:249-324 | keeps all that is proved of runs; succeeds iff the image is fetched, the key is the registered one or there is none, and every subscription for a missing instance succeeds; success leaves exactly `replica` instances, failure the instances there were; no other name, link or provider is affected; a failure changes neither the declared load nor the instance count, a changed key nothing at all |
| Hosts.Host.RemoveActor | crates/host/src/lib.rs:327-366 | keeps all that is proved of runs; unregisters the name and aborts exactly its instances; no other name, link or provider is affected |
| Hosts.Host.DropFromGroup | crates/host/src/lib.rs:335-359 | aborts the instances of the name, drops it, and drops an emptied group |
| Hosts.Host.Stats | crates/host/src/lib.rs:219-234 | the two nested loops compute the sum of the declared replica counts |
| Hosts.Host.AddLinkdef | crates/host/src/lib.rs:667-704 | inserts if vacant, patches the shared cache, and logs one put message iff vacant and the publish works; a failed publish leaves table and cache changed; no actor or provider is otherwise affected |
| Hosts.Host.DeleteLinkdef | crates/host/src/lib.rs:707-741 | removes the stored definition and logs one del message for it iff there is one and the publish works; fails otherwise; no actor or provider is otherwise affected |
| Hosts.Host.StartProvider | crates/host/src/lib.rs:493-585 | succeeds iff the process comes up or already runs; a new one runs with a snapshot of its definitions; a failed start leaves an entry for the key and runs nothing new; other instances stay as they are |
| Hosts.Host.StopProvider | crates/host/src/lib.rs:592-631 | exactly that instance is gone, and the key iff no other instance runs |
| Admission.Validate | api/v1alpha1/link_webhook.go:83-106 | no errors iff admissible; each error iff its part is missing |
| Admission.ValidateUpdate | api/v1alpha1/link_webhook.go:119-137 | an update is admitted iff the spec is unchanged and admissible; a changed spec is reported as such, and each missing part as in creation |
| Admission.SpecNeverChanges | api/v1alpha1/link_webhook.go:119-137 | along every admitted history of an object its spec is the first one |
| Resolver.ResolveLink | src/main.rs:433-527 | the step-by-step resolver with early exits computes the two-stage resolution function |
| Resolver.ResolvesWhatItDenotes | src/main.rs:438-527 | registration is reached with a definition iff the Link denotes it: what a complete status says, otherwise what its actor and provider sources stand for |
| Resolver.RegisteredIsComplete | src/main.rs:578-586 | whatever is registered has actor key, provider key and link name, so deletion finds the same triple; uses the non-empty provider link |
| Resolver.AdmittedExits | src/main.rs:438-527 | for admitted specs the two "is empty" exits are unreachable and "set link name" is taken iff provider key and name come without a link name |
| Resolver.RetriesExactly | src/main.rs:459-520 | a Link is tried again after a minute iff an object it needs cannot be fetched, after ten seconds iff such an object has no public key yet or the provider's is not the one given, and never otherwise; the actor comes first |
| Resolver.WaitsExactly | src/main.rs:438-527 | when each of the four exits that wait for the Link itself is taken |
| Resolver.StickyResolution | src/main.rs:445-454 | once the status is written, every later resolution, whatever the API answers, gives the same definition, status and deletion triple along every admitted history |
| LinkController.PlayShows | src/main.rs:529-547 | after every run the two tables show, for every triple, the state of its own four-phase automaton: events about other triples never touch it |
| LinkController.RefCountingRefinesRelation | src/main.rs:583-598 | after every run, if no publish about the triple failed, the name set is exactly the Links added and not removed, never empty, and the host has the definition iff the id has an entry |
| LinkController.TablesDisagreeExactlyWhen | crates/host/src/lib.rs:669-701 | the two tables disagree about a triple exactly after a failed add until the next add, and from a failed delete on |
| LinkController.FailedDeleteIsForever | src/main.rs:591-595 | after a failed delete publish the host never has the definition again and the entry never goes |
| LinkController.FailedDeleteKills | src/main.rs:588-595 | removing the last Link of a live triple while publishing fails always leads there |
| LinkController.AddAgainChangesNothing | src/main.rs:539-546 | registering a registered Link changes no table |
| LinkController.RemoveUndoesAdd | src/main.rs:587-598 | removal right after an add restores both tables |
| Recovery.RecoveryOrderIndependent | src/main.rs:445-454 | replaying `add_link` over any order of Links with complete status rebuilds the same id -> names map, and the same host table when Links of one triple agree |
| Recovery.RecoveryExactlyWhen | src/main.rs:539-546 | all orders of Links with complete status rebuild one host table iff Links of one triple agree |
| Recovery.SomeOrderPrefers | src/main.rs:530-538 | any registered Link can be the one whose definition the host ends up with |
| Recovery.ReplayOrderIndependent | src/main.rs:529-547 | the same for any two lists of registrations with the same elements |
| Recovery.FirstOneWins | src/main.rs:539-546 | the smallest case: two registrations of one triple that disagree rebuild different host tables in different orders |
| Controller.Ctx.AddLink | src/main.rs:432-575 | keeps the tables what the handled events lead to; resolves and registers under the dotted id, unless the definition is new to both tables and its publish fails; then, with the patch it returns written, deletion finds the registered triple, and it returns none iff the status is already the one to write |
| Controller.Ctx.DeleteLink | src/main.rs:577-602 | keeps the tables what the handled events lead to; drops the reference and with the last one the definition; asks to be run again exactly when the host could not delete or publish |
| Controller.Ctx.NamesAreReferring | src/main.rs:529-598 | in the object, at any time: for a triple about which no publish failed the entry's names are the Links added and not removed, and the host has the definition iff there is an entry |
| Controller.PatchedIsComplete | src/main.rs:549-573 | once the patch of a registered Link is written, or when none is needed, its status is complete and deletion finds the registered triple |
| Controller.AddLinkIsFixedPoint | src/main.rs:529-561 | for a registered Link, once the patch its registration asked for is written, every later `add_link` changes no table and writes nothing, along every admitted history |
| Controller.DeleteLinkUndoesAddLink | src/main.rs:578-598 | deleting a Link, once the patch its registration asked for is written, restores the tables from before its registration |
| Locks.EveryOpOrdered | crates/host/src/lib.rs:219-233 | every operation on every branch takes locks in one rank order, `actor_keys` on its own, and gives all back |
| Locks.ReconcileHolds | crates/host/src/lib.rs:258-298 | a reconcile reads the links for a new group under the actors lock and has let go of it before it scales |
| Locks.RemoveHolds | crates/host/src/lib.rs:328-363 | a removal holds the actors lock over all it does in the group, and unregisters after that |
| Locks.StatsHolds | crates/host/src/lib.rs:219-233 | `stats` holds the actors lock throughout and reads the providers last |
| Locks.StatsTakes | crates/host/src/lib.rs:223-227 | between those it takes the lock of every group and every instance list, and no other |
| Locks.ProviderOpsHold | crates/host/src/lib.rs:493-509 | provider operations hold the providers lock throughout, a start also the links |
| Locks.LinkOpsHold | src/main.rs:530-538 | a link operation holds the link lock over table and cache, and patches the cache under the actors lock |
| Progress.NeverStuck | crates/host/src/lib.rs:258-281 | in every state with an unfinished operation some operation can move, unless a chain of calls comes back into a group whose links are patched: no circular wait |
| Progress.AllOperationsFinish | src/main.rs:207-277 | any number of operations and nested calls interleaved in any way: runs are bounded, writers are alone, and unless a chain of calls comes back into a group whose links are patched, a run that cannot go on has finished all |
| Progress.UpwardCallsFinish | crates/host/src/handler.rs:52-108 | calls that go upwards in some numbering of the groups never come back |
| Reentry.ReentrantCallCanBlock | crates/host/src/handler.rs:52-108 | the smallest case: a call handled by a call back into the same group, and one `add_link` |
| Reentry.ReturningChainCanBlock | crates/host/src/handler.rs:491-558 | every chain of calls that comes back into a group, with a link operation that patches its links, whatever else runs, can get stuck for ever |
| Reentry.FinishExactlyWhen | crates/host/src/lib.rs:677-688 | every run that cannot go on has finished all operations iff no chain of calls comes back into a group whose links one of the link operations patches |
| Topics.SubjectsNeverClash | crates/host/src/handler.rs:88-97 | for dot-free parts, actor, provider, shutdown, linkdefs.put and linkdefs.del subjects are equal iff kind and all parts are equal |
| Topics.TextIsJoin | crates/host/src/lib.rs:694-697 | each subject is the dot-joined list of its parts |
| Topics.DotsClash | crates/host/src/lib.rs:611-614 | a dot in a link name or a key makes two subjects one |
| Rpc.PackageOfSlashed | crates/host/src/handler.rs:55-57 | the package of `c/...` is c, for every slash-free c |
| Rpc.CallOperationWithPayload | crates/host/src/handler.rs:46-136 | outcome, message sent, topic and store are those of the call function |
| Rpc.BusCall | crates/host/src/handler.rs:491-596 | the second call path sends the same message on the same topic, and returns the same bytes or fails with it |
| Rpc.HandleCall | crates/host/src/actor.rs:116-172 | the receiving side computes the handling function, whose meaning Rpc.HandledExactly and Rpc.GateOnReceiving give |
| Rpc.HandledExactly | crates/host/src/actor.rs:116-172 | an instance replies iff the invocation is authentic, its request can be had, its origin's contract is claimed, the actor answers or rejects, and a large answer can be stored; and with what |
| Rpc.GateOnReceiving | crates/host/src/actor.rs:57 | an invocation that is not authentic or whose origin's contract is not claimed gets no reply and the actor is never asked |
| Rpc.HandlingStores | crates/host/src/actor.rs:127-153 | handling touches the store at the request and the response only, and a large answer replied to is in the store |
| Rpc.GateOnSending | crates/host/src/handler.rs:946-967 | nothing is sent under a contract the caller does not claim, or for an operation without a slash |
| Rpc.ReplyAcceptedExactly | crates/host/src/handler.rs:110-135 | the caller takes a reply iff it is to its own invocation and of the announced length, or found in the store when large; for every reply the bus may give |
| Rpc.AliasCallExactly | crates/host/src/handler.rs:924-927 | a call to an alias is sent iff it is known, its contract is claimed and a large request could be stored; then to what it stands for |
| Rpc.IdentifiedExactly | crates/host/src/handler.rs:438-446 | a name is a link iff the cache has the binding, and the actor of the namespace otherwise |
| Rpc.DeliveredExactly | crates/host/src/actor.rs:127-131 | the actor is given exactly the caller's bytes on either side of the threshold |
| Rpc.FramingTransparent | crates/host/src/handler.rs:59-135 | for all request and response lengths the caller gets exactly the actor's bytes or error; for large responses iff they are stored where they are read |
| Routing.DestinationIsTable | crates/host/src/handler.rs:902-930 | for a handler of a group that is the table's, or in serialised runs of any group with members, where a link call goes is what the link table holds for (actor, c, n), if the claims allow c |
| Routing.CallFollowsTable | crates/host/src/handler.rs:52-97 | in every reachable state a call made in a group that is the table's, or in serialised runs in any group with members, is sent iff the table has the triple, the claims list c or c is empty, and a large request could be stored; then to that provider's topic; otherwise nothing is sent or stored; excepts the triple of the operation in flight |
| Routing.NewLinksCalledExactly | crates/host/src/lib.rs:677-688 | every definition added completely for a group's key is where a permitted call to it goes iff the group is the table's |
| Routing.StaleHandlerMissesLink | crates/host/src/lib.rs:677-688 | for every contract a group that is not the table's misses some definition once it is added |
| Routing.OverlapMisroutes | crates/host/src/lib.rs:335-359 | a reachable state, nothing under way, with a live instance whose call to a definition the table holds does not go there |
| Routing.IdentifiedTargetResolves | crates/host/src/handler.rs:433-447 | for the same handlers a name is identified as a link iff the table has it, and as the actor otherwise; a call to a link so identified has a destination iff the claims allow it |
| Routing.TopicTellsProvider | crates/host/src/handler.rs:88-92 | for dot-free parts two providers share a topic of one link name iff they are the same |
| Routing.ActorCallReachesActor | crates/host/src/lib.rs:426-430 | an actor-to-actor call goes on the topic the callee's instances subscribe to, and on no other actor's |

## Left out

- Several hosts, and the controller library: one host; reconciles of one object never overlap; finalizers, requeueing and watches are not modelled beyond which events may follow each other.
- Delivery of published messages to a running provider is assumed, as is that a provider keeps its definitions by triple.
- The steps of `HostMachine` are atomic while an exclusive lock is held.
- DeclaredLoad.StatsIsDeclaredLoad: reads all groups at one moment; the loop that reads them one after the other is DeclaredLoad.StatsReadsDeclaredLoad, for serialised runs.
- Timeouts: a call answered by a provider ends by itself; the request timeout that ends the situation of `Reentry` is not modelled.
- Nested calls of `Progress` may run side by side and at any time, which leaves more interleavings than an actor that makes them one after the other.
- The locks of aliases, targets and registry settings.
- Image fetching, claims parsing, key pairs, antiforgery checks, process start and its input: success or failure is a parameter.
- SHA-256 and its hex form: taken as injective; Invocation ids are a parameter, and the one of a framed call is new to the chunk store.
- Chunk threshold, object name of a response, and whether reading removes the object: parameters, since the chunk store is not part of this repository.
- Socket failures around the second call path, and encoding and decoding of messages: assumed to succeed.
- Negative replica counts: `replicas as usize` turns them into huge numbers; the model takes natural numbers.
- Changed images under an unchanged key, and several Provider objects sharing key and link: the code does nothing about either.
- `set_target`, the blobstore, key-value, messaging and logging methods, label defaulting, status and timestamp building, configuration and start-up: easy members only.
