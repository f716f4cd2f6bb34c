# pold, verified

A Dafny model of the hard parts of pold, a policy daemon on D-Bus, of the D-Bus object library
embedded in it (`gdbus/`), and of the session plugin it ships for ConnMan. `dafny verify
dfyconfig.toml` checks everything.

Each component has a model on values, the theorems about it, and the imperative code as classes and
methods proved equal to that model.

**Object server and its mirror** (`gdbus/object.c`, `gdbus/client.c`). The server keeps a tree of
objects with interface lists, queues what observers have to be told, flushes the queue before every
ordinary message and caches introspection texts; the client rebuilds objects, interfaces and property
values from a GetManagedObjects reply and signals (D-Bus Specification, section "Standard
Interfaces"). `ObjectModel` is the server, `Observers` what a stream of messages teaches, `Published`,
`ServerInvariant`, `ServerCalls`, `ServerApi`, `Clients`, `PropertyValues`, `ValueInvariant`,
`ValueCalls` and `IntrospectionCache` keep the invariants over every call, and `Runs` states the
results over whole runs: tree, lifetime, published sets, order of signals, and that a client's proxies
end up as the server's objects. Runs are *disciplined*: the manager is attached first; a path is
registered and released only while nothing is registered below it; a name is not registered again on
a surviving path while its withdrawal is queued; built-in names are left alone. Values need three more
guards: a table names each property once, no interface is removed while a sibling has changes queued,
and changes are reported before objects are asked for. `ObjectTree` and `Published` show for the tree
and the announced sets that the guards are exact; `Guards` and `GuardRuns` say exactly what a synced
client holds after the one call that does not meet its guard, and `CounterRuns` gives such runs.
`ObjectRules` and `IntrospectionRules` say on the fields of interface tables what is registered, shown,
reported and introspected; `DefaultRun` is a run with experimental members disabled.
`ObjectServer` and `ProxyClient` are the records and lists updated in place.

**Watches** (`gdbus/watch.c`). Listeners with callback lists that are drained while callbacks add and
remove watches. Callbacks are scripts: what a callback does is an arbitrary finite list of additions
and removals, chosen per callback, and a return value. `WatchInvariant` and `WatchRefinement` show
that the registry is a map from fresh ids to watches, with match rules and the connection filter kept
exactly; `WatchDispatch` says who is called in a pass and who is left; `WatchMessage` is one listener's visit,
`WatchWalk` the walk of a signal over a list of listeners that changes meanwhile, and the deletion
loop as steps; `WatchQuiet` tells from the registry before a signal which listeners it empties;
`WatchCalls` says on the fields of rules and signals who is called in a visit and who is left,
`WatchHeard` the same over a whole walk, and `WatchRequests` from the call that adds a watch;
`WatchHistory` runs calls and signals in any order; `WatchRegistry` is the code. A signal asks of the
registry only that nothing is in dispatch, that ids suffice for all callbacks still due, and that no
callback both removes itself and returns FALSE.

**Pending answers** (`gdbus/object.c`). `PendingCalls`: argument signatures, privileged calls and
property sets that are completed later, and which method of a table a call reaches.

**JSON to D-Bus** (`src/dbus-json.c`). Signature inference and value emission are separate recursions
that must agree. `JsonToDBus` has both, with a decoder; `JsonWriter` writes through `MessageWriter`,
whose preconditions are those of the append functions (D-Bus Specification, section "Type System").
`JsonTypes` says on the constructors what each value becomes.
`ValueCopy` is the copy of received values in `gdbus/client.c`.

**Policies** (`src/policy.c`). A two-way index between policy ids and applications, the choice of the
active policy, and update rounds that may fail half-way. `PolicyModel`, whole runs in `PolicyRuns`,
`PolicyRules` with what is accepted, chosen and sent on the texts of ids, and `PolicyDaemon` with linked
lists behind sentinel nodes.

**Session scheduler** (`connman/`, the plugin inside the patch). `SessionModel` scores, sorts and walks;
`SessionChoice` says on sessions, bearers and states which service that is;
`SessionPlugin` is the code.

## What turned out false of the code

* A listed agent's removal also takes applications of agents whose name continues its own
  (`PolicyModel.PrefixFlaw`; exact condition in `PolicyModel.RemovesOwnIff`).
* An agent that asks again for an application while an update for it is due is answered with the new
  policy, but the old one stays remembered; if the policy then changes back, a completed round leaves
  the agent with the wrong one (`PolicyRuns.LostUpdate`; exact conditions in
  `PolicyRuns.RequestInStepIff` and `PolicyRuns.HoldsIff`).
* The deletion loop of the message filter always goes on with the second entry of its list. It ends
  exactly if a signal finds at most one listener empty and that one still listed
  (`WatchWalk.DeletionEndsIff`, and `WatchWalk.DeletionFails` for what happens else); when callbacks
  leave the registry alone this is that at most one matching listener keeps no callback
  (`WatchQuiet.QuietEndsIff`). `WatchQuiet.TwoEmptied` is a registry and a signal for which it fails.
* An argument table whose last signature is empty refuses every message, also the right one
  (`PendingCalls.ArgsHaveSignature`; `PendingCalls.LastEntryEmpty` is such a table and message).
* A name registered again while its withdrawal is queued is announced and then withdrawn, so that
  clients miss a live interface (`CounterRuns.ReAddRun`; exact conditions in `Guards.ReAddIff` and
  `GuardRuns.ReAddCoherentIff`).
* Property changes queued on siblings of a removed interface are left behind by the next idle callback,
  so that clients keep old values although every change was reported (`CounterRuns.LostChangeRun`;
  exact conditions in `Guards.SiblingChangesLostIff` and `GuardRuns.SiblingTableIff`). They go out with
  the next report that queues anything on the object (`Guards.LeftBehindGoesOutIff`).
* The comment above `get_array_type` promises the common type of the entries; for a single entry the
  code returns none, so such arrays become arrays of variants. The model follows the code.

## Model

| member | source | states |
|---|---|---|
| Paths.AncestorIsPrefix | gdbus/object.c:687-735 | for absolute paths, the paths met by cutting at the last slash are the root and exactly the strict prefixes that end right before a slash |
| Paths.AncestorsChain | gdbus/object.c:687-735 | any two ancestors of one path are comparable |
| Paths.NearestIsLowest | gdbus/object.c:687-735 | the upward search returns the lowest registered path above the given one, and nothing exactly when there is none |
| Paths.RootAboveAll | gdbus/object.c:697-715 | the root is met from every absolute path other than itself, so the search ends there |
| ObjectTree.InvalidateSpec | gdbus/object.c:687-735 | for every path and registry the search ends, returns the nearest registered strict ancestor, drops the cached text of exactly the registered strict ancestors, and touches nothing but links and caches |
| ObjectTree.InsertKeepsTreeIff | gdbus/object.c:687-735 | registering a new path keeps every link at the nearest registered strict ancestor if and only if nothing is registered below it |
| ObjectTree.ReleaseKeepsTreeIff | gdbus/object.c:1012-1032 | releasing a path keeps the tree if and only if nothing is registered below it |
| ObjectTree.WalkVisitsOnce | gdbus/object.c:1110-1124 | on a tree the recursive walk below an object lists every registered path strictly below it, exactly once |
| ObjectTree.SiblingsApart | gdbus/object.c:1110-1124 | the subtrees of two children of one object share no path |
| Published.AddKeeps | gdbus/object.c:1177-1229 | adding an interface whose name is not waiting to be withdrawn keeps: announced = current minus `added` plus `removed` |
| Published.AddBreaks | gdbus/object.c:1220-1228 | adding back a name whose withdrawal is queued breaks that equation, so the guard is exact |
| Published.RemoveKeeps | gdbus/object.c:645-685 | removing an interface keeps the equation in both cases: announced (queued for withdrawal) or not yet announced (cancelled) |
| Published.ProcessedKeeps | gdbus/object.c:993-1010 | the idle callback announces, reports changes, then withdraws; every signal fits what went before, and afterwards observers know exactly the object's interfaces |
| ServerInvariant.AddInterfaceKeeps | gdbus/object.c:1177-1229 | adding an interface keeps the whole invariant: tree, announced sets of all paths, dirty list |
| ServerInvariant.RemoveInterfaceKeeps | gdbus/object.c:645-685 | removing an interface keeps the whole invariant |
| ServerInvariant.ProcessChangesKeeps | gdbus/object.c:993-1010 | the idle callback keeps the whole invariant and leaves its object without deferred work |
| ServerInvariant.FlushKeeps | gdbus/object.c:1467-1480 | a flush keeps the invariant, leaves no object with deferred work and changes no object's interface names |
| ServerCalls.GenericUnregisterKeeps | gdbus/object.c:1012-1032 | dropping a leaf path, with its last emissions, keeps the invariant |
| ServerCalls.PathRefNew | gdbus/object.c:1231-1264 | a new object enters tree, queues and announced sets consistently |
| ServerApi.RegisterKeeps | gdbus/object.c:1331-1366 | registering under its guard keeps the invariant, the reference counts and the distinct names, whether it succeeds or fails |
| ServerApi.RegisterFails | gdbus/object.c:1331-1366 | every failing branch of registration restores the set of paths, and changes no object but for links and caches |
| ServerApi.UnregisterKeeps | gdbus/object.c:1368-1392 | unregistering under its guard keeps the invariant and the books |
| ServerApi.RefUnref | gdbus/object.c:1231-1288 | taking a reference and giving it back leaves a registered path as it was |
| Clients.ReplyLists | gdbus/object.c:1126-1160 | the GetManagedObjects reply lists every registered path below the root exactly once, with its published interfaces |
| Clients.ReplySyncs | gdbus/client.c:961-990 | a client that only followed the stream knows exactly the announced interfaces after the reply, although the reply leaves out queued ones and is overtaken by the flush |
| PropertyValues.AnnouncedLook | gdbus/object.c:516-543 | what an announcement says of each property is the value the getter returns, and nothing for unreadable, hidden or missing ones |
| PropertyValues.ChangedLook | gdbus/object.c:1637-1702 | one PropertiesChanged signal brings every queued property up to date and touches no other |
| ValueInvariant.ProcessedFresh | gdbus/object.c:993-1010 | after the idle callback nothing is queued and every announced value is current unless the user has not reported it |
| ValueCalls.EmitValues | gdbus/object.c:1715-1756 | reporting a change discharges it: it is queued, or its interface is not announced yet, or it is not offered; duplicates and unannounced reports may be dropped |
| IntrospectionCache.RegisterCaches | gdbus/object.c:1331-1366 | registration leaves every cached text absent or current, and no placeholder once anything is registered below the root |
| IntrospectionCache.UnregisterCaches | gdbus/object.c:1368-1392 | unregistration leaves every cached text absent or current; a placeholder is left only at a root with nothing below it |
| IntrospectionCache.IntrospectCaches | gdbus/object.c:233-251 | generating a missing text stores the current one; a placeholder is left only at a root with nothing below it |
| Runs.RunTree | gdbus/object.c:687-735 | in every disciplined run the links form the forest of nearest registered strict ancestors |
| Runs.Lifetime | gdbus/object.c:1231-1288 | in every disciplined run a path's reference count is the number of its user interfaces (plus the attached manager), positive exactly while registered, with distinct interface names |
| Runs.PublishedSet | gdbus/object.c:635-685 | in every disciplined run: announced = interfaces minus `added` plus `removed`; deferred work exactly on the dirty list, each object once; a flush empties it |
| Runs.StreamSafety | gdbus/object.c:952-1010 | in every disciplined run the outgoing stream takes each interface through a prefix of Added, PropertiesChanged*, Removed, repeated |
| Runs.SafePhase | gdbus/object.c:952-1010 | a stream in which every signal fits is one of those prefixes for every interface |
| Runs.AddThenRemoveSilent | gdbus/object.c:645-685 | an interface removed while its announcement waits is on neither list afterwards, and neither its removal nor the next flush says anything about it |
| Runs.SetCoherence | gdbus/client.c:843-990 | in every disciplined run a client that subscribed at any time and was answered later holds, after flush and consumption, exactly one proxy per live interface below the root, without the two built-in ones |
| Runs.ValueCoherence | gdbus/client.c:218-280 | in such runs with siblings idle and changes reported, each proxy's table equals the readable, existing, visible server properties with their current values |
| Runs.IntrospectionCoherence | gdbus/object.c:193-251 | in every disciplined run a cached introspection text is absent or what would be generated now; the root carries its placeholder only while nothing else is registered |
| Guards.ReAddIff | gdbus/object.c:993-1010 | re-registering a name on a surviving path reaches observers if and only if its withdrawal is not queued; else the live interface stays unknown |
| Guards.ToldAfterProcessing | gdbus/object.c:993-1010 | whatever the lists hold, a name in both `added` and `removed` ends up withdrawn |
| Guards.SiblingChangesLostIff | gdbus/object.c:645-685 | after a removal the next idle callback leaves changes queued if and only if a sibling had some queued |
| Guards.LeftBehindGoesOutIff | gdbus/object.c:1728-1756 | changes left behind go out with the next report that queues something on the object, and not if the same property is reported once more |
| GuardRuns.ReAddCoherentIff | gdbus/object.c:993-1010 | after a registration on a surviving path, at the end of any disciplined run, each synced client holds the live interfaces once the queue is flushed if and only if the name was not waiting to be withdrawn |
| GuardRuns.SiblingTableIff | gdbus/object.c:645-685 | after a removal at the end of any disciplined and careful run with all changes reported, a synced client's table of another announced interface is the live one once the queue is flushed if and only if that interface had nothing queued but values announced before |
| CounterRuns.ReAddRun | gdbus/object.c:993-1010 | a run from the start that meets all guards but the one on queued withdrawals, after which a synced client misses a live interface although the queue is flushed |
| CounterRuns.LostChangeRun | gdbus/object.c:645-685 | a run from the start with every change reported and the queue flushed, after which a synced client holds an old value |
| ObjectRules.RegisterIff | gdbus/object.c:1331-1366 | under its guard a registration succeeds if and only if no interface of the name is on the path and some method, signal or property of the table is not experimental unless these are enabled; then the interface is on the object as given, behind the others |
| ObjectRules.LiveShows | gdbus/object.c:516-543 | an interface's live table has exactly the readable properties that are not experimental unless these are enabled and, if optional, have a value, each with the value behind it |
| ObjectRules.ClientShows | gdbus/client.c:218-280 | in every disciplined and careful run with nothing left unreported, a synced client's table of a live interface is exactly that, whether experimental members are enabled or not |
| ObjectRules.ClientNames | gdbus/client.c:843-990 | in every disciplined run a synced client knows of every path below the root exactly the interfaces that are on it, without the two built-in names |
| ObjectRules.ReportQueues | gdbus/object.c:1715-1756 | with or without an object manager, a report leaves a property queued if and only if it was queued, or the interface is announced or there is no manager, and the table has a property of this name that is not experimental unless these are enabled |
| IntrospectionRules.DocLists | gdbus/object.c:131-191 | the text lists the interfaces in order with exactly the methods, signals and properties that are not experimental unless these are enabled |
| IntrospectionRules.NodesLead | gdbus/object.c:193-231 | the text names as child nodes exactly the path elements right below the object that lead to a registered path |
| IntrospectionRules.BuiltinsListed | gdbus/object.c:1254-1366 | an object made for its first interface lists Introspectable with its one method, the interface, and with properties also Properties with three methods and one signal |
| IntrospectionRules.ManagerListed | gdbus/object.c:1162-1175 | the root lists Introspectable and ObjectManager with its method and its two signals once the manager is attached |
| DefaultRun.Refused | gdbus/object.c:123-129 | with experimental members disabled a table of experimental members only is refused |
| DefaultRun.OrdinaryOnly | gdbus/object.c:1189-1193 | a run with experimental members disabled: a table with a method and two properties, one experimental, is registered, and the client that asks holds the ordinary property with its value and not the other |
| ObjectServer.Server.AddPending | gdbus/object.c:635-643 | the object gets an idle callback once and joins the dirty list once |
| ObjectServer.Server.EmitInterfacesAdded | gdbus/object.c:558-595 | one InterfacesAdded for the interfaces in `added`, which is emptied; nothing for the root |
| ObjectServer.Server.ProcessPropertiesFromInterface | gdbus/object.c:1637-1702 | one PropertiesChanged with changed and invalidated parts in queueing order |
| ObjectServer.Server.EmitInterfacesRemoved | gdbus/object.c:952-981 | one InterfacesRemoved for `removed`, which is emptied |
| ObjectServer.Server.ProcessChanges | gdbus/object.c:993-1010 | equals the model's step on the whole registry |
| ObjectServer.Server.Flush | gdbus/object.c:1467-1480 | walks the dirty list as it was at the start and equals the model's flush |
| ObjectServer.Server.SendMessage | gdbus/object.c:1482-1507 | the deferred work goes out before the message |
| ObjectServer.Server.AddInterface | gdbus/object.c:1177-1229 | equals the model's step: new interface at the end, queued for announcement below a parent |
| ObjectServer.Server.RemoveInterface | gdbus/object.c:645-685 | equals the model's step, including the cancelled announcement |
| ObjectServer.Server.InvalidateParentData | gdbus/object.c:687-735 | the recursion over shorter paths ends and equals the model's function |
| ObjectServer.Server.ObjectPathRef | gdbus/object.c:1231-1264 | returns the live object of the path with one more reference |
| ObjectServer.Server.DropPath | gdbus/object.c:1012-1032 | children are handed to the parent, deferred work is emitted, links to the object disappear |
| ObjectServer.Server.ObjectPathUnref | gdbus/object.c:1266-1288 | drops a reference and, with the last one, the object |
| ObjectServer.Server.RegisterInterface | gdbus/object.c:1331-1366 | result and new registry are those of the model, on success and on every failure; `ObjectRules.RegisterIff` says when it succeeds |
| ObjectServer.Server.UnregisterInterface | gdbus/object.c:1368-1392 | result and new registry are those of the model |
| ObjectServer.Server.EmitPropertyChanged | gdbus/object.c:1715-1756 | queues the property once if it is offered and announced (`ObjectRules.ReportQueues`) |
| ObjectServer.Server.HandleIntrospect | gdbus/object.c:233-251 | cache, text and reply are those of the model |
| ObjectServer.Server.TreeLinksDown | gdbus/object.c:1110-1124 | the tree invariant gives what the walk over the children needs: they are registered and lie strictly below |
| ObjectServer.Server.HandleGetManagedObjects | gdbus/object.c:1126-1160 | the reply is the model's walk, built before the flush that overtakes it |
| ObjectServer.Server.AttachObjectManager | gdbus/object.c:1780-1794 | a fresh connection becomes the model's initial state |
| ProxyClient.GDBusProxy.UpdateProperties | gdbus/client.c:254-280 | the table learns each entry |
| ProxyClient.GDBusClient.ProxyLookup | gdbus/client.c:344-359 | finds the proxy of path and interface if there is one |
| ProxyClient.GDBusClient.ParseProperties | gdbus/client.c:843-870 | updates the one proxy or makes one, never for the two skipped interfaces |
| ProxyClient.GDBusClient.ParseInterfaces | gdbus/client.c:872-898 | the path's view changes as the model's observer learns |
| ProxyClient.GDBusClient.ProxyRemove | gdbus/client.c:455-472 | exactly the proxy of this path and interface goes |
| ProxyClient.GDBusClient.InterfacesRemoved | gdbus/client.c:925-959 | all named interfaces of the path go, nothing else |
| ProxyClient.GDBusClient.PropertiesChanged | gdbus/client.c:361-405 | changed values are set and invalidated ones forgotten |
| ProxyClient.GDBusClient.ParseManagedObjects | gdbus/client.c:961-990 | every object of the reply is learnt in turn |
| ProxyClient.GDBusClient.Receive | gdbus/client.c:900-990 | any message changes the view of every path as the model's client hears it |
| PendingCalls.ArgsHaveSignature | gdbus/object.c:614-633 | the streaming comparison accepts exactly the concatenation of the argument signatures, but nothing if the last one is empty; with non-empty signatures exactly the concatenation |
| PendingCalls.DeliveredIff | gdbus/object.c:1034-1075 | a call is handled if and only if some method of its name takes its signature, is not experimental unless these are enabled, and has none of its name before it that takes it or is experimental while these are disabled; it waits if and only if the privilege of this method is guarded, and runs otherwise |
| PendingCalls.LastEntryEmpty | gdbus/object.c:614-633 | a method table and a message with exactly its signature that does not reach it, as the last argument entry is empty |
| PendingCalls.CompletedOnce | gdbus/object.c:278-328 | in every run with fewer than 2^32 ids, ids stay distinct over waiting and completed entries, so nothing is completed twice |
| PendingCalls.NothingLost | gdbus/object.c:383-421 | every deferred call or set is waiting or completed exactly as often as it was deferred |
| PendingCalls.UsedIdIgnored | gdbus/object.c:426-460 | an id that is completed or was never handed out changes nothing |
| PendingCalls.Security.Complete | gdbus/object.c:285-328 | the first entry with the id is completed; a granted one is run, a denied one answered with an error, and nothing guarded runs otherwise |
| PendingCalls.Security.CheckPrivilege | gdbus/object.c:383-421 | a guarded call is queued under the next id, and an immediate answer completes it |
| PendingCalls.Security.Deliver | gdbus/object.c:1034-1075 | the first method that fits by name and signature is run, or waits if guarded; an experimental one ends the search while these are disabled |
| PendingCalls.PropertySets.Start | gdbus/object.c:908-918 | a property set is queued under the next id |
| PendingCalls.PropertySets.Complete | gdbus/object.c:426-446 | the entry with the id leaves the list and is answered |
| ValueCopy.IterAppendIter | gdbus/client.c:128-168 | copying a value at an iterator writes exactly its token stream, with open and close calls balanced |
| ValueCopy.Store | gdbus/client.c:170-204 | a stored property value reads back as the value received |
| DBusValues.ReadBack | gdbus/client.c:128-168 | the token stream of a value is uniquely readable, whatever follows it |
| JsonToDBus.GetArrayType | src/dbus-json.c:40-64 | the loop returns the common type of the entries, and none for fewer than two entries or mixed types |
| JsonToDBus.SigComplete | src/dbus-json.c:68-125 | the inferred signature of a null-free value is one complete type |
| JsonToDBus.EncodeWellTyped | src/dbus-json.c:97-274 | for every null-free JSON value the emitted value has exactly the inferred signature at every level: array elements, variants, dictionary entries; objects are `a{sv}` |
| JsonToDBus.Lossless | src/dbus-json.c:134-274 | reading a compiled value back gives the same JSON value if and only if all integers fit the C `int` and no string holds a NUL |
| JsonToDBus.CompileInjective | src/dbus-json.c:173-274 | different fitting values never compile to the same stream, over empty, one-element, homogeneous, mixed and nested arrays |
| JsonTypes.ScalarBecomes | src/dbus-json.c:134-171 | truth values and reals keep their values, integers are cut to 32 bits, strings end before their first NUL, each with the signature of its type |
| JsonTypes.ArrayBecomes | src/dbus-json.c:68-95 | two or more strings, integers, reals or equal truth values become an array of this type whose elements are the values themselves; every other array becomes one of variants, each with the type and value of its entry |
| JsonTypes.ObjectBecomes | src/dbus-json.c:213-246 | an object becomes a dictionary whose entries are, in order, the names and the values in variants of their own types |
| JsonTypes.SigIsOneOf | src/dbus-json.c:97-125 | every null-free value has one of ten signatures |
| MessageWriter.Message.OpenContainer | src/dbus-json.c:173-246 | a container opens only where its signature is expected |
| MessageWriter.Message.CloseContainer | src/dbus-json.c:173-246 | the innermost container is complete when it is closed, and its parent takes it |
| JsonWriter.AppendArray | src/dbus-json.c:173-211 | writes the stream of the model's array, whose type and elements are those of `JsonTypes.ArrayBecomes`, in a valid message, back at the same nesting |
| JsonWriter.AppendObject | src/dbus-json.c:213-246 | writes the stream of the model's object |
| JsonWriter.AppendJsonValue | src/dbus-json.c:248-274 | writes the stream of the model's value |
| JsonWriter.Compile | src/dbus-json.c:276-279 | compiling into an empty message leaves it complete and readable back |
| WatchInvariant.AddInv | gdbus/watch.c:691-780 | every addition keeps the registry in order: distinct used ids, no empty listener, name watches, one match rule per listener, one filter per connection with listeners |
| WatchInvariant.RemoveWatchInv | gdbus/watch.c:782-802 | every removal keeps the registry in order, through the deletion of listeners and the cascade |
| WatchRefinement.FreshId | gdbus/watch.c:320-345 | ids handed out are not zero and not in use |
| WatchRefinement.IdsAreKeys | gdbus/watch.c:320-345 | an id determines its watch |
| WatchRefinement.AddRefines | gdbus/watch.c:691-780 | adding extends the map from ids to watches by exactly the new watch and, for the first watch of a well-known name's listener, its internal name watch |
| WatchRefinement.RemoveRefines | gdbus/watch.c:782-802 | removal deletes exactly the id and, if it empties a listener, that listener's name watch |
| WatchRefinement.UnknownId | gdbus/watch.c:782-802 | removing an unknown id changes nothing |
| WatchRefinement.DoInv | gdbus/watch.c:691-802 | a sequence of additions and removals using fewer than 2^32 ids keeps the registry in order, also while listeners are in dispatch |
| WatchRefinement.FilterIff | gdbus/watch.c:207-302 | the message filter is installed on a connection, once, if and only if a watch on it is registered |
| WatchDispatch.DoWorn | gdbus/watch.c:320-395 | what callbacks do to a listener in dispatch: the ids they remove leave both lists, what they add goes behind the processed ones |
| WatchDispatch.TurnReady | gdbus/watch.c:397-422 | every turn shortens the list and leaves the listener ready for the next, so the pass ends |
| WatchDispatch.TurnCases | gdbus/watch.c:397-422 | one turn removes exactly what its callback removes, directly or by its return value, and keeps the callback otherwise |
| WatchDispatch.PassSpec | gdbus/watch.c:397-422 | one pass calls exactly the callbacks present at the start that are not removed before their turn, in order; survivors keep their order; everything else on the list is newer |
| WatchMessage.CalledIff | gdbus/watch.c:397-422 | a callback is called if and only if it has the function and is not among what the earlier calls removed |
| WatchMessage.CalledOnce | gdbus/watch.c:397-422 | no callback is called twice in a pass |
| WatchMessage.VisitSpec | gdbus/watch.c:534-556 | a listener that a signal reaches is left unlocked with exactly the survivors of its pass |
| WatchMessage.VisitInv | gdbus/watch.c:534-562 | a visit keeps the registry in order up to the listener it may leave empty |
| WatchMessage.VisitShrinks | gdbus/watch.c:534-562 | every visit uses up an id or comes nearer to the end of the list, so a message is done after finitely many visits |
| WatchCalls.CalledInVisit | gdbus/watch.c:534-552 | in a visit a callback is called if and only if the listener is one of this connection each of whose set fields (owner, path, interface, member, argument) is that of the message, the callback has the function for it, and no callback of the listener that is called before removes it |
| WatchCalls.KeptInVisit | gdbus/watch.c:397-502 | a callback with a function is left after such a visit if and only if no callback called in it removes it, and it does not end itself: a signal callback by its return value, an owner callback by having only one of its two functions on a unique name |
| WatchHeard.HeardBelongs | gdbus/watch.c:519-561 | whatever callbacks do under way, of the watches made before a signal only those are called that have the function, on a listener of this connection each of whose set fields is that of the message, its owner brought up to date if this signal tells it |
| WatchHeard.CalledIffAsked | gdbus/watch.c:519-561 | every watch made before a signal gets its turn at a stop of the walk and is called if and only if the fields of its listener then are those of the message, it has the function and no callback of the listener called before removes it; or it is removed before its turn, and not called; callbacks that leave the registry alone never do the latter |
| WatchHeard.OwnersLearnt | gdbus/watch.c:424-437 | a visit for owner changes gives exactly the listeners of the name the new owner and changes no other rule |
| WatchRequests.NewWatchTurn | gdbus/watch.c:691-780 | a watch just added is called in its turn if and only if the signal is one that the request asks for, on the fields of the request, and no callback of the listener called before removes it; or it is removed before |
| WatchRequests.NewWatchCalled | gdbus/watch.c:691-780 | if callbacks leave the registry alone, the next signal calls a new watch if and only if connection, unique sender, path, interface, member and first argument of the request are those of the signal, with the names of the built-in signals for properties and services, and connect or disconnect by the new owner |
| WatchRequests.RuleAdded | gdbus/watch.c:139-185 | after a watch is added a match rule is registered with sender, path, interface, member and argument of the request and nothing else |
| WatchWalk.NextCalm | gdbus/watch.c:519-561 | a visit in a walk that started at rest leaves the registry in order up to the listeners found empty, nothing in dispatch, enough ids for all callbacks still due, and the end of the walk nearer |
| WatchWalk.MessageInv | gdbus/watch.c:519-561 | whatever callbacks do, the walk of a signal that comes to a registry at rest ends, and leaves it in order up to the listeners found empty |
| WatchWalk.MessageRestores | gdbus/watch.c:504-585 | a signal that comes to a registry at rest and whose deletion loop ends leaves the registry in order and at rest |
| WatchWalk.DeletionEndsIff | gdbus/watch.c:566-580 | the deletion loop, stepped on the registry and the list, ends if and only if the list is empty, or has one entry that is still listed, which is then deleted if it has no callbacks |
| WatchWalk.DeletionFails | gdbus/watch.c:566-580 | with two or more entries the loop passes over the second for ever if that got callbacks back, and else comes to a freed record |
| WatchQuiet.QuietEndsIff | gdbus/watch.c:519-580 | if callbacks leave the registry alone, the listeners found empty are told from the registry before the signal, and the deletion loop ends if and only if at most one listener matches and keeps no callback |
| WatchQuiet.TwoEmptied | gdbus/watch.c:566-580 | two watches added to the empty registry and a signal that both decline further: two listeners are found empty and the deletion loop never ends |
| WatchHistory.EveryHistory | gdbus/watch.c:207-302 | in every history of calls and signals from the empty registry on the registry is in order between events, and the message filter of a connection is installed, once, if and only if a watch on it is registered |
| WatchMessage.MalformedDropsAll | gdbus/watch.c:455-470 | an owner signal without three strings leaves the matching listener without callbacks |
| WatchRegistry.Registry.Find | gdbus/watch.c:122-137 | finds whether the connection has a listener |
| WatchRegistry.Registry.FindMatching | gdbus/watch.c:81-120 | the first listener with exactly this rule |
| WatchRegistry.Registry.FilterDataGet | gdbus/watch.c:207-258 | the matching listener, or a new one with match rule and filter |
| WatchRegistry.Registry.AddCallback | gdbus/watch.c:320-345 | the callback joins the list, or the processed ones during dispatch, under the next id |
| WatchRegistry.Registry.AddWatch | gdbus/watch.c:691-780 | id and new registry are those of the model |
| WatchRegistry.Registry.RemoveOne | gdbus/watch.c:365-395 | equals the model's removal, with destruction and cascade |
| WatchRegistry.Registry.RemoveWatch | gdbus/watch.c:782-802 | equals the model's removal; the result says whether the id was found |
| WatchRegistry.Registry.RunFilter | gdbus/watch.c:397-502 | the loop calls and leaves exactly what the model's pass does, while callbacks change the registry |
| WatchRegistry.Registry.UpdateNameCache | gdbus/watch.c:424-437 | every listener for the name gets the new owner |
| WatchRegistry.Registry.VisitListener | gdbus/watch.c:534-562 | equals the model's visit, with the same calls in the same order; `WatchCalls.CalledInVisit` says which these are |
| WatchRegistry.Registry.WalkListeners | gdbus/watch.c:519-561 | the walk over a list that changes meanwhile ends where the model's does, with the same calls and the same records remembered as empty |
| WatchRegistry.Registry.DeleteEmptied | gdbus/watch.c:566-580 | any number of steps of the deletion loop equals the model's, up to a freed record |
| WatchRegistry.Registry.MessageFilter | gdbus/watch.c:504-585 | for any registry at rest: walk, calls and steps of the deletion loop equal the model's, if the loop ends the registry is at rest again, and of the watches made before only those are called that have the function, on a listener of this connection each of whose set fields is that of the message, with its sender's owner brought up to date if the message tells it; `WatchHeard.CalledIffAsked` is the converse |
| PolicyModel.SplitKey | src/policy.c:386-391 | splitting an application id at its first slash gives back agent and application |
| PolicyModel.ActivePolicy | src/policy.c:153-182 | the active policy is the first loaded one of the highest priority, and the default one exactly when no id of a known kind is loaded; `PolicyRules.ActiveIsChosen` says it on the prefixes |
| PolicyRules.ActiveIsChosen | src/policy.c:138-183 | the active policy is that of the first loaded id starting with "selinux:"; without one, of the first loaded one starting with "user:"; without one, of the first loaded one starting with "group:"; else the default |
| PolicyRules.ChosenOnce | src/policy.c:153-183 | there is exactly one such policy |
| PolicyRules.ValidIff | src/policy.c:130-136 | an id is accepted if and only if it holds somewhere one of the three kinds, a colon and a letter |
| PolicyRules.WatchFiles | src/policy.c:576-616 | a new application is filed under agent and name with exactly the accepted ids, in order, and is believed to hold the policy active for them; a watched one is left alone |
| PolicyRules.RequestAnswered | src/pold-manager.c:226-243 | a request is answered with the policy that is active for the ids the application is filed with |
| PolicyRules.DueIff | src/policy.c:190-207 | an application is due if and only if what its agent is believed to hold is not the policy active for its ids |
| PolicyRules.RoundTells | src/policy.c:374-401 | a completed round sends the active policy of each application that was due to the agent it was filed for |
| PolicyRules.AgentsHoldChosen | src/policy.c:504-536 | in every patient history from the start on, a completed round leaves each agent with the policy of the first loaded id of the highest kind for each application |
| PolicyRules.AgentGoneLeaves | src/policy.c:538-555 | when an agent goes, exactly the applications without an accepted id and those whose id does not begin with its name stay |
| PolicyModel.AcceptedButNeverActive | src/policy.c:130-151 | the unanchored pattern accepts ids without a priority, which never become active |
| PolicyModel.WatchKeepsIndex | src/policy.c:557-616 | watching keeps every list holding each application as often as it names the id, duplicates included |
| PolicyModel.StopDrops | src/policy.c:466-481 | a stopped application leaves the table and every list, and nothing else changes |
| PolicyModel.VictimsAre | src/policy.c:483-502 | the applications collected are the listed ones whose id starts with the agent's name |
| PolicyModel.RemovesOwnIff | src/policy.c:538-555 | exactly the agent's applications with an accepted id are removed if and only if the agent's name is no prefix of another listed agent's name; the index stays exact and applications without accepted ids stay |
| PolicyModel.PrefixFlaw | src/policy.c:496-499 | removing agent ":1.1" takes an application of agent ":1.10" along |
| PolicyModel.RoundProgress | src/policy.c:190-207 | a round sends, in order, to applications that differ and no others; those not reached are exactly the ones marked next time |
| PolicyModel.RoundCompletes | src/policy.c:374-401 | a completed round leaves every application with its active policy |
| PolicyRuns.ReachableIndex | src/policy.c:466-616 | in every state reachable from the start the index is exact in both directions |
| PolicyRuns.NoLostUpdates | src/policy.c:504-536 | after any reloads, requests, disconnections and failed rounds, a completed round leaves every agent holding the active policy of each application, provided no agent asks again while an update is due |
| PolicyRuns.ReachableUpdates | src/policy.c:504-536 | the same in every state reachable from the start |
| PolicyRuns.RequestInStepIff | src/pold-manager.c:226-243 | a request keeps the memory of what the agent holds right if and only if no update was due for the application |
| PolicyRuns.HoldsIff | src/policy.c:374-401 | after a completed round an agent is right if and only if its application was due or it already held the active policy |
| PolicyRuns.LostUpdate | src/pold-manager.c:226-243 | a run in which an agent that asked again keeps an outdated policy although a round completed |
| PolicyRuns.RoundsConverge | src/policy.c:374-401 | if every round gets a message out, as many rounds as there are due updates suffice |
| PolicyDaemon.Append | src/policy.c:557-568 | appending walks to the end of a linked list and keeps a non-empty list's head |
| PolicyDaemon.Remove | src/policy.c:474-478 | the first node of the application is unlinked |
| PolicyDaemon.KeepsSentinel | src/policy.c:474-478 | removing behind a sentinel never changes the head, which is why the ignored result is harmless |
| PolicyDaemon.Daemon.GetActivePolicy | src/policy.c:159-182 | the running maximum ends with the policy of the first loaded id starting with "selinux:", without one with "user:", without one with "group:", and else with the default |
| PolicyDaemon.Daemon.AddApp | src/policy.c:557-568 | a list is made with a sentinel if need be, and the application is appended behind it |
| PolicyDaemon.Daemon.WatchApp | src/policy.c:576-616 | new tables equal the model's; a watched application is left alone |
| PolicyDaemon.Daemon.StopWatchingApp | src/policy.c:466-481 | new tables equal the model's; all stored heads are still their sentinels |
| PolicyDaemon.Daemon.FillAppsToRemove | src/policy.c:483-502 | collects exactly the model's set, in any walking order |
| PolicyDaemon.Daemon.RemoveAgentApps | src/policy.c:538-555 | new tables equal the model's, in any walking order |
| PolicyDaemon.Daemon.MarkUpdateApps | src/policy.c:190-207 | marks exactly the applications that differ |
| PolicyDaemon.Daemon.UpdateAgentPolicies | src/policy.c:374-401 | sends along some order of the marked ones, remembers what was sent, and stops at the first failure |
| PolicyDaemon.Daemon.UpdatePolicies | src/policy.c:504-536 | a failed load marks and sends nothing; otherwise a round follows |
| SessionModel.CompareRight | connman/0001-session_policy_pold-Add-session-plugin-for-remote-co.patch:487-492 | the unsigned difference read as signed orders two scores rightly if and only if they are less than half the range apart |
| SessionModel.SortSorted | connman/0001-session_policy_pold-Add-session-plugin-for-remote-co.patch:494-515 | the sorted list is a permutation by score, later table entries first among equals |
| SessionModel.WalkSorted | connman/0001-session_policy_pold-Add-session-plugin-for-remote-co.patch:517-549 | on a sorted list the walk keeps the best eligible service, connects it if idle, and disconnects what comes after it or scores nothing |
| SessionModel.Optimality | connman/0001-session_policy_pold-Add-session-plugin-for-remote-co.patch:494-549 | a run connects at most one service, and only a best-scoring one that is idle and not failing; exactly the connected or failing services after it or without a score are told to disconnect |
| SessionModel.OthersDisconnect | connman/0001-session_policy_pold-Add-session-plugin-for-remote-co.patch:543-546 | every other connected service is told to disconnect |
| SessionModel.FixedPoint | connman/0001-session_policy_pold-Add-session-plugin-for-remote-co.patch:494-549 | once the orders are carried out a second run keeps the same service and connects nothing; a service that was idle is now strictly ahead by score |
| SessionModel.Settles | connman/0001-session_policy_pold-Add-session-plugin-for-remote-co.patch:494-549 | with unchanged sessions the choice is the same for ever and only the first run connects |
| SessionModel.NothingToDo | connman/0001-session_policy_pold-Add-session-plugin-for-remote-co.patch:494-549 | without an eligible service nothing is connected, now or next time |
| SessionChoice.MatchesAreHits | connman/0001-session_policy_pold-Add-session-plugin-for-remote-co.patch:422-447 | what the nested loops count are the bearers of the service's type in active sessions of owners other than the agent, if the service connects by itself, else none |
| SessionChoice.ScoreIs | connman/0001-session_policy_pold-Add-session-plugin-for-remote-co.patch:449-480 | a match is worth twenty for a connected service, six for a favorite, and five, four, three, two, one for Ethernet, Gadget, WiFi, Bluetooth, Cellular |
| SessionChoice.AheadScores | connman/0001-session_policy_pold-Add-session-plugin-for-remote-co.patch:449-480 | of two services with the same positive number of matches, being connected outweighs everything, then being a favorite, then the order of bearers |
| SessionChoice.OfTwo | connman/0001-session_policy_pold-Add-session-plugin-for-remote-co.patch:494-549 | of two waiting services with the same matches the one ahead is connected, in whatever order they are listed |
| SessionChoice.LeaderConnects | connman/0001-session_policy_pold-Add-session-plugin-for-remote-co.patch:494-549 | a service with matches that is not broken, and is connected, a favorite or of one of the five bearers, is connected if it waits, and nothing else is, when every other service has no match, is broken, or has as many matches and is behind it |
| SessionChoice.NeverBehind | connman/0001-session_policy_pold-Add-session-plugin-for-remote-co.patch:494-549 | no service is connected while another one with the same matches that is not broken is ahead of it |
| SessionChoice.WithoutMatch | connman/0001-session_policy_pold-Add-session-plugin-for-remote-co.patch:494-549 | a service without a match is never connected, and told to disconnect if and only if it is connected or broken |
| SessionChoice.BehindDisconnects | connman/0001-session_policy_pold-Add-session-plugin-for-remote-co.patch:543-546 | a service behind the leader is told to disconnect if and only if it is connected or broken |
| SessionPlugin.Plugin.CalcServiceScore | connman/0001-session_policy_pold-Add-session-plugin-for-remote-co.patch:422-485 | the nested loops add up matches times weight on the 32-bit score; `SessionChoice.MatchesAreHits` and `SessionChoice.ScoreIs` say what these are |
| SessionPlugin.Plugin.SortServices | connman/0001-session_policy_pold-Add-session-plugin-for-remote-co.patch:487-515 | sorting in place of the list agrees with the model's stable sort |
| SessionPlugin.Plugin.RunSessionConnect | connman/0001-session_policy_pold-Add-session-plugin-for-remote-co.patch:494-551 | scores are recomputed, states kept, and the orders are those of the model's run, which `SessionChoice.LeaderConnects` and `SessionChoice.NeverBehind` state on bearers, favorites and states |
| SessionPlugin.Plugin.Autoconnect | connman/0001-session_policy_pold-Add-session-plugin-for-remote-co.patch:553-561 | the timer is armed once and nothing is connected directly |

## Left out

- Links and interface records of the object server: `ObjectServer` has one heap object per path, but parents and children are named by their paths and interfaces are values in lists, so aliasing of interface records is not modelled.
- Method bodies, Get, Set and GetAll of properties, and getters that call back into the library; they would only add calls that change nothing modelled here.
- Detaching the object manager, several connections at once, and registering before the manager is attached.
- Running out of memory, and failing calls of libdbus on match rules, filters and object paths.
- The text of introspection data beyond its being a function of visible interfaces and child nodes.
- `g_dbus_proxy_new`, `refresh_properties` and the calls that set properties through a proxy, which bypass the lookup before a proxy is made.
- `g_dbus_remove_all_watches`, asynchronous owner queries (`check_service`) and user destroy functions that call back into the registry; nested dispatch of one listener, and a callback that removes itself and then returns FALSE, which uses a freed record.
- Disconnect watches of applications: `pold_remove_agent_apps` does not remove them, so that a later disconnect of such an application would use a freed record; runs contain only disconnects of watched applications.
- `replace_id_if_empty`, which rewrites the shared default policy when an agent asks.
- Reading and writing policy files: a reload replaces the map of loaded policies by any other, and says whether it succeeded.
- The order in which hash tables are walked: any order where it does not matter (policies), a fixed sequence for sessions and services.
- `g_list_sort` is taken as a stable insertion sort; with scores half the 32-bit range apart its comparison is no order and the result would depend on the algorithm. The ConnMan headers are not part of this model: the order of service states is that of the switch in `run_session_connect`.
- SessionModel.Optimality: requires that no score can reach 2^31, that is fewer than 69 million matching bearers.
- WatchRequests.NewWatchCalled: for a signal that tells the owner of the very name that is the watch's sender it does not say whether the signal must come from that owner, which depends on whether a listener for owner changes comes first; `WatchHeard.OwnersLearnt` decides it at each stop.
- ValueCopy.IterAppendIter: values have four basic types (boolean, 32-bit integer, double, string), arrays, dictionary entries and variants; structs and the other basic types, which the code copies alike, are not modelled.
- ValueCopy.Store: the same four basic types, and no structs.
- Wire marshalling and message size limits, timers and the main loop, the HTTP client, polkit and the other daemons' interfaces.
- JSON real numbers and integers of `json_int_t` are unbounded mathematical values until converted to the C `int`, which has four bytes.
