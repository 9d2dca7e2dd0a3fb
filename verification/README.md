# A model of the MQTT broker, its client library, and two small protocols around them

The repository bundles mosquitto 1.4.11 (a broker and a client library for MQTT 3.1 and 3.1.1), a LoRa gateway daemon
and a serial-port tool with a lock-file protocol. This project models their stateful cores and proves what they
promise. `dafny verify dfyconfig.toml` checks the whole project. Paths are those of the repository; sections are those
of the OASIS standard "MQTT Version 3.1.1".

## The parts

**Broker, subscriptions and retained messages.** `Topics` has strings, levels, the checks of topics and filters, and the
character-level matcher. `Tree` has the subscription tree as a map from node references to nodes: a reference outside
the map was never allocated or was freed. The tree invariant `Sound` says that paths name nodes one to one, that
siblings differ, that `#` nodes have no children, that a client's slots are exactly the nodes with its leaf, and that
the tree holds exactly the abstract subscriptions `abs` and retained messages `ret`. `Subs` has the class with the
source's operations, proved against these two maps. `Search` and `Retained` say which nodes the two walks reach.

**Broker, message database.** `Session` has queue entries, sessions, the store and the counting invariants. `Phases` says
where a message stands in the exchange with its client (parked, going, confirmed, received, returned), which state that
is, and what may become of a queue in one event; it does not use the functions that the operations are written with.
`Offers` says what a distribution does for each client, with and without duplicates. `Broker` has the class with the operations of the
database and of distribution. `Accounts` books every QoS 2 message as waiting, handed on or given up. `Intake` has the
packet handlers, `Sessions` connecting, disconnecting with and without a will, and the SUBSCRIBE and UNSUBSCRIBE
handlers; a session keeps the clean-session flag and the will of its CONNECT. `Runs` has any sequence of all these
events. After each run, connections, wills and subscriptions are a fold of the events and retained messages a fold of
what was handed on, and the theorems about every run hold; the moments between the events are a history of all queues and
packets. `Deliveries` follows single messages through such histories: none is lost, and none is published again that was
confirmed. `Reconnect` says what a client is sent when it has come back.

**Client library.** `Window` has the out-queue as a value, the trace of what was sent, and the theorems about all runs.
`ClientLibrary` has the two linked lists on an explicit heap, with head and tail pointers, proved to refine `Window`.

**Wire.** `Wire` has lengths, numbers, strings and the two packet cursors. `Framing` has a byte-wise reference decoder and
the two resumable readers (socket and WebSocket), proved to follow it in whatever pieces the bytes come. `Packets` has
the writers and readers of PUBLISH and CONNECT and their round trips.

**Persistence.** `Archive` has the chunks of the file and their round trip. `Snapshot` says what a list of chunks builds
up, with the reference counts and the load table of the restore. `Walk` has the order of the walk over the tree, the
chunks that it writes, and the strings that it builds from labels; `Rebuild` says what these chunks build up again.
`Persist` saves, `Restore` restores, and `Restore.Reload` is the round trip. `Backup` takes the database of the broker as
it is after any run, and says what becomes of it when the broker stops and starts again.

**Small protocols.** `DeviceLock` has the file steps of any number of processes locking one device, freely interleaved;
processes can die and file operations fail at any point. `Downlink` has the retry and invitation scheduler of the LoRa
daemon.

`Wrappers` and `Sequences` hold small shared definitions.

## What the theorems assume, and where the code does less than its documentation

- Matching (section 4.7.1.2): the character-level matcher answers no for the parent level of a filter that ends in
  `+/#`. `Topics.TopicMatchesSub` states exactly when it agrees with the level-wise rule; the tree walk has no such gap.
- Retained messages: `x/#` brings the retained message of `x` itself only if the node of `x` has a child or is the last
  of its siblings. `Retained.FoundFromTheTop` states exactly when, and `Retained.ParentNotAsked` gives an input.
- Retained publications of a topic starting with `$` reach the tree only if its top exists already, as for `$SYS`;
  `Runs.RetainedOnlyAfter` is a run that shows it.
- Exactly once: a waiting message whose packet id the client uses again for a QoS 1 publication is handed on for that
  one as well, under the topic and with the flag of that one. The accounts book it as `reused`; without reuse
  `Runs.ExactlyOnce` is the plain statement. A message waits until its PUBREL or until its session ends; the end of a
  session and a denied topic are booked as given up. `Runs.RetainedUnderAnother` is a run with reuse.
- The loop after the unlinking of an entry never counts `i` up (`LORA/mosquitto/src/database.c:232-253`), so that no
  bound on messages in flight is claimed for the broker. `Broker.HeadPromoted` is what the loop does.
- The purge of denied entries at the end of a CONNECT leaves counters and tail as they were. `Sessions.PurgeDenied` states
  that they are right afterwards if and only if no entry was removed.
- Client window: an acknowledgement for a message that was never sent breaks the window, and a reconnect with an empty
  out-queue and a non-empty in-queue leaves a wrong tail pointer. Both are stated as equivalences
  (`ClientLibrary.Client.RemoveOut`, `HandlePubrec`, `ReconnectReset`), with the concrete runs
  `ClientLibrary.UnsentAcknowledged` and `TailCarriedOver`.
- Readers: when a reader goes on after a pause, a command byte of 0 counts as not read yet. The theorems say what comes of
  it for every stream (`FeedPieces`); streams without such a byte can be cut anywhere (`Framing.CutAnywhere`), and
  `Framing.CutMatters` and `TwoSchedules` show that this byte makes a difference.
- Strings longer than 65535 bytes are written with 16 bits of their length. `Packets.SendPublish` and `SendConnect` state
  exactly when a packet is filled.
- Persistence: `Backup.Restart` holds for a database after any run whose strings fit 16 bits, whose packet ids fit 16 bits
  and message ids and times 64, whose QoS fits 8, whose payloads are shorter than 4294000000 bytes, and whose client ids
  differ and are not empty (`Sized`). Topics and filters consist of single bytes, because strings here are sequences
  of characters and the file holds bytes; ids have no NUL.
- A restore is refused if and only if a saved session waits for a message under `$SYS` that the file leaves out;
  `Backup.SysEntryLost` is such a database. Otherwise it crashes the broker if and only if a retained message is named by
  a chunk after the restore has freed it: queueing it again gives back the only reference to a message that no queue holds
  and that does not stay on a node (`LORA/mosquitto/src/persist.c:724-745`, `subs.c:518-540`). `Rebuild.AllThere` is the
  exact condition. It holds whenever each message that two topics retain is one that a saved session waits for, thus
  without reuse of packet ids, and `Backup.CrashAfterReuse` is a run after which it does not. A message that was named
  once and is not held by anything is gone from the store after a restore that succeeds.
- A message restores under its own topic and with its own flag, so that one retained under another topic, as in
  `Runs.RetainedUnderAnother`, is lost or moves. A retained message whose topic begins with `$` comes back if the walk has
  written a subscription under the same first level before it (`Rebuild.ComesBack`), and one of `$SYS` never, on purpose.
- Reconnect: a QoS 2 message that the broker has received, and that waits for a place, is started like an outgoing one
  when its client connects again, and published back to it (`LORA/mosquitto/src/database.c:669-692`).
  `Reconnect.IncomingPublished` and `OutgoingPublished` say exactly for which entries, and `OwnMessageBack` is an input.
- Reconnect: a QoS 2 message whose PUBREL was to be repeated when its client connects again is published again, against
  section 4.3.3. `Reconnect.ConfirmedAfterReset` says exactly when a confirmed message stays so; without a reconnect in
  between, `Deliveries.NoPublishAfterPubrec` holds over every run.
- Starting: an incoming message that an acknowledgement starts is not answered with a PUBREC then
  (`LORA/mosquitto/src/database.c:272-284`), but only when it has waited too long: `Deliveries.UnansweredUntilTimeout`.
- Store: the message of a QoS 2 PUBLISH that is dropped never gets a reference and is not freed. `Runs.ReferencesCounted`
  says which messages have none, and `Runs.DroppedStays` is a run.
- Lock files: the lock is exclusive in every run in which nobody dies and a FSSTND file that is to be given up is removed,
  whatever other file operations fail. Without either condition it is not
  (`DeviceLock.StaleLocksBreakExclusion`, `FailedUnlinkBreaksExclusion`).
- Scheduler: a pass is "well spaced" if it comes later than the last service of the node by more than every timeout.
- Time is an input, sends are appended to a trace, and allocation always succeeds.

## Model

| member | source | states |
|---|---|---|
| `Topics.JoinSplit` | LORA/mosquitto/src/subs.c:169-230 | cutting a string into levels loses nothing: joining the levels gives the string back, empty levels included |
| `Topics.SplitJoin` | LORA/mosquitto/src/subs.c:169-230 | levels without slashes survive being joined and cut again |
| `Topics.TokensInjective` | LORA/mosquitto/src/subs.c:169-230 | different strings have different token lists, in spite of the extra empty token of strings that do not start with `$` |
| `Topics.Tokenise` | LORA/mosquitto/src/subs.c:169-230 | the one-pass tokeniser with its two cursors yields exactly the recursively defined levels |
| `Topics.WellPlacedLevels` | LORA/mosquitto/lib/util_mosq.c:196-217 | the character-wise placement test of wildcards is the level-wise rule of section 4.7.1 of MQTT 3.1.1 |
| `Topics.SubTopicCheck` | LORA/mosquitto/lib/util_mosq.c:196-217 | a filter is accepted if and only if its wildcards fill whole levels, `#` only the last one, and it has at most 65535 bytes |
| `Topics.PubTopicCheck` | LORA/mosquitto/lib/util_mosq.c:174-194 | a topic is accepted if and only if it has no wildcard and at most 65535 bytes |
| `Topics.TokensMatch` | LORA/mosquitto/src/subs.c:169-230 | matching token lists under the same top is level-wise matching together with the rule of section 4.7.2 about `$` topics |
| `Topics.TopicMatchesSub` | LORA/mosquitto/lib/util_mosq.c:220-318 | for every valid filter and topic the matcher ends, stores an answer, and answers true if and only if the levels match and the topic is not the parent of a filter ending in `+/#` |
| `Topics.ParentMissed` | LORA/mosquitto/lib/util_mosq.c:286-310 | the input on which the character matcher and the level-wise rule differ: filter `+/#`, topic `a` |
| `Tree.FullPathInjective` | LORA/mosquitto/src/subs.c:428-480 | two filters never share a node |
| `Tree.FilterAtPath` | LORA/mosquitto/src/subs.c:428-480 | every path that can hold a subscription is the path of exactly the filter computed from its labels |
| `Tree.FullPathIsFull` | LORA/mosquitto/src/subs.c:428-480 | every filter has such a path, and the filter computed from it is the filter itself |
| `Tree.SoundAdded` | LORA/mosquitto/src/subs.c:290-333 | a new child keeps the whole tree invariant: sibling labels unique, no child below `#`, leaves, back pointers and retained messages as before |
| `Tree.SoundDropped` | LORA/mosquitto/src/subs.c:375-391 | freeing an empty node without children keeps the whole invariant: nothing that is still used goes with it |
| `Tree.SoundPut` | LORA/mosquitto/src/subs.c:246-290 | a new leaf with its slot keeps the invariant and adds exactly one subscription |
| `Tree.SoundTaken` | LORA/mosquitto/src/subs.c:335-372 | unlinking a leaf and clearing its slot keeps the invariant and removes exactly one subscription |
| `Tree.SoundChanged` | LORA/mosquitto/src/subs.c:255-266 | a repeated subscription keeps the invariant and changes only the QoS |
| `Tree.SoundRetained` | LORA/mosquitto/src/subs.c:74-97 | storing or clearing a retained message keeps the invariant and the map of retained messages |
| `Tree.SubscribedHere` | LORA/mosquitto/src/subs.c:246-290 | a client has a leaf at a node if and only if it is subscribed to the filter of the node |
| `Tree.SlotOf` | LORA/mosquitto/src/subs.c:335-372 | whoever has a leaf at a node has a slot that names the node |
| `Subs.SubTree.constructor` | LORA/mosquitto/src/database.c:33-100 | the two tops `""` and `$SYS`, without subscriptions |
| `Subs.SubTree.SubAdd` | LORA/mosquitto/src/subs.c:428-480 | the subscription map gains exactly (client, filter) with its QoS; the result says whether it was there before |
| `Subs.SubTree.SubAddBelow` | LORA/mosquitto/src/subs.c:246-333 | the recursive descent creates what is missing, frees or renames nothing, and subscribes at the end of the tokens |
| `Subs.SubTree.SubRemove` | LORA/mosquitto/src/subs.c:482-505 | the subscription map loses exactly (client, filter), whatever is pruned |
| `Subs.SubTree.SubRemoveBelow` | LORA/mosquitto/src/subs.c:335-394 | removal with pruning on the way back changes nothing outside the subtree and never frees its root |
| `Subs.SubTree.RemoveSubs` | LORA/mosquitto/src/subs.c:547-587 | a node that holds nothing and has no children is freed and unlinked from its parent, every other node stays as it is; the parent is named just when it can be freed as well |
| `Subs.SubTree.Prune` | LORA/mosquitto/src/subs.c:621-632 | the emptied node and all ancestors emptied with it are freed, no node is left behind that could be freed, and subscriptions and retained messages stay |
| `Subs.SubTree.CleanSession` | LORA/mosquitto/src/subs.c:592-638 | exactly the subscriptions of the client disappear, and its slots with them |
| `Subs.SubTree.Search` | LORA/mosquitto/src/subs.c:396-426 | each node whose path matches the tokens is processed exactly once and no other node; only the literal node may store a retained message |
| `Subs.SubTree.TopicCalls` | LORA/mosquitto/src/subs.c:507-543 | the whole walk for a topic processes each node reached exactly once; a retained publication finds its own node, if the tree has its top |
| `Subs.SubTree.CallsAreMatches` | LORA/mosquitto/src/subs.c:396-426 | a subscription is processed if and only if its filter matches the topic (section 4.7 with 4.7.2) |
| `Subs.SubTree.OffersAreSubscriptions` | LORA/mosquitto/src/subs.c:396-426 | the leaves processed are exactly the subscriptions whose path the topic reaches, with their QoS |
| `Search.HitThroughChild` | LORA/mosquitto/src/subs.c:396-426 | the three cases of the loop over children decide correctly which nodes below a child are reached |
| `Search.ReachedMeansMatches` | LORA/mosquitto/src/subs.c:396-426 | reaching the path of a filter is matching the filter |
| `Retained.FoundThroughChild` | LORA/mosquitto/src/subs.c:695-736 | the cases of the loop over children for retained messages |
| `Retained.FoundFromTheTop` | LORA/mosquitto/src/subs.c:695-765 | the walk finds the retained message of a topic if and only if the filter matches and, for the parent of `x/#`, its node has a child or is the last sibling |
| `Retained.ParentNotAsked` | LORA/mosquitto/src/subs.c:719-720 | an input for the failing half, on a tree that satisfies the whole tree invariant: with `a` and `b` retained, `a/#` is not sent the message of `a` |
| `Subs.SubTree.RetainSearch` | LORA/mosquitto/src/subs.c:695-736 | the recursive walk finds each retained message asked for exactly once |
| `Subs.SubTree.RetainQueue` | LORA/mosquitto/src/subs.c:738-765 | the same from the top, for every valid filter and every topic with a retained message |
| `Subs.SubTree.SetRetained` | LORA/mosquitto/src/subs.c:74-97 | only the retained message of the one path changes |
| `Session.CountedAfterRemoval` | LORA/mosquitto/src/database.c:188-254 | unlinking an entry and dropping its reference keeps every reference count equal to the references |
| `Session.CountedAfterAppend` | LORA/mosquitto/src/database.c:392-411 | queueing an entry and taking a reference keeps them equal |
| `Session.CountedHeld` | LORA/mosquitto/src/subs.c:518-540 | so do taking and giving back the guard of a distribution |
| `Session.CountedRetained` | LORA/mosquitto/src/subs.c:74-97 | so does replacing or clearing a retained message |
| `Session.EntryStored` | LORA/mosquitto/src/database.c:198-254 | no queue entry points at a freed message |
| `Session.RetainedStored` | LORA/mosquitto/src/subs.c:671-693 | no retained node points at a freed message |
| `Session.IncomingRemoved` | LORA/mosquitto/src/database.c:743-808 | removing an incoming entry frees its packet id and no other one |
| `Phases.StateFromPhase` | LORA/mosquitto/lib/mosquitto_internal.h:73-91 | direction, QoS, phase of the exchange and whether a packet is due say all that the state of an entry says |
| `Session.DbAfterRemoval` | LORA/mosquitto/src/database.c:198-254 | list, counts and session counters after an entry has been unlinked |
| `Session.DbAfterAppend` | LORA/mosquitto/src/database.c:392-428 | list, counts, session counters and the bound max_inflight + max_queued after an entry has been linked |
| `Broker.Database.constructor` | LORA/mosquitto/src/database.c:33-100 | an empty database is in order |
| `Broker.Database.StoreRemove` | LORA/mosquitto/src/database.c:146-173 | the message leaves the store and its list, whose count stays right |
| `Broker.Database.StoreDeref` | LORA/mosquitto/src/database.c:188-195 | one reference less; at none the message is freed |
| `Broker.Database.MessageStore` | LORA/mosquitto/src/database.c:526-598 | a new message with a new id and no references |
| `Broker.Database.Unlink` | LORA/mosquitto/src/database.c:198-254 | the session after an entry was unlinked: counters, tail, and the entries started by the loop that never counts `i` up |
| `Broker.Database.MessageRemove` | LORA/mosquitto/src/database.c:198-254 | the same with the store: all counts stay right, only this session changes |
| `Broker.Database.MessageDelete` | LORA/mosquitto/src/database.c:256-301 | an acknowledgement takes away exactly the entries with its id and direction that the loop comes to: it stops once one is gone and more than max_inflight others were passed; it starts every waiting entry among the first max_inflight |
| `Broker.DeletedOne` | LORA/mosquitto/src/database.c:256-301 | if just one entry has the id and direction, just this one goes |
| `Broker.DeletedNone` | LORA/mosquitto/src/database.c:256-301 | if no entry has them, nothing goes |
| `Broker.Database.MessageInsert` | LORA/mosquitto/src/database.c:303-428 | every branch: unnamed client, duplicate, dropped, queued or placed; result, state, counts and recorded destinations |
| `Broker.Database.MessageUpdate` | LORA/mosquitto/src/database.c:470-484 | the first entry with the id and direction changes its state, and no other entry |
| `Broker.Database.MessagesDelete` | LORA/mosquitto/src/database.c:486-505 | the queue is emptied and every reference it held is given back |
| `Broker.Database.StoreFind` | LORA/mosquitto/src/database.c:600-617 | a message is found if and only if an incoming entry waits under the id |
| `Broker.Database.ResetQueue` | LORA/mosquitto/src/database.c:621-698 | a reconnect drops no entry, keeps the order, recounts the session, and puts each entry into the state its direction and place call for |
| `Broker.Database.TimeoutCheck` | LORA/mosquitto/src/database.c:700-741 | exactly the entries of connected sessions that have waited too long for an answer are due again, marked as repeated and in the phase that they were in; no other entry changes, and none goes to another phase |
| `Broker.Database.MessageWrite` | LORA/mosquitto/src/database.c:810-934 | the walk over the changing queue ends; entry by entry, in order, either the packet that the entry calls for by its direction and phase is sent and the entry awaits the answer, or is gone if it has QoS 0, or nothing is sent and the entry is as before or was started; after a complete walk no entry that was due is left unsent |
| `Broker.WalkWroteAll` | LORA/mosquitto/src/database.c:810-934 | the same for the walk as a function: PUBLISH for what is on its way, PUBREL for what the client has confirmed, PUBREC for what it has sent (section 4.3) |
| `Broker.WrittenInOrder` | LORA/mosquitto/src/database.c:810-934 | the packets sent follow the order of the queue, at most one for each entry, and a walk that stops early has used up what could be sent |
| `Broker.DueIsWritten` | LORA/mosquitto/src/database.c:810-934 | a walk that comes to the end has sent every packet that was due when it began |
| `Broker.HeadPromotedStates` | LORA/mosquitto/src/database.c:230-253 | the loop after an unlinking starts an entry if and only if it and all entries before it wait for a place; every other entry stays as it is |
| `Broker.HeadStartsDue` | LORA/mosquitto/src/database.c:230-253 | what that loop starts is due, an outgoing message for its PUBLISH and an incoming one for its PUBREC |
| `Broker.Database.RetainProcess` | LORA/mosquitto/src/subs.c:671-693 | a retained message becomes one outgoing entry with the retain flag and the lower of the two QoS; unless its queue drops, if and only if the client may read it |
| `Broker.Database.RetainQueue` | LORA/mosquitto/src/subs.c:738-765 | after a subscription the client gets only retained messages that its filter asks for, each at most once, and all that it may read unless its queue starts to drop |
| `Broker.Database.StoreRetained` | LORA/mosquitto/src/subs.c:74-97 | the retained message of the node becomes the new one, or none, with all reference counts right |
| `Broker.Database.Offer` | LORA/mosquitto/src/subs.c:98-141 | one leaf: a copy is appended if and only if the client may read, its queue accepts, and it was not sent the message before |
| `Broker.Database.MidGenerate` | LORA/mosquitto/lib/util_mosq.c:148-167 | the packet id after the last one, with 16 bits, and never 0 |
| `Broker.Database.SubsProcess` | LORA/mosquitto/src/subs.c:63-142 | one node: the retained message first, then an offer to each leaf |
| `Broker.Database.MessagesQueue` | LORA/mosquitto/src/subs.c:507-543 | every client is served: without duplicates one copy if it wants the message and was not sent it, with duplicates one for each matching subscription whose offer is taken, and nothing else; each copy has the QoS of one of its matching subscriptions, or the lower one of that and the QoS of the message without the upgrade; nobody who may read the topic and has room is missed; the retained map changes at the topic only |
| `Broker.Database.Distribute` | LORA/mosquitto/src/subs.c:507-543 | the same between taking the guard reference and giving it back |
| `Offers.AllOffersMade` | LORA/mosquitto/src/subs.c:98-141 | when every matching subscription has been offered the message once, every client has what it should have, with duplicates and without |
| `Offers.AllServedRight` | LORA/mosquitto/src/subs.c:98-141 | each copy is by a matching subscription of a client that may read the topic, with the right QoS, in its place or waiting as the limits say; and a client with a matching subscription and room in its queue, absent or not, gets one |
| `Offers.OfferedProgress` | LORA/mosquitto/src/subs.c:98-141 | without duplicates, after any number of offers: one copy with the QoS of one of them for each client that wanted one and was not sent the message before, no change for any other |
| `Offers.OfferedCopies` | LORA/mosquitto/src/subs.c:98-141 | with duplicates, after any number of offers: one copy for each offer to the client that was wanted when it was made, in their order |
| `Accounts.IncomingWaits` | LORA/mosquitto/src/subs.c:507-543 | a distribution neither adds nor removes a waiting QoS 2 message |
| `Accounts.OnceFresh` | LORA/mosquitto/src/read_handle.c:217-253 | a message handed on at once keeps every account balanced |
| `Accounts.OnceReused` | LORA/mosquitto/src/read_handle.c:217-253 | so does a waiting message handed on because its id was used again for QoS 1, which is booked as reuse |
| `Accounts.OnceAccepted` | LORA/mosquitto/src/read_handle.c:239-252 | so does a QoS 2 message taken into a session |
| `Accounts.OnceReleased` | LORA/mosquitto/src/database.c:743-808 | so does the release of a waiting message, handed on or given up |
| `Accounts.OnceEmptied` | LORA/mosquitto/src/database.c:486-505 | so does the end of a session with everything that waited in it |
| `Intake.TakeIn` | LORA/mosquitto/src/read_handle.c:239-281 | a QoS 2 PUBLISH: duplicate, accepted or dropped, decided by the waiting ids and the queue limits; PUBREC sent just when it may |
| `Intake.HandOn` | LORA/mosquitto/src/read_handle.c:217-238 | a QoS 0 or 1 PUBLISH: one distribution of a new or of the waiting message, and a PUBACK for QoS 1 |
| `Intake.HandlePublish` | LORA/mosquitto/src/read_handle.c:75-282 | the whole handler: refused, ignored, routed, duplicate, accepted or dropped, with return code, answer, accounts, sessions, retained messages, and the queue entry of an accepted message |
| `Intake.ReleaseEntry` | LORA/mosquitto/src/database.c:771-798 | the message of one entry is distributed, to the session that it waited in as well, or given up, and just this entry is removed then |
| `Intake.Release` | LORA/mosquitto/src/database.c:743-808 | PUBREL hands the waiting message on if there is one, and frees exactly its id; all other sessions change by the distribution alone, its own one by that, the removal and entries that start; without such a message nothing but that happens |
| `Intake.HandlePubrel` | LORA/mosquitto/lib/read_handle_shared.c:127-171 | every PUBREL is answered with PUBCOMP, but only the first one hands the message on, with the topic and the QoS that it came with; every other incoming message that starts by it is answered with its PUBREC; in version 3.1.1 other header flags than 2 are refused without effect |
| `Intake.HandlePubackcomp` | LORA/mosquitto/lib/read_handle_shared.c:58-97 | an acknowledgement ends outgoing messages only and leaves every waiting incoming one |
| `Intake.HandlePubrec` | LORA/mosquitto/lib/read_handle_shared.c:99-125 | the first outgoing message under the id waits for its PUBCOMP from now on, and nothing else changes; the PUBREL is sent in any case |
| `Sessions.NewClient` | LORA/mosquitto/src/context.c:28-84 | a new client leaves everything in order |
| `Sessions.EndSession` | LORA/mosquitto/src/context.c:92-186 | exactly the subscriptions and the queue of the client go; what waited there is given up |
| `Sessions.Connect` | LORA/mosquitto/src/read_handle_server.c:430-474 | a session is taken over complete and in order just when neither it nor the new CONNECT is a clean one; otherwise the client starts afresh, without subscriptions and with an empty queue; the flag and the will are kept for the connection, and a CONNECT with a will that cannot be published changes nothing |
| `Sessions.PurgeDenied` | LORA/mosquitto/src/read_handle_server.c:541-567 | the loop at the end of a CONNECT takes away just the outgoing entries that the client may not read, keeps the others in order, and drops one reference for each that goes; counters and tail are right afterwards if and only if nothing was removed |
| `Sessions.TakeOver` | LORA/mosquitto/src/read_handle_server.c:448-469 | the queue, its order and the last packet id move to the new connection, and no entry goes: what was on its way is due again, what was received stays received, what waits for its PUBCOMP is due for its PUBREL |
| `Sessions.Disconnect` | LORA/mosquitto/src/context.c:188-204 | without a DISCONNECT the will of the connection is distributed first, if it is permitted; then a session whose CONNECT asked for a clean one loses its subscriptions, with what waited there given up, and any other one keeps queue and subscriptions; the will is gone in any case, and a client that is not connected loses nothing |
| `Sessions.EasyQueue` | LORA/mosquitto/src/database.c:508-524 | a message of the broker itself is stored, distributed once, and retained if it is marked so |
| `Sessions.AddSubscription` | LORA/mosquitto/src/read_handle_server.c:655-735 | a filter is taken if and only if it is valid with a QoS up to 2; then the subscription is there with its QoS, and the retained messages that it brings, which version 3.1 does not send again |
| `Sessions.HandleSubscribe` | LORA/mosquitto/src/read_handle_server.c:614-755 | the filters are subscribed to in order up to the first that is refused; SUBACK with the QoS of each if none was; header flags, empty packets and return codes of both versions |
| `Sessions.DropSubscription` | LORA/mosquitto/src/read_handle_server.c:776-797 | exactly one subscription goes, or none for an invalid filter |
| `Sessions.HandleUnsubscribe` | LORA/mosquitto/src/read_handle_server.c:757-803 | the filters are given up in order up to the first invalid one; UNSUBACK if there was none |
| `Sessions.Timeout` | LORA/mosquitto/src/database.c:700-741 | a timeout check puts exactly the overdue entries of connected sessions back to be sent again, and changes no queue membership |
| `Sessions.Write` | LORA/mosquitto/src/database.c:810-934 | writing removes QoS 0 messages only, and sends in queue order |
| `Reconnect.IncomingPublished` | LORA/mosquitto/src/database.c:669-692 | after a reconnect each incoming entry that waited for a place and is among the first max_inflight, or is in a publishing state already, is published to the client that has sent it, once the queue is written to its end |
| `Reconnect.OutgoingPublished` | LORA/mosquitto/src/database.c:810-934 | every other publication after a reconnect comes from an outgoing entry |
| `Reconnect.OwnMessageBack` | LORA/mosquitto/src/database.c:669-692 | a queue on which this shows: a QoS 2 message that waited for a place is published back to its own sender |
| `Reconnect.ConfirmedAfterReset` | LORA/mosquitto/src/database.c:636-655 | a reconnect keeps a QoS 2 message confirmed if and only if it waits for its PUBCOMP; one that is about to repeat its PUBREL is published again |
| `Runs.Step` | LORA/mosquitto/src/read_handle.c:34-73 | every event keeps the database in order and takes nothing back from the accounts; connections, wills and subscriptions become what the event alone says, and the retained messages what the one message says that it hands on at most |
| `Runs.Run` | LORA/mosquitto/src/read_handle.c:34-73 | after every run of events from the empty database on, everything is in order; connections, wills and subscriptions are the fold of the events, in which the clean-session flags of the CONNECTs decide which sessions survive; retained messages and accounts are the fold of the messages handed on, each of which fits its event; all queues and packets form a history in which each event moves each entry on as its phase allows |
| `Runs.OneWillEach` | LORA/mosquitto/src/context.c:188-204 | over every run of events the wills published for a client, and the one that is left with its connection, are no more than the CONNECTs that left one, so that each is published once at most |
| `Runs.MadeInSession` | LORA/mosquitto/src/read_handle_server.c:430-474 | after every run of events each subscription of a client goes back to a SUBSCRIBE after which its session did not start afresh again (section 3.1.2.4) |
| `Runs.SubscriptionLasts` | LORA/mosquitto/src/read_handle_server.c:428-474 | a granted subscription of a persistent session is there with its QoS, through any connections, as long as the client asks for no clean session and no later SUBSCRIBE or UNSUBSCRIBE names the filter (section 3.1.2.4) |
| `Runs.SubscriptionGone` | LORA/mosquitto/src/read_handle_server.c:776-797 | a filter that an UNSUBSCRIBE has given up is not subscribed to until a SUBSCRIBE names it again |
| `Runs.ConnectedSince` | LORA/mosquitto/src/context.c:188-204 | after every run of events a client counts as connected if and only if it has sent a valid CONNECT and that connection has not ended |
| `Runs.WillIsPublished` | LORA/mosquitto/src/context.c:188-204 | the end of a connection without a DISCONNECT publishes the will of its own CONNECT if the client may publish it, with its topic, flag and length; otherwise nothing is published |
| `Deliveries.NoPublishAfterPubrec` | LORA/mosquitto/lib/read_handle_shared.c:99-125 | over every run: a message whose PUBREC was handled is not published again until its client connects again; every PUBLISH to the client is sent for another entry of its queue (section 4.3.3) |
| `Deliveries.StaysQueued` | LORA/mosquitto/src/database.c:621-698 | over every run: a message with QoS 1 or 2 in the queue of a persistent session stays there, through any connections, until the client acknowledges it, releases it, or asks for a clean session |
| `Deliveries.RepeatedIsMarked` | LORA/mosquitto/src/database.c:830-860 | over every run: once a message was published and waits for its acknowledgement, every later PUBLISH of it has the DUP flag (section 3.3.1.1) |
| `Deliveries.PublishFor` | LORA/mosquitto/src/database.c:810-934 | over every run each PUBLISH is sent for an entry of the queue of its client, with the data of that entry |
| `Deliveries.RepeatedOnce` | LORA/mosquitto/src/database.c:700-741 | a timeout and a complete walk: each overdue entry sends the packet of its phase once more, marked, and waits for the same answer as before |
| `Deliveries.NoneRepublished` | LORA/mosquitto/src/database.c:700-741 | and none of what is published then was confirmed by a PUBREC |
| `Deliveries.UnansweredUntilTimeout` | LORA/mosquitto/src/database.c:272-284 | an incoming message that an acknowledgement starts is not answered with a PUBREC by any walk until it has waited too long |
| `Runs.RetainedIsLast` | LORA/mosquitto/src/subs.c:74-97 | a message is the retained one of a topic after a run if and only if it is the last one handed on there with the flag, and it was not empty |
| `Runs.RetainedUnderAnother` | LORA/mosquitto/src/read_handle.c:217-238 | a run after which the retained message of `b` is one that was sent for `a` and without the flag, because a packet id was used again |
| `Runs.RetainedTwice` | LORA/mosquitto/src/read_handle.c:217-238 | the same run, gone on with: now `b` and `c` both retain the message that was sent for `a` |
| `Runs.DroppedStays` | LORA/mosquitto/src/read_handle.c:239-281 | a run after which the message of a QoS 2 PUBLISH that was dropped is in the store without a reference |
| `Runs.RetainedOnlyAfter` | LORA/mosquitto/src/subs.c:507-543 | a run in which the retained publication of `$x` is lost, and is kept when it is repeated after a subscription to `$x` |
| `Runs.ExactlyOnce` | LORA/mosquitto/src/database.c:743-808 | after every run: an accepted QoS 2 message still waits in a session, or was handed on exactly once, or was given up; only reuse of its packet id for QoS 1 adds to that (section 4.3.3) |
| `Runs.ReferencesCounted` | LORA/mosquitto/src/database.c:135-254 | after every run `ref_count` is the number of queue entries and retained nodes that point at the message; of the stored messages just those have a count of 0 that nothing points at, and nothing points at one that is not stored; `msg_store_count` is the size of the store |
| `Runs.NothingDangles` | LORA/mosquitto/src/database.c:135-254 | after every run no queue entry or retained node points at a freed message |
| `Runs.QueuesInOrder` | LORA/mosquitto/src/database.c:303-428 | after every run the session counters are exact, incoming entries have QoS 2 and distinct ids, and with both limits set the counted messages are at most max_inflight + max_queued |
| `Runs.PlainTop` | LORA/mosquitto/src/subs.c:507-543 | in every run the tree has the top of every topic without `$`, so that a retained publication of it is kept |
| `Window.WindowAcknowledged` | LORA/mosquitto/lib/messages_mosq.c:214-277 | an acknowledgement keeps the window if and only if it is for a message that was sent |
| `Window.WindowReceived` | LORA/mosquitto/lib/messages_mosq.c:371-389 | a PUBREC keeps the window if and only if it is for a message that was sent |
| `Window.TriedIsFirst` | LORA/mosquitto/lib/messages_mosq.c:117-152 | a message was tried if and only if it is among the first attempts |
| `Window.SoundPublish` | LORA/mosquitto/lib/mosquitto.c:583-625 | a publication keeps window, order of first attempts and the QoS 2 phases |
| `Window.SoundAcknowledged` | LORA/mosquitto/lib/messages_mosq.c:214-277 | so does an acknowledgement, with the next waiting message tried in its place |
| `Window.SoundReceived` | LORA/mosquitto/lib/messages_mosq.c:371-389 | so does a PUBREC |
| `Window.SoundRetried` | LORA/mosquitto/lib/messages_mosq.c:312-363 | so does a retry: it never sends a PUBLISH again that was confirmed |
| `Window.SoundReset` | LORA/mosquitto/lib/messages_mosq.c:154-212 | so does a reconnect, which keeps every confirmed message confirmed |
| `Window.RunsAreSound` | LORA/mosquitto/lib/messages_mosq.c:117-389 | after every run the messages in flight are the first of the queue, first attempts follow the order of publication without a gap, no QoS 2 PUBLISH follows its PUBREC, and each message is in a state of its QoS, that of a QoS 2 one being WaitForPubcomp if and only if its PUBREC has come |
| `ClientLibrary.Client.QueueOut` | LORA/mosquitto/lib/messages_mosq.c:117-152 | linking at the tail pointer appends to the list, and counts the message in flight if there is a place |
| `ClientLibrary.Client.QueueIn` | LORA/mosquitto/lib/messages_mosq.c:117-152 | the same for the in-queue |
| `ClientLibrary.Client.MidGenerate` | LORA/mosquitto/lib/util_mosq.c:148-167 | packet ids are 16 bits, never 0, and count up |
| `ClientLibrary.Client.PublishMessage` | LORA/mosquitto/lib/mosquitto.c:561-626 | refusals without effect, QoS 0 sent at once, QoS 1 and 2 queued and sent if the window has a place |
| `ClientLibrary.Client.Unlink` | LORA/mosquitto/lib/messages_mosq.c:222-249 | unlinking with a trailing pointer removes exactly this message and keeps head, tail and counters |
| `ClientLibrary.Client.Promote` | LORA/mosquitto/lib/messages_mosq.c:251-275 | exactly the first message that waits is started, if there is one |
| `ClientLibrary.Client.RemoveOut` | LORA/mosquitto/lib/messages_mosq.c:214-277 | the linked-list removal refines the acknowledgement of the window, sends the first waiting message without the DUP flag, and is in order if and only if the message had been sent |
| `ClientLibrary.Client.RemoveIn` | LORA/mosquitto/lib/messages_mosq.c:278-309 | the first incoming message with the id goes, or nothing changes |
| `ClientLibrary.Client.HandlePubrec` | LORA/mosquitto/lib/messages_mosq.c:371-389 | the first message with the id waits for PUBCOMP; in order if and only if it had been sent |
| `ClientLibrary.Client.ReceivePublish` | LORA/mosquitto/lib/read_handle.c:64-154 | an incoming QoS 2 message is answered and queued behind the others |
| `ClientLibrary.Client.HandlePubrel` | LORA/mosquitto/lib/read_handle_shared.c:127-171 | passed on if and only if it waited; PUBCOMP in any case |
| `ClientLibrary.Client.ReconnectReset` | LORA/mosquitto/lib/messages_mosq.c:154-212 | the reset keeps the queues in order if and only if the out-queue is not empty or the in-queue is |
| `ClientLibrary.TailCarriedOver` | LORA/mosquitto/lib/messages_mosq.c:157-210 | a client on which the other half shows: the tail of its empty out-queue is a message of the in-queue |
| `ClientLibrary.UnsentAcknowledged` | LORA/mosquitto/lib/messages_mosq.c:214-277 | a run in which the acknowledgement of a message that was never sent gives back the place of one that is still in flight |
| `ClientLibrary.Client.RetryCheck` | LORA/mosquitto/lib/messages_mosq.c:312-363 | exactly the messages whose time has come are answered for again, each by the packet of its phase and in list order, and no other message changes; the PUBLISH packets sent are just the attempts of the trace |
| `ClientLibrary.RetryByPhase` | LORA/mosquitto/lib/messages_mosq.c:312-363 | a QoS 2 message in flight is retried with a PUBREL if its PUBREC has come and with a marked PUBLISH otherwise; a QoS 1 one with a marked PUBLISH |
| `Wire.LengthOfLength` | LORA/mosquitto/lib/util_mosq.c:41-78 | four bytes suffice for a length if and only if it is at most 268435455 (section 2.2.3) |
| `Wire.OutPacket.EncodeLength` | LORA/mosquitto/lib/util_mosq.c:47-62 | the loop writes the encoding of the length, or stops after five bytes |
| `Wire.OutPacket.Alloc` | LORA/mosquitto/lib/util_mosq.c:41-78 | allocation succeeds if and only if the length can be encoded, and leaves the fixed header written |
| `Wire.OutPacket.WriteString` | LORA/mosquitto/lib/net_mosq.c:721-726 | the cursor appends the 16-bit length and that many bytes |
| `Wire.InPacket.ReadString` | LORA/mosquitto/lib/net_mosq.c:698-719 | the cursor takes the length and that many bytes, or fails within the packet |
| `Wire.TakeStringBack` | LORA/mosquitto/lib/net_mosq.c:698-726 | a string that was written is read back, whatever follows it |
| `Wire.NoNul` | LORA/mosquitto/lib/net_mosq.c:698-719 | a string without NUL is kept whole |
| `Framing.FeedAppend` | LORA/mosquitto/lib/net_mosq.c:980-1144 | decoding does not depend on where the bytes are cut |
| `Framing.FeedLength` | LORA/mosquitto/lib/net_mosq.c:1036-1079 | an encoded remaining length decodes to itself |
| `Framing.FeedPackets` | LORA/mosquitto/lib/net_mosq.c:980-1144 | a stream of encoded packets decodes to exactly these packets |
| `Framing.CutAnywhere` | LORA/mosquitto/lib/net_mosq.c:980-1144 | unless a command byte is 0, what a stream decodes to does not depend on the pieces in which it comes |
| `Framing.CutMatters` | LORA/mosquitto/lib/net_mosq.c:1000-1030 | with a command byte of 0 they do: the bytes 0, 48, 0 are one packet for a client or none, as they are cut |
| `Framing.FeedPacketsInPieces` | LORA/mosquitto/lib/net_mosq.c:980-1144 | a stream of encoded packets decodes to exactly these packets however it is cut |
| `Framing.TwoSchedules` | LORA/mosquitto/lib/net_mosq.c:980-1144 | the reader on those bytes with two schedules of reads, and the different packets that it hands on |
| `Framing.Reader.TakeLengthByte` | LORA/mosquitto/lib/net_mosq.c:1036-1079 | one byte of the length moves the fields as the byte-wise decoder moves |
| `Framing.Reader.PacketRead` | LORA/mosquitto/lib/net_mosq.c:980-1144 | a call that stops anywhere at EAGAIN, a short read, the end of the connection or an error leaves the state the bytes amount to, hands on just the packet they complete, and reports what stopped it |
| `Framing.ReadStream` | LORA/mosquitto/lib/net_mosq.c:980-1144 | any number of calls with any schedule hand on what the bytes read amount to, up to the first failure, and enough calls with enough bytes arriving read the whole stream |
| `Framing.Reader.Receive` | LORA/mosquitto/src/websockets.c:303-384 | the receive loop on one frame hands on what the bytes of the frame amount to, up to the first packet that the handler fails on |
| `Framing.ReceiveFrames` | LORA/mosquitto/src/websockets.c:303-384 | so do any frames; without a command byte of 0 the packets are the same however the bytes are cut into frames |
| `Packets.SendPublish` | LORA/mosquitto/lib/send_mosq.c:248-282 | the packet is written as the encoding, and filled exactly if and only if the topic fits its length field |
| `Packets.ReadPublish` | LORA/mosquitto/src/read_handle.c:95-204 | the broker reads exactly what the reference parser reads, or fails where it fails |
| `Packets.PublishRoundTrip` | LORA/mosquitto/src/read_handle.c:95-204 | every PUBLISH that a client may send is read as it was meant (section 3.3) |
| `Packets.PublishBytes` | LORA/mosquitto/lib/send_mosq.c:248-282 | the bytes of a PUBLISH, with the bits of its first byte, as in section 3.3 |
| `Packets.SendConnect` | LORA/mosquitto/lib/send_client_mosq.c:32-145 | the packet is written as the encoding, and filled exactly if and only if every string fits its length field |
| `Packets.ReadConnect` | LORA/mosquitto/src/read_handle_server.c:114-328 | the broker reads exactly what the reference parser reads, or fails where it fails |
| `Packets.ConnectRoundTrip` | LORA/mosquitto/src/read_handle_server.c:114-328 | every CONNECT that a client may send is read as it was meant (section 3.1) |
| `Packets.ConnectBytes` | LORA/mosquitto/lib/send_client_mosq.c:32-145 | the bytes of a CONNECT, with the flags of the example in section 3.1.2 |
| `Packets.EverythingArrives` | LORA/mosquitto/lib/net_mosq.c:980-1144 | a CONNECT and any publications after it arrive as sent and in order, in whatever pieces the stream comes |
| `Packets.WrittenIsEncoded` | LORA/mosquitto/lib/send_mosq.c:248-282 | what the two writers produce is the encoding that the stream theorem is about |
| `Archive.NativeBack` | LORA/mosquitto/src/persist.c:127-214 | a number written as the machine holds it is read back |
| `Archive.ChunkRoundTrip` | LORA/mosquitto/src/persist.c:526-792 | every chunk is read back as it was written, whatever follows it |
| `Archive.ChunkBytes` | LORA/mosquitto/src/persist.c:82-112 | the bytes of the chunk of a queue entry |
| `Archive.FileRoundTrip` | LORA/mosquitto/src/persist.c:794-904 | a file of chunks is read back chunk by chunk to its end |
| `Snapshot.FoldStore` | LORA/mosquitto/src/persist.c:625-722 | the chunks of the store build up the stored messages |
| `Snapshot.FoldClients` | LORA/mosquitto/src/persist.c:526-623 | the chunks of clients and queue entries build up exactly the persistent sessions, each queue in its order, if all their messages were saved, and fail if one was not |
| `Walk.WalkedIsFilter` | LORA/mosquitto/src/persist.c:257-340 | the string that the walk builds for a node is its filter, for every path, empty levels and leading slashes included |
| `Walk.BelowSecond` | LORA/mosquitto/src/persist.c:327-340 | starting below the tops the walk misses no node that can hold anything |
| `Walk.WalkOrderHas` | LORA/mosquitto/src/persist.c:257-340 | the walk comes to each node below the tops exactly once |
| `Walk.TreeCovered` | LORA/mosquitto/src/persist.c:257-340 | the chunks of the walk are those of the subscriptions of saved clients and of the retained messages outside `$SYS`, and each of these has one |
| `Walk.TwiceRetained` | LORA/mosquitto/src/persist.c:312-319 | a message is named by two chunks if and only if two topics retain it |
| `Snapshot.Requeued` | LORA/mosquitto/src/persist.c:724-745 | queueing a message again, between taking and giving back a guard: a marked message becomes the retained one of its own topic, the one that it displaces goes unless a queue holds it, and the message itself goes unless a queue or a node holds it then |
| `Snapshot.StaysBalanced` | LORA/mosquitto/src/persist.c:526-792 | every chunk keeps each reference count equal to the queue entries and the node that point at the message |
| `Rebuild.FoldTree` | LORA/mosquitto/src/persist.c:724-792 | the chunks of the tree are taken to their end if and only if each message that one of them names is still there, and crash the broker otherwise; they build up the subscriptions, the retained messages that queueing again leaves, and a store without the messages that were named and that nothing holds |
| `Rebuild.RetOfIsLast` | LORA/mosquitto/src/persist.c:724-745 | a message is retained under a topic after the restore if and only if it is the last one that a chunk put up there, with the flag, while the tree had the top of the topic, and is not empty |
| `Rebuild.AllThereUnlessTwice` | LORA/mosquitto/src/persist.c:724-745 | nothing that was freed is named again if every message that two chunks name is held by a restored queue |
| `Rebuild.UnmarkedTwice` | LORA/mosquitto/src/persist.c:724-745 | and otherwise a message without the flag is freed by the first of two chunks and missed by the second |
| `Rebuild.AllBuiltUp` | LORA/mosquitto/src/persist.c:724-792 | all subscriptions of the saved clients are built up again, with their QoS, and no others |
| `Rebuild.SameRetained` | LORA/mosquitto/src/persist.c:724-745 | the retained messages are the same again, for topics with `$` as well, if and only if each is outside `$SYS`, stands under its own topic with the flag, and is named when the tree has the top of that topic |
| `Persist.Saver.WriteMsg` | LORA/mosquitto/src/persist.c:68-124 | one queue entry as its chunk |
| `Persist.Saver.WriteStored` | LORA/mosquitto/src/persist.c:127-214 | one stored message as its chunk, the retain flag cleared for `$SYS` topics |
| `Persist.Saver.WriteStore` | LORA/mosquitto/src/persist.c:127-214 | all stored messages but those of `$SYS` that nobody waits for |
| `Persist.Saver.WriteClient` | LORA/mosquitto/src/persist.c:216-255 | one client with its queue |
| `Persist.Saver.WriteClients` | LORA/mosquitto/src/persist.c:216-255 | all persistent clients, in order |
| `Persist.Saver.WriteNode` | LORA/mosquitto/src/persist.c:257-325 | the recursive walk writes the chunks of all nodes beneath a node, in the order of the walk |
| `Persist.Saver.WriteTree` | LORA/mosquitto/src/persist.c:327-340 | the walk from the tops writes exactly the chunks of the tree |
| `Persist.Saver.Save` | LORA/mosquitto/src/persist.c:342-477 | the file is the header followed by exactly the chunks of configuration, store, clients and tree, in this order |
| `Restore.Loader.FindOrAddContext` | LORA/mosquitto/src/persist.c:43-66 | the session with the id, added at the end if there is none |
| `Restore.Loader.QueueAgain` | LORA/mosquitto/src/persist.c:724-745 | without a source nothing is delivered; a guard is taken and given back, a marked message becomes the retained one of its own topic if the tree has its top, and what nothing holds then is freed, the message itself included |
| `Restore.Loader.Take` | LORA/mosquitto/src/persist.c:526-792 | taking a chunk changes sessions, store, reference counts, load table, subscriptions and retained messages as the chunk says, reports it as corrupt, or crashes on a message that was freed |
| `Restore.RestoreFile` | LORA/mosquitto/src/persist.c:794-904 | how the restore of a file ends, as its contents alone decide: empty files do nothing, files without the header, with a chunk that cannot be read or a reference that is not there are refused, a file that names a freed message crashes the broker, and any other one leaves the state that its chunks build up |
| `Restore.Outcome` | LORA/mosquitto/src/persist.c:342-477 | what a saved file amounts to: a refusal if a saved session waits for a message that was not saved, a crash if a retained message is named after it was freed, and the state below otherwise |
| `Restore.Reload` | LORA/mosquitto/src/persist.c:794-904 | restore after backup succeeds if and only if every message that a saved session waits for was saved, and every message that a chunk of the tree names is still there then; it gives back the persistent sessions with their ordered queues, the subscriptions with QoS, the stored messages but those that were named and that nothing holds, with right reference counts, and the retained map, exactly when each message comes back |
| `Backup.Restart` | LORA/mosquitto/src/persist.c:342-477 | the same for the broker after any run: it refuses its own file if and only if a saved session waits for a message of `$SYS` that the file leaves out, and otherwise crashes on it if and only if a retained message is named after it was freed, which cannot be if each message that two topics retain is one that a saved session waits for; without reuse of packet ids this is so, and the retained messages of topics without `$` come back; every session that outlives connections is there once, with its id, its last packet id, and entry by entry the same packet id, QoS, retain flag, direction, state and DUP flag; so are its subscriptions with their QoS, and the messages, but for those that are not saved or that nothing holds |
| `Backup.EntryBack` | LORA/mosquitto/lib/mosquitto_internal.h:73-91 | the numbers that an entry is saved as stand for it, but for its time |
| `Backup.SessionsComeBack` | LORA/mosquitto/src/persist.c:43-124 | what is saved of the sessions is exactly those of persistent clients, each once and whole |
| `Backup.MessagesComeBack` | LORA/mosquitto/src/persist.c:127-214 | the stored messages after a restore are those that were not left out, and that a saved session waits for, or that were not retained, or that are retained again; topic, QoS, packet id, source and payload are as they were, and the flag but for `$SYS` |
| `Backup.FreedBefore` | LORA/mosquitto/src/persist.c:724-745 | the broker does crash if two topics retain a message without the flag that no saved session waits for |
| `Backup.CrashAfterReuse` | LORA/mosquitto/src/persist.c:724-745 | a whole run of one client with QoS 2 and a packet id used twice more, after which the broker crashes on the file that it has saved |
| `Backup.OwnWithoutReuse` | LORA/mosquitto/src/read_handle.c:217-238 | after any run in which no retained message was handed on for a packet id used again, each stands under its own topic with the flag |
| `Backup.SysEntryLost` | LORA/mosquitto/src/persist.c:140-147 | a database whose restore fails: a session waits for a retained message of `$SYS` that has been replaced |
| `DeviceLock.StepKeeps` | LORA/slsnif-0.4.4/src/devlck.c:76-299 | every file step of every process keeps the invariant of the two lock files, unless a process dies or the FSSTND file cannot be removed |
| `DeviceLock.InvariantExcludes` | LORA/slsnif-0.4.4/src/devlck.c:144-244 | under it at most one process holds the lock, and a FSSTND file implies a SVr4 file of the same owner |
| `DeviceLock.RunsAreSafe` | LORA/slsnif-0.4.4/src/devlck.c:76-299 | both hold after every interleaving of any number of processes in which nobody dies and a FSSTND file that is given up is removed, whatever else fails |
| `DeviceLock.StaleLocksBreakExclusion` | LORA/slsnif-0.4.4/src/devlck.c:76-113 | an interleaving in which two processes remove the lock files of a dead one and both hold the lock |
| `DeviceLock.FailedUnlinkBreaksExclusion` | LORA/slsnif-0.4.4/src/devlck.c:246-299 | an interleaving of two processes in which the failing removal of a FSSTND file lets both hold the lock |
| `DeviceLock.LinkedProceeds` | LORA/slsnif-0.4.4/src/devlck.c:195-240 | a process that has its SVr4 link is never turned back unless a file operation fails |
| `DeviceLock.NothingLeftBehind` | LORA/slsnif-0.4.4/src/devlck.c:246-299 | when no file operation fails, no lock file remains once everybody is outside without the lock |
| `DeviceLock.LockAlone` | LORA/slsnif-0.4.4/src/devlck.c:144-244 | a process by itself gets a free lock, with both files |
| `DeviceLock.UnlockAlone` | LORA/slsnif-0.4.4/src/devlck.c:246-299 | the holder by itself gives it back |
| `Downlink.ActionsProgress` | LORA/lora-mqtt/mqtt.c:703-831 | every action of the worker lowers the rank (queue, not yet invited, attempts left), drops a message only when it gives up, and sends the oldest |
| `Downlink.ActionsBounded` | LORA/lora-mqtt/mqtt.c:703-831 | over any passes the actions are bounded by the rank, and messages leave in their order |
| `Downlink.AttemptsBounded` | LORA/lora-mqtt/mqtt.c:703-831 | at most thirteen attempts and invitations before a message leaves the queue |
| `Downlink.SpacedPasses` | LORA/lora-mqtt/mqtt.c:703-831 | every pass later than all timeouts acts on a node that is not of class A and has a message |
| `Downlink.QueueDrains` | LORA/lora-mqtt/mqtt.c:703-831 | fourteen such passes for each message empty the queue |
| `Downlink.OnlyOnRequest` | LORA/lora-mqtt/mqtt.c:703-831 | a class A node that asked for nothing is sent nothing |
| `Downlink.OnePerRequest` | LORA/lora-mqtt/mqtt.c:642-670 | over any sequence of passes, requests, acknowledgements and new messages a class A node is sent one message at most for each request |
| `Downlink.GivenUpAfter` | LORA/lora-mqtt/mqtt.c:725-801 | whatever happens, a message is given up only after six attempts for it, each of which has sent this message or invited its class C node |
| `Downlink.Gateway.constructor` | LORA/lora-mqtt/mqtt.c:145-157 | all places are free |
| `Downlink.Gateway.AddDevice` | LORA/lora-mqtt/mqtt.c:173-224 | a known node is updated, a new one gets the first free place, a full pool changes nothing; node ids stay unique |
| `Downlink.Gateway.KickDevice` | LORA/lora-mqtt/mqtt.c:226-251 | exactly the place of the node becomes free, its queue emptied |
| `Downlink.Gateway.MessageToMote` | LORA/lora-mqtt/mqtt.c:985-1043 | the frame goes to the end of the queue of its node, which is added if there is a place; a class A node is told |
| `Downlink.Gateway.WorkerPass` | LORA/lora-mqtt/mqtt.c:703-831 | one round moves every used place by one action and writes the commands in the order of the pool |
| `Downlink.Gateway.Ack` | LORA/lora-mqtt/mqtt.c:605-639 | the oldest message of the node leaves and its counters start again; no other place changes |
| `Downlink.Gateway.Join` | LORA/lora-mqtt/mqtt.c:520-568 | the node is known with its new class, a class C node need not be invited, and the gate is told what waits |
| `Downlink.Gateway.PendingRequest` | LORA/lora-mqtt/mqtt.c:642-670 | only a class A node with something pending may be sent its next message |

## Left out

- Broker.Database.SubsProcess: the walk `_sub_search` first lists its calls and carries them out afterwards, because a call changes nothing that the walk reads.
- Broker.Database.MessageInsert: with WebSocket clients the source writes the queue out at once after an insertion (`LORA/mosquitto/src/database.c:459-464`); here writing is an event of its own, as it is for other clients.
- Sessions.Connect: the client with the same id is taken over after its security checks. The purge of denied entries that follows is modelled by itself, as `Sessions.PurgeDenied`, and is not part of runs, because it leaves the session counters wrong; a change of the user name is not modelled.
- Sessions.HandleSubscribe: the handlers of PUBLISH, SUBSCRIBE, UNSUBSCRIBE and the acknowledgements start from the fields of the packet; for PUBLISH and CONNECT `Packets` has the bytes. Mount points are not modelled.
- Runs.Step: a clean session ends together with its connection; the source frees it in the next turn of its loop. Persistent sessions do not expire (`persistent_client_expiration`). Events of clients that are not connected are possible, so that there are more runs here than the source has.
- Runs.ReferencesCounted: that a message without references stays in the store for good is shown by a run, not stated for all later events.
- Subs.SubTree.CleanSession: a slot is cleared when its leaf is unlinked; the source does so only for nodes it prunes, and frees the slots at the end.
- Restore.Reload: what is restored is sessions, queues, store, subscriptions and retained messages; the source does not restore the session counters. What a freed message does when it is named again is stated as a crash, whether the load table has been cleared or points to freed memory.
- Restore.RestoreFile: the file is assumed to name valid filters, and retained messages with valid topics, and to have each message id once, as those that the broker writes do; the broker takes these unchecked.
- Restore.Loader.Take: the same holds for each chunk.
- Framing.Reader.Receive: frames are handed to one connection; the write side of the WebSocket callback is not modelled.
- Downlink.Gateway.AddDevice: resetting the retry counter outside the lock is taken as one step with the rest.
- ClientLibrary.Client.PublishMessage: callbacks, threads and mutexes are not modelled; each locked region is one step.
- The linked lists of the broker (queues, siblings, leaves, the store) are sequences in fields of the two classes, with references where the source has pointers between nodes, clients and stored messages; the `next` and `prev` links themselves are modelled for the client library only.
- Bridges, mount points, access control files and authentication plugins: the access check is a parameter.
- Message contents: the broker model keeps the length of a payload, the codec and persistence models its bytes.
- SUBSCRIBE, UNSUBSCRIBE and the acknowledgement packets on the wire: the same primitives in shorter packets.
- Sockets, TLS, DNS, poll loops, keepalive, HTTP serving and libwebsockets.
- Configuration, logging, `$SYS` statistics, command-line clients, the password tool, Windows services.
- `max_inflight` and `max_queued` are constants within a run.
- The LoRa device modules, their value conversion and JSON building; join, kick and device lists beyond the pool of nodes.
- Allocation failure everywhere.
