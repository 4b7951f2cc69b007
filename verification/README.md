# External scheduler plugin for Jenkins — a Dafny model of its core

The plugin lets a remote planning service decide which Jenkins node runs
which queued build. It has two generations of integration, and this
project models both:

- **DroolsPlanner** (the older one). A descriptor holds the planner URL
  and a lazily created `PlannerProxy`. A queue dispatcher keeps the last
  solution and the hash of the Jenkins state it answers, and asks the
  planner again only when that hash changes. A standalone `Dispatcher`
  fetches the solution from the proxy on every question and reads its
  verdict off it. `QueueSerializerService` is the codec.
- **ExternalPlanner / ExternalScheduler** (the current one). A shared
  `ExternalPlanner` holds a `RestPlanner` client and the last fetched
  solution. Its descriptor attaches a planner for the configured URL. A
  `Dispatcher` admits an item on a node only when the solution says so.
  `RestPlanner` encodes with a `Translator` codec that is not part of this
  model; how that encoding ends is a parameter of `queue`. `JsonSerializer`,
  the JSON codec of the `droolsplanner` package, is modelled on its own
  (only its tests call it).

The supporting pieces are modelled too:

- the solution type (`NodeAssignments`, plus the legacy `NodeAssignements`);
- `CachingPlanner`, a caching decorator;
- `AbstractCiStateProvider`, the Jenkins state that is sent, with its
  `equals` and `hashCode`;
- `Sorter`, the queue sorter;
- the three periodic `RemoteUpdater`s.

Every object is an immutable datatype, and every operation is a function
that returns the next state, the remote calls it made (verb, resource and
outcome), and its result or the exception it threw. How each remote call
ends is a parameter (`Transport.Outcome`). So are the Jenkins state (a
`Host.Snapshot` of nodes and queue items, with their Java hash codes) and
the planner's replies. Java `null` is `Option.None`. Java `int` arithmetic
is written out with `Base.Wrap32`.

Files, one module each: `base`, `host`, `json`, `wire_format` (the three
messages, as the remote planner reads and writes them), `node_assignments`,
`node_assignements`, `json_serializer`, `queue_serializer_service`,
`transport`, `rest_planner`, `planner_proxy`, `caching_planner`,
`ci_state_provider`, `drools_dispatcher`, `drools_planner`,
`external_dispatcher`, `external_planner`, `external_scheduler`, `sorter`,
`remote_updaters`.

Some details of the code that the model keeps:

- In `RestPlanner.queue`, a rejected PUT falls back to a POST, and a
  connection failure escapes unwrapped.
- `QueueSerializerService` sends a null queue as an empty array.
- JsonSerializer gives every item priority 50, and offers no node for a
  label whose node set is empty.
- `DroolsPlanner`'s `canTake` refuses every node.

## Model

All source paths are under `src/main/java/org/jenkinsci/plugins/`, written out in full below.

| member | source | states |
|---|---|---|
| Base.Guard | src/main/java/org/jenkinsci/plugins/externalscheduler/Dispatcher.java:47-52 | a null argument, and only a null one, fails with AssertionError carrying the given message; any other argument is kept (the same guard opens both dispatchers and the three updaters) |
| Assignments.Assign | src/main/java/org/jenkinsci/plugins/droolsplanner/NodeAssignments.java:55-59 | `assign` sets the id to the given name, null included, and leaves every other id as it was |
| Assignments.Build | src/main/java/org/jenkinsci/plugins/droolsplanner/NodeAssignments.java:61-70 | the built solution holds exactly the builder's entries |
| Assignments.Empty | src/main/java/org/jenkinsci/plugins/droolsplanner/NodeAssignments.java:46-49 | the empty solution has size 0 and answers null for every id |
| Assignments.NodeName | src/main/java/org/jenkinsci/plugins/droolsplanner/NodeAssignments.java:77-80 | a name is returned exactly when the id is present with a non-null name, and it is that name |
| Assignments.NodeNameOf | src/main/java/org/jenkinsci/plugins/droolsplanner/NodeAssignments.java:72-75 | looking up an item is looking up its id |
| Assignments.Size | src/main/java/org/jenkinsci/plugins/droolsplanner/NodeAssignments.java:82-85 | size is the number of distinct ids held |
| Assignments.AssignAllMeaning | src/main/java/org/jenkinsci/plugins/droolsplanner/NodeAssignments.java:51-64 | after any sequence of `assign` calls, the keys are exactly the ids mentioned, and each holds the name of the last call for it |
| Assignments.LastAssignWins | src/main/java/org/jenkinsci/plugins/droolsplanner/NodeAssignments.java:55-80 | `nodeName(id)` after a builder session is the name given by the last `assign` for that id |
| Assignments.SizeCountsDistinctIds | src/main/java/org/jenkinsci/plugins/droolsplanner/NodeAssignments.java:55-85 | `size()` after a session counts the distinct ids mentioned |
| Assignments.NullAssignmentCounted | src/main/java/org/jenkinsci/plugins/droolsplanner/NodeAssignments.java:55-85 | assigning null adds a key that `size` counts but `nodeName` answers as null |
| LegacyAssignments.Assign | src/main/java/org/jenkinsci/plugins/droolsplanner/NodeAssignements.java:27-32 | the legacy `assign` overwrites the id and leaves every other id alone |
| LegacyAssignments.Build | src/main/java/org/jenkinsci/plugins/droolsplanner/NodeAssignements.java:34-44 | the legacy build holds exactly the builder's entries |
| LegacyAssignments.TaskNodeName | src/main/java/org/jenkinsci/plugins/droolsplanner/NodeAssignements.java:46-49 | null for an absent id, otherwise the stored name |
| LegacyAssignments.Size | src/main/java/org/jenkinsci/plugins/droolsplanner/NodeAssignements.java:51-54 | size is the number of distinct ids held |
| LegacyAssignments.AgreesWithNodeAssignments | src/main/java/org/jenkinsci/plugins/droolsplanner/NodeAssignements.java:27-32 | the legacy builder and the current one, run on the same calls, end with the same map |
| LegacyAssignments.LegacyLastAssignWins | src/main/java/org/jenkinsci/plugins/droolsplanner/NodeAssignements.java:27-54 | legacy lookups answer the last `assign` for the id, and size counts the distinct ids |
| Json.GetInt | src/main/java/org/jenkinsci/plugins/droolsplanner/JsonSerializer.java:55-58 | `getInt` reads a number member, narrowed to Java `int` and exact when it fits; a missing or non-number member is a JSON error |
| Json.GetString | src/main/java/org/jenkinsci/plugins/droolsplanner/JsonSerializer.java:74-78 | `getString` reads a string member exactly as written; a missing or non-string member is a JSON error |
| JsonSerializer.ExtractScore | src/main/java/org/jenkinsci/plugins/droolsplanner/JsonSerializer.java:55-58 | a score is read exactly when the message has a number under `score`; anything else is a JSON error |
| JsonSerializer.ExtractScoreRoundTrip | src/main/java/org/jenkinsci/plugins/droolsplanner/JsonSerializer.java:55-58 | a score message carrying any Java `int` decodes to that int |
| JsonSerializer.DeserializeNodeName | src/main/java/org/jenkinsci/plugins/droolsplanner/JsonSerializer.java:84-90 | the `not-assigned` sentinel, and only it, decodes to null; anything else is kept verbatim |
| JsonSerializer.ExtractAssignments | src/main/java/org/jenkinsci/plugins/droolsplanner/JsonSerializer.java:66-82 | decoding succeeds only on a message with a `solution` array, and otherwise fails only with ClassCast or JSON errors |
| JsonSerializer.ExtractAssignmentsRoundTrip | src/main/java/org/jenkinsci/plugins/droolsplanner/JsonSerializer.java:66-90 | a solution message decodes to the assignments built by one `assign` per entry, in order, with the sentinel mapped to null |
| JsonSerializer.DecodedLookup | src/main/java/org/jenkinsci/plugins/droolsplanner/JsonSerializer.java:66-90 | after decoding, an id answers the node of its last entry (null for the sentinel or no entry), and size counts distinct ids |
| JsonSerializer.Online | src/main/java/org/jenkinsci/plugins/droolsplanner/JsonSerializer.java:214-218 | a node is online when it has a computer that is not offline and accepts tasks |
| JsonSerializer.Applicable | src/main/java/org/jenkinsci/plugins/droolsplanner/JsonSerializer.java:209-212 | a node is applicable to an item when it is online and its own `canTake` does not object |
| JsonSerializer.Candidates | src/main/java/org/jenkinsci/plugins/droolsplanner/JsonSerializer.java:188-195 | the candidates are the label's nodes when the label and its node set exist, and every node otherwise |
| JsonSerializer.AssignableNodes | src/main/java/org/jenkinsci/plugins/droolsplanner/JsonSerializer.java:188-218 | a node is offered exactly when it is a candidate that is online, accepts tasks and does not refuse the item; each offered node has a computer |
| JsonSerializer.NameOf | src/main/java/org/jenkinsci/plugins/droolsplanner/JsonSerializer.java:233-236 | a node is named by its self label |
| JsonSerializer.FindListed | src/main/java/org/jenkinsci/plugins/droolsplanner/JsonSerializer.java:220-236 | the target name is found exactly when some listed node's self label spells it |
| JsonSerializer.AssignedNode | src/main/java/org/jenkinsci/plugins/droolsplanner/JsonSerializer.java:220-236 | `assigned` is the current assignment exactly while a listed node bears that name, and null otherwise |
| JsonSerializer.NodeViewOf | src/main/java/org/jenkinsci/plugins/droolsplanner/JsonSerializer.java:167-186 | a node entry reports the self-label name, the executors and the idle executors |
| JsonSerializer.ItemViewOf | src/main/java/org/jenkinsci/plugins/droolsplanner/JsonSerializer.java:138-186 | a queue entry reports id, priority 50, enqueue time and task name; its nodes are exactly the assignable ones, in order; `assigned` is set only when listed |
| JsonSerializer.Serializable | src/main/java/org/jenkinsci/plugins/droolsplanner/JsonSerializer.java:138-160 | encoding reaches the end only when the queue exists and every item has a task; `BuildQuery` fails exactly when this does not hold |
| JsonSerializer.BuildQuery | src/main/java/org/jenkinsci/plugins/droolsplanner/JsonSerializer.java:99-106 | the query is built exactly when the queue exists and every item has a task, and otherwise fails with NullPointerException |
| JsonSerializer.BuildQueryReadBack | src/main/java/org/jenkinsci/plugins/droolsplanner/JsonSerializer.java:99-160 | the planner reads back one entry per queue item, in queue order, each as `ItemViewOf` describes |
| WireFormat.KeysInOrder | src/main/java/org/jenkinsci/plugins/droolsplanner/JsonSerializer.java:138-186 | node and queue entries carry their members in the fixed emission order, and the request has a single `queue` member |
| WireFormat.QueryRoundTrip | src/main/java/org/jenkinsci/plugins/droolsplanner/JsonSerializer.java:138-186 | reading a written queue request gives back exactly the entries it was written from |
| QueueSerializerService.GetScore | src/main/java/org/jenkinsci/plugins/droolsplanner/QueueSerializerService.java:41-44 | a score is read exactly when the message has a number under `score`; anything else is a JSON error |
| QueueSerializerService.GetScoreRoundTrip | src/main/java/org/jenkinsci/plugins/droolsplanner/QueueSerializerService.java:41-44 | a score message carrying any Java `int` decodes to that int |
| QueueSerializerService.Deserialize | src/main/java/org/jenkinsci/plugins/droolsplanner/QueueSerializerService.java:46-59 | decoding succeeds only with a `solution` array, and otherwise fails only with ClassCast or JSON errors |
| QueueSerializerService.DeserializeRoundTrip | src/main/java/org/jenkinsci/plugins/droolsplanner/QueueSerializerService.java:46-59 | a solution message decodes to one `assign` per entry with node strings kept verbatim; a lookup answers the last entry |
| QueueSerializerService.DecodersOnSentinel | src/main/java/org/jenkinsci/plugins/droolsplanner/QueueSerializerService.java:46-59 | on an entry naming `not-assigned`, this decoder returns that string as a node and JsonSerializer returns null |
| QueueSerializerService.DecodersAgreeWithoutSentinel | src/main/java/org/jenkinsci/plugins/droolsplanner/QueueSerializerService.java:46-59 | on messages without the sentinel, both decoders give the same assignments |
| QueueSerializerService.Priority | src/main/java/org/jenkinsci/plugins/droolsplanner/QueueSerializerService.java:124-131 | priority is 70 exactly when the lower-cased name contains one of `eap`, `brms`, `jdg`, and 50 otherwise |
| QueueSerializerService.PriorityIgnoresCase | src/main/java/org/jenkinsci/plugins/droolsplanner/QueueSerializerService.java:124-131 | a name and its lower-case form get the same priority |
| QueueSerializerService.KeywordRaisesPriority | src/main/java/org/jenkinsci/plugins/droolsplanner/QueueSerializerService.java:124-131 | a keyword in any ASCII case at any position gives priority 70 |
| QueueSerializerService.PrioritiesDisagree | src/main/java/org/jenkinsci/plugins/droolsplanner/QueueSerializerService.java:124-131 | the same name can rank 70 here while JsonSerializer always sends 50 |
| QueueSerializerService.LabelNodes | src/main/java/org/jenkinsci/plugins/droolsplanner/QueueSerializerService.java:147-158 | the nodes of the item's label, none when the label or its node set is null; `UsableNodes` falls back to all nodes exactly when this is empty |
| QueueSerializerService.UsableNodes | src/main/java/org/jenkinsci/plugins/droolsplanner/QueueSerializerService.java:147-158 | the usable nodes are the label's nodes when that set is non-empty, and all nodes otherwise |
| QueueSerializerService.EmptyLabelDiffers | src/main/java/org/jenkinsci/plugins/droolsplanner/QueueSerializerService.java:147-158 | for a label with an empty node set, this codec offers every node and JsonSerializer offers none |
| QueueSerializerService.NodeViewOf | src/main/java/org/jenkinsci/plugins/droolsplanner/QueueSerializerService.java:133-145 | a node entry reports the node name, the executors and the idle executors |
| QueueSerializerService.ItemViewOf | src/main/java/org/jenkinsci/plugins/droolsplanner/QueueSerializerService.java:97-145 | a queue entry reports id, keyword priority, time and name; it lists every usable node unfiltered, with the assignment as it stands |
| QueueSerializerService.Serializable | src/main/java/org/jenkinsci/plugins/droolsplanner/QueueSerializerService.java:61-122 | a non-null queue encodes when every item has a task and every usable node a computer; `Serialize` fails exactly when this does not hold |
| QueueSerializerService.Serialize | src/main/java/org/jenkinsci/plugins/droolsplanner/QueueSerializerService.java:61-69 | it succeeds exactly for a null queue (sent as empty) or a serializable one, and otherwise fails with NullPointerException |
| QueueSerializerService.SerializeReadBack | src/main/java/org/jenkinsci/plugins/droolsplanner/QueueSerializerService.java:61-122 | the planner reads back nothing for a null queue, and otherwise one entry per item, in order |
| RestPlanner.PlannerName | src/main/java/org/jenkinsci/plugins/droolsplanner/RestPlanner.java:92-105 | the name is found exactly when the info text opens with the prefix and a one-line group ends before ` on URL`; it is the shortest such group |
| RestPlanner.PlannerNameRoundTrip | src/main/java/org/jenkinsci/plugins/droolsplanner/RestPlanner.java:92-105 | the info page of a planner with a one-line name not containing ` on URL` yields that name |
| RestPlanner.Create | src/main/java/org/jenkinsci/plugins/droolsplanner/RestPlanner.java:76-113 | a null URL is refused with no call; otherwise one GET `/info`, and success exactly when it is delivered and names the planner, leaving the client STOPPED |
| RestPlanner.RemoteUrl | src/main/java/org/jenkinsci/plugins/droolsplanner/RestPlanner.java:118-121 | `remoteUrl` is the URL the client was constructed with; `RestPlanner.RemoteUrlKept` proves it survives every operation |
| RestPlanner.SendQueue | src/main/java/org/jenkinsci/plugins/droolsplanner/RestPlanner.java:213-227 | one POST; only a delivered POST makes the planner RUNNING, and a failed one throws a PlannerException |
| RestPlanner.Queue | src/main/java/org/jenkinsci/plugins/droolsplanner/RestPlanner.java:191-239 | null arguments are refused with no call, and so is a state the codec fails to encode, whose exception escapes; a stopped planner POSTs; a running one PUTs, falling back to a POST on rejection; success leaves it RUNNING; URL and name are kept |
| RestPlanner.Fetch | src/main/java/org/jenkinsci/plugins/droolsplanner/RestPlanner.java:154-186 | a GET needs a RUNNING planner; a failed GET is wrapped in a PlannerException; the planner never changes |
| RestPlanner.Score | src/main/java/org/jenkinsci/plugins/droolsplanner/RestPlanner.java:131-139 | the score is returned exactly when the planner is running and the GET `/score` is delivered |
| RestPlanner.Solution | src/main/java/org/jenkinsci/plugins/droolsplanner/RestPlanner.java:144-152 | the solution is returned exactly when the planner is running and the GET is delivered |
| RestPlanner.Stop | src/main/java/org/jenkinsci/plugins/droolsplanner/RestPlanner.java:244-269 | the planner is STOPPED afterwards whatever happens; a DELETE is sent only from RUNNING, and a failed DELETE throws |
| RestPlanner.RestartAfterStop | src/main/java/org/jenkinsci/plugins/droolsplanner/RestPlanner.java:191-269 | STOPPED is not terminal: after any stop, a delivered POST runs the planner again; only a codec failure keeps it STOPPED, with no call and the codec's exception |
| RestPlanner.RemoteUrlKept | src/main/java/org/jenkinsci/plugins/droolsplanner/RestPlanner.java:76-121 | after construction and any sequence of operations, `remoteUrl` answers the constructor's URL |
| RestPlanner.ExecInSession | src/main/java/org/jenkinsci/plugins/droolsplanner/RestPlanner.java:191-269 | one operation keeps "RUNNING iff a remote session is open" and issues no PUT, GET or DELETE outside a session |
| RestPlanner.RunInSession | src/main/java/org/jenkinsci/plugins/droolsplanner/RestPlanner.java:191-269 | over any sequence of operations, the status is RUNNING exactly when the calls leave a session open, and no PUT, GET or DELETE is sent outside one |
| PlannerProxy.Create | src/main/java/org/jenkinsci/plugins/droolsplanner/PlannerProxy.java:56-59 | a new proxy keeps the given URL, null included, and is neither started nor stopped |
| PlannerProxy.RemoteUrl | src/main/java/org/jenkinsci/plugins/droolsplanner/PlannerProxy.java:61-64 | `remoteUrl` is the URL the proxy was constructed with, null included; `PlannerProxy.RemoteUrlKept` proves it survives every operation |
| PlannerProxy.RemoteUrlKept | src/main/java/org/jenkinsci/plugins/droolsplanner/PlannerProxy.java:56-64 | after construction and any sequence of operations, `remoteUrl` answers the constructor's URL, null included |
| PlannerProxy.Queue | src/main/java/org/jenkinsci/plugins/droolsplanner/PlannerProxy.java:86-105 | null assignments are refused; one call is made exactly when the state serializes and the URL exists, POST first and PUT after; the proxy is then started; `stopped` is untouched |
| PlannerProxy.Fetch | src/main/java/org/jenkinsci/plugins/droolsplanner/PlannerProxy.java:66-84 | a GET needs a started proxy with a URL; failures escape unwrapped |
| PlannerProxy.Score | src/main/java/org/jenkinsci/plugins/droolsplanner/PlannerProxy.java:66-74 | the score is returned exactly when the proxy is started with a URL, the GET is delivered and the body decodes |
| PlannerProxy.Solution | src/main/java/org/jenkinsci/plugins/droolsplanner/PlannerProxy.java:76-84 | the solution is returned exactly when the proxy is started with a URL, the GET is delivered and the body decodes |
| PlannerProxy.Stop | src/main/java/org/jenkinsci/plugins/droolsplanner/PlannerProxy.java:107-124 | only the first stop after start marks the proxy stopped and sends the DELETE (when there is a URL); every other stop does nothing |
| PlannerProxy.QueueAfterStop | src/main/java/org/jenkinsci/plugins/droolsplanner/PlannerProxy.java:86-124 | a stopped proxy still sends queue updates, with a PUT |
| PlannerProxy.ExecDeletes | src/main/java/org/jenkinsci/plugins/droolsplanner/PlannerProxy.java:86-124 | in one operation the flags only rise, and a DELETE goes out exactly when `stopped` rises on a proxy with a URL |
| PlannerProxy.AtMostOneDelete | src/main/java/org/jenkinsci/plugins/droolsplanner/PlannerProxy.java:86-124 | over the whole life of a proxy, at most one DELETE is sent, and exactly one once it is stopped with a URL |
| PlannerProxy.NotStartedRefuses | src/main/java/org/jenkinsci/plugins/droolsplanner/PlannerProxy.java:151-154 | before the first `queue`, `score` and `solution` refuse with no remote call |
| PlannerProxy.StartedEvenIfPostFails | src/main/java/org/jenkinsci/plugins/droolsplanner/PlannerProxy.java:86-105 | the first `queue` marks the proxy started even when its POST fails |
| CachingPlanner.Create | src/main/java/org/jenkinsci/plugins/droolsplanner/CachingPlanner.java:36-47 | a new decorator has no stored fingerprint and nothing cached |
| Base.ShiftLeft32 | src/main/java/org/jenkinsci/plugins/droolsplanner/CachingPlanner.java:103 | Java `int << int` reads only the low five bits of the distance: a multiple of 32 shifts nothing, zero stays zero, and a product that fits is exact |
| CachingPlanner.FingerprintAsWritten | src/main/java/org/jenkinsci/plugins/droolsplanner/CachingPlanner.java:96-104 | as written, the `32 +` is lost to the shift: the fingerprint is the state hash shifted by the assignments hash alone, so a multiple of 32 leaves the state hash as it is and state hash 0 gives 0 |
| CachingPlanner.FingerprintAsWrittenCollides | src/main/java/org/jenkinsci/plugins/droolsplanner/CachingPlanner.java:96-104 | as written, state hash 0 gives 0 whatever the assignments, and assignment hashes 0 and 32 collide |
| CachingPlanner.Fingerprint | src/main/java/org/jenkinsci/plugins/droolsplanner/CachingPlanner.java:96-104 | the intended fingerprint, taken as the unbounded value of `((long) stateHash << 32) + assignmentsHash` (the state hash in the high word, plus the assignments hash), which Java wraps modulo 2^64 |
| CachingPlanner.FingerprintInjective | src/main/java/org/jenkinsci/plugins/droolsplanner/CachingPlanner.java:96-104 | distinct hash pairs give distinct intended fingerprints |
| CachingPlanner.QueueWith | src/main/java/org/jenkinsci/plugins/droolsplanner/CachingPlanner.java:79-94 | an equal fingerprint is absorbed; a different one is forwarded, then both caches are cleared and it is stored; a delegate exception changes nothing |
| CachingPlanner.QueueAsWritten | src/main/java/org/jenkinsci/plugins/droolsplanner/CachingPlanner.java:79-104 | as written, a call is skipped exactly when the stored key is the state hash shifted by the assignments hash, so distinct assignments can be absorbed |
| CachingPlanner.Queue | src/main/java/org/jenkinsci/plugins/droolsplanner/CachingPlanner.java:79-94 | with the corrected fingerprint, the delegate is called exactly when the stored fingerprint is not that of both hashes, and a successful call stores it with empty caches |
| CachingPlanner.Score | src/main/java/org/jenkinsci/plugins/droolsplanner/CachingPlanner.java:59-67 | a cached score is served with no call; otherwise it is fetched, and cached only on success |
| CachingPlanner.Solution | src/main/java/org/jenkinsci/plugins/droolsplanner/CachingPlanner.java:69-77 | a cached solution is served with no call; otherwise it is fetched, and a null answer is not cached |
| CachingPlanner.Stop | src/main/java/org/jenkinsci/plugins/droolsplanner/CachingPlanner.java:49-52 | `stop` makes one delegate call, returns its answer and keeps the caches |
| CachingPlanner.RemoteUrl | src/main/java/org/jenkinsci/plugins/droolsplanner/CachingPlanner.java:54-57 | `remoteUrl` makes one delegate call, returns its answer and keeps the caches |
| CachingPlanner.PassThrough | src/main/java/org/jenkinsci/plugins/droolsplanner/CachingPlanner.java:49-57 | `stop` and `remoteUrl` make one delegate call each, return its answer and keep the caches |
| CachingPlanner.FirstQueueForwarded | src/main/java/org/jenkinsci/plugins/droolsplanner/CachingPlanner.java:79-94 | the first `queue` after construction always reaches the delegate |
| CachingPlanner.DuplicateQueueForwardedOnce | src/main/java/org/jenkinsci/plugins/droolsplanner/CachingPlanner.java:79-94 | two identical consecutive `queue` calls reach the delegate once, and the second changes nothing |
| CachingPlanner.ChangedQueueForwarded | src/main/java/org/jenkinsci/plugins/droolsplanner/CachingPlanner.java:79-104 | a `queue` with different hashes always reaches the delegate and clears both caches |
| CachingPlanner.ChangeLostAsWritten | src/main/java/org/jenkinsci/plugins/droolsplanner/CachingPlanner.java:79-104 | as written, a change of assignment hash from 0 to 32 is never forwarded |
| CachingPlanner.ScoreFetchedOnce | src/main/java/org/jenkinsci/plugins/droolsplanner/CachingPlanner.java:59-67 | any number of `score` calls fetch once and all return the first answer |
| CachingPlanner.SolutionFetchedOnce | src/main/java/org/jenkinsci/plugins/droolsplanner/CachingPlanner.java:69-77 | any number of `solution` calls fetch once when the first answer is a solution |
| CachingPlanner.ScoreRefetchedAfterQueue | src/main/java/org/jenkinsci/plugins/droolsplanner/CachingPlanner.java:59-94 | a forwarded `queue` between two `score` calls makes the second fetch again |
| CiStateProvider.Create | src/main/java/org/jenkinsci/plugins/droolsplanner/AbstractCiStateProvider.java:44-49 | a null base is refused with IllegalArgumentException, and only a null base |
| CiStateProvider.NodeReady | src/main/java/org/jenkinsci/plugins/droolsplanner/AbstractCiStateProvider.java:75-81 | a node is ready when it has a computer that is online and accepts tasks; `GetNodes` keeps exactly the ready ones |
| CiStateProvider.GetNodes | src/main/java/org/jenkinsci/plugins/droolsplanner/AbstractCiStateProvider.java:54-81 | the nodes are exactly the ready agents and the master if ready, with the master last |
| CiStateProvider.AgentsInOrder | src/main/java/org/jenkinsci/plugins/droolsplanner/AbstractCiStateProvider.java:54-73 | the node list is the ready agents in their order, then the ready added agents, then the master if it is ready |
| CiStateProvider.GetQueue | src/main/java/org/jenkinsci/plugins/droolsplanner/AbstractCiStateProvider.java:86-89 | the queue is the base's queue, unfiltered |
| CiStateProvider.SnapshotOf | src/main/java/org/jenkinsci/plugins/droolsplanner/AbstractCiStateProvider.java:54-89 | the state sent has the whole queue, and only ready nodes |
| CiStateProvider.HashCode | src/main/java/org/jenkinsci/plugins/droolsplanner/AbstractCiStateProvider.java:110-113 | the hash is `31 * nodes + queue + 7` over the list hashes, computed once in unbounded integers and truncated to `int` |
| CiStateProvider.ListHashWrapsPolyHash | src/main/java/org/jenkinsci/plugins/droolsplanner/AbstractCiStateProvider.java:110-113 | `List.hashCode` with wrap-around at every step equals the unbounded fold truncated once |
| CiStateProvider.Equals | src/main/java/org/jenkinsci/plugins/droolsplanner/AbstractCiStateProvider.java:92-107 | `equals` is false for null and other classes, true for the same object or base, and otherwise compares node lists and queues; `EqualsEquivalence` and `EqualsAgreesWithHash` state its laws |
| CiStateProvider.EqualsEquivalence | src/main/java/org/jenkinsci/plugins/droolsplanner/AbstractCiStateProvider.java:92-107 | `equals` is reflexive and symmetric, and never holds for null or another class |
| CiStateProvider.EqualsAgreesWithHash | src/main/java/org/jenkinsci/plugins/droolsplanner/AbstractCiStateProvider.java:92-113 | equal providers have equal hash codes |
| CiStateProvider.EmptyStateHash | src/main/java/org/jenkinsci/plugins/droolsplanner/AbstractCiStateProvider.java:110-113 | a state with no ready node and an empty queue hashes to 39 |
| CiStateProvider.HashCollides | src/main/java/org/jenkinsci/plugins/droolsplanner/AbstractCiStateProvider.java:110-113 | a queue of one item whose hash is -30 hashes like the empty queue |
| DroolsDispatcher.RunVerdict | src/main/java/org/jenkinsci/plugins/droolsplanner/Dispatcher.java:48-54 | once the solution is known, an item is blocked exactly when the solution gives it no node, with the shared cause |
| DroolsDispatcher.TakeVerdict | src/main/java/org/jenkinsci/plugins/droolsplanner/Dispatcher.java:56-62 | once the solution is known, a node is admitted exactly when the solution names it, by node name |
| DroolsDispatcher.CanRun | src/main/java/org/jenkinsci/plugins/droolsplanner/Dispatcher.java:48-67 | each question fetches the solution from the proxy: an unstarted proxy throws IllegalStateException with no call, a failed fetch escapes, and a fetched solution blocks the item exactly when it gives it no node |
| DroolsDispatcher.CanTake | src/main/java/org/jenkinsci/plugins/droolsplanner/Dispatcher.java:56-67 | the same fetch, its failures escaping; the node is admitted exactly when the fetched solution names it |
| DroolsDispatcher.QuestionsFetchAlike | src/main/java/org/jenkinsci/plugins/droolsplanner/Dispatcher.java:48-67 | both questions make the same single solution fetch and fail with the same exception |
| DroolsDispatcher.TakeImpliesRun | src/main/java/org/jenkinsci/plugins/droolsplanner/Dispatcher.java:48-67 | when both questions get the same reply, a node that may take an item implies that the item may run |
| DroolsDispatcher.RunImpliesSomeTaker | src/main/java/org/jenkinsci/plugins/droolsplanner/Dispatcher.java:48-62 | an item that may run has a node name, and every node with that name may take it |
| DroolsDispatcher.UnassignedBlockedEverywhere | src/main/java/org/jenkinsci/plugins/droolsplanner/Dispatcher.java:48-76 | an unassigned item cannot run and is refused by every node, with the shared cause |
| DroolsPlanner.UpdatePlanner | src/main/java/org/jenkinsci/plugins/droolsplanner/DroolsPlanner.java:175-183 | a proxy for the configured URL is kept with no call; a null URL with a proxy throws NPE; otherwise a new proxy is started and kept only on success; nothing is ever deleted |
| DroolsPlanner.GetPlannerProxy | src/main/java/org/jenkinsci/plugins/droolsplanner/DroolsPlanner.java:136-144 | an existing proxy is returned as is; a created one is stored; a failure stores nothing |
| DroolsPlanner.Configure | src/main/java/org/jenkinsci/plugins/droolsplanner/DroolsPlanner.java:157-173 | a form value that is not a URL fails the form; otherwise the URL is stored even if the update fails; success leaves a proxy for it; nothing is deleted |
| DroolsPlanner.ConfigureSameUrlKeepsProxy | src/main/java/org/jenkinsci/plugins/droolsplanner/DroolsPlanner.java:157-183 | re-saving the URL of the current proxy keeps it and makes no call |
| DroolsPlanner.ConfigureNewUrlAbandonsOld | src/main/java/org/jenkinsci/plugins/droolsplanner/DroolsPlanner.java:157-183 | a new URL starts a new proxy with one POST and never stops the old running one |
| DroolsPlanner.Update | src/main/java/org/jenkinsci/plugins/droolsplanner/DroolsPlanner.java:89-100 | an unchanged state hash does nothing; otherwise the state is queued and the solution fetched, and the hash is recorded only if both succeed; a failure leaves the dispatcher as it was |
| DroolsPlanner.Create | src/main/java/org/jenkinsci/plugins/droolsplanner/DroolsPlanner.java:65-73 | the constructor starts from the empty solution and hash -1 and runs one update, keeping the initial fields if it throws |
| DroolsPlanner.CanRun | src/main/java/org/jenkinsci/plugins/droolsplanner/DroolsPlanner.java:75-82 | it throws exactly when the update throws; otherwise it blocks exactly the items the refreshed solution leaves unassigned |
| DroolsPlanner.CanTake | src/main/java/org/jenkinsci/plugins/droolsplanner/DroolsPlanner.java:84-87 | every node is refused, whatever the solution says |
| DroolsPlanner.SameStateServedFromCache | src/main/java/org/jenkinsci/plugins/droolsplanner/DroolsPlanner.java:75-100 | after a refresh, asking about the same state makes no call and gives the cached verdict |
| DroolsPlanner.FailedUpdateRetried | src/main/java/org/jenkinsci/plugins/droolsplanner/DroolsPlanner.java:89-100 | a failed update records nothing, so the next question about the same state asks the planner again |
| DroolsPlanner.SentinelHashNeverSent | src/main/java/org/jenkinsci/plugins/droolsplanner/DroolsPlanner.java:61-100 | a state whose hash is -1 is never sent by the constructor, and every item stays blocked |
| DroolsPlanner.ConstructorQueues | src/main/java/org/jenkinsci/plugins/droolsplanner/DroolsPlanner.java:65-73 | with any other hash, the constructor's first call is the lazy proxy's POST |
| ExternalDispatcher.AssignToNode | src/main/java/org/jenkinsci/plugins/externalscheduler/Dispatcher.java:62-79 | with no solution, yes; with one, a taskless item throws NullPointerException, and otherwise the answer is yes exactly when the node's self label is the item's assigned node |
| ExternalDispatcher.CanTake | src/main/java/org/jenkinsci/plugins/externalscheduler/Dispatcher.java:54-79 | with no solution everything is admitted; with one, a taskless item throws NullPointerException (the decision is logged under the task's display name), and otherwise exactly the node whose self label is the item's assigned node is admitted; a block names item and node |
| ExternalDispatcher.UnassignedBlockedEverywhere | src/main/java/org/jenkinsci/plugins/externalscheduler/Dispatcher.java:54-79 | an item the active solution leaves unassigned is blocked on every node, or throws when it has no task |
| ExternalDispatcher.AdmitsOneLabel | src/main/java/org/jenkinsci/plugins/externalscheduler/Dispatcher.java:54-74 | an active solution admits an item on one node label at most |
| ExternalDispatcher.NotAssignedCause | src/main/java/org/jenkinsci/plugins/externalscheduler/Dispatcher.java:91-103 | the cause of blockage opens with the fixed sentence and has room for exactly the item's and the node's text; `CauseNamesBoth` shows it contains both |
| ExternalDispatcher.CauseNamesBoth | src/main/java/org/jenkinsci/plugins/externalscheduler/Dispatcher.java:91-103 | the cause of blockage contains both the item's and the node's text |
| ExternalDispatcher.DecidedByLabelAndId | src/main/java/org/jenkinsci/plugins/externalscheduler/Dispatcher.java:54-79 | the verdict depends only on the solution, the node's self label, the item's id and whether it has a task |
| ExternalPlanner.AssumeActive | src/main/java/org/jenkinsci/plugins/externalscheduler/ExternalPlanner.java:61-71 | the scheduler intercepts the Jenkins queue exactly while a planner is attached; `CurrentSolution` is null exactly when it is not |
| ExternalPlanner.CurrentSolution | src/main/java/org/jenkinsci/plugins/externalscheduler/ExternalPlanner.java:73-80 | null exactly while inactive; the stored solution once one is fetched; the empty solution before that |
| ExternalPlanner.FetchSolutionAsWritten | src/main/java/org/jenkinsci/plugins/externalscheduler/ExternalPlanner.java:87-101 | when solutions compare by identity, every successful fetch pokes the Jenkins queue |
| ExternalPlanner.RefetchPokesAsWritten | src/main/java/org/jenkinsci/plugins/externalscheduler/ExternalPlanner.java:87-101 | when solutions compare by identity, fetching an unchanged solution again still pokes the queue |
| ExternalPlanner.FetchSolution | src/main/java/org/jenkinsci/plugins/externalscheduler/ExternalPlanner.java:87-101 | when solutions compare by value: inactive gives null and nothing else; success stores the solution and pokes exactly when it changed; a failure stores nothing |
| ExternalPlanner.RefetchSameSolutionQuiet | src/main/java/org/jenkinsci/plugins/externalscheduler/ExternalPlanner.java:87-101 | fetching the same solution twice pokes the queue at most once |
| ExternalPlanner.SendQueue | src/main/java/org/jenkinsci/plugins/externalscheduler/ExternalPlanner.java:108-113 | inactive gives false with no call; otherwise the state is queued with the current solution; URL, solution and activity are kept |
| ExternalPlanner.SendQueueOutcomes | src/main/java/org/jenkinsci/plugins/externalscheduler/ExternalPlanner.java:108-113 | while active, sending fails only with a transport failure, or with the codec's own exception before any call; success leaves the planner RUNNING |
| ExternalPlanner.Normalize | src/main/java/org/jenkinsci/plugins/externalscheduler/ExternalPlanner.java:202-207 | the URL ends with `/`, extends the form value, and equals it exactly when the value already ends with `/` |
| ExternalPlanner.NormalizeIdempotent | src/main/java/org/jenkinsci/plugins/externalscheduler/ExternalPlanner.java:202-207 | normalizing twice is normalizing once |
| ExternalPlanner.Start | src/main/java/org/jenkinsci/plugins/externalscheduler/ExternalPlanner.java:175-182 | a new planner is RUNNING for the URL, or the failure is a PlannerException or the codec's own exception; nothing is deleted |
| ExternalPlanner.Attaching | src/main/java/org/jenkinsci/plugins/externalscheduler/ExternalPlanner.java:167-182 | a running planner is stopped with exactly one DELETE before anything else; the old object is left STOPPED; success yields a RUNNING planner for the URL |
| ExternalPlanner.ReloadPlannerAsWritten | src/main/java/org/jenkinsci/plugins/externalscheduler/ExternalPlanner.java:159-184 | as written, a missing or malformed URL, or one equal to the current planner's, gives null with no call |
| ExternalPlanner.ReloadPlanner | src/main/java/org/jenkinsci/plugins/externalscheduler/ExternalPlanner.java:159-184 | a URL equal to the current planner's keeps that planner; any planner returned is for the configured URL |
| ExternalPlanner.GetPlanner | src/main/java/org/jenkinsci/plugins/externalscheduler/ExternalPlanner.java:147-157 | a PlannerException gives null; any other exception escapes |
| ExternalPlanner.Install | src/main/java/org/jenkinsci/plugins/externalscheduler/ExternalPlanner.java:139-141 | the URL is stored in any case; the reloaded planner replaces the field's value unless an exception escapes, in which case the assignment never happens and the field keeps the object it held |
| ExternalPlanner.Load | src/main/java/org/jenkinsci/plugins/externalscheduler/ExternalPlanner.java:138-142 | the saved URL is loaded; a planner attached by the load is for a well-formed saved URL; only an exception of the codec's escapes, and then the shared instance keeps the planner it held; nothing is deleted |
| ExternalPlanner.ConfigureAsWritten | src/main/java/org/jenkinsci/plugins/externalscheduler/ExternalPlanner.java:198-214 | as written, the normalized URL is stored and an active planner addresses it |
| ExternalPlanner.Configure | src/main/java/org/jenkinsci/plugins/externalscheduler/ExternalPlanner.java:198-214 | the normalized URL is stored; success returns true; an active planner addresses that URL; only an exception of the codec's escapes, and then the field keeps the old planner object |
| ExternalPlanner.ResaveDeactivatesAsWritten | src/main/java/org/jenkinsci/plugins/externalscheduler/ExternalPlanner.java:159-214 | as written, re-saving the current URL drops the planner with no call: the scheduler goes inactive and the remote planner is never stopped |
| ExternalPlanner.ConfigureIdempotent | src/main/java/org/jenkinsci/plugins/externalscheduler/ExternalPlanner.java:198-214 | once a planner is attached, saving the same form again changes nothing and makes no call |
| ExternalPlanner.ConfigureNewUrlStopsOld | src/main/java/org/jenkinsci/plugins/externalscheduler/ExternalPlanner.java:159-184 | configuring a different URL sends exactly one DELETE to the running planner, first |
| ExternalScheduler.ConfiguredProviders | src/main/java/org/jenkinsci/plugins/externalscheduler/ExternalScheduler.java:133-141 | the list is created empty on first read and returned unchanged afterwards |
| ExternalScheduler.ActiveScheduler | src/main/java/org/jenkinsci/plugins/externalscheduler/ExternalScheduler.java:66-75 | a configured scheduler is active exactly when the list is non-empty, and it is the first one |
| ExternalScheduler.CurrentSolution | src/main/java/org/jenkinsci/plugins/externalscheduler/ExternalScheduler.java:83-86 | the solution is the active scheduler's answer |
| ExternalScheduler.Configure | src/main/java/org/jenkinsci/plugins/externalscheduler/ExternalScheduler.java:104-120 | a failed rebuild fails the form and keeps the list; otherwise the new list replaces it |
| ExternalScheduler.ConfigureSelectsFirst | src/main/java/org/jenkinsci/plugins/externalscheduler/ExternalScheduler.java:66-120 | after configuring, the first scheduler of the form is active, and an empty form falls back to the default |
| ExternalScheduler.FailedConfigureKeepsActive | src/main/java/org/jenkinsci/plugins/externalscheduler/ExternalScheduler.java:104-120 | a failed configure leaves the active scheduler as it was |
| ExternalScheduler.ReadTwiceSame | src/main/java/org/jenkinsci/plugins/externalscheduler/ExternalScheduler.java:66-75 | the lazy creation happens once: a second read sees the same list and active scheduler |
| Sorter.CharUnits | src/main/java/org/jenkinsci/plugins/droolsplanner/Sorter.java:50 | a char below U+10000 is one code unit, itself and never a surrogate; any other is a high and a low surrogate from which the char is recovered |
| Sorter.Utf16 | src/main/java/org/jenkinsci/plugins/droolsplanner/Sorter.java:50 | a Java string holds between one and two 16-bit code units per char |
| Sorter.CharUnitsPrefix | src/main/java/org/jenkinsci/plugins/droolsplanner/Sorter.java:50 | code units decode: equal unit sequences start with the same char and continue alike |
| Sorter.Utf16Injective | src/main/java/org/jenkinsci/plugins/droolsplanner/Sorter.java:50 | two strings have the same code units exactly when they are equal |
| Sorter.Utf16Bmp | src/main/java/org/jenkinsci/plugins/droolsplanner/Sorter.java:50 | for chars below U+10000, the code units are the chars' own values, one each |
| Sorter.UnitCompareAntisymmetric | src/main/java/org/jenkinsci/plugins/droolsplanner/Sorter.java:50 | lexicographic comparison of code units is antisymmetric |
| Sorter.UnitCompareZero | src/main/java/org/jenkinsci/plugins/droolsplanner/Sorter.java:50 | lexicographic comparison of code units is 0 exactly for equal sequences |
| Sorter.UnitCompareTransitive | src/main/java/org/jenkinsci/plugins/droolsplanner/Sorter.java:50 | lexicographic comparison of code units is transitive |
| Sorter.StrCompare | src/main/java/org/jenkinsci/plugins/droolsplanner/Sorter.java:50 | `compareTo` compares the names' UTF-16 code units and is 0 exactly for equal names |
| Sorter.StrCompareAntisymmetric | src/main/java/org/jenkinsci/plugins/droolsplanner/Sorter.java:50 | `compareTo` on names is antisymmetric |
| Sorter.StrCompareTransitive | src/main/java/org/jenkinsci/plugins/droolsplanner/Sorter.java:50 | `compareTo` on names is transitive |
| Sorter.AstralSortsBeforePrivateUse | src/main/java/org/jenkinsci/plugins/droolsplanner/Sorter.java:50 | `compareTo` is not code-point order: U+1F600 sorts before U+E000, though its code point is greater |
| Sorter.Compare | src/main/java/org/jenkinsci/plugins/droolsplanner/Sorter.java:42-52 | the comparator answers 0 exactly for the same task object or equal display names, and a taskless item sorts before one with a task |
| Sorter.CompareIsKeyOrder | src/main/java/org/jenkinsci/plugins/droolsplanner/Sorter.java:42-52 | for consistent task objects, the comparator is the order "no task first, then by display name" |
| Sorter.CompareAntisymmetric | src/main/java/org/jenkinsci/plugins/droolsplanner/Sorter.java:42-52 | the comparator is antisymmetric, as `Comparator` requires |
| Sorter.Insert | src/main/java/org/jenkinsci/plugins/droolsplanner/Sorter.java:55-58 | inserting into a sorted list keeps it sorted and adds exactly that item |
| Sorter.SortItems | src/main/java/org/jenkinsci/plugins/droolsplanner/Sorter.java:55-58 | the result is sorted and is a permutation of the input |
| Sorter.SortBuildableItems | src/main/java/org/jenkinsci/plugins/droolsplanner/Sorter.java:55-58 | the result is a permutation of the items in which no item compares greater than a later one |
| Sorter.TasklessFirst | src/main/java/org/jenkinsci/plugins/droolsplanner/Sorter.java:42-58 | after sorting, items without a task come before every item with one |
| RemoteUpdaters.DroolsRun | src/main/java/org/jenkinsci/plugins/droolsplanner/RemoteUpdater.java:22-30 | the queue is sent first, and the solution is fetched exactly when the send reports no update |
| RemoteUpdaters.RestServiceRun | src/main/java/org/jenkinsci/plugins/restservicescheduler/RemoteUpdater.java:24-28 | the solution is fetched, then the queue sent; a failed fetch ends the run |
| RemoteUpdaters.ExternalRun | src/main/java/org/jenkinsci/plugins/externalscheduler/RemoteUpdater.java:22-26 | a failed fetch ends the run with the state unchanged; the URL and the activity are kept |
| RemoteUpdaters.ExternalRunSendsFreshSolution | src/main/java/org/jenkinsci/plugins/externalscheduler/RemoteUpdater.java:22-26 | within one run, a running planner answers its GET and then gets a PUT carrying the solution just fetched; when the codec fails, the GET is the only call and the codec's exception ends the run |
| RemoteUpdaters.InactiveRunIsQuiet | src/main/java/org/jenkinsci/plugins/externalscheduler/RemoteUpdater.java:22-26 | an inactive scheduler's run makes no call and stays inactive |

## Left out

- The JSON text, the json-lib parser and the `Translator`/`Score` codec used by `RestPlanner`. A message is the value the parser would give. `RestPlanner` replies carry the decoded value.
- URL parsing and resolution. A URL is a string, compared by string equality. `new URL(...)` failing is a `parses` flag, or `None` for DroolsPlanner's form.
- Lower-casing covers ASCII letters only. Full Unicode case mapping is outside the model.
- Logging, `finalize`, and the Jenkins timer that runs the updaters. The updaters' constants `InitialDelay` (0) and `RecurrencePeriod` (5000 ms) are stated as constants only.
- Concurrency. Every operation is one atomic step.
- Descriptor persistence (`load`/`save`), form validators, display names, `getDispatcher`/`getUpdater`, and the lazy `getDescriptor()` in `assumeActive`. The descriptor's state is passed in directly.
- The `Planner` and `Scheduler` interfaces and Jersey's `Client` are type parameters or outcome parameters, not code.
- `ExternalPlanner.lastState` is declared but never used. It is not modelled.
- Jenkins `updateQueue()` is modelled as a `poked` flag in the result.
- A PlannerException's message is modelled as the text of the transport exception it wraps. The client object that `queue`/`stop` return is the new state in the result.
- RemoteUpdaters.DroolsRun: DroolsPlanner has no `sendQueue` or `fetchSolution` in this source, so only the order of the two calls is modelled, with their results as parameters.
- RemoteUpdaters.RestServiceRun: ExternalScheduler has no `sendQueue` or `fetchSolution` in this source, so only the order of the two calls is modelled.
- Sorter.SortBuildableItems: `Collections.sort` is stable. The model sorts by a stable insertion but does not prove stability. It also assumes that one task object has one display name.
- Assignments.NodeName: Java's `NodeAssignments` has no `equals` or `hashCode`. The model gives it value equality. Among the modelled callers only `ExternalPlanner.fetchSolution` compares solutions.
- The form field `serverUrl` is assumed present. `formData.getString` on a missing key is outside the model.
- JsonSerializer.Serializable: a null queue from the state provider is treated like an item without a task, as a NullPointerException.
- The external scheduler's own `RestPlanner`, `NodeAssignments` and `PlannerException` (package `externalscheduler`) are not part of this model. `ExternalPlanner` and its `Dispatcher` are modelled over the `droolsplanner` classes of the same names.
- ExternalPlanner.FetchSolution: whether the external scheduler's `NodeAssignments` compares by value is not known here. `FetchSolution` compares by value; `FetchSolutionAsWritten` models identity comparison, where every successful fetch pokes the queue.
- Json.GetInt: json-lib also parses a numeric string member as a number. Only number members are read here; a string is a JSON error.
- Json.GetInt: JSON numbers are modelled as integers only, so json-lib's truncation of a fractional number through `intValue()` is not modelled.
- DroolsDispatcher.CanRun: `DroolsPlanner.DescriptorImpl` declares no `getPlanner()`, so the dispatcher's fetch does not resolve as written; it is modelled as a fetch through the proxy that `getPlannerProxy()` returns.
- DroolsDispatcher.CanTake: the same unresolved `getPlanner()`, read the same way; each question makes its own fetch, so two questions may see different replies.
- CachingPlanner.Fingerprint: the unbounded sum, not Java's `long`, which wraps it modulo 2^64 when the state hash is -2^31 and the assignments hash is negative; injectivity holds either way.
- Json.GetString: json-lib answers the `toString()` of any present member ("5", "true", "null"). Only string members are read here; any other member is a JSON error.
- JsonSerializer.ExtractAssignments: rejects a non-string `node` or a numeric-string `id`, which json-lib would coerce (see `Json.GetInt` and `Json.GetString`).
- QueueSerializerService.Deserialize: rejects a non-string `node` or a numeric-string `id`, which json-lib would coerce (see `Json.GetInt` and `Json.GetString`).
- Assignments.Build: Java's `build` returns a live unmodifiable view of the builder's map, so a later `assign` on the same builder shows through. The model returns the map as it stands at `build`.
- LegacyAssignments.Build: the same live view as `Assignments.Build`. The model returns the map as it stands at `build`.
- The constructor of `ExternalScheduler` (the plugin singleton), `providerKinds` and `emptyProviders` (list creation only).

## Findings

| source | as written | input that shows it | evidently intended | confidence | as-written member | corrected member |
|---|---|---|---|---|---|---|
| src/main/java/org/jenkinsci/plugins/droolsplanner/CachingPlanner.java:96-104 | `stateProvider.hashCode() << 32 + assignments.hashCode()` parses as an `int` shift by `32 + h`, of which only the low five bits count, widened afterwards | state hash 5 with assignment hashes 0 and 32 gives the same fingerprint, so the second, changed `queue` is never forwarded; state hash 0 collides with everything | `((long) stateHash << 32) + assignmentsHash`, injective on hash pairs | not executed | CachingPlanner.FingerprintAsWritten, CachingPlanner.FingerprintAsWrittenCollides, CachingPlanner.ChangeLostAsWritten | CachingPlanner.Fingerprint, CachingPlanner.FingerprintInjective, CachingPlanner.ChangedQueueForwarded |
| src/main/java/org/jenkinsci/plugins/externalscheduler/ExternalPlanner.java:167-170 | `reloadPlanner` returns null when the URL equals the current planner's, and `configure` stores that null | saving the configuration unchanged while a planner runs | keep the current planner (the comment says not to create a new one; DroolsPlanner's `updatePlanner` keeps it) | not executed | ExternalPlanner.ReloadPlannerAsWritten, ExternalPlanner.ConfigureAsWritten, ExternalPlanner.ResaveDeactivatesAsWritten | ExternalPlanner.ReloadPlanner, ExternalPlanner.Configure, ExternalPlanner.ConfigureIdempotent |
