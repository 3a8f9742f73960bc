# usulnet: a verified model of the agent gateway and its neighbours

This project models the stateful core of usulnet in Dafny 4.11 and proves what its
parts keep over whole runs. `dafny verify dfyconfig.toml` checks everything.

| file | models |
|---|---|
| `Registry.dfy` | the gateway's two maps, `agents` and `hostIndex`, as a state machine over register, heartbeat, inventory, deregister, cleanup and forced disconnect |
| `Server.dfy` | the same handlers as an object that updates the maps in place |
| `HostStatus.dfy` | the "online"/"offline" row of each host, with every write landing late and in any order |
| `Subjects.dfy` | subjects of the message bus: tokens, wildcards, and what becomes of an agent ID in them |
| `AgentSystem.dfy` | agents, network and gateway together: restarts, reconnects, subscriptions, routing |
| `Tokens.dfy` | agent tokens: a cache and a store under separate locks, every interleaving |
| `License.dfy` | license values, the provider's interleavings, and the text on disk |
| `Expiration.dfy` | expiration notices and their throttle |
| `Events.dfy` | the batching event processor, its handlers, and the event aggregator |
| `Dispatch.dfy` | the pending-command table and the broadcast |
| `LogFraming.dfy` | the multiplexed container log stream |
| `Heartbeat.dfy` | heartbeat statistics and their summary |
| `Compose.dfy` | merging compose files, as values and on the heap with label maps shared in any way |

How the source is read:

* Each critical section (the code between a lock and its unlock) is one step; an
  operation that releases its lock in the middle is several steps, and a run is any
  sequence of steps. Reading the clock before taking the lock is part of the step.
* The network is a bag of packets that may be delivered late, repeatedly or never. Who
  hears a subject follows the rules of NATS: `*` stands for one token, a final `>` for one
  or more; an empty token or one with white space carries no messages.
* Times are integers, JSON is the identity, UUIDs and tokens drawn at random are
  parameters. A drawn token is not in the store and a drawn agent ID is not empty.
* The token library is an arbitrary pair of functions: what a token says, and whether it
  is accepted at a time. Only the empty string is known not to be a token.
* A method that is one critical section is proved to perform its step; a method that
  spans several is proved to perform them one after the other when nothing intervenes.
  So what is proved of the steps holds of the objects.

## What does not hold

Some expectations fail for the code as written; the model keeps the code and proves when
they do hold.

* `hostIndex` can name a dead agent or an agent of another host. `DanglingAfter` says
  exactly which steps cause and repair this, `CoherentIffBenign` that a run is free of it
  exactly when no live agent is force-disconnected or registers under a second host. A
  registration for one host can evict the live agent of another (`SecondHostEvicts`).
* A lookup can yield a nil connection. `NilsAfter` says exactly which steps leave and
  repair one; `LookupsNeverNilIff` that no lookup of a run is nil exactly when no step
  orphans a host, that is, removes an agent and leaves an entry that names it. A forced
  disconnect does so (`DisconnectLeavesNil`), but so does a deregistration or a cleanup
  of an agent that has moved to a second host (`MovedAgentOrphans`). Reading the health
  there, or broadcasting from an older snapshot, dereferences nil
  (`OrphanCrashesBroadcast`); `CrashesSometimesIff` is the exact condition.
* Two agents of one ID with tokens of two hosts are misrouted once both have joined
  (`SharedIdMisroutes`); `CoherentIffOneHostPerId` is the exact condition.
* An agent ID is taken as it is configured and becomes a subscription. An agent with the
  ID `*` hears the commands for every agent without a dot in its ID, whatever its host
  (`StarOverhears`). `WellRoutedIff` gives exactly the deployments whose commands reach
  their host and nobody else.
* The gateway's subscriptions have one `*` in place of the ID, so that it hears nothing
  from an agent with a dot in its ID: its deregistration is ignored and a cleanup drops it
  although it sends heartbeats (`DottedAgentExpires`).
* Every handler writes the status row of a host after its critical section, so that a
  write can overtake a contrary one (`SoundIffNoneOvertakes`) and leave the row wrong with
  no write outstanding (`ContraryWriteCanWin`, `LateCleanupStrands`).
* The package documentation promises that no license state downgrades a feature
  (`internal/license/expiration.go:239-243`). `HasFeature` asks for `Valid`, which a failed
  re-validation clears, so that every feature is then reported off
  (`FeatureOffIffRefused`, reached by `RefusalSwitchesOff`); a deactivation at the wrong
  moment leaves the community default in that state (`InvalidDefaultReached`), which no
  re-validation repairs (`InvalidDefaultPersists`).
* The threshold scan promises the most urgent matching threshold
  (`internal/license/expiration.go:143`) and takes the first one. With the default list the
  first is always 30 days (`DescendingAnnouncesLargest`); the promise holds exactly for the
  lists of `SmallestIffAscending`.
* Validation accepts a cached token past its expiry (`ValidateAgrees`), for as long as it
  stays cached (`CachedStaysAccepted`), and a validation that overlaps a revocation can
  leave a revoked token cached (`OverlapCanBreak`).
* A restart looks for the token without its surrounding white space, and finds the
  license exactly when that text activates (`RestartRoundTrip`); overlapping calls can
  leave disk and memory apart (`OverlapSettlesIff`) and bring a deactivated license back
  (`OverlapRevivesLicense`). A save truncates the file before it writes, so that one that
  fails halfway can lose the license at the next start (`TornSaveKeepsLicenseIff`).
* Merging compose files drops secrets and configs (`MergeWithItself`) and writes labels
  into the base, so that a second merge sees those of the first unless the condition of
  `MergeTwice` holds. Services of different names that share a label map
  can see each other's labels, depending on the order of the loop; `WantedIffHarmless`
  says exactly for which files no order shows a difference.

## Model

| member | source | states |
|---|---|---|
| `Registry.StepKeepsOwned` | internal/gateway/server.go:269-276 | every step keeps: a live agent's host is indexed under that agent |
| `Registry.SweepKeepsOwned` | internal/gateway/server.go:552-578 | the cleanup keeps it too, although it deletes by agent and by host separately |
| `Registry.RunKeepsOwned` | internal/gateway/server.go:269-276 | the invariant holds after every run from any state that has it |
| `Registry.OneAgentPerHost` | internal/gateway/server.go:231-312 | in every run, agent IDs reused freely, no host has two live agents and each live agent is the one its host is indexed under |
| `Registry.DanglingAfter` | internal/gateway/server.go:269-276 | exactly how every step changes the set of hosts whose index entry leads to no agent of theirs |
| `Registry.CoherentIffBenign` | internal/gateway/api.go:167-170 | no entry dangles after any prefix of a run exactly when no step disconnects a live agent or registers a live ID under another host |
| `Registry.LookupIffNotDangling` | internal/gateway/server.go:602-610 | lookup by host equals a linear scan of the connections exactly at hosts that do not dangle; at the others it is a nil connection or another host's |
| `Registry.BenignRunLookup` | internal/gateway/server.go:602-610 | in benign runs the lookup is the scan and never a nil connection |
| `Registry.NilsAfter` | internal/gateway/server.go:269-276 | exactly how every step changes the set of hosts whose entry names no live agent: less those a registration revives, plus those that name an agent the step removes and whose entry it leaves |
| `Registry.NilFreeIffNoneOrphaned` | internal/gateway/server.go:517-530 | a run is free of such hosts after every prefix exactly when no step orphans a host |
| `Registry.LookupNilIff` | internal/gateway/server.go:602-610 | the lookup is a nil connection exactly at those hosts, all of which dangle |
| `Registry.LookupsNeverNilIff` | internal/gateway/server.go:602-610 | no lookup of any host at any time of a run is nil exactly when no step of it orphans a host |
| `Registry.BenignOrphansNobody` | internal/gateway/api.go:167-170 | benign runs orphan nobody |
| `Registry.MoveOrphansNobody` | internal/gateway/server.go:269-276 | the converse fails: a live agent that registers under a new host makes the run not benign and orphans nobody |
| `Registry.NilUntilRevived` | internal/gateway/server.go:602-610 | such a host stays so, under the same entry, through any run without a registration for it or under the ID it names |
| `Registry.OrphanedStaysNil` | internal/gateway/server.go:602-610 | so a host orphaned by a step of a run has a nil connection at every later time up to such a registration |
| `Registry.MovedAgentOrphans` | internal/gateway/server.go:552-578 | after any run and without a disconnect, a live agent that registers under a second host leaves the first with a nil connection as soon as it deregisters or a cleanup drops it |
| `Registry.DisconnectLeavesNil` | internal/gateway/api.go:167-170 | after any run a forced disconnect of a live agent makes the lookup of its host a nil connection |
| `Registry.SecondHostEvicts` | internal/gateway/server.go:269-276 | after any run a live ID that registers under a second host is routed for both, and is then evicted by a registration for the first |
| `Registry.SupersededAgentIsErased` | internal/gateway/server.go:269-276 | after a host changes agents, the old ID's heartbeats, inventories and deregistrations can be erased from any later run without changing its outcome, until the old ID registers again |
| `Registry.AbsentAgentIsSilent` | internal/gateway/server.go:322-338 | messages of an agent that is not live change nothing in any run without its registration |
| `Registry.SeenSinceCleanup` | internal/gateway/server.go:552-578 | with a monotone clock every live agent was seen no earlier than the timeout before the last cleanup |
| `Registry.StalenessBound` | internal/gateway/server.go:535-578 | with cleanups at most the interval apart, every registered agent was seen at most timeout + interval ago |
| `Registry.LastSeenIsLastContact` | internal/gateway/server.go:322-333 | `lastSeen` of a live agent is the time of its last registration or heartbeat in the run |
| `Registry.ConnectionIsHistory` | internal/gateway/server.go:257-333 | every field of a live agent's connection, read off the run: ID, host and connection time of its last registration, health of its last report (healthy for a registration), degraded exactly after a failing heartbeat, last seen at its last contact |
| `Registry.IndexIsHistory` | internal/gateway/server.go:275-276 | an indexed host is indexed under the agent ID that last registered for it |
| `Registry.LookupIsHistory` | internal/gateway/server.go:602-610 | so a lookup that finds a connection finds that of the agent that last registered for the host, with the health it last reported |
| `Registry.CleanupIffSilent` | internal/gateway/server.go:552-578 | a cleanup keeps an agent, untouched and routable, exactly when its last contact lies within the timeout; otherwise its host is unknown afterwards |
| `GatewayServer.Server.constructor` | internal/gateway/server.go:104-115 | a new server has empty maps |
| `GatewayServer.Server.HandleRegistration` | internal/gateway/server.go:232-312 | performs the registration step; the reply carries the ID under which the host is then found, the requested one or else the drawn one; the host written online |
| `GatewayServer.Server.HandleHeartbeat` | internal/gateway/server.go:315-356 | performs the heartbeat step: time, health and status reported by a known agent, all else unchanged; reports the host to be written online, none for an unknown agent |
| `GatewayServer.Server.HandleInventory` | internal/gateway/server.go:429-434 | the host an inventory is synchronised into, none for an unknown agent |
| `GatewayServer.Server.HandleDeregistration` | internal/gateway/server.go:508-532 | performs the deregistration step and reports the host to be written offline |
| `GatewayServer.Server.CollectStale` | internal/gateway/server.go:555-561 | the first cleanup loop finds each stale agent once, in any map order |
| `GatewayServer.Server.CleanupStaleAgents` | internal/gateway/server.go:552-578 | both loops together perform the cleanup step and spawn one offline write per removed agent, for exactly the hosts whose status the step writes |
| `GatewayServer.Server.DisconnectAgent` | internal/gateway/api.go:167-170 | deletes the agent and leaves the index as it was |
| `GatewayServer.Server.GetAgentByHost` | internal/gateway/server.go:602-610 | the indexed lookup, equal to the scan where nothing dangles |
| `GatewayServer.Server.GetAgentHealth` | internal/gateway/server.go:653-664 | dereferences nil exactly at the hosts whose entry names no live agent; otherwise, after any run, the health that the host's agent last reported |
| `GatewayServer.Server.ListAgents` | internal/gateway/server.go:613-622 | every connection exactly once, in some map order |
| `HostStatus.IndexFollowsWrite` | internal/gateway/server.go:269-281 | every step changes the index at a host exactly as it writes the host's status |
| `HostStatus.OnlineIffIndexed` | internal/gateway/server.go:278-281 | with prompt writes a host is online exactly when it is indexed, over every run |
| `HostStatus.SoundIffNoneOvertakes` | internal/gateway/server.go:527-528 | with every write landing late and in any order, the row is on its way to agreeing with the index throughout a run exactly when no write overtakes a contrary one |
| `HostStatus.SettledHostAgrees` | internal/gateway/server.go:278-281 | in such a run row and index agree whenever no write of the host is outstanding |
| `HostStatus.InOrderNeverOvertakes` | internal/gateway/server.go:278-281 | so in particular when the writes of a host land in the order of issue |
| `HostStatus.AgreementKeptIff` | internal/gateway/server.go:574-575 | agreement at a host survives an event exactly when the event is neither a step that adds or removes the host nor the landing of a write that contradicts the index |
| `HostStatus.SettlesInEveryOrderIff` | internal/gateway/server.go:340-343 | the outstanding writes of a host settle in agreement in every order of landing exactly when they all say what the index says |
| `HostStatus.ContraryWriteCanWin` | internal/gateway/server.go:527-528 | from any state with a contrary write outstanding, the writes can land so that the row is wrong with nothing left to correct it |
| `HostStatus.HeartbeatRestores` | internal/gateway/server.go:340-343 | after any history the next heartbeat with no offline write outstanding restores agreement as soon as a write of the host lands, and it lasts until an offline write is issued |
| `HostStatus.LateCleanupStrands` | internal/gateway/server.go:574-575 | after any history with an agent that a cleanup drops, the cleanup's write can land after the next registration's and leave a registered host offline |
| `AgentSystem.Agent.constructor` | internal/agent/agent.go:121-134 | the agent's ID is the configured one or the drawn one, never empty |
| `AgentSystem.Agent.New` | internal/agent/agent.go:114-135 | no agent without a token, otherwise one with a non-empty ID |
| `AgentSystem.Agent.TakeReply` | internal/agent/agent.go:326-346 | a rejection changes nothing; an acceptance adopts the non-empty ID and the positive intervals |
| `AgentSystem.Agent.SubscribeToCommands` | internal/agent/agent.go:367-383 | subscribes to the commands of the current ID, then to the broadcasts, stopping at the first refusal; what is subscribed in each case |
| `Subjects.SplitInjective` | internal/gateway/protocol/messages.go:56-58 | different texts have different tokens |
| `Subjects.Spelled` | internal/gateway/protocol/messages.go:50-58 | the subjects as the source spells them |
| `Subjects.MatchesIff` | internal/gateway/protocol/messages.go:50-54 | which subjects a subscription hears, token by token: each token itself, `*` any one, a final `>` one or more |
| `Subjects.PublishableIff` | internal/agent/agent.go:474-475 | which texts are subjects, character by character: not empty, no blanks, each dot between two other characters |
| `Subjects.SubscribableIff` | internal/agent/agent.go:367-373 | a subscription is refused for an unreadable token or a `>` before its end |
| `Subjects.CommandHeard` | internal/agent/agent.go:367-370 | the subscription of one ID hears the commands of another exactly when the first, as a pattern, matches the second; it is well-formed exactly when the ID is |
| `Subjects.OtherTopic` | internal/agent/agent.go:375-379 | the broadcast subscription hears no command |
| `Subjects.LiteralHearsItself` | internal/agent/agent.go:367-370 | an ID without wildcard tokens hears its own commands and no others |
| `Subjects.WildcardHears` | internal/agent/agent.go:367-370 | the ID `*` hears the commands of every ID without a dot, `>` those of every ID, and the network takes both |
| `Subjects.GatewayHearsIff` | internal/gateway/protocol/messages.go:50-54 | the gateway hears the heartbeats and deregistrations of exactly the well-formed IDs without a dot |
| `AgentSystem.NextKeepsIdentity` | internal/agent/agent.go:302-347 | every event keeps each agent's token and ID, and its subscription unless it stops, and every registration packet truthful |
| `AgentSystem.IdentityIsStable` | internal/agent/agent.go:234-242 | across any number of reconnects and late replies an agent's ID never changes, nor its subscription until it stops |
| `AgentSystem.RegistrationIsClaimed` | internal/gateway/server.go:244-255 | a served registration binds the sender's own ID to the host of its own token |
| `AgentSystem.TraceInvariant` | internal/gateway/server.go:251-276 | whatever the registry says was claimed by an agent, running or stopped, with a token of that host |
| `AgentSystem.WhoHears` | internal/agent/agent.go:367-383 | in every state with subscriptions made as the agent makes them: a command for an ID is heard by its subscribed agents and by those of other IDs that match it as patterns, by the former alone exactly when there are none of the latter |
| `AgentSystem.CommandIsHeardByItsAgent` | internal/agent/agent.go:367-383 | without any assumption on IDs, restarts and forced disconnects included: a command is published on a subject that the subscribed agents of the entry's ID hear and, beside them, exactly the subscribed agents whose ID is a pattern matching it, all with known tokens; agents of the entry's ID hold tokens of the host asked for and of the host the entry names |
| `AgentSystem.CommandReachesItsHost` | internal/gateway/commands.go:60-107 | if agents of one ID hold tokens of one host and no ID matches an ID of another host, every command goes to a connection of its host, and whoever hears it holds a token of that host |
| `AgentSystem.WellRoutedIff` | internal/gateway/commands.go:60-107 | exactly such deployments route the commands of all their runs so, forced disconnects included |
| `AgentSystem.LiteralIdsOverhearNobody` | internal/agent/agent.go:121-124 | IDs without wildcard tokens, as drawn ones are, match no ID of another host |
| `AgentSystem.PatternIdOverhears` | internal/agent/agent.go:367-370 | from any state with two running agents of which one's ID matches the other's: after both have joined, the one hears the commands for the other's host |
| `AgentSystem.StarOverhears` | internal/agent/agent.go:367-370 | so the ID `*` hears those of every other host whose agent has no dot in its ID, and the commands are not well routed |
| `AgentSystem.DottedAgentIsUnheard` | internal/gateway/server.go:206-224 | heartbeats and deregistrations of an ID with a dot never change the registry |
| `AgentSystem.DottedAgentExpires` | internal/gateway/server.go:552-578 | in every run, whatever heartbeats it sends, a cleanup keeps such an agent exactly when its registration lies within the timeout |
| `AgentSystem.DotlessAgentIsSeen` | internal/agent/agent.go:474-478 | a delivered heartbeat of an ID without a dot is a contact |
| `AgentSystem.BeatIsServed` | internal/agent/agent.go:447-479 | a running, connected agent without a dot in its ID sends a heartbeat that is served: time, health and status are the reported ones, all else unchanged |
| `AgentSystem.DotlessAgentLeaves` | internal/gateway/server.go:508-532 | a deregistration under an ID without a dot takes effect: the agent is gone, its host unknown, every other connection and entry unchanged |
| `AgentSystem.LeaveIsServed` | internal/agent/agent.go:350-364 | so for the deregistration that a running, connected agent sends |
| `AgentSystem.JoinedAgentLeaves` | internal/agent/agent.go:302-364 | an agent that joins and then leaves is found for its host in between and unknown afterwards |
| `AgentSystem.DisconnectedByForce` | internal/gateway/api.go:167-170 | a forced disconnect leaves a nil connection for the agent's host and everyone else as before |
| `AgentSystem.StoppedStaysSilent` | internal/agent/agent.go:197-200 | after any run a stopped agent hears nothing and sends nothing |
| `AgentSystem.StartedAsConfigured` | internal/agent/agent.go:114-135 | a started agent has its token and the configured ID or else the drawn one, no agent without a token, everyone else as before |
| `AgentSystem.RegistrationIsServed` | internal/gateway/server.go:232-312 | a served request of a running agent connects it, as of now, for the host of its token if accepted; if refused or with an unknown token it is answered with a rejection, and neither that nor its arrival changes anything else |
| `AgentSystem.ReplyIsTaken` | internal/agent/agent.go:326-346 | a reply that arrives: an acceptance registers the agent under the ID it names, if it names one; a rejection changes nothing, and the rest of the system stays as it was |
| `AgentSystem.PacketsStay` | internal/agent/agent.go:302-364 | packets can be served at any later time and repeatedly |
| `AgentSystem.OnlySentIsServed` | internal/gateway/server.go:232-356 | a message that was not sent has no effect |
| `AgentSystem.OneHostPerIdNeverDangles` | internal/gateway/server.go:269-276 | in such deployments, restarts included and without forced disconnects, no index entry ever dangles |
| `AgentSystem.OneHostPerIdIsCoherent` | internal/gateway/server.go:602-610 | so every lookup equals the scan and is never nil |
| `AgentSystem.CoherentIffOneHostPerId` | internal/gateway/server.go:269-276 | exactly the deployments in which agents of one ID hold tokens of one host have only runs without dangling entries |
| `AgentSystem.Joined` | internal/agent/agent.go:302-383 | an agent that asks, is served, takes the reply and subscribes is registered for its host and, if its ID makes a well-formed subject, subscribed under it |
| `AgentSystem.SharedIdMisroutes` | internal/gateway/commands.go:104-107 | from any state with two running agents of one ID and tokens of two hosts: after both have joined, a command for the first host goes to the second's connection and, if the ID makes a well-formed subject, is heard by both |
| `TokenProtocol.PieceKeepsInv` | internal/gateway/registration.go:77-192 | without overlap at a token every piece of every operation keeps cache and store in agreement on it |
| `TokenProtocol.CacheAgreesWithStore` | internal/gateway/registration.go:106-168 | in every run in which no validation or generation of a token overlaps a revocation covering it, the cached token maps to the store's host, whatever happens to other tokens |
| `TokenProtocol.OverlapCanBreak` | internal/gateway/registration.go:116-168 | from any overlap the two operations can finish so that agreement is lost |
| `TokenProtocol.ValidateAgrees` | internal/gateway/registration.go:106-128 | validation differs from the store's answer exactly for cached tokens stored with an expiry strictly before now; a token is accepted for a host exactly when it is stored for it and is cached or not past its expiry |
| `TokenProtocol.FetchIff` | internal/gateway/registration.go:326-341 | the store's answer: unknown exactly if not stored, expired exactly with an expiry strictly before now, valid for a host exactly if stored for it without expiry or not past it |
| `TokenProtocol.ExpiredStaysRefused` | internal/gateway/registration.go:326-341 | an expired token that is not cached nor about to be is refused at every later time, whatever runs meanwhile, until generated anew |
| `TokenProtocol.CachedStaysAccepted` | internal/gateway/registration.go:106-116 | a cached token is accepted at every time, however long past its expiry, until a revocation or a clearing of the cache reaches it |
| `TokenProtocol.ForgottenLasts` | internal/gateway/registration.go:106-128 | a token that nothing remembers stays so through any run that does not generate it |
| `TokenProtocol.RevokedStaysRevoked` | internal/gateway/registration.go:131-144 | a revoked or rotated-out token never validates again until generated anew, whatever overlaps later and whatever overlapped at other tokens |
| `TokenProtocol.RevokedAllStayRevoked` | internal/gateway/registration.go:147-168 | likewise for every token of a host whose tokens are all revoked |
| `TokenService.MemoryTokenStore.StoreToken` | internal/gateway/registration.go:314-324 | the store afterwards, all else unchanged |
| `TokenService.MemoryTokenStore.GetHostByToken` | internal/gateway/registration.go:326-341 | unknown exactly if not stored, expired exactly with an expiry strictly before now, otherwise the host |
| `TokenService.MemoryTokenStore.RevokeToken` | internal/gateway/registration.go:343-349 | removes the token and nothing else |
| `TokenService.MemoryTokenStore.RevokeAllForHost` | internal/gateway/registration.go:351-361 | exactly the tokens of other hosts are left, deleting while iterating in any order |
| `TokenService.MemoryTokenStore.ListTokensForHost` | internal/gateway/registration.go:363-379 | lists exactly the host's tokens |
| `TokenService.RegistrationService.GenerateToken` | internal/gateway/registration.go:77-103 | its pieces in order; the token then validates for the host, agreement kept |
| `TokenService.RegistrationService.ValidateToken` | internal/gateway/registration.go:106-128 | its pieces in order; the cached host, or else the store's answer by expiry; an accepted token is cached afterwards and nothing else changes, agreement kept |
| `TokenService.RegistrationService.RevokeToken` | internal/gateway/registration.go:131-144 | its pieces in order; nothing remembers the token afterwards |
| `TokenService.RegistrationService.Uncache` | internal/gateway/registration.go:154-159 | removes exactly the listed tokens from the cache |
| `TokenService.RegistrationService.RevokeAllTokens` | internal/gateway/registration.go:147-168 | its pieces in order; nothing remembers any of the host's tokens afterwards, exactly the other tokens stay stored, and every other token is answered as before |
| `TokenService.RegistrationService.RotateToken` | internal/gateway/registration.go:171-185 | the new token validates, the old one is forgotten, every other token is answered as before |
| `TokenService.RegistrationService.ClearAll` | internal/gateway/registration.go:188-192 | empties the cache; cache and store agree |
| `License.HasFeature` | internal/license/license.go:146-156 | the search loop answers: valid, and the feature is listed |
| `License.TrimTrailing` | internal/license/store.go:29-58 | the newline the store appends is trimmed away by the load |
| `License.TrimIsTrimmed` | internal/license/store.go:40-49 | trimming leaves no surrounding white space and changes nothing exactly when there is none |
| `License.TrimCuts` | internal/license/store.go:40-49 | trimming cuts white space off both ends and nothing else |
| `License.PaddedKey` | internal/license/store.go:40-49 | a key of visible characters pasted with blanks, tabs or line ends around it loads as the key |
| `License.TrimPartIff` | internal/license/store.go:40-49 | a part of a text loads as the whole exactly when it reaches the last character that is not white space |
| `LicenseProvider.ActivatedIff` | internal/license/validator.go:63-127 | exactly which tokens are activated; what they install is valid, open and carries the token's edition, ID and expiry |
| `LicenseProvider.AlwaysOpen` | internal/license/provider.go:86-138 | in every interleaving the features are all implemented ones and the limits unlimited |
| `LicenseProvider.FeatureOffIffRefused` | internal/license/license.go:146-156 | in every run a feature is reported off exactly when a re-validation was refused and no activation, deactivation or re-validation has made that good since |
| `LicenseProvider.RefusalSwitchesOff` | internal/license/provider.go:207-222 | from any start: a token that is activated, re-validated and then refused keeps edition, features and limits, and every feature is reported off |
| `LicenseProvider.MatchesKeptIff` | internal/license/provider.go:198-237 | a step keeps the information in line with the token exactly when it is not the verdict on another token than the current one |
| `LicenseProvider.CalmRunMatches` | internal/license/provider.go:86-138 | without activation or deactivation between the re-validation's read and write, the information is the valid default without a token and carries the token's edition, ID and expiry otherwise |
| `LicenseProvider.BootMatches` | internal/license/provider.go:40-82 | so it is at start |
| `LicenseProvider.InvalidDefaultPersists` | internal/license/provider.go:207-222 | a deactivation during a failing re-validation leaves an invalid default that only a further activation or deactivation repairs |
| `LicenseProvider.InvalidDefaultReached` | internal/license/provider.go:207-222 | that state is reached from any start |
| `LicenseProvider.DiskFollowsMemory` | internal/license/provider.go:86-138 | with calls one at a time, the disk follows the memory, owing at most the one write of the current call |
| `LicenseProvider.StoredTextTrimsToToken` | internal/license/store.go:29-49 | once the writes have landed, the stored text loads as the trimmed token, as the token itself exactly when that has no surrounding white space |
| `LicenseProvider.RestartRoundTrip` | internal/license/provider.go:40-82 | a restart runs on the trimmed token with that token's edition, ID and expiry while it activates, and on the default otherwise |
| `LicenseProvider.RestartKeepsLicense` | internal/license/provider.go:40-82 | in calm runs a restart carries the running process's edition, ID and expiry exactly when the trimmed token says the same as the token, so for every token without surrounding white space |
| `LicenseProvider.TornSaveKeepsLicenseIff` | internal/license/store.go:29-49 | after a torn save a restart runs on the token exactly when the written part reaches its last character that is not white space, and on the default if nothing was written |
| `LicenseProvider.OverlapCanDisagree` | internal/license/provider.go:86-138 | from any state that owes a write, a further call can be completed so that disk and memory disagree, if the two writes store different texts |
| `LicenseProvider.OverlapSettlesIff` | internal/license/provider.go:86-138 | a call made while one write is outstanding settles in agreement in both orders of landing exactly when the two writes store the same text |
| `LicenseProvider.OverlapRevivesLicense` | internal/license/provider.go:86-138 | a deactivation overlapping an activation can bring the license back at the next start |
| `LicenseObjects.Store.SaveKey` | internal/license/store.go:29-37 | writes the token and a newline, is refused and changes nothing, or is torn and leaves a part of the text |
| `LicenseObjects.Store.LoadKey` | internal/license/store.go:40-49 | the trimmed text, empty without a file |
| `LicenseObjects.Store.Remove` | internal/license/store.go:52-58 | deletes the file; a missing file is no failure |
| `LicenseObjects.LicenseHolder.constructor` | internal/license/provider.go:40-82 | starts as the boot step says |
| `LicenseObjects.LicenseHolder.ActivateInMemory` | internal/license/provider.go:107-123 | installs token and information together or changes neither |
| `LicenseObjects.LicenseHolder.ActivateKey` | internal/license/provider.go:86-105 | memory step, then disk write; a refused or torn write does not fail the activation, and what then is on disk |
| `LicenseObjects.LicenseHolder.DeactivateKey` | internal/license/provider.go:126-138 | memory step, then removal; memory is reset even if the removal fails |
| `LicenseObjects.LicenseHolder.BeginCheck` | internal/license/provider.go:207-213 | reads the token, skipping the community edition |
| `LicenseObjects.LicenseHolder.FinishCheck` | internal/license/provider.go:215-227 | clears `valid` in place on failure, replaces the information on success |
| `Expiration.DaysRemaining` | internal/license/expiration.go:136-137 | the remaining time in days, rounded up |
| `Expiration.FirstIndex` | internal/license/expiration.go:140-145 | the first threshold that the remaining days do not exceed |
| `Expiration.NoticesSpaced` | internal/license/expiration.go:148-196 | over every run with a monotone clock, overlapping checks and arbitrary failures, deliveries of one kind between resets are at least a day apart |
| `Expiration.FailuresAreErasable` | internal/license/expiration.go:164-167 | checks whose delivery fails can be erased from any run without changing the throttle or the recorded deliveries |
| `Expiration.SelectIff` | internal/license/expiration.go:113-146 | exactly when a check calls for which notice, by the times: a paid license with an expiry that has passed, or is at most the threshold's days away, the first such threshold of the list |
| `Expiration.CalledForIsAnnounced` | internal/license/expiration.go:148-196 | after any run a check that calls for a notice and whose delivery does not fail leaves one of its kind recorded that goes out now or went out less than a day before |
| `Expiration.AnnouncedIsCalledFor` | internal/license/expiration.go:113-146 | every recorded delivery was called for by a check of the run; so none ever for the community edition or without an expiry |
| `Expiration.ResetForgets` | internal/license/expiration.go:217-222 | right after a reset such a check delivers, whatever was announced before |
| `Expiration.DescendingAnnouncesLargest` | internal/license/expiration.go:139-145 | on a descending list only the largest threshold is announced, exactly when the days do not exceed it |
| `Expiration.DescendingNoticesSpaced` | internal/license/expiration.go:173-196 | so all expiring notices of a descending list are at least a day apart |
| `Expiration.SmallestIffAscending` | internal/license/expiration.go:139-145 | the scan yields the smallest matching threshold for every remaining time exactly for lists whose first occurrences ascend |
| `Expiration.DefaultListWitness` | internal/license/expiration.go:67-73 | one day before expiry the default list announces 30 |
| `Expiration.ExpirationChecker.constructor` | internal/license/expiration.go:77-99 | an empty list is replaced by the default one; nothing is throttled |
| `Expiration.ExpirationChecker.CheckOnce` | internal/license/expiration.go:113-146 | the scan loop and its early exits perform the check step |
| `Expiration.ExpirationChecker.HandleExpired` | internal/license/expiration.go:148-171 | records the delivery unless throttled or failed |
| `Expiration.ExpirationChecker.HandleThreshold` | internal/license/expiration.go:173-196 | likewise, for one threshold, leaving the others |
| `Expiration.ExpirationChecker.ResetNotifications` | internal/license/expiration.go:217-222 | forgets every delivery |
| `EventPipeline.StepConserves` | internal/gateway/events.go:80-121 | every step moves events without losing, repeating or reordering any, and keeps the bounds |
| `EventPipeline.EventsConserved` | internal/gateway/events.go:80-121 | in every interleaving the accepted events are processed, batch and buffer in sequence; the batch stays below its size and the buffer within its capacity; after shutdown only the buffer is left |
| `EventPipeline.StopFlushes` | internal/gateway/events.go:99-105 | the end of the loop processes the batch, leaves the buffer and is final |
| `EventPipeline.OnlyFullBatches` | internal/gateway/events.go:107-112 | without a tick or the end the processed events are a number of batches of the full size |
| `EventPipeline.ProcessedOnlyGrows` | internal/gateway/events.go:99-105 | processing never takes back and ends at shutdown |
| `EventPipeline.DrainProcessesAll` | internal/gateway/events.go:107-118 | receiving the whole buffer and one tick process everything accepted |
| `EventPipeline.HandlerSeesItsKind` | internal/gateway/events.go:133-152 | a handler registered once for one type, at any time, sees exactly the events of that type processed from then on, once each and in order, whatever is registered besides and whatever other handlers return |
| `EventPipeline.HandlerSeesItsDue` | internal/gateway/events.go:68-72 | in general it sees each event once for every earlier registration of it for the event's type, in order |
| `EventPipeline.WorkedEvents` | internal/gateway/events.go:124-136 | registrations made between the events neither add nor drop an event |
| `EventPipeline.EventProcessor.constructor` | internal/gateway/events.go:56-65 | starts empty and running, with no handler |
| `EventPipeline.EventProcessor.RegisterHandler` | internal/gateway/events.go:68-72 | appends to the handlers of that type only |
| `EventPipeline.EventProcessor.Arrive` | internal/gateway/events.go:68-72 | registrations one after the other make the table that the record of them says |
| `EventPipeline.EventProcessor.SubmitEvent` | internal/gateway/events.go:80-89 | drops the event exactly when the buffer is full, or unbuffered with no receiver waiting; otherwise it is the last of those held |
| `EventPipeline.EventProcessor.TakeEvent` | internal/gateway/events.go:107-112 | batches a received event, or processes the batch with it exactly when that makes it full |
| `EventPipeline.EventProcessor.ProcessEvent` | internal/gateway/events.go:133-152 | reads the table as the registrations up to then have left it and calls each handler of the type once, in order |
| `EventPipeline.EventProcessor.CallEach` | internal/gateway/events.go:143-151 | the loop over the handlers calls each once, in order |
| `EventPipeline.EventProcessor.ProcessBatch` | internal/gateway/events.go:124-130 | processes the events of the batch in order |
| `EventPipeline.EventProcessor.FlushBatch` | internal/gateway/events.go:114-118 | processes and empties the batch |
| `EventPipeline.EventProcessor.ProcessLoop` | internal/gateway/events.go:92-121 | the loop performs the steps of any schedule and ends stopped with an empty batch; table and calls stay those of the processed events and the registrations made between them |
| `EventPipeline.EventProcessor.Turn` | internal/gateway/events.go:98-119 | one turn performs its step |
| `EventAggregation.CountsAreHistograms` | internal/gateway/events.go:480-499 | after any records the maps are the exact histograms of the events since the last reset; types and severities each sum to their number, hosts to those carrying one |
| `EventAggregation.ResetByClock` | internal/gateway/events.go:484-490 | the last reset is the start or the last observation that came more than a window after the reset before it |
| `EventAggregation.WindowFromOpening` | internal/gateway/events.go:484-490 | the counted events are those from that observation on |
| `EventAggregation.WindowByClock` | internal/gateway/events.go:484-490 | all of them but that one came within a window of the reset |
| `EventAggregation.EventAggregator.constructor` | internal/gateway/events.go:469-477 | starts with empty counts |
| `EventAggregation.EventAggregator.Record` | internal/gateway/events.go:480-499 | performs the recording step, resetting first exactly when more than a window has passed since the last reset |
| `EventAggregation.EventAggregator.Summarise` | internal/gateway/events.go:512-538 | copies the counts and totals them, the same for every map order |
| `Dispatch.NoPendingLeak` | internal/gateway/commands.go:88-95 | in every run, IDs repeated or not, no entry outlives its command; the table is empty when nothing is in flight |
| `Dispatch.ExactKeptIff` | internal/gateway/commands.go:88-95 | a step keeps the table exact unless it ends a command whose ID another still uses |
| `Dispatch.PendingIsInFlight` | internal/gateway/commands.go:266-271 | with distinct IDs in flight the table is the set of commands in flight and its size their number |
| `Dispatch.CommandDispatcher.constructor` | internal/gateway/commands.go:39-45 | starts with nothing pending |
| `Dispatch.CommandDispatcher.Enter` | internal/gateway/commands.go:88-90 | the first critical section enters the command |
| `Dispatch.CommandDispatcher.Leave` | internal/gateway/commands.go:91-95 | the deferred one removes its ID |
| `Dispatch.CommandDispatcher.SendCommand` | internal/gateway/commands.go:48-149 | every way out after the entry performs entry and removal, the others neither, whether or not the ID was pending; the caller gets the agent's status exactly if it replied, a timeout exactly if it did not, unavailable exactly for an unknown host, otherwise the reason; published exactly when it got that far, on the agent's own subject |
| `Dispatch.ResultTells` | internal/gateway/commands.go:48-149 | which result belongs to which course of a command, in both directions |
| `Dispatch.CommandDispatcher.PendingCount` | internal/gateway/commands.go:266-271 | the size of the table, the number of commands in flight when their IDs are distinct |
| `Dispatch.BroadcastCommand` | internal/gateway/commands.go:228-264 | for a snapshot in any run of the registry, later lookups at any times and any order of completion: the broadcast crashes exactly when some goroutine looks up a host with a nil connection and gets as far as using it, never in a run that orphans no host; otherwise it returns one result for each agent of the snapshot, the one its own lookup and course call for |
| `Dispatch.Collect` | internal/gateway/commands.go:256-258 | one result per agent exactly when the hosts are distinct |
| `Dispatch.NoneOrphanedNeverPanics` | internal/gateway/commands.go:60-67 | in a run of the registry that orphans no host no goroutine uses a nil connection |
| `Dispatch.AnswerIsNilIff` | internal/gateway/commands.go:60-67 | some goroutine dereferences nil exactly when one looks up a host whose entry names no live agent and gets as far as using it |
| `Dispatch.CrashesSometimesIff` | internal/gateway/commands.go:228-264 | some timing of the lookups crashes a broadcast exactly when a host of its snapshot has a nil connection at some later time of the run |
| `Dispatch.OrphanCrashesBroadcast` | internal/gateway/commands.go:104-107 | a step that orphans a host of the snapshot crashes every broadcast that looks the host up later, until a registration revives it |
| `Dispatch.SnapshotHostsDistinct` | internal/gateway/server.go:612-622 | in every run of the registry a snapshot's hosts are distinct, so one result per host is one per agent |
| `LogFraming.LengthRoundTrip` | internal/docker/logs.go:251 | the big-endian length reads back |
| `LogFraming.LengthInverse` | internal/docker/logs.go:251 | every four bytes are the encoding of the length they are read as |
| `LogFraming.FrameLayout` | internal/docker/logs.go:225-261 | where tag, length (most significant byte first) and payload are in a frame |
| `LogFraming.DecodeSplits` | internal/docker/logs.go:225-276 | every byte string is whole frames and an unfinished rest, and decodes to one line per whole frame: of the error stream exactly for tag 2, with the payload less the newline it ends in, if any |
| `LogFraming.SplitIsUnique` | internal/docker/logs.go:225-276 | there is no other way to split it |
| `LogFraming.DecodeRendered` | internal/docker/logs.go:225-276 | whole frames followed by an unfinished one decode to exactly those frames |
| `LogFraming.EncodeRoundTrip` | internal/docker/logs.go:222-268 | encoded payloads below 2^32 bytes decode to their stream and to a text that is the payload, or the payload without the newline it ends in |
| `LogFraming.DecodePrefix` | internal/docker/logs.go:228-276 | output on part of a stream is a prefix of the output on the whole |
| `LogFraming.Reader.ReadFull` | internal/docker/logs.go:236 | fills the buffer or fails at the end of the stream, however the data is cut into pieces |
| `LogFraming.ReadFrame` | internal/docker/logs.go:235-261 | reads the next whole frame or fails when there is none |
| `LogFraming.Demultiplex` | internal/docker/logs.go:334-359 | the collecting loop, the same in `ContainerLogsSince` (395-420), terminates and yields the decoded lines |
| `LogFraming.StreamMultiplexed` | internal/docker/logs.go:225-276 | the streaming loop sends a prefix of the same lines and stops exactly at the first look that finds the context cancelled |
| `HeartbeatMonitor.StatsAreFaithful` | internal/gateway/heartbeat.go:174-236 | over every run: statistics exist exactly for agents heard since their removal; since that first heartbeat, totals, latency sum and truncated average are those of the heartbeats, misses the degraded and unhealthy checks, health changes the noted ones and the heartbeats with another health than the one before; consecutive misses are those since the last heartbeat or healthy check, never more than all misses |
| `HeartbeatMonitor.TruncDivIsAverage` | internal/gateway/heartbeat.go:191-193 | the average is the quotient cut off towards zero: average times count does not exceed the sum, one more does |
| `HeartbeatMonitor.SuccessRateBounds` | internal/gateway/heartbeat.go:269-273 | the rate times all heartbeats due is a hundred times those received; it lies in [0,100], and is 100 exactly without misses |
| `HeartbeatMonitor.Monitor.constructor` | internal/gateway/heartbeat.go:72-81 | starts without statistics |
| `HeartbeatMonitor.Monitor.RecordHeartbeat` | internal/gateway/heartbeat.go:174-205 | performs the heartbeat step on one agent's record |
| `HeartbeatMonitor.Monitor.CheckAgentHealth` | internal/gateway/heartbeat.go:124-171 | the verdict exactly by the three thresholds, and whether the agent is presumed lost; performs the counting step, then the noting step if the verdict differs from the known health |
| `HeartbeatMonitor.Monitor.ResetMissed` | internal/gateway/heartbeat.go:219-226 | clears the consecutive misses of known agents only |
| `HeartbeatMonitor.Monitor.RecordHealthChange` | internal/gateway/heartbeat.go:229-236 | performs the noting step |
| `HeartbeatMonitor.Monitor.IncrementMissed` | internal/gateway/heartbeat.go:208-216 | counts a miss for known agents only |
| `HeartbeatMonitor.Monitor.RemoveAgent` | internal/gateway/heartbeat.go:239-243 | forgets the agent |
| `HeartbeatMonitor.Monitor.GetAgentStats` | internal/gateway/heartbeat.go:260-287 | the record and its success rate in [0,100], for known agents only |
| `HeartbeatMonitor.Monitor.Accumulate` | internal/gateway/heartbeat.go:341-354 | sums over all agents in any order, each in one bucket |
| `HeartbeatMonitor.Monitor.GetSummary` | internal/gateway/heartbeat.go:330-366 | the three buckets sum to the agents; the average is that of the agents' averages, 0 without agents, and the rate that of all their heartbeats and misses; the rate lies in [0,100] |
| `ComposeMerge.MergeServiceAssociative` | internal/docker/compose.go:817-858 | merging services is associative, labels included |
| `ComposeMerge.MergeAssociative` | internal/docker/compose.go:772-814 | merging files is associative |
| `ComposeMerge.MergeWithItself` | internal/docker/compose.go:772-778 | a file merged with itself loses its secrets and configs and nothing else |
| `ComposeMerge.OverrideWins` | internal/docker/compose.go:820-855 | each merged field, and each label, is the override's where it sets it and the base's elsewhere |
| `ComposeMerge.LastWriterWins` | internal/docker/compose.go:772-858 | in a merge of any number of files each merged field has the value of the last file that sets it |
| `ComposeMerge.FirstNamerKeepsRest` | internal/docker/compose.go:780-858 | in such a merge a service is there exactly if some file names it, and the fields that the merge does not know are those of the first that does |
| `ComposeMerge.OtherParts` | internal/docker/compose.go:772-814 | the version is that of the first file, each network and volume that of the last file that has it, and with two files or more no secret or config is left |
| `ComposeMerge.NoLabelsIff` | internal/docker/compose.go:847-855 | a merged service has no label map exactly when the base has none and the override sets no label |
| `ComposeHeap.CopyLabels` | internal/docker/compose.go:852-854 | the copy loop leaves target overridden by source, also when they are one map |
| `ComposeHeap.MergeInto` | internal/docker/compose.go:817-858 | the value merge; the only object written is the base's label map, which the result shares |
| `ComposeHeap.CoveredIff` | internal/docker/compose.go:852-854 | labels written in between make no difference to a merge exactly when each is set again or was there |
| `ComposeHeap.MergeTwice` | internal/docker/compose.go:847-855 | for two merges into one base, label maps shared in any way: the second result is that of a merge into the original base exactly when the base has no label map or each label of the first override is set again by the second or was in the base; the first result stays what it was exactly when the base has none or each label of the second was in it already |
| `ComposeHeap.OverrideServices` | internal/docker/compose.go:780-793 | the loop over the override, in any map order and with label maps shared in any way, absorbs each named service once and keeps the others; the label maps end as the writes in that order leave them |
| `ComposeHeap.AbsorbNamed` | internal/docker/compose.go:785-791 | one turn of the loop writes the base's map of that name, and nothing else |
| `ComposeHeap.Turn` | internal/docker/compose.go:785-791 | one turn keeps the record of the services merged so far and of the label maps |
| `ComposeHeap.MergeSharedMaps` | internal/docker/compose.go:780-793 | whatever is shared, the labels of each service are those the writes leave in the order of the loop |
| `ComposeHeap.HarmlessAsWanted` | internal/docker/compose.go:780-793 | every order of the loop merges harmless files as values |
| `ComposeHeap.WantedIffHarmless` | internal/docker/compose.go:780-793 | exactly the harmless files are merged as values in every order: a write to a shared map must leave it as the merge of each of its base services would, and show no difference to the merge of any override service that has it |
| `ComposeHeap.MergeServiceMaps` | internal/docker/compose.go:780-793 | for harmless files the services are the value merge of each name, whatever the order, and the base's own maps end merged; files without label maps shared across names are harmless, and there the override's services and the base services it does not name end as they were, also for a file merged with itself |
| `ComposeHeap.MergeComposeFiles` | internal/docker/compose.go:772-814 | every part of the result is that of the value merge, the labels if the files are harmless; of the input only label maps of base services change |

## Left out

- NATS, JetStream, Postgres and the Docker SDK: foreign calls, present only as packets, status rows and arbitrary outcomes.
- Failing status writes in the repository: the handlers only log them, so that a row may then lag behind.
- Sharing of `*AgentConnection` objects outside the lock: connections are values, so that a reader of a snapshot does not see later heartbeats.
- The delay between reading the clock and taking the lock in registration and cleanup: both happen in one step.
- Inventory field mapping, event persistence and notification text: field copying.
- The agent's `activeJobs` counter and heartbeat loop, and the agent's own health judgement: one-branch facts.
- `SendCommandAsync` and the command builders: they touch neither the table nor the registry.
- RSA and JWT checks, token randomness and constant-time comparison: parameters.
- A license file that exists and cannot be read: the provider starts as the community edition, as for an unusable token.
- `parseLogLine` timestamps, and the terminal (TTY) log path.
- 64-bit overflow of counters and floating-point rounding of rates and days: unbounded integers and reals.
- A failed disk write in the provider's interleavings is one that never lands; torn writes are stated for a save and the restart after it.
- The broadcast subject: agents subscribe to it, and nothing in the repository publishes on it.
- Events and inventories of agents with a dot in their ID: their subjects are like those of the heartbeats.
