# Ghost Node: a verified model

Dafny models of the stateful parts of Ghost Node, with proofs about whole runs of them. Each
program part that works by changing things step by step is modelled by classes and methods with
the same steps; each method is proved against pure functions or relations, and the promises
are proved about those as lemmas over all runs. Whatever lies outside the program (the cloud,
Cloudflare, the database, Redis, the clock, the operating system) is an explicit state with an
adversary inside it: a method that may answer, fail, lose an answer after acting, or let time
pass, in every way the stated relation allows, or an argument of the call that says what its
environment does. Where a failure must be told from a possible success, the environment keeps a ghost
count of the calls that went wrong (`faults`).

`dafny verify dfyconfig.toml` checks everything. Lemmas carry `{:induction false}` throughout, so
that each proof is the one written.

## What is modelled

**IP rotation** (`OciCloud`, `OciClient`, `RotationSafety`, `Oracle`, `RotationHistory`). The cloud is a table of public
IPs that finishes assignments, gives them up or completes detaches on its own between requests.
Requests may be applied with the reply lost; the client re-sends everything but a definite API
refusal, creates included. A run is the sequence of requests with the state each was met in.
`RotateIP` is proved safe in every run: it deletes only the ephemeral address it found, creates
only on its own private IP and only after a 404 that follows the delete, releases at most one
address and leaves at most one allocation the cloud has not itself given up. A rotation can
still fail after its create took effect (the wait for assignment may time out); the bounds cover
that too, and the next rotation finds the address on the private IP and releases it. The provider
keeps a ghost history of its rotations; `RotationHistory` proves what any chain of them, failed ones
included, does to the cloud.

**The rotator** (`Burned`, `BurnedRuns`, `Actions`, `Cloudflare`, `Nodes`, `Draws`, `Rotator`, `RotationOutcome`,
`FledReturns`, `Legs`, `Ghostctl`). Draws, rejections, probes and burning over the provider above, then the post
actions over the real DNS, node and ssh_config models. `Accounts` is what one rotation is: the
provider was asked for exactly the rotations behind its draws, as many as it reports attempts, the
cloud was sent exactly what those sent, each draw was judged against what the earlier ones left in the
store, and the store grew by what failed a probe or was fled. A run over many targets is a `Course`
of such rotations. Where the program and its documentation disagree the model follows the program:
the fled address is burned only after the draw loop, so it can be drawn again and `NewIP` may equal
`OldIP`. From any state whose target carries an address, some rotation comes back with it
(`FledCanAlwaysReturn`); one that does so before its last allowed draw exists exactly if the store does
not hold the address, or a neighbour, as burned (`FledReturnsUnlessHeldAsBurned`). All of these are
rotations the provider can perform (`AnyReplacementCanHappen`), with two inputs written out
(`CappedDrawReturnsTheFled`, `SecondDrawReturnsTheFled`); and neighbours of burned
addresses are not avoided on the last draw the cap allows, which is accepted whatever it is.
`AvoidsNeighbours` therefore speaks of draws before the cap. A write of the burned store that
breaks off leaves a file that no longer loads (`TornWriteLosesTheStore`).

**ssh_config rewriting** (`Text`, `SshConfig`, `SshConfigLaws`). The in-place editor over an array of
lines, and an independent reader. A block runs from one `Host` line to the next, as in the editor;
`Match` does not end one. Laws: read-back, frame, overwrite, byte-level survival, exact failure.

**Process supervision** (`Supervision`, `ProcessManager`). Every critical section of `Start`, `watch` and
`Stop` is one step; runs are arbitrary interleavings of them with exits and cancellations. The
deletes are by name with the lock released in between, so "one process per name" is false once
`Stop` is used (`StopCanDuplicate`); the exact balance that does hold is `Conservation`.

**Rate limiting** (`RateLimit`), **refresh tokens** (`RefreshTokens`, `AuthService`), **traffic accounting**
(`Ledger`, `Traffic`), **node liveness** (`Nodes`, `Liveness`), and **log analysis** (`Sites`, `Grouping`,
`LogReport`, `LogMeaning`, `LogAnalyzer`) follow the same pattern. Two remarks on the code: the stale sweep's
comment says that nodes added by hand are spared because their agent version is NULL, but that
column is never NULL (an absent version is stored as an empty string) and it is the NULL
heartbeat that spares them; and a refresh that mints the very string it was given, which two
calls within one second do, returns a token that is already revoked (`SameStringIsDead`).
And deactivating an account ends its logins alone: a refresh never looks at the flag, so a session
can go on for ever (`DeactivationEndsLoginsAlone`, `SessionsGoOn`).

## Model

| member | source | states |
|---|---|---|
| OciClient.Do | internal/provisioner/ociclient/client.go:113-157 | one call is 1 to 4 sends of one request; a success, or an API error below 500 other than 429, ends it at once, anything else only as the fourth; with n sends it waits n(n-1) seconds; else it ends with the context's error |
| RotationSafety.ConfinedRunIsSafe | internal/provisioner/oracle.go:136-170 | any run whose deletes name one address and whose creates name one private IP lets go of at most that address and allocates only new ephemeral addresses there, whatever is lost, late, refused or applied twice |
| RotationSafety.SurvivorIsUnique | internal/provisioner/ociclient/client.go:140-155 | allocations the cloud has not given up are one and the same, bound to the private IP, although creates are re-sent blindly |
| RotationSafety.AtMostOneAllocation | internal/provisioner/oracle.go:174-198 | allocations exceed those the cloud itself gave up by at most one |
| RotationSafety.AtMostOneRelease | internal/provisioner/oracle.go:147-156 | at most one address is let go in a rotation, the one found at its start |
| RotationSafety.OthersUntouched | internal/provisioner/oracle.go:136-170 | what other private IPs carry only ever changes by the cloud's own doing |
| Oracle.ReservedIsNeverReleased | internal/provisioner/oracle.go:143-146 | a RESERVED address attached to the target outlives every rotation, failed or not |
| Oracle.OnlyTheNewAddressIsLeft | internal/provisioner/oracle.go:136-170 | after a success nothing the target carried before is live and the new address is the only allocation left |
| Oracle.Oracle.FindTarget | internal/provisioner/oracle.go:52-94 | a successful search returns the primary private IP of the first attached primary VNIC, by reading only |
| Oracle.PrimaryVnicIsFirst | internal/provisioner/oracle.go:64-78 | the VNIC found is the first attached one that is primary, if the directory knows every attached one before it |
| Oracle.PrimaryIsFirst | internal/provisioner/oracle.go:84-93 | the private IP found is the first primary one; none is found exactly if there is none |
| Oracle.Oracle.Describe | internal/provisioner/oracle.go:52-109 | the binding found is the address bound to the target at the start, or follows an observed 404 |
| Oracle.Oracle.WaitReleased | internal/provisioner/oracle.go:201-221 | stops at the first look answered 404, returning nil exactly then, and fails only if no look was and the deadline passed or the context ended; what it sends is exactly so many client calls, at most floor(timeout/interval)+2, of at most four requests each |
| Oracle.Oracle.Allocate | internal/provisioner/oracle.go:174-198 | stops at the first create not answered by a conflict, succeeding exactly if it was granted; a conflict is returned only past the deadline; sends only the one create the target calls for, in at most floor(timeout/interval)+2 calls; success names an address new since the start |
| Oracle.Oracle.WaitAssigned | internal/provisioner/oracle.go:224-247 | the first look that shows the address attached or terminated decides: success exactly if it is attached with a text, which is returned; otherwise the deadline passed or the context ended and no look showed either; at most floor(timeout/interval)+2 calls |
| Oracle.DefaultBounds | internal/provisioner/oracle.go:27-34 | with the default timeouts that is 32 looks for the release and 42 creates and looks for the assignment |
| Oracle.Oracle.Release | internal/provisioner/oracle.go:149-155 | on success the private IP was observed bare after the delete of the address seen |
| Oracle.Oracle.RotateIP | internal/provisioner/oracle.go:136-170 | in every run: the delete, wait, create order, the safety bounds above, no write at all for a RESERVED address; on success the private IP is bound to exactly the returned address; every error has its cause in the last answer, the clock, the context or the directory; it sends at most four requests for each of 5 directory and delete calls, the VNICs listed and the three waits; it succeeds exactly if the last answer showed the address drawn attached, under the text returned, and on a failure no look ever showed one attached, no granted create was given up, no 404 for the private IP was taken for a failure and no conflict before the deadline |
| Oracle.ProtocolIsSafe | internal/provisioner/oracle.go:136-170 | a rotation that sent what the protocol sends, from a consistent cloud and with any outcome of each request, is safe in the sense of `ConfinedRunIsSafe`, and the address of a success is new and attached to the target |
| Oracle.PerformedBounds | internal/provisioner/oracle.go:136-170 | hence one rotation, failed or not, lets go of at most the one address it saw, and its allocations exceed those the cloud gave up by at most one |
| Oracle.CreatesAreItsOwn | internal/provisioner/oracle.go:174-188 | whatever a rotation creates is for its own private IP, in the compartment of that or else of the instance, under the instance's name |
| RotationHistory.OnlyTheLastIsLive | internal/provisioner/oracle.go:136-170 | after any chain of rotations whose last succeeded, its address is the only live one of all that the chain allocated and the only one on the target: every earlier one has been let go |
| RotationHistory.AtMostOneLive | internal/provisioner/oracle.go:136-170 | and at most one is live however the rotations of the chain ended |
| RotationHistory.EachFleesTheLast | internal/provisioner/oracle.go:136-156 | of two successes in a row the second saw, and reports as fled, exactly the address the first had drawn |
| RotationHistory.ReleasesWhatWasSeen | internal/provisioner/oracle.go:147-156 | what a chain lets go is among the addresses its rotations saw on the target |
| RotationHistory.OthersKeepTheirs | internal/provisioner/oracle.go:136-170 | whatever is attached to another private IP is there unchanged after the chain |
| RotationHistory.AnyReplacementCanHappen | internal/provisioner/oracle.go:136-170 | the cloud can answer so that a rotation exchanges the ephemeral address of a target for any text, its own included, and that run is one the protocol allows |
| Burned.BurnedStore.Burned | internal/provisioner/burned.go:57-94 | yes exactly when the address, or for IPv4 one in its /24, was burned within the window |
| Burned.BurnsItsSlash24 | internal/provisioner/burned.go:57-94 | one burned IPv4 address rules out exactly the addresses that share its first three numbers, for exactly the window |
| Burned.V4IsAQuad | internal/provisioner/burned.go:57-94 | the strings taken for IPv4 are the dotted quads of numbers below 256 without leading zeros |
| Burned.BurnedStore.Save | internal/provisioner/burned.go:97-122 | drops exactly the entries older than the retention and writes the rest; a write that fails leaves the file as it was or damaged, by where it failed; nothing is written without a path |
| Burned.LoadBurnedStore | internal/provisioner/burned.go:27-43 | a missing file or no path is an empty store, a readable one gives its entries, a damaged or unreadable one gives no store at all |
| BurnedRuns.PruningIsUnobservable | internal/provisioner/burned.go:20-122 | after any chronological Add, Save and Load, with writes failing or tearing as they please, a verdict over a window no longer than every retention equals that of a store that never prunes, and the two fail to load together |
| BurnedRuns.SavingIsUnobservable | internal/provisioner/burned.go:97-110 | within one process the verdict equals that of the same run without its saves |
| BurnedRuns.ShortRetentionIsObservable | internal/provisioner/burned.go:103-108 | a save that retains less than the window can lose a verdict |
| BurnedRuns.TornWriteLosesTheStore | internal/provisioner/burned.go:117-121 | once a save has broken off in its write, a process that loads the file gets no store, nor does any after it |
| Rotator.Rotator.Attempt | internal/provisioner/rotator.go:113-155 | one draw and its verdict: one rotation of the target was asked of the provider and nothing else sent to the cloud, the addresses returned are those of that rotation, and the new one is refused as burned unless it is the last, else probed, and burned exactly if the probe failed |
| Rotator.Rotator.DrawAll | internal/provisioner/rotator.go:109-156 | the loop: the provider was asked for exactly one rotation per draw, plus the failed one, and the cloud was sent exactly the concatenation of what they sent; how every draw was judged, what the store gained, and what the result records, OldIP being the first address text found |
| Rotator.Rotator.Rotate | internal/provisioner/rotator.go:98-173 | the same for the whole call, Attempts being exactly the provider rotations; the burned keys grow by exactly the failed probes and, on a nil error, the fled address; a provider error, always one the cloud gave cause for, leaves every post place alone; otherwise cloud and post places bear the new address, PostErrors is exact as in `Actions.RunAll`, and other targets were spared |
| RotationOutcome.OutcomeOfDraws | internal/provisioner/rotator.go:109-156 | Attempts is the number of draws and at most the cap; NewIP is the last draw; Rejected has Attempts-1 entries, plus one exactly when the capped draw failed its probe |
| RotationOutcome.KeptBeforeTheCap | internal/provisioner/rotator.go:127-145 | an address kept before the cap was unburned when judged and, with probing on, answered |
| RotationOutcome.OnlyTheKeptIsLive | internal/provisioner/rotator.go:109-156 | after a success no address drawn and discarded is live, nor what the target carried before: of all the rotation allocated exactly the kept one is, under the text NewIP |
| RotationOutcome.AtMostOneIsLive | internal/provisioner/rotator.go:109-156 | a rotation that failed leaves at most one live address of its own |
| RotationOutcome.EachDrawFleesTheLast | internal/provisioner/rotator.go:109-120 | every draw after the first released the address drawn before it |
| RotationOutcome.OldIPMeans | internal/provisioner/rotator.go:113-116 | OldIP is what the first draw found on the target; if that had no text, the first address drawn, when there was a second draw |
| RotationOutcome.WhatTheTargetCarriedIsBurned | internal/provisioner/rotator.go:113-161 | the address attached to the target when a successful rotation began is the one reported as OldIP, and the store holds it as burned since |
| FledReturns.EndsExactlyUnlessBurned | internal/provisioner/rotator.go:122-145 | after any discarded draws of any rotation, a draw of any text, the fled address included, can end it exactly if it is the last allowed or the store does not hold the text or a neighbour as burned |
| FledReturns.FledReturnsUnlessHeldAsBurned | internal/provisioner/rotator.go:109-161 | from any state whose target carries an address, a rotation that ends before the cap with NewIP and OldIP both that address exists exactly if the store at the start does not hold it or a neighbour as burned when it ends |
| FledReturns.FledCanAlwaysReturn | internal/provisioner/rotator.go:109-161 | whatever the store holds and the policy is, some rotation comes back with the fled address: on the first draw if it is not held as burned, on the last one allowed if it is |
| FledReturns.CappedDrawReturnsTheFled | internal/provisioner/rotator.go:122-133 | a whole rotation from a store that holds the fled address as burned: the first draw fails its probe and the capped one returns the fled address |
| FledReturns.SecondDrawReturnsTheFled | internal/provisioner/rotator.go:109-161 | a whole rotation from an empty store: the second of three allowed draws returns the fled address |
| RotationOutcome.EveryPlaceAgrees | internal/provisioner/rotator.go:163-172 | with no post errors the cloud, the DNS record, the node's address and the ssh_config lookup all equal NewIP |
| Legs.CourseCounts | cmd/ghostctl/main.go:276-287 | over a run the provider was asked for exactly the rotations its legs report, as many as their attempts add up to, and the cloud was sent exactly what those sent |
| Legs.CourseHolds | cmd/ghostctl/main.go:276-287 | at the end of a run the store holds everything any leg of it burned |
| Legs.RunAvoidsNeighbours | internal/provisioner/rotator.go:124-133 | in a run no longer than the burn window, no leg keeps, before its last allowed draw, an address in the /24 of one burned earlier in the run, by any leg |
| Legs.EveryPlaceStays | cmd/ghostctl/main.go:276-287 | every place a leg made say its address says so at the end of the run, if the later targets go by other names there |
| Legs.EveryTargetStays | cmd/ghostctl/main.go:276-287 | the cloud carries every successful leg's address at the end of the run, if the later targets are other private IPs |
| Ghostctl.RotateNext | cmd/ghostctl/main.go:280 | the leg recorded is the call: the result, the error and the draws it returned between the cloud, store and places it was met with and those it left |
| Ghostctl.RotateAll | cmd/ghostctl/main.go:276-295 | rotates every target in order, each from where the last ended and past failures: the results returned are those of a course of real rotations, failures are counted, and on every run the final store is the prune of what the legs left, and the file holds it if the save worked |
| Actions.Apply | internal/provisioner/actions.go:30-147 | fails exactly if there is something to do and it is not possible, for want of credentials or of an entry to change, or a call went wrong; a success leaves the place saying the address; nothing to do is a success that changes nothing; a failure leaves the place as it was or changed in the target's entry alone |
| Actions.Survives | internal/provisioner/actions.go:30-147 | running one action never undoes what another established for the same target, even in the same place |
| Actions.RunAll | internal/provisioner/rotator.go:163-170 | the errors exactly: each is the name of an action that was not possible or to whose place a call went wrong, every action that was not possible is named, and so is one for every place where a call went wrong; an action that applied and is not named has taken effect; what the places say for targets apart from this one is spared |
| Actions.WorkedIsNoError | internal/provisioner/rotator.go:163-170 | an action that was possible and to whose place no call went wrong is not among the errors, unless another of its name failed |
| Cloudflare.WalkFindsTheLongest | internal/provisioner/dns/cloudflare.go:123-142 | the walk finds the longest parent of at least two labels that is a zone, and fails exactly when there is none |
| Cloudflare.ZoneOfIsTheLongest | internal/provisioner/dns/cloudflare.go:115-143 | the zone of a name is that of its longest parent of two or more labels that is one, the name itself first, a trailing dot aside |
| Cloudflare.Cloudflare.ZoneFor | internal/provisioner/dns/cloudflare.go:115-143 | the cached lookup equals the uncached walk, from any cache earlier lookups left, and keeps the cache true |
| Cloudflare.Cloudflare.Upsert | internal/provisioner/dns/cloudflare.go:81-111 | success points the name's first A record at the address; nothing else changes; it fails exactly if there is no token, an API call failed, or no zone exists, and says which |
| SshConfig.EditLine | internal/provisioner/actions.go:158-181 | what the pass does with one line, in terms of its parsed directive |
| SshConfig.Keywords | internal/provisioner/actions.go:158-181 | a line is a Host or HostName directive exactly if its first field is that word in any case (for ASCII), a HostName only with a value |
| SshConfig.LongSIsFolded | internal/provisioner/actions.go:162 | beyond ASCII the long s counts as an s, as in simple case folding |
| Text.AsciiSpace | internal/provisioner/actions.go:157-162 | in ASCII the fields of a line are parted by blanks and the controls from tab to carriage return |
| SshConfig.RepointInPlace | internal/provisioner/actions.go:154-182 | the in-place pass equals the line-by-line specification, and found and hostLine mean what they say |
| SshConfig.SetSSHHostName | internal/provisioner/actions.go:151-197 | the editor computes the specified rewrite of the file |
| SshConfigLaws.SetThenLookup | internal/provisioner/actions.go:151-197 | after a success a lookup of the alias gives the new address; it fails exactly when no Host line lists the alias |
| SshConfigLaws.SetKeepsOthers | internal/provisioner/actions.go:149-150 | the lookup of every alias that shares no Host line with it is unchanged |
| SshConfigLaws.SetOverwrites | internal/provisioner/actions.go:151-197 | set after set is the last set, at string level, through both the rewrite and the insert path; hence idempotence |
| SshConfigLaws.OtherLinesSurvive | internal/provisioner/actions.go:149-196 | every other line survives byte for byte; the line count grows by one exactly when a HostName had to be added, under the last Host line of the alias |
| SshConfigLaws.OnlyHit | internal/provisioner/actions.go:191-196 | an inserted HostName is the block's only one |
| SshConfigLaws.SetInBlock | internal/provisioner/actions.go:151-197 | in a block of one Host line and one HostName, whatever the case of its keywords, the value alone is replaced |
| SshConfigLaws.SetInEmptyBlock | internal/provisioner/actions.go:191-196 | a block without a HostName gets one line, indented by four, under its Host line |
| SshConfigLaws.LowerCaseFile | internal/provisioner/actions.go:162-175 | for instance a file all in lower case is rewritten |
| SshConfigLaws.SetCanBeRepeated | internal/provisioner/actions.go:151-197 | whatever was written as the address, the alias can be rewritten again |
| Text.SplitJoin | internal/provisioner/actions.go:152-196 | splitting undoes joining for parts without the separator |
| Text.JoinSplit | internal/provisioner/actions.go:152-196 | joining undoes splitting for every string |
| Supervision.StepConserves | internal/agent/process_manager.go:36-109 | how one step of any goroutine moves the balance between processes and table |
| Supervision.Conservation | internal/agent/process_manager.go:36-109 | in every interleaving, the processes of a name whose watcher has not deleted it, plus watcher deletes that found nothing, equal its entry plus Stop deletes that removed one |
| Supervision.OutstandingBound | internal/agent/process_manager.go:82-109 | such processes number at most the completed Stop deletes plus one if tracked |
| Supervision.AtMostOneWithoutStop | internal/agent/process_manager.go:36-79 | without Stop there is at most one, it is the tracked one, and a name is tracked exactly when there is one |
| Supervision.StopCanDuplicate | internal/agent/process_manager.go:82-109 | a concrete interleaving with one Stop that ends with two running processes of one name |
| Supervision.CancelledStaysStopped | internal/agent/process_manager.go:64-79 | once a context is cancelled no process is ever started under it |
| Supervision.AbandonedKeepsItsName | internal/agent/process_manager.go:64-68 | without Stop, a process that exited under a cancelled context keeps its name tracked for ever and nothing is started for it again |
| Supervision.CancelledIsNeverReplaced | internal/agent/process_manager.go:64-79 | once the context of a process that runs or has just exited is cancelled, its watcher never forgets its name nor restarts it, and without Stop the name stays tracked to that process |
| Supervision.LiveIsReplaced | internal/agent/process_manager.go:64-79 | under a live context the watcher of an exited process goes on to start the same command again |
| Supervision.AbandonedIsReached | internal/agent/process_manager.go:64-68 | a run from the start in which a cancelled process exits and a later start of its name under a live context does nothing |
| ProcessManager.ProcessManager.Start | internal/agent/process_manager.go:36-62 | a tracked name is left alone; otherwise a process is spawned and tracked, or nothing changes |
| ProcessManager.ProcessManager.WatchDelete | internal/agent/process_manager.go:72-74 | the watcher forgets the name, whoever holds it |
| ProcessManager.ProcessManager.WatchRestart | internal/agent/process_manager.go:76-78 | the same command is started again under the same context |
| ProcessManager.ProcessManager.StopDelete | internal/agent/process_manager.go:105-107 | Stop forgets the name it looked up, whoever holds it by then |
| ProcessManager.Interleave | internal/agent/process_manager.go:23-131 | a manager driven by any schedule takes exactly the possible steps of the schedule, is in the balance above, and without Stop holds one process per tracked name |
| RateLimit.KeyInjective | internal/handler/ratelimit.go:18 | keys of colon-free limit names are distinct for distinct limits, clients (IPv6 too) or windows |
| RateLimit.ColonsCollide | internal/handler/ratelimit.go:18 | with a colon in a name two limits share a counter |
| RateLimit.CounterHoldsTally | internal/handler/ratelimit.go:20-27 | a window's counter holds exactly its counted requests and cannot expire while the window's requests still arrive |
| RateLimit.FirstRequestsOfTheWindow | internal/handler/ratelimit.go:20-33 | a request is admitted exactly if Redis did not answer or fewer than reqs of its window were counted before it |
| RateLimit.WindowAdmits | internal/handler/ratelimit.go:13-35 | each aligned window admits min(reqs, counted) requests when no answer is lost, and never more than reqs |
| RateLimit.SlidingBound | internal/handler/ratelimit.go:13-35 | any half-open span of one window's length admits at most 2*reqs |
| RateLimit.BoundIsReached | internal/handler/ratelimit.go:17 | 2*reqs requests within a nanosecond of a boundary all pass, in one span of one window, so the bound is attained |
| RateLimit.RateLimitByIP | internal/handler/ratelimit.go:15-35 | the middleware is that step on the counters, failing open |
| RateLimit.ServeAll | internal/handler/ratelimit.go:15-35 | over any requests, from an empty Redis, each window lets exactly its first reqs through, and whatever Redis did not answer |
| RefreshTokens.RevokedNeverRefreshes | internal/service/auth_service.go:125-181 | a revoked token never refreshes again in any run, even if the generator repeats the string |
| RefreshTokens.RefreshedAtMostOnce | internal/service/auth_service.go:125-163 | a token refreshes at most once more often than its revocation write was lost |
| RefreshTokens.LogoutEndsExactlyStoredTokens | internal/service/auth_service.go:165-172 | a logout that reached the database ends a token for good exactly when its row existed then |
| RefreshTokens.ReturnedTokenIsUsable | internal/service/auth_service.go:125-163 | a token returned by a register, login or refresh can be refreshed at a later time, by a call that is exhibited, exactly if its row has not expired by then and is either new and was stored or was already the user's, unrevoked, and not revoked by the same call; whether the account is active does not enter |
| RefreshTokens.SameStringIsDead | internal/service/auth_service.go:143-162 | a refresh that mints the string it was given returns a token that never refreshes |
| RefreshTokens.LiveRowsBound | internal/service/auth_service.go:42-181 | a user's unrevoked rows never outnumber successful registrations and logins plus refreshes whose revocation was lost |
| RefreshTokens.DeactivationEndsLoginsAlone | internal/service/auth_service.go:92-163 | once an account is deactivated no login of it succeeds until it is activated again, while each of its tokens can be refreshed, then and after any calls that leave the token alone, exactly if it could before |
| RefreshTokens.OnlyTheOwnerLogsIn | internal/service/auth_service.go:92-110 | in any run, every login that succeeds had the right password for the email of that very account, which was active |
| RefreshTokens.SessionsGoOn | internal/service/auth_service.go:125-163 | from one usable token any number of refreshes can follow, each of the token the one before returned and before that expires, whether the account is active or not |
| AuthService.AuthService.Register | internal/service/auth_service.go:42-90 | the call is the modelled step; a token is returned exactly if the lookup and the creation worked, no account has the email and a token was minted; the account is then active and its row stored if that works |
| AuthService.AuthService.Login | internal/service/auth_service.go:92-123 | likewise: a token exactly if the lookup worked, an active account has the email, the password matches and a token was minted; otherwise no row changes |
| AuthService.AuthService.Refresh | internal/service/auth_service.go:125-163 | likewise: a token exactly if the row is the user's, unrevoked and unexpired, the user is found and a token was minted; an accepted row is revoked, if the write works, even when the user is not found |
| AuthService.AuthService.Logout | internal/service/auth_service.go:165-172 | likewise, whether or not a row is found |
| AuthService.AuthService.SetUserActive | internal/handler/admin_handler.go:54-80 | the administrator's call sets the flag of a known account or changes nothing |
| AuthService.AuthService.StoreRefreshToken | internal/service/auth_service.go:174-181 | a row is created or nothing changes; never over an existing hash |
| Ledger.UniqueDaysKept | internal/repository/traffic_repo.go:28-56 | sequential runs keep one row per user and day |
| Ledger.RowsSumEvents | internal/repository/traffic_repo.go:28-85 | the period total grows by exactly the recorded events dated in the period |
| Ledger.UsedFollowsRows | internal/service/traffic_service.go:37-53 | bandwidth_used grows by the rows' growth less the usages whose second write failed |
| Ledger.UsedNeverOutgrowsRows | internal/service/traffic_service.go:37-53 | its growth is at most the rows', and equal exactly when no second write failed |
| Ledger.RefusalPersists | internal/service/traffic_service.go:88-104 | a quota refusal persists until the subscription changes |
| Ledger.GateReadsTheRows | internal/service/traffic_service.go:88-104 | from any table with one row per user and day and a subscription whose counter is its rows' total since a day, after any further usage of any users, the user's own without a lost second write, an unexpired user is refused exactly when the rows' total has reached the quota |
| Traffic.TrafficRepository.UpsertDaily | internal/repository/traffic_repo.go:28-56 | adds to the day's row or creates it; on an error nothing is written |
| Traffic.TrafficRepository.GetPeriodTotal | internal/repository/traffic_repo.go:71-85 | sums both columns over the user's rows from the day on; no answer if the table cannot be read |
| Ledger.PeriodTotalMeans | internal/repository/traffic_repo.go:71-85 | a row counts towards a period exactly if it is the user's and dated on its first day or later |
| Traffic.TrafficService.RecordUsage | internal/service/traffic_service.go:37-53 | the daily write first, then the running total; nil exactly when both worked or there was nothing to record |
| Traffic.TrafficService.CheckQuota | internal/service/traffic_service.go:89-104 | expired exactly if the expiry is past, exceeded exactly if not expired and the use has reached the quota, and a missing subscription passes |
| Nodes.NodeRepository.MarkStaleOffline | internal/repository/node_repo.go:135-147 | takes offline exactly the online rows whose heartbeat is more than the threshold old, and changes nothing else |
| Nodes.NodeRepository.UpdateHeartbeat | internal/repository/node_repo.go:92-112 | puts the row online with its heartbeat now and the version reported |
| Nodes.NodeService.UpdateAddress | internal/service/node_service.go:63-79 | repoints only the node's address, and only on success; the errors for an empty address and a missing node |
| Nodes.AgentServer.RegisterNode | internal/grpc/server.go:35-66 | a known address rejoins with its heartbeat untouched, any other gets a row without one, or nothing changes |
| Liveness.OnlineSinceSweep | internal/repository/node_repo.go:92-147 | in every run an online node not written since the last sweep was heard from after that sweep's cutoff |
| Liveness.HeartbeatAgeBound | internal/grpc/server.go:70-88 | with sweeps at most an interval apart its heartbeat is at most threshold plus interval old |
| Liveness.HeartbeatAgeIsReached | internal/grpc/server.go:70-88 | and that age is reached |
| Liveness.NeverHeardNeverSwept | internal/repository/node_repo.go:137-142 | a node that never sent a heartbeat is never swept |
| Liveness.RejoiningIsNotAHeartbeat | internal/grpc/server.go:36-48 | re-registering does not count: with a stale heartbeat the next sweep takes the node offline again |
| Liveness.OfflineExactlyIfFoundLate | internal/repository/node_repo.go:135-147 | in every run of heartbeats and sweeps a node that nothing else touches is offline exactly if some sweep since its last heartbeat came more than the threshold after it |
| Sites.SiteIsASuffix | scripts/analyze-vpn-traffic.sh:425-436 | a site is the canonical host or a label-aligned suffix of two or three labels |
| Sites.NeverABareSuffix | scripts/analyze-vpn-traffic.sh:141-153 | a site is never a bare public suffix unless that is the whole host |
| Sites.IdempotentUnlessEmptyLabel | scripts/analyze-vpn-traffic.sh:425-436 | the site of a site is itself exactly unless the kept suffix begins with an empty label |
| Sites.EmptyLabelChangesTheSite | scripts/analyze-vpn-traffic.sh:425-436 | an input where it is not: the site of a..com is .com, whose site is com |
| Sites.IdempotentWithoutEmptyLabels | scripts/analyze-vpn-traffic.sh:425-436 | hence idempotent on hosts without empty labels |
| Sites.SubdomainsShareTheSite | scripts/analyze-vpn-traffic.sh:430-436 | for canonical names, a subdomain shares its parent's site exactly unless the parent is a public suffix or a single label |
| Sites.NamesKeepTwoOrThree | scripts/analyze-vpn-traffic.sh:430-436 | a name of three or more labels keeps the last two, or three if the last two are a public suffix, unless it is four groups of one to three digits |
| Sites.AddressesAreWhole | scripts/analyze-vpn-traffic.sh:422-428 | four groups of one to three digits are their own site |
| Sites.ShortIsWhole | scripts/analyze-vpn-traffic.sh:428-432 | so is a host with a colon, and a name of one or two labels |
| Sites.SpellingDoesNotMatter | scripts/analyze-vpn-traffic.sh:427 | dots around a host and the case of its letters do not change its site |
| Sites.BritishHost | scripts/analyze-vpn-traffic.sh:141-153 | for instance www.bbc.co.uk is filed under bbc.co.uk |
| Grouping.FoldIsGrouping | scripts/analyze-vpn-traffic.sh:599-656 | a one-pass table holds, for every key that occurs and no other, the summary of its group |
| Grouping.CounterTotal | scripts/analyze-vpn-traffic.sh:601-605 | a counter's values sum to the number of elements counted |
| LogReport.SitesAreGroups | scripts/analyze-vpn-traffic.sh:609-656 | the site table is the events grouped by site, each group summarized |
| LogReport.ClientsAreGroups | scripts/analyze-vpn-traffic.sh:644-652 | the client table is the events grouped by client |
| LogReport.MetaIsTheLastEvents | scripts/analyze-vpn-traffic.sh:612-617 | a site's label and category are those of its last event alone |
| LogReport.ReportTables | scripts/analyze-vpn-traffic.sh:609-656 | the single pass fills every table as a pass of its own would |
| LogReport.SitesPartitionEvents | scripts/analyze-vpn-traffic.sh:619-656 | connections over all sites sum to the events, rejections to the rejected events |
| LogReport.SiteCountersBalance | scripts/analyze-vpn-traffic.sh:619-633 | within a site the host, port, network, client and hour counters each sum to its connections, outbounds to the tagged ones |
| LogReport.FirstAndLast | scripts/analyze-vpn-traffic.sh:635-638 | first and last are the minimum and maximum time, and occur |
| LogReport.TimelinePartitionsEvents | scripts/analyze-vpn-traffic.sh:710-724 | the gap-filled timeline of a sorted log sums to the events, each slot's categories to the slot |
| LogReport.SortOrders | scripts/analyze-vpn-traffic.sh:581 | sorting by time orders the events, loses and adds none, and keeps the order of those of one time |
| LogMeaning.SiteNumbers | scripts/analyze-vpn-traffic.sh:619-638 | every number of a site in the report is the number of events of that site with that host, port, network, client or full hour, or turned away |
| LogMeaning.ReportNumbers | scripts/analyze-vpn-traffic.sh:640-656 | the same for the tables over all sites; an empty outbound counts as unknown |
| LogMeaning.ClientNumbers | scripts/analyze-vpn-traffic.sh:627-652 | a client is the email, else the source, else unknown; it is listed exactly if an event is put down to it, with the number of those |
| LogMeaning.SiteIsFiledByItsLast | scripts/analyze-vpn-traffic.sh:609-617 | a site is described by its last event: as system background traffic if that went to port 53, else as its rules have it |
| LogAnalyzer.Aggregator.Add | scripts/analyze-vpn-traffic.sh:609-656 | one event updates every table as specified |
| LogAnalyzer.Aggregator.Timeline | scripts/analyze-vpn-traffic.sh:710-724 | one slot per hour from the first event's to the last one's, read from the tables |
| LogAnalyzer.Analyze | scripts/analyze-vpn-traffic.sh:581-724 | the whole pass over a log in any order, which it sorts first, and all its totals: sites, clients, ports, networks, outbounds, hours and timeline each sum to the events |
| LogAnalyzer.AnalyzeBySite | scripts/analyze-vpn-traffic.sh:609-656 | the same with hosts grouped by their registrable domain under the script's suffix list; every event's site is in the table |

## Left out

- Providers other than Oracle, and the region, status and dry-run commands: no state of their own.
- The signed HTTP exchange: signing, JSON and header handling; only what a request did and what was answered is kept. A reply without a body is modelled for public IPs, not for the directory calls, and a reply that decodes in part is a lost reply.
- The compartment checks of the cloud: the create carries the compartment the code picks, and the model's cloud does not look at it.
- OciClient.Do: a request takes effect, if at all, when it is sent; one that is lost on its way and reaches the cloud after later ones is not modelled.
- A probe: one arbitrary yes or no per draw; retries, dial errors and ports are not part of the model.
- Burned.BurnedStore.Burned: IPv4 syntax is modelled in full, while the other address forms the parser accepts are an arbitrary predicate, since only whether they parse matters.
- Burned.BurnedStore.Save: what a file holds is nothing, a store or something that does not load; a torn write that still happens to be valid JSON is not modelled.
- SshConfig.SetSSHHostName: text is Unicode scalar values, so invalid UTF-8 is not modelled; the laws about reading back need the alias and address to be single tokens.
- The temporary file behind the ssh_config replacement: the file holds the old text or the new.
- Cloudflare record ids, TTL and the proxied flag: a name's A records are a list of contents, of which the first is read and written.
- Nodes.NodeService.UpdateAddress: its read and its write are one step here; `Liveness` allows writes from stale copies.
- ProcessManager.ProcessManager.StopDelete: allowed at any time after the lookup, since the caller's context may end at any time; signals and the wait are not modelled, so a stopped process may still run.
- StopAll: a loop of Stop over the names tracked at its start, covered by the interleavings of Stop.
- RateLimit.RateLimitByIP: windows are whole seconds and positive, as every use of the limiter has them; how long a counter lives for any other is up to the rounding of the Redis client, which is not part of this model; one INCR or EXPIRE is atomic and runs within a second of the clock reading. Multiple Redis nodes and eviction are not modelled.
- RefreshTokens.RefreshedAtMostOnce: calls are sequential, SHA-256 is collision-free, and signature and expiry checks are one arbitrary answer; passwords likewise.
- Access tokens, roles and the default subscription created at registration.
- Traffic.TrafficRepository.GetPeriodTotal: the start of a period is a whole day, as the date column it is compared with.
- Integer width: byte counts and durations are unbounded integers.
- Ledger.RowsSumEvents: sequential runs; two concurrent first usages of a day could create two rows, as the table has no unique index on user and day. `GetSummary` is a plain query.
- Sites.SiteIsASuffix: lower-casing and digits are ASCII; the suffix list is a parameter of the lemmas, `SiteFor` fixes it to the script's list.
- The catalogue and keyword rules of `classify`: an arbitrary function of site and host; the rule for port 53 is modelled.
- Log parsing, rotated files, the time cutoff, and the rendering and ranking of the report.
- Node selection, transport failover, device limits and subscription links: short claims about single functions.
