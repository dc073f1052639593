# ModelPort in Dafny

This project models the stateful cores of ModelPort, a gateway in front of language-model
providers, and proves what they promise over every input, every interleaving and every run.

| modules | what they model |
|---|---|
| `SchedulerCore`, `SchedulerMachine`, `SchedulerExclusion`, `SchedulerQueues`, `SchedulerFairness`, `SchedulerWakeups`, `SchedulerTheorems`, `SchedulerExhaustion` | the local scheduler: one execution permit, two first-in-first-out queues, stored wake-ups and leases, as a step machine in which the semaphore, every lock section and every notification is a step of its own |
| `ApiKeys`, `ApiKeyCreation`, `ApiKeyLimits`, `ApiKeyIndex`, `ApiKeyLineage`, `ApiKeyRuns`, `ApiKeyTheorems`, `ApiKeyQuota`, `ApiKeyStore` | API keys: creation, two-phase rotation, tombstones, the secret index, quota subjects and limits, with saves that fail or lose their report |
| `ApiKeyRepair`, `ApiKeyRepairTheorems`, `ApiKeyReload` | the repair of loaded keys, and restarts |
| `CredentialPool`, `CredentialStore`, `Persist` | provider credentials, and saving and loading nested maps |
| `Sse`, `Redact` | the event-stream decoder and the secret redactor |
| `Json`, `Exchange`, `Anthropic`, `RoundTrip`, `ExchangeLoops` | OpenAI requests, the protocol-neutral form, and Anthropic bodies |
| `GovernancePolicy`, `Governance`, `GovernanceRuns`, `GovernanceTheorems` | policies, change requests, and many instances sharing one revisioned store |
| `Auth`, `AuthRuns`, `AuthTheorems`, `AuthStore` | users, sessions and federated identities, with logins that leave the lock in the middle |
| `Alias` | depth-bounded resolution of model aliases |
| `Common`, `Text`, `Ordered` | shared datatypes, string operations, and iteration in key order |

Code that changes state in place is given twice: as a class or a method with the source's
loops, and as the function it is proved to compute. Safety over runs is proved about those
functions. A step machine carries history that no operation reads, such as the order in
which key ids were drawn; it serves to state what must not change.

What stands outside is a parameter or is drawn fresh: clocks, random ids and secrets,
password verification, lossy UTF-8 decoding, the JSON text codec, environment variables, and
what becomes of a compare-and-swap: carried out and reported, carried out with the report
lost, or refused. The compare-and-swap itself follows src/storage.rs:171-212: it succeeds only
if the stored revision is the expected one, and then installs the document under the next
revision. Hash functions are injective by construction. Amounts in USD are non-negative
reals. Ids whose order matters are numbers.

Where the code differs from its comments, or from what a caller would expect of it, the model
follows the code:

- The comment at src/control.rs:3433-3435 says that a prepared sibling of a confirmed key is
  removed. With distinct ids it is not: the pass before it has turned the sibling into a
  tombstone, so nothing is left to remove (`ApiKeyRepair.RepairKeepsRecords`). As a
  consequence a second repair can choose that sibling over the live key
  (`ApiKeyRepairTheorems.SecondRepairCanKill`); `StableIff` says exactly when repair is
  idempotent.
- Queue ids come from a saturating counter (src/governance.rs:792). An enqueue keeps them
  distinct exactly if the next id is not taken (`SchedulerQueues.EnqueueKeepsOrderIff`), and
  enqueue number 2^64 is the first that can find it taken. What is proved of the queues
  therefore holds in all runs with at most n enqueues exactly if n is at most 2^64 - 1
  (`SchedulerExhaustion`).
- Applying a policy checks the change request in one lock section and applies it in another
  without checking again (src/governance.rs:543-560). So a change can be applied twice, and an
  older policy can replace a newer one (`GovernanceTheorems.OldPolicyCanReturn`);
  `AppliedOnceIff` says exactly when it is applied at most once.
- Text that is blank but not empty is accepted from OpenAI clients and refused from Anthropic
  ones, so the round trip of an accepted request is readable again exactly if it has none
  (`RoundTrip.RoundTrips`).

## Model

| member | source | states |
|---|---|---|
| `SchedulerCore.LocalScheduler.constructor` | src/governance.rs:694-703 | A new scheduler runs and queues nothing and estimates five seconds per request. |
| `SchedulerCore.LocalScheduler.TryStartRequest` | src/governance.rs:737-754 | The fast path counts a request as running exactly if its user has an execution slot left; a refused user keeps its zero entry. |
| `SchedulerCore.LocalScheduler.EstimateWait` | src/governance.rs:850-856 | The estimated wait is the saturated product of the service time and everything ahead: the interactive queue, for batch requests also the batch queue, and all running requests, summed by a loop. |
| `SchedulerCore.LocalScheduler.EnqueueRequest` | src/governance.rs:765-805 | A request is refused at the per-user limit first, then at the queue limit; otherwise its entry is appended under the next saturating id and its user is counted. |
| `SchedulerCore.LocalScheduler.CheckFront` | src/governance.rs:863-879 | A request may run only below its user's execution limit and at the front of its queue, a batch request only if no interactive one waits. |
| `SchedulerCore.LocalScheduler.RemoveRequest` | src/governance.rs:881-896 | Exactly the first entry with the id leaves its queue, and the user's counter drops by one, disappearing at zero. |
| `SchedulerCore.LocalScheduler.PickFront` | src/governance.rs:900-912 | The request to notify next is the first interactive one, otherwise the first batch one. |
| `SchedulerCore.LocalScheduler.CountRunning` | src/governance.rs:819-820 | A granted request is added to its user's running count. |
| `SchedulerCore.LocalScheduler.ReleaseRequest` | src/governance.rs:915-938 | Dropping a lease uncounts the user and moves the service time to four fifths of the old plus one fifth of the new, saturating. |
| `SchedulerExclusion.StepPermit` | src/governance.rs:737-848 | In any single step the permit is taken only when free and returned exactly when its holder gives it up. |
| `SchedulerExclusion.StepWithPermit` | src/governance.rs:737-754 | The holder of the permit never reaches the branch that returns it without running. |
| `SchedulerExclusion.RunsAreExclusive` | src/governance.rs:737-848 | In every state of every interleaving the permit is free exactly if nobody holds it, at most one thread does, and the running counters are those of the one live lease. |
| `SchedulerExclusion.AtMostOneLease` | src/governance.rs:737-848 | At most one lease is live, summed running counts never exceed held permits, and line 753 is unreachable. |
| `SchedulerQueues.StepEnters` | src/governance.rs:765-805 | A step that queues a request respects both limits and appends exactly its own entry under a new id. |
| `SchedulerQueues.StepElsewhere` | src/governance.rs:737-848 | No other step changes a queue, a queued counter or the id counter. |
| `SchedulerQueues.DepartedQueue` | src/governance.rs:881-896 | Leaving takes the request's own entry out of its queue and no other, and ids stay increasing. |
| `SchedulerQueues.KeepsQueueInv` | src/governance.rs:765-898 | Every step, except an enqueue under a taken id, keeps each queue's entries in one-to-one correspondence with the requests waiting in it, in increasing id order. |
| `SchedulerQueues.EnqueueKeepsOrderIff` | src/governance.rs:792-805 | One enqueue keeps the ids of its queue strictly increasing exactly if the counter is below its maximum or no entry of the queue has that id. |
| `SchedulerQueues.KeepsCountInv` | src/governance.rs:765-898 | Every step keeps `queued_by_user` equal to the user's entries in both queues. |
| `SchedulerQueues.KeepsBoundInv` | src/governance.rs:765-791 | Every step from any state within the limits keeps the per-user and both global queue limits. |
| `SchedulerFairness.KeepsHeadInv` | src/governance.rs:814-831 | A request between its front check and its removal is still at the head of its queue, whatever others do in between. |
| `SchedulerFairness.KeepsGrantInv` | src/governance.rs:814-831 | Granted ids of a queue strictly increase and never exceed an id still waiting, while new ids are distinct. |
| `SchedulerWakeups.StaysServed` | src/governance.rs:807-847 | A front request that is awake, holds a stored wake-up or is about to be notified stays so through every step of every other request. |
| `SchedulerWakeups.KeepsWakeInv` | src/governance.rs:807-847 | Every step keeps the wake-up invariant: a free permit and a waiting request never occur without a wake-up under way. |
| `SchedulerTheorems.RunsKeepInv` | src/governance.rs:730-942 | The invariants of queues, counters, heads and wake-ups hold in every state of every run in which no request entered a queue under a taken id. |
| `SchedulerTheorems.NoLostWakeup` | src/governance.rs:807-847 | Whenever the permit is free and a queue is non-empty, the front request still waits, and it has a stored notification, is between wake-up and its check, or some thread is about to notify it. |
| `SchedulerTheorems.StuckMeansAllDone` | src/governance.rs:730-942 | No deadlock: if nothing but a deadline could move any thread, every request has been answered and the permit is free. |
| `SchedulerTheorems.QueuesAreBounded` | src/governance.rs:765-791 | In every state of every run the two queue limits and the limit per user hold, also after the id counter is exhausted. |
| `SchedulerTheorems.QueueAccounting` | src/governance.rs:765-898 | In every such run counters equal queue entries and ids strictly increase. |
| `SchedulerTheorems.AccountedIffUnclashed` | src/governance.rs:765-898 | Counters and id order are right in all states of a run exactly if no enqueue used a taken id. |
| `SchedulerTheorems.FewNeverClash` | src/governance.rs:792-793 | A run with at most 2^64 - 1 enqueues never uses a taken id. |
| `SchedulerTheorems.GrantsFollowEnqueueOrder` | src/governance.rs:814-831 | In every run with at most 2^64 - 1 enqueues each queue grants in enqueue order. |
| `SchedulerTheorems.LocalStrictNeverOverflows` | src/governance.rs:756-843 | In every run an overflow to the cloud is answered only to a request that is not local-strict and has a cloud alternative. |
| `SchedulerExhaustion.FirstIsLost` | src/governance.rs:792-847 | A run with one enqueue more, in which a request is granted with the queue entry of another one that has the same id, and the other one sleeps beside a free permit with everybody else done. |
| `SchedulerExhaustion.WakesIff` | src/governance.rs:792-847 | No wake-up is lost in any run with at most n enqueues exactly if n is at most 2^64 - 1. |
| `SchedulerExhaustion.StuckMeansAllDoneIff` | src/governance.rs:792-847 | No run with at most n enqueues leaves a request asleep for good exactly if n is at most 2^64 - 1. |
| `SchedulerExhaustion.AccountedIff` | src/governance.rs:792-898 | Counters and id order are right in every run with at most n enqueues exactly if n is at most 2^64 - 1. |
| `SchedulerExhaustion.GrantsInOrderIff` | src/governance.rs:792-831 | Grants follow strict id order in every run with at most n enqueues exactly if n is at most 2^64 - 1. |
| `Sse.DrainLines` | src/http.rs:388-412 | Draining a buffer leaves it without a line feed and leaves the meaning of buffer plus everything still to come unchanged, or fails exactly as the whole stream does. |
| `Sse.FinishStream` | src/http.rs:420-470 | The end of the stream handles the unterminated line, yields the event under construction, and errs if nothing was yielded. |
| `Sse.DecodeStream` | src/http.rs:334-470 | For every way of cutting a stream within the total limit, frames and outcome are those of the whole stream; beyond the limit a prefix of its frames is yielded. |
| `Sse.LineIsStable` | src/http.rs:388-389 | The first complete line of a buffer does not depend on bytes that arrive later. |
| `Sse.PendingLimitIsFinal` | src/http.rs:549-565 | A pending line that is too long, a trailing carriage return aside, makes the whole stream fail with the line limit whatever follows, so failing early is right. |
| `Sse.FramesGrow` | src/http.rs:386-418 | Frames already yielded are a prefix of the frames of the whole stream. |
| `Sse.WrittenEventIsRead` | src/http.rs:590-643 | Round trip: the lines of an event, read back, give one frame with the same event, id, retry, comments and data. |
| `Redact.RedactAfterMarker` | src/http.rs:818-844 | The loop over the rest of the text computes one pass. |
| `Redact.RedactSecretFragments` | src/http.rs:811-816 | The three passes run in their order. |
| `Redact.CleanAfterPass` | src/http.rs:818-844 | After a pass no occurrence of its marker is followed by eight token characters, including occurrences formed by the replacement. |
| `Redact.KeepsClean` | src/http.rs:811-844 | A pass for one marker exposes no secret of another. |
| `Redact.PassFixesExactlyClean` | src/http.rs:818-844 | A pass leaves a text unchanged exactly if the text exposes no secret of its marker. |
| `Redact.RedactionIsComplete` | src/http.rs:811-816 | After all passes none of the three markers is followed by eight or more token characters, for every input. |
| `Redact.RedactionIsStable` | src/http.rs:811-816 | Redacting again changes nothing, and a text is unchanged exactly if it was clean. |
| `Redact.PassRemovesOnlySecrets` | src/http.rs:818-844 | Input and output of a pass are the same pieces in the same order, except that each secret of at least eight token characters behind a marker is replaced. |
| `Alias.ResolveRefinesFollowing` | src/config.rs:1118-1207 | Resolution returns what following aliases to the end gives if at most eight hops are needed, and the too-deep error in exactly the other cases. |
| `Alias.MeaningIsUnique` | src/config.rs:1118-1207 | Following aliases to the end has at most one result, so the refinement is exact. |
| `Alias.ResolvesChain` | src/config.rs:1118-1207 | A chain that ends after n hops resolves to its end from every starting depth that leaves room for n. |
| `Alias.LongChainIsTooDeep` | src/config.rs:1118-1207 | Every chain with more than eight hops left is reported as too deep. |
| `Alias.CyclesAreTooDeep` | src/config.rs:1118-1207 | Every chain that runs into a cycle is reported as too deep. |
| `Alias.FewAliasesTooDeepIffCycle` | src/config.rs:1118-1207 | With at most eight aliases the too-deep error means exactly that the chain is a cycle. |
| `Alias.SuccessIsConfigured` | src/config.rs:1209-1284 | Every success names a configured provider and carries that provider's own record. |
| `ApiKeyCreation.Oldest` | src/control.rs:2597-2607 | The key whose subject is shared is the minimum by creation time and then id. |
| `ApiKeyLimits.FoldGivesLeastPositive` | src/control.rs:3899-3951 | Folding stricter limits gives, field by field, the least positive limit, or zero if there is none. |
| `ApiKeyLimits.PolicyIsOrderIndependent` | src/control.rs:3899-3920 | For arbitrary loaded records the policy of a subject does not depend on the order of the records. |
| `ApiKeyLimits.FoldOfEqual` | src/control.rs:3945-3951 | Folding equal limits changes nothing. |
| `ApiKeyLimits.ApiKeyPolicyWithSubject` | src/control.rs:3899-3920 | The loop over all records computes the fold over the records of the key's subject. |
| `ApiKeyIndex.IndexAnswers` | src/control.rs:4067-4074 | The rebuilt index finds a secret exactly if some key holds it, and then the last such key in id order. |
| `ApiKeyIndex.IndexIsScanIffDistinct` | src/control.rs:4067-4074 | The index answers every secret as a linear scan over non-empty hashes does, exactly if no two keys hold one secret. |
| `ApiKeyIndex.RebuildIndex` | src/control.rs:4067-4074 | The pass over the keys in id order computes the index. |
| `ApiKeyLineage.TameKeepsInv` | src/control.rs:2650-3130 | Any change that keeps identity, links, subject and aliases, and activates no tombstone, keeps the lineage invariant. |
| `ApiKeyLineage.UpdateIsTame` | src/control.rs:2873-3054 | An update, with its subject-wide limits and its dropped replacements, is such a change. |
| `ApiKeyLineage.RevokeIsTame` | src/control.rs:2650-2672 | Revocation with its dropped replacements is such a change. |
| `ApiKeyLineage.DeleteIsTame` | src/control.rs:3092-3115 | Deletion is such a change and clears the secret. |
| `ApiKeyLineage.RotateKeepsInv` | src/control.rs:2678-2737 | Preparing a replacement keeps the invariant: the source has this one child, with its subject and all its names. |
| `ApiKeyLineage.ConfirmKeepsInv` | src/control.rs:2739-2844 | Confirming, first or repeated, keeps the invariant and hands subject and names on. |
| `ApiKeyLineage.SelfServiceKeepsInv` | src/control.rs:2593-2642 | Self-service creation merges whole lineages of the owner's user keys, never part of one. |
| `ApiKeyRuns.EffectHeirs` | src/control.rs:2236-3130 | No operation ever moves a secret to another key: a key's secret afterwards is its own or the one just drawn for it. |
| `ApiKeyRuns.StepKeepsGood` | src/control.rs:2236-3130 | Every call, whether its save is carried out, reported or refused, keeps the lineage invariant of memory and store, and the index of the keys in memory. |
| `ApiKeyRuns.RunsAreGood` | src/control.rs:2236-3130 | The invariant holds in every state of every run of all operations and restarts, with any save refused or its report lost. |
| `ApiKeyReload.ReloadIs` | src/control.rs:1162-1203 | Saving a reachable key map, loading and repairing it gives the same keys, each with its links, secret, subject, names and limits. |
| `ApiKeyReload.ReloadKeepsInv` | src/control.rs:1162-1203 | So a restart keeps the lineage invariant. |
| `ApiKeyTheorems.LineagesAreSafe` | src/control.rs:2650-2871 | In every run rotation links are acyclic, a source has at most one child, prepared or confirmed, and at most one key of a lineage is usable. |
| `ApiKeyTheorems.LineagesShareQuota` | src/control.rs:764-782 | In every run a key has the quota subject of all its ancestors and answers to the id and pseudonym of each of them. |
| `ApiKeyTheorems.AuthenticatesIff` | src/control.rs:2236-2267 | A secret authenticates through the index exactly if an active key holds it. |
| `ApiKeyTheorems.SpentSecretIsRefused` | src/control.rs:2236-2305 | In every run, once memory and store have dropped the secret of a key, it never authenticates again, whatever saves fail or lose their report and however often the program restarts. |
| `ApiKeyTheorems.TombstonesAreSpent` | src/control.rs:2770-2776 | A key that is superseded or deleted in memory has lost its secret in the store too. |
| `ApiKeyTheorems.PreparingIsInvisible` | src/control.rs:2678-2737 | Preparing a rotation changes nothing about which secrets are usable. |
| `ApiKeyTheorems.CancellingIsInvisible` | src/control.rs:2846-2871 | Neither does cancelling one. |
| `ApiKeyTheorems.CancelUndoesRotate` | src/control.rs:2846-2871 | Cancelling right after preparing restores the map without prepared replacements. |
| `ApiKeyTheorems.ConfirmHandsOver` | src/control.rs:2739-2844 | Confirming makes the replacement's secret usable and the source's unusable in one step and touches no other secret. |
| `ApiKeyTheorems.ConfirmIsIdempotent` | src/control.rs:2754-2782 | Confirming again, however late, succeeds and changes nothing. |
| `ApiKeyTheorems.RestartIsInvisible` | src/control.rs:1162-1203 | After a restart exactly the secrets of the active stored keys authenticate, the same as before unless a save lost its report. |
| `ApiKeyQuota.UpdateKeepsQuota` | src/control.rs:3006-3045 | An update leaves equal limits on all keys of every subject. |
| `ApiKeyQuota.SelfServiceKeepsQuota` | src/control.rs:2593-2642 | So does self-service creation for a user principal, and no other key ever has the shared subject. |
| `ApiKeyQuota.RunsAgreeOnLimits` | src/control.rs:2593-3045 | In every run with self-service used for user principals, keys of one subject have one owner, one principal type and equal limits, in memory and in the store. |
| `ApiKeyQuota.SubjectPolicyIsOwn` | src/control.rs:3899-3920 | In such runs the policy folded over the subject is the key's own limits, in whatever order the records come. |
| `ApiKeyStore.KeyStore.SaveOrRestore` | src/control.rs:3254-3265 | A save rebuilds the index and keeps the new state; a failed save puts keys and index back. |
| `ApiKeyStore.KeyStore.DropPending` | src/control.rs:2667-2670 | The retain pass removes exactly the replacements prepared for the source. |
| `ApiKeyStore.KeyStore.CreateApiKey` | src/control.rs:2642-2643 | Plain creation inserts the record, or nothing when the save fails. |
| `ApiKeyStore.KeyStore.OldestOf` | src/control.rs:2597-2607 | The pass for the minimum finds the oldest of the owner's user keys. |
| `ApiKeyStore.KeyStore.Shared` | src/control.rs:2608-2617 | The pass over the owner's user keys gathers the strictest limits and all aliases. |
| `ApiKeyStore.KeyStore.MergeOwn` | src/control.rs:2631-2639 | The second pass writes subject, aliases and limits to exactly the owner's user keys. |
| `ApiKeyStore.KeyStore.CreateOwnApiKey` | src/control.rs:2593-2643 | Self-service creation merges and inserts, or changes nothing when the save fails. |
| `ApiKeyStore.KeyStore.RevokeApiKey` | src/control.rs:2650-2672 | Revocation with every refusal, its early exit for deleted keys, and its rollback. |
| `ApiKeyStore.KeyStore.RotateApiKey` | src/control.rs:2678-2737 | Preparation with its refusals and its rollback. |
| `ApiKeyStore.KeyStore.ConfirmApiKeyRotation` | src/control.rs:2739-2844 | Confirmation and its retry path with refusals and rollback. |
| `ApiKeyStore.KeyStore.CancelApiKeyRotation` | src/control.rs:2846-2871 | Cancellation, its early exit for a missing replacement, and its rollback. |
| `ApiKeyStore.KeyStore.WriteSubjectLimits` | src/control.rs:3009-3038 | The pass writes the supplied limits to exactly the keys of the subject. |
| `ApiKeyStore.KeyStore.UpdateApiKey` | src/control.rs:2873-3054 | The update with its refusals, the conditional subject pass, dropped replacements and rollback. |
| `ApiKeyStore.KeyStore.BindApiKeyScope` | src/control.rs:3056-3090 | Rebinding with its refusals and rollback. |
| `ApiKeyStore.KeyStore.DeleteApiKey` | src/control.rs:3092-3115 | Deletion with its refusals, its early exit and rollback. |
| `ApiKeyStore.KeyStore.DeleteUserResources` | src/control.rs:3117-3130 | Two passes drop the user's prepared keys and revoke the rest, except deleted ones. |
| `ApiKeyStore.KeyStore.AuthenticateSecret` | src/control.rs:2236-2267 | Authentication succeeds exactly for the indexed active unexpired key, and an expired key is revoked on the way. |
| `ApiKeyRepair.Winner` | src/control.rs:3381-3405 | The winner of a source is its confirmed child with the greatest creation time and id. |
| `ApiKeyRepair.ChainOf` | src/control.rs:3350-3358 | The walk along parents ends on every parent map, cyclic or with missing ids. |
| `ApiKeyRepair.RepairRotations` | src/control.rs:3340-3445 | The passes compute the repair, and the returned flag says exactly whether the file changed. |
| `ApiKeyRepair.RepairKeepsRecords` | src/control.rs:3433-3443 | With distinct ids the final removal never removes anything: every record is fixed and marked, none dropped. |
| `ApiKeyRepairTheorems.SettledIsStable` | src/control.rs:3340-3445 | Repair is idempotent if every prepared record it turns into a tombstone is no later than a confirmed sibling. |
| `ApiKeyRepairTheorems.UntouchedIsStable` | src/control.rs:3340-3445 | In particular if no prepared record has a confirmed child or a confirmed sibling. |
| `ApiKeyRepairTheorems.StableIffSettled` | src/control.rs:3407-3431 | On files whose sources are present and whose superseded records have a confirmed child, repair is idempotent exactly under that condition. |
| `ApiKeyRepairTheorems.StableIff` | src/control.rs:3381-3431 | On every file with distinct ids, repair is idempotent exactly if no record gets another successor when the prepared records it retires count as confirmed. |
| `ApiKeyRepairTheorems.SecondRepairCanKill` | src/control.rs:3407-3431 | A file for which the second repair retires the live credential that the first one kept. |
| `ApiKeyRepairTheorems.LegacyChainsShareSubject` | src/control.rs:3349-3366 | On an acyclic file without subjects every record gets the pseudonym of the root of its chain, two records share a subject exactly if they share the root, and a key shares it with its source. |
| `ApiKeyRepairTheorems.RepairKeepsReachable` | src/control.rs:3340-3445 | On a reachable state repair keeps every secret, successor, subject, alias set and limit, and exactly the active keys stay active. |
| `ApiKeyRepairTheorems.RepairKeepsSecrets` | src/control.rs:3340-3445 | So the set of authenticating secrets of a reachable state is unchanged by repair. |
| `ApiKeyRepairTheorems.ReachableIsSettled` | src/control.rs:3340-3445 | And repairing a reachable state twice is repairing it once. |
| `CredentialPool.RunsAreValid` | src/control.rs:1606-1769 | In every run of upserts, selections, rotations and removals the active pointer exists exactly if an enabled credential does, and names one. |
| `CredentialPool.AvailableIffSelectable` | src/control.rs:2071-2100 | A pool that is not manual is available exactly if selection succeeds with a usable credential; a manual one, exactly if the selected credential has its key set. |
| `CredentialPool.PickIsEnabled` | src/control.rs:3564-3611 | Selection never returns a disabled credential, and outside manual mode never an unusable one. |
| `CredentialPool.TargetIsUsable` | src/control.rs:3678-3709 | Rotation moves to a usable credential other than the active one, exactly if there is one. |
| `CredentialPool.CooldownIff` | src/control.rs:3525-3553 | After any sequence of outcomes a credential has a cooldown exactly if since its last success it failed in a way that rotates, or for the third time in a row in a way that counts. |
| `CredentialPool.PickFollows` | src/control.rs:3620-3638 | Round robin moves to the next candidate in order, and from the last to the first. |
| `CredentialPool.RoundRobinIsFair` | src/control.rs:3620-3638 | While the same n credentials are usable, any n consecutive selections pick each exactly once, whatever was active before. |
| `CredentialStore.UsableInOrder` | src/control.rs:3572-3578 | The filter collects the usable credentials in id order. |
| `CredentialStore.FirstEnabled` | src/control.rs:3711-3721 | The search finds the first enabled credential apart from an excluded one. |
| `CredentialStore.ProviderPool.UpsertCredential` | src/control.rs:1606-1659 | Upsert keeps the creation time, repairs the active pointer, and rolls back on a failed save. |
| `CredentialStore.ProviderPool.SetActiveCredential` | src/control.rs:1683-1712 | Only an existing enabled credential becomes active. |
| `CredentialStore.ProviderPool.DeleteCredential` | src/control.rs:1715-1769 | Removal moves the active pointer, forgets the cooldown, and resets the mode of an emptied pool. |
| `CredentialStore.ProviderPool.SelectCredential` | src/control.rs:3564-3611 | Selection in each mode, with the remembered choice. |
| `CredentialStore.ProviderPool.RecordHealth` | src/control.rs:3511-3556 | An outcome updates failure count and cooldown in place: a success ends the cooldown, a failure that starts none leaves it. |
| `CredentialStore.ProviderPool.RecordProviderOutcome` | src/control.rs:2162-2209 | The outcome is recorded, and after a failure that rotates the pool moves only to another usable credential. |
| `Persist.FlattenHolds` | src/control.rs:3280-3316 | The saved list holds exactly the records of the nested map. |
| `Persist.LoadRestoresIffTidy` | src/control.rs:1166-1193 | Saving and regrouping restores a nested map exactly if no inner map is empty and every record is under its own names. |
| `Persist.SaveThenLoadIsIdentity` | src/control.rs:1166-1203 | Whatever was inserted and removed before, saving then loading is the identity. |
| `Persist.FlattenAll` | src/control.rs:3296-3312 | The nested passes compute the flat list. |
| `Persist.RegroupAll` | src/control.rs:1166-1193 | The pass over the list computes the nested map; of two records with the same names the later wins. |
| `Exchange.ParsedIsWellFormed` | src/exchange.rs:188-285 | Every accepted OpenAI request has one non-empty text per system, developer and user turn, one result per tool turn, and non-blank call ids and names. |
| `RoundTrip.BlockBack` | src/exchange.rs:1179-1222 | Each written content block is read back as the same part, or rejected exactly if its text or result id is blank. |
| `RoundTrip.MessagesBack` | src/exchange.rs:622-691 | Writing the messages succeeds exactly if all tool arguments are JSON objects, and reading them back gives the same turns and parts in order. |
| `RoundTrip.ToolsBack` | src/exchange.rs:724-741 | Tools come back with name, description and schema. |
| `RoundTrip.ChoiceBack` | src/exchange.rs:742-767 | Tool choice and parallel flag come back. |
| `RoundTrip.RoundTrips` | src/exchange.rs:611-767 | For every accepted OpenAI request: writing succeeds exactly if all arguments are JSON objects; parsing the body succeeds exactly if no text and no result id is blank, and gives exactly the expected request. |
| `RoundTrip.ArgumentsMeanTheSame` | src/exchange.rs:648-665 | Tool arguments come back as text for the same JSON value. |
| `RoundTrip.FaithfulRoundTrip` | src/exchange.rs:482-545 | If the fidelity check passes too, the turns come back one for one behind the joined system text, and unless tools are disabled so do tools and parallel flag. |
| `ExchangeLoops.OpenAiTextContent` | src/exchange.rs:1404-1434 | The loop concatenates the texts of all blocks and fails at the first unsupported one. |
| `ExchangeLoops.OpenAiMessage` | src/exchange.rs:1022-1157 | The message parser with its loop over tool calls. |
| `ExchangeLoops.TextOf` | src/exchange.rs:1436-1465 | The recursive text extraction with its local accumulator. |
| `ExchangeLoops.AnthropicMessage` | src/exchange.rs:1159-1229 | The Anthropic message parser with its loop over blocks. |
| `ExchangeLoops.AnthropicBody` | src/exchange.rs:611-767 | The single pass that fills system parts and conversation writes the body. |
| `GovernancePolicy.EffectiveModeIsBounded` | src/governance.rs:202-213 | A mode is granted exactly if the data forces local routing or the request stays within the maximum, and never exceeds the maximum. |
| `GovernancePolicy.StaysLocalStrict` | src/governance.rs:202-213 | Unknown or sensitive data, or a valid policy without cloud, yields local-strict. |
| `GovernancePolicy.TenantKeysAreDistinct` | src/governance.rs:1060-1062 | Two tenants with valid identifiers never share a policy key. |
| `GovernancePolicy.StrictOrderIsLocal` | src/governance.rs:944-962 | Local-strict keeps exactly the local attempts in their order. |
| `GovernancePolicy.OtherOrdersPermute` | src/governance.rs:944-962 | Every other mode permutes the attempts and keeps the order within each side. |
| `GovernancePolicy.OrderAttempts` | src/governance.rs:944-962 | The loop that splits the attempts computes that order. |
| `GovernancePolicy.FailClosedIsLocal` | src/governance.rs:215-251 | The default policy lets exactly the local attempts through. |
| `GovernancePolicy.TriesOnlyLocal` | src/routes/client_api.rs:731-748 | Under local-strict, or without cloud, exactly the local attempts the policy allows are tried, in their order, whatever else the policy says. |
| `Governance.EffectivePolicyIsOwn` | src/governance.rs:336-348 | A tenant is governed by a valid policy of its own or by the closed default. |
| `Governance.NewRequestOk` | src/governance.rs:391-410 | A new request carries exactly one approval, the requester's. |
| `Governance.ApproveKeepsOk` | src/governance.rs:420-456 | An approval keeps approvers distinct and makes the status count them. |
| `Governance.ApplyPolicyKeepsOk` | src/governance.rs:537-565 | Applying a policy keeps every stored policy valid and under its own key. |
| `Governance.VerifiedIsApproved` | src/governance.rs:486-504 | A verified change has the action, target and payload asked for and the approval of two different administrators. |
| `Governance.GovernanceStore.SaveOrRestore` | src/governance.rs:567-587 | Document and revision advance together, or the previous document comes back. |
| `Governance.GovernanceStore.CreateChangeRequest` | src/governance.rs:383-418 | A valid input becomes a request with the requester's own approval; nothing changes otherwise. |
| `Governance.GovernanceStore.ApproveChangeRequest` | src/governance.rs:420-456 | Approval with its three refusals, the search for an earlier approval, and rollback. |
| `Governance.GovernanceStore.MarkChangeApplied` | src/governance.rs:510-535 | Marking applied with the approvals required by the mode, and rollback. |
| `Governance.GovernanceStore.FinishPolicy` | src/governance.rs:537-565 | The second lock section of applying a policy under the caller's request id, including the memory it would leave behind if the request were gone. |
| `GovernanceRuns.CurrentMeansSame` | src/governance.rs:567-587 | An instance at the stored revision holds exactly the stored document. |
| `GovernanceRuns.ErrorsLeaveMemory` | src/governance.rs:537-565 | The not-found exit of applying a policy, which would leave an unsaved policy in memory, is unreachable. |
| `GovernanceRuns.StepKeepsInv` | src/governance.rs:411-587 | Every step of any instance, and any document an outside writer brings in, keeps the history of the store in order. |
| `GovernanceRuns.RunsKeepInv` | src/governance.rs:411-587 | And so does every run from any stored document, also when a write takes effect but reports failure. |
| `GovernanceRuns.OrderlyRunsKeepDocs` | src/governance.rs:391-565 | If nothing out of order comes in from outside, every stored document and every memory has valid policies under their own keys, distinct approvers and a status that counts them. |
| `GovernanceTheorems.StaleNeverCommits` | src/governance.rs:567-587 | A stale instance never changes the store. |
| `GovernanceTheorems.NoLostUpdates` | src/governance.rs:567-587 | In every run, from any document and with any outside writes, each document an instance committed is its change applied to the document just before. |
| `GovernanceTheorems.HistoryReplays` | src/governance.rs:411-587 | Between outside writes the stored document is all committed changes in sequence. |
| `GovernanceTheorems.LogsGrow` | src/governance.rs:567-587 | A committed document is never rewritten. |
| `GovernanceTheorems.AppliedOnceIff` | src/governance.rs:551-560 | A change is applied at most once exactly if no policy change is committed on a document that has it as applied: the check the second lock section does not repeat. |
| `GovernanceTheorems.OldPolicyCanReturn` | src/governance.rs:543-560 | A run in which two calls have checked the same change before either applies it, so that it is applied twice and its older policy replaces a newer one. |
| `GovernanceTheorems.TwoPersonRule` | src/governance.rs:462-565 | Where dual approval is required throughout, no change is ever applied, in memory or in the store, without the approval of two different administrators. |
| `GovernanceTheorems.DataStaysLocal` | src/routes/client_api.rs:641-905 | Whatever document is stored: unknown or sensitive data, or a project without cloud, is tried on exactly the allowed local providers in their order, and no scheduler run ever answers such a request with an overflow to the cloud. |
| `GovernanceTheorems.LocalModeOverRuns` | src/governance.rs:202-213 | In every run into which nothing out of order comes, every instance grants such requests local-strict mode and no other. |
| `AuthRuns.UpdateKeepsSessions` | src/auth.rs:652-729 | An update leaves no session whose user, role or password is not the one it was issued for. |
| `AuthRuns.BindingIsUnique` | src/auth.rs:943-960 | With bindings in order the lookup finds the one bound user and never reports a duplicate. |
| `AuthRuns.BeginFederatedKeeps` | src/auth.rs:369-435 | The first half of a federated login binds an identity only to a user nobody else is bound as. |
| `AuthRuns.EndFederatedKeeps` | src/auth.rs:448-477 | The second half, after the lock gap, creates a user only under a free name and an unbound identity. |
| `AuthRuns.StepKeepsInv` | src/auth.rs:265-762 | Every step, whether its save is carried out, reported or refused, keeps sessions, names and bindings in order. |
| `AuthRuns.RunsKeepInv` | src/auth.rs:265-762 | In every interleaving, restarts and lost reports included, each session names an existing active user with the role and password hash it was issued for, and in memory and store usernames are distinct without regard to case and no identity is bound twice. |
| `AuthTheorems.AdminsPersist` | src/auth.rs:652-762 | Once there is an active admin in memory and in the store there always is one in both. |
| `AuthTheorems.LoginNeedsCurrentPassword` | src/auth.rs:313-329 | A session is issued only if the password verifies against the hash the user has at that moment, and the user is active then. |
| `AuthTheorems.DuplicateBindingIsUnreachable` | src/auth.rs:954-958 | In every run the error for a doubly bound identity is unreachable. |
| `AuthTheorems.SessionsAreAccepted` | src/auth.rs:520-543 | In every run a stored unexpired session is accepted as its user, with the role and password of its issue. |
| `AuthTheorems.IssuedIsFinal` | src/auth.rs:337-351 | What a token was issued for never changes. |
| `AuthTheorems.UpdateEndsSessions` | src/auth.rs:704-727 | After an update a session remains exactly if it is another user's, or role and password are unchanged and the user is active. |
| `AuthStore.FindNamed` | src/auth.rs:285-289 | The search finds the first user with the name, without regard to case. |
| `AuthStore.CountActiveAdmins` | src/auth.rs:685-697 | The pass counts the active admins. |
| `AuthStore.BoundUserId` | src/auth.rs:943-960 | The search reports an error exactly if two users are bound to the identity. |
| `AuthStore.Store.BeginLogin` | src/auth.rs:272-290 | The first lock section prunes sessions and takes a snapshot of the user. |
| `AuthStore.Store.EndLogin` | src/auth.rs:307-351 | The second lock section checks the snapshot again, issues a session, and rolls back on a failed save. |
| `AuthStore.Store.BeginFederatedLogin` | src/auth.rs:369-439 | The first lock section of a federated login: bound user, verified email, or a user to create. |
| `AuthStore.Store.EndFederatedLogin` | src/auth.rs:448-477 | The second lock section repeats every check before creating the user. |
| `AuthStore.Store.CreateUser` | src/auth.rs:612-650 | A user is created only under a free name. |
| `AuthStore.Store.UpdateUser` | src/auth.rs:652-729 | The update with its refusals, its session pass and rollback. |
| `AuthStore.Store.DeleteUser` | src/auth.rs:731-762 | Deletion with its refusals, its session pass and rollback. |

## Left out

- SchedulerTheorems.RunsKeepInv: the accepted configuration fixes one execution slot and two queued requests per user, sixteen interactive places and five seconds, as `from_env` does; other configurations are refused at start.
- SchedulerTheorems.NoLostWakeup: a request whose future is dropped between enqueueing and its answer is outside the model; the source has no guard there.
- ApiKeyRepairTheorems.StableIff: for files with distinct ids; a hand-edited file with one id twice is outside it.
- ApiKeyRepair.RepairRotations: alias lists are sets, so a file whose only defect is the order or repetition of aliases is not reported as changed.
- ApiKeyRepairTheorems.RepairKeepsReachable: alias lists are sets, so sorting and removing duplicates from a hand-edited list is not seen as a change.
- ApiKeyQuota.RunsAgreeOnLimits: only for runs in which self-service creation is used for user principals, as its route does (src/routes/admin_api_keys.rs:95-145).
- ApiKeyStore.KeyStore.CreateApiKey: the field checks, the active-key limit and the team lookup before the record is built are not modelled.
- ApiKeyStore.KeyStore.CreateOwnApiKey: the active-key limit per user is not modelled.
- ApiKeyStore.KeyStore.BindApiKeyScope: the scope is one text; its normalisation and the errors of that are not modelled.
- ApiKeyStore.KeyStore.DeleteUserResources: the removal of the user's quotas is not modelled.
- ApiKeyStore.KeyStore.UpdateApiKey: profile fields that no other operation reads are one text, and their syntactic checks are not modelled.
- ApiKeyStore.KeyStore.AuthenticateSecret: the check that the key's team is active, the last-used time and the identity built from the record are not modelled.
- ApiKeyTheorems.AuthenticatesIff: expiry and the check that the key's team is active come after the lookup it describes; the first is in `AuthenticateSecret`, the second is not modelled.
- ApiKeyLimits.ApiKeyPolicyWithSubject: the allowlists that a team contributes to a policy are not modelled.
- CredentialStore.ProviderPool.RecordProviderOutcome: how a status and an error text become a kind of failure is a parameter; the health of the provider as a whole and the totals for display are not modelled.
- Persist.SaveThenLoadIsIdentity: loading also redacts the error texts stored in tests and health records (src/control.rs:3319-3334); those texts are not part of the model.
- Persist.RegroupAll: the flat maps keyed by one id (teams, quotas, tests, health, overrides) are the simpler case of the same pass and are not repeated.
- GovernancePolicy.OrderAttempts: the host of a provider's URL and the address it reads as are given, because URL and address parsing are library calls; which hosts and addresses are local is modelled.
- Governance.GovernanceStore.CreateChangeRequest: lengths are counted in characters, where the source counts UTF-8 bytes, and the size of the serialised payload is given.
- AuthStore.Store.CreateUser: the syntactic checks of names, emails, roles and passwords before the lock is taken are not modelled.
- AuthStore.Store.BeginLogin: the early exit of a name that is locked out is not modelled; `EndLogin` checks the lock again.
- AuthStore.Store.EndLogin: whether a name is locked out after failed attempts is a parameter; the table of attempts is not modelled.
- RoundTrip.RoundTrips: error texts, provider capability checks and the reasoning fields are not modelled.
- Responses and streams sent back to clients, and Anthropic requests rewritten for OpenAI providers: their conversion lives outside the files modelled here.
- Provider overrides, routing configuration, quotas in use, teams, metrics, status pages and the dashboard: counters, lookups and field-wise merges that would only add easy members.
- HTTP transport, DNS, TLS, timeouts, PostgreSQL, command line and environment parsing: calls into libraries and the operating system.
- src/finalization.rs: a smaller form of the scheduler's wake-up pattern.
