# Nephe: a model of policy enforcement in public clouds

Nephe turns Antrea NetworkPolicies into AWS and Azure security groups. This project models the parts of
it that are hard to get right, and proves what they keep. `dafny verify dfyconfig.toml` checks all of it.

- **The life of security groups** (`GroupLifecycle`, its `…Proofs`, `GroupController`, `PendingQueue`,
  `PendingGroups`). All groups sharing a name, one per VPC, are one state: objects, index, retry queue,
  deferred-delete item, calls in flight. Every routine of the controller is a step on that state; what the
  routine reads from elsewhere is part of the event, so a statement about every run covers every
  environment. A finished cloud call is one atomic step. `GroupController` has the same routines as code
  that assigns fields and loops; its `Handle` and `Drive` keep what is proved of every run.
- **Rule reconciliation** (`CloudRules`, `Reconcile`, `RuleUpdates`, `AddressRefs`, `CloudSync`,
  `Expansion`). The hash of a rule is taken as an injective function of rule and group, so the
  realized-rule index of one group is a map from rules to owners. The cloud is a second such map that
  changes when a call succeeds.
- **AWS** (`AwsNics`, `AwsPermissions`, `AwsRuleUpdate`, `AwsConverters`, `AwsMeaning`, `Matching`).
- **Azure** (`AzureMerge`, `AzureEffective`, `AzureRuns`, `AzureOrder`, `AzureConverters`, `AzureMeaning`), with
  `Priorities`, `Descriptions` and `Decimals` for the number that travels in a rule's description.
- **Selectors** (`Selectors`, `SelectorQueries`, `SelectorProofs`, `SelectorIndex`, `SelectorLink`).

What a rule means is defined once, as the traffic it is about (`CloudRules`), and carried all the way: from
the policy as it is written to the expanded rules (`ExpansionMeansPolicy`), to the rules of one group
(`GroupRulesMeanPolicy`), and to what the cloud admits (`PolicyReachesAws`, `PolicyReachesAzure`).

Properties that turned out false of the code are stated as such, with an input and with the exact
condition under which the code meets them:

- A failed "clear members" of an address group panics when it is retried (`StepPanics`,
  `AddressControllerPanics`).
- A name that is deleted before any of its groups is in the cloud leaves a deferred-delete item that waits
  for a delete nobody issued; the name never comes back (`NameWaits`, `DeletionKillsName`,
  `NameStaysDeleted`).
- A rule update that answers after the deletion of its group started puts the garbage group back into the
  index, unless a retry it sets off re-indexes the VPC (`IndexBreaksExactly`); with no other group there the
  VPC gets no group of that name again, whatever happens (`LateAnswerIsFinal`, `LateRulesShutVpc`).
- An event that both adds and removes a member leaves it in the group or not, depending on what was there
  (`MembersMergeExactly`, `NewMemberVanishes`).
- A retry in its last try is forgotten when another operation of the VPC succeeds, so that it starts over with
  all retries when that try fails (`OtherSuccessForgetsLastTry`, `LastTryIsForgotten`).
- The loop hangs when a policy comes for a busy group whose queue of fifty is full (`BlocksWhenFull`,
  `HangsFromStart`).
- Fractional policy priorities can cross (`PoliciesApart`, `FractionalPoliciesCross`).
- Synchronization repairs the set of rules, not their owners (`OwnersAreTheClouds`).
- A failed AWS update is undone only if the revoked permissions were there and no addition repeats one of
  the cloud (`RollbackRestores`).
- A rule of another applied-to group that was numbered 4096 is dropped by the next update of any group
  (`OthersStayBelowDeny`, `CapacityProtectsOthers`).
- Blank matches the webhook accepts select nothing although they mean everything
  (`AwsCompilationIsFaithful`).
- Machine ids that differ in case make the look-up of selectors depend on the order of the index
  (`IdLookupIsClear`, `MixedCaseIsAmbiguous`); the admission hook that lower-cases selectors works on copies of the machine
  matches and leaves them as they are.
- Some ICMP rules, rules about every address, and priorities with more than four decimals do not survive
  the way to the cloud and back (both `RuleRoundTrip`).

Where the code and its documentation disagree the code is followed: the type documentation of selectors
says an unspecified match matches everything, and both query builders make no query for it.

## Model

| member | source | states |
|---|---|---|
| `GroupLifecycleProofs.DeletionDominates` | pkg/controllers/networkpolicy/networkpolicy.go:406-534 | Over every run a group moves only INIT to CREATED to GARBAGE or INIT to GARBAGE; in GARBAGE nothing but the deletion is retried and no call but deletes is issued, whatever late responses, retries and policy events come; no delete is issued before. |
| `GroupLifecycleProofs.StepKeeps` | pkg/controllers/networkpolicy/networkpolicy.go:600-653 | One event of any kind (group event, response, retry sweep, policy, dropped reference) keeps that for every object. |
| `GroupLifecycleProofs.RetryUpdateKeeps` | pkg/controllers/networkpolicy/pendingitem.go:260-320 | Running a retry when a response arrives keeps it: a garbage group redoes nothing but its deletion. |
| `GroupLifecycleProofs.NotifyKeeps` | pkg/controllers/networkpolicy/networkpolicy.go:1238-1292 | A late response of any operation keeps it, success actions, retry bookkeeping and drained policies included. |
| `GroupReplayProofs.ReplaysAreFaithful` | pkg/controllers/networkpolicy/pendingitem.go:93-256 | Over every run the deferred-delete item counts exactly the deletes in flight for its name in all VPCs (no item: none); its added members are the fold of the events it deferred, disjoint from the removed ones; every replay had those members and no delete in flight. |
| `GroupReplayProofs.ReplayTakesItemOut` | pkg/controllers/networkpolicy/pendingitem.go:178-256 | Members are replayed exactly when the last delete answers, will not be retried and something was added; the item leaves the queue exactly when the last delete answers and will not be retried. |
| `GroupReplayProofs.DeleteAnsweredDefers` | pkg/controllers/networkpolicy/networkpolicy.go:515-534 | Taking an answered delete off the count restores the exact count, and a replay it triggers is faithful. |
| `GroupReplayProofs.CoalesceFaithful` | pkg/controllers/networkpolicy/pendingitem.go:195-238 | Coalescing one more event keeps the item equal to the fold of its events and its two member sets disjoint. |
| `GroupReplayProofs.CoalescingIs` | pkg/controllers/networkpolicy/pendingitem.go:195-238 | A fresh item that coalesces any events holds those since the last deletion: their fold as added members, as removed ones exactly those removed while not there and not added since, and the type of the first event. |
| `GroupReplayProofs.DeferredEventsFold` | pkg/controllers/networkpolicy/controller.go:245-249 | Over every run in which the item stays queued its members become exactly what the group events of the run, deletions included, make of them; no other event touches them. |
| `GroupReplayProofs.EveryRunFromStart` | pkg/controllers/networkpolicy/controller.go:509-581 | Both families of invariants hold of every run of a controller that has just started. |
| `GroupMemberProofs.EventIsFollowed` | pkg/controllers/networkpolicy/controller.go:250-360 | A group event, not deferred and with all machines known, in every VPC: the group gets the added members of the VPC and loses the removed ones, nothing else of it changes, and the cloud is told with one more membership call exactly if the group is there, something changed and nothing is retried; where there was no group the added members make one, created with one call. |
| `GroupMemberProofs.MembersMergeExactly` | pkg/controllers/networkpolicy/controller.go:250-360 | For events that both add and remove a member: the members are those before, without the removed, with the added ones, exactly unless that member is in a new group or one that already has exactly the added members; there it ends up removed. |
| `GroupMemberProofs.NewMemberVanishes` | pkg/controllers/networkpolicy/controller.go:308-358 | From the start: a member that its first event both adds and removes ends up in no group. |
| `GroupMemberProofs.UnknownMembersWait` | pkg/controllers/networkpolicy/controller.go:250-275 | An event with a machine that is not known yet changes nothing. |
| `GroupMemberProofs.ReplayIsFollowed` | pkg/controllers/networkpolicy/pendingitem.go:178-193 | When the last delete answers, the deferred events are followed in every VPC like one event that adds their fold: where the group is gone the new one has exactly those members. |
| `GroupFollowProofs.MembersFollowEvents` | pkg/controllers/networkpolicy/controller.go:225-360 | From the start, over every run without deletion, whatever answers, failures, retries and policies come in between: the group of each VPC has exactly the members of that VPC that the group events taken in leave, one after the other. |
| `GroupRetryProofs.FailedCallIsRetried` | pkg/controllers/networkpolicy/pendingitem.go:137-159 | A call that fails is made again after each of the first three failures, whatever policies and other calls are around; after the fourth the operation is given up and the group is free. |
| `GroupRetryProofs.FailureWaits` | pkg/controllers/networkpolicy/networkpolicy.go:515-534 | A failure queues its operation with three retries, or leaves it queued with those it has, and makes no call. |
| `GroupRetryProofs.SweepRedoes` | pkg/controllers/networkpolicy/pendingitem.go:260-281 | A sweep makes exactly the call of the failed operation again and takes one retry off. |
| `GroupRetryProofs.SweepGivesUp` | pkg/controllers/networkpolicy/pendingitem.go:137-159 | With no retry left the next sweep drops the item: nothing is called and the group is free. |
| `GroupRetryProofs.SweepLeavesRetry` | pkg/controllers/networkpolicy/pendingitem.go:283-298 | A sweep leaves a retry that is under way alone. |
| `GroupRetryProofs.SuccessEndsRetries` | pkg/controllers/networkpolicy/pendingitem.go:283-320 | A retry that goes through is the last: the item leaves the queue and nothing is retried for the group, success actions, replays and drained policies included. |
| `GroupRetryProofs.OtherSuccessForgetsLastTry` | pkg/controllers/networkpolicy/pendingitem.go:93-119 | A retry under way goes on when another operation of its VPC succeeds, exactly while it has retries left; in its last try it is forgotten. |
| `GroupRetryProofs.LastTryIsForgotten` | pkg/controllers/networkpolicy/pendingitem.go:93-119 | Runs that lead there: after three failures of any call, the success of another call of the group leaves nothing retried although the last try is under way. |
| `GroupRetryProofs.RetryHoldsBack` | pkg/controllers/networkpolicy/networkpolicy.go:379-512 | While something is retried for a group no event makes another call for it; its members still change. |
| `GroupRetryProofs.FailedDeletionReleases` | pkg/controllers/networkpolicy/networkpolicy.go:515-534 | When a retried deletion fails, the name is released exactly if that was its last retry and no other delete is in flight. |
| `GroupRuleProofs.GroupComesIntoUse` | pkg/controllers/networkpolicy/networkpolicy.go:1238-1292 | Whatever else is in flight, a group being created ends up with its rules and then its members realized, and no call left over. |
| `GroupRuleProofs.GroupGoesOutOfUse` | pkg/controllers/networkpolicy/networkpolicy.go:880-896 | When its last policy goes, a group in use loses its members in the cloud, and after that its rules count as gone. |
| `GroupRuleProofs.RulesAnswered` | pkg/controllers/networkpolicy/networkpolicy.go:1268-1276 | Rules realized, the members follow with one call, unless they are there or there are none; the group is in the index. |
| `GroupRuleProofs.ClearAnswered` | pkg/controllers/networkpolicy/networkpolicy.go:1277-1282 | Members taken off, the rules are updated again if policies are there, and count as gone if not. |
| `GroupRuleProofs.RulesStartExactly` | pkg/controllers/networkpolicy/networkpolicy.go:804-862 | A policy makes the rules change in the cloud exactly if it has a delta, for a group that exists, is not to be deleted, has nothing retried and no update under way. |
| `GroupRuleProofs.PolicyFails` | pkg/controllers/networkpolicy/networkpolicy.go:841-847 | A policy that cannot be realized starts nothing and marks the group as failed. |
| `GroupRuleProofs.BusyWaits` | pkg/controllers/networkpolicy/networkpolicy.go:820-824 | While a rule update is under way no other starts. |
| `GroupStuckProofs.StepPanics` | pkg/controllers/networkpolicy/pendingitem.go:260-281 | A step makes the controller panic exactly when an address group waits to retry clearing its members or updating rules and either a sweep finds tries left, or a successful answer in its VPC leaves that operation to be retried; no other event ever does. |
| `GroupStuckProofs.AddressControllerPanics` | pkg/controllers/networkpolicy/networkpolicy.go:503-510 | A run from the start that ends in the panic: create, last member leaves, the membership call fails (and answers "clear members"), sweep. |
| `GroupStuckProofs.AppliedToNeverPanics` | pkg/controllers/networkpolicy/pendingitem.go:260-281 | The controller of applied-to groups never panics, whatever the run. |
| `GroupNameProofs.DeleteIssued` | pkg/controllers/networkpolicy/networkpolicy.go:406-482 | Deleting a group always queues the deferred-delete item, and issues a cloud delete exactly when nothing refers to the group and its creation succeeded or is under way (or it is garbage and not waiting for a retry). |
| `GroupNameProofs.NameWaits` | pkg/controllers/networkpolicy/controller.go:245-249 | For every state with no item queued: deleting the name leaves it waiting with no delete in flight exactly when it has a group to delete in some VPC and the deletion reaches the cloud in none. |
| `GroupNameProofs.AppliedToNameWaits` | pkg/controllers/networkpolicy/networkpolicy.go:406-456 | For applied-to groups that is: exactly when the name has groups and none of them is in the cloud or being created. |
| `GroupNameProofs.DeletionIsExact` | pkg/controllers/networkpolicy/networkpolicy.go:406-482 | A deleted name, VPC by VPC: an address group marked for re-use stays untouched, one still referred to is only marked, any other leaves the index and is garbage exactly if its creation succeeded or is under way. |
| `GroupDeadProofs.DeletionKillsName` | pkg/controllers/networkpolicy/networkpolicy.go:413-456 | For both kinds of group, while no other deletion is to come: deleting a name kills it exactly when it has groups to delete, none of them is in the cloud or being created, and none is put off because something refers to it; killed, it never gets a group again and nothing deferred is ever replayed, whatever events follow. |
| `GroupDeadProofs.DeadForever` | pkg/controllers/networkpolicy/controller.go:245-249 | A name of either kind that waits with no delete in flight, none to be retried and no address group waiting to be released stays so over every run: no group is made and nothing replayed. |
| `GroupStuckProofs.NameStaysDeleted` | pkg/controllers/networkpolicy/networkpolicy.go:413-456 | A run from the start that ends there: the creation fails, the group is deleted, and nothing that follows brings the name back. |
| `GroupStuckProofs.ItemWaits` | pkg/controllers/networkpolicy/controller.go:245-249 | A queued item stays queued, absorbing group events, in every run in which no delete answers. |
| `GroupIndexProofs.IndexStaysClean` | pkg/controllers/networkpolicy/networkpolicy.go:1128-1146 | A run that starts with no garbage group indexed has none indexed at any point, exactly when no step of it is such an answer. |
| `GroupIndexProofs.IndexBreaksExactly` | pkg/controllers/networkpolicy/networkpolicy.go:1262-1276 | For every step: a garbage group gets into a clean index exactly when the step is the successful answer of a rule update for a group already marked for garbage collection and the retry that answer sets off in the VPC, if any, is neither a creation nor the deletion of a group not yet garbage. |
| `GroupGoneProofs.GoneForever` | pkg/controllers/networkpolicy/controller.go:225-360 | Once a garbage group is indexed in a VPC and every group made there is garbage, this stays so over every run of events of any kind (group events, answers, failures, retries, policies, replays): no group is ever made there again. |
| `GroupGoneProofs.LateAnswerIsFinal` | pkg/controllers/networkpolicy/networkpolicy.go:1128-1146 | A rule update that answers when every group made in the VPC is already garbage leads there, whatever follows. |
| `GroupStuckProofs.LateRulesShutVpc` | pkg/controllers/networkpolicy/networkpolicy.go:1128-1146 | A run from the start that ends there with nothing in flight and no item queued (created, rules sent, deleted, the rules answer, the delete answers), after which no events of any kind make a group of that name in the VPC again. |
| `GroupController.Controller.Handle` | pkg/controllers/networkpolicy/controller.go:509-581 | One turn of the loop over fields and retry queue: whatever the event, no group moves backwards or changes its VPC, garbage is only deleted, a group event that is taken in is followed in every VPC (members, and the one call it makes), the item counts the deletes in flight and holds the fold of its events, no item means no delete in flight, and the loop panics exactly on the events above. |
| `GroupController.Controller.Drive` | pkg/controllers/networkpolicy/controller.go:509-581 | The loop over any list of events ends as the run of the model does, with all invariants; where a group was it is, or further on; a controller of applied-to groups never panics. |
| `PendingQueue.RetryIsBounded` | pkg/controllers/networkpolicy/pendingitem.go:69-159 | Under any mix of sweeps and updates a queued item keeps a counter within 0..n, and from insertion to removal runs at most n+1 times, n times if only sweeps run it. |
| `PendingQueue.RetryBoundIsMet` | pkg/controllers/networkpolicy/pendingitem.go:93-159 | The bound is met: n sweeps and one update run the item n+1 times. |
| `PendingQueue.AskedBalanced` | pkg/controllers/networkpolicy/pendingitem.go:93-159 | One call keeps counter plus runs equal to n while the item is queued, and the call that removes it runs it at most once more. |
| `PendingQueue.ItemStaysExactly` | pkg/controllers/networkpolicy/pendingitem.go:93-159 | Told from the replies alone: an item is still queued exactly if no reply dropped it, it did not run and finish, and the retries sufficed (an update wants one left, a sweep none), and then it ran once for each reply to run. |
| `PendingQueue.PendingItemQueue.Add` | pkg/controllers/networkpolicy/pendingitem.go:69-76 | A key already queued keeps its item; any other gets a fresh counter; the queue stays balanced. |
| `PendingQueue.PendingItemQueue.Update` | pkg/controllers/networkpolicy/pendingitem.go:93-119 | Reports whether the key is queued, and leaves the map as one update of that item leaves it. |
| `PendingQueue.PendingItemQueue.CheckToRun` | pkg/controllers/networkpolicy/pendingitem.go:137-159 | The loop asks every item once, in any order, and leaves exactly the items a sweep keeps. |
| `PendingGroups.PendingGroupItem.Coalesce` | pkg/controllers/networkpolicy/pendingitem.go:206-238 | Editing the two member maps entry by entry, whatever is listed, keeps the added members equal to the fold of all events absorbed and disjoint from the removed ones; it is the coalescing step of the life cycle when no removed member is listed twice. |
| `CloudRules.CloudRulesFor` | pkg/controllers/networkpolicy/networkpolicy.go:898-967 | Fails exactly when a rule applied to the group drops traffic on a provider without actions; else lists the applied rules in order, without the fields the provider lacks. |
| `CloudRules.RulesForComplete` | pkg/controllers/networkpolicy/networkpolicy.go:898-967 | The list contains a rule exactly when it is the stripped form of a rule applied to the group. |
| `CloudRules.StripKeepsMeaning` | pkg/controllers/networkpolicy/networkpolicy.go:898-967 | Leaving out the fields a provider lacks keeps the traffic a rule is about. |
| `CloudRules.RulesForMean` | pkg/controllers/networkpolicy/networkpolicy.go:898-967 | The rules for a group are about exactly the traffic of that group that the rules they are taken from are about. |
| `Reconcile.ComputeDelta` | pkg/controllers/networkpolicy/networkpolicy.go:970-1045 | Fails exactly on a desired rule realized for another owner; else lists the missing rules by ascending priority and the owned rules no longer wanted, each once, for any order of the realized rules. |
| `Reconcile.DeltaIsExact` | pkg/controllers/networkpolicy/networkpolicy.go:970-1045 | Applying the delta makes the owned rules equal the desired ones, leaves every other owner untouched, and recomputing gives an empty delta. |
| `Reconcile.ProcessingIsConfluent` | pkg/controllers/networkpolicy/networkpolicy.go:970-1045 | Policies that want nothing another policy wants or has realized give the same index in every order, repetitions included. |
| `Reconcile.ProcessRealizes` | pkg/controllers/networkpolicy/networkpolicy.go:970-1045 | What any sequence of such policies leaves, in closed form. |
| `RuleUpdates.IndexAgreesWithCloud` | pkg/controllers/networkpolicy/networkpolicy.go:804-877 | In every run at most one rule update is outstanding; whenever none is, the index equals the cloud; the outstanding one adds rules nobody has and removes only its own. |
| `RuleUpdates.TriggerRealizes` | pkg/controllers/networkpolicy/networkpolicy.go:804-877 | A ready policy that comes for an idle group and wants nothing another policy has: once the cloud is done and the index knows, its rules are exactly the desired ones in both, those of all others are as before, and an answer is sent. |
| `RuleUpdates.TriggerRefused` | pkg/controllers/networkpolicy/networkpolicy.go:841-847 | A policy that cannot be expressed, or that wants a rule of another policy, changes nothing. |
| `RuleUpdates.FinishedUpdatesRealize` | pkg/controllers/networkpolicy/networkpolicy.go:804-877 | Over every run from the start: when an update ends well, its policy owns in index and cloud exactly the rules it desired when the loop looked at it and started the update; nobody else's rules changed. |
| `RuleUpdates.WaitingInOrder` | pkg/controllers/networkpolicy/networkpolicy.go:1218-1235 | First come, first served: over every run the waiting policies leave from the front, in order, and whoever is triggered waits behind them. |
| `RuleUpdates.NothingStartsWithoutPolicies` | pkg/controllers/networkpolicy/networkpolicy.go:835-838 | Once no policy is left for the group no rule update starts, over every run. |
| `RuleUpdates.OthersRulesUntouched` | pkg/controllers/networkpolicy/networkpolicy.go:804-877 | As long as no policy of an owner is triggered or waits, whatever the other policies do, the rules of that owner stay as they are in the index and in the cloud, over whole runs. |
| `RuleUpdates.NoLostWakeUps` | pkg/controllers/networkpolicy/networkpolicy.go:820-824 | In every run a non-empty queue implies an update in flight or a response still to be processed. |
| `RuleUpdates.DrainWakes` | pkg/controllers/networkpolicy/networkpolicy.go:1218-1235 | A drain with as many rounds as policies wait ends with an empty queue or a new update in flight. |
| `RuleUpdates.EveryRunFromStart` | pkg/controllers/networkpolicy/networkpolicy.go:749-758 | Both hold of every run of a group just created with a queue of fifty. |
| `RuleUpdates.BlocksWhenFull` | pkg/controllers/networkpolicy/networkpolicy.go:820-824 | The loop hangs exactly when a ready policy comes for a usable group that is busy and whose queue is full. |
| `RuleUpdates.HangsFromStart` | pkg/controllers/networkpolicy/networkpolicy.go:820-824 | From the start, n triggers of one policy with something to realize hang the loop exactly when n is at least 52 (one starts, fifty wait) and the cloud has not answered. |
| `RuleUpdates.TriggersFill` | pkg/controllers/networkpolicy/networkpolicy.go:820-824 | On any busy group n triggers hang the loop exactly when they and the waiting ones exceed the queue. |
| `RuleUpdates.BlockedForever` | pkg/controllers/networkpolicy/networkpolicy.go:820-824 | Once it hangs it hangs for good: only the loop itself empties the queue. |
| `RuleUpdates.AppliedToGroup.Handle` | pkg/controllers/networkpolicy/networkpolicy.go:804-877 | Any event, handled by the object field by field: at most one update is out, index and cloud agree when none is; a new update is that of a ready policy the event made the loop look at, wanting what it desires; an update that ends well leaves its policy exactly the rules it wanted, in both; policies not involved keep theirs; the loop hangs exactly on a ready policy that finds the queue full. |
| `RuleUpdates.AppliedToGroup.ProcessPending` | pkg/controllers/networkpolicy/networkpolicy.go:1218-1235 | The bounded loop is exactly the drain, and empties a queue within its bound unless an update started. |
| `RuleUpdates.AppliedToGroup.Complete` | pkg/controllers/networkpolicy/networkpolicy.go:863-876 | On success every added rule is stored and every removed one deleted; the flag is cleared and a response sent either way. |
| `AddressRefs.MutateInPlace` | pkg/controllers/networkpolicy/networkpolicy.go:1128-1139 | Changing the references of a stored group in place keeps the index exact only if nothing changes: why the group is deleted and added again. |
| `AddressRefs.InsertExact` | pkg/controllers/networkpolicy/controller.go:668-675 | Storing a group, which replaces the object with its key, keeps look-up by reference exact. |
| `AddressRefs.DeleteExact` | pkg/controllers/networkpolicy/controller.go:668-675 | Deleting whatever object is stored under a key keeps look-up by reference exact. |
| `AddressRefs.References.Drive` | pkg/controllers/networkpolicy/networkpolicy.go:667-695 | Over any list of events (groups of both kinds added, updated, deleted; rules realized; policies changed): at every step look-up by reference is exact and no group is both wanted gone and marked for re-use; each address group that becomes garbage at a step was wanted gone, was not marked for re-use, and no indexed applied-to group refers to it at that step. |
| `AddressRefs.LookupMeetsReferred` | pkg/controllers/networkpolicy/networkpolicy.go:424-433 | An empty look-up means that no indexed group refers to the address group, and conversely. |
| `AddressRefs.References.Refresh` | pkg/controllers/networkpolicy/networkpolicy.go:1100-1147 | The references become those of the realized rules, look-up stays exact, exactly the dropped address groups that still exist are notified, and exactly those of them due for deletion and referred to by no indexed group leave, as garbage if the cloud may know them. |
| `AddressRefs.References.Notify` | pkg/controllers/networkpolicy/networkpolicy.go:1150-1163 | Exactly the listed groups that exist are notified and marked; of all groups exactly the listed ones that are due and unreferred leave. |
| `AddressRefs.References.NotifyOne` | pkg/controllers/networkpolicy/networkpolicy.go:667-695 | A notified group that is wanted gone and in no policy, now or at an earlier notification, is deleted if nothing refers to it; any other keeps its place and is marked unused, or for re-use when a policy names an unused group again. |
| `AddressRefs.MarksTellHistory` | pkg/controllers/networkpolicy/networkpolicy.go:667-695 | After any series of notifications: a group not wanted gone is unused exactly if the last one found no policy, and marked for re-use exactly if some notification found one again; a group wanted gone stays unused once it was and is never marked. |
| `AddressRefs.References.DeleteAddress` | pkg/controllers/networkpolicy/networkpolicy.go:423-454 | A group marked for re-use is not deleted, one that some indexed applied-to group refers to only waits, any other leaves the index and is garbage exactly if the cloud may know it. |
| `AddressRefs.References.AppliedToDeleted` | pkg/controllers/networkpolicy/networkpolicy.go:1282-1289 | After a deletion exactly the existing groups it referred to are notified, and exactly the due and unreferred ones of them leave. |
| `CloudSync.Sync` | pkg/controllers/networkpolicy/sync.go:103-184 | Indexed rules become exactly the rules of the content; the changed flag is raised exactly when the sets differ or the content lists a rule twice; the mismatch flag exactly when some port, address or group is mentioned by the desired rules and by the policy-owned rules of the content a different number of times. |
| `CloudSync.SyncRepairsIndex` | pkg/controllers/networkpolicy/sync.go:133-169 | Whatever was indexed before, exactly the rules of the content are left. |
| `CloudSync.StoredOwner` | pkg/controllers/networkpolicy/sync.go:310-324 | For every content: a rule known before and listed once keeps its recorded owner even if the cloud names another; any other gets the owner of its last listing. |
| `CloudSync.OwnersAreTheClouds` | pkg/controllers/networkpolicy/sync.go:133-169 | After synchronization all recorded owners are the cloud's exactly when they already were for the rules indexed before and listed once. |
| `CloudSync.CountersDecide` | pkg/controllers/networkpolicy/sync.go:177-184 | All counters are zero exactly when the same items were added as were subtracted, each as often. |
| `CloudSync.MismatchMeans` | pkg/controllers/networkpolicy/sync.go:327-377 | The items counted of desired and owned rules differ exactly when some address, group, or protocol and port that are not both unset is mentioned more often on one side. |
| `CloudSync.CountItems` | pkg/controllers/networkpolicy/sync.go:327-377 | Counting the items of a rule shifts every counter by its number of occurrences. |
| `AwsNics.NicsStayGuarded` | pkg/cloudprovider/plugins/aws/aws_security.go:330-426 | Over every sequence of membership updates of any groups, failed interface changes included, an interface with an applied-to group carries no other group than the controller's, and one without carries some other group. |
| `AwsNics.UpdateIsExact` | pkg/cloudprovider/plugins/aws/aws_security.go:330-426 | After an update an interface it could change carries the group exactly if it is a member, its other managed groups are unchanged, and its set of groups is not empty. |
| `AwsNics.UpdateOnOthers` | pkg/cloudprovider/plugins/aws/aws_security.go:381-475 | What an update leaves of the groups the controller did not make: kept where nothing changes; kept by address group requests on interfaces without applied-to group (or the default, if there are none); gone once an applied-to group joins; the default alone when the last applied-to group leaves. |
| `AwsNics.UserGroupsStay` | pkg/cloudprovider/plugins/aws/aws_security.go:330-426 | Over every run a user's groups stay on an interface until an applied-to group takes it up, whatever address groups come and go there, failed changes included. |
| `AwsNics.AddressGroupsSpareOthers` | pkg/cloudprovider/plugins/aws/aws_security.go:330-426 | Over every run of address group requests no interface gains or loses a group that is not the controller's. |
| `AwsNics.KindsByName` | pkg/cloudprovider/utils/helpers.go:55-77 | A group is an address or an applied-to group exactly if its name in lower case is the prefix, "-ag-" or "-at-", and anything. |
| `AwsNics.UpdateIsIdempotent` | pkg/cloudprovider/plugins/aws/aws_security.go:330-426 | Once an update went through, the same request plans no change at all. |
| `AwsNics.PlanIsExact` | pkg/cloudprovider/plugins/aws/aws_security.go:381-421 | The plan for one interface attaches the group exactly to members and keeps the other managed groups. |
| `AwsNics.PlanGuards` | pkg/cloudprovider/plugins/aws/aws_security.go:381-475 | The plan for one interface keeps the guard, in all its branches. |
| `AwsNics.PlanIsStable` | pkg/cloudprovider/plugins/aws/aws_security.go:381-475 | A planned set is never empty, and planning again plans nothing. |
| `AwsNics.PlanUpdate` | pkg/cloudprovider/plugins/aws/aws_security.go:349-426 | The loop over the interfaces plans exactly the per-interface plans. |
| `AwsNics.PlanNic` | pkg/cloudprovider/plugins/aws/aws_security.go:357-421 | The branches with their counters and flags compute a plan that attaches the group exactly to members, keeps the other managed groups, and leaves of the user's groups exactly what is stated for updates. |
| `AwsNics.Classify` | pkg/cloudprovider/plugins/aws/aws_security.go:357-379 | The loop over an interface's groups separates managed from other groups, counts the applied-to groups and finds the group by name. |
| `AwsPermissions.NormalizeIpPermissions` | pkg/cloudprovider/plugins/aws/aws_security.go:631-666 | Every peer of a permission becomes a permission of its own, in order. |
| `AwsPermissions.NormalizationPreservesMeaning` | pkg/cloudprovider/plugins/aws/aws_security.go:631-666 | What is allowed, peer by peer, is unchanged, and normalizing again does nothing. |
| `AwsPermissions.DedupIpPermissions` | pkg/cloudprovider/plugins/aws/aws_security.go:669-685 | The in-place compaction leaves exactly the local permissions whose cloud copies are used up, in order. |
| `Matching.UnmatchedIsDifference` | pkg/cloudprovider/plugins/aws/aws_security.go:669-685 | That is the multiset difference of the two lists. |
| `Matching.UnmatchedInOrder` | pkg/cloudprovider/plugins/aws/aws_security.go:669-685 | It keeps the original order. |
| `AwsRuleUpdate.RollbackRestores` | pkg/cloudprovider/plugins/aws/aws_security_impl.go:114-150 | A failed call leaves the original rules exactly under a condition on the lists that is given for each of the four calls. |
| `AwsRuleUpdate.FirstFailure` | pkg/cloudprovider/plugins/aws/aws_security_impl.go:114-150 | The update stops at the first call that has something to do and is refused; those before it had nothing to do or went through. |
| `AwsRuleUpdate.DedupKeepsApart` | pkg/cloudprovider/plugins/aws/aws_security_impl.go:111-112 | After deduplication no addition is in the cloud, exactly if the local list repeats no permission of the cloud. |
| `AwsRuleUpdate.UpdateIsAllOrNothing` | pkg/cloudprovider/plugins/aws/aws_security_impl.go:90-150 | If the permissions to revoke are there and no addition repeats one of the cloud, failure at any call restores both rule sets. |
| `AwsRuleUpdate.UpdateReachesGoal` | pkg/cloudprovider/plugins/aws/aws_security_impl.go:90-150 | A successful update ends with the wanted permissions exactly when none is there, revoked and added once. |
| `AwsRuleUpdate.CloudGroup.Realize` | pkg/cloudprovider/plugins/aws/aws_security_impl.go:114-150 | Calls and deferred flags do exactly that: all four changes, or the undone state of the first failure. |
| `AwsRuleUpdate.CloudGroup.Update` | pkg/cloudprovider/plugins/aws/aws_security_impl.go:90-150 | The whole update, from the listing to the calls: when it fails and the permissions to revoke were there and no addition repeats one of the cloud, both rule sets are as before; when it succeeds each direction has the wanted permissions unless one was there, revoked and added once. |
| `AwsConverters.RuleRoundTrip` | pkg/cloudprovider/plugins/aws/aws_converters.go:156-331 | A rule about one address or one managed group comes back as exactly one rule, the same with the same owner, exactly when its protocol and ports survive. |
| `AwsConverters.ProtocolRoundTrip` | pkg/cloudprovider/plugins/aws/aws_converters.go:31-36 | A protocol comes back exactly if it is none, 0 or one AWS returns by name. |
| `AwsConverters.PortsRoundTrip` | pkg/cloudprovider/plugins/aws/aws_converters.go:333-365 | Ports, or ICMP type and code, come back exactly under the stated condition; a type without code, or equal to its code, does not. |
| `AwsConverters.AnyAddressComesBackTwice` | pkg/cloudprovider/plugins/aws/aws_converters.go:65-80 | A rule about every address comes back as two rules, neither of them the original. |
| `AwsConverters.FromPermissions` | pkg/cloudprovider/plugins/aws/aws_converters.go:216-271 | A rule is in the result exactly if it stands for one address or group of one of the permissions. |
| `AwsConverters.ListRoundTrip` | pkg/cloudprovider/plugins/aws/aws_converters.go:156-271 | A whole list of surviving rules of one direction comes back from what AWS lists: the same rules with the same owners, in order, and no others. |
| `AwsMeaning.PermissionMeansRule` | pkg/cloudprovider/plugins/aws/aws_converters.go:156-214 | The permission made of a rule admits exactly the traffic the rule is about: protocol numbers, ports 0 to 65535 where none is given, ICMP type and code with -1 for any, address families, groups by their ids. |
| `AwsMeaning.ListingKeepsMeaning` | pkg/cloudprovider/plugins/aws/aws_converters.go:384-390 | The permission as AWS lists it, protocols by name, admits the same traffic. |
| `AwsMeaning.NormalizationAdmits` | pkg/cloudprovider/plugins/aws/aws_security.go:631-666 | Normalized permissions admit together exactly the traffic that those they are made of admit. |
| `AwsMeaning.RealizedIsRecognized` | pkg/cloudprovider/plugins/aws/aws_security.go:631-685 | The permissions of rules about one address or one group each, realized, listed by AWS and normalized, are recognized: adding them again adds nothing. |
| `AwsMeaning.PolicyReachesAws` | pkg/controllers/networkpolicy/networkpolicy.go:898-967 | From the policy to the cloud: the permissions of a group admit traffic exactly when some rule of the policy, read as it is written, is about it. |
| `AzureMerge.UpdateNameAndPriority` | pkg/cloudprovider/plugins/azure/azure_nsg_rules.go:86-131 | The two cursors compute exactly the merge, passing over cleared entries. |
| `AzureMerge.MergeNumbers` | pkg/cloudprovider/plugins/azure/azure_nsg_rules.go:86-131 | All rules but the user's are numbered consecutively from the start, however many there are. |
| `AzureMerge.MergeKeepsContents` | pkg/cloudprovider/plugins/azure/azure_nsg_rules.go:86-131 | Every rule is there as often as before, priorities aside. |
| `AzureMerge.MergeSparesUsers` | pkg/cloudprovider/plugins/azure/azure_nsg_rules.go:86-131 | User rules keep their priorities and order. |
| `AzureMerge.MergeSorts` | pkg/cloudprovider/plugins/azure/azure_nsg_rules.go:86-131 | Lists sorted by rank merge into a sorted list. |
| `AzureMerge.TiesPutNewFirst` | pkg/cloudprovider/plugins/azure/azure_nsg_rules.go:86-131 | Of equal rank the new rules come first, and new and existing ones keep their order. |
| `AzureRuns.BuildEffectiveRules` | pkg/cloudprovider/plugins/azure/azure_security.go:330-382 | The loop over the current rules, from lists whose matched entries it clears, leaves every rule of the group as often as it was there in the controller's range and is not removed, or as often as it is wanted, whichever is more, and computes the list of both directions all statements about runs are about. |
| `AzureRuns.OwnRulesAreExact` | pkg/cloudprovider/plugins/azure/azure_security.go:330-382 | For any rule list: of a rule of the group the copies below the range stay, and of those in the range as many as were there and not removed, or as many as are wanted, whichever is more. |
| `AzureRuns.UpdateRealizesOwnRules` | pkg/cloudprovider/plugins/azure/azure_security.go:330-382 | After any run that leaves room, an update leaves each rule of its group that often: a removed rule is gone, an added one is there, and adding one that is there adds nothing. |
| `AzureEffective.RemovalsCancelOnce` | pkg/cloudprovider/plugins/azure/azure_security.go:354-362 | Each entry of the remove list cancels at most one of the group's rules. |
| `AzureEffective.OthersStay` | pkg/cloudprovider/plugins/azure/azure_security.go:335-376 | Every rule that is carried over and not the group's own stays, in order. |
| `AzureEffective.OthersStayBelowDeny` | pkg/cloudprovider/plugins/azure/azure_security.go:335-346 | No rule of another group is lost, whatever its priority, exactly when none of them is numbered 4096. |
| `AzureRuns.CapacityProtectsOthers` | pkg/cloudprovider/plugins/azure/azure_security.go:335-346 | After any run: whichever group is updated next and how, every rule of the other groups is in the new list as often as before, exactly when the direction has at most 2096 rules. |
| `AzureRuns.LosesNothingBelowDeny` | pkg/cloudprovider/plugins/azure/azure_security.go:335-346 | For any rule list the same, exactly when no managed rule of the direction is numbered 4096. |
| `AzureEffective.MissingIsExact` | pkg/cloudprovider/plugins/azure/azure_security.go:363-367 | A rule is added exactly as often as it is wanted beyond what is there. |
| `AzureEffective.KeptRelevant` | pkg/cloudprovider/plugins/azure/azure_security.go:335-346 | User rules in the controller's range and the rule between networks are not carried over. |
| `AzureRuns.RunsStayInOrder` | pkg/cloudprovider/plugins/azure/azure_security.go:330-382 | Over every run of updates of any groups the controller's rules of each direction stay sorted by rank and numbered from 2000. |
| `AzureRuns.SmallerRankFirst` | pkg/cloudprovider/plugins/azure/azure_nsg_rules.go:86-131 | So after any run a smaller rank means a smaller Azure priority, and priorities are distinct. |
| `AzureRuns.CapacityIsExact` | pkg/cloudprovider/plugins/azure/azure_nsg_rules.go:33-38 | The numbers stay below 4096 exactly while a direction has at most 2096 rules. |
| `AzureRuns.UsersStayBelow` | pkg/cloudprovider/plugins/azure/azure_security.go:339-346 | The user rules of the new list are exactly those of the old one below 2000, untouched and in order. |
| `AzureOrder.OrderIsPreserved` | pkg/cloudprovider/plugins/azure/azure_nsg_rules.go:86-131 | End to end: of two rules of one direction the one with smaller tier, policy and rule priority, compared in that order, has the smaller Azure priority after any run. |
| `AzureOrder.DeltaIsProper` | pkg/controllers/networkpolicy/networkpolicy.go:1031-1044 | The additions of a delta, sorted by priority and converted direction by direction, are Azure rules sorted by rank, rounding to four decimals included: the updates every run keeps in order. |
| `AzureOrder.ReadBackRank` | pkg/cloudprovider/utils/helpers.go:109-154 | The folded priority survives printing into the description and parsing back. |
| `AzureConverters.RuleRoundTrip` | pkg/cloudprovider/plugins/azure/azure_nsg_rules.go:134-189 | A rule about one address or one managed group comes back as exactly one rule, the same with the same owner, exactly when its protocol is supported, its ports survive, its action is set and its priority has at most four decimals. |
| `AzureConverters.PortsRoundTrip` | pkg/cloudprovider/plugins/azure/azure_nsg_rules.go:787-811 | ICMP needs type and code together; other protocols have neither. |
| `AzureConverters.ConvertToNsgRules` | pkg/cloudprovider/plugins/azure/azure_nsg_rules.go:256-311 | A list is converted exactly when every rule of it has an owner that can be described, a protocol Azure has, and groups that exist; otherwise nothing is. |
| `AzureConverters.ListRoundTrip` | pkg/cloudprovider/plugins/azure/azure_nsg_rules.go:134-189 | A whole list of surviving rules is converted to as many security rules, and each comes back as its own rule and nothing else. |
| `AzureConverters.AnyAddressIsLost` | pkg/cloudprovider/plugins/azure/azure_nsg_rules.go:763-785 | A rule about every address is turned into one security rule that comes back as no rule at all. |
| `AzureConverters.LoneIcmpFieldMeetsZero` | pkg/cloudprovider/plugins/azure/azure_nsg_rules.go:787-811 | A lone ICMP type comes back with code zero, a lone code with type zero. |
| `AzureConverters.FromAsgsMember` | pkg/cloudprovider/plugins/azure/azure_nsg_rules.go:738-761 | Of the groups of a security rule exactly those named as address groups of the controller come back. |
| `AzureMeaning.RulesMean` | pkg/cloudprovider/plugins/azure/azure_nsg_rules.go:256-311 | The security rules made of a rule admit together exactly the traffic it is about, and all of them deny if it drops and allow otherwise. |
| `AzureMeaning.ListMeans` | pkg/cloudprovider/plugins/azure/azure_nsg_rules.go:256-311 | The same for a list: traffic is allowed, or denied, by some security rule exactly if some rule is about it and says so. |
| `AzureMeaning.PolicyReachesAzure` | pkg/controllers/networkpolicy/networkpolicy.go:898-967 | From the policy to the cloud: the security rules of a group allow or deny traffic exactly when some rule of the policy, read as it is written, is about it and does so. |
| `AzureConverters.FromSingle` | pkg/cloudprovider/plugins/azure/azure_nsg_rules.go:574-714 | What one security rule is turned into. |
| `AzureConverters.ToSingle` | pkg/cloudprovider/plugins/azure/azure_nsg_rules.go:455-497 | The one security rule a simple rule is turned into, or the error for a protocol Azure lacks. |
| `Priorities.PriorityIsLexicographic` | pkg/cloudprovider/cloudresource/cloudresource.go:174-187 | For whole policy priorities 1..10000 and rule priorities 0..9999 the folded priority is ordered by tier band, policy and rule, in both directions. |
| `Priorities.TierOrder` | pkg/cloudprovider/cloudresource/cloudresource.go:167-170 | Tiers in steps of fifty fall into bands of their own. |
| `Priorities.ValueIs` | pkg/cloudprovider/cloudresource/cloudresource.go:174-187 | The folded priority in closed form: ten thousand for each fifty of the tier, the policy priority, and the rule priority in ten-thousandths; no tier counts as none. |
| `Priorities.WrapsTo32Bits` | pkg/cloudprovider/cloudresource/cloudresource.go:174-187 | The band is the number of 32 bits that differs from the product by a multiple of 2^32. |
| `Priorities.TruncatesTowardsZero` | pkg/cloudprovider/cloudresource/cloudresource.go:174-187 | The division of the tier leaves a remainder on the same side of zero as the tier. |
| `Priorities.PoliciesApart` | pkg/cloudprovider/cloudresource/cloudresource.go:174-187 | For any policy priorities, every rule of one policy comes before every rule of another exactly when the bands and priorities differ by more than 0.9999. |
| `Priorities.FractionalPoliciesCross` | pkg/cloudprovider/cloudresource/cloudresource.go:174-187 | 5.5 with rule 9999 lands above 6.0 with rule 0: the order is not lexicographic for fractional priorities. |
| `Priorities.PriorityPrintsExactly` | pkg/cloudprovider/cloudresource/cloudresource.go:117-123 | Four decimals lose nothing of a priority folded from whole policies. |
| `Descriptions.DescriptionRoundTrip` | pkg/cloudprovider/utils/helpers.go:125-154 | A description is read back, its priority rounded to four decimals, exactly when both names are non-empty, have no comma or colon and do not end in white space. |
| `Descriptions.GenerateRoundTrip` | pkg/cloudprovider/utils/helpers.go:109-122 | From a namespaced name to the text and back: exactly when no part has a slash either. |
| `Descriptions.ExtractCloudDescription` | pkg/cloudprovider/utils/helpers.go:125-154 | The loop over the pieces parses exactly the fields of the text. |
| `Decimals.ParseRealPrint4` | pkg/cloudprovider/cloudresource/cloudresource.go:117-123 | A printed priority is read back as the number that was printed. |
| `SelectorProofs.AwsCompilationIsFaithful` | pkg/cloudprovider/plugins/aws/aws_filter_helpers.go:59-244 | For every list the webhook accepts: the union of the queries returns exactly the selected machines in a valid state, exactly when no selector means everything and every VPC meant as a whole is asked for as a whole. |
| `SelectorProofs.OrdinarySelectorsAreExpressible` | apis/crd/v1alpha1/cloudentityselector_types.go:30-43 | That is so when no machine match is blank and a selector without machine match names a VPC. |
| `SelectorProofs.AwsIsSound` | pkg/cloudprovider/plugins/aws/aws_filter_helpers.go:59-348 | Nothing is returned that was not selected, for every accepted list. |
| `SelectorProofs.AwsIsComplete` | pkg/cloudprovider/plugins/aws/aws_filter_helpers.go:59-348 | Everything selected is returned, if expressible, whichever selectors subsume others and in whatever order. |
| `SelectorProofs.LostMachine` | pkg/cloudprovider/plugins/aws/aws_filter_helpers.go:59-175 | Otherwise there is a machine that is selected and not returned. |
| `SelectorProofs.BlankVpcMatchSelectsNothing` | pkg/cloudprovider/plugins/aws/aws_filter_helpers.go:95-98 | A VPC match without id and name is accepted, means every machine, and yields no query on either cloud. |
| `SelectorProofs.BlankMachineMatchSelectsNothing` | pkg/cloudprovider/plugins/aws/aws_filter_helpers.go:112-146 | A blank machine match is accepted, means every machine, and returns none. |
| `SelectorProofs.AzureAgreesWithAws` | pkg/cloudprovider/plugins/azure/azure_query_helpers.go:43-160 | Where no VPC is selected by name, Azure returns what AWS returns. |
| `SelectorProofs.AwsQueriesReturn` | pkg/cloudprovider/plugins/aws/aws_filter_helpers.go:177-348 | What the query lists return, bucket by bucket, VPC names resolved to ids. |
| `SelectorQueries.BuildEc2Filters` | pkg/cloudprovider/plugins/aws/aws_filter_helpers.go:59-175 | The pass that fills the buckets, with its breaks and early drops, builds exactly those queries. |
| `SelectorQueries.BuildPairQueries` | pkg/cloudprovider/plugins/aws/aws_filter_helpers.go:201-244 | One query per VPC and machine match, those of whole VPCs left out. |
| `SelectorQueries.BuildQueries` | pkg/cloudprovider/plugins/azure/azure_query_helpers.go:43-160 | The same for Azure. |
| `SelectorIndex.ValidateMatchCombinations` | pkg/apiserver/webhook/cloudentityselector_webhook.go:316-381 | Accepts exactly when no two entries conflict: the same VPC twice as a whole, a machine id twice in whatever VPCs, a machine name twice without VPC, or two machines whose ids or names joined with their VPC ids come out the same. |
| `SelectorIndex.ValidateMatchSections` | pkg/apiserver/webhook/cloudentityselector_webhook.go:244-308 | Accepts exactly when every selector is supported by the provider and no two entries conflict. |
| `SelectorIndex.DistinctMeansNoConflict` | pkg/apiserver/webhook/cloudentityselector_webhook.go:316-381 | The five classes of keys have no key twice exactly when no two entries conflict, by what the entries say. |
| `SelectorIndex.IdLookupIsUnambiguous` | pkg/accountmanager/poller.go:214-219 | For an accepted lower-case list whose VPC matches have ids, the selector chosen by machine id does not depend on the order of the hits. |
| `SelectorIndex.NameLookupIsUnambiguous` | pkg/accountmanager/poller.go:221-239 | Nor does the one chosen by name, the machine's own VPC before none. |
| `SelectorIndex.FindByName` | pkg/accountmanager/poller.go:224-239 | The loop returns the first hit of the own VPC, else the last hit without VPC. |
| `SelectorIndex.IdLookupIsClear` | pkg/accountmanager/poller.go:214-219 | For every list: the selector chosen by id is independent of the order of the hits, for every id, exactly when no two selectors hold machine ids that are equal in lower case. |
| `SelectorIndex.NameLookupIsClear` | pkg/accountmanager/poller.go:221-239 | The same for names: exactly when no two selectors of one VPC, or without VPC, hold machine names that are equal in lower case. |
| `SelectorIndex.MixedCaseIsAmbiguous` | pkg/accountmanager/poller.go:64-77 | Ids that differ only in case pass validation, share an index entry, and two orders of the hits choose differently. |
| `SelectorLink.SupportedIsAccepted` | pkg/apiserver/webhook/cloudentityselector_webhook.go:244-308 | Read without white-space-only fields, a selector is let through exactly when it is one of those the compilation is proved for and names a VPC only where that is supported. |
| `SelectorLink.ValidatedSelectorsAreFaithful` | pkg/apiserver/webhook/cloudentityselector_webhook.go:244-308 | So a list validated for AWS keeps its meaning in the queries exactly when it is expressible. |
| `Expansion.ExpandIsProduct` | pkg/controllers/networkpolicy/networkpolicy.go:1336-1482 | Exactly one cloud rule for each peer and each service (or one any-service), numbered consecutively. |
| `Expansion.ExpansionMeansPolicy` | pkg/controllers/networkpolicy/networkpolicy.go:1336-1482 | Expansion keeps the meaning: some cloud rule is about the traffic and carries these orders exactly when some rule of the policy, read by its own fields, is about it and gives them. |
| `Expansion.GroupRulesMeanPolicy` | pkg/controllers/networkpolicy/networkpolicy.go:898-967 | Down to one group on one provider: its rules are about exactly the traffic of the group that some rule of the policy is about. |
| `Expansion.RulesOf` | pkg/controllers/networkpolicy/networkpolicy.go:1343-1394 | The nested loops with the running number: some rule they make is about traffic exactly when a given peer covers its other end and the policy rule is about the rest (applied-to groups, direction, services), and all carry its action and the priority folded from tier, policy and rule. |
| `Expansion.CollectPeers` | pkg/controllers/networkpolicy/networkpolicy.go:1396-1479 | The addresses, then the VPC-scoped address groups, or nothing if a group is unknown. |
| `Expansion.PolicyNamesAreUnique` | pkg/controllers/networkpolicy/networkpolicy.go:1336-1482 | The cloud rules of a whole policy have pairwise different names exactly when no two of its rules with peers share a name. |
| `Expansion.NamesAreUnique` | pkg/controllers/networkpolicy/networkpolicy.go:1343-1394 | Rules of one policy get the same name only if their rule name and number agree. |
| `Expansion.AllOrNothing` | pkg/controllers/networkpolicy/networkpolicy.go:1724-1744 | A policy has cloud rules exactly when every address group it mentions exists in some VPC. |
| `Expansion.ComputeRules` | pkg/controllers/networkpolicy/networkpolicy.go:1724-1744 | The loop over the rules of a policy: what it collects means what the policy says, traffic by traffic, action and priority included, or everything is dropped. |

## Left out

- Goroutine scheduling and data races on plain fields: a completed call is one step, in any order with others.
- Account removal, the re-synchronization of the whole cache and the realization status sent to Antrea.
- The lifecycle part of periodic synchronization (`syncImpl`), which may put a group back to INIT; only the rule part is modelled.
- Members whose machine is unknown when they are removed from a group (`removeStaleMembers`), and the retry of group events put off because of unknown members: such an event simply comes again.
- The order of values inside a query, which the source sorts, and paging; values are sets here.
- Azure rules for peered virtual networks, application security group membership, and the text of resource-graph queries.
- Security rule names in `AzureMerge`: they are not compared and stay with their rule; rules without properties, which are skipped first, are not in the lists.
- Spelling of protocols Azure returns in other case, and addresses that are not in canonical form: protocols are an enumeration and addresses are taken as given.
- Permissions that name a security group the listing does not contain: the source runs into a missing description there, the model takes only listed groups.
- Services without a protocol the controller knows: the source dereferences a missing protocol, the model takes only known ones.
- The VPC tier of the selector look-up, whose index also lists selectors with machine matches, so that uniqueness does not hold there.
- Floating point: priorities are real numbers; printing rounds half to even on the exact value. Notations of numbers other than sign, digits and point are read as zero.
- SHA-1: hashes are taken as injective, so equal hashes mean equal rules of one group.
- `PendingQueue`: what an item does when it runs is a parameter; `GroupController` has the retry queue with the groups it holds.
- RuleUpdates.AppliedToGroup.Complete: the failed and the successful completion are one step each; the cloud's own change is the step before it.
- AddressRefs.References.NotifyOne: the policies that mention a group are a parameter; what the cloud answered for it is an event of its own.
- GroupDeadProofs.DeletionKillsName: for states in which no other deletion is still to come; with one, the name waits for that deletion. An address group whose deletion was once put off keeps its mark and counts as such. `NameWaits` is for any state.
- GroupReplayProofs.ReplaysAreFaithful: a replay hands over added members only; deferred removals are dropped with the item, as in the source, and events count since the item was queued or last saw a Deleted event.
- AwsNics.NicsStayGuarded: takes interfaces that start guarded, group names that are unique in the VPC regardless of case, and a default group that is not the controller's.
- AzureRuns.RunsStayInOrder: takes additions sorted by rank; `AzureOrder.DeltaIsProper` shows that a delta has them, for policies whose rules have a priority.
- GroupMemberProofs.EventIsFollowed: for events that do not add and remove the same member of a VPC; `MembersMergeExactly` has the others.
- GroupFollowProofs.MembersFollowEvents: for runs in which the name is not deleted; what a deletion leaves is `DeletionIsExact`, and what comes back `ReplayIsFollowed`.
- GroupRetryProofs.FailedCallIsRetried: while nothing else happens to the group but the failures and what policies do meanwhile; a deletion has `FailedDeletionReleases`.
- AwsMeaning.PermissionMeansRule: address blocks are compared as they are written, the blocks of all addresses apart; a rule has ICMP fields with ICMP only and no field of value -1.
- AzureMeaning.RulesMean: the same, for groups of one virtual network.
