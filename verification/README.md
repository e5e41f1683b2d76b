# H-IDE server: a verified model of its protocols

H-IDE runs a cloud IDE as a set of services that share one Redis cache, one Kubernetes node and one membership
table. What is hard about it lies between the services: who owns an open document, which env instance hears a
workspace's file events, when a session is gone, which pod may be preempted, whether a cached membership is still
true. This project models those protocols and proves what they keep over every run.

| module | what it models |
|---|---|
| `DocSync` | ownership of collaborative documents by env instances, with loads under way, forwarded opens and closes in flight, crashes and loss reports |
| `DirWatch` | reference-counted directory watchers, closed one by one or in a batch |
| `Affinity` | the env instance a workspace's daemon reports to, the watch messages under way and the watches the daemon holds |
| `Presence` | sessions, their expiring markers and late or repeated expiry notices; sessions attached to workspaces |
| `Membership` | the gateway's membership cache against the membership table, with notices and lookups in flight |
| `Provision` | CPU admission under the queue lock, preemption of spot pods, leases, disposal |
| `Volumes` | volume creation with compensating deletes |
| `Throttle` | the burst throttle for watch events and the signals it sends, per path |
| `Pipeline` | watch events from arrival to delivery: throttle, batch, debounce timer and the processings that read the batch while it grows |
| `Fanout` | the fan-out of a batch of watch events to the users |
| `EmailPin` | attempt counters of the email pin, with their lifetimes |
| `AccessCode` | access codes by rejection sampling |
| `CacheKeys` | cache keys of expiring markers, taken apart and dispatched |
| `Arrays`, `Events`, `Options` | array idioms (`indexOf`, `splice`, `new Set`), watch events, optional values and answers that may get lost |

Each stateful module has the same build. The handlers are functions on values, collected in `Step` and `Run`; the
objects of the source are classes whose methods change their fields in place and are proved equal to those functions.
A property says what the design wants, and a second predicate says, in terms of the state before a step, when the step
keeps it. The step lemma is an equivalence, and so is the theorem over runs: the property holds at every moment of a
run if and only if no step of it was of the failing family. Where the code does not always do what its design wants,
lemmas construct runs from the initial state that show it.

Assumptions, stated once. A handler is one atomic step, except where it is split below: opening a directory (watch
request, cache update), opening a document (ownership check, end of the load), a membership lookup (answer, store), a
marker expiring (notice, handling), processing a batch (start, each read, end of the loop, replacement of the batch)
and provisioning (lock, check, choice, preemption, creation, wait). Instance ids are random and never reused. There is
one provisioner process and one node. Clocks, random bytes, answers of Kubernetes, the daemon, the file system and the
message broker are parameters of the steps, over which every theorem quantifies.

What the code does against its design, each with the runs that show it:

- Dropping the cached entry of a workspace while a document of it is held, or reporting a loss for a document that is
  held, lets a second instance hold it (`DocSync.DropLetsAnotherHold`). So do two loads of one document started on two
  instances (`DocSync.LateLoadMakesTwoHolders`).
- A failed load next to exactly one other open document drops that other document from its owner
  (`DocSync.FailedLoadForgets`). A load that ends after the last other document of the workspace was closed makes an
  owner that holds nothing (`DocSync.LoadIntoDroppedMapForgets`). Two users who open a document on one instance at the
  same time leave only the second as its user (`DocSync.OverlappingOpensForgetUser`).
- A last watcher who leaves a directory while somebody else is opening it takes the watch away
  (`Affinity.RacingCloseHappens`).
- A lost answer to the affinity request leaves the daemon reporting to an instance the cache does not name and that
  keeps no path state (`Affinity.LostAnswerBreaksAffinity`).
- A disconnect while an expiry notice is under way, or a notice handled twice, removes a session too early
  (`Presence.DisconnectRaceRemovesEarly`, `Presence.RedeliveryRemovesActive`). A connect or ping while one notice is
  under way does not.
- An author who removes themself from a workspace gets the removals but neither the notice nor the invitations
  (`Membership.SelfRemovalGoesUnnoticed`, `Membership.SelfRemovalInvitesNobody`). A lookup stored after the removal was
  handled brings the membership back (`Membership.LateStoreOutlivesRemoval`).
- The CPU check does not count pending pods, so it may admit a pod there is no room for (`Provision.PendingPodOverfills`).
- Preemption leaves the pod's Service behind, after which the workspace can neither be restored nor disposed of
  (`Provision.PreemptedStaysDown`, reached by `Provision.PreemptionHappens`).
- A creation whose last answer is lost leaves a volume behind a reported failure when no rollback delete takes effect
  (`Volumes.Cluster.CreateVolume`).
- A block signal that cannot be sent, because the path has no cached watchers at that moment, sets the burst all the
  same, and the next resume goes out without it (`Throttle.FailedBlockLetsResumeComeFirst`). For the workspace root this
  is always so: its events name `/workspace` and its watchers are cached under `/workspace/`. A cooldown timer that
  outlives `setWorkspace` does the like (`Throttle.StrayResumeComesFirst`).
- Events that arrive after the loop over the batch has ended and before the batch is replaced are lost
  (`Pipeline.LateEventIsLost`); those that arrive while it loops are delivered. A second processing of the same batch
  delivers its events again (`Pipeline.OverlapDeliversTwice`).
- One wrong guess shortens the 900 s lock for too many pin requests to 300 s, and a refused request replaces the
  mailed pin (`EmailPin.WrongGuessShortensRequestLock`, `EmailPin.RefusedRequestVoidsMailedPin`, reached by
  `EmailPin.FourthRequestIsRefused`).
- The expiry handler recovers the ids of a key only if they hold no colon, and takes a workspace key with an empty
  workspace id for a session key (`CacheKeys.WorkspaceKeyDispatch`).

## Model

| member | source | states |
|---|---|---|
| DocSync.SyncService.Open | env/src/core/sync.service.ts:51-82 | up to the load: missing workspace, owner elsewhere, document already here with the owner stored or not, load started; local documents, shared cache and channel as specified for each; an answer of open means the user is in the document and the cache names this instance, and any other leaves the cache alone |
| DocSync.SyncService.FinishOpen | env/src/core/sync.service.ts:83-102 | after the load: the user is told the document is open exactly if it was loaded and its owner stored, and then it is in the map the open started with, which is the instance's map only if that was not dropped meanwhile, and named in the cache; each failure has its own answer and leaves the cache alone |
| DocSync.OpenAnswers | env/src/core/sync.service.ts:51-82 | for every state, the start of an open answers: a missing workspace, nothing yet when forwarded or loading, open exactly when the user joined the document here and the owner was stored; when a message is sent, a load started and the cache changed |
| DocSync.LoadAnswers | env/src/core/sync.service.ts:83-102 | for every state, the answer of every end of a load, and that an answer of open means the user is in the document and the cache names this instance |
| DocSync.SyncService.Close | env/src/core/sync.service.ts:104-132 | closing forwards, ignores strangers, removes one user, and releases document, cache entry and workspace map with the last user |
| DocSync.CloseAnswers | env/src/core/sync.service.ts:104-132 | for every state, a close is forwarded exactly to an owner elsewhere, is never answered, and otherwise leaves its user without the document here |
| DocSync.SyncService.UpdateCache | env/src/core/sync.service.ts:400-409 | the cached owner is set or cleared for this document only, and nothing is written for a missing workspace |
| DocSync.LateLoadKeepsOwned | env/src/core/sync.service.ts:83-102 | a load that ends however late, in any owned state, keeps ownership if and only if, when loaded, no other instance holds the document and the entry is still there or the map was dropped; and, when the owner cannot be stored, it is named already or the map was dropped |
| DocSync.StepKeepsOwned | env/src/core/core.controller.ts:61-83 | for every step of opens, ends of loads, closes, deliveries, starts, crashes, drops and loss reports: whoever holds a document is still the instance the cache names, if and only if the step ends no load badly, drops no entry with a held document and reports no loss of a held one |
| DocSync.OwnershipOverRuns | env/src/core/sync.service.ts:51-132 | over every run from the empty system, with any number of loads under way, ownership holds at every moment if and only if every step was of that kind |
| DocSync.OneHolderReachedByRoute | gateway/src/socket/socket.gateway.ts:279-335 | after every such run at most one instance holds a document, and sticky routing by the cache reaches it |
| DocSync.DropLetsAnotherHold | gateway/src/socket/presence.service.ts:160-160 | a run from the empty system in which the entry is dropped, and one in which a loss is reported, that end with two holders |
| DocSync.LateLoadMakesTwoHolders | env/src/core/sync.service.ts:57-98 | a run in which two loads under way on two instances end with two holders |
| DocSync.StepKeepsFound | env/src/core/sync.service.ts:83-98 | from every state in which live instances named by the cache hold their documents, two holders or not, they still do after a step, if and only if the step is not a failed load that finds exactly one document open, named for its instance, nor a load that ends after its map was dropped with the document not open again |
| DocSync.RouteFindsDocument | gateway/src/socket/socket.gateway.ts:279-335 | over every run, with second holders, dropped entries and loss reports, messages routed by the cache to a live instance find the document there at every moment, if and only if no such load ends |
| DocSync.FailedLoadForgets | env/src/core/sync.service.ts:84-91 | a run in which a failed load makes a live named owner lose another document |
| DocSync.LoadIntoDroppedMapForgets | env/src/core/sync.service.ts:67-98 | a run in which a load ends in a dropped map and its owner is named without the document |
| DocSync.ForwardedOpenIsOwners | env/src/core/sync.service.ts:57-64 | forwarding is transparent: an open at another instance, once delivered, leaves the whole system exactly as an open at the owner |
| DocSync.ForwardedCloseIsOwners | env/src/core/sync.service.ts:110-117 | the same for closes |
| DocSync.JoinAddsUser | env/src/core/sync.service.ts:72-98 | joining an open document adds the user to it and changes the users of no other document in any workspace |
| DocSync.LoadSetsUser | env/src/core/sync.service.ts:73-98 | a load that ends in time leaves its user as the only one of that document and changes no other document |
| DocSync.OverlappingOpensForgetUser | env/src/core/sync.service.ts:72-98 | a run in which two users' loads of one document end and only the second is its user |
| DocSync.CloseRemovesUser | env/src/core/sync.service.ts:119-131 | a close at the owner takes out its user alone, and the last one out leaves the document unowned in the cache |
| DocSync.CloseSparesOthers | env/src/core/sync.service.ts:119-131 | a close changes the users of no other document |
| DocSync.UsersOverRuns | env/src/core/sync.service.ts:51-132 | over every run in which loads end in time and do not overlap and nothing held is lost, with messages forwarded and loads under way, the users of a document are exactly those who were answered that it is open, at once or at the end of a load, and whose later closes were not carried out |
| DocSync.LossReportRecovers | gateway/src/socket/socket.gateway.ts:331-335 | a run in which the owner crashes, the loss is reported and the document is opened elsewhere, with its new user alone |
| DirWatch.FSService.UpdateCache | env/src/core/fs.service.ts:103-119 | adding and removing a watcher in place, with a `watch.remove` emitted only when the last one leaves |
| DirWatch.FSService.CloseDirs | env/src/core/fs.service.ts:93-102 | the in-place batch equals its specification, messages in order included |
| DirWatch.FSService.CloseEach | env/src/core/workspace.service.ts:199-204 | the loop of single closes equals its specification, messages in order included |
| DirWatch.RemoveIsWithout | env/src/core/fs.service.ts:111-117 | on a watched path the guarded and the unguarded removal agree: the user goes, the others keep their order, the path goes exactly with its last watcher, other paths stay |
| DirWatch.BatchIsOneByOne | env/src/core/fs.service.ts:90-119 | over a user's watched paths the batch and the single closes give the same directory map and the same sequence of messages, which is every other user's watches in order and the paths only this user watched |
| DirWatch.BatchIsOneByOneIff | env/src/core/fs.service.ts:93-102 | for distinct cached paths the two agree if and only if the user watches every one of them |
| DirWatch.AddKeepsWellFormed | env/src/core/fs.service.ts:107-110 | watcher lists stay non-empty and duplicate-free, and a new watcher comes last |
| DirWatch.CloseUndoesOpen | env/src/core/fs.service.ts:103-119 | closing what a new watcher opened restores the directory map |
| Affinity.WorkspaceService.HandleEnvReady | env/src/core/workspace.service.ts:117-164 | closing the user's directories, taking over the workspace and each way the affinity request can end; on success an entry with no open directory is owned by this instance |
| Affinity.WorkspaceService.HandleEnvClose | env/src/core/workspace.service.ts:191-204 | the user's directories are closed and their removals queued, in order |
| Affinity.SessionClosesAll | env/src/core/workspace.service.ts:117-204 | from every state with well-formed lists, a new session or the end of one leaves its user watching nothing and every other user watching what they did |
| Affinity.ListsOverRuns | env/src/core/fs.service.ts:93-119 | over every run, whatever races, crashes or gets lost, every cached watcher list is non-empty and duplicate-free |
| Affinity.ClosesAgreeOverRuns | env/src/core/workspace.service.ts:308-316 | so after every run the batch and the single closes agree on the paths a user watches |
| Affinity.WatchersGetEventsOverRuns | env/src/core/fs.service.ts:200-207 | and the fan-out gives a user the surviving events of the paths they watch, once each and in order |
| Affinity.TakeOverStep | env/src/core/workspace.service.ts:134-158 | a take-over keeps cached owner, affine instance and path state together if and only if its answer is not lost while another instance is the cached owner |
| Affinity.StepKeepsAffine | env/src/core/workspace.service.ts:125-164 | for every step, these stay together if and only if the step is no such take-over and no pod loss before the entry goes, whatever happens to watches |
| Affinity.AffinityOverRuns | env/src/core/workspace.service.ts:117-222 | over every run of any number of instances, they coincide at every moment if and only if no step was of that kind |
| Affinity.ClosingKeepsCovered | env/src/core/fs.service.ts:90-119 | closing directories leaves a path in use with an outstanding watch if and only if the path did not lose its last watcher while being opened |
| Affinity.StepKeepsCovered | env/src/core/fs.service.ts:71-119 | for every step and path, a path with a cached watcher or being opened keeps its outstanding watch if and only if its last watcher does not leave during an open of it and the pod does not go while it is in use |
| Affinity.CoverageOverRuns | env/src/core/fs.service.ts:71-119 | over every run and for each path by itself this holds at every moment if and only if no step was of that kind for that path |
| Affinity.NoWatchEventDropped | env/src/core/fs.service.ts:121-123 | after every run without a step that splits affinity or uncovers this path, whatever happened to other paths, and with no watch message under way, events of the watched path are reported to the cached owner and find path state there, unless it crashed |
| Affinity.CrashedHearsNothing | env/src/core/workspace.service.ts:117-164 | after a crash the instance is back in no run, and no event is handled by it |
| Affinity.NothingWaitsWithoutPod | env/src/core/fs.service.ts:71-119 | over every run no watch message waits while there is no daemon to read it |
| Affinity.WatchEventHandled | env/src/core/fs.service.ts:121-123 | a run after which events of an opened directory are handled by the instance that took over |
| Affinity.DroppedWorkspaceMoves | env/src/core/workspace.service.ts:134-158 | a run in which the entry of a workspace with an open directory is dropped and another instance takes over |
| Affinity.OpenEndsOnce | env/src/core/fs.service.ts:71-89 | an open ends once, and when it succeeds its user is among the watchers |
| Affinity.RacingCloseLosesWatch | env/src/core/fs.service.ts:71-89 | the failing family: from every state with well-formed lists, a last close during an open leaves a watched path without a watch |
| Affinity.RacingCloseHappens | env/src/core/fs.service.ts:71-89 | a run from the start in which that happens |
| Affinity.LostAnswerBreaksAffinity | env/src/core/workspace.service.ts:144-161 | a run in which a lost answer makes the daemon report to an instance without path state while the cache names another |
| Presence.PresenceService.SetSessionState | gateway/src/socket/presence.service.ts:167-181 | mode and marker are written together, with the timeout of the mode |
| Presence.PresenceService.HandleConnection | gateway/src/socket/socket.gateway.ts:150-172 | a connect creates or revives the session, keeping its workspace |
| Presence.PresenceService.HandlePing | gateway/src/socket/presence.service.ts:47-54 | a ping revives a known session and is refused without one |
| Presence.PresenceService.HandleDisconnect | gateway/src/socket/socket.gateway.ts:179-186 | a disconnect makes a known session inactive and ignores an unknown one |
| Presence.PresenceService.HandleStaleSession | gateway/src/socket/presence.service.ts:79-94 | a notice makes an active session inactive, removes an inactive one and ignores a missing one |
| Presence.PresenceService.HandleSessionExpiry | gateway/src/socket/presence.service.ts:104-123 | removal takes one session, and the user's record with the last of them |
| Presence.RecordsOverRuns | gateway/src/socket/presence.service.ts:104-123 | over every run no user has a record without a session: it goes with the last one |
| Presence.PresenceService.InvalidatePreviousSessions | env/src/core/workspace.service.ts:296-306 | the loop detaches exactly the sessions of that workspace, for every listing order |
| Presence.PresenceService.HandleEnvReady | env/src/core/workspace.service.ts:131-170 | detaching, then attaching; it fails, with the sessions detached, exactly when the workspace could not be taken over or the user is present without that session |
| Presence.MarkersRepeatOverRuns | gateway/src/socket/presence.service.ts:167-181 | over every run, whatever happens to the notices, a pending marker repeats its session's mode, an active one runs out one ping timeout after the session was last seen, an inactive one no sooner than an activity timeout after that and no later than one from now |
| Presence.StepKeepsCorrespondence | gateway/src/socket/presence.service.ts:79-123 | for every step: sessions are present exactly while a marker or a notice of theirs is, if and only if the step does not remove a session that has a marker or another notice left |
| Presence.PresenceOverRuns | gateway/src/socket/socket.gateway.ts:150-186 | over every run this holds at every moment if and only if no removal was of that kind |
| Presence.StepKeepsSafe | gateway/src/socket/presence.service.ts:79-123 | for every step: nobody was removed within the activity timeout of a connect or ping, nor would be by handling the notices under way, if and only if the step is no disconnect with a notice under way, no further notice for an active session with one, both within that timeout, and no connect or ping with two |
| Presence.SafetyOverRuns | gateway/src/socket/socket.gateway.ts:150-186 | over every run this holds at every moment if and only if every step was of that kind |
| Presence.SafeExactly | gateway/src/socket/presence.service.ts:79-94 | what is kept is the absence of early removals itself: a state with none so far is safe if and only if none follows however many notices of a session are handled next |
| Presence.RemovedOnlyWhenSilent | gateway/src/socket/presence.service.ts:104-123 | in every such run, connects and pings that race a notice included, a session removed by expiry had no connect or ping for the whole activity timeout |
| Presence.DisconnectRaceRemovesEarly | gateway/src/socket/socket.gateway.ts:179-186 | a run in which a disconnect meets a notice and the session goes one ping timeout after it was seen |
| Presence.RedeliveryRemovesActive | gateway/src/socket/presence.service.ts:79-94 | a run in which a notice handled twice does the same to an active session |
| Presence.StepLookup | gateway/src/socket/presence.service.ts:79-123 | what every step does to every session, read session by session: only the session addressed changes, except for detaching |
| Presence.SilentSessionGoes | gateway/src/socket/presence.service.ts:79-94 | from any state, without connect or ping a session is gone once two of its notices were handled, whatever else happens |
| Presence.UniqueOverRuns | env/src/core/workspace.service.ts:296-306 | over every run a user has at most one session attached to a workspace |
| Presence.LookupIgnoresOrder | env/src/core/sync.service.ts:455-461 | after every run, looking up the session attached to a workspace gives the same answer for any two listing orders |
| Presence.FindSession | env/src/core/workspace.service.ts:183-185 | the lookup loop returns a session attached to the workspace, or none if there is none |
| Membership.MembershipService.CheckMembership | gateway/src/socket/membership.service.ts:26-49 | a cached answer is used; otherwise the table's is, and is stored only when positive |
| Membership.MembershipService.InvalidateRemovedMembers | gateway/src/socket/membership.service.ts:55-75 | the loop removes the workspace from exactly the records of the removed users |
| Membership.MembershipService.UpdateAddedMembers | gateway/src/socket/membership.service.ts:76-96 | the loop turns existing answers of the added users positive and adds none |
| Membership.MembershipService.HandleMembersModified | gateway/src/socket/membership.service.ts:51-54 | removals come before confirmations |
| Membership.UpdateStep | workspace/src/manage/manage.service.ts:196-272 | for each user and workspace: a member update keeps a cached or pending membership real or announced as removed, if and only if its author stays or does not remove this member while the cache claims them |
| Membership.DeleteStep | workspace/src/manage/manage.service.ts:327-372 | deleting a workspace always does |
| Membership.LeaveAllStep | workspace/src/manage/manage.service.ts:374-443 | deleting a user, their own workspaces first with their notices, does if and only if this is not their claimed row with role `admin` |
| Membership.LeavingIsAllowed | workspace/src/manage/manage.service.ts:383-394 | after every run no row has that role, so deleting a user always does |
| Membership.HandleStep | gateway/src/socket/membership.service.ts:51-99 | handling a notice does if and only if no lookup of this removed member waits to be stored, unless they are back or another removal is under way |
| Membership.StepKeepsCoherent | workspace/src/manage/manage.service.ts:196-443 | for every step and every user and workspace: coherence survives if and only if the step is allowed for them |
| Membership.CoherenceOverRuns | gateway/src/socket/membership.service.ts:26-99 | over every run with notices and lookups in flight, and for each user and workspace by itself, coherence holds at every moment if and only if every step was allowed for them |
| Membership.CoherentExactly | gateway/src/socket/membership.service.ts:34-49 | coherence is the absence of a stale entry itself: none in the cache now, and none after the next lookup is stored, whichever it is |
| Membership.QuietCacheAgrees | gateway/src/socket/membership.service.ts:26-33 | after every run allowed for a user and workspace, whatever happened to others, and with no removal of them still to be handled, the gateway's answer is exactly the table's |
| Membership.MemberDiff | workspace/src/manage/manage.service.ts:162-177 | the two loops give duplicate-free, disjoint differences of the requested and the actual members |
| Membership.AcceptedUpdateReachesRequest | workspace/src/invite/invite.service.ts:102-119 | once everybody added has accepted, in any order and with repeats, the members are exactly the requested ones, those added with the role of a member and the others with the role they had, provided the author stays |
| Membership.OnlyCreatingEmpowers | workspace/src/manage/manage.service.ts:103-109 | for every step, whoever may manage a workspace and could not before has just created it; accepting an invitation empowers nobody |
| Membership.ManagersCreated | workspace/src/manage/manage.service.ts:135-145 | over every run, whoever may manage a workspace created it |
| Membership.OneManagerOverRuns | workspace/src/manage/manage.service.ts:135-145 | over every run at most one user may manage a workspace |
| Membership.OthersManageNothing | workspace/src/manage/manage.service.ts:334-343 | so in every run a member update or deletion by anybody else, invited members included, changes nothing |
| Membership.AcceptRows | workspace/src/invite/invite.service.ts:102-115 | an accepted invitation gives that user the role of a member and changes no other row |
| Membership.UpdateRows | workspace/src/manage/manage.service.ts:196-242 | which rows and invitations a member update leaves, with and without its author |
| Membership.DeleteRows | workspace/src/manage/manage.service.ts:327-372 | a deleted workspace takes its rows and no other ones |
| Membership.LeaveAllRows | workspace/src/manage/manage.service.ts:374-443 | a user who leaves takes their rows, the workspaces they own and the rows of those |
| Membership.NoticeAnswers | gateway/src/socket/membership.service.ts:51-99 | what a notice does to each cached answer: forgotten for those removed, positive for those added if it was there, unchanged for all others |
| Membership.SelfRemovalInvitesNobody | workspace/src/invite/invite.service.ts:91-95 | an author who removes themself gets the removals, and nobody new can join |
| Membership.SelfRemovalGoesUnnoticed | workspace/src/manage/manage.service.ts:196-242 | a run that ends with nothing in flight and the gateway still letting a removed author in |
| Membership.LateStoreOutlivesRemoval | gateway/src/socket/membership.service.ts:34-49 | a run that ends so because a lookup was stored after the removal had been handled |
| Provision.TotalRequested | provisioner/handlers/provision_handler.go:436-460 | the loops sum the requests of all containers of running pods |
| Provision.SumAppend | provisioner/handlers/provision_handler.go:447-452 | a pod requests the sum over all its containers, however they are split |
| Provision.RequestedAppend | provisioner/handlers/provision_handler.go:436-460 | and the pods together the sum over all of them |
| Provision.OldestRunning | provisioner/handlers/provision_handler.go:479-492 | the loop finds the first of the oldest running pods, and none exactly if none runs |
| Provision.HasCapacity | provisioner/handlers/provision_handler.go:403-523 | a request fits exactly if the CPU requested by running pods and its own stay below allocatable − idle; one that does not is given no pod to preempt exactly if no spot pod runs or, for a spot request, none is past the age limit; otherwise the first of the oldest running ones |
| Provision.Node.CheckCapacity | provisioner/handlers/provision_handler.go:193-208 | the check and the choice, on the stored pods |
| Provision.Node.KillVictim | provisioner/services/provision_service.go:592-612 | the pod of that name goes, also when the answer is lost and the request fails; its service stays |
| Provision.Node.CreatePod | provisioner/services/provision_service.go:200-232 | pod, service and lease, each done, refused or done with the answer lost, with the rollback of the pod when the service is not known to be created; without a failure all of them exist, and a failure grants no lease |
| Provision.PreemptOutcome | provisioner/services/provision_service.go:592-612 | for every state and answer, the request goes on exactly if the chosen pod was there and the delete done; the pod is gone unless it was refused; services stay |
| Provision.CreateOutcome | provisioner/services/provision_service.go:200-232 | for every state and answers: when a creation succeeds, what a failed one leaves behind, and when a lease is granted |
| Provision.OnlySpotPodsArePreempted | provisioner/handlers/provision_handler.go:470-522 | in every interleaving a killed pod was labelled spot at the kill; if created dedicated, a lease kept under its name and granted more than the lease time ago had run out; it was the oldest running one of the spot pods listed; for a spot request it was past the age limit |
| Provision.PodGoesOnlySo | provisioner/services/provision_service.go:592-612 | for every step, a pod stays unless it is disposed of or its preemption is recorded |
| Provision.LockIsExclusive | provisioner/handlers/provision_handler.go:178-188 | for every step, the lock passes from one request to another only by being free in between |
| Provision.LockIsReleased | provisioner/handlers/provision_handler.go:180-229 | over every run, whatever happens in between and however its steps end, a request holds the lock for fewer than five steps of its own |
| Provision.PodsStartAndEnd | provisioner/handlers/provision_handler.go:442-453 | a started pod is not pending any more and an ended one does not run |
| Provision.StepKeepsBound | provisioner/services/provision_service.go:200-220 | for every step, the CPU requested by pending and running pods stays below allocatable − idle + (pod request − configured request) if and only if the step does not leave a new pod behind for which that bound has no room |
| Provision.BoundOverRuns | provisioner/handlers/provision_handler.go:193-208 | over every interleaving the bound holds at every moment if and only if no creation was of that kind |
| Provision.FullCountKeepsBound | provisioner/handlers/provision_handler.go:436-468 | over every interleaving the bound holds at every moment if every check that lets a request through would do so with the pending pods counted |
| Provision.CheckIsRightIff | provisioner/handlers/provision_handler.go:436-468 | a check that lets a new workspace through is followed, when its pod is created at once, by a kept bound if and only if the count with pending pods lets it through |
| Provision.PendingPodOverfills | provisioner/handlers/provision_handler.go:442-453 | for every node with room for just one workspace, a run from the empty node in which a second one is admitted while the first is pending and the bound is broken |
| Provision.NodeNotOvercommitted | provisioner/util/pod_spec.go:81-84 | hence, when the idle reserve covers the difference, running pods ask for less than the node has |
| Provision.StepKeepsOrphan | provisioner/services/provision_service.go:207-220 | a workspace with a service and no pod stays so at every step, if and only if the step is not a creation that fails and leaves its pod behind |
| Provision.PreemptedStaysDown | provisioner/services/dispose_service.go:94-98 | after every preemption of a pod with a service, told or not, in every run: its service stays and its pod is not back at any moment, whatever is restored, disposed of or reconciled, if and only if no such creation happens |
| Provision.PreemptionHappens | provisioner/handlers/provision_handler.go:503-509 | a run from the empty node up to such a preemption |
| Provision.SpotRequestPreempts | provisioner/handlers/provision_handler.go:511-522 | a run from the empty node in which a spot request preempts a pod past the age limit |
| Provision.LapsedPodIsPreempted | lease-controller/internal/controller/workspace_controller.go:43-62 | a run from the empty node in which a pod created dedicated is preempted once its lease has run out |
| Provision.Node.DisposePod | provisioner/services/dispose_service.go:85-118 | pod and service go together, and nothing happens without a pod |
| Provision.DisposeTakesBoth | provisioner/services/dispose_service.go:85-118 | for every state, disposal takes the pod and its service and leaves every other workspace alone |
| Provision.Node.ReconcileLease | lease-controller/internal/controller/workspace_controller.go:28-67 | exactly a lease that ran out turns every pod of its name into a spot pod, keeping its name, phase, age and requests, and goes, unless the patch or the delete fails; before that nothing changes |
| Provision.Node.DeleteWorkspace | provisioner/services/delete_service.go:62-107 | disposing twice and deleting the lease, run out or not, are steps of the runs; no pod of the workspace is left, and of the leases only its own goes |
| Provision.Node.Provision | provisioner/handlers/provision_handler.go:180-229 | a request with nothing else happening; it is refused for capacity exactly if it does not fit and there is no pod to preempt, and then no pod is touched; after a success its service exists, and its lease if it is dedicated and that was not refused |
| Provision.AloneIsARun | provisioner/handlers/provision_handler.go:180-229 | the handler in one piece is the sequence of its steps, so the theorems over runs cover it |
| Provision.SafeOverRuns | provisioner/handlers/provision_handler.go:180-229 | over every interleaving of provisioning, reconciling, disposal and clock, names stay unique, workspace pods carry the workspace request, leases run for the lease time and every kill so far was a right one |
| Provision.NothingPendingIsAllowed | provisioner/handlers/provision_handler.go:436-460 | a check made while no pod is pending is never of that kind |
| Volumes.Cluster.CreateVolume | provisioner/services/provision_service.go:474-510 | success exactly for a fresh id with every create done; nothing that existed is lost, whatever fails; for a fresh id the volume exists afterwards exactly when the call succeeded, except for a lost last answer with no delete taking effect; with deletes taking effect a failure leaves the store unchanged exactly when the failing create was refused |
| Volumes.Cluster.VolumeExistsHere | provisioner/services/provision_service.go:323-369 | found exactly if both volumes and both claims exist |
| Throttle.AlternationStep | env/src/core/fs.service.ts:131-149 | for every step, the signals sent for each path alternate starting with block, if and only if the step does not send one while an odd number of that path's signals went unsent or came from stray timers since the last reset (for a stray timer: while the path is bursting exactly when that number is odd) |
| Throttle.SignalsAlternate | env/src/core/fs.service.ts:121-168 | for any events, timestamps, timer firings and failing signals, they alternate at every moment if and only if no step was of that kind |
| Throttle.FaultlessIsInTurn | env/src/core/fs.service.ts:154-168 | no step is of that kind if no signal fails and no stray timer fires |
| Throttle.QuietResetsAreFaultless | env/src/core/fs.service.ts:63-70 | no stray timer fires if every reset finds no timer pending |
| Throttle.FailedBlockLetsResumeComeFirst | env/src/core/fs.service.ts:137-149 | a run without a reset in which the first signal sent is a resume |
| Throttle.StrayResumeComesFirst | env/src/core/fs.service.ts:63-70 | a run in which no signal fails and a reset during a cooldown makes the first signal a resume |
| Throttle.BurstIsBounded | env/src/core/fs.service.ts:131-152 | from any state, a window of events of one path with gaps of at most the interval, whatever timers fire and other paths do in between, adds at most the threshold of them to the batch |
| Throttle.CountIsStreak | env/src/core/fs.service.ts:131-135 | over every run, the count of a path is the number of its last events that follow each other without a gap longer than the interval |
| Throttle.PassesIff | env/src/core/fs.service.ts:137-152 | over every run, an event is batched exactly when its path is not blocked and it is within the threshold of its streak |
| Throttle.GapPasses | env/src/core/fs.service.ts:131-152 | from any state, an event after a longer gap passes if its path is not blocked, whatever came before |
| Throttle.AllBatchedIff | env/src/core/fs.service.ts:131-152 | from any state where a path is not blocked, all its events are batched if and only if no streak goes beyond the threshold, whatever else happens |
| Throttle.TimerUnblocks | env/src/core/fs.service.ts:142-149 | a timer that fires ends the burst of its path and changes no other path |
| Throttle.StraysFireOnce | env/src/core/fs.service.ts:63-70 | over every run, each timer that outlives a reset fires at most once |
| Fanout.PushToWatchers | env/src/core/fs.service.ts:204-207 | the inner loop gives every user one more copy per listing as a watcher, and no list to anybody else |
| Fanout.Sync | env/src/core/fs.service.ts:175-208 | the loops give each user, for every batch, what was pushed to them and no list to users with nothing; for well-formed directories exactly the events they want; and the conflicts in order |
| Fanout.UserGetsWatchedEvents | env/src/core/fs.service.ts:200-207 | for every batch and well-formed directory map this is the in-order subsequence of the surviving events whose path the user watches, once each |
| Fanout.OneEvent | env/src/core/fs.service.ts:180-207 | an event by itself reaches a watcher of its path unless it is a write to a file whose document is open nowhere or has the hash of the file; an event of the root goes to the watchers cached under the root with a slash |
| Fanout.OneConflict | env/src/core/fs.service.ts:181-197 | a conflict is reported exactly for a write to a document open here whose hash differs from the file |
| Pipeline.FSService.HandleWatchEvent | env/src/core/fs.service.ts:121-153 | counter, burst flag, timer, signal, batch and debounce timer changed in place, with the signal sent, having nobody to go to, or throwing; a gap longer than the interval makes the count start again at this event, and the event is batched exactly if its path was not blocked and the count is within the threshold |
| Pipeline.FSService.SetWorkspace | env/src/core/fs.service.ts:63-70 | fresh path state, batch and debounce timer; old timers and processings go on |
| Pipeline.FSService.Process | env/src/core/fs.service.ts:169-215 | a processing left alone is a run of its steps, sends every user the fan-out of exactly the batch with the watchers cached when it started, or nothing without a cached workspace, and leaves an empty batch |
| Pipeline.DeliveredOnceWithoutOverlap | env/src/core/fs.service.ts:169-174 | over every run without resets and overlapping processings, delivery is once and in order at every moment if and only if every processing has read the whole batch when it replaces it |
| Pipeline.OrderWithoutOverlap | env/src/core/fs.service.ts:169-174 | over every such run, whatever is lost, no event is delivered twice or after a later one |
| Pipeline.UserListsOverRuns | env/src/core/fs.service.ts:175-215 | over every run, with any processings overlapping, each delivery is about a stretch of accepted events and sends every user exactly the surviving ones whose path they watched when it started, once each and in order |
| Pipeline.DeliveriesTile | env/src/core/fs.service.ts:169-215 | over every run without overlap and loss, the deliveries tile the accepted events from the first one on, without gap or overlap, up to what a loop under way has read |
| Pipeline.DeliveriesKeepToBatches | env/src/core/fs.service.ts:169-208 | over every run, with resets and any processings overlapping, no delivery mixes the events of two batches |
| Pipeline.ResetMakesStale | env/src/core/fs.service.ts:63-70 | over every run, a reset makes every processing under way one of an old workspace state |
| Pipeline.StaleSparesBatch | env/src/core/fs.service.ts:169-174 | for every step, such a processing stays one until it ends, and then clears nothing but itself |
| Pipeline.NoProcessingWithoutEvent | libs/common/utils/index.ts:9-21 | over every run, processings started and debounce timers pending are together no more than the events accepted |
| Pipeline.StrayTimerProcesses | env/src/core/fs.service.ts:63-70 | a debounce timer that outlives a reset starts one processing of the new batch |
| Pipeline.OpKeepsOnce | env/src/core/fs.service.ts:169-208 | for every push, start, read, end of loop, replacement and reset, with any number of processings under way: the events delivered are the first accepted ones, once each and in order, and every other one is in the batch or ahead of a running loop, if and only if a read takes the first undelivered event and a replacement or reset finds every undelivered one ahead of a running loop |
| Pipeline.DeliveredOnceOverRuns | env/src/core/fs.service.ts:121-174 | over every run of throttle and queue together this holds at every moment if and only if every read, replacement and reset was of that kind; and always the events received are the accepted and the dropped ones, each in order |
| Pipeline.NothingForgotten | libs/common/utils/index.ts:9-21 | over every run from every such state, each received event is accepted, or dropped in a burst, in order, and a non-empty batch has its debounce timer pending or a processing that will replace it |
| Pipeline.LateEventIsLost | env/src/core/fs.service.ts:172-173 | a run in which such an event is accepted, not delivered and in no batch |
| Pipeline.OverlapDeliversTwice | env/src/core/fs.service.ts:169-174 | a run in which two processings deliver an event twice |
| Pipeline.ThrottleRunsAlone | env/src/core/fs.service.ts:121-153 | the throttle inside the pipeline behaves as on its own, so its theorems carry over |
| EmailPin.AuthService.RegisterEmail | auth/src/main/java/me/saurabhagat/hide/auth_service/service/AuthService.java:49-75 | counters, pin and lifetime of the record after a request, and its answer |
| EmailPin.AuthService.VerifyEmail | auth/src/main/java/me/saurabhagat/hide/auth_service/service/AuthService.java:77-97 | counters, pin and lifetime of the record after a guess, and its answer |
| EmailPin.AttemptsAreBounded | auth/src/main/java/me/saurabhagat/hide/auth_service/service/AuthService.java:49-97 | over any sequence of calls and pauses, one lifetime of the record sees at most 3 pins mailed and 4 guesses compared |
| EmailPin.AnswersAreCounted | auth/src/main/java/me/saurabhagat/hide/auth_service/service/AuthService.java:49-97 | what is counted is what is answered: a mailed pin, and a guess found right or wrong |
| EmailPin.MailedPinVerifies | auth/src/main/java/me/saurabhagat/hide/auth_service/service/AuthService.java:49-97 | from every state, a mailed pin succeeds within 300 s, once, and has expired afterwards |
| EmailPin.SuccessNeedsLastPin | auth/src/main/java/me/saurabhagat/hide/auth_service/service/AuthService.java:49-97 | over any sequence of calls, a guess succeeds only if it is the pin drawn last |
| EmailPin.RefusalLocks | auth/src/main/java/me/saurabhagat/hide/auth_service/service/AuthService.java:55-85 | after a refusal for too many guesses, every call is refused and nothing is mailed or compared until 900 s pass without a call |
| EmailPin.PauseUnlocks | auth/src/main/java/me/saurabhagat/hide/auth_service/service/AuthService.java:49-75 | after such a pause the next request is mailed |
| EmailPin.WrongGuessShortensRequestLock | auth/src/main/java/me/saurabhagat/hide/auth_service/service/AuthService.java:77-97 | the lock for too many requests is not like that: without a call it lasts exactly 900 s, and after one wrong guess exactly 300 s, in every state it is entered from |
| EmailPin.FourthRequestIsRefused | auth/src/main/java/me/saurabhagat/hide/auth_service/service/AuthService.java:61-71 | without a live record, three requests in a row are mailed and the fourth is refused |
| EmailPin.RefusedRequestVoidsMailedPin | auth/src/main/java/me/saurabhagat/hide/auth_service/service/AuthService.java:49-75 | a refused request makes every earlier pin wrong |
| AccessCode.Generate | workspace/src/utils/index.ts:5-20 | for every stream, however cut into blocks, and every length, the nested loops give the first characters of the accepted bytes mapped into the alphabet, and need more bytes exactly if those do not suffice |
| AccessCode.AccessCode | workspace/src/utils/index.ts:3-20 | the same for the alphabet of the service |
| AccessCode.CharactersAreEquallyLikely | workspace/src/utils/index.ts:5-20 | for every alphabet of 1 to 256 characters, each position is given by exactly ⌊256/n⌋ accepted byte values |
| AccessCode.EightBytesEach | workspace/src/utils/index.ts:3-16 | for the alphabet of the service, 248 byte values are accepted and 8 of them give the character at each of its 31 positions |
| AccessCode.RejectedGiveNothing | workspace/src/utils/index.ts:5-16 | a byte gives no character exactly if it belongs to no position |
| CacheKeys.KeysDiffer | libs/common/cache/presence.ts:1-9 | presence, session and workspace keys built from colon-free ids are equal only if they are of one kind and their ids are equal |
| CacheKeys.SplitJoinIff | libs/common/cache/presence.ts:3-9 | taking a key apart gives back its parts if and only if no part holds the separator |
| CacheKeys.SessionKeyDispatch | gateway/src/socket/presence.service.ts:71-78 | a session key reaches the session handler with its own ids if and only if they are colon-free |
| CacheKeys.WorkspaceKeyDispatch | gateway/src/socket/socket.gateway.ts:348-357 | a workspace key reaches the workspace handler with its own ids if and only if they are colon-free and the workspace id is not empty |
| CacheKeys.OtherKeysIgnored | gateway/src/socket/socket.gateway.ts:348-357 | keys of any other kind reach no handler |

## Left out

- Yjs documents, awareness states, conflict resolution and ssh streams: the libraries are not part of this model; a document is the set of its users.
- HTTP, NATS, RabbitMQ, Firestore, Typesense, e-mail and Kubernetes client code: each call is a parameter that says how it ended.
- Workspace-level expiry with several users: one `state` flag serves all of them, and the expiry of one session disposes of the workspace whoever is active; the workspace markers and that flag are not modelled.
- Access-code requests, approval and `canProvision`: resets and repeated approvals can leave a user with several unused codes, so there is no promise of one active code to prove; the codes themselves are `AccessCode`.
- Interleavings inside handlers other than those split above: cache records are otherwise read and written in one step.
- DocSync.SyncService.Open: does not model the session an answer is sent to, nor a cache that fails at the ownership check, after which nothing has changed.
- DocSync.SyncService.FinishOpen: takes as a parameter whether the map it started with is still in use; in the code that is the identity of the map object.
- DocSync.SyncService.Close: does not model the awareness clients removed with a user.
- Affinity.WorkspaceService.HandleEnvClose: does not model the membership check, the ssh close and the workspace marker set when no directory is left; a call that finds no attached session does nothing and is not a step.
- Affinity.WorkspaceService.HandleEnvReady: takes the directory part; the attached session is `Presence.PresenceService.HandleEnvReady`. A lock that cannot be acquired ends the call before any change.
- Presence.PresenceService.HandleStaleSession: does not model the workspace's own state and marker.
- Presence.PresenceService.HandleConnection: does not model authentication, the socket ids and closing the old socket.
- Membership.CoherenceOverRuns: does not model a database transaction that fails, after which nothing has changed, nor the signatures of invitation tokens; an invitation is a pair of user and workspace and can be accepted any number of times.
- Provision.Node.DisposePod: does not model the 20 s grace period, the pod goes at once, nor a service that cannot be deleted.
- Provision.Node.DeleteWorkspace: does not model the volumes and the cleanup job that go with a deleted workspace.
- Provision.SafeOverRuns: does not model system pods that start later, nor the listing errors of Kubernetes, after which the request fails before any change.
- Pipeline.FSService.HandleWatchEvent: does not model events handled while a block signal is being sent; the handler is one step.
- Throttle.SignalsAlternate: does not model which sessions a signal reaches, nor the rejected promise of a resume that throws, which may end the process.
- Pipeline.DeliveredOnceOverRuns: does not model a cache that fails during a processing, nor the debounce time; a pending timer may fire at any moment.
- Fanout.Sync: does not model the sessions a user's list is sent to.
- EmailPin.AuthService.RegisterEmail: does not model the e-mail format check and the failure of the mail itself.
- EmailPin.AuthService.VerifyEmail: does not model the creation of the account after a success.
- AccessCode.Generate: takes the random blocks as a finite list and says when more would be drawn; that the loop ends is a matter of chance.
- Docker development paths, job specifications, the proxy, notifications, profiles, search and migrations.
