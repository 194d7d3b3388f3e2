# Pangolin operator: verified model

The operator keeps Kubernetes objects in step with a remote Pangolin server. Each reconciler is a
protocol over two or three stores: the object (spec, generation, status, finalizer), the server's
tables, and for sites a Secret with the tunnel's credentials. Every call can fail, an answer can be
lost after the call took effect, and the process can stop between any two calls. This project models
the reconcilers step by step and proves what holds in every state of every run, where the protocol
stops short, and the algorithms it rests on.

## How it is built

| files | content |
|---|---|
| `Shared`, `Server`, `Domains` | error kinds and replies, the server's tables, domain resolution |
| `PublicResource`, `PublicReconciler` | the PublicResource reconciler as functions and as a class whose methods are proved equal to them |
| `PublicSafety`, `PublicChildren`, `PublicSteps`, `PublicProtocol` | the invariant, call by call and piece by piece |
| `PublicRuns`, `PublicConvergence`, `PublicCleanup` | the theorems about runs |
| `PublicMeaning`, `PublicShapes`, `PublicReports` | what is at the server field by field when a spec is realised, what is created, and what is reported when the work cannot be done |
| `PublicAccounts`, `PublicConservation` | where every target and rule comes from, in every state of every run |
| `PublicBoundaries` | settings that are never cleared, and what is left when a process stops after creating or recording |
| `PublicTwins`, `PublicLoose`, `PublicOutage`, `PublicDrops` | deletions by others at any time: when exactly an object is reported ready although its spec is not realised |
| `PublicConfined`, `PublicCreationEdits`, `PublicEdits` | edits during an activation: which ones exactly can be missed |
| `PublicRenaming` | renames: when exactly a second resource is created |
| `ParallelCreation` | threads that create targets and rules in parallel, in any schedule |
| `NewtSite`, `NewtReconciler`, `NewtSafety`, `NewtRuns`, `NewtEdits`, `NewtMeaning` | the NewtSite reconciler with its credentials Secret |
| `PrivateResource`, `PrivateReconciler`, `PrivateRuns`, `PrivateConvergence`, `PrivateEdits`, `PrivateMeaning` | the PrivateResource reconciler |
| `Discovery`, `DiscoveryRuns`, `DiscoveryMeaning`, `DiscoveryFailures`, `DiscoveryController`, `ServicePorts`, `Annotations` | auto-discovery from routes and services |
| `Pagination` | the list loops of the API client |

An activation of a reconciler is a function of the state and a *script*: one event for each call, in
order, saying what others do just before the call (edit the object, ask for its deletion, delete or
add rows at the server) and how the call is answered (served, refused, or done with the answer lost).
When the script runs out the process stops and nothing it does has an effect. Cutting a script after
n events gives the state after n calls, so a statement about all scripts is a statement about every
intermediate state. A run is a trace of states in which others act, the site becomes ready or not,
and the reconciler is activated under some script.

The reconcilers change their copy of the object, the stored object and the server in place. The
classes `Reconciler` do the same with fields, loops and an array of created IDs; each method's
postcondition equates the new state with the function of the same name, and the theorems are about
the functions. The modules whose names end in `Meaning`, with `PublicShapes` and `PublicReports`, say
what those theorems come to at the server and in annotations, in terms of fields, texts and calls.

## Assumptions

- One worker handles an object at a time. IDs are non-zero and never reused; between two creations
  the server may hand out IDs to others. A 404 is the truth. Reads are not stale. A listing by name
  contains every live row of that name.
- A status patch carries the fields that changed in memory; a served patch or read refreshes the
  whole copy, also with edits that came meanwhile. A failed patch leaves the mutation in memory.
- The hash is injective and never empty; it is modelled by the list it was taken of.
- PublicResource runs keep name, protocol and domain, and nobody else creates or deletes matching
  resources, except where a theorem says otherwise; the domain is one that the server composes again
  from what `Domains.ResolveDomain` returns (`Domains.ResolutionRoundTrip` says exactly which).
  What happens without these assumptions is the subject of `PublicRenaming`, and of `PublicOutage` and
  `PublicDrops`, where others delete resources between any two calls.
- The theorems on readiness and convergence of a PublicResource allow edits during an activation that
  ask the server for nothing new (same targets, rules and settings request). Other edits can be missed
  or not, depending on what the activation has to do: `PublicEdits.LateEditIsMissed` says when, for one
  edit during one activation, on the update, adoption and creation paths. Safety, conservation and
  cleanup allow any edits that keep the identity.
- NewtSite and PrivateResource runs allow others to create and delete anything at the server, except
  that readiness of a PrivateResource assumes that nobody deletes its row. Names are not empty
  (`api/v1alpha1/privateresource_types.go:15`).

## What the source promises and the code does not do

- An edit that arrives while an activation is at work can be reported as observed without being
  applied, because every patch of the status refreshes the copy whose generation is then reported: the
  patches that record targets or rules of an update or an adoption, and the one that records the
  children of a new resource. `PublicEdits.LateEditIsMissed` says exactly which edits can be missed in
  which states, and `PublicEdits.MissedInRuns` is such a run in which no call fails. Of a
  PrivateResource and a NewtSite edits can be missed exactly when a resource is created
  (`PrivateEdits.LateEditIsMissed`), or a site found or created (`NewtEdits.LateRenameIsMissed`).
- After others have deleted the tracked resource, an object can be reported ready with nothing of its
  spec on the server. `PublicOutage.OutageExactly` says exactly when that can happen, the 404 reset
  that keeps the hashes and the adoption that keeps the observed generation included
  (`PublicOutage.ResetKeepsHashes`, `PublicOutage.ReadoptionKeepsGeneration`), and
  `PublicOutage.OutageInRuns` is such a run from every initial state.
- A renamed object gets a second resource, and the first is forgotten (`PublicRenaming.RenamedExactly`,
  `PublicRenaming.TwoInRuns`); a NewtSite only if its site was not recorded yet
  (`NewtRuns.CreatesExactly`, `NewtRuns.TwoInRuns`).
- Targets and rules are left behind when they cannot be recorded or deleted; nothing collects them
  later (`PublicConservation.EveryRowHasOneFate`).
- A created resource that was not recorded survives the deletion of its object
  (`PublicBoundaries.OrphanSurvivesCleanup`).
- "Always re-apply all settings" (`internal/controller/publicresource/controller.go:366`) does not
  clear optional settings (`PublicBoundaries.SettingsFollowTheSpec`, `PrivateRuns.UpdateFollowsTheSpec`).
- A NewtSite whose process stops between the creation of the site and the write of its Secret is
  adopted later without credentials and reported ready (`NewtRuns.AdoptionLosesCredentials`); a failed
  write of the Secret leaves the site behind in the same way (`NewtMeaning.UnwrittenSecretLeavesSite`).
- The second suffix trim loses a subdomain that ends with the base domain (`Domains.OverTrimmedDomain`).
- An opt-out deletes by kind and name across namespaces (`DiscoveryRuns.OptOutRestores`), and two
  hostnames whose resource names agree (`Discovery.SameResourceName`) overwrite each other for ever
  (`DiscoveryRuns.HTTPRouteSettles`).

## Model

| member | source | states |
|---|---|---|
| PublicRuns.ReadyIsHonest | internal/controller/publicresource/controller.go:101-176 | in every state of every run, with any failures, stops and edits between activations, with requests to delete at any time, and with edits during activations that ask the server for nothing new, a status that observes the current generation means that the resource has the spec's settings and every spec target and rule is live on it |
| PublicRuns.ReadyConditionIsHonest | internal/controller/publicresource/controller.go:166-172 | under the same assumptions a Ready condition that is true of the current generation means the same |
| PublicMeaning.RealisedIsServed | internal/controller/publicresource/controller.go:367-440 | a spec is realised exactly if the recorded resource is live with the name and settings that the spec sets, target i is live on it at the site with the hostname, port and extras of item i, and rule i with its action and match in capitals, its value, and its priority or 10 times its position |
| PublicMeaning.ReadyMeansServed | internal/controller/publicresource/controller.go:166-172 | so in every run in which edits during activations ask for nothing new, a Ready condition that is true of the current generation means all that, field by field |
| PublicMeaning.EveryRunServes | internal/controller/publicresource/controller.go:75-176 | and so does the next undisturbed activation from every state of every run |
| PublicReports.UnreadySiteWaits | internal/controller/publicresource/controller.go:75-99 | while the site is missing or not ready an activation, under any script and whatever it has done before, makes no call but those for its own object, leaves the server alone, and reports Pending and nothing else, exactly if that patch is done |
| PublicReports.CreationRefused | internal/controller/publicresource/controller.go:102-131 | when the creation of the resource is refused nothing changes at the server, and the status is pending after a conflict, failed for good after a bad request, and in error otherwise |
| PublicReports.ListingRefused | internal/controller/publicresource/controller.go:102-131 | the same for the listing, which is the first call |
| PublicReports.UpdateRefused | internal/controller/publicresource/controller.go:142-162 | when the update of a live resource is refused nothing changes at the server, the object is in error, and its generation does not count as observed |
| PublicReports.UnrecordedIsRolledBack | internal/controller/publicresource/controller.go:297-312 | when recording a new resource is refused it is deleted again: what is live at the server is as before, and the object is in error |
| PublicRuns.NoTrafficGap | internal/controller/publicresource/controller.go:380-410 | once a complete target set was recorded, then in every later state, over any number of edits, failures and stops, the set that is recorded is that of some version and all of it is live on a live resource, until cleanup; so the resource has a target at all times, unless some version lists none |
| PublicRuns.AtMostOne | internal/controller/publicresource/controller.go:181-234 | no state of any run has two live resources that the reconciler created |
| PublicRuns.FinalizerFirst | internal/controller/publicresource/controller.go:59-72 | a resource of the reconciler's making is live only with the finalizer stored or a deletion under way |
| PublicShapes.CreatedAsAsked | internal/controller/publicresource/controller.go:264-294 | whatever fails, whatever others edit or delete, and wherever the activation is cut short: each resource that it creates is HTTP or not, with the protocol and on the port, as in a version that was stored when it began or came meanwhile, and no other changes its kind |
| PublicShapes.OursAreAsAsked | internal/controller/publicresource/controller.go:264-294 | in every state of every run each resource of the reconciler's making is of the kind and on the port of some version |
| PublicShapes.RecordedIsAbout | internal/controller/publicresource/controller.go:181-234 | in every state of every run the recorded resource, if live, has the name in the spec, and its domain if the spec is HTTP and has one |
| PublicShapes.CreatesIfNoneIsAbout | internal/controller/publicresource/controller.go:181-234 | an undisturbed activation creates a resource exactly if none is live with that name and domain and the recorded one is not live under its name |
| PublicShapes.FindsFirst | internal/controller/publicresource/controller.go:219-234 | the item that is adopted is the first listed one with that name and domain |
| PublicShapes.ConvergesAnew | internal/controller/publicresource/controller.go:264-360 | with nothing to keep or adopt an undisturbed activation records one new resource with the name, domain, kind, protocol and port of the spec, and everything that it lists on it |
| PublicRuns.RunKeepsInv | internal/controller/publicresource/controller.go:75-176 | the invariant holds in every state of every run, cleanup included: IDs belong to matching resources, tracked children are live, and a stored hash stands for children with exactly that content in order |
| PublicRuns.ActivationKeeps | internal/controller/publicresource/controller.go:50-176 | one activation under any script, cut anywhere, keeps every claim of the status backed by the server |
| PublicProtocol.EnsureExistsKeeps | internal/controller/publicresource/controller.go:181-215 | keep, adopt or create: success leaves a live recorded resource, and no path makes a second one |
| PublicProtocol.CreateAndPersistKeeps | internal/controller/publicresource/controller.go:264-316 | creation with roll-back leaves at most the one resource, recorded or to be found again |
| PublicProtocol.PopulateChildrenKeeps | internal/controller/publicresource/controller.go:332-360 | recording targets and rules of a new resource keeps the claims, on every failure path |
| PublicSteps.SyncKeeps | internal/controller/publicresource/controller.go:380-440 | the swap of one kind of children creates, records and only then deletes; it keeps all claims, and success records the hash of the spec's list |
| PublicChildren.CreateChildrenKeeps | internal/controller/publicresource/controller.go:445-525 | whatever the order and failures, returned IDs are new live children; on success ID i carries item i |
| PublicMeaning.CreationServes | internal/controller/publicresource/controller.go:445-525 | when the parallel requests succeed, ID i is that of a new row that holds what item i says: site, hostname, port and extras of a target; action, match, value and priority of a rule |
| PublicChildren.DeleteChildrenKeeps | internal/controller/publicresource/controller.go:405-409 | deleting old children removes nothing else |
| PublicConvergence.Converges | internal/controller/publicresource/controller.go:75-176 | from every state with backed claims, mid-crash states included, one activation whose calls are all served marks the object ready with its spec realised |
| PublicConvergence.EveryRunConverges | internal/controller/publicresource/controller.go:75-176 | from every state of every run, whatever its activations were cut short in, the next undisturbed activation realises the spec and the one after it changes nothing |
| PublicConvergence.Quiescent | internal/controller/publicresource/controller.go:166-175 | the next activation makes three calls, list, get and patch, and changes nothing on either side |
| PublicConvergence.ConvergesThenRests | internal/controller/publicresource/controller.go:75-176 | converging and then activating again is a no-op, on the create, adopt and update paths alike |
| PublicConvergence.CurrentStaysPut | internal/controller/publicresource/controller.go:141-175 | an undisturbed activation of a current object changes nothing at the server and no claim, whatever fails |
| PublicConservation.EveryRowHasOneFate | internal/controller/publicresource/controller.go:332-440 | in every state of every run, whatever fails, is lost or stops, each target and rule on the server has exactly one fate: tracked, there before the object, left in one certain activation because it could not be recorded (answer lost, recording patch not done, or stopped before it), or left in one certain activation because it was tracked and not deleted (deletion refused, or not tried because the process stopped or took its patch for failed) |
| PublicConservation.Conserves | internal/controller/publicresource/controller.go:332-440 | an activation under any script, cut anywhere: untracked rows stay, and each row that becomes untracked is either new and could not be recorded, or was tracked and could not be deleted, never both |
| PublicConservation.NothingLeaks | internal/controller/publicresource/controller.go:332-440 | in every state of a run in which no such call fails the untracked rows are exactly those from before the object |
| PublicConservation.CreateChildrenExact | internal/controller/publicresource/controller.go:475-484 | parallel creation returns new rows only, also when it fails as a whole, and a new row is missing from its result exactly if its answer was lost |
| PublicCleanup.FinalizerOffMeansGone | internal/controller/publicresource/controller.go:533-549 | if an activation removes the finalizer, under any script, the recorded resource is gone |
| PublicCleanup.FinalizerOffInRuns | internal/controller/publicresource/controller.go:59-68 | whenever a run takes the finalizer off, the object is being deleted and its recorded resource is gone |
| PublicCleanup.FinalizerComesOff | internal/controller/publicresource/controller.go:533-549 | with a recorded resource the finalizer comes off exactly if the deletion is acknowledged or finds the resource gone, the object is as it was read, and the update is done |
| PublicCleanup.FailedDeleteKeepsFinalizer | internal/controller/publicresource/controller.go:537-540 | a deletion that fails with anything but a 404 keeps the finalizer, also one that was done and whose answer got lost |
| PublicCleanup.CleanupCompletes | internal/controller/publicresource/controller.go:533-549 | undisturbed, cleanup removes exactly the recorded resource and ends; nothing of the reconciler's stays exactly if it had nothing else |
| PublicBoundaries.SettingsFollowTheSpec | internal/controller/publicresource/controller.go:237-262 | an update makes the settings what the spec asks exactly if no optional setting that the spec omits is in force at the server |
| PublicBoundaries.BasicSettingsOnly | internal/controller/publicresource/controller.go:367-378 | of TCP and UDP resources an update sets name and enabled and nothing else |
| PublicEdits.LateEditIsMissed | internal/controller/publicresource/controller.go:101-176 | for every state with backed claims in which nothing keeps the reconciler from its work, and for every edit that keeps the identity: some activation in which nobody does anything but that edit ends with the object reported ready for the edit and the edit not realised, exactly if a resource is kept or adopted, and the targets have to be recorded anew and they or the settings of the version before do not cover the edit, or the rules have to be and they, the targets or the settings do not; or if a resource is created, none having been recorded, and what is made for the version before does not cover the edit |
| PublicEdits.UpdateMeans | internal/controller/publicresource/controller.go:366-440 | an update, under any failures and with the edit at any call, that was overtaken while it recorded the targets realises the edit exactly if settings and targets of the version before cover it; one that was overtaken later, exactly if settings, targets and rules do |
| PublicEdits.EarlyEditIsSeen | internal/controller/publicresource/controller.go:134-141 | an edit that has come by the second call, the re-read or the patch that records the adoption, is not missed, whatever fails |
| PublicEdits.EditedAgain | internal/controller/publicresource/controller.go:380-440 | for a settled object that was edited and is edited again during the activation: the second edit can be missed exactly if the first changed targets or rules and leaves something of it |
| PublicEdits.MissedInRuns | internal/controller/publicresource/controller.go:398-410 | from every initial state, for every two edits that keep the identity, the first with other targets and the second with targets that those do not cover, a run in which no call fails ends with the object reported ready for the second edit and the edit not realised |
| PublicCreationEdits.LateEdit | internal/controller/publicresource/controller.go:354-359 | for an object without a resource, whatever its history: every call answered, the edit arriving with the patch that records the children; the object is reported ready for the new generation, and the edit is realised exactly if it is covered |
| PublicCreationEdits.CoveredIsRealised | internal/controller/publicresource/controller.go:318-359 | for an object without a resource, under any failures and with the edit at any call, an object that ends ready for a covered edit has it realised |
| PublicCreationEdits.SameWorkCovers | internal/controller/publicresource/controller.go:318-359 | an edit that asks the server for nothing new is always covered |
| PublicLoose.ReadyExactly | internal/controller/publicresource/controller.go:101-176 | in every state in which IDs, generation and hashes of the status may be those of a resource that is gone, the next undisturbed activation reports ready, and the spec is then realised exactly if the resource has to be created or adopted, or if what the surviving generation and hashes vouch for is still there |
| PublicDrops.RunLoose | internal/controller/publicresource/controller.go:50-176 | every state of every run is such a state, with failures, lost answers, stops, edits that keep the identity, and deletions by others between any two calls, through cleanup |
| PublicDrops.ReadyInRuns | internal/controller/publicresource/controller.go:101-176 | so in every state of every such run the next undisturbed activation reports ready, and truly so exactly under that condition |
| PublicDrops.OutageInRunsExactly | internal/controller/publicresource/controller.go:101-215 | and whenever the recorded resource is gone in such a run, an outage can follow exactly if the state is unguarded (as in PublicOutage.OutageExactly) |
| PublicDrops.StillAtMostOne | internal/controller/publicresource/controller.go:181-234 | deletions by others between any two calls do not lead to two live resources of the reconciler's making, nor to one without the finalizer before a deletion |
| PublicOutage.OutageExactly | internal/controller/publicresource/controller.go:101-215 | once the recorded resource is gone, some undisturbed activation cut anywhere and an undisturbed one after it end with the object reported ready and its spec not realised, exactly if the current generation counts as observed although there is something to do, or nothing can be adopted and a surviving hash is that of a list that is not empty |
| PublicOutage.DroppedExactly | internal/controller/publicresource/controller.go:181-198 | for a settled object whose resource others delete that is so exactly if the spec has targets, rules, or settings that are not the server's defaults |
| PublicOutage.ResetKeepsHashes | internal/controller/publicresource/controller.go:146-152 | the resource is deleted just before the settings update: the status forgets the resource and its children but keeps their hashes, and an outage can follow exactly if one of them is that of a list that is not empty |
| PublicOutage.ReadoptionKeepsGeneration | internal/controller/publicresource/controller.go:202-211 | stopped after creating another resource, the reconciler will adopt it and keep the observed generation, and an outage can follow exactly as for a settled object |
| PublicOutage.OutageInRuns | internal/controller/publicresource/controller.go:101-176 | from every initial state whose spec has a target or rule a run of three activations and one deletion by others ends in an outage |
| PublicBoundaries.SilentOutage | internal/controller/publicresource/controller.go:181-215 | one failing run spelled out: created, recorded, stopped; after the next activation the object is reported ready and no target at all hangs off its resource |
| PublicBoundaries.StoppedAfterRecord | internal/controller/publicresource/controller.go:304-319 | the new ID is recorded beside the hashes and observed generation of the resource before it |
| PublicBoundaries.OrphanSurvivesCleanup | internal/controller/publicresource/controller.go:298-316 | a created resource that was not recorded before the object was deleted stays for good |
| PublicRenaming.CreatesExactly | internal/controller/publicresource/controller.go:181-215 | an undisturbed activation creates a resource exactly if no live one matches the spec and the recorded one does not have its name; what was live stays |
| PublicRenaming.RenamedExactly | internal/controller/publicresource/controller.go:181-234 | after the rename of a settled object the next undisturbed activation creates a second resource exactly if no live one matches the new spec, and the tracked one stays live |
| PublicRenaming.TwoInRuns | internal/controller/publicresource/controller.go:181-234 | from every initial state in which nothing matches and the new name is free, a rename between two undisturbed activations leads to two live resources of the reconciler's making |
| PublicBoundaries.RenamingMakesTwo | internal/controller/publicresource/controller.go:181-234 | whatever state the object is in when it is renamed: if the recorded resource is ours and nothing can be adopted under the new spec, there are then two of ours |
| PublicReconciler.Reconciler.PatchStatus | internal/controller/publicresource/controller.go:551-555 | a patch merges the changed fields, refreshes the copy when served, and stays in memory when it fails |
| PublicReconciler.Reconciler.FindResource | internal/controller/publicresource/controller.go:220-234 | the first listed item that the spec would adopt |
| PublicReconciler.Reconciler.EnsureExists | internal/controller/publicresource/controller.go:181-215 | the method is the function that the theorems are about |
| PublicReconciler.Reconciler.CreateResource | internal/controller/publicresource/controller.go:264-330 | create, record, roll back, re-read, post-create settings |
| PublicReconciler.Reconciler.PopulateChildren | internal/controller/publicresource/controller.go:332-360 | targets, rules and the patches that record them |
| PublicReconciler.Reconciler.UpdateResource | internal/controller/publicresource/controller.go:363-443 | settings, then the swap of targets, then of rules |
| PublicReconciler.Reconciler.Sync | internal/controller/publicresource/controller.go:380-410 | one swap, with its partial-failure patch |
| PublicReconciler.Reconciler.CreateChildren | internal/controller/publicresource/controller.go:445-485 | slots filled in any order, compacted on failure |
| PublicReconciler.Reconciler.Compact | internal/controller/publicresource/controller.go:476-482 | the filled slots in index order |
| PublicReconciler.Reconciler.ReconcileReady | internal/controller/publicresource/controller.go:101-176 | error classification, re-read, update and finish |
| PublicReconciler.Reconciler.Cleanup | internal/controller/publicresource/controller.go:533-549 | delete, then remove the finalizer |
| PublicReconciler.Reconciler.Reconcile | internal/controller/publicresource/controller.go:50-99 | one activation, from the deletion check to the site check |
| ParallelCreation.AnySchedule | internal/controller/publicresource/controller.go:445-525 | every schedule of threads in which the server serves requests and threads record answers in any order returns the same list in item order, the same errors and the same server |
| ParallelCreation.ScheduleAgrees | internal/controller/publicresource/controller.go:450-474 | at every point of every schedule what is decided and what is still to come add up to the same result |
| ParallelCreation.RulesKeepTheirOrder | internal/controller/publicresource/controller.go:493-505 | for rules without explicit priority, any list of the created rules sorted by priority is the spec order |
| ParallelCreation.PrioritiesInRange | internal/controller/publicresource/controller.go:494-497 | the automatic priorities stay within 1000 exactly for at most 100 rules |
| NewtSafety.SecretMatchesSite | internal/controller/newtsite/controller.go:254-316 | in every state of every run, with stops, edits, roll-backs and sites created and deleted by others, a recorded Secret name and a live recorded site mean that the Secret holds the credentials the site was created with |
| NewtSafety.RunAgrees | internal/controller/newtsite/controller.go:83-191 | the invariant behind it: without a site ID no Secret name is recorded, and claims survive every call |
| NewtSafety.WriteSecretAgrees | internal/controller/newtsite/controller.go:290-303 | the Secret is only written while no site is recorded |
| NewtRuns.AtMostOneSite | internal/controller/newtsite/controller.go:193-252 | with the name fixed, never two live sites of the reconciler's making, and none before the finalizer, whatever others create or delete |
| NewtRuns.CleanupRemovesTheSite | internal/controller/newtsite/controller.go:371-387 | a removed finalizer means that the recorded site is gone; only sites that were never recorded are left |
| NewtRuns.FinalizerOffInRuns | internal/controller/newtsite/controller.go:371-387 | whenever a run takes the finalizer off, whatever others edit, create or delete, the object is being deleted and its recorded site is gone; only sites that were never recorded are left |
| NewtRuns.FinalizerComesOff | internal/controller/newtsite/controller.go:371-387 | with a recorded site the finalizer comes off exactly if the deletion is acknowledged or finds the site gone, the object is as it was read, and the update is done |
| NewtRuns.FailedDeleteKeepsFinalizer | internal/controller/newtsite/controller.go:375-378 | a deletion that fails with anything but a 404 keeps the finalizer, also one that was done and whose answer got lost |
| NewtRuns.FirstActivation | internal/controller/newtsite/controller.go:83-174 | without a recorded site one undisturbed activation gets ready with a live site of the right name; a managed tunnel then works exactly if the site is new or the Secret already had the adopted site's credentials |
| NewtRuns.NextActivation | internal/controller/newtsite/controller.go:107-176 | with a recorded site one undisturbed activation renames and deploys, or forgets a site that is gone |
| NewtRuns.TwoActivationsGetReady | internal/controller/newtsite/controller.go:83-191 | from every reachable state two undisturbed activations end ready with a live site |
| NewtRuns.EveryRunGetsReady | internal/controller/newtsite/controller.go:83-191 | the same from every state of every run, whatever others did to the sites |
| NewtRuns.ReadyStaysPut | internal/controller/newtsite/controller.go:127-182 | after that nothing changes at the server, in the Secret or in the object, except that it is reported online exactly if the managed tunnel has a ready replica |
| NewtRuns.AdoptionLosesCredentials | internal/controller/newtsite/controller.go:201-208 | stopped after creating a site and before writing its Secret, the reconciler adopts it and reports ready, but the tunnel cannot work |
| NewtMeaning.RecordedSecret | internal/controller/newtsite/controller.go:271-312 | in every state of every run a recorded Secret has the name that the object's name gives, and is recorded only with a site |
| NewtMeaning.CredentialsAreTheServers | internal/controller/newtsite/controller.go:250-302 | a new tunnel site and its Secret have the credentials that the server handed out for it |
| NewtMeaning.TunnelMounts | internal/controller/newtsite/controller.go:145-182 | a managed tunnel that is not local gets a deployment with that Secret and is online as its replica is ready, and no other object gets one |
| NewtMeaning.ListingRefused | internal/controller/newtsite/controller.go:86-103 | when looking for the site is refused nothing changes but the status, which is failed for good after a bad request and in error otherwise |
| NewtMeaning.ReadingRefused | internal/controller/newtsite/controller.go:107-143 | when reading the recorded site is refused, an object to be brought up to date is in error, and one that is up to date stays as it is |
| NewtMeaning.FindsFirst | internal/controller/newtsite/controller.go:213-220 | the site that is adopted is the first listed one of the name |
| NewtMeaning.RenamesOnlyIfNeeded | internal/controller/newtsite/controller.go:319-330 | a site that has its name is only read, and any other is renamed |
| NewtMeaning.UnrecordedIsRolledBack | internal/controller/newtsite/controller.go:236-248 | when recording a new site is refused it is deleted again, and the object is in error |
| NewtMeaning.UnwrittenSecretLeavesSite | internal/controller/newtsite/controller.go:288-303 | when the Secret of a new site cannot be written, or that is not known, the object is in error and the site stays at the server unrecorded |
| NewtMeaning.DeploymentFails | internal/controller/newtsite/controller.go:145-163 | when the service account or the deployment cannot be written the object is in error and its generation does not count as observed |
| NewtMeaning.UnreadIsOffline | internal/controller/newtsite/controller.go:164-168 | when the deployment cannot be read back the site is ready and taken to be offline |
| NewtRuns.CreatesExactly | internal/controller/newtsite/controller.go:193-211 | an undisturbed activation creates a site exactly if none is recorded and no live one has the name in the spec |
| NewtRuns.RenamingMakesTwo | internal/controller/newtsite/controller.go:196-210 | after a rename before the created site was recorded the next activation creates a second one exactly if no live site has the new name |
| NewtRuns.TwoInRuns | internal/controller/newtsite/controller.go:196-210 | from every initial state in which neither name is in use a run with one rename leads to two live sites of the reconciler's making |
| NewtEdits.ReadyIsHonest | internal/controller/newtsite/controller.go:83-182 | in every run, whatever others create and delete and whatever fails, until cleanup: a status that observes the current generation means that the recorded site, if it is live, has the name in the spec; edits during an activation are those that the next row does not call missed |
| NewtEdits.LateRenameIsMissed | internal/controller/newtsite/controller.go:86-126 | for every edit: some activation in which others may make it ends with the object reported ready for the edit and its site live under another name, exactly if no site is recorded and the edit changes the name, since a site that was just found or created is not renamed |
| NewtReconciler.Reconciler.FindOrCreate | internal/controller/newtsite/controller.go:193-211 | adopt by name or create |
| NewtReconciler.Reconciler.CreateSite | internal/controller/newtsite/controller.go:222-317 | local sites without, others with defaults and a Secret; roll-back when recording fails |
| NewtReconciler.Reconciler.UpdateSite | internal/controller/newtsite/controller.go:319-330 | rename if the server has another name |
| NewtReconciler.Reconciler.Deploy | internal/controller/newtsite/controller.go:145-182 | service account and deployment of a managed tunnel, whether it is online, then ready |
| NewtReconciler.Reconciler.ReconcileLive | internal/controller/newtsite/controller.go:83-143 | first time, changed or steady, with the reset on a 404 |
| NewtReconciler.Reconciler.Reconcile | internal/controller/newtsite/controller.go:56-79 | one activation |
| PrivateRuns.AtMostOneSiteResource | internal/controller/privateresource/controller.go:161-212 | with name, mode and domain or destination fixed, never two live site resources of the reconciler's making, and none before the finalizer, whatever others create or delete |
| PrivateRuns.FinalizerOffInRuns | internal/controller/privateresource/controller.go:334-350 | whenever a run takes the finalizer off, whatever others edit, create or delete, the object is being deleted and its recorded resource is gone; of the reconciler's own only those that were never recorded are left |
| PrivateRuns.FinalizerOffMeansGone | internal/controller/privateresource/controller.go:334-350 | the same for one activation from any state whose recorded ID the server handed out (PrivateRuns.RunRecorded: that is so in every run) |
| PrivateRuns.RunRecorded | internal/controller/privateresource/controller.go:161-302 | in every state of every run the recorded ID is one that the server handed out |
| PrivateRuns.FinalizerComesOff | internal/controller/privateresource/controller.go:334-350 | with a recorded resource the finalizer comes off exactly if the deletion is acknowledged or finds the resource gone, the object is as it was read, and the update is done |
| PrivateRuns.FailedDeleteKeepsFinalizer | internal/controller/privateresource/controller.go:338-341 | a deletion that fails with anything but a 404 keeps the finalizer, also one that was done and whose answer got lost |
| PrivateRuns.UpdateFollowsTheSpec | internal/controller/privateresource/controller.go:304-332 | an update gives any row, adopted or created, what a creation would exactly if nothing that the spec leaves empty, false or absent is set at the server |
| PrivateMeaning.ActivationServes | internal/controller/privateresource/controller.go:161-332 | one undisturbed activation records the resource that is kept, or else one that the spec is about, or else a new one; the new one is what the spec says in every field; the others have its access lists and everything else that it sets, unless the current generation had been seen to; other rows stay |
| PrivateMeaning.ReadyMeansServed | internal/controller/privateresource/controller.go:146-152 | in every run in which nobody else deletes rows, an observed current generation means that the recorded row has the spec's access lists and everything else that it sets |
| PrivateMeaning.InPlaceMeans | internal/controller/privateresource/controller.go:304-332 | repeating an update changes nothing exactly if the row has what the spec sets, field by field |
| PrivateMeaning.ExistingMeans | internal/controller/privateresource/controller.go:196-212 | something is adopted exactly if a live row has the name and mode, and the domain or else the destination and site |
| PrivateMeaning.FindsFirst | internal/controller/privateresource/controller.go:196-212 | and it is the first such item that is listed |
| PrivateMeaning.UnreadySiteWaits | internal/controller/privateresource/controller.go:69-93 | while the site is missing or not ready an activation makes no call but those for its own object, rows change only by what others do, and it reports Pending and nothing else, exactly if that patch is done |
| PrivateMeaning.CreationRefused | internal/controller/privateresource/controller.go:95-113 | when the creation is refused the rows stay, and the status is failed for good after a bad request and in error otherwise |
| PrivateMeaning.ListingRefused | internal/controller/privateresource/controller.go:95-113 | the same for the listing |
| PrivateMeaning.UnrecordedIsRolledBack | internal/controller/privateresource/controller.go:284-301 | when recording a new resource is refused it is deleted again, and the object is in error |
| PrivateMeaning.GoneIsForgotten | internal/controller/privateresource/controller.go:125-136 | an update that finds the recorded resource gone forgets it and changes nothing else |
| PrivateConvergence.OneActivationGetsReady | internal/controller/privateresource/controller.go:95-156 | one undisturbed activation marks the object ready with the resource that is recorded and listed, or else matches, or else is new; repeating its update would change nothing, unless the current generation had been seen to before |
| PrivateConvergence.EveryRunGetsReady | internal/controller/privateresource/controller.go:95-156 | the same from every state of every run |
| PrivateConvergence.ReadyStaysPut | internal/controller/privateresource/controller.go:95-156 | after that nothing changes at the server or in the object |
| PrivateEdits.ReadyIsHonest | internal/controller/privateresource/controller.go:95-156 | in every run in which nobody else deletes rows, until cleanup: a status that observes the current generation means that the recorded resource is live under its name and repeating its update would change nothing; edits during an activation are those that the next row does not call missed |
| PrivateEdits.LateEditIsMissed | internal/controller/privateresource/controller.go:280-302 | for every edit, renames included: some activation in which others may make it ends with the object reported ready for the edit and the edit not in place, exactly if none is recorded, none can be adopted, and what is created for the version before is not what an update for the edit would leave alone |
| PrivateReconciler.Reconciler.FindSiteResource | internal/controller/privateresource/controller.go:196-212 | the first item with the right name and mode, and domain or destination and site |
| PrivateReconciler.Reconciler.EnsureExists | internal/controller/privateresource/controller.go:161-191 | keep, adopt or create |
| PrivateReconciler.Reconciler.CreateSiteResource | internal/controller/privateresource/controller.go:250-302 | create, record and roll back |
| PrivateReconciler.Reconciler.UpdateSiteResource | internal/controller/privateresource/controller.go:304-332 | find the domain and send all fields |
| PrivateReconciler.Reconciler.ReconcileReady | internal/controller/privateresource/controller.go:95-156 | error classification, re-read, update and finish |
| DiscoveryRuns.EventsAndScansAgree | internal/controller/newtsite/controller.go:397-742 | any two mixes of events and scans that cover all routes end in the same resources, if each route has one site and routes keep apart |
| DiscoveryRuns.SameOutcome | internal/controller/newtsite/controller.go:572-599 | doing the same tasks in any order and any number of times ends the same |
| DiscoveryRuns.TwoSitesFight | internal/controller/newtsite/controller.go:601-630 | two sites that pick one route make the outcome depend on the order of scans |
| Discovery.ScanPicksWhatEventsClaim | internal/controller/newtsite/controller.go:601-687 | a scan picks exactly the routes that the site claims for events and that are not opted out under its prefix |
| DiscoveryMeaning.ClaimsMeans | internal/controller/newtsite/controller.go:707-742 | a site claims a route exactly if it discovers its kind and the site-ref annotation under its prefix is its name, or a parent names its gateway and is not in another namespace |
| DiscoveryMeaning.OptOutRemoves | internal/controller/newtsite/controller.go:419-427 | after a successful event for a route whose enabled annotation is "false" or "0" no resource has its kind and name, and every other is as before |
| DiscoveryMeaning.EventSupplies | internal/controller/newtsite/controller.go:419-427 | with any other annotation, or none, nothing is removed, everything the route asks for is there under its labels, and everything else is as before |
| DiscoveryMeaning.UnwantedIsIgnored | internal/controller/newtsite/controller.go:408-417 | an event for a route that no site wants changes nothing |
| DiscoveryMeaning.ScanMeans | internal/controller/newtsite/controller.go:601-687 | a scan picks exactly the routes that the site wants and that are not opted out, by the same texts |
| DiscoveryMeaning.ScanIgnores | internal/controller/newtsite/controller.go:601-687 | and leaves the resources as if the others were not there |
| DiscoveryRuns.AgainWritesNothing | internal/autodiscover/autodiscover.go:607-666 | handling a route twice leaves the same resources, and writes nothing the second time exactly if no two items want different specs under one name |
| DiscoveryRuns.HTTPRouteSettles | internal/controller/newtsite/controller.go:429-445 | an HTTP route comes to rest exactly if no two of its hostnames get one resource name |
| DiscoveryRuns.EnsureAllAt | internal/autodiscover/autodiscover.go:607-666 | each wanted name has its last spec and the owner's labels, and every other resource is untouched |
| DiscoveryRuns.OptOutRestores | internal/controller/newtsite/controller.go:744-759 | for unused names, opting out after handling restores the prior resources exactly if none of them carries the kind and name |
| DiscoveryRuns.HTTPItemsSpec | internal/autodiscover/autodiscover.go:433-481 | one item for each hostname, in order, with the route's site, name and target |
| DiscoveryRuns.HTTPTargetExists | internal/autodiscover/autodiscover.go:445-472 | exactly when a target can be derived |
| DiscoveryMeaning.HTTPItemsMean | internal/autodiscover/autodiscover.go:433-481 | an HTTP route gets one resource for each hostname, in order: its name, site and display name, its domain, and its target, which is the gateway if the site has one and the first backend otherwise, with hostname, port and scheme |
| DiscoveryMeaning.TCPItemsMean | internal/autodiscover/autodiscover.go:576-593 | a TCP route gets one resource with its first backend as the target, on the port of the annotation if that is one, and on that of the backend otherwise |
| DiscoveryMeaning.ServiceItemsMean | internal/controller/newtsite/controller.go:479-515 | a service gets resources only where services are discovered and it names a site: one for each port if it has no domain and all are wanted, and otherwise that of the selected port |
| DiscoveryMeaning.SelectPortMeans | internal/autodiscover/autodiscover.go:543-563 | the selected port is the first that the annotation designates by number or name; without it the only one, or the first called http |
| DiscoveryMeaning.SinglePortMeans | internal/autodiscover/autodiscover.go:512-541 | what the resource for that port asks for: HTTP under the domain if there is one, otherwise the protocol of the annotation or the port |
| DiscoveryMeaning.AllPortsMean | internal/autodiscover/autodiscover.go:490-508 | with all ports wanted there is a resource for each pair of number and protocol, named and specified after the last port of the pair |
| DiscoveryRuns.AsItemsSpec | internal/controller/newtsite/controller.go:498-504 | the all-ports entries of a service, one for each key |
| Discovery.EnsureSpec | internal/autodiscover/autodiscover.go:607-666 | ensuring one resource makes it what is wanted and writes exactly if it was not |
| Discovery.SameResourceName | internal/autodiscover/autodiscover.go:411-418 | two hostnames of a route share a resource name exactly if what fits of them into 253 characters differs only in dots for dashes |
| DiscoveryController.FailedWorkOnlyDelays | internal/controller/newtsite/controller.go:397-742 | however many events and scans were worked on, and wherever calls to the cluster failed: once events and scans that cover the routes succeed, the resources are what they would have been had nothing failed |
| DiscoveryFailures.FailuresOnlyDelay | internal/controller/newtsite/controller.go:397-742 | the same for any series of attempts at the tasks of events and scans |
| DiscoveryFailures.RetriesConverge | internal/controller/newtsite/controller.go:429-445 | doing all tasks ends the same after any attempts at them, in any order and however far each got |
| DiscoveryFailures.AttemptThenPerform | internal/autodiscover/autodiscover.go:607-666 | after an attempt that stopped anywhere the task does what it would have done at once |
| DiscoveryController.Controller.EnsureOwned | internal/autodiscover/autodiscover.go:607-666 | create, patch or skip, with every call that can fail; it succeeds exactly if no call failed |
| DiscoveryController.Controller.ProcessHTTPRoute | internal/controller/newtsite/controller.go:429-445 | the hostnames in turn, skipping what cannot be built and collecting errors; in any case an attempt at the route's items, and all of them exactly as specified if no call failed |
| DiscoveryController.Controller.ProcessService | internal/controller/newtsite/controller.go:479-515 | all ports in any map order, or the selected port, with collected errors |
| DiscoveryController.Controller.EnsureEntries | internal/controller/newtsite/controller.go:500-504 | some of the entries of a map, in any order; all of them if no call failed |
| DiscoveryController.Controller.DeleteOwnedResources | internal/controller/newtsite/controller.go:744-759 | only resources with the two labels go, all of them if no call failed; the first failure ends it |
| DiscoveryController.Controller.ResolveSite | internal/controller/newtsite/controller.go:707-742 | the first site that claims the route, or a failed listing |
| DiscoveryController.Controller.Reconcile | internal/controller/newtsite/controller.go:397-427 | an event: nothing, removal or supply, attempted, and done if no call failed |
| DiscoveryController.Controller.ReconcileDeleted | internal/controller/newtsite/controller.go:397-404 | an event for a route that is gone: its resources are removed, attempted, and done if no call failed |
| DiscoveryController.Controller.ScanKind | internal/controller/newtsite/controller.go:601-687 | the scan loop for one kind of route, with a listing that can fail and collected errors |
| DiscoveryController.Controller.Scan | internal/controller/newtsite/controller.go:572-599 | the enabled scans of a site in turn, ended by the first that fails |
| ServicePorts.NoPortIsLost | internal/autodiscover/autodiscover.go:490-508 | one entry for each port exactly if no pair of number and mapped protocol repeats, and then each has its number and protocol |
| ServicePorts.NamesTellPortsApart | internal/autodiscover/autodiscover.go:420-422 | resource names of one service are equal exactly if number and mapped protocol are |
| ServicePorts.SctpCollidesWithTcp | internal/autodiscover/autodiscover.go:565-570 | an SCTP and a TCP port of one number make one entry |
| ServicePorts.BuildAllPortSpecs | internal/autodiscover/autodiscover.go:490-508 | the loop over the ports fills the map, later ports replacing earlier ones of the same key |
| ServicePorts.AtoiUndoesItoa | internal/autodiscover/autodiscover.go:500-504 | decimal printing is injective |
| Annotations.SplitCSV | internal/autodiscover/autodiscover.go:59-71 | the loop returns the trimmed non-blank fields in order |
| Annotations.SplitSpec | internal/autodiscover/autodiscover.go:59-71 | every element is non-empty, trimmed and free of commas, and no non-blank field is lost |
| Annotations.SplitJoinSplit | internal/autodiscover/autodiscover.go:59-71 | splitting the comma-join of a result gives the result back, for every text |
| Annotations.JoinUndoesFields | internal/autodiscover/autodiscover.go:59-71 | cutting a text at its commas loses nothing: the fields joined by commas are the text |
| Annotations.BuildRules | internal/autodiscover/autodiscover.go:241-265 | the valid annotation rules in order, then one deny rule for each listed country |
| Annotations.BuiltRulesAreValid | internal/autodiscover/autodiscover.go:241-277 | every rule built is one that the API takes, none of the annotation's that it takes is missing, and every denied country is in |
| Pagination.ListAll | internal/pangolin/client.go:402-417 | the loop ends after n / 100 + 1 requests and returns all n items in order |
| Domains.ResolveDomainID | internal/pangolin/client.go:324-336 | the ID of the first longest base that matches on a label boundary; not ok exactly if there is none or its ID is empty |
| Domains.ResolveDomain | internal/pangolin/client.go:342-359 | the ID and the subdomain in front of its base |
| Domains.ScanWins | internal/pangolin/client.go:324-336 | the scan finds the winner whenever a non-empty base matches |
| Domains.EqualLengthMatchesAgree | internal/pangolin/client.go:327-332 | two matching bases of one length are the same text |
| Domains.OrderDoesNotMatter | internal/pangolin/client.go:324-336 | for distinct bases every permutation of the list gives the same ID |
| Domains.SplitUndoesJoin | internal/pangolin/client.go:352-356 | the split returns the part in front exactly if that part does not itself end with the base |
| Domains.BaseItselfHasNoSubdomain | internal/pangolin/client.go:352-356 | the base domain itself has no subdomain |
| Domains.ResolutionRoundTrip | internal/pangolin/client.go:342-359 | resolving and recomposing gives the full domain back exactly under that condition |
| Domains.OverTrimmedDomain | internal/pangolin/client.go:352-356 | a full domain that is lost |

## Left out

- HTTP transport, JSON and the error texts of the API client: each call is one atomic step with a reply.
- Caches, stale reads, predicates, requeue times and timeouts of the controller runtime: a timeout is a refused call.
- SHA-256: the hash is the list itself.
- The fields niceId and fullDomain of a status and the texts of conditions: nothing is decided by them.
- The fields of deployments and service accounts, and owner references: nothing is decided by them.
- Changes of the site ID of a PublicResource after its targets exist: the code does not propagate them.
- Deletion or change of the credentials Secret by others.
- PublicRuns.ReadyIsHonest: one direction only, since an object can have its spec realised before it is marked ready. Of what it excludes, one edit during one activation is treated with an exact condition in PublicEdits, from every state with backed claims; deletions by others at any time in PublicDrops and PublicOutage; renames in PublicRenaming. Several different edits during one activation are not.
- PublicRuns.AtMostOne: one direction only, under a fixed identity; PublicRenaming.CreatesExactly says when a resource is created without it.
- PublicEdits.LateEditIsMissed: a spec counts as realised when everything that it lists is there, so children that an edit takes off the end of a list are not missed although they stay; PublicCreationEdits.LateEdit says how many stay tracked after a creation.
- NewtReconciler.Reconciler.Deploy: the deployment is known by the Secret that it mounts and whether it is ready.
- Annotations.BuildRules: the list that the annotation's JSON decodes to is a parameter.
- Annotation fields that one branch settles: headers, authentication, maintenance, target path and priority, host header, TLS name and the enabled and ssl flags.
- Metrics, command line, Helm chart, generated code and webhooks.
