# provider-harbor: a verified model of the reconcilers

`provider-harbor` keeps Harbor projects and robot accounts as Kubernetes resources describe them. This project models
the RobotAccount reconciler, the conversion, comparison and lookup code it rests on, the Project reconciler, the slice
helpers and the deep copy of the RobotAccount parameters, and proves what they guarantee.

## How it is built

| file | contents |
|---|---|
| `Wrappers.dfy`, `Text.dfy` | optional values and results; `strings` and `strconv` as far as they are used |
| `Managed.dfy` | what both controllers take from crossplane-runtime |
| `Formats.dfy` | the order-insensitive slice comparisons |
| `IamModels.dfy`, `IamClient.dfy` | robot accounts: conversion, drift detection, validation, name lookups |
| `HarborServer.dfy` | what is assumed of Harbor, and when the name lookups are exact |
| `RobotController.dfy` | `findRobot`, `Observe`, `Create`, `Update`, `Delete` |
| `RobotAnswers.dfy` | what each of these calls answers and leaves behind, for every fate, field by field |
| `RobotReconcile.dfy` | one worker, one API call at a time; what is assumed of crossplane-runtime |
| `RobotRuns.dfy` | any number of resources on one server, every interleaving, with failures |
| `RobotOwnership.dfy` | every robot has one owner, in every run of resources that keep apart |
| `RobotLifetime.dfy` | one robot per resource, from creation to deletion |
| `RobotClashes.dfy`, `RobotExactness.dfy` | the runs that break ownership and lifetime, and the exact conditions |
| `RobotConvergence.dfy`, `RobotSettling.dfy` | when the loop comes to rest: alone, and among others |
| `ProjectClient.dfy`, `ProjectServer.dfy`, `ProjectController.dfy` | the Project path: requests and drift, the server, the four calls |
| `ProjectAnswers.dfy` | what each Project call answers and leaves behind, for every fate, field by field |
| `ProjectReconcile.dfy` | Project reconciles: names and IDs, failures, several resources, coming to rest |
| `DeepCopy.dfy` | the generated deep copies on the memory they copy |

Code that loops or updates state is a method, on objects where the source updates an object, and is proved equal to a
function of its inputs or of the old state. The state machines are built from those same functions, so what is proved
of every run is proved of the methods' results.

Each `ctx` parameter has become the fate of the API call it is passed to: delivered, dropped, or taken into effect with
the reply lost. Harbor and crossplane-runtime are not part of the repository; the heads of `HarborServer.dfy`,
`ProjectServer.dfy` and `RobotReconcile.dfy` list what is assumed of them. A robot server may store permission lists in
a normalised form (`canon`) and may refuse a new robot beside the ones it has (`accepts`). What is proved of all runs
(`RobotRuns`, `RobotOwnership`, `RobotLifetime`) holds whatever it refuses, and so does the exact condition for
convergence, `BecomesQuietIff`; `RobotSettling` is about a resource whose own Create is accepted. A run that goes wrong needs a server that accepts a free name
(`Receptive`, so `OwnershipIff` and `CleanDeletionIff` hold for lenient and strict servers alike). Only the blind half
of `SingleRobotIff` needs one that accepts a second robot of the same name; `SingleRobotWhenStrictIff` is its
counterpart for a server that refuses it.

## What turned out

- Owning a robot needs more than distinct (level, project, name). The project scan looks at the text after the last
  `+` only, and lists a robot under every project it has a permission on. For specs that stay as they are, no run ever
  lets two resources hold one robot if and only if none that is resolved has a permission on the first project of
  another one of the same short name, and system-level names are distinct (`OwnershipIff`); permissions on any other
  projects do no harm. When two resources do clash, two plain reconciles are enough (`ClashSharesRobot`).
- At-most-once creation needs that as well: when one of two clashing resources is deleted, it takes the robot of the
  other along, which then creates a second one (`ClashDuplicates`). And every project-level spec needs a project
  permission: without one the spec passes validation, but its robot can never be looked up by name, and only a server
  that refuses a name twice prevents a duplicate (`BlindCreationDuplicates`). Nothing else is needed: `SingleRobotIff`,
  `SingleRobotWhenStrictIff`.
- A resource that has a robot is told that it has none if and only if it knows neither an ID nor a project namespace,
  whether its references are not resolved yet or it has no project permission at all (`FalseAbsenceIffBlind`). If it
  is deleted in that state, its robot stays behind: deletion leaves nothing, in all runs of resources that do not clash,
  if and only if every project-level spec has a project permission (`CleanDeletionIff`).
- A stale annotation heals through one Create, if the server accepts it: on a server that refuses a name twice, if and
  only if no robot holds the name (`StaleAnnotationHealsIff`). A stale status ID makes every reconcile send a Create,
  for ever (`StaleStatusKeepsCreating`). The exact condition, for every server, is `BecomesQuietIff`.
- A server that reorders permissions keeps the loop sending updates for ever. The condition is equality on the compared
  fields, not on the whole lists: the `effect` of an access is neither sent nor compared.
- Project calls take a name or an ID, and Observe writes the name of what it has found into the resource. So a Project
  named by a number can take over the project with that ID, and delete it later (`AdoptionByNumber`). A reconcile keeps
  the name if and only if it denotes no project of another name (`NameIsStableIff`), and all runs keep to the resource's
  own project if and only if, in addition, a project that is to be deleted is not named by another one's ID
  (`OwnProjectInRunsIff`). On a server that reads every number as an ID, a Project named by a number is created and
  never found, and the Create is sent for ever (`ProjectQuietIff`).
- A Project with a storage limit, as in the examples of the repository's own documentation, is never up to date and is
  updated at every reconcile (`ProjectQuietIff`), which does keep the limit in force (`LimitIsEnforced`).
- Of the three ways in which `GetRobotAccountByName` matches a name, one is implied by another (`MatchesAgree`).

## Model

| member | source | states |
|---|---|---|
| Formats.AreStringSlicesEqual | internal/helpers/formats.go:105-124 | true iff the two slices are equal as multisets; the early exit on a negative count and equal lengths suffice |
| Formats.AreStringSlicesEqualDeDuped | internal/helpers/formats.go:130-157 | true iff the two slices have the same set of elements |
| Formats.NewStringSetFromSlice | internal/helpers/formats.go:242-249 | the set holds exactly the elements of the slice |
| Formats.MultisetEqualImpliesElementsEqual | internal/helpers/formats.go:101-157 | the first comparison implies the second |
| Formats.ElementsEqualIsWeaker | internal/helpers/formats.go:126-129 | but not the other way round, because duplicates are ignored |
| Formats.StringifiedBoolMeans | internal/helpers/formats.go:251-258 | a desired flag agrees with the very text "true" or "false" only, an unset one with anything |
| Text.FormatParseRoundTrip | internal/controller/iam/robotaccount/robotaccount.go:201 | every int64 ID, the minimum included, is written as non-empty text that parses back to it without overflow |
| Text.FormatIntInjective | internal/controller/iam/robotaccount/robotaccount.go:278-281 | an annotation names at most one robot |
| Text.ParseIntMeans | internal/controller/iam/robotaccount/robotaccount.go:278-281 | which annotation texts are read as an ID: a sign and digits in the int64 range, and nothing else |
| IamClient.ToHarborPermissions | internal/clients/iam/robotaccount.go:269-289 | the nested loops build the converted list, entry by entry and field by field, with the effect left empty; every field of the spec can be read back |
| IamClient.ComparedUndoesConversion | internal/clients/iam/robotaccount.go:269-289 | reading the compared fields back undoes the conversion |
| IamClient.ConversionInjective | internal/clients/iam/robotaccount.go:269-289 | different permission lists are never sent as the same request |
| IamClient.IsSinglePermissionUpToDate | internal/clients/iam/robotaccount.go:221-237 | true iff kind, namespace and the ordered resource/action pairs agree |
| IamClient.ArePermissionsUpToDate | internal/clients/iam/robotaccount.go:205-217 | true iff the observed list agrees with the converted spec on every compared field, in order |
| IamClient.IsRobotAccountUpToDate | internal/clients/iam/robotaccount.go:191-201 | description, disable flag and permissions agree, and so do the durations when both are known |
| IamClient.ComparedMeans | internal/clients/iam/robotaccount.go:205-237 | permissions agree iff there are as many, each with the same kind, namespace and ordered resource/action pairs |
| IamClient.ToRobotCreate | internal/clients/iam/robotaccount.go:240-254 | the request carries the name and every field of the spec; a missing duration is sent as 0 |
| IamClient.ApplyRobotAccountParameters | internal/clients/iam/robotaccount.go:258-266 | description, disable flag and permissions of the robot object become those of the spec, and the duration if the spec has one; ID, name and level stay |
| IamClient.AppliedIsUpToDate | internal/clients/iam/robotaccount.go:191-266 | applying makes any robot up to date, is idempotent, and keeps ID, name and level |
| IamClient.UpToDateIffAppliedChangesNothing | internal/clients/iam/robotaccount.go:191-266 | up to date iff applying changes nothing visible beyond filling an unreported duration |
| IamClient.ValidatePermissions | internal/clients/iam/robotaccount.go:293-302 | succeeds iff every permission of kind project has a namespace; otherwise names the first one that has none |
| IamClient.ProjectNamespace | internal/clients/iam/robotaccount.go:306-314 | the scan returns the first resolved namespace |
| IamClient.FirstNamespaceIsFirst | internal/clients/iam/robotaccount.go:304-314 | non-empty iff some project permission is resolved, and then the namespace of the first such |
| IamClient.ValidatedNamespace | internal/clients/iam/robotaccount.go:291-314 | after validation it is empty iff there is no project permission |
| IamClient.MatchesAgree | internal/clients/iam/robotaccount.go:92-98 | the three-way name match equals the two-way match for every string |
| IamClient.NameMatchesMeans | internal/clients/iam/robotaccount.go:92-98 | a name matches iff the full name is `robot$<name>`, ends in `+<name>`, or is `<name>` itself without the prefix |
| IamClient.FirstNamedIsFirst | internal/clients/iam/robotaccount.go:329-338 | the scan answers the first match, and not found iff there is none |
| IamClient.ScanSystemRobots | internal/clients/iam/robotaccount.go:92-102 | the scan stops at the first robot that matches in the two-way sense |
| IamClient.ScanProjectRobots | internal/clients/iam/robotaccount.go:329-338 | likewise for the project scan |
| IamClient.FilterProjectRobots | internal/clients/iam/robotaccount.go:114-126 | the nested loop with its break filters the listing by project |
| IamClient.ProjectRobotsExact | internal/clients/iam/robotaccount.go:105-127 | a robot on the project occurs as often as it was listed, however many permissions match; others never |
| IamClient.ProjectRobotsConcat | internal/clients/iam/robotaccount.go:114-126 | the filter keeps the order of the listing |
| HarborServer.SystemScanExact | internal/clients/iam/robotaccount.go:84-103 | in any listing order, found iff a system robot with that short name exists, and it is one |
| HarborServer.ProjectScanExact | internal/clients/iam/robotaccount.go:323-339 | in any listing order, found iff a robot with that short name has a permission on the project, and it is one |
| HarborServer.ProjectScanSafeIff | internal/clients/iam/robotaccount.go:106-127 | the scan stays inside its project in every listing order iff no robot of another project with that short name has a permission on it |
| RobotController.RobotAccountsClient.GetRobotAccountByName | internal/clients/iam/robotaccount.go:84-103 | the first match in the system listing, not found, or an error when the listing fails |
| RobotController.RobotAccountsClient.ListProjectRobotsV1 | internal/clients/iam/robotaccount.go:106-127 | the project filter of the project-level listing |
| RobotController.FindProjectRobotByName | internal/clients/iam/robotaccount.go:323-339 | the first match among the robots of the project |
| RobotController.External.FindRobot | internal/controller/iam/robotaccount/robotaccount.go:273-295 | the four tiers in order: status ID, annotation ID that parses, project scan, system scan |
| RobotController.External.Observe | internal/controller/iam/robotaccount/robotaccount.go:160-177 | new status and answer; absent on not-found and on an unresolved namespace only |
| RobotController.External.Create | internal/controller/iam/robotaccount/robotaccount.go:180-210 | the new robot and the ID annotation; when validation fails nothing at all, and the error of the first unresolved permission |
| RobotController.External.Update | internal/controller/iam/robotaccount/robotaccount.go:213-236 | the applied spec is written to the robot found; nothing when validation or the lookup fails, with the error of either |
| RobotController.External.Delete | internal/controller/iam/robotaccount/robotaccount.go:239-261 | the robot found is removed; absence counts as success |
| RobotController.FoundIsStored | internal/controller/iam/robotaccount/robotaccount.go:273-295 | what the lookup returns is stored under the ID it carries, which is the known ID if there is one |
| RobotController.CacheAgreement | internal/controller/iam/robotaccount/robotaccount.go:160-177 | once Observe has stored an ID, later lookups return the robot the scan found, whatever else changes |
| RobotController.UpdateActsOnObserved | internal/controller/iam/robotaccount/robotaccount.go:213-236 | Update acts on the robot that Observe compared, and sends it up to date |
| RobotController.CreatedIsFoundByAnnotation | internal/controller/iam/robotaccount/robotaccount.go:196-202 | after Create the lookup without a status ID returns the robot just created |
| RobotController.BadAnnotationFallsThrough | internal/controller/iam/robotaccount/robotaccount.go:278-294 | a non-numeric annotation is as good as none |
| RobotController.CreatedIsListed | internal/clients/iam/robotaccount.go:106-127 | a robot created from a validated project-level spec is listed for its project by every server that keeps the projects of a list, and is up to date iff the compared fields are stored as sent |
| RobotController.DeleteByKnownID | internal/controller/iam/robotaccount/robotaccount.go:239-261 | with a known ID exactly that robot goes, whatever the spec; repeating succeeds without effect |
| RobotController.DeleteByName | internal/controller/iam/robotaccount/robotaccount.go:239-261 | otherwise exactly the robot the scan finds goes |
| RobotController.ScanErrorsMeanAbsent | internal/controller/iam/robotaccount/robotaccount.go:162-168 | a delivered lookup fails only by finding nothing |
| RobotController.FailedCallsAreNotAbsence | internal/controller/iam/robotaccount/robotaccount.go:162-168 | a failed call never reads as absence, unless no call was made |
| RobotAnswers.CreatedUnderItsName | internal/controller/iam/robotaccount/robotaccount.go:150-157 | the robot is filed under the external name, and under the name of the resource only when that is missing or empty |
| RobotAnswers.ExternalNameDecides | internal/controller/iam/robotaccount/robotaccount.go:150-157 | with an external name, the name of the resource changes neither a lookup nor a Create |
| RobotAnswers.ScannedUnderItsName | internal/controller/iam/robotaccount/robotaccount.go:285-294 | a scan stops at robots of that name and of the resource's level only |
| RobotAnswers.KnownIDMeans | internal/controller/iam/robotaccount/robotaccount.go:274-283 | the known ID is the status ID, or else the number in the annotation |
| RobotAnswers.FindAnswers | internal/controller/iam/robotaccount/robotaccount.go:273-295 | the answer and the error of every tier, for every fate |
| RobotAnswers.ObserveAnswers | internal/controller/iam/robotaccount/robotaccount.go:160-177 | absent iff there is nothing to look with or a delivered lookup found nothing; an error for every other failure; the status is written only when a robot was found |
| RobotAnswers.CreateAnswers | internal/controller/iam/robotaccount/robotaccount.go:188-210 | what a Create stores, field by field, and what it writes into the resource, for every fate |
| RobotAnswers.UpdateAnswers | internal/controller/iam/robotaccount/robotaccount.go:219-236 | what an Update stores, field by field, and which error it returns, for every fate of both calls |
| RobotAnswers.DeleteByIDAnswers | internal/controller/iam/robotaccount/robotaccount.go:242-261 | with a known ID success means that the robot is gone, and an undelivered call is an error |
| RobotAnswers.DeleteByNameAnswers | internal/controller/iam/robotaccount/robotaccount.go:242-261 | without one, success means blind, nothing found by a delivered lookup, or the robot found is gone |
| RobotAnswers.DeleteFinishedAnswers | internal/controller/iam/robotaccount/robotaccount.go:251-258 | a robot that has gone since the lookup counts as deleted, a failed call does not |
| RobotReconcile.TurnKeepsPinned | internal/controller/iam/robotaccount/robotaccount.go:170-177 | no call of a worker changes a stored status ID, and a pending write is for the ID that was observed |
| RobotReconcile.TurnSendsResolved | internal/controller/iam/robotaccount/robotaccount.go:183-230 | no call sends a permission of kind project with an empty namespace |
| RobotReconcile.FalseAbsenceIffBlind | internal/controller/iam/robotaccount/robotaccount.go:285-289 | for any spec, Observe reports absent although the resource's robot is stored iff neither ID nor namespace is known; otherwise it finds that robot |
| RobotReconcile.BlindDeletionLeaks | internal/controller/iam/robotaccount/robotaccount.go:243-246 | a blind resource that is deleted is let go with the server unchanged |
| RobotRuns.StatusIDNeverChanges | internal/controller/iam/robotaccount/robotaccount.go:273-276 | in every run, on any server, a status ID once stored stays as long as the resource exists |
| RobotRuns.OnlyResolvedRequests | internal/clients/iam/robotaccount.go:291-302 | in the log of every run, every permission of kind project in a create or update request has a namespace |
| RobotOwnership.OwnerLookup | internal/controller/iam/robotaccount/robotaccount.go:273-295 | an owner's lookup finds robots of its own only, also with permissions on many projects |
| RobotOwnership.StepKeepsInv | internal/controller/iam/robotaccount/robotaccount.go:160-295 | the ownership invariant survives every call with any fate, every crash, edit, deletion mark, new resource and foreign change |
| RobotOwnership.Ownership | internal/controller/iam/robotaccount/robotaccount.go:160-295 | in every run of resources that keep apart no two hold the same robot ID in status or annotation |
| RobotOwnership.OwnRobotOnly | internal/controller/iam/robotaccount/robotaccount.go:213-261 | in every reachable state a worker's next call touches no robot but its own |
| RobotOwnership.UnmanagedRobotsUnchanged | internal/controller/iam/robotaccount/robotaccount.go:213-261 | robots that belong to no resource are unchanged through every run |
| RobotLifetime.OwnerMisses | internal/controller/iam/robotaccount/robotaccount.go:273-295 | a lookup that is not blind misses only a robot that is not there |
| RobotLifetime.StepKeepsFullInv | internal/controller/iam/robotaccount/robotaccount.go:160-295 | the invariant of one robot per resource survives every such step, while nobody else deletes managed robots |
| RobotLifetime.AtMostOneRobot | internal/controller/iam/robotaccount/robotaccount.go:180-210 | in every run, with any losses, a resource creates at most one robot each time it comes into being |
| RobotLifetime.OneRobotAtATime | internal/controller/iam/robotaccount/robotaccount.go:160-210 | in every run a resource has at most one robot, and every ID it has noted is that robot's |
| RobotLifetime.NeverDeletedUnasked | internal/controller/iam/robotaccount/robotaccount.go:239-261 | a robot stays on the server as long as its resource is not marked for deletion |
| RobotLifetime.DeletionLeavesNothing | internal/controller/iam/robotaccount/robotaccount.go:239-261 | in every run, a resource let go after a lookup with an ID or namespace leaves no robot behind |
| RobotLifetime.OnlyBlindLookupsMiss | internal/controller/iam/robotaccount/robotaccount.go:273-295 | in every reachable state a resource's lookup returns its robot iff it is not blind |
| RobotClashes.ClashSharesRobot | internal/clients/iam/robotaccount.go:323-339 | two clashing resources hold the same robot after one undisturbed reconcile each |
| RobotClashes.ClashDuplicates | internal/controller/iam/robotaccount/robotaccount.go:239-261 | the deletion of the one that took the robot over makes the one that created it create a second robot, without any failure |
| RobotClashes.BlindCreationDuplicates | internal/controller/iam/robotaccount/robotaccount.go:183-202 | a project-level spec without project permissions creates two robots when the annotation is lost, where the server accepts them |
| RobotClashes.BlindRunLeaks | internal/controller/iam/robotaccount/robotaccount.go:239-246 | such a resource, deleted once its annotation is lost, is let go and its robot stays |
| RobotExactness.OwnershipIff | internal/controller/iam/robotaccount/robotaccount.go:160-295 | for fixed specs, resolved or not, all runs keep the holders of robots distinct iff no two resources clash |
| RobotExactness.SingleRobotIff | internal/controller/iam/robotaccount/robotaccount.go:180-210 | for fixed specs on a lenient server, all runs create at most one robot per resource iff none clash and every project-level spec has a project permission |
| RobotExactness.SingleRobotWhenStrictIff | internal/controller/iam/robotaccount/robotaccount.go:180-210 | for fixed specs on a server that refuses a name twice, all runs create at most one robot per resource iff none clash |
| RobotExactness.CleanDeletionIff | internal/controller/iam/robotaccount/robotaccount.go:239-261 | for fixed specs that do not clash, all runs leave no robot of a resource that was let go iff every project-level spec has a project permission |
| RobotConvergence.Converges | internal/controller/iam/robotaccount/robotaccount.go:160-236 | undisturbed, at most one write and no change from the third reconcile on, when the server stores the fields as sent and accepts a Create that is needed |
| RobotConvergence.Diverges | internal/controller/iam/robotaccount/robotaccount.go:160-236 | otherwise every reconcile sends one more write |
| RobotConvergence.BecomesQuietIff | internal/controller/iam/robotaccount/robotaccount.go:160-236 | on any server, the loop ever becomes quiet iff the status ID is not stale and the robot already agrees, or the compared fields are stored as sent and a Create caused by a missing or stale ID is accepted |
| RobotConvergence.AsSentIsFaithful | internal/clients/iam/robotaccount.go:205-237 | a server that stores what it is sent stores the compared fields as sent |
| RobotConvergence.StaleStatusKeepsCreating | internal/controller/iam/robotaccount/robotaccount.go:274-276 | a stale status ID is never cleared, and each reconcile sends one more Create, which adds one more robot where it is accepted |
| RobotConvergence.StaleAnnotationHeals | internal/controller/iam/robotaccount/robotaccount.go:278-283 | a stale annotation is replaced through exactly one Create, if it is accepted |
| RobotConvergence.StaleAnnotationHealsIff | internal/controller/iam/robotaccount/robotaccount.go:278-283 | on a server that refuses a name twice, it heals iff no robot holds the name |
| RobotConvergence.DeletionConverges | internal/controller/iam/robotaccount/robotaccount.go:239-261 | a deleted resource is let go within two reconciles, with one Delete of the robot it stands for |
| RobotSettling.SettlesAmongOthers | internal/controller/iam/robotaccount/robotaccount.go:160-236 | while all others keep working in between, a resource sends at most one write and is settled for good after three calls |
| RobotSettling.NewResourceSettles | internal/controller/iam/robotaccount/robotaccount.go:160-210 | a new resource on an empty server has its robot as wanted after three calls and at most one write |
| ProjectClient.ToHarborProjectMetadata | internal/clients/project/project.go:170-207 | each flag that is set is sent as the text "true" or "false" in its own field, every other is left unset |
| ProjectClient.ToProjectReq | internal/clients/project/project.go:155-166 | name, storage limit and, if desired, the flags |
| ProjectClient.MetadataUpToDateMeans | internal/clients/project/project.go:142-151 | the flags are up to date iff each one that is desired is observed as that very text |
| ProjectClient.ProjectUpToDateMeans | internal/clients/project/project.go:126-140 | a storage limit is never up to date; without one, desired flags must be there and agree |
| ProjectClient.MetadataUpToDateIff | internal/clients/project/project.go:142-151 | the flags are up to date iff overlaying the request on them changes nothing |
| ProjectClient.OverlaidIsUpToDate | internal/clients/project/project.go:142-207 | overlaying is idempotent, and one update brings any flags up to date |
| ProjectClient.ProjectUpToDateIff | internal/clients/project/project.go:126-140 | up to date iff no storage limit is set and the desired flags would change nothing |
| ProjectController.External.Observe | internal/controller/project/project/project.go:148-168 | the project that the name or ID denotes gives status ID, external name and answer |
| ProjectController.External.Create | internal/controller/project/project/project.go:171-185 | the project is created as requested; the external name is written on success only |
| ProjectController.External.Update | internal/controller/project/project/project.go:188-198 | the request is overlaid on the project that the name or ID denotes |
| ProjectController.External.Delete | internal/controller/project/project/project.go:201-214 | the project that the name or ID denotes goes; absence counts as success |
| ProjectAnswers.ProjectNameMeans | internal/controller/project/project/project.go:138-145 | the external name, and the name of the resource only when that is missing or empty |
| ProjectAnswers.ObserveAnswers | internal/controller/project/project/project.go:148-168 | absent iff the call was delivered and the name denotes no project; a failed call is an error and writes nothing |
| ProjectAnswers.CreateAnswers | internal/controller/project/project/project.go:171-185 | what a Create stores, and that the external name is written on success and on nothing else, for every fate |
| ProjectAnswers.UpdateAnswers | internal/controller/project/project/project.go:188-198 | what an Update changes and what it leaves, for every fate |
| ProjectAnswers.UpdateStoresFlags | internal/clients/project/project.go:170-207 | after an Update the flags that are set are stored as "true" or "false", and the others as before |
| ProjectAnswers.DeleteAnswers | internal/controller/project/project/project.go:201-214 | success iff the call was delivered, and then the project that the name denoted is gone |
| ProjectReconcile.NothingAfterFailedObserve | internal/controller/project/project/project.go:151-158 | after a failed Observe nothing is sent and nothing is written |
| ProjectServer.PlainNamesMeanThemselves | internal/clients/project/project.go:36-43 | a name that does not read as a number denotes its own project or none, in whichever order names and IDs are looked up |
| ProjectReconcile.NameIsStableIff | internal/controller/project/project/project.go:139-168 | an undisturbed reconcile keeps the name iff the name denotes no project of another name |
| ProjectReconcile.AdoptsTheOther | internal/controller/project/project/project.go:148-168 | otherwise the resource takes over that project's name and ID |
| ProjectReconcile.AdoptionByNumber | internal/controller/project/project/project.go:148-214 | a resource named "7" adopts the project with ID 7, and deletes it when it is deleted |
| ProjectReconcile.OwnProjectInRunsIff | internal/controller/project/project/project.go:148-214 | through any number of reconciles with any losses, the name stays, no other project is touched and at most one is created, iff the name is safe |
| ProjectReconcile.ProjectsStayApart | internal/controller/project/project/project.go:148-214 | in any run of many resources with plain names, a project changes only by resources of its name |
| ProjectReconcile.SameNameSharesProject | internal/controller/project/project/project.go:148-214 | two resources of one name share a project, and the deletion of one takes it from the other |
| ProjectReconcile.LimitIsEnforced | internal/clients/project/project.go:155-166 | a desired storage limit is in force after every reconcile that finds or can create the project |
| ProjectReconcile.ProjectConverges | internal/controller/project/project/project.go:148-198 | without a storage limit at most one write is sent, for a name that reaches its project |
| ProjectReconcile.ProjectQuietIff | internal/clients/project/project.go:126-129 | the number of writes is bounded iff no storage limit is set and the name reaches its project |
| ProjectReconcile.PlainNamesQuietIff | internal/clients/project/project.go:126-129 | for names that do not read as a number, the number of writes is bounded iff no storage limit is set |
| ProjectReconcile.DeleteTwice | internal/controller/project/project/project.go:201-214 | exactly the project denoted goes, and repeating succeeds without effect iff the name is not a name and another project's ID at once |
| DeepCopy.RobotAccountPermission.DeepCopyInto | apis/iam/v1alpha1/zz_generated.deepcopy.go:148-165 | the copy reads as the original and everything behind it is new memory |
| DeepCopy.RobotAccountParameters.DeepCopyInto | apis/iam/v1alpha1/zz_generated.deepcopy.go:121-135 | likewise for the Duration cell, the slice and every permission in it, at any size, and no two permissions of the copy share memory |

## Left out

- Ownership: the resources keep apart (`SpecApart`), because it is false otherwise, and only then (`OwnershipIff`).
- AtMostOneRobot: like the rest of `RobotLifetime` and `RobotSettling`, for resources whose specs have a project
  permission and always look on the same project, and whose robots nobody else deletes; `SingleRobotIff` shows the need.
- DeletionLeavesNothing: states a clean server after a lookup that had something to look with; `CleanDeletionIff` shows
  when every deletion is one.
- OwnershipIff: the exact condition is for specs that stay as they are; `Ownership` itself allows edits.
- ProjectQuietIff: for names that settle after at most one adoption, not for those that lead from ID to ID through
  several projects named by numbers.
- Create: the external-create-pending guard of crossplane-runtime is not modelled, so the model allows more runs.
- Delete: the two typed forms of a 404 are one error, and so are all other failures.
- ApplyRobotAccountParameters: the robots in a listing are values; only the one Update sends is an object.
- DeepCopyInto: the reference and selector types of crossplane-runtime are copied as values, and the flat copies of the
  other generated types are not modelled.
- Texts are sequences of characters, not bytes; error messages carry no text.
- Conditions, connection details, secrets and token expiry, and the project fields OwnerName and RepoCount.
- Listings with nil entries, which Harbor does not send, and levels outside the enumeration of the resource definition.
- HTTP transport, credentials, provider configurations, controller setup, finalizers and rate limits.
- Resolution of namespace references: a namespace is given or empty, and may change between the two at any time.
- `AssignIfNil`, `AssignIfNonNil`, the remaining pointer and map comparisons, and the time conversions.
