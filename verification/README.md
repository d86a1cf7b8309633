# Verification of hyperkube's core

A Dafny model of the four cores of the hyperkube backend, with proofs of what they keep.

* **Placement and desires.** Create, Update, Delete and Get are sequences of single store calls
  over a placement database and one specs database per management cluster, with no transaction
  around them. `Protocol` is the step machine of any number of such requests, in which each call
  is answered, applied but reported as an error, or failed. `Handlers`, `Placement` and `Desires`
  are the code itself on mutable objects, proved to do what the machine does. `Capacity`,
  `Versions`, `Addressing`, `PlainMap`, `Apart`, `WaterFilling`, `Limits`, `Overlap`, `Stranding`
  and `Origins` prove what holds over all runs, `Effects` spells out what each request run alone comes
  to, and `Witnesses` gives runs from the empty store.
* **Attachments and policies.** `Attachments` is the store's code, `AttachmentIndex` its steps
  interleaved over projects. `Policies` gives the permit fragment of Cedar its meaning, `Roles`
  compiles custom roles to it, `Templates` is string rewriting, `Access` ties them together.
  `Reader` reads policy text of the fragment, `ReadBack` proves that it finds in a project's text the
  permits that text stands for.
* **Schema hiding.** `Schema` cleans JSON schemas, `StructTypes` walks Go struct types,
  `TypeSchemas`, `Hiding` and `Erasure` prove that the two recursions agree, `Resources` covers
  the tool's two passes.
* **Versions and controllers.** `VersionOrder`, `PreReleases` and `Cincinnati` choose a release, `Controllers` is
  the state machine of both controllers with their caches and work queue, `HostedClusters` and
  `Reconcilers` are the code, `Agreement` and `Triples` what holds over all runs.

`DesireId`, `Codec`, `Solo` and `Wrappers` support these. `dafny verify dfyconfig.toml` checks
everything.

Assumptions. A transaction and a single-document write are atomic, a document's update time
strictly increases, UUID v5 is injective on the joined string, the specs databases are written by
the handlers alone, capacities are fixed, watch events and lists are late but not lost, and only
the controller writes HostedClusters. Clocks, generated ids, the order in which a store lists
documents, the agent's reports and the update service's answers are parameters.

Where the code is weaker than one might expect, the exact condition and an input are proved:

* a second Delete of a name on the same management cluster stops at the old DeleteDesire
  (`Limits.DeleteSucceedsIff`, `Witnesses.SecondDeleteIsRefused`), and the name stays stranded
  (`Stranding.StrandedForever`);
* two overlapping Creates of one name can both succeed, on two management clusters
  (`Overlap.CreatesDivergeIff`, `Witnesses.TwoCreatesDiverge`);
* an interrupted attachment operation can leave the index wrong
  (`AttachmentIndex.InterruptionIsHarmlessIff`, `InterruptedCreateHarms`, `InterruptedDeleteHarms`);
* fields below map values are not hidden (`Erasure.HidingIsErasure`, `Erasure.SecretBelowMapStays`);
* negative version parts can overflow (`VersionOrder.SignIsRightIff`, `NegativePartsCanOverflow`), and
  pre-releases can rank above their release (`PreReleases.PreReleaseAgreesIff`, `CandidateRanksAboveItsRelease`);
* an explicitly empty list of services is dropped when a HostedCluster is built
  (`HostedClusters.RebuildIsStableIff`).

## Model

| member | source | states |
|---|---|---|
| Capacity.CapacitySafety | internal/apiserver/handlers.go:100-200 | in every state reachable by any interleaving of any requests, each stopping anywhere and any call failing before or after its effect, each management cluster stores at most `allocated` clusters and counts at most `capacity` |
| Capacity.ExactAccounting | internal/placement/placement.go:42-113 | `allocated` is its initial value plus allocations minus releases performed by the run, capacities never move, and whoever reaches Release finds at least one unit counted, so its `alloc <= 0` guard is never taken |
| Capacity.OneDeleteReleases | internal/apiserver/handlers.go:411-447 | however many Deletes of one document run, at most one ever goes on to Release, and if one does the ApplyDesire was really deleted at least once before |
| Capacity.ReleaseIsCovered | internal/placement/placement.go:93-113 | a request about to release owns a unit on a known management cluster |
| Capacity.RunKeepsInv | internal/apiserver/handlers.go:100-455 | every unit of `allocated` has exactly one owner -- a stored cluster, a Create that has not written yet, an unreleased deletion or an unknown earlier holder -- at every point of every run |
| Capacity.AdvanceKeepsInv | internal/apiserver/handlers.go:392-455 | the ownership of units survives each single call of each handler, whatever the call's fate |
| Capacity.InvIsSafe | internal/placement/placement.go:62-83 | when every unit has an owner, stored clusters are at most `allocated`, which is at most `capacity` |
| Capacity.InitialInv | internal/placement/placement.go:42-60 | any state without requests and DeleteDesires whose counters cover its clusters can be given owners |
| Versions.NoLostUpdate | internal/apiserver/handlers.go:370-387 | in every run the life of each ApplyDesire is a chain of versions ending in the stored one: each successful Update replaced exactly the version it read, none revived a deleted document or overwrote one created since its read |
| Versions.RunKeepsHistory | internal/desires/crud.go:133-159 | in every reachable state each stored version is the last of its document's history, and a version in a reader's hands is recognised by its update time alone |
| Versions.CallIsConsistent | internal/desires/crud.go:133-182 | a Replace that takes effect replaces the very version its request had read |
| Addressing.RunKeepsAddressing | internal/apiserver/handlers.go:54-78 | in every reachable state each ApplyDesire, ReadDesire and DeleteDesire sits in the database of the management cluster it names, under the id of its own target |
| Addressing.RunKeepsNames | internal/apiserver/handlers.go:350-384 | with slash-free namespaces every ApplyDesire's object has its target's namespace and name in every reachable state: no Update installs another cluster's object |
| Addressing.ClusterIdHoldsCluster | internal/apiserver/handlers.go:64-78 | a document under a cluster's id never holds a namespace's desire |
| Addressing.StepKeepsAddressing | internal/apiserver/handlers.go:162-197 | addressing survives each single call of each handler |
| PlainMap.RefinesPlainMap | internal/apiserver/handlers.go:100-455 | when requests for one name do not overlap, calls succeed and no name is deleted twice on one management cluster, every response is one a plain map from names to objects gives -- a Create being refused for want of room only when there is none -- and each idle name is mapped, applied (with the map's object) and watched on one management cluster, or nowhere, for any step-by-step interleaving of different names |
| Apart.PlacedOnceStaysApart | internal/apiserver/handlers.go:418-442 | over all interleavings and faults, while no cluster is placed a second time on a management cluster, no reachable state holds an ApplyDesire and a DeleteDesire of it there side by side |
| Apart.RunKeepsLoc | internal/apiserver/handlers.go:165-178 | a document placed once has at most one Create about to write it, and none once it is stored or was deleted |
| PlainMap.ApplyAndDeleteStayApart | internal/apiserver/handlers.go:418-442 | from any state that refines a map, DeleteDesires included, requests that do not overlap and place no name where it was deleted keep the two apart |
| PlainMap.OwnCreate | internal/apiserver/handlers.go:118-199 | each call of a Create keeps the stored name in the intermediate shape that fits its program counter, and ends in what the map says, or refused for want of room when no management cluster has any |
| PlainMap.OwnUpdate | internal/apiserver/handlers.go:340-390 | the same for Update |
| PlainMap.OwnDelete | internal/apiserver/handlers.go:392-455 | the same for Delete |
| PlainMap.OwnGet | internal/apiserver/handlers.go:202-277 | Get, before the agent reports, answers the map's object and changes nothing |
| PlainMap.OtherNamesUntouched | internal/apiserver/handlers.go:64-78 | no call of a request changes how another name is stored |
| PlainMap.EmptyStore | internal/apiserver/handlers.go:100-130 | the empty databases stand for the empty map |
| Limits.DeleteSucceedsIff | internal/apiserver/handlers.go:392-455 | a fault-free Delete of a stored name succeeds if and only if no DeleteDesire of the name exists on the management cluster that holds it, and then gives its unit back; otherwise it answers AlreadyExists and leaves the name mapped with nothing stored |
| Witnesses.SecondDeleteIsRefused | internal/apiserver/handlers.go:439-442 | from the empty store with one management cluster, a run of Create, Delete, Create and Delete of one name ends in that refusal, with the name stranded |
| Limits.StrandedAnswers | internal/apiserver/handlers.go:120-128 | a request for a stranded name, on its own and without faults, is answered Conflict if it is a Create and NotFound otherwise, and changes nothing |
| Stranding.StrandedForever | internal/apiserver/handlers.go:120-128 | a stranded name without requests under way is stranded in every later state of every run, whatever arrives and whatever fails, and every later request for it ends in Conflict, NotFound, an unavailable store or, for a Get, in what the agent reports |
| Overlap.CreatesDivergeIff | internal/apiserver/handlers.go:120-197 | over every run in which two Creates of one absent name are served, their calls succeed and any other requests are for other names, the name ends on two management clusters if and only if each Create made its mapping check before the other wrote its mapping and they were placed differently; and if and only if both were answered with success |
| Overlap.RunKeepsPair | internal/apiserver/handlers.go:100-200 | at every point of such a run the name is stored where, and only where, one of the two has written it |
| Witnesses.TwoCreatesDiverge | internal/apiserver/handlers.go:120-197 | from the empty store with two management clusters a run of two Creates ends so, both answered with success |
| Limits.OverlappingCreatesDiverge | internal/apiserver/handlers.go:130-197 | from any state in which both passed their check and would be placed differently, being served in turn leads there, both answered with success |
| Limits.CreateLands | internal/apiserver/handlers.go:130-197 | a fault-free Create past its check counts one unit and stores its ApplyDesire and ReadDesire exactly where it was placed |
| Handlers.Handler.Create | internal/apiserver/handlers.go:100-200 | the handler's code, call by call with early returns, does exactly what the step machine's Create does run alone, for every outcome of every call; a success has written the submitted cluster id and body under the name's keys, and nothing else |
| Handlers.Handler.Place | internal/apiserver/handlers.go:118-134 | mapping check and allocation: where the machine then stands, or how it ended |
| Handlers.Handler.WriteApplies | internal/apiserver/handlers.go:142-178 | an existing namespace desire is tolerated, an existing cluster desire is not |
| Handlers.Handler.Publish | internal/apiserver/handlers.go:180-199 | the ReadDesire comes before the mapping, whose failure is reported |
| Handlers.Handler.ReadExisting | internal/apiserver/handlers.go:356-374 | what Update works on, or the error it stops with |
| Handlers.Handler.Update | internal/apiserver/handlers.go:340-390 | the same for Update, including every failed precondition; a success has stored the submitted object and changed nothing else |
| Handlers.Handler.Delete | internal/apiserver/handlers.go:392-455 | the same for Delete, including the stop at an existing DeleteDesire; a success has buried the cluster under the cluster id that was stored |
| Handlers.Handler.Locate | internal/apiserver/handlers.go:397-416 | what Delete works on, or the error it stops with |
| Handlers.Handler.RemoveDesires | internal/apiserver/handlers.go:418-427 | ApplyDesire and ReadDesire are removed in this order, each failure ending the request |
| Handlers.Handler.Bury | internal/apiserver/handlers.go:429-454 | only the creator of the DeleteDesire goes on to release and unmap |
| Handlers.Handler.Forget | internal/apiserver/handlers.go:444-454 | release comes before unmapping, and a failed release keeps the mapping |
| Handlers.Handler.Get | internal/apiserver/handlers.go:202-277 | the same for Get, which writes nothing; of a mapped name it answers what the agent has reported, whatever is stored |
| Solo.AloneIsARun | internal/apiserver/handlers.go:100-455 | a handler run alone is a run of the concurrent system, so everything proved of runs holds of the handlers' code |
| Effects.CreateStoresTheRequest | internal/apiserver/handlers.go:100-200 | for every fate of every call, a Create succeeds exactly if all six calls are answered, the name is unmapped, some management cluster is chosen and the cluster's documents are not on it; then the ApplyDesire holds the submitted namespace, name, cluster id and body, the ReadDesire the cluster id, the namespace desire is there, one unit is counted and all else is as before; Conflict means mapped, and NoPlacement that no management cluster has room |
| Effects.UpdateStoresTheRequest | internal/apiserver/handlers.go:340-390 | an Update succeeds exactly if its three calls are answered and the name is mapped and stored; then the stored content is the submitted object and every other field and document is as before |
| Effects.GetAnswers | internal/apiserver/handlers.go:202-277 | Get changes nothing; an unmapped name is NotFound, a mapped one answers the agent's reported object whatever is stored, and the stored object or NotFound if nothing is reported |
| Effects.DeleteBuriesTheCluster | internal/apiserver/handlers.go:392-455 | a Delete succeeds exactly if its seven calls are answered, the name is mapped to an existing management cluster that stores it and no DeleteDesire is there; then the DeleteDesire carries the stored cluster id, both other desires and the mapping are gone, the unit is given back and all else is as before |
| Effects.CreateThenGet | internal/apiserver/handlers.go:112-178 | after a successful Create, Get answers the submitted object until the agent reports |
| Effects.UpdateThenGet | internal/apiserver/handlers.go:370-390 | and after a successful Update the updated one |
| Effects.CreateThenDelete | internal/apiserver/handlers.go:392-455 | a Delete after a Create succeeds exactly if its calls are answered and no DeleteDesire was there before the Create; it passes on the Create's cluster id and restores mappings, loads and all other documents, up to the namespace |
| Origins.NothingIsInvented | internal/apiserver/handlers.go:100-455 | in every state reachable from empty databases by any interleaving with any faults, a stored object is the one that some Create or Update of the run submitted for that document, and the cluster id of each desire of a cluster is one that a Create of that document brought |
| Origins.RunKeepsSources | internal/apiserver/handlers.go:370-445 | so is what requests under way hold in their hands |
| Placement.Choose | internal/placement/placement.go:62-76 | what the scan picks is one of the listed management clusters |
| Placement.ChooseScans | internal/placement/placement.go:62-76 | over any listing the scan fails exactly when nothing listed has room and otherwise finds a least-loaded entry |
| Placement.ChooseIsLeastLoaded | internal/placement/placement.go:62-80 | whatever the order of the documents, placement fails exactly when no management cluster has room and otherwise picks one with room that no other with room undercuts |
| Placement.ChooseIsFirst | internal/placement/placement.go:62-76 | among equally loaded management clusters it is the first in the listing |
| Placement.Client.Allocate | internal/placement/placement.go:42-91 | one transaction that counts one more cluster on a least-loaded management cluster with room and changes nothing when there is none |
| Placement.Client.Release | internal/placement/placement.go:93-113 | one transaction that counts one less, never below zero, and fails on an unknown management cluster |
| Placement.Client.SetClusterMapping | internal/placement/placement.go:123-135 | writes exactly the one mapping unless the call fails |
| Placement.Client.GetClusterMapping | internal/placement/placement.go:137-152 | the mapped management cluster or NotFound, without changes |
| Placement.Client.DeleteClusterMapping | internal/placement/placement.go:154-162 | removes exactly the one mapping; an absent one is no error |
| WaterFilling.FillStaysLevel | internal/placement/placement.go:62-83 | after any sequence of Allocates from level loads, with any listing orders, no load is more than one above that of any management cluster with room |
| WaterFilling.AfterOneStaysLevel | internal/placement/placement.go:62-83 | one Allocate keeps loads level |
| WaterFilling.RefusedWhenFull | internal/placement/placement.go:78-80 | from level loads an Allocate is refused exactly when the total load equals the total capacity |
| WaterFilling.OneAllocation | internal/placement/placement.go:82-86 | a granted Allocate raises the total load by one, a refused one by nothing |
| WaterFilling.GrantedIsMin | internal/placement/placement.go:62-91 | of k Allocates exactly min(k, free capacity) are granted, and the load they add is their number |
| WaterFilling.GrantedFromEmpty | internal/placement/placement.go:62-91 | from zero loads exactly min(k, total capacity) are granted and the result is level |
| WaterFilling.MaxLoadIsMinimal | internal/placement/placement.go:62-83 | any feasible distribution of as many clusters loads some management cluster at least as much as allocation loads its fullest |
| DesireId.JoinInjective | internal/desires/desireid.go:20-23 | a one-character join is injective as soon as the first halves are free of the separator |
| DesireId.ClusterIdInjective | internal/apiserver/handlers.go:64-66 | cluster ids identify namespace and name for slash-free namespaces |
| DesireId.ClusterIdCollision | internal/desires/desireid.go:20-23 | with a slash in a namespace two different clusters share an id |
| DesireId.ClusterMapIdInjective | internal/placement/placement.go:117-119 | mapping ids identify namespace and name for colon-free namespaces |
| DesireId.NamespaceIdInjective | internal/apiserver/handlers.go:68-70 | namespace ids identify the namespace, whatever it contains |
| DesireId.NamespaceAndClusterIdsDiffer | internal/apiserver/handlers.go:64-70 | no namespace id equals a cluster id, whatever the strings (ids are UUID v5, section 5.5 of RFC 9562, taken as injective on the joined string) |
| Codec.CreateReadRoundTrip | internal/desires/codec.go:75-113 | reading back what a Create wrote gives the desire's raw objects, empty and null ones coming back as absent; they are stored under their two field names exactly if given, and a Create is refused exactly when one does not parse |
| Codec.ReplaceForgetsTheOldContents | internal/desires/codec.go:50-73 | whatever a document held, a Replace leaves its two raw fields as a fresh Create would and every other field alone |
| Desires.Collection.Get | internal/desires/crud.go:65-74 | the stored document or NotFound |
| Desires.Collection.Create | internal/desires/crud.go:92-116 | stores under an unused, non-empty id with a new time, and otherwise changes nothing and says why |
| Desires.Collection.Replace | internal/desires/crud.go:133-159 | takes effect exactly if the stored version is the one given |
| Desires.Collection.Delete | internal/desires/crud.go:161-167 | afterwards the document is gone, and deleting an absent one succeeds |
| AttachmentIndex.IndexAgrees | internal/cedar/store.go:143-231 | in every reachable state, for every idle project that no operation left half done, a project is in a user's list exactly when the user is the principal of one of its attachments, and stored lists are non-empty without repeats |
| AttachmentIndex.InterruptionIsHarmlessIff | internal/cedar/store.go:143-231 | in every reachable state of a project without torn operations, an operation that stops at its next call, whether or not the call took effect, leaves the index wrong if and only if it saved a list with other principals that it will not index: a create whose user is not in the index, or a delete of its user's last attachment |
| AttachmentIndex.InterruptedCreateHarms | internal/cedar/store.go:164-170 | four steps from the empty store leave an idle project whose only principal is not indexed |
| AttachmentIndex.InterruptedDeleteHarms | internal/cedar/store.go:213-229 | an interrupted delete after a create leaves an idle project indexed for a user without attachments |
| AttachmentIndex.TornOperationsErrOneWay | internal/cedar/store.go:160-170 | in every reachable state interrupted creates alone leave nobody indexed without an attachment, and interrupted deletes alone leave nobody with an attachment unindexed |
| AttachmentIndex.RunKeepsInv | internal/cedar/store.go:432-482 | index and attachments agree up to the one user the project's operation is about to index or remove, at every point of every run |
| AttachmentIndex.MoveKeepsOwn | internal/cedar/store.go:191-231 | each step of an operation, answered, lost or failed, keeps its own project's agreement |
| AttachmentIndex.MoveKeepsOthers | internal/cedar/store.go:432-482 | and no step touches another project's |
| AttachmentIndex.DeletePrincipals | internal/cedar/store.go:197-211 | deleting an attachment can take away no principal but its own |
| AttachmentIndex.CreateRunsAlone | internal/cedar/store.go:143-172 | uninterrupted, the create steps add up to what the store's method is proved to do |
| AttachmentIndex.DeleteRunsAlone | internal/cedar/store.go:191-231 | uninterrupted, so do the delete steps, in all three of their lengths |
| Attachments.Store.AddUserProject | internal/cedar/store.go:432-454 | the project ends up once in the user's list, all else unchanged |
| Attachments.Store.RemoveUserProject | internal/cedar/store.go:456-482 | the project is removed from the user's list, which is deleted if nothing is left |
| Attachments.Store.CreateAttachment | internal/cedar/store.go:143-172 | an unknown role changes nothing; otherwise list and index both gain the attachment |
| Attachments.Store.DeleteAttachment | internal/cedar/store.go:191-231 | an unknown id changes nothing; otherwise the index loses the project exactly if no attachment of the user is left |
| Attachments.AddProjectMeaning | internal/cedar/store.go:432-454 | membership of exactly one pair is gained and lists stay non-empty without repeats |
| Attachments.RemoveProjectMeaning | internal/cedar/store.go:456-482 | membership of exactly one pair is lost and lists stay non-empty without repeats |
| Attachments.WithoutMembers | internal/cedar/store.go:199-208 | exactly the attachments with another id remain |
| Attachments.WithoutAppend | internal/cedar/store.go:199-208 | and in their order |
| Attachments.PrincipalFound | internal/cedar/store.go:199-211 | the loop finds a principal exactly when the id occurs, and it is one of that id's attachments |
| Access.AccessImpliesIndexed | internal/cedar/store.go:244-303 | in every reachable state of the store, if an idle project's attachments allow a user anything, the resource is the project or a cluster of the request to it, the user is the principal of one of its attachments, and the project is in the user's list |
| Access.DecisionIsUnion | internal/cedar/store.go:244-271 | with permit-only global policies the decision is the union of the global permits and of what each attachment's template or role grants |
| Access.AttachmentMeaning | internal/cedar/store.go:283-303 | an attachment allows exactly its principal, in its project, what its template lists or a permission of its role grants |
| Access.AttachmentLiterally | internal/cedar/store.go:273-303 | the same in the repository's own names: what each of the four embedded templates allows, that they come before any role, and otherwise the permissions of the role stored under the project and name |
| Access.InstantiateLiterally | internal/cedar/store.go:284-288 | `?principal` is replaced by the user entity and `?resource` by the project entity |
| Access.RoleDocIDInjective | internal/cedar/store.go:108-110 | for projects without a colon a role document belongs to one project and role name |
| Access.TextPrintsPermits | internal/cedar/store.go:283-303 | the policy text of an attachment is the printed form of the permits it is given meaning by |
| Access.InstantiateFillsTheLayout | internal/cedar/store.go:284-288 | replacing the placeholders in a template's text gives the printed form of the permit with the entities filled in |
| Access.TemplatesArePlain | internal/cedar/templates/cluster-admin.cedar:1-12 | the repository's templates hold no question mark but their placeholders |
| Access.ResolveAttachmentPolicy | internal/cedar/store.go:283-303 | template first, else custom role, else nothing |
| Access.ResolvePolicies | internal/cedar/store.go:244-271 | the loop computes the project's policy text |
| Access.GlobalsComeFirst | internal/cedar/store.go:247-251 | that text starts with the global policies and a newline, if there are any, and goes on as it would without them |
| Access.AttachmentAddsItsLine | internal/cedar/store.go:259-270 | and each further attachment adds its own text and a newline at the end, or nothing if it resolves to nothing |
| ReadBack.ResolvedIsReadBack | internal/cedar/store.go:244-336 | a reader of the Cedar fragment that knows nothing of the printer reads the resolved text back as the global permits followed by those of each attachment, in order: text and permits are the same thing |
| ReadBack.TextDecides | internal/cedar/store.go:244-271 | so deciding by the resolved text is the union of the global permits and what each attachment grants |
| ReadBack.PermitsAreReadBack | internal/cedar/store.go:325-336 | any list of permits is read back from the text of its blocks, with principals, actions, resources and conditions in order |
| ReadBack.TemplateIsReadBack | internal/cedar/templates/cluster-admin.cedar:1-12 | so is a template's permit from the templates' own layout |
| Reader.PoliciesAppend | internal/cedar/store.go:259-270 | policies read from two texts one after the other are those read from the joined text |
| Roles.CompileMeaning | internal/cedar/store.go:305-336 | for all permission and condition lists the generated permits allow a query exactly when it is the principal's, the resource is in the project, and some listed permission maps to the action and is a collection permission or all conditions hold |
| Roles.CompileLiterally | internal/cedar/permissions.go:15-63 | the same with every permission and action by name: list and create are allowed whatever the conditions, the other five exactly if all conditions hold, each its own action |
| Roles.OnlyCollectionsEscape | internal/cedar/permissions.go:56-63 | if some condition does not hold, only listing and creating are ever allowed, and only if listed |
| Roles.PermissionsAreASet | internal/cedar/store.go:305-323 | order and repetition of permissions never matter |
| Roles.GeneratePolicyFromPermissions | internal/cedar/store.go:305-323 | the generated text is the printed form of those permits |
| Roles.WritePermitBlock | internal/cedar/store.go:325-336 | one block prints one permit with all its conditions |
| Roles.ValidatePermissions | internal/cedar/permissions.go:37-44 | accepts exactly lists of known permissions and otherwise names the first unknown one |
| Roles.MapPermissionsToActions | internal/cedar/permissions.go:46-55 | the actions of the known permissions, in order |
| Roles.ActionsOfMembers | internal/cedar/permissions.go:15-55 | an action is mapped to exactly if a listed, known permission maps to it |
| Policies.AllowsConcat | internal/cedar/store.go:259-270 | concatenated permits allow what either part allows |
| Policies.InProject | internal/cedar/entities.go:25-54 | under the parents built for a request, a resource is in a project exactly if it is the project or a cluster of a request to that project |
| Templates.InstantiateIsSimultaneous | internal/cedar/store.go:284-288 | for every template and ids without a question mark, the two replacements give the string of one simultaneous pass and of the opposite order |
| Templates.SequentialIsSimultaneous | internal/cedar/store.go:284-288 | the same for any two placeholders neither of which starts the other |
| Templates.SimultaneousCommutes | internal/cedar/store.go:284-288 | a simultaneous pass does not depend on the order of its patterns |
| Templates.NoPlaceholderLeft | internal/cedar/store.go:284-288 | no question mark is left in a policy if and only if every question mark of the template starts a whole placeholder |
| Erasure.HidingIsErasure | hack/crd-to-openapi/main.go:203-272 | cleaning a type's schema with the paths the type walk finds removes every hidden field not below a map value, and gives the schema of the type without its hidden fields if and only if no hidden field is below one |
| Erasure.HidingIsErasureWithoutMaps | hack/crd-to-openapi/main.go:641-672 | with pointer, slice and struct nesting only, hiding is erasure |
| Erasure.SecretBelowMapStays | hack/crd-to-openapi/main.go:689-700 | a well-formed struct type with a hidden field below a map, for which it is not |
| Erasure.PublishedIsErased | hack/crd-to-openapi/main.go:328-358 | from Go types and CRD to the published schema: spec and status come out without the hidden fields the walk reaches, whether or not anything is hidden |
| Erasure.ClearIff | hack/crd-to-openapi/main.go:689-700 | for every type, what the tool produces is fully erased exactly if no hidden field is reachable below a map |
| Erasure.KindAgrees | hack/crd-to-openapi/main.go:609-633 | the joint set of a kind's spec and status paths acts on each part like that part's own walk |
| Hiding.TypeCleans | hack/crd-to-openapi/main.go:203-272 | for every type expression, path and hidden set that agrees with the walk below that path, cleaning produces the erased schema |
| Hiding.OnlyThisField | hack/crd-to-openapi/main.go:641-672 | with distinct dot-free names no other field contributes a path at or under a field's own |
| Hiding.WalkMembers | hack/crd-to-openapi/main.go:641-672 | a path is found exactly if it belongs to some named field: the field itself if hidden, else a path of the type it leads to |
| Hiding.WalkIsUnder | hack/crd-to-openapi/main.go:656-669 | every path found is below the prefix |
| Hiding.FieldsApart | hack/crd-to-openapi/main.go:656-658 | a dotted path is at or under at most one dot-free field name |
| StructTypes.WalkStructFields | hack/crd-to-openapi/main.go:641-672 | adds exactly the paths of the walk to the set it is given, and ends because struct types have ranks |
| StructTypes.WalkOneField | hack/crd-to-openapi/main.go:641-687 | what one field contributes: nothing without a JSON name, its dotted path if hidden, else what the struct under pointers and slices has below that path, and nothing through maps |
| StructTypes.WalkAppend | hack/crd-to-openapi/main.go:642-671 | and a struct contributes what its fields do |
| StructTypes.BuildHiddenPaths | hack/crd-to-openapi/main.go:586-636 | exactly the kinds with something hidden get a set, and it is that of their two types |
| TypeSchemas.GroundedIsAcyclic | hack/crd-to-openapi/main.go:664-670 | types that do not contain themselves at all give the walk its ranks |
| Schema.CleanFuses | hack/crd-to-openapi/main.go:203-272 | for every schema, cleaning twice is cleaning once with the paths of both passes |
| Schema.TwoPassesFuse | hack/crd-to-openapi/main.go:168-168 | the tool's first pass without hidden paths adds nothing to the second |
| Schema.CleanIsIdempotent | hack/crd-to-openapi/main.go:203-272 | cleaning a cleaned schema changes nothing |
| Schema.CleanIsTidy | hack/crd-to-openapi/main.go:203-272 | at every reached level nothing hidden and no extension key is left |
| Schema.TidyStays | hack/crd-to-openapi/main.go:203-272 | and a schema with nothing to remove is left as it is |
| Schema.CleanStaysClosed | hack/crd-to-openapi/main.go:232-257 | if every `required` list names declared properties only, so does every one left |
| Schema.PathIsIrrelevant | hack/crd-to-openapi/main.go:232-257 | without hidden paths the starting path plays no part |
| Schema.CleanedKeys | hack/crd-to-openapi/main.go:206-269 | which keys of a schema stay: not those with the extension prefix, not properties that are no object, not an emptied required list; and which keep their values |
| Schema.CleanedPropertiesLiterally | hack/crd-to-openapi/main.go:212-231 | which properties stay, and the dotted path each is looked up and cleaned at |
| Schema.CleanSchema | hack/crd-to-openapi/main.go:203-272 | the recursion over maps, in any key order, computes the cleaned schema |
| Schema.CleanKey | hack/crd-to-openapi/main.go:206-269 | key by key, which stay and with what value |
| Schema.CleanPropertiesOf | hack/crd-to-openapi/main.go:212-231 | exactly the visible properties stay, each cleaned at its own path |
| Schema.FilterRequiredEntries | hack/crd-to-openapi/main.go:233-246 | exactly the visible names stay, in order |
| Resources.ExtractSchema | hack/crd-to-openapi/main.go:161-187 | the cleaned schema without the three standard fields, or no result where the tool panics |
| Resources.ExtractionSucceedsIff | hack/crd-to-openapi/main.go:168-172 | the tool panics exactly on schemas that declare no properties object |
| Resources.BuildResourceSchema | hack/crd-to-openapi/main.go:328-358 | the published schema from the extracted one |
| Resources.PublishedOnce | hack/crd-to-openapi/main.go:338-349 | through both passes, each published property is the declared one cleaned once with the hidden paths from its own name, and only the standard three are gone |
| Resources.PublishedIsClosed | hack/crd-to-openapi/main.go:174-187 | at every level of the published schema, required names are declared properties if they were in the CRD |
| Resources.PublishedLiterally | hack/crd-to-openapi/main.go:328-358 | the published schema has exactly a type, the declared description or an empty one, properties, and the declared required names but the standard three if any are left, in order |
| Resources.PublishedPropertiesLiterally | hack/crd-to-openapi/main.go:334-349 | its metadata is the reference to the shared schema, and of the declared properties exactly apiVersion, kind and the own metadata are gone |
| Resources.WithoutStandardOne | hack/crd-to-openapi/main.go:174-187 | a required name is dropped exactly if it is one of the standard three |
| VersionOrder.CompareVersions | internal/cincinnati/client.go:126-145 | the loop over parts computes the first 64-bit difference |
| VersionOrder.SignIsRightIff | internal/cincinnati/client.go:126-145 | the comparison is zero exactly on equal versions, and has the order's sign in both directions if and only if the first difference does not overflow 64 bits |
| VersionOrder.NonNegativeNeverOverflows | internal/cincinnati/client.go:140-142 | parts that are not negative never overflow |
| VersionOrder.NegativePartsCanOverflow | internal/cincinnati/client.go:134-142 | two concrete versions each of which compares below the other |
| VersionOrder.TotalPreorder | internal/cincinnati/client.go:126-145 | on versions without negative parts signs are antisymmetric and being at most is transitive |
| VersionOrder.ZeroIffEqualUpToTrailingZeros | internal/cincinnati/client.go:130-145 | two versions compare equal exactly if their parts are the same up to trailing zeros |
| VersionOrder.AgreesWithSemVer | internal/cincinnati/client.go:124-145 | on plain major.minor.patch the sign is the precedence of section 11 of SemVer 2.0.0 |
| PreReleases.PreReleaseAgreesIff | internal/cincinnati/client.go:126-145 | for a pre-release against a release, the sign is section 11's if and only if major or minor decide, or the release's patch is positive and not below the pre-release's, or it is zero and the further identifiers, read as numbers, happen to have the right sign |
| PreReleases.CandidateRanksAboveItsRelease | internal/cincinnati/client.go:126-145 | a numbered pre-release of a .0 release compares above it, where section 11 puts it below |
| PreReleases.CandidateIsChosen | internal/cincinnati/client.go:96-106 | so a graph that lists both resolves to the pre-release |
| Cincinnati.ResolveVersion | internal/cincinnati/client.go:78-116 | the scan with all its errors and defaults computes the resolution, and a success names the channel that was asked for |
| Cincinnati.ResolutionOutcomes | internal/cincinnati/client.go:78-116 | the given channel group and architecture are asked for, or stable and amd64 if none is given; the resolution succeeds exactly if the fetch does, some node has the version as its prefix and the chosen one has a payload, and every other end is the error that fits |
| Cincinnati.BestIsChosen | internal/cincinnati/client.go:96-106 | the chosen node is the first of the highest: every earlier matching node is strictly below it |
| Cincinnati.ChosenIsUnique | internal/cincinnati/client.go:96-106 | which is one node only |
| Cincinnati.ResolutionIsHighest | internal/cincinnati/client.go:78-115 | a successful resolution is a node of the channel and architecture asked for, or the defaults, with the exact major.minor prefix and a payload, and no matching node is above it |
| Cincinnati.BestIsMaximum | internal/cincinnati/client.go:96-106 | no matching node is above the one the scan ends with, if comparisons do not overflow |
| Cincinnati.BestIsFound | internal/cincinnati/client.go:96-110 | nothing is found exactly when nothing matches |
| Cincinnati.RankIgnoresOrder | internal/cincinnati/client.go:96-106 | graphs with the same nodes in any order resolve to versions of the same rank |
| Agreement.LevelTriggered | internal/controller/hostedcluster_controller.go:59-115 | in every reachable state, a HostedCluster that differs from what the current inputs call for has its key queued, due to be queued, or held by a worker that has yet to write and holds nothing but current inputs |
| Agreement.QuietIsAgreed | internal/controller/hostedcluster_controller.go:242-280 | with no pass under way or coming for a cluster, its HostedCluster is the one its inputs call for |
| Agreement.PassInstalls | internal/controller/hostedcluster_controller.go:59-115 | a pass that starts with current caches and meets no error installs it and ends |
| Agreement.RunKeepsInv | internal/controller/hostedcluster_controller.go:242-280 | the agreement is kept by every step of users, informers, queue, workers and resolutions |
| Agreement.NotifyStreamKeepsKey | internal/controller/hostedcluster_controller.go:257-280 | mapping a stream's event through the cached list misses no cluster but those whose own event is still to come |
| Triples.TriplesAreCoherent | internal/controller/versionstream_controller.go:78-96 | in every reachable state a stream's image, version and channel are all empty, or are the three fields of one success that one step of this very run got for this stream's spec and whose write was accepted |
| Triples.PastIsCoherent | internal/controller/versionstream_controller.go:78-96 | the same of every version of every stream the run brings about |
| Triples.HostedPairsOccurredTogether | internal/controller/hostedcluster_controller.go:66-80 | every HostedCluster carries an image and a channel that stood together in some stream's status, brought together by one resolution of this run |
| Triples.ResolvedStaysResolved | internal/controller/versionstream_controller.go:59-96 | once resolved a stream never returns to empty, whatever happens next |
| Triples.FailureKeepsTriples | internal/controller/versionstream_controller.go:59-75 | failed resolutions, refused writes and version conflicts leave every stream's triple as it was |
| Triples.CopyIsCurrent | internal/controller/versionstream_controller.go:91-94 | a status write that is accepted was computed from the stored stream itself |
| Triples.RunKeepsTriples | internal/controller/versionstream_controller.go:46-98 | all that is stored, cached, worked on or written comes from a version of a stream, and each version has its own number |
| Reconcilers.HostedClusterReconciler.Reconcile | internal/controller/hostedcluster_controller.go:59-115 | the code, call by call with early returns, does what the machine's worker does undisturbed, for every outcome of every call; a pass is repeated after ten seconds exactly if its stream is unresolved, and is done with exactly if the cluster is gone or every call succeeded |
| Reconcilers.HostedClusterReconciler.Install | internal/controller/hostedcluster_controller.go:94-115 | the look for an existing HostedCluster and the write that fits what was found |
| Reconcilers.HostedClusterReconciler.Prepare | internal/controller/hostedcluster_controller.go:62-92 | the two cached reads: when there is something to write, and how and when the pass ends without it |
| Reconcilers.HostedClusterReconciler.Write | internal/controller/hostedcluster_controller.go:94-115 | create or conditional update, then the conditional status report; done exactly if both are accepted and answered, else backing off |
| Reconcilers.HostedClusterReconciler.MapVersionStream | internal/controller/hostedcluster_controller.go:257-280 | exactly the listed clusters of the stream are queued |
| Reconcilers.VersionStreamReconciler.Reconcile | internal/controller/versionstream_controller.go:46-98 | read, resolution and status write do to the streams what the machine's steps do, for every outcome of every call; a stream that is gone is dropped, errors back off, a failed resolution is repeated after one minute and a successful one after five |
| Reconcilers.DriveIsARun | internal/controller/hostedcluster_controller.go:59-115 | a reconciler run alone is a run of the machine |
| HostedClusters.BuildHostedCluster | internal/controller/hostedcluster_controller.go:180-216 | the built object is the specified function of the input; though the spec worked on is a shallow copy sharing every object the input points to, the input is left as it was, pointed-to objects included |
| HostedClusters.PopulateHostedClusterSpec | internal/controller/hostedcluster_controller.go:117-178 | owned fields are set and nil fields filled in, in place, without writing through a pointer |
| HostedClusters.FillDefaults | internal/controller/hostedcluster_controller.go:120-175 | only nil pointers and lists are replaced |
| HostedClusters.SetOwned | internal/controller/hostedcluster_controller.go:118-158 | the controller's own fields are set, and no other |
| HostedClusters.BuildKeepsSettings | internal/controller/hostedcluster_controller.go:117-200 | image, channel and ids are carried, user settings kept -- except an empty list of services, which marshalling drops -- and nothing else is left unset |
| HostedClusters.BuildLiterally | internal/controller/hostedcluster_controller.go:117-200 | the built object field by field: what the controller insists on, and the default that stands for each field left nil |
| HostedClusters.OwnedFieldsAreIgnored | internal/controller/hostedcluster_controller.go:117-160 | what a user writes into the controller's own fields has no effect |
| HostedClusters.RebuildIsStableIff | internal/controller/hostedcluster_controller.go:180-200 | building again from what was built gives the same if and only if the user's list of services was not present but empty |
| HostedClusters.ManagedHostedCluster.SetCondition | internal/controller/hostedcluster_controller.go:218-240 | the first condition of the kind is replaced, or the new one appended |
| HostedClusters.PutReplaces | internal/controller/hostedcluster_controller.go:227-236 | one condition per kind stays one, all others are kept |

## Left out

- HTTP and JSON plumbing: request decoding, validation, response writing, the mux, MapRequest, OpenAPI paths and list schemas.
- Firestore, gRPC and Kubernetes clients: only the atomicity, preconditions and versions stated above.
- The agent: outside the repository; what it reports to the status databases is arbitrary.
- List, GetKubeConfig, ListClusterMappings and buildDesireStatus: reads without a property of interest.
- JWT checks, and Cedar's parser and evaluator beyond the permit fragment: condition texts are given an arbitrary meaning.
- ReadBack.ResolvedIsReadBack: ids are free of quotes, backslashes and question marks, and conditions of closing braces, since they are printed unescaped and would be read differently; the global policies are permits of the fragment.
- Forbid policies in the global policy text: the union property is stated for permit-only global policies.
- SHA-1 inside UUID v5: an abstract injective constructor.
- toInt64: capacities and loads are integers.
- An Update keeps the desire's clusterID whatever the new object says, so agreement of the two is not claimed.
- One table, keyed by management cluster and id, stands for all specs databases of one kind.
- Templates.InstantiateIsSimultaneous: ids are free of question marks; an id that spells a placeholder would be rewritten itself.
- AttachmentIndex.IndexAgrees: attachment ids are unique within a project and users are not blank, since a generated id has eight hex digits and a blank user is never removed from the index; operations on one project do not overlap.
- YAML and Go parsing: the schema tool starts from a parsed tree and type map; inlined fields, which have no JSON name of their own, are not part of the schemas of types.
- TypeSchemas.GroundedIsAcyclic: the erasure theorems are about types with finite schemas; the walk itself needs only that types do not contain themselves through pointers and slices.
- Erasure.PublishedIsErased: schemas of types are built from structs, pointers, slices, string-keyed maps and leaves with further plain keys; other schema keywords with nested schemas are not part of this model.
- HostedClusters.BuildHostedCluster: the round trip through JSON is its effect on the typed value, and owner references and annotations, which are constant, are omitted.
- Messages and times of the controllers' conditions on streams: only that a failed resolution leaves the triple alone.
- Agreement.LevelTriggered: deletion of VersionStreams, garbage collection of HostedClusters, and an idle work queue, which is never reached because every successful pass writes a fresh time.
- Cincinnati.ResolutionIsHighest: the maximum is claimed where comparisons of matching versions do not overflow, in particular without negative parts.
- PreReleases.PreReleaseAgreesIff: a pre-release against a release; two pre-releases against each other are not part of this model.
- Generated deep copies, RBAC and CRD YAML, main functions and the scaffold reconcilers.
