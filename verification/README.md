# ODH Platform controllers: a verified model

The ODH platform runs two Kubernetes controllers for every kind of custom resource it is configured to watch.

* The **routing controller** puts a finalizer on the custom resource, deletes the routing resources of export modes
  that are not enabled, creates or applies the template resources of every exported service, port and enabled mode,
  writes the resulting hosts into two annotations and patches the custom resource. When the custom resource is marked
  for deletion it deletes what it created and only then takes its finalizer off. Ownership is recorded in labels only.
* The **authorization controller** reads hosts from the custom resource (at configured paths and in those two
  annotations) and keeps one AuthConfig and one AuthorizationPolicy per custom resource as desired.

The project models both against an abstract API server and proves what they promise together with it.

## How it is built

`Api` holds the stored state and the meaning of every request as functions. `Server.ApiServer` is the server as one
client sees it: inside each call others may change the stored state any number of times, the call may fail, and a failed
call may have taken effect all the same. A crash needs no step of its own, because a client that crashed is one all of
whose later calls fail. `history` keeps every state, who made it, the request it came from and the answer the client
got; `looks` records which keys the client read, and when. A server created `quiet` has no other clients and no faults,
except that requests to delete a collection may fail if it is also `brittle`. On a quiet server the methods say exactly
which state they leave. On any other they say which steps they may have taken, which requests they sent, and what a
result without errors means.

`Metadata`, `RouteTypes`, `Templates`, `Unstruct`, `Deletion`, `Exporting` and `RoutingController` follow the files of
the routing side, `Hosts` and `Authz` those of the authorization side. `Ownership` states the promise of the routing
controller and the rules everybody else has to keep; `RoutingRuns` proves the promise over whole runs. `Convergence`,
`DistinctKeys`, `Finalization`, `SelectorOptions`, `HostChannel` and `AuthzConvergence` hold the theorems about complete
reconciles, `TemplateLines`, `TemplateText` and `Text` those about rendered text. Orders that the program leaves open
(iteration over Go maps) are arbitrary choices in the methods; contracts hold for every choice.

Main results:

1. *No orphans* (`RoutingRuns.Operate`): in every state of every run, each resource labelled with the uid of the
   custom resource has its owner in the cluster, and the owner holds the finalizer.
2. *Nothing of others is lost* (`RoutingRuns.Operate`, `AuthzConvergence.ReconcileLosesNothing`), and neither controller
   breaks the rules the other one needs (`AuthzConvergence.AuthorizationKeepsRules`).
3. *Convergence, fixed point and order independence* of a routing reconcile (`Convergence.Reconciled`,
   `Convergence.OnlyEnabledModes`, `Convergence.ReconciledTwice`, `Convergence.ReconcileOrder`), under conditions a
   caller can check beforehand (`DistinctKeys.OneServiceAgrees`, `DistinctKeys.ServicesAgree`,
   `DistinctKeys.TidyServicesExport`).
4. *Exact deletion*, and exactly when it leaves something behind (`Finalization`) or takes what belongs to others
   (`SelectorOptions`).
5. *The host channel*: what the authorization controller computes from what the routing controller published
   (`HostChannel.RoutingToAuthorization`).
6. *Authorization convergence* up to the order of hosts (`AuthzConvergence.AuthorizedTwice`).
7. *No silent failure*: whatever others do and whichever calls fail, the errors reported are those of the tasks of the
   reconcile, and whatever became of the others, a task without an error of its own had every request accepted that it
   had to send (`RoutingController.Controller.Reconcile`, `Authz.Controller.Reconcile`).

## Assumptions about the environment

* A resource version never stands for two different contents. An update, and a merge patch that carries a version,
  are refused when that version is not the current one (Kubernetes API Conventions, "Concurrency Control and
  Consistency"). An object marked for deletion goes away with its last finalizer.
* A merge patch works member by member on maps and replaces lists as a whole (section 2 of RFC 7396).
* A forced apply overrides labels, annotations and content with those of the source and keeps every other label and
  annotation.
* A request to delete a collection carries two selector options. How the client library combines them is not part of
  the repository, so it is a parameter (`Api.Combining`): options add up (`Conjoined`), or a later selector takes the
  place of an earlier one (`Replacing`). Every theorem about runs holds for both. In the second case a removal takes only
  the owner's resources exactly if no other owner has resources of those kinds and types (`SelectorOptions.TakesOnlyOwn`,
  `SelectorOptions.SameRemoval`).
* Reads of the routing controller are live; those of the authorization controller may return any earlier state.
* Uids are never handed out twice. One reconcile runs per custom resource at a time. The namespace of the gateway does
  not change; `Finalization.MovedGateway` shows exactly what happens if it does. The watched kind is not one of the kinds
  routing creates.
* Nobody else takes the routing finalizer off or touches owner and type labels. When the deletion mark is set, every mode
  that was disabled is enabled again or was followed by a complete error-free reconcile that began after it, and no mode
  is disabled after the mark (`Ownership.UserRules`; `World.pending` holds the modes for which neither has happened yet).
  `Finalization.NothingLeftBehind` shows what happens otherwise. Reconciles of other custom resources
  and the authorization controller keep these rules (`Ownership.OwnStepKeepsRules`,
  `AuthzConvergence.AuthorizationKeepsRules`).
* The answers to "which services are exported" and "what is the cluster domain", the rendered AuthConfig template and
  the resolved selectors are parameters.

Where code and documentation differ the model follows the code: a custom resource deleted with no mode enabled keeps
its finalizer, an empty list of services is an error although a comment suggests otherwise, every exported service
overwrites the addresses of the one before, and ports dropped from a service are not cleaned up.

## Model

| member | source | states |
|---|---|---|
| RoutingRuns.Operate | controllers/routingctrl/controller.go:60-104 | over every run of reconciles, activations, faults, crashes and interference, and either way of combining options: no resource labelled with the uid without its owner holding the finalizer; no own step changes anything on a foreign object but the two address annotations and the finalizers, and the list of finalizers it leaves is the stored one, the stored one without its own, or one it read with its own added |
| RoutingController.Controller.Reconcile | controllers/routingctrl/controller.go:60-104 | inactive or absent: nothing happens; every step is one of the run of the custom resource as stored at a named entry; whatever fails and whoever interferes, the errors are those of removal, of each service and of the patch, or one error ended the reconcile with at most the custom resource's finalizer changed or deletion begun, and no errors means everything was deleted, created and delivered that had to be, every request with success; without faults the new state is exactly the live run (as far as templates load), the deletion run or no change, with exactly the errors due |
| RoutingController.ReconcileFound | controllers/routingctrl/controller.go:87-103 | the same of a custom resource that was read: deletion if it is marked, else the live run |
| RoutingController.Controller.Activate | controllers/routingctrl/controller.go:135-138 | active with the given configuration |
| RoutingController.Controller.Deactivate | controllers/routingctrl/controller.go:140-142 | inactive, configuration kept |
| RoutingController.ReconcileLive | controllers/routingctrl/controller.go:91-103 | finalizer first, then removal, creation and patch; the run is that of the custom resource as fetched or as left by the finalizer patch; either the one error is that of the finalizer, or the errors are those of removal, of each service and of the patch, whatever became of the others; without errors it was guarded then, all requests were accepted, and the watched owner ends guarded and with resources of those modes only; exact final state without faults, unloadable templates included |
| RoutingController.Serve | controllers/routingctrl/controller.go:97-103 | removal, creation and a patch; the errors are theirs, in this order; whatever became of the others, without its own error removal deleted all that was due, every service was exported, and the patch delivered exactly the addresses left to deliver on top of the state just before it; a missing service or domain is reported even if removal failed too; exact state even if removal fails |
| RoutingController.ReconcileResources | controllers/routingctrl/controller.go:97-99 | removal before creation, and the resources and addresses are the same whatever became of removal; each part without an error had all requests due accepted; no errors means nothing of a disabled mode is left for the watched owner |
| RoutingController.PatchTarget | controllers/routingctrl/controller.go:101 | success means the last step was a successful patch that put changed addresses on the object stored just before, keeping everything else but finalizers; alone on the server, it ends up as the client has it |
| RoutingController.EnsureResourceHasFinalizer | controllers/routingctrl/reconcile_resources.go:123-131 | success means the finalizer is stored and the client holds the stored object; only the custom resource is touched |
| RoutingController.PlanLeavesCr | controllers/routingctrl/reconcile_resources.go:68-101 | creating routing resources leaves the custom resource and its version alone |
| Ownership.SafeMeansNoOrphans | controllers/routingctrl/delete_resources.go:31-48 | the invariant implies the promise about orphans |
| Ownership.SafeUnderRely | controllers/routingctrl/controller.go:87-101 | nothing that others may do breaks the invariant |
| Ownership.ApplyKeepsSafe | pkg/unstruct/funcs.go:15-41 | creating or applying a labelled resource while the finalizer is held keeps the invariant |
| Ownership.EditKeepsSafe | controllers/routingctrl/reconcile_resources.go:103-131 | editing addresses and adding the finalizer keeps the invariant and the modes |
| Ownership.ReleaseKeepsSafe | controllers/routingctrl/delete_resources.go:88-99 | letting the finalizer go is safe once nothing is owned any more |
| Ownership.OwnStepKeepsRules | controllers/routingctrl/controller.go:60-104 | a step of a reconcile for one custom resource is legal interference for any other |
| Ownership.TemplateKinds | controllers/routingctrl/gvk.go:9-20 | every template document is of a kind deletion looks for in its mode |
| Unstruct.Apply | pkg/unstruct/funcs.go:15-41 | every resource gets the options and is created or applied; only such requests are sent, and no error means each was accepted; every own step is a legal one whatever fails; exact final state without faults |
| Unstruct.CreateOrApply | pkg/unstruct/funcs.go:29-60 | create if absent, forced apply otherwise; an object that appeared meanwhile is no error; no error means the request was accepted |
| Api.MergedParts | pkg/unstruct/funcs.go:49-60 | what a forced apply leaves, part by part: labels, annotations and content of the source, every other label and annotation as stored, identity, finalizers and owners as stored |
| Api.PutStores | pkg/unstruct/funcs.go:49-60 | a write stores that object under a version of its own, unless nothing changed, and touches no other |
| Unstruct.Patch | pkg/unstruct/funcs.go:66-90 | success means the last step is a successful patch that carried the client's edits, and only these, over to the object stored just before; a patch is sent again only after a conflict and after reading anew; a conflict is reported only after five |
| Unstruct.ThreeWayConcurrent | pkg/unstruct/funcs.go:77-80 | a patch that meets a concurrent change keeps every label and annotation the client did not edit; finalizers and content survive exactly when not edited or edited to the same |
| Unstruct.ThreeWayDelivers | pkg/unstruct/funcs.go:77-80 | an annotation the client did edit arrives, whatever was stored |
| Unstruct.ThreeWayAlone | pkg/unstruct/funcs.go:77-80 | a patch that meets no concurrent change stores the client's object |
| Unstruct.StalePatchConflicts | pkg/unstruct/funcs.go:68-85 | a patch from a stale copy is refused, also when the object changes again |
| Api.PatchRoundTrip | pkg/unstruct/funcs.go:77-80 | the patch between two maps turns the one into the other |
| Api.PatchElsewhere | pkg/unstruct/funcs.go:77-80 | on any other map it changes only members the two differ in |
| Deletion.ExtractExportModes | controllers/routingctrl/reconcile_resources.go:134-157 | for every iteration order: exactly the enabled modes, each once |
| Deletion.RoutingResourceGvks | controllers/routingctrl/gvk.go:22-47 | for every iteration order: exactly the kinds of the modes, each once |
| Deletion.DeleteOwnedResources | controllers/routingctrl/delete_resources.go:50-86 | every own step comes from a delete request for one of the kinds with exactly the options due and removes only resources in scope, an error part-way included; an error exactly if some request failed; no error means one was accepted for every kind; exactly the resources in scope are gone without faults |
| Deletion.RemoveUnusedRoutingResources | controllers/routingctrl/delete_resources.go:17-29 | only resources of disabled modes are asked for and go; an error exactly if some request failed; success leaves none of the watched owner's |
| Deletion.HandleResourceDeletion | controllers/routingctrl/delete_resources.go:31-48 | the custom resource is touched only after a successful delete request for every kind of an enabled mode and no failed one; any failed one means an error and the custom resource left alone; no error means all that was done and the finalizer taken off; with no mode enabled nothing happens; exact final state without faults |
| Deletion.RemoveFinalizer | controllers/routingctrl/delete_resources.go:88-99 | only the custom resource is touched; success means the last step stored what was read without its own finalizer and with all others |
| Deletion.SelectorScope | controllers/routingctrl/delete_resources.go:59-73 | the request's options select exactly type, kind and namespace and, if options add up, owner name, kind and uid |
| Deletion.SweptUnusedIsClean | controllers/routingctrl/delete_resources.go:17-29 | once unused modes are swept, all that is left has an enabled type |
| Finalization.DeletedExactly | controllers/routingctrl/delete_resources.go:31-86 | exactly the resources of enabled modes and their kinds go (the owner's, if options add up), everything else stays |
| Finalization.FinalizerDropped | controllers/routingctrl/delete_resources.go:31-48 | the finalizer is dropped exactly when a mode is enabled; no other finalizer is |
| Finalization.NothingLeftBehind | controllers/routingctrl/delete_resources.go:31-48 | deletion leaves nothing owned exactly when everything owned was of an enabled mode and its kinds, in the gateway namespace and named for the owner |
| Finalization.CleanDeletion | controllers/routingctrl/controller.go:60-104 | a complete reconcile, then the deletion mark, then deletion: nothing labelled with the uid is left, provided what was owned before was of a kind of its type and named its owner |
| Finalization.MovedGateway | controllers/routingctrl/controller.go:135-138 | activated for another gateway namespace, deletion leaves nothing behind exactly if there was nothing |
| SelectorOptions.TakesOnlyOwn | controllers/routingctrl/delete_resources.go:59-73 | if options add up a removal takes only the owner's resources; if the later selector replaces the earlier one it takes all of those kinds and types, hence only the owner's exactly if no other owner has any |
| SelectorOptions.SameRemoval | controllers/routingctrl/delete_resources.go:59-73 | the two ways of combining leave the same state exactly if no other owner has resources of those kinds and types |
| SelectorOptions.RemovalSpares | controllers/routingctrl/delete_resources.go:50-86 | no own step of a removal touches another kind, namespace or still enabled mode; if options add up, no other owner's resource either, shared kinds included |
| SelectorOptions.TwoOwnersWitness | controllers/routingctrl/delete_resources.go:59-73 | a state with two owners in which removing for one spares the other exactly if options add up |
| Finalization.FinalizerRace | controllers/routingctrl/reconcile_resources.go:123-131 | a finalizer another writer changed between fetch and patch survives exactly if the client knew of it |
| Exporting.LastTypeWins | controllers/routingctrl/reconcile_resources.go:75-89 | however many type labels have piled up, a resource carries exactly its own mode's, the three owner labels and the manager |
| Exporting.ExportMode | controllers/routingctrl/reconcile_resources.go:81-89 | one port in one mode: every request creates or applies one of the mode's resources, labelled for owner and mode; no error means the templates loaded and each was accepted; exact final state without faults |
| Exporting.ExportPort | controllers/routingctrl/reconcile_resources.go:77-98 | one port in all enabled modes, whatever their order: its hosts; only wanted resources are asked for, and no error means all were, with success; exactly these without faults |
| Exporting.ExportService | controllers/routingctrl/reconcile_resources.go:68-101 | all ports: only wanted resources are asked for, and no error means all were, with success, and the addresses are those of this service; on failure the custom resource is unchanged; exact state without faults |
| Exporting.CreateRoutingResources | controllers/routingctrl/reconcile_resources.go:21-66 | no mode: addresses removed; no service or domain: that error and no change; otherwise the errors are those of the services, in order, whatever became of the others each service without an error had all requests for its wanted resources accepted, and the addresses are those of the last such service; nothing but wanted resources is asked for; without faults one error per service that cannot be rendered, and exactly the others are exported |
| Exporting.PropagateHosts | controllers/routingctrl/reconcile_resources.go:103-121 | both address annotations are replaced or removed, all else kept |
| Exporting.Overwrites | controllers/routingctrl/reconcile_resources.go:59-63 | publishing a service forgets the one published before |
| Exporting.PropagatedElsewhere | controllers/routingctrl/reconcile_resources.go:103-121 | no other annotation and no mode changes |
| Convergence.AppliedPlan | pkg/unstruct/funcs.go:15-41 | applying a list leaves each resource laid once over what was there, whatever order and repetitions |
| Convergence.ApplyOrder | controllers/routingctrl/reconcile_resources.go:77-98 | the order of the list does not matter |
| Convergence.Reconciled | controllers/routingctrl/controller.go:91-103 | after one fault-free reconcile: published custom resource with finalizer, every wanted resource with its labels, nothing of a disabled mode in scope, all else untouched |
| Convergence.OnlyEnabledModes | controllers/routingctrl/delete_resources.go:17-29 | if every owned resource was of a kind of its type, none of a disabled mode is left |
| Convergence.ReconciledTwice | controllers/routingctrl/controller.go:91-103 | a second reconcile, in any loop order, changes nothing, not even a version |
| Convergence.ReconcileOrder | controllers/routingctrl/reconcile_resources.go:77-98 | every loop order leads to the same objects |
| DistinctKeys.IngressClash | pkg/routing/template/routing_external.yaml:17-20 | an external and a public VirtualService of one service clash exactly for namespaces that are their own tail after "-ingress" |
| DistinctKeys.OneKeyOneDocument | pkg/routing/types.go:88-97 | outside such namespaces two documents with one key are the same document of ports with one name |
| DistinctKeys.OneServiceAgrees | controllers/routingctrl/reconcile_resources.go:77-98 | one service with unique port names in an ordinary namespace never overwrites its own resources |
| DistinctKeys.KeysApartExactly | pkg/routing/types.go:88-97 | rendered keys of several services are distinct exactly when their public names are and, with both modes enabled, none is another one followed by "-ingress" |
| DistinctKeys.ServicesAgree | controllers/routingctrl/reconcile_resources.go:55-66 | services with such names never overwrite each other's resources |
| DistinctKeys.AmbiguousNames | pkg/routing/types.go:91 | dashes in names make public names of different services coincide |
| DistinctKeys.TidyServicesExport | pkg/routing/routing.go:43-57 | services with tidy names can always be exported |
| RouteTypes.IsValidRouteType | pkg/routing/types.go:22-36 | valid exactly for prefix plus a known type |
| RouteTypes.UnusedRouteTypes | pkg/routing/types.go:38-54 | exactly the known types not enabled, each once |
| RouteTypes.AddressesKeepModes | pkg/metadata/annotations/types.go:8-10 | writing the address annotations never changes the enabled modes |
| RouteTypes.EnabledModes | controllers/routingctrl/reconcile_resources.go:134-157 | external or public, exactly when the annotation of the mode is "true" |
| RouteTypes.PublicNameInjective | pkg/routing/types.go:91 | ports of one service with different names get different public names |
| RouteTypes.IngressNameCollision | pkg/routing/types.go:91 | exactly when an "-ingress" name is another port's public name |
| Templates.Load | pkg/routing/routing.go:29-60 | succeeds exactly when the mode is known and no rendered document contains "---"; then one resource of each kind of the mode in the gateway namespace, named by the public name plus "-route" or "-ingress" (external) or nothing (public), as rendered |
| TemplateLines.EveryKindHasItsDocument | controllers/routingctrl/gvk.go:9-20 | each kind that belongs to a mode is the kind of exactly one document of its template |
| TemplateLines.WantedResources | controllers/routingctrl/reconcile_resources.go:75-89 | kinds, names and namespaces of the resources wanted for one port in one mode, their five labels, the annotation for the serving certificate on the public service and on nothing else |
| TemplateLines.ExternalTraffic | pkg/routing/template/routing_external.yaml:1-33 | route and VirtualService admit the external host, go through the configured ingress service and lead to the exported service, its namespace and target port |
| TemplateLines.PublicTraffic | pkg/routing/template/routing_public.yaml:1-70 | service and gateway select the configured ingress, gateway and VirtualService admit the three public hosts under the certificate of the service, traffic leads to the exported service, its namespace and target port, and the DestinationRule is for the public service |
| Templates.RenderTemplate | pkg/routing/routing.go:62-76 | the rendered template is the join of the rendered documents |
| Templates.LoadableTemplate | pkg/routing/routing.go:48 | splitting on "---" gives back the documents exactly when none contains "---" |
| Templates.PiecesOfJoin | pkg/routing/routing.go:48 | joined texts that neither are empty nor end in a dash fall into at least as many pieces as there are texts, and into as many exactly when none contains "---" |
| TemplateText.TidyExposureLoads | pkg/routing/routing.go:48 | with names that neither start nor end in a dash and values without "---", both templates load |
| Text.SplitJoin | controllers/routingctrl/reconcile_resources.go:112 | splitting undoes joining exactly when every part can be told from the separator, for separators that may overlap themselves |
| Text.JoinSplit | pkg/spi/types.go:21 | joining undoes splitting, always |
| Metadata.ApplyMetaOptions | pkg/metadata/meta.go:31-35 | options take effect one after the other |
| Metadata.LastWriterWins | pkg/metadata/labels/types.go:146-154 | among label options with one key the last decides, and nothing but labels changes |
| Metadata.AppendedLabels | pkg/metadata/labels/funcs.go:65-73 | an appender never overrides a key that is there |
| Metadata.StandardLabelsAre | pkg/metadata/labels/funcs.go:75-84 | part-of is the source's name label, component its component label, with version and manager, and no others |
| Metadata.MatchingLabels | pkg/metadata/labels/funcs.go:50-58 | each key selects for its last value |
| Metadata.WithoutKeepsOthers | controllers/routingctrl/delete_resources.go:90-91 | removing one finalizer keeps exactly the others |
| Metadata.WithoutKeepsOrder | controllers/routingctrl/delete_resources.go:90-91 | the other finalizers keep their order |
| Metadata.FinalizerAdded | controllers/routingctrl/reconcile_resources.go:123-131 | a finalizer is added at the end unless it is there, and nothing else changes |
| Hosts.UrlHost | pkg/spi/types.go:50-64 | the host of a URL is what section 3.2 of RFC 3986 says, with or without user information, path, query or fragment; percent escapes in names and in zones of IPv6 literals (RFC 6874) are decoded |
| Hosts.HostIsUnique | pkg/spi/types.go:50-64 | a URL has exactly one host in that sense |
| Hosts.UrlParts | pkg/spi/types.go:59-62 | which texts the program parses as URLs, part by part: no control characters before the fragment, valid user information and host, proper percent escapes |
| Hosts.OrdinaryHost | pkg/spi/types.go:59-62 | letters, digits, dots and dashes always make a host; a port after it is accepted exactly when it is made of digits |
| Hosts.UnescapedAt | pkg/spi/types.go:59-64 | a percent escape stands for the character with the two digits as its code |
| Hosts.HexDigits | pkg/spi/types.go:59-64 | the value of a digit of an escape, in either case |
| Hosts.ExtractAnnotations | pkg/spi/types.go:15-28 | the parts of every annotation that is there, in the order of the keys |
| Hosts.AnnotationMembers | pkg/spi/types.go:19-24 | found in annotations: exactly the parts of those that are there |
| Hosts.ExtractPaths | pkg/spi/types.go:96-129 | the strings at every path that has some; an error exactly when some path has none |
| Hosts.PathMembers | pkg/spi/types.go:116-125 | found at paths that all lead somewhere: exactly what is at one of them |
| Hosts.HostsAtPath | pkg/spi/types.go:97-109 | what is at a path, name by name: a text is one host, a list of texts is those, anything else or nothing is an error |
| Hosts.Unique | pkg/spi/types.go:31-48 | for every iteration order: the same elements, each once |
| Hosts.ExtractHosts | pkg/spi/types.go:73-93 | for every iteration order: once each, exactly the hosts that some succeeding extractor found, a URL counting as its host and any other text as itself; errors exactly when an extractor failed |
| Hosts.CombinedMembers | pkg/spi/types.go:73-93 | the combined hosts are exactly those some succeeding extractor found, URLs counting as their hosts |
| HostChannel.ExternalHostsListed | pkg/routing/types.go:76-78 | one external host per port, in port order: public name and cluster domain |
| HostChannel.PublicHostsListed | pkg/routing/types.go:80-86 | three public hosts per port, in port order: public name and gateway namespace, also followed by ".svc" and ".svc.cluster.local" |
| HostChannel.PublishedAddresses | controllers/routingctrl/reconcile_resources.go:103-121 | an address annotation is there exactly when its mode is enabled and the last service has ports; then it joins that service's hosts; all others are unchanged |
| HostChannel.ChannelKeeps | pkg/spi/types.go:21 | a host list survives the annotation exactly when no host contains the separator |
| HostChannel.RoundTrip | controllers/authzctrl/controller.go:41-43 | from published annotations the hosts computed are exactly those found at the paths, URLs counting as their hosts, and the external and public hosts of the ports of the last service |
| HostChannel.RoutingToAuthorization | controllers/authzctrl/controller.go:41-43 | the same from the state a routing reconcile leaves |
| Authz.CreateAuthConfig | controllers/authzctrl/reconcile_authconfig.go:82-108 | the AuthConfig specified, or an error for a label that is not key=value |
| Authz.NeverOverrides | controllers/authzctrl/reconcile_authconfig.go:91-98 | configured label over template over standard labels, and no others; content and annotations of the template; every standard key present; one owner, the resource protected |
| Authz.CreateAuthzPolicy | controllers/authzctrl/reconcile_authpolicy.go:71-116 | the AuthorizationPolicy specified |
| Authz.PolicyShape | controllers/authzctrl/reconcile_authpolicy.go:71-116 | one CUSTOM rule per port, for that port and with the four excepted paths, through the provider; exactly the standard labels; one owner, the resource protected |
| Authz.UpdateIsSwap | controllers/authzctrl/reconcile_authconfig.go:66-69 | an update that succeeds met the version that was read and replaces labels and specification of what is stored |
| Authz.RetrySwap | controllers/authzctrl/reconcile_authconfig.go:58-76 | at most five updates, each such a swap, sent again only after a conflict and after reading anew; a conflict is reported only after five; success means an update with the desired labels and specification was accepted |
| Authz.CreateOrReplace | controllers/authzctrl/reconcile_authpolicy.go:35-68 | the object is read; every step creates it where there is none or swaps, again only after a conflict; success means an object as desired was seen, or a request for it accepted; an object as desired is not written; exact final state without faults |
| Authz.ReconcileAuthConfig | controllers/authzctrl/reconcile_authconfig.go:20-80 | missing hosts, template or label, or a URL that does not parse: an error and no request; otherwise the AuthConfig is looked up, and every step and success are for the AuthConfig of some enumeration of the hosts |
| Authz.ConfigurableExactly | controllers/authzctrl/reconcile_authconfig.go:20-34 | an AuthConfig can be made exactly if every path leads to texts, every URL there or in the address annotations parses, the template was rendered, and the label is one key and one value |
| Authz.ReconcileAuthPolicy | controllers/authzctrl/reconcile_authpolicy.go:22-69 | unresolved selectors: that error and no request; otherwise the policy is looked up, and every step and success are for it |
| Authz.Protect | controllers/authzctrl/controller.go:90-95 | first steps for the AuthConfig of this resource, then for its policy, and no others; on any server the policy is looked up after that whatever became of the AuthConfig, if selectors resolve; the errors are those of the two, in order, and the one without an error was made and seen to; exact final state without faults |
| Authz.Controller.Reconcile | controllers/authzctrl/controller.go:64-96 | inactive or absent: nothing; from any stale read and among any writers every step is a creation or a swap of the AuthConfig or the policy of the requested resource as some state had it; either the one error is that of the single read, or both objects were tried, the errors are theirs in order, and the one without an error was seen to, or there are none and the resource was missing at some state; exact final state without faults |
| Authz.Controller.Activate | controllers/authzctrl/controller.go:125-128 | active with the given configuration |
| Authz.Controller.Deactivate | controllers/authzctrl/controller.go:130-132 | inactive |
| AuthzConvergence.RunConverges | controllers/authzctrl/reconcile_authconfig.go:36-79 | from any state the object ends with the labels and the specification desired and, if it was there, with its own uid, annotations, finalizers, owners and deletion mark, else as desired in all parts; all other objects stay |
| AuthzConvergence.RunTwice | controllers/authzctrl/reconcile_authpolicy.go:48-66 | a second run with the same input writes nothing |
| AuthzConvergence.RunInAnotherOrder | pkg/spi/types.go:42-45 | a second run changes at most the order of hosts, nothing with at most one host |
| AuthzConvergence.AuthorizedTwice | controllers/authzctrl/controller.go:64-96 | a second whole reconcile does not write the policy and changes at most the order of hosts |
| AuthzConvergence.SwapLosesNothing | controllers/authzctrl/reconcile_authconfig.go:57-77 | an update succeeds exactly from the current version; labels and specification are as desired then, and uid, annotations, finalizers, owners and deletion mark those of the object stored just before |
| AuthzConvergence.StepKeepsTheRest | controllers/authzctrl/reconcile_authconfig.go:57-77 | every own step changes nothing, creates the object as desired where there was none, or sets its labels and specification and keeps its other parts; no other object changes |
| AuthzConvergence.ReconcileLosesNothing | controllers/authzctrl/controller.go:64-96 | over a whole reconcile among any writers: no own step removes an object or changes its uid, annotations, finalizers, owners or deletion mark, or changes any part of an object other than the AuthConfig (first) or the policy (then) of this resource |
| AuthzConvergence.AuthStepKeepsRules | controllers/authzctrl/reconcile_authconfig.go:57-77 | the routing promise survives every step of the authorization controller, unless a template claims routing ownership |
| AuthzConvergence.AuthorizationKeepsRules | controllers/authzctrl/controller.go:64-96 | every step of every authorization reconcile, whatever it read and whoever wrote in between, is one the routing promise survives, unless template or configured label claims routing ownership |

## Left out

- Controller wiring, watches, logging, events, requeueing, configuration and environment loading: input and output.
- Waiting between attempts: only the number of attempts matters. The lookup of services never retries an empty list, because its error never matches itself.
- YAML decoding: a rendered text decodes exactly when it falls into as many pieces as its template has documents; what a decoded document holds beside name, namespace, kind and the serving-certificate annotation is kept as its text.
- Go text/template beyond the fields and the one loop the two routing templates use; resolving selectors; the AuthConfig template and the configuration map it may come from.
- What happens on a URL the program cannot parse: it fails there, the model ends the reconcile with an error.
- Paths that lead into the metadata of a watched resource: the path extractor reads its content only.
- The difference between an absent and an empty map or list.
- The uid and other fields the server fills in for created routing and authorization resources.
- Field ownership in server-side apply beyond a forced apply; fields a source no longer mentions.
- Following resources in a former gateway namespace when the routing controller is activated for another one: the program does not either (`Finalization.MovedGateway`).
- Cached reads by the routing controller.
- Garbage collection through owner references, Istio and Authorino themselves, and the schemas of their resources.
- RoutingRuns.Operate: runs start when the custom resource has just been created, with nothing labelled with its uid.
- Templates.Load: a text that falls into more pieces than its template has documents (a value with "---" in it) is taken not to decode; the program tries each piece, of which those after a cut inside a value start in mid-line and lack the top-level kind.
- HostChannel.RoundTrip: names with ";" or "/" in them, which Kubernetes does not allow, are excluded.
