# Voyager ingress operator: a verified model of its decision logic

Voyager is a Kubernetes ingress controller built on HAProxy. This project models,
in Dafny, the deterministic parts of its operator, and proves what they promise:

- **HAProxy template canonicalisation and validation** (`HAProxyHelper`).
  `TemplateData` is a class; its methods work in place.
  - `Canonicalize` rewrites the wildcard host `*` to the catch-all host `""`.
  - It sorts hosts, paths, services, resolvers and user lists with their
    comparators. The outcome is a permutation that is sorted by each comparator.
  - It moves the ACME challenge path to a host of its own at the front of each
    port-80 service.
  - `IsValid` accepts the template exactly when all frontend names, and all
    backend names, are pairwise distinct. Otherwise it reports the first reuse.
- **Annotation resolvers** of the Voyager Ingress (`VoyagerApi`) and of the older
  annotation map (`LegacyAnnotations`). These are map lookups with their documented
  defaults, the boolean rules, the filtering of the operator's own keys, the
  defaults merged into the timeouts, and the `k=v,k=v` node-selector parser.
- **Offshoot helpers** (`Offshoot`):
  - the upsert of the two origin annotations, with its change flag;
  - the ConfigMap mutator;
  - the stats-off guard of the exporter sidecar.
- **Controller dispatch** (`IngressController`): the load-balancer type decides
  which controller is built, if any.
- **Work queues and watchers** (`WorkQueue`, `Handlers`, `EngressWatcher`,
  `IngressWatcher`, `SecretWatcher`, `ServiceMonitors`, `Validator`):
  - the rate-limited queue, as a class over pending keys and per-key requeue
    counters;
  - the retry policy: forget on success, requeue while under the limit, drop at
    the limit;
  - which informer events enqueue which key;
  - what each sync does with a key;
  - the search that requeues the ingress owning a deleted ServiceMonitor;
  - the start-up validation that collects invalid ingresses.

Every imperative operation is a method proved against a specification function.
The properties are stated in lemmas about those functions. The code the operator
calls but does not contain is passed in as a parameter, typically a
function-valued field of a datatype. This covers:

- the kutil annotation parsers (`VoyagerApi.Parsers`);
- `Migrate`, `ShouldHandleIngress`, `IsValid`, `HasChanged` and
  `NewEngressFromIngress` (`VoyagerApi.IngressRules`);
- the sort keys, the `canonicalize()` methods and the ACME URL prefix
  (`HAProxyHelper.Env`);
- the informer stores (`Kube.Indexer`).

Supporting modules: `Wrappers` (Option/Result), `Strs` (the subset of Go's
`strings` used, on ASCII), `Strconv` (`Atoi` within the int64 range, the int32
cast), `Seqs`, `Sorting` (`sort.Slice`, modelled as an in-place sort under a
strict weak order) and `Kube` (namespace keys, store lookups, deletion keys,
warning events).

## Model

| member | source | states |
|---|---|---|
| HAProxyHelper.TemplateData.Canonicalize | pkg/haproxy/api/helper.go:18-22 | the new state is the old one after wildcard conversion, and then a sort, and then ACME promotion, in that order |
| HAProxyHelper.TemplateData.ConvertWildcardHostToEmpty | pkg/haproxy/api/helper.go:24-34 | every host of every HTTP service becomes ConvertHost of itself; all else is kept |
| HAProxyHelper.ConvertHost | pkg/haproxy/api/helper.go:27-30 | only a host exactly `*` changes, and it becomes `""`; the paths are kept |
| HAProxyHelper.ConvertService | pkg/haproxy/api/helper.go:25-33 | same frontend, port and basic auth; host j becomes ConvertHost of host j |
| HAProxyHelper.ConvertServiceIdempotent | pkg/haproxy/api/helper.go:24-34 | converting twice equals converting once |
| HAProxyHelper.ConvertServiceNoStar | pkg/haproxy/api/helper.go:24-34 | no host is `*` after conversion |
| HAProxyHelper.HostRank | pkg/haproxy/api/helper.go:192-200 | the rank is between 0 and 2 |
| HAProxyHelper.HostRankCases | pkg/haproxy/api/helper.go:192-200 | rank 0 iff the host is empty; 1 iff it starts with `*`; 2 otherwise |
| HAProxyHelper.HostNameTotal | pkg/haproxy/api/helper.go:185-190 | the empty-host guard agrees with lower-casing after removing a leading `*.` |
| HAProxyHelper.HostNameWildcard | pkg/haproxy/api/helper.go:185-200 | `*.d` and `d` share a sort name; `*.d` has rank 1 and an exact host rank 2 |
| HAProxyHelper.HostLessByKey | pkg/haproxy/api/helper.go:46-57 | the host comparator compares (rank, name) pairs in descending order |
| HAProxyHelper.HostLessWeakOrder | pkg/haproxy/api/helper.go:46-57 | the host comparator is a strict weak order, as sort.Slice needs |
| HAProxyHelper.HostsSortedByRank | pkg/haproxy/api/helper.go:46-57 | sorted hosts have descending rank, and descending names within one rank |
| HAProxyHelper.PathDepthCount | pkg/haproxy/api/helper.go:68-72 | the segment count is the number of `/` in the trimmed, lower-cased path plus one |
| HAProxyHelper.PathDepthRoot | pkg/haproxy/api/helper.go:68-72 | `/` and the empty path each count one segment |
| HAProxyHelper.PathLessByKey | pkg/haproxy/api/helper.go:67-78 | the path comparator compares (depth, text) pairs in descending order |
| HAProxyHelper.PathLessWeakOrder | pkg/haproxy/api/helper.go:67-78 | the path comparator is a strict weak order |
| HAProxyHelper.PathsSortedByDepth | pkg/haproxy/api/helper.go:67-78 | sorted paths have descending depth, and descending text within one depth |
| HAProxyHelper.ListOrdersWeak | pkg/haproxy/api/helper.go:85-92 | the HTTP, TCP, resolver and user-list comparators are strict weak orders |
| HAProxyHelper.SortService | pkg/haproxy/api/helper.go:40-83 | backends and basic auth are canonicalised; hosts are a permutation in host order, and each host's paths a permutation in path order |
| HAProxyHelper.SortHTTPServices | pkg/haproxy/api/helper.go:40-85 | every service is sorted inside, and the list is a permutation sorted ascending by sort key |
| HAProxyHelper.CanonUserLists | pkg/haproxy/api/helper.go:89-91 | every user list is canonicalised, in place and in order |
| HAProxyHelper.TemplateData.Sort | pkg/haproxy/api/helper.go:36-93 | the new state is a sort outcome of the old: default backend canonicalised, each list a permutation sorted by its comparator |
| Sorting.SortSlice | pkg/haproxy/api/helper.go:85-92 | under a strict weak order, the array ends sorted and a permutation of its old contents |
| Sorting.SortedCopy | pkg/haproxy/api/helper.go:46-57 | the result is sorted and is a permutation of the input |
| Sorting.SortedUnique | pkg/haproxy/api/helper.go:87 | under a total order, for instance distinct resolver names, two sorted permutations of one list are equal |
| Sorting.SortedKeysDetermined | pkg/haproxy/api/helper.go:46-78 | two sort outcomes agree on every position's key; only ties may differ |
| HAProxyHelper.AcmePathIndex | pkg/haproxy/api/helper.go:106-119 | the first path exactly equal to the prefix, or -1 when none is |
| HAProxyHelper.AcmeHostIndex | pkg/haproxy/api/helper.go:100-104 | the first catch-all host holding such a path, or -1 |
| HAProxyHelper.PromoteAcme | pkg/haproxy/api/helper.go:95-137 | frontend, port and basic auth are unchanged |
| HAProxyHelper.PromoteAcmeIn | pkg/haproxy/api/helper.go:96-135 | the copy-shift deletion and the prepend give PromoteAcme |
| HAProxyHelper.TemplateData.MoveAcmePathToTop | pkg/haproxy/api/helper.go:95-137 | each HTTP service becomes PromoteAcme of itself |
| HAProxyHelper.PromoteAcmeUntouched | pkg/haproxy/api/helper.go:97-103 | a service not on port 80, or without an ACME path on a catch-all host, is left alone |
| HAProxyHelper.PromoteAcmeFront | pkg/haproxy/api/helper.go:111-131 | the first host becomes `{"", [first ACME path]}` |
| HAProxyHelper.PromoteAcmeHostCount | pkg/haproxy/api/helper.go:121-131 | the source host is dropped exactly when the ACME path was its only path |
| HAProxyHelper.PromoteAcmeKeepsOtherHosts | pkg/haproxy/api/helper.go:121-131 | every other host is still present and unchanged, at PromotedIndex (one later, or the same index after a dropped source host) |
| HAProxyHelper.PromoteAcmeKeepsHostOrder | pkg/haproxy/api/helper.go:121-131 | the copy-shift deletion keeps the other hosts in their relative order |
| HAProxyHelper.PromoteAcmePaths | pkg/haproxy/api/helper.go:115-131 | the multiset of all paths is preserved |
| HAProxyHelper.PromoteAcmeIdempotent | pkg/haproxy/api/helper.go:95-137 | promoting twice equals promoting once |
| HAProxyHelper.Validate | pkg/haproxy/api/helper.go:139-183 | nil iff the name uses met in scan order are distinct; otherwise the message names the first repeated use |
| HAProxyHelper.CheckHTTPService | pkg/haproxy/api/helper.go:147-165 | extends the distinct prefix of the scan through one HTTP service, or reports its first repeat |
| HAProxyHelper.CheckHost | pkg/haproxy/api/helper.go:154-164 | the same for the path backends of one host |
| HAProxyHelper.CheckTCPService | pkg/haproxy/api/helper.go:167-181 | the same for one TCP service's frontend and backend |
| HAProxyHelper.TemplateData.IsValid | pkg/haproxy/api/helper.go:139-183 | nil iff the scan is distinct; the error is the first reuse's message |
| HAProxyHelper.ScanDistinctIff | pkg/haproxy/api/helper.go:140-181 | the scan is distinct iff frontend names, and backend names (default, path and TCP backends in one namespace), are each pairwise distinct |
| HAProxyHelper.ScanOrderNames | pkg/haproxy/api/helper.go:143-181 | the scan's frontend and backend names are exactly the template's name lists |
| HAProxyHelper.FirstRepeatUnique | pkg/haproxy/api/helper.go:148-176 | there is at most one first reuse, so the error is determined |
| HAProxyHelper.FirstRepeatNotDistinct | pkg/haproxy/api/helper.go:148-176 | a reuse means the names are not distinct |
| VoyagerApi.GetString | apis/voyager/v1beta1/annotations.go:259-308 | a present key gives its value; an absent key gives none |
| VoyagerApi.GetBool | apis/voyager/v1beta1/annotations.go:259-308 | an absent key gives none; a present one is parsed |
| VoyagerApi.GetInt | apis/voyager/v1beta1/annotations.go:259-308 | an absent key gives none; a present one is parsed |
| VoyagerApi.GetMap | apis/voyager/v1beta1/annotations.go:259-308 | an absent key gives none; a present one is decoded |
| VoyagerApi.ProxyProtocolCommand | apis/voyager/v1beta1/annotations.go:327-336 | v1 gives `send-proxy`; v2, v2-ssl and v2-ssl-cn give `send-proxy-<v>`; any other version gives `""` |
| VoyagerApi.ProxyProtocolCommandInjective | apis/voyager/v1beta1/annotations.go:327-336 | distinct known versions give distinct commands |
| VoyagerApi.OffshootName | apis/voyager/v1beta1/annotations.go:338-340 | `voyager-` followed by the ingress name |
| VoyagerApi.OffshootNameInjective | apis/voyager/v1beta1/annotations.go:338-340 | equal offshoot names mean equal ingress names |
| VoyagerApi.OffshootLabels | apis/voyager/v1beta1/annotations.go:342-353 | origin and origin-name always; origin-api-group iff the schema has `/`, holding its part before the first `/` |
| VoyagerApi.APISchema | apis/voyager/v1beta1/annotations.go:361-366 | a non-empty annotation value, else the Voyager schema |
| VoyagerApi.Sticky | apis/voyager/v1beta1/annotations.go:368-376 | true iff the affinity annotation is non-empty or sticky-session parses as true |
| VoyagerApi.StickySessionCookieName | apis/voyager/v1beta1/annotations.go:378-384 | the annotation when non-empty, else `SERVERID` |
| VoyagerApi.EnableCORS | apis/voyager/v1beta1/annotations.go:397-400 | true iff enable-cors parses as true |
| VoyagerApi.StringOr | apis/voyager/v1beta1/annotations.go:402-421 | a present key's value, even if empty, else the default |
| VoyagerApi.AllowedCORSOrigin | apis/voyager/v1beta1/annotations.go:402-407 | a present annotation's value, even an empty one; `*` when absent |
| VoyagerApi.AllowedCORSMethods | apis/voyager/v1beta1/annotations.go:409-414 | a present annotation's value, even an empty one; the listed methods when absent |
| VoyagerApi.AllowedCORSHeaders | apis/voyager/v1beta1/annotations.go:416-421 | a present annotation's value, even an empty one; the listed headers when absent |
| VoyagerApi.BoolDefaultTrue | apis/voyager/v1beta1/annotations.go:438-443 | false iff the key parses as false |
| VoyagerApi.AllowCORSCredAsWritten | apis/voyager/v1beta1/annotations.go:423-428 | as written: false iff enable-cors parses as false |
| VoyagerApi.AllowCORSCred | apis/voyager/v1beta1/annotations.go:423-428 | as intended: false iff cors-allow-credentials parses as false |
| VoyagerApi.AllowCORSCredIgnoresItsKey | apis/voyager/v1beta1/annotations.go:423-428 | with enable-cors true and cors-allow-credentials false, the code as written still allows credentials |
| VoyagerApi.ForceServicePort | apis/voyager/v1beta1/annotations.go:430-436 | true whenever the LB type is not NodePort; otherwise iff the key parses as true |
| VoyagerApi.EnableHSTS | apis/voyager/v1beta1/annotations.go:438-443 | false iff the key parses as false |
| VoyagerApi.HSTSMaxAge | apis/voyager/v1beta1/annotations.go:445-454 | a decimal value as such, else the parsed duration in seconds, else 15768000 |
| VoyagerApi.HSTSMaxAgeDefault | apis/voyager/v1beta1/annotations.go:445-454 | an absent key gives 15768000 |
| VoyagerApi.HSTSMaxAgeDecimal | apis/voyager/v1beta1/annotations.go:446-448 | the decimal text of n gives n |
| VoyagerApi.BoolDefaultFalse | apis/voyager/v1beta1/annotations.go:456-464 | true iff the key parses as true |
| VoyagerApi.HSTSPreload | apis/voyager/v1beta1/annotations.go:456-459 | true iff the key parses as true |
| VoyagerApi.HSTSIncludeSubDomains | apis/voyager/v1beta1/annotations.go:461-464 | true iff the key parses as true |
| VoyagerApi.SSLRedirect | apis/voyager/v1beta1/annotations.go:476-481 | false iff the key parses as false |
| VoyagerApi.ForceSSLRedirect | apis/voyager/v1beta1/annotations.go:483-486 | true iff the key parses as true |
| VoyagerApi.SSLPassthrough | apis/voyager/v1beta1/annotations.go:493-496 | true iff the key parses as true |
| VoyagerApi.Stats | apis/voyager/v1beta1/annotations.go:498-501 | true iff the key parses as true |
| VoyagerApi.StatsPort | apis/voyager/v1beta1/annotations.go:508-513 | a positive parsed port, else 56789 |
| VoyagerApi.StatsServiceName | apis/voyager/v1beta1/annotations.go:515-520 | the offshoot name followed by `-stats` |
| VoyagerApi.StatsServiceNameIgnoresAnnotations | apis/voyager/v1beta1/annotations.go:515-520 | depends only on the ingress name |
| VoyagerApi.LBType | apis/voyager/v1beta1/annotations.go:522-527 | a non-empty annotation value, else LoadBalancer |
| VoyagerApi.Replicas | apis/voyager/v1beta1/annotations.go:529-534 | a positive parsed value cast to int32 (wrapping, so 2^31..2^32-1 become negative), else 1 |
| VoyagerApi.ReplicasWraps | apis/voyager/v1beta1/annotations.go:529-534 | 2^32 replicas wraps to 0 |
| VoyagerApi.NodeSelector | apis/voyager/v1beta1/annotations.go:536-542 | the decoded map when it has entries, else SelectorFrom of the comma pieces of the daemon node-selector key |
| VoyagerApi.KeepSourceIP | apis/voyager/v1beta1/annotations.go:586-589 | true iff the key parses as true |
| VoyagerApi.BasicAuthEnabled | apis/voyager/v1beta1/annotations.go:650-659 | true iff auth-type is exactly `basic` and auth-secret is non-empty |
| VoyagerApi.AuthTLSVerifyClient | apis/voyager/v1beta1/annotations.go:681-686 | optional iff the annotation is exactly `optional`, else required |
| VoyagerApi.WithoutOwnKeys | apis/voyager/v1beta1/annotations.go:557-562 | keeps exactly the entries whose trimmed key does not start with the operator's prefix |
| VoyagerApi.WithoutOwnKeysIdempotent | apis/voyager/v1beta1/annotations.go:557-562 | filtering twice equals filtering once; a map without own keys is kept whole |
| VoyagerApi.FilterOwnKeys | apis/voyager/v1beta1/annotations.go:557-562 | the filtering loop computes WithoutOwnKeys |
| VoyagerApi.ServiceAnnotations | apis/voyager/v1beta1/annotations.go:551-570 | the method builds ServiceAnnotationsOf |
| VoyagerApi.ServiceAnnotationsKeys | apis/voyager/v1beta1/annotations.go:551-570 | a key is in the result iff it is a decoded key that is not the operator's own, or it is the AWS proxy-protocol key added for LoadBalancer, keep-source-ip and aws |
| VoyagerApi.AWSKeyNotOwn | apis/voyager/v1beta1/annotations.go:563-567 | the AWS key is never filtered away |
| VoyagerApi.PodsAnnotations | apis/voyager/v1beta1/annotations.go:572-584 | ok iff decoding succeeds; the filtered map then, else an empty map |
| VoyagerApi.Timeouts | apis/voyager/v1beta1/annotations.go:596-631 | the decoded map with the five defaults added where missing |
| VoyagerApi.TimeoutsComplete | apis/voyager/v1beta1/annotations.go:596-631 | all five keys are present; given values and extra keys are never overwritten; missing keys get `50s` |
| VoyagerApi.BoolEntries | apis/voyager/v1beta1/annotations.go:638-642 | exactly the entries whose value parses as a boolean, with that value |
| VoyagerApi.HAProxyOptions | apis/voyager/v1beta1/annotations.go:633-648 | the parsed entries, or the two defaults when none survive |
| VoyagerApi.HAProxyOptionsNeverEmpty | apis/voyager/v1beta1/annotations.go:643-647 | the result is never empty; once any option parses, the given options replace the two defaults entirely |
| VoyagerApi.SelectorEntry | apis/voyager/v1beta1/annotations.go:719-727 | an entry has a non-empty key with no `=` and a non-empty value |
| VoyagerApi.SelectorEntryIsPair | apis/voyager/v1beta1/annotations.go:719-727 | an accepted piece is its key, `=` and its value, once trimmed |
| VoyagerApi.SelectorEntryOfPair | apis/voyager/v1beta1/annotations.go:719-727 | a well-formed `k=v` piece gives (k, v), even when v holds `=` |
| VoyagerApi.SelectorFrom | apis/voyager/v1beta1/annotations.go:716-730 | every key is non-empty and has no `=`, and every value is non-empty |
| VoyagerApi.SelectorLaterWins | apis/voyager/v1beta1/annotations.go:716-730 | a later piece overwrites an earlier one with the same key; a dropped piece changes nothing |
| VoyagerApi.SelectorFromPieces | apis/voyager/v1beta1/annotations.go:716-730 | every pair comes from some accepted piece |
| VoyagerApi.ParseDaemonNodeSelector | apis/voyager/v1beta1/annotations.go:716-730 | the loop computes SelectorFrom of the comma pieces |
| VoyagerApi.Lookup | pkg/controller/ingress/types.go:104-107 | a present key gives its value; an absent key gives `""` |
| LegacyAnnotations.StickySession | pkg/controller/ingress/types.go:94-97 | true iff the key is present, whatever its value |
| LegacyAnnotations.Stats | pkg/controller/ingress/types.go:99-102 | true iff the key is present, whatever its value |
| LegacyAnnotations.StatsPort | pkg/controller/ingress/types.go:109-118 | 1936 when absent or not an integer, else the integer with no positivity check |
| LegacyAnnotations.StatsPortZero | pkg/controller/ingress/types.go:109-118 | `0` gives port 0 |
| LegacyAnnotations.StatsServiceName | pkg/controller/ingress/types.go:120-126 | the annotation when present, else the ingress name with `-stats` |
| LegacyAnnotations.LBType | pkg/controller/ingress/types.go:128-133 | the annotation when present, even if empty, else LoadBalancer |
| LegacyAnnotations.Replicas | pkg/controller/ingress/types.go:135-143 | the integer cast to int32, else 1 |
| LegacyAnnotations.ReplicasSmall | pkg/controller/ingress/types.go:135-143 | the decimal text of n below 2^31 gives n |
| LegacyAnnotations.NodeSelector | pkg/controller/ingress/types.go:145-151 | the node-selector key whenever present, else the daemon key |
| LegacyAnnotations.Persist | pkg/controller/ingress/types.go:153-159 | the ip key first, then the persist key, else `""` |
| LegacyAnnotations.KeepSourceIP | pkg/controller/ingress/types.go:180-183 | true iff the lower-cased value is `true` |
| LegacyAnnotations.KeepSourceIPIgnoresCase | pkg/controller/ingress/types.go:180-183 | `TRUE` and `True` count; an absent key does not |
| LegacyAnnotations.GetTargetAnnotations | pkg/controller/ingress/types.go:185-204 | the method builds TargetAnnotationsOf |
| LegacyAnnotations.TargetAnnotationsOutcomes | pkg/controller/ingress/types.go:185-204 | absent gives (empty, true); undecodable gives (empty, false); otherwise the decoded map without own keys, and true |
| LegacyAnnotations.ProviderMarker | pkg/controller/ingress/types.go:164-171 | aws gives the proxy-protocol key `*`; gce, gke and azure give external-traffic `OnlyLocal`; others get none |
| LegacyAnnotations.ServiceAnnotations | pkg/controller/ingress/types.go:161-174 | the method builds ServiceAnnotationsOf |
| LegacyAnnotations.ServiceAnnotationsMarker | pkg/controller/ingress/types.go:161-174 | the provider entry on top of the targets iff the lookup succeeded, the type is LoadBalancer and keep-source-ip is true; ok is the lookup's |
| LegacyAnnotations.ServiceAnnotationsMarkerOnly | pkg/controller/ingress/types.go:161-174 | without service annotations, gke with keep-source-ip gives exactly the external-traffic entry |
| LegacyAnnotations.PodsAnnotations | pkg/controller/ingress/types.go:176-178 | the target annotations of the pod key |
| LegacyAnnotations.SupportsLoadBalancerType | pkg/controller/ingress/types.go:258-264 | true iff the provider is aws, gce, gke, azure or minikube |
| Offshoot.StringMap.Get | pkg/ingress/create.go:141 | a missing key reads as `""` |
| Offshoot.StringMap.Put | pkg/ingress/create.go:143 | sets one key and nothing else |
| Offshoot.EnsureOriginAnnotations | pkg/ingress/create.go:132-151 | a non-nil map is updated in place and returned; nil gives a fresh map; the contents and flag are OriginUpdate's |
| Offshoot.OriginUpdateSets | pkg/ingress/create.go:141-149 | afterwards the schema key reads as the schema and the name key as the name, counting a missing key as `""` |
| Offshoot.OriginKeysDiffer | pkg/ingress/create.go:141-149 | the two origin keys are distinct |
| Offshoot.OriginUpdateFlag | pkg/ingress/create.go:133-149 | needsUpdate iff either key read differently before |
| Offshoot.OriginUpdateFrame | pkg/ingress/create.go:141-149 | every other key is untouched, and no keys appear besides the two |
| Offshoot.OriginUpdateIdempotent | pkg/ingress/create.go:132-151 | a second call leaves the map as it is and reports no update |
| Offshoot.OriginNameMayStayAbsent | pkg/ingress/create.go:146-149 | an empty name leaves a missing name key missing |
| Offshoot.OriginAnnotations | pkg/ingress/create.go:34-37 | exactly the two origin keys, with the schema and the name |
| Offshoot.MutateConfigMap | pkg/ingress/create.go:33-41 | annotations become exactly the origin pair and data exactly `haproxy.cfg`; name and namespace are kept |
| Offshoot.ExporterSidecar | pkg/ingress/create.go:58-92 | (nil, nil) whenever stats are off; a container named exporter or an error only when they are on |
| IngressController.KindOf | pkg/ingress/controller.go:53-61 | HostPort, NodePort and LoadBalancer map to their kinds; anything else maps to none |
| IngressController.NewController | pkg/ingress/controller.go:45-62 | a controller of the LB type's kind for this ingress, or none iff the kind is unknown |
| IngressController.InternalHasNoController | pkg/ingress/controller.go:53-61 | the Internal type gets no controller |
| IngressController.DefaultIsLoadBalancer | pkg/ingress/controller.go:53-61 | without an LB-type annotation, the load-balancer controller is built |
| IngressController.KindOfInjective | pkg/ingress/controller.go:53-61 | distinct known types give distinct kinds |
| Kube.SplitMetaNamespaceKeyRoundTrip | pkg/operator/ingress_crds.go:166-175 | splitting the key of a slash-free namespace and name gives them back |
| Kube.SplitKeyOk | pkg/operator/ingress_crds.go:166-169 | a key splits iff it has at most one `/` |
| Kube.MetaNamespaceKeyOfSplit | pkg/operator/ingress_crds.go:166-175 | re-joining a split key gives the key back, except for a `/name` key |
| Kube.EmptyNamespaceKeyNotRestored | pkg/operator/ingress_crds.go:166-175 | `/x` splits to ("", "x"), which re-joins as `x` |
| Kube.GetByKey | pkg/operator/ingress_crds.go:159-164 | found iff the store works and holds the key; missing iff it works and lacks it |
| Kube.DeletionKey | pkg/operator/ingresses.go:88-92 | a tombstone's own key, or the key of the final object |
| Kube.InvalidEvent | pkg/operator/ingress_crds.go:50-56 | a warning with reason IngressInvalid on the object, with the message `Reason: <err>` |
| WorkQueue.RateLimitingQueue.constructor | pkg/operator/ingress_crds.go:35 | an empty, valid queue |
| WorkQueue.RateLimitingQueue.Add | pkg/operator/servicemonitors.go:62 | the new state is Added: a key that is neither pending nor being processed joins the back |
| WorkQueue.RateLimitingQueue.Get | pkg/operator/ingress_crds.go:121-124 | quit iff the queue is empty, which needs shutdown; else the front key moves to processing |
| WorkQueue.RateLimitingQueue.Done | pkg/operator/ingress_crds.go:128 | the key leaves processing, and is re-queued if it was added meanwhile |
| WorkQueue.RateLimitingQueue.Forget | pkg/operator/ingress_crds.go:136 | resets the key's requeue count |
| WorkQueue.RateLimitingQueue.NumRequeues | pkg/operator/ingress_crds.go:142 | the key's requeue count |
| WorkQueue.RateLimitingQueue.AddRateLimited | pkg/operator/ingress_crds.go:147 | increments the count, then adds the key |
| WorkQueue.RateLimitingQueue.ShutDown | pkg/operator/ingress_crds.go:121-124 | marks the queue as shutting down; later adds are ignored |
| WorkQueue.RetryOutcome | pkg/operator/ingress_crds.go:131-155 | synced iff no error; retried iff failed under the limit; dropped iff failed at or over it |
| WorkQueue.FinishSync | pkg/operator/ingress_crds.go:131-155 | the outcome is RetryOutcome, and the queue is left as AfterSync |
| WorkQueue.SuccessForgets | pkg/operator/ingress_crds.go:131-137 | a success resets the count and does not requeue |
| WorkQueue.FailureRetries | pkg/operator/ingress_crds.go:142-148 | a failure under the limit adds one to the count and puts the key back |
| WorkQueue.FailureAtLimitDrops | pkg/operator/ingress_crds.go:151-155 | a failure at the limit resets the count and drops the key |
| WorkQueue.AlwaysFailingKey | pkg/operator/ingress_crds.go:131-155 | a key whose sync always fails is retried exactly max times, then dropped for good |
| WorkQueue.FailingRounds | pkg/operator/ingress_crds.go:142-148 | n failing rounds under the limit leave the key queued with n more requeues |
| WorkQueue.RunFailingSplit | pkg/operator/ingress_crds.go:114-117 | a + b failing rounds are a rounds followed by b rounds |
| WorkQueue.ProcessedValid | pkg/operator/ingress_crds.go:119-156 | a worker round keeps the queue's invariant |
| WorkQueue.HeldKeyNotHandedOut | pkg/operator/ingress_crds.go:125-128 | a key being processed is never handed to a second worker |
| WorkQueue.AddIfAny | pkg/operator/ingress_crds.go:59-61 | adds the key if there is one |
| Handlers.EnqueueIfValid | pkg/operator/ingress_crds.go:49-61 | the key iff IsValid accepts; otherwise exactly one warning event and no key |
| Handlers.React | pkg/operator/ingress_crds.go:59-61 | carries out a reaction on the queue and returns its events |
| Handlers.Stub | pkg/operator/ingress_crds.go:170-175 | a stub with just the namespace and name |
| Handlers.ProcessNext | pkg/operator/ingress_crds.go:119-156 | false iff Get quits; otherwise the front key is synced, the retry policy applied and Done called |
| Handlers.ShutDownRoundShrinks | pkg/operator/ingress_crds.go:114-117 | after shutdown each round only removes the front key |
| Handlers.RunWatcher | pkg/operator/ingress_crds.go:114-117 | once shut down, the loop ends with an empty queue |
| EngressWatcher.OnAdd | pkg/operator/ingress_crds.go:38-62 | nothing for another class; otherwise EnqueueIfValid on the migrated object |
| EngressWatcher.OnAddSpec | pkg/operator/ingress_crds.go:38-62 | enqueued iff handled and valid; one warning iff handled and invalid |
| EngressWatcher.OnUpdate | pkg/operator/ingress_crds.go:63-96 | nothing unless HasChanged; then EnqueueIfValid on the new object, with no class check |
| EngressWatcher.OnUpdateSpec | pkg/operator/ingress_crds.go:63-96 | enqueued iff changed and valid; one warning iff changed and invalid |
| EngressWatcher.OnDelete | pkg/operator/ingress_crds.go:97-108 | enqueued iff the notice carries an ingress of a handled class; never a warning |
| EngressWatcher.InjectorErrors | pkg/operator/ingress_crds.go:158-184 | fails iff the store fails or a missing key does not split; a present key is added with no error |
| EngressWatcher.InjectorDeletesStub | pkg/operator/ingress_crds.go:164-176 | a missing key deletes a stub with the namespace and name it was made from |
| EngressWatcher.ProcessNextEngress | pkg/operator/ingress_crds.go:119-156 | one round with the injector's error as the failure |
| EngressWatcher.RunEngressWatcher | pkg/operator/ingress_crds.go:114-117 | after shutdown, the queue is worked off |
| IngressWatcher.OnAdd | pkg/operator/ingresses.go:35-54 | nothing if conversion fails; otherwise EnqueueIfValid, with no class check |
| IngressWatcher.OnAddSpec | pkg/operator/ingresses.go:35-54 | enqueued iff converted and valid; a warning only for invalidity |
| IngressWatcher.OnUpdate | pkg/operator/ingresses.go:55-87 | nothing unless both convert and differ; then EnqueueIfValid on the new object |
| IngressWatcher.OnDelete | pkg/operator/ingresses.go:88-92 | every deletion enqueues its key |
| IngressWatcher.InjectorFound | pkg/operator/ingresses.go:148-162 | conversion failure gives no error; handled gives Add's error; unhandled deletes |
| IngressWatcher.UnconvertibleForgotten | pkg/operator/ingresses.go:150-154 | a key that never converts is forgotten after one round |
| IngressWatcher.ProcessNextIngress | pkg/operator/ingresses.go:103-127 | one round with the injector's error as the failure |
| IngressWatcher.RunIngressWatcher | pkg/operator/ingresses.go:98-101 | after shutdown, the queue is worked off |
| SecretWatcher.IsSecretUsedInIngress | pkg/tlsmounter/secret.go:75-89 | true iff same namespace, the ingress is readable and a TLS entry names the secret with kind `Secret` or `""` |
| SecretWatcher.OnAddOrUpdate | pkg/tlsmounter/secret.go:44-63 | enqueues exactly the used secrets |
| SecretWatcher.OnDelete | pkg/tlsmounter/secret.go:64-71 | every deletion enqueues its key |
| SecretWatcher.SyncSecret | pkg/tlsmounter/secret.go:138-155 | a store error is returned; a missing key gives nil without mounting; a present one gives the mount's result |
| SecretWatcher.MissingSecretForgotten | pkg/tlsmounter/secret.go:145-148 | a key whose secret is gone is forgotten |
| SecretWatcher.ProcessNextSecret | pkg/tlsmounter/secret.go:96-133 | one round with syncSecret's error as the failure |
| SecretWatcher.RunSecretWatcher | pkg/tlsmounter/secret.go:91-94 | after shutdown, the queue is worked off |
| SecretWatcher.SecretKey | pkg/tlsmounter/secret.go:158 | namespace, then `/`, then name |
| SecretWatcher.GetSecret | pkg/tlsmounter/secret.go:157-166 | NotFound with the name iff the store works and lacks the key; found iff it holds it |
| SecretWatcher.GetSecretFindsStored | pkg/tlsmounter/secret.go:157-166 | in a namespace, getSecret's key is the informer's key |
| ServiceMonitors.FirstOwner | pkg/operator/servicemonitors.go:53-58 | the first index in list order that is live, handled, in ns and has stats service name; none iff there is no such index |
| ServiceMonitors.RestoreServiceMonitor | pkg/operator/servicemonitors.go:48-69 | a list error is returned with the queue unchanged; otherwise nil, and the first owner's key is added |
| ServiceMonitors.OwnerNamedByService | pkg/operator/servicemonitors.go:58 | an owner's name is the service name without `voyager-` and `-stats` |
| ServiceMonitors.RestoredKeyDetermined | pkg/operator/servicemonitors.go:53-65 | any owner implies one is found, and all owners share the key |
| ServiceMonitors.RestoreAddsAtMostOne | pkg/operator/servicemonitors.go:53-67 | at most one key is added, at the back |
| ServiceMonitors.ReconcileServiceMonitor | pkg/operator/servicemonitors.go:30-45 | a store error is returned; an existing monitor does nothing; a missing one restores with the split namespace and name |
| Validator.ValidateIngress | pkg/operator/validator.go:30-85 | the result and the events are Validation's |
| Validator.Entry | pkg/operator/validator.go:54 | `name@namespace` |
| Validator.Migrated | pkg/operator/validator.go:62-63 | each Voyager Ingress after Migrate, in order |
| Validator.ConvertLegacyStops | pkg/operator/validator.go:37-40 | after the first conversion error, later items change nothing |
| Validator.ValidationPassesIff | pkg/operator/validator.go:30-85 | nil iff both lists load, all conversions succeed and no handled ingress is invalid |
| Validator.ReportsEmptyIff | pkg/operator/validator.go:41-55 | no report iff no ingress is flagged; unhandled ones are never reported |
| Validator.ReportsAppend | pkg/operator/validator.go:36-79 | the Kubernetes Ingresses are reported first, then the Voyager ones, each in list order |
| Validator.WarningsMatchReports | pkg/operator/validator.go:46-55 | one warning event per reported entry, naming the same object |
| Validator.ValidationFailureListsAll | pkg/operator/validator.go:81-83 | the error lists every entry, joined with `, `, after the fixed prefix |

## Left out

- Cluster I/O is not modelled: the Kubernetes client calls, `listIngresses`, `Create`, `Delete` and event delivery. Store contents, listings and results come in as parameters (`Kube.Indexer`, `Result` values, `addError`, `mountError`).
- Concurrency is not modelled: worker goroutines, `wait.Until` and the informers. Each worker round runs alone.
- The rate limiter's delays are left out. `AddRateLimited` adds the key at once.
- Get's blocking on an empty live queue is left out. `RunWatcher` is modelled only once the queue is shut down, where its loop ends.
- Handlers.RunWatcher: proves only that the loop ends with an empty queue after shutdown. A live queue blocks rather than ends.
- The kutil parsers, JSON decoding and `time.ParseDuration` are parameters (`VoyagerApi.Parsers`, the `decode` argument). Decoding yields a whole map or nothing; Go's `json.Unmarshal` can also leave a partly filled map behind on error, which the model does not capture.
- VoyagerApi.Timeouts: assumes the kutil map lookup yields an empty map, not nil, for an absent key, as its callers rely on.
- `Migrate`, `ShouldHandleIngress`, `IsValid`, `HasChanged`, `NewEngressFromIngress`, `sortKey()`, the `canonicalize()` methods and `providers.URLPrefix` are uninterpreted parameters. Their code is not part of this model.
- `tools.Parse`, `MergeServicePorts` and `ParseNodeSelector` are parameters. Offshoot.ExporterSidecar keeps only the container's name and port; its args, image and environment are left out.
- Log messages, `%q`/`%s` formatting of the NotFound error, and `meta.Diff` are left out.
- `AddEngress` returns nothing in pkg/operator/ingress_crds.go:186-189, yet pkg/operator/ingresses.go:157 returns its result. IngressWatcher takes that result as the `addError` parameter.
- Certificate mounting in pkg/tlsmounter/secret.go (`projectSecret`, `mountSecret`) is left out, because it is file and x509 work. SyncSecret takes its result as `mountError`.
- The API group of the Voyager schema (`voyager.appscode.com`) and the spelling `optional` of the TLS verify option are assumed, because the files that declare them are not part of this model.
- The accessors that only return an annotation without a rule (`WhitelistSourceRange`, `MaxConnections`, `ProxyBodySize`, `StatsSecretName`, `RewriteTarget`, the auth and limit strings, `StatsLabels`, `StickySessionCookieHashType`, `LoadBalancerIP`, `AcceptProxy`) are left out.
- `TemplateData.String` (JSON rendering) is left out.
- The string helpers work on ASCII characters. Unicode case folding and white space beyond ASCII are not modelled.

## Findings

| source | as written | input that shows it | evidently intended | confidence | as-written member | corrected member |
|---|---|---|---|---|---|---|
| apis/voyager/v1beta1/annotations.go:423-428 | `AllowCORSCred` reads the enable-cors annotation | annotations {enable-cors: "true", cors-allow-credentials: "false"} give true | read the cors-allow-credentials annotation, default true | not executed | VoyagerApi.AllowCORSCredAsWritten | VoyagerApi.AllowCORSCred |
