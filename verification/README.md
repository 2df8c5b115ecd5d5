# Tenant platform: a Dafny model

The platform builds and runs the applications of many tenants on one Kubernetes cluster. A control
plane keeps tenants, keys, builds, deployments and webhook deliveries in a database and creates
objects in one namespace per tenant; a reverse proxy sends clients to tenant pods and keeps each
client on its pod with a signed cookie; webhooks tell tenants how builds and deployments ended.

The project has three parts.

**Control plane.** `ControlPlane.dfy` is a transition system over the database and the cluster
(`Kubernetes.dfy`). Each request handler and poller is split at every commit and every cluster call;
the steps of any number of them interleave, and any call may be rejected, may take effect and lose its
reply, or may be the last thing its worker does; the same holds of every commit. Whatever the environment decides is part of the step,
so `Apply` is a function and `Run` folds it over any sequence of steps. `Invariant.dfy` holds the
inductive invariant, `InvariantProof.dfy` and `StepProof.dfy` prove that every step keeps it,
`StepEffects.dfy` says what a step can touch, `Theorems.dfy` and `PollerRuns.dfy` state what follows
for every run. `Services.dfy` has the services as methods that update a database and a cluster; each
carries a ghost trace of steps, and its class invariant says that the run of that trace leads to exactly
this database and this cluster, so the theorems about runs apply to the methods' results. `Pollers.dfy`
has the two polling loops, `Convergence.dfy` the closed form of create-or-409 and of the upsert.

**Proxy.** `Cookie.dfy`, `CookieHeader.dfy` and `Routing.dfy` cover signing, header and path parsing of
the Go and the Node proxy; `Affinity.dfy`, `AffinityRun.dfy` and `AffinityOverlap.dfy` the choice of a
pod and whole client sessions on a mixed fleet, one request at a time and overlapping;
`ProxyAgreement.dfy` the two proxies side by side on any request; `Endpoints.dfy` the endpoint cache; `Metrics.dfy` the status writer and the
request counters.

**Webhooks.** `Webhook.dfy` covers the signed message, the dispatcher's loop, its place in the runs of the
control plane, and the receiver's decision.

## Assumptions

- Primary keys come from increasing sequences and are never given out twice; a commit is atomic; a
  foreign key that no longer holds makes a commit fail.
- Only this code creates or changes the cluster objects it creates, apart from the status that kpack
  writes on an Image; deleting a tenant leaves its namespace alone, as the code does.
- The MAC is an arbitrary function to 64 lowercase hex characters. Nothing is assumed about collisions;
  where forgery matters, a hypothesis about the set of messages really signed says so.
- A delivery row keeps the secret it was signed with; the stored signature is the MAC under it.
- `History` and the fields called `last`, `served` and `arrived` record the past to state properties;
  no step reads them.
- A client sends the affinity cookies it holds for the path (section 5.4 of RFC 6265) in any order,
  with cookies of the application that do not use the `affinity_t` prefix; ready lists hold addresses.
- Where Go and Node are compared, request targets are plain (`Routing.Plain`): origin form, a path that
  ServeMux does not clean and in which Go neither decodes nor escapes anything, visible query characters.

## Where the code differs from what one might expect

- Go and Node do not route all targets alike: `?` directly after the id is a tenant for Go and a 404 for
  Node, and a bare `?` at the end is dropped by Go and forwarded by Node. `RoutesAgree` shows that there
  is no other difference on plain targets; `QueryRightAfterId` and `BareQuestionMark` give the inputs.
- The Node proxy loses a cookie named `__proto__`, and no other (`ProtoIsLost`, `RoundTripsExactly`).
- With overlapping requests the jar can name another pod than the one answered last: a sticky answer sets
  no cookie, so it does not undo a change made while it was under way (`JarNamesLastAnswered`,
  `OverlapCanMislead`; `OverlapHappens` is such a run).
- On the same cookie the two sticky decisions differ only if the empty string is a ready address
  (`ProxiesStickAlike`), but the proxies do not read the same cookie: of several of a name Go takes the
  first it can read, without quotes around it, and Node the last as it stands. `ProxiesDecideAlike` has the
  exact condition for any request, `DuplicatesPart` and `QuotesPart` the inputs.
- The recorded status is the sent one if and only if the first header is not informational and no flush
  came before a header other than 200 (`RecordedIsSent`, `RecordedCanBeWrong`).
- A `building` row stays non-final exactly when a status read raises before any report or the final commit
  is rejected; timeouts and start failures send no webhook, nor does a report whose commit raises.
- The receiver raises, rather than rejects, on superscript digits in the timestamp and, inside the window,
  on non-ASCII signatures, and in no other case (`RaisesExactly`, `ReceiverCanRaise`).

## Model

| member | source | states |
|---|---|---|
| StepProof.RunOk | control_plane/app/services/build_jobs.py:31-122 | after every run, under every interleaving, failure and crash, the invariant over rows, cluster, history and all live workers holds |
| Theorems.NoWorkloadWithoutHardening | control_plane/app/k8s_resources.py:53-150 | in every run a namespace with an Image, an app or a service enforces `restricted`, has the quota (2 CPU, 4Gi, 4 CPU, 8Gi, 20 pods), the limit range, the default-deny policy, the registry secret and the account that pulls with it, although deploying never creates them |
| Kubernetes.ManifestsIsolate | control_plane/app/k8s_resources.py:18-27 | every one of the nine manifests is what isolation asks for, spelled out; egress is exactly DNS at the address looked up, or nothing |
| Theorems.ViewerOnlyViews | control_plane/app/k8s_resources.py:337-365 | in every run a viewer's role, once there, is get and list on pods and pods/log, bound to its own account |
| Theorems.BuiltFromItsSource | control_plane/app/k8s_resources.py:153-184 | in every run a building or succeeded build has the Image `build-<b>` in its tenant's namespace, made from the row's own url and revision, and its sub-path iff that is not empty |
| Kubernetes.BuildVerdictMeans | control_plane/app/k8s_resources.py:187-214 | failed with e, ready with an image, or unknown, each iff the first `Ready` condition of the Image, by index, says so |
| Kubernetes.RolloutVerdictMeans | control_plane/app/k8s_resources.py:295-321 | running iff a positive count is ready; failed iff not and the first `Progressing` condition says "False"; open otherwise |
| Theorems.ImageProvenance | control_plane/app/services/deployments.py:24-56 | over every run the image on `tenant-app` is what a build of that namespace's own tenant recorded when it succeeded, from a report with `Ready` true and that `latestImage` on the build's Image; the Image still stands with the tag only this build pushes to, and the succeeded row too unless the tenant was deleted |
| Theorems.NamespaceOwnership | control_plane/app/services/tenants.py:17 | a namespace with anything in it belongs to exactly one tenant ever committed |
| Theorems.NewTenantStartsEmpty | control_plane/app/services/tenants.py:10-29 | whenever a tenant row appears, its key was never used and its namespace is empty, deleted tenants notwithstanding |
| Theorems.TenantFrame | control_plane/app/dependencies.py:16-29 | a step taken for one tenant leaves all rows, the namespace and the workers of every other tenant as they were |
| StepEffects.ApplyConfined | control_plane/app/services/deployments.py:23-105 | every step is confined to the tenant it acts for and takes nothing back |
| Theorems.RunMonotone | control_plane/app/k8s_resources.py:61-150 | between any two points of a run no cluster object, Image spec or pod template changes or goes away, and no final row is rewritten |
| Theorems.FinalIsFinal | control_plane/app/services/build_jobs.py:88-122 | succeeded and failed builds and running and failed deployments never change again, although the pollers write without a guard |
| Theorems.OnePollerPerRow | control_plane/app/routes/build_jobs.py:10-15 | no two workers handle the same row, and a live poller's row is still `building` or `deploying` |
| Theorems.RowsAreConsistent | control_plane/app/services/build_jobs.py:36-68 | timestamps, image and error agree with the status in every reachable state; a deployment is never `stopped` and belongs to a succeeded build of its tenant |
| Theorems.DeliveriesTellTheTruth | shared/webhook_dispatcher.py:26-65 | at most one delivery per registration and build or deployment; event, tenant and payload are those of the final committed row, and it goes to a registration of that row's tenant |
| Theorems.DispatchReachesAll | shared/webhook_dispatcher.py:29-65 | an uninterrupted dispatcher picks exactly the active registrations of the row's tenant and then adds exactly one row for each |
| Theorems.ObjectsArePrefix | control_plane/app/k8s_resources.py:61-150 | wherever callers crash, the objects are a prefix of the creation order and each is what isolation asks for at its place |
| Theorems.NormalReturnCompletes | control_plane/app/k8s_resources.py:53-150 | a build handler past its create sequence, its poller, and every deploy handler find the six objects, a kubeconfig request past its own all nine |
| Theorems.PolicyIsFixed | control_plane/app/k8s_resources.py:101-126 | the first creator fixes the network policy for good: no ingress, and no egress or exactly DNS at one /32 |
| Theorems.AppKeepsItsTemplate | control_plane/app/k8s_resources.py:234-281 | after any redeploys the app runs as non-root, without privilege escalation, capabilities or a token, under `RuntimeDefault` on port 8080 with the fixed sizes, has 1 to 8 replicas, and fits the quota in every dimension |
| Theorems.TenantsAreNamed | control_plane/app/services/tenants.py:11-27 | a visible tenant is named after its id, never `pending`, and no two share a namespace |
| Theorems.AccessIsAuthorisation | control_plane/app/dependencies.py:16-29 | the staged lookup grants access iff some unrevoked key of that very, active tenant has the hash, and otherwise answers 401, 403 for another tenant or 403 for an inactive one, each iff |
| Theorems.RevokedForever | control_plane/app/services/api_keys.py:33-44 | a revoked key never opens anything again, in any continuation, and while its row exists its hash authorises nobody |
| PollerRuns.ReadsExplainPollers | control_plane/app/services/build_jobs.py:77-101 | in every run a poller's position follows from its reads: silent so far, first definite report within ceil(T/I), or ceil(T/I) silent reads |
| PollerRuns.PollersWriteWhatTheyRead | control_plane/app/services/build_jobs.py:88-122 | a poller writes to a waiting row only, and then the first report (with a webhook iff the commit returns) or, after silence only, the timeout failure (without); unless a call raises or the row is gone, it does write |
| PollerRuns.EveryRequestEnds | control_plane/app/services/deployments.py:69-105 | in any run a request with the poller and dispatcher it leads to takes at most 196 turns of its own |
| Pollers.FirstDefiniteMeans | control_plane/app/services/build_jobs.py:80-86 | settled by v iff v is the first definite report after silence; dead iff an error came first; timed out iff all reads were silent |
| Pollers.BuildJobs.PollBuildUntilDone | control_plane/app/services/build_jobs.py:73-122 | for all intervals and timeouts the loop computes the first definite report of ceil(T/I) reads; the row gets exactly the reported image or message and the time of the write, and the webhook follows; a `building` row stays open iff a read raised or the commit was rejected |
| Pollers.Deployments.PollDeploymentUntilRunning | control_plane/app/services/deployments.py:69-105 | the same for rollouts |
| Convergence.CompletedConverges | control_plane/app/k8s_resources.py:61-150 | a complete pass leaves the whole prefix, keeps what was there, and a second pass with any DNS answer changes nothing |
| Convergence.UpsertsKeepTemplate | control_plane/app/k8s_resources.py:269-281 | any non-empty sequence of deploys ends in the last image and count on the first template |
| Services.Platform.EnsureTenantNamespace | control_plane/app/k8s_resources.py:53-150 | raises iff a call does; leaves exactly the objects whose creation took effect, in order, all six on a normal return, each new one as isolation asks; a complete namespace is not touched |
| Services.Platform.EnsureKubeconfigObjects | control_plane/app/services/kubeconfig.py:5-14 | the same for all nine objects of a kubeconfig request |
| Services.Platform.CreateKpackImage | control_plane/app/k8s_resources.py:153-184 | what the create leaves and when it raises, a conflict being an error; tag, account, url, revision and sub-path of the new Image |
| Services.Platform.CreateBuildJob | control_plane/app/services/build_jobs.py:31-70 | a build starts iff the tenant exists and nothing raises; the exact row and the exact namespace in each outcome, whichever call raised; nothing else changes |
| Services.Platform.PostBuildJob | control_plane/app/routes/build_jobs.py:10-15 | a poller is scheduled exactly for an authorised build that started |
| Services.Platform.CreateTenantDeployment | control_plane/app/k8s_resources.py:225-292 | succeeds iff the namespace exists and no needed call raises; the exact namespace in each case, with objects, Images and template untouched even on an exception |
| Services.Platform.CreateDeployment | control_plane/app/services/deployments.py:23-66 | invalid iff the count is not 1 to 8 or the build is missing, foreign or not succeeded; it starts iff nothing raises, the namespace being always there; the exact row and the exact namespace in each outcome, whichever call raised |
| Services.Platform.PostDeployment | control_plane/app/routes/deployments.py:10-20 | a deployment starts iff it is authorised, allowed and nothing raises, and a poller is scheduled exactly then |
| Services.Platform.CreateTenant | control_plane/app/services/tenants.py:10-33 | created iff flush and commit succeed and the hash is new; stored iff the commit lands, under the tenant's own unused name with an empty namespace; otherwise only a key of the sequence is spent |
| Services.Platform.DeleteTenant | control_plane/app/services/tenants.py:45-52 | all rows of the tenant go, every other tenant's rows stay, the cluster is untouched |
| Services.Platform.UpdateTenant | control_plane/app/services/tenants.py:54-71 | None for a missing tenant, an error for nothing to set or for a null; else the loop leaves exactly the given name and flag, the last of each winning, and never touches the namespace |
| Services.Platform.CreateApiKey | control_plane/app/services/api_keys.py:9-21 | stored iff hash and name are free and the commit lands; the new key opens its tenant iff that is active |
| Services.Platform.RevokeApiKey | control_plane/app/services/api_keys.py:33-44 | only the own tenant's key; afterwards its hash authorises nobody |
| Services.Platform.RegisterWebhook | control_plane/app/services/webhook_registrations.py:8-19 | the new registration joins the recipients of its own tenant and of nobody else |
| Services.PlatformIsHardened | control_plane/app/k8s_resources.py:53-150 | whatever methods ran, a valid platform has no workload outside a hardened namespace |
| Quota.LargestIsExact | tests/test_isolation_manifests.py:283-301 | for all quotas and positive sizes the minimum of floor quotients is exactly the largest count that fits |
| Quota.SchemaBoundIsExact | control_plane/app/schemas/deployments.py:8-12 | the schema's bound of 8 is exactly what the tenant quota holds |
| Naming.NamespaceInjective | control_plane/app/services/tenants.py:17 | two tenants have the same namespace name iff they are the same |
| Naming.NamespaceIsLegal | control_plane/app/services/tenants.py:11-17 | never the placeholder, at most 63 characters for every key of the column's type |
| Naming.ImageNameInjective | control_plane/app/services/build_jobs.py:20-21 | two builds have the same Image name iff they are the same |
| Naming.ImageTagText | control_plane/app/services/build_jobs.py:24-28 | the tag is `tenant-<t>-build-<b>` |
| Naming.ImageTagInjective | control_plane/app/services/build_jobs.py:24-28 | two tags are equal iff tenant and build both are |
| Cookie.VerifyInvertsSign | proxy/cookie.go:28-44 | Verify returns v on s iff s is Sign(v), dotted values included |
| Cookie.SignInjective | proxy/cookie.go:28-30 | different values have different signed forms, with no assumption on the MAC |
| Cookie.VerifiersAgree | k8s/proxy/sticky-proxy.js:30-41 | both verifiers give the same answer on every string |
| CookieHeader.ParseCookies | k8s/proxy/sticky-proxy.js:71-78 | the loop computes the fold of its parts, where assigning a string to `__proto__` is lost |
| CookieHeader.ParsedInvertsPrint | k8s/proxy/sticky-proxy.js:71-78 | reading what a client prints gives back exactly what it holds but for the name `__proto__`, later names winning |
| CookieHeader.TrimMeans | k8s/proxy/sticky-proxy.js:74 | trimming takes all white space off both ends and nothing else |
| CookieHeader.RoundTripsExactly | k8s/proxy/sticky-proxy.js:71-78 | the round trip is exact iff no cookie is named `__proto__` |
| CookieHeader.ProtoIsLost | k8s/proxy/sticky-proxy.js:72-75 | a well-formed cookie of that name is lost |
| Routing.ParseIsDenotation | proxy/handler.go:15 | the parser accepts exactly the language of the expression, with exactly its groups |
| Routing.MatchesMean | k8s/proxy/sticky-proxy.js:28 | each engine matches exactly that language without the characters its `.` leaves out |
| Routing.RoutesMean | proxy/handler.go:44-53 | both forward the rest of the path, `/` if there is none, and Go a query that is not empty |
| Routing.CookieScopeIsRoutingScope | proxy/handler.go:81-87 | path-match against `/t/t` holds iff the request is routed to t |
| Routing.OnlyCanonicalIdReaches | proxy/handler.go:44-55 | an id reaches tenant n's namespace iff it is n's numeral without leading zeros |
| Routing.RoutesAgree | k8s/proxy/sticky-proxy.js:81-89 | on plain targets Go and Node give the same tenant and forwarded target iff the target is not of the two named kinds |
| Routing.QueryRightAfterId | proxy/handler.go:44-53 | at every id, any visible query right after it is routed by Go and refused by Node |
| Routing.BareQuestionMark | proxy/handler.go:66-73 | on every plain tenant path with a rest, a trailing bare `?` is dropped by Go and kept by Node |
| Affinity.Contains | proxy/handler.go:114-121 | membership |
| Affinity.Choose | proxy/handler.go:101-112 | always a ready pod: the genuine cookie's pod if ready, else the picked one, with the event that says why |
| Affinity.EventMeans | proxy/metrics.go:13-18 | a hit iff the cookie is the signed form of a ready address, new iff there is no cookie, rejected otherwise |
| Affinity.ChooseNode | k8s/proxy/sticky-proxy.js:100-111 | the same decision; a cookie is set iff there is no sticky pod |
| Affinity.ProxiesStickAlike | k8s/proxy/sticky-proxy.js:100-111 | given one and the same cookie, both stick to the same pod iff not (it signs the empty string and that is a ready address) |
| AffinityRun.GoValueMeans | proxy/handler.go:105 | Go reads a value as it stands or without one pair of quotes, iff the rest has only allowed bytes |
| AffinityRun.FirstNamedMeans | proxy/handler.go:105 | the cookie Go sees is the first of the name, by index, that it can read |
| ProxyAgreement.LastNamedMeans | k8s/proxy/sticky-proxy.js:104 | the cookie Node sees is the last of the name, by index |
| ProxyAgreement.FirstAgainstLast | proxy/handler.go:103-106 | for any cookies Go sees the first of the name it can read and Node the last |
| ProxyAgreement.PodsAgree | k8s/proxy/sticky-proxy.js:100-111 | on what each sees, the sticky pods are equal iff it is the same cookie, not that of an empty address, or neither names a ready pod |
| ProxyAgreement.ProxiesDecideAlike | proxy/handler.go:44-76 | on every plain request with any well-formed cookies, same tenant, target and sticky pod iff the routes agree and the first and last cookie of the name do |
| ProxyAgreement.OneOfTheName | k8s/proxy/sticky-proxy.js:71-78 | with at most one readable cookie of the name both see the same |
| ProxyAgreement.DuplicatesPart | proxy/handler.go:103-112 | two genuine cookies for two ready pods: Go keeps the first, Node the second |
| ProxyAgreement.QuotesPart | k8s/proxy/sticky-proxy.js:104-111 | a genuine cookie in quotes is kept by Go and not by Node |
| AffinityRun.SeenIsHeld | proxy/handler.go:101-112 | whichever replica reads it, the tenant's cookie is seen exactly as the client holds it |
| AffinityRun.RunsAreFaithful | proxy/handler.go:77-90 | after any run on a mixed fleet the jar has one affinity cookie per answering tenant, naming the pod that answered last |
| AffinityRun.SessionAffinity | k8s/proxy/sticky-proxy.js:100-125 | the next request goes to the last pod whenever the serving replica lists it and to the picked one otherwise; only an answer changes the jar, and only the entry `affinity_t<id>` for `/t/<id>` |
| AffinityOverlap.JarNamesLastAnswered | proxy/handler.go:77-95 | with overlapping requests the jar names the pod answered last iff that request set a cookie or no answer meanwhile left the tenant bound to another pod |
| AffinityOverlap.NextGoesToBound | proxy/handler.go:101-112 | however requests overlap, a new one goes to the pod the jar names whenever the serving replica lists it |
| AffinityOverlap.OverlapHappens | proxy/handler.go:77-95 | a run of six steps from a new client after which the jar and the last answer differ |
| AffinityOverlap.OverlapCanMislead | proxy/handler.go:80-88 | for every bound client, two crossing requests after which the jar and the last answer differ |
| Endpoints.EndpointsOf | proxy/endpoints.go:53-61 | sorted; an address is in it iff some slice of the namespace has an endpoint not marked unready with it, and as often as it is given |
| Endpoints.ReadyAddresses | proxy/endpoints.go:66-78 | sorted, and exactly the bag of addresses of endpoints not marked unready |
| Endpoints.ListIsCanonical | proxy/endpoints.go:53-78 | any regrouping or reordering of slices and endpoints gives the identical list |
| Endpoints.LeqMeans | proxy/endpoints.go:76 | the order is prefix first, else by the first difference |
| Endpoints.LastEventWins | proxy/endpoints.go:30-42 | the cache holds for each slice what the last event about it said |
| Endpoints.SortedIsUnique | proxy/endpoints.go:76 | there is one sorted list of a bag under the byte order |
| Endpoints.OtherNamespacesDoNotMatter | proxy/endpoints.go:55-61 | no number of events in other namespaces changes a namespace's list |
| StatusWriting.StatusWriter.DoWriteHeader | proxy/handler.go:130-136 | keeps the recorded and the committed status tied to the calls made |
| StatusWriting.StatusWriter.DoWrite | proxy/handler.go:138-141 | the same for a body write |
| StatusWriting.StatusWriter.DoFlush | proxy/handler.go:144-148 | the same for a flush, which the recorder does not notice |
| StatusWriting.RecordedIsSent | proxy/handler.go:123-148 | the recorded status is the sent one iff the first header is final and no flush preceded a header other than 200 |
| StatusWriting.RecordedCanBeWrong | proxy/handler.go:130-148 | early hints and an early flush make the metric wrong |
| Accounting.CountersBalance | proxy/handler.go:35-64 | at every moment cookie events equal requests counted under a tenant plus those past `choose`; arrivals equal counted plus in flight; labels are `none` or ids seen with a ready pod |
| Accounting.Handler.ServeHTTP | proxy/handler.go:35-99 | counts exactly as one request of the interleaved model: one in its series, one of its event if it was routed; pod, status and cookie in each case |
| Webhook.MessageInjective | shared/webhook_dispatcher.py:19-23 | the signed text determines timestamp and body |
| Webhook.AcceptsExactly | scripts/webhook_test_receiver.py:22-44 | accepted iff digits, at most 300 seconds off, and `sha256=` with the MAC of `<timestamp>.<body>` |
| Webhook.RejectsExactly | scripts/webhook_test_receiver.py:29-44 | each of the four reasons iff its test is the first to fail |
| Webhook.RaisesExactly | scripts/webhook_test_receiver.py:29-44 | the receiver raises iff the timestamp has a superscript digit, or the signature is not ASCII and the timestamp inside the window |
| Webhook.ReceiverCanRaise | scripts/webhook_test_receiver.py:33-43 | an input for each of the two |
| Webhook.SentIsAccepted | shared/webhook_dispatcher.py:34-43 | what is sent is accepted iff it arrives within 300 seconds, and otherwise refused for that reason |
| Webhook.AcceptedWasSigned | scripts/webhook_test_receiver.py:29-44 | if the tag was issued for some signed pair and the presented message collides with no signed one, the accepted pair was signed with this timestamp and body |
| Webhook.DispatchTenantWebhooks | shared/webhook_dispatcher.py:26-65 | commits one row per active registration of the tenant, in order, recording signature, time and outcome |
| Webhook.ActiveForExactly | shared/webhook_dispatcher.py:29-32 | the recipients are exactly the active registrations of the tenant |
| Webhook.DispatcherTurnsAreTheMethod | shared/webhook_dispatcher.py:29-65 | the dispatcher's turns in the transition system add exactly the rows the loop commits |
| Webhook.EveryRowVerifies | control_plane/app/models/webhook_deliveries.py:6-22 | for every delivery row of every run, what was sent, signed with the secret read at the select, is accepted under its registration's own secret exactly within its window |

## Left out

- HTTP frameworks, the ORM, client-go informers, `httputil.ReverseProxy` and Prometheus: only the effects the code relies on are modelled.
- SHA-256, HMAC, constant-time comparison, random keys, base64 and the docker configuration text.
- What Kubernetes enforces (quota, Pod Security, network policy, RBAC), rolling-update surge and the usage of build pods.
- Order of cascades in the database: deleting a tenant takes all its rows or none.
- Kubeconfig text, token minting and CA files; only the objects created before are modelled.
- Listing and lookup endpoints, the admin secret, and changing or removing webhook registrations: read-only or outside the state machines.
- Percent-decoding and escaping, absolute-form targets, path cleaning by ServeMux (targets that need them are not plain), protocol upgrades, and cookie names that are not tokens.
- Limits of Python's `int()` on very long digit strings.
- Affinity cookies that a tenant's own application sets under the proxy's cookie name.
- Loss of background tasks at a process restart is modelled as a crash of the worker, not as a restart.
- That a `running` row's own image is live, that every build ends, that every failure is announced: the code does not give these.
- Services.Platform.CreateBuildJob: other workers' steps fall before or after the call, not inside it; interleaving inside is the subject of the theorems about runs.
- Services.Platform.CreateDeployment: the same.
- Services.Platform.CreateKpackImage: the builder reference, a constant, is not part of the spec.
- Pollers.BuildJobs.PollBuildUntilDone: the table is the one found when the loop ends, since nothing is read or written before.
- Pollers.Deployments.PollDeploymentUntilRunning: the same.
- Endpoints.ReadyAddresses: sorts a sequence by insertion; the in-place algorithm of the Go library is not modelled.
- Webhook.DispatchTenantWebhooks: the HTTP call is a reply given as input; serialising the payload to JSON is not modelled.
