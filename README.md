# ingress-operator, modelled in Dafny

A model of the OpenFaaS ingress-operator's core, with proofs about it.

The operator watches `FunctionIngress` custom resources. For each one it keeps
a derived Kubernetes `Ingress`. That Ingress routes a domain (and optionally a
path) to the OpenFaaS gateway, or in bypass mode straight to the function's
own service. It carries TLS entries for cert-manager, and an annotation set
that configures the chosen ingress class. One annotation, `com.openfaas.spec`,
holds a JSON snapshot of the FunctionIngress that was last applied. The
operator compares against that snapshot to decide whether an update is
needed.

The model covers:

- **Desired-state synthesis** for the three controller revisions:
  - the older `pkg/controller/controller.go`, in module `LegacySynth`;
  - the shared rules and TLS of `pkg/controller/v1` and `pkg/controller/v1beta1`, in module `RouteSynth`.

  This includes the ingress class, the rules (path precedence and the
  traefik `strings.TrimRight` with a character cutset), TLS, annotations and
  the owner reference.
- **The converge engine**, in module `Converge`. `Decide` is a pure
  specification of one handler run. It covers the create path, the update
  path, the no-op path and every error path, for each revision.
- **The controller**, in module `IngressController`. `Controller` is a class
  holding the two listers, the work queue, and a log of the writes it sends
  and the events it records.
  - `SyncHandler` is the imperative handler. It is proved equal to `Decide`.
  - `ProcessNextWorkItem` is one worker step over the queue.
  - The informer handlers enqueue keys through the routing functions of
    `EventRouter`.
- **The work queue**, in module `WorkQueue`. This is the client-go
  rate-limited queue contract the controller relies on:
  - pending items, the dirty set and the in-flight set, with the invariant
    that no key is pending twice;
  - failure counts;
  - delayed adds.
- **The Function mappers**, in modules `FunctionTypes`, `Strconv`, `Apply`
  and `Factory`:
  - `getMinReplicaCount`, with Go's `strconv.Atoi` and the int32 narrowing
    written out;
  - `getResources`;
  - the Function built by the apply endpoint;
  - `functionToFunctionRequest` and `functionToFunctionResources`;
  - the partial round trip between them.

The main results:

- **Idempotence.** After a successful create or update is stored in the
  cache, the next run for the same key is a no-op
  (`Converge.SecondReconcileIsNoOp`).
- **Self-healing.** Deleting the derived Ingress enqueues its owner, and the
  next run recreates the same Ingress (`EventRouter.DeletedIngressIsRecreated`).
- **Annotation merge.** The update path keeps annotations that synthesis does
  not produce (`Converge.MergeAnnotations`, `Converge.UpdateMergesAnnotations`).
- **Exact `strings.TrimRight` behaviour.** Three properties together single
  out its result, and it is idempotent.
- **Replica count.** `getMinReplicaCount` is given for every label that
  `strconv.Atoi` accepts and for every label it rejects; `Strconv.Atoi` is
  characterised on every optional sign followed by one or more digits, and
  rejects everything else, a bare sign included.

On the replica count: a label above 2147483647 is narrowed to int32 by wrapping
around. The result is at least 1 exactly when the parsed value mod 2^32 lies in
[1, 2^31). For example, "2147483648" yields -2147483648 replicas and
"4294967297" yields 1 (`Apply.MinReplicaWraps`).

Modelling choices:

- Go pointers are `Option`s. A nil map and an empty map are the same value.
- Strings are `seq<char>`.
- The JSON codec is a parameter, `Snapshot.Codec`: a pair of encode and
  decode functions. The round-trip property JSON gives is the predicate
  `Snapshot.RoundTrips`, which is a precondition of the idempotence lemma.
- The API server's answer to a write is a parameter (`apiErr`) of the handler.

Behaviours of the code that the model keeps as written:

- The update check compares only the specs (`ingressNeedsUpdate`, controller.go:345-348), not the metadata annotations.
- In `processNextWorkItem` (controller.go:205-234), a failed sync is neither forgotten nor added back with a rate limit.
- The older `makeTLS` names the secret after the object, not the domain (controller.go:453).
- An Ingress lookup error other than not-found is not retried. The handler dereferences the nil Ingress and panics (controller.go:300, v1/controller.go:145). The model records this as `Converge.Decision.Crash` and `HandlerResult.Panicked`.
- The issuer annotation key is always `certmanager.k8s.io/issuer`. No code that depends on the issuer kind is present.

## Model

| member | source | states |
|---|---|---|
| Meta.SplitKey | pkg/controller/controller.go:241-245 | a key without '/' is the name in the empty namespace; a key with exactly one '/' at i splits into key[..i] and key[i+1..]; a key with two or more '/' is an error |
| Meta.SplitCases | pkg/controller/controller.go:241-245 | the three cases of the '/' split: none, exactly one, two or more |
| Meta.SplitOneSlash | pkg/controller/controller.go:241-245 | a key with a single '/' splits into the part before and the part after it |
| Meta.SplitTwoSlashes | pkg/controller/controller.go:241-245 | a key with two '/' splits into at least three parts |
| Meta.KeyString | pkg/controller/controller.go:371 | the key ends with the name; it is the bare name in the empty namespace, and otherwise the namespace, one '/' and the name, with nothing in between |
| Meta.SplitKeyString | pkg/controller/controller.go:241-245 | splitting the "namespace/name" key of an object gives back its namespace and name (when neither contains '/') |
| Meta.GetControllerOf | pkg/controller/controller.go:401 | a controller reference is found iff some owner reference is marked controller, and the one found is the first reference so marked |
| IngressTypes.UseTLSCases | pkg/apis/openfaas/v1/types.go:58-60 | TLS is used iff the TLS block is present and enabled; nil or disabled means no TLS, and no other field matters |
| LegacySynth.GetClass | pkg/controller/controller.go:461-471 | the class is never empty; it is nginx iff the type is empty or "nginx", and otherwise it is the type itself |
| LegacySynth.GetClassIdempotent | pkg/controller/controller.go:461-471 | taking the class of a class changes nothing |
| LegacySynth.MakeRules | pkg/controller/controller.go:419-445 | one rule for the domain with one path to gateway:8080 and no path type; the path is "/" for traefik and "/(.*)" otherwise |
| LegacySynth.MakeRulesIgnoresPathAndBypass | pkg/controller/controller.go:419-445 | the older rules depend only on domain and ingress type, not on the explicit path or bypass flag |
| LegacySynth.MakeTLS | pkg/controller/controller.go:447-459 | empty iff TLS is off; otherwise one entry whose secret is the object name + "-cert", for the domain |
| LegacySynth.MakeAnnotations | pkg/controller/controller.go:473-503 | the map built by successive assignments equals the union of the class/snapshot, rewrite and TLS annotation sets |
| LegacySynth.AnnotationsContent | pkg/controller/controller.go:473-503 | class and snapshot are always present; each class gets exactly its rewrite values; unknown classes get none; issuer and challenge keys are present iff TLS is on, with the issuer name and "http01" |
| LegacySynth.AnnotationKeys | pkg/controller/controller.go:473-503 | the key set is exactly class + snapshot + the class's rewrite keys + the TLS keys when TLS is on |
| LegacySynth.IngressNeedsUpdate | pkg/controller/controller.go:345-348 | an update is needed iff the two objects differ in something other than their metadata |
| LegacySynth.MakeOwnerRef | pkg/controller/controller.go:505-514 | a single owner reference which GetControllerOf recovers as the controller ref of kind FunctionIngress with the object's name and uid |
| RouteSynth.TrimRight | pkg/controller/v1/controller.go:204 | the result is a prefix of the input, does not end in a cutset character, and only cutset characters were removed |
| RouteSynth.TrimRightUnique | pkg/controller/v1/controller.go:204 | those three properties determine the result uniquely |
| RouteSynth.TrimRightIdempotent | pkg/controller/v1/controller.go:204 | trimming twice equals trimming once |
| RouteSynth.TrimRightEmptyIff | pkg/controller/v1/controller.go:204 | everything is trimmed iff every character is in the cutset |
| RouteSynth.ChosenPath | pkg/controller/v1/controller.go:190-198 | never empty; a non-empty explicit path wins, else "/" in bypass mode, else "/(.*)" |
| RouteSynth.TraefikTrim | pkg/controller/v1/controller.go:204-207 | "/" exactly when the input is all cutset characters; otherwise a non-empty prefix of the input that does not end in a cutset character, with only cutset characters removed |
| RouteSynth.ResolvePath | pkg/controller/v1/controller.go:190-208 | never empty; outside traefik it is the chosen path; under traefik it is "/" or a prefix of the chosen path not ending in a cutset character, with only cutset characters removed |
| RouteSynth.MakeRules | pkg/controller/v1/controller.go:190-240 | one rule for the domain, one path with the resolved path, the revision's path type, the chosen backend and port 8080 |
| RouteSynth.MakeTLS | pkg/controller/v1/controller.go:242-255 | empty iff TLS is off; otherwise one entry with secret domain + "-cert" for the domain |
| RouteSynth.PathPrecedence | pkg/controller/v1/controller.go:191-199 | outside traefik: a non-empty explicit path wins, then bypass gives "/", else "/(.*)" |
| RouteSynth.TraefikPath | pkg/controller/v1/controller.go:201-208 | under traefik the path is "/" or a non-empty prefix of the chosen path that does not end in a cutset character, with only cutset characters removed, so it is strings.TrimRight of the chosen path; it is "/" iff the chosen path consists of cutset characters only |
| RouteSynth.TraefikTrimIdempotent | pkg/controller/v1/controller.go:204-207 | the traefik adjustment applied twice equals applying it once |
| RouteSynth.DefaultPathUnderTraefik | pkg/controller/v1/controller.go:191-208 | traefik without an explicit path routes "/" whether or not bypass is set |
| RouteSynth.NginxRootPathHasRegex | pkg/controller/v1beta1/controller_test.go:14-43 | nginx, no path: "/(.*)" to the gateway on the workload port |
| RouteSynth.NginxBypassIsRoot | pkg/controller/v1beta1/controller_test.go:45-78 | nginx bypass for nodeinfo: "/" to service nodeinfo |
| RouteSynth.NginxPathOverride | pkg/controller/v1beta1/controller_test.go:80-104 | an explicit path under nginx is kept verbatim |
| RouteSynth.TraefikTrimsRegex | pkg/controller/v1beta1/controller_test.go:106-153 | traefik: no path gives "/", "/v1/profiles/view/(.*)" gives "/v1/profiles/view" |
| RouteSynth.TLSCases | pkg/controller/v1beta1/controller_test.go:155-200 | TLS off gives no entry; on with foo.example.com gives secret foo.example.com-cert for that host |
| Converge.PreviousSpec | pkg/controller/controller.go:298-305 | an absent or empty snapshot annotation reads as the zero FunctionIngress; a non-empty one reads as whatever the decoder makes of it, so a decode error needs a non-empty snapshot |
| Converge.Decide | pkg/controller/controller.go:239-343 | a create, update or no-op needs a well-formed key whose FunctionIngress is cached, and is attributed to that object; writes go to the key's namespace |
| Converge.DecideFound | pkg/controller/controller.go:262-296 | create iff the Ingress named after the FunctionIngress is not found, crash iff its lookup fails otherwise; a created Ingress has the key's namespace and name; never dropped |
| Converge.DecideExisting | pkg/controller/controller.go:298-343 | a no-op iff the snapshot decodes to the current spec; an update only when the names agree, keeping the Ingress name and owner references; otherwise a returned error |
| Converge.MergeAnnotations | pkg/controller/controller.go:319-322 | the merge loop yields every existing key plus every computed key, computed values winning, other values kept |
| Converge.DropPaths | pkg/controller/controller.go:241-254 | the run is dropped iff the key is malformed or the FunctionIngress is not found; then nil, no write, no event |
| Converge.ListerErrorReturned | pkg/controller/controller.go:248-257 | any other FunctionIngress lister error is returned, with no write and no event |
| Converge.CrashOnIngressListerError | pkg/controller/v1/controller.go:105-150 | the handler panics iff the Ingress lookup fails with an error other than not-found; nothing is written |
| Converge.CreatePath | pkg/controller/controller.go:272-296 | a missing Ingress is created once, named after the key, with the synthesized annotations, rules and TLS and the FunctionIngress as controller owner; nil and Synced whatever the create returned |
| Converge.UpdatePath | pkg/controller/controller.go:298-342 | with a readable snapshot: a write happens iff specs differ and names agree, and the Ingress written is the updated one; equal specs are a no-op with Synced; differing names are the rename error; an update error is returned without Synced |
| Converge.MalformedSnapshot | pkg/controller/controller.go:300-305 | an undecodable snapshot is an unmarshal error and nothing is written |
| Converge.UpdateMergesAnnotations | pkg/controller/controller.go:315-325 | the updated Ingress keeps foreign annotations, sets every computed one, replaces rules and TLS, and keeps the rest of the metadata |
| Converge.MissingSnapshotIsRename | pkg/controller/controller.go:298-313 | an Ingress with no or empty snapshot, for a named FunctionIngress with a non-zero spec, always hits the rename guard |
| Converge.MatchingSnapshotIsNoOp | pkg/controller/controller.go:298-308 | when the snapshot decodes to the current spec, the run writes nothing and is a no-op |
| Converge.WrittenSnapshot | pkg/controller/controller.go:473-478 | both the created and the updated Ingress carry the encoding of the FunctionIngress under com.openfaas.spec |
| Converge.SecondReconcileIsNoOp | pkg/controller/controller.go:272-342 | after the cache stores what a create or update wrote, the next run for the same key is a no-op |
| EventRouter.ObjectKey | pkg/controller/controller.go:368-375 | the key of a FunctionIngress or Ingress is the namespace/name key of its metadata; other payloads have none |
| EventRouter.UpdateKey | pkg/controller/controller.go:128-140 | an update enqueues iff both objects are FunctionIngresses and the spec changed, and then the new object's key |
| EventRouter.OwnerToEnqueue | pkg/controller/controller.go:383-417 | a deletion enqueues only when the object (or tombstone's object) has a controller reference of kind FunctionIngress, and then the key of the cached owner that the reference names |
| EventRouter.OwnerToEnqueueCases | pkg/controller/controller.go:383-417 | a deletion enqueues iff it has a FunctionIngress controller reference and that owner is cached |
| EventRouter.OwnerToEnqueueIsOwnerKey | pkg/controller/controller.go:400-414 | in a well-keyed cache the enqueued key is the deleted object's namespace with the controller reference's name |
| EventRouter.DeletedIngressIsRecreated | pkg/controller/controller.go:383-417 | deleting a created Ingress whose owner is cached enqueues the owner's key, and the next run creates the same Ingress |
| WorkQueue.Queue.constructor | pkg/controller/controller.go:117 | a new queue is empty, valid and not shutting down |
| WorkQueue.Queue.Add | pkg/controller/controller.go:375 | not called at this line, but reached when the delaying queue releases the item that AddRateLimited scheduled (`Promote`): an item already dirty (or any item during shutdown) is ignored; otherwise it becomes dirty and is queued unless in flight; validity is kept |
| WorkQueue.Queue.Get | pkg/controller/controller.go:206-210 | the first pending item moves into flight and out of dirty, or shutdown is reported when nothing is pending; validity is kept |
| WorkQueue.Queue.Done | pkg/controller/controller.go:213 | the item leaves flight and is queued again iff it was re-added meanwhile |
| WorkQueue.Queue.Forget | pkg/controller/controller.go:217-224 | the item's failure count is cleared |
| WorkQueue.Queue.AddRateLimited | pkg/controller/controller.go:375 | one more failure is counted and the item is scheduled for a later add unless shutting down or already waiting |
| WorkQueue.Queue.Promote | pkg/controller/controller.go:375 | the delaying queue's release of what AddRateLimited scheduled at this line: the oldest delayed item goes through Add |
| IngressController.Controller.constructor | pkg/controller/controller.go:90-127 | a controller starts with the given listers, an empty queue (nothing pending, dirty, in flight, failed, delayed or forgotten) and no writes or events |
| IngressController.Controller.SyncHandler | pkg/controller/controller.go:239-343 | the handler's return value, writes and events are exactly those of Decide for the key |
| IngressController.Controller.SyncFound | pkg/controller/controller.go:262-296 | from the Ingress lookup on, return value, writes and events are those of DecideFound: create, crash, or compare |
| IngressController.Controller.SyncExisting | pkg/controller/controller.go:298-343 | with the existing Ingress, return value, writes and events are those of DecideExisting: decode error, no-op, rename error, or update |
| IngressController.Controller.ProcessNextWorkItem | pkg/controller/controller.go:205-234 | shutdown iff nothing is pending; otherwise the first item is handled, forgotten iff not a key or synced without error, always released, and never re-added here; the writes and events are those of Decide for the key |
| IngressController.Controller.EnqueueFunction | pkg/controller/controller.go:368-376 | a rate-limited add of the object's key, nothing for other payloads |
| IngressController.Controller.OnUpdate | pkg/controller/controller.go:128-140 | a rate-limited add of the key UpdateKey selects |
| IngressController.Controller.OnIngressDelete | pkg/controller/controller.go:143-145 | a rate-limited add of the owner key OwnerToEnqueue selects |
| Strconv.Atoi | pkg/server/apply.go:90 | success only for an optional sign followed by at least one digit (a bare sign is rejected), with a value in the int64 range; an unsigned numeral is non-negative |
| Strconv.AtoiAccepts | pkg/server/apply.go:90 | digits, optionally after '+' or '-', read back as their signed decimal value when it lies in the int64 range, and are rejected otherwise |
| Strconv.LeadingZeroValue | pkg/server/apply.go:90 | a leading zero does not change the decimal value of a digit string |
| Strconv.AtoiLeadingZeros | pkg/server/apply.go:90 | a leading zero does not change what Atoi returns |
| Strconv.AtoiDecimalString | pkg/server/apply.go:90 | every decimal rendering within int64 reads back as its value |
| Strconv.AtoiNegated | pkg/server/apply.go:90 | a leading '-' reads back as the negated value |
| Strconv.AtoiOutOfRange | pkg/server/apply.go:90 | a rendering above the int64 maximum is rejected |
| Apply.NarrowInt32 | pkg/server/apply.go:92 | the int32 conversion is congruent to its input mod 2^32 and is the identity on int32 values |
| Apply.Int32p | pkg/server/apply.go:112-114 | the pointer is non-nil and dereferences to its argument |
| Apply.GetMinReplicaCount | pkg/server/apply.go:86-100 | never nil; nil labels or a missing label give 1 |
| Apply.MinReplicaInvalid | pkg/server/apply.go:90-99 | a label that fails to parse or parses to at most 0 gives 1 |
| Apply.MinReplicaParsed | pkg/server/apply.go:90-92 | a label "n" with 1 <= n <= 2147483647 gives n |
| Apply.MinReplicaNarrowing | pkg/server/apply.go:90-92 | any label that Atoi reads as a positive n (with sign or leading zeros too) gives the int32 narrowing of n, which is at least 1 exactly when n mod 2^32 is in [1, 2^31) |
| Apply.MinReplicaSignAndZeros | pkg/server/apply.go:90-92 | "+5" gives 5 and "007" gives 7 |
| Apply.MinReplicaWraps | pkg/server/apply.go:90-92 | "2147483648" gives -2147483648 and "4294967297" gives 1 |
| Apply.GetResources | pkg/server/apply.go:102-110 | nil iff the input is nil; otherwise CPU and memory are copied |
| Apply.BuildFunction | pkg/server/apply.go:33-52 | object name and spec name are the service, replicas come from getMinReplicaCount of the request labels, environment is non-nil and is the request's, metadata labels are empty |
| Factory.FunctionToFunctionResources | pkg/controller/factory.go:45-59 | limits and requests are nil iff the spec's are; otherwise memory and CPU are copied |
| Factory.FunctionToFunctionRequest | pkg/controller/factory.go:25-43 | service is the object name, labels are the metadata labels, a nil environment becomes empty, secrets are dropped, the other fields are copied |
| Factory.ResourceRoundTrip | pkg/controller/factory.go:45-58 | getResources of the copied limits (requests) gives back the spec's limits (requests) |
| Factory.RequestRoundTrip | pkg/controller/factory.go:25-43 | a request applied and mapped back keeps service, image, process, env, constraints, annotations, resources and the read-only flag; labels become empty and secrets are lost |
| Factory.RequestRoundTripIsPartial | pkg/controller/factory.go:33-34 | so a request with labels or secrets is not recovered |
| Factory.FunctionRoundTrip | pkg/controller/factory.go:25-43 | a Function mapped to a request and applied again keeps image, handler, annotations, constraints, resources and flag; metadata labels move into the spec, secrets are lost |

## Left out

- The JSON marshaller and unmarshaller are not modelled; they are the `Snapshot.Codec` parameter, and the idempotence lemma assumes the round trip through `Snapshot.RoundTrips`.
- The exported helpers that the v1 and v1beta1 handlers call (`MakeAnnotations`, `GetClass`, `IngressNeedsUpdate`, `MakeOwnerRef`, `OpenfaasWorkloadPort`) are defined in a file that is not part of this model; they are taken to be the lowercase functions of controller.go, with port 8080.
- The v1alpha2 FunctionIngress type is not part of this model; all revisions use the v1 FunctionIngressSpec shape.
- The shared base controller of v1 and v1beta1 (its worker loop and event handlers) is not part of this model; the older controller's versions stand for them.
- Informers, concurrency, `Run`, worker goroutines and the stop channel are left out; the model runs one worker step at a time.
- The event broadcaster and logging are left out, except for the Synced events recorded on the handled object.
- `updateFunctionStatus` returns before doing anything, so it is left out.
- The "transient error" return after the update (controller.go:337-339) tests an error that is always nil there, so it is left out.
- The warning-event informer, which only logs, is left out.
- main.go, the HTTP server, and the HTTP and client part of `makeApplyHandler` (apply.go:17-31, 54-83) are left out.
- The `FunctionFactory` wrappers (factory.go:11-23, 61-73) are left out; they call faas-netes code that is not part of this model.
- Owner references carry kind, name, uid and the controller flag; the apiVersion and blockOwnerDeletion fields are left out.
- Ingress objects carry only metadata, rules and TLS; the other IngressSpec fields are left out.
- Cross-namespace `functionNamespace` addressing and issuer-kind-dependent annotation keys have no implementation in these sources, so they are left out.
- Nil and empty maps are not distinguished. Go would panic writing into a nil annotation map on the update path; the rename guard stops a named FunctionIngress before that write (`Converge.MissingSnapshotIsRename`).
- Converge.SecondReconcileIsNoOp: holds under `Snapshot.RoundTrips` and caches keyed by object namespace and name; the JSON encoding itself is not verified.
- Strconv.Atoi: the error values are plain strings, not Go's `*NumError`.
- Strconv.Atoi: Go's `int` is taken to be 64 bits wide, so the accepted range is that of int64.
- WorkQueue.Queue.AddRateLimited: the per-item exponential and overall token-bucket delays are not modelled; the delayed adds are kept in arrival order and released by `Promote`, whereas the delaying queue releases them by ready time. An item already waiting keeps its one entry, but the model keeps its earlier position instead of moving it to the sooner of the two ready times.
