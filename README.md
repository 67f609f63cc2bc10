# Coroot operator: reconciler and descriptor builders

A Dafny model of the core of the Coroot Kubernetes operator. The core has two parts.

**The reconciler** (`controller/controller.go`) has this state:

- the instance registry;
- the flag that records whether the legacy Deployment has been deleted;
- the live objects it reads and writes through the API client.

A pass over a `Coroot` resource does the following:

1. It registers the instance.
2. It applies the OpenShift SCC roles, the node agent and the cluster agent.
3. It stops there for an agents-only instance.
4. Otherwise it applies Coroot itself, deletes the legacy Deployment once, and creates or deletes the Ingress.
5. It applies the bundled Prometheus and ClickHouse unless external ones are configured.
6. It derives the status and the requeue from the validation errors.

Every object goes through `CreateOrUpdate`:

- the delete short-circuit;
- fetch;
- set or remove the controller owner reference, as the `retain` flag says;
- the kind's mutate closure;
- create or update.

A "not found" fetch removes the instance from the registry. It deletes the cluster agent's cluster-scoped RBAC objects when no instance is left.

**The descriptor builders** (`controller/coroot.go`, `controller/node_agent.go`) build the objects Coroot and its node agent run in:

- the Service, the storage claims, the Ingress and the legacy Deployment;
- the StatefulSet, with its ordered environment and its replica count;
- the shell heredoc that writes the projects configuration;
- the node-agent DaemonSet.

Each builder fills in defaults: port 8080, one replica, 10Gi and "15s".

Layout:

- `wrappers.dfy`: Option and Result.
- `strings.dfy`: `%d` rendering and `HasPrefix`.
- `k8s.dfy`: object keys, metadata and the per-kind object bodies.
- `api_types.dfy`: the `Coroot` resource and `Labels`.
- `apiserver.dfy`: the client. `Client` is a class whose `objects` map is the live store. `failing` is the set of keys whose calls fail, standing for transport errors. `writes` logs every create, update and delete issued.
- `engine.dfy`: `Apply`, the meaning of one `CreateOrUpdate` call as a function of the store; `Run`, a sequence of such calls; and their lemmas.
- `merge_policy.dfy`: the per-kind merge rules and idempotence, proved about `Apply`.
- `coroot.dfy` and `node_agent.dfy`: the builders.
- `controller.dfy`: the class `CorootReconciler`. Each `CreateOrUpdate<Kind>` method is proved to be one `Apply` of its call. Each phase of a pass is proved to leave the store and log exactly as `Run` of the list of calls the source makes (`AgentCalls`, `CorootCalls`, `PassCalls`, …).

## Model

| member | source | states |
|---|---|---|
| Controller.CorootReconciler.Reconcile | controller/controller.go:80-186 | A failed fetch returns its error and changes nothing; "not found" forgets the instance with no error and no requeue; a found instance is registered, and the store and log are exactly `Run` of `PassCalls`, the source's calls in order (the agent calls only, when agents-only), with no requeue and no status for agents-only, and otherwise the status and requeue of the validation errors, the flag set and exactly the deletes of the legacy Deployment and the Ingress |
| Controller.CorootReconciler.ForgetInstance | controller/controller.go:86-101 | The request leaves the registry; the cluster agent's ClusterRoleBinding and then its ClusterRole are deleted exactly when the registry is empty afterwards; otherwise store and log are untouched |
| Controller.CorootReconciler.DeleteClusterAgentRbac | controller/controller.go:93-98 | Two deletes, ClusterRoleBinding then ClusterRole, for the bare instance's names; the store loses each one the server holds and can reach |
| Controller.CorootReconciler.ReconcileFound | controller/controller.go:105-185 | The instance is registered; store and log are exactly `Run` of `PassCalls`; agents-only: no requeue, no status, only agent keys written, no deletes; full pass: status and requeue from the validation errors, flag set, exactly the legacy and Ingress deletes |
| Controller.CorootReconciler.ApplyPass | controller/controller.go:113-176 | Store and log are exactly `Run` of `PassCalls` from the old store; the log is as `PassLog` says; the flag is set exactly when the pass goes past the agents or it was set |
| Controller.CorootReconciler.PassLogged | controller/controller.go:113-176 | The calls of a pass log only agent keys and no delete under agents-only, and otherwise exactly the legacy Deployment delete (while the flag is unset) and then the Ingress delete (without an Ingress spec) |
| Controller.CorootReconciler.ServerDeletes | controller/controller.go:132-176 | The server calls' deletes are exactly the legacy Deployment (while the flag is unset) and then the Ingress (without an Ingress spec) |
| Controller.CorootReconciler.CorootDeletes | controller/controller.go:132-144 | Coroot's own calls delete exactly the legacy Deployment (while the flag is unset) and then the Ingress (without an Ingress spec) |
| Controller.CorootReconciler.AgentCallsDeleteNothing | controller/controller.go:113-125 | The agent calls contain no delete |
| Controller.CorootReconciler.WorkloadDeletesNothing | controller/controller.go:132-139 | The Coroot workload calls contain no delete |
| Controller.CorootReconciler.PrometheusDeletesNothing | controller/controller.go:146-153 | The Prometheus calls contain no delete |
| Controller.CorootReconciler.ClickhouseDeletesNothing | controller/controller.go:155-176 | The ClickHouse calls contain no delete |
| Controller.CorootReconciler.ApplyAllAgents | controller/controller.go:113-125 | Store and log are exactly `Run` of the SCC-role, node-agent and cluster-agent calls, in the source's order |
| Controller.CorootReconciler.ApplySccRoles | controller/controller.go:113-114 | Store and log are exactly `Run` of the two SCC role applies, nonroot then privileged |
| Controller.CorootReconciler.ApplyAgents | controller/controller.go:119-125 | Store and log are exactly `Run` of the node-agent calls followed by the cluster-agent calls |
| Controller.CorootReconciler.ApplyNodeAgent | controller/controller.go:119-120 | Store and log are exactly `Run` of service account `<name>-node-agent`, its privileged SCC binding and `NodeAgentDaemonSetOf` merged with MergeSpecs |
| Controller.CorootReconciler.ApplyClusterAgent | controller/controller.go:122-125 | Store and log are exactly `Run` of the cluster agent's service account, SCC binding, retained ClusterRole, retained ClusterRoleBinding and Deployment |
| Controller.CorootReconciler.ApplyServer | controller/controller.go:132-176 | Store and log are exactly `Run` of Coroot's, Prometheus's and ClickHouse's calls; the flag is set; the registry is unchanged |
| Controller.CorootReconciler.ApplyCoroot | controller/controller.go:132-144 | Store and log are exactly `Run` of the workload calls, the legacy delete while the flag was unset, and the Ingress (a delete without an Ingress spec); the flag is set afterwards |
| Controller.CorootReconciler.DeleteLegacyDeploymentOnce | controller/controller.go:140-143 | The legacy Deployment is deleted exactly when the flag was unset, and the flag is set afterwards |
| Controller.CorootReconciler.DeleteLegacyDeployment | controller/controller.go:141 | A plain delete has the effect of one apply with `delete` set |
| Controller.CorootReconciler.ApplyCorootWorkload | controller/controller.go:132-139 | Store and log are exactly `Run` of service account `<name>-coroot`, the claims, the ConfigMap, `CorootStatefulSetOf` and `CorootService`, in order |
| Controller.CorootReconciler.ApplyCorootData | controller/controller.go:133-135 | Store and log are exactly `Run` of one apply per claim of `CorootClaims`, under the storage reclaim policy |
| Controller.CorootReconciler.ApplyCorootStatefulSet | controller/controller.go:138 | Store and log are exactly one apply of `CorootStatefulSetOf` restoring the live claim templates |
| Controller.CorootReconciler.ApplyPVCs | controller/controller.go:133-135 | The loop over claims leaves store and log exactly as `Run` of one apply per claim, in order |
| Controller.CorootReconciler.ApplyStatefulSets | controller/controller.go:170-172 | The loop over StatefulSets leaves store and log exactly as `Run` of one apply per StatefulSet, in order |
| Controller.CorootReconciler.ApplyPrometheus | controller/controller.go:146-153 | Store and log are exactly `Run` of the Prometheus service account, claim, Deployment and Service without an external Prometheus, and unchanged with one |
| Controller.CorootReconciler.ApplyClickhouse | controller/controller.go:155-176 | Store and log are exactly `Run` of the keeper calls and then the server calls without an external ClickHouse, and unchanged with one |
| Controller.CorootReconciler.ApplyClickhouseKeeper | controller/controller.go:156-163 | Store and log are exactly `Run` of the password secret (one key, 16 characters, not retained), the keeper's service account, headless Service, claims and StatefulSet |
| Controller.CorootReconciler.ApplyClickhouseServer | controller/controller.go:165-173 | Store and log are exactly `Run` of the ClickHouse service account, headless Service, claims, StatefulSets and Service |
| Controller.StatusFor | controller/controller.go:178-185 | Non-empty errors give "Misconfigured" with those errors and a one-minute requeue; none give "OK", nil errors and no requeue |
| Controller.BareCoroot | controller/controller.go:94-96 | The instance built from the request alone is owned under the request's name and namespace |
| Controller.CorootReconciler.CreateOrUpdate | controller/controller.go:188-216 | The new store and log are exactly those of `Apply`; only the object's key is written; there is a delete exactly when `delete` is set |
| Controller.CorootReconciler.RunMutation | controller/controller.go:253-339 | Running a closure gives exactly the `Mutate` result of its kind |
| Controller.CorootReconciler.FillSecretData | controller/controller.go:240-250 | The loop over keys gives `FillMissing`: existing keys keep their values, missing ones get their random value |
| Controller.CorootReconciler.GetSecret | controller/controller.go:218-231 | Success exactly when the secret can be fetched and holds the key, and then the value is the stored one |
| Controller.CorootReconciler.CreateOrUpdateSecret | controller/controller.go:233-251 | An empty key list changes nothing; otherwise exactly one apply of `SecretCall`: the secret is applied with the fill-missing closure; only the secret's key is written and nothing is deleted |
| Controller.CorootReconciler.CreateOrUpdateConfigMap | controller/controller.go:253-259 | Exactly one apply of `ConfigMapCall`: without retain; the closure only sets BinaryData to the desired one, so the rest of a live ConfigMap stays as it is |
| Controller.CorootReconciler.CreateOrUpdateDeployment | controller/controller.go:261-266 | Exactly one apply of `DeploymentCall`: without retain, MergeSpecs with nil annotations; only its key is written, no delete |
| Controller.CorootReconciler.CreateOrUpdateDaemonSet | controller/controller.go:268-273 | Exactly one apply of `DaemonSetCall`: without retain, MergeSpecs with nil annotations; only its key is written, no delete |
| Controller.CorootReconciler.CreateOrUpdateStatefulSet | controller/controller.go:275-283 | Exactly one apply of `StatefulSetCall`: without retain, restoring the fetched claim templates after the merge |
| Controller.CorootReconciler.CreateOrUpdatePVC | controller/controller.go:285-291 | Exactly one apply of `PvcCall`: retained exactly when the reclaim policy is "Retain", MergeSpecs with nil annotations |
| Controller.CorootReconciler.CreateOrUpdateService | controller/controller.go:293-301 | Exactly one apply of `ServiceCall`: MergeSpecs with the captured annotations (nil when the builder sets none), then the desired ports are restored |
| Controller.CorootReconciler.CreateOrUpdateServiceAccount | controller/controller.go:303-311 | `<name>-<component>` is applied, then the component's SCC role binding; the store and log are the two applies in sequence |
| Controller.CorootReconciler.CreateOrUpdateRole | controller/controller.go:313-319 | Exactly one apply of `RoleCall`: without retain, restoring the desired rules |
| Controller.CorootReconciler.CreateOrUpdateClusterRole | controller/controller.go:321-327 | Exactly one apply of `ClusterRoleCall`: always with retain, restoring the desired rules |
| Controller.CorootReconciler.CreateOrUpdateClusterRoleBinding | controller/controller.go:329-331 | Exactly one apply of `ClusterRoleBindingCall`: always with retain and no mutation |
| Controller.CorootReconciler.CreateOrUpdateIngress | controller/controller.go:333-339 | Exactly one apply of `IngressCall`: deleted when `delete` is set (the only delete then); otherwise MergeSpecs with the captured annotations (nil when the builder sets none) |
| Controller.ServiceAccountObject | controller/controller.go:303-308 | The service account's key is `<name>-<component>` in the instance namespace |
| CorootApi.Labels | controller/controller.go:358-365 | Exactly the three recommended labels: managed-by coroot-operator, part-of the instance name, and the component |
| CorootApi.LabelsDistinguish | controller/controller.go:358-365 | Two label sets are equal exactly when the instance names and the components are |
| Engine.Apply | controller/controller.go:188-216 | One `CreateOrUpdate` call as a function of the store (see the lemmas below) |
| Engine.SetControllerReference | controller/controller.go:201-202 | Only the controller reference changes; the instance ends up as controller exactly when it already was, or the namespaces fit and there was none |
| Engine.RemoveControllerReference | controller/controller.go:198-199 | Only the controller reference changes; whatever the namespaces (cluster-scoped objects included), the instance is no longer the controller afterwards, and nothing changes when it was not |
| Engine.FillMissing | controller/controller.go:241-248 | The keys become the old ones plus the requested ones; old values are kept; every new value is one of the random values |
| Engine.Mutate | controller/controller.go:253-339 | A successful closure keeps the object's key and controller reference |
| Engine.MergeStep | controller/controller.go:264 | A successful merge keeps the key and all metadata but the annotations |
| Engine.ConvergedStoresOutcome | controller/controller.go:203-211 | A converged apply stores exactly what the closure made of the live (or desired) object |
| Engine.DeleteShortCircuits | controller/controller.go:190-196 | With `delete` there is exactly one delete and no create or update; it succeeds exactly when the object exists and can be reached |
| Engine.ApplyFrame | controller/controller.go:188-216 | No other object of the store changes |
| Engine.ApplyWrites | controller/controller.go:203-211 | Without `delete` at most one write: a create exactly when absent, an update exactly when present and changed, nothing when unchanged |
| Engine.ApplyLog | controller/controller.go:188-216 | Every write is for the descriptor's key; the only delete is the short-circuit one |
| Engine.OwnershipFollowsRetain | controller/controller.go:198-202 | With retain the stored object never has the instance as controller, for cluster-scoped objects too, and another controller is kept; without retain it becomes controller unless another owner holds it, and a namespace mismatch leaves the controller as it was |
| Engine.Run | controller/controller.go:113-176 | The calls of a pass one after the other, each one `Apply` on the store the previous ones left (see the lemmas below) |
| Engine.RunKeepsKeys | controller/controller.go:113-176 | A sequence of calls keeps every object under its own key |
| Engine.ApplyKeepsKeys | controller/controller.go:188-216 | One call keeps every object under its own key |
| Engine.RunLogged | controller/controller.go:113-176 | The writes of a sequence of calls are only for its descriptors' keys, and its deletes are exactly its delete calls, in order |
| Engine.RunFrame | controller/controller.go:113-176 | An object none of the calls names is left as it was |
| Engine.RunLast | controller/controller.go:113-176 | When no later call names a descriptor's key, the final entry for it is what its own apply made of the store it met |
| Engine.RunConcat | controller/controller.go:113-176 | Two sequences of calls in a row are the second run on what the first left, with the logs concatenated |
| Engine.RunSnoc | controller/controller.go:113-176 | One more call is one more `Apply` on what the calls before it left |
| Engine.RunOne | controller/controller.go:188-216 | A single call is one `Apply` |
| Engine.RunThenApply | controller/controller.go:113-176 | Calls followed by one more apply give the run of the longer sequence from the first store and log |
| Engine.RunThenRun | controller/controller.go:113-176 | Calls followed by more calls give the run of the concatenation from the first store and log |
| Engine.RunPrefixThenApply | controller/controller.go:133-135 | The first `i` calls and then call `i` give the run of the first `i + 1` calls |
| Engine.RunDeletes | controller/controller.go:113-176 | A delete-free prefix followed by calls deleting `deleted` adds exactly `deleted` to the log's deletes |
| Engine.StepDeletesConcat | controller/controller.go:113-176 | The delete calls of a concatenation are those of each part, in order |
| Engine.StepDeletesNone | controller/controller.go:113-176 | Calls none of which deletes have no delete calls |
| Engine.DeletesAfter | controller/controller.go:132-144 | After a delete-free prefix, the delete calls of the rest are those of each part, in order |
| Engine.NoDeletesConcat | controller/controller.go:146-176 | Two delete-free sequences of calls make a delete-free sequence |
| MergePolicy.ServiceTakesDesiredPorts | controller/controller.go:293-301 | After a converged Service apply the stored ports are the desired ones, whatever MergeSpecs returned |
| MergePolicy.StatefulSetKeepsClaims | controller/controller.go:275-283 | After a converged StatefulSet apply the claim templates are those of the live object (the desired ones on create) |
| MergePolicy.ConfigMapTakesDesiredBinaryData | controller/controller.go:253-259 | After a converged ConfigMap apply the binary data is the desired one and the data is the live one |
| MergePolicy.RoleTakesDesiredRules | controller/controller.go:313-327 | After a converged Role or ClusterRole apply the stored rules are the desired ones |
| MergePolicy.RetainedClusterScopedReleased | controller/controller.go:321-331 | After a converged apply of a ClusterRole or ClusterRoleBinding, which are always retained, the instance is not their controller, although they are cluster-scoped and the instance is namespaced |
| MergePolicy.SecretKeepsExistingKeys | controller/controller.go:233-251 | After a converged Secret apply every existing key keeps its value; the keys are the old plus the requested ones; new values are random values |
| MergePolicy.FillMissingNoop | controller/controller.go:244-248 | A secret holding every requested key is left as it is |
| MergePolicy.OwnIdempotent | controller/controller.go:198-202 | Setting or removing the controller reference twice is the same as once |
| MergePolicy.MutateStable | controller/controller.go:233-259 | A merge-free closure run again on its own result changes nothing, and a Secret does so even with fresh random values |
| MergePolicy.ApplyTwiceUnchanged | controller/controller.go:188-216 | A second apply of the same merge-free descriptor writes nothing and leaves the store as it was |
| ApiServer.Lookup | controller/controller.go:188-216 | Found exactly when reachable and present, with the stored object; failed exactly when unreachable |
| ApiServer.LoggedTrans | controller/controller.go:113-176 | Consecutive logged segments compose: the written keys are united and the deletes concatenated |
| ApiServer.ExtendsTrans | controller/controller.go:132-176 | Consecutive log extensions compose, with their deletes concatenated |
| ApiServer.LoggedAppend | controller/controller.go:188-216 | Appending one call's writes for a key logs only that key, with exactly that call's deletes |
| ApiServer.DeletedKeys | controller/controller.go:188-216 | A key is among the deletes of a log exactly when the log holds a delete of it |
| ApiServer.DeletedKeysAppend | controller/controller.go:188-216 | The deletes of two logs in sequence are the deletes of each, in order |
| ApiServer.Client.Get | controller/controller.go:218-231 | The result is the store lookup |
| ApiServer.Client.Delete | controller/controller.go:192-196 | One delete is logged; the object is gone exactly when it was present and reachable |
| CorootBuilders.CorootService | controller/coroot.go:19-49 | `<name>-coroot` with the coroot labels as labels and selector; exactly one port "http", 8080 when the spec port is 0, the spec's node port, target "http" |
| CorootBuilders.CorootPVCs | controller/coroot.go:51-84 | The loop builds exactly `CorootClaims`; claim i is `data-<name>-coroot-<i>`; one claim when replicas is 0, none when negative, otherwise one per replica; single-writer access; 10Gi when the size is zero |
| CorootBuilders.ClaimNamesDistinct | controller/coroot.go:67 | Two claim names are equal exactly when their replica numbers are |
| CorootBuilders.NormalizePath | controller/coroot.go:99-102 | The path starts with "/"; one that already does is kept, another gets "/" in front |
| CorootBuilders.CorootIngress | controller/coroot.go:86-129 | Without an Ingress spec a bare object with no rules; with one its annotations and class, one rule for its host with one Prefix path (normalised) to `<name>-coroot` port "http", and one TLS entry exactly when TLS is set |
| CorootBuilders.CorootDeployment | controller/coroot.go:131-141 | The legacy Deployment is `<name>-coroot` with the coroot labels |
| CorootBuilders.CorootStatefulSet | controller/coroot.go:143-298 | Exactly `CorootStatefulSetOf`, the object the reconciler applies: `<name>-coroot` with the coroot labels, `StatefulSetReplicas` replicas, one "data" claim template, the pod annotations, service account and tolerations, the edition's image on the init and main containers, the config heredoc as init command and `CorootEnv` as environment |
| CorootBuilders.CorootPod | controller/coroot.go:245-295 | Exactly `CorootPodOf`: one init container running the config command, one Coroot container with the given environment, both with the image; the service account `<name>-coroot` and the spec's tolerations |
| CorootBuilders.StatefulSetReplicas | controller/coroot.go:225-228 | Always in 1..2^31-1; for a value within int32, 1 when it is not positive and the value otherwise |
| CorootBuilders.Int32 | controller/coroot.go:225 | Go's `int32(x)`: in range, unchanged when already in range |
| CorootBuilders.Int32Congruent | controller/coroot.go:225 | The conversion moves a value only by multiples of 2^32 |
| CorootBuilders.FixedAndUserEnv | controller/coroot.go:153-175 | The refresh interval, Prometheus URL and installation type, then the optional variables, then the user's variables in order |
| CorootBuilders.CorootEnvVars | controller/coroot.go:153-223 | The environment loop builds exactly `CorootEnv` |
| CorootBuilders.CorootEnvLayout | controller/coroot.go:153-175 | The first three variables are GLOBAL_REFRESH_INTERVAL ("15s" when the duration is zero), GLOBAL_PROMETHEUS_URL and INSTALLATION_TYPE; the user's variables follow the optional ones, unchanged and in order |
| CorootBuilders.OptionalEnvOrder | controller/coroot.go:163-171 | CACHE_TTL, AUTH_ANONYMOUS_ROLE and AUTH_BOOTSTRAP_ADMIN_PASSWORD each appear exactly when their setting is set, in that order |
| CorootBuilders.DefinesCorootEnv | controller/coroot.go:153-223 | A name is defined by the environment exactly when one of its segments defines it |
| CorootBuilders.LicenseKeyOnlyForEnterprise | controller/coroot.go:176-182 | LICENSE_KEY is defined exactly for the enterprise edition, unless the user sets it |
| CorootBuilders.PasswordVar | controller/coroot.go:190-196 | A password comes from the secret reference when one is set and from the plain value otherwise |
| CorootBuilders.InternalClickhouseEnv | controller/coroot.go:197-207 | With the bundled ClickHouse the address is `<name>-clickhouse.<ns>:9000` and the password comes from the `<name>-clickhouse` secret |
| CorootBuilders.PostgresPasswordPrecedesConnectionString | controller/coroot.go:209-219 | With Postgres, PG_PASSWORD comes right before PG_CONNECTION_STRING |
| CorootBuilders.UrlBasePathOnlyWithPath | controller/coroot.go:221-223 | URL_BASE_PATH is defined exactly when an Ingress with a non-empty path is set, unless the user sets it |
| CorootBuilders.BuilderInitials | controller/coroot.go:153-223 | The first letters of the names each builder segment uses |
| CorootBuilders.DefinesConcat | controller/coroot.go:153-223 | A name is defined by two lists in sequence exactly when it is defined by one of them |
| CorootBuilders.AvoidedInitial | controller/coroot.go:153-223 | A name whose first letter no variable of the list starts with is not defined there |
| CorootBuilders.CorootConfigCmd | controller/coroot.go:300-304 | The command is `cat <<EOF > ` + file + the rendered configuration + `EOF` |
| CorootBuilders.WriteApiKeys | controller/coroot.go:311-314 | The inner template range writes exactly the rendering of the keys |
| CorootBuilders.RenderedProjectAt | controller/coroot.go:306-316 | Project i's name and keys are rendered right after the projects before it |
| CorootBuilders.RenderedApiKeyAt | controller/coroot.go:311-314 | Key i's key and description are rendered right after the keys before it |
| CorootBuilders.RenderProjectsConcat | controller/coroot.go:306-316 | Rendering a concatenation of projects gives the two renderings one after the other |
| CorootBuilders.RenderApiKeysConcat | controller/coroot.go:311-314 | Rendering a concatenation of keys gives the two renderings one after the other |
| CorootBuilders.RenderProjectsAppend | controller/coroot.go:308-315 | One more project adds its block at the end |
| CorootBuilders.RenderApiKeysAppend | controller/coroot.go:311-314 | One more key adds its lines at the end |
| NodeAgent.CollectorEndpoint | controller/node_agent.go:22-25 | `http://<name>-coroot.<ns>:8080`, or the agents-only Coroot URL when agents-only is set |
| NodeAgent.MountsMatchVolumes | controller/node_agent.go:62-101 | Exactly four volumes (cgroupfs, tracefs, debugfs, tmp), each mounted under its own name, only cgroupfs read-only |
| NodeAgent.NodeAgentDaemonSet | controller/node_agent.go:12-107 | Exactly `NodeAgentDaemonSetOf`, the object the reconciler applies: `<name>-node-agent` with the node-agent labels, with HostPID, a single Exists toleration, the spec's priority class and update strategy, the four volumes, and one privileged container with the node-agent image, the cgroup root argument and the mounts. Its environment is COLLECTOR_ENDPOINT, API_KEY, SCRAPE_INTERVAL ("15s" for a zero duration), then the user's variables in order |
| Strings.NatToString | controller/coroot.go:67 | `%d`: at least one digit, all digits, one digit exactly below ten |
| Strings.NatToStringInjective | controller/coroot.go:67 | Different numbers have different renderings |
| Strings.SamePrefixDistinct | controller/coroot.go:67 | Strings with the same prefix are equal exactly when the rests are |

## Left out

- The version-refresher goroutine and the mutexes (controller/controller.go:51-64) are left out. The model is sequential, so the registry is plain state.
- `SetupWithManager` is left out. It is controller-runtime wiring.
- The deferred `Status().Update` is left out. It is I/O whose error is ignored. The status a pass assigns is returned instead, with None when nothing is assigned.
- Several helpers are not part of this model and are parameters of the reconciler (`Builders`): `MergeSpecs`, `getAppImage`, `validateCoroot`, `postgresConnectionString`, `corootConfigMap`, `clickhousePasswordSecret`, and the `openshiftSCC*`, `clusterAgent*`, `prometheus*` and `clickhouse*` builders.
- `validateCoroot` takes the context and the reconciler (controller/controller.go:117), and its body is not part of this model. It is modelled as a function of the instance alone, which takes for granted that whatever it may read (Secrets, for instance) is not written by the agent calls. On that basis the model calls it after the agent calls rather than between the SCC roles and the node agent. The `ConfigEnvs` it fills are not modelled.
- `RandomString` is an input: the caller supplies one value of the requested length per key.
- Fetching the `Coroot` resource is an input of `Reconcile`, as found, not found or failed.
- Transport failures are the `failing` set. Conflicts, retries and server-side defaulting are not modelled. Cluster-allocated fields are carried by MergeSpecs, which is a parameter.
- Only the controller owner reference is modelled. Other owner references and finalizers are not.
- `controller.go` calls `corootStatefulSet` with a config-env list and a config hash (controller/controller.go:138), but `coroot.go` defines it with the instance alone (controller/coroot.go:143). The one-argument definition is modelled, and the config hash is not.
- `CorootStatus` has no `Status` or `Errors` fields (api/v1/coroot_types.go:229-240), although controller.go assigns them. Status is modelled as a (state, errors) pair.
- Durations are their length plus the text `Duration.String()` gives. The formatting itself is not modelled.
- `text/template` is modelled only as the one template it renders here.
- `Percent` (api/v1/common.go) is not modelled. It is float parsing and formatting.
- Secret values are strings. Their byte encoding is not modelled.
- Container fields that these builders copy through unchanged are not modelled: resources, affinity, probes, ports, security contexts other than privileged, and the image pull policy.
- CorootBuilders.CorootStatefulSet: does not state container names, fixed arguments, mounts, ports or probes.
- CorootBuilders.CorootPod: does not state container names, fixed arguments, mounts, ports or probes.
- CorootBuilders.CorootDeployment: states the key and labels only. The body is empty, because the object is only ever deleted.
- Idempotence (MergePolicy.ApplyTwiceUnchanged) is proved only for the closures that do not call MergeSpecs, because MergeSpecs is a parameter.
- With `Spec.Ingress` unset, the Ingress is applied with `delete` set. The model issues the delete whatever the store holds, as the source does.
- Engine.MergeStep: MergeSpecs is a parameter taken to change only the annotations and the spec of an object of the same kind. A MergeSpecs that touched other metadata, the kind or the controller reference is not modelled; Engine.Mutate and Engine.OwnershipFollowsRetain rely on that restriction.
- Engine.Mutate: keeps the key and the controller reference only under the MergeSpecs restriction above.
- Engine.OwnershipFollowsRetain: holds under the MergeSpecs restriction above.
- MergePolicy.StatefulSetKeepsClaims: the closure saves the live claim templates with `VolumeClaimTemplates[:]` (controller/controller.go:278), which shares the backing array with the live object. The model saves a copy, so a MergeSpecs that overwrote the shared elements in place is not modelled.
- Nil and empty annotation maps are one value in the model. A builder that sets no annotations hands MergeSpecs nil (`None`), and an empty map stands for nil.
- CreateOrUpdate logging and `OperationResult` reporting are left out. They are log output only.
- The code keeps the desired ConfigMap BinaryData after the merge (controller/controller.go:253-259). The model does the same.
- GetSecret's error texts: the text for a failed fetch stands for whatever the client returns.
