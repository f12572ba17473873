# shortlist-runner provisioning core, modelled in Dafny

The runner takes a profile submission over HTTP (`POST /api/v1/profiles`). It
validates the submission, then provisions a Kubernetes workload for it. Every
submission gets one ConfigMap holding the submitted data and one Job whose pod
mounts that ConfigMap. Both objects share one name. The runner answers with
the Job's name.

The model covers four parts of the code:

- `K8sRepository.Create` (repo.go) is the canonical sequencer. It derives the
  name `assessor-<uuid>`, creates the ConfigMap holding the encoded profile
  under `data.json`, then creates the Job, whose single `assessor` container
  mounts that ConfigMap at `/etc/shortlist/profile`. A second pass makes the
  Job the ConfigMap's owner: it writes an owner reference carrying the Job's
  UID and updates the ConfigMap.
- `CreateJob` (run.go) is the older sequencer. The name is the bare uuid, the
  ConfigMap holds the text under `text`, the namespace is `reticle`, and the
  pod has two containers (`assessor`, which alone mounts the ConfigMap, then
  `relay`). There is no owner pass.
- `ValidateProfile` (data.go) is the one required-field check.
- `HandleProfiles` (profiles.go) is the decode → validate → create cascade and
  the HTTP status and body it produces.

The Kubernetes API is an abstract control plane: a class `Kube.ControlPlane`
with maps from (namespace, name) to ConfigMap and to Job, a log of every call
it received, and a counter that hands out UIDs. Which calls fail for outside
reasons (network, quota, admission) is fixed in advance by the set `faults` of
call numbers; a faulted call is logged as failed and changes nothing else.
Apart from those faults, a create fails when the name is already
taken and an update fails when the object is missing.

Each control-plane method is proved equal to a pure step function on a
`ClusterState` snapshot. Each sequencer is written twice:

- a pure `Provision` function over snapshots, about which the lemmas are
  proved;
- a method (`Repository.Create`, `LegacyRun.CreateJob`) that makes the same
  calls on the class, with the same early returns, and is proved to leave the
  control plane exactly as `Provision` says.

The lemmas prove the following properties:

- The call log only grows.
- No call follows a failed one.
- The Job is submitted only after its ConfigMap was created, and it mounts that
  ConfigMap by the name the control plane returned.
- The owner reference is written only after the Job create returned its UID,
  and it carries that UID (`Repository.OwnerLinkAfterJob`).
- A failure rolls nothing back.
- Both objects share the derived name, and the returned name is the one the
  created Job reports.
- In the running pod, the assessor can read the submitted data at the path its
  environment advertises.

The handler's decision is a pure function, `Handlers.ProfilesResponse`. It
takes the job creator as a parameter, so it fits both the shipped handler
(which calls `CreateJob`) and the injected-repository handler the tests use.
The success body is the JSON encoder's output, written by a model of Go's
string escaping (`JsonText`, HTML escaping on, as `json.NewEncoder` does by
default). The escapes follow Go 1.22 and later, which write U+0008 and U+000C
as `\b` and `\f`; earlier releases write `\u0008` and `\u000c`. A decoder, `IdOfBody`, is proved to read the original id back out of
every success body.

Inputs that the Go code obtains by side effect are parameters of the model:

- the environment is a `Config` record, with `ConfigFromEnviron` standing for
  `os.Getenv`, which gives "" for an unset variable;
- the uuid is a string;
- the result of building a clientset is a `Connection` value;
- the profile encoder is a function parameter;
- the decoded request is a `Result<Profile, string>`, where the string is the
  decoder's error message.

Error values record which step failed (`ConfigMapCreateFailed`,
`JobCreateFailed`, ...). Go returns the bare error; the tag only makes the
contracts readable and changes no control flow.

The restart policy differs between the sequencers. repo.go:86 sets
`RestartPolicy: "Never"` (`AssessorPod` ensures `restartPolicy == "Never"`);
run.go:75-78 leaves it unset (`RunPod` ensures `restartPolicy == ""`).

## Model

| member | source | states |
|---|---|---|
| Repository.ResourceName | internal/jobs/repo.go:26-27 | the name is "assessor-" followed by the uuid, with nothing else |
| Repository.ResourceNameInjective | internal/jobs/repo.go:26-27 | different uuids give different names, so two submissions never share a resource set |
| Repository.ResourceNameIsDnsLabel | internal/jobs/repo.go:26-27 | the name of a uuid in canonical text form is a valid DNS label (1-63 lower-case alphanumerics or '-', alphanumeric at both ends) |
| Repository.ConfigFromEnviron | internal/jobs/repo.go:63-78 | each of NOTIFIER_URL, LLM_SYSTEM_PROMPT, LLM_POSITIVE_RESPONSE_REGEX and ASSESSOR_IMAGE is taken from the environment when set, and is "" when unset |
| Repository.ProfileConfigMap | internal/jobs/repo.go:33-36 | the ConfigMap is named by the shared name and has exactly one data entry, "data.json", holding the encoded profile |
| Repository.AssessorEnv | internal/jobs/repo.go:58-75 | exactly four variables in fixed order: PROFILE_PATH="/etc/shortlist/profile/data.json", then NOTIFIER_URL, LLM_SYSTEM_PROMPT and LLM_POSITIVE_RESPONSE_REGEX from the environment |
| Repository.AssessorPod | internal/jobs/repo.go:43-87 | one container "assessor" with the configured image and that environment; its one mount "profile" is at /etc/shortlist/profile; the one volume "profile" names the given ConfigMap; restart policy "Never" |
| Repository.AssessorJob | internal/jobs/repo.go:88-95 | the Job is named by the shared name and runs that pod |
| Repository.JobOwnerReference | internal/jobs/repo.go:102-107 | the reference is {batch/v1, Job, jobName, uid} with the Job's UID |
| Repository.WithOwner | internal/jobs/repo.go:109 | the owner references become exactly the one reference; data and all other metadata are unchanged |
| Repository.ProfileReadable | internal/jobs/repo.go:43-61 | once the ConfigMap exists, the assessor's PROFILE_PATH names a file its mount exposes, and that file's content is the encoded profile |
| Repository.Provision | internal/jobs/repo.go:33-115 | a run makes between one and three calls, appends them to the log without touching earlier entries, returns the derived name on success, and keeps the store well formed |
| Repository.ProvisionSteps | internal/jobs/repo.go:33-115 | for each failing step (ConfigMap create, Job create, ConfigMap update) and for success: the exact calls made in order, the objects then stored (earlier creations are kept, nothing is rolled back), and the error or the returned name |
| Repository.ProvisionOrderly | internal/jobs/repo.go:38-113 | the log only grows; no call follows a failed one; the Job is submitted after its ConfigMap was created in the same namespace; success exactly when all three calls were made and the last succeeded |
| Repository.ProvisionedOrderly | internal/jobs/repo.go:38-113 | the step-by-step account of a run implies the ordering property above |
| Repository.ProvisionLinked | internal/jobs/repo.go:97-115 | on success the returned name is the derived name; the ConfigMap's only owner is the Job, by a UID no other Job has; the assessor reads the encoded profile at PROFILE_PATH |
| Repository.OwnerLinkAfterJob | internal/jobs/repo.go:97-113 | every ConfigMap update of a run is its third call; the second call was a successful create of the Job by that name, which is stored; the update's only owner reference is that Job's, with the UID the control plane gave it |
| Repository.Create | internal/jobs/repo.go:20-116 | with no client or a failed encoding, an error and no call on the control plane; otherwise the control plane ends exactly as `Provision` says, so the three lemmas above hold of the real run |
| LegacyRun.ConfigFromEnviron | internal/jobs/run.go:64-74 | ASSESSOR_IMAGE and RELAY_IMAGE are taken from the environment when set, and are "" when unset |
| LegacyRun.TextConfigMap | internal/jobs/run.go:40-43 | the ConfigMap is named by the uuid and has exactly one data entry, "text", holding the profile text |
| LegacyRun.RunPod | internal/jobs/run.go:50-78 | containers "assessor" (/opt/reticle/assessor, ASSESSOR_IMAGE) then "relay" (/opt/reticle/relay, RELAY_IMAGE); only the assessor mounts "assessor-config", at /etc/reticle/assessor; the one volume names the given ConfigMap; no environment; restart policy unset |
| LegacyRun.RunJob | internal/jobs/run.go:79-86 | the Job is named by the uuid and runs that pod |
| LegacyRun.TextReadable | internal/jobs/run.go:50-78 | once the ConfigMap exists, the assessor reads the text at /etc/reticle/assessor/text, and the relay can read no file at all |
| LegacyRun.Provision | internal/jobs/run.go:40-93 | a run makes one or two calls, appends them to the log without touching earlier entries, returns the uuid name on success, and keeps the store well formed |
| LegacyRun.ProvisionSteps | internal/jobs/run.go:40-93 | for a failed ConfigMap create, a failed Job create and success: the exact calls in order, the objects stored (the ConfigMap stays when the Job create fails), and the error or the returned name |
| LegacyRun.ProvisionOrderly | internal/jobs/run.go:45-91 | the log only grows; no call follows a failed one; the Job follows its ConfigMap; success exactly when both calls were made and the second succeeded |
| LegacyRun.ProvisionedOrderly | internal/jobs/run.go:45-91 | the step-by-step account of a run implies the ordering property above |
| LegacyRun.ProvisionReadable | internal/jobs/run.go:88-93 | on success the returned name is the uuid, both objects exist under it, and the assessor can read the text |
| LegacyRun.CreateJob | internal/jobs/run.go:31-94 | the text must be present; with no client, an error and no call on the control plane; otherwise the control plane ends exactly as `Provision` says, under namespace "reticle" |
| UuidText.UuidIsDnsLabel | internal/jobs/run.go:37-38 | a uuid in canonical text form, the older sequencer's name, is a valid DNS label |
| Kube.CreateConfigMapStep | internal/jobs/repo.go:38 | a create succeeds exactly when the call is not a fault and the name is free; the call is logged; on success the stored object is the submitted one with namespace and a fresh UID, and the UID counter moves on by one; Jobs are untouched; the store stays well formed |
| Kube.CreateJobStep | internal/jobs/repo.go:97 | as for ConfigMaps, for Jobs (the UID counter moves on by one on success): the new Job's UID is fresh, so no two Jobs share one |
| Kube.UpdateConfigMapStep | internal/jobs/repo.go:110 | an update succeeds exactly when the call is not a fault and the ConfigMap exists; it replaces the stored map but keeps its UID; Jobs and the UID counter are untouched |
| Kube.ControlPlane.CreateConfigMap | internal/jobs/run.go:45 | the class's create changes its fields exactly as `CreateConfigMapStep` says and keeps the store well formed |
| Kube.ControlPlane.CreateJob | internal/jobs/run.go:88 | the class's create changes its fields exactly as `CreateJobStep` says and keeps the store well formed |
| Kube.ControlPlane.UpdateConfigMap | internal/jobs/repo.go:110 | the class's update changes its fields exactly as `UpdateConfigMapStep` says and keeps the store well formed |
| Kube.JobAfterItsConfigMap | internal/jobs/repo.go:38-97 | a trace that creates a ConfigMap, then submits one Job mounting only it, and no other Job, keeps Jobs after their ConfigMaps |
| Kube.OrderlyExtension | internal/jobs/repo.go:38-113 | appending a short trace that stops at its first failure keeps the log orderly |
| Kube.ProjectedFile | internal/jobs/repo.go:53-61 | a ConfigMap volume exposes a file at mountPath/key exactly for the keys of its data, with that key's value |
| Profiles.ValidationErrors | internal/profiles/data.go:21-27 | at most one message; none exactly when the text is present; exactly ["The field \"text\" is required"] when it is missing |
| Profiles.MetadataIgnored | internal/profiles/data.go:21-27 | the metadata never changes the validation result |
| Profiles.ValidateProfile | internal/profiles/data.go:21-27 | the slice built by start-empty-and-append is exactly the messages above |
| Environment.Getenv | internal/jobs/repo.go:65 | a set variable gives its value; an unset one gives "" |
| Strings.Join | internal/jobs/repo.go:27 | no parts give ""; one part gives that part; otherwise the result is the parts' total length plus the separators between them, and starts with the first part |
| Strings.JoinTwo | internal/jobs/repo.go:27 | joining two parts puts the separator once between them |
| JsonText.Escape | internal/handlers/profiles.go:45 | each character is written as one to six characters, so only the empty string escapes to the empty string |
| JsonText.Quote | internal/handlers/profiles.go:45 | the literal is the escaped string between two double quotes |
| JsonText.EscapeChar | internal/handlers/profiles.go:45 | a character that needs no escape is written as itself; every other one is written as an escape starting with a backslash |
| JsonText.UnescapeEscape | internal/handlers/profiles.go:45 | reading the encoder's string literal gives back every string exactly |
| JsonText.EscapePlain | internal/handlers/profiles.go:45 | a string with nothing to escape is written verbatim |
| Handlers.ErrorResponse | internal/handlers/profiles.go:24 | `http.Error`: the status given, and a body that is the message followed by one newline |
| Handlers.IdBody | internal/handlers/profiles.go:42-45 | the success body is `{"id":"`, the escaped id, `"}` and a newline |
| Handlers.IdBodyRoundTrip | internal/handlers/profiles.go:42-45 | the success body `{"id":...}` holds exactly the creator's id, read back by `IdOfBody`, and ends with a newline |
| Handlers.IdBodyPlain | internal/handlers/profiles.go:42-45 | an id with nothing to escape is written verbatim as `{"id":"<id>"}` and a newline |
| Handlers.DnsLabelPlain | internal/handlers/profiles.go:42-45 | no character of a DNS label needs escaping |
| Handlers.JobNamesVerbatim | internal/handlers/profiles.go:42-45 | the names both sequencers give their Jobs come back verbatim in the success body |
| Handlers.Rejection | internal/handlers/profiles.go:21-32 | a request is turned away exactly when decoding fails or the text is missing; a decoding failure gives 400 and "Deserialization error: <msg>" and a newline; a missing text gives 400 and the validation message and a newline |
| Handlers.CreationResponse | internal/handlers/profiles.go:36-45 | a failed creation gives 500 and "Error creating Kubernetes Job" and a newline, whatever the error; a successful one gives 201 and exactly the encoder's body `IdBody` for the created id, from which `IdOfBody` reads that id back |
| Handlers.ProfilesResponse | internal/handlers/profiles.go:18-49 | 400 exactly when decoding fails or the text is missing; 500 exactly when creation fails; 201 exactly when it succeeds; the bodies are "Deserialization error: <msg>", the validation message, "Error creating Kubernetes Job", and exactly the encoder's id body `IdBody` for the creator's id, from which `IdOfBody` reads it back; every body ends with a newline |
| Handlers.RejectedBeforeCreate | internal/handlers/profiles.go:21-32 | a request rejected by decoding or validation gets the same answer whatever the creator does: the creator is never consulted |
| Handlers.CreateErrorHidden | internal/handlers/profiles.go:36-41 | any two failing creators give the same answer: the creator's error text never reaches the body |
| Handlers.CreatedResponse | internal/handlers/profiles.go:42-45 | a valid request whose creator returns an id is answered 201 with that id's body |
| Handlers.CreatedVerbatim | internal/handlers/profiles.go:42-45 | a valid request whose creator returns an id with nothing to escape is answered 201 with `{"id":"<id>"}` and a newline |
| Handlers.ServeCreated | internal/handlers/profiles_test.go:30-41 | a valid request answered by a creator returning "assessor-cfe8eb87-b9d1-4a84-a253-510228a6241c" gives 201 and `{"id":"` + that name + `"}` and a newline |
| Handlers.ServeBadJson | internal/handlers/profiles_test.go:43-54 | a decoder error "invalid character 't' ..." gives 400 and "Deserialization error: " + that message + newline |
| Handlers.ServeBadSchema | internal/handlers/profiles_test.go:56-67 | a profile without text gives 400 and "The field \"text\" is required" + newline |
| Handlers.ServeCreateFailed | internal/handlers/profiles_test.go:69-80 | a creator failing with "Job backend go boom!" gives 500 and "Error creating Kubernetes Job" + newline |
| Handlers.HandleProfiles | internal/handlers/profiles.go:18-49 | a rejected request gets the rejection and leaves the control plane untouched; otherwise the answer is the one for the outcome `CreateJob` reports, the control plane ends as the older sequencer's `Provision` says, and a 201 body names the uuid whose Job and ConfigMap exist |

## Left out

- `createClientset` (`rest.InClusterConfig`, `kubernetes.NewForConfig`): credential and connection plumbing, modelled only as the `Connection` input, which is either `Connected` or `Unreachable`.
- `uuid.New()` is randomness. The uuid is an input string; `ResourceNameIsDnsLabel` assumes its canonical text form.
- `os.Getenv` reads the process environment. It is replaced by a `Config` record, with `ConfigFromEnviron` giving "" for unset variables.
- `json.NewDecoder(...).Decode` (`DecodeProfile`) and `schemav1.EncodeProfileJSON` are foreign serialisers. The decoded request is an input `Result`, and the encoder is a function parameter. `schemav1.Profile` is represented by the same `Profiles.Profile` record.
- JSON numbers in the metadata are integers in `Profiles.Json`; Go decodes them as floating point, which validation never reads.
- A `nil` and an empty metadata map are not distinguished.
- The Go encoder replaces invalid UTF-8 with U+FFFD. Dafny strings hold only valid Unicode scalar values, so that case cannot arise in the model.
- The `http.ResponseWriter` writes, `log.Print` of the creator's error, `defer r.Body.Close()`, and the `Encode` failure branch after `WriteHeader` (profiles.go:45-47) are side-effecting I/O and are not modelled.
- `internal/handlers/health.go` (a constant response) and `cmd/runner/main.go` (server start-up) contain no logic.
- `context.Context`, cancellation and concurrency between requests are not modelled; each run is one sequential pass over one control plane.
- Kubernetes object semantics beyond storage are not modelled: garbage collection through owner references, scheduling, `resourceVersion` conflicts, and API-side validation. A real API server defaults an unset restart policy to "Always" and rejects such Jobs, so the older sequencer's Job create would fail there. In the model it succeeds unless the call is a fault or the name is taken.
- A failing call is modelled as changing nothing but the log. A request the API server applied whose reply then failed is not modelled, so the failure cases of both `ProvisionSteps` lemmas (no Job after a failed Job create, an unlinked ConfigMap after a failed update) rest on that.
- UIDs are serial numbers handed out by a counter rather than random 128-bit values; the model relies only on their uniqueness.
