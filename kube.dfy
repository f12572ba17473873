/** The slice of the Kubernetes API the provisioning code touches: the object
    records it builds (ConfigMap, Job and what a Job's pod template holds), an
    abstract control plane that stores them, and what a container of a pod can
    read through a ConfigMap volume. */
module Kube {
  import opened Wrappers

  /** A server-assigned object UID. `NoUid` is the empty UID of an object that
      has not been created yet. */
  datatype Uid = NoUid | Uid(serial: nat)

  datatype OwnerReference = OwnerReference(apiVersion: string, kind: string, name: string, uid: Uid)

  datatype ObjectMeta = ObjectMeta(name: string, namespace: string, uid: Uid, ownerReferences: seq<OwnerReference>)

  /** `metav1.ObjectMeta{Name: name}`: every other field at its zero value. */
  function NamedMeta(name: string): ObjectMeta
  {
    ObjectMeta(name, "", NoUid, [])
  }

  datatype ConfigMap = ConfigMap(meta: ObjectMeta, data: map<string, string>)

  datatype EnvVar = EnvVar(name: string, value: string)

  datatype VolumeMount = VolumeMount(name: string, mountPath: string)

  /** A pod volume. The only volume source the provisioning code uses is a
      ConfigMap, referred to by name. */
  datatype Volume = Volume(name: string, configMapName: string)

  datatype Container = Container(
    name: string,
    image: string,
    command: seq<string>,
    env: seq<EnvVar>,
    volumeMounts: seq<VolumeMount>)

  /** `restartPolicy` is "" when the field is left unset. */
  datatype PodSpec = PodSpec(containers: seq<Container>, volumes: seq<Volume>, restartPolicy: string)

  /** A batch/v1 Job, reduced to its metadata and the spec of its pod template. */
  datatype Job = Job(meta: ObjectMeta, template: PodSpec)

  /** Objects are addressed by namespace and name. */
  datatype ObjectKey = ObjectKey(namespace: string, name: string)

  /** The API errors the model distinguishes. `ServerError(n)` is any other
      failure of the n-th call (network, admission, quota, ...). */
  datatype StatusError =
    | AlreadyExists(resource: string, name: string)
    | NotFound(resource: string, name: string)
    | ServerError(call: nat)

  /** One request to the API server: `Post` is a create, `Put` an update. */
  datatype Request =
    | PostConfigMap(namespace: string, configMap: ConfigMap)
    | PostJob(namespace: string, job: Job)
    | PutConfigMap(namespace: string, configMap: ConfigMap)

  /** A request as the control plane received it, and whether it succeeded. */
  datatype Call = Call(request: Request, succeeded: bool)

  /** The outcome of obtaining an authenticated client for the cluster. */
  datatype Connection = Connected | Unreachable(reason: string)

  /** The metadata the API server stores for a created object: the submitted
      metadata, placed in the request's namespace, with a fresh UID. */
  function Admitted(meta: ObjectMeta, namespace: string, serial: nat): ObjectMeta
  {
    meta.(namespace := namespace, uid := Uid(serial))
  }

  /** `meta` is the metadata of an object stored under `key` and its UID was
      handed out before `bound`. */
  ghost predicate StoredUnder(key: ObjectKey, meta: ObjectMeta, bound: nat)
  {
    meta.name == key.name && meta.namespace == key.namespace && meta.uid.Uid? && meta.uid.serial < bound
  }

  /** A snapshot of everything the control plane holds. */
  datatype ClusterState = ClusterState(
    configMaps: map<ObjectKey, ConfigMap>,
    jobs: map<ObjectKey, Job>,
    calls: seq<Call>,
    nextUid: nat)
  {
    /** Objects are stored under their own namespace and name, every stored
        object has a UID already handed out, and no two Jobs share one. */
    ghost predicate Valid()
    {
      && (forall k | k in configMaps :: StoredUnder(k, configMaps[k].meta, nextUid))
      && (forall k | k in jobs :: StoredUnder(k, jobs[k].meta, nextUid))
      && (forall k, k' | k in jobs && k' in jobs && jobs[k].meta.uid == jobs[k'].meta.uid :: k == k')
    }
  }

  /** The control plane's answer to one request: the state afterwards and the
      result returned to the caller. */
  datatype Reply<T> = Reply(after: ClusterState, result: Result<T, StatusError>)

  /** A create of ConfigMap `cm` in `namespace`: it fails if this call (number
      `|s.calls|`) is a fault or the name is taken; otherwise the map is stored
      with a fresh UID and the stored object is returned. The call is logged
      either way, and the Jobs are left alone. */
  function CreateConfigMapStep(s: ClusterState, faults: set<nat>, namespace: string, cm: ConfigMap): (reply: Reply<ConfigMap>)
    ensures reply.result.Ok? <==> |s.calls| !in faults && ObjectKey(namespace, cm.meta.name) !in s.configMaps
    ensures reply.after.calls == s.calls + [Call(PostConfigMap(namespace, cm), reply.result.Ok?)]
    ensures reply.after.jobs == s.jobs
    ensures reply.result.Ok? ==>
      && reply.result.value == cm.(meta := Admitted(cm.meta, namespace, s.nextUid))
      && reply.after.configMaps == s.configMaps[ObjectKey(namespace, cm.meta.name) := reply.result.value]
      && reply.after.nextUid == s.nextUid + 1
    ensures reply.result.Err? ==> reply.after.configMaps == s.configMaps && reply.after.nextUid == s.nextUid
    ensures s.Valid() ==> reply.after.Valid()
  {
    var key := ObjectKey(namespace, cm.meta.name);
    var n := |s.calls|;
    if n in faults then
      Reply(s.(calls := s.calls + [Call(PostConfigMap(namespace, cm), false)]), Err(ServerError(n)))
    else if key in s.configMaps then
      Reply(s.(calls := s.calls + [Call(PostConfigMap(namespace, cm), false)]), Err(AlreadyExists("configmaps", cm.meta.name)))
    else
      var stored := cm.(meta := Admitted(cm.meta, namespace, s.nextUid));
      Reply(ClusterState(s.configMaps[key := stored], s.jobs, s.calls + [Call(PostConfigMap(namespace, cm), true)], s.nextUid + 1),
            Ok(stored))
  }

  /** A create of Job `job`: as `CreateConfigMapStep`, for Jobs. The UID the
      stored Job receives is distinct from every UID handed out before. */
  function CreateJobStep(s: ClusterState, faults: set<nat>, namespace: string, job: Job): (reply: Reply<Job>)
    ensures reply.result.Ok? <==> |s.calls| !in faults && ObjectKey(namespace, job.meta.name) !in s.jobs
    ensures reply.after.calls == s.calls + [Call(PostJob(namespace, job), reply.result.Ok?)]
    ensures reply.after.configMaps == s.configMaps
    ensures reply.result.Ok? ==>
      && reply.result.value == job.(meta := Admitted(job.meta, namespace, s.nextUid))
      && reply.after.jobs == s.jobs[ObjectKey(namespace, job.meta.name) := reply.result.value]
      && reply.after.nextUid == s.nextUid + 1
    ensures reply.result.Err? ==> reply.after.jobs == s.jobs && reply.after.nextUid == s.nextUid
    ensures s.Valid() ==> reply.after.Valid()
  {
    var key := ObjectKey(namespace, job.meta.name);
    var n := |s.calls|;
    if n in faults then
      Reply(s.(calls := s.calls + [Call(PostJob(namespace, job), false)]), Err(ServerError(n)))
    else if key in s.jobs then
      Reply(s.(calls := s.calls + [Call(PostJob(namespace, job), false)]), Err(AlreadyExists("jobs", job.meta.name)))
    else
      var stored := job.(meta := Admitted(job.meta, namespace, s.nextUid));
      Reply(ClusterState(s.configMaps, s.jobs[key := stored], s.calls + [Call(PostJob(namespace, job), true)], s.nextUid + 1),
            Ok(stored))
  }

  /** An update of ConfigMap `cm`: it fails if this call is a fault or the map
      does not exist; otherwise the stored map is replaced by `cm`, keeping the
      server-owned UID. */
  function UpdateConfigMapStep(s: ClusterState, faults: set<nat>, namespace: string, cm: ConfigMap): (reply: Reply<ConfigMap>)
    ensures reply.result.Ok? <==> |s.calls| !in faults && ObjectKey(namespace, cm.meta.name) in s.configMaps
    ensures reply.after.calls == s.calls + [Call(PutConfigMap(namespace, cm), reply.result.Ok?)]
    ensures reply.after.jobs == s.jobs && reply.after.nextUid == s.nextUid
    ensures reply.result.Ok? ==>
      var key := ObjectKey(namespace, cm.meta.name);
      && reply.result.value == cm.(meta := cm.meta.(namespace := namespace, uid := s.configMaps[key].meta.uid))
      && reply.after.configMaps == s.configMaps[key := reply.result.value]
    ensures reply.result.Err? ==> reply.after.configMaps == s.configMaps
    ensures s.Valid() ==> reply.after.Valid()
  {
    var key := ObjectKey(namespace, cm.meta.name);
    var n := |s.calls|;
    if n in faults then
      Reply(s.(calls := s.calls + [Call(PutConfigMap(namespace, cm), false)]), Err(ServerError(n)))
    else if key !in s.configMaps then
      Reply(s.(calls := s.calls + [Call(PutConfigMap(namespace, cm), false)]), Err(NotFound("configmaps", cm.meta.name)))
    else
      var stored := cm.(meta := cm.meta.(namespace := namespace, uid := s.configMaps[key].meta.uid));
      Reply(s.(configMaps := s.configMaps[key := stored], calls := s.calls + [Call(PutConfigMap(namespace, cm), true)]),
            Ok(stored))
  }

  /** The control plane: the ConfigMaps and Jobs it stores, every request it has
      received, and the source of UIDs. Which calls fail for reasons outside the
      model is fixed in advance by `faults`, a set of call numbers. A faulted
      call is logged as failed and changes nothing else: a request the server
      applied before its reply was lost is not represented. */
  class ControlPlane {
    var configMaps: map<ObjectKey, ConfigMap>
    var jobs: map<ObjectKey, Job>
    var calls: seq<Call>
    var nextUid: nat
    const faults: set<nat>

    ghost function State(): ClusterState
      reads this
    {
      ClusterState(configMaps, jobs, calls, nextUid)
    }

    ghost predicate Valid()
      reads this
    {
      State().Valid()
    }

    /** An empty cluster whose failing calls are `faults`. */
    constructor (faults: set<nat>)
      ensures Valid()
      ensures State() == ClusterState(map[], map[], [], 0)
      ensures this.faults == faults
    {
      configMaps, jobs, calls, nextUid := map[], map[], [], 0;
      this.faults := faults;
    }

    /** `ConfigMaps(namespace).Create`. */
    method CreateConfigMap(namespace: string, cm: ConfigMap) returns (r: Result<ConfigMap, StatusError>)
      requires Valid()
      modifies this
      ensures Valid()
      ensures Reply(State(), r) == CreateConfigMapStep(old(State()), faults, namespace, cm)
    {
      var key := ObjectKey(namespace, cm.meta.name);
      if |calls| in faults {
        r := Err(ServerError(|calls|));
      } else if key in configMaps {
        r := Err(AlreadyExists("configmaps", cm.meta.name));
      } else {
        var stored := cm.(meta := Admitted(cm.meta, namespace, nextUid));
        configMaps := configMaps[key := stored];
        nextUid := nextUid + 1;
        r := Ok(stored);
      }
      calls := calls + [Call(PostConfigMap(namespace, cm), r.Ok?)];
    }

    /** `Jobs(namespace).Create`. */
    method CreateJob(namespace: string, job: Job) returns (r: Result<Job, StatusError>)
      requires Valid()
      modifies this
      ensures Valid()
      ensures Reply(State(), r) == CreateJobStep(old(State()), faults, namespace, job)
    {
      var key := ObjectKey(namespace, job.meta.name);
      if |calls| in faults {
        r := Err(ServerError(|calls|));
      } else if key in jobs {
        r := Err(AlreadyExists("jobs", job.meta.name));
      } else {
        var stored := job.(meta := Admitted(job.meta, namespace, nextUid));
        jobs := jobs[key := stored];
        nextUid := nextUid + 1;
        r := Ok(stored);
      }
      calls := calls + [Call(PostJob(namespace, job), r.Ok?)];
    }

    /** `ConfigMaps(namespace).Update`. */
    method UpdateConfigMap(namespace: string, cm: ConfigMap) returns (r: Result<ConfigMap, StatusError>)
      requires Valid()
      modifies this
      ensures Valid()
      ensures Reply(State(), r) == UpdateConfigMapStep(old(State()), faults, namespace, cm)
    {
      var key := ObjectKey(namespace, cm.meta.name);
      if |calls| in faults {
        r := Err(ServerError(|calls|));
      } else if key !in configMaps {
        r := Err(NotFound("configmaps", cm.meta.name));
      } else {
        var stored := cm.(meta := cm.meta.(namespace := namespace, uid := configMaps[key].meta.uid));
        configMaps := configMaps[key := stored];
        r := Ok(stored);
      }
      calls := calls + [Call(PutConfigMap(namespace, cm), r.Ok?)];
    }
  }

  /** No call of `trace` follows a failed one: a failure can only be the last call. */
  ghost predicate StopsAtFirstFailure(trace: seq<Call>)
  {
    forall i | 0 <= i < |trace| - 1 :: trace[i].succeeded
  }

  /** Every Job that `trace` submits mounts only ConfigMaps that an earlier call
      of `trace` created successfully in the same namespace. */
  ghost predicate JobsFollowTheirConfigMaps(trace: seq<Call>)
  {
    forall i, v | 0 <= i < |trace| && trace[i].request.PostJob? && v in trace[i].request.job.template.volumes ::
      exists j | 0 <= j < i ::
        && trace[j].succeeded
        && trace[j].request.PostConfigMap?
        && trace[j].request.namespace == trace[i].request.namespace
        && trace[j].request.configMap.meta.name == v.configMapName
  }

  /** A trace that creates ConfigMap `cm`, then submits one Job mounting only
      `cm`, and submits no other Job, keeps Jobs after their ConfigMaps. */
  lemma JobAfterItsConfigMap(trace: seq<Call>, namespace: string, cm: ConfigMap, job: Job)
    requires 2 <= |trace|
    requires trace[0] == Call(PostConfigMap(namespace, cm), true)
    requires trace[1].request == PostJob(namespace, job)
    requires forall v | v in job.template.volumes :: v.configMapName == cm.meta.name
    requires forall i | 2 <= i < |trace| :: !trace[i].request.PostJob?
    ensures JobsFollowTheirConfigMaps(trace)
  {
    forall i, v | 0 <= i < |trace| && trace[i].request.PostJob? && v in trace[i].request.job.template.volumes
      ensures exists j | 0 <= j < i ::
        && trace[j].succeeded
        && trace[j].request.PostConfigMap?
        && trace[j].request.namespace == trace[i].request.namespace
        && trace[j].request.configMap.meta.name == v.configMapName
    {
      assert i == 1;
    }
  }

  /** The log `after` of a sequence of at most `steps` calls that began with
      log `before`: it extends `before`; no new call follows a failed one;
      every Job submitted comes after the ConfigMap it mounts; and the sequence
      succeeded (`ok`) exactly when all `steps` calls were made and the last
      one succeeded. */
  ghost predicate Orderly(before: seq<Call>, after: seq<Call>, steps: nat, ok: bool)
  {
    && |before| <= |after|
    && after[..|before|] == before
    && StopsAtFirstFailure(after[|before|..])
    && JobsFollowTheirConfigMaps(after[|before|..])
    && (ok <==> 0 < steps && |after| == |before| + steps && after[|after| - 1].succeeded)
  }

  /** Appending a non-empty trace that stops at its first failure and keeps
      Jobs after their ConfigMaps gives an orderly log. */
  lemma OrderlyExtension(before: seq<Call>, trace: seq<Call>, steps: nat, ok: bool)
    requires 1 <= |trace| <= steps
    requires StopsAtFirstFailure(trace)
    requires JobsFollowTheirConfigMaps(trace)
    requires ok <==> |trace| == steps && trace[|trace| - 1].succeeded
    ensures Orderly(before, before + trace, steps, ok)
  {
    assert (before + trace)[..|before|] == before;
    assert (before + trace)[|before|..] == trace;
  }

  /** The kubelet's projection of a ConfigMap volume: each key of `data` is a
      file of that name directly under `mountPath`. The content of the file at
      `path`, if there is one. */
  function ProjectedFile(data: map<string, string>, mountPath: string, path: string): (f: Option<string>)
    ensures f.Some? <==> exists key | key in data :: path == mountPath + "/" + key
    ensures forall key | key in data && path == mountPath + "/" + key :: f == Some(data[key])
  {
    var prefix := mountPath + "/";
    if |prefix| <= |path| && path[..|prefix|] == prefix && path[|prefix|..] in data then
      assert path == prefix + path[|prefix|..];
      Some(data[path[|prefix|..]])
    else
      None
  }

  /** Container `c` of `pod` can read `content` at `path` through one of its
      volume mounts, given the ConfigMaps the control plane stores; the pod
      runs in `namespace`. */
  ghost predicate ContainerReads(
    pod: PodSpec, c: Container, namespace: string, configMaps: map<ObjectKey, ConfigMap>,
    path: string, content: string)
  {
    exists m, v | m in c.volumeMounts && v in pod.volumes ::
      && v.name == m.name
      && ObjectKey(namespace, v.configMapName) in configMaps
      && ProjectedFile(configMaps[ObjectKey(namespace, v.configMapName)].data, m.mountPath, path) == Some(content)
  }
}
