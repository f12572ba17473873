/** The canonical provisioning sequence, `K8sRepository.Create`: one ConfigMap
    holding the encoded profile, one Job whose pod mounts it, and a second pass
    that makes the Job the ConfigMap's owner. */
module Repository {
  import opened Wrappers
  import opened Kube
  import Strings
  import UuidText
  import Environment
  import Profiles

  const Namespace: string := "shortlist"
  const ProfileKey: string := "data.json"
  const ProfileVolume: string := "profile"
  const ProfileMountPath: string := "/etc/shortlist/profile"
  const ProfilePath: string := "/etc/shortlist/profile/data.json"

  /** The environment `Create` reads. */
  datatype Config = Config(
    notifierUrl: string,
    systemPrompt: string,
    positiveResponseRegex: string,
    assessorImage: string)

  /** The configuration as `os.Getenv` reads it: each variable's value, or ""
      when the variable is unset. */
  function ConfigFromEnviron(environ: map<string, string>): (cfg: Config)
    ensures "NOTIFIER_URL" in environ ==> cfg.notifierUrl == environ["NOTIFIER_URL"]
    ensures "NOTIFIER_URL" !in environ ==> cfg.notifierUrl == ""
    ensures "LLM_SYSTEM_PROMPT" in environ ==> cfg.systemPrompt == environ["LLM_SYSTEM_PROMPT"]
    ensures "LLM_SYSTEM_PROMPT" !in environ ==> cfg.systemPrompt == ""
    ensures "LLM_POSITIVE_RESPONSE_REGEX" in environ ==> cfg.positiveResponseRegex == environ["LLM_POSITIVE_RESPONSE_REGEX"]
    ensures "LLM_POSITIVE_RESPONSE_REGEX" !in environ ==> cfg.positiveResponseRegex == ""
    ensures "ASSESSOR_IMAGE" in environ ==> cfg.assessorImage == environ["ASSESSOR_IMAGE"]
    ensures "ASSESSOR_IMAGE" !in environ ==> cfg.assessorImage == ""
  {
    Config(
      Environment.Getenv(environ, "NOTIFIER_URL"),
      Environment.Getenv(environ, "LLM_SYSTEM_PROMPT"),
      Environment.Getenv(environ, "LLM_POSITIVE_RESPONSE_REGEX"),
      Environment.Getenv(environ, "ASSESSOR_IMAGE"))
  }

  /** The step that failed, with the error it reported. */
  datatype CreateError =
    | ClientsetFailed(reason: string)
    | EncodeFailed(reason: string)
    | ConfigMapCreateFailed(status: StatusError)
    | JobCreateFailed(status: StatusError)
    | ConfigMapUpdateFailed(status: StatusError)

  /** The name every resource of one submission shares: "assessor-" then the uuid. */
  function ResourceName(uuid: string): (name: string)
    ensures |name| == 9 + |uuid|
    ensures name[..9] == "assessor-" && name[9..] == uuid
  {
    Strings.JoinTwo("assessor", uuid, "-");
    Strings.Join(["assessor", uuid], "-")
  }

  /** Different uuids give different names. */
  lemma ResourceNameInjective(u: string, u': string)
    requires ResourceName(u) == ResourceName(u')
    ensures u == u'
  {
    assert u == ResourceName(u)[9..];
  }

  /** The name of a fresh uuid is a valid Job name. */
  lemma ResourceNameIsDnsLabel(uuid: string)
    requires UuidText.IsUuidText(uuid)
    ensures UuidText.IsDnsLabel(ResourceName(uuid))
  {
    var name := ResourceName(uuid);
    forall i | 0 <= i < |name| ensures UuidText.IsLabelChar(name[i]) {
      if i < 9 {
        assert name[i] == "assessor-"[i];
      } else {
        assert name[i] == uuid[i - 9];
        if i - 9 in {8, 13, 18, 23} { } else { }
      }
    }
    assert name[0] == 'a';
    assert name[|name| - 1] == uuid[35];
  }

  /** The ConfigMap record: named `name`, holding the encoded profile under
      "data.json" and nothing else. */
  function ProfileConfigMap(name: string, profileData: string): (cm: ConfigMap)
    ensures cm.meta == NamedMeta(name)
    ensures cm.data.Keys == {ProfileKey} && cm.data[ProfileKey] == profileData
  {
    ConfigMap(NamedMeta(name), map[ProfileKey := profileData])
  }

  /** The assessor's environment: the profile's path, then three variables taken
      from the process environment, in this order. */
  function AssessorEnv(cfg: Config): (env: seq<EnvVar>)
    ensures |env| == 4
    ensures env[0].name == "PROFILE_PATH" && env[1].name == "NOTIFIER_URL"
    ensures env[2].name == "LLM_SYSTEM_PROMPT" && env[3].name == "LLM_POSITIVE_RESPONSE_REGEX"
    ensures env[0].value == ProfilePath && env[1].value == cfg.notifierUrl
    ensures env[2].value == cfg.systemPrompt && env[3].value == cfg.positiveResponseRegex
  {
    [ EnvVar("PROFILE_PATH", ProfilePath),
      EnvVar("NOTIFIER_URL", cfg.notifierUrl),
      EnvVar("LLM_SYSTEM_PROMPT", cfg.systemPrompt),
      EnvVar("LLM_POSITIVE_RESPONSE_REGEX", cfg.positiveResponseRegex) ]
  }

  /** The pod: a single "assessor" container that mounts the one volume, which
      is the ConfigMap `cmName`; never restarted. */
  function AssessorPod(cfg: Config, cmName: string): (pod: PodSpec)
    ensures |pod.containers| == 1 && pod.containers[0].name == "assessor"
    ensures pod.containers[0].image == cfg.assessorImage && pod.containers[0].command == []
    ensures pod.containers[0].env == AssessorEnv(cfg)
    ensures pod.containers[0].volumeMounts == [VolumeMount(ProfileVolume, ProfileMountPath)]
    ensures pod.volumes == [Volume(ProfileVolume, cmName)]
    ensures pod.restartPolicy == "Never"
  {
    var mount := VolumeMount(ProfileVolume, ProfileMountPath);
    var assessor := Container("assessor", cfg.assessorImage, [], AssessorEnv(cfg), [mount]);
    PodSpec([assessor], [Volume(ProfileVolume, cmName)], "Never")
  }

  /** The Job record: named `name`, running `AssessorPod`. */
  function AssessorJob(name: string, cfg: Config, cmName: string): (job: Job)
    ensures job.meta == NamedMeta(name)
    ensures job.template == AssessorPod(cfg, cmName)
  {
    Job(NamedMeta(name), AssessorPod(cfg, cmName))
  }

  /** The reference that makes Job `jobName`, of UID `uid`, the owner. */
  function JobOwnerReference(jobName: string, uid: Uid): (ref: OwnerReference)
    ensures ref.apiVersion == "batch/v1" && ref.kind == "Job"
    ensures ref.name == jobName && ref.uid == uid
  {
    OwnerReference("batch/v1", "Job", jobName, uid)
  }

  /** `cm` with its owner references replaced by the single `ref`; every other
      field is as it was. */
  function WithOwner(cm: ConfigMap, ref: OwnerReference): (linked: ConfigMap)
    ensures linked.meta.ownerReferences == [ref]
    ensures linked.data == cm.data
    ensures linked.meta.(ownerReferences := cm.meta.ownerReferences) == cm.meta
  {
    cm.(meta := cm.meta.(ownerReferences := [ref]))
  }

  /** The assessor finds the profile where PROFILE_PATH says it is, once the
      ConfigMap its volume names exists with the profile under "data.json". */
  lemma ProfileReadable(cfg: Config, cmName: string, configMaps: map<ObjectKey, ConfigMap>, profileData: string)
    requires ObjectKey(Namespace, cmName) in configMaps
    requires ProfileKey in configMaps[ObjectKey(Namespace, cmName)].data
    requires configMaps[ObjectKey(Namespace, cmName)].data[ProfileKey] == profileData
    ensures var pod := AssessorPod(cfg, cmName);
      && EnvVar("PROFILE_PATH", ProfilePath) in pod.containers[0].env
      && ContainerReads(pod, pod.containers[0], Namespace, configMaps, ProfilePath, profileData)
  {
    var pod := AssessorPod(cfg, cmName);
    var m := VolumeMount(ProfileVolume, ProfileMountPath);
    var v := Volume(ProfileVolume, cmName);
    assert pod.containers[0].env[0] == EnvVar("PROFILE_PATH", ProfilePath);
    assert m in pod.containers[0].volumeMounts && v in pod.volumes;
    assert ProfilePath == ProfileMountPath + "/" + ProfileKey;
  }

  /** What a run of the sequence leaves: the control plane afterwards and the
      result `Create` returns. */
  datatype Outcome = Outcome(after: ClusterState, result: Result<string, CreateError>)

  /** Lines 33-115 of `Create` as a transformation of the control plane:
      create the ConfigMap, create the Job that mounts it by the name the
      control plane returned, then make the Job the ConfigMap's owner. Each
      failure ends the run with nothing undone; success returns the name the
      created Job reports. */
  function Provision(s: ClusterState, faults: set<nat>, name: string, cfg: Config, profileData: string): (o: Outcome)
    ensures |s.calls| < |o.after.calls| <= |s.calls| + 3
    ensures o.after.calls[..|s.calls|] == s.calls
    ensures o.result.Ok? ==> o.result.value == name
    ensures s.Valid() ==> o.after.Valid()
  {
    var cmReply := CreateConfigMapStep(s, faults, Namespace, ProfileConfigMap(name, profileData));
    if cmReply.result.Err? then Outcome(cmReply.after, Err(ConfigMapCreateFailed(cmReply.result.error)))
    else
      var cm := cmReply.result.value;
      var jobReply := CreateJobStep(cmReply.after, faults, Namespace, AssessorJob(name, cfg, cm.meta.name));
      if jobReply.result.Err? then Outcome(jobReply.after, Err(JobCreateFailed(jobReply.result.error)))
      else
        var job := jobReply.result.value;
        var linked := WithOwner(cm, JobOwnerReference(name, job.meta.uid));
        var updReply := UpdateConfigMapStep(jobReply.after, faults, Namespace, linked);
        if updReply.result.Err? then Outcome(updReply.after, Err(ConfigMapUpdateFailed(updReply.result.error)))
        else Outcome(updReply.after, Ok(job.meta.name))
  }

  /** The outcome `o` of running the sequence for `name` from `s0`, told out
      step by step: which calls are made, in order, and which objects are
      stored, for each step at which the control plane can fail and for full
      success. */
  ghost predicate Provisioned(
    s0: ClusterState, faults: set<nat>, name: string, cfg: Config, profileData: string, o: Outcome)
  {
    var key := ObjectKey(Namespace, name);
    var n := |s0.calls|;
    var cmSpec := ProfileConfigMap(name, profileData);
    var cm := cmSpec.(meta := Admitted(cmSpec.meta, Namespace, s0.nextUid));
    var jobSpec := AssessorJob(name, cfg, name);
    var job := jobSpec.(meta := Admitted(jobSpec.meta, Namespace, s0.nextUid + 1));
    var linked := WithOwner(cm, JobOwnerReference(name, Uid(s0.nextUid + 1)));
    var s1 := o.after;
    if n in faults || key in s0.configMaps then
      && o.result == Err(ConfigMapCreateFailed(if n in faults then ServerError(n) else AlreadyExists("configmaps", name)))
      && s1.calls == s0.calls + [Call(PostConfigMap(Namespace, cmSpec), false)]
      && s1.configMaps == s0.configMaps && s1.jobs == s0.jobs
    else if n + 1 in faults || key in s0.jobs then
      && o.result == Err(JobCreateFailed(if n + 1 in faults then ServerError(n + 1) else AlreadyExists("jobs", name)))
      && s1.calls == s0.calls + [Call(PostConfigMap(Namespace, cmSpec), true), Call(PostJob(Namespace, jobSpec), false)]
      && s1.configMaps == s0.configMaps[key := cm] && s1.jobs == s0.jobs
    else if n + 2 in faults then
      && o.result == Err(ConfigMapUpdateFailed(ServerError(n + 2)))
      && s1.calls == s0.calls + [Call(PostConfigMap(Namespace, cmSpec), true), Call(PostJob(Namespace, jobSpec), true), Call(PutConfigMap(Namespace, linked), false)]
      && s1.configMaps == s0.configMaps[key := cm] && s1.jobs == s0.jobs[key := job]
    else
      && o.result == Ok(name)
      && s1.calls == s0.calls + [Call(PostConfigMap(Namespace, cmSpec), true), Call(PostJob(Namespace, jobSpec), true), Call(PutConfigMap(Namespace, linked), true)]
      && s1.configMaps == s0.configMaps[key := linked] && s1.jobs == s0.jobs[key := job]
  }

  /** After a successful run named `name`: both objects exist under that one
      name, the ConfigMap's single owner is the Job, identified by a UID no
      other Job has, and the Job's one container, the assessor, can read
      `profileData` at its PROFILE_PATH. */
  ghost predicate LinkedAndReadable(s: ClusterState, name: string, profileData: string)
  {
    var key := ObjectKey(Namespace, name);
    && key in s.configMaps && key in s.jobs
    && s.configMaps[key].meta.ownerReferences == [JobOwnerReference(name, s.jobs[key].meta.uid)]
    && s.jobs[key].meta.uid.Uid?
    && (forall k | k in s.jobs && s.jobs[k].meta.uid == s.jobs[key].meta.uid :: k == key)
    && |s.jobs[key].template.containers| == 1
    && s.jobs[key].template.containers[0].name == "assessor"
    && EnvVar("PROFILE_PATH", ProfilePath) in s.jobs[key].template.containers[0].env
    && ContainerReads(s.jobs[key].template, s.jobs[key].template.containers[0], Namespace,
                      s.configMaps, ProfilePath, profileData)
  }

  /** The sequence, step by step: the calls, their order, the state each
      failure leaves behind (nothing rolled back) and the state of success. */
  lemma ProvisionSteps(s0: ClusterState, faults: set<nat>, name: string, cfg: Config, profileData: string)
    ensures Provisioned(s0, faults, name, cfg, profileData, Provision(s0, faults, name, cfg, profileData))
  {
    var o := Provision(s0, faults, name, cfg, profileData);
    var key := ObjectKey(Namespace, name);
    var n := |s0.calls|;
    var cmSpec := ProfileConfigMap(name, profileData);
    var cmReply := CreateConfigMapStep(s0, faults, Namespace, cmSpec);
    if n in faults || key in s0.configMaps {
      assert o == Outcome(cmReply.after, Err(ConfigMapCreateFailed(cmReply.result.error)));
    } else {
      var cm := cmReply.result.value;
      assert cm.meta.name == name;
      var jobSpec := AssessorJob(name, cfg, name);
      var jobReply := CreateJobStep(cmReply.after, faults, Namespace, jobSpec);
      if n + 1 in faults || key in s0.jobs {
        assert o == Outcome(jobReply.after, Err(JobCreateFailed(jobReply.result.error)));
      } else {
        var linked := WithOwner(cm, JobOwnerReference(name, jobReply.result.value.meta.uid));
        assert key in jobReply.after.configMaps;
        var updReply := UpdateConfigMapStep(jobReply.after, faults, Namespace, linked);
        assert o == Outcome(updReply.after,
          if updReply.result.Err? then Err(ConfigMapUpdateFailed(updReply.result.error)) else Ok(name));
        assert updReply.result.Ok? ==> updReply.result.value == linked;
      }
    }
  }

  /** Every outcome keeps the call log in order: a failure is the last call,
      and the Job follows its ConfigMap. */
  lemma ProvisionOrderly(s0: ClusterState, faults: set<nat>, name: string, cfg: Config, profileData: string)
    ensures var o := Provision(s0, faults, name, cfg, profileData);
      Orderly(s0.calls, o.after.calls, 3, o.result.Ok?)
  {
    ProvisionSteps(s0, faults, name, cfg, profileData);
    ProvisionedOrderly(s0, faults, name, cfg, profileData, Provision(s0, faults, name, cfg, profileData));
  }

  /** The step-by-step account of a run implies that it keeps the log in order. */
  lemma ProvisionedOrderly(
    s0: ClusterState, faults: set<nat>, name: string, cfg: Config, profileData: string, o: Outcome)
    requires Provisioned(s0, faults, name, cfg, profileData, o)
    ensures Orderly(s0.calls, o.after.calls, 3, o.result.Ok?)
  {
    var n := |s0.calls|;
    var key := ObjectKey(Namespace, name);
    var cmSpec := ProfileConfigMap(name, profileData);
    var jobSpec := AssessorJob(name, cfg, name);
    var created := Call(PostConfigMap(Namespace, cmSpec), true);
    if n in faults || key in s0.configMaps {
      var trace := [Call(PostConfigMap(Namespace, cmSpec), false)];
      assert o.after.calls == s0.calls + trace;
      OrderlyExtension(s0.calls, trace, 3, o.result.Ok?);
    } else {
      var trace := o.after.calls[n..];
      assert o.after.calls == s0.calls + trace;
      assert trace[0] == created;
      assert trace[1].request == PostJob(Namespace, jobSpec);
      JobAfterItsConfigMap(trace, Namespace, cmSpec, jobSpec);
      OrderlyExtension(s0.calls, trace, 3, o.result.Ok?);
    }
  }

  /** The owner link is written only once the Job exists: any update of the
      run is its third call, it follows a successful Job create, and it makes
      the ConfigMap's only owner the Job by the UID the control plane gave it. */
  ghost predicate LinkFollowsJob(before: seq<Call>, after: ClusterState, name: string)
  {
    var key := ObjectKey(Namespace, name);
    var n := |before|;
    forall i | n <= i < |after.calls| && after.calls[i].request.PutConfigMap? ::
      && i == n + 2
      && after.calls[n + 1].succeeded && after.calls[n + 1].request.PostJob?
      && after.calls[n + 1].request.job.meta.name == name
      && key in after.jobs && after.jobs[key].meta.uid.Uid?
      && after.calls[i].request.configMap.meta.ownerReferences
         == [JobOwnerReference(name, after.jobs[key].meta.uid)]
  }

  /** Every run writes the owner link only after the Job create returned, and
      with that Job's UID. */
  lemma OwnerLinkAfterJob(s0: ClusterState, faults: set<nat>, name: string, cfg: Config, profileData: string)
    ensures var o := Provision(s0, faults, name, cfg, profileData);
      LinkFollowsJob(s0.calls, o.after, name)
  {
    ProvisionSteps(s0, faults, name, cfg, profileData);
    ProvisionedLinkFollowsJob(s0, faults, name, cfg, profileData, Provision(s0, faults, name, cfg, profileData));
  }

  /** The step-by-step account of a run implies that the owner link follows the Job. */
  lemma ProvisionedLinkFollowsJob(
    s0: ClusterState, faults: set<nat>, name: string, cfg: Config, profileData: string, o: Outcome)
    requires Provisioned(s0, faults, name, cfg, profileData, o)
    ensures LinkFollowsJob(s0.calls, o.after, name)
  {
    var n := |s0.calls|;
    var key := ObjectKey(Namespace, name);
    var calls := o.after.calls;
    forall i | n <= i < |calls| && calls[i].request.PutConfigMap?
      ensures i == n + 2
      ensures calls[n + 1].succeeded && calls[n + 1].request.PostJob?
      ensures calls[n + 1].request.job.meta.name == name
      ensures key in o.after.jobs && o.after.jobs[key].meta.uid.Uid?
      ensures calls[i].request.configMap.meta.ownerReferences == [JobOwnerReference(name, o.after.jobs[key].meta.uid)]
    {
      assert calls[n..] == calls[n..|calls|];
      assert calls[i] == calls[n..][i - n];
    }
  }

  /** A successful run returns the shared name, leaves the Job owning the
      ConfigMap, and lets the assessor read the profile. */
  lemma ProvisionLinked(s0: ClusterState, faults: set<nat>, name: string, cfg: Config, profileData: string)
    requires s0.Valid()
    ensures var o := Provision(s0, faults, name, cfg, profileData);
      o.result.Ok? ==> o.result.value == name && LinkedAndReadable(o.after, name, profileData)
  {
    var o := Provision(s0, faults, name, cfg, profileData);
    ProvisionSteps(s0, faults, name, cfg, profileData);
    if o.result.Ok? {
      ProfileReadable(cfg, name, o.after.configMaps, profileData);
    }
  }

  /** `K8sRepository.Create`. Nothing reaches the control plane when the
      client or the encoding fails; otherwise the control plane ends as
      `Provision` says, and so everything proved about `Provision` holds. */
  method Create(
    cluster: ControlPlane, conn: Connection, uuid: string, cfg: Config,
    profile: Profiles.Profile, encode: Profiles.Profile -> Result<string, string>)
    returns (r: Result<string, CreateError>)
    requires cluster.Valid()
    modifies cluster
    ensures cluster.Valid()
    ensures conn.Unreachable? ==> r == Err(ClientsetFailed(conn.reason)) && unchanged(cluster)
    ensures conn.Connected? && encode(profile).Err? ==>
      r == Err(EncodeFailed(encode(profile).error)) && unchanged(cluster)
    ensures conn.Connected? && encode(profile).Ok? ==>
      var name := ResourceName(uuid);
      var o := Outcome(cluster.State(), r);
      && o == Provision(old(cluster.State()), cluster.faults, name, cfg, encode(profile).value)
      && Provisioned(old(cluster.State()), cluster.faults, name, cfg, encode(profile).value, o)
      && Orderly(old(cluster.calls), cluster.calls, 3, r.Ok?)
    ensures r.Ok? ==>
      && conn.Connected? && encode(profile).Ok?
      && r.value == ResourceName(uuid)
      && LinkedAndReadable(cluster.State(), r.value, encode(profile).value)
  {
    if conn.Unreachable? {
      return Err(ClientsetFailed(conn.reason));
    }
    var jobName := ResourceName(uuid);
    var profileData := encode(profile);
    if profileData.Err? {
      return Err(EncodeFailed(profileData.error));
    }
    ProvisionSteps(cluster.State(), cluster.faults, jobName, cfg, profileData.value);
    ProvisionOrderly(cluster.State(), cluster.faults, jobName, cfg, profileData.value);
    ProvisionLinked(cluster.State(), cluster.faults, jobName, cfg, profileData.value);
    var cmCfg := ProfileConfigMap(jobName, profileData.value);
    var cmResult := cluster.CreateConfigMap(Namespace, cmCfg);
    if cmResult.Err? {
      return Err(ConfigMapCreateFailed(cmResult.error));
    }
    var cm := cmResult.value;
    var jobCfg := AssessorJob(jobName, cfg, cm.meta.name);
    var jobResult := cluster.CreateJob(Namespace, jobCfg);
    if jobResult.Err? {
      return Err(JobCreateFailed(jobResult.error));
    }
    var job := jobResult.value;
    cm := WithOwner(cm, JobOwnerReference(jobName, job.meta.uid));
    var updResult := cluster.UpdateConfigMap(Namespace, cm);
    if updResult.Err? {
      return Err(ConfigMapUpdateFailed(updResult.error));
    }
    return Ok(job.meta.name);
  }
}
