/** The older provisioning sequence, `CreateJob`: one ConfigMap holding the
    profile's text and one Job of two containers, the assessor (which mounts
    the ConfigMap) and the relay. There is no owner link and no restart
    policy. */
module LegacyRun {
  import opened Wrappers
  import opened Kube
  import Environment
  import Profiles

  const Namespace: string := "reticle"
  const TextKey: string := "text"
  const ConfigVolume: string := "assessor-config"
  const ConfigMountPath: string := "/etc/reticle/assessor"
  /** Where the ConfigMap volume puts the text inside the assessor. */
  const TextPath: string := "/etc/reticle/assessor/text"

  /** The environment `CreateJob` reads. */
  datatype Config = Config(assessorImage: string, relayImage: string)

  /** The configuration as `os.Getenv` reads it: each variable's value, or ""
      when the variable is unset. */
  function ConfigFromEnviron(environ: map<string, string>): (cfg: Config)
    ensures "ASSESSOR_IMAGE" in environ ==> cfg.assessorImage == environ["ASSESSOR_IMAGE"]
    ensures "ASSESSOR_IMAGE" !in environ ==> cfg.assessorImage == ""
    ensures "RELAY_IMAGE" in environ ==> cfg.relayImage == environ["RELAY_IMAGE"]
    ensures "RELAY_IMAGE" !in environ ==> cfg.relayImage == ""
  {
    Config(Environment.Getenv(environ, "ASSESSOR_IMAGE"), Environment.Getenv(environ, "RELAY_IMAGE"))
  }

  /** The step that failed, with the error it reported. */
  datatype CreateError =
    | ClientsetFailed(reason: string)
    | ConfigMapCreateFailed(status: StatusError)
    | JobCreateFailed(status: StatusError)

  /** The ConfigMap record: named `name`, holding `text` under "text" and
      nothing else. */
  function TextConfigMap(name: string, text: string): (cm: ConfigMap)
    ensures cm.meta == NamedMeta(name)
    ensures cm.data.Keys == {TextKey} && cm.data[TextKey] == text
  {
    ConfigMap(NamedMeta(name), map[TextKey := text])
  }

  /** The pod: the assessor, which alone mounts the one volume (the ConfigMap
      `cmName`), then the relay. Neither has environment variables, and the
      restart policy is left unset. */
  function RunPod(cfg: Config, cmName: string): (pod: PodSpec)
    ensures |pod.containers| == 2
    ensures pod.containers[0].name == "assessor" && pod.containers[1].name == "relay"
    ensures pod.containers[0].image == cfg.assessorImage && pod.containers[1].image == cfg.relayImage
    ensures pod.containers[0].command == ["/opt/reticle/assessor"]
    ensures pod.containers[1].command == ["/opt/reticle/relay"]
    ensures pod.containers[0].env == [] && pod.containers[1].env == []
    ensures pod.containers[0].volumeMounts == [VolumeMount(ConfigVolume, ConfigMountPath)]
    ensures pod.containers[1].volumeMounts == []
    ensures pod.volumes == [Volume(ConfigVolume, cmName)]
    ensures pod.restartPolicy == ""
  {
    var mount := VolumeMount(ConfigVolume, ConfigMountPath);
    var assessor := Container("assessor", cfg.assessorImage, ["/opt/reticle/assessor"], [], [mount]);
    var relay := Container("relay", cfg.relayImage, ["/opt/reticle/relay"], [], []);
    PodSpec([assessor, relay], [Volume(ConfigVolume, cmName)], "")
  }

  /** The Job record: named `name`, running `RunPod`. */
  function RunJob(name: string, cfg: Config, cmName: string): (job: Job)
    ensures job.meta == NamedMeta(name)
    ensures job.template == RunPod(cfg, cmName)
  {
    Job(NamedMeta(name), RunPod(cfg, cmName))
  }

  /** Once the ConfigMap the volume names exists with `text` under "text", the
      assessor reads `text` at /etc/reticle/assessor/text, and the relay,
      which mounts nothing, reads no file at all. */
  lemma TextReadable(cfg: Config, cmName: string, configMaps: map<ObjectKey, ConfigMap>, text: string)
    requires ObjectKey(Namespace, cmName) in configMaps
    requires TextKey in configMaps[ObjectKey(Namespace, cmName)].data
    requires configMaps[ObjectKey(Namespace, cmName)].data[TextKey] == text
    ensures var pod := RunPod(cfg, cmName);
      && ContainerReads(pod, pod.containers[0], Namespace, configMaps, TextPath, text)
      && forall path, content :: !ContainerReads(pod, pod.containers[1], Namespace, configMaps, path, content)
  {
    var pod := RunPod(cfg, cmName);
    var m := VolumeMount(ConfigVolume, ConfigMountPath);
    var v := Volume(ConfigVolume, cmName);
    assert m in pod.containers[0].volumeMounts && v in pod.volumes;
    assert TextPath == ConfigMountPath + "/" + TextKey;
  }

  /** What a run of the sequence leaves: the control plane afterwards and the
      result `CreateJob` returns. */
  datatype Outcome = Outcome(after: ClusterState, result: Result<string, CreateError>)

  /** Lines 40-93 of `CreateJob` as a transformation of the control plane:
      create the ConfigMap, then the Job that mounts it by the name the control
      plane returned. A failure ends the run with nothing undone; success
      returns the name the created Job reports. */
  function Provision(s: ClusterState, faults: set<nat>, name: string, cfg: Config, text: string): (o: Outcome)
    ensures |s.calls| < |o.after.calls| <= |s.calls| + 2
    ensures o.after.calls[..|s.calls|] == s.calls
    ensures o.result.Ok? ==> o.result.value == name
    ensures s.Valid() ==> o.after.Valid()
  {
    var cmReply := CreateConfigMapStep(s, faults, Namespace, TextConfigMap(name, text));
    if cmReply.result.Err? then Outcome(cmReply.after, Err(ConfigMapCreateFailed(cmReply.result.error)))
    else
      var cm := cmReply.result.value;
      var jobReply := CreateJobStep(cmReply.after, faults, Namespace, RunJob(name, cfg, cm.meta.name));
      if jobReply.result.Err? then Outcome(jobReply.after, Err(JobCreateFailed(jobReply.result.error)))
      else Outcome(jobReply.after, Ok(jobReply.result.value.meta.name))
  }

  /** The outcome `o` of running the sequence for `name` from `s0`, told out
      step by step: the calls made, in order, and the objects stored, when
      the ConfigMap create fails, when the Job create fails, and on success. */
  ghost predicate Provisioned(s0: ClusterState, faults: set<nat>, name: string, cfg: Config, text: string, o: Outcome)
  {
    var key := ObjectKey(Namespace, name);
    var n := |s0.calls|;
    var cmSpec := TextConfigMap(name, text);
    var cm := cmSpec.(meta := Admitted(cmSpec.meta, Namespace, s0.nextUid));
    var jobSpec := RunJob(name, cfg, name);
    var job := jobSpec.(meta := Admitted(jobSpec.meta, Namespace, s0.nextUid + 1));
    var s1 := o.after;
    if n in faults || key in s0.configMaps then
      && o.result == Err(ConfigMapCreateFailed(if n in faults then ServerError(n) else AlreadyExists("configmaps", name)))
      && s1.calls == s0.calls + [Call(PostConfigMap(Namespace, cmSpec), false)]
      && s1.configMaps == s0.configMaps && s1.jobs == s0.jobs
    else if n + 1 in faults || key in s0.jobs then
      && o.result == Err(JobCreateFailed(if n + 1 in faults then ServerError(n + 1) else AlreadyExists("jobs", name)))
      && s1.calls == s0.calls + [Call(PostConfigMap(Namespace, cmSpec), true), Call(PostJob(Namespace, jobSpec), false)]
      && s1.configMaps == s0.configMaps[key := cm] && s1.jobs == s0.jobs
    else
      && o.result == Ok(name)
      && s1.calls == s0.calls + [Call(PostConfigMap(Namespace, cmSpec), true), Call(PostJob(Namespace, jobSpec), true)]
      && s1.configMaps == s0.configMaps[key := cm] && s1.jobs == s0.jobs[key := job]
  }

  /** The sequence, step by step: the calls, their order, the state a failure
      leaves behind (the ConfigMap stays when the Job create fails) and the
      state of success. */
  lemma ProvisionSteps(s0: ClusterState, faults: set<nat>, name: string, cfg: Config, text: string)
    ensures Provisioned(s0, faults, name, cfg, text, Provision(s0, faults, name, cfg, text))
  {
    var o := Provision(s0, faults, name, cfg, text);
    var key := ObjectKey(Namespace, name);
    var n := |s0.calls|;
    var cmReply := CreateConfigMapStep(s0, faults, Namespace, TextConfigMap(name, text));
    if n in faults || key in s0.configMaps {
      assert o == Outcome(cmReply.after, Err(ConfigMapCreateFailed(cmReply.result.error)));
    } else {
      assert cmReply.result.value.meta.name == name;
      var jobReply := CreateJobStep(cmReply.after, faults, Namespace, RunJob(name, cfg, name));
      assert o == Outcome(jobReply.after,
        if jobReply.result.Err? then Err(JobCreateFailed(jobReply.result.error)) else Ok(name));
    }
  }

  /** Every outcome keeps the call log in order: a failure is the last call,
      and the Job follows its ConfigMap. */
  lemma ProvisionOrderly(s0: ClusterState, faults: set<nat>, name: string, cfg: Config, text: string)
    ensures var o := Provision(s0, faults, name, cfg, text);
      Orderly(s0.calls, o.after.calls, 2, o.result.Ok?)
  {
    ProvisionSteps(s0, faults, name, cfg, text);
    ProvisionedOrderly(s0, faults, name, cfg, text, Provision(s0, faults, name, cfg, text));
  }

  /** The step-by-step account of a run implies that it keeps the log in order. */
  lemma ProvisionedOrderly(s0: ClusterState, faults: set<nat>, name: string, cfg: Config, text: string, o: Outcome)
    requires Provisioned(s0, faults, name, cfg, text, o)
    ensures Orderly(s0.calls, o.after.calls, 2, o.result.Ok?)
  {
    var n := |s0.calls|;
    var cmSpec := TextConfigMap(name, text);
    if n in faults || ObjectKey(Namespace, name) in s0.configMaps {
      var trace := [Call(PostConfigMap(Namespace, cmSpec), false)];
      assert o.after.calls == s0.calls + trace;
      OrderlyExtension(s0.calls, trace, 2, o.result.Ok?);
    } else {
      var trace := o.after.calls[n..];
      assert o.after.calls == s0.calls + trace;
      assert trace[0] == Call(PostConfigMap(Namespace, cmSpec), true);
      assert trace[1].request == PostJob(Namespace, RunJob(name, cfg, name));
      JobAfterItsConfigMap(trace, Namespace, cmSpec, RunJob(name, cfg, name));
      OrderlyExtension(s0.calls, trace, 2, o.result.Ok?);
    }
  }

  /** After a successful run named `name`: both objects exist under that one
      name, the Job runs `RunPod` over that ConfigMap, the assessor can read
      `text` and the relay reads nothing. */
  ghost predicate CreatedAndReadable(s: ClusterState, name: string, cfg: Config, text: string)
  {
    var key := ObjectKey(Namespace, name);
    && key in s.configMaps && key in s.jobs
    && s.configMaps[key].data == map[TextKey := text]
    && s.jobs[key].template == RunPod(cfg, name)
    && ContainerReads(s.jobs[key].template, s.jobs[key].template.containers[0], Namespace, s.configMaps, TextPath, text)
    && forall path, content ::
         !ContainerReads(s.jobs[key].template, s.jobs[key].template.containers[1], Namespace, s.configMaps, path, content)
  }

  /** A successful run returns the shared name and leaves a Job whose assessor
      can read the text. */
  lemma ProvisionReadable(s0: ClusterState, faults: set<nat>, name: string, cfg: Config, text: string)
    ensures var o := Provision(s0, faults, name, cfg, text);
      o.result.Ok? ==> o.result.value == name && CreatedAndReadable(o.after, name, cfg, text)
  {
    var o := Provision(s0, faults, name, cfg, text);
    ProvisionSteps(s0, faults, name, cfg, text);
    if o.result.Ok? {
      TextReadable(cfg, name, o.after.configMaps, text);
    }
  }

  /** `CreateJob`. The text must be present: the handler validates it before
      calling. Nothing reaches the control plane when the client cannot be
      built; otherwise the control plane ends as `Provision` says. */
  method CreateJob(cluster: ControlPlane, conn: Connection, uuid: string, cfg: Config, profile: Profiles.Profile)
    returns (r: Result<string, CreateError>)
    requires profile.text.Some?
    requires cluster.Valid()
    modifies cluster
    ensures cluster.Valid()
    ensures conn.Unreachable? ==> r == Err(ClientsetFailed(conn.reason)) && unchanged(cluster)
    ensures conn.Connected? ==>
      var o := Outcome(cluster.State(), r);
      && o == Provision(old(cluster.State()), cluster.faults, uuid, cfg, profile.text.value)
      && Provisioned(old(cluster.State()), cluster.faults, uuid, cfg, profile.text.value, o)
      && Orderly(old(cluster.calls), cluster.calls, 2, r.Ok?)
    ensures r.Ok? ==>
      && conn.Connected?
      && r.value == uuid
      && CreatedAndReadable(cluster.State(), uuid, cfg, profile.text.value)
  {
    if conn.Unreachable? {
      return Err(ClientsetFailed(conn.reason));
    }
    var jobName := uuid;
    var text := profile.text.value;
    ProvisionSteps(cluster.State(), cluster.faults, jobName, cfg, text);
    ProvisionOrderly(cluster.State(), cluster.faults, jobName, cfg, text);
    ProvisionReadable(cluster.State(), cluster.faults, jobName, cfg, text);
    var cmCfg := TextConfigMap(jobName, text);
    var cmResult := cluster.CreateConfigMap(Namespace, cmCfg);
    if cmResult.Err? {
      return Err(ConfigMapCreateFailed(cmResult.error));
    }
    var cm := cmResult.value;
    var jobCfg := RunJob(jobName, cfg, cm.meta.name);
    var jobResult := cluster.CreateJob(Namespace, jobCfg);
    if jobResult.Err? {
      return Err(JobCreateFailed(jobResult.error));
    }
    return Ok(jobResult.value.meta.name);
  }
}
