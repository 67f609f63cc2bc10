/** The node-agent DaemonSet of controller/node_agent.go. */
module NodeAgent {
  import opened Wrappers
  import opened K8s
  import opened CorootApi
  import opened CorootBuilders

  /** Where node agents send telemetry: the operator's own Coroot, or the external one in agents-only mode. */
  function CollectorEndpoint(cr: Coroot): (url: string)
    ensures cr.spec.agentsOnly.None? ==> url == "http://" + cr.name + "-coroot." + cr.namespace + ":8080"
    ensures cr.spec.agentsOnly.Some? ==> url == cr.spec.agentsOnly.value.corootURL
  {
    if cr.spec.agentsOnly.Some? then cr.spec.agentsOnly.value.corootURL
    else "http://" + cr.name + "-coroot." + cr.namespace + ":8080"
  }

  /** Where the agent finds the host's cgroup hierarchy inside its container. */
  const CgroupfsRootArg: string := "--cgroupfs-root=/host/sys/fs/cgroup"

  /** The host directories the agent reads, followed by its scratch directory. */
  const NodeAgentVolumes: seq<Volume> :=
    [Volume("cgroupfs", HostPath("/sys/fs/cgroup")),
     Volume("tracefs", HostPath("/sys/kernel/tracing")),
     Volume("debugfs", HostPath("/sys/kernel/debug")),
     Volume("tmp", EmptyDir)]

  const NodeAgentMounts: seq<VolumeMount> :=
    [VolumeMount("cgroupfs", "/host/sys/fs/cgroup", true),
     VolumeMount("tracefs", "/sys/kernel/tracing", false),
     VolumeMount("debugfs", "/sys/kernel/debug", false),
     VolumeMount("tmp", "/tmp", false)]

  /** Every volume is mounted under its own name, and only the cgroup filesystem is mounted read-only. */
  lemma MountsMatchVolumes()
    ensures |NodeAgentVolumes| == |NodeAgentMounts| == 4
    ensures forall i | 0 <= i < 4 :: NodeAgentMounts[i].name == NodeAgentVolumes[i].name
    ensures forall i | 0 <= i < 4 :: NodeAgentMounts[i].readOnly <==> NodeAgentVolumes[i].name == "cgroupfs"
    ensures [NodeAgentVolumes[0].name, NodeAgentVolumes[1].name, NodeAgentVolumes[2].name, NodeAgentVolumes[3].name]
            == ["cgroupfs", "tracefs", "debugfs", "tmp"]
  {
    assert "tracefs" != "cgroupfs" && "debugfs" != "cgroupfs" && "tmp" != "cgroupfs";
  }

  /** The node agent's environment: collector endpoint, API key and scrape interval, then the user's variables. */
  function NodeAgentEnv(cr: Coroot): seq<EnvVar> {
    [Var("COLLECTOR_ENDPOINT", CollectorEndpoint(cr)),
     Var("API_KEY", cr.spec.apiKey),
     Var("SCRAPE_INTERVAL", RefreshInterval(cr.spec.metricsRefreshInterval))]
    + cr.spec.nodeAgent.env
  }

  /** The DaemonSet `nodeAgentDaemonSet` builds, as a value. */
  function NodeAgentDaemonSetOf(cr: Coroot, appImage: (Coroot, App) -> string): DaemonSetObj {
    var ls := Labels(cr, "coroot-node-agent");
    var agent := Container("node-agent", appImage(cr, AppNodeAgent), [], [CgroupfsRootArg],
                           NodeAgentEnv(cr), NodeAgentMounts, true);
    Object(BareMeta(cr.name + "-node-agent", cr.namespace, ls),
           DaemonSetBody(ls, cr.spec.nodeAgent.updateStrategy,
                         PodTemplate(ls, map[], PodSpec("", true, cr.spec.nodeAgent.priorityClassName,
                                                        [Toleration("", "Exists", "")], [], [agent], NodeAgentVolumes))))
  }

  /** `nodeAgentDaemonSet`: one privileged agent per node, tolerating every taint. */
  method NodeAgentDaemonSet(cr: Coroot, appImage: (Coroot, App) -> string) returns (ds: DaemonSetObj)
    ensures ds == NodeAgentDaemonSetOf(cr, appImage)
    ensures KeyOf(ds) == Key(DaemonSetKind, cr.namespace, cr.name + "-node-agent")
    ensures ds.meta.labels == Labels(cr, "coroot-node-agent") && ds.body.selector == Labels(cr, "coroot-node-agent")
    ensures ds.meta.annotations == map[] && ds.meta.controller.None?
    ensures ds.body.updateStrategy == cr.spec.nodeAgent.updateStrategy
    ensures ds.body.template.labels == Labels(cr, "coroot-node-agent")
    ensures var pod := ds.body.template.spec;
            && pod.hostPID
            && pod.tolerations == [Toleration("", "Exists", "")]
            && pod.priorityClassName == cr.spec.nodeAgent.priorityClassName
            && pod.initContainers == []
            && pod.volumes == NodeAgentVolumes
            && |pod.containers| == 1
    ensures var c := ds.body.template.spec.containers[0];
            && c.name == "node-agent" && c.privileged
            && c.image == appImage(cr, AppNodeAgent)
            && c.args == ["--cgroupfs-root=/host/sys/fs/cgroup"]
            && c.volumeMounts == NodeAgentMounts
            && c.env == [Var("COLLECTOR_ENDPOINT", CollectorEndpoint(cr)),
                         Var("API_KEY", cr.spec.apiKey),
                         Var("SCRAPE_INTERVAL", RefreshInterval(cr.spec.metricsRefreshInterval))]
                        + cr.spec.nodeAgent.env
  {
    var ls := Labels(cr, "coroot-node-agent");
    var meta := BareMeta(cr.name + "-node-agent", cr.namespace, ls);

    var collectorEndpoint := "http://" + cr.name + "-coroot." + cr.namespace + ":8080";
    if cr.spec.agentsOnly.Some? {
      collectorEndpoint := cr.spec.agentsOnly.value.corootURL;
    }
    var scrapeInterval := cr.spec.metricsRefreshInterval.text;
    if cr.spec.metricsRefreshInterval.nanos == 0 {
      scrapeInterval := DefaultMetricRefreshInterval;
    }
    var env := [Var("COLLECTOR_ENDPOINT", collectorEndpoint),
                Var("API_KEY", cr.spec.apiKey),
                Var("SCRAPE_INTERVAL", scrapeInterval)];
    ghost var head := env;
    var i := 0;
    while i < |cr.spec.nodeAgent.env|
      invariant 0 <= i <= |cr.spec.nodeAgent.env|
      invariant env == head + cr.spec.nodeAgent.env[..i]
    {
      env := env + [cr.spec.nodeAgent.env[i]];
      i := i + 1;
    }
    assert cr.spec.nodeAgent.env[..i] == cr.spec.nodeAgent.env;

    var image := appImage(cr, AppNodeAgent);
    var agent := Container("node-agent", image, [], [CgroupfsRootArg],
                           env, NodeAgentMounts, true);
    var pod := PodSpec("", true, cr.spec.nodeAgent.priorityClassName, [Toleration("", "Exists", "")],
                       [], [agent], NodeAgentVolumes);
    ds := Object(meta, DaemonSetBody(ls, cr.spec.nodeAgent.updateStrategy, PodTemplate(ls, map[], pod)));
  }
}
