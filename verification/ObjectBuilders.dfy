/** The builders of helper pods and PersistentVolumes. A builder method that gets a value it
    cannot use records an error and sets nothing; Build fails when any was recorded. */
module ObjectBuilders {
  import opened Wrappers
  import opened NodeSelection
  import opened HostpathMachine

  /** What a command line does, in a pod that finds the directory it works on under /data. The
      script that sets a quota is not spelled out. */
  predicate Does(line: seq<string>, command: Command, dir: string) {
    match command
    case MakeDir => line == ["mkdir", "-m", "0777", "-p", "/data/" + dir]
    case RemoveDir => line == ["rm", "-rf", "/data/" + dir]
    case SetQuota(_, _) => |line| == 3 && line[..2] == ["sh", "-c"]
  }

  class PodBuilder {
    var errs: seq<string>
    var name: string
    var serviceAccountName: string
    var affinity: NodeSelector
    var tolerations: seq<Toleration>
    var command: Command
    var hostDirectory: Path

    constructor ()
      ensures errs == [] && tolerations == []
    {
      errs, name, serviceAccountName, tolerations := [], "", "", [];
      affinity, command, hostDirectory := NodeSelector([]), MakeDir, [];
    }

    method WithName(name: string)
      modifies this`errs, this`name
      ensures errs == [] <==> old(errs) == [] && name != ""
      ensures name != "" ==> this.name == name
    {
      if |name| == 0 {
        errs := errs + ["missing Pod name"];
        return;
      }
      this.name := name;
    }

    method WithServiceAccountName(serviceAccountName: string)
      modifies this`errs, this`serviceAccountName
      ensures errs == [] <==> old(errs) == [] && serviceAccountName != ""
      ensures serviceAccountName != "" ==> this.serviceAccountName == serviceAccountName
    {
      if |serviceAccountName| == 0 {
        errs := errs + ["missing Pod service account name"];
        return;
      }
      this.serviceAccountName := serviceAccountName;
    }

    method WithNodeAffinityNew(labels: Labels)
      modifies this`errs, this`affinity
      ensures errs == [] <==> old(errs) == [] && Wanted(labels) != map[]
      ensures Wanted(labels) != map[] ==> Encodes(affinity, labels)
    {
      if |labels| == 0 {
        errs := errs + ["missing node labels"];
        assert labels == map[];
        return;
      }
      var matchExpressions := MatchExpressions(labels);
      if |matchExpressions| == 0 {
        errs := errs + ["missing node label values"];
        return;
      }
      affinity := NodeSelector([matchExpressions]);
    }

    method AddTolerations(taints: seq<Taint>)
      modifies this`tolerations
      ensures tolerations == old(tolerations) + TolerationsFor(taints)
    {
      tolerations := WithTolerationsForTaints(tolerations, taints);
    }

    /** The container: it needs an image and a command line. */
    method WithContainer(image: string, cmds: seq<string>, ghost dir: string, command: Command)
      requires cmds != [] ==> Does(cmds, command, dir)
      modifies this`errs, this`command
      ensures errs == [] <==> old(errs) == [] && image != "" && cmds != []
      ensures this.command == command
    {
      if |image| == 0 {
        errs := errs + ["missing image"];
      }
      if |cmds| == 0 {
        errs := errs + ["missing command"];
      }
      this.command := command;
    }

    method WithHostDirectory(path: Path)
      modifies this`errs, this`hostDirectory
      ensures errs == [] <==> old(errs) == [] && path != []
      ensures path != [] ==> hostDirectory == path
    {
      if |path| == 0 {
        errs := errs + ["missing volume path"];
        return;
      }
      hostDirectory := path;
    }

    method Build(dir: string) returns (r: Result<Pod>)
      ensures r.Success? <==> errs == []
      ensures r.Success? ==> r.value == Pod(command, hostDirectory, dir, affinity, tolerations, Waiting)
    {
      if |errs| > 0 {
        return Failure(errs[0]);
      }
      return Success(Pod(command, hostDirectory, dir, affinity, tolerations, Waiting));
    }
  }

  class PersistentVolumeBuilder {
    var errs: seq<string>
    var name: string
    var path: Path
    var device: string
    var fsType: string
    var affinity: NodeSelector
    var retain: bool

    constructor ()
      ensures errs == []
    {
      errs, name, path, device, fsType := [], "", [], "", "";
      affinity, retain := NodeSelector([]), false;
    }

    method WithName(name: string)
      modifies this`errs, this`name
      ensures errs == [] <==> old(errs) == [] && name != ""
      ensures name != "" ==> this.name == name
    {
      if |name| == 0 {
        errs := errs + ["missing PV name"];
        return;
      }
      this.name := name;
    }

    method WithReclaimPolicy(retain: bool)
      modifies this`retain
      ensures this.retain == retain
    {
      this.retain := retain;
    }

    method WithAccessModes(modes: nat)
      modifies this`errs
      ensures errs == [] <==> old(errs) == [] && modes > 0
    {
      if modes == 0 {
        errs := errs + ["missing accessmodes"];
      }
    }

    method WithLocalHostDirectory(path: Path)
      modifies this`errs, this`path
      ensures errs == [] <==> old(errs) == [] && path != []
      ensures path != [] ==> this.path == path
    {
      if |path| == 0 {
        errs := errs + ["missing PV path"];
        return;
      }
      this.path := path;
    }

    method WithLocalHostPathFormat(device: string, fsType: string)
      modifies this`errs, this`device, this`fsType
      ensures errs == [] <==> old(errs) == [] && device != ""
      ensures device != "" ==> this.device == device && this.fsType == fsType
    {
      if |device| == 0 {
        errs := errs + ["missing PV path"];
        return;
      }
      this.device, this.fsType := device, fsType;
    }

    method WithNodeAffinity(labels: Labels)
      modifies this`errs, this`affinity
      ensures errs == [] <==> old(errs) == [] && Wanted(labels) != map[]
      ensures Wanted(labels) != map[] ==> Encodes(affinity, labels)
    {
      if |labels| == 0 {
        errs := errs + ["missing PV node labels"];
        assert labels == map[];
        return;
      }
      var matchExpressions := MatchExpressions(labels);
      if |matchExpressions| == 0 {
        errs := errs + ["missing PV node label values"];
        return;
      }
      affinity := NodeSelector([matchExpressions]);
    }

    method Build() returns (r: Result<Volume>)
      ensures r.Success? <==> errs == []
      ensures r.Success? ==> r.value == Volume(path, affinity, retain)
    {
      if |errs| > 0 {
        return Failure(errs[0]);
      }
      return Success(Volume(path, affinity, retain));
    }
  }

  /** The pod launchPod builds. It can be built exactly when everything it needs is there and
      some label has a value; it is then bound to the nodes carrying those labels, tolerates
      every taint it was given, and does what its command line says. */
  method BuildHelperPod(name: string, labels: Labels, serviceAccountName: string, taints: seq<Taint>,
                        image: string, cmds: seq<string>, command: Command, parentDir: Path, volumeDir: string)
    returns (r: Result<Pod>)
    requires cmds != [] ==> Does(cmds, command, volumeDir)
    ensures r.Success? <==>
      name != "" && serviceAccountName != "" && image != "" && cmds != [] && parentDir != [] && Wanted(labels) != map[]
    ensures r.Success? ==>
      && r.value.command == command && r.value.mount == parentDir && r.value.dir == volumeDir
      && r.value.phase == Waiting
      && BuiltFor(r.value, labels, taints) && AllTolerated(r.value.tolerations, taints)
  {
    var b := new PodBuilder();
    b.WithName(name);
    b.WithNodeAffinityNew(labels);
    b.WithServiceAccountName(serviceAccountName);
    b.AddTolerations(taints);
    b.WithContainer(image, cmds, volumeDir, command);
    b.WithHostDirectory(parentDir);
    r := b.Build(volumeDir);
    TheirTaintsAreTolerated(taints);
    assert [] + TolerationsFor(taints) == TolerationsFor(taints);
  }

  /** A pod as it is built from these labels and taints. */
  predicate BuiltFor(pod: Pod, labels: Labels, taints: seq<Taint>) {
    Encodes(pod.affinity, labels) && pod.tolerations == TolerationsFor(taints)
  }

  /** Such a pod can be scheduled on a node that carries the labels and has the taints. */
  lemma BuiltForNode(pod: Pod, labels: Labels, node: Node)
    requires BuiltFor(pod, labels, node.taints) && Carries(node.labels, Wanted(labels))
    ensures Schedulable(pod, node)
  {
    EncodingSelects(pod.affinity, labels, node.labels);
    TheirTaintsAreTolerated(node.taints);
  }

  /** What provisioning does for each of its helper pods, from the configured label keys and
      the selected node on: whenever the pod can be built, it can be scheduled on that node,
      whatever the node's labels and taints are; and on no node with other values for those
      keys. It can be built exactly when the node has a value for one of them. */
  method BuildForSelectedNode(name: string, keys: Option<seq<string>>, node: Node, serviceAccountName: string,
                              image: string, cmds: seq<string>, command: Command, parentDir: Path, volumeDir: string)
    returns (r: Result<Pod>)
    requires cmds != [] ==> Does(cmds, command, volumeDir)
    ensures r.Success? ==> Schedulable(r.value, node)
    ensures r.Success? ==> SelectsAlike(r.value.affinity, keys, node.labels)
    ensures r.Success? ==> forall t :: Tolerated(r.value.tolerations, t) <==> Covered(node.taints, t)
    ensures r.Success? ==> Target(r.value) == parentDir + [volumeDir] && r.value.command == command
    ensures name != "" && serviceAccountName != "" && image != "" && cmds != [] && parentDir != [] ==>
      (r.Success? <==>
         exists k | k in node.labels && node.labels[k] != "" :: if keys.None? then k == HostnameKey else k in keys.value)
  {
    var labels := NodeAffinityLabels(keys, node.labels);
    r := BuildHelperPod(name, labels, serviceAccountName, node.taints, image, cmds, command, parentDir, volumeDir);
    if r.Success? {
      BuiltForNode(r.value, labels, node);
      EncodingSelectsAlike(r.value.affinity, labels, keys, node.labels);
      forall t
        ensures Tolerated(r.value.tolerations, t) <==> Covered(node.taints, t)
      {
        ToleratedAreCovered(node.taints, t);
      }
    }
  }

  /** The whole chain of a hostpath PV. It can be built exactly when it has a name, an access
      mode, a path and a label with a value; its affinity then selects exactly the nodes that
      carry the labels that have a value. */
  method BuildPersistentVolume(name: string, retain: bool, accessModes: nat, path: Path, labels: Labels) returns (r: Result<Volume>)
    ensures r.Success? <==> name != "" && accessModes > 0 && path != [] && Wanted(labels) != map[]
    ensures r.Success? ==>
      && r.value.path == path && r.value.retain == retain && Encodes(r.value.affinity, labels)
      && forall node: Labels :: Selects(r.value.affinity, node) <==> Carries(node, Wanted(labels))
  {
    var builder := new PersistentVolumeBuilder();
    builder.WithName(name);
    builder.WithReclaimPolicy(retain);
    builder.WithAccessModes(accessModes);
    builder.WithLocalHostDirectory(path);
    builder.WithNodeAffinity(labels);
    r := builder.Build();
    if r.Success? {
      forall node: Labels
        ensures Selects(r.value.affinity, node) <==> Carries(node, Wanted(labels))
      {
        EncodingSelects(r.value.affinity, labels, node);
      }
    }
  }
}
