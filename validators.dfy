/** The validators. Each looks at one part of the configuration and returns
    Pass or the message of the FIRST rule it breaks, in a fixed rule order.
    Whether a file exists and whether a certificate/key pair loads are
    questions about the host, passed in as `files` (the paths that exist)
    and `keyPairs` (the certificate/key path pairs that load as a matching
    pair). */
module Validators {
  import opened ClusterConfig
  import opened Network
  import opened KubeVersion

  function FileNotFound(path: string, field: string): string
  {
    "no file found at path: \"" + path + "\" for field: \"" + field + "\""
  }

  // ---------------------------------------------------------------- globals

  const Tracks: set<string> := {"eks", "wks-ssh", "wks-footloose"}
  const TrackMissing := "track must be specified"
  const UserMissing := "dockerIOUser must be specified"
  const PasswordFileMissing := "dockerIOPasswordFile must be specified"
  const TrackInvalid := "track must be one of: 'eks', 'wks-ssh', or 'wks-footloose'"

  /** `checkRequiredGlobalValues`: a recognised track, then both registry
      credentials. The password file is only required to be named here. */
  function CheckRequiredGlobalValues(conf: Config): (r: Outcome)
    reads conf
    ensures r.Pass? <==> conf.track in Tracks && conf.dockerIOUser != "" && conf.dockerIOPasswordFile != ""
    ensures conf.track == "" ==> r == Fail(TrackMissing)
    ensures conf.track != "" && conf.track !in Tracks ==> r == Fail(TrackInvalid)
    ensures conf.track in Tracks && conf.dockerIOUser == "" ==> r == Fail(UserMissing)
    ensures (conf.track in Tracks && conf.dockerIOUser != "" && conf.dockerIOPasswordFile == "") ==>
      r == Fail(PasswordFileMissing)
  {
    if conf.track == "" then Fail(TrackMissing)
    else if conf.track !in Tracks then Fail(TrackInvalid)
    else if conf.dockerIOUser == "" then Fail(UserMissing)
    else if conf.dockerIOPasswordFile == "" then Fail(PasswordFileMissing)
    else Pass
  }

  // -------------------------------------------------------------------- git

  const GitProviderInvalid := "gitProvider must be one of: 'github' or 'gitlab'"
  const GitlabUrlMissing := "Please provide the url to your gitlab git repository in: gitUrl"
  const GithubOrgMissing := "Please provide the gitProviderOrg where the repository will be created"

  /** `checkRequiredGitValues`: gitlab needs the repository URL, github the
      organisation the repository will be created in. */
  function CheckRequiredGitValues(conf: Config): (r: Outcome)
    reads conf
    ensures r.Pass? <==>
      || (conf.gitProvider == "gitlab" && conf.gitUrl != "")
      || (conf.gitProvider == "github" && conf.gitProviderOrg != "")
    ensures conf.gitProvider != "github" && conf.gitProvider != "gitlab" ==> r == Fail(GitProviderInvalid)
    ensures conf.gitProvider == "gitlab" && conf.gitUrl == "" ==> r == Fail(GitlabUrlMissing)
    ensures conf.gitProvider == "github" && conf.gitProviderOrg == "" ==> r == Fail(GithubOrgMissing)
  {
    if conf.gitProvider != "github" && conf.gitProvider != "gitlab" then Fail(GitProviderInvalid)
    else if conf.gitProvider == "gitlab" && conf.gitUrl == "" then Fail(GitlabUrlMissing)
    else if conf.gitProvider == "github" && conf.gitProviderOrg == "" then Fail(GithubOrgMissing)
    else Pass
  }

  // --------------------------------------------------------- sealed secrets

  const SealedSecretsIncomplete := "please provide both the private key and certificate for the sealed secrets controller"
  const KeyPairMismatch := "could not load key and certificate pair"

  /** `validateSealedSecretsValues`: neither path, or both paths naming a
      certificate and a private key that belong together. */
  function ValidateSealedSecretsValues(conf: Config, keyPairs: set<(string, string)>): (r: Outcome)
    reads conf
    ensures r.Pass? <==>
      var cert, key := conf.sealedSecretsCertificate, conf.sealedSecretsPrivateKey;
      (cert == "" && key == "") || (cert != "" && key != "" && (cert, key) in keyPairs)
    ensures (conf.sealedSecretsCertificate == "") != (conf.sealedSecretsPrivateKey == "") ==>
      r == Fail(SealedSecretsIncomplete)
    ensures (conf.sealedSecretsCertificate != "" && conf.sealedSecretsPrivateKey != "" &&
             (conf.sealedSecretsCertificate, conf.sealedSecretsPrivateKey) !in keyPairs) ==>
      r == Fail(KeyPairMismatch)
  {
    var cert, key := conf.sealedSecretsCertificate, conf.sealedSecretsPrivateKey;
    if cert == "" && key == "" then Pass
    else if cert == "" || key == "" then Fail(SealedSecretsIncomplete)
    else if (cert, key) !in keyPairs then Fail(KeyPairMismatch)
    else Pass
  }

  // -------------------------------------------------------------------- eks

  const VersionRequired := "A Kubernetes version must be specified"
  const RegionMissing := "clusterRegion must be specified"
  const EKSVersionInvalid := "Kubernetes version must be one of: \"1.14\" or \"1.15\""
  const CapacityTooSmall := "A node group must have a capacity of at least 1"

  /** A capacity that was given (non-zero) and is below 1. */
  predicate BadCapacity(ng: NodeGroup)
  {
    ng.desiredCapacity != 0 && ng.desiredCapacity < 1
  }

  /** The node-group loop of the EKS check. */
  function CheckNodeGroups(ngs: seq<NodeGroup>): (r: Outcome)
    ensures r.Pass? <==> forall i :: 0 <= i < |ngs| ==> !BadCapacity(ngs[i])
    ensures r.Fail? ==> r.message == CapacityTooSmall
    decreases |ngs|
  {
    if ngs == [] then Pass
    else if BadCapacity(ngs[0]) then Fail(CapacityTooSmall)
    else
      var rest := CheckNodeGroups(ngs[1..]);
      assert forall i :: 1 <= i < |ngs| ==> ngs[i] == ngs[1..][i - 1];
      rest
  }

  /** `checkRequiredEKSValues`: version and region present, the version one
      of the two supported minor releases, the node-group file (if named)
      present, and no node group with a given capacity below 1. */
  function CheckRequiredEKSValues(eks: EKSConfig, files: set<string>): (r: Outcome)
    reads eks
    ensures r.Pass? <==>
      && IsEKSVersion(eks.kubernetesVersion)
      && eks.clusterRegion != ""
      && (eks.managedNodeGroupFile == "" || eks.managedNodeGroupFile in files)
      && forall i :: 0 <= i < |eks.nodeGroups| ==> !BadCapacity(eks.nodeGroups[i])
    ensures eks.kubernetesVersion == "" ==> r == Fail(VersionRequired)
    ensures eks.kubernetesVersion != "" && eks.clusterRegion == "" ==> r == Fail(RegionMissing)
    ensures (eks.kubernetesVersion != "" && eks.clusterRegion != "" && !IsEKSVersion(eks.kubernetesVersion)) ==>
      r == Fail(EKSVersionInvalid)
    ensures (IsEKSVersion(eks.kubernetesVersion) && eks.clusterRegion != "" &&
             eks.managedNodeGroupFile != "" && eks.managedNodeGroupFile !in files) ==>
      r == Fail(FileNotFound(eks.managedNodeGroupFile, "managedNodeGroupFile"))
    ensures (IsEKSVersion(eks.kubernetesVersion) && eks.clusterRegion != "" &&
             (eks.managedNodeGroupFile == "" || eks.managedNodeGroupFile in files) &&
             exists i :: 0 <= i < |eks.nodeGroups| && BadCapacity(eks.nodeGroups[i])) ==>
      r == Fail(CapacityTooSmall)
  {
    if eks.kubernetesVersion == "" then Fail(VersionRequired)
    else if eks.clusterRegion == "" then Fail(RegionMissing)
    else if !IsEKSVersion(eks.kubernetesVersion) then Fail(EKSVersionInvalid)
    else if eks.managedNodeGroupFile != "" && eks.managedNodeGroupFile !in files then
      Fail(FileNotFound(eks.managedNodeGroupFile, "managedNodeGroupFile"))
    else CheckNodeGroups(eks.nodeGroups)
  }

  // -------------------------------------------------------------------- wks

  const NoServiceCIDR := "At least one service CIDR block must be specified"
  const NoPodCIDR := "At least one pod CIDR block must be specified"

  function InvalidWKSVersion(v: string): string
  {
    v + " is not a valid Kubernetes version; must be 1.14.x-1.15.x"
  }

  function InvalidCIDR(block: string): string
  {
    block + " is not a valid CIDR specification"
  }

  function InvalidLbAddress(address: string): string
  {
    address + " is not a valid control plane load balancer address; must be a valid IP address or a domain name"
  }

  predicate AllCIDR(blocks: seq<string>)
  {
    forall i :: 0 <= i < |blocks| ==> IsCIDR(blocks[i])
  }

  /** The CIDR loop: the first block that does not parse is reported. */
  function CheckCIDRBlocks(blocks: seq<string>): (r: Outcome)
    ensures r.Pass? <==> AllCIDR(blocks)
    ensures r.Fail? ==>
      exists i :: 0 <= i < |blocks| && !IsCIDR(blocks[i]) &&
        r.message == InvalidCIDR(blocks[i]) && forall j :: 0 <= j < i ==> IsCIDR(blocks[j])
    decreases |blocks|
  {
    if blocks == [] then Pass
    else if !IsCIDR(blocks[0]) then Fail(InvalidCIDR(blocks[0]))
    else
      var rest := CheckCIDRBlocks(blocks[1..]);
      assert forall i :: 1 <= i < |blocks| ==> blocks[i] == blocks[1..][i - 1];
      rest
  }

  lemma AllCIDRConcat(a: seq<string>, b: seq<string>)
    ensures AllCIDR(a + b) <==> AllCIDR(a) && AllCIDR(b)
  {
    assert forall i :: 0 <= i < |a| ==> a[i] == (a + b)[i];
    assert forall i :: 0 <= i < |b| ==> b[i] == (a + b)[|a| + i];
    if AllCIDR(a) && AllCIDR(b) {
      forall k | 0 <= k < |a + b| ensures IsCIDR((a + b)[k]) {
        if k >= |a| {
          assert (a + b)[k] == b[k - |a|];
        }
      }
    }
  }

  /** `checkRequiredWKSValues`: version and both CIDR lists present, the
      version in 1.14.x-1.15.x, every service then every pod block a valid
      CIDR, and the load-balancer address (if given) an IPv4 address or a
      domain name. */
  function CheckRequiredWKSValues(wks: WKSConfig): (r: Outcome)
    reads wks
    ensures r.Pass? <==>
      && IsWKSVersion(wks.kubernetesVersion)
      && |wks.serviceCIDRBlocks| > 0 && |wks.podCIDRBlocks| > 0
      && AllCIDR(wks.serviceCIDRBlocks) && AllCIDR(wks.podCIDRBlocks)
      && (wks.controlPlaneLbAddress == "" || IsLoadBalancerAddress(wks.controlPlaneLbAddress))
    ensures wks.kubernetesVersion == "" ==> r == Fail(VersionRequired)
    ensures wks.kubernetesVersion != "" && |wks.serviceCIDRBlocks| == 0 ==> r == Fail(NoServiceCIDR)
    ensures (wks.kubernetesVersion != "" && |wks.serviceCIDRBlocks| > 0 && |wks.podCIDRBlocks| == 0) ==>
      r == Fail(NoPodCIDR)
    ensures (wks.kubernetesVersion != "" && |wks.serviceCIDRBlocks| > 0 && |wks.podCIDRBlocks| > 0 &&
             !IsWKSVersion(wks.kubernetesVersion)) ==>
      r == Fail(InvalidWKSVersion(wks.kubernetesVersion))
    ensures (r.Fail? && IsWKSVersion(wks.kubernetesVersion) && |wks.serviceCIDRBlocks| > 0 &&
             |wks.podCIDRBlocks| > 0 && !AllCIDR(wks.serviceCIDRBlocks + wks.podCIDRBlocks)) ==>
      exists i :: 0 <= i < |wks.serviceCIDRBlocks + wks.podCIDRBlocks| &&
        r.message == InvalidCIDR((wks.serviceCIDRBlocks + wks.podCIDRBlocks)[i]) &&
        !IsCIDR((wks.serviceCIDRBlocks + wks.podCIDRBlocks)[i]) &&
        forall j :: 0 <= j < i ==> IsCIDR((wks.serviceCIDRBlocks + wks.podCIDRBlocks)[j])
    ensures (r.Fail? && IsWKSVersion(wks.kubernetesVersion) && |wks.serviceCIDRBlocks| > 0 &&
             |wks.podCIDRBlocks| > 0 && AllCIDR(wks.serviceCIDRBlocks + wks.podCIDRBlocks)) ==>
      r == Fail(InvalidLbAddress(wks.controlPlaneLbAddress))
  {
    var blocks := wks.serviceCIDRBlocks + wks.podCIDRBlocks;
    AllCIDRConcat(wks.serviceCIDRBlocks, wks.podCIDRBlocks);
    if wks.kubernetesVersion == "" then Fail(VersionRequired)
    else if |wks.serviceCIDRBlocks| == 0 then Fail(NoServiceCIDR)
    else if |wks.podCIDRBlocks| == 0 then Fail(NoPodCIDR)
    else if !IsWKSVersion(wks.kubernetesVersion) then Fail(InvalidWKSVersion(wks.kubernetesVersion))
    else if CheckCIDRBlocks(blocks).Fail? then CheckCIDRBlocks(blocks)
    else if wks.controlPlaneLbAddress != "" && !IsLoadBalancerAddress(wks.controlPlaneLbAddress) then
      Fail(InvalidLbAddress(wks.controlPlaneLbAddress))
    else Pass
  }

  // -------------------------------------------------------------------- ssh

  const NoMachines := "No machine information provided"
  const RoleMissing := "A role ('master' or 'worker') must be specified for each machine"
  const MachineSetInvalid := "Invalid machine set. At least one master and one worker must be specified."

  function InvalidRole(role: string): string
  {
    "Invalid machine role: '" + role + "'. Only 'master' and 'worker' are valid."
  }

  predicate ValidRole(role: string)
  {
    role == "master" || role == "worker"
  }

  /** What is wrong with one machine's role, if anything. */
  function RoleError(role: string): (r: Outcome)
    ensures r.Pass? <==> ValidRole(role)
    ensures role == "" ==> r == Fail(RoleMissing)
    ensures role != "" && !ValidRole(role) ==> r == Fail(InvalidRole(role))
  {
    if role == "" then Fail(RoleMissing)
    else if !ValidRole(role) then Fail(InvalidRole(role))
    else Pass
  }

  /** The per-machine loop: the first machine whose role is missing or
      unknown is reported. */
  function CheckMachineRoles(machines: seq<Machine>): (r: Outcome)
    ensures r.Pass? <==> forall i :: 0 <= i < |machines| ==> ValidRole(machines[i].role)
    ensures r.Fail? ==>
      exists i :: 0 <= i < |machines| && r == RoleError(machines[i].role) &&
        !ValidRole(machines[i].role) && forall j :: 0 <= j < i ==> ValidRole(machines[j].role)
    decreases |machines|
  {
    if machines == [] then Pass
    else if RoleError(machines[0].role).Fail? then RoleError(machines[0].role)
    else
      var rest := CheckMachineRoles(machines[1..]);
      assert forall i :: 1 <= i < |machines| ==> machines[i] == machines[1..][i - 1];
      rest
  }

  predicate HasRole(machines: seq<Machine>, role: string)
  {
    exists i :: 0 <= i < |machines| && machines[i].role == role
  }

  /** `checkRequiredSSHValues`: at least one machine; every machine's role
      given and valid (checked before the counts); a master and a worker
      among them; the SSH key file (if named) present. */
  function CheckRequiredSSHValues(ssh: SSHConfig, files: set<string>): (r: Outcome)
    reads ssh
    ensures r.Pass? <==>
      && |ssh.machines| > 0
      && (forall i :: 0 <= i < |ssh.machines| ==> ValidRole(ssh.machines[i].role))
      && HasRole(ssh.machines, "master") && HasRole(ssh.machines, "worker")
      && (ssh.sshKeyFile == "" || ssh.sshKeyFile in files)
    ensures |ssh.machines| == 0 ==> r == Fail(NoMachines)
    ensures (exists i :: 0 <= i < |ssh.machines| && !ValidRole(ssh.machines[i].role)) ==>
      exists i :: 0 <= i < |ssh.machines| && r == RoleError(ssh.machines[i].role) &&
        !ValidRole(ssh.machines[i].role) && forall j :: 0 <= j < i ==> ValidRole(ssh.machines[j].role)
    ensures (|ssh.machines| > 0 && (forall i :: 0 <= i < |ssh.machines| ==> ValidRole(ssh.machines[i].role)) &&
             !(HasRole(ssh.machines, "master") && HasRole(ssh.machines, "worker"))) ==>
      r == Fail(MachineSetInvalid)
    ensures (r.Fail? && |ssh.machines| > 0 && (forall i :: 0 <= i < |ssh.machines| ==> ValidRole(ssh.machines[i].role)) &&
             HasRole(ssh.machines, "master") && HasRole(ssh.machines, "worker")) ==>
      r == Fail(FileNotFound(ssh.sshKeyFile, "sshKeyFile"))
  {
    if |ssh.machines| == 0 then Fail(NoMachines)
    else if CheckMachineRoles(ssh.machines).Fail? then CheckMachineRoles(ssh.machines)
    else if !HasRole(ssh.machines, "master") || !HasRole(ssh.machines, "worker") then Fail(MachineSetInvalid)
    else if ssh.sshKeyFile != "" && ssh.sshKeyFile !in files then
      Fail(FileNotFound(ssh.sshKeyFile, "sshKeyFile"))
    else Pass
  }

  // -------------------------------------------------------------- footloose

  const BackendMissing := "A footloose backend must be specified"
  const BackendInvalid := "A footloose backend must be either 'docker' or 'ignite'"
  const NoControlPlaneNode := "A footloose specification must have at least one control plane node"
  const NoWorkerNode := "A footloose specification must have at least one worker node"

  /** `checkRequiredFootlooseValues`: a docker or ignite backend and at least
      one control-plane node and one worker node. */
  function CheckRequiredFootlooseValues(fc: FootlooseConfig): (r: Outcome)
    ensures r.Pass? <==>
      (fc.backend == "docker" || fc.backend == "ignite") && fc.controlPlaneNodes >= 1 && fc.workerNodes >= 1
    ensures fc.backend == "" ==> r == Fail(BackendMissing)
    ensures fc.backend != "" && fc.backend != "docker" && fc.backend != "ignite" ==> r == Fail(BackendInvalid)
    ensures (fc.backend == "docker" || fc.backend == "ignite") && fc.controlPlaneNodes < 1 ==>
      r == Fail(NoControlPlaneNode)
    ensures ((fc.backend == "docker" || fc.backend == "ignite") && fc.controlPlaneNodes >= 1 &&
             fc.workerNodes < 1) ==> r == Fail(NoWorkerNode)
  {
    if fc.backend == "" then Fail(BackendMissing)
    else if fc.backend != "docker" && fc.backend != "ignite" then Fail(BackendInvalid)
    else if fc.controlPlaneNodes < 1 then Fail(NoControlPlaneNode)
    else if fc.workerNodes < 1 then Fail(NoWorkerNode)
    else Pass
  }
}
