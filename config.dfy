/** The cluster configuration as the loader hands it over. A key left out of
    the YAML document reads as Go's zero value: "" for a string, 0 for an
    integer, an empty list. The structures the defaulters update in place
    are classes; the rest are values. */
module ClusterConfig {

  /** One EKS managed node group. A desiredCapacity of 0 means "not given". */
  datatype NodeGroup = NodeGroup(name: string, instanceType: string, desiredCapacity: int)

  /** One machine of the wks-ssh track. Ports of 0 mean "not given". */
  datatype Machine = Machine(
    role: string,
    publicAddress: string,
    privateAddress: string,
    publicPort: int,
    privatePort: int)

  /** Settings of the wks-footloose track; nothing defaults them. */
  datatype FootlooseConfig = FootlooseConfig(backend: string, controlPlaneNodes: int, workerNodes: int)

  /** `eksConfig` */
  class EKSConfig {
    var kubernetesVersion: string
    var clusterRegion: string
    var managedNodeGroupFile: string
    var nodeGroups: seq<NodeGroup>

    constructor ()
      ensures kubernetesVersion == "" && clusterRegion == "" && managedNodeGroupFile == ""
      ensures nodeGroups == []
    {
      kubernetesVersion, clusterRegion, managedNodeGroupFile := "", "", "";
      nodeGroups := [];
    }
  }

  /** `wksConfig.sshConfig` */
  class SSHConfig {
    var sshUser: string
    var sshKeyFile: string
    var machines: seq<Machine>

    constructor ()
      ensures sshUser == "" && sshKeyFile == "" && machines == []
    {
      sshUser, sshKeyFile := "", "";
      machines := [];
    }
  }

  /** `wksConfig`, shared by the wks-ssh and wks-footloose tracks. */
  class WKSConfig {
    var kubernetesVersion: string
    var serviceCIDRBlocks: seq<string>
    var podCIDRBlocks: seq<string>
    var controlPlaneLbAddress: string
    const sshConfig: SSHConfig
    var footlooseConfig: FootlooseConfig

    constructor ()
      ensures kubernetesVersion == "" && controlPlaneLbAddress == ""
      ensures serviceCIDRBlocks == [] && podCIDRBlocks == []
      ensures fresh(sshConfig) && sshConfig.sshUser == "" && sshConfig.sshKeyFile == ""
      ensures sshConfig.machines == []
      ensures footlooseConfig == FootlooseConfig("", 0, 0)
    {
      kubernetesVersion, controlPlaneLbAddress := "", "";
      serviceCIDRBlocks, podCIDRBlocks := [], [];
      sshConfig := new SSHConfig();
      footlooseConfig := FootlooseConfig("", 0, 0);
    }
  }

  /** The whole document. */
  class Config {
    var track: string
    var clusterName: string
    var dockerIOUser: string
    var dockerIOPasswordFile: string
    var gitProvider: string
    var gitUrl: string
    var gitProviderOrg: string
    var sealedSecretsCertificate: string
    var sealedSecretsPrivateKey: string
    const eksConfig: EKSConfig
    const wksConfig: WKSConfig

    constructor ()
      ensures track == "" && clusterName == "" && dockerIOUser == "" && dockerIOPasswordFile == ""
      ensures gitProvider == "" && gitUrl == "" && gitProviderOrg == ""
      ensures sealedSecretsCertificate == "" && sealedSecretsPrivateKey == ""
      ensures fresh(eksConfig) && eksConfig.nodeGroups == []
      ensures eksConfig.kubernetesVersion == "" && eksConfig.clusterRegion == ""
      ensures eksConfig.managedNodeGroupFile == ""
      ensures fresh(wksConfig) && fresh(wksConfig.sshConfig)
      ensures wksConfig.kubernetesVersion == "" && wksConfig.controlPlaneLbAddress == ""
      ensures wksConfig.serviceCIDRBlocks == [] && wksConfig.podCIDRBlocks == []
      ensures wksConfig.sshConfig.sshUser == "" && wksConfig.sshConfig.sshKeyFile == ""
      ensures wksConfig.sshConfig.machines == []
      ensures wksConfig.footlooseConfig == FootlooseConfig("", 0, 0)
    {
      track, clusterName, dockerIOUser, dockerIOPasswordFile := "", "", "", "";
      gitProvider, gitUrl, gitProviderOrg := "", "", "";
      sealedSecretsCertificate, sealedSecretsPrivateKey := "", "";
      eksConfig := new EKSConfig();
      wksConfig := new WKSConfig();
    }
  }

  /** What a validator returns: Go's nil error, or an error with one message. */
  datatype Outcome = Pass | Fail(message: string)

  /** The text `fmt.Sprintf("%v", err)` gives for an outcome. */
  function Show(o: Outcome): string
  {
    match o
    case Pass => "<nil>"
    case Fail(m) => m
  }
}
