/** The rows of the configuration tests, replayed against the model. A row
    method builds the section one test document loads and runs the validator
    on it; a table method collects its rows' outcomes as the texts
    `fmt.Sprintf("%v", err)` prints, and its postcondition is the table's
    expected column. The environment values the tests read (USER, HOME) and
    the files of `testdata/` are parameters and constants. */
module TestRows {
  import opened ClusterConfig
  import opened Validators
  import opened Defaulters
  import opened Network
  import opened KubeVersion
  import opened Oracle

  /** The text of the missing-file error the EKS table expects. */
  lemma MissingNodeGroupFileText()
    ensures FileNotFound("628wanda496", "managedNodeGroupFile") ==
      "no file found at path: \"628wanda496\" for field: \"managedNodeGroupFile\""
  {
    var path := "no file found at path: \"" + "628wanda496";
    assert path == "no file found at path: \"628wanda496";
    var field := path + "\" for field: \"";
    assert field == "no file found at path: \"628wanda496\" for field: \"";
    var part := field + "managedNode";
    assert part == "no file found at path: \"628wanda496\" for field: \"managedNode";
    assert part + "GroupFile" == "no file found at path: \"628wanda496\" for field: \"managedNodeGroupFile";
  }

  /** The text of the missing-file error the SSH table expects. */
  lemma MissingKeyFileText()
    ensures FileNotFound("8128goober", "sshKeyFile") ==
      "no file found at path: \"8128goober\" for field: \"sshKeyFile\""
  {
    var path := "no file found at path: \"" + "8128goober";
    assert path == "no file found at path: \"8128goober";
    var field := path + "\" for field: \"";
    assert field == "no file found at path: \"8128goober\" for field: \"";
    assert field + "sshKeyFile" == "no file found at path: \"8128goober\" for field: \"sshKeyFile";
  }

  /** A document with only the global keys set. */
  method Globals(track: string, user: string, passwordFile: string) returns (conf: Config)
    ensures fresh(conf) && conf.track == track && conf.clusterName == ""
    ensures conf.dockerIOUser == user && conf.dockerIOPasswordFile == passwordFile
  {
    conf := new Config();
    conf.track, conf.dockerIOUser, conf.dockerIOPasswordFile := track, user, passwordFile;
  }

  method RequiredGlobalsRows() returns (shown: seq<string>)
    ensures shown == [
      "<nil>", "<nil>", "<nil>", "<nil>",
      "track must be one of: 'eks', 'wks-ssh', or 'wks-footloose'",
      "track must be specified",
      "dockerIOUser must be specified",
      "dockerIOPasswordFile must be specified"]
  {
    var pw := "testdata/passwordFile";
    var eks := Globals("eks", "TheodoreLogan", pw);
    var eksWithGitURL := Globals("eks", "TheodoreLogan", pw);
    var ssh := Globals("wks-ssh", "TheodoreLogan", pw);
    var footloose := Globals("wks-footloose", "TheodoreLogan", pw);
    var invalid := Globals("footlose", "TheodoreLogan", pw);
    var noTrack := Globals("", "TheodoreLogan", pw);
    var noUser := Globals("wks-ssh", "", pw);
    var noPassword := Globals("wks-ssh", "TheodoreLogan", "");
    shown := [
      Show(CheckRequiredGlobalValues(eks)), Show(CheckRequiredGlobalValues(eksWithGitURL)),
      Show(CheckRequiredGlobalValues(ssh)),
      Show(CheckRequiredGlobalValues(footloose)), Show(CheckRequiredGlobalValues(invalid)),
      Show(CheckRequiredGlobalValues(noTrack)), Show(CheckRequiredGlobalValues(noUser)),
      Show(CheckRequiredGlobalValues(noPassword))];
  }

  /** A document with only the git keys set. */
  method Git(provider: string, url: string, org: string) returns (conf: Config)
    ensures fresh(conf) && conf.gitProvider == provider && conf.gitUrl == url && conf.gitProviderOrg == org
  {
    conf := new Config();
    conf.gitProvider, conf.gitUrl, conf.gitProviderOrg := provider, url, org;
  }

  method GitRows() returns (shown: seq<string>)
    ensures shown == [
      "gitProvider must be one of: 'github' or 'gitlab'",
      "<nil>", "<nil>",
      "Please provide the url to your gitlab git repository in: gitUrl",
      "Please provide the gitProviderOrg where the repository will be created",
      "gitProvider must be one of: 'github' or 'gitlab'",
      "gitProvider must be one of: 'github' or 'gitlab'"]
  {
    var urlOnly := Git("", "foo", "");
    var gitlab := Git("gitlab", "foo", "");
    var github := Git("github", "", "foo");
    var gitlabNoUrl := Git("gitlab", "", "");
    var githubNoOrg := Git("github", "", "");
    var bitbucket := Git("bitbucket", "", "");
    var empty := Git("", "", "");
    shown := [
      Show(CheckRequiredGitValues(urlOnly)), Show(CheckRequiredGitValues(gitlab)),
      Show(CheckRequiredGitValues(github)), Show(CheckRequiredGitValues(gitlabNoUrl)),
      Show(CheckRequiredGitValues(githubNoOrg)), Show(CheckRequiredGitValues(bitbucket)),
      Show(CheckRequiredGitValues(empty))];
  }

  /** A document with only the sealed-secrets keys set. */
  method SealedSecrets(cert: string, key: string) returns (conf: Config)
    ensures fresh(conf) && conf.sealedSecretsCertificate == cert && conf.sealedSecretsPrivateKey == key
  {
    conf := new Config();
    conf.sealedSecretsCertificate, conf.sealedSecretsPrivateKey := cert, key;
  }

  /** The test data holds one certificate that matches the key and one
      that does not. */
  method SealedSecretsRows() returns (shown: seq<string>)
    ensures shown == [
      "<nil>",
      "please provide both the private key and certificate for the sealed secrets controller",
      "please provide both the private key and certificate for the sealed secrets controller",
      "<nil>",
      "could not load key and certificate pair"]
  {
    var key := "testdata/sealedSecretsKey";
    var pairs := {("testdata/sealedSecretsCert.crt", key)};
    var neither := SealedSecrets("", "");
    var keyOnly := SealedSecrets("", key);
    var certOnly := SealedSecrets("testdata/sealedSecretsCert.crt", "");
    var matching := SealedSecrets("testdata/sealedSecretsCert.crt", key);
    var mismatched := SealedSecrets("testdata/nonMatchingCert.crt", key);
    shown := [
      Show(ValidateSealedSecretsValues(neither, pairs)), Show(ValidateSealedSecretsValues(keyOnly, pairs)),
      Show(ValidateSealedSecretsValues(certOnly, pairs)), Show(ValidateSealedSecretsValues(matching, pairs)),
      Show(ValidateSealedSecretsValues(mismatched, pairs))];
  }

  /** An `eksConfig` section. */
  method EKS(version: string, region: string, file: string, groups: seq<NodeGroup>) returns (eks: EKSConfig)
    ensures fresh(eks) && eks.kubernetesVersion == version && eks.clusterRegion == region
    ensures eks.managedNodeGroupFile == file && eks.nodeGroups == groups
  {
    eks := new EKSConfig();
    eks.kubernetesVersion, eks.clusterRegion, eks.managedNodeGroupFile := version, region, file;
    eks.nodeGroups := groups;
  }

  /** The one node-group file of the EKS rows that exists on the host. */
  const EKSTestFiles: set<string> := {"testdata/managedNodeGroups.yaml"}

  // One method per row of the EKS table, named after the test document.

  method ValidEKS() returns (o: Outcome)
    ensures o == Pass
  {
    var eks := EKS("1.14", "eu-north-1", "testdata/managedNodeGroups.yaml", []);
    o := CheckRequiredEKSValues(eks, EKSTestFiles);
  }

  method ValidEKSWithNodeGroups() returns (o: Outcome)
    ensures o == Pass
  {
    var groups := [
      NodeGroup("my-first-node-group", "m5.small", 1),
      NodeGroup("my-second-node-group", "m5.large", 2)];
    assert !BadCapacity(groups[0]) && !BadCapacity(groups[1]);
    var eks := EKS("1.14", "eu-north-1", "", groups);
    o := CheckRequiredEKSValues(eks, EKSTestFiles);
  }

  method InvalidNodeGroup() returns (o: Outcome)
    ensures o == Fail(CapacityTooSmall)
  {
    var groups := [
      NodeGroup("my-first-node-group", "m5.small", 1),
      NodeGroup("my-second-node-group", "m5.large", -1)];
    assert BadCapacity(groups[1]);
    var eks := EKS("1.14", "eu-north-1", "", groups);
    o := CheckRequiredEKSValues(eks, EKSTestFiles);
  }

  method MissingK8sVersion() returns (o: Outcome)
    ensures o == Fail(VersionRequired)
  {
    var eks := EKS("", "eu-north-1", "", []);
    o := CheckRequiredEKSValues(eks, EKSTestFiles);
  }

  method MissingClusterRegion() returns (o: Outcome)
    ensures o == Fail(RegionMissing)
  {
    var eks := EKS("1.14", "", "", []);
    o := CheckRequiredEKSValues(eks, EKSTestFiles);
  }

  method InvalidK8sVersion() returns (o: Outcome)
    ensures o == Fail(EKSVersionInvalid)
  {
    var eks := EKS("1.16", "eu-north-1", "", []);
    o := CheckRequiredEKSValues(eks, EKSTestFiles);
  }

  method InvalidManagedNodeGroupFile() returns (o: Outcome)
    ensures o == Fail(FileNotFound("628wanda496", "managedNodeGroupFile"))
  {
    var eks := EKS("1.14", "eu-north-1", "628wanda496", []);
    o := CheckRequiredEKSValues(eks, EKSTestFiles);
  }

  /** The EKS table. */
  method RequiredEKSRows() returns (shown: seq<string>)
    ensures shown == [
      "<nil>", "<nil>",
      "A node group must have a capacity of at least 1",
      "A Kubernetes version must be specified",
      "clusterRegion must be specified",
      "Kubernetes version must be one of: \"1.14\" or \"1.15\"",
      "no file found at path: \"628wanda496\" for field: \"managedNodeGroupFile\""]
  {
    var o0 := ValidEKS();
    var o1 := ValidEKSWithNodeGroups();
    var o2 := InvalidNodeGroup();
    var o3 := MissingK8sVersion();
    var o4 := MissingClusterRegion();
    var o5 := InvalidK8sVersion();
    var o6 := InvalidManagedNodeGroupFile();
    MissingNodeGroupFileText();
    shown := [Show(o0), Show(o1), Show(o2), Show(o3), Show(o4), Show(o5), Show(o6)];
  }


  /** The footloose table. The section is a plain value, so its rows are
      facts about the validator function. */
  lemma RequiredFootlooseRows()
    ensures CheckRequiredFootlooseValues(FootlooseConfig("docker", 1, 1)) == Pass
    ensures CheckRequiredFootlooseValues(FootlooseConfig("ignite", 1, 1)) == Pass
    ensures Show(CheckRequiredFootlooseValues(FootlooseConfig("", 1, 1))) ==
      "A footloose backend must be specified"
    ensures Show(CheckRequiredFootlooseValues(FootlooseConfig("igniter", 1, 1))) ==
      "A footloose backend must be either 'docker' or 'ignite'"
    ensures Show(CheckRequiredFootlooseValues(FootlooseConfig("ignite", -1, 1))) ==
      "A footloose specification must have at least one control plane node"
    ensures Show(CheckRequiredFootlooseValues(FootlooseConfig("ignite", 0, 1))) ==
      "A footloose specification must have at least one control plane node"
    ensures Show(CheckRequiredFootlooseValues(FootlooseConfig("ignite", 1, -1))) ==
      "A footloose specification must have at least one worker node"
    ensures Show(CheckRequiredFootlooseValues(FootlooseConfig("ignite", 1, 0))) ==
      "A footloose specification must have at least one worker node"
  {
  }


  /** A `wksConfig` section without SSH or footloose settings. */
  method WKS(version: string, service: seq<string>, pod: seq<string>, lb: string) returns (wks: WKSConfig)
    ensures fresh(wks) && wks.kubernetesVersion == version && wks.controlPlaneLbAddress == lb
    ensures wks.serviceCIDRBlocks == service && wks.podCIDRBlocks == pod
  {
    wks := new WKSConfig();
    wks.kubernetesVersion, wks.controlPlaneLbAddress := version, lb;
    wks.serviceCIDRBlocks, wks.podCIDRBlocks := service, pod;
  }

  // One method per row of the WKS tables, named after the test document.

  method ValidWKS() returns (o: Outcome)
    ensures o == Pass
  {
    var wks := WKS("1.14.1", ["10.96.0.0/12"], ["192.168.1.0/16"], "");
    VersionExamples();
    AcceptedBlockLists();
    o := CheckRequiredWKSValues(wks);
  }

  method MissingWKSK8sVersion() returns (o: Outcome)
    ensures o == Fail(VersionRequired)
  {
    var wks := WKS("", ["10.96.0.0/12"], ["192.168.1.0/16"], "");
    o := CheckRequiredWKSValues(wks);
  }

  method MissingServiceCIDRBlocks() returns (o: Outcome)
    ensures o == Fail(NoServiceCIDR)
  {
    var wks := WKS("1.14.1", [], ["192.168.1.0/16"], "");
    o := CheckRequiredWKSValues(wks);
  }

  method MissingPodCIDRBlocks() returns (o: Outcome)
    ensures o == Fail(NoPodCIDR)
  {
    var wks := WKS("1.14.1", ["10.96.0.0/12"], [], "");
    o := CheckRequiredWKSValues(wks);
  }

  method InvalidWKSK8sVersion() returns (o: Outcome)
    ensures o == Fail(InvalidWKSVersion("1.16.1"))
  {
    var wks := WKS("1.16.1", ["10.96.0.0/12"], ["192.168.1.0/16"], "");
    VersionExamples();
    o := CheckRequiredWKSValues(wks);
  }

  method InvalidServiceCIDRBlock() returns (o: Outcome)
    ensures o == Fail(InvalidCIDR("1000.96.0.0/12"))
  {
    var wks := WKS("1.14.1", ["1000.96.0.0/12"], ["192.168.1.0/16"], "");
    VersionExamples();
    RejectedBlocks();
    o := CheckRequiredWKSValues(wks);
  }

  /** The service block passes, so the pod block is the first bad one. */
  method InvalidPodCIDRBlock() returns (o: Outcome)
    ensures o == Fail(InvalidCIDR("192.1680.1.0/16"))
  {
    var wks := WKS("1.14.1", ["10.96.0.0/12"], ["192.1680.1.0/16"], "");
    VersionExamples();
    AcceptedBlockLists();
    RejectedBlocks();
    var blocks := ["10.96.0.0/12"] + ["192.1680.1.0/16"];
    assert blocks[1..] == ["192.1680.1.0/16"];
    assert CheckCIDRBlocks(blocks[1..]) == Fail(InvalidCIDR("192.1680.1.0/16"));
    o := CheckRequiredWKSValues(wks);
  }

  method InvalidControlPlaneLbAddress1() returns (o: Outcome)
    ensures o == Fail(InvalidLbAddress("192.1680.1.0"))
  {
    var wks := WKS("1.14.1", ["10.96.0.0/12"], ["192.168.1.0/16"], "192.1680.1.0");
    VersionExamples();
    AcceptedBlockLists();
    RejectedQuadLbAddress();
    o := CheckRequiredWKSValues(wks);
  }

  method InvalidControlPlaneLbAddress2() returns (o: Outcome)
    ensures o == Fail(InvalidLbAddress("hello-World-.com"))
  {
    var wks := WKS("1.14.1", ["10.96.0.0/12"], ["192.168.1.0/16"], "hello-World-.com");
    VersionExamples();
    AcceptedBlockLists();
    RejectedNameLbAddress();
    o := CheckRequiredWKSValues(wks);
  }

  /** The invalid-WKS table. */
  method InvalidWKSRows() returns (shown: seq<string>)
    ensures shown == [
      "<nil>",
      "A Kubernetes version must be specified",
      "At least one service CIDR block must be specified",
      "At least one pod CIDR block must be specified",
      InvalidWKSVersion("1.16.1"),
      InvalidCIDR("1000.96.0.0/12"),
      InvalidCIDR("192.1680.1.0/16"),
      InvalidLbAddress("192.1680.1.0"),
      InvalidLbAddress("hello-World-.com")]
  {
    var o0 := ValidWKS();
    var o1 := MissingWKSK8sVersion();
    var o2 := MissingServiceCIDRBlocks();
    var o3 := MissingPodCIDRBlocks();
    var o4 := InvalidWKSK8sVersion();
    var o5 := InvalidServiceCIDRBlock();
    var o6 := InvalidPodCIDRBlock();
    var o7 := InvalidControlPlaneLbAddress1();
    var o8 := InvalidControlPlaneLbAddress2();
    shown := [Show(o0), Show(o1), Show(o2), Show(o3), Show(o4), Show(o5), Show(o6), Show(o7), Show(o8)];
  }

  /** A dotted quad is accepted as the load-balancer address. */
  method ValidControlPlaneLbAddress1() returns (o: Outcome)
    ensures o == Pass
  {
    var wks := WKS("1.14.1", ["10.96.0.0/12"], ["192.168.1.0/16"], "192.168.1.0");
    VersionExamples();
    AcceptedBlockLists();
    AcceptedLbAddresses();
    o := CheckRequiredWKSValues(wks);
  }

  /** So is a domain name. */
  method ValidControlPlaneLbAddress2() returns (o: Outcome)
    ensures o == Pass
  {
    var wks := WKS("1.14.1", ["10.96.0.0/12"], ["192.168.1.0/16"], "hello-World.com");
    VersionExamples();
    AcceptedBlockLists();
    AcceptedLbAddresses();
    o := CheckRequiredWKSValues(wks);
  }

  /** An `sshConfig` section. */
  method SSH(keyFile: string, machines: seq<Machine>) returns (ssh: SSHConfig)
    ensures fresh(ssh) && ssh.sshUser == "" && ssh.sshKeyFile == keyFile && ssh.machines == machines
  {
    ssh := new SSHConfig();
    ssh.sshKeyFile, ssh.machines := keyFile, machines;
  }

  /** A machine as the test documents give it: a role and a public address. */
  function TestMachine(role: string, address: string): Machine
  {
    Machine(role, address, "", 0, 0)
  }

  /** The files of the SSH rows that exist on the host. */
  const SSHTestFiles: set<string> := {"testdata/sshKey"}

  // One method per row of the SSH table, named after the test document.

  method ValidSSH(keyFile: string) returns (o: Outcome)
    requires keyFile == "" || keyFile == "testdata/sshKey"
    ensures o == Pass
  {
    var machines := [TestMachine("master", "172.17.20.5"), TestMachine("worker", "172.17.20.6")];
    assert machines[0].role == "master" && machines[1].role == "worker";
    var ssh := SSH(keyFile, machines);
    o := CheckRequiredSSHValues(ssh, SSHTestFiles);
  }

  method MissingMachines() returns (o: Outcome)
    ensures o == Fail(NoMachines)
  {
    var ssh := SSH("", []);
    o := CheckRequiredSSHValues(ssh, SSHTestFiles);
  }

  /** A lone master, or a lone worker. */
  method MissingWorkerOrMaster(role: string) returns (o: Outcome)
    requires role == "master" || role == "worker"
    ensures o == Fail(MachineSetInvalid)
  {
    var ssh := SSH("", [TestMachine(role, "172.17.20.5")]);
    o := CheckRequiredSSHValues(ssh, SSHTestFiles);
  }

  method MissingRole() returns (o: Outcome)
    ensures o == Fail(RoleMissing)
  {
    var ssh := SSH("", [TestMachine("", "172.17.20.5"), TestMachine("worker", "172.17.20.6")]);
    o := CheckRequiredSSHValues(ssh, SSHTestFiles);
  }

  method InvalidRoleRow() returns (o: Outcome)
    ensures o == Fail(InvalidRole("supervisor"))
  {
    var ssh := SSH("", [TestMachine("supervisor", "172.17.20.5"), TestMachine("worker", "172.17.20.6")]);
    o := CheckRequiredSSHValues(ssh, SSHTestFiles);
  }

  method InvalidSSHKeyFile() returns (o: Outcome)
    ensures o == Fail(FileNotFound("8128goober", "sshKeyFile"))
  {
    var machines := [TestMachine("master", "172.17.20.5"), TestMachine("worker", "172.17.20.6")];
    assert machines[0].role == "master" && machines[1].role == "worker";
    var ssh := SSH("8128goober", machines);
    o := CheckRequiredSSHValues(ssh, SSHTestFiles);
  }

  /** The SSH table. */
  method RequiredSSHRows() returns (shown: seq<string>)
    ensures shown == [
      "<nil>", "<nil>",
      "No machine information provided",
      "Invalid machine set. At least one master and one worker must be specified.",
      "Invalid machine set. At least one master and one worker must be specified.",
      "A role ('master' or 'worker') must be specified for each machine",
      InvalidRole("supervisor"),
      "no file found at path: \"8128goober\" for field: \"sshKeyFile\""]
  {
    var o0 := ValidSSH("");
    var o1 := ValidSSH("testdata/sshKey");
    var o2 := MissingMachines();
    var o3 := MissingWorkerOrMaster("master");
    var o4 := MissingWorkerOrMaster("worker");
    var o5 := MissingRole();
    var o6 := InvalidRoleRow();
    var o7 := InvalidSSHKeyFile();
    MissingKeyFileText();
    shown := [Show(o0), Show(o1), Show(o2), Show(o3), Show(o4), Show(o5), Show(o6), Show(o7)];
  }

  /** The global defaults test: the cluster name of a document that leaves
      it empty, for the USER value `user`. */
  method DefaultGlobalsRow(user: string) returns (clusterName: string)
    ensures clusterName == "wk-" + (if user == "" then "cluster" else user)
  {
    var conf := Globals("eks", "TheodoreLogan", "testdata/passwordFile");
    SetDefaultGlobalValues(conf, user);
    clusterName := conf.clusterName;
  }

  /** The EKS defaults test: a section without node groups gets ng-0, and
      two unnamed groups without capacities get ng-0 and ng-1 of three
      instances each, keeping their instance types. */
  method DefaultEKSRows() returns (fromNone: seq<NodeGroup>, fromTwo: seq<NodeGroup>)
    ensures fromNone == [NodeGroup("ng-0", "m5.large", 3)]
    ensures fromTwo == [NodeGroup("ng-0", "m5.small", 3), NodeGroup("ng-1", "m5.large", 3)]
  {
    var valid := EKS("1.14", "eu-north-1", "testdata/managedNodeGroups.yaml", []);
    SetDefaultEKSValues(valid);
    fromNone := valid.nodeGroups;
    var partial := EKS("1.14", "eu-north-1", "", [NodeGroup("", "m5.small", 0), NodeGroup("", "m5.large", 0)]);
    SetDefaultEKSValues(partial);
    fromTwo := partial.nodeGroups;
    Numerals();
    assert DefaultGroupName(0) == "ng-" + "0" == "ng-0";
    assert DefaultGroupName(1) == "ng-" + "1" == "ng-1";
  }

  /** The SSH defaults test, for the HOME value `home`. */
  method DefaultSSHRow(home: string) returns (user: string, keyFile: string, machines: seq<Machine>)
    ensures user == "root" && keyFile == home + "/.ssh/id_rsa"
    ensures machines == [
      Machine("master", "172.17.20.5", "172.17.20.5", 22, 22),
      Machine("worker", "172.17.20.6", "172.17.20.6", 22, 22)]
  {
    var ssh := SSH("", [TestMachine("master", "172.17.20.5"), TestMachine("worker", "172.17.20.6")]);
    SetDefaultSSHValues(ssh, home);
    user, keyFile, machines := ssh.sshUser, ssh.sshKeyFile, ssh.machines;
  }
}
