/** The defaulters. They run after validation and fill, in place, the
    fields the operator left out; a value the operator gave is never
    replaced. The environment variables they consult (USER, HOME) are
    passed in as parameters. */
module Defaulters {
  import opened Decimal
  import opened ClusterConfig
  import Validators

  // ---------------------------------------------------------------- globals

  /** The cluster name: kept if given, else "wk-" and the user name, or
      "wk-cluster" when there is no user name. */
  function DefaultClusterName(name: string, user: string): string
  {
    if name != "" then name
    else "wk-" + (if user == "" then "cluster" else user)
  }

  /** A defaulted name is never empty, keeps a given name, and defaulting
      it again changes nothing, whatever USER is the second time. */
  lemma ClusterNameDefaults(name: string, user: string, user': string)
    ensures DefaultClusterName(name, user) != ""
    ensures name != "" ==> DefaultClusterName(name, user) == name
    ensures name == "" ==> DefaultClusterName(name, user)[..3] == "wk-"
    ensures DefaultClusterName(DefaultClusterName(name, user), user') == DefaultClusterName(name, user)
  {
  }

  /** `setDefaultGlobalValues`: only the cluster name changes. */
  method SetDefaultGlobalValues(conf: Config, user: string)
    modifies conf`clusterName
    ensures conf.clusterName == DefaultClusterName(old(conf.clusterName), user)
  {
    if conf.clusterName == "" {
      var component := if user == "" then "cluster" else user;
      conf.clusterName := "wk-" + component;
    }
  }

  // -------------------------------------------------------------------- eks

  const DefaultInstanceType := "m5.large"
  const DefaultCapacity := 3

  /** "ng-<i>" for the group at index i. */
  function DefaultGroupName(i: nat): string
  {
    "ng-" + NatToString(i)
  }

  function DefaultNodeGroup(ng: NodeGroup, i: nat): NodeGroup
  {
    ng.(name := if ng.name == "" then DefaultGroupName(i) else ng.name,
        desiredCapacity := if ng.desiredCapacity == 0 then DefaultCapacity else ng.desiredCapacity)
  }

  /** No groups at all become the single group ng-0 of three m5.large
      instances; otherwise each group is completed where it is. */
  function DefaultNodeGroups(ngs: seq<NodeGroup>): seq<NodeGroup>
  {
    if ngs == [] then [NodeGroup(DefaultGroupName(0), DefaultInstanceType, DefaultCapacity)]
    else seq(|ngs|, i requires 0 <= i < |ngs| => DefaultNodeGroup(ngs[i], i))
  }

  /** `setDefaultEKSValues`: only the node groups change. */
  method SetDefaultEKSValues(eks: EKSConfig)
    modifies eks`nodeGroups
    ensures eks.nodeGroups == DefaultNodeGroups(old(eks.nodeGroups))
  {
    if |eks.nodeGroups| == 0 {
      eks.nodeGroups := [NodeGroup("ng-0", DefaultInstanceType, DefaultCapacity)];
      assert DigitChar(0) == '0';
      assert DefaultGroupName(0) == "ng-" + ['0'] == "ng-0";
      return;
    }
    var i := 0;
    while i < |eks.nodeGroups|
      invariant 0 <= i <= |eks.nodeGroups| == |old(eks.nodeGroups)|
      invariant forall k :: 0 <= k < i ==> eks.nodeGroups[k] == DefaultNodeGroup(old(eks.nodeGroups)[k], k)
      invariant forall k :: i <= k < |eks.nodeGroups| ==> eks.nodeGroups[k] == old(eks.nodeGroups)[k]
    {
      var ng := eks.nodeGroups[i];
      if ng.name == "" {
        ng := ng.(name := "ng-" + NatToString(i));
      }
      if ng.desiredCapacity == 0 {
        ng := ng.(desiredCapacity := DefaultCapacity);
      }
      eks.nodeGroups := eks.nodeGroups[i := ng];
      i := i + 1;
    }
  }

  /** What defaulting does to each group: the groups keep their places,
      every given name, instance type and capacity is kept, and what was
      left out is filled in. */
  lemma NodeGroupDefaults(ngs: seq<NodeGroup>, i: nat)
    requires i < |ngs|
    ensures |DefaultNodeGroups(ngs)| == |ngs|
    ensures DefaultNodeGroups(ngs)[i].instanceType == ngs[i].instanceType
    ensures ngs[i].name != "" ==> DefaultNodeGroups(ngs)[i].name == ngs[i].name
    ensures ngs[i].name == "" ==> DefaultNodeGroups(ngs)[i].name == DefaultGroupName(i)
    ensures ngs[i].desiredCapacity != 0 ==> DefaultNodeGroups(ngs)[i].desiredCapacity == ngs[i].desiredCapacity
    ensures ngs[i].desiredCapacity == 0 ==> DefaultNodeGroups(ngs)[i].desiredCapacity == 3
  {
  }

  /** Defaulting node groups twice is the same as defaulting them once. */
  lemma DefaultNodeGroupsIdempotent(ngs: seq<NodeGroup>)
    ensures DefaultNodeGroups(DefaultNodeGroups(ngs)) == DefaultNodeGroups(ngs)
  {
    var once := DefaultNodeGroups(ngs);
    forall i | 0 <= i < |once| ensures once[i].name != "" && once[i].desiredCapacity != 0 {
    }
    var twice := DefaultNodeGroups(once);
    assert |twice| == |once|;
    forall i | 0 <= i < |once| ensures twice[i] == once[i] {
    }
  }

  /** Groups that were given no name get pairwise different names. */
  lemma DefaultGroupNamesDistinct(ngs: seq<NodeGroup>, i: nat, j: nat)
    requires i < j < |ngs| && ngs[i].name == "" && ngs[j].name == ""
    ensures DefaultNodeGroups(ngs)[i].name != DefaultNodeGroups(ngs)[j].name
  {
    assert DefaultGroupName(i)[3..] == NatToString(i);
    assert DefaultGroupName(j)[3..] == NatToString(j);
    NatToStringInjective(i, j);
  }

  /** After a successful node-group check, defaulting leaves every group
      named and with a capacity of at least 1, so the check still passes. */
  lemma DefaultedGroupsComplete(ngs: seq<NodeGroup>)
    requires Validators.CheckNodeGroups(ngs).Pass?
    ensures forall i :: 0 <= i < |DefaultNodeGroups(ngs)| ==>
      DefaultNodeGroups(ngs)[i].name != "" && DefaultNodeGroups(ngs)[i].desiredCapacity >= 1
    ensures Validators.CheckNodeGroups(DefaultNodeGroups(ngs)).Pass?
  {
    var r := DefaultNodeGroups(ngs);
    forall i | 0 <= i < |r| ensures r[i].name != "" && r[i].desiredCapacity >= 1 {
      if ngs != [] {
        assert !Validators.BadCapacity(ngs[i]);
      }
    }
  }

  // -------------------------------------------------------------------- ssh

  const DefaultSSHUser := "root"
  const DefaultPort := 22

  /** `$HOME/.ssh/id_rsa` */
  function DefaultKeyFile(home: string): string
  {
    home + "/.ssh/id_rsa"
  }

  function DefaultMachine(m: Machine): Machine
  {
    m.(publicPort := if m.publicPort == 0 then DefaultPort else m.publicPort,
       privatePort := if m.privatePort == 0 then DefaultPort else m.privatePort,
       privateAddress := if m.privateAddress == "" then m.publicAddress else m.privateAddress)
  }

  function DefaultMachines(machines: seq<Machine>): seq<Machine>
  {
    seq(|machines|, i requires 0 <= i < |machines| => DefaultMachine(machines[i]))
  }

  /** `setDefaultSSHValues`: user, key file and every machine's ports and
      private address. */
  method SetDefaultSSHValues(ssh: SSHConfig, home: string)
    modifies ssh
    ensures ssh.sshUser == if old(ssh.sshUser) == "" then DefaultSSHUser else old(ssh.sshUser)
    ensures ssh.sshKeyFile == if old(ssh.sshKeyFile) == "" then DefaultKeyFile(home) else old(ssh.sshKeyFile)
    ensures ssh.machines == DefaultMachines(old(ssh.machines))
  {
    if ssh.sshUser == "" {
      ssh.sshUser := DefaultSSHUser;
    }
    if ssh.sshKeyFile == "" {
      ssh.sshKeyFile := home + "/.ssh/id_rsa";
    }
    var i := 0;
    while i < |ssh.machines|
      invariant 0 <= i <= |ssh.machines| == |old(ssh.machines)|
      invariant ssh.sshUser == if old(ssh.sshUser) == "" then DefaultSSHUser else old(ssh.sshUser)
      invariant ssh.sshKeyFile == if old(ssh.sshKeyFile) == "" then DefaultKeyFile(home) else old(ssh.sshKeyFile)
      invariant forall k :: 0 <= k < i ==> ssh.machines[k] == DefaultMachine(old(ssh.machines)[k])
      invariant forall k :: i <= k < |ssh.machines| ==> ssh.machines[k] == old(ssh.machines)[k]
    {
      var m := ssh.machines[i];
      if m.publicPort == 0 {
        m := m.(publicPort := DefaultPort);
      }
      if m.privatePort == 0 {
        m := m.(privatePort := DefaultPort);
      }
      if m.privateAddress == "" {
        m := m.(privateAddress := m.publicAddress);
      }
      ssh.machines := ssh.machines[i := m];
      i := i + 1;
    }
  }

  /** What defaulting does to each machine: role and public address are
      untouched, given ports and private address are kept, omitted ports
      become 22 and an omitted private address becomes the machine's own
      public address. */
  lemma MachineDefaults(machines: seq<Machine>, i: nat)
    requires i < |machines|
    ensures |DefaultMachines(machines)| == |machines|
    ensures DefaultMachines(machines)[i].role == machines[i].role
    ensures DefaultMachines(machines)[i].publicAddress == machines[i].publicAddress
    ensures DefaultMachines(machines)[i].publicPort == if machines[i].publicPort == 0 then 22 else machines[i].publicPort
    ensures DefaultMachines(machines)[i].privatePort == if machines[i].privatePort == 0 then 22 else machines[i].privatePort
    ensures DefaultMachines(machines)[i].privateAddress ==
      if machines[i].privateAddress == "" then machines[i].publicAddress else machines[i].privateAddress
  {
  }

  /** Defaulting machines twice is the same as defaulting them once. */
  lemma DefaultMachinesIdempotent(machines: seq<Machine>)
    ensures DefaultMachines(DefaultMachines(machines)) == DefaultMachines(machines)
  {
  }

  /** Roles are untouched, so the role and master/worker part of the SSH
      check gives the same answer before and after defaulting. */
  lemma {:induction false} DefaultMachinesKeepRoleChecks(machines: seq<Machine>)
    ensures Validators.CheckMachineRoles(DefaultMachines(machines)) == Validators.CheckMachineRoles(machines)
    ensures Validators.HasRole(DefaultMachines(machines), "master") == Validators.HasRole(machines, "master")
    ensures Validators.HasRole(DefaultMachines(machines), "worker") == Validators.HasRole(machines, "worker")
    decreases |machines|
  {
    var d := DefaultMachines(machines);
    if machines != [] {
      assert d[1..] == DefaultMachines(machines[1..]);
      DefaultMachinesKeepRoleChecks(machines[1..]);
    }
    forall role | role == "master" || role == "worker"
      ensures Validators.HasRole(d, role) == Validators.HasRole(machines, role)
    {
      if Validators.HasRole(machines, role) {
        var i :| 0 <= i < |machines| && machines[i].role == role;
        assert d[i].role == role;
      }
      if Validators.HasRole(d, role) {
        var i :| 0 <= i < |d| && d[i].role == role;
        assert machines[i].role == role;
      }
    }
  }
}
