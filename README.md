# Cluster configuration: validators and defaulters

This project models the part of the `config` package that checks and
completes a cluster configuration after it has been read from YAML. The
configuration names a track (`eks`, `wks-ssh` or `wks-footloose`), Docker
registry credentials, a git provider, optional sealed-secrets key material,
and an `eksConfig` or `wksConfig` section.

- **Validators** (`validators.dfy`). Each validator is a pure function from
  one part of the configuration to `Pass` or `Fail(message)`. It reports the
  first rule the input breaks, in a fixed order. Each validator's contract
  says when it passes (an if-and-only-if) and which message each broken rule
  produces.
- **Defaulters** (`defaulters.dfy`). Each defaulter is a method that fills
  omitted fields in place: a `Config`, `EKSConfig` or `SSHConfig` object. It
  walks the node groups or machines with a loop. Its postcondition ties the
  new state to a specification function of the old state. Lemmas state what
  that function keeps, what it fills in, and that it is idempotent.
- **Syntax checks** used by the WKS validator:
  - dotted-quad IPv4 addresses and CIDR blocks in the prefix notation of
    section 3.1 of RFC 4632 (`network.dfy`), with parse/format round trips
    in both directions;
  - host names after section 2.1 of RFC 1123;
  - Kubernetes version strings and the 1.14.x–1.15.x range (`version.dfy`);
  - decimal numerals (`decimal.dfy`) and field splitting (`text.dfy`), which
    the other checks are built on.
- **Test tables** (`oracle.dfy`, `rows.dfy`). Every table of the package's
  tests is replayed against the model. One method per row builds the
  configuration the row loads. A table method's postcondition is the
  table's expected column.

Go's zero values carry meaning. A key left out of the YAML reads as `""`, `0`
or an empty list, and the model treats exactly those values as "not given".

The outside world is passed in:
- which files exist: `files: set<string>`;
- which certificate/key path pairs load as a matching pair:
  `keyPairs: set<(string, string)>`;
- the `USER` and `HOME` environment values: `user` and `home` strings.

The implementation file of the package is not part of this model. Its
behaviour is taken from the test file `pkg/utilities/config/config_test.go`.
Two facts about message texts and order come straight from the test rows:
- The WKS version, CIDR and load-balancer messages put no quotes around the
  offending value (lines 358-362).
- The SSH check reports a missing or unknown role before it checks for a
  master and a worker. The rows at lines 473-476 have no master, yet expect
  the role error.

## Model

| member | source | states |
|---|---|---|
| Validators.CheckRequiredGlobalValues | pkg/utilities/config/config_test.go:75-82 | passes iff the track is one of eks, wks-ssh, wks-footloose and both registry fields are non-empty; an empty track, an unknown track, an empty user, an empty password file each give their own message, in that order |
| Validators.CheckRequiredGitValues | pkg/utilities/config/config_test.go:127-133 | passes iff gitlab with a URL or github with an organisation; any other provider (empty, bitbucket, or only a URL) gives the provider message; gitlab without URL and github without organisation give their messages |
| Validators.ValidateSealedSecretsValues | pkg/utilities/config/config_test.go:174-180 | passes iff neither path is given, or both are and they form a matching pair; exactly one path gives the "provide both" message; a non-matching pair gives the load-failure message |
| Validators.CheckNodeGroups | pkg/utilities/config/config_test.go:253 | passes iff no node group has a given capacity below 1; any failure carries the capacity message |
| Validators.CheckRequiredEKSValues | pkg/utilities/config/config_test.go:251-257 | passes iff the version is exactly "1.14" or "1.15", the region is given, a named node-group file exists and every node group passes; missing version, missing region, other version, missing file, bad capacity each give their message in that order |
| Validators.CheckCIDRBlocks | pkg/utilities/config/config_test.go:359-360 | passes iff every block is a CIDR block; on failure the message names the first block that is not |
| Validators.AllCIDRConcat | pkg/utilities/config/config_test.go:359-360 | all service and pod blocks are valid iff the service blocks are and the pod blocks are |
| Validators.CheckRequiredWKSValues | pkg/utilities/config/config_test.go:353-362 | passes iff the version lies in 1.14.x–1.15.x, both block lists are non-empty and valid, and the load-balancer address (if given) is an IPv4 address or a domain name; each broken rule gives its message in order, a bad block the first bad one across service then pod blocks |
| Validators.RoleError | pkg/utilities/config/config_test.go:473-476 | a role passes iff it is master or worker; an empty role gives the "must be specified" message and any other role the "Invalid machine role" message naming it |
| Validators.CheckMachineRoles | pkg/utilities/config/config_test.go:431-448 | passes iff every machine's role is master or worker; on failure it is the role error of the first machine whose role is not |
| Validators.CheckRequiredSSHValues | pkg/utilities/config/config_test.go:466-477 | passes iff there is a machine, every role is valid, a master and a worker are present and a named key file exists; no machines, the first bad role, a missing master or worker, a missing key file each give their message in that order |
| Validators.CheckRequiredFootlooseValues | pkg/utilities/config/config_test.go:555-566 | passes iff the backend is docker or ignite and both node counts are at least 1; empty backend, unknown backend, control-plane count, worker count each give their message |
| Defaulters.ClusterNameDefaults | pkg/utilities/config/config_test.go:581-585 | the defaulted cluster name is never empty, keeps a given name, starts with "wk-" otherwise, and defaulting again changes nothing |
| Defaulters.SetDefaultGlobalValues | pkg/utilities/config/config_test.go:577-586 | only the cluster name changes; it becomes "wk-" + USER, or "wk-cluster" when USER is empty, if it was empty |
| Defaulters.SetDefaultEKSValues | pkg/utilities/config/config_test.go:597-617 | only the node groups change; they become the defaulted groups of the old ones |
| Defaulters.NodeGroupDefaults | pkg/utilities/config/config_test.go:606-616 | each group keeps its place and instance type, keeps a given name and capacity, and gets "ng-<i>" and capacity 3 where they were left out |
| Defaulters.DefaultNodeGroupsIdempotent | pkg/utilities/config/config_test.go:597-617 | defaulting node groups twice equals defaulting them once |
| Defaulters.DefaultGroupNamesDistinct | pkg/utilities/config/config_test.go:609-614 | two unnamed groups get different names |
| Defaulters.DefaultedGroupsComplete | pkg/utilities/config/config_test.go:251-253 | after a passing node-group check, every defaulted group has a name and a capacity of at least 1, and the check still passes |
| Defaulters.SetDefaultSSHValues | pkg/utilities/config/config_test.go:619-634 | user becomes "root" and key file HOME + "/.ssh/id_rsa" when left out, and the machines become the defaulted machines of the old ones |
| Defaulters.MachineDefaults | pkg/utilities/config/config_test.go:625-633 | each machine keeps role and public address, keeps given ports and private address, and gets ports 22 and its own public address as private address where they were left out |
| Defaulters.DefaultMachinesIdempotent | pkg/utilities/config/config_test.go:619-634 | defaulting machines twice equals defaulting them once |
| Defaulters.DefaultMachinesKeepRoleChecks | pkg/utilities/config/config_test.go:466-477 | defaulting machines changes neither the role check nor the presence of a master or a worker |
| Text.Split | pkg/utilities/config/config_test.go:318 | a split gives at least one field and no field contains the separator |
| Text.JoinSplit | pkg/utilities/config/config_test.go:318 | joining the fields of a split gives the string back |
| Text.SplitJoin | pkg/utilities/config/config_test.go:318 | splitting a join of separator-free fields gives the fields back |
| Decimal.NatToString | pkg/utilities/config/config_test.go:610-615 | the text of a number is a canonical numeral, with no leading zero unless it is "0" |
| Decimal.ParseFormat | pkg/utilities/config/config_test.go:318 | parsing the text of a number gives the number back |
| Decimal.FormatParse | pkg/utilities/config/config_test.go:318 | a numeral that parses is the text of its value, so a leading zero is refused |
| Decimal.NatToStringInjective | pkg/utilities/config/config_test.go:610-615 | two numbers have the same text iff they are equal |
| Network.ParseOctets | pkg/utilities/config/config_test.go:318 | the octets parse iff every field is a numeral of at most 255, and then each octet is that field's value |
| Network.IPv4RoundTrip | pkg/utilities/config/config_test.go:327 | parsing the dotted-quad text of an address gives the address back |
| Network.IPv4Canonical | pkg/utilities/config/config_test.go:318-327 | an accepted dotted quad is an address and is exactly that address's text |
| Network.ParseCIDR | pkg/utilities/config/config_test.go:269-270 | an accepted block has a valid address and a prefix of at most 32 |
| Network.CIDRRoundTrip | pkg/utilities/config/config_test.go:270 | every address with every prefix up to 32 is accepted, host bits set or not, and parses back to itself |
| Network.CIDRCanonical | pkg/utilities/config/config_test.go:269-270 | an accepted block is exactly the text of the block it denotes |
| Network.IPv4Text | pkg/utilities/config/config_test.go:318-327 | a string is a dotted quad (`IsIPv4`, through `ParseIPv4`) iff it is the dotted-quad text of some address |
| Network.DomainNameLabels | pkg/utilities/config/config_test.go:336-345 | a string is a domain name (`IsDomainName`) iff it has at most 253 characters and is a '.'-join of RFC 1123 labels whose last label has a letter |
| Network.LoadBalancerAddressReadings | pkg/utilities/config/config_test.go:318-345 | a control-plane address (`IsLoadBalancerAddress`) is accepted iff it is the text of an address or a domain name, and an accepted one is exactly one of the two |
| Network.IPv4IsNotDomainName | pkg/utilities/config/config_test.go:318 | a dotted quad is never a domain name |
| KubeVersion.VersionRoundTrip | pkg/utilities/config/config_test.go:268 | parsing the text of a version gives the version back |
| KubeVersion.VersionCanonical | pkg/utilities/config/config_test.go:268 | an accepted version string is exactly the text of its version |
| KubeVersion.WKSText | pkg/utilities/config/config_test.go:268 | "1.14.<p>" and "1.15.<p>" are versions in range for every patch p |
| KubeVersion.WKSVersionText | pkg/utilities/config/config_test.go:357-358 | a string is an accepted WKS version iff it is "1.14.<p>" or "1.15.<p>" for a canonical patch numeral |
| KubeVersion.VersionText | pkg/utilities/config/config_test.go:268-293 | a string parses as a version (`ParseVersion`) iff it is the MAJOR.MINOR.PATCH text of some version |
| KubeVersion.EKSVersionIsWKSMinor | pkg/utilities/config/config_test.go:256 | a string is an EKS version (`IsEKSVersion`) iff its ".0" patch release is a WKS version, so the EKS versions are exactly the minor releases 1.14 and 1.15 of the WKS range |
| KubeVersion.EKSVersionIsNotWKSVersion | pkg/utilities/config/config_test.go:256 | the two EKS version strings are never accepted WKS versions |
| Oracle.Numerals | pkg/utilities/config/config_test.go:266-346 | the numbers of the test documents have the expected decimal texts |
| Oracle.AcceptedAddresses | pkg/utilities/config/config_test.go:327 | "192.168.1.0" and "10.96.0.0" parse to their four octets |
| Oracle.RejectedAddresses | pkg/utilities/config/config_test.go:318 | "192.1680.1.0" and "1000.96.0.0" are not IPv4 addresses |
| Oracle.AcceptedBlocks | pkg/utilities/config/config_test.go:269-270 | "10.96.0.0/12" and "192.168.1.0/16" parse, host bits and all |
| Oracle.RejectedBlocks | pkg/utilities/config/config_test.go:301-309 | "1000.96.0.0/12" and "192.1680.1.0/16" are not CIDR blocks |
| Oracle.AcceptedName | pkg/utilities/config/config_test.go:345 | "hello-World.com" is a domain name |
| Oracle.TrailingHyphenName | pkg/utilities/config/config_test.go:336 | "hello-World-.com" is not a domain name |
| Oracle.DottedDecimalName | pkg/utilities/config/config_test.go:318 | "192.1680.1.0" is not a domain name |
| Oracle.NamesAreNotQuads | pkg/utilities/config/config_test.go:336-345 | the two host names are not dotted quads |
| Oracle.VersionExamples | pkg/utilities/config/config_test.go:268-293 | "1.14.1" is in the WKS range and "1.16.1" is not; "1.14" is an EKS version and "1.16" is not |
| TestRows.MissingNodeGroupFileText | pkg/utilities/config/config_test.go:257 | the missing-file message for the node-group file has the exact text of the test |
| TestRows.MissingKeyFileText | pkg/utilities/config/config_test.go:477 | the missing-file message for the SSH key file has the exact text of the test |
| TestRows.RequiredGlobalsRows | pkg/utilities/config/config_test.go:70-90 | the global check prints the expected column of all eight rows of the globals table |
| TestRows.GitRows | pkg/utilities/config/config_test.go:122-142 | the git check prints the expected column of the git table |
| TestRows.SealedSecretsRows | pkg/utilities/config/config_test.go:169-188 | the sealed-secrets check prints the expected column, given one matching and one non-matching certificate |
| TestRows.RequiredEKSRows | pkg/utilities/config/config_test.go:246-264 | the EKS check prints the expected column of the EKS table |
| TestRows.RequiredFootlooseRows | pkg/utilities/config/config_test.go:550-573 | the footloose check prints the expected column of the footloose table |
| TestRows.InvalidWKSRows | pkg/utilities/config/config_test.go:348-371 | the WKS check prints the expected column of the invalid-WKS table |
| TestRows.ValidControlPlaneLbAddress1 | pkg/utilities/config/config_test.go:322-328 | a dotted-quad load-balancer address passes |
| TestRows.ValidControlPlaneLbAddress2 | pkg/utilities/config/config_test.go:340-346 | a domain-name load-balancer address passes |
| TestRows.RequiredSSHRows | pkg/utilities/config/config_test.go:461-485 | the SSH check prints the expected column of the SSH table |
| TestRows.DefaultGlobalsRow | pkg/utilities/config/config_test.go:577-586 | an empty cluster name becomes "wk-" + USER, or "wk-cluster" |
| TestRows.DefaultEKSRows | pkg/utilities/config/config_test.go:597-617 | no node groups become [ng-0, m5.large, 3]; two unnamed groups without capacity become ng-0 and ng-1 of 3, types kept |
| TestRows.DefaultSSHRow | pkg/utilities/config/config_test.go:619-634 | user "root", key file HOME + "/.ssh/id_rsa", both machines get ports 22 and their own public address as private address |

## Left out

- YAML parsing (`unmarshalConfig`): the model starts from the parsed configuration, with left-out keys already read as zero values.
- File existence, X.509/PEM key-pair loading and `os.Getenv`: these are host questions. They are the parameters `files`, `keyPairs`, `user` and `home`.
- Validators.ValidateSealedSecretsValues: a certificate or key file that cannot be read at all is folded into "not a matching pair". The tests only show the mismatch message, so the model has no separate read-error message.
- Validators.CheckRequiredWKSValues: IPv6 addresses and IPv6 CIDR blocks, which Go's net.ParseIP/ParseCIDR would accept, are not modelled. Every test value is IPv4.
- Network.IsDomainName: the exact host-name parser of the implementation is not visible. The model follows section 2.1 of RFC 1123. Labels have 1 to 63 letters, digits and interior hyphens, the whole name has at most 253 characters, and the top-level label must contain a letter. That last rule is what rejects "192.1680.1.0" as a name.
- Network.ParseIPv4: octets are canonical numerals, so "01" is refused. No test decides leading zeros.
- Network.ParseCIDR: the prefix length is a canonical numeral too, so "10.96.0.0/012" is refused. No test decides this.
- KubeVersion.ParseVersion: a WKS version is exactly three canonical numerals joined by '.'. So "v1.14.1" (a leading "v"), "1.14" (no patch), "1.14.1-rc.0" (a pre-release or build suffix) and "1.14.01" (a leading zero) are all refused. The tests only use "1.14.1" and "1.16.1", so none of these choices is decided by them.
- Validators.CheckRequiredEKSValues and Validators.CheckRequiredSSHValues: there is no rule for a missing `instanceType` or a missing `publicAddress`. The tests show no message for either.
- The orchestrator that runs the validators for a track and then the defaulters is not shown, so no order between them is modelled. The defaulters are modelled on any input, not only validated ones.
- Integer widths: capacities, ports and node counts are `int64` in Go and unbounded integers here. No rule depends on overflow.
- The rest of the repository (gRPC gateway, SOPS encryption, template lookup, UI tests, CLI wiring) has no part in this model.
