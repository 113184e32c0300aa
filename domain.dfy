/**
 * The SageMaker domain construct: an execution role (the caller's, or a new
 * one), the app image configs of the custom images, a security group with
 * three fixed ingress rules, the domain itself with a dependency on every
 * custom image, and one user profile per configured user.
 */
module Domain {
  import opened Wrappers
  import opened Text
  import opened Tokens
  import opened Cdk
  import Vpc
  import ExecutionRole
  import Images
  import Profiles

  datatype SagemakerDomainProps = SagemakerDomainProps(
    domainName: string,
    vpc: Vpc.PlatformVpc,
    publicSubnets: Option<bool>,
    authMode: Option<string>,
    accountId: string,
    region: string,
    defaultExecutionRole: Option<ExecutionRole.SagemakerRole>,
    users: Option<seq<string>>,
    pipelineRole: Token,
    /** An entry is `None` where the caller passed `undefined`. */
    customImages: Option<seq<Option<Images.SagemakerCustomImage>>>,
    appNetworkAccessType: Option<string>,
    defaultExecutionPolicyLocation: Option<string>,
    defaultJupyterLabInstanceType: Option<string>,
    allowedInstanceTypes: Option<seq<string>>)

  datatype SagemakerDomain = SagemakerDomain(
    path: Path,
    node: Handle,
    defaultExecutionRole: ExecutionRole.SagemakerRole,
    domainId: Token,
    domain: Handle,
    vpc: Handle,
    vpcId: Token,
    subnetIds: seq<Token>,
    domainName: string,
    domainUsers: seq<Handle>)

  const AuthMode: string := "IAM"

  function Users(props: SagemakerDomainProps): seq<string> {
    props.users.GetOr([])
  }

  function CustomImages(props: SagemakerDomainProps): seq<Option<Images.SagemakerCustomImage>> {
    props.customImages.GetOr([])
  }

  // ---------------------------------------------------------------------
  // Custom image configs

  /** Every image handed in, as far as it is defined, has its node and its
      app image config in the tree. */
  predicate ImagesIn(records: seq<Record>, images: seq<Option<Images.SagemakerCustomImage>>) {
    forall i :: 0 <= i < |images| && images[i].Some? ==>
      images[i].value.node < |records| && images[i].value.imageConfig < |records| &&
      records[images[i].value.imageConfig].AppImageConfig?
  }

  /** The config name read from the image's app image config, and its image name. */
  function ConfigRef(records: seq<Record>, img: Images.SagemakerCustomImage): CustomImageRef
    requires img.imageConfig < |records| && records[img.imageConfig].AppImageConfig?
  {
    CustomImageRef(records[img.imageConfig].appImageConfigName, img.imageName)
  }

  /** Lines 167-173: one entry per image; reading a field of an undefined
      image throws. */
  function ImageConfigs(records: seq<Record>, images: seq<Option<Images.SagemakerCustomImage>>): Result<seq<CustomImageRef>, SynthError>
    requires ImagesIn(records, images)
    decreases |images|
  {
    if |images| == 0 then Success([])
    else
      match ImageConfigs(records, images[..|images| - 1])
      case Failure(e) => Failure(e)
      case Success(configs) =>
        var last := images[|images| - 1];
        if last.None? then Failure(UndefinedCustomImage(|images| - 1)) else Success(configs + [ConfigRef(records, last.value)])
  }

  /** The loop of lines 168-173. */
  method BuildImageConfigs(records: seq<Record>, images: seq<Option<Images.SagemakerCustomImage>>)
    returns (r: Result<seq<CustomImageRef>, SynthError>)
    requires ImagesIn(records, images)
    ensures r == ImageConfigs(records, images)
  {
    var configs: seq<CustomImageRef> := [];
    var i := 0;
    while i < |images|
      invariant 0 <= i <= |images|
      invariant ImageConfigs(records, images[..i]) == Success(configs)
    {
      assert images[..i + 1][..i] == images[..i];
      if images[i].None? {
        ImageConfigsFailureSticks(records, images, i + 1);
        return Failure(UndefinedCustomImage(i));
      }
      configs := configs + [ConfigRef(records, images[i].value)];
      i := i + 1;
    }
    assert images[..i] == images;
    r := Success(configs);
  }

  /** A failure of a prefix is the failure of the whole list. */
  lemma {:induction false} ImageConfigsFailureSticks(records: seq<Record>, images: seq<Option<Images.SagemakerCustomImage>>, n: nat)
    requires ImagesIn(records, images) && n <= |images| && ImageConfigs(records, images[..n]).Failure?
    ensures ImageConfigs(records, images) == ImageConfigs(records, images[..n])
    decreases |images| - n
  {
    if n < |images| {
      var m := |images| - 1;
      assert images[..m][..n] == images[..n];
      ImageConfigsFailureSticks(records, images[..m], n);
      assert ImageConfigs(records, images[..m]).Failure?;
    } else {
      assert images[..n] == images;
    }
  }

  /** Configs never depend on records created after the images. */
  lemma {:induction false} ImageConfigsExtend(records: seq<Record>, more: seq<Record>, images: seq<Option<Images.SagemakerCustomImage>>)
    requires ImagesIn(records, images)
    ensures ImagesIn(records + more, images)
    ensures ImageConfigs(records + more, images) == ImageConfigs(records, images)
    decreases |images|
  {
    assert ImagesIn(records + more, images) by {
      forall i | 0 <= i < |images| && images[i].Some?
        ensures (records + more)[images[i].value.imageConfig] == records[images[i].value.imageConfig]
      {
      }
    }
    if |images| > 0 {
      ImageConfigsExtend(records, more, images[..|images| - 1]);
    }
  }

  /** The configs succeed exactly when every image is defined, and then hold
      each image's config name and image name, in order; otherwise the error
      names the first undefined position. */
  lemma {:induction false} ImageConfigsSpec(records: seq<Record>, images: seq<Option<Images.SagemakerCustomImage>>)
    requires ImagesIn(records, images)
    ensures ImageConfigs(records, images).Success? <==> forall i :: 0 <= i < |images| ==> images[i].Some?
    ensures ImageConfigs(records, images).Success? ==>
              var configs := ImageConfigs(records, images).value;
              |configs| == |images| &&
              forall i :: 0 <= i < |images| ==> configs[i] == ConfigRef(records, images[i].value)
    ensures ImageConfigs(records, images).Failure? ==>
              ImageConfigs(records, images).error.UndefinedCustomImage? &&
              var k := ImageConfigs(records, images).error.position;
              k < |images| && images[k].None? && forall j :: 0 <= j < k ==> images[j].Some?
    decreases |images|
  {
    if |images| > 0 {
      var m := |images| - 1;
      var init := images[..m];
      ImageConfigsSpec(records, init);
      assert forall i :: 0 <= i < m ==> init[i] == images[i];
    }
  }

  // ---------------------------------------------------------------------
  // Security group

  /** Lines 191-197: HTTPS from anywhere, NFS and the ephemeral ports from the group itself. */
  function IngressRules(group: Handle): seq<IngressRule> {
    [IngressRule(AnyIpv4, Tcp(443), None),
     IngressRule(GroupPeer(group), Tcp(2049), Some("NFS traffic to EFS volume")),
     IngressRule(GroupPeer(group), TcpRange(8192, 65535),
                 Some("Ephemeral ports to allow traffic between Jupyter Server and Kernel Gateway"))]
  }

  function SecurityGroupRecord(path: Path, domainName: string, vpcId: Token, group: Handle): Record {
    SecurityGroup(path + ["SagemakerSecurityGroup"], vpcId, domainName + "-sec-grp",
                  "Security Group for sagemaker domain " + domainName, true, IngressRules(group))
  }

  predicate Covers(range: PortRange, port: nat) {
    match range
    case Tcp(p) => p == port
    case TcpRange(from, to) => from <= port <= to
  }

  /** Some rule lets TCP traffic from `peer` reach `port`. */
  predicate Admits(rules: seq<IngressRule>, peer: Peer, port: nat) {
    exists i :: 0 <= i < |rules| && rules[i].peer == peer && Covers(rules[i].portRange, port)
  }

  /** From any IPv4 address only port 443 is open; from the group itself
      port 2049 and the ports 8192 to 65535; from any other group nothing. */
  lemma SecurityGroupAdmits(group: Handle, port: nat, other: Handle)
    requires other != group
    ensures Admits(IngressRules(group), AnyIpv4, port) <==> port == 443
    ensures Admits(IngressRules(group), GroupPeer(group), port) <==> port == 2049 || 8192 <= port <= 65535
    ensures !Admits(IngressRules(group), GroupPeer(other), port)
  {
    var rules := IngressRules(group);
    if port == 443 {
      assert rules[0].peer == AnyIpv4 && Covers(rules[0].portRange, port);
    }
    if port == 2049 {
      assert rules[1].peer == GroupPeer(group) && Covers(rules[1].portRange, port);
    }
    if 8192 <= port <= 65535 {
      assert rules[2].peer == GroupPeer(group) && Covers(rules[2].portRange, port);
    }
  }

  /** Lines 179-198. */
  method AddSecurityGroup(synth: Synth, path: Path, domainName: string, vpcId: Token) returns (group: Handle)
    requires synth.Valid()
    modifies synth
    ensures synth.Valid() && synth.deps == old(synth.deps)
    ensures group == |old(synth.records)|
    ensures synth.records == old(synth.records) + [SecurityGroupRecord(path, domainName, vpcId, group)]
  {
    group := synth.Add(SecurityGroup(path + ["SagemakerSecurityGroup"], vpcId, domainName + "-sec-grp",
                                     "Security Group for sagemaker domain " + domainName, true, []));
    ghost var rules := IngressRules(group);
    synth.AddIngressRule(group, IngressRule(AnyIpv4, Tcp(443), None));
    assert synth.records[group].ingress == rules[..1];
    synth.AddIngressRule(group, IngressRule(GroupPeer(group), Tcp(2049), Some("NFS traffic to EFS volume")));
    assert synth.records[group].ingress == rules[..2];
    synth.AddIngressRule(group, IngressRule(GroupPeer(group), TcpRange(8192, 65535),
                                            Some("Ephemeral ports to allow traffic between Jupyter Server and Kernel Gateway")));
    assert synth.records[group].ingress == rules;
    assert synth.records[group] == SecurityGroupRecord(path, domainName, vpcId, group);
  }

  // ---------------------------------------------------------------------
  // Role, domain, dependencies and profiles

  /** The props of the role created when none is passed in. */
  function RoleProps(props: SagemakerDomainProps): ExecutionRole.SagemakerRoleProps {
    ExecutionRole.SagemakerRoleProps(props.accountId, props.region, props.domainName + "-default-execution-role",
                                     props.defaultExecutionPolicyLocation, props.allowedInstanceTypes)
  }

  /** The records lines 151-159 append, the first at `base`. */
  function RoleRecs(base: nat, path: Path, props: SagemakerDomainProps, fs: ExecutionRole.FileSystem,
                    t: ExecutionRole.RoleTemplates): seq<Record>
    requires DollarFree(props.accountId) && DollarFree(props.region)
  {
    if props.defaultExecutionRole.Some? then []
    else ExecutionRole.RoleRecords(base, path + ["DefaultRole"], RoleProps(props), fs, t)
  }

  function DomainRole(base: nat, path: Path, props: SagemakerDomainProps, fs: ExecutionRole.FileSystem): ExecutionRole.SagemakerRole {
    if props.defaultExecutionRole.Some? then props.defaultExecutionRole.value
    else ExecutionRole.RoleValue(base, path + ["DefaultRole"], RoleProps(props), fs)
  }

  /** Lines 202-227. */
  function DomainRecord(path: Path, props: SagemakerDomainProps, roleArn: Token, configs: seq<CustomImageRef>,
                        group: Handle): Record {
    Domain(path + ["SagemakerDomain"], AuthMode, props.domainName, props.vpc.id, props.vpc.subnetIds,
           [Attr(group, "GroupId")],
           DomainUserSettings("ENABLED", "studio::", roleArn, configs,
                              ResourceSpec(props.defaultJupyterLabInstanceType, None), [Attr(group, "GroupId")]),
           [Tag("sagemaker:domain", Lit(props.domainName))])
  }

  /** Lines 244-278: the profile of one user. */
  function ProfileRecord(path: Path, props: SagemakerDomainProps, roleArn: Token, domain: Handle, user: string): Record {
    var userName := Profiles.NormalizeUserName(user);
    UserProfile(path + [Profiles.ProfileConstructId(userName)], Attr(domain, "DomainId"), userName,
                Profiles.ProfileSettings(roleArn, Profiles.DefaultStudioArn(props.region), props.region,
                                         Some(ResourceSpec(props.defaultJupyterLabInstanceType, None))),
                [Tag("sagemaker:DomainUser", Lit(userName)), Tag("sagemaker:Domain", Attr(domain, "DomainId"))])
  }

  /** One profile per user, in order. */
  function ProfileRecords(path: Path, props: SagemakerDomainProps, roleArn: Token, domain: Handle, users: seq<string>): seq<Record>
  {
    Each(u => ProfileRecord(path, props, roleArn, domain, u), users)
  }

  /** Lines 230-231: one edge from the domain to each custom image (the
      constructor has thrown before it gets here if one is undefined). */
  function DomainEdges(domain: Handle, images: seq<Option<Images.SagemakerCustomImage>>): seq<Edge>
    decreases |images|
  {
    if |images| == 0 then []
    else
      var last := images[|images| - 1];
      DomainEdges(domain, images[..|images| - 1]) + (if last.Some? then [Edge(domain, last.value.node)] else [])
  }

  /** Everything the constructor appends on success, the first at `base`,
      given the records of its role (none when the caller's is reused). */
  function DomainRecords(base: nat, path: Path, props: SagemakerDomainProps, roleRecords: seq<Record>, roleArn: Token,
                         configs: seq<CustomImageRef>): seq<Record>
  {
    [Construct(path, "SagemakerDomain")] + roleRecords + DomainTail(path, props, roleArn, base + 1 + |roleRecords|, configs)
  }

  lemma DomainRecordsSplit(records0: seq<Record>, base: nat, path: Path, props: SagemakerDomainProps,
                           roleRecords: seq<Record>, roleArn: Token, configs: seq<CustomImageRef>)
    ensures records0 + DomainRecords(base, path, props, roleRecords, roleArn, configs) ==
            records0 + [Construct(path, "SagemakerDomain")] + roleRecords +
            DomainTail(path, props, roleArn, base + 1 + |roleRecords|, configs)
  {
    AppendAssoc(records0, [Construct(path, "SagemakerDomain")], roleRecords,
                DomainTail(path, props, roleArn, base + 1 + |roleRecords|, configs));
  }

  /** Lines 179-281: the security group, the domain and the profiles. */
  function DomainTail(path: Path, props: SagemakerDomainProps, roleArn: Token, group: Handle,
                      configs: seq<CustomImageRef>): seq<Record>
  {
    [SecurityGroupRecord(path, props.domainName, props.vpc.id, group), DomainRecord(path, props, roleArn, configs, group)] +
    ProfileRecords(path, props, roleArn, group + 1, Users(props))
  }

  /** The construct's fields, given its role and the handle of its domain. */
  function DomainValue(base: nat, path: Path, props: SagemakerDomainProps, role: ExecutionRole.SagemakerRole,
                       domain: Handle): SagemakerDomain
  {
    SagemakerDomain(path, base, role, Attr(domain, "DomainId"), domain, props.vpc.vpc,
                    props.vpc.id, props.vpc.subnetIds, props.domainName, Handles(domain + 1, |Users(props)|))
  }


  /** What the constructor leaves behind, given the records before it, the
      records of its role and the role itself: on an undefined custom image it
      has thrown after the node and the role; otherwise it has added the
      security group, the domain, one profile per user and one dependency
      per custom image. */
  ghost predicate DomainOutcome(records0: seq<Record>, deps0: seq<Edge>, path: Path, props: SagemakerDomainProps,
                                roleRecords: seq<Record>, role: ExecutionRole.SagemakerRole,
                                r: Result<SagemakerDomain, SynthError>, records: seq<Record>, deps: seq<Edge>)
    requires ImagesIn(records0, CustomImages(props))
  {
    var base := |records0|;
    match ImageConfigs(records0, CustomImages(props))
    case Failure(e) =>
      r == Failure(e) && deps == deps0 && records == records0 + [Construct(path, "SagemakerDomain")] + roleRecords
    case Success(cs) =>
      r == Success(DomainValue(base, path, props, role, base + 1 + |roleRecords| + 1)) &&
      records == records0 + DomainRecords(base, path, props, roleRecords, role.roleArn, cs) &&
      deps == deps0 + DomainEdges(base + 1 + |roleRecords| + 1, CustomImages(props))
  }

  /** `new SagemakerDomain(scope, id, props)`, given the readable files and the
      default policy files a new role needs. An undefined custom image makes
      it throw after the role exists. */
  method NewSagemakerDomain(synth: Synth, scope: Path, id: string, props: SagemakerDomainProps,
                            fs: ExecutionRole.FileSystem, t: ExecutionRole.RoleTemplates)
    returns (r: Result<SagemakerDomain, SynthError>)
    requires synth.Valid() && DollarFree(props.accountId) && DollarFree(props.region)
    requires ImagesIn(synth.records, CustomImages(props))
    modifies synth
    ensures synth.Valid()
    ensures var base, path := |old(synth.records)|, scope + [id];
            DomainOutcome(old(synth.records), old(synth.deps), path, props, RoleRecs(base + 1, path, props, fs, t),
                          DomainRole(base + 1, path, props, fs), r, synth.records, synth.deps)
  {
    var path := scope + [id];
    var node := synth.Add(Construct(path, "SagemakerDomain"));
    var role := ResolveRole(synth, path, props, fs, t);
    assert role == DomainRole(|old(synth.records)| + 1, path, props, fs);
    r := FinishDomain(synth, old(synth.records), old(synth.deps), node, path, props, role,
                      RoleRecs(|old(synth.records)| + 1, path, props, fs, t));
  }

  /** Lines 160-283, once the node and the role exist. */
  method FinishDomain(synth: Synth, ghost records0: seq<Record>, ghost deps0: seq<Edge>, node: Handle, path: Path, props: SagemakerDomainProps,
                      role: ExecutionRole.SagemakerRole, ghost roleRecords: seq<Record>)
    returns (r: Result<SagemakerDomain, SynthError>)
    requires synth.Valid() && ImagesIn(records0, CustomImages(props)) && node == |records0|
    requires synth.records == records0 + [Construct(path, "SagemakerDomain")] + roleRecords && synth.deps == deps0
    modifies synth
    ensures synth.Valid()
    ensures DomainOutcome(records0, deps0, path, props, roleRecords, role, r, synth.records, synth.deps)
  {
    var images := CustomImages(props);
    AppendAssoc(records0, [Construct(path, "SagemakerDomain")], roleRecords, []);
    ImageConfigsExtend(records0, [Construct(path, "SagemakerDomain")] + roleRecords, images);
    var configs := BuildImageConfigs(synth.records, images);
    if configs.Failure? {
      return Failure(configs.error);
    }
    ImageConfigsSpec(records0, images);
    var d := CompleteDomain(synth, records0, node, path, props, role, roleRecords, configs.value, images);
    r := Success(d);
  }

  /** The security group, the domain and the profiles after the role, and the
      construct's fields. */
  method CompleteDomain(synth: Synth, ghost records0: seq<Record>, node: Handle, path: Path, props: SagemakerDomainProps,
                        role: ExecutionRole.SagemakerRole, ghost roleRecords: seq<Record>, configs: seq<CustomImageRef>,
                        images: seq<Option<Images.SagemakerCustomImage>>)
    returns (d: SagemakerDomain)
    requires synth.Valid() && node == |records0|
    requires synth.records == records0 + [Construct(path, "SagemakerDomain")] + roleRecords
    requires forall i :: 0 <= i < |images| ==> images[i].Some? && images[i].value.node < |records0|
    modifies synth
    ensures synth.Valid()
    ensures d == DomainValue(node, path, props, role, node + 1 + |roleRecords| + 1)
    ensures synth.records == records0 + DomainRecords(node, path, props, roleRecords, role.roleArn, configs)
    ensures synth.deps == old(synth.deps) + DomainEdges(node + 1 + |roleRecords| + 1, images)
  {
    ghost var records1 := synth.records;
    var domain, domainUsers := AddDomainTail(synth, path, props, role.roleArn, configs, images, node + 1 + |roleRecords|);
    ghost var tail := DomainTail(path, props, role.roleArn, node + 1 + |roleRecords|, configs);
    assert synth.records == records1 + tail;
    DomainRecordsSplit(records0, node, path, props, roleRecords, role.roleArn, configs);
    assert records0 + DomainRecords(node, path, props, roleRecords, role.roleArn, configs) == records1 + tail;
    d := SagemakerDomain(path, node, role, Attr(domain, "DomainId"), domain, props.vpc.vpc, props.vpc.id,
                         props.vpc.subnetIds, props.domainName, domainUsers);
  }

  /** Lines 175-283, once the image configs are known. */
  method AddDomainTail(synth: Synth, path: Path, props: SagemakerDomainProps, roleArn: Token,
                       configs: seq<CustomImageRef>, images: seq<Option<Images.SagemakerCustomImage>>, ghost at: nat)
    returns (domain: Handle, domainUsers: seq<Handle>)
    requires synth.Valid() && at == |synth.records|
    requires forall i :: 0 <= i < |images| ==> images[i].Some? && images[i].value.node < at
    modifies synth
    ensures synth.Valid()
    ensures domain == at + 1 && domainUsers == Handles(domain + 1, |Users(props)|)
    ensures synth.records == old(synth.records) + DomainTail(path, props, roleArn, at, configs)
    ensures synth.deps == old(synth.deps) + DomainEdges(at + 1, images)
  {
    ghost var records0 := synth.records;
    var group := AddSecurityGroup(synth, path, props.domainName, props.vpc.id);
    domain := synth.Add(DomainRecord(path, props, roleArn, configs, group));
    assert group == at && domain == at + 1;
    assert synth.records == records0 + [SecurityGroupRecord(path, props.domainName, props.vpc.id, group),
                                        DomainRecord(path, props, roleArn, configs, group)];
    ghost var records1 := synth.records;
    AddDomainDependencies(synth, domain, images);
    domainUsers := AddProfiles(synth, path, props, roleArn, domain, Users(props));
    AppendAssoc(records0, [SecurityGroupRecord(path, props.domainName, props.vpc.id, group),
                           DomainRecord(path, props, roleArn, configs, group)],
                ProfileRecords(path, props, roleArn, domain, Users(props)), []);
  }

  /** Lines 151-159: the caller's role, or a new one. */
  method ResolveRole(synth: Synth, path: Path, props: SagemakerDomainProps, fs: ExecutionRole.FileSystem,
                     t: ExecutionRole.RoleTemplates) returns (role: ExecutionRole.SagemakerRole)
    requires synth.Valid() && DollarFree(props.accountId) && DollarFree(props.region)
    modifies synth
    ensures synth.Valid() && synth.deps == old(synth.deps)
    ensures synth.records == old(synth.records) + RoleRecs(|old(synth.records)|, path, props, fs, t)
    ensures role == DomainRole(|old(synth.records)|, path, props, fs)
  {
    if props.defaultExecutionRole.Some? {
      role := props.defaultExecutionRole.value;
    } else {
      role := ExecutionRole.NewSagemakerRole(synth, path, "DefaultRole", RoleProps(props), fs, t);
    }
  }

  /** Lines 230-231. */
  method AddDomainDependencies(synth: Synth, domain: Handle, images: seq<Option<Images.SagemakerCustomImage>>)
    requires synth.Valid() && domain < |synth.records|
    requires forall i :: 0 <= i < |images| ==> images[i].Some? && images[i].value.node < domain
    modifies synth
    ensures synth.Valid() && synth.records == old(synth.records)
    ensures synth.deps == old(synth.deps) + DomainEdges(domain, images)
  {
    var i := 0;
    while i < |images|
      invariant 0 <= i <= |images|
      invariant synth.Valid() && synth.records == old(synth.records)
      invariant synth.deps == old(synth.deps) + DomainEdges(domain, images[..i])
    {
      assert images[..i + 1][..i] == images[..i];
      synth.AddDependency(domain, images[i].value.node);
      i := i + 1;
    }
    assert images[..i] == images;
  }

  /** Lines 243-281. */
  method AddProfiles(synth: Synth, path: Path, props: SagemakerDomainProps, roleArn: Token, domain: Handle,
                     users: seq<string>) returns (domainUsers: seq<Handle>)
    requires synth.Valid()
    modifies synth
    ensures synth.Valid() && synth.deps == old(synth.deps)
    ensures synth.records == old(synth.records) + ProfileRecords(path, props, roleArn, domain, users)
    ensures domainUsers == Handles(|old(synth.records)|, |users|)
  {
    domainUsers := synth.AddEach(u => ProfileRecord(path, props, roleArn, domain, u), users);
  }

  // ---------------------------------------------------------------------
  // Properties

  /** A user's profile is named by the normalised user name, has that name's
      construct id, runs as the domain's role on the region's default images
      and carries the user and domain tags. */
  lemma ProfileRecordFacts(path: Path, props: SagemakerDomainProps, roleArn: Token, domain: Handle, user: string)
    ensures var p := ProfileRecord(path, props, roleArn, domain, user);
            var userName := Profiles.NormalizeUserName(user);
            p.UserProfile? && p.path == path + ["SagemakerUserProfile" + Without(userName, '-')] &&
            p.profileName == userName && '.' !in p.profileName && '_' !in p.profileName &&
            p.profileDomainId == Attr(domain, "DomainId") &&
            p.userSettings.executionRole == roleArn &&
            p.userSettings.jupyterServer == ResourceSpec(Some("system"), Some(Profiles.DefaultStudioArn(props.region))) &&
            p.userSettings.kernelGateway == ResourceSpec(Some("ml.t3.medium"), Some(Profiles.DefaultKernelArn(props.region))) &&
            p.userSettings.jupyterLab == Some(ResourceSpec(props.defaultJupyterLabInstanceType, None)) &&
            p.profileTags == [Tag("sagemaker:DomainUser", Lit(userName)), Tag("sagemaker:Domain", Attr(domain, "DomainId"))]
  {
    Profiles.ProfileIdDropsHyphens(Profiles.NormalizeUserName(user));
    Profiles.NormalizeRemovesDotAndUnderscore(user);
  }

  /** The domain depends on every custom image, once each, in order. */
  lemma {:induction false} DomainEdgesAt(domain: Handle, images: seq<Option<Images.SagemakerCustomImage>>)
    requires forall i :: 0 <= i < |images| ==> images[i].Some?
    ensures |DomainEdges(domain, images)| == |images|
    ensures forall i :: 0 <= i < |images| ==> DomainEdges(domain, images)[i] == Edge(domain, images[i].value.node)
    decreases |images|
  {
    if |images| > 0 {
      var m := |images| - 1;
      DomainEdgesAt(domain, images[..m]);
      assert forall i :: 0 <= i < m ==> images[..m][i] == images[i];
    }
  }

  /** The domain uses IAM authentication, the VPC's ID and all its subnet
      IDs, and the security group created just before it, which allows all
      outbound traffic and has the three fixed ingress rules; the profiles
      follow the domain. */
  lemma DomainTailLayout(path: Path, props: SagemakerDomainProps, roleArn: Token, group: Handle, configs: seq<CustomImageRef>)
    ensures var rs := DomainTail(path, props, roleArn, group, configs);
            2 <= |rs| && rs[0].SecurityGroup? && rs[0].allowAllOutbound && rs[0].groupVpc == props.vpc.id &&
            rs[0].ingress == IngressRules(group) &&
            rs[1] == Domain(path + ["SagemakerDomain"], "IAM", props.domainName, props.vpc.id, props.vpc.subnetIds,
                            [Attr(group, "GroupId")],
                            DomainUserSettings("ENABLED", "studio::", roleArn, configs,
                                               ResourceSpec(props.defaultJupyterLabInstanceType, None),
                                               [Attr(group, "GroupId")]),
                            [Tag("sagemaker:domain", Lit(props.domainName))]) &&
            rs[2..] == ProfileRecords(path, props, roleArn, group + 1, Users(props))
  {
    var rs := DomainTail(path, props, roleArn, group, configs);
    assert rs[2..] == ProfileRecords(path, props, roleArn, group + 1, Users(props));
  }

  /** The caller's role is reused when given, and otherwise a new role named
      after the domain is created under `DefaultRole`. */
  lemma DomainRoleChoice(base: nat, path: Path, props: SagemakerDomainProps, fs: ExecutionRole.FileSystem,
                         t: ExecutionRole.RoleTemplates)
    requires DollarFree(props.accountId) && DollarFree(props.region)
    ensures props.defaultExecutionRole.Some? ==>
              DomainRole(base + 1, path, props, fs) == props.defaultExecutionRole.value &&
              RoleRecs(base + 1, path, props, fs, t) == []
    ensures props.defaultExecutionRole.None? ==>
              var rs := RoleRecs(base + 1, path, props, fs, t);
              rs == ExecutionRole.RoleRecords(base + 1, path + ["DefaultRole"], RoleProps(props), fs, t) &&
              |rs| > 0 && rs[|rs| - 1].Role? && rs[|rs| - 1].roleName == Some(props.domainName + "-default-execution-role") &&
              DomainRole(base + 1, path, props, fs).role == base + |rs|
  {
    if props.defaultExecutionRole.None? {
      ExecutionRole.RoleRecordsShape(base + 1, path + ["DefaultRole"], RoleProps(props), fs, t);
    }
  }

  /** Whatever the outcome, the records before the constructor are kept as
      they are; it succeeds exactly when every custom image is defined, and
      a failure names an undefined image. */
  lemma DomainOutcomeFacts(records0: seq<Record>, deps0: seq<Edge>, path: Path, props: SagemakerDomainProps,
                           roleRecords: seq<Record>, role: ExecutionRole.SagemakerRole,
                           r: Result<SagemakerDomain, SynthError>, records: seq<Record>, deps: seq<Edge>)
    requires ImagesIn(records0, CustomImages(props))
    requires DomainOutcome(records0, deps0, path, props, roleRecords, role, r, records, deps)
    ensures |records0| < |records| && records[..|records0|] == records0
    ensures r.Success? <==> forall i :: 0 <= i < |CustomImages(props)| ==> CustomImages(props)[i].Some?
    ensures r.Success? ==> r.value.path == path && r.value.domainName == props.domainName
    ensures r.Success? ==>
              r.value.vpc == props.vpc.vpc && r.value.vpcId == props.vpc.id && r.value.subnetIds == props.vpc.subnetIds &&
              r.value.defaultExecutionRole == role
    ensures r.Failure? ==>
              r.error.UndefinedCustomImage? && r.error.position < |CustomImages(props)| &&
              CustomImages(props)[r.error.position].None?
  {
    ImageConfigsSpec(records0, CustomImages(props));
    if r.Success? {
      var cs := ImageConfigs(records0, CustomImages(props)).value;
      assert records == records0 + DomainRecords(|records0|, path, props, roleRecords, role.roleArn, cs);
    } else {
      assert records == records0 + [Construct(path, "SagemakerDomain")] + roleRecords;
    }
  }

  /** The caller's `authMode`, `appNetworkAccessType`, `publicSubnets` and
      `pipelineRole` change nothing the constructor creates. */
  lemma IgnoredProps(path: Path, props: SagemakerDomainProps, roleArn: Token, group: Handle, configs: seq<CustomImageRef>,
                     authMode: Option<string>, access: Option<string>, publicSubnets: Option<bool>, pipelineRole: Token)
    ensures var other := props.(authMode := authMode, appNetworkAccessType := access, publicSubnets := publicSubnets,
                                pipelineRole := pipelineRole);
            DomainTail(path, other, roleArn, group, configs) == DomainTail(path, props, roleArn, group, configs) &&
            RoleProps(other) == RoleProps(props)
  {
    var other := props.(authMode := authMode, appNetworkAccessType := access, publicSubnets := publicSubnets,
                        pipelineRole := pipelineRole);
    EachAgrees(u => ProfileRecord(path, other, roleArn, group + 1, u), u => ProfileRecord(path, props, roleArn, group + 1, u),
               Users(props));
  }
}
