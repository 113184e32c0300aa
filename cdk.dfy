/**
 * The construct tree as the infrastructure code sees it: every `new X(scope,
 * id, props)` appends one record, in creation order, to a `Synth`; the CDK
 * mutators (`addStatements`, `attachToRole`, `addToPolicy`,
 * `addToResourcePolicy`, `addIngressRule`) update a record in place, and
 * `addDependency` adds an edge. What CloudFormation later does with the
 * records is not modelled.
 */
module Cdk {
  import opened Wrappers
  import opened Tokens
  import opened Iam
  import Text

  datatype Removal = Destroy | Retain | Snapshot | RetainOnUpdateOrDelete

  /** A managed policy attached to a role: an AWS managed one by name, or one of the tree. */
  datatype PolicyRef = AwsManaged(managedName: string) | LocalPolicy(policy: Handle)

  /** A managed policy's `document`: none, parsed JSON, or the text of a file. */
  datatype Document = NoDocument | JsonDocument(json: PolicyJson) | TextDocument(text: string)

  datatype SubnetType = PrivateWithEgress | Public

  datatype SubnetConfiguration = SubnetConfiguration(
    cidrMask: nat, name: string, subnetType: SubnetType, mapPublicIpOnLaunch: Option<bool>)

  datatype Peer = AnyIpv4 | GroupPeer(group: Handle)

  datatype PortRange = Tcp(port: nat) | TcpRange(from: nat, to: nat)

  datatype IngressRule = IngressRule(peer: Peer, portRange: PortRange, ruleDescription: Option<string>)

  datatype Tag = Tag(key: string, value: Token)

  /** `defaultResourceSpec`: an instance type and an image ARN, each optional. */
  datatype ResourceSpec = ResourceSpec(instanceType: Option<string>, imageArn: Option<string>)

  /** An entry of a domain's `customImages`. */
  datatype CustomImageRef = CustomImageRef(configName: string, customImageName: string)

  datatype DomainUserSettings = DomainUserSettings(
    studioWebPortal: string,
    defaultLandingUri: string,
    domainExecutionRole: Token,
    customImages: seq<CustomImageRef>,
    domainJupyterLab: ResourceSpec,
    securityGroups: seq<Token>)

  datatype UserSettings = UserSettings(
    executionRole: Token,
    jupyterServer: ResourceSpec,
    jupyterLab: Option<ResourceSpec>,
    kernelGateway: ResourceSpec)

  datatype Record =
    | Construct(path: Path, kind: string)
    | Stack(path: Path, account: Option<string>, region: Option<string>)
    | ImportedRole(path: Path, importedArn: string)
    | LookedUpVpc(path: Path, lookupVpcId: Option<string>)
    | Key(path: Path, keyDescription: Option<string>, enabled: bool, keyRotation: bool,
          keyPolicy: PolicyJson, keyRemoval: Removal, resourceStatements: seq<Statement>)
    | Alias(path: Path, aliasName: string, aliasTarget: Handle)
    | ManagedPolicy(path: Path, policyName: Option<string>, policyDescription: string,
                    document: Document, statements: seq<Statement>, attachedRoles: seq<Handle>)
    | Role(path: Path, roleName: Option<string>, roleDescription: string, trust: seq<Principal>,
           managedPolicies: seq<PolicyRef>, inlineStatements: seq<Statement>)
    | Vpc(path: Path, vpcName: string, cidr: string, subnetConfiguration: seq<SubnetConfiguration>,
          maxAzs: nat, natGateways: nat)
    | SecurityGroup(path: Path, groupVpc: Token, groupName: string, groupDescription: string,
                    allowAllOutbound: bool, ingress: seq<IngressRule>)
    | Domain(path: Path, authMode: string, domainName: string, domainVpcId: Token,
             domainSubnetIds: seq<Token>, domainSecurityGroups: seq<Token>,
             defaultUserSettings: DomainUserSettings, domainTags: seq<Tag>)
    | UserProfile(path: Path, profileDomainId: Token, profileName: string,
                  userSettings: UserSettings, profileTags: seq<Tag>)
    | Image(path: Path, imageName: string, imageRoleArn: Token, displayName: Option<string>)
    | ImageVersion(path: Path, baseImage: string, versionImageName: string)
    | AppImageConfig(path: Path, appImageConfigName: string)
    | Parameter(path: Path, parameterName: string, parameterDescription: string,
                parameterValue: Token, allowedPattern: string, tier: string)
    | Bucket(path: Path, bucketName: string, blockAllPublicAccess: bool, autoDeleteObjects: bool,
             bucketRemoval: Removal, encryptionKey: Handle, enforceSSL: bool, cors: seq<string>,
             bucketPolicy: seq<string>)

  /** `from.node.addDependency(to)`. */
  datatype Edge = Edge(from: Handle, to: Handle)

  /** A `Role` or a `ManagedPolicy` handed to a grant helper. */
  datatype IamEntity = RoleEntity(role: Handle) | PolicyEntity(policy: Handle)

  /** What makes synthesis throw. */
  datatype SynthError =
    | RegionMissing
    | AccountMissing
    | UndefinedCustomImage(position: nat)
  {
    function Message(): string {
      match this
      case RegionMissing => "Region must be provided either in config.js file or as environment variable."
      case AccountMissing => "Account ID must be provided either in config.js file or as environment variable."
      case UndefinedCustomImage(_) => "Cannot read properties of undefined (reading 'sagemakerImageConfig')"
    }
  }

  /** `f` applied to each element, in order. */
  function Each<A, B>(f: A -> B, xs: seq<A>): seq<B>
    decreases |xs|
  {
    if |xs| == 0 then [] else Each(f, xs[..|xs| - 1]) + [f(xs[|xs| - 1])]
  }

  /** The lists one after the other. */
  function Flatten<T>(xss: seq<seq<T>>): seq<T>
    decreases |xss|
  {
    if |xss| == 0 then [] else Flatten(xss[..|xss| - 1]) + xss[|xss| - 1]
  }

  /** Mapping a list with one more element. */
  lemma EachSnoc<A, B>(f: A -> B, xs: seq<A>, x: A)
    ensures Each(f, xs + [x]) == Each(f, xs) + [f(x)]
  {
    assert (xs + [x])[..|xs|] == xs;
  }

  lemma FlattenSnoc<T>(xss: seq<seq<T>>, xs: seq<T>)
    ensures Flatten(xss + [xs]) == Flatten(xss) + xs
  {
    assert (xss + [xs])[..|xss|] == xss;
  }

  /** `start`, `start + 1`, ... : the handles of records appended together. */
  function Handles(start: nat, count: nat): seq<Handle>
    decreases count
  {
    if count == 0 then [] else Handles(start, count - 1) + [start + count - 1]
  }

  lemma {:induction false} EachAt<A, B>(f: A -> B, xs: seq<A>)
    ensures |Each(f, xs)| == |xs|
    ensures forall i :: 0 <= i < |xs| ==> Each(f, xs)[i] == f(xs[i])
    decreases |xs|
  {
    if |xs| > 0 {
      EachAt(f, xs[..|xs| - 1]);
    }
  }

  /** Two functions that agree on the elements give the same sequence. */
  lemma {:induction false} EachAgrees<A, B>(f: A -> B, g: A -> B, xs: seq<A>)
    requires forall i :: 0 <= i < |xs| ==> f(xs[i]) == g(xs[i])
    ensures Each(f, xs) == Each(g, xs)
    decreases |xs|
  {
    if |xs| > 0 {
      EachAgrees(f, g, xs[..|xs| - 1]);
    }
  }

  lemma {:induction false} HandlesAt(start: nat, count: nat)
    ensures |Handles(start, count)| == count
    ensures forall i :: 0 <= i < count ==> Handles(start, count)[i] == start + i
  {
    if count > 0 {
      HandlesAt(start, count - 1);
    }
  }

  class Synth {
    var records: seq<Record>
    var deps: seq<Edge>

    /** Each dependency points from a record to one created before it, so the
        dependency graph has no cycle. */
    ghost predicate Valid()
      reads this
    {
      forall i :: 0 <= i < |deps| ==> deps[i].to < deps[i].from < |records|
    }

    constructor ()
      ensures Valid() && records == [] && deps == []
    {
      records := [];
      deps := [];
    }

    /** Creates a construct; its handle is its position. */
    method Add(r: Record) returns (h: Handle)
      requires Valid()
      modifies this
      ensures Valid()
      ensures h == |old(records)| && records == old(records) + [r] && deps == old(deps)
    {
      h := |records|;
      records := records + [r];
    }

    /** One record per element of `xs`, in order. */
    method AddEach<A>(f: A -> Record, xs: seq<A>) returns (hs: seq<Handle>)
      requires Valid()
      modifies this
      ensures Valid() && deps == old(deps)
      ensures records == old(records) + Each(f, xs) && hs == Handles(|old(records)|, |xs|)
    {
      hs := [];
      var i := 0;
      while i < |xs|
        invariant 0 <= i <= |xs|
        invariant Valid() && deps == old(deps)
        invariant records == old(records) + Each(f, xs[..i])
        invariant hs == Handles(|old(records)|, i) && |records| == |old(records)| + i
      {
        assert xs[..i + 1][..i] == xs[..i];
        var h := Add(f(xs[i]));
        Text.AppendAssoc(old(records), Each(f, xs[..i]), [f(xs[i])], []);
        hs := hs + [h];
        i := i + 1;
      }
      assert xs[..i] == xs;
    }

    method AddDependency(from: Handle, to: Handle)
      requires Valid() && to < from < |records|
      modifies this
      ensures Valid()
      ensures records == old(records) && deps == old(deps) + [Edge(from, to)]
    {
      deps := deps + [Edge(from, to)];
    }

    /** `policy.addStatements(st)`. */
    method AddStatement(policy: Handle, st: Statement)
      requires Valid() && policy < |records| && records[policy].ManagedPolicy?
      modifies this
      ensures Valid() && deps == old(deps)
      ensures records == old(records)[policy := old(records)[policy].(statements := old(records)[policy].statements + [st])]
    {
      records := records[policy := records[policy].(statements := records[policy].statements + [st])];
    }

    /** `policy.attachToRole(role)`. */
    method AttachToRole(policy: Handle, role: Handle)
      requires Valid() && policy < |records| && records[policy].ManagedPolicy?
      modifies this
      ensures Valid() && deps == old(deps)
      ensures records == old(records)[policy := old(records)[policy].(attachedRoles := old(records)[policy].attachedRoles + [role])]
    {
      records := records[policy := records[policy].(attachedRoles := records[policy].attachedRoles + [role])];
    }

    /** `role.addToPolicy(st)`: a statement of the role's default inline policy. */
    method AddToRolePolicy(role: Handle, st: Statement)
      requires Valid() && role < |records| && records[role].Role?
      modifies this
      ensures Valid() && deps == old(deps)
      ensures records == old(records)[role := old(records)[role].(inlineStatements := old(records)[role].inlineStatements + [st])]
    {
      records := records[role := records[role].(inlineStatements := records[role].inlineStatements + [st])];
    }

    /** `key.addToResourcePolicy(st)`. */
    method AddToResourcePolicy(key: Handle, st: Statement)
      requires Valid() && key < |records| && records[key].Key?
      modifies this
      ensures Valid() && deps == old(deps)
      ensures records == old(records)[key := old(records)[key].(resourceStatements := old(records)[key].resourceStatements + [st])]
    {
      records := records[key := records[key].(resourceStatements := records[key].resourceStatements + [st])];
    }

    /** `group.addIngressRule(peer, port, description)`. */
    method AddIngressRule(group: Handle, rule: IngressRule)
      requires Valid() && group < |records| && records[group].SecurityGroup?
      modifies this
      ensures Valid() && deps == old(deps)
      ensures records == old(records)[group := old(records)[group].(ingress := old(records)[group].ingress + [rule])]
    {
      records := records[group := records[group].(ingress := records[group].ingress + [rule])];
    }

    /** `bucket.addToResourcePolicy(PolicyStatement.fromJson(st))`. */
    method AddToBucketPolicy(bucket: Handle, st: string)
      requires Valid() && bucket < |records| && records[bucket].Bucket?
      modifies this
      ensures Valid() && deps == old(deps)
      ensures records == old(records)[bucket := old(records)[bucket].(bucketPolicy := old(records)[bucket].bucketPolicy + [st])]
    {
      records := records[bucket := records[bucket].(bucketPolicy := records[bucket].bucketPolicy + [st])];
    }
  }
}
