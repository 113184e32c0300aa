/**
 * The SageMaker infrastructure stack: the imported pipeline role, the
 * staging bucket, the shared execution role, the looked-up and the platform
 * VPC, one custom image per repository tag, the tag-to-image map, and one
 * domain per configured domain with the images its tags name.
 */
module Stack {
  import opened Wrappers
  import opened Text
  import opened Tokens
  import opened Iam
  import opened Cdk
  import Config
  import Kms
  import Bucket
  import ExecutionRole
  import Vpc
  import Images
  import Domain

  /** The account and region the stack is deployed to. */
  datatype Env = Env(account: string, region: string)

  /** What `Vpc.fromLookup` reports about the looked-up VPC. */
  datatype VpcLookup = VpcLookup(vpcId: string, publicSubnetIds: seq<Token>, privateSubnetIds: seq<Token>)

  /** What synthesis takes from outside the program: context lookups, the
      policy files, readable files and the build's source revision. */
  datatype Inputs = Inputs(
    ssmVpcId: string,
    defaultVpc: VpcLookup,
    platformVpcView: Vpc.VpcView,
    zones: nat,
    flowLogsPolicy: PolicyJson,
    fs: ExecutionRole.FileSystem,
    roleTemplates: ExecutionRole.RoleTemplates,
    keyTemplates: Kms.KeyTemplates,
    defaultBucketPolicy: PolicyJson,
    sourceVersion: Option<string>)

  datatype SagemakerInfraStack = SagemakerInfraStack(
    path: Path,
    node: Handle,
    pipelineRole: Handle,
    pipelineRoleArn: Token,
    stagingBucket: Bucket.PlatformBucket,
    sagemakerDefaultRole: ExecutionRole.SagemakerRole,
    vpc: Vpc.PlatformVpc,
    customImageMap: map<string, Images.SagemakerCustomImage>,
    domains: seq<Domain.SagemakerDomain>)

  const PipelineRoleName: string := "sagemaker-custom-image-pipeline-role"

  function PipelineRoleArn(account: string): string {
    "arn:aws:iam::" + account + ":role/" + PipelineRoleName
  }

  function StagingBucketProps(env: Env): Bucket.PlatformBucketProps {
    Bucket.PlatformBucketProps(env.account + "-sagemaker-staging", None, None, None, env.account, env.region, null,
                               None, Some([PipelineRoleArn(env.account)]), None, None, None, None)
  }

  function DefaultRoleProps(env: Env, config: Config.Config): ExecutionRole.SagemakerRoleProps {
    ExecutionRole.SagemakerRoleProps(env.account, env.region,
                                     "platform-sagemaker-execution-" + config.environment + "-role", None, None)
  }

  /** `CONFIG.vpcConfig?.x` for the four VPC settings, the looked-up VPC's ID
      and its subnets as supplied IDs, and no isolated IDs. */
  function StackVpcProps(env: Env, config: Config.Config, lookup: VpcLookup): Vpc.VpcProps {
    var vc := config.vpcConfig;
    Vpc.VpcProps(if vc.Some? then vc.value.vpcCIDR else None,
                 if vc.Some? then vc.value.privateSubnets else None,
                 if vc.Some? then vc.value.publicSubnets else None,
                 if vc.Some? then vc.value.subnetSize else None,
                 env.account, env.region, Some(lookup.vpcId),
                 Some(lookup.publicSubnetIds), Some(lookup.privateSubnetIds), None, None)
  }

  /** The records of lines 37-42, from record `base` on: the bucket's own
      construct, its own key's three (with `doc` hydrated for `admins`), the
      name parameter and the bucket. */
  function StagingRecords(base: nat, path: Path, env: Env, pipelineRoleName: string, keyPolicy: Kms.PolicyObject,
                          doc: PolicyJson, admins: seq<string>, bucketPolicy: PolicyJson): seq<Record>
    requires DollarFree(env.account) && DollarFree(env.region) && DollarFree(pipelineRoleName) && AllDollarFree(admins)
  {
    var props, p := StagingBucketProps(env), path + ["StagingBucket"];
    assert '$' !in env.account + "-sagemaker-staging";
    Bucket.BucketRecords(p, props,
                         Kms.KeyRecords(base + 1, p + ["BucketKey"], Bucket.BucketKeyProps(props, keyPolicy),
                                        Kms.HydrateKeyPolicy(doc, admins, env.account, env.region, pipelineRoleName, [])),
                         Bucket.OwnKey(base, p, props), bucketPolicy)
  }

  /** The shared role of lines 44-48, when its node is record `base`. */
  function StackRole(base: nat, path: Path, env: Env, config: Config.Config, fs: ExecutionRole.FileSystem)
    : ExecutionRole.SagemakerRole
  {
    ExecutionRole.RoleValue(base, path + ["DefaultRole"], DefaultRoleProps(env, config), fs)
  }

  /** The platform VPC of lines 60-77, when its node is record `base`. */
  function StackVpc(base: nat, path: Path, env: Env, config: Config.Config, inputs: Inputs): Vpc.PlatformVpc {
    Vpc.PlatformVpcValue(base, path + ["ResearchPlatformVpc"], StackVpcProps(env, config, inputs.defaultVpc),
                         inputs.platformVpcView, inputs.zones)
  }

  /** The records of lines 44-77, from record `base` on: the shared role's six,
      the looked-up VPC, then the platform VPC's. */
  function RoleAndVpcRecords(base: nat, path: Path, env: Env, config: Config.Config, inputs: Inputs): seq<Record>
    requires DollarFree(env.account) && DollarFree(env.region)
  {
    ExecutionRole.RoleRecords(base, path + ["DefaultRole"], DefaultRoleProps(env, config), inputs.fs, inputs.roleTemplates) +
    [LookedUpVpc(path + ["DefaultVPC"], Some(inputs.ssmVpcId))] +
    Vpc.VpcRecords(base + 7, path + ["ResearchPlatformVpc"], StackVpcProps(env, config, inputs.defaultVpc),
                   inputs.flowLogsPolicy)
  }

  // ---------------------------------------------------------------------
  // Custom images

  /** One iteration of the inner image loop: a repository and one of its tags. */
  datatype ImageEntry = ImageEntry(repositoryName: string, tag: string)

  function TagEntries(repositoryName: string, tags: seq<string>): seq<ImageEntry> {
    Each(t => ImageEntry(repositoryName, t), tags)
  }

  /** The entries in the order of the nested loops of lines 83-103. */
  function ImageEntries(configs: seq<Config.ImageConfig>): seq<ImageEntry>
    decreases |configs|
  {
    if |configs| == 0 then []
    else
      var last := configs[|configs| - 1];
      ImageEntries(configs[..|configs| - 1]) + TagEntries(last.repositoryName, last.tags)
  }

  /** `${repositoryName}-${tag}` with its first `-` removed. */
  function ImageId(e: ImageEntry): string {
    ReplaceFirst(e.repositoryName + "-" + e.tag, "-", "")
  }

  function EntryProps(env: Env, role: ExecutionRole.SagemakerRole, e: ImageEntry): Images.SagemakerImagesProps {
    Images.SagemakerImagesProps(env.region, env.account, e.repositoryName, Some(e.tag), None, role)
  }

  function EntryRecords(path: Path, env: Env, role: ExecutionRole.SagemakerRole, sourceVersion: Option<string>,
                        e: ImageEntry): seq<Record> {
    Images.ImageRecords(path + [ImageId(e)], EntryProps(env, role, e), sourceVersion)
  }

  /** The image of an entry whose records start at `at`. */
  function EntryImage(at: nat, path: Path, env: Env, role: ExecutionRole.SagemakerRole, e: ImageEntry): Images.SagemakerCustomImage {
    Images.SagemakerCustomImage(path + [ImageId(e)], at, Images.KernelArn(env.account, env.region, e.repositoryName, Some(e.tag)),
                                Images.ImageName(EntryProps(env, role, e)), at + 1, at + 2, at + 3)
  }

  function EntriesRecords(path: Path, env: Env, role: ExecutionRole.SagemakerRole, sourceVersion: Option<string>,
                          es: seq<ImageEntry>): seq<Record> {
    Flatten(Each(e => EntryRecords(path, env, role, sourceVersion, e), es))
  }

  /** Each image version's dependency on its image; four records per image. */
  function EntriesEdges(base: nat, es: seq<ImageEntry>): seq<Edge>
    decreases |es|
  {
    if |es| == 0 then []
    else
      var at := base + 4 * (|es| - 1);
      EntriesEdges(base, es[..|es| - 1]) + [Edge(at + 2, at + 1)]
  }

  /** A map built by visiting the entries in order, each writing `f` of its
      position and itself under its tag. */
  function LastWins<V>(es: seq<ImageEntry>, f: (nat, ImageEntry) -> V): map<string, V>
    decreases |es|
  {
    if |es| == 0 then map[]
    else
      var k := |es| - 1;
      LastWins(es[..k], f)[es[k].tag := f(k, es[k])]
  }

  /** `customImageMap` after the loops: each entry overwrites its tag. */
  function EntriesMap(base: nat, path: Path, env: Env, role: ExecutionRole.SagemakerRole, es: seq<ImageEntry>)
    : map<string, Images.SagemakerCustomImage>
  {
    LastWins(es, (k: nat, e: ImageEntry) => EntryImage(base + 4 * k, path, env, role, e))
  }

  /** The position of the last entry with tag `t`. */
  function LastWithTag(es: seq<ImageEntry>, t: string): (k: nat)
    requires exists i :: 0 <= i < |es| && es[i].tag == t
    ensures k < |es| && es[k].tag == t && forall l :: k < l < |es| ==> es[l].tag != t
    decreases |es|
  {
    var k := |es| - 1;
    if es[k].tag == t then k
    else
      assert exists i :: 0 <= i < k && es[..k][i].tag == t by {
        var i :| 0 <= i < |es| && es[i].tag == t;
        assert i < k && es[..k][i] == es[i];
      }
      LastWithTag(es[..k], t)
  }

  function EntryTags(es: seq<ImageEntry>): set<string> {
    set i | 0 <= i < |es| :: es[i].tag
  }

  /** Every image of the map has its node and its app image config in the tree. */
  predicate MapIn(records: seq<Record>, m: map<string, Images.SagemakerCustomImage>) {
    forall t :: t in m ==>
      m[t].node < m[t].imageConfig < |records| && records[m[t].imageConfig].AppImageConfig?
  }

  lemma MapInExtend(records0: seq<Record>, records: seq<Record>, m: map<string, Images.SagemakerCustomImage>)
    requires MapIn(records0, m) && |records0| <= |records| && records[..|records0|] == records0
    ensures MapIn(records, m)
  {
    forall t | t in m
      ensures records[m[t].imageConfig] == records0[m[t].imageConfig]
    {
      assert records[..|records0|][m[t].imageConfig] == records[m[t].imageConfig];
    }
  }

  lemma MapInUpdate(records: seq<Record>, m: map<string, Images.SagemakerCustomImage>, t: string,
                    image: Images.SagemakerCustomImage)
    requires MapIn(records, m)
    requires image.node < image.imageConfig < |records| && records[image.imageConfig].AppImageConfig?
    ensures MapIn(records, m[t := image])
  {
  }

  lemma RecordsSnoc(path: Path, env: Env, role: ExecutionRole.SagemakerRole, sourceVersion: Option<string>,
                    es: seq<ImageEntry>, e: ImageEntry)
    ensures EntriesRecords(path, env, role, sourceVersion, es + [e]) ==
            EntriesRecords(path, env, role, sourceVersion, es) + EntryRecords(path, env, role, sourceVersion, e)
  {
    var f := e => EntryRecords(path, env, role, sourceVersion, e);
    EachSnoc(f, es, e);
    FlattenSnoc(Each(f, es), f(e));
  }

  lemma EdgesSnoc(base: nat, es: seq<ImageEntry>, e: ImageEntry)
    ensures EntriesEdges(base, es + [e]) == EntriesEdges(base, es) + [Edge(base + 4 * |es| + 2, base + 4 * |es| + 1)]
  {
    assert (es + [e])[..|es|] == es;
  }

  lemma LastWinsSnoc<V>(es: seq<ImageEntry>, e: ImageEntry, f: (nat, ImageEntry) -> V)
    ensures LastWins(es + [e], f) == LastWins(es, f)[e.tag := f(|es|, e)]
  {
    assert (es + [e])[..|es|] == es;
  }

  lemma MapSnoc(base: nat, path: Path, env: Env, role: ExecutionRole.SagemakerRole, es: seq<ImageEntry>, e: ImageEntry)
    ensures EntriesMap(base, path, env, role, es + [e]) ==
            EntriesMap(base, path, env, role, es)[e.tag := EntryImage(base + 4 * |es|, path, env, role, e)]
  {
    LastWinsSnoc(es, e, (k: nat, e: ImageEntry) => EntryImage(base + 4 * k, path, env, role, e));
  }

  /** One image of the inner loop, lines 87-101. */
  method AddEntryImage(synth: Synth, ghost at: nat, path: Path, env: Env, role: ExecutionRole.SagemakerRole,
                       sourceVersion: Option<string>, e: ImageEntry) returns (image: Images.SagemakerCustomImage)
    requires synth.Valid() && at == |synth.records|
    modifies synth
    ensures synth.Valid()
    ensures synth.records == old(synth.records) + EntryRecords(path, env, role, sourceVersion, e)
    ensures synth.deps == old(synth.deps) + [Edge(at + 2, at + 1)]
    ensures image == EntryImage(at, path, env, role, e)
    ensures |synth.records| == |old(synth.records)| + 4 && synth.records[..|old(synth.records)|] == old(synth.records)
    ensures image.node < image.imageConfig < |synth.records| && synth.records[image.imageConfig].AppImageConfig?
  {
    image := Images.NewSagemakerCustomImage(synth, path, ImageId(e), EntryProps(env, role, e), sourceVersion);
    PrefixOfAppend(old(synth.records), EntryRecords(path, env, role, sourceVersion, e));
  }

  lemma PrefixOfAppend<T>(a: seq<T>, b: seq<T>)
    ensures (a + b)[..|a|] == a
  {
  }

  /** One step of the loops: the image of the next entry, in the map under its tag. */
  method AddEntry(synth: Synth, ghost records0: seq<Record>, ghost deps0: seq<Edge>, path: Path, env: Env,
                  role: ExecutionRole.SagemakerRole, sourceVersion: Option<string>, ghost done: seq<ImageEntry>,
                  e: ImageEntry, m0: map<string, Images.SagemakerCustomImage>)
    returns (m: map<string, Images.SagemakerCustomImage>)
    requires synth.Valid()
    requires synth.records == records0 + EntriesRecords(path, env, role, sourceVersion, done)
    requires |synth.records| == |records0| + 4 * |done|
    requires synth.deps == deps0 + EntriesEdges(|records0|, done)
    requires m0 == EntriesMap(|records0|, path, env, role, done) && MapIn(synth.records, m0)
    modifies synth
    ensures synth.Valid()
    ensures synth.records == records0 + EntriesRecords(path, env, role, sourceVersion, done + [e])
    ensures |synth.records| == |records0| + 4 * |done + [e]|
    ensures synth.deps == deps0 + EntriesEdges(|records0|, done + [e])
    ensures m == EntriesMap(|records0|, path, env, role, done + [e]) && MapIn(synth.records, m)
  {
    ghost var records1 := synth.records;
    var image := AddEntryImage(synth, |records0| + 4 * |done|, path, env, role, sourceVersion, e);
    m := m0[e.tag := image];
    RecordsSnoc(path, env, role, sourceVersion, done, e);
    EdgesSnoc(|records0|, done, e);
    MapSnoc(|records0|, path, env, role, done, e);
    Text.AppendAssoc(records0, EntriesRecords(path, env, role, sourceVersion, done),
                     EntryRecords(path, env, role, sourceVersion, e), []);
    Text.AppendAssoc(deps0, EntriesEdges(|records0|, done), [Edge(|records0| + 4 * |done| + 2, |records0| + 4 * |done| + 1)], []);
    MapInExtend(records1, synth.records, m0);
    MapInUpdate(synth.records, m0, e.tag, image);
  }

  /** The inner loop of lines 86-102, over the tags of one repository. */
  method AddRepositoryImages(synth: Synth, ghost records0: seq<Record>, ghost deps0: seq<Edge>, path: Path, env: Env,
                             role: ExecutionRole.SagemakerRole, sourceVersion: Option<string>,
                             ghost done: seq<ImageEntry>, c: Config.ImageConfig,
                             m0: map<string, Images.SagemakerCustomImage>)
    returns (m: map<string, Images.SagemakerCustomImage>)
    requires synth.Valid()
    requires synth.records == records0 + EntriesRecords(path, env, role, sourceVersion, done)
    requires |synth.records| == |records0| + 4 * |done|
    requires synth.deps == deps0 + EntriesEdges(|records0|, done)
    requires m0 == EntriesMap(|records0|, path, env, role, done) && MapIn(synth.records, m0)
    modifies synth
    ensures synth.Valid()
    ensures var all := done + TagEntries(c.repositoryName, c.tags);
            synth.records == records0 + EntriesRecords(path, env, role, sourceVersion, all) &&
            |synth.records| == |records0| + 4 * |all| &&
            synth.deps == deps0 + EntriesEdges(|records0|, all) &&
            m == EntriesMap(|records0|, path, env, role, all) && MapIn(synth.records, m)
  {
    m := m0;
    var j := 0;
    ghost var all := done;
    assert done + TagEntries(c.repositoryName, c.tags[..0]) == done;
    while j < |c.tags|
      invariant 0 <= j <= |c.tags|
      invariant all == done + TagEntries(c.repositoryName, c.tags[..j])
      invariant synth.Valid()
      invariant synth.records == records0 + EntriesRecords(path, env, role, sourceVersion, all)
      invariant |synth.records| == |records0| + 4 * |all|
      invariant synth.deps == deps0 + EntriesEdges(|records0|, all)
      invariant m == EntriesMap(|records0|, path, env, role, all) && MapIn(synth.records, m)
    {
      var e := ImageEntry(c.repositoryName, c.tags[j]);
      m := AddEntry(synth, records0, deps0, path, env, role, sourceVersion, all, e, m);
      TagEntriesSnoc(done, c.repositoryName, c.tags, j);
      all := all + [e];
      j := j + 1;
    }
    assert c.tags[..j] == c.tags;
  }

  lemma TagEntriesSnoc(done: seq<ImageEntry>, repositoryName: string, tags: seq<string>, j: nat)
    requires j < |tags|
    ensures done + TagEntries(repositoryName, tags[..j + 1]) ==
            done + TagEntries(repositoryName, tags[..j]) + [ImageEntry(repositoryName, tags[j])]
  {
    assert tags[..j + 1] == tags[..j] + [tags[j]];
    EachSnoc(t => ImageEntry(repositoryName, t), tags[..j], tags[j]);
  }

  /** The nested loops of lines 83-103. */
  method AddImages(synth: Synth, path: Path, env: Env, role: ExecutionRole.SagemakerRole, sourceVersion: Option<string>,
                   configs: seq<Config.ImageConfig>)
    returns (m: map<string, Images.SagemakerCustomImage>)
    requires synth.Valid()
    modifies synth
    ensures synth.Valid()
    ensures synth.records == old(synth.records) + EntriesRecords(path, env, role, sourceVersion, ImageEntries(configs))
    ensures synth.deps == old(synth.deps) + EntriesEdges(|old(synth.records)|, ImageEntries(configs))
    ensures m == EntriesMap(|old(synth.records)|, path, env, role, ImageEntries(configs))
    ensures MapIn(synth.records, m)
  {
    m := map[];
    var i := 0;
    assert EntriesRecords(path, env, role, sourceVersion, []) == [];
    while i < |configs|
      invariant 0 <= i <= |configs|
      invariant synth.Valid()
      invariant var done := ImageEntries(configs[..i]);
                synth.records == old(synth.records) + EntriesRecords(path, env, role, sourceVersion, done) &&
                |synth.records| == |old(synth.records)| + 4 * |done| &&
                synth.deps == old(synth.deps) + EntriesEdges(|old(synth.records)|, done) &&
                m == EntriesMap(|old(synth.records)|, path, env, role, done) && MapIn(synth.records, m)
    {
      assert configs[..i + 1][..i] == configs[..i];
      m := AddRepositoryImages(synth, old(synth.records), old(synth.deps), path, env, role, sourceVersion,
                               ImageEntries(configs[..i]), configs[i], m);
      i := i + 1;
    }
    assert configs[..i] == configs;
  }

  // ---------------------------------------------------------------------
  // Domains

  function DomainTags(dc: Config.DomainConfig): seq<string> {
    dc.customImages.GetOr([])
  }

  /** `customImageMap[tagName]`, `undefined` for an unknown tag. */
  function FoundImages(m: map<string, Images.SagemakerCustomImage>, tags: seq<string>): seq<Option<Images.SagemakerCustomImage>> {
    Each(t => if t in m then Some(m[t]) else None, tags)
  }

  /** The loop of lines 113-116. */
  method LookupImages(m: map<string, Images.SagemakerCustomImage>, tags: seq<string>)
    returns (images: seq<Option<Images.SagemakerCustomImage>>)
    ensures images == FoundImages(m, tags)
  {
    images := [];
    var j := 0;
    while j < |tags|
      invariant 0 <= j <= |tags|
      invariant images == FoundImages(m, tags[..j])
    {
      assert tags[..j + 1] == tags[..j] + [tags[j]];
      EachSnoc(t => if t in m then Some(m[t]) else None, tags[..j], tags[j]);
      if tags[j] in m {
        images := images + [Some(m[tags[j]])];
      } else {
        images := images + [None];
      }
      j := j + 1;
    }
    assert tags[..j] == tags;
  }

  /** The domain's construct id: its name with the first `-` removed. */
  function DomainId(domainName: string): string {
    ReplaceFirst(domainName, "-", "")
  }

  /** The props of lines 120-140. */
  function DomainPropsOf(env: Env, vpc: Vpc.PlatformVpc, role: ExecutionRole.SagemakerRole, pipelineRoleArn: Token,
                         dc: Config.DomainConfig, images: seq<Option<Images.SagemakerCustomImage>>): Domain.SagemakerDomainProps {
    var location := dc.defaultExecutionPolicyLocation;
    Domain.SagemakerDomainProps(dc.domainName, vpc, None, dc.authMode, env.account, env.region,
                                if Truthy(location) then None else Some(role), dc.users, pipelineRoleArn, Some(images),
                                dc.appNetworkAccessType, if Truthy(location) then location else None,
                                dc.defaultJupyterLabInstanceType, dc.allowedInstanceTypes)
  }

  predicate DomainTagsIn(dc: Config.DomainConfig, known: set<string>) {
    forall j :: 0 <= j < |DomainTags(dc)| ==> DomainTags(dc)[j] in known
  }

  predicate TagsIn(dcs: seq<Config.DomainConfig>, known: set<string>) {
    forall i :: 0 <= i < |dcs| ==> DomainTagsIn(dcs[i], known)
  }

  /** The images found for a domain are in the tree, and all of them are
      defined exactly when every tag is a key of the map. */
  lemma FoundImagesFacts(records: seq<Record>, m: map<string, Images.SagemakerCustomImage>, dc: Config.DomainConfig)
    requires MapIn(records, m)
    ensures Domain.ImagesIn(records, FoundImages(m, DomainTags(dc)))
    ensures (forall i :: 0 <= i < |FoundImages(m, DomainTags(dc))| ==> FoundImages(m, DomainTags(dc))[i].Some?) <==>
            DomainTagsIn(dc, m.Keys)
  {
    EachAt(t => if t in m then Some(m[t]) else None, DomainTags(dc));
  }

  /** One domain of the loop of lines 107-142. */
  method AddStackDomain(synth: Synth, path: Path, env: Env, vpc: Vpc.PlatformVpc, role: ExecutionRole.SagemakerRole,
                        pipelineRoleArn: Token, dc: Config.DomainConfig, m: map<string, Images.SagemakerCustomImage>,
                        fs: ExecutionRole.FileSystem, t: ExecutionRole.RoleTemplates)
    returns (r: Result<Domain.SagemakerDomain, SynthError>)
    requires synth.Valid() && DollarFree(env.account) && DollarFree(env.region) && MapIn(synth.records, m)
    modifies synth
    ensures synth.Valid() && MapIn(synth.records, m) && old(synth.records) <= synth.records
    ensures var props := DomainPropsOf(env, vpc, role, pipelineRoleArn, dc, FoundImages(m, DomainTags(dc)));
            var base, p := |old(synth.records)|, path + [DomainId(dc.domainName)];
            Domain.ImagesIn(old(synth.records), Domain.CustomImages(props)) &&
            Domain.DomainOutcome(old(synth.records), old(synth.deps), p, props, Domain.RoleRecs(base + 1, p, props, fs, t),
                                 Domain.DomainRole(base + 1, p, props, fs), r, synth.records, synth.deps)
    ensures r.Success? <==> DomainTagsIn(dc, m.Keys)
    ensures r.Success? ==> r.value.path == path + [DomainId(dc.domainName)] && r.value.domainName == dc.domainName
    ensures r.Failure? ==> r.error.UndefinedCustomImage?
  {
    var images := LookupImages(m, DomainTags(dc));
    FoundImagesFacts(synth.records, m, dc);
    var props := DomainPropsOf(env, vpc, role, pipelineRoleArn, dc, images);
    assert Domain.CustomImages(props) == images;
    r := Domain.NewSagemakerDomain(synth, path, DomainId(dc.domainName), props, fs, t);
    var base, p := |old(synth.records)|, path + [DomainId(dc.domainName)];
    Domain.DomainOutcomeFacts(old(synth.records), old(synth.deps), p, props, Domain.RoleRecs(base + 1, p, props, fs, t),
                              Domain.DomainRole(base + 1, p, props, fs), r, synth.records, synth.deps);
    MapInExtend(old(synth.records), synth.records, m);
  }

  /** Lines 120-135: a domain sits in the platform VPC and its subnets; one
      without a policy location shares the stack's role, one with a location
      has a role of its own, under its own path. */
  predicate DomainWiring(d: Domain.SagemakerDomain, vpc: Vpc.PlatformVpc, role: ExecutionRole.SagemakerRole,
                         dc: Config.DomainConfig) {
    d.vpc == vpc.vpc && d.vpcId == vpc.id && d.subnetIds == vpc.subnetIds &&
    (!Truthy(dc.defaultExecutionPolicyLocation) ==> d.defaultExecutionRole == role) &&
    (Truthy(dc.defaultExecutionPolicyLocation) ==> d.defaultExecutionRole.path == d.path + ["DefaultRole"])
  }

  /** `AddStackDomain` seen from the loop: only what the loop keeps. */
  method AddDomainStep(synth: Synth, path: Path, env: Env, vpc: Vpc.PlatformVpc, role: ExecutionRole.SagemakerRole,
                       pipelineRoleArn: Token, dc: Config.DomainConfig, m: map<string, Images.SagemakerCustomImage>,
                       fs: ExecutionRole.FileSystem, t: ExecutionRole.RoleTemplates)
    returns (r: Result<Domain.SagemakerDomain, SynthError>)
    requires synth.Valid() && DollarFree(env.account) && DollarFree(env.region) && MapIn(synth.records, m)
    modifies synth
    ensures synth.Valid() && MapIn(synth.records, m) && old(synth.records) <= synth.records
    ensures r.Success? <==> DomainTagsIn(dc, m.Keys)
    ensures r.Success? ==> r.value.path == path + [DomainId(dc.domainName)] && r.value.domainName == dc.domainName
    ensures r.Failure? ==> r.error.UndefinedCustomImage?
    ensures r.Success? ==> DomainWiring(r.value, vpc, role, dc)
  {
    r := AddStackDomain(synth, path, env, vpc, role, pipelineRoleArn, dc, m, fs, t);
    var props := DomainPropsOf(env, vpc, role, pipelineRoleArn, dc, FoundImages(m, DomainTags(dc)));
    var base, p := |old(synth.records)|, path + [DomainId(dc.domainName)];
    Domain.DomainOutcomeFacts(old(synth.records), old(synth.deps), p, props, Domain.RoleRecs(base + 1, p, props, fs, t),
                              Domain.DomainRole(base + 1, p, props, fs), r, synth.records, synth.deps);
  }

  /** Lines 105-143: one domain per configured domain, in order; the first
      domain that names an unknown tag throws. */
  method AddDomains(synth: Synth, path: Path, env: Env, vpc: Vpc.PlatformVpc, role: ExecutionRole.SagemakerRole,
                    pipelineRoleArn: Token, domains: Option<seq<Config.DomainConfig>>,
                    m: map<string, Images.SagemakerCustomImage>, fs: ExecutionRole.FileSystem, t: ExecutionRole.RoleTemplates)
    returns (r: Result<seq<Domain.SagemakerDomain>, SynthError>)
    requires synth.Valid() && DollarFree(env.account) && DollarFree(env.region) && MapIn(synth.records, m)
    modifies synth
    ensures synth.Valid() && old(synth.records) <= synth.records
    ensures domains.None? ==> r == Success([]) && synth.records == old(synth.records) && synth.deps == old(synth.deps)
    ensures r.Success? <==> TagsIn(domains.GetOr([]), m.Keys)
    ensures r.Failure? ==> r.error.UndefinedCustomImage?
    ensures r.Success? ==>
              var dcs := domains.GetOr([]);
              |r.value| == |dcs| &&
              forall i :: 0 <= i < |dcs| ==>
                r.value[i].path == path + [DomainId(dcs[i].domainName)] && r.value[i].domainName == dcs[i].domainName &&
                DomainWiring(r.value[i], vpc, role, dcs[i])
  {
    if domains.None? {
      return Success([]);
    }
    var dcs := domains.value;
    var ds: seq<Domain.SagemakerDomain> := [];
    var i := 0;
    while i < |dcs|
      invariant 0 <= i <= |dcs|
      invariant synth.Valid() && MapIn(synth.records, m) && old(synth.records) <= synth.records
      invariant forall k :: 0 <= k < i ==> DomainTagsIn(dcs[k], m.Keys)
      invariant |ds| == i
      invariant forall k :: 0 <= k < i ==> ds[k].path == path + [DomainId(dcs[k].domainName)] && ds[k].domainName == dcs[k].domainName
      invariant forall k :: 0 <= k < i ==> DomainWiring(ds[k], vpc, role, dcs[k])
    {
      ghost var before := synth.records;
      var d := AddDomainStep(synth, path, env, vpc, role, pipelineRoleArn, dcs[i], m, fs, t);
      PrefixTrans(old(synth.records), before, synth.records);
      if d.Failure? {
        return Failure(d.error);
      }
      ds := ds + [d.value];
      i := i + 1;
    }
    r := Success(ds);
  }

  // ---------------------------------------------------------------------
  // The stack

  /** `new SagemakerInfraStack(scope, id, {env})`, given the default key
      policy object its bucket's key extends. */
  method NewSagemakerInfraStack(synth: Synth, scope: Path, id: string, env: Env, config: Config.Config, inputs: Inputs,
                                defaultKeyPolicy: Kms.PolicyObject)
    returns (r: Result<SagemakerInfraStack, SynthError>)
    requires synth.Valid()
    requires DollarFree(env.account) && DollarFree(env.region) && DollarFree(config.pipelineRoleName)
    requires config.defaultKeyAdmins != null ==> AllDollarFree(config.defaultKeyAdmins.items)
    modifies synth, defaultKeyPolicy, config.defaultKeyAdmins
    ensures synth.Valid() && old(synth.records) < synth.records
    ensures synth.records[|old(synth.records)|] == Stack(scope + [id], Some(env.account), Some(env.region))
    ensures var es := ImageEntries(config.sagemakerConfig.images.GetOr([]));
            r.Success? <==> TagsIn(config.sagemakerConfig.domains.GetOr([]), EntryTags(es))
    ensures r.Failure? ==> r.error.UndefinedCustomImage?
    ensures r.Success? ==>
              var s, path := r.value, scope + [id];
              var es := ImageEntries(config.sagemakerConfig.images.GetOr([]));
              var dcs := config.sagemakerConfig.domains.GetOr([]);
              s.path == path && s.pipelineRoleArn == Lit(PipelineRoleArn(env.account)) &&
              s.stagingBucket.bucketName == env.account + "-sagemaker-staging" &&
              s.stagingBucket.bucketKey.keyName == Some(env.account + "-sagemaker-staging-key") &&
              s.sagemakerDefaultRole.path == path + ["DefaultRole"] &&
              s.customImageMap.Keys == EntryTags(es) &&
              (forall t :: t in s.customImageMap ==>
                 s.customImageMap[t].path == path + [ImageId(es[LastWithTag(es, t)])] &&
                 s.customImageMap[t].imageName == es[LastWithTag(es, t)].repositoryName + "-" + t) &&
              |s.domains| == |dcs| &&
              forall i :: 0 <= i < |dcs| ==>
                s.domains[i].path == path + [DomainId(dcs[i].domainName)] && s.domains[i].domainName == dcs[i].domainName
    ensures r.Success? ==>
              var s, base := r.value, |old(synth.records)|;
              var dcs := config.sagemakerConfig.domains.GetOr([]);
              s.node == base &&
              s.sagemakerDefaultRole == StackRole(base + 8, scope + [id], env, config, inputs.fs) &&
              s.vpc == StackVpc(base + 15, scope + [id], env, config, inputs) &&
              |s.domains| == |dcs| &&
              forall i :: 0 <= i < |dcs| ==> DomainWiring(s.domains[i], s.vpc, s.sagemakerDefaultRole, dcs[i])
  {
    var path := scope + [id];
    var node, pipelineRole, staging, role, vpc := AddFixedConstructs(synth, path, env, config, inputs, defaultKeyPolicy);
    ghost var now := synth.records;
    var images := config.sagemakerConfig.images.GetOr([]);
    var m := AddImages(synth, path, env, role, inputs.sourceVersion, images);
    EntriesMapLastWins(|now|, path, env, role, ImageEntries(images));
    PrefixTrans(old(synth.records), now, synth.records);
    now := synth.records;
    var domains := AddDomains(synth, path, env, vpc, role, Lit(PipelineRoleArn(env.account)), config.sagemakerConfig.domains,
                              m, inputs.fs, inputs.roleTemplates);
    PrefixTrans(old(synth.records), now, synth.records);
    if domains.Failure? {
      return Failure(domains.error);
    }
    r := Success(SagemakerInfraStack(path, node, pipelineRole, Lit(PipelineRoleArn(env.account)), staging, role, vpc, m,
                                     domains.value));
  }

  /** Lines 28-77: the stack itself, the imported pipeline role, the staging
      bucket, the shared role, the looked-up VPC and the platform VPC. */
  method AddFixedConstructs(synth: Synth, path: Path, env: Env, config: Config.Config, inputs: Inputs,
                            defaultKeyPolicy: Kms.PolicyObject)
    returns (node: Handle, pipelineRole: Handle, staging: Bucket.PlatformBucket, role: ExecutionRole.SagemakerRole,
             vpc: Vpc.PlatformVpc)
    requires synth.Valid()
    requires DollarFree(env.account) && DollarFree(env.region) && DollarFree(config.pipelineRoleName)
    requires config.defaultKeyAdmins != null ==> AllDollarFree(config.defaultKeyAdmins.items)
    modifies synth, defaultKeyPolicy, config.defaultKeyAdmins
    ensures synth.Valid() && old(synth.records) <= synth.records && |old(synth.records)| + 1 < |synth.records|
    ensures node == |old(synth.records)| && synth.records[node] == Stack(path, Some(env.account), Some(env.region))
    ensures pipelineRole == node + 1 && synth.records[pipelineRole] == ImportedRole(path + ["PipelineRole"], PipelineRoleArn(env.account))
    ensures staging.path == path + ["StagingBucket"] && staging.bucketName == env.account + "-sagemaker-staging"
    ensures staging.bucketKey.keyName == Some(env.account + "-sagemaker-staging-key")
    ensures role == StackRole(node + 8, path, env, config, inputs.fs)
    ensures vpc == StackVpc(node + 15, path, env, config, inputs)
  {
    node, pipelineRole, staging := AddStackHead(synth, path, env, config, inputs, defaultKeyPolicy);
    ghost var now := synth.records;
    role, vpc := AddRoleAndVpc(synth, path, env, config, inputs);
    PrefixTrans(old(synth.records), now, synth.records);
  }

  /** Lines 28-42: the stack itself, the imported pipeline role and the
      staging bucket, seen from `AddFixedConstructs`. */
  method AddStackHead(synth: Synth, path: Path, env: Env, config: Config.Config, inputs: Inputs,
                      defaultKeyPolicy: Kms.PolicyObject)
    returns (node: Handle, pipelineRole: Handle, staging: Bucket.PlatformBucket)
    requires synth.Valid()
    requires DollarFree(env.account) && DollarFree(env.region) && DollarFree(config.pipelineRoleName)
    requires config.defaultKeyAdmins != null ==> AllDollarFree(config.defaultKeyAdmins.items)
    modifies synth, defaultKeyPolicy, config.defaultKeyAdmins
    ensures synth.Valid() && old(synth.records) <= synth.records && |synth.records| == |old(synth.records)| + 8
    ensures node == |old(synth.records)| && synth.records[node] == Stack(path, Some(env.account), Some(env.region))
    ensures pipelineRole == node + 1 && synth.records[pipelineRole] == ImportedRole(path + ["PipelineRole"], PipelineRoleArn(env.account))
    ensures staging.path == path + ["StagingBucket"] && staging.bucketName == env.account + "-sagemaker-staging"
    ensures staging.bucketKey.keyName == Some(env.account + "-sagemaker-staging-key")
  {
    node := synth.Add(Stack(path, Some(env.account), Some(env.region)));
    var arn := PipelineRoleArn(env.account);
    pipelineRole := synth.Add(ImportedRole(path + ["PipelineRole"], arn));
    ghost var first := synth.records;
    assert first[node] == Stack(path, Some(env.account), Some(env.region));
    staging := NewStagingBucket(synth, path, env, config, inputs, defaultKeyPolicy);
    assert env.account + "-sagemaker-staging" + "-key" == env.account + "-sagemaker-staging-key";
    PrefixTrans(first, first, synth.records);
  }

  /** Lines 44-77: the shared role, the looked-up VPC and the platform VPC. */
  method AddRoleAndVpc(synth: Synth, path: Path, env: Env, config: Config.Config, inputs: Inputs)
    returns (role: ExecutionRole.SagemakerRole, vpc: Vpc.PlatformVpc)
    requires synth.Valid() && DollarFree(env.account) && DollarFree(env.region)
    modifies synth
    ensures synth.Valid() && synth.deps == old(synth.deps) && old(synth.records) <= synth.records
    ensures synth.records == old(synth.records) + RoleAndVpcRecords(|old(synth.records)|, path, env, config, inputs)
    ensures role == StackRole(|old(synth.records)|, path, env, config, inputs.fs)
    ensures vpc == StackVpc(|old(synth.records)| + 7, path, env, config, inputs)
    ensures role.path == path + ["DefaultRole"] && vpc.path == path + ["ResearchPlatformVpc"]
  {
    ghost var first := synth.records;
    var props := DefaultRoleProps(env, config);
    role := ExecutionRole.NewSagemakerRole(synth, path, "DefaultRole", props, inputs.fs, inputs.roleTemplates);
    ExecutionRole.RoleRecordsShape(|first|, path + ["DefaultRole"], props, inputs.fs, inputs.roleTemplates);
    ghost var now := synth.records;
    var lookup := synth.Add(LookedUpVpc(path + ["DefaultVPC"], Some(inputs.ssmVpcId)));
    ghost var mid := synth.records;
    assert |mid| == |first| + 7;
    vpc := Vpc.NewPlatformVpc(synth, path, "ResearchPlatformVpc", StackVpcProps(env, config, inputs.defaultVpc),
                              inputs.flowLogsPolicy, inputs.platformVpcView, inputs.zones);
    AppendAssoc(first, ExecutionRole.RoleRecords(|first|, path + ["DefaultRole"], props, inputs.fs, inputs.roleTemplates),
                [LookedUpVpc(path + ["DefaultVPC"], Some(inputs.ssmVpcId))],
                Vpc.VpcRecords(|mid|, path + ["ResearchPlatformVpc"], StackVpcProps(env, config, inputs.defaultVpc),
                               inputs.flowLogsPolicy));
    PrefixOfAppend(first, RoleAndVpcRecords(|first|, path, env, config, inputs));
  }

  /** Lines 37-42. */
  method NewStagingBucket(synth: Synth, path: Path, env: Env, config: Config.Config, inputs: Inputs,
                          defaultKeyPolicy: Kms.PolicyObject) returns (b: Bucket.PlatformBucket)
    requires synth.Valid()
    requires DollarFree(env.account) && DollarFree(env.region) && DollarFree(config.pipelineRoleName)
    requires config.defaultKeyAdmins != null ==> AllDollarFree(config.defaultKeyAdmins.items)
    modifies synth, defaultKeyPolicy, config.defaultKeyAdmins
    ensures synth.Valid() && synth.deps == old(synth.deps) && old(synth.records) <= synth.records
    ensures |synth.records| == |old(synth.records)| + 6
    ensures var admins := Kms.KeyAdmins(Bucket.BucketKeyProps(StagingBucketProps(env), defaultKeyPolicy),
                                        old(Kms.DefaultAdmins(config)));
            AllDollarFree(admins) &&
            defaultKeyPolicy.header == old(defaultKeyPolicy.header) &&
            defaultKeyPolicy.statements ==
              old(defaultKeyPolicy.statements) + Kms.VariantStatements(inputs.keyTemplates, Kms.SelectVariant(admins, [])) &&
            synth.records == old(synth.records) +
              StagingRecords(|old(synth.records)|, path, env, config.pipelineRoleName, defaultKeyPolicy,
                             defaultKeyPolicy.Json(), admins, inputs.defaultBucketPolicy)
    ensures b == Bucket.PlatformBucket(path + ["StagingBucket"], |old(synth.records)|, |old(synth.records)| + 1 + 3 + 1,
                                       Bucket.OwnKey(|old(synth.records)|, path + ["StagingBucket"], StagingBucketProps(env)),
                                       env.account + "-sagemaker-staging", env.account, env.region)
  {
    var props := StagingBucketProps(env);
    assert '$' !in env.account + "-sagemaker-staging";
    assert Bucket.KeyPolicyOf(props, defaultKeyPolicy) == defaultKeyPolicy;
    b := Bucket.NewPlatformBucket(synth, path, "StagingBucket", props, config, defaultKeyPolicy, inputs.keyTemplates,
                                  inputs.defaultBucketPolicy);
  }

  // ---------------------------------------------------------------------
  // Properties

  /** The map holds exactly the tags of the entries, and each tag maps to the
      image of the last entry with that tag: a later repository with the same
      tag overwrites an earlier one. */
  lemma EntriesMapLastWins(base: nat, path: Path, env: Env, role: ExecutionRole.SagemakerRole, es: seq<ImageEntry>)
    ensures EntriesMap(base, path, env, role, es).Keys == EntryTags(es)
    ensures forall t :: t in EntriesMap(base, path, env, role, es) ==>
              EntriesMap(base, path, env, role, es)[t] ==
              EntryImage(base + 4 * LastWithTag(es, t), path, env, role, es[LastWithTag(es, t)])
  {
    var f := (k: nat, e: ImageEntry) => EntryImage(base + 4 * k, path, env, role, e);
    LastWinsKeys(es, f);
    forall t | t in LastWins(es, f)
      ensures LastWins(es, f)[t] == f(LastWithTag(es, t), es[LastWithTag(es, t)])
    {
      LastWinsLast(es, f, t);
    }
  }

  lemma {:induction false} LastWinsKeys<V>(es: seq<ImageEntry>, f: (nat, ImageEntry) -> V)
    ensures LastWins(es, f).Keys == EntryTags(es)
    decreases |es|
  {
    if |es| > 0 {
      var k := |es| - 1;
      var init := es[..k];
      LastWinsKeys(init, f);
      forall x | x in EntryTags(es) ensures x in EntryTags(init) + {es[k].tag} {
        var i :| 0 <= i < |es| && es[i].tag == x;
        if i < k {
          assert init[i].tag == x;
        }
      }
      forall x | x in EntryTags(init) ensures x in EntryTags(es) {
        var i :| 0 <= i < |init| && init[i].tag == x;
        assert es[i].tag == x;
      }
    }
  }

  lemma {:induction false} LastWinsLast<V>(es: seq<ImageEntry>, f: (nat, ImageEntry) -> V, t: string)
    requires exists i :: 0 <= i < |es| && es[i].tag == t
    ensures t in LastWins(es, f)
    ensures LastWins(es, f)[t] == f(LastWithTag(es, t), es[LastWithTag(es, t)])
    decreases |es|
  {
    var k := |es| - 1;
    if es[k].tag != t {
      var init := es[..k];
      var i :| 0 <= i < |es| && es[i].tag == t;
      assert i < k && init[i].tag == t;
      LastWinsLast(init, f, t);
      assert LastWithTag(es, t) == LastWithTag(init, t);
      assert es[LastWithTag(es, t)] == init[LastWithTag(init, t)];
    }
  }

  /** The nested loops list the tags of each repository in order, one
      repository after the other. */
  lemma {:induction false} ImageEntriesConcat(a: seq<Config.ImageConfig>, b: seq<Config.ImageConfig>)
    ensures ImageEntries(a + b) == ImageEntries(a) + ImageEntries(b)
    decreases |b|
  {
    if |b| == 0 {
      assert a + b == a;
    } else {
      var k := |b| - 1;
      var tail := TagEntries(b[k].repositoryName, b[k].tags);
      assert (a + b)[..|a| + k] == a + b[..k] && (a + b)[|a| + k] == b[k];
      assert ImageEntries(a + b) == ImageEntries(a + b[..k]) + tail;
      ImageEntriesConcat(a, b[..k]);
      Text.AppendAssoc(ImageEntries(a), ImageEntries(b[..k]), tail, []);
    }
  }

  /** One repository gives one entry per tag, in order. */
  lemma ImageEntriesOne(c: Config.ImageConfig)
    ensures |ImageEntries([c])| == |c.tags|
    ensures forall j :: 0 <= j < |c.tags| ==> ImageEntries([c])[j] == ImageEntry(c.repositoryName, c.tags[j])
  {
    assert [c][..0] == [];
    EachAt(t => ImageEntry(c.repositoryName, t), c.tags);
  }

  /** An image's construct id drops the first `-` of the repository and tag
      joined by `-`: the joining one when the repository name has none, else
      the repository's own first one, and the tag is kept whole. An image's
      name is the repository and the tag joined by `-`. */
  lemma ImageIdAndName(env: Env, role: ExecutionRole.SagemakerRole, e: ImageEntry)
    ensures '-' !in e.repositoryName ==> ImageId(e) == e.repositoryName + e.tag
    ensures '-' in e.repositoryName ==>
              var n := e.repositoryName;
              ImageId(e) == n[..IndexOf(n, '-')] + n[IndexOf(n, '-') + 1..] + "-" + e.tag
    ensures Images.ImageName(EntryProps(env, role, e)) == e.repositoryName + "-" + e.tag
  {
    var n := e.repositoryName;
    assert n + "-" + e.tag == n + ['-'] + e.tag;
    if '-' in n {
      ReplaceFirstInPrefix(n, '-', "-" + e.tag);
      assert n + "-" + e.tag == n + ("-" + e.tag);
    } else {
      ReplaceFirstAfterPrefix(n, '-', e.tag);
    }
  }

  /** A domain's id is its name without the first `-`; later ones stay. */
  lemma DomainIdDropsFirstHyphen(name: string)
    ensures '-' !in name ==> DomainId(name) == name
    ensures '-' in name ==> DomainId(name) == name[..IndexOf(name, '-')] + name[IndexOf(name, '-') + 1..]
  {
    ReplaceFirstChar(name, '-');
  }

  /** The images found for a domain match its tags position by position,
      `undefined` where the map has no such tag. */
  lemma FoundImagesAt(m: map<string, Images.SagemakerCustomImage>, tags: seq<string>)
    ensures |FoundImages(m, tags)| == |tags|
    ensures forall j :: 0 <= j < |tags| ==>
              FoundImages(m, tags)[j] == (if tags[j] in m then Some(m[tags[j]]) else None)
  {
    EachAt(t => if t in m then Some(m[t]) else None, tags);
  }

  /** A domain without a policy location shares the stack's role; one with a
      location gets none, so it creates its own role from that location. */
  lemma DomainRoleSelection(env: Env, vpc: Vpc.PlatformVpc, role: ExecutionRole.SagemakerRole, pipelineRoleArn: Token,
                            dc: Config.DomainConfig, images: seq<Option<Images.SagemakerCustomImage>>)
    ensures var props := DomainPropsOf(env, vpc, role, pipelineRoleArn, dc, images);
            (props.defaultExecutionRole.None? <==> Truthy(dc.defaultExecutionPolicyLocation)) &&
            (props.defaultExecutionRole.Some? ==> props.defaultExecutionRole.value == role) &&
            (props.defaultExecutionRole.None? ==>
               Domain.RoleProps(props).defaultDomainPolicyLocation == dc.defaultExecutionPolicyLocation &&
               Domain.RoleProps(props).roleName == dc.domainName + "-default-execution-role")
  {
  }

  /** The platform VPC is imported with the looked-up VPC's ID (when it is
      not empty), keeps every looked-up public and private subnet, and gets
      no isolated IDs of its own. */
  lemma StackVpcSubnets(env: Env, config: Config.Config, lookup: VpcLookup, view: Vpc.VpcView)
    ensures var props := StackVpcProps(env, config, lookup);
            (Vpc.Imports(props) <==> lookup.vpcId != "") &&
            (forall x :: x in lookup.publicSubnetIds ==> x in Vpc.PublicIds(view, props)) &&
            (forall x :: x in lookup.privateSubnetIds ==> x in Vpc.PrivateIds(view, props)) &&
            Vpc.IsolatedIds(view, props) == Dedup(view.privateSubnets)
  {
    var props := StackVpcProps(env, config, lookup);
    Vpc.SubnetUnionSpec(view.publicSubnets, props.publicSubnetIDs);
    Vpc.SubnetUnionSpec(view.privateSubnets, props.privateSubnetIDs);
    assert view.privateSubnets + [] == view.privateSubnets;
  }

  /** The shared role never reads a policy file, whatever files exist: it
      always gets the four default policies, and its execution role, the
      last of its six records, is named after the environment. */
  lemma StackRoleDefaultPolicies(base: nat, path: Path, env: Env, config: Config.Config, fs: ExecutionRole.FileSystem,
                                 t: ExecutionRole.RoleTemplates)
    requires DollarFree(env.account) && DollarFree(env.region)
    ensures var rs := ExecutionRole.RoleRecords(base, path + ["DefaultRole"], DefaultRoleProps(env, config), fs, t);
            var r := StackRole(base, path, env, config, fs);
            |rs| == 6 && r.path == path + ["DefaultRole"] && r.node == base && r.role == base + 5 &&
            rs[5] == ExecutionRole.ExecutionRoleRecord(path + ["DefaultRole"],
                                                       "platform-sagemaker-execution-" + config.environment + "-role",
                                                       [LocalPolicy(base + 1), LocalPolicy(base + 2), LocalPolicy(base + 3),
                                                        LocalPolicy(base + 4)])
    ensures forall other: ExecutionRole.FileSystem ::
              StackRole(base, path, env, config, other) == StackRole(base, path, env, config, fs)
  {
    ExecutionRole.RoleRecordsShape(base, path + ["DefaultRole"], DefaultRoleProps(env, config), fs, t);
  }

  /** The platform VPC is the looked-up one when the lookup found an ID (with
      the lookup's ID and ARN), a new one otherwise; either way it keeps every
      looked-up subnet, and its subnets are, without repeats, the union of its
      public, private and isolated ones. */
  lemma StackVpcWiring(base: nat, path: Path, env: Env, config: Config.Config, inputs: Inputs)
    ensures var v, lookup, found := StackVpc(base, path, env, config, inputs), inputs.defaultVpc, inputs.platformVpcView;
            v.path == path + ["ResearchPlatformVpc"] && v.node == base &&
            (lookup.vpcId != "" ==> v.vpc == base + 1 && v.id == found.vpcId && v.arn == found.vpcArn) &&
            (lookup.vpcId == "" ==> v.vpc == base + 3 && v.id == Attr(base + 3, "VpcId") && v.arn == Attr(base + 3, "VpcArn")) &&
            (forall x :: x in lookup.publicSubnetIds ==> x in v.publicSubnetIds && x in v.subnetIds) &&
            (forall x :: x in lookup.privateSubnetIds ==> x in v.privateSubnetIds && x in v.subnetIds) &&
            NoDup(v.subnetIds) &&
            (forall x :: x in v.publicSubnetIds || x in v.privateSubnetIds || x in v.isolatedSubnetIds <==> x in v.subnetIds)
  {
    var props := StackVpcProps(env, config, inputs.defaultVpc);
    var view := Vpc.ViewOf(props, Vpc.VpcHandle(base, props), inputs.platformVpcView, inputs.zones);
    StackVpcSubnets(env, config, inputs.defaultVpc, view);
    Vpc.AllIdsSpec(view, props);
  }
}
