/**
 * The platform bucket construct: the auto-delete default, the choice between
 * a caller's KMS key and a key of its own, the SSM parameter holding the key
 * id, the bucket itself, the ordered statements of its resource policy, and
 * the read, write and read-write grants.
 */
module Bucket {
  import opened Wrappers
  import opened Text
  import opened Tokens
  import opened Iam
  import opened Cdk
  import opened Kms
  import Config

  datatype PlatformBucketProps = PlatformBucketProps(
    bucketName: string,
    bucketPolicy: Option<PolicyJson>,
    removalPolicy: Option<Removal>,
    autoDeleteObjects: Option<bool>,
    accountId: string,
    region: string,
    keyPolicy: PolicyObject?,
    keyAdmins: Option<seq<string>>,
    keyUsers: Option<seq<string>>,
    keyServices: Option<seq<string>>,
    kmsKey: Option<KmsKey>,
    policyStatements: Option<seq<string>>,
    cors: Option<seq<string>>)

  datatype PlatformBucket = PlatformBucket(
    path: Path,
    node: Handle,
    bucket: Handle,
    bucketKey: KmsKey,
    bucketName: string,
    accountId: string,
    region: string)

  const BucketArnPlaceholder: string := "${bucketArn}"

  function BucketArn(bucketName: string): string {
    "arn:aws:s3:::" + bucketName
  }

  function ObjectsArn(bucketName: string): string {
    "arn:aws:s3:::" + bucketName + "/*"
  }

  /** `props.RemovalPolicy || RemovalPolicy.RETAIN`; the bucket never reads it. */
  function ResolvedRemoval(props: PlatformBucketProps): Removal {
    props.removalPolicy.GetOr(Retain)
  }

  /** `autoDeleteObjects` when given, otherwise whether the caller asked for DESTROY. */
  function AutoDelete(props: PlatformBucketProps): bool {
    if props.autoDeleteObjects.Some? then props.autoDeleteObjects.value else props.removalPolicy == Some(Destroy)
  }

  /** The policy object the bucket's own key is built from. */
  function KeyPolicyOf(props: PlatformBucketProps, defaultKeyPolicy: PolicyObject): PolicyObject {
    if props.keyPolicy != null then props.keyPolicy else defaultKeyPolicy
  }

  /** The properties of the bucket's own key. */
  function BucketKeyProps(props: PlatformBucketProps, keyPolicy: PolicyObject): KmsKeyProps {
    KmsKeyProps(Some(props.bucketName + "-key"), Some("KMS key for s3 bucket " + props.bucketName), keyPolicy,
                props.accountId, props.region, Some(Destroy), None, props.keyAdmins, props.keyUsers, props.keyServices)
  }

  /** The key the bucket creates when the caller passes none; its construct
      node comes right after the bucket's own. */
  function OwnKey(base: nat, path: Path, props: PlatformBucketProps): KmsKey {
    KmsKey(path + ["BucketKey"], base + 1, base + 2, Attr(base + 2, "Arn"), Attr(base + 2, "KeyId"),
           Some(props.bucketName + "-key"), None, props.accountId, props.region)
  }

  /** The bucket policy with every `${bucketArn}` replaced by the bucket's ARN. */
  function HydratedBucketPolicy(props: PlatformBucketProps, defaultBucketPolicy: PolicyJson): PolicyJson
    requires DollarFree(props.bucketName)
  {
    Hydrate(props.bucketPolicy.GetOr(defaultBucketPolicy), BucketArnPlaceholder, BucketArn(props.bucketName))
  }

  /** The statements the bucket's resource policy ends up with. */
  function BucketStatements(props: PlatformBucketProps, defaultBucketPolicy: PolicyJson): seq<string>
    requires DollarFree(props.bucketName)
  {
    HydratedBucketPolicy(props, defaultBucketPolicy).statements + props.policyStatements.GetOr([])
  }

  function ParameterRecord(path: Path, bucketName: string, k: KmsKey): Record {
    Parameter(path + [bucketName + "-kms-key-id"], "/research/platform/dev/infra/" + bucketName,
              "KMS key id of bucket - " + bucketName, k.keyId, ".*", "Standard")
  }

  function BucketRecord(path: Path, props: PlatformBucketProps, k: KmsKey, defaultBucketPolicy: PolicyJson): Record
    requires DollarFree(props.bucketName)
  {
    Bucket(path + ["S3Bucket"], props.bucketName, true, AutoDelete(props), Destroy, k.key, true,
           props.cors.GetOr([]), BucketStatements(props, defaultBucketPolicy))
  }

  /** The records of the construct, around the records of its key (none when
      the caller's key is reused). */
  function BucketRecords(path: Path, props: PlatformBucketProps, keyRecords: seq<Record>, k: KmsKey,
                         defaultBucketPolicy: PolicyJson): seq<Record>
    requires DollarFree(props.bucketName)
  {
    [Construct(path, "PlatformBucket")] + keyRecords +
    [ParameterRecord(path, props.bucketName, k), BucketRecord(path, props, k, defaultBucketPolicy)]
  }

  // ---------------------------------------------------------------------
  // The construct

  /** `new PlatformBucket(scope, id, props)`. */
  method NewPlatformBucket(synth: Synth, scope: Path, id: string, props: PlatformBucketProps, config: Config.Config,
                           defaultKeyPolicy: PolicyObject, templates: KeyTemplates, defaultBucketPolicy: PolicyJson)
    returns (b: PlatformBucket)
    requires synth.Valid() && DollarFree(props.bucketName)
    requires props.kmsKey.None? ==>
               KeyInputsDollarFree(BucketKeyProps(props, KeyPolicyOf(props, defaultKeyPolicy)), DefaultAdmins(config),
                                   config.pipelineRoleName)
    modifies synth, KeyPolicyOf(props, defaultKeyPolicy), config.defaultKeyAdmins
    ensures synth.Valid() && synth.deps == old(synth.deps)
    ensures props.kmsKey.Some? ==>
              synth.records == old(synth.records) + BucketRecords(scope + [id], props, [], props.kmsKey.value, defaultBucketPolicy) &&
              b == PlatformBucket(scope + [id], |old(synth.records)|, |old(synth.records)| + 2, props.kmsKey.value,
                                  props.bucketName, props.accountId, props.region)
    ensures props.kmsKey.Some? ==>
              unchanged(KeyPolicyOf(props, defaultKeyPolicy)) &&
              (config.defaultKeyAdmins != null ==> unchanged(config.defaultKeyAdmins))
    ensures props.kmsKey.None? ==>
              var policy := KeyPolicyOf(props, defaultKeyPolicy);
              var keyProps := BucketKeyProps(props, policy);
              var admins := KeyAdmins(keyProps, old(DefaultAdmins(config)));
              var services := props.keyServices.GetOr([]);
              var base := |old(synth.records)|;
              AllDollarFree(admins) &&
              policy.header == old(policy.header) &&
              policy.statements == old(policy.statements) + VariantStatements(templates, SelectVariant(admins, services)) &&
              synth.records == old(synth.records) +
                BucketRecords(scope + [id], props,
                              KeyRecords(base + 1, scope + [id] + ["BucketKey"], keyProps,
                                         HydrateKeyPolicy(policy.Json(), admins, props.accountId, props.region,
                                                          config.pipelineRoleName, services)),
                              OwnKey(base, scope + [id], props), defaultBucketPolicy) &&
              b == PlatformBucket(scope + [id], base, base + 1 + 3 + 1, OwnKey(base, scope + [id], props),
                                  props.bucketName, props.accountId, props.region)
  {
    var path := scope + [id];
    if props.kmsKey.Some? {
      b := BucketWithKey(synth, path, props, props.kmsKey.value, defaultBucketPolicy);
    } else {
      b := BucketWithOwnKey(synth, path, props, config, defaultKeyPolicy, templates, defaultBucketPolicy);
    }
  }

  /** The construct with the caller's key. */
  method BucketWithKey(synth: Synth, path: Path, props: PlatformBucketProps, k: KmsKey, defaultBucketPolicy: PolicyJson)
    returns (b: PlatformBucket)
    requires synth.Valid() && DollarFree(props.bucketName)
    modifies synth
    ensures synth.Valid() && synth.deps == old(synth.deps)
    ensures synth.records == old(synth.records) + BucketRecords(path, props, [], k, defaultBucketPolicy) &&
            b == PlatformBucket(path, |old(synth.records)|, |old(synth.records)| + 2, k,
                                props.bucketName, props.accountId, props.region)
  {
    var node := synth.Add(Construct(path, "PlatformBucket"));
    assert synth.records == old(synth.records) + [Construct(path, "PlatformBucket")] + [];
    var bucket := FinishBucket(synth, old(synth.records), path, props, k, defaultBucketPolicy, []);
    b := PlatformBucket(path, node, bucket, k, props.bucketName, props.accountId, props.region);
  }

  /** The construct with a key of its own, `BucketKey`, built from the
      caller's key policy or the shared default one. */
  method BucketWithOwnKey(synth: Synth, path: Path, props: PlatformBucketProps, config: Config.Config,
                          defaultKeyPolicy: PolicyObject, templates: KeyTemplates, defaultBucketPolicy: PolicyJson)
    returns (b: PlatformBucket)
    requires synth.Valid() && DollarFree(props.bucketName)
    requires KeyInputsDollarFree(BucketKeyProps(props, KeyPolicyOf(props, defaultKeyPolicy)), DefaultAdmins(config),
                                 config.pipelineRoleName)
    modifies synth, KeyPolicyOf(props, defaultKeyPolicy), config.defaultKeyAdmins
    ensures synth.Valid() && synth.deps == old(synth.deps)
    ensures var policy := KeyPolicyOf(props, defaultKeyPolicy);
            var keyProps := BucketKeyProps(props, policy);
            var admins := KeyAdmins(keyProps, old(DefaultAdmins(config)));
            var services := props.keyServices.GetOr([]);
            var base := |old(synth.records)|;
            AllDollarFree(admins) &&
            policy.header == old(policy.header) &&
            policy.statements == old(policy.statements) + VariantStatements(templates, SelectVariant(admins, services)) &&
            synth.records == old(synth.records) +
              BucketRecords(path, props,
                            KeyRecords(base + 1, path + ["BucketKey"], keyProps,
                                       HydrateKeyPolicy(policy.Json(), admins, props.accountId, props.region,
                                                        config.pipelineRoleName, services)),
                            OwnKey(base, path, props), defaultBucketPolicy) &&
            b == PlatformBucket(path, base, base + 1 + 3 + 1, OwnKey(base, path, props),
                                props.bucketName, props.accountId, props.region)
  {
    ghost var records0 := synth.records;
    var node := synth.Add(Construct(path, "PlatformBucket"));
    ghost var keyRecords;
    var k;
    k, keyRecords := AddOwnKey(synth, records0, path, props, config, defaultKeyPolicy, templates);
    var bucket := FinishBucket(synth, records0, path, props, k, defaultBucketPolicy, keyRecords);
    b := PlatformBucket(path, node, bucket, k, props.bucketName, props.accountId, props.region);
  }

  /** Lines 59-71 when the caller passes no key. */
  method AddOwnKey(synth: Synth, ghost records0: seq<Record>, path: Path, props: PlatformBucketProps, config: Config.Config,
                   defaultKeyPolicy: PolicyObject, templates: KeyTemplates) returns (k: KmsKey, ghost keyRecords: seq<Record>)
    requires synth.Valid() && synth.records == records0 + [Construct(path, "PlatformBucket")]
    requires KeyInputsDollarFree(BucketKeyProps(props, KeyPolicyOf(props, defaultKeyPolicy)), DefaultAdmins(config),
                                 config.pipelineRoleName)
    modifies synth, KeyPolicyOf(props, defaultKeyPolicy), config.defaultKeyAdmins
    ensures synth.Valid() && synth.deps == old(synth.deps)
    ensures var policy := KeyPolicyOf(props, defaultKeyPolicy);
            var keyProps := BucketKeyProps(props, policy);
            var admins := KeyAdmins(keyProps, old(DefaultAdmins(config)));
            var services := props.keyServices.GetOr([]);
            var base := |records0|;
            AllDollarFree(admins) &&
            policy.header == old(policy.header) &&
            policy.statements == old(policy.statements) + VariantStatements(templates, SelectVariant(admins, services)) &&
            keyRecords == KeyRecords(base + 1, path + ["BucketKey"], keyProps,
                                     HydrateKeyPolicy(policy.Json(), admins, props.accountId, props.region,
                                                      config.pipelineRoleName, services)) &&
            synth.records == records0 + [Construct(path, "PlatformBucket")] + keyRecords &&
            |keyRecords| == 3 && k == OwnKey(base, path, props)
  {
    var keyPolicy := props.keyPolicy;
    if keyPolicy == null {
      keyPolicy := defaultKeyPolicy;
    }
    var keyProps := BucketKeyProps(props, keyPolicy);
    assert ChosenPolicy(keyProps, defaultKeyPolicy) == keyPolicy;
    k := NewKmsKey(synth, path, "BucketKey", keyProps, config, defaultKeyPolicy, templates);
    keyRecords := KeyRecords(|records0| + 1, path + ["BucketKey"], keyProps,
                             HydrateKeyPolicy(keyPolicy.Json(), KeyAdmins(keyProps, old(DefaultAdmins(config))),
                                              props.accountId, props.region, config.pipelineRoleName,
                                              props.keyServices.GetOr([])));
    assert Truthy(Some(props.bucketName + "-key"));
  }

  /** The parameter, the bucket and its resource-policy statements. */
  method FinishBucket(synth: Synth, ghost records0: seq<Record>, path: Path, props: PlatformBucketProps, k: KmsKey,
                      defaultBucketPolicy: PolicyJson, ghost keyRecords: seq<Record>) returns (bucket: Handle)
    requires synth.Valid() && DollarFree(props.bucketName)
    requires synth.records == records0 + [Construct(path, "PlatformBucket")] + keyRecords
    modifies synth
    ensures synth.Valid() && synth.deps == old(synth.deps)
    ensures synth.records == records0 + BucketRecords(path, props, keyRecords, k, defaultBucketPolicy)
    ensures bucket == |records0| + 1 + |keyRecords| + 1
  {
    var parameter := synth.Add(ParameterRecord(path, props.bucketName, k));
    ghost var prefix := synth.records;
    var empty := Bucket(path + ["S3Bucket"], props.bucketName, true, AutoDelete(props), Destroy, k.key, true,
                        props.cors.GetOr([]), []);
    bucket := synth.Add(empty);
    var hydrated := Hydrate(props.bucketPolicy.GetOr(defaultBucketPolicy), BucketArnPlaceholder, BucketArn(props.bucketName));
    AddBucketStatements(synth, prefix, empty, bucket, hydrated.statements);
    assert [] + hydrated.statements == hydrated.statements;
    var additional := props.policyStatements.GetOr([]);
    AddBucketStatements(synth, prefix, empty.(bucketPolicy := hydrated.statements), bucket, additional);
    assert [] + hydrated.statements + additional == BucketStatements(props, defaultBucketPolicy);
    Text.AppendAssoc(records0, [Construct(path, "PlatformBucket")] + keyRecords, [ParameterRecord(path, props.bucketName, k)],
                     [BucketRecord(path, props, k, defaultBucketPolicy)]);
  }

  /** The loops of lines 101-109: statements added one by one to the bucket,
      the last record of the tree. */
  method AddBucketStatements(synth: Synth, ghost prefix: seq<Record>, ghost r: Record, bucket: Handle, sts: seq<string>)
    requires synth.Valid() && r.Bucket? && synth.records == prefix + [r] && bucket == |prefix|
    modifies synth
    ensures synth.Valid() && synth.deps == old(synth.deps)
    ensures synth.records == prefix + [r.(bucketPolicy := r.bucketPolicy + sts)]
  {
    var i := 0;
    assert r.bucketPolicy + sts[..0] == r.bucketPolicy;
    while i < |sts|
      invariant 0 <= i <= |sts|
      invariant synth.Valid() && synth.deps == old(synth.deps)
      invariant synth.records == prefix + [r.(bucketPolicy := r.bucketPolicy + sts[..i])]
    {
      synth.AddToBucketPolicy(bucket, sts[i]);
      assert r.bucketPolicy + sts[..i] + [sts[i]] == r.bucketPolicy + sts[..i + 1];
      i := i + 1;
    }
    assert sts[..i] == sts;
  }

  // ---------------------------------------------------------------------
  // Grants

  const ReadActions: seq<string> := ["s3:ListBucket", "s3:GetObject", "s3:GetBucketCORS", "s3:ListBucket",
                                     "s3:GetBucketAcl", "s3:GetBucketLocation"]
  const WriteActions: seq<string> := ["s3:PutObject", "s3:AbortMultipartUpload", "s3:PutBucketCORS",
                                      "s3:DeleteObject", "s3:PutObjectAcl"]
  const ReadWriteActions: seq<string> := ["s3:PutObject", "s3:GetObject", "s3:AbortMultipartUpload",
                                          "s3:GetBucketCORS", "s3:ListBucket", "s3:PutBucketCORS",
                                          "s3:DeleteObject", "s3:GetBucketAcl", "s3:GetBucketLocation",
                                          "s3:PutObjectAcl"]

  function ReadStatement(bucketName: string): Statement {
    Statement(Allow, ReadActions, [Lit(BucketArn(bucketName)), Lit(ObjectsArn(bucketName))], [], [])
  }

  function WriteStatement(bucketName: string): Statement {
    Statement(Allow, WriteActions, [Lit(ObjectsArn(bucketName))], [], [])
  }

  function ReadWriteStatement(bucketName: string): Statement {
    Statement(Allow, ReadWriteActions, [Lit(BucketArn(bucketName)), Lit(ObjectsArn(bucketName))], [], [])
  }

  /** The managed policy a grant with a scope creates, attached to `role`. */
  function AccessPolicyRecord(scope: Path, bucketName: string, st: Statement, role: Handle): Record {
    ManagedPolicy(scope + ["S3AccessPolicy"], None, "Grants access to " + bucketName + " S3 bucket", NoDocument,
                  [st], [role])
  }

  /** `grantAccess(iamEntity, statement, scope)`. */
  method GrantAccess(synth: Synth, b: PlatformBucket, entity: IamEntity, st: Statement, scope: Option<Path>)
    requires synth.Valid() && EntityIn(synth, entity)
    modifies synth
    ensures synth.Valid() && synth.deps == old(synth.deps)
    ensures entity.RoleEntity? && scope.Some? ==>
              synth.records == old(synth.records) + [AccessPolicyRecord(scope.value, b.bucketName, st, entity.role)]
    ensures entity.RoleEntity? && scope.None? ==>
              synth.records == old(synth.records)[entity.role :=
                old(synth.records)[entity.role].(inlineStatements := old(synth.records)[entity.role].inlineStatements + [st])]
    ensures entity.PolicyEntity? ==>
              synth.records == old(synth.records)[entity.policy :=
                old(synth.records)[entity.policy].(statements := old(synth.records)[entity.policy].statements + [st])]
  {
    match entity
    case RoleEntity(role) =>
      if scope.Some? {
        var policy := synth.Add(ManagedPolicy(scope.value + ["S3AccessPolicy"], None,
                                              "Grants access to " + b.bucketName + " S3 bucket", NoDocument, [st], []));
        synth.AttachToRole(policy, role);
        assert [] + [role] == [role];
      } else {
        synth.AddToRolePolicy(role, st);
      }
    case PolicyEntity(policy) =>
      synth.AddStatement(policy, st);
  }

  /** `grantReadAccess(iamEntity)`: no scope, so a role gets the statement inline. */
  method GrantReadAccess(synth: Synth, b: PlatformBucket, entity: IamEntity)
    requires synth.Valid() && EntityIn(synth, entity)
    modifies synth
    ensures synth.Valid() && synth.deps == old(synth.deps)
    ensures entity.RoleEntity? ==>
              synth.records == old(synth.records)[entity.role :=
                old(synth.records)[entity.role].(inlineStatements := old(synth.records)[entity.role].inlineStatements +
                                                 [ReadStatement(b.bucketName)])]
    ensures entity.PolicyEntity? ==>
              synth.records == old(synth.records)[entity.policy :=
                old(synth.records)[entity.policy].(statements := old(synth.records)[entity.policy].statements +
                                                   [ReadStatement(b.bucketName)])]
  {
    GrantAccess(synth, b, entity, ReadStatement(b.bucketName), None);
  }

  /** `grantWriteAccess(iamEntity)`: no scope either. */
  method GrantWriteAccess(synth: Synth, b: PlatformBucket, entity: IamEntity)
    requires synth.Valid() && EntityIn(synth, entity)
    modifies synth
    ensures synth.Valid() && synth.deps == old(synth.deps)
    ensures entity.RoleEntity? ==>
              synth.records == old(synth.records)[entity.role :=
                old(synth.records)[entity.role].(inlineStatements := old(synth.records)[entity.role].inlineStatements +
                                                 [WriteStatement(b.bucketName)])]
    ensures entity.PolicyEntity? ==>
              synth.records == old(synth.records)[entity.policy :=
                old(synth.records)[entity.policy].(statements := old(synth.records)[entity.policy].statements +
                                                   [WriteStatement(b.bucketName)])]
  {
    GrantAccess(synth, b, entity, WriteStatement(b.bucketName), None);
  }

  /** `grantReadWriteAccess(iamEntity, scope)`: the only grant that passes its scope on. */
  method GrantReadWriteAccess(synth: Synth, b: PlatformBucket, entity: IamEntity, scope: Option<Path>)
    requires synth.Valid() && EntityIn(synth, entity)
    modifies synth
    ensures synth.Valid() && synth.deps == old(synth.deps)
    ensures entity.RoleEntity? && scope.Some? ==>
              synth.records == old(synth.records) +
                [AccessPolicyRecord(scope.value, b.bucketName, ReadWriteStatement(b.bucketName), entity.role)]
    ensures entity.RoleEntity? && scope.None? ==>
              synth.records == old(synth.records)[entity.role :=
                old(synth.records)[entity.role].(inlineStatements := old(synth.records)[entity.role].inlineStatements +
                                                 [ReadWriteStatement(b.bucketName)])]
    ensures entity.PolicyEntity? ==>
              synth.records == old(synth.records)[entity.policy :=
                old(synth.records)[entity.policy].(statements := old(synth.records)[entity.policy].statements +
                                                   [ReadWriteStatement(b.bucketName)])]
  {
    GrantAccess(synth, b, entity, ReadWriteStatement(b.bucketName), scope);
  }

  // ---------------------------------------------------------------------
  // Properties

  /** Objects are deleted with the bucket when asked explicitly, or, failing
      an explicit answer, exactly when the caller's removal policy is DESTROY. */
  lemma AutoDeleteResolution(props: PlatformBucketProps)
    ensures AutoDelete(props) <==>
              props.autoDeleteObjects == Some(true) ||
              (props.autoDeleteObjects.None? && props.removalPolicy == Some(Destroy))
    ensures props.autoDeleteObjects.None? && props.removalPolicy.None? ==> !AutoDelete(props) && ResolvedRemoval(props) == Retain
  {
  }

  /** The bucket is always blocked from public access, destroyed with the
      stack, encrypted with the chosen key and SSL-only; the caller's removal
      policy matters only through the auto-delete default. */
  lemma BucketRecordFixed(path: Path, p1: PlatformBucketProps, p2: PlatformBucketProps, k: KmsKey, d: PolicyJson)
    requires DollarFree(p1.bucketName)
    requires p2 == p1.(removalPolicy := p2.removalPolicy) && AutoDelete(p1) == AutoDelete(p2)
    ensures var r := BucketRecord(path, p1, k, d);
            r.blockAllPublicAccess && r.bucketRemoval == Destroy && r.enforceSSL && r.encryptionKey == k.key &&
            r.cors == p1.cors.GetOr([]) && r.autoDeleteObjects == AutoDelete(p1)
    ensures BucketRecord(path, p1, k, d) == BucketRecord(path, p2, k, d)
  {
  }

  /** The resource policy holds the hydrated statements of the chosen bucket
      policy, in order, followed by the caller's additional statements in order. */
  lemma {:induction false} BucketStatementsOrder(props: PlatformBucketProps, d: PolicyJson)
    requires DollarFree(props.bucketName)
    ensures var policy := props.bucketPolicy.GetOr(d).statements;
            var extra := props.policyStatements.GetOr([]);
            var sts := BucketStatements(props, d);
            |sts| == |policy| + |extra| &&
            (forall i :: 0 <= i < |policy| ==>
               sts[i] == ReplaceAll(policy[i], BucketArnPlaceholder, BucketArn(props.bucketName))) &&
            (forall i :: 0 <= i < |extra| ==> sts[|policy| + i] == extra[i])
  {
    var policy := props.bucketPolicy.GetOr(d).statements;
    forall i | 0 <= i < |policy|
      ensures BucketStatements(props, d)[i] == ReplaceAll(policy[i], BucketArnPlaceholder, BucketArn(props.bucketName))
    {
      ReplaceEachAt(policy, BucketArnPlaceholder, BucketArn(props.bucketName), i);
    }
  }

  /** A bucket policy without the placeholder is taken over unchanged. */
  lemma BucketPolicyWithoutPlaceholder(props: PlatformBucketProps, d: PolicyJson)
    requires DollarFree(props.bucketName) && Free(props.bucketPolicy.GetOr(d), BucketArnPlaceholder)
    ensures BucketStatements(props, d) == props.bucketPolicy.GetOr(d).statements + props.policyStatements.GetOr([])
  {
    HydrateFree(props.bucketPolicy.GetOr(d), BucketArnPlaceholder, BucketArn(props.bucketName));
  }

  /** A caller's key is reused: no key records, and the parameter and the
      bucket both refer to that key. */
  lemma ReusedKey(path: Path, props: PlatformBucketProps, k: KmsKey, d: PolicyJson)
    requires DollarFree(props.bucketName)
    ensures var rs := BucketRecords(path, props, [], k, d);
            |rs| == 3 && rs[1].Parameter? && rs[1].parameterValue == k.keyId &&
            rs[2].Bucket? && rs[2].encryptionKey == k.key
  {
  }

  /** The bucket's own key is named after the bucket, always gets an alias,
      and is destroyed with the stack; the parameter holds its key id. */
  lemma OwnKeyRecords(base: nat, path: Path, props: PlatformBucketProps, policy: PolicyObject, doc: PolicyJson)
    ensures var keyRecords := KeyRecords(base + 1, path + ["BucketKey"], BucketKeyProps(props, policy), doc);
            |keyRecords| == 3 &&
            keyRecords[1].Key? && keyRecords[1].keyRemoval == Destroy &&
            keyRecords[1].keyDescription == Some("KMS key for s3 bucket " + props.bucketName) &&
            keyRecords[2] == Alias(path + ["BucketKey", "KmsKeyAlias"], props.bucketName + "-key", base + 2)
    ensures ParameterRecord(path, props.bucketName, OwnKey(base, path, props)).parameterValue == Attr(base + 2, "KeyId")
  {
    assert Truthy(Some(props.bucketName + "-key"));
    assert path + ["BucketKey"] + ["KmsKeyAlias"] == path + ["BucketKey", "KmsKeyAlias"];
  }

  /** The read grant lists `s3:ListBucket` twice among its six actions, on
      the bucket and its objects. */
  lemma ReadGrantShape(bucketName: string)
    ensures var r := ReadStatement(bucketName);
            |r.actions| == 6 && multiset(r.actions)["s3:ListBucket"] == 2 &&
            r.resources == [Lit(BucketArn(bucketName)), Lit(ObjectsArn(bucketName))] &&
            r.effect == Allow && r.conditions == [] && r.principals == []
  {
  }

  /** The write grant has five distinct actions on the objects only. */
  lemma WriteGrantShape(bucketName: string)
    ensures var w := WriteStatement(bucketName);
            |w.actions| == 5 && NoDup(w.actions) && w.resources == [Lit(ObjectsArn(bucketName))] &&
            w.effect == Allow && w.conditions == [] && w.principals == []
  {
  }

  /** The read-write grant has ten distinct actions on the bucket and its
      objects, the resources of the read grant. */
  lemma ReadWriteGrantShape(bucketName: string)
    ensures var rw := ReadWriteStatement(bucketName);
            |rw.actions| == 10 && NoDup(rw.actions) && rw.resources == ReadStatement(bucketName).resources &&
            rw.effect == Allow && rw.conditions == [] && rw.principals == []
  {
  }

  /** The read-write grant allows exactly what the read and the write grants
      allow together. */
  lemma ReadWriteIsUnion(bucketName: string)
    ensures var rw := ReadWriteStatement(bucketName).actions;
            (set a | a in rw) == (set a | a in ReadStatement(bucketName).actions) + (set a | a in WriteStatement(bucketName).actions)
  {
  }
}
