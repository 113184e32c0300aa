/**
 * The SageMaker execution role construct. When the caller names a policy
 * file that exists, the role gets that one policy; otherwise it gets the
 * bundle of four default policies. The trust is the same in both cases, and
 * an optional DENY statement limits the instance types users may launch.
 */
module ExecutionRole {
  import opened Wrappers
  import opened Text
  import opened Tokens
  import opened Iam
  import opened Cdk

  /** The files the synthesizer can read, by path. */
  datatype FileSystem = FileSystem(files: map<string, string>)

  /** The four default policy files. */
  datatype RoleTemplates = RoleTemplates(
    userExecution: PolicyJson,
    userExecutionSagemaker: PolicyJson,
    batchEc2: PolicyJson,
    ecrSagemaker: PolicyJson)

  datatype SagemakerRoleProps = SagemakerRoleProps(
    accountId: string,
    region: string,
    roleName: string,
    defaultDomainPolicyLocation: Option<string>,
    allowedInstanceTypes: Option<seq<string>>)

  datatype SagemakerRole = SagemakerRole(
    path: Path,
    node: Handle,
    role: Handle,
    roleArn: Token,
    userExecutionRolePolicy: Option<Handle>,
    userExecutionSagemakerRolePolicy: Option<Handle>,
    batchPolicy: Option<Handle>,
    ecrSmPolicy: Option<Handle>,
    jupyterLabPolicy: Option<Handle>)

  const TrustedServices: seq<Principal> := [
    ServicePrincipal("sagemaker.amazonaws.com"),
    ServicePrincipal("lambda.amazonaws.com"),
    ServicePrincipal("codebuild.amazonaws.com"),
    ServicePrincipal("osis-pipelines.amazonaws.com")]

  const InstanceTypesKey: string := "sagemaker:InstanceTypes"
  const RestrictedActions: seq<string> := ["sagemaker:CreateApp", "sagemaker:UpdateSpace"]

  /** `getAllowedInstancesPolicyStatement(types)`. */
  function AllowedInstancesStatement(types: seq<string>): Statement {
    Statement(Deny, RestrictedActions, [Lit("*")], [Condition("ForAllValues:StringNotLike", InstanceTypesKey, types)], [])
  }

  /** Line 42: the custom branch needs a truthy location and an existing file. */
  predicate UsesCustomPolicy(props: SagemakerRoleProps, fs: FileSystem) {
    Truthy(props.defaultDomainPolicyLocation) && props.defaultDomainPolicyLocation.value in fs.files
  }

  /** The statements `addStatements` adds: the DENY statement when the
      allowed types are given, an empty list included. */
  function DenyStatements(props: SagemakerRoleProps): seq<Statement> {
    if props.allowedInstanceTypes.Some? then [AllowedInstancesStatement(props.allowedInstanceTypes.value)] else []
  }

  /** The custom policy text: every `${accountId}` replaced, then every `${region}`. */
  function CustomPolicyText(text: string, accountId: string, region: string): string
    requires DollarFree(accountId) && DollarFree(region)
  {
    ReplaceAll(ReplaceAll(text, "${accountId}", accountId), "${region}", region)
  }

  function DefaultPolicy(path: Path, id: string, name: string, description: string, doc: PolicyJson,
                         statements: seq<Statement>): Record {
    ManagedPolicy(path + [id], Some(name), description, JsonDocument(doc), statements, [])
  }

  function ExecutionRoleRecord(path: Path, roleName: string, policies: seq<PolicyRef>): Record {
    Role(path + ["SagemakerUserExecutionRole"], Some(roleName), "SageMaker execution role for default users",
         TrustedServices, [AwsManaged("AmazonS3FullAccess")] + policies, [])
  }

  /** The records the constructor appends, the first at position `base`. */
  function RoleRecords(base: nat, path: Path, props: SagemakerRoleProps, fs: FileSystem, t: RoleTemplates): seq<Record>
    requires DollarFree(props.accountId) && DollarFree(props.region)
  {
    if UsesCustomPolicy(props, fs) then
      [Construct(path, "SagemakerRole"),
       CustomPolicy(path, props, fs.files[props.defaultDomainPolicyLocation.value]),
       ExecutionRoleRecord(path, props.roleName, [LocalPolicy(base + 1)])]
    else
      [Construct(path, "SagemakerRole")] + DefaultPolicies(path, props, t) +
      [ExecutionRoleRecord(path, props.roleName, [LocalPolicy(base + 1), LocalPolicy(base + 2), LocalPolicy(base + 3),
                                                  LocalPolicy(base + 4)])]
  }

  /** Lines 43-59: the policy read from the custom file, with the DENY statement
      when allowed types are given. */
  function CustomPolicy(path: Path, props: SagemakerRoleProps, text: string): Record
    requires DollarFree(props.accountId) && DollarFree(props.region)
  {
    ManagedPolicy(path + ["SagemakerDomainExecutionPolicy"], Some(props.roleName + "-policy"),
                  "Domain Specific SageMaker execution policy for " + props.roleName + " user",
                  TextDocument(CustomPolicyText(text, props.accountId, props.region)), DenyStatements(props), [])
  }

  /** Lines 82-146: the four default policies, in creation order; only the
      second gets the DENY statement. */
  function DefaultPolicies(path: Path, props: SagemakerRoleProps, t: RoleTemplates): seq<Record>
    requires DollarFree(props.accountId) && DollarFree(props.region)
  {
    var name, acct, region := props.roleName, props.accountId, props.region;
    var description := "SageMaker execution policy for " + name + " user";
    [DefaultPolicy(path, "SagemakerUserExecutionPolicy", name + "-policy", description,
                   Hydrate(Hydrate(t.userExecution, "${accountId}", acct), "${region}", region), []),
     DefaultPolicy(path, "SagemakeruserExecutionSagemakerPolicy", name + "-sagemaker-policy", description,
                   Hydrate(Hydrate(t.userExecutionSagemaker, "${accountId}", acct), "${region}", region),
                   DenyStatements(props)),
     DefaultPolicy(path, "SagemakerUserExecutionBatchPolicy", name + "-batch-policy", description,
                   Hydrate(Hydrate(t.batchEc2, "${accountId}", acct), "${region}", region), []),
     DefaultPolicy(path, "ecrSagemakerPolicy", name + "-ecr-smstudio-policy", description,
                   Hydrate(Hydrate(t.ecrSagemaker, "${accountId}", acct), "${region}", region), [])]
  }

  /** The construct's fields; the jupyter-lab policy is never assigned. */
  function RoleValue(base: nat, path: Path, props: SagemakerRoleProps, fs: FileSystem): SagemakerRole {
    if UsesCustomPolicy(props, fs) then
      SagemakerRole(path, base, base + 2, Attr(base + 2, "Arn"), None, None, None, None, None)
    else
      SagemakerRole(path, base, base + 5, Attr(base + 5, "Arn"), Some(base + 1), Some(base + 2), Some(base + 3),
                    Some(base + 4), None)
  }

  // ---------------------------------------------------------------------
  // The construct

  /** `new SagemakerRole(scope, id, props)`, given the readable files and the
      default policy files. */
  method NewSagemakerRole(synth: Synth, scope: Path, id: string, props: SagemakerRoleProps, fs: FileSystem,
                          t: RoleTemplates) returns (r: SagemakerRole)
    requires synth.Valid() && DollarFree(props.accountId) && DollarFree(props.region)
    modifies synth
    ensures synth.Valid() && synth.deps == old(synth.deps)
    ensures synth.records == old(synth.records) + RoleRecords(|old(synth.records)|, scope + [id], props, fs, t)
    ensures r == RoleValue(|old(synth.records)|, scope + [id], props, fs)
  {
    var location := props.defaultDomainPolicyLocation;
    if Truthy(location) && location.value in fs.files {
      r := NewCustomPolicyRole(synth, scope + [id], props, fs, t);
    } else {
      r := NewDefaultPoliciesRole(synth, scope + [id], props, fs, t);
    }
  }

  /** The constructor when the custom policy file is readable. */
  method NewCustomPolicyRole(synth: Synth, path: Path, props: SagemakerRoleProps, fs: FileSystem,
                             t: RoleTemplates) returns (r: SagemakerRole)
    requires synth.Valid() && DollarFree(props.accountId) && DollarFree(props.region)
    requires UsesCustomPolicy(props, fs)
    modifies synth
    ensures synth.Valid() && synth.deps == old(synth.deps)
    ensures synth.records == old(synth.records) + RoleRecords(|old(synth.records)|, path, props, fs, t)
    ensures r == RoleValue(|old(synth.records)|, path, props, fs)
  {
    var node := synth.Add(Construct(path, "SagemakerRole"));
    var policy := AddCustomPolicy(synth, path, props, fs.files[props.defaultDomainPolicyLocation.value]);
    var role := synth.Add(ExecutionRoleRecord(path, props.roleName, [LocalPolicy(policy)]));
    r := SagemakerRole(path, node, role, Attr(role, "Arn"), None, None, None, None, None);
  }

  /** The constructor otherwise: the four default policies. */
  method NewDefaultPoliciesRole(synth: Synth, path: Path, props: SagemakerRoleProps, fs: FileSystem,
                                t: RoleTemplates) returns (r: SagemakerRole)
    requires synth.Valid() && DollarFree(props.accountId) && DollarFree(props.region)
    requires !UsesCustomPolicy(props, fs)
    modifies synth
    ensures synth.Valid() && synth.deps == old(synth.deps)
    ensures synth.records == old(synth.records) + RoleRecords(|old(synth.records)|, path, props, fs, t)
    ensures r == RoleValue(|old(synth.records)|, path, props, fs)
  {
    ghost var records0 := synth.records;
    var node := synth.Add(Construct(path, "SagemakerRole"));
    var policies := AddDefaultPolicies(synth, path, props, t);
    var role := synth.Add(ExecutionRoleRecord(path, props.roleName, policies));
    r := SagemakerRole(path, node, role, Attr(role, "Arn"), Some(node + 1), Some(node + 2), Some(node + 3),
                       Some(node + 4), None);
    assert synth.records == records0 + [Construct(path, "SagemakerRole")] + DefaultPolicies(path, props, t) +
                            [ExecutionRoleRecord(path, props.roleName, policies)];
  }

  /** Lines 43-59: the custom policy, read from the file's `text`. */
  method AddCustomPolicy(synth: Synth, path: Path, props: SagemakerRoleProps, text: string) returns (policy: Handle)
    requires synth.Valid() && DollarFree(props.accountId) && DollarFree(props.region)
    modifies synth
    ensures synth.Valid() && synth.deps == old(synth.deps)
    ensures policy == |old(synth.records)| && synth.records == old(synth.records) + [CustomPolicy(path, props, text)]
  {
    var document := CustomPolicyText(text, props.accountId, props.region);
    policy := synth.Add(ManagedPolicy(path + ["SagemakerDomainExecutionPolicy"], Some(props.roleName + "-policy"),
                                      "Domain Specific SageMaker execution policy for " + props.roleName + " user",
                                      TextDocument(document), [], []));
    AddDenyStatement(synth, policy, props);
    assert [] + DenyStatements(props) == DenyStatements(props);
  }

  /** Lines 58-59 and 112-113: `addStatements` with the DENY statement when
      allowed instance types are given. */
  method AddDenyStatement(synth: Synth, policy: Handle, props: SagemakerRoleProps)
    requires synth.Valid() && policy < |synth.records| && synth.records[policy].ManagedPolicy?
    modifies synth
    ensures synth.Valid() && synth.deps == old(synth.deps)
    ensures synth.records == old(synth.records)[policy :=
              old(synth.records)[policy].(statements := old(synth.records)[policy].statements + DenyStatements(props))]
  {
    if props.allowedInstanceTypes.Some? {
      synth.AddStatement(policy, AllowedInstancesStatement(props.allowedInstanceTypes.value));
    } else {
      assert old(synth.records)[policy].statements + [] == old(synth.records)[policy].statements;
    }
  }

  /** Lines 82-146: the four default policies, in order; returns them as the
      role's local managed policies. */
  method AddDefaultPolicies(synth: Synth, path: Path, props: SagemakerRoleProps, t: RoleTemplates)
    returns (policies: seq<PolicyRef>)
    requires synth.Valid() && DollarFree(props.accountId) && DollarFree(props.region) && |synth.records| > 0
    modifies synth
    ensures synth.Valid() && synth.deps == old(synth.deps)
    ensures synth.records == old(synth.records) + DefaultPolicies(path, props, t)
    ensures var base := |old(synth.records)| - 1;
            policies == [LocalPolicy(base + 1), LocalPolicy(base + 2), LocalPolicy(base + 3), LocalPolicy(base + 4)]
  {
    var name, acct, region := props.roleName, props.accountId, props.region;
    var description := "SageMaker execution policy for " + name + " user";
    var p1 := synth.Add(DefaultPolicy(path, "SagemakerUserExecutionPolicy", name + "-policy", description,
                                      Hydrate(Hydrate(t.userExecution, "${accountId}", acct), "${region}", region), []));
    var p2 := synth.Add(DefaultPolicy(path, "SagemakeruserExecutionSagemakerPolicy", name + "-sagemaker-policy", description,
                                      Hydrate(Hydrate(t.userExecutionSagemaker, "${accountId}", acct), "${region}", region), []));
    AddDenyStatement(synth, p2, props);
    assert [] + DenyStatements(props) == DenyStatements(props);
    assert synth.records == old(synth.records) + DefaultPolicies(path, props, t)[..2];
    var p3 := synth.Add(DefaultPolicy(path, "SagemakerUserExecutionBatchPolicy", name + "-batch-policy", description,
                                      Hydrate(Hydrate(t.batchEc2, "${accountId}", acct), "${region}", region), []));
    var p4 := synth.Add(DefaultPolicy(path, "ecrSagemakerPolicy", name + "-ecr-smstudio-policy", description,
                                      Hydrate(Hydrate(t.ecrSagemaker, "${accountId}", acct), "${region}", region), []));
    policies := [LocalPolicy(p1), LocalPolicy(p2), LocalPolicy(p3), LocalPolicy(p4)];
  }

  // ---------------------------------------------------------------------
  // Properties

  /** Both branches end with the role, trusted by exactly the four services
      and carrying the S3 managed policy first, then the branch's policies
      in creation order. */
  lemma RoleRecordsShape(base: nat, path: Path, props: SagemakerRoleProps, fs: FileSystem, t: RoleTemplates)
    requires DollarFree(props.accountId) && DollarFree(props.region)
    ensures var rs := RoleRecords(base, path, props, fs, t);
            var role := rs[|rs| - 1];
            var r := RoleValue(base, path, props, fs);
            |rs| == (if UsesCustomPolicy(props, fs) then 3 else 6) &&
            r.role == base + |rs| - 1 && role.Role? && role.trust == TrustedServices &&
            |role.managedPolicies| == |rs| - 1 && role.managedPolicies[0] == AwsManaged("AmazonS3FullAccess") &&
            (forall i :: 1 <= i < |rs| - 1 ==> role.managedPolicies[i] == LocalPolicy(base + i) && rs[i].ManagedPolicy?)
  {
  }

  /** The DENY statement goes only to the custom policy, or only to the
      `-sagemaker-policy` of the default bundle; every other policy has no
      statements of its own. */
  lemma DenyPlacement(base: nat, path: Path, props: SagemakerRoleProps, fs: FileSystem, t: RoleTemplates)
    requires DollarFree(props.accountId) && DollarFree(props.region)
    ensures var rs := RoleRecords(base, path, props, fs, t);
            var target := 1 + (if UsesCustomPolicy(props, fs) then 0 else 1);
            rs[target].statements == DenyStatements(props) &&
            rs[target].policyName == Some(props.roleName + (if UsesCustomPolicy(props, fs) then "-policy" else "-sagemaker-policy")) &&
            forall i :: 1 <= i < |rs| - 1 && i != target ==> rs[i].ManagedPolicy? && rs[i].statements == []
    ensures DenyStatements(props) != [] <==> props.allowedInstanceTypes.Some?
  {
    var rs := RoleRecords(base, path, props, fs, t);
    if UsesCustomPolicy(props, fs) {
      assert rs[1] == CustomPolicy(path, props, fs.files[props.defaultDomainPolicyLocation.value]);
    } else {
      var ps := DefaultPolicies(path, props, t);
      assert |rs| == 6 && forall i :: 1 <= i < 5 ==> rs[i] == ps[i - 1];
    }
  }

  /** The DENY statement applies to an action it lists exactly when every
      requested instance type matches none of the allowed patterns. */
  lemma AllowedInstancesDenies(types: seq<string>, action: string, requested: seq<string>)
    requires action in RestrictedActions
    ensures DeniesRequest(AllowedInstancesStatement(types), action, InstanceTypesKey, requested) <==>
            ForAllValuesStringNotLike(requested, types)
  {
  }

  /** A request for a wildcard-free type that is on the allowed list is not
      denied; with an empty allowed list every request is. */
  lemma AllowedTypeIsNotDenied(types: seq<string>, requested: string)
    requires requested in types && '*' !in requested && '?' !in requested
    ensures !DeniesRequest(AllowedInstancesStatement(types), "sagemaker:CreateApp", InstanceTypesKey, [requested])
    ensures DeniesRequest(AllowedInstancesStatement([]), "sagemaker:CreateApp", InstanceTypesKey, [requested])
  {
    LikeItself(requested);
    var j :| 0 <= j < |types| && types[j] == requested;
    assert !ForAllValuesStringNotLike([requested], types) by {
      assert [requested][0] == requested;
    }
  }

  /** In the custom branch none of the four default-policy fields is set. */
  lemma CustomBranchLeavesDefaultsUnset(base: nat, path: Path, props: SagemakerRoleProps, fs: FileSystem)
    ensures var r := RoleValue(base, path, props, fs);
            r.jupyterLabPolicy.None? &&
            (UsesCustomPolicy(props, fs) <==>
               r.userExecutionRolePolicy.None? && r.userExecutionSagemakerRolePolicy.None? &&
               r.batchPolicy.None? && r.ecrSmPolicy.None?)
  {
  }
}
