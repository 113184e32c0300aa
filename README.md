# SageMaker custom-image platform: a Dafny model of the CDK constructs

This project models the infrastructure definition of a SageMaker platform
written with the AWS CDK. The constructs are a KMS key, a VPC, an execution
role, custom images, domains with their user profiles, an encrypted S3
bucket, the SageMaker stack that wires them together from the
configuration, and the entry point that resolves the account and region.

Nothing here talks to AWS. A CDK program builds a construct tree and a set
of CloudFormation resources, so the model records what each constructor
adds to the application:

- `Cdk.Synth` is a class that holds the records (`seq<Record>`, one per
  construct or resource) and the dependency edges (`seq<Edge>`).
- A `Handle` is the index of a record.
- `Synth.Valid()` says that every dependency points from a later record to an
  earlier one, so the edges always form an acyclic graph.
- Each source constructor becomes a `New...` method that appends to the
  `Synth`. It returns a datatype holding the construct's readonly fields.
- Each such method is proved equal to a specification function such as
  `KeyRecords`, `RoleRecords`, `VpcRecords`, `ImageRecords`,
  `DomainRecords`, `BucketRecords` or `EntriesRecords`. The lemmas state
  properties of those functions.

Two objects of the source are mutated through aliases, and they are classes
here:

- the imported default key policy, whose `Statement` array every `KmsKey`
  reassigns (`Kms.PolicyObject`);
- `CONFIG.defaultKeyAdmins`, which a `KmsKey` pushes the account root ARN onto
  when it uses that array directly (`Config.StringArray`).

Policy templates are JSON. Every `replaceAll` of the source runs on the
serialised text. The model keeps a policy document as a header plus one text
per statement (`Iam.PolicyJson`) and applies each replacement to every part.

In the places listed below, the model follows the code as written, even
where a comment or the obvious intent suggests something else:

- An unknown custom-image tag on a domain is not caught when the stack looks
  it up: the lookup quietly gives `undefined`. The domain constructor then
  throws when it reads the image config
  (`constructs/sagemaker/index.ts:171`). The model returns
  `Failure(UndefinedCustomImage(position))`. The domain's node and role
  records exist by then.
- The isolated subnet IDs are built from the VPC's private subnets, not its
  isolated ones (`constructs/vpc/index.ts:264-269`). The model does the same.
  `Stack.StackVpcSubnets` and `Vpc.IsolatedIdsHoldReportedPrivate` state the
  consequence.
- A VPC is imported whenever `vpcId !== ""`, so an undefined ID also
  imports.
- The KMS "service" guard `services.join('","') !== '[[""]]'` excludes only
  the one-element list `['[[""]]']`
  (`Kms.JoinIsSentinel`).
- User names have `.` and `_` replaced by `-` and are not lower-cased.
- Profile construct IDs drop every hyphen, so `a.b` and `ab` clash
  (`Profiles.ProfileIdCollision`). CDK refuses a second child with the same
  ID, so such a domain makes synthesis throw; the model does not raise that
  error (see "## Left out").
- Domain construct IDs drop only the first hyphen
  (`Stack.DomainIdDropsFirstHyphen`).
- A VPC uses at most two availability zones, a fixed value.
- The source's integers are small non-negative counts and sizes, so `nat` is
  used throughout and no overflow is modelled.

Modules, one file each:

- `Wrappers`, `Text`, `Tokens`, `Iam`, `Cdk` and `Config` hold the support
  code.
- `Kms` is `constructs/kms/index.ts`.
- `Vpc` is `constructs/vpc/index.ts`.
- `ExecutionRole` is `constructs/sagemaker/role.ts`.
- `Profiles` is `constructs/sagemaker/constructors.ts`.
- `Images` is `constructs/sagemaker/images.ts`.
- `Domain` is `constructs/sagemaker/index.ts`.
- `Bucket` is `constructs/bucket/index.ts`.
- `Stack` is `lib/stacks/sagemakerStack.ts`.
- `App` is `bin/sagemaker-image.ts`.

## Model

| member | source | states |
|---|---|---|
| App.ResolveEnv | bin/sagemaker-image.ts:12-25 | a resolved environment always has a non-empty account and region |
| App.FirstTruthySpec | bin/sagemaker-image.ts:12-16 | an `a \|\| b \|\| ... \|\| ""` chain gives "" exactly when no candidate is truthy; otherwise it gives the first truthy candidate |
| App.ResolutionOrder | bin/sagemaker-image.ts:12-21 | the configured region wins over `AWS_REGION`, which wins over `AWS_DEFAULT_REGION`; the configured account wins over `AWS_DEFAULT_ACCOUNT`, which wins over `AWS_ACCOUNT` |
| App.ResolveEnvOutcome | bin/sagemaker-image.ts:17-25 | a missing region is the error whatever the account; the account error comes only after a region is found; when both are found, the environment is exactly that account and region |
| App.Synthesize | bin/sagemaker-image.ts:8-38 | the pipeline stack comes first; a failed resolution leaves only that stack; otherwise the SageMaker stack record follows with the resolved environment, and the only failure the model raises is an undefined custom image |
| Cdk.Synth.constructor | bin/sagemaker-image.ts:8 | a new application is empty and valid |
| Cdk.Synth.Add | lib/stacks/sagemakerStack.ts:28 | appending one record returns its handle and leaves the dependencies alone |
| Cdk.Synth.AddEach | constructs/sagemaker/index.ts:243-281 | appending one record per element, in order, gives consecutive handles |
| Cdk.Synth.AddDependency | constructs/sagemaker/images.ts:98 | `addDependency` adds exactly one edge, from a later record to an earlier one, which keeps the graph acyclic |
| Cdk.Synth.AddStatement | constructs/sagemaker/role.ts:58-59 | `addStatements` appends to that managed policy only |
| Cdk.Synth.AttachToRole | constructs/kms/index.ts:139 | `attachToRole` records the role on that policy only |
| Cdk.Synth.AddToRolePolicy | constructs/kms/index.ts:141-142 | `addToPolicy` appends to that role's inline policy only |
| Cdk.Synth.AddToResourcePolicy | constructs/kms/index.ts:180-181 | `addToResourcePolicy` appends to that key only |
| Cdk.Synth.AddIngressRule | constructs/sagemaker/index.ts:186-198 | `addIngressRule` appends to that security group only |
| Cdk.Synth.AddToBucketPolicy | constructs/bucket/index.ts:101-109 | `addToResourcePolicy` appends to that bucket only |
| Config.StringArray.constructor | constructs/kms/index.ts:54 | a new array holds exactly the given items |
| Config.StringArray.Push | constructs/kms/index.ts:57-58 | `push` appends exactly one item |
| Kms.PolicyObject.constructor | constructs/kms/index.ts:48-49 | the policy object holds the document's header and statements |
| Kms.AdminListKeepsOrder | constructs/kms/index.ts:53-56 | the default admins (or the root ARN when there are none), then the caller's admins, form a prefix of the admin list |
| Kms.AdminListHasRoot | constructs/kms/index.ts:57-58 | unless account identities are explicitly untrusted, the root ARN is an admin |
| Kms.AdminListNoDuplicate | constructs/kms/index.ts:57-58 | the root ARN is never added twice: with no duplicates among the defaults and the caller's admins, the list has none |
| Kms.AdminListEmpty | constructs/kms/index.ts:53-58 | the admin list is empty exactly when the configured defaults are an empty list, the caller adds none, and trust is explicitly off |
| Kms.AdminListDollarFree | constructs/kms/index.ts:53-58 | dollar-free inputs give a dollar-free admin list, so it can safely be used as a replacement text |
| Kms.JoinIsSentinel | constructs/kms/index.ts:65 | the service guard `join('","') == '[[""]]'` holds exactly for the one-element list `['[[""]]']` |
| Kms.SelectVariantTable | constructs/kms/index.ts:60-72 | SERVICE_USER exactly when both the admins and the services are non-empty; SERVICE exactly when there are services, no admins, and the services are not the sentinel; USER otherwise |
| Kms.HydratePlaceholderFree | constructs/kms/index.ts:74-83 | a document with none of the placeholders comes through hydration unchanged |
| Kms.EmptyServicesEntryDropped | constructs/kms/index.ts:81-82 | with no services, the `,"Service":["${service}"]` entry disappears completely |
| Kms.OnlyServiceStepsApply | constructs/kms/index.ts:74-83 | a statement free of the other placeholders is changed only by the two service steps |
| Kms.StatementUntouched | constructs/kms/index.ts:74-83 | a replacement whose pattern holds a character that the statement lacks leaves the statement unchanged |
| Kms.NewKmsKey | constructs/kms/index.ts:42-103 | the chosen policy object gets the selected variant's statements appended; the default admin array is pushed onto only when it is used directly; the records are the key and, when the key is named, its alias, built from the hydrated policy |
| Kms.AddKeyRecords | constructs/kms/index.ts:84-99 | the key has rotation enabled and the removal policy the caller gave (RETAIN by default); an alias is added exactly when `keyName` is truthy |
| Kms.ResolveKeyAdmins | constructs/kms/index.ts:53-58 | the admin array is exactly the resolved list; it is the very `CONFIG.defaultKeyAdmins` object when no extra admins are given, and a fresh array otherwise |
| Kms.KeyUsersUnused | constructs/kms/index.ts:42-103 | `keyUsers` changes neither the key's records nor its admins |
| Kms.KeyPolicyPrincipalsTrust | constructs/kms/index.ts:153-182 | the role is the first principal; the account root is a principal exactly when account identities are not explicitly untrusted; every statement carries those principals |
| Kms.AddToKeyPolicy | constructs/kms/index.ts:153-182 | the use and grant statements, with those principals, are appended to the key's resource policy only |
| Kms.GrantIamAccess | constructs/kms/index.ts:105-151 | a managed policy gets both statements; a role gets them inline, or through a new policy when a scope is given |
| Vpc.SubnetConfigurations | constructs/vpc/index.ts:217-230 | the two loops build exactly the private groups and then the public groups |
| Vpc.SubnetLayoutShape | constructs/vpc/index.ts:217-230 | there are privateCount + publicCount groups, all with the given mask; groups `private1..` come first with egress; then groups `public1..`, which do not map public IPs |
| Vpc.PrivateGroupsAt | constructs/vpc/index.ts:217-223 | private group i is `private{i+1}` |
| Vpc.PublicGroupsAt | constructs/vpc/index.ts:224-230 | public group i is `public{i+1}` |
| Vpc.SubnetNamesDistinct | constructs/vpc/index.ts:221-227 | no two groups share a name |
| Vpc.ResolvedLayoutHasBothKinds | constructs/vpc/index.ts:211-214 | an explicit 0 counts as missing for the private count, the public count and the subnet size alike, so a created VPC has at least one private and one public group |
| Vpc.NewPlatformVpc | constructs/vpc/index.ts:176-278 | the records are the VPC's records from the specification, and the reported subnet IDs are unions with the supplied ones |
| Vpc.CreateVpc | constructs/vpc/index.ts:192-241 | the flow-log policy, the flow-log role and the VPC, in that order |
| Vpc.VpcRecordsShape | constructs/vpc/index.ts:180-241 | an imported VPC creates no role or policy; a created one has a flow-log role trusted by `vpc-flow-logs.amazonaws.com`, two AZs, one NAT gateway, and the default name and CIDR |
| Vpc.SubnetUnionSpec | constructs/vpc/index.ts:252-263 | a subnet-ID union has no duplicates, holds exactly the reported IDs plus the supplied ones, and starts with the deduplicated reported IDs |
| Vpc.SubnetUnionOrder | constructs/vpc/index.ts:252-263 | the union keeps the order of first occurrence |
| Vpc.IsolatedIdsHoldReportedPrivate | constructs/vpc/index.ts:264-269 | the isolated IDs are the reported private subnets plus the supplied isolated IDs |
| Vpc.AllIdsSpec | constructs/vpc/index.ts:270-276 | all subnet IDs are duplicate-free and hold the public, private and isolated IDs |
| Text.DedupPrefix | constructs/vpc/index.ts:252-276 | deduplicating a concatenation starts with the deduplicated first part |
| Text.DedupOfNoDup | constructs/vpc/index.ts:252-276 | a duplicate-free sequence is its own deduplication |
| Text.DedupOrder | constructs/vpc/index.ts:252-276 | a deduplicated sequence lists elements in the order they first occur |
| Text.ReplaceCharIsMap | constructs/sagemaker/constructors.ts:14 | replacing a character is a character-wise map |
| Text.ReplaceFirstChar | lib/stacks/sagemakerStack.ts:118 | a string `replace` of a character changes only its first occurrence |
| Text.IndexOfInPrefix | lib/stacks/sagemakerStack.ts:88 | the first occurrence of a character in a concatenation is in the first part when that part has one |
| Text.ReplaceFirstInPrefix | lib/stacks/sagemakerStack.ts:88 | a `replace` of a character in a concatenation whose first part holds it changes only that part |
| ExecutionRole.NewSagemakerRole | constructs/sagemaker/role.ts:39-168 | the records are the role's records from the specification for the branch the policy file decides, and the returned role is the matching value |
| ExecutionRole.NewCustomPolicyRole | constructs/sagemaker/role.ts:42-76 | custom-file branch: the node, one hydrated managed policy, then the role |
| ExecutionRole.NewDefaultPoliciesRole | constructs/sagemaker/role.ts:77-166 | default branch: the node, four default policies, then the role |
| ExecutionRole.AddCustomPolicy | constructs/sagemaker/role.ts:43-59 | one managed policy from the file text, hydrated with the account and region, plus the deny statement when there is an allowed list |
| ExecutionRole.AddDenyStatement | constructs/sagemaker/role.ts:58-59 | the deny statement is appended to that policy when there is an allowed list, and nothing changes otherwise |
| ExecutionRole.AddDefaultPolicies | constructs/sagemaker/role.ts:82-146 | the four built-in policies, each from its hydrated template, with the deny statement on `-sagemaker-policy` |
| ExecutionRole.RoleRecordsShape | constructs/sagemaker/role.ts:61-74 | three records in the custom branch and six in the default one; the role trusts exactly the four fixed services; it attaches `AmazonS3FullAccess` and then every local policy |
| ExecutionRole.DenyPlacement | constructs/sagemaker/role.ts:58-59 | the deny statement goes only to the custom policy, or only to `-sagemaker-policy`; it exists exactly when `allowedInstanceTypes` is given |
| ExecutionRole.AllowedInstancesDenies | constructs/sagemaker/role.ts:171-186 | `CreateApp`/`UpdateSpace` is denied exactly when every requested type matches none of the allowed patterns |
| ExecutionRole.AllowedTypeIsNotDenied | constructs/sagemaker/role.ts:171-186 | an allowed type is not denied; with an empty allowed list, every request is denied |
| ExecutionRole.CustomBranchLeavesDefaultsUnset | constructs/sagemaker/role.ts:42-76 | the four default-policy fields are unset exactly in the custom branch; the JupyterLab policy is never set |
| Profiles.SetUpUser | constructs/sagemaker/constructors.ts:5-42 | one user profile record and one dependency on the domain |
| Profiles.SetUpUserImages | constructs/sagemaker/constructors.ts:6-13 | the Studio image is the caller's kernel ARN when given, otherwise the region's `jupyter-server-3`; the kernel gateway runs `datascience-1.0` on `ml.t3.medium`; the tag names the user |
| Profiles.NormalizeCharwise | constructs/sagemaker/constructors.ts:14 | normalisation keeps the length and replaces exactly `.` and `_` by `-` |
| Profiles.NormalizeRemovesDotAndUnderscore | constructs/sagemaker/constructors.ts:14 | a normalised name has no `.` and no `_` |
| Profiles.NormalizeIdempotent | constructs/sagemaker/constructors.ts:14 | normalising twice is normalising once |
| Profiles.NormalizeKeepsPlainName | constructs/sagemaker/constructors.ts:14 | a name without `.` and `_` is unchanged |
| Profiles.NormalizeDotted | constructs/sagemaker/constructors.ts:14 | `a.b` becomes `a-b` for plain a and b |
| Profiles.ProfileIdDropsHyphens | constructs/sagemaker/constructors.ts:18 | the profile construct ID is the prefix plus the name with every hyphen removed |
| Profiles.ProfileIdCollision | constructs/sagemaker/constructors.ts:14-18 | the users `a.b` and `ab` have different profile names but the same construct ID |
| Profiles.HyphenDropped | constructs/sagemaker/constructors.ts:18 | removing hyphens from `a-b` gives `ab` |
| Profiles.ImageAccountKnown | constructs/sagemaker/constructors.ts:7-12 | for every region, the default Studio and kernel image ARNs carry the table's account when the region is listed and `undefined` when it is not |
| Images.NewSagemakerCustomImage | constructs/sagemaker/images.ts:76-107 | the node, the image, the version and the config, with the version depending on the image |
| Images.ImageRecordsAgree | constructs/sagemaker/images.ts:83-106 | the image, the version and the config share one name; the version is built from the ECR kernel URI |
| Images.ImageNameDefault | constructs/sagemaker/images.ts:81 | the image name is the caller's when truthy, otherwise `repository-tag` |
| Images.KernelArnTag | constructs/sagemaker/images.ts:80 | different tags of one repository give different kernel URIs |
| Images.CommitHashPrefix | constructs/sagemaker/images.ts:78-79 | the commit hash is the first seven characters of the revision |
| Domain.BuildImageConfigs | constructs/sagemaker/index.ts:167-173 | the loop computes the image-config result from the specification |
| Domain.ImageConfigsSpec | constructs/sagemaker/index.ts:167-173 | success exactly when every image is defined, and then config i names image i; otherwise the failure is at the first undefined image |
| Domain.ImageConfigsFailureSticks | constructs/sagemaker/index.ts:167-173 | once a prefix fails, the whole list fails with the same error |
| Domain.ImageConfigsExtend | constructs/sagemaker/index.ts:167-173 | adding records does not change the result |
| Domain.SecurityGroupAdmits | constructs/sagemaker/index.ts:186-198 | any IPv4 address may reach port 443 only; the group itself may reach 2049 and 8192-65535; no other group may reach anything |
| Domain.AddSecurityGroup | constructs/sagemaker/index.ts:179-198 | one security group with all outbound traffic allowed and the three ingress rules |
| Domain.ResolveRole | constructs/sagemaker/index.ts:150-159 | the given role is reused and no records are added; otherwise a new `DefaultRole` is built |
| Domain.DomainRoleChoice | constructs/sagemaker/index.ts:150-159 | the given role gives no records; otherwise the role records end with a role named `<domain>-default-execution-role` |
| Domain.NewSagemakerDomain | constructs/sagemaker/index.ts:142-286 | the outcome matches the specification: the node and the role records; then a failure at the first undefined image, or the group, the domain, one profile per user and one edge per image |
| Domain.FinishDomain | constructs/sagemaker/index.ts:167-286 | the same outcome, once the role exists |
| Domain.CompleteDomain | constructs/sagemaker/index.ts:179-281 | the domain records and the image edges, given the configs |
| Domain.AddDomainTail | constructs/sagemaker/index.ts:179-281 | the group, the domain and the profiles; the domain depends on every custom image |
| Domain.AddDomainDependencies | constructs/sagemaker/index.ts:230-231 | one edge from the domain to each custom image |
| Domain.DomainEdgesAt | constructs/sagemaker/index.ts:230-231 | edge i goes from the domain to image i |
| Domain.AddProfiles | constructs/sagemaker/index.ts:243-281 | one profile record per user, in order, with consecutive handles and no edges |
| Domain.ProfileRecordFacts | constructs/sagemaker/index.ts:243-278 | a profile uses the normalised name, the domain ID, the role, the default Studio and kernel images, and the two domain tags |
| Domain.DomainTailLayout | constructs/sagemaker/index.ts:179-227 | the group first, then the IAM-authenticated domain in the VPC with the image configs, then the profiles |
| Domain.DomainOutcomeFacts | constructs/sagemaker/index.ts:142-286 | records are only appended; success exactly when every image is defined; a successful domain has the props' VPC, VPC ID, subnet IDs and the selected role; a failure names the first undefined one |
| Domain.IgnoredProps | constructs/sagemaker/index.ts:145-204 | `authMode`, `appNetworkAccessType`, `publicSubnets` and `pipelineRole` do not affect what is built |
| Bucket.NewPlatformBucket | constructs/bucket/index.ts:43-116 | a caller's key is reused; otherwise a `BucketKey` is created first, with the bucket's name and DESTROY; the parameter, the bucket and its policy follow |
| Bucket.BucketWithKey | constructs/bucket/index.ts:59-60 | reused-key branch |
| Bucket.BucketWithOwnKey | constructs/bucket/index.ts:61-71 | own-key branch |
| Bucket.AddOwnKey | constructs/bucket/index.ts:61-71 | the bucket's own key records |
| Bucket.FinishBucket | constructs/bucket/index.ts:73-109 | the key-id parameter, the bucket, then the resource policy |
| Bucket.AddBucketStatements | constructs/bucket/index.ts:101-109 | the statements are appended to the bucket, in order |
| Bucket.AutoDeleteResolution | constructs/bucket/index.ts:48-55 | objects are auto-deleted exactly when asked to, or, with no answer, when the removal policy is DESTROY |
| Bucket.BucketRecordFixed | constructs/bucket/index.ts:85-94 | the bucket always blocks public access, is SSL-only, is encrypted with the chosen key and is destroyed with the stack |
| Bucket.BucketStatementsOrder | constructs/bucket/index.ts:95-109 | the hydrated policy statements come first, in order, then the caller's extra statements |
| Bucket.BucketPolicyWithoutPlaceholder | constructs/bucket/index.ts:95-100 | a policy without the placeholder is taken over unchanged |
| Bucket.ReusedKey | constructs/bucket/index.ts:59-91 | a reused key adds no key records; the parameter and the bucket use that key |
| Bucket.OwnKeyRecords | constructs/bucket/index.ts:61-80 | the own key is described by the bucket name, destroyed with the stack and aliased `<bucket>-key`; the parameter holds its ID |
| Bucket.GrantAccess | constructs/bucket/index.ts:186-211 | a role gets the statement inline, or through a new policy under a scope; a managed policy gets it directly |
| Bucket.GrantReadAccess | constructs/bucket/index.ts:118-137 | the read statement is granted |
| Bucket.GrantWriteAccess | constructs/bucket/index.ts:139-156 | the write statement is granted |
| Bucket.GrantReadWriteAccess | constructs/bucket/index.ts:158-184 | the read-write statement is granted |
| Bucket.ReadGrantShape | constructs/bucket/index.ts:119-134 | six read actions, with `s3:ListBucket` twice, on the bucket and its objects |
| Bucket.WriteGrantShape | constructs/bucket/index.ts:140-153 | five distinct write actions, on the objects only |
| Bucket.ReadWriteGrantShape | constructs/bucket/index.ts:162-181 | ten distinct actions, on the bucket and its objects |
| Bucket.ReadWriteIsUnion | constructs/bucket/index.ts:119-181 | read-write allows exactly the read actions plus the write actions |
| Stack.LastWithTag | lib/stacks/sagemakerStack.ts:101 | the position of the last entry with a tag |
| Stack.AddEntryImage | lib/stacks/sagemakerStack.ts:87-101 | one custom image per repository tag, with the image ID and properties the stack derives |
| Stack.AddEntry | lib/stacks/sagemakerStack.ts:86-102 | the loop step: records, edges and map all follow the specification |
| Stack.AddRepositoryImages | lib/stacks/sagemakerStack.ts:86-102 | the inner loop over one repository's tags |
| Stack.AddImages | lib/stacks/sagemakerStack.ts:79-103 | four records and one edge per (repository, tag) entry; the map is the specification's last-wins map |
| Stack.EntriesMapLastWins | lib/stacks/sagemakerStack.ts:101 | the map's keys are exactly the tags, and each key holds the image of the last entry with that tag |
| Stack.LastWinsKeys | lib/stacks/sagemakerStack.ts:101 | map assignments in order give the set of tags as keys |
| Stack.LastWinsLast | lib/stacks/sagemakerStack.ts:101 | a later assignment overrides an earlier one |
| Stack.ImageEntriesConcat | lib/stacks/sagemakerStack.ts:83-86 | the entries of concatenated configs are the concatenated entries |
| Stack.ImageEntriesOne | lib/stacks/sagemakerStack.ts:83-86 | one repository gives one entry per tag, in order |
| Stack.ImageIdAndName | lib/stacks/sagemakerStack.ts:88-89 | the ID is `repository-tag` without its first hyphen: the repository followed by the tag when the repository has no hyphen, else the repository without its first hyphen, then `-` and the tag; the name is `repository-tag` |
| Stack.LookupImages | lib/stacks/sagemakerStack.ts:111-117 | the lookup returns the specification's list of found images |
| Stack.FoundImagesAt | lib/stacks/sagemakerStack.ts:111-117 | element j is the image of tag j when the tag is known, and undefined otherwise |
| Stack.FoundImagesFacts | lib/stacks/sagemakerStack.ts:111-117 | every image is found exactly when every tag is in the map |
| Stack.DomainIdDropsFirstHyphen | lib/stacks/sagemakerStack.ts:118 | the domain construct ID drops only the first hyphen |
| Stack.DomainRoleSelection | lib/stacks/sagemakerStack.ts:129-135 | the stack's role is reused exactly when the domain has no policy file; otherwise the domain builds `<domain>-default-execution-role` |
| Stack.AddStackDomain | lib/stacks/sagemakerStack.ts:107-142 | one domain with the stack's props; success exactly when all its tags are known |
| Stack.AddDomainStep | lib/stacks/sagemakerStack.ts:107-142 | the loop step of the domains: success exactly when the tags are known; the domain sits in the given VPC and its subnets, and shares the given role exactly where it has no policy location |
| Stack.AddDomains | lib/stacks/sagemakerStack.ts:105-144 | no domains adds nothing; otherwise one domain per config, in order; success exactly when every domain's tags are known; every domain is in the given VPC with its subnet IDs; a domain without a policy location has the given role, one with a location a role of its own under its path |
| Stack.StackVpcSubnets | lib/stacks/sagemakerStack.ts:60-77 | the VPC is imported exactly when the looked-up ID is non-empty; the looked-up IDs are kept; the isolated IDs are the private subnets |
| Stack.AddRoleAndVpc | lib/stacks/sagemakerStack.ts:44-77 | the records are the role's, the `DefaultVPC` lookup and the platform VPC's, with no new dependency; the role and the VPC are the values those constructors give for the stack's props |
| Stack.StackRoleDefaultPolicies | lib/stacks/sagemakerStack.ts:44-48 | the shared role has no policy location, so it reads no file and always gets the four default policies; its execution role is `platform-sagemaker-execution-<environment>-role` |
| Stack.StackVpcWiring | lib/stacks/sagemakerStack.ts:60-77 | the platform VPC is the looked-up one, with its ID and ARN, when the lookup gave an ID, and a created one otherwise; either way it keeps every looked-up subnet, and its subnet IDs are the duplicate-free union of its three kinds |
| Stack.NewStagingBucket | lib/stacks/sagemakerStack.ts:37-42 | the `<account>-sagemaker-staging` bucket with its own key: six records (bucket construct, the key's three with the default policy hydrated, name parameter, bucket), no dependency, and the default key policy extended by the variant's statements |
| Stack.AddStackHead | lib/stacks/sagemakerStack.ts:28-42 | the stack record, the imported pipeline role and the staging bucket, eight records in all |
| Stack.AddFixedConstructs | lib/stacks/sagemakerStack.ts:28-77 | the stack record, the imported pipeline role, the staging bucket, and the shared role and the platform VPC as their constructors build them right after |
| Stack.NewSagemakerInfraStack | lib/stacks/sagemakerStack.ts:27-145 | the stack's fields, with the role and VPC as built; the image map has the configured tags as keys, with the last entry winning; one domain per config, each in the stack's VPC and subnets and sharing the stack's role exactly where it has no policy location; success exactly when every domain's tags are configured |

## Left out

- The pipeline stack (`lib/stacks/pipeline-stack.ts`) is not part of this model. It appears only as its stack record.
- JSON parsing and serialisation are modelled as text per statement. Structural JSON is left out, because every substitution of the source works on the serialised text.
- `$` patterns in `replaceAll` replacement texts are left out. Every replacement must be free of `$` (`DollarFree`), and the configured values meet this.
- CDK lookups are `Stack.Inputs` parameters. These are the SSM lookup of the VPC ID (`ssmVpcId`), what the two `Vpc.fromLookup` calls report (`defaultVpc`, `platformVpcView`), and the number of availability zones of the region.
- File reads and environment variables are parameters: the policy files (`ExecutionRole.FileSystem`), the policy templates, `process.env` (`App.ProcessEnv`) and `CODEBUILD_RESOLVED_SOURCE_VERSION`.
- The `customResourceRole` of the stack is always undefined and is left out.
- `keyUsers` is accepted by the KMS key but never used (`Kms.KeyUsersUnused`).
- `constructs/sagemaker/types.ts` is modelled only for the constants the core reads: the region-to-account table (all 19 entries, `Profiles.RegionAccounts`) and the default image and instance names. Its enums are otherwise left out.
- CloudFormation attributes are symbolic tokens (`Tokens.Token`) that are never resolved.
- Vpc.NewPlatformVpc: the subnet IDs of a created VPC are tokens named after each subnet group and zone, over the first `min(zones, 2)` zones. They are attribute tokens, not CDK's own logical IDs.
- Stack.NewSagemakerInfraStack: does not state the full list of records it appends; the members it calls each state theirs.
- App.Synthesize: states the first two records and the outcome, not every record of the SageMaker stack. Construct-ID uniqueness among siblings is not modelled: CDK throws at synthesis when two children of one scope share an ID, so two users that normalise alike (`alice` twice, or `a.b` and `ab`) in one domain, a tag repeated within one repository, or domains such as `my-domain` and `mydomain` make the real program fail, while the model appends the second record and succeeds.
- Stack.AddDomainStep: states less than Stack.AddStackDomain, which it wraps.
