/**
 * The KMS key construct: the key-admin list, the choice of one of three
 * key-policy statement variants, the ordered chain of placeholder
 * substitutions that hydrates the key policy, the key and its alias, and the
 * two grant helpers.
 */
module Kms {
  import opened Wrappers
  import opened Text
  import opened Tokens
  import opened Iam
  import opened Cdk
  import Config

  /** A policy object loaded from a JSON file. The imported default key
      policy is one such object, shared by every construct that imports it. */
  class PolicyObject {
    var header: string
    var statements: seq<string>

    constructor (doc: PolicyJson)
      ensures header == doc.header && statements == doc.statements
    {
      header := doc.header;
      statements := doc.statements;
    }

    function Json(): PolicyJson
      reads this
    {
      PolicyJson(header, statements)
    }
  }

  datatype Variant = UserVariant | ServiceVariant | ServiceUserVariant

  /** The statement lists of the three variant files, as JSON text. */
  datatype KeyTemplates = KeyTemplates(user: seq<string>, service: seq<string>, serviceUser: seq<string>)

  datatype KmsKeyProps = KmsKeyProps(
    keyName: Option<string>,
    description: Option<string>,
    kmsPolicy: PolicyObject?,
    accountId: string,
    region: string,
    removalPolicy: Option<Removal>,
    trustAccountIdentities: Option<bool>,
    keyAdmins: Option<seq<string>>,
    keyUsers: Option<seq<string>>,
    keyServices: Option<seq<string>>)

  datatype KmsKey = KmsKey(
    path: Path,
    node: Handle,
    key: Handle,
    keyArn: Token,
    keyId: Token,
    keyName: Option<string>,
    trustAccountIdentities: Option<bool>,
    accountId: string,
    region: string)

  const AdminSeparator: string := "\", \""
  const ServiceSeparator: string := "\",\""
  /** What `["${service}"]` becomes when the services list is empty, and
      what the services join of the list `['[[""]]']` is. */
  const EmptyServicesSentinel: string := "[[\"\"]]"

  function RootArn(accountId: string): string {
    "arn:aws:iam::" + accountId + ":root"
  }

  /** The policy object the key works on: the caller's, or the shared default. */
  function ChosenPolicy(props: KmsKeyProps, defaultKeyPolicy: PolicyObject): PolicyObject {
    if props.kmsPolicy != null then props.kmsPolicy else defaultKeyPolicy
  }

  /** The key admins: the configured defaults (or the root ARN when none are
      configured), then the caller's admins, then the root ARN when account
      identities are trusted and it is not listed yet. */
  function AdminList(defaults: Option<seq<string>>, extra: Option<seq<string>>, trust: Option<bool>, rootArn: string): seq<string> {
    var start := defaults.GetOr([rootArn]);
    var joined := if extra.Some? then start + extra.value else start;
    if trust != Some(false) && rootArn !in joined then joined + [rootArn] else joined
  }

  function SelectVariant(admins: seq<string>, services: seq<string>): Variant {
    if |admins| > 0 && |services| > 0 then ServiceUserVariant
    else if |services| > 0 && Join(services, ServiceSeparator) != EmptyServicesSentinel then ServiceVariant
    else UserVariant
  }

  function VariantStatements(t: KeyTemplates, v: Variant): seq<string> {
    match v
    case UserVariant => t.user
    case ServiceVariant => t.service
    case ServiceUserVariant => t.serviceUser
  }

  /** The hydration chain, one `replaceAll` after the other in this order. */
  function HydrateKeyPolicy(doc: PolicyJson, admins: seq<string>, accountId: string, region: string,
                            pipelineRoleName: string, services: seq<string>): PolicyJson
    requires AllDollarFree(admins) && AllDollarFree(services)
    requires DollarFree(accountId) && DollarFree(region) && DollarFree(pipelineRoleName)
  {
    JoinDollarFree(admins, AdminSeparator);
    JoinDollarFree(services, ServiceSeparator);
    var d1 := Hydrate(doc, "${keyAdmins}", Join(admins, AdminSeparator));
    var d2 := Hydrate(d1, "${accountId}", accountId);
    var d3 := Hydrate(d2, "${region}", region);
    var d4 := Hydrate(d3, "${roleArn}", RootArn(accountId));
    var d5 := Hydrate(d4, "${roleName}", pipelineRoleName);
    var d6 := Hydrate(d5, "\"${service}\"", "[\"" + Join(services, ServiceSeparator) + "\"]");
    Hydrate(d6, ",\"Service\":[[\"\"]]", "")
  }

  function KeyRecords(base: nat, path: Path, props: KmsKeyProps, doc: PolicyJson): seq<Record> {
    [Construct(path, "KmsKey"),
     Key(path + ["KmsKey"], props.description, true, true, doc, props.removalPolicy.GetOr(Retain), [])]
    + (if Truthy(props.keyName) then [Alias(path + ["KmsKeyAlias"], props.keyName.value, base + 1)] else [])
  }

  // ---------------------------------------------------------------------
  // The admin list

  /** The starting list and the caller's admins come first, in order. */
  lemma AdminListKeepsOrder(defaults: Option<seq<string>>, extra: Option<seq<string>>, trust: Option<bool>, rootArn: string)
    ensures defaults.GetOr([rootArn]) + extra.GetOr([]) <= AdminList(defaults, extra, trust, rootArn)
  {
    if extra.None? {
      assert defaults.GetOr([rootArn]) + [] == defaults.GetOr([rootArn]);
    }
  }

  /** Unless trust is explicitly off, the root ARN is an admin. */
  lemma AdminListHasRoot(defaults: Option<seq<string>>, extra: Option<seq<string>>, trust: Option<bool>, rootArn: string)
    requires trust != Some(false)
    ensures rootArn in AdminList(defaults, extra, trust, rootArn)
  {
  }

  /** The root ARN is pushed only when absent: no admin appears twice that
      did not already appear twice. */
  lemma AdminListNoDuplicate(defaults: Option<seq<string>>, extra: Option<seq<string>>, trust: Option<bool>, rootArn: string)
    requires NoDup(defaults.GetOr([rootArn]) + extra.GetOr([]))
    ensures NoDup(AdminList(defaults, extra, trust, rootArn))
  {
    var joined := defaults.GetOr([rootArn]) + extra.GetOr([]);
    if extra.None? {
      assert defaults.GetOr([rootArn]) + [] == defaults.GetOr([rootArn]);
    }
    var r := AdminList(defaults, extra, trust, rootArn);
    if r != joined {
      assert r == joined + [rootArn] && rootArn !in joined;
      forall i, j | 0 <= i < j < |r| ensures r[i] != r[j] {
        if j == |joined| {
          assert r[i] == joined[i];
        }
      }
    }
  }

  /** The list is empty exactly when the configured defaults are an empty
      list, the caller adds none and trust is explicitly off. */
  lemma AdminListEmpty(defaults: Option<seq<string>>, extra: Option<seq<string>>, trust: Option<bool>, rootArn: string)
    ensures AdminList(defaults, extra, trust, rootArn) == [] <==>
            defaults == Some([]) && extra.GetOr([]) == [] && trust == Some(false)
  {
  }

  lemma AdminListDollarFree(defaults: Option<seq<string>>, extra: Option<seq<string>>, trust: Option<bool>, rootArn: string)
    requires defaults.Some? ==> AllDollarFree(defaults.value)
    requires extra.Some? ==> AllDollarFree(extra.value)
    requires DollarFree(rootArn)
    ensures AllDollarFree(AdminList(defaults, extra, trust, rootArn))
  {
    var start := defaults.GetOr([rootArn]);
    var joined := if extra.Some? then start + extra.value else start;
    assert AllDollarFree(start);
    assert AllDollarFree(joined);
  }

  // ---------------------------------------------------------------------
  // Variant selection

  /** The services join equals the sentinel only for the one-element list
      holding the sentinel itself: the join of two or more has a comma. */
  lemma {:induction false} JoinIsSentinel(ss: seq<string>)
    ensures Join(ss, ServiceSeparator) == EmptyServicesSentinel <==> ss == [EmptyServicesSentinel]
  {
    if |ss| >= 2 {
      var j := Join(ss, ServiceSeparator);
      assert j == ss[0] + ServiceSeparator + Join(ss[1..], ServiceSeparator);
      assert j[|ss[0]| + 1] == ',';
    }
  }

  /** The variant truth table. */
  lemma SelectVariantTable(admins: seq<string>, services: seq<string>)
    ensures SelectVariant(admins, services) == ServiceUserVariant <==> admins != [] && services != []
    ensures SelectVariant(admins, services) == ServiceVariant <==>
            admins == [] && services != [] && services != [EmptyServicesSentinel]
    ensures SelectVariant(admins, services) == UserVariant <==>
            services == [] || (admins == [] && services == [EmptyServicesSentinel])
  {
    JoinIsSentinel(services);
  }

  // ---------------------------------------------------------------------
  // Hydration

  predicate PlaceholderFree(doc: PolicyJson) {
    Free(doc, "${keyAdmins}") && Free(doc, "${accountId}") && Free(doc, "${region}") &&
    Free(doc, "${roleArn}") && Free(doc, "${roleName}") && Free(doc, "\"${service}\"") &&
    Free(doc, ",\"Service\":[[\"\"]]")
  }

  /** A policy without placeholders comes out of hydration unchanged. */
  lemma HydratePlaceholderFree(doc: PolicyJson, admins: seq<string>, accountId: string, region: string,
                               pipelineRoleName: string, services: seq<string>)
    requires AllDollarFree(admins) && AllDollarFree(services)
    requires DollarFree(accountId) && DollarFree(region) && DollarFree(pipelineRoleName)
    requires PlaceholderFree(doc)
    ensures HydrateKeyPolicy(doc, admins, accountId, region, pipelineRoleName, services) == doc
  {
    JoinDollarFree(admins, AdminSeparator);
    JoinDollarFree(services, ServiceSeparator);
    HydrateFree(doc, "${keyAdmins}", Join(admins, AdminSeparator));
    HydrateFree(doc, "${accountId}", accountId);
    HydrateFree(doc, "${region}", region);
    HydrateFree(doc, "${roleArn}", RootArn(accountId));
    HydrateFree(doc, "${roleName}", pipelineRoleName);
    HydrateFree(doc, "\"${service}\"", "[\"" + Join(services, ServiceSeparator) + "\"]");
    HydrateFree(doc, ",\"Service\":[[\"\"]]", "");
  }

  /** The service entry of a key-policy statement, `,"Service":["${service}"]`,
      turns into `,"Service":[[""]]` when the services list is empty, and the
      last step of the chain then deletes it. */
  lemma EmptyServicesEntryDropped(entry: string, admins: seq<string>, accountId: string, region: string,
                                  pipelineRoleName: string)
    requires entry == ",\"Service\":[\"${service}\"]"
    requires AllDollarFree(admins)
    requires DollarFree(accountId) && DollarFree(region) && DollarFree(pipelineRoleName)
    ensures HydrateKeyPolicy(PolicyJson("", [entry]), admins, accountId, region, pipelineRoleName, []) == PolicyJson("", [""])
  {
    OnlyServiceStepsApply(entry, admins, accountId, region, pipelineRoleName);
    ServiceEntrySteps(PolicyJson("", [entry]), entry);
  }

  /** A statement that lacks a letter of each of the first five placeholders
      is only touched by the two service steps; with no services the sixth
      step writes `[""]`. */
  lemma OnlyServiceStepsApply(entry: string, admins: seq<string>, accountId: string, region: string,
                              pipelineRoleName: string)
    requires 'k' !in entry && 'a' !in entry && 'g' !in entry && 'o' !in entry
    requires AllDollarFree(admins)
    requires DollarFree(accountId) && DollarFree(region) && DollarFree(pipelineRoleName)
    ensures HydrateKeyPolicy(PolicyJson("", [entry]), admins, accountId, region, pipelineRoleName, []) ==
            Hydrate(Hydrate(PolicyJson("", [entry]), "\"${service}\"", "[\"\"]"), ",\"Service\":[[\"\"]]", "")
  {
    JoinDollarFree(admins, AdminSeparator);
    StatementUntouched(entry, "${keyAdmins}", Join(admins, AdminSeparator), 'k');
    StatementUntouched(entry, "${accountId}", accountId, 'a');
    StatementUntouched(entry, "${region}", region, 'g');
    StatementUntouched(entry, "${roleArn}", RootArn(accountId), 'o');
    StatementUntouched(entry, "${roleName}", pipelineRoleName, 'o');
    assert "[\"" + Join([], ServiceSeparator) + "\"]" == "[\"\"]";
  }

  lemma StatementUntouched(entry: string, pat: string, rep: string, c: char)
    requires DollarFree(rep) && c in pat && c !in entry
    ensures Hydrate(PolicyJson("", [entry]), pat, rep) == PolicyJson("", [entry])
  {
    AbsentByChar(entry, pat, c);
    HydrateFree(PolicyJson("", [entry]), pat, rep);
  }

  lemma ServiceEntrySteps(doc: PolicyJson, entry: string)
    requires entry == ",\"Service\":[\"${service}\"]" && doc == PolicyJson("", [entry])
    ensures Hydrate(Hydrate(doc, "\"${service}\"", "[\"\"]"), ",\"Service\":[[\"\"]]", "") == PolicyJson("", [""])
  {
    var pre, svc, post, rep := ",\"Service\":[", "\"${service}\"", "]", "[\"\"]";
    ServiceEntryStep(pre, svc, post, rep);
    ServiceEntryParts();
    SentinelParts();
    SentinelRemoved(entry, svc, rep, ",\"Service\":[[\"\"]]");
  }

  lemma ServiceEntryParts()
    ensures ",\"Service\":[\"${service}\"]" == ",\"Service\":[" + "\"${service}\"" + "]"
  {
  }

  lemma SentinelParts()
    ensures ",\"Service\":[" + "[\"\"]" + "]" == ",\"Service\":[[\"\"]]"
  {
  }

  /** Replacing `svc` in the entry gives exactly `sentinel`, which the second
      replacement then removes. */
  lemma SentinelRemoved(entry: string, svc: string, rep: string, sentinel: string)
    requires DollarFree(rep) && svc != [] && sentinel != [] && ReplaceAll(entry, svc, rep) == sentinel
    ensures Hydrate(Hydrate(PolicyJson("", [entry]), svc, rep), sentinel, "") == PolicyJson("", [""])
  {
    assert ReplaceEach([entry], svc, rep) == [sentinel];
    assert Hydrate(PolicyJson("", [entry]), svc, rep) == PolicyJson(ReplaceAll("", svc, rep), [sentinel]);
    ReplaceAllAtFront(sentinel, "", "");
    assert sentinel + "" == sentinel;
    assert ReplaceEach([sentinel], sentinel, "") == [""];
  }

  lemma ServiceEntryStep(pre: string, svc: string, post: string, rep: string)
    requires pre == ",\"Service\":[" && svc == "\"${service}\"" && post == "]" && rep == "[\"\"]"
    ensures ReplaceAll(pre + svc + post, svc, rep) == pre + rep + post
  {
    ReplaceAllSkipPrefix(pre, svc + post, svc, rep);
    assert pre + (svc + post) == pre + svc + post;
    ReplaceAllAtFront(svc, post, rep);
    assert ReplaceAll(post, svc, rep) == post;
  }

  // ---------------------------------------------------------------------
  // The construct

  /** The admin list as the constructor computes it, from the configured defaults. */
  function KeyAdmins(props: KmsKeyProps, defaults: Option<seq<string>>): seq<string> {
    AdminList(defaults, props.keyAdmins, props.trustAccountIdentities, RootArn(props.accountId))
  }

  /** The configured default admins as an optional list. */
  function DefaultAdmins(config: Config.Config): Option<seq<string>>
    reads config.defaultKeyAdmins
  {
    if config.defaultKeyAdmins != null then Some(config.defaultKeyAdmins.items) else None
  }

  predicate KeyInputsDollarFree(props: KmsKeyProps, defaults: Option<seq<string>>, pipelineRoleName: string) {
    DollarFree(props.accountId) && DollarFree(props.region) && DollarFree(pipelineRoleName) &&
    (defaults.Some? ==> AllDollarFree(defaults.value)) &&
    (props.keyAdmins.Some? ==> AllDollarFree(props.keyAdmins.value)) &&
    (props.keyServices.Some? ==> AllDollarFree(props.keyServices.value))
  }

  /** `new KmsKey(scope, id, props)`. The chosen policy object gets the
      variant's statements appended in place; when the caller passes no admins,
      the configured default admin array (if there is one) is the array the
      root ARN is pushed onto. */
  method NewKmsKey(synth: Synth, scope: Path, id: string, props: KmsKeyProps, config: Config.Config,
                   defaultKeyPolicy: PolicyObject, templates: KeyTemplates) returns (k: KmsKey)
    requires synth.Valid()
    requires KeyInputsDollarFree(props, DefaultAdmins(config), config.pipelineRoleName)
    modifies synth, ChosenPolicy(props, defaultKeyPolicy), config.defaultKeyAdmins
    ensures synth.Valid() && synth.deps == old(synth.deps)
    ensures var policy := ChosenPolicy(props, defaultKeyPolicy);
            var admins := KeyAdmins(props, old(DefaultAdmins(config)));
            var services := props.keyServices.GetOr([]);
            AllDollarFree(admins) &&
            policy.header == old(policy.header) &&
            policy.statements == old(policy.statements) + VariantStatements(templates, SelectVariant(admins, services)) &&
            synth.records == old(synth.records) + KeyRecords(|old(synth.records)|, scope + [id], props,
              HydrateKeyPolicy(policy.Json(), admins, props.accountId, props.region, config.pipelineRoleName, services))
    ensures config.defaultKeyAdmins != null && props.keyAdmins.None? ==>
              config.defaultKeyAdmins.items == KeyAdmins(props, old(DefaultAdmins(config)))
    ensures config.defaultKeyAdmins != null && props.keyAdmins.Some? ==>
              config.defaultKeyAdmins.items == old(config.defaultKeyAdmins.items)
    ensures k == KmsKey(scope + [id], |old(synth.records)|, |old(synth.records)| + 1,
                        Attr(|old(synth.records)| + 1, "Arn"), Attr(|old(synth.records)| + 1, "KeyId"),
                        if Truthy(props.keyName) then props.keyName else None,
                        props.trustAccountIdentities, props.accountId, props.region)
  {
    var policy := props.kmsPolicy;
    if policy == null {
      policy := defaultKeyPolicy;
    }
    var services := props.keyServices.GetOr([]);
    var keyAdmins := ResolveKeyAdmins(props, config);
    var admins := keyAdmins.items;

    policy.statements := policy.statements + VariantStatements(templates, SelectVariant(admins, services));
    var doc := HydrateKeyPolicy(policy.Json(), admins, props.accountId, props.region, config.pipelineRoleName, services);
    k := AddKeyRecords(synth, scope + [id], props, doc);
  }

  /** The node, the key with policy `doc` and, for a truthy name, its alias. */
  method AddKeyRecords(synth: Synth, path: Path, props: KmsKeyProps, doc: PolicyJson) returns (k: KmsKey)
    requires synth.Valid()
    modifies synth
    ensures synth.Valid() && synth.deps == old(synth.deps)
    ensures synth.records == old(synth.records) + KeyRecords(|old(synth.records)|, path, props, doc)
    ensures k == KmsKey(path, |old(synth.records)|, |old(synth.records)| + 1,
                        Attr(|old(synth.records)| + 1, "Arn"), Attr(|old(synth.records)| + 1, "KeyId"),
                        if Truthy(props.keyName) then props.keyName else None,
                        props.trustAccountIdentities, props.accountId, props.region)
  {
    ghost var base := |synth.records|;
    ghost var records0 := synth.records;
    var node := synth.Add(Construct(path, "KmsKey"));
    var key := synth.Add(Key(path + ["KmsKey"], props.description, true, true, doc, props.removalPolicy.GetOr(Retain), []));
    var keyName: Option<string> := None;
    if Truthy(props.keyName) {
      var alias := synth.Add(Alias(path + ["KmsKeyAlias"], props.keyName.value, key));
      keyName := props.keyName;
    }
    assert synth.records == records0 + KeyRecords(base, path, props, doc);
    k := KmsKey(path, node, key, Attr(key, "Arn"), Attr(key, "KeyId"), keyName,
                props.trustAccountIdentities, props.accountId, props.region);
  }

  /** Lines 53-58: the admin array. It is the configured default array itself
      when the caller adds no admins, so the root ARN is pushed onto it. */
  method ResolveKeyAdmins(props: KmsKeyProps, config: Config.Config) returns (keyAdmins: Config.StringArray)
    requires KeyInputsDollarFree(props, DefaultAdmins(config), config.pipelineRoleName)
    modifies config.defaultKeyAdmins
    ensures keyAdmins.items == KeyAdmins(props, old(DefaultAdmins(config)))
    ensures AllDollarFree(keyAdmins.items)
    ensures config.defaultKeyAdmins != null && props.keyAdmins.None? ==> keyAdmins == config.defaultKeyAdmins
    ensures config.defaultKeyAdmins != null && props.keyAdmins.Some? ==>
              config.defaultKeyAdmins.items == old(config.defaultKeyAdmins.items)
    ensures !(config.defaultKeyAdmins != null && props.keyAdmins.None?) ==> fresh(keyAdmins)
  {
    ghost var defaults := DefaultAdmins(config);
    var rootArn := RootArn(props.accountId);
    if config.defaultKeyAdmins != null {
      keyAdmins := config.defaultKeyAdmins;
    } else {
      keyAdmins := new Config.StringArray([rootArn]);
    }
    if props.keyAdmins.Some? {
      keyAdmins := new Config.StringArray(keyAdmins.items + props.keyAdmins.value);
    }
    if props.trustAccountIdentities != Some(false) && rootArn !in keyAdmins.items {
      keyAdmins.Push(rootArn);
    }
    AdminListDollarFree(defaults, props.keyAdmins, props.trustAccountIdentities, rootArn);
  }

  // ---------------------------------------------------------------------
  // Grants

  const KeyUseActions: seq<string> := ["kms:Encrypt", "kms:Decrypt", "kms:ReEncryptFrom", "kms:ReEncryptTo",
                                       "kms:GenerateDataKey*", "kms:DescribeKey"]
  const KeyGrantActions: seq<string> := ["kms:CreateGrant", "kms:ListGrants", "kms:RevokeGrant"]
  const GrantIsForAwsResource: Condition := Condition("Bool", "kms:GrantIsForAWSResource", ["true"])

  /** The statement allowing the key's cryptographic use. */
  function UseStatement(resources: seq<Token>, principals: seq<Principal>): Statement {
    Statement(Allow, KeyUseActions, resources, [], principals)
  }

  /** The statement allowing grants, only for AWS resources. */
  function GrantStatement(resources: seq<Token>, principals: seq<Principal>): Statement {
    Statement(Allow, KeyGrantActions, resources, [GrantIsForAwsResource], principals)
  }

  /** The principals of the key-policy statements for `role`. */
  function KeyPolicyPrincipals(k: KmsKey, role: Handle): seq<Principal> {
    [RolePrincipal(role)] + (if k.trustAccountIdentities != Some(false) then [AccountRootPrincipal] else [])
  }

  /** The two statements `addToKeyPolicy(role)` adds to the key's resource policy. */
  function KeyPolicyStatements(k: KmsKey, role: Handle): seq<Statement> {
    [UseStatement([Lit("*")], KeyPolicyPrincipals(k, role)), GrantStatement([Lit("*")], KeyPolicyPrincipals(k, role))]
  }

  /** The two statements `grantIamAccess` gives an identity, on this key only. */
  function IdentityStatements(k: KmsKey): seq<Statement> {
    [UseStatement([k.keyArn], []), GrantStatement([k.keyArn], [])]
  }

  /** `records` after the key's resource policy got `statements`. */
  function WithKeyStatements(records: seq<Record>, k: KmsKey, statements: seq<Statement>): seq<Record>
    requires k.key < |records| && records[k.key].Key?
  {
    records[k.key := records[k.key].(resourceStatements := records[k.key].resourceStatements + statements)]
  }

  /** The key users never reach the key: its records and its admins are the
      same whatever `keyUsers` holds. */
  lemma KeyUsersUnused(base: nat, path: Path, props: KmsKeyProps, users: Option<seq<string>>,
                       defaults: Option<seq<string>>, doc: PolicyJson)
    ensures KeyRecords(base, path, props.(keyUsers := users), doc) == KeyRecords(base, path, props, doc)
    ensures KeyAdmins(props.(keyUsers := users), defaults) == KeyAdmins(props, defaults)
  {
  }

  /** The key-policy statements trust the account root exactly when account
      identities are not explicitly distrusted, and name the role first. */
  lemma KeyPolicyPrincipalsTrust(k: KmsKey, role: Handle)
    ensures KeyPolicyPrincipals(k, role)[0] == RolePrincipal(role)
    ensures AccountRootPrincipal in KeyPolicyPrincipals(k, role) <==> k.trustAccountIdentities != Some(false)
    ensures forall st :: st in KeyPolicyStatements(k, role) ==>
              st.effect == Allow && st.resources == [Lit("*")] && st.principals == KeyPolicyPrincipals(k, role)
  {
  }

  predicate KeyIn(synth: Synth, k: KmsKey)
    reads synth
  {
    k.key < |synth.records| && synth.records[k.key].Key?
  }

  predicate EntityIn(synth: Synth, entity: IamEntity)
    reads synth
  {
    match entity
    case RoleEntity(r) => r < |synth.records| && synth.records[r].Role?
    case PolicyEntity(p) => p < |synth.records| && synth.records[p].ManagedPolicy?
  }

  /** `key.addToKeyPolicy(role)`. */
  method AddToKeyPolicy(synth: Synth, k: KmsKey, role: Handle)
    requires synth.Valid() && KeyIn(synth, k)
    modifies synth
    ensures synth.Valid() && synth.deps == old(synth.deps)
    ensures synth.records == WithKeyStatements(old(synth.records), k, KeyPolicyStatements(k, role))
  {
    ghost var r0 := synth.records;
    var principals := KeyPolicyPrincipals(k, role);
    synth.AddToResourcePolicy(k.key, UseStatement([Lit("*")], principals));
    synth.AddToResourcePolicy(k.key, GrantStatement([Lit("*")], principals));
    assert synth.records[k.key].resourceStatements == r0[k.key].resourceStatements + KeyPolicyStatements(k, role);
    assert synth.records == WithKeyStatements(r0, k, KeyPolicyStatements(k, role));
  }

  /** `key.grantIamAccess(entity, scope)`. */
  method GrantIamAccess(synth: Synth, k: KmsKey, entity: IamEntity, scope: Option<Path>)
    requires synth.Valid() && KeyIn(synth, k) && EntityIn(synth, entity)
    modifies synth
    ensures synth.Valid() && synth.deps == old(synth.deps)
    ensures entity.PolicyEntity? ==>
      synth.records == old(synth.records)[entity.policy :=
        old(synth.records)[entity.policy].(statements := old(synth.records)[entity.policy].statements + IdentityStatements(k))]
    ensures entity.RoleEntity? && scope.None? ==>
      synth.records == WithKeyStatements(
        old(synth.records)[entity.role :=
          old(synth.records)[entity.role].(inlineStatements := old(synth.records)[entity.role].inlineStatements + IdentityStatements(k))],
        k, KeyPolicyStatements(k, entity.role))
    ensures entity.RoleEntity? && scope.Some? ==>
      synth.records == WithKeyStatements(old(synth.records), k, KeyPolicyStatements(k, entity.role)) +
        [ManagedPolicy(scope.value + ["KmsAccessPolicy"], None, "Grants KMS access to specific key", NoDocument,
                       IdentityStatements(k), [entity.role])]
  {
    ghost var r0 := synth.records;
    var useStatement := UseStatement([k.keyArn], []);
    var attachStatement := GrantStatement([k.keyArn], []);
    match entity
    case RoleEntity(role) =>
      if scope.Some? {
        var policy := synth.Add(ManagedPolicy(scope.value + ["KmsAccessPolicy"], None, "Grants KMS access to specific key",
                                              NoDocument, [useStatement, attachStatement], []));
        ghost var r1 := synth.records;
        synth.AttachToRole(policy, role);
        assert [] + [role] == [role];
        assert synth.records == r1[policy := r1[policy].(attachedRoles := [role])];
        ghost var p := ManagedPolicy(scope.value + ["KmsAccessPolicy"], None, "Grants KMS access to specific key",
                                     NoDocument, IdentityStatements(k), [role]);
        assert synth.records == r0 + [p];
        AddToKeyPolicy(synth, k, role);
        assert WithKeyStatements(r0 + [p], k, KeyPolicyStatements(k, role))
            == WithKeyStatements(r0, k, KeyPolicyStatements(k, role)) + [p];
      } else {
        synth.AddToRolePolicy(role, useStatement);
        synth.AddToRolePolicy(role, attachStatement);
        assert synth.records[role].inlineStatements == r0[role].inlineStatements + IdentityStatements(k);
        assert synth.records == r0[role := r0[role].(inlineStatements := r0[role].inlineStatements + IdentityStatements(k))];
        AddToKeyPolicy(synth, k, role);
      }
    case PolicyEntity(policy) =>
      synth.AddStatement(policy, useStatement);
      synth.AddStatement(policy, attachStatement);
      assert synth.records[policy].statements == r0[policy].statements + IdentityStatements(k);
      assert synth.records == r0[policy := r0[policy].(statements := r0[policy].statements + IdentityStatements(k))];
  }
}
