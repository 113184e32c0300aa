/**
 * The entry point: the pipeline stack first, then the account and region of
 * the SageMaker stack from the configuration or the process environment, and
 * the SageMaker stack itself.
 */
module App {
  import opened Wrappers
  import opened Text
  import opened Tokens
  import opened Cdk
  import Config
  import Kms
  import Stack

  /** The environment variables the entry point reads. */
  datatype ProcessEnv = ProcessEnv(
    awsRegion: Option<string>,
    awsDefaultRegion: Option<string>,
    awsDefaultAccount: Option<string>,
    awsAccount: Option<string>)

  /** `a || b || ... || ""` over optional strings. */
  function FirstTruthy(xs: seq<Option<string>>): string
    decreases |xs|
  {
    if |xs| == 0 then ""
    else if Truthy(xs[0]) then xs[0].value
    else FirstTruthy(xs[1..])
  }

  function RegionCandidates(config: Config.Config, penv: ProcessEnv): seq<Option<string>> {
    [config.region, penv.awsRegion, penv.awsDefaultRegion]
  }

  function AccountCandidates(config: Config.Config, penv: ProcessEnv): seq<Option<string>> {
    [config.accountId, penv.awsDefaultAccount, penv.awsAccount]
  }

  function ResolveRegion(config: Config.Config, penv: ProcessEnv): string {
    FirstTruthy(RegionCandidates(config, penv))
  }

  function ResolveAccount(config: Config.Config, penv: ProcessEnv): string {
    FirstTruthy(AccountCandidates(config, penv))
  }

  /** Lines 12-29: the region is resolved and checked before the account. */
  function ResolveEnv(config: Config.Config, penv: ProcessEnv): (r: Result<Stack.Env, SynthError>)
    ensures r.Success? ==> r.value.account != "" && r.value.region != ""
  {
    var region := ResolveRegion(config, penv);
    if region == "" then Failure(RegionMissing)
    else
      var account := ResolveAccount(config, penv);
      if account == "" then Failure(AccountMissing)
      else Success(Stack.Env(account, region))
  }

  const PipelineStackRecord: Record := Cdk.Stack(["PipelineStack"], None, None)

  /** The whole program: a fresh app, the pipeline stack, the environment
      checks, then the SageMaker stack. */
  method Synthesize(config: Config.Config, penv: ProcessEnv, inputs: Stack.Inputs, defaultKeyPolicy: Kms.PolicyObject)
    returns (synth: Synth, r: Result<Stack.SagemakerInfraStack, SynthError>)
    requires DollarFree(ResolveRegion(config, penv)) && DollarFree(ResolveAccount(config, penv))
    requires DollarFree(config.pipelineRoleName)
    requires config.defaultKeyAdmins != null ==> AllDollarFree(config.defaultKeyAdmins.items)
    modifies defaultKeyPolicy, config.defaultKeyAdmins
    ensures fresh(synth) && synth.Valid()
    ensures |synth.records| >= 1 && synth.records[0] == PipelineStackRecord
    ensures ResolveEnv(config, penv).Failure? ==>
              r == Failure(ResolveEnv(config, penv).error) && synth.records == [PipelineStackRecord]
    ensures ResolveEnv(config, penv).Success? ==>
              var env := ResolveEnv(config, penv).value;
              |synth.records| >= 2 &&
              synth.records[1] == Cdk.Stack(["SagemakerImageStack"], Some(env.account), Some(env.region)) &&
              (r.Failure? ==> r.error.UndefinedCustomImage?) &&
              (r.Success? ==> r.value.path == ["SagemakerImageStack"])
  {
    synth := new Synth();
    var pipeline := synth.Add(PipelineStackRecord);
    var env := ResolveEnv(config, penv);
    if env.Failure? {
      return synth, Failure(env.error);
    }
    ghost var first := synth.records;
    r := Stack.NewSagemakerInfraStack(synth, [], "SagemakerImageStack", env.value, config, inputs, defaultKeyPolicy);
    assert synth.records[0] == first[0];
  }

  // ---------------------------------------------------------------------
  // Properties

  /** The fallback chain yields the first truthy candidate, and the empty
      string exactly when there is none. */
  lemma {:induction false} FirstTruthySpec(xs: seq<Option<string>>)
    ensures FirstTruthy(xs) == "" <==> forall i :: 0 <= i < |xs| ==> !Truthy(xs[i])
    ensures FirstTruthy(xs) != "" ==>
              exists i :: 0 <= i < |xs| && Truthy(xs[i]) && FirstTruthy(xs) == xs[i].value &&
                          forall j :: 0 <= j < i ==> !Truthy(xs[j])
    decreases |xs|
  {
    if |xs| > 0 && !Truthy(xs[0]) {
      FirstTruthySpec(xs[1..]);
      forall i | 1 <= i < |xs| ensures xs[i] == xs[1..][i - 1] { }
      if FirstTruthy(xs) != "" {
        var i :| 0 <= i < |xs[1..]| && Truthy(xs[1..][i]) && FirstTruthy(xs[1..]) == xs[1..][i].value &&
                 forall j :: 0 <= j < i ==> !Truthy(xs[1..][j]);
        assert forall j :: 0 <= j < i + 1 ==> !Truthy(xs[j]) by {
          forall j | 0 <= j < i + 1 ensures !Truthy(xs[j]) {
            if j > 0 {
              assert xs[j] == xs[1..][j - 1];
            }
          }
        }
        assert Truthy(xs[i + 1]) && FirstTruthy(xs) == xs[i + 1].value;
      }
    }
  }

  /** A configured region wins over the environment, and `AWS_REGION` over
      `AWS_DEFAULT_REGION`; likewise the configured account over
      `AWS_DEFAULT_ACCOUNT`, and that over `AWS_ACCOUNT`. */
  lemma ResolutionOrder(config: Config.Config, penv: ProcessEnv)
    ensures Truthy(config.region) ==> ResolveRegion(config, penv) == config.region.value
    ensures !Truthy(config.region) && Truthy(penv.awsRegion) ==> ResolveRegion(config, penv) == penv.awsRegion.value
    ensures !Truthy(config.region) && !Truthy(penv.awsRegion) ==>
              ResolveRegion(config, penv) == (if Truthy(penv.awsDefaultRegion) then penv.awsDefaultRegion.value else "")
    ensures Truthy(config.accountId) ==> ResolveAccount(config, penv) == config.accountId.value
    ensures !Truthy(config.accountId) && Truthy(penv.awsDefaultAccount) ==>
              ResolveAccount(config, penv) == penv.awsDefaultAccount.value
    ensures !Truthy(config.accountId) && !Truthy(penv.awsDefaultAccount) ==>
              ResolveAccount(config, penv) == (if Truthy(penv.awsAccount) then penv.awsAccount.value else "")
  {
    FirstOfThree(config.region, penv.awsRegion, penv.awsDefaultRegion);
    FirstOfThree(config.accountId, penv.awsDefaultAccount, penv.awsAccount);
  }

  /** `a || b || c || ""` spelled out. */
  lemma FirstOfThree(a: Option<string>, b: Option<string>, c: Option<string>)
    ensures FirstTruthy([a, b, c]) ==
            if Truthy(a) then a.value else if Truthy(b) then b.value else if Truthy(c) then c.value else ""
  {
    assert [a, b, c][1..] == [b, c] && [b, c][1..] == [c] && [c][1..] == [];
    assert FirstTruthy([c]) == if Truthy(c) then c.value else "";
    assert FirstTruthy([b, c]) == if Truthy(b) then b.value else FirstTruthy([c]);
  }

  /** An empty region fails with the region error whatever the account; the
      account error comes only once a region is found; with both, the stack's
      environment is exactly the resolved account and region. */
  lemma ResolveEnvOutcome(config: Config.Config, penv: ProcessEnv)
    ensures ResolveEnv(config, penv) == Failure(RegionMissing) <==> ResolveRegion(config, penv) == ""
    ensures ResolveEnv(config, penv) == Failure(AccountMissing) <==>
              ResolveRegion(config, penv) != "" && ResolveAccount(config, penv) == ""
    ensures ResolveEnv(config, penv).Success? <==>
              ResolveRegion(config, penv) != "" && ResolveAccount(config, penv) != ""
    ensures ResolveEnv(config, penv).Success? ==>
              ResolveEnv(config, penv).value == Stack.Env(ResolveAccount(config, penv), ResolveRegion(config, penv))
  {
  }
}
