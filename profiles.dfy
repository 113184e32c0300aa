/**
 * User profiles of a SageMaker domain: how a user name becomes a profile
 * name and a construct id, the default image ARNs of the region, and the
 * stand-alone `setUpUser` helper.
 */
module Profiles {
  import opened Wrappers
  import opened Text
  import opened Tokens
  import opened Cdk

  /** The account that publishes SageMaker's own images, by region. */
  const RegionAccounts: map<string, string> := map[
    "us-east-1" := "081325390199",
    "us-east-2" := "429704687514",
    "us-west-1" := "742091327244",
    "us-west-2" := "236514542706",
    "af-south-1" := "559312083959",
    "ap-east-1" := "493642496378",
    "ap-south-1" := "394103062818",
    "ap-northeast-2" := "806072073708",
    "ap-southeast-1" := "492261229750",
    "ap-southeast-2" := "452832661640",
    "ap-northeast-1" := "102112518831",
    "ca-central-1" := "310906938811",
    "eu-central-1" := "936697816551",
    "eu-west-1" := "470317259841",
    "eu-west-2" := "712779665605",
    "eu-west-3" := "615547856133",
    "eu-north-1" := "243637512696",
    "eu-south-1" := "592751261982",
    "sa-east-1" := "782484402741"]

  const DataScienceImage: string := "datascience-1.0"
  const SystemInstance: string := "system"
  const KernelInstance: string := "ml.t3.medium"

  /** The mapped account; a region missing from the table reads `undefined`. */
  function ImageAccount(region: string): string {
    if region in RegionAccounts then RegionAccounts[region] else "undefined"
  }

  function DefaultStudioArn(region: string): string {
    "arn:aws:sagemaker:" + region + ":" + ImageAccount(region) + ":image/jupyter-server-3"
  }

  function DefaultKernelArn(region: string): string {
    "arn:aws:sagemaker:" + region + ":" + ImageAccount(region) + ":image/" + DataScienceImage
  }

  /** Every `.` and then every `_` replaced by `-`. */
  function NormalizeUserName(user: string): string {
    ReplaceAll(ReplaceAll(user, ".", "-"), "_", "-")
  }

  /** `SagemakerUserProfile` followed by the name without its `-`. */
  function ProfileConstructId(userName: string): string {
    "SagemakerUserProfile" + ReplaceAll(userName, "-", "")
  }

  /** The settings of a profile: the server app on the region's default
      server image, the kernel gateway on the data-science image. */
  function ProfileSettings(roleArn: Token, studioArn: string, region: string, jupyterLab: Option<ResourceSpec>): UserSettings {
    UserSettings(roleArn, ResourceSpec(Some(SystemInstance), Some(studioArn)), jupyterLab,
                 ResourceSpec(Some(KernelInstance), Some(DefaultKernelArn(region))))
  }

  // ---------------------------------------------------------------------
  // setUpUser

  datatype SetUpUserProps = SetUpUserProps(
    user: string,
    scope: Path,
    sagemakerDomain: Handle,
    roleArn: Token,
    region: string,
    defaultKernelArn: Option<string>)

  /** The profile record `setUpUser` creates. */
  function SetUpUserRecord(props: SetUpUserProps): Record {
    var userName := NormalizeUserName(props.user);
    UserProfile(props.scope + [ProfileConstructId(userName)], Attr(props.sagemakerDomain, "DomainId"), userName,
                ProfileSettings(props.roleArn, OrElse(props.defaultKernelArn, DefaultStudioArn(props.region)), props.region, None),
                [Tag("ai:cost-allocation:CBWUser", Lit(userName))])
  }

  /** `setUpUser(props)`: one profile, which depends on the domain. */
  method SetUpUser(synth: Synth, props: SetUpUserProps)
    requires synth.Valid() && props.sagemakerDomain < |synth.records|
    modifies synth
    ensures synth.Valid()
    ensures synth.records == old(synth.records) + [SetUpUserRecord(props)]
    ensures synth.deps == old(synth.deps) + [Edge(|old(synth.records)|, props.sagemakerDomain)]
  {
    var studioArn := OrElse(props.defaultKernelArn, DefaultStudioArn(props.region));
    var userName := NormalizeUserName(props.user);
    var profile := synth.Add(UserProfile(props.scope + [ProfileConstructId(userName)], Attr(props.sagemakerDomain, "DomainId"),
                                         userName, ProfileSettings(props.roleArn, studioArn, props.region, None),
                                         [Tag("ai:cost-allocation:CBWUser", Lit(userName))]));
    synth.AddDependency(profile, props.sagemakerDomain);
  }

  // ---------------------------------------------------------------------
  // Properties

  /** Normalising works character by character: `.` and `_` become `-`,
      everything else, upper case included, is kept. */
  lemma NormalizeCharwise(user: string)
    ensures |NormalizeUserName(user)| == |user|
    ensures forall i :: 0 <= i < |user| ==>
              NormalizeUserName(user)[i] == (if user[i] == '.' || user[i] == '_' then '-' else user[i])
  {
    ReplaceCharIsMap(user, '.', '-');
    ReplaceCharIsMap(ReplaceAll(user, ".", "-"), '_', '-');
  }

  lemma NormalizeRemovesDotAndUnderscore(user: string)
    ensures '.' !in NormalizeUserName(user) && '_' !in NormalizeUserName(user)
  {
    NormalizeCharwise(user);
  }

  lemma NormalizeIdempotent(user: string)
    ensures NormalizeUserName(NormalizeUserName(user)) == NormalizeUserName(user)
  {
    NormalizeCharwise(user);
    NormalizeCharwise(NormalizeUserName(user));
  }

  /** The construct id drops every `-` of the name. */
  lemma ProfileIdDropsHyphens(userName: string)
    ensures ProfileConstructId(userName) == "SagemakerUserProfile" + Without(userName, '-')
    ensures '-' !in Without(userName, '-')
  {
    ReplaceCharByEmpty(userName, '-');
    WithoutSpec(userName, '-');
  }

  /** A name without `.` and `_` is already normal. */
  lemma NormalizeKeepsPlainName(s: string)
    requires '.' !in s && '_' !in s
    ensures NormalizeUserName(s) == s
  {
    NormalizeCharwise(s);
  }

  /** Normalising `a.b` gives `a-b` when `a` and `b` are plain. */
  lemma NormalizeDotted(a: string, b: string)
    requires '.' !in a && '_' !in a && '.' !in b && '_' !in b
    ensures NormalizeUserName(a + "." + b) == a + "-" + b
  {
    var s := a + "." + b;
    NormalizeCharwise(s);
    var n := NormalizeUserName(s);
    forall i | 0 <= i < |s|
      ensures n[i] == (a + "-" + b)[i]
    {
      if i < |a| {
        assert s[i] == a[i];
      } else if i > |a| {
        assert s[i] == b[i - |a| - 1];
      }
    }
  }

  /** Two users whose names differ only by a separator get the same
      construct id: `a.b` and `ab`, say. */
  lemma ProfileIdCollision(a: string, b: string)
    requires '.' !in a && '_' !in a && '-' !in a && '.' !in b && '_' !in b && '-' !in b
    ensures ProfileConstructId(NormalizeUserName(a + "." + b)) == ProfileConstructId(NormalizeUserName(a + b))
    ensures NormalizeUserName(a + "." + b) != NormalizeUserName(a + b)
  {
    NormalizeDotted(a, b);
    assert '.' !in a + b && '_' !in a + b;
    NormalizeKeepsPlainName(a + b);
    assert |a + "-" + b| != |a + b|;
    ProfileIdDropsHyphens(a + "-" + b);
    ProfileIdDropsHyphens(a + b);
    HyphenDropped(a, b);
    assert '-' !in a + b;
    WithoutAbsent(a + b, '-');
  }

  lemma HyphenDropped(a: string, b: string)
    requires '-' !in a && '-' !in b
    ensures Without(a + "-" + b, '-') == a + b
  {
    var h: string := "-";
    assert Without(h, '-') == [] by {
      assert h[0] == '-' && h[1..] == [];
    }
    WithoutConcat(a + h, b, '-');
    WithoutConcat(a, h, '-');
    WithoutAbsent(a, '-');
    WithoutAbsent(b, '-');
    assert a + [] == a;
  }

  /** The server image is the caller's ARN when truthy and the region's
      jupyter-server-3 image otherwise; the kernel image is always the
      region's data-science image. */
  lemma SetUpUserImages(props: SetUpUserProps)
    ensures var s := SetUpUserRecord(props).userSettings;
            s.jupyterServer.imageArn == Some(if Truthy(props.defaultKernelArn) then props.defaultKernelArn.value
                                            else DefaultStudioArn(props.region)) &&
            s.kernelGateway == ResourceSpec(Some("ml.t3.medium"), Some(DefaultKernelArn(props.region))) &&
            s.jupyterLab.None?
    ensures SetUpUserRecord(props).profileTags == [Tag("ai:cost-allocation:CBWUser", Lit(NormalizeUserName(props.user)))]
  {
  }

  /** A listed region's default images live in its mapped account; any other
      region's ARNs print `undefined` in the account position. */
  lemma ImageAccountKnown(region: string)
    ensures region in RegionAccounts ==>
              DefaultStudioArn(region) == "arn:aws:sagemaker:" + region + ":" + RegionAccounts[region] + ":image/jupyter-server-3" &&
              DefaultKernelArn(region) == "arn:aws:sagemaker:" + region + ":" + RegionAccounts[region] + ":image/" + "datascience-1.0"
    ensures region !in RegionAccounts ==>
              DefaultStudioArn(region) == "arn:aws:sagemaker:" + region + ":" + "undefined" + ":image/jupyter-server-3" &&
              DefaultKernelArn(region) == "arn:aws:sagemaker:" + region + ":" + "undefined" + ":image/" + "datascience-1.0"
    ensures ImageAccount("us-east-1") == "081325390199" && ImageAccount("us-gov-west-1") == "undefined"
  {
  }
}
