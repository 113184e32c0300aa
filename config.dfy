/**
 * The shape of the loaded configuration file. Every optional key can be
 * missing, since the file is parsed JSON; `defaultKeyAdmins` is an array
 * object that the KMS construct may extend in place, so it is a class.
 */
module Config {
  import opened Wrappers

  /** A JavaScript array of strings, shared by reference. */
  class StringArray {
    var items: seq<string>

    constructor (items: seq<string>)
      ensures this.items == items
    {
      this.items := items;
    }

    /** `xs.push(x)`. */
    method Push(x: string)
      modifies this
      ensures items == old(items) + [x]
    {
      items := items + [x];
    }
  }

  datatype VpcConfig = VpcConfig(
    vpcCIDR: Option<string>,
    subnetSize: Option<nat>,
    privateSubnets: Option<nat>,
    publicSubnets: Option<nat>)

  datatype ImageConfig = ImageConfig(repositoryName: string, tags: seq<string>)

  datatype DomainConfig = DomainConfig(
    domainName: string,
    users: Option<seq<string>>,
    defaultExecutionPolicyLocation: Option<string>,
    defaultJupyterLabInstanceType: Option<string>,
    allowedInstanceTypes: Option<seq<string>>,
    customImages: Option<seq<string>>,
    authMode: Option<string>,
    appNetworkAccessType: Option<string>)

  datatype SagemakerConfig = SagemakerConfig(
    domains: Option<seq<DomainConfig>>,
    images: Option<seq<ImageConfig>>)

  datatype Config = Config(
    vpcConfig: Option<VpcConfig>,
    region: Option<string>,
    accountId: Option<string>,
    sagemakerConfig: SagemakerConfig,
    environment: string,
    pipelineRoleName: string,
    defaultKeyAdmins: StringArray?)
}
