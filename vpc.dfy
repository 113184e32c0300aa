/**
 * The platform VPC construct. It looks up an existing VPC, or creates one
 * together with a flow-log role and a generated subnet layout. Either way it
 * exposes duplicate-free lists of subnet IDs that combine the subnets the VPC
 * itself reports with the IDs the caller supplies.
 */
module Vpc {
  import opened Wrappers
  import opened Text
  import opened Tokens
  import opened Iam
  import opened Cdk

  datatype VpcProps = VpcProps(
    cidr: Option<string>,
    privateSubnets: Option<nat>,
    publicSubnets: Option<nat>,
    subnetSize: Option<nat>,
    accountId: string,
    region: string,
    vpcId: Option<string>,
    publicSubnetIDs: Option<seq<Token>>,
    privateSubnetIDs: Option<seq<Token>>,
    isolatedSubnetIDs: Option<seq<Token>>,
    vpcName: Option<string>)

  /** What an `IVpc` reports about itself: its ID, its ARN and the IDs of its
      public and its private subnets. For a looked-up VPC this comes from the
      lookup context. */
  datatype VpcView = VpcView(vpcId: Token, vpcArn: Token, publicSubnets: seq<Token>, privateSubnets: seq<Token>)

  datatype PlatformVpc = PlatformVpc(
    path: Path,
    node: Handle,
    vpc: Handle,
    id: Token,
    arn: Token,
    subnetIds: seq<Token>,
    publicSubnetIds: seq<Token>,
    privateSubnetIds: seq<Token>,
    isolatedSubnetIds: seq<Token>)

  const DefaultCidr: string := "10.0.0.0/16"
  const DefaultSubnetCount: nat := 2
  const DefaultSubnetSize: nat := 24
  const DefaultVpcName: string := "ResearchPlatformVpc"
  const MaxAzs: nat := 2
  const NatGateways: nat := 1

  /** `n || d` on an optional number: a missing value and 0 both give `d`. */
  function NumberOr(n: Option<nat>, d: nat): nat {
    if n.Some? && n.value != 0 then n.value else d
  }

  /** Lines 180-186: any `vpcId` other than the empty string, a missing one
      included, takes the lookup path. */
  predicate Imports(props: VpcProps) {
    props.vpcId != Some("")
  }

  function PrivateSubnet(size: nat, i: nat): SubnetConfiguration {
    SubnetConfiguration(size, "private" + NatToString(i + 1), PrivateWithEgress, None)
  }

  function PublicSubnet(size: nat, i: nat): SubnetConfiguration {
    SubnetConfiguration(size, "public" + NatToString(i + 1), Public, Some(false))
  }

  /** `private1` to `private<n>`. */
  function PrivateGroups(size: nat, n: nat): seq<SubnetConfiguration> {
    if n == 0 then [] else PrivateGroups(size, n - 1) + [PrivateSubnet(size, n - 1)]
  }

  /** `public1` to `public<n>`. */
  function PublicGroups(size: nat, n: nat): seq<SubnetConfiguration> {
    if n == 0 then [] else PublicGroups(size, n - 1) + [PublicSubnet(size, n - 1)]
  }

  /** The subnet configuration list: the private groups, then the public ones. */
  function SubnetLayout(privateCount: nat, publicCount: nat, size: nat): seq<SubnetConfiguration> {
    PrivateGroups(size, privateCount) + PublicGroups(size, publicCount)
  }

  /** The layout after the `||` defaults. */
  function ResolvedLayout(props: VpcProps): seq<SubnetConfiguration> {
    SubnetLayout(NumberOr(props.privateSubnets, DefaultSubnetCount), NumberOr(props.publicSubnets, DefaultSubnetCount),
                 NumberOr(props.subnetSize, DefaultSubnetSize))
  }

  /** The flow-log policy: every `${accountId}` replaced, then every `${region}`. */
  function FlowLogsDocument(flowLogsPolicy: PolicyJson, accountId: string, region: string): PolicyJson
    requires DollarFree(accountId) && DollarFree(region)
  {
    Hydrate(Hydrate(flowLogsPolicy, "${accountId}", accountId), "${region}", region)
  }

  /** The records the constructor appends, the first at position `base`. */
  function VpcRecords(base: nat, path: Path, props: VpcProps, flowLogsPolicy: PolicyJson): seq<Record>
    requires DollarFree(props.accountId) && DollarFree(props.region)
  {
    if Imports(props) then
      [Construct(path, "PlatformVpc"), LookedUpVpc(path + ["PlatformVpc"], props.vpcId)]
    else
      [Construct(path, "PlatformVpc"),
       ManagedPolicy(path + ["SagemakerUserExecutionPolicy"], Some("flow-logs-policy"), "Execution policy for vpc flow logs",
                     JsonDocument(FlowLogsDocument(flowLogsPolicy, props.accountId, props.region)), [], []),
       Role(path + ["VPCFlowLogsRole"], Some("vpc-flow-logs-role"), "Role for managing vpc flow logs",
            [ServicePrincipal("vpc-flow-logs.amazonaws.com")], [LocalPolicy(base + 1)], []),
       Vpc(path + ["PlatformVpc"], OrElse(props.vpcName, DefaultVpcName), OrElse(props.cidr, DefaultCidr),
           ResolvedLayout(props), MaxAzs, NatGateways)]
  }

  /** The position of the `IVpc` record among them. */
  function VpcHandle(base: nat, props: VpcProps): Handle {
    if Imports(props) then base + 1 else base + 3
  }

  /** The subnet IDs a created VPC reports for the groups of type `t`: one
      subnet per group and availability zone, named as the VPC construct
      names them (`<group>Subnet<zone number>`). */
  function CreatedSubnetIds(vpc: Handle, layout: seq<SubnetConfiguration>, t: SubnetType, zones: nat): seq<Token>
    decreases |layout|
  {
    if layout == [] then []
    else
      (if layout[0].subnetType == t then ZoneSubnetIds(vpc, layout[0].name, zones) else [])
      + CreatedSubnetIds(vpc, layout[1..], t, zones)
  }

  /** The subnets of one group, in the first `zones` zones. */
  function ZoneSubnetIds(vpc: Handle, group: string, zones: nat): seq<Token> {
    if zones == 0 then []
    else ZoneSubnetIds(vpc, group, zones - 1) + [Attr(vpc, group + "Subnet" + NatToString(zones) + ".SubnetId")]
  }

  /** What the VPC reports: the lookup's answer, or the created VPC's own
      attributes over at most `MaxAzs` of the region's `zones` zones. */
  function ViewOf(props: VpcProps, vpc: Handle, found: VpcView, zones: nat): VpcView {
    if Imports(props) then found
    else
      var azs := if zones < MaxAzs then zones else MaxAzs;
      VpcView(Attr(vpc, "VpcId"), Attr(vpc, "VpcArn"),
              CreatedSubnetIds(vpc, ResolvedLayout(props), Public, azs),
              CreatedSubnetIds(vpc, ResolvedLayout(props), PrivateWithEgress, azs))
  }

  /** `[...new Set([...reported, ...(supplied || [])])]`. */
  function SubnetUnion(reported: seq<Token>, supplied: Option<seq<Token>>): seq<Token> {
    Dedup(reported + supplied.GetOr([]))
  }

  function PublicIds(view: VpcView, props: VpcProps): seq<Token> {
    SubnetUnion(view.publicSubnets, props.publicSubnetIDs)
  }

  function PrivateIds(view: VpcView, props: VpcProps): seq<Token> {
    SubnetUnion(view.privateSubnets, props.privateSubnetIDs)
  }

  /** Built from the reported *private* subnets and the supplied isolated IDs. */
  function IsolatedIds(view: VpcView, props: VpcProps): seq<Token> {
    SubnetUnion(view.privateSubnets, props.isolatedSubnetIDs)
  }

  function AllIds(view: VpcView, props: VpcProps): seq<Token> {
    Dedup(PublicIds(view, props) + PrivateIds(view, props) + IsolatedIds(view, props))
  }

  // ---------------------------------------------------------------------
  // The construct

  /** Lines 217-230: the two loops that build the subnet configuration list. */
  method SubnetConfigurations(privateCount: nat, publicCount: nat, size: nat) returns (subnets: seq<SubnetConfiguration>)
    ensures subnets == SubnetLayout(privateCount, publicCount, size)
  {
    subnets := [];
    var i := 0;
    while i < privateCount
      invariant 0 <= i <= privateCount
      invariant subnets == PrivateGroups(size, i)
    {
      subnets := subnets + [PrivateSubnet(size, i)];
      i := i + 1;
    }
    ghost var privatePart := subnets;
    assert subnets + [] == subnets;
    i := 0;
    while i < publicCount
      invariant 0 <= i <= publicCount
      invariant subnets == privatePart + PublicGroups(size, i)
    {
      subnets := subnets + [PublicSubnet(size, i)];
      i := i + 1;
    }
  }

  /** The construct `new PlatformVpc` exposes when its node is record `base`. */
  function PlatformVpcValue(base: nat, path: Path, props: VpcProps, found: VpcView, zones: nat): PlatformVpc {
    var view := ViewOf(props, VpcHandle(base, props), found, zones);
    PlatformVpc(path, base, VpcHandle(base, props), view.vpcId, view.vpcArn, AllIds(view, props),
                PublicIds(view, props), PrivateIds(view, props), IsolatedIds(view, props))
  }

  /** `new PlatformVpc(scope, id, props)`, given the flow-log policy file, the
      lookup's answer for an imported VPC and the number of zones of the region. */
  method NewPlatformVpc(synth: Synth, scope: Path, id: string, props: VpcProps, flowLogsPolicy: PolicyJson,
                        found: VpcView, zones: nat) returns (v: PlatformVpc)
    requires synth.Valid() && DollarFree(props.accountId) && DollarFree(props.region)
    modifies synth
    ensures synth.Valid() && synth.deps == old(synth.deps)
    ensures synth.records == old(synth.records) + VpcRecords(|old(synth.records)|, scope + [id], props, flowLogsPolicy)
    ensures var base := |old(synth.records)|;
            var view := ViewOf(props, VpcHandle(base, props), found, zones);
            v == PlatformVpc(scope + [id], base, VpcHandle(base, props), view.vpcId, view.vpcArn, AllIds(view, props),
                             PublicIds(view, props), PrivateIds(view, props), IsolatedIds(view, props))
  {
    ghost var records0 := synth.records;
    var path := scope + [id];
    var node := synth.Add(Construct(path, "PlatformVpc"));
    var vpc: Handle;
    var view: VpcView;
    if props.vpcId != Some("") {
      vpc := synth.Add(LookedUpVpc(path + ["PlatformVpc"], props.vpcId));
      view := found;
    } else {
      vpc := CreateVpc(synth, path, props, flowLogsPolicy);
      view := ViewOf(props, vpc, found, zones);
    }
    assert synth.records == records0 + VpcRecords(|records0|, path, props, flowLogsPolicy);
    var publicSubnetIds := SubnetUnion(view.publicSubnets, props.publicSubnetIDs);
    var privateSubnetIds := SubnetUnion(view.privateSubnets, props.privateSubnetIDs);
    var isolatedSubnetIds := SubnetUnion(view.privateSubnets, props.isolatedSubnetIDs);
    v := PlatformVpc(path, node, vpc, view.vpcId, view.vpcArn,
                     Dedup(publicSubnetIds + privateSubnetIds + isolatedSubnetIds),
                     publicSubnetIds, privateSubnetIds, isolatedSubnetIds);
  }

  /** Lines 192-241: the create path, after the construct's own node. */
  method CreateVpc(synth: Synth, path: Path, props: VpcProps, flowLogsPolicy: PolicyJson) returns (vpc: Handle)
    requires synth.Valid() && DollarFree(props.accountId) && DollarFree(props.region) && !Imports(props)
    requires |synth.records| > 0
    modifies synth
    ensures synth.Valid() && synth.deps == old(synth.deps)
    ensures vpc == |old(synth.records)| + 2
    ensures synth.records == old(synth.records) + VpcRecords(|old(synth.records)| - 1, path, props, flowLogsPolicy)[1..]
  {
    var document := FlowLogsDocument(flowLogsPolicy, props.accountId, props.region);
    var policy := synth.Add(ManagedPolicy(path + ["SagemakerUserExecutionPolicy"], Some("flow-logs-policy"),
                                          "Execution policy for vpc flow logs", JsonDocument(document), [], []));
    var role := synth.Add(Role(path + ["VPCFlowLogsRole"], Some("vpc-flow-logs-role"), "Role for managing vpc flow logs",
                               [ServicePrincipal("vpc-flow-logs.amazonaws.com")], [LocalPolicy(policy)], []));
    var cidr := OrElse(props.cidr, DefaultCidr);
    var privateSubnets := NumberOr(props.privateSubnets, DefaultSubnetCount);
    var publicSubnets := NumberOr(props.publicSubnets, DefaultSubnetCount);
    var subnetSize := NumberOr(props.subnetSize, DefaultSubnetSize);
    var subnets := SubnetConfigurations(privateSubnets, publicSubnets, subnetSize);
    vpc := synth.Add(Vpc(path + ["PlatformVpc"], OrElse(props.vpcName, DefaultVpcName), cidr, subnets, MaxAzs, NatGateways));
  }

  // ---------------------------------------------------------------------
  // Properties

  /** The import path only adds the lookup; the create path adds the flow-log
      policy, the role that uses it and a VPC over two zones with one NAT gateway. */
  lemma VpcRecordsShape(base: nat, path: Path, props: VpcProps, flowLogsPolicy: PolicyJson)
    requires DollarFree(props.accountId) && DollarFree(props.region)
    ensures var rs := VpcRecords(base, path, props, flowLogsPolicy);
            rs[0] == Construct(path, "PlatformVpc") &&
            (Imports(props) <==> |rs| == 2) &&
            (Imports(props) ==> forall i :: 0 <= i < |rs| ==> !rs[i].Role? && !rs[i].ManagedPolicy?) &&
            (!Imports(props) ==>
               rs[2].trust == [ServicePrincipal("vpc-flow-logs.amazonaws.com")] &&
               rs[2].managedPolicies == [LocalPolicy(base + 1)] && rs[1].ManagedPolicy? &&
               rs[3].maxAzs == 2 && rs[3].natGateways == 1 &&
               rs[3].vpcName == (if Truthy(props.vpcName) then props.vpcName.value else "ResearchPlatformVpc") &&
               rs[3].cidr == (if Truthy(props.cidr) then props.cidr.value else "10.0.0.0/16"))
  {
  }

  lemma {:induction false} PrivateGroupsAt(size: nat, n: nat)
    ensures |PrivateGroups(size, n)| == n
    ensures forall i :: 0 <= i < n ==> PrivateGroups(size, n)[i] == PrivateSubnet(size, i)
  {
    if n > 0 {
      PrivateGroupsAt(size, n - 1);
    }
  }

  lemma {:induction false} PublicGroupsAt(size: nat, n: nat)
    ensures |PublicGroups(size, n)| == n
    ensures forall i :: 0 <= i < n ==> PublicGroups(size, n)[i] == PublicSubnet(size, i)
  {
    if n > 0 {
      PublicGroupsAt(size, n - 1);
    }
  }

  /** Every configuration of the layout has the subnet size as its mask, the
      private groups come first and the public ones do not map public IPs. */
  lemma {:induction false} SubnetLayoutShape(privateCount: nat, publicCount: nat, size: nat)
    ensures var l := SubnetLayout(privateCount, publicCount, size);
            |l| == privateCount + publicCount &&
            (forall i :: 0 <= i < |l| ==> l[i].cidrMask == size) &&
            (forall i :: 0 <= i < privateCount ==>
               l[i].subnetType == PrivateWithEgress && l[i].name == "private" + NatToString(i + 1) &&
               l[i].mapPublicIpOnLaunch.None?) &&
            (forall i :: privateCount <= i < |l| ==>
               l[i].subnetType == Public && l[i].name == "public" + NatToString(i - privateCount + 1) &&
               l[i].mapPublicIpOnLaunch == Some(false))
  {
    PrivateGroupsAt(size, privateCount);
    PublicGroupsAt(size, publicCount);
  }

  /** An explicit 0 counts as missing, so a created VPC always has at least
      one private and one public group. */
  lemma ResolvedLayoutHasBothKinds(props: VpcProps)
    ensures var l := ResolvedLayout(props);
            |l| >= 2 && l[0].subnetType == PrivateWithEgress && l[|l| - 1].subnetType == Public
    ensures props.privateSubnets == Some(0) ==> ResolvedLayout(props) == ResolvedLayout(props.(privateSubnets := None))
    ensures props.publicSubnets == Some(0) ==> ResolvedLayout(props) == ResolvedLayout(props.(publicSubnets := None))
    ensures props.subnetSize == Some(0) ==> ResolvedLayout(props) == ResolvedLayout(props.(subnetSize := None))
  {
    SubnetLayoutShape(NumberOr(props.privateSubnets, DefaultSubnetCount), NumberOr(props.publicSubnets, DefaultSubnetCount),
                      NumberOr(props.subnetSize, DefaultSubnetSize));
  }

  /** No two configurations of a layout share a name. */
  lemma SubnetNamesDistinct(privateCount: nat, publicCount: nat, size: nat, i: nat, j: nat)
    requires i < j < |SubnetLayout(privateCount, publicCount, size)|
    ensures SubnetLayout(privateCount, publicCount, size)[i].name != SubnetLayout(privateCount, publicCount, size)[j].name
  {
    var l := SubnetLayout(privateCount, publicCount, size);
    SubnetLayoutShape(privateCount, publicCount, size);
    if j < privateCount {
      if l[i].name == l[j].name {
        assert NatToString(i + 1) == l[i].name[7..] == l[j].name[7..] == NatToString(j + 1);
        NatToStringInjective(i + 1, j + 1);
      }
    } else if privateCount <= i {
      if l[i].name == l[j].name {
        assert NatToString(i - privateCount + 1) == l[i].name[6..] == l[j].name[6..] == NatToString(j - privateCount + 1);
        NatToStringInjective(i - privateCount + 1, j - privateCount + 1);
      }
    } else {
      assert l[i].name[1] == 'r' && l[j].name[1] == 'u';
    }
  }

  /** A subnet-ID union has no duplicates, holds every reported and every
      supplied ID and nothing else, and begins with the reported IDs. */
  lemma SubnetUnionSpec(reported: seq<Token>, supplied: Option<seq<Token>>)
    ensures var r := SubnetUnion(reported, supplied);
            NoDup(r) &&
            (forall x :: x in reported ==> x in r) &&
            (forall x :: x in supplied.GetOr([]) ==> x in r) &&
            (forall x :: x in r ==> x in reported || x in supplied.GetOr([])) &&
            Dedup(reported) <= r
  {
    var s := reported + supplied.GetOr([]);
    var r := Dedup(s);
    forall x | x in reported ensures x in r {
      var i :| 0 <= i < |reported| && reported[i] == x;
      assert s[i] == x;
    }
    forall x | x in supplied.GetOr([]) ensures x in r {
      var i :| 0 <= i < |supplied.GetOr([])| && supplied.GetOr([])[i] == x;
      assert s[|reported| + i] == x;
    }
    forall x | x in r ensures x in reported || x in supplied.GetOr([]) {
      var i :| 0 <= i < |r| && r[i] == x;
      assert x in s;
    }
    DedupPrefix(reported, supplied.GetOr([]));
  }

  /** The IDs of a union appear in the order of their first occurrence in
      the reported IDs followed by the supplied ones. */
  lemma SubnetUnionOrder(reported: seq<Token>, supplied: Option<seq<Token>>, i: nat, j: nat)
    requires i < j < |SubnetUnion(reported, supplied)|
    ensures var s := reported + supplied.GetOr([]);
            var r := SubnetUnion(reported, supplied);
            FirstIndex(s, r[i]) < FirstIndex(s, r[j])
  {
    DedupOrder(reported + supplied.GetOr([]), i, j);
  }

  /** The isolated IDs hold every private subnet the VPC reports. */
  lemma IsolatedIdsHoldReportedPrivate(view: VpcView, props: VpcProps)
    ensures forall x :: x in view.privateSubnets ==> x in IsolatedIds(view, props)
    ensures forall x :: x in IsolatedIds(view, props) ==> x in view.privateSubnets || x in props.isolatedSubnetIDs.GetOr([])
  {
    SubnetUnionSpec(view.privateSubnets, props.isolatedSubnetIDs);
  }

  /** All subnet IDs: duplicate free, a superset of the public, private and
      isolated lists, and nothing beyond them. */
  lemma AllIdsSpec(view: VpcView, props: VpcProps)
    ensures NoDup(AllIds(view, props))
    ensures forall x :: x in PublicIds(view, props) || x in PrivateIds(view, props) || x in IsolatedIds(view, props)
                        <==> x in AllIds(view, props)
  {
    var a, b, c := PublicIds(view, props), PrivateIds(view, props), IsolatedIds(view, props);
    var s := a + b + c;
    var r := Dedup(s);
    forall x ensures x in a || x in b || x in c <==> x in r {
      if x in r {
        var i :| 0 <= i < |r| && r[i] == x;
        assert x in s;
      }
      if x in a || x in b || x in c {
        assert x in s;
        var i :| 0 <= i < |s| && s[i] == x;
      }
    }
  }
}
