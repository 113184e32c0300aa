/**
 * The custom image construct: a SageMaker image over an ECR kernel image, one
 * image version built from the source revision, and the app image config that
 * domains reference by name.
 */
module Images {
  import opened Wrappers
  import opened Text
  import opened Tokens
  import opened Cdk
  import ExecutionRole

  datatype SagemakerImagesProps = SagemakerImagesProps(
    region: string,
    accountId: string,
    repositoryName: string,
    tag: Option<string>,
    imageName: Option<string>,
    imageRole: ExecutionRole.SagemakerRole)

  datatype SagemakerCustomImage = SagemakerCustomImage(
    path: Path,
    node: Handle,
    kernelArn: string,
    imageName: string,
    image: Handle,
    imageVersion: Handle,
    imageConfig: Handle)

  /** The ECR URI of the kernel image; a missing tag prints as `undefined`. */
  function KernelArn(accountId: string, region: string, repositoryName: string, tag: Option<string>): string {
    accountId + ".dkr.ecr." + region + ".amazonaws.com/" + repositoryName + ":" + TemplateText(tag)
  }

  /** `props.imageName || \`${repositoryName}-${tag}\``. */
  function ImageName(props: SagemakerImagesProps): string {
    OrElse(props.imageName, props.repositoryName + "-" + TemplateText(props.tag))
  }

  /** `sourceVersion?.substring(0, 7)`. */
  function CommitHash(sourceVersion: Option<string>): Option<string> {
    match sourceVersion
    case None => None
    case Some(v) => Some(if |v| <= 7 then v else v[..7])
  }

  /** The records the constructor appends, the first at position `base`. */
  function ImageRecords(path: Path, props: SagemakerImagesProps, sourceVersion: Option<string>): seq<Record> {
    var name := ImageName(props);
    [Construct(path, "SagemakerCustomImage"),
     Image(path + ["CustomImage"], name, props.imageRole.roleArn, props.tag),
     ImageVersion(path + ["CustomImageVersion-" + TemplateText(CommitHash(sourceVersion))],
                  KernelArn(props.accountId, props.region, props.repositoryName, props.tag), name),
     AppImageConfig(path + ["CustomImageConfig"], name)]
  }

  /** `new SagemakerCustomImage(scope, id, props)`, given the build's source
      revision (`CODEBUILD_RESOLVED_SOURCE_VERSION`). */
  method NewSagemakerCustomImage(synth: Synth, scope: Path, id: string, props: SagemakerImagesProps,
                                 sourceVersion: Option<string>) returns (img: SagemakerCustomImage)
    requires synth.Valid()
    modifies synth
    ensures synth.Valid()
    ensures var base := |old(synth.records)|;
            synth.records == old(synth.records) + ImageRecords(scope + [id], props, sourceVersion) &&
            synth.deps == old(synth.deps) + [Edge(base + 2, base + 1)] &&
            img == SagemakerCustomImage(scope + [id], base, KernelArn(props.accountId, props.region, props.repositoryName, props.tag),
                                        ImageName(props), base + 1, base + 2, base + 3)
    ensures ImageIn(synth, img)
  {
    var path := scope + [id];
    var hash := CommitHash(sourceVersion);
    var kernelArn := props.accountId + ".dkr.ecr." + props.region + ".amazonaws.com/" + props.repositoryName + ":" +
                     TemplateText(props.tag);
    var imageName := OrElse(props.imageName, props.repositoryName + "-" + TemplateText(props.tag));
    var node := synth.Add(Construct(path, "SagemakerCustomImage"));
    var image := synth.Add(Image(path + ["CustomImage"], imageName, props.imageRole.roleArn, props.tag));
    var version := synth.Add(ImageVersion(path + ["CustomImageVersion-" + TemplateText(hash)], kernelArn, imageName));
    synth.AddDependency(version, image);
    var config := synth.Add(AppImageConfig(path + ["CustomImageConfig"], imageName));
    img := SagemakerCustomImage(path, node, kernelArn, imageName, image, version, config);
  }

  /** The image config of a custom image, as a domain reads it. */
  predicate ImageIn(synth: Synth, img: SagemakerCustomImage)
    reads synth
  {
    img.imageConfig < |synth.records| && synth.records[img.imageConfig].AppImageConfig?
  }

  // ---------------------------------------------------------------------
  // Properties

  /** The image, its version and its config all carry the one image name;
      the image shows the tag and runs as the image role; the version is
      built from the kernel image. */
  lemma ImageRecordsAgree(path: Path, props: SagemakerImagesProps, sourceVersion: Option<string>)
    ensures var rs := ImageRecords(path, props, sourceVersion);
            |rs| == 4 &&
            rs[1].imageName == rs[2].versionImageName == rs[3].appImageConfigName == ImageName(props) &&
            rs[1].displayName == props.tag && rs[1].imageRoleArn == props.imageRole.roleArn &&
            rs[2].baseImage == KernelArn(props.accountId, props.region, props.repositoryName, props.tag)
  {
  }

  /** The image name is the caller's when truthy, and the repository and tag
      joined by `-` otherwise. */
  lemma ImageNameDefault(props: SagemakerImagesProps)
    ensures Truthy(props.imageName) ==> ImageName(props) == props.imageName.value
    ensures !Truthy(props.imageName) && props.tag.Some? ==>
            ImageName(props) == props.repositoryName + "-" + props.tag.value
  {
  }

  /** The kernel image URI ends with `:` and the tag, so different tags of one
      repository give different URIs. */
  lemma KernelArnTag(accountId: string, region: string, repositoryName: string, t1: string, t2: string)
    requires KernelArn(accountId, region, repositoryName, Some(t1)) == KernelArn(accountId, region, repositoryName, Some(t2))
    ensures t1 == t2
  {
    var prefix := accountId + ".dkr.ecr." + region + ".amazonaws.com/" + repositoryName + ":";
    assert KernelArn(accountId, region, repositoryName, Some(t1)) == prefix + t1;
    assert KernelArn(accountId, region, repositoryName, Some(t2)) == prefix + t2;
    assert t1 == (prefix + t1)[|prefix|..];
    assert t2 == (prefix + t2)[|prefix|..];
  }

  /** The commit hash is the revision's first seven characters, or all of it
      when shorter. */
  lemma CommitHashPrefix(sourceVersion: string)
    ensures var h := CommitHash(Some(sourceVersion)).value;
            |h| == (if |sourceVersion| < 7 then |sourceVersion| else 7) && h <= sourceVersion
  {
  }
}
