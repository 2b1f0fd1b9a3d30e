/**
 * The dependency resolver: turns a reference such as `stable:installer`,
 * `stable-whoa:really`, `release:latest`, `pipeline:bin` or a bare
 * `thebase` into an (image stream, tag, explicit) triple, honouring an
 * optional cluster-claim override.
 */
module Resolver {
  import opened Wrappers
  import opened Text
  import opened Api

  /** A claimed cluster's release (`releaseName`) standing in for a logical release (`overrideName`). */
  datatype ClaimRelease = ClaimRelease(releaseName: string, overrideName: string)

  datatype Parts = Parts(stream: string, tag: string, explicit: bool)

  predicate IsBaseImage(c: Configuration, name: string) {
    name in c.baseImages || name in c.baseRpmImages
  }

  /** Names the pipeline always knows as its own: root, src, bin, test-bin, rpms. */
  predicate IsKnownPipelineImage(name: string) {
    name == RootTag || name == SourceTag || name == BinariesTag || name == TestBinariesTag || name == RpmsTag
  }

  /** The configuration itself declares `name` as a pipeline image. */
  predicate IsExplicitlyProduced(c: Configuration, name: string) {
    IsBaseImage(c, name) || IsKnownPipelineImage(name) || BuildsImage(c, name)
  }

  /** The stream a bare name lives in, and whether the configuration says so explicitly. */
  function ImageStreamFor(c: Configuration, image: string): (string, bool) {
    if IsExplicitlyProduced(c, image) then (PipelineImageStream, true) else (StableImageStream, false)
  }

  function ReleaseStreamFor(release: string): string {
    StableStreamPrefix + release
  }

  /** `stable` stands for the `latest` release and `stable-<r>` for release `r`; a claim of that release redirects it. */
  function ClaimedStream(stream: string, claim: ClaimRelease): string {
    if stream == StableImageStream then
      if claim.overrideName == LatestReleaseName then ReleaseStreamFor(claim.releaseName) else stream
    else if StableStreamPrefix <= stream then
      if claim.overrideName == stream[|StableStreamPrefix|..] then ReleaseStreamFor(claim.releaseName) else stream
    else stream
  }

  /** `release:<n>` names the payload of release `n`; a claim of `n` substitutes its own payload. */
  function ClaimedTag(stream: string, tag: string, claim: ClaimRelease): string {
    if stream == ReleaseImageStream && tag == claim.overrideName then claim.releaseName else tag
  }

  /** DependencyParts: the stream and tag a dependency names, and whether it names them explicitly. */
  function DependencyParts(c: Configuration, dependency: string, claim: Option<ClaimRelease>): Parts {
    match IndexOf(dependency, ':')
    case None =>
      var (stream, explicit) := ImageStreamFor(c, dependency);
      Parts(stream, dependency, explicit)
    case Some(k) =>
      var stream := dependency[..k];
      var rest := dependency[k + 1..];
      // strings.Split: the tag ends at a second colon, if there is one
      var tag := match IndexOf(rest, ':') case None => rest case Some(k2) => rest[..k2];
      match claim
      case None => Parts(stream, tag, true)
      case Some(cr) => Parts(ClaimedStream(stream, cr), ClaimedTag(stream, tag, cr), true)
  }

  /** The release a (stream, tag) pair belongs to, if it belongs to one. */
  function ReleaseOf(stream: string, tag: string): Option<string> {
    if stream == StableImageStream then Some(LatestReleaseName)
    else if StableStreamPrefix <= stream then Some(stream[|StableStreamPrefix|..])
    else if stream == ReleaseImageStream then Some(tag)
    else None
  }

  /**
   * A bare name resolves to the pipeline stream, explicitly, exactly when the
   * configuration produces it, and otherwise to an implicit guess in the
   * stable stream; the claim plays no part.
   */
  lemma BareReference(c: Configuration, name: string, claim: Option<ClaimRelease>)
    requires ':' !in name
    ensures DependencyParts(c, name, claim)
         == if IsExplicitlyProduced(c, name) then Parts(PipelineImageStream, name, true)
            else Parts(StableImageStream, name, false)
  {
  }

  /** Splitting `<stream>:<tag>` gives back the stream and tag it was written from. */
  lemma PrefixedReference(c: Configuration, stream: string, tag: string)
    requires ':' !in stream && ':' !in tag
    ensures DependencyParts(c, stream + ":" + tag, None) == Parts(stream, tag, true)
  {
    var d := stream + ":" + tag;
    FirstColonAt(stream, tag);
    assert d[..|stream|] == stream && d[|stream| + 1..] == tag;
  }

  /** With a claim, the split stream and tag pass through the claim's redirection. */
  lemma PrefixedClaimedReference(c: Configuration, stream: string, tag: string, claim: ClaimRelease)
    requires ':' !in stream && ':' !in tag
    ensures DependencyParts(c, stream + ":" + tag, Some(claim))
         == Parts(ClaimedStream(stream, claim), ClaimedTag(stream, tag, claim), true)
  {
    var d := stream + ":" + tag;
    FirstColonAt(stream, tag);
    assert d[..|stream|] == stream && d[|stream| + 1..] == tag;
  }

  lemma FirstColonAt(stream: string, tag: string)
    requires ':' !in stream
    ensures IndexOf(stream + ":" + tag, ':') == Some(|stream|)
  {
    var d := stream + ":" + tag;
    assert d[..|stream|] == stream;
    assert d[|stream|] == ':';
  }

  /**
   * Only a reference the claim's logical release belongs to is redirected:
   * `stable`/`stable-<r>` to the claimed stream, `release:<r>` to the
   * claimed payload. Every other reference resolves as without a claim.
   */
  lemma ClaimRedirectsOnlyItsRelease(c: Configuration, dependency: string, claim: ClaimRelease)
    ensures var plain := DependencyParts(c, dependency, None);
            var claimed := DependencyParts(c, dependency, Some(claim));
            claimed
            == if !plain.explicit || ':' !in dependency || ReleaseOf(plain.stream, plain.tag) != Some(claim.overrideName) then plain
               else if plain.stream == ReleaseImageStream then Parts(ReleaseImageStream, claim.releaseName, true)
               else Parts(ReleaseStreamFor(claim.releaseName), plain.tag, true)
  {
  }

  /** The short-hand `n` for a name the configuration produces means the same as `pipeline:n`. */
  lemma ShortHandMatchesLongForm(c: Configuration, name: string, claim: Option<ClaimRelease>)
    requires ':' !in name && IsExplicitlyProduced(c, name)
    ensures DependencyParts(c, name, claim) == DependencyParts(c, PipelineImageStream + ":" + name, claim)
  {
    FirstColonAt(PipelineImageStream, name);
    var d := PipelineImageStream + ":" + name;
    assert d[..|PipelineImageStream|] == PipelineImageStream && d[|PipelineImageStream| + 1..] == name;
  }

  /** The resolutions of bare names pinned by the resolver's table tests. */
  lemma ImageStreamForExamples()
    ensures var base := EmptyConfiguration.(baseImages := map["thebase" := ImageStreamTagReference("", "", "")]);
            var rpm := EmptyConfiguration.(baseRpmImages := map["thebase" := ImageStreamTagReference("", "", "")]);
            var built := EmptyConfiguration.(images := [ImageBuild("myimage", NoBuildInputs, [])]);
            && ImageStreamFor(base, "thebase") == (PipelineImageStream, true)
            && ImageStreamFor(rpm, "thebase") == (PipelineImageStream, true)
            && ImageStreamFor(EmptyConfiguration, "src") == (PipelineImageStream, true)
            && ImageStreamFor(built, "myimage") == (PipelineImageStream, true)
            && ImageStreamFor(EmptyConfiguration, "something") == (StableImageStream, false)
  {
    var built := EmptyConfiguration.(images := [ImageBuild("myimage", NoBuildInputs, [])]);
    assert built.images[0].to == "myimage";
  }

  /** A base image's bare name is an explicit pipeline reference. */
  lemma ExampleBareProduced()
    ensures DependencyParts(EmptyConfiguration.(baseImages := map["thebase" := ImageStreamTagReference("", "", "")]), "thebase", None)
         == Parts("pipeline", "thebase", true)
  {
    var c := EmptyConfiguration.(baseImages := map["thebase" := ImageStreamTagReference("", "", "")]);
    assert IsBaseImage(c, "thebase");
    BareReference(c, "thebase", None);
  }

  /** A bare name nothing produces is an implicit guess at `stable`. */
  lemma ExampleBareUnproduced()
    ensures DependencyParts(EmptyConfiguration, "whatever", None) == Parts("stable", "whatever", false)
  {
    assert !IsKnownPipelineImage("whatever");
    assert !IsExplicitlyProduced(EmptyConfiguration, "whatever");
    BareReference(EmptyConfiguration, "whatever", None);
  }

  lemma ExampleStableWithoutClaim()
    ensures DependencyParts(EmptyConfiguration, "stable:installer", None) == Parts("stable", "installer", true)
  {
    assert "stable:installer" == "stable" + ":" + "installer";
    PrefixedReference(EmptyConfiguration, "stable", "installer");
  }

  lemma ExampleOtherStream()
    ensures DependencyParts(EmptyConfiguration, "whoa:really", None) == Parts("whoa", "really", true)
  {
    assert "whoa:really" == "whoa" + ":" + "really";
    PrefixedReference(EmptyConfiguration, "whoa", "really");
  }

  lemma ExampleStableClaimed()
    ensures DependencyParts(EmptyConfiguration, "stable:installer", Some(ClaimRelease("latest-e2e", "latest")))
         == Parts("stable-latest-e2e", "installer", true)
  {
    assert ClaimedStream("stable", ClaimRelease("latest-e2e", "latest")) == "stable-latest-e2e";
    assert "stable:installer" == "stable" + ":" + "installer";
    PrefixedClaimedReference(EmptyConfiguration, "stable", "installer", ClaimRelease("latest-e2e", "latest"));
  }

  lemma ExampleNamedStreamClaimed()
    ensures DependencyParts(EmptyConfiguration, "stable-whoa:really", Some(ClaimRelease("whoa-e2e", "whoa")))
         == Parts("stable-whoa-e2e", "really", true)
  {
    assert ("stable-whoa")[|StableStreamPrefix|..] == "whoa";
    assert ClaimedStream("stable-whoa", ClaimRelease("whoa-e2e", "whoa")) == "stable-whoa-e2e";
    assert "stable-whoa:really" == "stable-whoa" + ":" + "really";
    PrefixedClaimedReference(EmptyConfiguration, "stable-whoa", "really", ClaimRelease("whoa-e2e", "whoa"));
  }

  lemma ExampleOtherReleaseUnclaimed()
    ensures DependencyParts(EmptyConfiguration, "stable-whoa:really", Some(ClaimRelease("latest-e2e", "latest")))
         == Parts("stable-whoa", "really", true)
  {
    assert ("stable-whoa")[|StableStreamPrefix|..] == "whoa";
    assert ClaimedStream("stable-whoa", ClaimRelease("latest-e2e", "latest")) == "stable-whoa";
    assert "stable-whoa:really" == "stable-whoa" + ":" + "really";
    PrefixedClaimedReference(EmptyConfiguration, "stable-whoa", "really", ClaimRelease("latest-e2e", "latest"));
  }

  lemma ExampleReleaseClaimed()
    ensures DependencyParts(EmptyConfiguration, "release:latest", Some(ClaimRelease("latest-e2e-claim", "latest")))
         == Parts("release", "latest-e2e-claim", true)
  {
    assert "release:latest" == "release" + ":" + "latest";
    PrefixedClaimedReference(EmptyConfiguration, "release", "latest", ClaimRelease("latest-e2e-claim", "latest"));
  }
}
