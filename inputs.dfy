/**
 * The input section's record checks: the build root, external images,
 * the base-image maps and the legacy tag_specification.
 */
module Inputs {
  import opened Wrappers
  import opened Text
  import opened FieldPath
  import opened Errors
  import opened Api

  const BuildRootPath: Path := AddField(Root, "build_root")
  const ExternalPath: Path := AddField(Root, "external")
  const TagSpecificationPath: Path := AddField(Root, "tag_specification")

  // ---------------------------------------------------------------------------
  // build_root

  /** How many of the three mutually exclusive sources a build root names. */
  function SourceCount(root: BuildRoot): nat {
    (if root.imageStreamTag.Some? then 1 else 0)
    + (if root.projectImage.Some? then 1 else 0)
    + (if root.fromRepository then 1 else 0)
  }

  /**
   * The build root check: a missing root is an error only when images are
   * built, and a present root must name exactly one source. The first
   * clashing pair, in the order (image_stream_tag, project_image),
   * (image_stream_tag, from_repository), (project_image, from_repository),
   * is the one reported.
   */
  function BuildRootError(at: Path, root: Option<BuildRoot>, hasImages: bool): (r: Option<ValidationError>)
    ensures r.None? <==> (root.None? ==> !hasImages) && (root.Some? ==> SourceCount(root.value) == 1)
    ensures r.Some? && root.Some? ==> r.value.path == at
    ensures r.Some? && root.Some? && SourceCount(root.value) == 0 ==> r.value.problem == BuildRootWithoutSource
    ensures r.Some? && root.Some? && SourceCount(root.value) > 1 ==> r.value.problem.BuildRootSourcesExclusive?
  {
    match root
    case None => if hasImages then Some(ValidationError(Root, BuildRootRequired)) else None
    case Some(b) =>
      if b.imageStreamTag.Some? && b.projectImage.Some? then
        Some(ValidationError(at, BuildRootSourcesExclusive("image_stream_tag", "project_image")))
      else if b.imageStreamTag.Some? && b.fromRepository then
        Some(ValidationError(at, BuildRootSourcesExclusive("image_stream_tag", "from_repository")))
      else if b.projectImage.Some? && b.fromRepository then
        Some(ValidationError(at, BuildRootSourcesExclusive("project_image", "from_repository")))
      else if b.imageStreamTag.None? && b.projectImage.None? && !b.fromRepository then
        Some(ValidationError(at, BuildRootWithoutSource))
      else None
  }

  function ToList(e: Option<ValidationError>): (r: seq<ValidationError>)
    ensures r == [] <==> e.None?
    ensures e.Some? ==> r == [e.value]
  {
    match e case None => [] case Some(v) => [v]
  }

  // ---------------------------------------------------------------------------
  // external_images

  /** An external image is pulled by its parts, all of which are needed, and never by a raw pull spec. */
  predicate ValidExternalImage(image: ExternalImage) {
    && image.pullSpec == ""
    && image.registry != ""
    && image.ref.namespace != ""
    && image.ref.name != ""
    && image.ref.tag != ""
  }

  function ExternalImageErrors(at: Path, image: ExternalImage): (r: seq<ValidationError>)
    ensures r == [] <==> ValidExternalImage(image)
    ensures |r| <= 5
  {
    (if image.pullSpec != "" then [ValidationError(AddField(at, "pull_spec"), PullSpecSet)] else [])
    + (if image.registry == "" then [ValidationError(AddField(at, "registry"), MustBeSet)] else [])
    + (if image.ref.namespace == "" then [ValidationError(AddField(at, "namespace"), MustBeSet)] else [])
    + (if image.ref.name == "" then [ValidationError(AddField(at, "name"), MustBeSet)] else [])
    + (if image.ref.tag == "" then [ValidationError(AddField(at, "tag"), MustBeSet)] else [])
  }

  function ExternalEntryCheck(): ((string, ExternalImage)) -> seq<ValidationError> {
    (e: (string, ExternalImage)) => ExternalImageErrors(AddField(ExternalPath, e.0), e.1)
  }

  function ExternalErrors(images: map<string, ExternalImage>): seq<ValidationError> {
    FlatMap(SortedItems(images), ExternalEntryCheck())
  }

  lemma ExternalErrorsIff(images: map<string, ExternalImage>)
    ensures ExternalErrors(images) == [] <==> forall k :: k in images ==> ValidExternalImage(images[k])
  {
    FlatMapItems(images, ExternalEntryCheck());
  }

  /** Checks every external image, in name order. */
  method ValidateExternal(images: map<string, ExternalImage>) returns (errs: seq<ValidationError>)
    ensures errs == ExternalErrors(images)
    ensures errs == [] <==> forall k :: k in images ==> ValidExternalImage(images[k])
  {
    var items := SortedItems(images);
    var f := ExternalEntryCheck();
    errs := [];
    var i := 0;
    while i < |items|
      invariant 0 <= i <= |items|
      invariant errs == FlatMap(items[..i], f)
    {
      var (name, image) := items[i];
      var entry := ExternalImageErrors(AddField(ExternalPath, name), image);
      FlatMapStep(items, i, f);
      errs := errs + entry;
      i := i + 1;
    }
    FlatMapAll(items, f);
    ExternalErrorsIff(images);
  }

  // ---------------------------------------------------------------------------
  // base_images and base_rpm_images

  /** A base image names its tag, and may not take the name reserved for the bundle source. */
  predicate ValidBaseImage(name: string, ref: ImageStreamTagReference) {
    name != BundleSourceTag && ref.tag != ""
  }

  function BaseImageErrors(at: Path, name: string, ref: ImageStreamTagReference): (r: seq<ValidationError>)
    ensures r == [] <==> ValidBaseImage(name, ref)
    ensures forall e :: e in r ==> e.path == AddField(at, name)
  {
    var here := AddField(at, name);
    (if name == BundleSourceTag then [ValidationError(here, ReservedImageName(name))] else [])
    + (if ref.tag == "" then [ValidationError(here, NoTagDefined)] else [])
  }

  function BaseEntryCheck(at: Path): ((string, ImageStreamTagReference)) -> seq<ValidationError> {
    (e: (string, ImageStreamTagReference)) => BaseImageErrors(at, e.0, e.1)
  }

  function BaseImagesErrors(at: Path, images: map<string, ImageStreamTagReference>): seq<ValidationError> {
    FlatMap(SortedItems(images), BaseEntryCheck(at))
  }

  lemma BaseImagesErrorsIff(at: Path, images: map<string, ImageStreamTagReference>)
    ensures BaseImagesErrors(at, images) == [] <==> forall k :: k in images ==> ValidBaseImage(k, images[k])
  {
    FlatMapItems(images, BaseEntryCheck(at));
  }

  /** Checks a base-image map located at `at`, entry by entry in name order. */
  method ValidateBaseImages(at: Path, images: map<string, ImageStreamTagReference>) returns (errs: seq<ValidationError>)
    ensures errs == BaseImagesErrors(at, images)
    ensures errs == [] <==> forall k :: k in images ==> ValidBaseImage(k, images[k])
  {
    var items := SortedItems(images);
    var f := BaseEntryCheck(at);
    errs := [];
    var i := 0;
    while i < |items|
      invariant 0 <= i <= |items|
      invariant errs == FlatMap(items[..i], f)
    {
      var entry := BaseImageErrors(at, items[i].0, items[i].1);
      FlatMapStep(items, i, f);
      errs := errs + entry;
      i := i + 1;
    }
    FlatMapAll(items, f);
    BaseImagesErrorsIff(at, images);
  }

  // ---------------------------------------------------------------------------
  // tag_specification

  /** The legacy release import names the namespace and the image stream it comes from. */
  function ReleaseTagErrors(at: Path, tagSpec: ReleaseTagConfiguration): (r: seq<ValidationError>)
    ensures r == [] <==> tagSpec.namespace != "" && tagSpec.name != ""
    ensures |r| <= 2
    ensures forall e :: e in r ==> e.path == at
  {
    (if tagSpec.namespace == "" then [ValidationError(at, NoNamespaceDefined)] else [])
    + (if tagSpec.name == "" then [ValidationError(at, NoNameDefined)] else [])
  }

  // ---------------------------------------------------------------------------
  // The cases of the input tests

  const SomeTag := ImageStreamTagReference("test_namespace", "test_name", "test")
  const SomeProject := BuildInputs("/", "Dockerfile.test", None)

  lemma BuildRootExamples()
    ensures BuildRootError(BuildRootPath, Some(BuildRoot(Some(SomeTag), Some(SomeProject), false)), false).Some?
    ensures BuildRootError(BuildRootPath, Some(BuildRoot(None, Some(SomeProject), true)), false).Some?
    ensures BuildRootError(BuildRootPath, Some(BuildRoot(Some(SomeTag), None, true)), false).Some?
    ensures BuildRootError(BuildRootPath, Some(BuildRoot(None, None, false)), false).Some?
    ensures BuildRootError(BuildRootPath, None, false).None?
    ensures BuildRootError(BuildRootPath, None, true).Some?
    ensures BuildRootError(BuildRootPath, Some(BuildRoot(Some(SomeTag), None, false)), false).None?
  {
  }

  lemma ExternalAccepted()
    ensures ExternalErrors(map[
      "foo" := ExternalImage("quay.io", ImageStreamTagReference("test", "test", "test"), "test-pull", ""),
      "bar" := ExternalImage("quay.io/my", ImageStreamTagReference("bar", "test", "latest"), "test-pull-2", ""),
      "without-pullsecret" := ExternalImage("quay.io/openshift/ci", ImageStreamTagReference("bar", "test", "latest"), "", "")]) == []
    ensures ExternalErrors(map[]) == []
  {
    var foo := ExternalImage("quay.io", ImageStreamTagReference("test", "test", "test"), "test-pull", "");
    var bar := ExternalImage("quay.io/my", ImageStreamTagReference("bar", "test", "latest"), "test-pull-2", "");
    var ci := ExternalImage("quay.io/openshift/ci", ImageStreamTagReference("bar", "test", "latest"), "", "");
    assert ValidExternalImage(foo) && ValidExternalImage(bar) && ValidExternalImage(ci);
    var images := map["foo" := foo, "bar" := bar, "without-pullsecret" := ci];
    forall k | k in images
      ensures ValidExternalImage(images[k])
    {
      assert images[k] in {foo, bar, ci};
    }
    ExternalErrorsIff(images);
    ExternalErrorsIff(map[]);
  }

  /** A single external image `foo` with one part missing, or a pull spec, is rejected. */
  lemma ExternalRejected(image: ExternalImage)
    requires image in {
      ExternalImage("", ImageStreamTagReference("test", "test", "test"), "test-pull", ""),
      ExternalImage("quay.io", ImageStreamTagReference("", "test", "test"), "", ""),
      ExternalImage("quay.io", ImageStreamTagReference("test", "", "test"), "", ""),
      ExternalImage("quay.io", ImageStreamTagReference("test", "test", ""), "", ""),
      ExternalImage("", ImageStreamTagReference("", "", ""), "", "quay.io/some-pull-spec/name:tag")}
    ensures ExternalErrors(map["foo" := image]) != []
  {
    ExternalErrorsIff(map["foo" := image]);
  }

  const BaseImagesPath: Path := AddField(Root, "base_images")

  lemma BaseImagesAccepted()
    ensures BaseImagesErrors(BaseImagesPath,
      map["test" := ImageStreamTagReference("", "", "test"), "test2" := ImageStreamTagReference("", "", "test2")]) == []
  {
    BaseImagesErrorsIff(BaseImagesPath,
      map["test" := ImageStreamTagReference("", "", "test"), "test2" := ImageStreamTagReference("", "", "test2")]);
  }

  lemma BaseImageWithoutTagRejected()
    ensures BaseImagesErrors(BaseImagesPath,
      map["test" := ImageStreamTagReference("", "", "test"), "test2" := ImageStreamTagReference("", "", "")]) != []
  {
    var untagged := map["test" := ImageStreamTagReference("", "", "test"), "test2" := ImageStreamTagReference("", "", "")];
    BaseImagesErrorsIff(BaseImagesPath, untagged);
    assert "test2" in untagged && !ValidBaseImage("test2", untagged["test2"]);
  }

  lemma BaseImageNamedBundleSourceRejected()
    ensures BaseImagesErrors(BaseImagesPath, map[BundleSourceTag := ImageStreamTagReference("", "", "bundle-src")]) != []
  {
    var reserved := map[BundleSourceTag := ImageStreamTagReference("", "", "bundle-src")];
    BaseImagesErrorsIff(BaseImagesPath, reserved);
    assert BundleSourceTag in reserved && !ValidBaseImage(BundleSourceTag, reserved[BundleSourceTag]);
  }

  lemma ReleaseTagExample()
    ensures ReleaseTagErrors(TagSpecificationPath, ReleaseTagConfiguration("test", "test")) == []
  {
  }
}
