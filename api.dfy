/**
 * The configuration the validator checks (a ReleaseBuildConfiguration after
 * decoding), the well-known names of the pipeline, and the facts about a
 * configuration that several validators ask: which releases it imports,
 * which images it builds, which names its operator section produces.
 */
module Api {
  import opened Wrappers
  import opened Text

  // image streams
  const PipelineImageStream := "pipeline"
  const StableImageStream := "stable"
  const ReleaseImageStream := "release"
  const StableStreamPrefix := "stable-"

  // releases
  const LatestReleaseName := "latest"
  const InitialReleaseName := "initial"

  // tags of the pipeline image stream that the pipeline itself produces
  const RootTag := "root"
  const SourceTag := "src"
  const BinariesTag := "bin"
  const TestBinariesTag := "test-bin"
  const RpmsTag := "rpms"
  const BundleSourceTag := "src-bundle"
  const IndexImageTag := "ci-index"

  datatype ImageStreamTagReference = ImageStreamTagReference(namespace: string, name: string, tag: string)

  datatype BuildInputs = BuildInputs(contextDir: string, dockerfilePath: string, dockerfileLiteral: Option<string>)

  /** build_root: exactly one of the three sources must be given. */
  datatype BuildRoot = BuildRoot(
    imageStreamTag: Option<ImageStreamTagReference>,
    projectImage: Option<BuildInputs>,
    fromRepository: bool)

  datatype ExternalImage = ExternalImage(
    registry: string,
    ref: ImageStreamTagReference,
    pullSecret: string,
    pullSpec: string)

  /** The legacy tag_specification: one release imported as `latest` and `initial`. */
  datatype ReleaseTagConfiguration = ReleaseTagConfiguration(namespace: string, name: string)

  /** Resource names mapped to unparsed quantities. */
  type ResourceList = map<string, string>

  datatype ResourceRequirements = ResourceRequirements(limits: ResourceList, requests: ResourceList)

  /** Step name (or the blanket `*`) to its requirements. */
  type ResourceConfiguration = map<string, ResourceRequirements>

  datatype PromotionTarget = PromotionTarget(
    namespace: string,
    name: string,
    tag: string,
    additionalImages: map<string, string>)

  datatype PromotionConfiguration = PromotionConfiguration(targets: seq<PromotionTarget>)

  /** An entry of `images`. */
  datatype ImageBuild = ImageBuild(to: string, inputs: BuildInputs, additionalArchitectures: seq<string>)

  /** An operator bundle; `name` is its `as` field, "" when unnamed. */
  datatype Bundle = Bundle(
    name: string,
    dockerfilePath: string,
    contextDir: string,
    baseIndex: string,
    updateGraph: string,
    skipBuildingIndex: bool)

  datatype Substitution = Substitution(pullSpec: string, with: string)

  datatype OperatorConfiguration = OperatorConfiguration(bundles: seq<Bundle>, substitutions: seq<Substitution>)

  /** A dependency of a step: an image reference and the variable it is exposed as. */
  datatype StepDependency = StepDependency(name: string, env: string)

  datatype LiteralTestStep = LiteralTestStep(
    name: string,
    fromImage: Option<ImageStreamTagReference>,
    dependencies: seq<StepDependency>)

  /** A step of an unresolved multi-stage test: written out, or a reference to a step or chain. */
  datatype TestStep =
    | Literal(step: LiteralTestStep)
    | Reference(reference: string)
    | Chain(chain: string)

  datatype MultiStageTestConfiguration = MultiStageTestConfiguration(
    pre: seq<TestStep>,
    test: seq<TestStep>,
    post: seq<TestStep>,
    dependencyOverrides: map<string, string>)

  datatype MultiStageTestConfigurationLiteral = MultiStageTestConfigurationLiteral(
    pre: seq<LiteralTestStep>,
    test: seq<LiteralTestStep>,
    post: seq<LiteralTestStep>,
    dependencyOverrides: map<string, string>)

  /** An entry of `tests`; `name` is its `as` field. */
  datatype TestStepConfiguration = TestStepConfiguration(
    name: string,
    multiStage: Option<MultiStageTestConfiguration>,
    multiStageLiteral: Option<MultiStageTestConfigurationLiteral>)

  datatype RefCommands = RefCommands(ref: string, commands: string)

  datatype RefLocation = RefLocation(ref: string, location: string)

  datatype Configuration = Configuration(
    buildRoot: Option<BuildRoot>,
    buildRoots: map<string, BuildRoot>,
    baseImages: map<string, ImageStreamTagReference>,
    baseRpmImages: map<string, ImageStreamTagReference>,
    externalImages: map<string, ExternalImage>,
    tagSpecification: Option<ReleaseTagConfiguration>,
    releases: set<string>,
    binaryBuildCommands: string,
    testBinaryBuildCommands: string,
    rpmBuildCommands: string,
    binaryBuildCommandsList: seq<RefCommands>,
    testBinaryBuildCommandsList: seq<RefCommands>,
    rpmBuildCommandsList: seq<RefCommands>,
    rpmBuildLocationList: seq<RefLocation>,
    images: seq<ImageBuild>,
    operator: Option<OperatorConfiguration>,
    tests: seq<TestStepConfiguration>,
    promotion: Option<PromotionConfiguration>,
    resources: ResourceConfiguration)

  /** The zero value of a configuration, from which examples are built. */
  const EmptyConfiguration := Configuration(
    None, map[], map[], map[], map[], None, {}, "", "", "", [], [], [], [], [], None, [], None, map[])

  const NoBuildInputs := BuildInputs("", "", None)

  /** The name of the n-th bundle when it has no `as`. */
  function BundleName(i: nat): string {
    "ci-bundle" + NatToString(i)
  }

  /** The index image built for a bundle; unnamed bundles share `ci-index`. */
  function IndexName(bundle: string): string {
    if bundle == "" then IndexImageTag else IndexImageTag + "-" + bundle
  }

  predicate IsIndexName(name: string) {
    name == IndexImageTag || IndexImageTag + "-" <= name
  }

  function WithoutRpmsName(base: string): string {
    base + "-without-rpms"
  }

  /** The pipeline name a multi-stage step's from_image is imported as. */
  function FromImageName(ref: ImageStreamTagReference): string {
    ref.namespace + "-" + ref.name + "-" + ref.tag
  }

  /** `name` is a release of the configuration: a named release, or one of the two the tag_specification brings. */
  predicate HasRelease(c: Configuration, name: string) {
    name in c.releases || (c.tagSpecification.Some? && (name == LatestReleaseName || name == InitialReleaseName))
  }

  predicate BuildsImage(c: Configuration, name: string) {
    exists i :: 0 <= i < |c.images| && c.images[i].to == name
  }

  predicate HasBuildRoot(c: Configuration) {
    c.buildRoot.Some? || |c.buildRoots| > 0
  }

  predicate BuildsBinaries(c: Configuration) {
    c.binaryBuildCommands != "" || |c.binaryBuildCommandsList| > 0
  }

  predicate BuildsTestBinaries(c: Configuration) {
    c.testBinaryBuildCommands != "" || |c.testBinaryBuildCommandsList| > 0
  }

  predicate BuildsRpms(c: Configuration) {
    c.rpmBuildCommands != "" || |c.rpmBuildCommandsList| > 0
  }

  /** The name the i-th bundle's image is published under. */
  function BundleImageName(bundles: seq<Bundle>, i: nat): string
    requires i < |bundles|
  {
    if bundles[i].name != "" then bundles[i].name else BundleName(i)
  }

  /** `name` is an image the operator section builds: a bundle, an index, or the bundle source. */
  predicate OperatorBuilds(c: Configuration, name: string) {
    c.operator.Some? &&
    (name == BundleSourceTag ||
     exists i :: 0 <= i < |c.operator.value.bundles| &&
       (name == BundleImageName(c.operator.value.bundles, i) || name == IndexName(c.operator.value.bundles[i].name)))
  }

  predicate PromotesAdditionalImages(c: Configuration) {
    c.promotion.Some? && exists t :: t in c.promotion.value.targets && |t.additionalImages| > 0
  }
}
