/**
 * The whole-configuration validator. It runs every section's validator,
 * fills the pipeline's one namespace of image names in precedence order
 * (build root, base images, base RPM images, build commands, operator,
 * the images list, then the multi-stage steps' from_image imports),
 * checks that no test takes an image's name, and enforces the global
 * policies: something must be built, tested or promoted, and the plural
 * fields of merged configurations are refused in a configuration that is
 * not merged. The errors are reported together, under one
 * `invalid configuration: ` prefix.
 */
module Validation {
  import opened Wrappers
  import opened Text
  import opened FieldPath
  import opened Errors
  import opened Api
  import opened Registry
  import Inputs
  import Resources
  import Images
  import Operator
  import Dependencies

  const BuildRootsPath: Path := AddField(Root, "build_roots")
  const BaseImagesPath: Path := AddField(Root, "base_images")
  const BaseRpmImagesPath: Path := AddField(Root, "base_rpm_images")
  const BinaryBuildCommandsPath: Path := AddField(Root, "binary_build_commands")
  const TestBinaryBuildCommandsPath: Path := AddField(Root, "test_binary_build_commands")
  const RpmBuildCommandsPath: Path := AddField(Root, "rpm_build_commands")

  const InvalidConfigurationPrefix := "invalid configuration: "

  // ---------------------------------------------------------------------------
  // The claims of the producers, in precedence order

  /** The build root produces `root`. */
  function BuildRootClaims(c: Configuration): seq<Claim> {
    if c.buildRoot.Some? then [Produce(RootTag, Inputs.BuildRootPath)]
    else if |c.buildRoots| > 0 then [Produce(RootTag, BuildRootsPath)]
    else []
  }

  /** Each base image, in name order, produces its own name. */
  function BaseImageClaims(keys: seq<string>): (r: seq<Claim>)
    ensures |r| == |keys|
    ensures forall i :: 0 <= i < |keys| ==> r[i] == Produce(keys[i], AddKey(BaseImagesPath, keys[i]))
  {
    seq(|keys|, (i: int) requires 0 <= i < |keys| => Produce(keys[i], AddKey(BaseImagesPath, keys[i])))
  }

  /** Each base RPM image, in name order, produces its name and its name without RPMs. */
  function BaseRpmImageClaims(keys: seq<string>): seq<Claim>
    decreases |keys|
  {
    if keys == [] then []
    else
      var k := keys[|keys| - 1];
      BaseRpmImageClaims(keys[..|keys| - 1])
      + [Produce(k, AddKey(BaseRpmImagesPath, k)), Produce(WithoutRpmsName(k), AddKey(BaseRpmImagesPath, k))]
  }

  /** The build commands produce the binaries, the test binaries and the RPMs. */
  function CommandClaims(c: Configuration): seq<Claim> {
    (if c.binaryBuildCommands != "" then [Produce(BinariesTag, BinaryBuildCommandsPath)] else [])
    + (if c.testBinaryBuildCommands != "" then [Produce(TestBinariesTag, TestBinaryBuildCommandsPath)] else [])
    + (if c.rpmBuildCommands != "" then [Produce(RpmsTag, RpmBuildCommandsPath)] else [])
  }

  /** A named bundle produces its name and its index at its `as`; an unnamed one its generated name. */
  function BundleClaim(b: Bundle, i: nat): seq<Claim> {
    if b.name != "" then
      [Produce(b.name, AddField(Operator.BundlePath(i), "as")),
       Produce(IndexName(b.name), AddField(Operator.BundlePath(i), "as"))]
    else [Produce(BundleName(i), Operator.BundlePath(i))]
  }

  function BundleClaims(bundles: seq<Bundle>): seq<Claim>
    decreases |bundles|
  {
    if bundles == [] then []
    else BundleClaims(bundles[..|bundles| - 1]) + BundleClaim(bundles[|bundles| - 1], |bundles| - 1)
  }

  /** The operator section produces its bundles, their indexes, and the bundle source. */
  function OperatorClaims(c: Configuration): seq<Claim> {
    match c.operator
    case None => []
    case Some(op) => BundleClaims(op.bundles) + [Produce(BundleSourceTag, Operator.OperatorPath)]
  }

  /** Everything that claims a name before the images list does. */
  function PipelineClaims(c: Configuration): seq<Claim> {
    BuildRootClaims(c)
    + BaseImageClaims(SortedKeys(c.baseImages))
    + BaseRpmImageClaims(SortedKeys(c.baseRpmImages))
    + CommandClaims(c)
    + OperatorClaims(c)
  }

  /** The from_image imports of a phase's literal steps, located at `<at>[j].from_image`. */
  function StepClaims(at: Path, steps: seq<Option<LiteralTestStep>>): seq<Claim>
    decreases |steps|
  {
    if steps == [] then []
    else
      var j := |steps| - 1;
      StepClaims(at, steps[..j])
      + (if steps[j].Some? && steps[j].value.fromImage.Some?
         then [Import(steps[j].value.fromImage.value, AddField(AddIndex(at, j), "from_image"))]
         else [])
  }

  function PhasesClaims(at: Path, pre: seq<Option<LiteralTestStep>>, test: seq<Option<LiteralTestStep>>, post: seq<Option<LiteralTestStep>>)
    : seq<Claim>
  {
    StepClaims(AddField(at, "pre"), pre) + StepClaims(AddField(at, "test"), test) + StepClaims(AddField(at, "post"), post)
  }

  /**
   * The imports of test i. Both kinds of multi-stage test report their
   * imports under `tests[i].steps`.
   */
  function TestClaims(i: nat, t: TestStepConfiguration): seq<Claim> {
    var at := AddField(Dependencies.TestPath(i), "steps");
    (match t.multiStage
     case None => []
     case Some(m) => PhasesClaims(at, Dependencies.Literals(m.pre), Dependencies.Literals(m.test), Dependencies.Literals(m.post)))
    + (match t.multiStageLiteral
       case None => []
       case Some(m) => PhasesClaims(at, Dependencies.AllChecked(m.pre), Dependencies.AllChecked(m.test), Dependencies.AllChecked(m.post)))
  }

  function FromImageClaims(tests: seq<TestStepConfiguration>): seq<Claim>
    decreases |tests|
  {
    if tests == [] then []
    else FromImageClaims(tests[..|tests| - 1]) + TestClaims(|tests| - 1, tests[|tests| - 1])
  }

  /** Every claim of the configuration, in the order the validator makes them. */
  function AllClaims(c: Configuration): seq<Claim> {
    PipelineClaims(c) + Images.ImageClaims(c.images) + FromImageClaims(c.tests)
  }

  /**
   * The registry's report: the duplicates among the producers before the
   * images list, the images list's own validation against the names
   * claimed so far, then the duplicates among the from_image imports.
   */
  function NameErrors(c: Configuration): seq<ValidationError> {
    var before := Run(NoNames, PipelineClaims(c));
    var images := Images.ImagesWalk(before.names, c.images);
    var steps := Run(images.names, FromImageClaims(c.tests));
    before.errors + images.errors + steps.errors
  }

  /** The validator's pass over the producers with one registry, filled in place. */
  method ValidateNames(c: Configuration) returns (errs: seq<ValidationError>)
    ensures errs == NameErrors(c)
  {
    var registry := new NameRegistry();
    var before := registry.ClaimAll(PipelineClaims(c));
    var images := Images.ValidateImages(registry, c.images);
    var steps := registry.ClaimAll(FromImageClaims(c.tests));
    errs := before + images + steps;
  }

  // ---------------------------------------------------------------------------
  // Test names

  function TestNameCheck(c: Configuration): nat -> seq<ValidationError> {
    (i: nat) =>
      if i < |c.tests| && BuildsImage(c, c.tests[i].name)
      then [ValidationError(AddField(Dependencies.TestPath(i), "as"), NameTakenByImage(c.tests[i].name))]
      else []
  }

  /** A test may not take the name of an entry of the images list. */
  function TestNameErrors(c: Configuration): (r: seq<ValidationError>)
    ensures r == [] <==> forall i :: 0 <= i < |c.tests| ==> !BuildsImage(c, c.tests[i].name)
  {
    var f := TestNameCheck(c);
    assert forall i :: 0 <= i < |c.tests| ==> (f(i) == [] <==> !BuildsImage(c, c.tests[i].name));
    FlatMapIndexed(|c.tests|, f)
  }

  /** The loop over the tests, looking each name up among the images. */
  method CheckTestNames(c: Configuration) returns (errs: seq<ValidationError>)
    ensures errs == TestNameErrors(c)
  {
    var f := TestNameCheck(c);
    errs := [];
    for i := 0 to |c.tests|
      invariant errs == FlatMapIndexed(i, f)
    {
      FlatMapIndexedStep(i, f, errs);
      var taken := ImageNamed(c, c.tests[i].name);
      if taken {
        errs := errs + [ValidationError(AddField(Dependencies.TestPath(i), "as"), NameTakenByImage(c.tests[i].name))];
      }
    }
  }

  /** Looks for an image entry whose `to` is `name`. */
  method ImageNamed(c: Configuration, name: string) returns (taken: bool)
    ensures taken <==> BuildsImage(c, name)
  {
    taken := false;
    for k := 0 to |c.images|
      invariant taken <==> exists k' :: 0 <= k' < k && c.images[k'].to == name
    {
      if c.images[k].to == name {
        taken := true;
      }
    }
  }

  // ---------------------------------------------------------------------------
  // Policies and sections

  predicate UsesMergedOnlyLists(c: Configuration) {
    || |c.binaryBuildCommandsList| > 0
    || |c.testBinaryBuildCommandsList| > 0
    || |c.rpmBuildCommandsList| > 0
    || |c.rpmBuildLocationList| > 0
  }

  /** A configuration must build an image or run a test, unless it promotes additional images. */
  function TestsOrImagesErrors(c: Configuration): seq<ValidationError> {
    if |c.images| == 0 && |c.tests| == 0 && !PromotesAdditionalImages(c) then [ValidationError(Root, NoTestsOrImages)] else []
  }

  function MergedOnlyErrors(c: Configuration, merged: bool): seq<ValidationError> {
    if !merged && UsesMergedOnlyLists(c) then [ValidationError(Root, MergedOnlyFields)] else []
  }

  function BuildRootsPolicyErrors(c: Configuration, merged: bool): seq<ValidationError> {
    if !merged && |c.buildRoots| > 0 then [ValidationError(Root, BuildRootsNotPermitted)] else []
  }

  /** The build root check; the roots of a merged configuration stand in for a missing `build_root`. */
  function BuildRootErrors(c: Configuration): seq<ValidationError> {
    Inputs.ToList(Inputs.BuildRootError(Inputs.BuildRootPath, c.buildRoot, |c.images| > 0 && |c.buildRoots| == 0))
  }

  function OperatorSectionErrors(c: Configuration, resolves: string -> bool): seq<ValidationError> {
    match c.operator
    case None => []
    case Some(op) => Operator.OperatorErrors(op, resolves)
  }

  function TagSpecificationErrors(c: Configuration): seq<ValidationError> {
    match c.tagSpecification
    case None => []
    case Some(t) => Inputs.ReleaseTagErrors(Inputs.TagSpecificationPath, t)
  }

  /** The input sections: build root, base images, base RPM images, external images, tag_specification. */
  function InputSectionErrors(c: Configuration): seq<ValidationError> {
    BuildRootErrors(c)
    + Inputs.BaseImagesErrors(BaseImagesPath, c.baseImages)
    + Inputs.BaseImagesErrors(BaseRpmImagesPath, c.baseRpmImages)
    + Inputs.ExternalErrors(c.externalImages)
    + TagSpecificationErrors(c)
  }

  /** The tests: something must be built or tested, test names, then step dependencies. */
  function TestsErrors(c: Configuration): seq<ValidationError> {
    TestsOrImagesErrors(c) + TestNameErrors(c) + Dependencies.DependencyErrors(c)
  }

  /** The sections checked on their own: operator, resources, inputs. */
  function SectionErrors(c: Configuration, resolves: string -> bool): seq<ValidationError> {
    OperatorSectionErrors(c, resolves) + Resources.ResourcesErrors(c.resources) + InputSectionErrors(c)
  }

  /**
   * validateReleaseBuildConfiguration: the tests, the names, the sections,
   * then the merged-only lists.
   */
  function ReleaseBuildErrors(c: Configuration, merged: bool, resolves: string -> bool): seq<ValidationError> {
    TestsErrors(c) + NameErrors(c) + SectionErrors(c, resolves) + MergedOnlyErrors(c, merged)
  }

  /** Everything wrong with a configuration, `build_roots` policy first. */
  function ConfigurationErrors(c: Configuration, merged: bool, resolves: string -> bool): seq<ValidationError> {
    BuildRootsPolicyErrors(c, merged) + ReleaseBuildErrors(c, merged, resolves)
  }

  /** The single error returned: nothing, one error, or the bracketed list of all. */
  function Report(errs: seq<ValidationError>): (r: Option<string>)
    ensures r.None? <==> errs == []
    ensures r.Some? ==> InvalidConfigurationPrefix <= r.value
  {
    if errs == [] then None
    else if |errs| == 1 then Some(InvalidConfigurationPrefix + RenderError(errs[0]))
    else Some(InvalidConfigurationPrefix + "[" + Join(RenderErrors(errs), ", ") + "]")
  }

  function IsValidResolvedConfiguration(c: Configuration, merged: bool, resolves: string -> bool): Option<string> {
    Report(ConfigurationErrors(c, merged, resolves))
  }

  /** A configuration as written, which is never a merged one. */
  function IsValidConfiguration(c: Configuration, resolves: string -> bool): Option<string> {
    IsValidResolvedConfiguration(c, false, resolves)
  }

  method ValidateTests(c: Configuration) returns (errs: seq<ValidationError>)
    ensures errs == TestsErrors(c)
  {
    var names := CheckTestNames(c);
    var dependencies := Dependencies.CheckTests(c);
    errs := TestsOrImagesErrors(c) + names + dependencies;
  }

  method ValidateInputs(c: Configuration) returns (errs: seq<ValidationError>)
    ensures errs == InputSectionErrors(c)
  {
    var base := Inputs.ValidateBaseImages(BaseImagesPath, c.baseImages);
    var baseRpm := Inputs.ValidateBaseImages(BaseRpmImagesPath, c.baseRpmImages);
    var external := Inputs.ValidateExternal(c.externalImages);
    errs := BuildRootErrors(c) + base + baseRpm + external + TagSpecificationErrors(c);
  }

  method ValidateSections(c: Configuration, resolves: string -> bool) returns (errs: seq<ValidationError>)
    ensures errs == SectionErrors(c, resolves)
  {
    var operator := [];
    if c.operator.Some? {
      operator := Operator.ValidateOperator(c.operator.value, resolves);
    }
    var resources := Resources.ValidateResources(c.resources);
    var inputs := ValidateInputs(c);
    errs := operator + resources + inputs;
  }

  /** The orchestrator: each part's validator in turn, all errors kept. */
  method ValidateConfiguration(c: Configuration, merged: bool, resolves: string -> bool) returns (errs: seq<ValidationError>)
    ensures errs == ConfigurationErrors(c, merged, resolves)
  {
    var tests := ValidateTests(c);
    var names := ValidateNames(c);
    var sections := ValidateSections(c, resolves);
    errs := BuildRootsPolicyErrors(c, merged) + (tests + names + sections + MergedOnlyErrors(c, merged));
  }

  // ---------------------------------------------------------------------------
  // Properties

  /** The registry's pass, seen as one run over all the claims. */
  lemma NameErrorsAsOneRun(c: Configuration)
    ensures var whole := Run(NoNames, AllClaims(c));
      && Duplicates(NameErrors(c)) == whole.errors
      && (NameErrors(c) == [] <==>
            (forall i :: 0 <= i < |c.images| ==> Images.ValidImageFields(c.images[i])) && whole.errors == [])
  {
    var p, ic, f := PipelineClaims(c), Images.ImageClaims(c.images), FromImageClaims(c.tests);
    var before := Run(NoNames, p);
    var images := Images.ImagesWalk(before.names, c.images);
    var steps := Run(images.names, f);
    var middle := Run(before.names, ic);
    Images.ImagesWalkClaims(before.names, c.images);
    RunAppend(NoNames, p, ic);
    RunAppend(NoNames, p + ic, f);
    assert Run(NoNames, AllClaims(c)).errors == before.errors + middle.errors + steps.errors;
    RunReportsDuplicates(NoNames, p);
    RunReportsDuplicates(images.names, f);
    DuplicatesAppend(before.errors, images.errors);
    DuplicatesAppend(before.errors + images.errors, steps.errors);
    if forall i :: 0 <= i < |c.images| ==> Images.ValidImageFields(c.images[i]) {
      Images.ImagesErrorsFromDuplicates(c.images);
      assert Duplicates(images.errors) == images.errors;
    } else {
      var i :| 0 <= i < |c.images| && !Images.ValidImageFields(c.images[i]);
      Images.BadFieldsReported(before.names, c.images, i);
    }
  }

  /**
   * Each duplicate the registry reports is the one the reference expects:
   * at most one per claim, at a claim that repeats an earlier claim's name
   * without re-importing the same reference, citing the first claimant.
   */
  lemma NameErrorsDuplicates(c: Configuration)
    ensures Duplicates(NameErrors(c)) == ExpectedErrors(AllClaims(c))
  {
    NameErrorsAsOneRun(c);
    RunTracks(AllClaims(c));
  }

  /** No name is reported exactly when every image entry is well-formed and no claim clashes. */
  lemma NameErrorsIff(c: Configuration)
    ensures NameErrors(c) == [] <==> ValidNames(c)
  {
    NameErrorsAsOneRun(c);
    RunReportsNothingIff(AllClaims(c));
  }

  /** The global policies. */
  predicate ValidPolicies(c: Configuration, merged: bool) {
    && (merged || |c.buildRoots| == 0)
    && (merged || !UsesMergedOnlyLists(c))
    && (|c.images| > 0 || |c.tests| > 0 || PromotesAdditionalImages(c))
  }

  /** No test takes an image's name, and every checked step dependency has a producer. */
  predicate ValidTests(c: Configuration) {
    && (forall i :: 0 <= i < |c.tests| ==> !BuildsImage(c, c.tests[i].name))
    && (forall i :: 0 <= i < |c.tests| ==> Dependencies.TestSatisfied(c, c.tests[i]))
  }

  /** Every image entry is well-formed and no claim takes a name an earlier claim took. */
  predicate ValidNames(c: Configuration) {
    && (forall i :: 0 <= i < |c.images| ==> Images.ValidImageFields(c.images[i]))
    && (forall j :: 0 <= j < |AllClaims(c)| ==> !Clashes(AllClaims(c), j))
  }

  predicate ValidOperator(c: Configuration, resolves: string -> bool) {
    c.operator.Some? ==>
      && (forall i :: 0 <= i < |c.operator.value.bundles| ==> Operator.ValidBundle(c.operator.value.bundles[i]))
      && (forall i :: 0 <= i < |c.operator.value.substitutions| ==>
            Operator.ValidSubstitution(c.operator.value.substitutions[i], resolves))
  }

  predicate ValidInputs(c: Configuration) {
    && (c.buildRoot.None? ==> |c.images| == 0 || |c.buildRoots| > 0)
    && (c.buildRoot.Some? ==> Inputs.SourceCount(c.buildRoot.value) == 1)
    && (forall k :: k in c.baseImages ==> Inputs.ValidBaseImage(k, c.baseImages[k]))
    && (forall k :: k in c.baseRpmImages ==> Inputs.ValidBaseImage(k, c.baseRpmImages[k]))
    && (forall k :: k in c.externalImages ==> Inputs.ValidExternalImage(c.externalImages[k]))
    && (c.tagSpecification.Some? ==> c.tagSpecification.value.namespace != "" && c.tagSpecification.value.name != "")
  }

  /** Every rule the validator enforces, each stated on its own. */
  predicate ValidConfiguration(c: Configuration, merged: bool, resolves: string -> bool) {
    && ValidPolicies(c, merged)
    && ValidTests(c)
    && ValidNames(c)
    && ValidOperator(c, resolves)
    && Resources.ValidResources(c.resources)
    && ValidInputs(c)
  }

  lemma InputSectionErrorsIff(c: Configuration)
    ensures InputSectionErrors(c) == [] <==> ValidInputs(c)
  {
    Inputs.BaseImagesErrorsIff(BaseImagesPath, c.baseImages);
    Inputs.BaseImagesErrorsIff(BaseRpmImagesPath, c.baseRpmImages);
    Inputs.ExternalErrorsIff(c.externalImages);
  }

  lemma OperatorSectionErrorsIff(c: Configuration, resolves: string -> bool)
    ensures OperatorSectionErrors(c, resolves) == [] <==> ValidOperator(c, resolves)
  {
    if c.operator.Some? {
      Operator.OperatorErrorsIff(c.operator.value, resolves);
    }
  }

  lemma SectionErrorsIff(c: Configuration, resolves: string -> bool)
    ensures SectionErrors(c, resolves) == []
        <==> ValidOperator(c, resolves) && Resources.ValidResources(c.resources) && ValidInputs(c)
  {
    var o, r, i := OperatorSectionErrors(c, resolves), Resources.ResourcesErrors(c.resources), InputSectionErrors(c);
    OperatorSectionErrorsIff(c, resolves);
    Resources.ResourcesErrorsIff(c.resources);
    InputSectionErrorsIff(c);
    assert SectionErrors(c, resolves) == o + r + i;
    assert |o + r + i| == |o| + |r| + |i|;
  }

  lemma TestsErrorsIff(c: Configuration)
    ensures TestsErrors(c) == []
        <==> (|c.images| > 0 || |c.tests| > 0 || PromotesAdditionalImages(c)) && ValidTests(c)
  {
  }

  /** The report is empty exactly when each part of it is. */
  lemma ConfigurationErrorsParts(c: Configuration, merged: bool, resolves: string -> bool)
    ensures ConfigurationErrors(c, merged, resolves) == []
        <==> && BuildRootsPolicyErrors(c, merged) == [] && TestsErrors(c) == [] && NameErrors(c) == []
             && SectionErrors(c, resolves) == [] && MergedOnlyErrors(c, merged) == []
  {
    var p, t, n, s, m := BuildRootsPolicyErrors(c, merged), TestsErrors(c), NameErrors(c), SectionErrors(c, resolves), MergedOnlyErrors(c, merged);
    assert ConfigurationErrors(c, merged, resolves) == p + (t + n + s + m);
    assert |p + (t + n + s + m)| == |p| + |t| + |n| + |s| + |m|;
  }

  /** The validator accepts a configuration exactly when every rule holds. */
  lemma ConfigurationErrorsIff(c: Configuration, merged: bool, resolves: string -> bool)
    ensures ConfigurationErrors(c, merged, resolves) == [] <==> ValidConfiguration(c, merged, resolves)
  {
    ConfigurationErrorsParts(c, merged, resolves);
    PolicyErrorsIff(c, merged);
    TestsErrorsIff(c);
    NameErrorsIff(c);
    SectionErrorsIff(c, resolves);
  }

  lemma PolicyErrorsIff(c: Configuration, merged: bool)
    ensures BuildRootsPolicyErrors(c, merged) == [] <==> (merged || |c.buildRoots| == 0)
    ensures MergedOnlyErrors(c, merged) == [] <==> (merged || !UsesMergedOnlyLists(c))
  {
  }

  /** The same, for the message the validator returns. */
  lemma AcceptedIff(c: Configuration, merged: bool, resolves: string -> bool)
    ensures IsValidResolvedConfiguration(c, merged, resolves).None? <==> ValidConfiguration(c, merged, resolves)
  {
    ConfigurationErrorsIff(c, merged, resolves);
  }

  /** When every other rule holds, the report is exactly the registry's. */
  lemma OnlyNamesReported(c: Configuration, merged: bool, resolves: string -> bool)
    requires ValidPolicies(c, merged) && ValidTests(c) && ValidOperator(c, resolves)
    requires Resources.ValidResources(c.resources) && ValidInputs(c)
    ensures ConfigurationErrors(c, merged, resolves) == NameErrors(c)
  {
    var p, t, n, s, m := BuildRootsPolicyErrors(c, merged), TestsErrors(c), NameErrors(c), SectionErrors(c, resolves), MergedOnlyErrors(c, merged);
    TestsErrorsIff(c);
    SectionErrorsIff(c, resolves);
    assert ConfigurationErrors(c, merged, resolves) == p + (t + n + s + m);
    assert p == [] && t == [] && s == [] && m == [];
    assert t + n + s + m == n;
  }

  // ---------------------------------------------------------------------------
  // The cases of the pipeline image tests: one producer and one image share a name

  const FromRepository := BuildRoot(None, None, true)

  function Image(to: string): ImageBuild {
    ImageBuild(to, NoBuildInputs, [])
  }

  /** A bare configuration: a build root, the given images and nothing else. */
  function WithImages(images: seq<ImageBuild>, resources: ResourceConfiguration): Configuration {
    EmptyConfiguration.(buildRoot := Some(FromRepository), images := images, resources := resources)
  }

  lemma SortedKeysOfOne<V>(m: map<string, V>, k: string)
    requires m.Keys == {k}
    ensures SortedKeys(m) == [k]
  {
    var r := SortedKeys(m);
    assert k in r;
  }

  lemma NoKeys<V>(m: map<string, V>)
    requires m == map[]
    ensures SortedKeys(m) == []
  {

  }

  /**
   * The one image of a configuration without tests takes a name the
   * producers before it registered: it alone is reported, citing the producer.
   */
  lemma ImageClashes(c: Configuration, name: string, origin: Path)
    requires c.images == [Image(name)] && c.tests == [] && name != ""
    requires Run(NoNames, PipelineClaims(c)).errors == []
    requires name in Run(NoNames, PipelineClaims(c)).names.seen
    requires Run(NoNames, PipelineClaims(c)).names.seen[name] == origin
    ensures NameErrors(c) == [ValidationError(Images.ImagePath(0), DuplicateImageName(name, origin))]
  {
    var before := Run(NoNames, PipelineClaims(c));
    assert c.images[..0] == [];
    assert Images.ImagesWalk(before.names, c.images[..0]) == Outcome(before.names, []);
    assert Images.InputErrors(Images.ImagePath(0), Image(name)) == [];
  }

  /** Claims of distinct names: none is reported and each keeps its own field. */
  lemma RunOfDistinct(claims: seq<Claim>, j: nat)
    requires forall k :: 0 <= k < |claims| ==> claims[k].Produce?
    requires forall i, k :: 0 <= i < k < |claims| ==> claims[i].name != claims[k].name
    requires j < |claims|
    ensures Run(NoNames, claims).errors == []
    ensures claims[j].name in Run(NoNames, claims).names.seen
    ensures Run(NoNames, claims).names.seen[claims[j].name] == claims[j].at
  {
    RunReportsNothingIffDistinct(claims);
    FirstClaimantWins(claims, claims[j].name);
  }

  /** The fields other than the producers' names that the examples leave at rest. */
  predicate Quiet(c: Configuration) {
    && c.buildRoot.Some? && Inputs.SourceCount(c.buildRoot.value) == 1 && c.buildRoots == map[]
    && c.externalImages == map[] && c.tagSpecification.None?
    && !UsesMergedOnlyLists(c)
    && (forall k :: k in c.baseImages ==> Inputs.ValidBaseImage(k, c.baseImages[k]))
    && (forall k :: k in c.baseRpmImages ==> Inputs.ValidBaseImage(k, c.baseRpmImages[k]))
    && Resources.ValidResources(c.resources)
  }

  /** Of a quiet configuration without tests, only the registry has anything to say. */
  lemma QuietReportsNames(c: Configuration, resolves: string -> bool)
    requires Quiet(c) && c.tests == [] && |c.images| > 0 && ValidOperator(c, resolves)
    ensures ConfigurationErrors(c, false, resolves) == NameErrors(c)
  {
    assert ValidInputs(c);
    OnlyNamesReported(c, false, resolves);
  }

  /** The same for a quiet configuration whose tests are sound. */
  lemma QuietTestsReportNames(c: Configuration, resolves: string -> bool)
    requires Quiet(c) && |c.tests| > 0 && ValidTests(c) && ValidOperator(c, resolves)
    ensures ConfigurationErrors(c, false, resolves) == NameErrors(c)
  {
    assert ValidInputs(c);
    OnlyNamesReported(c, false, resolves);
  }

  /** Without base images or operator, the build root and the commands are the only producers. */
  lemma CommandsOnly(c: Configuration)
    requires c.buildRoot.Some? && c.baseImages == map[] && c.baseRpmImages == map[] && c.operator.None?
    ensures PipelineClaims(c) == [Produce(RootTag, Inputs.BuildRootPath)] + CommandClaims(c)
  {
    NoKeys(c.baseImages);
    NoKeys(c.baseRpmImages);
    var r, m := BuildRootClaims(c), CommandClaims(c);
    assert BaseImageClaims(SortedKeys(c.baseImages)) == [] && BaseRpmImageClaims(SortedKeys(c.baseRpmImages)) == [];
    assert OperatorClaims(c) == [];
    assert PipelineClaims(c) == r + [] + [] + m + [];
    assert r + [] + [] + m + [] == r + m;
  }

  /** The build root and one more producer: an image taking the second name is the one report. */
  lemma RootThenOne(c: Configuration, name: string, at: Path)
    requires PipelineClaims(c) == [Produce(RootTag, Inputs.BuildRootPath)] + [Produce(name, at)]
    requires c.images == [Image(name)] && c.tests == [] && name != "" && name != RootTag
    ensures NameErrors(c) == [ValidationError(Images.ImagePath(0), DuplicateImageName(name, at))]
  {
    var claims := [Produce(RootTag, Inputs.BuildRootPath), Produce(name, at)];
    assert PipelineClaims(c) == claims;
    TwoDistinct(claims[0], claims[1]);
    ImageClashes(c, name, at);
  }

  lemma BinaryCommandsNames(c: Configuration)
    requires c.buildRoot.Some? && c.tests == [] && c.images == [Image(BinariesTag)]
    requires c.baseImages == map[] && c.baseRpmImages == map[] && c.operator.None?
    requires c.binaryBuildCommands != "" && c.testBinaryBuildCommands == "" && c.rpmBuildCommands == ""
    ensures NameErrors(c)
      == [ValidationError(Images.ImagePath(0), DuplicateImageName(BinariesTag, BinaryBuildCommandsPath))]
  {
    CommandsOnly(c);
    assert CommandClaims(c) == [Produce(BinariesTag, BinaryBuildCommandsPath)];
    assert RootTag[0] != BinariesTag[0];
    RootThenOne(c, BinariesTag, BinaryBuildCommandsPath);
  }

  lemma BinaryCommandsClaimFirst(c: Configuration, resolves: string -> bool)
    requires Quiet(c) && c.tests == [] && c.images == [Image(BinariesTag)]
    requires c.baseImages == map[] && c.baseRpmImages == map[] && c.operator.None?
    requires c.binaryBuildCommands != "" && c.testBinaryBuildCommands == "" && c.rpmBuildCommands == ""
    ensures ConfigurationErrors(c, false, resolves)
      == [ValidationError(Images.ImagePath(0), DuplicateImageName(BinariesTag, BinaryBuildCommandsPath))]
  {
    BinaryCommandsNames(c);
    QuietReportsNames(c, resolves);
  }

  lemma TestBinaryCommandsNames(c: Configuration)
    requires c.buildRoot.Some? && c.tests == [] && c.images == [Image(TestBinariesTag)]
    requires c.baseImages == map[] && c.baseRpmImages == map[] && c.operator.None?
    requires c.binaryBuildCommands == "" && c.testBinaryBuildCommands != "" && c.rpmBuildCommands == ""
    ensures NameErrors(c)
      == [ValidationError(Images.ImagePath(0), DuplicateImageName(TestBinariesTag, TestBinaryBuildCommandsPath))]
  {
    CommandsOnly(c);
    assert CommandClaims(c) == [Produce(TestBinariesTag, TestBinaryBuildCommandsPath)];
    assert RootTag[0] != TestBinariesTag[0];
    RootThenOne(c, TestBinariesTag, TestBinaryBuildCommandsPath);
  }

  lemma TestBinaryCommandsClaimFirst(c: Configuration, resolves: string -> bool)
    requires Quiet(c) && c.tests == [] && c.images == [Image(TestBinariesTag)]
    requires c.baseImages == map[] && c.baseRpmImages == map[] && c.operator.None?
    requires c.binaryBuildCommands == "" && c.testBinaryBuildCommands != "" && c.rpmBuildCommands == ""
    ensures ConfigurationErrors(c, false, resolves)
      == [ValidationError(Images.ImagePath(0), DuplicateImageName(TestBinariesTag, TestBinaryBuildCommandsPath))]
  {
    TestBinaryCommandsNames(c);
    QuietReportsNames(c, resolves);
  }

  lemma RpmCommandsNames(c: Configuration)
    requires c.buildRoot.Some? && c.tests == [] && c.images == [Image(RpmsTag)]
    requires c.baseImages == map[] && c.baseRpmImages == map[] && c.operator.None?
    requires c.binaryBuildCommands == "" && c.testBinaryBuildCommands == "" && c.rpmBuildCommands != ""
    ensures NameErrors(c)
      == [ValidationError(Images.ImagePath(0), DuplicateImageName(RpmsTag, RpmBuildCommandsPath))]
  {
    CommandsOnly(c);
    assert CommandClaims(c) == [Produce(RpmsTag, RpmBuildCommandsPath)];
    assert RootTag[1] != RpmsTag[1];
    RootThenOne(c, RpmsTag, RpmBuildCommandsPath);
  }

  lemma RpmCommandsClaimFirst(c: Configuration, resolves: string -> bool)
    requires Quiet(c) && c.tests == [] && c.images == [Image(RpmsTag)]
    requires c.baseImages == map[] && c.baseRpmImages == map[] && c.operator.None?
    requires c.binaryBuildCommands == "" && c.testBinaryBuildCommands == "" && c.rpmBuildCommands != ""
    ensures ConfigurationErrors(c, false, resolves)
      == [ValidationError(Images.ImagePath(0), DuplicateImageName(RpmsTag, RpmBuildCommandsPath))]
  {
    RpmCommandsNames(c);
    QuietReportsNames(c, resolves);
  }

  /** A build root built from the project's own image claims `root` like any other. */
  lemma ProjectBuildRootNames(c: Configuration)
    requires c.buildRoot.Some? && c.tests == [] && c.images == [Image(RootTag)]
    requires c.buildRoot == Some(BuildRoot(None, Some(NoBuildInputs), false))
    requires c.baseImages == map[] && c.baseRpmImages == map[] && c.operator.None?
    requires c.binaryBuildCommands == "" && c.testBinaryBuildCommands == "" && c.rpmBuildCommands == ""
    ensures NameErrors(c)
      == [ValidationError(Images.ImagePath(0), DuplicateImageName(RootTag, Inputs.BuildRootPath))]
  {
    var claims := [Produce(RootTag, Inputs.BuildRootPath)];
    CommandsOnly(c);
    assert PipelineClaims(c) == claims;
    RunOfDistinct(claims, 0);
    ImageClashes(c, RootTag, Inputs.BuildRootPath);
  }

  lemma ProjectBuildRootClaimsFirst(c: Configuration, resolves: string -> bool)
    requires Quiet(c) && c.tests == [] && c.images == [Image(RootTag)]
    requires c.buildRoot == Some(BuildRoot(None, Some(NoBuildInputs), false))
    requires c.baseImages == map[] && c.baseRpmImages == map[] && c.operator.None?
    requires c.binaryBuildCommands == "" && c.testBinaryBuildCommands == "" && c.rpmBuildCommands == ""
    ensures ConfigurationErrors(c, false, resolves)
      == [ValidationError(Images.ImagePath(0), DuplicateImageName(RootTag, Inputs.BuildRootPath))]
  {
    ProjectBuildRootNames(c);
    QuietReportsNames(c, resolves);
  }

  /** The images list walked after the build root alone. */
  lemma RootOnly(c: Configuration)
    requires c.buildRoot.Some? && c.baseImages == map[] && c.baseRpmImages == map[] && c.operator.None?
    requires c.binaryBuildCommands == "" && c.testBinaryBuildCommands == "" && c.rpmBuildCommands == ""
    ensures Run(NoNames, PipelineClaims(c)) == Outcome(Names(map[RootTag := Inputs.BuildRootPath], {}), [])
  {
    CommandsOnly(c);
    assert PipelineClaims(c) == [Produce(RootTag, Inputs.BuildRootPath)];
    assert [Produce(RootTag, Inputs.BuildRootPath)][..0] == [];
  }

  /** Two images walked after names that hold neither: the second is reported exactly when they agree. */
  lemma TwoImagesWalk(names: Names, a: string, b: string)
    requires a != "" && b != "" && a !in names.seen && b !in names.seen
    ensures Images.ImagesWalk(names, [Image(a), Image(b)]).errors
      == if a == b then [ValidationError(Images.ImagePath(1), DuplicateImageName(b, Images.ImagePath(0)))] else []
  {
    var images := [Image(a), Image(b)];
    assert images[..1] == [Image(a)] && images[..1][..0] == [];
    assert Images.InputErrors(Images.ImagePath(0), Image(a)) == [];
    assert Images.InputErrors(Images.ImagePath(1), Image(b)) == [];
    assert Images.ImagesWalk(names, images[..1][..0]) == Outcome(names, []);
    var first := Images.ImagesWalk(names, images[..1]);
    assert first.errors == [] && first.names.seen == names.seen[a := Images.ImagePath(0)];
  }

  /** Without tests, the registry reports the producers' duplicates and then the images list's. */
  lemma NameErrorsWithoutTests(c: Configuration)
    requires c.tests == []
    ensures var before := Run(NoNames, PipelineClaims(c));
      NameErrors(c) == before.errors + Images.ImagesWalk(before.names, c.images).errors
  {
  }

  /** The second of two images with one name is reported, citing the first. */
  lemma DuplicatedImageReported(c: Configuration, resolves: string -> bool)
    requires Quiet(c) && c.tests == [] && c.images == [Image("duplicated"), Image("duplicated")]
    requires c.baseImages == map[] && c.baseRpmImages == map[] && c.operator.None?
    requires c.binaryBuildCommands == "" && c.testBinaryBuildCommands == "" && c.rpmBuildCommands == ""
    ensures ConfigurationErrors(c, false, resolves)
      == [ValidationError(Images.ImagePath(1), DuplicateImageName("duplicated", Images.ImagePath(0)))]
  {
    QuietReportsNames(c, resolves);
    RootOnly(c);
    assert "duplicated"[0] != RootTag[0];
    TwoImagesWalk(Names(map[RootTag := Inputs.BuildRootPath], {}), "duplicated", "duplicated");
    NameErrorsWithoutTests(c);
  }

  /** Images of distinct names pass. */
  lemma UniqueImagesAccepted(c: Configuration, resolves: string -> bool)
    requires Quiet(c) && c.tests == [] && c.images == [Image("to0"), Image("to1")]
    requires c.baseImages == map[] && c.baseRpmImages == map[] && c.operator.None?
    requires c.binaryBuildCommands == "" && c.testBinaryBuildCommands == "" && c.rpmBuildCommands == ""
    ensures ConfigurationErrors(c, false, resolves) == []
  {
    QuietReportsNames(c, resolves);
    RootOnly(c);
    assert "to0"[0] != RootTag[0] && "to1"[0] != RootTag[0] && "to0"[2] != "to1"[2];
    TwoImagesWalk(Names(map[RootTag := Inputs.BuildRootPath], {}), "to0", "to1");
    NameErrorsWithoutTests(c);
  }

  const NamedBundle := Bundle("bundle", "", "", "", "", false)
  const UnnamedBundle := Bundle("", "", "", "", "", false)

  /** Without base images or build commands, the build root and the operator are the only producers. */
  lemma OperatorOnly(c: Configuration)
    requires c.buildRoot.Some? && c.baseImages == map[] && c.baseRpmImages == map[] && c.operator.Some?
    requires c.binaryBuildCommands == "" && c.testBinaryBuildCommands == "" && c.rpmBuildCommands == ""
    ensures PipelineClaims(c)
      == [Produce(RootTag, Inputs.BuildRootPath)] + BundleClaims(c.operator.value.bundles)
         + [Produce(BundleSourceTag, Operator.OperatorPath)]
  {
    NoKeys(c.baseImages);
    NoKeys(c.baseRpmImages);
    var r, o := BuildRootClaims(c), OperatorClaims(c);
    assert BaseImageClaims(SortedKeys(c.baseImages)) == [] && BaseRpmImageClaims(SortedKeys(c.baseRpmImages)) == [];
    assert CommandClaims(c) == [];
    assert PipelineClaims(c) == r + [] + [] + [] + o;
    assert r + [] + [] + [] + o == r + o;
  }

  const BundleAt: Path := AddField(Operator.BundlePath(0), "as")

  /** The producers of the configuration with one bundle named `bundle`, in order. */
  const NamedBundleList := [Produce(RootTag, Inputs.BuildRootPath), Produce("bundle", BundleAt),
                            Produce("ci-index-bundle", BundleAt), Produce(BundleSourceTag, Operator.OperatorPath)]

  lemma NamedBundleDistinct(j: nat)
    requires j < |NamedBundleList|
    ensures Run(NoNames, NamedBundleList).errors == []
    ensures NamedBundleList[j].name in Run(NoNames, NamedBundleList).names.seen
    ensures Run(NoNames, NamedBundleList).names.seen[NamedBundleList[j].name] == NamedBundleList[j].at
  {
    assert RootTag[0] != "bundle"[0] && RootTag[0] != "ci-index-bundle"[0] && RootTag[0] != BundleSourceTag[0];
    assert "bundle"[0] != "ci-index-bundle"[0] && "bundle"[0] != BundleSourceTag[0];
    assert "ci-index-bundle"[0] != BundleSourceTag[0];
    RunOfDistinct(NamedBundleList, j);
  }

  lemma NamedBundleListClaims(c: Configuration)
    requires c.buildRoot.Some? && c.baseImages == map[] && c.baseRpmImages == map[]
    requires c.binaryBuildCommands == "" && c.testBinaryBuildCommands == "" && c.rpmBuildCommands == ""
    requires c.operator == Some(OperatorConfiguration([NamedBundle], []))
    ensures PipelineClaims(c) == NamedBundleList
  {
    OperatorOnly(c);
    NamedBundleClaims(NamedBundle);
    BundleIndexName();
    var r, a, b, s := NamedBundleList[0], NamedBundleList[1], NamedBundleList[2], NamedBundleList[3];
    assert [r] + [a, b] + [s] == [r, a, b, s];
  }

  lemma BundleIndexName()
    ensures IndexName("bundle") == "ci-index-bundle"
  {
    assert IndexImageTag + "-" + "bundle" == "ci-index-bundle";
  }

  /** A named bundle, alone in its section, claims its name and its index at its `as` field. */
  lemma NamedBundleClaims(b: Bundle)
    requires b.name != ""
    ensures BundleClaims([b]) == [Produce(b.name, BundleAt), Produce(IndexName(b.name), BundleAt)]
  {
    assert [b][..0] == [];
  }

  lemma BundleNames(c: Configuration)
    requires c.buildRoot.Some? && c.tests == [] && c.images == [Image("bundle")]
    requires c.baseImages == map[] && c.baseRpmImages == map[]
    requires c.binaryBuildCommands == "" && c.testBinaryBuildCommands == "" && c.rpmBuildCommands == ""
    requires c.operator == Some(OperatorConfiguration([NamedBundle], []))
    ensures NameErrors(c)
      == [ValidationError(Images.ImagePath(0), DuplicateImageName("bundle", BundleAt))]
  {
    NamedBundleListClaims(c);
    NamedBundleDistinct(1);
    ImageClashes(c, "bundle", BundleAt);
  }

  lemma BundleClaimsFirst(c: Configuration, resolves: string -> bool)
    requires Quiet(c) && c.tests == [] && c.images == [Image("bundle")]
    requires c.baseImages == map[] && c.baseRpmImages == map[]
    requires c.binaryBuildCommands == "" && c.testBinaryBuildCommands == "" && c.rpmBuildCommands == ""
    requires c.operator == Some(OperatorConfiguration([NamedBundle], []))
    ensures ConfigurationErrors(c, false, resolves)
      == [ValidationError(Images.ImagePath(0), DuplicateImageName("bundle", BundleAt))]
  {
    BundleNames(c);
    QuietReportsNames(c, resolves);
  }

  lemma BundleIndexNames(c: Configuration)
    requires c.buildRoot.Some? && c.tests == [] && c.images == [Image("ci-index-bundle")]
    requires c.baseImages == map[] && c.baseRpmImages == map[]
    requires c.binaryBuildCommands == "" && c.testBinaryBuildCommands == "" && c.rpmBuildCommands == ""
    requires c.operator == Some(OperatorConfiguration([NamedBundle], []))
    ensures NameErrors(c)
      == [ValidationError(Images.ImagePath(0), DuplicateImageName("ci-index-bundle", BundleAt))]
  {
    NamedBundleListClaims(c);
    NamedBundleDistinct(2);
    ImageClashes(c, "ci-index-bundle", BundleAt);
  }

  lemma BundleIndexClaimsFirst(c: Configuration, resolves: string -> bool)
    requires Quiet(c) && c.tests == [] && c.images == [Image("ci-index-bundle")]
    requires c.baseImages == map[] && c.baseRpmImages == map[]
    requires c.binaryBuildCommands == "" && c.testBinaryBuildCommands == "" && c.rpmBuildCommands == ""
    requires c.operator == Some(OperatorConfiguration([NamedBundle], []))
    ensures ConfigurationErrors(c, false, resolves)
      == [ValidationError(Images.ImagePath(0), DuplicateImageName("ci-index-bundle", BundleAt))]
  {
    BundleIndexNames(c);
    QuietReportsNames(c, resolves);
  }

  const UnnamedBundleList := [Produce(RootTag, Inputs.BuildRootPath), Produce("ci-bundle0", Operator.BundlePath(0)),
                              Produce(BundleSourceTag, Operator.OperatorPath)]

  lemma UnnamedBundleListClaims(c: Configuration)
    requires c.buildRoot.Some? && c.baseImages == map[] && c.baseRpmImages == map[]
    requires c.binaryBuildCommands == "" && c.testBinaryBuildCommands == "" && c.rpmBuildCommands == ""
    requires c.operator == Some(OperatorConfiguration([UnnamedBundle], []))
    ensures PipelineClaims(c) == UnnamedBundleList
  {
    OperatorOnly(c);
    UnnamedBundleClaims(UnnamedBundle);
    FirstBundleName();
    var r, b, s := UnnamedBundleList[0], UnnamedBundleList[1], UnnamedBundleList[2];
    assert [r] + [b] + [s] == [r, b, s];
  }

  lemma FirstBundleName()
    ensures BundleName(0) == "ci-bundle0"
  {
    assert NatToString(0) == "0";
  }

  /** An unnamed bundle, alone in its section, claims its generated name at its own entry. */
  lemma UnnamedBundleClaims(b: Bundle)
    requires b.name == ""
    ensures BundleClaims([b]) == [Produce(BundleName(0), Operator.BundlePath(0))]
  {
    assert [b][..0] == [];
  }

  lemma UnnamedBundleDistinct()
    ensures Run(NoNames, UnnamedBundleList).errors == []
    ensures "ci-bundle0" in Run(NoNames, UnnamedBundleList).names.seen
    ensures Run(NoNames, UnnamedBundleList).names.seen["ci-bundle0"] == Operator.BundlePath(0)
  {
    assert RootTag[0] != "ci-bundle0"[0] && RootTag[0] != BundleSourceTag[0] && "ci-bundle0"[0] != BundleSourceTag[0];
    RunOfDistinct(UnnamedBundleList, 1);
  }

  lemma UnnamedBundleNames(c: Configuration)
    requires c.buildRoot.Some? && c.tests == [] && c.images == [Image("ci-bundle0")]
    requires c.baseImages == map[] && c.baseRpmImages == map[]
    requires c.binaryBuildCommands == "" && c.testBinaryBuildCommands == "" && c.rpmBuildCommands == ""
    requires c.operator == Some(OperatorConfiguration([UnnamedBundle], []))
    ensures NameErrors(c)
      == [ValidationError(Images.ImagePath(0), DuplicateImageName("ci-bundle0", Operator.BundlePath(0)))]
  {
    UnnamedBundleListClaims(c);
    UnnamedBundleDistinct();
    ImageClashes(c, "ci-bundle0", Operator.BundlePath(0));
  }

  lemma UnnamedBundleClaimsFirst(c: Configuration, resolves: string -> bool)
    requires Quiet(c) && c.tests == [] && c.images == [Image("ci-bundle0")]
    requires c.baseImages == map[] && c.baseRpmImages == map[]
    requires c.binaryBuildCommands == "" && c.testBinaryBuildCommands == "" && c.rpmBuildCommands == ""
    requires c.operator == Some(OperatorConfiguration([UnnamedBundle], []))
    ensures ConfigurationErrors(c, false, resolves)
      == [ValidationError(Images.ImagePath(0), DuplicateImageName("ci-bundle0", Operator.BundlePath(0)))]
  {
    UnnamedBundleNames(c);
    QuietReportsNames(c, resolves);
  }

  lemma BundleSourceNames(c: Configuration)
    requires c.buildRoot.Some? && c.tests == [] && c.images == [Image(BundleSourceTag)]
    requires c.baseImages == map[] && c.baseRpmImages == map[]
    requires c.binaryBuildCommands == "" && c.testBinaryBuildCommands == "" && c.rpmBuildCommands == ""
    requires c.operator == Some(OperatorConfiguration([], []))
    ensures NameErrors(c)
      == [ValidationError(Images.ImagePath(0), DuplicateImageName(BundleSourceTag, Operator.OperatorPath))]
  {
    OperatorOnly(c);
    var claims := [Produce(RootTag, Inputs.BuildRootPath), Produce(BundleSourceTag, Operator.OperatorPath)];
    assert PipelineClaims(c) == claims;
    assert RootTag[0] != BundleSourceTag[0];
    RunOfDistinct(claims, 1);
    ImageClashes(c, BundleSourceTag, Operator.OperatorPath);
  }

  lemma BundleSourceClaimsFirst(c: Configuration, resolves: string -> bool)
    requires Quiet(c) && c.tests == [] && c.images == [Image(BundleSourceTag)]
    requires c.baseImages == map[] && c.baseRpmImages == map[]
    requires c.binaryBuildCommands == "" && c.testBinaryBuildCommands == "" && c.rpmBuildCommands == ""
    requires c.operator == Some(OperatorConfiguration([], []))
    ensures ConfigurationErrors(c, false, resolves)
      == [ValidationError(Images.ImagePath(0), DuplicateImageName(BundleSourceTag, Operator.OperatorPath))]
  {
    BundleSourceNames(c);
    QuietReportsNames(c, resolves);
  }

  const TaggedRef := ImageStreamTagReference("", "", "tag")

  const BaseImageAt: Path := AddKey(BaseImagesPath, "base-image")
  const BaseImageList := [Produce(RootTag, Inputs.BuildRootPath), Produce("base-image", BaseImageAt)]

  lemma BaseImageListClaims(c: Configuration)
    requires c.buildRoot.Some? && c.baseImages == map["base-image" := TaggedRef] && c.baseRpmImages == map[]
    requires c.binaryBuildCommands == "" && c.testBinaryBuildCommands == "" && c.rpmBuildCommands == ""
    requires c.operator.None?
    ensures PipelineClaims(c) == BaseImageList
  {
    SortedKeysOfOne(c.baseImages, "base-image");
    NoKeys(c.baseRpmImages);
  }

  lemma BaseImageDistinct()
    ensures Run(NoNames, BaseImageList).errors == []
    ensures "base-image" in Run(NoNames, BaseImageList).names.seen
    ensures Run(NoNames, BaseImageList).names.seen["base-image"] == BaseImageAt
  {
    assert RootTag[0] != "base-image"[0];
    RunOfDistinct(BaseImageList, 1);
  }

  lemma BaseImageNames(c: Configuration)
    requires c.buildRoot.Some? && c.tests == [] && c.images == [Image("base-image")]
    requires c.baseImages == map["base-image" := TaggedRef] && c.baseRpmImages == map[] && c.operator.None?
    requires c.binaryBuildCommands == "" && c.testBinaryBuildCommands == "" && c.rpmBuildCommands == ""
    ensures NameErrors(c)
      == [ValidationError(Images.ImagePath(0), DuplicateImageName("base-image", BaseImageAt))]
  {
    BaseImageListClaims(c);
    BaseImageDistinct();
    ImageClashes(c, "base-image", BaseImageAt);
  }

  lemma BaseImageClaimsFirst(c: Configuration, resolves: string -> bool)
    requires Quiet(c) && c.tests == [] && c.images == [Image("base-image")]
    requires c.baseImages == map["base-image" := TaggedRef] && c.baseRpmImages == map[] && c.operator.None?
    requires c.binaryBuildCommands == "" && c.testBinaryBuildCommands == "" && c.rpmBuildCommands == ""
    ensures ConfigurationErrors(c, false, resolves)
      == [ValidationError(Images.ImagePath(0), DuplicateImageName("base-image", BaseImageAt))]
  {
    BaseImageNames(c);
    QuietReportsNames(c, resolves);
  }

  const BaseRpmAt: Path := AddKey(BaseRpmImagesPath, "base-rpm-image")

  /** The producers of the configuration with one base RPM image and RPM build commands, in order. */
  const BaseRpmList := [Produce(RootTag, Inputs.BuildRootPath), Produce("base-rpm-image", BaseRpmAt),
                        Produce("base-rpm-image-without-rpms", BaseRpmAt), Produce(RpmsTag, RpmBuildCommandsPath)]

  lemma BaseRpmDistinct(j: nat)
    requires j < |BaseRpmList|
    ensures Run(NoNames, BaseRpmList).errors == []
    ensures BaseRpmList[j].name in Run(NoNames, BaseRpmList).names.seen
    ensures Run(NoNames, BaseRpmList).names.seen[BaseRpmList[j].name] == BaseRpmList[j].at
  {
    assert RootTag[0] != "base-rpm-image"[0] && RootTag[0] != "base-rpm-image-without-rpms"[0] && RootTag[1] != RpmsTag[1];
    assert |"base-rpm-image"| != |"base-rpm-image-without-rpms"|;
    assert "base-rpm-image"[0] != RpmsTag[0] && "base-rpm-image-without-rpms"[0] != RpmsTag[0];
    RunOfDistinct(BaseRpmList, j);
  }

  // A solver hint about sequence literals only; it states nothing about the model.
  lemma InOrder<T>(a: T, b: T, c: T, d: T)
    ensures [a] + [] + [b, c] + [d] + [] == [a, b, c, d]
  {
  }

  lemma OneBaseRpmImage()
    ensures BaseRpmImageClaims(["base-rpm-image"])
      == [Produce("base-rpm-image", BaseRpmAt), Produce("base-rpm-image-without-rpms", BaseRpmAt)]
  {
    assert ["base-rpm-image"][..0] == [];
    assert WithoutRpmsName("base-rpm-image") == "base-rpm-image-without-rpms";
  }

  lemma BaseRpmParts(c: Configuration)
    requires c.buildRoot.Some? && c.baseImages == map[] && c.baseRpmImages == map["base-rpm-image" := TaggedRef]
    requires c.binaryBuildCommands == "" && c.testBinaryBuildCommands == "" && c.rpmBuildCommands != ""
    requires c.operator.None?
    ensures PipelineClaims(c)
      == [Produce(RootTag, Inputs.BuildRootPath)] + [] + BaseRpmImageClaims(["base-rpm-image"])
         + [Produce(RpmsTag, RpmBuildCommandsPath)] + []
  {
    NoKeys(c.baseImages);
    assert c.baseRpmImages.Keys == {"base-rpm-image"};
    SortedKeysOfOne(c.baseRpmImages, "base-rpm-image");
    assert CommandClaims(c) == [Produce(RpmsTag, RpmBuildCommandsPath)];
    assert BaseImageClaims([]) == [];
  }

  lemma BaseRpmListClaims(c: Configuration)
    requires c.buildRoot.Some? && c.baseImages == map[] && c.baseRpmImages == map["base-rpm-image" := TaggedRef]
    requires c.binaryBuildCommands == "" && c.testBinaryBuildCommands == "" && c.rpmBuildCommands != ""
    requires c.operator.None?
    ensures PipelineClaims(c) == BaseRpmList
  {
    BaseRpmParts(c);
    OneBaseRpmImage();
    InOrder(Produce(RootTag, Inputs.BuildRootPath), Produce("base-rpm-image", BaseRpmAt),
            Produce("base-rpm-image-without-rpms", BaseRpmAt), Produce(RpmsTag, RpmBuildCommandsPath));
  }

  lemma BaseRpmImageNames(c: Configuration)
    requires c.buildRoot.Some? && c.tests == [] && c.images == [Image("base-rpm-image")]
    requires c.baseImages == map[] && c.baseRpmImages == map["base-rpm-image" := TaggedRef] && c.operator.None?
    requires c.binaryBuildCommands == "" && c.testBinaryBuildCommands == "" && c.rpmBuildCommands != ""
    ensures NameErrors(c)
      == [ValidationError(Images.ImagePath(0), DuplicateImageName("base-rpm-image", BaseRpmAt))]
  {
    BaseRpmListClaims(c);
    BaseRpmDistinct(1);
    ImageClashes(c, "base-rpm-image", BaseRpmAt);
  }

  lemma BaseRpmImageClaimsFirst(c: Configuration, resolves: string -> bool)
    requires Quiet(c) && c.tests == [] && c.images == [Image("base-rpm-image")]
    requires c.baseImages == map[] && c.baseRpmImages == map["base-rpm-image" := TaggedRef] && c.operator.None?
    requires c.binaryBuildCommands == "" && c.testBinaryBuildCommands == "" && c.rpmBuildCommands != ""
    ensures ConfigurationErrors(c, false, resolves)
      == [ValidationError(Images.ImagePath(0), DuplicateImageName("base-rpm-image", BaseRpmAt))]
  {
    BaseRpmImageNames(c);
    QuietReportsNames(c, resolves);
  }

  lemma WithoutRpmsNames(c: Configuration)
    requires c.buildRoot.Some? && c.tests == [] && c.images == [Image("base-rpm-image-without-rpms")]
    requires c.baseImages == map[] && c.baseRpmImages == map["base-rpm-image" := TaggedRef] && c.operator.None?
    requires c.binaryBuildCommands == "" && c.testBinaryBuildCommands == "" && c.rpmBuildCommands != ""
    ensures NameErrors(c)
      == [ValidationError(Images.ImagePath(0),
            DuplicateImageName("base-rpm-image-without-rpms", BaseRpmAt))]
  {
    BaseRpmListClaims(c);
    BaseRpmDistinct(2);
    ImageClashes(c, "base-rpm-image-without-rpms", BaseRpmAt);
  }

  lemma WithoutRpmsClaimsFirst(c: Configuration, resolves: string -> bool)
    requires Quiet(c) && c.tests == [] && c.images == [Image("base-rpm-image-without-rpms")]
    requires c.baseImages == map[] && c.baseRpmImages == map["base-rpm-image" := TaggedRef] && c.operator.None?
    requires c.binaryBuildCommands == "" && c.testBinaryBuildCommands == "" && c.rpmBuildCommands != ""
    ensures ConfigurationErrors(c, false, resolves)
      == [ValidationError(Images.ImagePath(0),
            DuplicateImageName("base-rpm-image-without-rpms", BaseRpmAt))]
  {
    WithoutRpmsNames(c);
    QuietReportsNames(c, resolves);
  }

  // ---------------------------------------------------------------------------
  // The from_image cases: one literal step per test importing ns/name:from_image

  const FromImageRef := ImageStreamTagReference("ns", "name", "from_image")
  const ImportingStep := LiteralTestStep("step-name", Some(FromImageRef), [])

  /** A literal multi-stage test whose one test step imports `FromImageRef`. */
  function ImportingTest(name: string): TestStepConfiguration {
    TestStepConfiguration(name, None, Some(MultiStageTestConfigurationLiteral([], [ImportingStep], [], map[])))
  }

  function ImportPath(i: nat): Path {
    AddField(AddIndex(AddField(AddField(Dependencies.TestPath(i), "steps"), "test"), 0), "from_image")
  }

  function Imports(ref: ImageStreamTagReference, ats: seq<Path>): (r: seq<Claim>)
    ensures |r| == |ats| && forall j :: 0 <= j < |ats| ==> r[j] == Import(ref, ats[j])
  {
    seq(|ats|, (j: int) requires 0 <= j < |ats| => Import(ref, ats[j]))
  }

  /**
   * Importing one reference several times: only the first import claims
   * its name, so only the first can be reported.
   */
  lemma {:induction false} ReimportsSilent(names: Names, ref: ImageStreamTagReference, ats: seq<Path>)
    requires |ats| > 0 && ref !in names.aliases
    ensures ref in Run(names, Imports(ref, ats)).names.aliases
    ensures Run(names, Imports(ref, ats)).errors
      == Record(names.(aliases := names.aliases + {ref}), FromImageName(ref), ats[0]).errors
    decreases |ats|
  {
    var claims := Imports(ref, ats);
    var n := |ats| - 1;
    assert claims[..n] == Imports(ref, ats[..n]);
    if n == 0 {
      assert claims[..0] == [];
    } else {
      ReimportsSilent(names, ref, ats[..n]);
    }
  }

  lemma ImportingTestClaims(i: nat, name: string)
    ensures TestClaims(i, ImportingTest(name)) == [Import(FromImageRef, ImportPath(i))]
  {
    var at := AddField(Dependencies.TestPath(i), "steps");
    Dependencies.AllCheckedOfOne(ImportingStep);
    assert Dependencies.AllChecked([]) == [];
    assert [Some(ImportingStep)][..0] == [];
    assert StepClaims(AddField(at, "test"), [Some(ImportingStep)]) == [Import(FromImageRef, ImportPath(i))];
    assert PhasesClaims(at, [], [Some(ImportingStep)], []) == [Import(FromImageRef, ImportPath(i))];
  }

  lemma ImportingTestSatisfied(c: Configuration, name: string)
    ensures Dependencies.TestSatisfied(c, ImportingTest(name))
  {
    Dependencies.AllCheckedOfOne(ImportingStep);
    assert Dependencies.PhaseSatisfied(c, [Some(ImportingStep)], map[]);
  }

  /** Tests that only import, under names no image takes, are sound. */
  lemma ImportingTestsValid(c: Configuration)
    requires forall i :: 0 <= i < |c.tests| ==> c.tests[i] == ImportingTest(c.tests[i].name)
    requires forall i :: 0 <= i < |c.tests| ==> forall k :: 0 <= k < |c.images| ==> c.images[k].to != c.tests[i].name
    ensures ValidTests(c)
  {
    forall i | 0 <= i < |c.tests|
      ensures Dependencies.TestSatisfied(c, c.tests[i])
    {
      ImportingTestSatisfied(c, c.tests[i].name);
    }
  }

  lemma TwoImportingTestsValid(c: Configuration, t0: string, t1: string)
    requires c.tests == [ImportingTest(t0), ImportingTest(t1)]
    requires forall k :: 0 <= k < |c.images| ==> c.images[k].to != t0 && c.images[k].to != t1
    ensures ValidTests(c)
  {
    ImportingTestsValid(c);
  }

  lemma ThreeImportingTestsValid(c: Configuration, t0: string, t1: string, t2: string)
    requires c.tests == [ImportingTest(t0), ImportingTest(t1), ImportingTest(t2)] && c.images == []
    ensures ValidTests(c)
  {
    ImportingTestsValid(c);
  }

  lemma TwoImportingTests(t0: string, t1: string)
    ensures FromImageClaims([ImportingTest(t0), ImportingTest(t1)]) == Imports(FromImageRef, [ImportPath(0), ImportPath(1)])
  {
    var tests := [ImportingTest(t0), ImportingTest(t1)];
    ImportingTestClaims(0, t0);
    ImportingTestClaims(1, t1);
    assert tests[..1] == [ImportingTest(t0)] && tests[..1][..0] == [];
    assert FromImageClaims(tests[..1]) == [Import(FromImageRef, ImportPath(0))];
  }

  lemma ThreeImportingTests(t0: string, t1: string, t2: string)
    ensures FromImageClaims([ImportingTest(t0), ImportingTest(t1), ImportingTest(t2)])
      == Imports(FromImageRef, [ImportPath(0), ImportPath(1), ImportPath(2)])
  {
    var tests := [ImportingTest(t0), ImportingTest(t1), ImportingTest(t2)];
    TwoImportingTests(t0, t1);
    ImportingTestClaims(2, t2);
    assert tests[..2] == [ImportingTest(t0), ImportingTest(t1)];
  }

  lemma OneImageWalk(names: Names, a: string)
    requires a != "" && a !in names.seen
    ensures Images.ImagesWalk(names, [Image(a)]) == Outcome(names.(seen := names.seen[a := Images.ImagePath(0)]), [])
  {
    assert [Image(a)][..0] == [];
    assert Images.InputErrors(Images.ImagePath(0), Image(a)) == [];
  }

  lemma FromImageRefName()
    ensures FromImageName(FromImageRef) == "ns-name-from_image"
  {
  }

  /**
   * Two tests import the reference whose name an image took: the first
   * import is reported, citing the image; the second re-imports and is not.
   */
  lemma FromImageAfterImageNames(c: Configuration)
    requires c.buildRoot.Some? && c.baseImages == map[] && c.baseRpmImages == map[] && c.operator.None?
    requires c.binaryBuildCommands == "" && c.testBinaryBuildCommands == "" && c.rpmBuildCommands == ""
    requires c.images == [Image("ns-name-from_image")]
    requires c.tests == [ImportingTest("test0"), ImportingTest("test1")]
    ensures NameErrors(c)
      == [ValidationError(ImportPath(0), DuplicateImageName("ns-name-from_image", Images.ImagePath(0)))]
  {
    var names := Names(map[RootTag := Inputs.BuildRootPath], {});
    RootOnly(c);
    assert "ns-name-from_image"[0] != RootTag[0];
    OneImageWalk(names, "ns-name-from_image");
    var after := names.(seen := names.seen["ns-name-from_image" := Images.ImagePath(0)]);
    TwoImportingTests("test0", "test1");
    ReimportsSilent(after, FromImageRef, [ImportPath(0), ImportPath(1)]);
    FromImageRefName();
  }

  lemma FromImageAfterImageClaimFirst(c: Configuration, resolves: string -> bool)
    requires Quiet(c) && c.baseImages == map[] && c.baseRpmImages == map[] && c.operator.None?
    requires c.binaryBuildCommands == "" && c.testBinaryBuildCommands == "" && c.rpmBuildCommands == ""
    requires c.images == [Image("ns-name-from_image")]
    requires c.tests == [ImportingTest("test0"), ImportingTest("test1")]
    ensures ConfigurationErrors(c, false, resolves)
      == [ValidationError(ImportPath(0), DuplicateImageName("ns-name-from_image", Images.ImagePath(0)))]
  {
    FromImageAfterImageNames(c);
    TestNamesDiffer();
    TwoImportingTestsValid(c, "test0", "test1");
    QuietTestsReportNames(c, resolves);
  }

  lemma TestNamesDiffer()
    ensures "test0" != "ns-name-from_image" && "test1" != "ns-name-from_image"
  {
    assert "test0"[0] != "ns-name-from_image"[0] && "test1"[0] != "ns-name-from_image"[0];
  }

  /** Three tests importing one reference, and no image of its name: nothing to report. */
  lemma AliasedFromImageNames(c: Configuration)
    requires c.buildRoot.Some? && c.baseImages == map[] && c.baseRpmImages == map[] && c.operator.None?
    requires c.binaryBuildCommands == "" && c.testBinaryBuildCommands == "" && c.rpmBuildCommands == ""
    requires c.images == []
    requires c.tests == [ImportingTest("test0"), ImportingTest("test1"), ImportingTest("test2")]
    ensures NameErrors(c) == []
  {
    var names := Names(map[RootTag := Inputs.BuildRootPath], {});
    RootOnly(c);
    ThreeImportingTests("test0", "test1", "test2");
    ReimportsSilent(names, FromImageRef, [ImportPath(0), ImportPath(1), ImportPath(2)]);
    FromImageRefName();
    assert "ns-name-from_image"[0] != RootTag[0];
  }

  lemma AliasedFromImageAccepted(c: Configuration, resolves: string -> bool)
    requires Quiet(c) && c.baseImages == map[] && c.baseRpmImages == map[] && c.operator.None?
    requires c.binaryBuildCommands == "" && c.testBinaryBuildCommands == "" && c.rpmBuildCommands == ""
    requires c.images == []
    requires c.tests == [ImportingTest("test0"), ImportingTest("test1"), ImportingTest("test2")]
    ensures ConfigurationErrors(c, false, resolves) == []
  {
    AliasedFromImageNames(c);
    ThreeImportingTestsValid(c, "test0", "test1", "test2");
    QuietTestsReportNames(c, resolves);
  }

  // ---------------------------------------------------------------------------
  // The global policies on a configuration that builds and tests nothing

  /** No producer, image, test or input section; valid resources. */
  predicate Bare(c: Configuration) {
    && c.buildRoot.None? && c.buildRoots == map[] && c.baseImages == map[] && c.baseRpmImages == map[]
    && c.externalImages == map[] && c.tagSpecification.None?
    && c.binaryBuildCommands == "" && c.testBinaryBuildCommands == "" && c.rpmBuildCommands == ""
    && c.images == [] && c.operator.None? && c.tests == []
    && Resources.ValidResources(c.resources)
  }

  lemma BareNames(c: Configuration)
    requires Bare(c)
    ensures NameErrors(c) == []
  {
    NoKeys(c.baseImages);
    NoKeys(c.baseRpmImages);
    assert PipelineClaims(c) == [];
  }

  // A solver hint about concatenating empty sequences only; it states nothing about the model.
  lemma DropEmpty<T>(x: seq<T>, t: seq<T>, n: seq<T>, s: seq<T>, m: seq<T>)
    requires t == x + [] + [] && n == [] && s == []
    ensures t + n + s + m == x + m
  {
  }

  /** Of a bare configuration, only the global policies have anything to say. */
  lemma BareReleaseBuild(c: Configuration, merged: bool, resolves: string -> bool)
    requires Bare(c)
    ensures ReleaseBuildErrors(c, merged, resolves) == TestsOrImagesErrors(c) + MergedOnlyErrors(c, merged)
  {
    var t, n, s, m := TestsErrors(c), NameErrors(c), SectionErrors(c, resolves), MergedOnlyErrors(c, merged);
    BareNames(c);
    assert ValidInputs(c) && ValidOperator(c, resolves);
    SectionErrorsIff(c, resolves);
    Dependencies.NoTestsAccepted(c);
    var x := TestsOrImagesErrors(c);
    assert t == x + [] + [];
    assert n == [] && s == [];
    DropEmpty(x, t, n, s, m);
    assert ReleaseBuildErrors(c, merged, resolves) == t + n + s + m;
  }

  const AdditionalImages := PromotionConfiguration([PromotionTarget("", "", "", map["name" := "src"])])

  lemma AdditionalImagesPromoted(c: Configuration)
    requires c.promotion == Some(AdditionalImages)
    ensures PromotesAdditionalImages(c)
  {
    var t := AdditionalImages.targets[0];
    assert t in c.promotion.value.targets && "name" in t.additionalImages;
  }

  lemma EmptyRefused(c: Configuration, resolves: string -> bool)
    requires Bare(c) && !UsesMergedOnlyLists(c) && c.promotion.None?
    ensures ReleaseBuildErrors(c, false, resolves) == [ValidationError(Root, NoTestsOrImages)]
  {
    BareReleaseBuild(c, false, resolves);
    assert TestsOrImagesErrors(c) == [ValidationError(Root, NoTestsOrImages)];
    assert MergedOnlyErrors(c, false) == [];
  }

  lemma PromotedAdditionalImagesSuffice(c: Configuration, resolves: string -> bool)
    requires Bare(c) && !UsesMergedOnlyLists(c) && c.promotion == Some(AdditionalImages)
    ensures ReleaseBuildErrors(c, false, resolves) == []
  {
    BareReleaseBuild(c, false, resolves);
    AdditionalImagesPromoted(c);
  }

  lemma MergedAllowsLists(c: Configuration, resolves: string -> bool)
    requires Bare(c) && UsesMergedOnlyLists(c) && c.promotion == Some(AdditionalImages)
    ensures ReleaseBuildErrors(c, true, resolves) == []
  {
    BareReleaseBuild(c, true, resolves);
    AdditionalImagesPromoted(c);
  }

  lemma UnmergedRefusesLists(c: Configuration, resolves: string -> bool)
    requires Bare(c) && UsesMergedOnlyLists(c) && c.promotion == Some(AdditionalImages)
    ensures ReleaseBuildErrors(c, false, resolves) == [ValidationError(Root, MergedOnlyFields)]
  {
    BareReleaseBuild(c, false, resolves);
    AdditionalImagesPromoted(c);
  }

  // ---------------------------------------------------------------------------
  // One image and one container test: test names and the build_roots policy

  /** A test that runs commands in a container: no multi-stage steps. */
  function ContainerTest(name: string): TestStepConfiguration {
    TestStepConfiguration(name, None, None)
  }

  /**
   * One image and one container test, a build root given either as
   * `build_root` or as the `build_roots` of a merged configuration, and
   * nothing else to check.
   */
  predicate OneImageOneTest(c: Configuration, image: string, test: string) {
    && ((c.buildRoot == Some(FromRepository) && c.buildRoots == map[]) || (c.buildRoot.None? && |c.buildRoots| > 0))
    && c.baseImages == map[] && c.baseRpmImages == map[] && c.externalImages == map[] && c.tagSpecification.None?
    && c.binaryBuildCommands == "" && c.testBinaryBuildCommands == "" && c.rpmBuildCommands == ""
    && !UsesMergedOnlyLists(c) && c.operator.None?
    && c.images == [Image(image)] && c.tests == [ContainerTest(test)]
    && Resources.ValidResources(c.resources)
  }

  lemma OneImageOneTestClaims(c: Configuration, image: string, test: string)
    requires OneImageOneTest(c, image, test)
    ensures PipelineClaims(c) == [Produce(RootTag, if c.buildRoot.Some? then Inputs.BuildRootPath else BuildRootsPath)]
    ensures FromImageClaims(c.tests) == []
  {
    NoKeys(c.baseImages);
    NoKeys(c.baseRpmImages);
    assert c.tests[..0] == [];
  }

  lemma OneImageOneTestNames(c: Configuration, image: string, test: string)
    requires OneImageOneTest(c, image, test) && image != "" && image != RootTag
    ensures NameErrors(c) == []
  {
    var at := if c.buildRoot.Some? then Inputs.BuildRootPath else BuildRootsPath;
    OneImageOneTestClaims(c, image, test);
    assert [Produce(RootTag, at)][..0] == [];
    var names := Names(map[RootTag := at], {});
    assert Run(NoNames, PipelineClaims(c)) == Outcome(names, []);
    OneImageWalk(names, image);
  }

  lemma OneImageOneTestTestNames(c: Configuration, image: string, test: string)
    requires OneImageOneTest(c, image, test)
    ensures TestNameErrors(c)
      == if image == test then [ValidationError(AddField(Dependencies.TestPath(0), "as"), NameTakenByImage(test))] else []
  {
    var f := TestNameCheck(c);
    assert FlatMapIndexed(1, f) == [] + f(0);
    assert BuildsImage(c, test) <==> c.images[0].to == test;
  }

  /** Only the build_roots policy and the test names have anything to say. */
  lemma OneImageOneTestErrors(c: Configuration, merged: bool, resolves: string -> bool, image: string, test: string)
    requires OneImageOneTest(c, image, test) && image != "" && image != RootTag
    ensures ConfigurationErrors(c, merged, resolves) == BuildRootsPolicyErrors(c, merged) + TestNameErrors(c)
  {
    var p, t, n, s, m := BuildRootsPolicyErrors(c, merged), TestsErrors(c), NameErrors(c), SectionErrors(c, resolves), MergedOnlyErrors(c, merged);
    var x := TestNameErrors(c);
    OneImageOneTestNames(c, image, test);
    assert ValidInputs(c) && ValidOperator(c, resolves);
    SectionErrorsIff(c, resolves);
    assert Dependencies.TestSatisfied(c, c.tests[0]);
    assert Dependencies.DependencyErrors(c) == [];
    assert t == [] + x + [];
    assert n == [] && s == [] && m == [];
    assert ConfigurationErrors(c, merged, resolves) == p + (t + n + s + m);
    assert t + n + s + m == x;
  }

  lemma ImageAndTestAccepted(c: Configuration, resolves: string -> bool)
    requires OneImageOneTest(c, "image", "test") && c.buildRoot.Some?
    ensures ConfigurationErrors(c, false, resolves) == []
  {
    assert "image"[0] != "test"[0] && "image"[0] != RootTag[0];
    OneImageOneTestErrors(c, false, resolves, "image", "test");
    OneImageOneTestTestNames(c, "image", "test");
  }

  lemma TestTakesImageName(c: Configuration, resolves: string -> bool)
    requires OneImageOneTest(c, "duplicated", "duplicated") && c.buildRoot.Some?
    ensures ConfigurationErrors(c, false, resolves)
      == [ValidationError(AddField(Dependencies.TestPath(0), "as"), NameTakenByImage("duplicated"))]
  {
    assert "duplicated"[0] != RootTag[0];
    OneImageOneTestErrors(c, false, resolves, "duplicated", "duplicated");
    OneImageOneTestTestNames(c, "duplicated", "duplicated");
  }

  lemma MergedBuildRootsAccepted(c: Configuration, resolves: string -> bool)
    requires OneImageOneTest(c, "image", "test") && c.buildRoot.None?
    ensures ConfigurationErrors(c, true, resolves) == []
  {
    assert "image"[0] != "test"[0] && "image"[0] != RootTag[0];
    OneImageOneTestErrors(c, true, resolves, "image", "test");
    OneImageOneTestTestNames(c, "image", "test");
  }

  lemma UnmergedBuildRootsRefused(c: Configuration, resolves: string -> bool)
    requires OneImageOneTest(c, "image", "test") && c.buildRoot.None?
    ensures ConfigurationErrors(c, false, resolves) == [ValidationError(Root, BuildRootsNotPermitted)]
  {
    assert "image"[0] != "test"[0] && "image"[0] != RootTag[0];
    OneImageOneTestErrors(c, false, resolves, "image", "test");
    OneImageOneTestTestNames(c, "image", "test");
  }
}
