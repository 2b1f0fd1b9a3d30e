/**
 * The test-step dependency checker: every dependency a literal step of a
 * multi-stage test declares must name something the rest of the
 * configuration provides, unless the test overrides the variable it is
 * exposed as. Each unmet dependency is reported once, at its own field,
 * with the prerequisite it lacks.
 */
module Dependencies {
  import opened Wrappers
  import opened FieldPath
  import opened Errors
  import opened Api
  import opened Resolver

  // ---------------------------------------------------------------------------
  // One dependency

  /** Why a `pipeline:<tag>` reference has no producer, if it has none. */
  function PipelineProblem(c: Configuration, tag: string): Option<Reason> {
    if tag == RootTag then (if HasBuildRoot(c) then None else Some(NeedsBuildRoot))
    else if tag == BinariesTag then (if BuildsBinaries(c) then None else Some(NeedsBinaries))
    else if tag == TestBinariesTag then (if BuildsTestBinaries(c) then None else Some(NeedsTestBinaries))
    else if tag == RpmsTag then (if BuildsRpms(c) then None else Some(NeedsRpms))
    else if tag == SourceTag then None
    else if IsIndexName(tag) then (if c.operator.Some? then None else Some(NeedsOperatorBundle))
    else if IsBaseImage(c, tag) || BuildsImage(c, tag) || OperatorBuilds(c, tag) then None
    else Some(NoPipelineSource)
  }

  /**
   * Why a dependency cannot be satisfied, if it cannot: an explicit
   * reference is checked against the stream it names; an implicit guess (a
   * bare name nothing produces) is never reported.
   */
  function Unsatisfied(c: Configuration, dependency: string): Option<Reason> {
    var parts := DependencyParts(c, dependency, None);
    if !parts.explicit then None else StreamProblem(c, parts.stream, parts.tag)
  }

  /** Why an explicit reference to `tag` in `stream` has no producer, if it has none. */
  function StreamProblem(c: Configuration, stream: string, tag: string): Option<Reason> {
    if stream == PipelineImageStream then PipelineProblem(c, tag)
    else match ReleaseOf(stream, tag)
      case Some(release) => if HasRelease(c, release) then None else Some(NeedsRelease(release))
      case None => Some(UnknownStream)
  }

  // ---------------------------------------------------------------------------
  // The walk: tests, their phases, the steps of a phase, the dependencies of a step

  function TestPath(i: nat): Path {
    AddIndex(AddField(Root, "tests"), i)
  }

  function DependencyPath(step: Path, k: nat): Path {
    AddIndex(AddField(step, "dependencies"), k)
  }

  /** The dependency is checked: its variable is not overridden by the test. */
  predicate Checked(d: StepDependency, overrides: map<string, string>) {
    d.env !in overrides
  }

  function DependencyCheck(c: Configuration, at: Path, deps: seq<StepDependency>, overrides: map<string, string>)
    : nat -> seq<ValidationError>
  {
    (k: nat) =>
      if k < |deps| && Checked(deps[k], overrides) then
        match Unsatisfied(c, deps[k].name)
        case None => []
        case Some(reason) => [ValidationError(DependencyPath(at, k), Unsatisfiable(deps[k].name, reason))]
      else []
  }

  /** Every checked dependency of the step is satisfied. */
  predicate StepSatisfied(c: Configuration, step: LiteralTestStep, overrides: map<string, string>) {
    forall k :: 0 <= k < |step.dependencies| && Checked(step.dependencies[k], overrides) ==>
      Unsatisfied(c, step.dependencies[k].name).None?
  }

  /** The errors of one step, located under `at`, dependencies in order. */
  function StepErrors(c: Configuration, at: Path, step: LiteralTestStep, overrides: map<string, string>)
    : (r: seq<ValidationError>)
    ensures r == [] <==> StepSatisfied(c, step, overrides)
  {
    var f := DependencyCheck(c, at, step.dependencies, overrides);
    assert forall k :: 0 <= k < |step.dependencies| ==>
      (f(k) == [] <==> (Checked(step.dependencies[k], overrides) ==> Unsatisfied(c, step.dependencies[k].name).None?));
    FlatMapIndexed(|step.dependencies|, f)
  }

  /** The steps of a phase: the literal ones are checked, references to registered steps are not. */
  function StepCheck(c: Configuration, at: Path, steps: seq<Option<LiteralTestStep>>, overrides: map<string, string>)
    : nat -> seq<ValidationError>
  {
    (j: nat) => if j < |steps| && steps[j].Some? then StepErrors(c, AddIndex(at, j), steps[j].value, overrides) else []
  }

  predicate PhaseSatisfied(c: Configuration, steps: seq<Option<LiteralTestStep>>, overrides: map<string, string>) {
    forall j :: 0 <= j < |steps| && steps[j].Some? ==> StepSatisfied(c, steps[j].value, overrides)
  }

  function PhaseErrors(c: Configuration, at: Path, steps: seq<Option<LiteralTestStep>>, overrides: map<string, string>)
    : (r: seq<ValidationError>)
    ensures r == [] <==> PhaseSatisfied(c, steps, overrides)
  {
    var f := StepCheck(c, at, steps, overrides);
    assert forall j :: 0 <= j < |steps| ==>
      (f(j) == [] <==> (steps[j].Some? ==> StepSatisfied(c, steps[j].value, overrides)));
    FlatMapIndexed(|steps|, f)
  }

  /** A templated phase's steps: literal steps are checked at their own index. */
  function Literals(steps: seq<TestStep>): (r: seq<Option<LiteralTestStep>>)
    ensures |r| == |steps|
    ensures forall j :: 0 <= j < |steps| ==> (r[j].Some? <==> steps[j].Literal?)
    ensures forall j :: 0 <= j < |steps| && steps[j].Literal? ==> r[j].value == steps[j].step
  {
    seq(|steps|, (j: int) requires 0 <= j < |steps| => if steps[j].Literal? then Some(steps[j].step) else None)
  }

  /** A fully literal phase: every step is checked. */
  function AllChecked(steps: seq<LiteralTestStep>): (r: seq<Option<LiteralTestStep>>)
    ensures |r| == |steps|
    ensures forall j :: 0 <= j < |steps| ==> r[j] == Some(steps[j])
  {
    seq(|steps|, (j: int) requires 0 <= j < |steps| => Some(steps[j]))
  }

  /** The three phases of a test under `at` (`tests[i].steps` or `tests[i].literal_steps`), in order. */
  function PhasesErrors(
    c: Configuration, at: Path,
    pre: seq<Option<LiteralTestStep>>, test: seq<Option<LiteralTestStep>>, post: seq<Option<LiteralTestStep>>,
    overrides: map<string, string>): (r: seq<ValidationError>)
    ensures r == [] <==> PhaseSatisfied(c, pre, overrides) && PhaseSatisfied(c, test, overrides) && PhaseSatisfied(c, post, overrides)
  {
    PhaseErrors(c, AddField(at, "pre"), pre, overrides)
    + PhaseErrors(c, AddField(at, "test"), test, overrides)
    + PhaseErrors(c, AddField(at, "post"), post, overrides)
  }

  predicate TestSatisfied(c: Configuration, t: TestStepConfiguration) {
    && (t.multiStage.Some? ==>
          var m := t.multiStage.value;
          && PhaseSatisfied(c, Literals(m.pre), m.dependencyOverrides)
          && PhaseSatisfied(c, Literals(m.test), m.dependencyOverrides)
          && PhaseSatisfied(c, Literals(m.post), m.dependencyOverrides))
    && (t.multiStageLiteral.Some? ==>
          var m := t.multiStageLiteral.value;
          && PhaseSatisfied(c, AllChecked(m.pre), m.dependencyOverrides)
          && PhaseSatisfied(c, AllChecked(m.test), m.dependencyOverrides)
          && PhaseSatisfied(c, AllChecked(m.post), m.dependencyOverrides))
  }

  /** The templated steps of a test, reported under `tests[i].steps`. */
  function TemplatedErrors(c: Configuration, i: nat, ms: Option<MultiStageTestConfiguration>): seq<ValidationError> {
    match ms
    case None => []
    case Some(m) =>
      PhasesErrors(c, AddField(TestPath(i), "steps"), Literals(m.pre), Literals(m.test), Literals(m.post), m.dependencyOverrides)
  }

  /** The literal steps of a test, reported under `tests[i].literal_steps`. */
  function LiteralErrors(c: Configuration, i: nat, ms: Option<MultiStageTestConfigurationLiteral>): seq<ValidationError> {
    match ms
    case None => []
    case Some(m) =>
      PhasesErrors(c, AddField(TestPath(i), "literal_steps"), AllChecked(m.pre), AllChecked(m.test), AllChecked(m.post), m.dependencyOverrides)
  }

  /** A test's errors: its templated steps, then its literal ones. */
  function TestErrors(c: Configuration, i: nat, t: TestStepConfiguration): (r: seq<ValidationError>)
    ensures r == [] <==> TestSatisfied(c, t)
  {
    TemplatedErrors(c, i, t.multiStage) + LiteralErrors(c, i, t.multiStageLiteral)
  }

  function TestCheck(c: Configuration): nat -> seq<ValidationError> {
    (i: nat) => if i < |c.tests| then TestErrors(c, i, c.tests[i]) else []
  }

  /** validateTestStepDependencies: the errors of every test, in order. */
  function DependencyErrors(c: Configuration): (r: seq<ValidationError>)
    ensures r == [] <==> forall i :: 0 <= i < |c.tests| ==> TestSatisfied(c, c.tests[i])
  {
    var f := TestCheck(c);
    assert forall i :: 0 <= i < |c.tests| ==> (f(i) == [] <==> TestSatisfied(c, c.tests[i]));
    FlatMapIndexed(|c.tests|, f)
  }

  // ---------------------------------------------------------------------------
  // The dependency checker's loops

  /** The loop over one step's dependencies. */
  method CheckStep(c: Configuration, at: Path, step: LiteralTestStep, overrides: map<string, string>)
    returns (errs: seq<ValidationError>)
    ensures errs == StepErrors(c, at, step, overrides)
  {
    errs := [];
    var deps := step.dependencies;
    ghost var f := DependencyCheck(c, at, deps, overrides);
    for k := 0 to |deps|
      invariant errs == FlatMapIndexed(k, f)
    {
      FlatMapIndexedStep(k, f, errs);
      var more := CheckDependencyAt(c, at, deps, k, overrides);
      errs := errs + more;
    }
  }

  /** The step's k-th dependency: reported at its own field when it is checked and nothing provides it. */
  method CheckDependencyAt(c: Configuration, at: Path, deps: seq<StepDependency>, k: nat, overrides: map<string, string>)
    returns (errs: seq<ValidationError>)
    requires k < |deps|
    ensures errs == DependencyCheck(c, at, deps, overrides)(k)
  {
    errs := [];
    if Checked(deps[k], overrides) {
      var reason := Unsatisfied(c, deps[k].name);
      if reason.Some? {
        errs := [ValidationError(DependencyPath(at, k), Unsatisfiable(deps[k].name, reason.value))];
      }
    }
  }

  /** The loop over a phase's steps. */
  method CheckPhase(c: Configuration, at: Path, steps: seq<Option<LiteralTestStep>>, overrides: map<string, string>)
    returns (errs: seq<ValidationError>)
    ensures errs == PhaseErrors(c, at, steps, overrides)
  {
    errs := [];
    ghost var f := StepCheck(c, at, steps, overrides);
    for j := 0 to |steps|
      invariant errs == FlatMapIndexed(j, f)
    {
      FlatMapIndexedStep(j, f, errs);
      var more := CheckStepAt(c, at, steps, j, overrides);
      errs := errs + more;
    }
  }

  /** The phase's j-th entry: a literal step is checked, a reference to a registry step is not. */
  method CheckStepAt(c: Configuration, at: Path, steps: seq<Option<LiteralTestStep>>, j: nat, overrides: map<string, string>)
    returns (errs: seq<ValidationError>)
    requires j < |steps|
    ensures errs == StepCheck(c, at, steps, overrides)(j)
  {
    errs := [];
    if steps[j].Some? {
      errs := CheckStep(c, AddIndex(at, j), steps[j].value, overrides);
    }
  }

  /** One test: its templated phases, then its literal ones. */
  method CheckTest(c: Configuration, i: nat, t: TestStepConfiguration) returns (errs: seq<ValidationError>)
    ensures errs == TestErrors(c, i, t)
  {
    errs := [];
    if t.multiStage.Some? {
      var m := t.multiStage.value;
      var at := AddField(TestPath(i), "steps");
      var pre := CheckPhase(c, AddField(at, "pre"), Literals(m.pre), m.dependencyOverrides);
      var test := CheckPhase(c, AddField(at, "test"), Literals(m.test), m.dependencyOverrides);
      var post := CheckPhase(c, AddField(at, "post"), Literals(m.post), m.dependencyOverrides);
      errs := pre + test + post;
    }
    if t.multiStageLiteral.Some? {
      var m := t.multiStageLiteral.value;
      var at := AddField(TestPath(i), "literal_steps");
      var pre := CheckPhase(c, AddField(at, "pre"), AllChecked(m.pre), m.dependencyOverrides);
      var test := CheckPhase(c, AddField(at, "test"), AllChecked(m.test), m.dependencyOverrides);
      var post := CheckPhase(c, AddField(at, "post"), AllChecked(m.post), m.dependencyOverrides);
      errs := errs + (pre + test + post);
    }
  }

  /** validateTestStepDependencies: the loop over the tests. */
  method CheckTests(c: Configuration) returns (errs: seq<ValidationError>)
    ensures errs == DependencyErrors(c)
  {
    errs := [];
    for i := 0 to |c.tests|
      invariant errs == FlatMapIndexed(i, TestCheck(c))
    {
      FlatMapIndexedStep(i, TestCheck(c), errs);
      var more := CheckTest(c, i, c.tests[i]);
      errs := errs + more;
    }
  }

  // ---------------------------------------------------------------------------
  // Properties

  /** A `<stream>:<tag>` reference is checked against the stream and tag it spells. */
  lemma ExplicitReference(c: Configuration, stream: string, tag: string)
    requires ':' !in stream && ':' !in tag
    ensures Unsatisfied(c, stream + ":" + tag) == StreamProblem(c, stream, tag)
  {
    PrefixedReference(c, stream, tag);
  }

  /** A bare name nothing in the configuration produces is an implicit guess and is never reported. */
  lemma ImplicitNeverReported(c: Configuration, name: string)
    requires ':' !in name && !IsExplicitlyProduced(c, name)
    ensures Unsatisfied(c, name).None?
  {
    BareReference(c, name, None);
  }

  /** A bare name the configuration produces is checked exactly as `pipeline:<name>`. */
  lemma ShortHandCheckedAsLongForm(c: Configuration, name: string)
    requires ':' !in name && IsExplicitlyProduced(c, name)
    ensures Unsatisfied(c, name) == Unsatisfied(c, PipelineImageStream + ":" + name)
  {
    ShortHandMatchesLongForm(c, name, None);
  }

  /**
   * A reference into a release's stream (`stable:<t>` for `latest`,
   * `stable-<r>:<t>`, `release:<r>`) is satisfied exactly when the
   * configuration has that release, and is otherwise reported as needing it.
   */
  lemma ReleaseReferenceIff(c: Configuration, stream: string, tag: string)
    requires ':' !in stream && ':' !in tag && ReleaseOf(stream, tag).Some?
    ensures var release := ReleaseOf(stream, tag).value;
      && (Unsatisfied(c, stream + ":" + tag).None? <==> HasRelease(c, release))
      && (Unsatisfied(c, stream + ":" + tag).Some? ==> Unsatisfied(c, stream + ":" + tag).value == NeedsRelease(release))
  {
    ExplicitReference(c, stream, tag);
    assert stream != PipelineImageStream;
  }

  /** A stream that is neither the pipeline's nor a release's is reported as unknown. */
  lemma UnknownStreamReported(c: Configuration, stream: string, tag: string)
    requires ':' !in stream && ':' !in tag && stream != PipelineImageStream && ReleaseOf(stream, tag).None?
    ensures Unsatisfied(c, stream + ":" + tag) == Some(UnknownStream)
  {
    ExplicitReference(c, stream, tag);
  }

  /** `pipeline:root` needs a build root. */
  lemma BuildRootDependencyIff(c: Configuration)
    ensures Unsatisfied(c, PipelineImageStream + ":" + RootTag).None? <==> HasBuildRoot(c)
  {
    PipelineReference(c, RootTag);
  }

  /** `pipeline:bin` needs binary build commands. */
  lemma BinariesDependencyIff(c: Configuration)
    ensures Unsatisfied(c, PipelineImageStream + ":" + BinariesTag).None? <==> BuildsBinaries(c)
  {
    PipelineReference(c, BinariesTag);
  }

  /** `pipeline:test-bin` needs test binary build commands. */
  lemma TestBinariesDependencyIff(c: Configuration)
    ensures Unsatisfied(c, PipelineImageStream + ":" + TestBinariesTag).None? <==> BuildsTestBinaries(c)
  {
    PipelineReference(c, TestBinariesTag);
  }

  /** `pipeline:rpms` needs RPM build commands. */
  lemma RpmsDependencyIff(c: Configuration)
    ensures Unsatisfied(c, PipelineImageStream + ":" + RpmsTag).None? <==> BuildsRpms(c)
  {
    PipelineReference(c, RpmsTag);
  }

  /** `pipeline:ci-index` needs an operator section. */
  lemma IndexDependencyIff(c: Configuration)
    ensures Unsatisfied(c, PipelineImageStream + ":" + IndexImageTag).None? <==> c.operator.Some?
  {
    IndexTagFacts();
    PipelineReference(c, IndexImageTag);
  }

  /** `ci-index` is an index name, and none of the fixed pipeline images. */
  lemma IndexTagFacts()
    ensures ':' !in IndexImageTag && IsIndexName(IndexImageTag) && !IsKnownPipelineImage(IndexImageTag)
  {
    assert IndexImageTag[0] == 'c' && RootTag[0] == 'r' && SourceTag[0] == 's';
    assert BinariesTag[0] == 'b' && TestBinariesTag[0] == 't' && RpmsTag[0] == 'r';
  }


  /** A `pipeline:<tag>` reference is checked against the pipeline's producers of `tag`. */
  lemma PipelineReference(c: Configuration, tag: string)
    requires ':' !in tag
    ensures Unsatisfied(c, PipelineImageStream + ":" + tag) == PipelineProblem(c, tag)
  {
    ExplicitReference(c, PipelineImageStream, tag);
  }

  /**
   * Any other pipeline image is satisfied exactly when something provides
   * it: the source, a base image, an image build, or the operator section.
   */
  lemma PipelineImageIff(c: Configuration, tag: string)
    requires ':' !in tag && !IsKnownPipelineImage(tag) && !IsIndexName(tag)
    ensures Unsatisfied(c, PipelineImageStream + ":" + tag).None?
        <==> IsBaseImage(c, tag) || BuildsImage(c, tag) || OperatorBuilds(c, tag)
    ensures Unsatisfied(c, PipelineImageStream + ":" + tag).Some? ==>
      Unsatisfied(c, PipelineImageStream + ":" + tag).value == NoPipelineSource
  {
    PipelineReference(c, tag);
  }

  /**
   * A step reports exactly its unmet, not overridden dependencies: each
   * once, at its own field, with the dependency and the reason.
   */
  lemma StepErrorsExactly(c: Configuration, at: Path, step: LiteralTestStep, overrides: map<string, string>, e: ValidationError)
    ensures e in StepErrors(c, at, step, overrides)
        <==> exists k :: 0 <= k < |step.dependencies| && ReportedAt(c, at, step.dependencies, overrides, k, e)
  {
    var deps := step.dependencies;
    var f := DependencyCheck(c, at, deps, overrides);
    FlatMapIndexedMembership(|deps|, f, e);
    forall k | 0 <= k < |deps|
      ensures e in f(k) <==> ReportedAt(c, at, deps, overrides, k, e)
    {
      DependencyCheckReports(c, at, deps, overrides, k, e);
    }
  }

  /** Dependency k is checked and nothing provides it, and `e` is its report: at its own field, naming it and why. */
  predicate ReportedAt(c: Configuration, at: Path, deps: seq<StepDependency>, overrides: map<string, string>, k: nat, e: ValidationError)
    requires k < |deps|
  {
    && Checked(deps[k], overrides) && Unsatisfied(c, deps[k].name).Some?
    && e == ValidationError(DependencyPath(at, k), Unsatisfiable(deps[k].name, Unsatisfied(c, deps[k].name).value))
  }

  lemma DependencyCheckReports(c: Configuration, at: Path, deps: seq<StepDependency>, overrides: map<string, string>, k: nat, e: ValidationError)
    requires k < |deps|
    ensures e in DependencyCheck(c, at, deps, overrides)(k) <==> ReportedAt(c, at, deps, overrides, k, e)
  {
  }


  // ---------------------------------------------------------------------------
  // The dependency checker's examples

  function Dep(name: string): StepDependency {
    StepDependency(name, "")
  }

  function StepOf(deps: seq<StepDependency>): LiteralTestStep {
    LiteralTestStep("", None, deps)
  }

  function PhasePath(i: nat, field: string, phase: string): Path {
    AddField(AddField(TestPath(i), field), phase)
  }

  /** A step's report for the k-th dependency of step j of a phase of test i. */
  function Unmet(i: nat, field: string, phase: string, j: nat, k: nat, name: string, reason: Reason): ValidationError {
    ValidationError(DependencyPath(AddIndex(PhasePath(i, field, phase), j), k), Unsatisfiable(name, reason))
  }

  /** No releases, no build root, no builds, no operator section: the configuration of the failing example. */
  predicate ProvidesNothing(c: Configuration) {
    && c.releases == {} && c.tagSpecification.None?
    && c.buildRoot.None? && c.buildRoots == map[]
    && c.baseImages == map[] && c.baseRpmImages == map[] && c.images == [] && c.operator.None?
    && c.binaryBuildCommands == "" && c.testBinaryBuildCommands == "" && c.rpmBuildCommands == ""
    && c.binaryBuildCommandsList == [] && c.testBinaryBuildCommandsList == [] && c.rpmBuildCommandsList == []
  }

  lemma StableInstallerNeedsLatest(c: Configuration)
    requires ProvidesNothing(c)
    ensures Unsatisfied(c, "stable:installer") == Some(NeedsRelease("latest"))
  {
    assert "stable:installer" == "stable" + ":" + "installer";
    ReleaseReferenceIff(c, "stable", "installer");
  }

  lemma StableGrafanaNeedsLatest(c: Configuration)
    requires ProvidesNothing(c)
    ensures Unsatisfied(c, "stable:grafana") == Some(NeedsRelease("latest"))
  {
    assert "stable:grafana" == "stable" + ":" + "grafana";
    ReleaseReferenceIff(c, "stable", "grafana");
  }

  lemma StableCustomNeedsCustom(c: Configuration)
    requires ProvidesNothing(c)
    ensures Unsatisfied(c, "stable-custom:cli") == Some(NeedsRelease("custom"))
  {
    assert "stable-custom"[|StableStreamPrefix|..] == "custom";
    assert "stable-custom:cli" == "stable-custom" + ":" + "cli";
    ReleaseReferenceIff(c, "stable-custom", "cli");
  }

  lemma ReleaseCustomNeedsCustom(c: Configuration)
    requires ProvidesNothing(c)
    ensures Unsatisfied(c, "release:custom") == Some(NeedsRelease("custom"))
  {
    assert "release:custom" == "release" + ":" + "custom";
    ReleaseReferenceIff(c, "release", "custom");
  }

  lemma BinNeedsBinaries(c: Configuration)
    requires ProvidesNothing(c)
    ensures Unsatisfied(c, "pipeline:bin") == Some(NeedsBinaries)
  {
    assert "pipeline:bin" == PipelineImageStream + ":" + BinariesTag;
    PipelineReference(c, BinariesTag);
  }

  lemma TestBinNeedsTestBinaries(c: Configuration)
    requires ProvidesNothing(c)
    ensures Unsatisfied(c, "pipeline:test-bin") == Some(NeedsTestBinaries)
  {
    assert "pipeline:test-bin" == PipelineImageStream + ":" + TestBinariesTag;
    PipelineReference(c, TestBinariesTag);
  }

  lemma RootNeedsBuildRoot(c: Configuration)
    requires ProvidesNothing(c)
    ensures Unsatisfied(c, "pipeline:root") == Some(NeedsBuildRoot)
  {
    assert "pipeline:root" == PipelineImageStream + ":" + RootTag;
    PipelineReference(c, RootTag);
  }

  lemma RpmsNeedRpmBuild(c: Configuration)
    requires ProvidesNothing(c)
    ensures Unsatisfied(c, "pipeline:rpms") == Some(NeedsRpms)
  {
    assert "pipeline:rpms" == PipelineImageStream + ":" + RpmsTag;
    PipelineReference(c, RpmsTag);
  }

  lemma ImageNeedsSource(c: Configuration)
    requires ProvidesNothing(c)
    ensures Unsatisfied(c, "pipeline:image") == Some(NoPipelineSource)
  {
    assert "pipeline:image" == PipelineImageStream + ":" + "image";
    assert "image"[0] != IndexImageTag[0];
    assert !IsKnownPipelineImage("image") && !IsIndexName("image");
    assert !IsBaseImage(c, "image") && !BuildsImage(c, "image") && !OperatorBuilds(c, "image");
    PipelineImageIff(c, "image");
  }

  lemma IndexNeedsOperator(c: Configuration)
    requires ProvidesNothing(c)
    ensures Unsatisfied(c, "pipeline:ci-index") == Some(NeedsOperatorBundle)
  {
    IndexTagFacts();
    IndexReferenceSpelled();
    PipelineReference(c, IndexImageTag);
  }

  lemma IndexReferenceSpelled()
    ensures "pipeline:ci-index" == PipelineImageStream + ":" + IndexImageTag
  {
  }


  lemma NamedIndexNeedsOperator(c: Configuration)
    requires ProvidesNothing(c)
    ensures Unsatisfied(c, "pipeline:ci-index-my-bundle") == Some(NeedsOperatorBundle)
  {
    NamedIndexFacts();
    PipelineReference(c, "ci-index-my-bundle");
  }

  /** `ci-index-my-bundle` is the index name of the bundle `my-bundle`. */
  lemma NamedIndexFacts()
    ensures "pipeline:ci-index-my-bundle" == PipelineImageStream + ":" + "ci-index-my-bundle"
    ensures ':' !in "ci-index-my-bundle" && IsIndexName("ci-index-my-bundle") && !IsKnownPipelineImage("ci-index-my-bundle")
  {
    assert IndexImageTag + "-" == "ci-index-my-bundle"[..9];
  }


  lemma StreamUnknown(c: Configuration)
    ensures Unsatisfied(c, "totally-invalid:cli") == Some(UnknownStream)
  {
    assert "totally-invalid:cli" == "totally-invalid" + ":" + "cli";
    assert "totally-invalid"[0] != StableStreamPrefix[0];
    UnknownStreamReported(c, "totally-invalid", "cli");
  }

  /** Steps of one and two unmet dependencies, none overridden, report them in order. */
  lemma OneUnmet(c: Configuration, at: Path, a: string, ra: Reason)
    requires Unsatisfied(c, a) == Some(ra)
    ensures StepErrors(c, at, StepOf([Dep(a)]), map[]) == [ValidationError(DependencyPath(at, 0), Unsatisfiable(a, ra))]
  {
    StepOfOne(c, at, a);
  }

  lemma TwoUnmet(c: Configuration, at: Path, a: string, ra: Reason, b: string, rb: Reason)
    requires Unsatisfied(c, a) == Some(ra) && Unsatisfied(c, b) == Some(rb)
    ensures StepErrors(c, at, StepOf([Dep(a), Dep(b)]), map[])
         == [ValidationError(DependencyPath(at, 0), Unsatisfiable(a, ra)), ValidationError(DependencyPath(at, 1), Unsatisfiable(b, rb))]
  {
    StepOfTwo(c, at, a, b);
  }

  lemma LiteralsOfTwo(a: LiteralTestStep, b: LiteralTestStep)
    ensures Literals([Literal(a), Literal(b)]) == [Some(a), Some(b)]
  {
  }

  lemma AllCheckedOfTwo(a: LiteralTestStep, b: LiteralTestStep)
    ensures AllChecked([a, b]) == [Some(a), Some(b)]
  {
  }

  lemma AllCheckedOfOne(a: LiteralTestStep)
    ensures AllChecked([a]) == [Some(a)]
  {
  }

  lemma LiteralsOfOne(a: LiteralTestStep)
    ensures Literals([Literal(a)]) == [Some(a)]
  {
  }

  lemma StepOfOne(c: Configuration, at: Path, a: string)
    ensures StepErrors(c, at, StepOf([Dep(a)]), map[]) == DependencyCheck(c, at, [Dep(a)], map[])(0)
  {
  }

  lemma StepOfTwo(c: Configuration, at: Path, a: string, b: string)
    ensures StepErrors(c, at, StepOf([Dep(a), Dep(b)]), map[])
         == DependencyCheck(c, at, [Dep(a), Dep(b)], map[])(0) + DependencyCheck(c, at, [Dep(a), Dep(b)], map[])(1)
  {
    var f := DependencyCheck(c, at, [Dep(a), Dep(b)], map[]);
    assert FlatMapIndexed(2, f) == FlatMapIndexed(1, f) + f(1);
  }

  lemma PhaseOfOne(c: Configuration, at: Path, s: LiteralTestStep, overrides: map<string, string>)
    ensures PhaseErrors(c, at, [Some(s)], overrides) == StepErrors(c, AddIndex(at, 0), s, overrides)
  {
    var f := StepCheck(c, at, [Some(s)], overrides);
    assert FlatMapIndexed(1, f) == FlatMapIndexed(0, f) + f(0);
  }

  lemma PhaseOfTwo(c: Configuration, at: Path, s: LiteralTestStep, t: LiteralTestStep, overrides: map<string, string>)
    ensures PhaseErrors(c, at, [Some(s), Some(t)], overrides)
         == StepErrors(c, AddIndex(at, 0), s, overrides) + StepErrors(c, AddIndex(at, 1), t, overrides)
  {
    var f := StepCheck(c, at, [Some(s), Some(t)], overrides);
    FlatMapIndexedStep(0, f, []);
    FlatMapIndexedStep(1, f, f(0));
  }

  /** The templated test of the failing example: release, stream and build dependencies with nothing configured. */
  function FailingTemplated(): MultiStageTestConfiguration {
    MultiStageTestConfiguration(
      [Literal(StepOf([Dep("stable:installer"), Dep("stable:grafana")])),
       Literal(StepOf([Dep("stable-custom:cli"), Dep("totally-invalid:cli")]))],
      [Literal(StepOf([Dep("pipeline:bin")])), Literal(StepOf([Dep("pipeline:test-bin")]))],
      [Literal(StepOf([Dep("pipeline:image")]))],
      map[])
  }

  /** The literal test of the failing example. */
  function FailingLiteral(): MultiStageTestConfigurationLiteral {
    MultiStageTestConfigurationLiteral(
      [StepOf([Dep("release:custom"), Dep("pipeline:ci-index")]), StepOf([Dep("pipeline:ci-index-my-bundle")])],
      [StepOf([Dep("pipeline:root")])],
      [StepOf([Dep("pipeline:rpms")])],
      map[])
  }

  // A solver hint about sequence literals only; it states nothing about the model.
  lemma Concat22<T>(a: T, b: T, d: T, e: T)
    ensures [a, b] + [d, e] == [a, b, d, e]
  {
  }

  // A solver hint about sequence literals only; it states nothing about the model.
  lemma Concat21<T>(a: T, b: T, d: T)
    ensures [a, b] + [d] == [a, b, d]
  {
  }

  /** A templated phase of two steps of two unmet dependencies each reports all four in order. */
  lemma TwoByTwoUnmet(
    c: Configuration, i: nat, field: string, phase: string,
    a: string, ra: Reason, b: string, rb: Reason, d: string, rd: Reason, e: string, re: Reason)
    requires Unsatisfied(c, a) == Some(ra) && Unsatisfied(c, b) == Some(rb)
    requires Unsatisfied(c, d) == Some(rd) && Unsatisfied(c, e) == Some(re)
    ensures PhaseErrors(c, PhasePath(i, field, phase), Literals([Literal(StepOf([Dep(a), Dep(b)])), Literal(StepOf([Dep(d), Dep(e)]))]), map[])
         == [Unmet(i, field, phase, 0, 0, a, ra), Unmet(i, field, phase, 0, 1, b, rb),
             Unmet(i, field, phase, 1, 0, d, rd), Unmet(i, field, phase, 1, 1, e, re)]
  {
    var at := PhasePath(i, field, phase);
    var s0 := StepOf([Dep(a), Dep(b)]);
    var s1 := StepOf([Dep(d), Dep(e)]);
    LiteralsOfTwo(s0, s1);
    PhaseOfTwo(c, at, s0, s1, map[]);
    TwoUnmet(c, AddIndex(at, 0), a, ra, b, rb);
    TwoUnmet(c, AddIndex(at, 1), d, rd, e, re);
    var u0, u1 := Unmet(i, field, phase, 0, 0, a, ra), Unmet(i, field, phase, 0, 1, b, rb);
    var v0, v1 := Unmet(i, field, phase, 1, 0, d, rd), Unmet(i, field, phase, 1, 1, e, re);
    Concat22(u0, u1, v0, v1);
  }

  /** A literal phase of a step of two unmet dependencies and a step of one reports all three in order. */
  lemma TwoThenOneUnmet(
    c: Configuration, i: nat, field: string, phase: string,
    a: string, ra: Reason, b: string, rb: Reason, d: string, rd: Reason)
    requires Unsatisfied(c, a) == Some(ra) && Unsatisfied(c, b) == Some(rb) && Unsatisfied(c, d) == Some(rd)
    ensures PhaseErrors(c, PhasePath(i, field, phase), AllChecked([StepOf([Dep(a), Dep(b)]), StepOf([Dep(d)])]), map[])
         == [Unmet(i, field, phase, 0, 0, a, ra), Unmet(i, field, phase, 0, 1, b, rb), Unmet(i, field, phase, 1, 0, d, rd)]
  {
    var at := PhasePath(i, field, phase);
    var s0 := StepOf([Dep(a), Dep(b)]);
    var s1 := StepOf([Dep(d)]);
    AllCheckedOfTwo(s0, s1);
    PhaseOfTwo(c, at, s0, s1, map[]);
    TwoUnmet(c, AddIndex(at, 0), a, ra, b, rb);
    OneUnmet(c, AddIndex(at, 1), d, rd);
    var u0, u1 := Unmet(i, field, phase, 0, 0, a, ra), Unmet(i, field, phase, 0, 1, b, rb);
    var v0 := Unmet(i, field, phase, 1, 0, d, rd);
    Concat21(u0, u1, v0);
  }

  /** A templated phase of two steps of one unmet dependency each reports both in order. */
  lemma TwoByOneUnmet(c: Configuration, i: nat, field: string, phase: string, a: string, ra: Reason, b: string, rb: Reason)
    requires Unsatisfied(c, a) == Some(ra) && Unsatisfied(c, b) == Some(rb)
    ensures PhaseErrors(c, PhasePath(i, field, phase), Literals([Literal(StepOf([Dep(a)])), Literal(StepOf([Dep(b)]))]), map[])
         == [Unmet(i, field, phase, 0, 0, a, ra), Unmet(i, field, phase, 1, 0, b, rb)]
  {
    var at := PhasePath(i, field, phase);
    var s0 := StepOf([Dep(a)]);
    var s1 := StepOf([Dep(b)]);
    LiteralsOfTwo(s0, s1);
    PhaseOfTwo(c, at, s0, s1, map[]);
    OneUnmet(c, AddIndex(at, 0), a, ra);
    OneUnmet(c, AddIndex(at, 1), b, rb);
  }

  lemma FailingTemplatedPre(c: Configuration)
    requires ProvidesNothing(c)
    ensures PhaseErrors(c, PhasePath(0, "steps", "pre"), Literals(FailingTemplated().pre), map[])
         == [Unmet(0, "steps", "pre", 0, 0, "stable:installer", NeedsRelease("latest")),
             Unmet(0, "steps", "pre", 0, 1, "stable:grafana", NeedsRelease("latest")),
             Unmet(0, "steps", "pre", 1, 0, "stable-custom:cli", NeedsRelease("custom")),
             Unmet(0, "steps", "pre", 1, 1, "totally-invalid:cli", UnknownStream)]
  {
    StableInstallerNeedsLatest(c);
    StableGrafanaNeedsLatest(c);
    StableCustomNeedsCustom(c);
    StreamUnknown(c);
    TwoByTwoUnmet(c, 0, "steps", "pre",
      "stable:installer", NeedsRelease("latest"), "stable:grafana", NeedsRelease("latest"),
      "stable-custom:cli", NeedsRelease("custom"), "totally-invalid:cli", UnknownStream);
  }

  lemma FailingTemplatedTest(c: Configuration)
    requires ProvidesNothing(c)
    ensures PhaseErrors(c, PhasePath(0, "steps", "test"), Literals(FailingTemplated().test), map[])
         == [Unmet(0, "steps", "test", 0, 0, "pipeline:bin", NeedsBinaries),
             Unmet(0, "steps", "test", 1, 0, "pipeline:test-bin", NeedsTestBinaries)]
  {
    BinNeedsBinaries(c);
    TestBinNeedsTestBinaries(c);
    TwoByOneUnmet(c, 0, "steps", "test", "pipeline:bin", NeedsBinaries, "pipeline:test-bin", NeedsTestBinaries);
  }

  lemma FailingTemplatedPost(c: Configuration)
    requires ProvidesNothing(c)
    ensures PhaseErrors(c, PhasePath(0, "steps", "post"), Literals(FailingTemplated().post), map[])
         == [Unmet(0, "steps", "post", 0, 0, "pipeline:image", NoPipelineSource)]
  {
    var at := PhasePath(0, "steps", "post");
    var s0 := StepOf([Dep("pipeline:image")]);
    LiteralsOfOne(s0);
    PhaseOfOne(c, at, s0, map[]);
    ImageNeedsSource(c);
    OneUnmet(c, AddIndex(at, 0), "pipeline:image", NoPipelineSource);
  }

  lemma FailingLiteralPre(c: Configuration)
    requires ProvidesNothing(c)
    ensures PhaseErrors(c, PhasePath(1, "literal_steps", "pre"), AllChecked(FailingLiteral().pre), map[])
         == [Unmet(1, "literal_steps", "pre", 0, 0, "release:custom", NeedsRelease("custom")),
             Unmet(1, "literal_steps", "pre", 0, 1, "pipeline:ci-index", NeedsOperatorBundle),
             Unmet(1, "literal_steps", "pre", 1, 0, "pipeline:ci-index-my-bundle", NeedsOperatorBundle)]
  {
    ReleaseCustomNeedsCustom(c);
    IndexNeedsOperator(c);
    NamedIndexNeedsOperator(c);
    TwoThenOneUnmet(c, 1, "literal_steps", "pre",
      "release:custom", NeedsRelease("custom"), "pipeline:ci-index", NeedsOperatorBundle,
      "pipeline:ci-index-my-bundle", NeedsOperatorBundle);
  }


  lemma FailingLiteralTest(c: Configuration)
    requires ProvidesNothing(c)
    ensures PhaseErrors(c, PhasePath(1, "literal_steps", "test"), AllChecked(FailingLiteral().test), map[])
         == [Unmet(1, "literal_steps", "test", 0, 0, "pipeline:root", NeedsBuildRoot)]
  {
    var at := PhasePath(1, "literal_steps", "test");
    var s0 := StepOf([Dep("pipeline:root")]);
    AllCheckedOfOne(s0);
    PhaseOfOne(c, at, s0, map[]);
    RootNeedsBuildRoot(c);
    OneUnmet(c, AddIndex(at, 0), "pipeline:root", NeedsBuildRoot);
  }

  lemma FailingLiteralPost(c: Configuration)
    requires ProvidesNothing(c)
    ensures PhaseErrors(c, PhasePath(1, "literal_steps", "post"), AllChecked(FailingLiteral().post), map[])
         == [Unmet(1, "literal_steps", "post", 0, 0, "pipeline:rpms", NeedsRpms)]
  {
    var at := PhasePath(1, "literal_steps", "post");
    var s0 := StepOf([Dep("pipeline:rpms")]);
    AllCheckedOfOne(s0);
    PhaseOfOne(c, at, s0, map[]);
    RpmsNeedRpmBuild(c);
    OneUnmet(c, AddIndex(at, 0), "pipeline:rpms", NeedsRpms);
  }

  lemma TemplatedTestOf(c: Configuration, i: nat, t: TestStepConfiguration, m: MultiStageTestConfiguration)
    requires t.multiStage == Some(m) && t.multiStageLiteral.None?
    ensures TestErrors(c, i, t)
         == PhaseErrors(c, PhasePath(i, "steps", "pre"), Literals(m.pre), m.dependencyOverrides)
          + PhaseErrors(c, PhasePath(i, "steps", "test"), Literals(m.test), m.dependencyOverrides)
          + PhaseErrors(c, PhasePath(i, "steps", "post"), Literals(m.post), m.dependencyOverrides)
  {
  }

  lemma AppendToNothing(d: seq<ValidationError>, e: seq<ValidationError>)
    requires d == []
    ensures d + e == e
  {
  }

  lemma LiteralTestOf(c: Configuration, i: nat, t: TestStepConfiguration, m: MultiStageTestConfigurationLiteral)
    requires t.multiStage.None? && t.multiStageLiteral == Some(m)
    ensures TestErrors(c, i, t)
         == PhaseErrors(c, PhasePath(i, "literal_steps", "pre"), AllChecked(m.pre), m.dependencyOverrides)
          + PhaseErrors(c, PhasePath(i, "literal_steps", "test"), AllChecked(m.test), m.dependencyOverrides)
          + PhaseErrors(c, PhasePath(i, "literal_steps", "post"), AllChecked(m.post), m.dependencyOverrides)
  {
    var e := LiteralErrors(c, i, t.multiStageLiteral);
    AppendToNothing(TemplatedErrors(c, i, t.multiStage), e);
    assert e == PhasesErrors(c, AddField(TestPath(i), "literal_steps"), AllChecked(m.pre), AllChecked(m.test), AllChecked(m.post), m.dependencyOverrides);
  }

  lemma TwoTests(c: Configuration)
    requires |c.tests| == 2
    ensures DependencyErrors(c) == TestErrors(c, 0, c.tests[0]) + TestErrors(c, 1, c.tests[1])
  {
    var f := TestCheck(c);
    FlatMapIndexedStep(0, f, []);
    FlatMapIndexedStep(1, f, f(0));
  }

  lemma FailingTemplatedTestReported(c: Configuration)
    requires ProvidesNothing(c)
    requires |c.tests| == 2 && c.tests[0] == TestStepConfiguration("", Some(FailingTemplated()), None)
    ensures TestErrors(c, 0, c.tests[0])
         == [Unmet(0, "steps", "pre", 0, 0, "stable:installer", NeedsRelease("latest")),
             Unmet(0, "steps", "pre", 0, 1, "stable:grafana", NeedsRelease("latest")),
             Unmet(0, "steps", "pre", 1, 0, "stable-custom:cli", NeedsRelease("custom")),
             Unmet(0, "steps", "pre", 1, 1, "totally-invalid:cli", UnknownStream)]
          + [Unmet(0, "steps", "test", 0, 0, "pipeline:bin", NeedsBinaries),
             Unmet(0, "steps", "test", 1, 0, "pipeline:test-bin", NeedsTestBinaries)]
          + [Unmet(0, "steps", "post", 0, 0, "pipeline:image", NoPipelineSource)]
  {
    TemplatedTestOf(c, 0, c.tests[0], FailingTemplated());
    FailingTemplatedPre(c);
    FailingTemplatedTest(c);
    FailingTemplatedPost(c);
  }

  lemma FailingLiteralTestReported(c: Configuration)
    requires ProvidesNothing(c)
    requires |c.tests| == 2 && c.tests[1] == TestStepConfiguration("", None, Some(FailingLiteral()))
    ensures TestErrors(c, 1, c.tests[1])
         == [Unmet(1, "literal_steps", "pre", 0, 0, "release:custom", NeedsRelease("custom")),
             Unmet(1, "literal_steps", "pre", 0, 1, "pipeline:ci-index", NeedsOperatorBundle),
             Unmet(1, "literal_steps", "pre", 1, 0, "pipeline:ci-index-my-bundle", NeedsOperatorBundle)]
          + [Unmet(1, "literal_steps", "test", 0, 0, "pipeline:root", NeedsBuildRoot)]
          + [Unmet(1, "literal_steps", "post", 0, 0, "pipeline:rpms", NeedsRpms)]
  {
    LiteralTestOf(c, 1, c.tests[1], FailingLiteral());
    FailingLiteralPre(c);
    FailingLiteralTest(c);
    FailingLiteralPost(c);
  }

  /**
   * The dependency checker's failing example: with nothing configured, every explicit
   * dependency of both tests is reported, in test, phase, step and
   * dependency order, each with the prerequisite it lacks.
   */
  lemma FailingDependenciesReported(c: Configuration)
    requires ProvidesNothing(c)
    requires c.tests == [TestStepConfiguration("", Some(FailingTemplated()), None),
                         TestStepConfiguration("", None, Some(FailingLiteral()))]
    ensures DependencyErrors(c)
         == ([Unmet(0, "steps", "pre", 0, 0, "stable:installer", NeedsRelease("latest")),
              Unmet(0, "steps", "pre", 0, 1, "stable:grafana", NeedsRelease("latest")),
              Unmet(0, "steps", "pre", 1, 0, "stable-custom:cli", NeedsRelease("custom")),
              Unmet(0, "steps", "pre", 1, 1, "totally-invalid:cli", UnknownStream)]
           + [Unmet(0, "steps", "test", 0, 0, "pipeline:bin", NeedsBinaries),
              Unmet(0, "steps", "test", 1, 0, "pipeline:test-bin", NeedsTestBinaries)]
           + [Unmet(0, "steps", "post", 0, 0, "pipeline:image", NoPipelineSource)])
          + ([Unmet(1, "literal_steps", "pre", 0, 0, "release:custom", NeedsRelease("custom")),
              Unmet(1, "literal_steps", "pre", 0, 1, "pipeline:ci-index", NeedsOperatorBundle),
              Unmet(1, "literal_steps", "pre", 1, 0, "pipeline:ci-index-my-bundle", NeedsOperatorBundle)]
           + [Unmet(1, "literal_steps", "test", 0, 0, "pipeline:root", NeedsBuildRoot)]
           + [Unmet(1, "literal_steps", "post", 0, 0, "pipeline:rpms", NeedsRpms)])
  {
    TwoTests(c);
    FailingTemplatedTestReported(c);
    FailingLiteralTestReported(c);
  }

  /** A test overrides every variable its steps' dependencies name: none of them is checked. */
  lemma OverriddenStepSatisfied(c: Configuration, at: Path, step: LiteralTestStep, overrides: map<string, string>)
    requires forall k :: 0 <= k < |step.dependencies| ==> step.dependencies[k].env in overrides
    ensures StepErrors(c, at, step, overrides) == []
  {
  }

  /** A templated test whose one step's one dependency is overridden is satisfied. */
  lemma OverriddenTemplatedSatisfied(c: Configuration, name: string, dep: string, env: string, value: string)
    ensures TestSatisfied(c, TestStepConfiguration(name, Some(MultiStageTestConfiguration(
              [], [Literal(StepOf([StepDependency(dep, env)]))], [], map[env := value])), None))
  {
    var s0 := StepOf([StepDependency(dep, env)]);
    LiteralsOfOne(s0);
    assert StepSatisfied(c, s0, map[env := value]);
  }

  /** A literal test whose one step's two dependencies are both overridden is satisfied. */
  lemma OverriddenLiteralSatisfied(c: Configuration, name: string, d0: string, e0: string, v0: string, d1: string, e1: string, v1: string)
    ensures TestSatisfied(c, TestStepConfiguration(name, None, Some(MultiStageTestConfigurationLiteral(
              [], [StepOf([StepDependency(d0, e0), StepDependency(d1, e1)])], [], map[e0 := v0, e1 := v1]))))
  {
    var s1 := StepOf([StepDependency(d0, e0), StepDependency(d1, e1)]);
    AllCheckedOfOne(s1);
    assert StepSatisfied(c, s1, map[e0 := v0, e1 := v1]);
  }

  /**
   * The dependency checker's overridden example: dependencies whose variables the test
   * overrides, the short-hand `rpms` among them, are accepted whatever the configuration
   * provides.
   */
  lemma OverriddenDependenciesAccepted(c: Configuration)
    requires c.tests
      == [TestStepConfiguration("", Some(MultiStageTestConfiguration(
            [], [Literal(StepOf([StepDependency("pipeline:bin", "OH_SNAP")]))], [],
            map["OH_SNAP" := "nice"])), None),
          TestStepConfiguration("", None, Some(MultiStageTestConfigurationLiteral(
            [], [StepOf([StepDependency("ci-index-my-bundle", "OO_INDEX"), StepDependency(RpmsTag, "SOME_THING")])], [],
            map["OO_INDEX" := "coolstuff", "SOME_THING" := "awwwyeah"])))]
    ensures DependencyErrors(c) == []
  {
    OverriddenTemplatedSatisfied(c, "", "pipeline:bin", "OH_SNAP", "nice");
    OverriddenLiteralSatisfied(c, "", "ci-index-my-bundle", "OO_INDEX", "coolstuff", RpmsTag, "SOME_THING", "awwwyeah");
    TwoTestsSatisfied(c, c.tests[0], c.tests[1]);
  }


  /**
   * What the valid example configures: a tag_specification (the releases
   * `latest` and `initial`), the release `custom`, binary build commands,
   * the image `image`, and an operator section of an unnamed bundle and
   * the bundle `my-bundle`; no base images.
   */
  predicate ProvidesAll(c: Configuration) {
    && c.tagSpecification.Some? && "custom" in c.releases
    && c.binaryBuildCommands != ""
    && c.images == [ImageBuild("image", NoBuildInputs, [])]
    && c.baseImages == map[] && c.baseRpmImages == map[]
    && c.operator == Some(OperatorConfiguration(
         [Bundle("", "bundle.Dockerfile", "manifests", "", "", false),
          Bundle("my-bundle", "bundle.Dockerfile", "manifests", "", "", false)], []))
  }

  /** A bare name the pipeline always knows is checked in the pipeline. */
  lemma SourceMet(c: Configuration)
    ensures Unsatisfied(c, "src").None?
  {
    ShortHandCheckedAsLongForm(c, "src");
    assert "pipeline:src" == PipelineImageStream + ":" + SourceTag;
    PipelineReference(c, SourceTag);
  }

  lemma BinMet(c: Configuration)
    requires BuildsBinaries(c)
    ensures Unsatisfied(c, "bin").None? && Unsatisfied(c, "pipeline:bin").None?
  {
    ShortHandCheckedAsLongForm(c, "bin");
    assert "pipeline:bin" == PipelineImageStream + ":" + BinariesTag;
    BinariesDependencyIff(c);
  }

  lemma ImageMet(c: Configuration)
    requires c.images == [ImageBuild("image", NoBuildInputs, [])]
    ensures Unsatisfied(c, "image").None? && Unsatisfied(c, "pipeline:image").None?
  {
    assert BuildsImage(c, "image") by { assert c.images[0].to == "image"; }
    ImageFacts();
    ShortHandCheckedAsLongForm(c, "image");
    PipelineImageIff(c, "image");
  }

  /** `image` is an ordinary pipeline image name. */
  lemma ImageFacts()
    ensures "pipeline:image" == PipelineImageStream + ":" + "image"
    ensures ':' !in "image" && !IsKnownPipelineImage("image") && !IsIndexName("image")
  {
    assert "image"[0] != IndexImageTag[0];
    assert "image"[0] != RootTag[0] && "image"[0] != SourceTag[0] && "image"[0] != BinariesTag[0];
    assert "image"[0] != TestBinariesTag[0] && "image"[0] != RpmsTag[0];
  }


  /** A bare name nothing produces is a guess. */
  lemma GuessMet(c: Configuration, name: string)
    requires c.baseImages == map[] && c.baseRpmImages == map[] && c.images == [ImageBuild("image", NoBuildInputs, [])]
    requires |name| > 0 && ':' !in name && name[0] !in {'r', 's', 'b', 't'} && name != "image"
    ensures Unsatisfied(c, name).None?
  {
    assert !IsKnownPipelineImage(name) by {
      assert RootTag[0] == 'r' && SourceTag[0] == 's' && BinariesTag[0] == 'b';
      assert TestBinariesTag[0] == 't' && RpmsTag[0] == 'r';
    }
    assert !BuildsImage(c, name);
    ImplicitNeverReported(c, name);
  }

  lemma InstallerGuessMet(c: Configuration)
    requires c.baseImages == map[] && c.baseRpmImages == map[] && c.images == [ImageBuild("image", NoBuildInputs, [])]
    ensures Unsatisfied(c, "installer").None?
  {
    GuessMet(c, "installer");
  }

  lemma IndexGuessMet(c: Configuration)
    requires c.baseImages == map[] && c.baseRpmImages == map[] && c.images == [ImageBuild("image", NoBuildInputs, [])]
    ensures Unsatisfied(c, "ci-index-my-bundle").None?
  {
    GuessMet(c, "ci-index-my-bundle");
  }

  lemma IndexMet(c: Configuration)
    requires c.operator.Some?
    ensures Unsatisfied(c, "pipeline:ci-index").None?
  {
    assert "pipeline:ci-index" == PipelineImageStream + ":" + IndexImageTag;
    IndexDependencyIff(c);
  }

  /** A bundle's `as` names a pipeline image. */
  lemma BundleMet(c: Configuration)
    requires c.operator.Some? && |c.operator.value.bundles| > 1 && c.operator.value.bundles[1].name == "my-bundle"
    ensures Unsatisfied(c, "pipeline:my-bundle").None?
  {
    assert "pipeline:my-bundle" == PipelineImageStream + ":" + "my-bundle";
    assert "my-bundle"[0] != IndexImageTag[0] && "my-bundle"[0] != RootTag[0] && "my-bundle"[0] != SourceTag[0];
    assert "my-bundle"[0] != BinariesTag[0] && "my-bundle"[0] != TestBinariesTag[0] && "my-bundle"[0] != RpmsTag[0];
    assert OperatorBuilds(c, "my-bundle") by {
      assert BundleImageName(c.operator.value.bundles, 1) == "my-bundle";
    }
    PipelineImageIff(c, "my-bundle");
  }

  /** The tag_specification provides the release `latest`, the `stable` stream. */
  lemma StableMet(c: Configuration)
    requires c.tagSpecification.Some?
    ensures Unsatisfied(c, "stable:installer").None?
  {
    assert "stable:installer" == "stable" + ":" + "installer";
    ReleaseReferenceIff(c, "stable", "installer");
  }

  /** The tag_specification provides the release `initial`, in its own stream and in the release stream. */
  lemma StableInitialMet(c: Configuration)
    requires c.tagSpecification.Some?
    ensures Unsatisfied(c, "stable-initial:installer").None?
  {
    assert "stable-initial"[|StableStreamPrefix|..] == "initial";
    assert "stable-initial:installer" == "stable-initial" + ":" + "installer";
    ReleaseReferenceIff(c, "stable-initial", "installer");
  }

  lemma ReleaseInitialMet(c: Configuration)
    requires c.tagSpecification.Some?
    ensures Unsatisfied(c, "release:initial").None?
  {
    assert "release:initial" == "release" + ":" + "initial";
    ReleaseReferenceIff(c, "release", "initial");
  }

  /** The releases provide `custom`. */
  lemma CustomReleaseMet(c: Configuration)
    requires "custom" in c.releases
    ensures Unsatisfied(c, "stable-custom:cli").None? && Unsatisfied(c, "release:custom").None?
  {
    CustomFacts();
    ReleaseReferenceIff(c, "stable-custom", "cli");
    ReleaseReferenceIff(c, "release", "custom");
  }

  /** `stable-custom:cli` and `release:custom` both name the release `custom`. */
  lemma CustomFacts()
    ensures "stable-custom:cli" == "stable-custom" + ":" + "cli" && "release:custom" == "release" + ":" + "custom"
    ensures ReleaseOf("stable-custom", "cli") == Some("custom") && ReleaseOf("release", "custom") == Some("custom")
    ensures ':' !in "stable-custom" && ':' !in "cli" && ':' !in "release" && ':' !in "custom"
  {
    assert "stable-custom"[|StableStreamPrefix|..] == "custom";
    assert |"stable-custom"| != |StableImageStream| && "release"[0] != StableStreamPrefix[0];
  }


  /** The templated test of the valid example. */
  function SatisfiedTemplated(): MultiStageTestConfiguration {
    MultiStageTestConfiguration(
      [Literal(StepOf([Dep("src"), Dep("bin"), Dep("installer"), Dep("pipeline:ci-index")])),
       Literal(StepOf([Dep("pipeline:my-bundle")])),
       Literal(StepOf([Dep("stable:installer"), Dep("stable-initial:installer")]))],
      [Literal(StepOf([Dep("pipeline:bin")]))],
      [Literal(StepOf([Dep("image")]))],
      map[])
  }

  /** The literal test of the valid example. */
  function SatisfiedLiteral(): MultiStageTestConfigurationLiteral {
    MultiStageTestConfigurationLiteral(
      [StepOf([Dep("stable-custom:cli"), Dep("ci-index-my-bundle")])],
      [StepOf([Dep("release:custom"), Dep("release:initial")])],
      [StepOf([Dep("pipeline:image")])],
      map[])
  }

  /** Steps of met dependencies, none overridden, are satisfied. */
  lemma OneMet(c: Configuration, a: string)
    requires Unsatisfied(c, a).None?
    ensures StepSatisfied(c, StepOf([Dep(a)]), map[])
  {
  }

  lemma TwoMet(c: Configuration, a: string, b: string)
    requires Unsatisfied(c, a).None? && Unsatisfied(c, b).None?
    ensures StepSatisfied(c, StepOf([Dep(a), Dep(b)]), map[])
  {
  }

  lemma FourMet(c: Configuration, a: string, b: string, d: string, e: string)
    requires Unsatisfied(c, a).None? && Unsatisfied(c, b).None? && Unsatisfied(c, d).None? && Unsatisfied(c, e).None?
    ensures StepSatisfied(c, StepOf([Dep(a), Dep(b), Dep(d), Dep(e)]), map[])
  {
  }

  lemma ThreeStepsMet(c: Configuration, s0: LiteralTestStep, s1: LiteralTestStep, s2: LiteralTestStep)
    requires StepSatisfied(c, s0, map[]) && StepSatisfied(c, s1, map[]) && StepSatisfied(c, s2, map[])
    ensures PhaseSatisfied(c, Literals([Literal(s0), Literal(s1), Literal(s2)]), map[])
  {
  }

  lemma OneStepMet(c: Configuration, s0: LiteralTestStep)
    requires StepSatisfied(c, s0, map[])
    ensures PhaseSatisfied(c, Literals([Literal(s0)]), map[])
    ensures PhaseSatisfied(c, AllChecked([s0]), map[])
  {
  }

  lemma SatisfiedTemplatedTest(c: Configuration)
    requires ProvidesAll(c)
    ensures TestSatisfied(c, TestStepConfiguration("", Some(SatisfiedTemplated()), None))
  {
    SourceMet(c);
    BinMet(c);
    InstallerGuessMet(c);
    IndexMet(c);
    FourMet(c, "src", "bin", "installer", "pipeline:ci-index");
    BundleMet(c);
    OneMet(c, "pipeline:my-bundle");
    StableMet(c);
    StableInitialMet(c);
    TwoMet(c, "stable:installer", "stable-initial:installer");
    ThreeStepsMet(c, StepOf([Dep("src"), Dep("bin"), Dep("installer"), Dep("pipeline:ci-index")]),
      StepOf([Dep("pipeline:my-bundle")]), StepOf([Dep("stable:installer"), Dep("stable-initial:installer")]));
    OneMet(c, "pipeline:bin");
    OneStepMet(c, StepOf([Dep("pipeline:bin")]));
    ImageMet(c);
    OneMet(c, "image");
    OneStepMet(c, StepOf([Dep("image")]));
  }

  lemma SatisfiedLiteralTest(c: Configuration)
    requires ProvidesAll(c)
    ensures TestSatisfied(c, TestStepConfiguration("", None, Some(SatisfiedLiteral())))
  {
    CustomReleaseMet(c);
    IndexGuessMet(c);
    TwoMet(c, "stable-custom:cli", "ci-index-my-bundle");
    OneStepMet(c, StepOf([Dep("stable-custom:cli"), Dep("ci-index-my-bundle")]));
    ReleaseInitialMet(c);
    TwoMet(c, "release:custom", "release:initial");
    OneStepMet(c, StepOf([Dep("release:custom"), Dep("release:initial")]));
    ImageMet(c);
    OneMet(c, "pipeline:image");
    OneStepMet(c, StepOf([Dep("pipeline:image")]));
  }

  /**
   * The dependency checker's valid example: bare, pipeline, stable, stable-<release>
   * and release references, each met by what the configuration provides,
   * are all accepted.
   */
  lemma ValidDependenciesAccepted(c: Configuration)
    requires ProvidesAll(c)
    requires c.tests == [TestStepConfiguration("", Some(SatisfiedTemplated()), None),
                         TestStepConfiguration("", None, Some(SatisfiedLiteral()))]
    ensures DependencyErrors(c) == []
  {
    SatisfiedTemplatedTest(c);
    SatisfiedLiteralTest(c);
    TwoTestsSatisfied(c, c.tests[0], c.tests[1]);
  }

  lemma TwoTestsSatisfied(c: Configuration, t0: TestStepConfiguration, t1: TestStepConfiguration)
    requires c.tests == [t0, t1] && TestSatisfied(c, t0) && TestSatisfied(c, t1)
    ensures DependencyErrors(c) == []
  {
  }

  /** Without tests there is nothing to check. */
  lemma NoTestsAccepted(c: Configuration)
    requires c.tests == []
    ensures DependencyErrors(c) == []
  {
  }
}
