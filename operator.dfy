/**
 * The `operator` section: bundles and the pull-spec substitutions applied to
 * them. A bundle's index metadata needs an explicit bundle name; a
 * substitution needs both sides, and its replacement must be an image the
 * configuration involves, which the caller decides.
 */
module Operator {
  import opened FieldPath
  import opened Errors
  import opened Api

  const OperatorPath: Path := AddField(Root, "operator")

  function BundlePath(i: nat): Path {
    AddIndex(AddField(OperatorPath, "bundles"), i)
  }

  function SubstitutionPath(i: nat): Path {
    AddIndex(AddField(OperatorPath, "substitute"), i)
  }

  const UpdateGraphModes: set<string> := {"semver", "semver-skippatch", "replaces"}

  /** What a bundle must satisfy: index settings only on named bundles, a known update mode. */
  predicate ValidBundle(b: Bundle) {
    && (b.updateGraph != "" ==> b.baseIndex != "")
    && (b.baseIndex != "" ==> b.name != "")
    && (b.skipBuildingIndex ==> b.name != "")
    && (b.updateGraph == "" || b.updateGraph in UpdateGraphModes)
  }

  /** What a substitution must satisfy, given which images the configuration involves. */
  predicate ValidSubstitution(s: Substitution, resolves: string -> bool) {
    s.pullSpec != "" && s.with != "" && resolves(s.with)
  }

  /** A bundle's errors, each at the field that causes it, in the validator's order. */
  function BundleErrors(at: Path, b: Bundle): (r: seq<ValidationError>)
    ensures r == [] <==> ValidBundle(b)
    ensures |r| <= 4
    ensures forall e :: e in r ==>
      || e == ValidationError(AddField(at, "update_graph"), UpdateGraphNeedsBaseIndex)
      || e == ValidationError(AddField(at, "base_index"), BaseIndexNeedsAs)
      || e == ValidationError(AddField(at, "skip_building_index"), SkipBuildingIndexNeedsAs)
      || e == ValidationError(AddField(at, "update_graph"), InvalidUpdateGraph)
  {
    (if b.updateGraph != "" && b.baseIndex == "" then [ValidationError(AddField(at, "update_graph"), UpdateGraphNeedsBaseIndex)] else [])
    + (if b.baseIndex != "" && b.name == "" then [ValidationError(AddField(at, "base_index"), BaseIndexNeedsAs)] else [])
    + (if b.skipBuildingIndex && b.name == "" then [ValidationError(AddField(at, "skip_building_index"), SkipBuildingIndexNeedsAs)] else [])
    + (if b.updateGraph != "" && b.updateGraph !in UpdateGraphModes then [ValidationError(AddField(at, "update_graph"), InvalidUpdateGraph)] else [])
  }

  /** A substitution's errors: a missing side is reported at that side; an unresolvable replacement at `with`. */
  function SubstitutionErrors(at: Path, s: Substitution, resolves: string -> bool): (r: seq<ValidationError>)
    ensures r == [] <==> ValidSubstitution(s, resolves)
    ensures |r| <= 2
    ensures ValidationError(AddField(at, "pullspec"), MustBeSet) in r <==> s.pullSpec == ""
    ensures ValidationError(AddField(at, "with"), MustBeSet) in r <==> s.with == ""
    ensures ValidationError(AddField(at, "with"), Unresolvable(s.with)) in r <==> s.with != "" && !resolves(s.with)
  {
    assert AddField(at, "pullspec")[|at|] != AddField(at, "with")[|at|];
    (if s.pullSpec == "" then [ValidationError(AddField(at, "pullspec"), MustBeSet)] else [])
    + (if s.with == "" then [ValidationError(AddField(at, "with"), MustBeSet)]
       else if !resolves(s.with) then [ValidationError(AddField(at, "with"), Unresolvable(s.with))]
       else [])
  }

  function BundleCheck(bundles: seq<Bundle>): nat -> seq<ValidationError> {
    (i: nat) => if i < |bundles| then BundleErrors(BundlePath(i), bundles[i]) else []
  }

  function SubstitutionCheck(substitutions: seq<Substitution>, resolves: string -> bool): nat -> seq<ValidationError> {
    (i: nat) => if i < |substitutions| then SubstitutionErrors(SubstitutionPath(i), substitutions[i], resolves) else []
  }

  /** The section's errors: bundles in order, then substitutions in order. */
  function OperatorErrors(op: OperatorConfiguration, resolves: string -> bool): seq<ValidationError> {
    FlatMapIndexed(|op.bundles|, BundleCheck(op.bundles))
    + FlatMapIndexed(|op.substitutions|, SubstitutionCheck(op.substitutions, resolves))
  }

  /** The validator's two loops, over bundles and then over substitutions. */
  method ValidateOperator(op: OperatorConfiguration, resolves: string -> bool) returns (errs: seq<ValidationError>)
    ensures errs == OperatorErrors(op, resolves)
  {
    var bundleErrs := [];
    for i := 0 to |op.bundles|
      invariant bundleErrs == FlatMapIndexed(i, BundleCheck(op.bundles))
    {
      FlatMapIndexedStep(i, BundleCheck(op.bundles), bundleErrs);
      bundleErrs := bundleErrs + BundleCheck(op.bundles)(i);
    }
    var substitutionErrs := [];
    for i := 0 to |op.substitutions|
      invariant substitutionErrs == FlatMapIndexed(i, SubstitutionCheck(op.substitutions, resolves))
    {
      FlatMapIndexedStep(i, SubstitutionCheck(op.substitutions, resolves), substitutionErrs);
      substitutionErrs := substitutionErrs + SubstitutionCheck(op.substitutions, resolves)(i);
    }
    errs := bundleErrs + substitutionErrs;
  }

  // ---------------------------------------------------------------------------
  // Properties

  /** The section is accepted exactly when every bundle and every substitution is. */
  lemma OperatorErrorsIff(op: OperatorConfiguration, resolves: string -> bool)
    ensures OperatorErrors(op, resolves) == []
        <==> && (forall i :: 0 <= i < |op.bundles| ==> ValidBundle(op.bundles[i]))
             && (forall i :: 0 <= i < |op.substitutions| ==> ValidSubstitution(op.substitutions[i], resolves))
  {
    var f, g := BundleCheck(op.bundles), SubstitutionCheck(op.substitutions, resolves);
    assert forall i :: 0 <= i < |op.bundles| ==> (f(i) == [] <==> ValidBundle(op.bundles[i]));
    assert forall i :: 0 <= i < |op.substitutions| ==> (g(i) == [] <==> ValidSubstitution(op.substitutions[i], resolves));
  }

  /**
   * An accepted bundle that asks for an index of its own (a base index, or
   * skipping the index build) is named, so its index is not the shared
   * `ci-index` of unnamed bundles.
   */
  lemma AcceptedIndexIsNamed(op: OperatorConfiguration, resolves: string -> bool, i: nat)
    requires OperatorErrors(op, resolves) == []
    requires i < |op.bundles| && (op.bundles[i].baseIndex != "" || op.bundles[i].skipBuildingIndex || op.bundles[i].updateGraph != "")
    ensures op.bundles[i].name != "" && IndexName(op.bundles[i].name) != IndexImageTag
  {
    OperatorErrorsIff(op, resolves);
    assert ValidBundle(op.bundles[i]);
    var name := op.bundles[i].name;
    assert |IndexName(name)| > |IndexImageTag|;
  }

  /** Whether the replacement resolves is asked only of substitutions that set one. */
  lemma ResolverAskedOnlyForReplacements(op: OperatorConfiguration, r1: string -> bool, r2: string -> bool)
    requires forall i :: 0 <= i < |op.substitutions| && op.substitutions[i].with != "" ==>
      r1(op.substitutions[i].with) == r2(op.substitutions[i].with)
    ensures OperatorErrors(op, r1) == OperatorErrors(op, r2)
  {
    FlatMapIndexedAgree(|op.substitutions|, SubstitutionCheck(op.substitutions, r1), SubstitutionCheck(op.substitutions, r2));
  }

  // ---------------------------------------------------------------------------
  // The validator's examples

  function Named(name: string, baseIndex: string, updateGraph: string, skip: bool): Bundle {
    Bundle(name, "", "", baseIndex, updateGraph, skip)
  }

  function Resolves(): string -> bool { (s: string) => true }

  function ResolvesNothing(): string -> bool { (s: string) => false }

  lemma OneBundle(b: Bundle, resolves: string -> bool)
    ensures OperatorErrors(OperatorConfiguration([b], []), resolves) == BundleErrors(BundlePath(0), b)
  {
    assert FlatMapIndexed(1, BundleCheck([b])) == FlatMapIndexed(0, BundleCheck([b])) + BundleCheck([b])(0);
  }

  lemma EverythingGood()
    ensures OperatorErrors(OperatorConfiguration(
      [Bundle("my-bundle", "./dockerfile", ".", "an-index", "replaces", false)],
      [Substitution("original", "substitute")]), Resolves()) == []
  {
    OperatorErrorsIff(OperatorConfiguration(
      [Bundle("my-bundle", "./dockerfile", ".", "an-index", "replaces", false)],
      [Substitution("original", "substitute")]), Resolves());
  }

  /** A section of three substitutions and no bundle reports the substitutions' errors in order. */
  lemma ThreeSubstitutions(s0: Substitution, s1: Substitution, s2: Substitution, resolves: string -> bool)
    ensures OperatorErrors(OperatorConfiguration([], [s0, s1, s2]), resolves)
         == SubstitutionErrors(SubstitutionPath(0), s0, resolves)
          + SubstitutionErrors(SubstitutionPath(1), s1, resolves)
          + SubstitutionErrors(SubstitutionPath(2), s2, resolves)
  {
    var g := SubstitutionCheck([s0, s1, s2], resolves);
    FlatMapIndexedStep(0, g, []);
    FlatMapIndexedStep(1, g, g(0));
    FlatMapIndexedStep(2, g, g(0) + g(1));
  }

  lemma MissingSubstitutionSides()
    ensures OperatorErrors(OperatorConfiguration([], [
      Substitution("original", "substitute"), Substitution("original2", ""), Substitution("", "substitute2")]), Resolves())
      == [ValidationError(AddField(SubstitutionPath(1), "with"), MustBeSet),
          ValidationError(AddField(SubstitutionPath(2), "pullspec"), MustBeSet)]
  {
    ThreeSubstitutions(Substitution("original", "substitute"), Substitution("original2", ""), Substitution("", "substitute2"), Resolves());
  }

  lemma UnresolvableReplacement()
    ensures OperatorErrors(OperatorConfiguration([], [Substitution("original", "substitute")]), ResolvesNothing())
      == [ValidationError(AddField(SubstitutionPath(0), "with"), Unresolvable("substitute"))]
  {
    var g := SubstitutionCheck([Substitution("original", "substitute")], ResolvesNothing());
    assert FlatMapIndexed(1, g) == FlatMapIndexed(0, g) + g(0);
  }

  lemma NamedBundleAccepted()
    ensures OperatorErrors(OperatorConfiguration([Named("no conflict", "", "", false)], []), Resolves()) == []
  {
    OneBundle(Named("no conflict", "", "", false), Resolves());
  }

  lemma UpdateGraphWithoutBaseIndex()
    ensures OperatorErrors(OperatorConfiguration([Named("valid bundle", "", "replaces", false)], []), Resolves())
      == [ValidationError(AddField(BundlePath(0), "update_graph"), UpdateGraphNeedsBaseIndex)]
  {
    OneBundle(Named("valid bundle", "", "replaces", false), Resolves());
  }

  lemma BaseIndexWithoutName()
    ensures OperatorErrors(OperatorConfiguration([Named("", "an-index", "", false)], []), Resolves())
      == [ValidationError(AddField(BundlePath(0), "base_index"), BaseIndexNeedsAs)]
  {
    OneBundle(Named("", "an-index", "", false), Resolves());
  }

  lemma UnknownUpdateGraph()
    ensures OperatorErrors(OperatorConfiguration([Named("valid bundle", "an-index", "hello", false)], []), Resolves())
      == [ValidationError(AddField(BundlePath(0), "update_graph"), InvalidUpdateGraph)]
  {
    OneBundle(Named("valid bundle", "an-index", "hello", false), Resolves());
  }

  lemma SkipBuildingIndexOnNamedBundle()
    ensures OperatorErrors(OperatorConfiguration(
      [Bundle("my-bundle", "./dockerfile", ".", "an-index", "replaces", true)],
      [Substitution("original", "substitute")]), Resolves()) == []
  {
    OperatorErrorsIff(OperatorConfiguration(
      [Bundle("my-bundle", "./dockerfile", ".", "an-index", "replaces", true)],
      [Substitution("original", "substitute")]), Resolves());
  }

  lemma SkipBuildingIndexOnUnnamedBundle()
    ensures OperatorErrors(OperatorConfiguration(
      [Bundle("", "./dockerfile", ".", "", "", true)],
      [Substitution("original", "substitute")]), Resolves())
      == [ValidationError(AddField(BundlePath(0), "skip_building_index"), SkipBuildingIndexNeedsAs)]
  {
    var b := Bundle("", "./dockerfile", ".", "", "", true);
    var subs := [Substitution("original", "substitute")];
    var g := SubstitutionCheck(subs, Resolves());
    assert FlatMapIndexed(1, g) == FlatMapIndexed(0, g) + g(0);
    assert FlatMapIndexed(1, BundleCheck([b])) == FlatMapIndexed(0, BundleCheck([b])) + BundleCheck([b])(0);
  }
}
