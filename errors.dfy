/**
 * Validation errors as data: where (a field path) and what (a problem).
 * Errors are rendered to the exact strings the validator reports only at
 * the boundary, by Describe and Render.
 */
module Errors {
  import opened Text
  import opened FieldPath

  /** Why a test step's dependency has no producer. */
  datatype Reason =
    | NeedsRelease(release: string)
    | UnknownStream
    | NeedsBuildRoot
    | NeedsBinaries
    | NeedsTestBinaries
    | NeedsRpms
    | NeedsOperatorBundle
    | NoPipelineSource

  datatype Problem =
    // build root
    | BuildRootRequired
    | BuildRootSourcesExclusive(first: string, second: string)
    | BuildRootWithoutSource
    // shared by several sections
    | MustBeSet
    | NoNamespaceDefined
    | NoNameDefined
    | NoTagDefined
    // external images and base image maps
    | PullSpecSet
    | ReservedImageName(name: string)
    // resources
    | NoResources
    | NoBlanketResources
    | InvalidResourceName(name: string)
    | InvalidQuantity(value: string)
    | NotPositive(value: string)
    | ShmTooLarge(value: string)
    | NoRequestOrLimit
    // promotion
    | NoNameOrTagDefined
    | BothNameAndTagDefined
    | ReservedNamespace(namespace: string)
    | SameTarget(other: Path)
    | ReleaseStreamRequired(namespace: string)
    // images list
    | ToRequired
    | LiteralExclusive
    | InvalidArchitecture(arch: string)
    // duplicate-name registry
    | DuplicateImageName(name: string, origin: Path)
    | NameTakenByImage(name: string)
    // operator
    | Unresolvable(image: string)
    | UpdateGraphNeedsBaseIndex
    | BaseIndexNeedsAs
    | SkipBuildingIndexNeedsAs
    | InvalidUpdateGraph
    // test step dependencies
    | Unsatisfiable(dependency: string, reason: Reason)
    // whole configuration
    | NoTestsOrImages
    | MergedOnlyFields
    | BuildRootsNotPermitted

  datatype ValidationError = ValidationError(path: Path, problem: Problem)

  const ReservedNamespacePattern := "(^kube.*|^openshift.*|^default$|^redhat.*)"
  const ArchitectureList := "amd64, arm64, ppc64le, s390x"

  function Quote(s: string): string {
    "\"" + s + "\""
  }

  function DescribeReason(r: Reason): string {
    match r
    case NeedsRelease(release) => "this dependency requires a " + Quote(release) + " release, which is not configured"
    case UnknownStream => "ensure the correct ImageStream name was provided"
    case NeedsBuildRoot => "this dependency requires a build root, which is not configured"
    case NeedsBinaries => "this dependency requires built binaries, which are not configured"
    case NeedsTestBinaries => "this dependency requires built test binaries, which are not configured"
    case NeedsRpms => "this dependency requires built RPMs, which are not configured"
    case NeedsOperatorBundle => "this dependency requires an operator bundle configuration, which is not configured"
    case NoPipelineSource => "no base image import, project image build, or bundle image build is configured to provide this dependency"
  }

  function Describe(p: Problem): string {
    match p
    case BuildRootRequired =>
      "when 'images' are specified 'build_root' is required and must have image_stream_tag, project_image or from_repository set"
    case BuildRootSourcesExclusive(first, second) => first + " and " + second + " are mutually exclusive"
    case BuildRootWithoutSource => "you have to specify either image_stream_tag, project_image or from_repository"
    case MustBeSet => "must be set"
    case NoNamespaceDefined => "no namespace defined"
    case NoNameDefined => "no name defined"
    case NoTagDefined => "no tag defined"
    case PullSpecSet => "pull_spec may not be set, use registry, namespace, name and tag instead"
    case ReservedImageName(name) => "cannot be named " + name + ", the name is reserved"
    case NoResources => "should be specified to provide resource requests"
    case NoBlanketResources => "must specify a blanket policy for '*'"
    case InvalidResourceName(name) => "specifies an invalid key " + name
    case InvalidQuantity(value) => "invalid quantity " + value
    case NotPositive(value) => "must be a positive quantity, got " + value
    case ShmTooLarge(value) => "shared memory must be at most 2G, got " + value
    case NoRequestOrLimit => "should have at least one request or limit"
    case NoNameOrTagDefined => "no name or tag defined"
    case BothNameAndTagDefined => "both name and tag defined"
    case ReservedNamespace(namespace) =>
      "cannot promote to namespace " + namespace + " matching this regular expression: " + ReservedNamespacePattern
    case SameTarget(other) => "promotes to the same target as " + Render(other)
    case ReleaseStreamRequired(namespace) =>
      "importing the release stream is required to ensure the promoted images to the namespace " + namespace
      + " can be integrated properly. Although it can be achieved by tag_specification or releases[\"latest\"], adding an e2e test is strongly suggested"
    case ToRequired => "`to` must be set"
    case LiteralExclusive => "dockerfile_literal is mutually exclusive with context_dir and dockerfile_path"
    case InvalidArchitecture(arch) => "invalid architecture: " + arch + ". Use one of " + ArchitectureList
    case DuplicateImageName(name, origin) =>
      "duplicate image name '" + name + "' (previously defined by field '" + Render(origin) + "')"
    case NameTakenByImage(name) => "duplicated name " + Quote(name) + " already declared in 'images'"
    case Unresolvable(image) => "could not resolve '" + image + "' to an image involved in the config"
    case UpdateGraphNeedsBaseIndex => "update_graph requires base_index to be set"
    case BaseIndexNeedsAs => "base_index requires 'as' to be set"
    case SkipBuildingIndexNeedsAs => "skip_building_index requires 'as' to be set"
    case InvalidUpdateGraph => "update_graph must be semver, semver-skippatch, or replaces"
    case Unsatisfiable(dependency, reason) =>
      "cannot determine source for dependency " + Quote(dependency) + " - " + DescribeReason(reason)
    case NoTestsOrImages => "you must define at least one test or image build in 'tests' or 'images'"
    case MergedOnlyFields =>
      "it is not permissible to directly set: \U{2018}binary_build_commands_list\U{2019}, \U{2018}test_binary_build_commands_list\U{2019}, \U{2018}rpm_build_commands_list\U{2019}, or \U{2018}rpm_build_location_list\U{2019}"
    case BuildRootsNotPermitted =>
      "it is not permissible to directly set: \U{2018}build_roots\U{2019} directly in the config"
  }

  /** An error as the validator prints it: `path: message`, or the message alone at the root. */
  function RenderError(e: ValidationError): string {
    if e.path == [] then Describe(e.problem) else Render(e.path) + ": " + Describe(e.problem)
  }

  function RenderErrors(es: seq<ValidationError>): seq<string> {
    seq(|es|, i requires 0 <= i < |es| => RenderError(es[i]))
  }

  /** The errors that report a name claimed twice. */
  function Duplicates(es: seq<ValidationError>): (r: seq<ValidationError>)
    ensures forall e :: e in r <==> e in es && e.problem.DuplicateImageName?
  {
    if es == [] then []
    else Duplicates(es[..|es| - 1]) + (if es[|es| - 1].problem.DuplicateImageName? then [es[|es| - 1]] else [])
  }

  lemma {:induction false} DuplicatesAppend(a: seq<ValidationError>, b: seq<ValidationError>)
    ensures Duplicates(a + b) == Duplicates(a) + Duplicates(b)
    decreases |b|
  {
    if b == [] {
      assert a + b == a;
    } else {
      var b' := b[..|b| - 1];
      assert (a + b)[..|a + b| - 1] == a + b';
      DuplicatesAppend(a, b');
    }
  }

  /** A list without duplicate-name reports has no duplicates to filter. */
  lemma {:induction false} DuplicatesNone(es: seq<ValidationError>)
    requires forall e :: e in es ==> !e.problem.DuplicateImageName?
    ensures Duplicates(es) == []
    decreases |es|
  {
    if es != [] {
      assert es[|es| - 1] in es;
      DuplicatesNone(es[..|es| - 1]);
    }
  }

  /**
   * The errors of a list of items, item by item, in list order: what a
   * validator that appends each item's errors to one list produces.
   */
  function FlatMap<T>(xs: seq<T>, f: T -> seq<ValidationError>): (r: seq<ValidationError>)
    ensures r == [] <==> forall i :: 0 <= i < |xs| ==> f(xs[i]) == []
    ensures |xs| == 0 ==> r == []
    decreases |xs|
  {
    if xs == [] then []
    else
      var r := FlatMap(xs[..|xs| - 1], f) + f(xs[|xs| - 1]);
      assert forall i :: 0 <= i < |xs| - 1 ==> xs[..|xs| - 1][i] == xs[i];
      r
  }

  /**
   * The errors of positions 0..n-1, position by position: what a validator
   * that needs each item's index as well as the item produces.
   */
  function FlatMapIndexed(n: nat, f: nat -> seq<ValidationError>): (r: seq<ValidationError>)
    ensures r == [] <==> forall i :: 0 <= i < n ==> f(i) == []
  {
    if n == 0 then [] else FlatMapIndexed(n - 1, f) + f(n - 1)
  }

  /** One more position adds that position's errors: the step of a validator's indexed loop. */
  lemma FlatMapIndexedStep(n: nat, f: nat -> seq<ValidationError>, errs: seq<ValidationError>)
    requires errs == FlatMapIndexed(n, f)
    ensures errs + f(n) == FlatMapIndexed(n + 1, f)
  {
  }

  /** The last position's errors come last, whatever expression names them. */
  lemma FlatMapIndexedLast(n: nat, f: nat -> seq<ValidationError>, last: seq<ValidationError>)
    requires 0 < n && f(n - 1) == last
    ensures FlatMapIndexed(n, f) == FlatMapIndexed(n - 1, f) + last
  {
  }

  /** An error is reported for the positions 0..n-1 exactly when it is reported for one of them. */
  lemma {:induction false} FlatMapIndexedMembership(n: nat, f: nat -> seq<ValidationError>, e: ValidationError)
    ensures e in FlatMapIndexed(n, f) <==> exists i :: 0 <= i < n && e in f(i)
  {
    if n > 0 {
      FlatMapIndexedMembership(n - 1, f, e);
      if e in f(n - 1) {
        assert e in FlatMapIndexed(n, f);
      }
    }
  }

  /** Two checks that agree on positions 0..n-1 report the same errors for them. */
  lemma {:induction false} FlatMapIndexedAgree(n: nat, f: nat -> seq<ValidationError>, g: nat -> seq<ValidationError>)
    requires forall i :: 0 <= i < n ==> f(i) == g(i)
    ensures FlatMapIndexed(n, f) == FlatMapIndexed(n, g)
  {
    if n > 0 {
      FlatMapIndexedAgree(n - 1, f, g);
    }
  }

  /** Extending the list by one item appends that item's errors. */
  lemma FlatMapSnoc<T>(xs: seq<T>, x: T, f: T -> seq<ValidationError>)
    ensures FlatMap(xs + [x], f) == FlatMap(xs, f) + f(x)
  {
    assert (xs + [x])[..|xs|] == xs;
  }

  /** One more item of the list adds that item's errors: the step of a validator's loop. */
  lemma FlatMapStep<T>(xs: seq<T>, i: nat, f: T -> seq<ValidationError>)
    requires i < |xs|
    ensures FlatMap(xs[..i + 1], f) == FlatMap(xs[..i], f) + f(xs[i])
  {
    assert xs[..i + 1][..i] == xs[..i];
  }

  /** Having visited every item, the errors are those of the whole list. */
  lemma FlatMapAll<T>(xs: seq<T>, f: T -> seq<ValidationError>)
    ensures FlatMap(xs[..|xs|], f) == FlatMap(xs, f)
  {
    assert xs[..|xs|] == xs;
  }

  /** A map's entries, visited in key order, report nothing exactly when no entry does. */
  lemma FlatMapItems<V>(m: map<string, V>, f: ((string, V)) -> seq<ValidationError>)
    ensures FlatMap(SortedItems(m), f) == [] <==> forall k :: k in m ==> f((k, m[k])) == []
  {
    var items := SortedItems(m);
    if FlatMap(items, f) == [] {
      forall k | k in m
        ensures f((k, m[k])) == []
      {
        SortedItemsCover(m, k);
      }
    } else {
      var i :| 0 <= i < |items| && f(items[i]) != [];
      SortedItemsAt(m, i);
    }
  }
}
