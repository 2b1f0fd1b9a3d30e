/**
 * The promotion section: every target names a namespace and exactly one of
 * name and tag, stays out of the reserved namespaces and does not overlap
 * another target; and promoting official images into image targets needs
 * the `latest` release imported.
 */
module Promotion {
  import opened Wrappers
  import opened Text
  import opened FieldPath
  import opened Errors
  import opened Api

  const TargetsPath: Path := AddField(AddField(Root, "promotion"), "to")

  function TargetPath(i: nat): Path {
    AddIndex(TargetsPath, i)
  }

  /**
   * The namespaces matched by (^kube.*|^openshift.*|^default$|^redhat.*):
   * those starting with kube, openshift or redhat, and default itself.
   */
  predicate IsReservedNamespace(namespace: string) {
    "kube" <= namespace || "openshift" <= namespace || namespace == "default" || "redhat" <= namespace
  }

  /** Two targets publish to the same place: one namespace, and the same non-empty tag or name. */
  predicate Overlap(a: PromotionTarget, b: PromotionTarget) {
    a.namespace == b.namespace && ((a.tag != "" && a.tag == b.tag) || (a.name != "" && a.name == b.name))
  }

  predicate ValidTargetFields(t: PromotionTarget) {
    t.namespace != "" && (t.name == "") != (t.tag == "") && !IsReservedNamespace(t.namespace)
  }

  /** Promoting official images into image targets without importing the `latest` release. */
  predicate MissesReleaseStream(official: bool, imageTargets: bool, tagSpec: Option<ReleaseTagConfiguration>, releases: set<string>) {
    official && imageTargets && tagSpec.None? && LatestReleaseName !in releases
  }

  function TargetFieldErrors(at: Path, t: PromotionTarget): (r: seq<ValidationError>)
    ensures r == [] <==> ValidTargetFields(t)
    ensures forall e :: e in r ==> e.path == at && !e.problem.SameTarget?
  {
    (if t.namespace == "" then [ValidationError(at, NoNamespaceDefined)] else [])
    + (if t.name == "" && t.tag == "" then [ValidationError(at, NoNameOrTagDefined)]
       else if t.name != "" && t.tag != "" then [ValidationError(at, BothNameAndTagDefined)]
       else [])
    + (if IsReservedNamespace(t.namespace) then [ValidationError(at, ReservedNamespace(t.namespace))] else [])
  }

  /** The overlap errors of target `i` against targets 0..j-1, in index order. */
  function OverlapErrors(targets: seq<PromotionTarget>, i: nat, j: nat): seq<ValidationError>
    requires i < |targets| && j <= |targets|
  {
    if j == 0 then []
    else OverlapErrors(targets, i, j - 1) + OverlapError(targets, i, j - 1)
  }

  /** The error, if any, reporting that target `i` overlaps target `k`. */
  function OverlapError(targets: seq<PromotionTarget>, i: nat, k: nat): seq<ValidationError>
    requires i < |targets| && k < |targets|
  {
    if k != i && Overlap(targets[i], targets[k]) then [ValidationError(TargetPath(i), SameTarget(TargetPath(k)))] else []
  }

  function GateErrors(t: PromotionTarget, missesReleaseStream: bool): seq<ValidationError> {
    if missesReleaseStream then [ValidationError(Root, ReleaseStreamRequired(t.namespace))] else []
  }

  /** Everything reported about target `i`: its fields, its overlaps, the release gate. */
  function TargetErrors(targets: seq<PromotionTarget>, i: nat, missesReleaseStream: bool): seq<ValidationError>
    requires i < |targets|
  {
    TargetFieldErrors(TargetPath(i), targets[i])
    + OverlapErrors(targets, i, |targets|)
    + GateErrors(targets[i], missesReleaseStream)
  }

  function TargetCheck(targets: seq<PromotionTarget>, missesReleaseStream: bool): nat -> seq<ValidationError> {
    (i: nat) => if i < |targets| then TargetErrors(targets, i, missesReleaseStream) else []
  }

  /** The errors of targets 0..n-1, target by target. */
  function PromotionErrorsUpTo(targets: seq<PromotionTarget>, n: nat, missesReleaseStream: bool): seq<ValidationError>
    requires n <= |targets|
  {
    FlatMapIndexed(n, TargetCheck(targets, missesReleaseStream))
  }

  /** One more target appends that target's errors: the step of the validator's loop. */
  lemma UpToStep(targets: seq<PromotionTarget>, n: nat, missesReleaseStream: bool)
    requires 0 < n <= |targets|
    ensures PromotionErrorsUpTo(targets, n, missesReleaseStream)
         == PromotionErrorsUpTo(targets, n - 1, missesReleaseStream) + TargetErrors(targets, n - 1, missesReleaseStream)
  {
    var f := TargetCheck(targets, missesReleaseStream);
    FlatMapIndexedLast(n, f, TargetErrors(targets, n - 1, missesReleaseStream));
  }

  function PromotionErrors(
    promotion: PromotionConfiguration, official: bool, imageTargets: bool,
    tagSpec: Option<ReleaseTagConfiguration>, releases: set<string>): seq<ValidationError>
  {
    PromotionErrorsUpTo(promotion.targets, |promotion.targets|, MissesReleaseStream(official, imageTargets, tagSpec, releases))
  }

  /** Checks every target in order; for each, its fields, then its overlaps with every other target, then the gate. */
  method ValidatePromotion(
    promotion: PromotionConfiguration, official: bool, imageTargets: bool,
    tagSpec: Option<ReleaseTagConfiguration>, releases: set<string>) returns (errs: seq<ValidationError>)
    ensures errs == PromotionErrors(promotion, official, imageTargets, tagSpec, releases)
  {
    var targets := promotion.targets;
    var misses := MissesReleaseStream(official, imageTargets, tagSpec, releases);
    errs := [];
    for i := 0 to |targets|
      invariant errs == PromotionErrorsUpTo(targets, i, misses)
    {
      var targetErrs := CheckTarget(targets, i, misses);
      UpToStep(targets, i + 1, misses);
      errs := errs + targetErrs;
    }
    assert errs == PromotionErrorsUpTo(promotion.targets, |promotion.targets|, misses);
  }

  /** Target `i`'s fields, then its overlaps with every target, then the gate. */
  method CheckTarget(targets: seq<PromotionTarget>, i: nat, misses: bool) returns (errs: seq<ValidationError>)
    requires i < |targets|
    ensures errs == TargetErrors(targets, i, misses)
  {
    var fieldErrs := TargetFieldErrors(TargetPath(i), targets[i]);
    var overlapErrs := CheckOverlaps(targets, i);
    errs := fieldErrs + overlapErrs + GateErrors(targets[i], misses);
  }

  /** Compares target `i` with every target in order. */
  method CheckOverlaps(targets: seq<PromotionTarget>, i: nat) returns (errs: seq<ValidationError>)
    requires i < |targets|
    ensures errs == OverlapErrors(targets, i, |targets|)
  {
    errs := [];
    for j := 0 to |targets|
      invariant errs == OverlapErrors(targets, i, j)
    {
      errs := errs + OverlapError(targets, i, j);
    }
  }

  // ---------------------------------------------------------------------------
  // Properties

  lemma OverlapSymmetric(a: PromotionTarget, b: PromotionTarget)
    ensures Overlap(a, b) <==> Overlap(b, a)
  {
  }

  /** Target `i` is reported as overlapping target `k` exactly when they are distinct and overlap. */
  lemma {:induction false} OverlapErrorsMembership(targets: seq<PromotionTarget>, i: nat, j: nat, k: nat)
    requires i < |targets| && j <= |targets|
    ensures ValidationError(TargetPath(i), SameTarget(TargetPath(k))) in OverlapErrors(targets, i, j)
        <==> k < j && k != i && Overlap(targets[i], targets[k])
    decreases j
  {
    if j > 0 {
      OverlapErrorsMembership(targets, i, j - 1, k);
      TargetPathInjective(k, j - 1);
    }
  }

  lemma TargetPathInjective(a: nat, b: nat)
    ensures TargetPath(a) == TargetPath(b) <==> a == b
  {
    if TargetPath(a) == TargetPath(b) {
      IndexDistinguishes(TargetsPath, a, b);
    }
  }

  lemma OverlapErrorsEmptyIff(targets: seq<PromotionTarget>, i: nat, j: nat)
    requires i < |targets| && j <= |targets|
    ensures OverlapErrors(targets, i, j) == [] <==> forall k :: 0 <= k < j && k != i ==> !Overlap(targets[i], targets[k])
  {
    if OverlapErrors(targets, i, j) == [] {
      forall k | 0 <= k < j && k != i
        ensures !Overlap(targets[i], targets[k])
      {
        OverlapErrorsMembership(targets, i, j, k);
      }
    } else {
      OverlapErrorsNonEmpty(targets, i, j);
    }
  }

  lemma {:induction false} OverlapErrorsNonEmpty(targets: seq<PromotionTarget>, i: nat, j: nat)
    requires i < |targets| && j <= |targets|
    requires OverlapErrors(targets, i, j) != []
    ensures exists k :: 0 <= k < j && k != i && Overlap(targets[i], targets[k])
    decreases j
  {
    var k := j - 1;
    if OverlapErrors(targets, i, k) != [] {
      OverlapErrorsNonEmpty(targets, i, k);
    } else {
      assert k != i && Overlap(targets[i], targets[k]);
    }
  }

  /**
   * Overlap errors come in symmetric pairs: target i is reported against
   * target k exactly when target k is reported against target i.
   */
  lemma SameTargetSymmetric(
    promotion: PromotionConfiguration, official: bool, imageTargets: bool,
    tagSpec: Option<ReleaseTagConfiguration>, releases: set<string>, i: nat, k: nat)
    requires i < |promotion.targets| && k < |promotion.targets|
    ensures var errs := PromotionErrors(promotion, official, imageTargets, tagSpec, releases);
            ValidationError(TargetPath(i), SameTarget(TargetPath(k))) in errs
            <==> ValidationError(TargetPath(k), SameTarget(TargetPath(i))) in errs
  {
    var targets := promotion.targets;
    var misses := MissesReleaseStream(official, imageTargets, tagSpec, releases);
    var n := |targets|;
    forall a: nat, b: nat | a < n && b < n
      ensures ValidationError(TargetPath(a), SameTarget(TargetPath(b))) in PromotionErrorsUpTo(targets, n, misses)
          <==> a != b && Overlap(targets[a], targets[b])
    {
      SameTargetInSection(targets, n, misses, a, b);
    }
    OverlapSymmetric(targets[i], targets[k]);
  }

  /** Where an overlap error about targets a and b can come from. */
  lemma SameTargetInSection(targets: seq<PromotionTarget>, n: nat, misses: bool, a: nat, b: nat)
    requires n <= |targets| && a < |targets| && b < |targets|
    ensures ValidationError(TargetPath(a), SameTarget(TargetPath(b))) in PromotionErrorsUpTo(targets, n, misses)
        <==> a < n && a != b && Overlap(targets[a], targets[b])
  {
    var e := ValidationError(TargetPath(a), SameTarget(TargetPath(b)));
    var f := TargetCheck(targets, misses);
    FlatMapIndexedMembership(n, f, e);
    if e in PromotionErrorsUpTo(targets, n, misses) {
      var i :| 0 <= i < n && e in f(i);
      SameTargetInTarget(targets, i, misses, a, b);
    }
    if a < n && a != b && Overlap(targets[a], targets[b]) {
      SameTargetInTarget(targets, a, misses, a, b);
      assert e in f(a);
    }
  }

  /** The only overlap errors among target i's errors are its own, against the targets it overlaps. */
  lemma SameTargetInTarget(targets: seq<PromotionTarget>, i: nat, misses: bool, a: nat, b: nat)
    requires i < |targets| && a < |targets| && b < |targets|
    ensures ValidationError(TargetPath(a), SameTarget(TargetPath(b))) in TargetErrors(targets, i, misses)
        <==> a == i && a != b && Overlap(targets[a], targets[b])
  {
    var e := ValidationError(TargetPath(a), SameTarget(TargetPath(b)));
    var overlaps := OverlapErrors(targets, i, |targets|);
    assert e !in TargetFieldErrors(TargetPath(i), targets[i]);
    assert e !in GateErrors(targets[i], misses);
    OverlapErrorsMembership(targets, i, |targets|, b);
    TargetPathInjective(a, i);
    if e in overlaps {
      OverlapErrorsPaths(targets, i, |targets|, e);
    }
  }

  lemma {:induction false} OverlapErrorsPaths(targets: seq<PromotionTarget>, i: nat, j: nat, e: ValidationError)
    requires i < |targets| && j <= |targets|
    requires e in OverlapErrors(targets, i, j)
    ensures e.path == TargetPath(i)
    decreases j
  {
    if e in OverlapErrors(targets, i, j - 1) {
      OverlapErrorsPaths(targets, i, j - 1, e);
    }
  }

  /** Target `i` overlaps no other target of the list. */
  predicate OverlapsNoOther(targets: seq<PromotionTarget>, i: nat)
    requires i < |targets|
  {
    forall k :: 0 <= k < |targets| && k != i ==> !Overlap(targets[i], targets[k])
  }

  lemma TargetErrorsEmptyIff(targets: seq<PromotionTarget>, i: nat, misses: bool)
    requires i < |targets|
    ensures TargetErrors(targets, i, misses) == []
        <==> ValidTargetFields(targets[i]) && OverlapsNoOther(targets, i) && !misses
  {
    OverlapErrorsEmptyIff(targets, i, |targets|);
  }

  /**
   * The section reports nothing exactly when every target's fields are
   * valid, no two distinct targets overlap, and, when there is a target,
   * the release gate is passed.
   */
  lemma PromotionErrorsIff(
    promotion: PromotionConfiguration, official: bool, imageTargets: bool,
    tagSpec: Option<ReleaseTagConfiguration>, releases: set<string>)
    ensures PromotionErrors(promotion, official, imageTargets, tagSpec, releases) == []
        <==> && (forall i :: 0 <= i < |promotion.targets| ==> ValidTargetFields(promotion.targets[i]))
             && (forall i :: 0 <= i < |promotion.targets| ==> OverlapsNoOther(promotion.targets, i))
             && (|promotion.targets| > 0 ==> !MissesReleaseStream(official, imageTargets, tagSpec, releases))
  {
    var targets := promotion.targets;
    var misses := MissesReleaseStream(official, imageTargets, tagSpec, releases);
    forall i | 0 <= i < |targets|
      ensures TargetCheck(targets, misses)(i) == [] <==> ValidTargetFields(targets[i]) && OverlapsNoOther(targets, i) && !misses
    {
      TargetErrorsEmptyIff(targets, i, misses);
    }
  }

  /** No two distinct targets overlap, stated pairwise. */
  lemma NoOverlapPairwise(targets: seq<PromotionTarget>)
    ensures (forall i :: 0 <= i < |targets| ==> OverlapsNoOther(targets, i))
        <==> forall i, k :: 0 <= i < |targets| && 0 <= k < |targets| && i != k ==> !Overlap(targets[i], targets[k])
  {
    if forall i :: 0 <= i < |targets| ==> OverlapsNoOther(targets, i) {
      forall i, k | 0 <= i < |targets| && 0 <= k < |targets| && i != k
        ensures !Overlap(targets[i], targets[k])
      {
        assert OverlapsNoOther(targets, i);
      }
    }
  }

  /** With one target, its field errors and the gate are all there is. */
  lemma OneTarget(t: PromotionTarget, misses: bool)
    ensures PromotionErrorsUpTo([t], 1, misses) == TargetFieldErrors(TargetPath(0), t) + GateErrors(t, misses)
  {
    assert OverlapErrors([t], 0, 1) == [];
  }

  /** Of two overlapping targets, each reports the other as its one overlap. */
  lemma PairOverlaps(a: PromotionTarget, b: PromotionTarget)
    requires Overlap(a, b)
    ensures OverlapErrors([a, b], 0, 2) == [ValidationError(TargetPath(0), SameTarget(TargetPath(1)))]
    ensures OverlapErrors([a, b], 1, 2) == [ValidationError(TargetPath(1), SameTarget(TargetPath(0)))]
  {
    var ts := [a, b];
    OverlapSymmetric(a, b);
    assert OverlapErrors(ts, 0, 1) == [];
    assert OverlapErrors(ts, 1, 1) == OverlapErrors(ts, 1, 0) + OverlapError(ts, 1, 0);
    assert OverlapError(ts, 1, 1) == [];
  }

  /** Two targets with valid fields that overlap are each reported against the other, and nothing else is. */
  lemma OverlappingPair(a: PromotionTarget, b: PromotionTarget)
    requires ValidTargetFields(a) && ValidTargetFields(b) && Overlap(a, b)
    ensures PromotionErrorsUpTo([a, b], 2, false)
         == [ValidationError(TargetPath(0), SameTarget(TargetPath(1))), ValidationError(TargetPath(1), SameTarget(TargetPath(0)))]
  {
    var ts := [a, b];
    var e01 := ValidationError(TargetPath(0), SameTarget(TargetPath(1)));
    var e10 := ValidationError(TargetPath(1), SameTarget(TargetPath(0)));
    PairOverlaps(a, b);
    assert TargetErrors(ts, 0, false) == [e01];
    assert TargetErrors(ts, 1, false) == [e10];
    UpToStep(ts, 1, false);
    UpToStep(ts, 2, false);
    assert PromotionErrorsUpTo(ts, 0, false) == [];
  }


  // ---------------------------------------------------------------------------
  // The cases of the promotion tests

  function Target(namespace: string, name: string, tag: string): PromotionTarget {
    PromotionTarget(namespace, name, tag, map[])
  }

  lemma ValidTargetByName()
    ensures PromotionErrors(PromotionConfiguration([Target("foo", "bar", "")]), false, true, None, {}) == []
  {
    assert !IsReservedNamespace("foo");
    OneTarget(Target("foo", "bar", ""), false);
  }

  lemma ValidTargetByTag()
    ensures PromotionErrors(PromotionConfiguration([Target("foo", "", "bar")]), false, true, None, {}) == []
  {
    assert !IsReservedNamespace("foo");
    OneTarget(Target("foo", "", "bar"), false);
  }

  lemma EmptyTargetErrors()
    ensures PromotionErrors(PromotionConfiguration([Target("", "", "")]), false, true, None, {})
         == [ValidationError(TargetPath(0), NoNamespaceDefined), ValidationError(TargetPath(0), NoNameOrTagDefined)]
  {
    assert !IsReservedNamespace("");
    OneTarget(Target("", "", ""), false);
  }

  lemma BothNameAndTagErrors()
    ensures PromotionErrors(PromotionConfiguration([Target("foo", "bar", "baz")]), false, true, None, {})
         == [ValidationError(TargetPath(0), BothNameAndTagDefined)]
  {
    assert !IsReservedNamespace("foo");
    OneTarget(Target("foo", "bar", "baz"), false);
  }

  lemma ReservedNamespaceErrors()
    ensures PromotionErrors(PromotionConfiguration([Target("openshift-some", "", "bar")]), false, true, None, {})
         == [ValidationError(TargetPath(0), ReservedNamespace("openshift-some"))]
  {
    assert "openshift" <= "openshift-some";
    OneTarget(Target("openshift-some", "", "bar"), false);
  }

  lemma OverlapByTagErrors()
    ensures PromotionErrors(PromotionConfiguration([Target("foo", "", "bar"), Target("foo", "", "bar")]), false, true, None, {})
         == [ValidationError(TargetPath(0), SameTarget(TargetPath(1))), ValidationError(TargetPath(1), SameTarget(TargetPath(0)))]
  {
    assert !IsReservedNamespace("foo");
    OverlappingPair(Target("foo", "", "bar"), Target("foo", "", "bar"));
  }

  lemma OverlapByNameErrors()
    ensures PromotionErrors(PromotionConfiguration([Target("foo", "bar", ""), Target("foo", "bar", "")]), false, true, None, {})
         == [ValidationError(TargetPath(0), SameTarget(TargetPath(1))), ValidationError(TargetPath(1), SameTarget(TargetPath(0)))]
  {
    assert !IsReservedNamespace("foo");
    OverlappingPair(Target("foo", "bar", ""), Target("foo", "bar", ""));
  }

  /** Official images promoted into image targets with no release imported. */
  lemma ReleaseGateUnmet()
    ensures PromotionErrors(PromotionConfiguration([Target("foo", "", "bar")]), true, true, None, {})
         == [ValidationError(Root, ReleaseStreamRequired("foo"))]
    ensures PromotionErrors(PromotionConfiguration([Target("foo", "", "bar")]), true, true, None, {InitialReleaseName})
         == [ValidationError(Root, ReleaseStreamRequired("foo"))]
  {
    assert !IsReservedNamespace("foo");
    assert LatestReleaseName != InitialReleaseName;
    OneTarget(Target("foo", "", "bar"), true);
  }

  /** The gate is passed by releases["latest"], by a tag specification, or by having no image targets. */
  lemma ReleaseGateMet()
    ensures PromotionErrors(PromotionConfiguration([Target("foo", "", "bar")]), true, true, None, {LatestReleaseName}) == []
    ensures PromotionErrors(PromotionConfiguration([Target("foo", "", "bar")]), true, true, Some(ReleaseTagConfiguration("", "")), {}) == []
    ensures PromotionErrors(PromotionConfiguration([Target("foo", "", "bar")]), true, false, None, {}) == []
  {
    assert !IsReservedNamespace("foo");
    OneTarget(Target("foo", "", "bar"), false);
  }

  lemma TargetsPathRendering()
    ensures Render(TargetsPath) == "promotion.to"
  {
    RenderTwoFields("promotion", "to");
    assert "promotion" + "." + "to" == "promotion.to";
  }

  /** Targets are located as `promotion.to[i]` in messages. */
  lemma TargetPathRendering(i: nat)
    ensures Render(TargetPath(i)) == "promotion.to[" + NatToString(i) + "]"
  {
    TargetsPathRendering();
    RenderAddIndex(TargetsPath, i);
  }
}
