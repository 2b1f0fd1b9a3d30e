/**
 * The pipeline's single namespace of image names. Every producer of an
 * image claims its name, in a fixed precedence order; the first claimant
 * is remembered, and a later claim of the same name is reported with the
 * first claimant's field. A multi-stage step's `from_image` claims the
 * name `<namespace>-<name>-<tag>`, and importing the same reference again
 * is an alias of the first import, not a second claim.
 */
module Registry {
  import opened Wrappers
  import opened FieldPath
  import opened Errors
  import opened Api

  datatype Claim =
    | Produce(name: string, at: Path)                 // a field that builds or imports `name`
    | Import(ref: ImageStreamTagReference, at: Path)  // a step's from_image

  function NameOf(c: Claim): string {
    match c
    case Produce(name, _) => name
    case Import(ref, _) => FromImageName(ref)
  }

  /** The names claimed so far, each with its first claimant, and the references imported so far. */
  datatype Names = Names(seen: map<string, Path>, aliases: set<ImageStreamTagReference>)

  const NoNames := Names(map[], {})

  datatype Outcome = Outcome(names: Names, errors: seq<ValidationError>)

  /** Claims `name` for the field at `at`: first writer wins, a later one is reported. */
  function Record(names: Names, name: string, at: Path): (o: Outcome)
    ensures o.names.aliases == names.aliases
    ensures name in o.names.seen && forall n :: n in names.seen ==> n in o.names.seen && o.names.seen[n] == names.seen[n]
    ensures o.errors == [] <==> name !in names.seen
  {
    if name in names.seen then Outcome(names, [ValidationError(at, DuplicateImageName(name, names.seen[name]))])
    else Outcome(names.(seen := names.seen[name := at]), [])
  }

  function Step(names: Names, c: Claim): Outcome {
    match c
    case Produce(name, at) => Record(names, name, at)
    case Import(ref, at) =>
      if ref in names.aliases then Outcome(names, [])
      else Record(names.(aliases := names.aliases + {ref}), FromImageName(ref), at)
  }

  /** The claims made in order, from the given names. */
  function Run(names: Names, claims: seq<Claim>): Outcome
    decreases |claims|
  {
    if claims == [] then Outcome(names, [])
    else
      var before := Run(names, claims[..|claims| - 1]);
      var last := Step(before.names, claims[|claims| - 1]);
      Outcome(last.names, before.errors + last.errors)
  }

  // ---------------------------------------------------------------------------
  // The registry as the validator holds it: a seen-names map filled in place.

  class NameRegistry {
    var seen: map<string, Path>
    var aliases: set<ImageStreamTagReference>

    constructor()
      ensures seen == map[] && aliases == {}
    {
      seen := map[];
      aliases := {};
    }

    function Contents(): Names
      reads this
    {
      Names(seen, aliases)
    }

    /** Claims one name; returns the duplicate error, if any. */
    method Claim(c: Claim) returns (errs: seq<ValidationError>)
      modifies this
      ensures Outcome(Contents(), errs) == Step(old(Contents()), c)
    {
      errs := [];
      if c.Import? {
        if c.ref in aliases {
          return;
        }
        aliases := aliases + {c.ref};
      }
      var name := NameOf(c);
      if name in seen {
        errs := [ValidationError(c.at, DuplicateImageName(name, seen[name]))];
      } else {
        seen := seen[name := c.at];
      }
    }

    /** Claims every name in order; returns the duplicate errors in claim order. */
    method ClaimAll(claims: seq<Claim>) returns (errs: seq<ValidationError>)
      modifies this
      ensures Outcome(Contents(), errs) == Run(old(Contents()), claims)
    {
      errs := [];
      for i := 0 to |claims|
        invariant Outcome(Contents(), errs) == Run(old(Contents()), claims[..i])
      {
        assert claims[..i + 1][..i] == claims[..i];
        var more := Claim(claims[i]);
        errs := errs + more;
      }
      assert claims[..|claims|] == claims;
    }
  }

  // ---------------------------------------------------------------------------
  // The reference: first claimants and expected reports, read off the claim list.

  /** The field of the first claim of `name`, if any. */
  function Origin(claims: seq<Claim>, name: string): Option<Path>
    decreases |claims|
  {
    if claims == [] then None
    else match Origin(claims[..|claims| - 1], name)
      case Some(p) => Some(p)
      case None => if NameOf(claims[|claims| - 1]) == name then Some(claims[|claims| - 1].at) else None
  }

  predicate Imported(claims: seq<Claim>, ref: ImageStreamTagReference) {
    exists i :: 0 <= i < |claims| && claims[i].Import? && claims[i].ref == ref
  }

  /**
   * What claim j must report: nothing when it re-imports a reference
   * imported before, else a duplicate citing the first claimant of its name
   * when there was one.
   */
  function Expected(claims: seq<Claim>, j: nat): seq<ValidationError>
    requires j < |claims|
  {
    var c := claims[j];
    if c.Import? && Imported(claims[..j], c.ref) then []
    else match Origin(claims[..j], NameOf(c))
      case None => []
      case Some(origin) => [ValidationError(c.at, DuplicateImageName(NameOf(c), origin))]
  }

  function ExpectedCheck(claims: seq<Claim>): nat -> seq<ValidationError> {
    (j: nat) => if j < |claims| then Expected(claims, j) else []
  }

  function ExpectedErrors(claims: seq<Claim>): seq<ValidationError> {
    FlatMapIndexed(|claims|, ExpectedCheck(claims))
  }

  /** The registry's state agrees with the reference for the claims made so far. */
  ghost predicate Tracks(names: Names, claims: seq<Claim>) {
    && (forall n :: n in names.seen ==> Origin(claims, n) == Some(names.seen[n]))
    && (forall n :: n !in names.seen ==> Origin(claims, n) == None)
    && (forall ref :: ref in names.aliases <==> Imported(claims, ref))
  }

  // ---------------------------------------------------------------------------
  // Properties

  /** The first claim of a name is where Origin points, and no earlier claim has that name. */
  lemma {:induction false} OriginIsFirst(claims: seq<Claim>, name: string)
    ensures Origin(claims, name).None? <==> forall i :: 0 <= i < |claims| ==> NameOf(claims[i]) != name
    ensures Origin(claims, name).Some? ==>
      exists i :: 0 <= i < |claims| && NameOf(claims[i]) == name && claims[i].at == Origin(claims, name).value
        && forall k :: 0 <= k < i ==> NameOf(claims[k]) != name
    decreases |claims|
  {
    if claims != [] {
      var p := claims[..|claims| - 1];
      OriginIsFirst(p, name);
      if Origin(p, name).Some? {
        var i :| 0 <= i < |p| && NameOf(p[i]) == name && p[i].at == Origin(p, name).value
          && forall k :: 0 <= k < i ==> NameOf(p[k]) != name;
        assert claims[i] == p[i];
        assert forall k :: 0 <= k < i ==> claims[k] == p[k];
      } else {
        assert forall k :: 0 <= k < |p| ==> claims[k] == p[k];
      }
    }
  }

  /** Origin of a prefix extended by one claim. */
  lemma OriginSnoc(claims: seq<Claim>, c: Claim, name: string)
    ensures Origin(claims + [c], name)
         == if Origin(claims, name).Some? then Origin(claims, name)
            else if NameOf(c) == name then Some(c.at) else None
  {
    assert (claims + [c])[..|claims|] == claims;
  }

  lemma ImportedSnoc(claims: seq<Claim>, c: Claim, ref: ImageStreamTagReference)
    ensures Imported(claims + [c], ref) <==> Imported(claims, ref) || (c.Import? && c.ref == ref)
  {
    var all := claims + [c];
    if Imported(all, ref) && !(c.Import? && c.ref == ref) {
      var i :| 0 <= i < |all| && all[i].Import? && all[i].ref == ref;
      assert i < |claims| && claims[i] == all[i];
    }
    if Imported(claims, ref) {
      var i :| 0 <= i < |claims| && claims[i].Import? && claims[i].ref == ref;
      assert all[i] == claims[i];
    }
    if c.Import? && c.ref == ref {
      assert all[|claims|] == c;
    }
  }

  /** An imported reference has claimed its name. */
  lemma ImportedHasOrigin(claims: seq<Claim>, ref: ImageStreamTagReference)
    requires Imported(claims, ref)
    ensures Origin(claims, FromImageName(ref)).Some?
  {
    var i :| 0 <= i < |claims| && claims[i].Import? && claims[i].ref == ref;
    assert NameOf(claims[i]) == FromImageName(ref);
    OriginIsFirst(claims, FromImageName(ref));
  }

  /** One more claim keeps the registry in step with the reference and reports what the reference expects. */
  lemma StepTracks(names: Names, claims: seq<Claim>, c: Claim)
    requires Tracks(names, claims)
    ensures Tracks(Step(names, c).names, claims + [c])
    ensures Step(names, c).errors == Expected(claims + [c], |claims|)
  {
    var all := claims + [c];
    assert all[..|claims|] == claims && all[|claims|] == c;
    var name := NameOf(c);
    var s := Step(names, c);
    forall n
      ensures Origin(all, n) == if Origin(claims, n).Some? then Origin(claims, n) else if name == n then Some(c.at) else None
    {
      OriginSnoc(claims, c, n);
    }
    forall ref
      ensures Imported(all, ref) <==> Imported(claims, ref) || (c.Import? && c.ref == ref)
    {
      ImportedSnoc(claims, c, ref);
    }
    if c.Import? && c.ref in names.aliases {
      ImportedHasOrigin(claims, c.ref);
    }
  }

  /** Claims made from no names leave the registry in step with the reference. */
  lemma {:induction false} RunTracks(claims: seq<Claim>)
    ensures Tracks(Run(NoNames, claims).names, claims)
    ensures Run(NoNames, claims).errors == ExpectedErrors(claims)
    decreases |claims|
  {
    if claims != [] {
      var k := |claims| - 1;
      var p := claims[..k];
      assert claims == p + [claims[k]];
      RunTracks(p);
      StepTracks(Run(NoNames, p).names, p, claims[k]);
      forall j | 0 <= j < k
        ensures ExpectedCheck(claims)(j) == ExpectedCheck(p)(j)
      {
        assert claims[..j] == p[..j] && claims[j] == p[j];
      }
      FlatMapIndexedAgree(k, ExpectedCheck(claims), ExpectedCheck(p));
      assert ExpectedCheck(claims)(k) == Expected(claims, k);
      assert FlatMapIndexed(|claims|, ExpectedCheck(claims))
          == FlatMapIndexed(k, ExpectedCheck(claims)) + ExpectedCheck(claims)(k);
    }
  }

  /**
   * First writer wins: after all claims, a name is registered exactly when
   * some claim made it, and it is registered to the first such claim's field.
   */
  lemma FirstClaimantWins(claims: seq<Claim>, name: string)
    ensures var seen := Run(NoNames, claims).names.seen;
      && (name in seen <==> exists i :: 0 <= i < |claims| && NameOf(claims[i]) == name)
      && (name in seen ==>
            exists i :: 0 <= i < |claims| && NameOf(claims[i]) == name && claims[i].at == seen[name]
              && forall k :: 0 <= k < i ==> NameOf(claims[k]) != name)
  {
    RunTracks(claims);
    OriginIsFirst(claims, name);
  }

  /**
   * Each claim reports at most one error, and reports one exactly when an
   * earlier claim took its name and it is not a repeated import; the error
   * is located at the claim and cites the first claimant.
   */
  lemma ExpectedShape(claims: seq<Claim>, j: nat)
    requires j < |claims|
    ensures |Expected(claims, j)| <= 1
    ensures Expected(claims, j) != []
        <==> && !(claims[j].Import? && Imported(claims[..j], claims[j].ref))
             && exists i :: 0 <= i < j && NameOf(claims[i]) == NameOf(claims[j])
    ensures Expected(claims, j) != [] ==>
      Expected(claims, j)[0].path == claims[j].at &&
      Expected(claims, j)[0].problem == DuplicateImageName(NameOf(claims[j]), Origin(claims[..j], NameOf(claims[j])).value)
  {
    var p := claims[..j];
    OriginIsFirst(p, NameOf(claims[j]));
    assert forall i :: 0 <= i < j ==> p[i] == claims[i];
  }

  /** Produced names that are pairwise distinct report nothing; a repeated one is reported. */
  lemma RunReportsNothingIffDistinct(claims: seq<Claim>)
    requires forall j :: 0 <= j < |claims| ==> claims[j].Produce?
    ensures Run(NoNames, claims).errors == []
        <==> forall i, j :: 0 <= i < j < |claims| ==> claims[i].name != claims[j].name
  {
    RunTracks(claims);
    var f := ExpectedCheck(claims);
    assert ExpectedErrors(claims) == [] <==> forall j :: 0 <= j < |claims| ==> f(j) == [];
    if ExpectedErrors(claims) == [] {
      forall i, j | 0 <= i < j < |claims|
        ensures claims[i].name != claims[j].name
      {
        assert f(j) == [];
        ExpectedShape(claims, j);
      }
    } else {
      var j :| 0 <= j < |claims| && f(j) != [];
      ExpectedShape(claims, j);
      var i :| 0 <= i < j && NameOf(claims[i]) == NameOf(claims[j]);
      assert claims[i].name == claims[j].name;
    }
  }

  /** The registry reports nothing but duplicate names. */
  lemma {:induction false} RunReportsDuplicates(names: Names, claims: seq<Claim>)
    ensures Duplicates(Run(names, claims).errors) == Run(names, claims).errors
    decreases |claims|
  {
    if claims != [] {
      var p := claims[..|claims| - 1];
      var before := Run(names, p);
      var last := Step(before.names, claims[|claims| - 1]);
      RunReportsDuplicates(names, p);
      DuplicatesAppend(before.errors, last.errors);
      if last.errors != [] {
        assert last.errors[..0] == [];
      }
    }
  }

  /** Claim j takes a name an earlier claim took, and is not a repeated import. */
  predicate Clashes(claims: seq<Claim>, j: nat)
    requires j < |claims|
  {
    && !(claims[j].Import? && Imported(claims[..j], claims[j].ref))
    && exists i :: 0 <= i < j && NameOf(claims[i]) == NameOf(claims[j])
  }

  /** The registry reports nothing exactly when no claim clashes with an earlier one. */
  lemma RunReportsNothingIff(claims: seq<Claim>)
    ensures Run(NoNames, claims).errors == [] <==> forall j :: 0 <= j < |claims| ==> !Clashes(claims, j)
  {
    RunTracks(claims);
    var f := ExpectedCheck(claims);
    assert ExpectedErrors(claims) == [] <==> forall j :: 0 <= j < |claims| ==> f(j) == [];
    forall j | 0 <= j < |claims|
      ensures f(j) == [] <==> !Clashes(claims, j)
    {
      ExpectedShape(claims, j);
    }
  }

  /** Claiming a list in two parts is claiming it at once. */
  lemma {:induction false} RunAppend(names: Names, a: seq<Claim>, b: seq<Claim>)
    ensures Run(names, a + b).names == Run(Run(names, a).names, b).names
    ensures Run(names, a + b).errors == Run(names, a).errors + Run(Run(names, a).names, b).errors
    decreases |b|
  {
    if b == [] {
      assert a + b == a;
    } else {
      var b' := b[..|b| - 1];
      assert (a + b)[..|a + b| - 1] == a + b';
      assert (a + b)[|a + b| - 1] == b[|b| - 1];
      RunAppend(names, a, b');
    }
  }

  // ---------------------------------------------------------------------------
  // The cases of the pipeline image tests

  /** A name produced twice is reported once, at the second field, citing the first. */
  lemma ProducedTwice(name: string, first: Path, second: Path)
    ensures Run(NoNames, [Produce(name, first), Produce(name, second)]).errors
         == [ValidationError(second, DuplicateImageName(name, first))]
  {
    var claims := [Produce(name, first), Produce(name, second)];
    assert claims[..1] == [Produce(name, first)];
    assert claims[..1][..0] == [];
    assert Run(NoNames, claims[..1]) == Outcome(Names(map[name := first], {}), []);
  }

  /** Three steps importing the same reference share one name. */
  lemma ImportAliases(ref: ImageStreamTagReference, a: Path, b: Path, c: Path)
    ensures Run(NoNames, [Import(ref, a), Import(ref, b), Import(ref, c)]).errors == []
  {
    var claims := [Import(ref, a), Import(ref, b), Import(ref, c)];
    var n := FromImageName(ref);
    assert claims[..2] == [Import(ref, a), Import(ref, b)];
    assert claims[..2][..1] == [Import(ref, a)];
    assert claims[..1][..0] == [];
    var names := Names(map[n := a], {ref});
    assert Run(NoNames, claims[..1]) == Outcome(names, []);
    assert Run(NoNames, claims[..2]) == Outcome(names, []);
  }

  /** An import whose name an image already took is reported once, even when imported again. */
  lemma ImportAfterImage(ref: ImageStreamTagReference, image: Path, a: Path, b: Path)
    ensures Run(NoNames, [Produce(FromImageName(ref), image), Import(ref, a), Import(ref, b)]).errors
         == [ValidationError(a, DuplicateImageName(FromImageName(ref), image))]
  {
    var n := FromImageName(ref);
    var claims := [Produce(n, image), Import(ref, a), Import(ref, b)];
    assert claims[..2] == [Produce(n, image), Import(ref, a)];
    assert claims[..2][..1] == [Produce(n, image)];
    assert claims[..1][..0] == [];
    var e := ValidationError(a, DuplicateImageName(n, image));
    assert Run(NoNames, claims[..1]) == Outcome(Names(map[n := image], {}), []);
    assert Run(NoNames, claims[..2]) == Outcome(Names(map[n := image], {ref}), [e]);
  }

  /** Two different produced names: nothing is reported and the second keeps its own field. */
  lemma TwoDistinct(x: Claim, y: Claim)
    requires x.Produce? && y.Produce? && x.name != y.name
    ensures Run(NoNames, [x, y]).errors == []
    ensures y.name in Run(NoNames, [x, y]).names.seen && Run(NoNames, [x, y]).names.seen[y.name] == y.at
  {
    assert [x, y][..1] == [x] && [x][..0] == [];
    assert Run(NoNames, []) == Outcome(NoNames, []);
    var first := Run(NoNames, [x]);
    assert first == Outcome(Step(NoNames, x).names, [] + Step(NoNames, x).errors);
    assert first.errors == [] && first.names.seen == map[x.name := x.at];
    assert Step(first.names, y) == Outcome(first.names.(seen := first.names.seen[y.name := y.at]), []);
  }
}
