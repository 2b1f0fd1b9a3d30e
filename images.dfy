/**
 * The `images` list: every entry names the image it builds (`to`), which it
 * claims in the pipeline's namespace of image names; a Dockerfile literal
 * excludes the other build inputs; extra architectures come from a fixed set.
 */
module Images {
  import opened Wrappers
  import opened Text
  import opened FieldPath
  import opened Errors
  import opened Api
  import opened Registry

  const ImagesPath: Path := AddField(Root, "images")

  function ImagePath(i: nat): Path {
    AddIndex(ImagesPath, i)
  }

  const Architectures: set<string> := {"amd64", "arm64", "ppc64le", "s390x"}

  predicate LiteralConflict(inputs: BuildInputs) {
    inputs.dockerfileLiteral.Some? && (inputs.contextDir != "" || inputs.dockerfilePath != "")
  }

  /** What an entry must satisfy on its own, apart from its name being free. */
  predicate ValidImageFields(image: ImageBuild) {
    && image.to != ""
    && !LiteralConflict(image.inputs)
    && forall k :: 0 <= k < |image.additionalArchitectures| ==> image.additionalArchitectures[k] in Architectures
  }

  function ArchitectureCheck(at: Path): string -> seq<ValidationError> {
    (arch: string) => if arch in Architectures then [] else [ValidationError(at, InvalidArchitecture(arch))]
  }

  /** The checks of one entry that do not involve other entries: inputs, then architectures in order. */
  function InputErrors(at: Path, image: ImageBuild): (r: seq<ValidationError>)
    ensures r == [] <==> (!LiteralConflict(image.inputs)
      && forall k :: 0 <= k < |image.additionalArchitectures| ==> image.additionalArchitectures[k] in Architectures)
    ensures forall e :: e in r ==> e.path == at && (e.problem.LiteralExclusive? || e.problem.InvalidArchitecture?)
  {
    var archs := FlatMap(image.additionalArchitectures, ArchitectureCheck(at));
    assert forall e :: e in archs ==> e.path == at && e.problem.InvalidArchitecture? by {
      ArchitectureErrorsShape(image.additionalArchitectures, at);
    }
    (if LiteralConflict(image.inputs) then [ValidationError(at, LiteralExclusive)] else []) + archs
  }

  lemma {:induction false} ArchitectureErrorsShape(archs: seq<string>, at: Path)
    ensures forall e :: e in FlatMap(archs, ArchitectureCheck(at)) ==> e.path == at && e.problem.InvalidArchitecture?
    decreases |archs|
  {
    if archs != [] {
      ArchitectureErrorsShape(archs[..|archs| - 1], at);
    }
  }

  /** The claim an entry makes, if it names an image. */
  function ImageClaims(images: seq<ImageBuild>): (claims: seq<Claim>)
    ensures forall c :: c in claims ==> c.Produce?
    decreases |images|
  {
    if images == [] then []
    else
      var i := |images| - 1;
      ImageClaims(images[..i]) + (if images[i].to == "" then [] else [Produce(images[i].to, ImagePath(i))])
  }

  /**
   * Validates entries in order against the names claimed so far: a missing
   * `to` is reported, a present one is claimed; then the entry's inputs.
   */
  function ImagesWalk(names: Names, images: seq<ImageBuild>): Outcome
    decreases |images|
  {
    if images == [] then Outcome(names, [])
    else
      var i := |images| - 1;
      var before := ImagesWalk(names, images[..i]);
      var claim := NameCheck(before.names, images[i], i);
      Outcome(claim.names, before.errors + claim.errors + InputErrors(ImagePath(i), images[i]))
  }

  function NameCheck(names: Names, image: ImageBuild, i: nat): Outcome {
    if image.to == "" then Outcome(names, [ValidationError(ImagePath(i), ToRequired)])
    else Step(names, Produce(image.to, ImagePath(i)))
  }

  /** The images list validated on its own, with no other producers (ValidateImages in a fresh context). */
  function ImagesErrors(images: seq<ImageBuild>): seq<ValidationError> {
    ImagesWalk(NoNames, images).errors
  }

  /** The validator's loop over the list, claiming names in the shared registry. */
  method ValidateImages(registry: NameRegistry, images: seq<ImageBuild>) returns (errs: seq<ValidationError>)
    modifies registry
    ensures Outcome(registry.Contents(), errs) == ImagesWalk(old(registry.Contents()), images)
  {
    errs := [];
    for i := 0 to |images|
      invariant Outcome(registry.Contents(), errs) == ImagesWalk(old(registry.Contents()), images[..i])
    {
      assert images[..i + 1][..i] == images[..i];
      var at := ImagePath(i);
      var image := images[i];
      if image.to == "" {
        errs := errs + [ValidationError(at, ToRequired)];
      } else {
        var dup := registry.Claim(Produce(image.to, at));
        errs := errs + dup;
      }
      errs := errs + InputErrors(at, image);
    }
    assert images[..|images|] == images;
  }

  // ---------------------------------------------------------------------------
  // Properties

  lemma DuplicatesOfStep(names: Names, c: Claim)
    ensures Duplicates(Step(names, c).errors) == Step(names, c).errors
  {
    var es := Step(names, c).errors;
    if es != [] {
      assert es[..0] == [];
    }
  }

  lemma DuplicatesOfInputs(at: Path, image: ImageBuild)
    ensures Duplicates(InputErrors(at, image)) == []
  {
    DuplicatesNone(InputErrors(at, image));
  }

  /**
   * The names the list claims are exactly the claims of its named entries,
   * in list order, and the duplicates it reports are exactly those the
   * registry reports for those claims.
   */
  lemma {:induction false} ImagesWalkClaims(names: Names, images: seq<ImageBuild>)
    ensures ImagesWalk(names, images).names == Run(names, ImageClaims(images)).names
    ensures Duplicates(ImagesWalk(names, images).errors) == Run(names, ImageClaims(images)).errors
    decreases |images|
  {
    if images != [] {
      var i := |images| - 1;
      var p := images[..i];
      ImagesWalkClaims(names, p);
      var before := ImagesWalk(names, p);
      var claims := ImageClaims(p);
      RunAppend(names, claims, if images[i].to == "" then [] else [Produce(images[i].to, ImagePath(i))]);
      var claim := NameCheck(before.names, images[i], i);
      DuplicatesOfInputs(ImagePath(i), images[i]);
      DuplicatesAppend(before.errors + claim.errors, InputErrors(ImagePath(i), images[i]));
      DuplicatesAppend(before.errors, claim.errors);
      if images[i].to == "" {
        assert Duplicates(claim.errors) == [] by {
          assert claim.errors[..0] == [];
        }
      } else {
        var c := Produce(images[i].to, ImagePath(i));
        DuplicatesOfStep(before.names, c);
        assert [c][..0] == [];
        assert Run(before.names, [c]) == Outcome(Step(before.names, c).names, Step(before.names, c).errors);
      }
    }
  }

  /** When every entry names an image, the claims are one per entry, at the entry. */
  lemma {:induction false} ImageClaimsAllNamed(images: seq<ImageBuild>)
    requires forall i :: 0 <= i < |images| ==> images[i].to != ""
    ensures |ImageClaims(images)| == |images|
    ensures forall i :: 0 <= i < |images| ==> ImageClaims(images)[i] == Produce(images[i].to, ImagePath(i))
    decreases |images|
  {
    if images != [] {
      var i := |images| - 1;
      ImageClaimsAllNamed(images[..i]);
    }
  }

  /** An entry with bad fields makes the walk report something. */
  lemma {:induction false} BadFieldsReported(names: Names, images: seq<ImageBuild>, i: nat)
    requires i < |images| && !ValidImageFields(images[i])
    ensures ImagesWalk(names, images).errors != []
    decreases |images|
  {
    var n := |images| - 1;
    var before := ImagesWalk(names, images[..n]);
    var claim := NameCheck(before.names, images[n], n);
    var inputs := InputErrors(ImagePath(n), images[n]);
    assert ImagesWalk(names, images).errors == before.errors + claim.errors + inputs;
    if i < n {
      assert images[..n][i] == images[i];
      BadFieldsReported(names, images[..n], i);
      assert before.errors != [];
    } else if images[n].to == "" {
      assert claim.errors != [];
    } else {
      assert inputs != [];
    }
  }

  /**
   * The images list alone is accepted exactly when every entry is valid on
   * its own and no two entries build the same image.
   */
  lemma ImagesErrorsIff(images: seq<ImageBuild>)
    ensures ImagesErrors(images) == []
        <==> && (forall i :: 0 <= i < |images| ==> ValidImageFields(images[i]))
             && (forall i, j :: 0 <= i < j < |images| ==> images[i].to != images[j].to)
  {
    if forall i :: 0 <= i < |images| ==> ValidImageFields(images[i]) {
      ImageClaimsAllNamed(images);
      var claims := ImageClaims(images);
      ImagesWalkClaims(NoNames, images);
      RunReportsNothingIffDistinct(claims);
      ImagesErrorsFromDuplicates(images);
    } else {
      var i :| 0 <= i < |images| && !ValidImageFields(images[i]);
      BadFieldsReported(NoNames, images, i);
    }
  }

  /** With all entries valid on their own, the only errors are duplicates. */
  lemma {:induction false} ImagesErrorsFromDuplicates(images: seq<ImageBuild>)
    requires forall i :: 0 <= i < |images| ==> ValidImageFields(images[i])
    ensures forall names: Names :: Duplicates(ImagesWalk(names, images).errors) == ImagesWalk(names, images).errors
    decreases |images|
  {
    if images != [] {
      var i := |images| - 1;
      ImagesErrorsFromDuplicates(images[..i]);
      forall names: Names
        ensures Duplicates(ImagesWalk(names, images).errors) == ImagesWalk(names, images).errors
      {
        var before := ImagesWalk(names, images[..i]);
        var claim := NameCheck(before.names, images[i], i);
        DuplicatesOfStep(before.names, Produce(images[i].to, ImagePath(i)));
        DuplicatesAppend(before.errors + claim.errors, InputErrors(ImagePath(i), images[i]));
        DuplicatesAppend(before.errors, claim.errors);
        assert InputErrors(ImagePath(i), images[i]) == [];
      }
    }
  }

  /**
   * A duplicate reported by the list names the image and cites the first
   * entry that built it.
   */
  lemma DuplicateCitesFirstEntry(images: seq<ImageBuild>, name: string)
    requires forall i :: 0 <= i < |images| ==> images[i].to != ""
    ensures var seen := ImagesWalk(NoNames, images).names.seen;
      name in seen ==>
        exists i :: 0 <= i < |images| && images[i].to == name && seen[name] == ImagePath(i)
          && forall k :: 0 <= k < i ==> images[k].to != name
  {
    ImagesWalkClaims(NoNames, images);
    ImageClaimsAllNamed(images);
    FirstClaimantWins(ImageClaims(images), name);
  }

  /** Entries are reported at their own index. */
  lemma ImagePathRendering(i: nat)
    ensures Render(ImagePath(i)) == "images[" + NatToString(i) + "]"
  {
    assert ImagesPath == [Field("images")];
    assert ImagesPath[..0] == [];
    assert Render(ImagesPath) == "" + RenderSegment(Field("images"), true);
    RenderAddIndex(ImagesPath, i);
  }

  // ---------------------------------------------------------------------------
  // The validator's examples

  lemma MissingToReported()
    ensures ImagesErrors([ImageBuild("", NoBuildInputs, [])]) == [ValidationError(ImagePath(0), ToRequired)]
  {
    var images := [ImageBuild("", NoBuildInputs, [])];
    assert images[..0] == [];
    assert ImagesWalk(NoNames, images[..0]) == Outcome(NoNames, []);
    assert InputErrors(ImagePath(0), images[0]) == [];
  }

  lemma SameToReportedOnce()
    ensures ImagesErrors([ImageBuild("same-thing", NoBuildInputs, []), ImageBuild("same-thing", NoBuildInputs, [])])
         == [ValidationError(ImagePath(1), DuplicateImageName("same-thing", ImagePath(0)))]
  {
    var image := ImageBuild("same-thing", NoBuildInputs, []);
    var images := [image, image];
    assert images[..1] == [image] && images[..1][..0] == [];
    assert InputErrors(ImagePath(0), image) == [] && InputErrors(ImagePath(1), image) == [];
    assert ImagesWalk(NoNames, [image]) == Outcome(Names(map["same-thing" := ImagePath(0)], {}), []);
  }

  lemma LiteralWithContextDirReported()
    ensures ImagesErrors([ImageBuild("amsterdam", BuildInputs("foo", "", Some("FROM foo")), [])])
         == [ValidationError(ImagePath(0), LiteralExclusive)]
  {
    var images := [ImageBuild("amsterdam", BuildInputs("foo", "", Some("FROM foo")), [])];
    assert images[..0] == [];
  }

  lemma LiteralWithDockerfilePathReported()
    ensures ImagesErrors([ImageBuild("amsterdam", BuildInputs("", "foo", Some("FROM foo")), [])])
         == [ValidationError(ImagePath(0), LiteralExclusive)]
  {
    var images := [ImageBuild("amsterdam", BuildInputs("", "foo", Some("FROM foo")), [])];
    assert images[..0] == [];
  }

  lemma UnknownArchitectureReported()
    ensures ImagesErrors([ImageBuild("amsterdam", NoBuildInputs, ["foo", "amd64"])])
         == [ValidationError(ImagePath(0), InvalidArchitecture("foo"))]
  {
    var images := [ImageBuild("amsterdam", NoBuildInputs, ["foo", "amd64"])];
    assert images[..0] == [];
    var archs := ["foo", "amd64"];
    assert archs[..1] == ["foo"] && archs[..1][..0] == [];
    var e := ValidationError(ImagePath(0), InvalidArchitecture("foo"));
    assert FlatMap(archs[..1], ArchitectureCheck(ImagePath(0))) == [e];
    assert FlatMap(archs, ArchitectureCheck(ImagePath(0))) == [e];
    assert InputErrors(ImagePath(0), images[0]) == [e];
    assert ImagesWalk(NoNames, images[..0]) == Outcome(NoNames, []);
  }
}
