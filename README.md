# CI configuration validation, modelled in Dafny

This project models the validator of ci-operator's release-build
configuration (`pkg/validation`). A configuration names its build root,
its base images and base RPM images, its build commands, an operator
section of bundles and substitutions, the images it builds, its tests
with their multi-stage steps, the resources of its steps, its promotion
targets, external images and tag specification. The validator checks each
section on its own and then the configuration as a whole, and reports
every problem it finds, each at the path of the field that causes it
(`images[1]`, `promotion.to[0]`, `tests[0].steps.pre[1].dependencies[0]`,
...), under one `invalid configuration: ` prefix.

The model keeps the validator's shape:

- errors are data, a field path and a problem (`Errors`, `FieldPath`);
  `Describe`, `Render` and `RenderError` turn them into the strings the
  validator prints;
- each section validator is a function returning its list of errors,
  with a loop-based method proved equal to it and a lemma saying exactly
  when the list is empty (`Inputs`, `Resources`, `Promotion`, `Images`,
  `Operator`, `Dependencies`);
- the pipeline's one namespace of image names is a class,
  `Registry.NameRegistry`, whose `Claim` method updates the map of first
  claimants and the set of imported `from_image` references in place.
  It is specified by the fold `Registry.Run` and checked against an
  independent reference: the first claimant of each name, read off the
  list of claims (`Registry.Origin`, `Registry.Expected`);
- the whole-configuration check (`Validation`) makes the claims in the
  validator's precedence order: build root, base images, base RPM
  images, build commands, operator, the images list, then the steps'
  `from_image` imports. It also applies the global policies and is proved
  to accept a configuration exactly when every rule holds on its own
  (`Validation.ConfigurationErrorsIff`);
- dependencies of test steps are resolved to an image stream and tag
  (`Resolver.DependencyParts`, including the cluster-claim redirection)
  and checked against what the configuration provides (`Dependencies`).

The test table of `pkg/validation/config_test.go` pins inputs and
outputs. Each of its cases is stated as a lemma over every configuration
whose relevant fields match the case, not over one literal configuration.

Where a test's name and its table entry point different ways, the model
follows the entry:

- Resources. A blanket `*` entry with at least one request or limit is
  enough; `cpu` or `memory` is not required. The case named "not having
  either cpu or memory makes an error" (config_test.go:262-275) requests
  `cpu` and fails only because of its unknown limit `boogie`, while the
  entries of only `ephemeral-storage`, only `shm` or only
  `nvidia.com/gpu` (config_test.go:318-366) are accepted.
- The shm cap is `2G` (decimal). `2G` passes and `3G` fails
  (config_test.go:332-353).

Choices the tests leave open, made explicitly:

- The order of the top-level error groups is the model's own. The tests
  pin only single errors of the whole check.
- The operator's substitution check asks whether a pull spec resolves
  through a caller-supplied predicate `resolves`.
- Whether promoted images are official (`promotesOfficialImages`) is a
  caller-supplied boolean.
- Promotion is validated on its own (`Promotion.PromotionErrors`) and is
  not part of the whole-configuration check. The whole check only uses
  it for "something must be built, tested or promoted".
- `build_roots` (merged configurations):
  - it claims `root` at the field `build_roots` when there is no `build_root`;
  - it stands in for `build_root` in the "images need a build root" rule;
  - its entries are not validated one by one.
- Claims:
  - `*_list` build commands claim no name;
  - an unnamed bundle claims its generated name `ci-bundle<i>`, but no index name;
  - an image entry with an empty `to` claims nothing.
- Paths of map entries take two forms. The field checks of an entry of
  `base_images`, `base_rpm_images` or `external` report at
  `<map>.<key>` (`Inputs.BaseImageErrors`, `Inputs.ExternalImageErrors`).
  The name registry cites an entry as `<map>[<key>]`, the form the
  duplicate-name cases pin (config_test.go:1282). The field-check form
  is the model's own; no case pins it.
- A bare dependency name that nothing produces is an implicit guess at
  `stable:<name>` and is never reported (`Dependencies.Unsatisfied`,
  `Dependencies.ImplicitNeverReported`).
- The promotion release gate reports one error per target, at the root
  (`Promotion.GateErrors`); the only case that fires it
  (config_test.go:446-462) has a single target.
- A container test is a test with no multi-stage configuration.
- Both kinds of multi-stage test report their `from_image` imports under
  `tests[i].steps`.

## Model

| member | source | states |
|---|---|---|
| Registry.Record | pkg/validation/config_test.go:1283-1289 | claiming a name keeps every earlier first claimant; it reports an error exactly when the name was already claimed |
| Registry.NameRegistry.constructor | pkg/validation/config_test.go:1146-1165 | a fresh registry has claimed no name and imported no reference |
| Registry.NameRegistry.Claim | pkg/validation/config_test.go:1283-1289 | the registry's new contents and the errors of one claim are the fold step `Step` applied to the old contents |
| Registry.NameRegistry.ClaimAll | pkg/validation/config_test.go:1166-1172 | claiming a list in order leaves the registry and the errors that `Run` computes from the old contents |
| Registry.OriginIsFirst | pkg/validation/config_test.go:1283-1289 | the reference origin of a name is absent exactly when no claim has it, and otherwise is the field of the first claim that has it |
| Registry.StepTracks | pkg/validation/config_test.go:1303-1388 | one claim keeps the registry in agreement with the reference (first claimants, imported references) and reports what the reference expects of that claim |
| Registry.RunTracks | pkg/validation/config_test.go:1146-1394 | after any list of claims the registry agrees with the reference, and the errors are exactly the expected ones in claim order |
| Registry.FirstClaimantWins | pkg/validation/config_test.go:1283-1289 | a name is registered exactly when some claim made it, and it is registered to the first such claim's field |
| Registry.ExpectedShape | pkg/validation/config_test.go:1303-1388 | a claim reports at most one error; it reports one exactly when an earlier claim took its name and it does not re-import the same reference |
| Registry.RunReportsNothingIffDistinct | pkg/validation/config_test.go:1166-1172 | for claims that produce names, nothing is reported exactly when all names are distinct |
| Registry.RunReportsNothingIff | pkg/validation/config_test.go:1146-1394 | nothing is reported exactly when no claim clashes with an earlier one |
| Registry.RunReportsDuplicates | pkg/validation/config_test.go:1146-1394 | everything the registry reports is a duplicate-name error |
| Registry.RunAppend | pkg/validation/config_test.go:1146-1394 | claiming a + b is claiming a and then b: same final names and concatenated errors |
| Registry.OriginSnoc | pkg/validation/config_test.go:1283-1289 | appending a claim keeps an existing origin and otherwise makes the new claim the origin of its name |
| Registry.ImportedSnoc | pkg/validation/config_test.go:1340-1388 | a reference is imported after an appended claim exactly when it was before or the claim imports it |
| Registry.ImportedHasOrigin | pkg/validation/config_test.go:1340-1388 | an imported reference's name has an origin |
| Registry.ProducedTwice | pkg/validation/config_test.go:1283-1289 | a name produced twice is reported once, at the second field, citing the first |
| Registry.ImportAliases | pkg/validation/config_test.go:1340-1388 | three imports of one reference report nothing |
| Registry.ImportAfterImage | pkg/validation/config_test.go:1303-1338 | an import of a name an image took is reported once, at the first import, citing the image; the re-import is silent |
| Inputs.BuildRootError | pkg/validation/config_test.go:18-101 | no error exactly when a given build root has exactly one source, or no build root is given and no image is built; a rootless configuration with images is refused; the error kinds for zero and for several sources |
| Inputs.ToList | pkg/validation/config_test.go:18-101 | an optional error becomes an empty list exactly when it is absent, else the one-element list |
| Inputs.ExternalImageErrors | pkg/validation/config_test.go:104-167 | no error exactly when registry, namespace, name and tag are set and no pull spec is; at most five errors |
| Inputs.ExternalErrorsIff | pkg/validation/config_test.go:104-167 | the external-image map passes exactly when every entry is valid |
| Inputs.ValidateExternal | pkg/validation/config_test.go:104-167 | the loop over the external images in key order returns the specified errors, empty exactly when every entry is valid |
| Inputs.BaseImageErrors | pkg/validation/config_test.go:170-205 | no error exactly when the reference has a tag and the key is not the reserved bundle-source name; errors sit at the entry's key |
| Inputs.BaseImagesErrorsIff | pkg/validation/config_test.go:170-205 | a base-image map passes exactly when every entry is valid |
| Inputs.ValidateBaseImages | pkg/validation/config_test.go:170-205 | the loop over a base-image map in key order returns the specified errors, empty exactly when every entry is valid |
| Inputs.ReleaseTagErrors | pkg/validation/config_test.go:495-513 | a tag_specification passes exactly when namespace and name are set; at most two errors, all at its own path |
| Inputs.BuildRootExamples | pkg/validation/config_test.go:26-92 | two sources, no source, and a missing root with images are refused; an image_stream_tag root, and no root without images, pass |
| Inputs.ExternalAccepted | pkg/validation/config_test.go:110-118 | the complete external image, and no external images, pass |
| Inputs.ExternalRejected | pkg/validation/config_test.go:119-153 | an external image missing registry, namespace, name or tag, or setting a pull spec, is refused |
| Inputs.BaseImagesAccepted | pkg/validation/config_test.go:176-182 | a tagged base image passes |
| Inputs.BaseImageWithoutTagRejected | pkg/validation/config_test.go:183-189 | a base image without a tag is refused |
| Inputs.BaseImageNamedBundleSourceRejected | pkg/validation/config_test.go:190-196 | a base image may not take the bundle-source name |
| Inputs.ReleaseTagExample | pkg/validation/config_test.go:501-505 | a tag_specification with namespace and name passes |
| Quantity.ParseUnsigned | pkg/validation/config_test.go:276-289 | a parsed magnitude starts with a digit and is the value of its leading digits times the factor of the known suffix that follows them |
| Quantity.Parse | pkg/validation/config_test.go:276-317 | a parsed value is what the text reads as: an optional sign, digits and a known suffix, worth the digits times the suffix's factor and negated by `-` |
| Quantity.ParseComplete | pkg/validation/config_test.go:276-317 | conversely, every text that reads as a quantity of some value parses to exactly that value |
| Quantity.ParseSigned | pkg/validation/config_test.go:290-317 | a `-` or `+` followed by a reading parses to the reading's magnitude, negated for `-` |
| Quantity.ParseUnsignedComplete | pkg/validation/config_test.go:276-289 | digits followed by a known suffix parse to the digits' value times the suffix's factor |
| Quantity.ParseRendered | pkg/validation/config_test.go:214-227 | a decimal number with a known suffix parses to the number times the suffix's factor (in milli-units) |
| Quantity.ParseNegative | pkg/validation/config_test.go:290-303 | a negated number with a known suffix parses to the negated product |
| Resources.QuantityErrors | pkg/validation/config_test.go:247-366 | at most one error, none exactly when the name is a known resource and the value a positive quantity (shm at most 2G) |
| Resources.ResourceListErrorsIff | pkg/validation/config_test.go:247-317 | a resource list passes exactly when every entry does |
| Resources.RequirementsErrorsIff | pkg/validation/config_test.go:262-275 | a step's requirements pass exactly when there is a request or a limit and every entry passes |
| Resources.ResourcesErrorsIff | pkg/validation/config_test.go:208-391 | the resources pass exactly when there is a blanket entry and every step's requirements pass |
| Resources.ValidateResourceList | pkg/validation/config_test.go:247-317 | the loop over a resource list returns its errors, empty exactly when the list is valid |
| Resources.ValidateRequirements | pkg/validation/config_test.go:262-275 | limits then requests, then the missing-entry error, the errors specified, empty exactly when valid |
| Resources.ValidateResources | pkg/validation/config_test.go:208-391 | the loop over the steps returns the errors specified, empty exactly when the configuration is valid |
| Resources.ParseMilli | pkg/validation/config_test.go:214-227 | `100m` and `0m` parse to 100 and 0 milli-units |
| Resources.ParseNegativeMilli | pkg/validation/config_test.go:290-303 | `-110m` parses to -110 |
| Resources.ParseShm | pkg/validation/config_test.go:332-353 | `2G` is exactly the shm cap and `3G` one and a half times it |
| Resources.ParseUnitless | pkg/validation/config_test.go:354-366 | `1` parses to one unit |
| Resources.ParseBinary | pkg/validation/config_test.go:318-331 | `60Gi` and `100Gi` parse with binary factors |
| Resources.WordsAreNotQuantities | pkg/validation/config_test.go:276-289 | `donkeys`, `foo`, `bar`, `value` are not quantities |
| Resources.BlanketValidIff | pkg/validation/config_test.go:214-227 | a blanket-only configuration passes exactly when its requirements do |
| Resources.AcceptsCpu | pkg/validation/config_test.go:214-227 | cpu `100m` request and limit pass |
| Resources.BlanketOfOneEach | pkg/validation/config_test.go:214-331 | for any names and values, a blanket entry with one valid limit and one valid request passes |
| Resources.AcceptsEphemeralStorageOnly | pkg/validation/config_test.go:318-331 | ephemeral-storage alone passes |
| Resources.AcceptsShmAtCap | pkg/validation/config_test.go:332-342 | shm `2G` passes |
| Resources.AcceptsGpuOnly | pkg/validation/config_test.go:354-366 | an nvidia gpu count alone passes |
| Resources.RejectsInvalidKey | pkg/validation/config_test.go:247-261 | an unknown resource name is refused |
| Resources.RejectsOnlyInvalidKey | pkg/validation/config_test.go:262-275 | a limit of only an unknown name is refused |
| Resources.RejectsWord | pkg/validation/config_test.go:276-289 | a value that is not a quantity is refused |
| Resources.RejectsNegative | pkg/validation/config_test.go:290-303 | a negative value is refused |
| Resources.RejectsZero | pkg/validation/config_test.go:304-317 | a zero value is refused |
| Resources.RejectsShmOverCap | pkg/validation/config_test.go:343-353 | shm above 2G is refused |
| Resources.RejectsGpuWords | pkg/validation/config_test.go:367-380 | gpu values that are not quantities are refused |
| Resources.RejectsEmpty | pkg/validation/config_test.go:228-232 | a configuration without entries is refused |
| Resources.RejectsMissingBlanket | pkg/validation/config_test.go:233-246 | a configuration without the `*` entry is refused |
| Promotion.TargetFieldErrors | pkg/validation/config_test.go:416-433 | a target's own fields pass exactly when namespace is set, exactly one of name and tag is set and the namespace is not reserved; errors sit at the target |
| Promotion.UpToStep | pkg/validation/config_test.go:434-445 | the errors of the first n + 1 targets are those of the first n followed by target n's |
| Promotion.ValidatePromotion | pkg/validation/config_test.go:394-492 | the loop over the targets returns the errors specified by `PromotionErrors` |
| Promotion.CheckTarget | pkg/validation/config_test.go:394-492 | the per-target body returns that target's field errors, then its overlaps, then the release gate |
| Promotion.CheckOverlaps | pkg/validation/config_test.go:434-445 | the inner loop compares target i with every target in order and returns the specified overlap errors |
| Promotion.OverlapSymmetric | pkg/validation/config_test.go:434-445 | two targets overlap in either order or not at all |
| Promotion.OverlapErrorsMembership | pkg/validation/config_test.go:434-445 | a target overlapping an earlier or later target k reports "same target as k" |
| Promotion.TargetPathInjective | pkg/validation/config_test.go:434-445 | different target indexes have different paths |
| Promotion.OverlapErrorsEmptyIff | pkg/validation/config_test.go:434-445 | a target reports no overlap exactly when it overlaps no other target |
| Promotion.OverlapErrorsNonEmpty | pkg/validation/config_test.go:434-445 | an overlap report has a witness target |
| Promotion.SameTargetSymmetric | pkg/validation/config_test.go:434-445 | if a reports b as its same target, b reports a |
| Promotion.SameTargetInSection | pkg/validation/config_test.go:434-445 | overlapping targets a and b below n are reported among the first n targets' errors |
| Promotion.SameTargetInTarget | pkg/validation/config_test.go:434-445 | target a's own errors name every overlapping b |
| Promotion.OverlapErrorsPaths | pkg/validation/config_test.go:434-445 | every overlap error sits at the reporting target |
| Promotion.TargetErrorsEmptyIff | pkg/validation/config_test.go:404-483 | a target reports nothing exactly when its fields are valid, it overlaps no other target and the release gate is met |
| Promotion.PromotionErrorsIff | pkg/validation/config_test.go:394-492 | promotion passes exactly when every target is valid, no two targets overlap and official image promotion has a `latest` release |
| Promotion.NoOverlapPairwise | pkg/validation/config_test.go:434-445 | "no target overlaps another" is the same as pairwise non-overlap |
| Promotion.OneTarget | pkg/validation/config_test.go:404-433 | one target's report is its field errors then its gate error |
| Promotion.OverlappingPair | pkg/validation/config_test.go:434-445 | two overlapping valid targets report each other, first then second |
| Promotion.PairOverlaps | pkg/validation/config_test.go:434-445 | of two overlapping targets, each reports the other as its single overlap |
| Promotion.ValidTargetByName | pkg/validation/config_test.go:404-409 | namespace and name pass |
| Promotion.ValidTargetByTag | pkg/validation/config_test.go:410-415 | namespace and tag pass |
| Promotion.EmptyTargetErrors | pkg/validation/config_test.go:416-421 | an empty target reports no namespace, then no name or tag |
| Promotion.BothNameAndTagErrors | pkg/validation/config_test.go:422-427 | name and tag together are refused |
| Promotion.ReservedNamespaceErrors | pkg/validation/config_test.go:428-433 | an `openshift-` namespace is refused |
| Promotion.OverlapByTagErrors | pkg/validation/config_test.go:434-439 | two targets of the same namespace and tag report each other |
| Promotion.OverlapByNameErrors | pkg/validation/config_test.go:440-445 | two targets of the same namespace and name report each other |
| Promotion.ReleaseGateUnmet | pkg/validation/config_test.go:446-462 | official image promotion without a `latest` release is refused, also when only `initial` exists |
| Promotion.ReleaseGateMet | pkg/validation/config_test.go:463-483 | a `latest` release, a tag_specification, or no image targets satisfy the gate |
| Promotion.TargetsPathRendering | pkg/validation/config_test.go:416-445 | the targets render as `promotion.to` |
| Promotion.TargetPathRendering | pkg/validation/config_test.go:416-445 | target i renders as `promotion.to[i]` |
| Images.InputErrors | pkg/validation/config_test.go:538-573 | an image's inputs pass exactly when a Dockerfile literal comes without context dir or Dockerfile path and every extra architecture is known; errors sit at the image |
| Images.ArchitectureErrorsShape | pkg/validation/config_test.go:564-573 | architecture errors sit at the image and are all invalid-architecture errors |
| Images.ImageClaims | pkg/validation/config_test.go:528-537 | the images list claims only produced names |
| Images.ValidateImages | pkg/validation/config_test.go:516-586 | the loop over the images, claiming names in the shared registry, leaves the registry and the errors that `ImagesWalk` computes |
| Images.DuplicatesOfStep | pkg/validation/config_test.go:528-537 | a single claim's errors are all duplicate-name errors |
| Images.DuplicatesOfInputs | pkg/validation/config_test.go:538-573 | input errors are never duplicate-name errors |
| Images.ImagesWalkClaims | pkg/validation/config_test.go:1283-1289 | the images walk registers what the claims of its entries register, and its duplicate-name errors are the claims' errors |
| Images.ImageClaimsAllNamed | pkg/validation/config_test.go:1283-1289 | with every `to` set, image i claims its name at `images[i]` |
| Images.BadFieldsReported | pkg/validation/config_test.go:521-573 | an entry without `to` or with invalid inputs makes the walk report something |
| Images.ImagesErrorsIff | pkg/validation/config_test.go:516-586 | the images list alone passes exactly when every `to` is set, names are distinct and inputs are valid |
| Images.ImagesErrorsFromDuplicates | pkg/validation/config_test.go:528-537 | with every `to` set and valid inputs, the walk reports only duplicate names |
| Images.DuplicateCitesFirstEntry | pkg/validation/config_test.go:528-537 | a name is registered to the first entry that has it |
| Images.ImagePathRendering | pkg/validation/config_test.go:521-573 | entry i renders as `images[i]` |
| Images.MissingToReported | pkg/validation/config_test.go:521-526 | an image without `to` is reported at `images[0]` |
| Images.SameToReportedOnce | pkg/validation/config_test.go:528-537 | the second of two images named alike is reported once, citing `images[0]` |
| Images.LiteralWithContextDirReported | pkg/validation/config_test.go:538-550 | a Dockerfile literal with a context dir is reported |
| Images.LiteralWithDockerfilePathReported | pkg/validation/config_test.go:551-563 | a Dockerfile literal with a Dockerfile path is reported |
| Images.UnknownArchitectureReported | pkg/validation/config_test.go:564-573 | only the unknown architecture `foo` is reported, not `amd64` |
| Operator.BundleErrors | pkg/validation/config_test.go:650-737 | a bundle passes exactly when its update graph is known and needs a base index, a base index or skipping the index needs `as`; at most four errors |
| Operator.SubstitutionErrors | pkg/validation/config_test.go:617-649 | each side of a substitution is reported exactly when empty, and the replacement exactly when it does not resolve |
| Operator.ValidateOperator | pkg/validation/config_test.go:589-750 | the loops over bundles and substitutions return the errors specified |
| Operator.OperatorErrorsIff | pkg/validation/config_test.go:589-750 | the operator section passes exactly when every bundle and every substitution does |
| Operator.AcceptedIndexIsNamed | pkg/validation/config_test.go:672-683 | an accepted bundle with a base index has a name, so its index is not the shared `ci-index` |
| Operator.ResolverAskedOnlyForReplacements | pkg/validation/config_test.go:635-649 | two resolvers that agree on the replacements give the same errors |
| Operator.OneBundle | pkg/validation/config_test.go:650-658 | a section of one bundle reports that bundle's errors |
| Operator.EverythingGood | pkg/validation/config_test.go:598-616 | the complete example passes |
| Operator.MissingSubstitutionSides | pkg/validation/config_test.go:617-634 | missing pull spec and with are both reported |
| Operator.ThreeSubstitutions | pkg/validation/config_test.go:617-634 | a section of three substitutions and no bundle reports the substitutions' errors in their order |
| Operator.UnresolvableReplacement | pkg/validation/config_test.go:635-649 | an unresolvable replacement is reported |
| Operator.NamedBundleAccepted | pkg/validation/config_test.go:650-658 | a named bundle passes |
| Operator.UpdateGraphWithoutBaseIndex | pkg/validation/config_test.go:659-671 | an update graph without a base index is reported |
| Operator.BaseIndexWithoutName | pkg/validation/config_test.go:672-683 | a base index without `as` is reported |
| Operator.UnknownUpdateGraph | pkg/validation/config_test.go:684-697 | an unknown update graph is reported |
| Operator.SkipBuildingIndexOnNamedBundle | pkg/validation/config_test.go:698-717 | a named bundle may skip building its index |
| Operator.SkipBuildingIndexOnUnnamedBundle | pkg/validation/config_test.go:718-737 | an unnamed bundle may not skip building its index |
| Resolver.BareReference | pkg/validation/config_test.go:986-1075 | a bare name is an explicit pipeline reference exactly when the configuration produces it, else an implicit `stable` guess; a claim plays no part |
| Resolver.PrefixedReference | pkg/validation/config_test.go:1076-1100 | `<stream>:<tag>` splits back into its stream and tag, explicitly |
| Resolver.PrefixedClaimedReference | pkg/validation/config_test.go:1084-1127 | with a claim, the split stream and tag pass through the claim's redirection |
| Resolver.FirstColonAt | pkg/validation/config_test.go:1076-1100 | the first colon of `<stream>:<tag>` is right after the stream |
| Resolver.ClaimRedirectsOnlyItsRelease | pkg/validation/config_test.go:1084-1127 | a claim changes only references into the claimed release: `stable`/`stable-<r>` go to the claimed stream, `release:<r>` to the claimed payload |
| Resolver.ShortHandMatchesLongForm | pkg/validation/config_test.go:1058-1067 | the short-hand of a produced name means the same as `pipeline:<name>` |
| Resolver.ImageStreamForExamples | pkg/validation/config_test.go:994-1032 | base and RPM base images, known and built pipeline images resolve to the pipeline; anything else to `stable` implicitly |
| Resolver.ExampleBareProduced | pkg/validation/config_test.go:1058-1066 | the short-hand name of a base image resolves explicitly to `pipeline:thebase` |
| Resolver.ExampleBareUnproduced | pkg/validation/config_test.go:1067-1074 | a bare name nothing produces resolves implicitly to `stable:whatever` |
| Resolver.ExampleStableWithoutClaim | pkg/validation/config_test.go:1076-1083 | `stable:installer` resolves to stable/installer |
| Resolver.ExampleOtherStream | pkg/validation/config_test.go:1093-1100 | `whoa:really` resolves to whoa/really |
| Resolver.ExampleStableClaimed | pkg/validation/config_test.go:1084-1092 | a claim of `latest` redirects `stable` to `stable-latest-e2e` |
| Resolver.ExampleNamedStreamClaimed | pkg/validation/config_test.go:1101-1109 | a claim of `whoa` redirects `stable-whoa` |
| Resolver.ExampleOtherReleaseUnclaimed | pkg/validation/config_test.go:1110-1118 | a claim of another release leaves `stable-whoa` alone |
| Resolver.ExampleReleaseClaimed | pkg/validation/config_test.go:1119-1127 | a claim of `latest` substitutes its payload in `release:latest` |
| Dependencies.StepErrors | pkg/validation/config_test.go:934-972 | a step reports nothing exactly when every dependency it does not override has a producer |
| Dependencies.PhaseErrors | pkg/validation/config_test.go:934-972 | a phase reports nothing exactly when each of its literal steps is satisfied |
| Dependencies.Literals | pkg/validation/config_test.go:934-972 | a templated phase keeps each literal step at its index and skips references |
| Dependencies.AllChecked | pkg/validation/config_test.go:934-972 | a literal phase checks every step at its index |
| Dependencies.PhasesErrors | pkg/validation/config_test.go:934-972 | a test's phases report nothing exactly when pre, test and post are all satisfied |
| Dependencies.TestErrors | pkg/validation/config_test.go:934-972 | a test reports nothing exactly when its templated and literal steps are satisfied |
| Dependencies.DependencyErrors | pkg/validation/config_test.go:864-983 | the dependency check passes exactly when every test is satisfied |
| Dependencies.CheckStep | pkg/validation/config_test.go:934-972 | the loop over a step's dependencies returns the errors specified |
| Dependencies.CheckPhase | pkg/validation/config_test.go:934-972 | the loop over a phase's steps returns the errors specified |
| Dependencies.CheckDependencyAt | pkg/validation/config_test.go:934-972 | the body for dependency k returns that dependency's report when it is checked and unprovided, and nothing otherwise |
| Dependencies.CheckStepAt | pkg/validation/config_test.go:934-972 | the body for a phase entry checks a literal step and skips a reference |
| Dependencies.CheckTest | pkg/validation/config_test.go:934-972 | a test's loops return the errors specified |
| Dependencies.CheckTests | pkg/validation/config_test.go:864-983 | the loop over the tests returns the errors specified |
| Dependencies.ExplicitReference | pkg/validation/config_test.go:934-972 | `<stream>:<tag>` is checked against that stream and tag |
| Dependencies.ImplicitNeverReported | pkg/validation/config_test.go:873-913 | a bare name nothing produces is never reported |
| Dependencies.ShortHandCheckedAsLongForm | pkg/validation/config_test.go:873-913 | a bare name the configuration produces is checked as `pipeline:<name>` |
| Dependencies.ReleaseReferenceIff | pkg/validation/config_test.go:934-972 | a release reference is met exactly when the release is configured, and otherwise needs it |
| Dependencies.UnknownStreamReported | pkg/validation/config_test.go:934-972 | a stream that is neither the pipeline's nor a release's is unknown |
| Dependencies.BuildRootDependencyIff | pkg/validation/config_test.go:934-972 | `pipeline:root` is met exactly when there is a build root |
| Dependencies.BinariesDependencyIff | pkg/validation/config_test.go:934-972 | `pipeline:bin` is met exactly when binaries are built |
| Dependencies.TestBinariesDependencyIff | pkg/validation/config_test.go:934-972 | `pipeline:test-bin` is met exactly when test binaries are built |
| Dependencies.RpmsDependencyIff | pkg/validation/config_test.go:934-972 | `pipeline:rpms` is met exactly when RPMs are built |
| Dependencies.IndexDependencyIff | pkg/validation/config_test.go:934-972 | `pipeline:ci-index` is met exactly when there is an operator section |
| Dependencies.PipelineReference | pkg/validation/config_test.go:934-972 | `pipeline:<tag>` is checked against the pipeline's producers of the tag |
| Dependencies.PipelineImageIff | pkg/validation/config_test.go:934-972 | any other pipeline image is met exactly when a base image, an image build or the operator section provides it |
| Dependencies.StepErrorsExactly | pkg/validation/config_test.go:934-972 | an error is reported for a step exactly when it is the report of one of its dependencies that is checked (not overridden) and provided by nothing: at that dependency's own field, naming it and the reason |
| Dependencies.DependencyCheckReports | pkg/validation/config_test.go:934-972 | dependency k yields an error exactly when it is checked, unprovided, and the error is its report |
| Dependencies.StableInstallerNeedsLatest | pkg/validation/config_test.go:959 | `stable:installer` needs the `latest` release |
| Dependencies.StableGrafanaNeedsLatest | pkg/validation/config_test.go:960 | `stable:grafana` needs the `latest` release |
| Dependencies.StableCustomNeedsCustom | pkg/validation/config_test.go:961 | `stable-custom:cli` needs the `custom` release |
| Dependencies.ReleaseCustomNeedsCustom | pkg/validation/config_test.go:934-972 | `release:custom` needs the `custom` release |
| Dependencies.BinNeedsBinaries | pkg/validation/config_test.go:963 | `pipeline:bin` needs built binaries |
| Dependencies.TestBinNeedsTestBinaries | pkg/validation/config_test.go:964 | `pipeline:test-bin` needs built test binaries |
| Dependencies.RootNeedsBuildRoot | pkg/validation/config_test.go:934-972 | `pipeline:root` needs a build root |
| Dependencies.RpmsNeedRpmBuild | pkg/validation/config_test.go:934-972 | `pipeline:rpms` needs built RPMs |
| Dependencies.ImageNeedsSource | pkg/validation/config_test.go:965 | `pipeline:image` with nothing configured has no source |
| Dependencies.IndexNeedsOperator | pkg/validation/config_test.go:934-972 | `pipeline:ci-index` needs an operator bundle |
| Dependencies.NamedIndexNeedsOperator | pkg/validation/config_test.go:934-972 | `pipeline:ci-index-my-bundle` needs an operator bundle |
| Dependencies.StreamUnknown | pkg/validation/config_test.go:962 | `totally-invalid:cli` names an unknown stream |
| Dependencies.OneUnmet | pkg/validation/config_test.go:934-972 | a step of one unmet dependency reports it at `dependencies[0]` |
| Dependencies.TwoUnmet | pkg/validation/config_test.go:934-972 | a step of two unmet dependencies reports both in order |
| Dependencies.FailingTemplatedPre | pkg/validation/config_test.go:959-962 | the failing example's templated pre phase reports its four dependencies |
| Dependencies.FailingTemplatedTest | pkg/validation/config_test.go:963-964 | the templated test phase reports its two |
| Dependencies.FailingTemplatedPost | pkg/validation/config_test.go:965 | the templated post phase reports `pipeline:image` |
| Dependencies.FailingLiteralPre | pkg/validation/config_test.go:934-972 | the literal pre phase reports its three |
| Dependencies.FailingLiteralTest | pkg/validation/config_test.go:934-972 | the literal test phase reports `pipeline:root` |
| Dependencies.FailingLiteralPost | pkg/validation/config_test.go:934-972 | the literal post phase reports `pipeline:rpms` |
| Dependencies.TemplatedTestOf | pkg/validation/config_test.go:934-972 | a templated test reports its phases under `tests[i].steps` |
| Dependencies.LiteralTestOf | pkg/validation/config_test.go:934-972 | a literal test reports its phases under `tests[i].literal_steps` |
| Dependencies.TwoTests | pkg/validation/config_test.go:934-972 | two tests report in order |
| Dependencies.FailingTemplatedTestReported | pkg/validation/config_test.go:934-972 | the failing templated test reports its seven dependencies in phase order |
| Dependencies.FailingLiteralTestReported | pkg/validation/config_test.go:934-972 | the failing literal test reports its five |
| Dependencies.FailingDependenciesReported | pkg/validation/config_test.go:934-972 | with nothing configured, both tests' explicit dependencies are reported, in test, phase, step and dependency order, each with what it lacks |
| Dependencies.SourceMet | pkg/validation/config_test.go:873-913 | `src` is always met |
| Dependencies.BinMet | pkg/validation/config_test.go:873-913 | with binary build commands, `bin` and `pipeline:bin` are met |
| Dependencies.ImageMet | pkg/validation/config_test.go:873-913 | with the image `image`, `image` and `pipeline:image` are met |
| Dependencies.GuessMet | pkg/validation/config_test.go:873-913 | a bare name nothing produces is met as a guess |
| Dependencies.IndexMet | pkg/validation/config_test.go:873-913 | with an operator section, `pipeline:ci-index` is met |
| Dependencies.BundleMet | pkg/validation/config_test.go:873-913 | a bundle's `as` is a pipeline image |
| Dependencies.StableMet | pkg/validation/config_test.go:873-913 | a tag_specification provides `stable` |
| Dependencies.StableInitialMet | pkg/validation/config_test.go:873-913 | a tag_specification provides `stable-initial` |
| Dependencies.ReleaseInitialMet | pkg/validation/config_test.go:873-913 | a tag_specification provides `release:initial` |
| Dependencies.CustomReleaseMet | pkg/validation/config_test.go:873-913 | the release `custom` provides `stable-custom` and `release:custom` |
| Dependencies.SatisfiedTemplatedTest | pkg/validation/config_test.go:873-913 | the valid example's templated test is satisfied |
| Dependencies.SatisfiedLiteralTest | pkg/validation/config_test.go:873-913 | the valid example's literal test is satisfied |
| Dependencies.ValidDependenciesAccepted | pkg/validation/config_test.go:873-913 | the valid example passes |
| Dependencies.OverriddenStepSatisfied | pkg/validation/config_test.go:914-933 | a step whose every variable is overridden is satisfied |
| Dependencies.OverriddenDependenciesAccepted | pkg/validation/config_test.go:914-933 | the overridden example passes whatever is configured |
| Dependencies.NoTestsAccepted | pkg/validation/config_test.go:870-872 | without tests nothing is reported |
| Validation.BaseImageClaims | pkg/validation/config_test.go:1270-1281 | each base image, in key order, claims its own name at its own key |
| Validation.ValidateNames | pkg/validation/config_test.go:1146-1394 | the pass over the producers with one registry returns the registry's report `NameErrors` |
| Validation.TestNameErrors | pkg/validation/config_test.go:797-812 | no test-name error exactly when no test takes the name of an image entry |
| Validation.CheckTestNames | pkg/validation/config_test.go:797-812 | the loop over the tests returns the test-name errors specified |
| Validation.ImageNamed | pkg/validation/config_test.go:797-812 | the scan over the image entries answers yes exactly when some entry builds the name |
| Validation.Report | pkg/validation/config_test.go:1397-1500 | no message exactly when there is no error; a message starts with `invalid configuration: ` |
| Validation.ValidateTests | pkg/validation/config_test.go:768-983 | the tests' checks return the errors specified |
| Validation.ValidateInputs | pkg/validation/config_test.go:18-205 | the input sections' checks return the errors specified |
| Validation.ValidateSections | pkg/validation/config_test.go:208-750 | the operator, resources and inputs checks return the errors specified |
| Validation.ValidateConfiguration | pkg/validation/config_test.go:1397-1500 | the orchestrator returns `ConfigurationErrors`: every part's errors, all kept |
| Validation.NameErrorsAsOneRun | pkg/validation/config_test.go:1146-1394 | the registry's pass is one run over every claim in precedence order, images list included |
| Validation.NameErrorsDuplicates | pkg/validation/config_test.go:1146-1394 | the duplicate names reported are exactly the reference's expected reports over all claims |
| Validation.NameErrorsIff | pkg/validation/config_test.go:1146-1394 | the name checks report nothing exactly when every image entry is well-formed and no claim takes a name an earlier claim took |
| Validation.InputSectionErrorsIff | pkg/validation/config_test.go:18-205 | the input sections pass exactly when each input rule holds |
| Validation.OperatorSectionErrorsIff | pkg/validation/config_test.go:589-750 | the operator section passes exactly when the operator rule holds |
| Validation.SectionErrorsIff | pkg/validation/config_test.go:208-750 | the sections pass exactly when operator, resources and inputs are valid |
| Validation.TestsErrorsIff | pkg/validation/config_test.go:768-983 | the tests pass exactly when something is built or tested, no test takes an image name and every dependency is met |
| Validation.ConfigurationErrorsParts | pkg/validation/config_test.go:1397-1500 | the report is empty exactly when each part of it is |
| Validation.ConfigurationErrorsIff | pkg/validation/config_test.go:1397-1500 | the validator accepts a configuration exactly when every rule holds |
| Validation.AcceptedIff | pkg/validation/config_test.go:1397-1500 | the returned message is absent exactly when every rule holds |
| Validation.OnlyNamesReported | pkg/validation/config_test.go:1146-1165 | when every other rule holds, the report is exactly the registry's |
| Validation.ImageClashes | pkg/validation/config_test.go:1173-1302 | one image whose name an earlier producer took is the only report, at `images[0]`, citing that producer |
| Validation.RunOfDistinct | pkg/validation/config_test.go:1166-1172 | distinct produced names report nothing and each keeps its own field |
| Validation.QuietReportsNames | pkg/validation/config_test.go:1146-1165 | for a configuration at rest apart from its producers, without tests, only the registry reports |
| Validation.QuietTestsReportNames | pkg/validation/config_test.go:1146-1165 | the same with sound tests |
| Validation.CommandsOnly | pkg/validation/config_test.go:1173-1198 | without base images or operator, the build root and the commands are the only producers |
| Validation.BinaryCommandsNames | pkg/validation/config_test.go:1173-1180 | an image named `bin` is reported, citing `binary_build_commands` |
| Validation.BinaryCommandsClaimFirst | pkg/validation/config_test.go:1173-1181 | that is the whole report |
| Validation.TestBinaryCommandsNames | pkg/validation/config_test.go:1182-1189 | an image named `test-bin` is reported, citing `test_binary_build_commands` |
| Validation.TestBinaryCommandsClaimFirst | pkg/validation/config_test.go:1182-1190 | that is the whole report |
| Validation.RpmCommandsNames | pkg/validation/config_test.go:1191-1198 | an image named `rpms` is reported, citing `rpm_build_commands` |
| Validation.RootThenOne | pkg/validation/config_test.go:1146-1394 | with the build root and one more producer, an image entry taking the second name is the single report, citing the producer |
| Registry.TwoDistinct | pkg/validation/config_test.go:1146-1394 | two different produced names report nothing, and the second keeps its own field |
| Validation.RpmCommandsClaimFirst | pkg/validation/config_test.go:1191-1199 | that is the whole report |
| Validation.ProjectBuildRootNames | pkg/validation/config_test.go:1291-1301 | an image named `root` is reported, citing `build_root` |
| Validation.ProjectBuildRootClaimsFirst | pkg/validation/config_test.go:1291-1302 | that is the whole report |
| Validation.RootOnly | pkg/validation/config_test.go:1283-1289 | with no other producer, the build root alone is registered |
| Validation.TwoImagesWalk | pkg/validation/config_test.go:1283-1289 | of two images, the second is reported exactly when the names agree |
| Validation.NameErrorsWithoutTests | pkg/validation/config_test.go:1146-1302 | without tests, the registry reports the producers' duplicates and then the images list's |
| Validation.DuplicatedImageReported | pkg/validation/config_test.go:1283-1290 | the second image named `duplicated` is the whole report, citing `images[0]` |
| Validation.UniqueImagesAccepted | pkg/validation/config_test.go:1166-1172 | images of distinct names pass |
| Validation.OperatorOnly | pkg/validation/config_test.go:1200-1240 | without base images or build commands, the build root and the operator are the only producers |
| Validation.NamedBundleDistinct | pkg/validation/config_test.go:1200-1231 | the producers of the named-bundle example are distinct and each keeps its field |
| Validation.NamedBundleListClaims | pkg/validation/config_test.go:1200-1231 | a named bundle claims its name and its index at `operator.bundles[0].as`, then the bundle source |
| Validation.BundleNames | pkg/validation/config_test.go:1200-1209 | an image named `bundle` is reported, citing `operator.bundles[0].as` |
| Validation.BundleClaimsFirst | pkg/validation/config_test.go:1200-1210 | that is the whole report |
| Validation.BundleIndexNames | pkg/validation/config_test.go:1222-1231 | an image named `ci-index-bundle` is reported, citing `operator.bundles[0].as` |
| Validation.BundleIndexClaimsFirst | pkg/validation/config_test.go:1222-1232 | that is the whole report |
| Validation.UnnamedBundleListClaims | pkg/validation/config_test.go:1211-1220 | an unnamed bundle claims `ci-bundle0` at `operator.bundles[0]`, then the bundle source |
| Validation.UnnamedBundleDistinct | pkg/validation/config_test.go:1211-1220 | those producers are distinct and `ci-bundle0` keeps its field |
| Validation.UnnamedBundleNames | pkg/validation/config_test.go:1211-1220 | an image named `ci-bundle0` is reported, citing `operator.bundles[0]` |
| Validation.UnnamedBundleClaimsFirst | pkg/validation/config_test.go:1211-1221 | that is the whole report |
| Validation.BundleSourceNames | pkg/validation/config_test.go:1233-1240 | an image named `src-bundle` is reported, citing `operator` |
| Validation.BundleSourceClaimsFirst | pkg/validation/config_test.go:1233-1241 | that is the whole report |
| Validation.BaseImageListClaims | pkg/validation/config_test.go:1270-1281 | a base image is claimed at `base_images[<name>]` after the build root |
| Validation.BaseImageDistinct | pkg/validation/config_test.go:1270-1281 | those producers are distinct |
| Validation.BaseImageNames | pkg/validation/config_test.go:1270-1281 | an image named like a base image is reported, citing `base_images[base-image]` |
| Validation.BaseImageClaimsFirst | pkg/validation/config_test.go:1270-1282 | that is the whole report |
| Validation.BaseRpmDistinct | pkg/validation/config_test.go:1242-1268 | the producers of the base RPM example are distinct and each keeps its field |
| Validation.OneBaseRpmImage | pkg/validation/config_test.go:1242-1268 | a base RPM image claims its name and its name without RPMs, both at its key |
| Validation.BaseRpmParts | pkg/validation/config_test.go:1242-1268 | the base RPM example's producers, part by part |
| Validation.BaseRpmListClaims | pkg/validation/config_test.go:1242-1268 | the base RPM example's producers in order |
| Validation.BaseRpmImageNames | pkg/validation/config_test.go:1242-1254 | an image named like a base RPM image is reported, citing `base_rpm_images[base-rpm-image]` |
| Validation.BaseRpmImageClaimsFirst | pkg/validation/config_test.go:1242-1255 | that is the whole report |
| Validation.WithoutRpmsNames | pkg/validation/config_test.go:1256-1268 | an image named `<base>-without-rpms` is reported, citing the base RPM image |
| Validation.WithoutRpmsClaimsFirst | pkg/validation/config_test.go:1256-1269 | that is the whole report |
| Validation.Imports | pkg/validation/config_test.go:1340-1388 | imports of one reference at the given fields, one per field |
| Validation.ReimportsSilent | pkg/validation/config_test.go:1340-1388 | importing one reference several times can only report the first import |
| Validation.ImportingTestClaims | pkg/validation/config_test.go:1303-1388 | an importing test claims its one import at `tests[i].steps.test[0].from_image` |
| Validation.ImportingTestSatisfied | pkg/validation/config_test.go:1303-1388 | an importing test has no dependency to meet |
| Validation.ImportingTestsValid | pkg/validation/config_test.go:1303-1388 | importing tests under names no image takes are sound |
| Validation.TwoImportingTestsValid | pkg/validation/config_test.go:1303-1338 | the two tests of the from_image example are sound |
| Validation.ThreeImportingTestsValid | pkg/validation/config_test.go:1340-1388 | the three tests of the aliased example are sound |
| Validation.TwoImportingTests | pkg/validation/config_test.go:1303-1338 | two importing tests claim two imports, in order |
| Validation.ThreeImportingTests | pkg/validation/config_test.go:1340-1388 | three importing tests claim three imports, in order |
| Validation.FromImageAfterImageNames | pkg/validation/config_test.go:1303-1338 | the first import of a name an image took is reported, citing the image; the second is not |
| Validation.FromImageAfterImageClaimFirst | pkg/validation/config_test.go:1303-1338 | that is the whole report |
| Validation.AliasedFromImageNames | pkg/validation/config_test.go:1340-1388 | three tests importing one reference report no name |
| Validation.AliasedFromImageAccepted | pkg/validation/config_test.go:1340-1388 | and the configuration passes |
| Validation.BareNames | pkg/validation/config_test.go:1404-1492 | a configuration that builds nothing has no name to report |
| Validation.BareReleaseBuild | pkg/validation/config_test.go:1404-1492 | of such a configuration, only the global policies report |
| Validation.EmptyRefused | pkg/validation/config_test.go:1404-1408 | no images, tests or promotion: "no tests or images" is the whole report |
| Validation.PromotedAdditionalImagesSuffice | pkg/validation/config_test.go:1409-1414 | promoting additional images is enough |
| Validation.MergedAllowsLists | pkg/validation/config_test.go:1415-1453 | a merged configuration may set the plural command lists |
| Validation.UnmergedRefusesLists | pkg/validation/config_test.go:1454-1492 | a configuration that is not merged may not, and that is the whole report |
| Validation.OneImageOneTestClaims | pkg/validation/config_test.go:781-855 | one image and one container test: the root is the only producer and nothing is imported |
| Validation.OneImageOneTestNames | pkg/validation/config_test.go:781-855 | such a configuration has no name to report |
| Validation.OneImageOneTestTestNames | pkg/validation/config_test.go:781-855 | its test-name report is the test taking the image's name, if it does |
| Validation.OneImageOneTestErrors | pkg/validation/config_test.go:781-855 | only the build_roots policy and the test names report |
| Validation.ImageAndTestAccepted | pkg/validation/config_test.go:781-796 | an image and a test of different names pass |
| Validation.TestTakesImageName | pkg/validation/config_test.go:797-812 | a test named like an image is the whole report, at `tests[0].as` |
| Validation.MergedBuildRootsAccepted | pkg/validation/config_test.go:813-833 | a merged configuration may use `build_roots` |
| Validation.UnmergedBuildRootsRefused | pkg/validation/config_test.go:834-854 | a configuration that is not merged may not, and that is the whole report |

## Left out

- Message strings. `Errors.Describe` and `Errors.RenderError` give the
  text of each problem. Only the rendering of paths is proved
  (`images[i]`, `promotion.to[i]`). The long literal messages are not.
- The multi-error format. `Validation.Report` brackets several errors
  into one message. The tests pin only single errors of the whole check,
  so the exact aggregate format is not stated.
- Step resources inside multi-stage tests are not checked: only the
  configuration's `resources` map is.
- Cluster claims in the dependency check. `Dependencies.Unsatisfied`
  resolves every dependency without a claim. The claim redirection
  itself is modelled in `Resolver.DependencyParts`.
- The resolution of registry step references and chains. A templated
  phase checks its literal steps only.
- The registry of other repositories, the resolving of pull specs against
  a cluster, and any I/O. They are the `resolves` parameter, or left
  out.
- pkg/steps/artifacts_test.go (artifact collection of test steps) is not
  part of this model.
- Validation.Report: states only the empty/non-empty correspondence and
  the prefix, not the full bracketed text of several errors.
- Resources.QuantityErrors: only quantities of the form
  `[sign]digits[suffix]` are read (`Quantity.Parse`), as exact integers
  of milli-units. Decimal and exponent forms that Kubernetes accepts,
  such as `0.5`, `1.5Gi` or `1e3`, are refused as "not a quantity", so
  a limit like `cpu: 0.5` is reported although the validator accepts
  it. Kubernetes' rounding of very large or very precise quantities is
  not modelled either.
