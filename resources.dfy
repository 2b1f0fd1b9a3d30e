/**
 * The `resources` section: a requirements entry per step, a blanket `*`
 * entry that must exist, resource names from a fixed vocabulary, positive
 * quantities, and a cap on shared memory.
 */
module Resources {
  import opened Wrappers
  import opened Text
  import opened FieldPath
  import opened Errors
  import opened Api
  import Quantity

  const BlanketEntry := "*"
  const CpuResource := "cpu"
  const MemoryResource := "memory"
  const EphemeralStorageResource := "ephemeral-storage"
  const ShmResource := "ci-operator.openshift.io/shm"
  const NvidiaGpuResource := "nvidia.com/gpu"

  /** The largest shared memory a step may ask for: 2G, in thousandths. */
  const ShmCap := 2 * Quantity.Thousand * Quantity.Thousand * Quantity.Thousand * Quantity.Thousand

  const ResourcesPath: Path := AddField(Root, "resources")

  predicate IsResourceName(name: string) {
    name == CpuResource || name == MemoryResource || name == EphemeralStorageResource
    || name == ShmResource || name == NvidiaGpuResource
  }

  /** An acceptable entry of a limits or requests list. */
  predicate ValidQuantity(name: string, value: string) {
    && IsResourceName(name)
    && Quantity.Parse(value).Some?
    && Quantity.Parse(value).value > 0
    && (name == ShmResource ==> Quantity.Parse(value).value <= ShmCap)
  }

  predicate ValidList(list: ResourceList) {
    forall name :: name in list ==> ValidQuantity(name, list[name])
  }

  predicate ValidRequirements(req: ResourceRequirements) {
    && (|req.limits| > 0 || |req.requests| > 0)
    && ValidList(req.limits)
    && ValidList(req.requests)
  }

  /** What the validator accepts: a non-empty map with a blanket entry and only valid entries. */
  predicate ValidResources(resources: ResourceConfiguration) {
    && |resources| > 0
    && BlanketEntry in resources
    && forall step :: step in resources ==> ValidRequirements(resources[step])
  }

  /** At most one error per entry: an unknown name is not parsed further. */
  function QuantityErrors(at: Path, name: string, value: string): (r: seq<ValidationError>)
    ensures |r| <= 1
    ensures r == [] <==> ValidQuantity(name, value)
    ensures forall e :: e in r ==> Render(at) <= Render(e.path)
  {
    if !IsResourceName(name) then [ValidationError(at, InvalidResourceName(name))]
    else
      var here := AddField(at, name);
      RenderExtends(at, [Field(name)]);
      match Quantity.Parse(value)
      case None => [ValidationError(here, InvalidQuantity(value))]
      case Some(q) =>
        if q <= 0 then [ValidationError(here, NotPositive(value))]
        else if name == ShmResource && q > ShmCap then [ValidationError(here, ShmTooLarge(value))]
        else []
  }

  /** The check applied to each entry of a list located at `at`. */
  function ListEntryCheck(at: Path): ((string, string)) -> seq<ValidationError> {
    (e: (string, string)) => QuantityErrors(at, e.0, e.1)
  }

  function ResourceListErrors(at: Path, list: ResourceList): seq<ValidationError> {
    FlatMap(SortedItems(list), ListEntryCheck(at))
  }

  /** The check applied to each step's entry of the section. */
  function StepEntryCheck(): ((string, ResourceRequirements)) -> seq<ValidationError> {
    (e: (string, ResourceRequirements)) => RequirementsErrors(AddField(ResourcesPath, e.0), e.1)
  }

  function RequirementsErrors(at: Path, req: ResourceRequirements): seq<ValidationError> {
    ResourceListErrors(AddField(at, "limits"), req.limits)
    + ResourceListErrors(AddField(at, "requests"), req.requests)
    + (if |req.limits| == 0 && |req.requests| == 0 then [ValidationError(at, NoRequestOrLimit)] else [])
  }

  function ResourcesErrors(resources: ResourceConfiguration): seq<ValidationError> {
    if |resources| == 0 then [ValidationError(ResourcesPath, NoResources)]
    else
      (if BlanketEntry !in resources then [ValidationError(ResourcesPath, NoBlanketResources)] else [])
      + FlatMap(SortedItems(resources), StepEntryCheck())
  }

  lemma ResourceListErrorsIff(at: Path, list: ResourceList)
    ensures ResourceListErrors(at, list) == [] <==> ValidList(list)
  {
    FlatMapItems(list, ListEntryCheck(at));
  }

  lemma RequirementsErrorsIff(at: Path, req: ResourceRequirements)
    ensures RequirementsErrors(at, req) == [] <==> ValidRequirements(req)
  {
    ResourceListErrorsIff(AddField(at, "limits"), req.limits);
    ResourceListErrorsIff(AddField(at, "requests"), req.requests);
  }

  /** The resources validator reports nothing exactly for the configurations it accepts. */
  lemma ResourcesErrorsIff(resources: ResourceConfiguration)
    ensures ResourcesErrors(resources) == [] <==> ValidResources(resources)
  {
    var f := StepEntryCheck();
    FlatMapItems(resources, f);
    forall step | step in resources
      ensures f((step, resources[step])) == [] <==> ValidRequirements(resources[step])
    {
      RequirementsErrorsIff(AddField(ResourcesPath, step), resources[step]);
    }
  }

  /** Checks one limits or requests list, entry by entry in name order. */
  method ValidateResourceList(at: Path, list: ResourceList) returns (errs: seq<ValidationError>)
    ensures errs == ResourceListErrors(at, list)
    ensures errs == [] <==> ValidList(list)
  {
    var items := SortedItems(list);
    var f := ListEntryCheck(at);
    errs := [];
    var i := 0;
    while i < |items|
      invariant 0 <= i <= |items|
      invariant errs == FlatMap(items[..i], f)
    {
      var (name, value) := items[i];
      var entry := QuantityErrors(at, name, value);
      FlatMapStep(items, i, f);
      errs := errs + entry;
      i := i + 1;
    }
    FlatMapAll(items, f);
    ResourceListErrorsIff(at, list);
  }

  method ValidateRequirements(at: Path, req: ResourceRequirements) returns (errs: seq<ValidationError>)
    ensures errs == RequirementsErrors(at, req)
    ensures errs == [] <==> ValidRequirements(req)
  {
    var limitErrs := ValidateResourceList(AddField(at, "limits"), req.limits);
    var requestErrs := ValidateResourceList(AddField(at, "requests"), req.requests);
    errs := limitErrs + requestErrs;
    if |req.limits| == 0 && |req.requests| == 0 {
      errs := errs + [ValidationError(at, NoRequestOrLimit)];
    }
    RequirementsErrorsIff(at, req);
  }

  /** Checks the whole section: presence, the blanket entry, then every step's entry in name order. */
  method ValidateResources(resources: ResourceConfiguration) returns (errs: seq<ValidationError>)
    ensures errs == ResourcesErrors(resources)
    ensures errs == [] <==> ValidResources(resources)
  {
    if |resources| == 0 {
      ResourcesErrorsIff(resources);
      return [ValidationError(ResourcesPath, NoResources)];
    }
    errs := [];
    if BlanketEntry !in resources {
      errs := [ValidationError(ResourcesPath, NoBlanketResources)];
    }
    var items := SortedItems(resources);
    var f := StepEntryCheck();
    var stepErrs := [];
    var i := 0;
    while i < |items|
      invariant 0 <= i <= |items|
      invariant stepErrs == FlatMap(items[..i], f)
    {
      var entry := ValidateRequirements(AddField(ResourcesPath, items[i].0), items[i].1);
      FlatMapStep(items, i, f);
      stepErrs := stepErrs + entry;
      i := i + 1;
    }
    FlatMapAll(items, f);
    errs := errs + stepErrs;
    ResourcesErrorsIff(resources);
  }

  /** The spellings of the numbers the resources tests use. */
  lemma TestNumbersRendered()
    ensures NatToString(60) == "60" && NatToString(100) == "100" && NatToString(110) == "110"
  {
    assert NatToString(6) == "6" && NatToString(10) == "10" && NatToString(11) == "11";
  }

  /** The quantities the resources tests use, read in thousandths. */
  lemma ParseMilli()
    ensures Quantity.Parse("100m") == Some(100)
    ensures Quantity.Parse("0m") == Some(0)
  {
    TestNumbersRendered();
    assert "100m" == NatToString(100) + "m";
    Quantity.ParseRendered(100, "m");
    assert "0m" == NatToString(0) + "m";
    Quantity.ParseRendered(0, "m");
  }

  lemma ParseNegativeMilli()
    ensures Quantity.Parse("-110m") == Some(-110)
  {
    TestNumbersRendered();
    assert "-110m" == "-" + NatToString(110) + "m";
    Quantity.ParseNegative(110, "m");
  }

  lemma ParseShm()
    ensures Quantity.Parse("2G") == Some(ShmCap)
    ensures Quantity.Parse("3G") == Some(3 * ShmCap / 2)
  {
    assert "2G" == NatToString(2) + "G";
    Quantity.ParseRendered(2, "G");
    assert "3G" == NatToString(3) + "G";
    Quantity.ParseRendered(3, "G");
  }

  lemma ParseUnitless()
    ensures Quantity.Parse("1") == Some(1000)
  {
    assert "1" == NatToString(1) + "";
    Quantity.ParseRendered(1, "");
  }

  lemma ParseBinary()
    ensures Quantity.Parse("60Gi") == Some(60 * 1024 * 1024 * 1024 * 1000)
    ensures Quantity.Parse("100Gi") == Some(100 * 1024 * 1024 * 1024 * 1000)
  {
    assert Quantity.SuffixFactor("Gi") == Some(1024 * 1024 * 1024 * 1000);
    assert Quantity.Reads("60Gi", 2, 60 * 1024 * 1024 * 1024 * 1000);
    assert Quantity.Reads("100Gi", 3, 100 * 1024 * 1024 * 1024 * 1000);
  }


  /** Words are not quantities. */
  lemma WordsAreNotQuantities()
    ensures Quantity.Parse("donkeys") == None
    ensures Quantity.Parse("foo") == None
    ensures Quantity.Parse("bar") == None
    ensures Quantity.Parse("value") == None
  {
    assert !IsDigit('d') && !IsDigit('f') && !IsDigit('b') && !IsDigit('v');
  }

  /** The blanket-only configuration with the given limits and requests. */
  function Blanket(limits: ResourceList, requests: ResourceList): ResourceConfiguration {
    map[BlanketEntry := ResourceRequirements(limits, requests)]
  }

  lemma BlanketValidIff(limits: ResourceList, requests: ResourceList)
    ensures ResourcesErrors(Blanket(limits, requests)) == []
        <==> ValidRequirements(ResourceRequirements(limits, requests))
  {
    ResourcesErrorsIff(Blanket(limits, requests));
  }

  /** A blanket entry with one valid limit and one valid request passes. */
  lemma BlanketOfOneEach(limitName: string, limit: string, requestName: string, request: string)
    requires ValidQuantity(limitName, limit) && ValidQuantity(requestName, request)
    ensures ResourcesErrors(Blanket(map[limitName := limit], map[requestName := request])) == []
  {
    var limits := map[limitName := limit];
    var requests := map[requestName := request];
    assert ValidList(limits) && ValidList(requests);
    BlanketValidIff(limits, requests);
  }

  // The table of the resources tests, case by case.

  lemma AcceptsCpu()
    ensures ResourcesErrors(Blanket(map[CpuResource := "100m"], map[CpuResource := "100m"])) == []
  {
    ParseMilli();
    BlanketValidIff(map[CpuResource := "100m"], map[CpuResource := "100m"]);
  }

  lemma AcceptsEphemeralStorageOnly()
    ensures ResourcesErrors(Blanket(map[EphemeralStorageResource := "100Gi"], map[EphemeralStorageResource := "60Gi"])) == []
  {
    ParseBinary();
    BlanketOfOneEach(EphemeralStorageResource, "100Gi", EphemeralStorageResource, "60Gi");
  }

  lemma AcceptsShmAtCap()
    ensures ResourcesErrors(Blanket(map[], map[ShmResource := "2G"])) == []
  {
    ParseShm();
    BlanketValidIff(map[], map[ShmResource := "2G"]);
  }

  lemma AcceptsGpuOnly()
    ensures ResourcesErrors(Blanket(map[NvidiaGpuResource := "1"], map[NvidiaGpuResource := "1"])) == []
  {
    ParseUnitless();
    BlanketValidIff(map[NvidiaGpuResource := "1"], map[NvidiaGpuResource := "1"]);
  }

  lemma RejectsInvalidKey()
    ensures ResourcesErrors(Blanket(map[CpuResource := "100m", "boogie" := "value"], map[CpuResource := "100m"])) != []
  {
    var limits: ResourceList := map[CpuResource := "100m", "boogie" := "value"];
    var requests: ResourceList := map[CpuResource := "100m"];
    ParseMilli();
    assert "boogie" in limits && !ValidQuantity("boogie", limits["boogie"]);
    BlanketValidIff(limits, requests);
  }

  lemma RejectsOnlyInvalidKey()
    ensures ResourcesErrors(Blanket(map["boogie" := "100m"], map[CpuResource := "100m"])) != []
  {
    var limits: ResourceList := map["boogie" := "100m"];
    var requests: ResourceList := map[CpuResource := "100m"];
    assert "boogie" in limits && !ValidQuantity("boogie", limits["boogie"]);
    BlanketValidIff(limits, requests);
  }

  lemma RejectsWord()
    ensures ResourcesErrors(Blanket(map[CpuResource := "donkeys"], map[CpuResource := "100m"])) != []
  {
    var limits: ResourceList := map[CpuResource := "donkeys"];
    var requests: ResourceList := map[CpuResource := "100m"];
    WordsAreNotQuantities();
    assert CpuResource in limits && !ValidQuantity(CpuResource, limits[CpuResource]);
    BlanketValidIff(limits, requests);
  }

  lemma RejectsNegative()
    ensures ResourcesErrors(Blanket(map[CpuResource := "-110m"], map[CpuResource := "100m"])) != []
  {
    var limits: ResourceList := map[CpuResource := "-110m"];
    var requests: ResourceList := map[CpuResource := "100m"];
    ParseNegativeMilli();
    assert CpuResource in limits && !ValidQuantity(CpuResource, limits[CpuResource]);
    BlanketValidIff(limits, requests);
  }

  lemma RejectsZero()
    ensures ResourcesErrors(Blanket(map[CpuResource := "0m"], map[CpuResource := "100m"])) != []
  {
    var limits: ResourceList := map[CpuResource := "0m"];
    var requests: ResourceList := map[CpuResource := "100m"];
    ParseMilli();
    assert CpuResource in limits && !ValidQuantity(CpuResource, limits[CpuResource]);
    BlanketValidIff(limits, requests);
  }

  lemma RejectsShmOverCap()
    ensures ResourcesErrors(Blanket(map[], map[ShmResource := "3G"])) != []
  {
    var limits: ResourceList := map[];
    var requests: ResourceList := map[ShmResource := "3G"];
    ParseShm();
    assert ShmResource in requests && !ValidQuantity(ShmResource, requests[ShmResource]);
    BlanketValidIff(limits, requests);
  }

  lemma RejectsGpuWords()
    ensures ResourcesErrors(Blanket(map[NvidiaGpuResource := "bar"], map[NvidiaGpuResource := "foo"])) != []
  {
    var limits: ResourceList := map[NvidiaGpuResource := "bar"];
    var requests: ResourceList := map[NvidiaGpuResource := "foo"];
    WordsAreNotQuantities();
    assert NvidiaGpuResource in limits && !ValidQuantity(NvidiaGpuResource, limits[NvidiaGpuResource]);
    BlanketValidIff(limits, requests);
  }

  lemma RejectsEmpty()
    ensures ResourcesErrors(map[]) != []
  {
  }

  lemma RejectsMissingBlanket()
    ensures ResourcesErrors(map["something" := ResourceRequirements(map[CpuResource := "100m"], map[CpuResource := "100m"])]) != []
  {
    ResourcesErrorsIff(map["something" := ResourceRequirements(map[CpuResource := "100m"], map[CpuResource := "100m"])]);
  }
}
