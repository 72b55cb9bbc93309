/**
 * The pure part of the apply endpoint in pkg/server/apply.go: the minimum
 * replica count read from the `com.openfaas.scale.min` label, the resource
 * copy, and the Function built from a deploy request.
 */
module Apply {
  import opened Wrappers
  import opened Meta
  import opened FunctionTypes
  import opened Strconv

  const ScaleMinLabel := "com.openfaas.scale.min"

  const TwoTo32 := 0x1_0000_0000

  /** Go's int32(n) conversion: the int32 congruent to n modulo 2^32. */
  function NarrowInt32(n: int): (r: Int32)
    ensures (r - n) % TwoTo32 == 0
    ensures -0x8000_0000 <= n < 0x8000_0000 ==> r == n
  {
    var m := n % TwoTo32;
    if m < 0x8000_0000 then m else m - TwoTo32
  }

  /** int32p: a pointer to a fresh copy of `i`. */
  function Int32p(i: Int32): (p: Option<Int32>)
    ensures p.Some? && p.value == i
  {
    Some(i)
  }

  /**
   * getMinReplicaCount: the label's value when it reads as a positive int,
   * narrowed to int32; 1 otherwise. The pointer is never nil.
   */
  function GetMinReplicaCount(labels: Option<map<string, string>>): (r: Option<Int32>)
    ensures r.Some?
    ensures labels.None? || ScaleMinLabel !in labels.value ==> r.value == 1
  {
    if labels.Some? && ScaleMinLabel in labels.value then
      var parsed := Atoi(labels.value[ScaleMinLabel]);
      if parsed.Success? && parsed.value > 0 then Int32p(NarrowInt32(parsed.value))
      else Int32p(1)
    else Int32p(1)
  }

  /** A label that is not a positive decimal int gives the default of 1. */
  lemma {:induction false} MinReplicaInvalid(labels: map<string, string>)
    requires ScaleMinLabel in labels
    requires Atoi(labels[ScaleMinLabel]).Failure? || Atoi(labels[ScaleMinLabel]).value <= 0
    ensures GetMinReplicaCount(Some(labels)) == Some(1)
  {
  }

  /** A label "n" with 1 <= n <= MaxInt32 gives exactly n replicas. */
  lemma {:induction false} MinReplicaParsed(labels: map<string, string>, n: nat)
    requires 1 <= n <= MaxInt32
    requires ScaleMinLabel in labels && labels[ScaleMinLabel] == DecimalString(n)
    ensures GetMinReplicaCount(Some(labels)) == Some(n)
  {
    AtoiDecimalString(n);
  }

  /**
   * Any label that Atoi reads as a positive n gives n wrapped into int32,
   * and the count is at least 1 exactly when n mod 2^32 lies in [1, 2^31).
   */
  lemma {:induction false} MinReplicaNarrowing(labels: map<string, string>, n: int)
    requires ScaleMinLabel in labels && Atoi(labels[ScaleMinLabel]) == Success(n) && n > 0
    ensures GetMinReplicaCount(Some(labels)) == Some(NarrowInt32(n))
    ensures GetMinReplicaCount(Some(labels)).value >= 1 <==> 1 <= n % TwoTo32 < 0x8000_0000
  {
  }

  /** Two labels past MaxInt32: 2^31 gives a negative count, 2^32 + 1 gives 1. */
  lemma {:induction false} MinReplicaWraps()
    ensures GetMinReplicaCount(Some(map[ScaleMinLabel := DecimalString(0x8000_0000)])) == Some(-0x8000_0000)
    ensures GetMinReplicaCount(Some(map[ScaleMinLabel := DecimalString(0x1_0000_0001)])) == Some(1)
  {
    AtoiDecimalString(0x8000_0000);
    MinReplicaNarrowing(map[ScaleMinLabel := DecimalString(0x8000_0000)], 0x8000_0000);
    AtoiDecimalString(0x1_0000_0001);
    MinReplicaNarrowing(map[ScaleMinLabel := DecimalString(0x1_0000_0001)], 0x1_0000_0001);
  }

  /** An explicit plus sign and leading zeros are read as Atoi reads them: "+5" and "007". */
  lemma {:induction false} MinReplicaSignAndZeros()
    ensures GetMinReplicaCount(Some(map[ScaleMinLabel := "+5"])) == Some(5)
    ensures GetMinReplicaCount(Some(map[ScaleMinLabel := "007"])) == Some(7)
  {
    AtoiAccepts("5");
    assert "+" + "5" == "+5";
    assert Atoi("+5") == Success(5);
    MinReplicaNarrowing(map[ScaleMinLabel := "+5"], 5);
    AtoiAccepts("7");
    AtoiLeadingZeros("7");
    assert "0" + "7" == "07";
    AtoiLeadingZeros("07");
    assert "0" + "07" == "007";
    assert Atoi("007") == Success(7);
    MinReplicaNarrowing(map[ScaleMinLabel := "007"], 7);
  }

  /** getResources: nil stays nil; otherwise CPU and memory are copied. */
  function GetResources(limits: Option<RequestResources>): (r: Option<FunctionResources>)
    ensures r.None? <==> limits.None?
    ensures r.Some? ==> r.value.cpu == limits.value.cpu && r.value.memory == limits.value.memory
  {
    if limits.None? then None
    else Some(FunctionResources(memory := limits.value.memory, cpu := limits.value.cpu))
  }

  /** The Function the apply handler writes for a deploy request. */
  function BuildFunction(namespace: string, req: CreateFunctionRequest): (f: Function)
    ensures f.meta.name == req.service && f.spec.name == req.service && f.meta.namespace == namespace
    ensures f.spec.replicas == GetMinReplicaCount(req.labels) && f.spec.replicas.Some?
    ensures f.spec.environment == Some(req.envVars)
    ensures f.meta.labels == map[] && f.spec.labels == req.labels
    ensures f.spec.secrets == req.secrets && f.spec.constraints == req.constraints
  {
    Function(
      EmptyMeta.(name := req.service, namespace := namespace),
      FunctionSpec(
        name := req.service,
        image := req.image,
        replicas := GetMinReplicaCount(req.labels),
        handler := req.envProcess,
        annotations := req.annotations,
        labels := req.labels,
        environment := Some(req.envVars),
        constraints := req.constraints,
        secrets := req.secrets,
        limits := GetResources(req.limits),
        requests := GetResources(req.requests),
        readOnlyRootFilesystem := req.readOnlyRootFilesystem))
  }
}
