/**
 * The OpenFaaS Function resource (openfaas.com/v1alpha2) and the gateway's
 * CreateFunctionRequest, the two records the Function mappers translate
 * between. Pointers are options; nil slices are empty sequences.
 */
module FunctionTypes {
  import opened Wrappers
  import opened Meta

  /** Go's int32. */
  type Int32 = x: int | -0x8000_0000 <= x < 0x8000_0000

  const MaxInt32: Int32 := 0x7fff_ffff

  /** CPU and memory limits or requests of a Function. */
  datatype FunctionResources = FunctionResources(memory: string, cpu: string)

  datatype FunctionSpec = FunctionSpec(
    name: string,
    image: string,
    replicas: Option<Int32>,
    handler: string,
    annotations: Option<map<string, string>>,
    labels: Option<map<string, string>>,
    environment: Option<map<string, string>>,
    constraints: seq<string>,
    secrets: seq<string>,
    limits: Option<FunctionResources>,
    requests: Option<FunctionResources>,
    readOnlyRootFilesystem: bool)

  /** A Function object; its status is not read by the mappers. */
  datatype Function = Function(meta: ObjectMeta, spec: FunctionSpec)

  /** The gateway's resource record (requests.FunctionResources). */
  datatype RequestResources = RequestResources(memory: string, cpu: string)

  /** The fields of the gateway's deploy request that the mappers read or write. */
  datatype CreateFunctionRequest = CreateFunctionRequest(
    service: string,
    image: string,
    envProcess: string,
    envVars: map<string, string>,
    constraints: seq<string>,
    secrets: seq<string>,
    labels: Option<map<string, string>>,
    annotations: Option<map<string, string>>,
    limits: Option<RequestResources>,
    requests: Option<RequestResources>,
    readOnlyRootFilesystem: bool)
}
