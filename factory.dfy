/**
 * The mappers of pkg/controller/factory.go from a Function back to the
 * gateway's deploy request, and how they compose with the apply endpoint's
 * mapping the other way.
 */
module Factory {
  import opened Wrappers
  import opened Meta
  import opened FunctionTypes
  import opened Apply

  function ToRequestResources(r: Option<FunctionResources>): Option<RequestResources>
  {
    if r.None? then None else Some(RequestResources(memory := r.value.memory, cpu := r.value.cpu))
  }

  /** functionToFunctionResources: the limits and the requests, each nil when the spec's is. */
  function FunctionToFunctionResources(f: Function): (lr: (Option<RequestResources>, Option<RequestResources>))
    ensures lr.0.None? <==> f.spec.limits.None?
    ensures lr.1.None? <==> f.spec.requests.None?
    ensures lr.0.Some? ==> lr.0.value.memory == f.spec.limits.value.memory && lr.0.value.cpu == f.spec.limits.value.cpu
    ensures lr.1.Some? ==> lr.1.value.memory == f.spec.requests.value.memory && lr.1.value.cpu == f.spec.requests.value.cpu
  {
    (ToRequestResources(f.spec.limits), ToRequestResources(f.spec.requests))
  }

  /**
   * functionToFunctionRequest: the service is the object's name, the labels
   * are the object's metadata labels, a nil environment becomes empty, and
   * secrets are not carried over.
   */
  function FunctionToFunctionRequest(f: Function): (req: CreateFunctionRequest)
    ensures req.service == f.meta.name
    ensures req.labels == Some(f.meta.labels)
    ensures req.envVars == (if f.spec.environment.Some? then f.spec.environment.value else map[])
    ensures req.secrets == []
    ensures req.image == f.spec.image && req.envProcess == f.spec.handler
    ensures req.constraints == f.spec.constraints && req.annotations == f.spec.annotations
    ensures req.readOnlyRootFilesystem == f.spec.readOnlyRootFilesystem
    ensures (req.limits, req.requests) == FunctionToFunctionResources(f)
  {
    var env := if f.spec.environment.Some? then f.spec.environment.value else map[];
    var (lim, requests) := FunctionToFunctionResources(f);
    CreateFunctionRequest(
      service := f.meta.name,
      image := f.spec.image,
      envProcess := f.spec.handler,
      envVars := env,
      constraints := f.spec.constraints,
      secrets := [],
      labels := Some(f.meta.labels),
      annotations := f.spec.annotations,
      limits := lim,
      requests := requests,
      readOnlyRootFilesystem := f.spec.readOnlyRootFilesystem)
  }

  /** Copying resources out and back in through getResources changes nothing. */
  lemma {:induction false} ResourceRoundTrip(f: Function)
    ensures GetResources(FunctionToFunctionResources(f).0) == f.spec.limits
    ensures GetResources(FunctionToFunctionResources(f).1) == f.spec.requests
  {
  }

  /**
   * A deploy request turned into a Function and back keeps its service,
   * image, process, environment, constraints, annotations, resources and
   * read-only flag; its labels become the Function's (empty) metadata labels
   * and its secrets are dropped.
   */
  lemma {:induction false} RequestRoundTrip(namespace: string, req: CreateFunctionRequest)
    ensures var back := FunctionToFunctionRequest(BuildFunction(namespace, req));
      && back.service == req.service && back.image == req.image
      && back.envProcess == req.envProcess && back.envVars == req.envVars
      && back.constraints == req.constraints && back.annotations == req.annotations
      && back.limits == req.limits && back.requests == req.requests
      && back.readOnlyRootFilesystem == req.readOnlyRootFilesystem
      && back.labels == Some(map[]) && back.secrets == []
  {
    var f := BuildFunction(namespace, req);
    assert ToRequestResources(GetResources(req.limits)) == req.limits;
    assert ToRequestResources(GetResources(req.requests)) == req.requests;
  }

  /** So a request with labels or secrets does not survive the round trip. */
  lemma {:induction false} RequestRoundTripIsPartial(namespace: string, req: CreateFunctionRequest)
    requires (req.labels.Some? && req.labels.value != map[]) || req.secrets != []
    ensures FunctionToFunctionRequest(BuildFunction(namespace, req)) != req
  {
    RequestRoundTrip(namespace, req);
  }

  /**
   * The other direction: a Function turned into a request and applied again
   * keeps its image, handler, annotations, constraints, resources and
   * read-only flag, and its metadata name and namespace; the spec name
   * becomes the metadata name, the environment becomes non-nil and the
   * metadata labels move into the spec.
   */
  lemma {:induction false} FunctionRoundTrip(f: Function)
    ensures var back := BuildFunction(f.meta.namespace, FunctionToFunctionRequest(f));
      && back.meta.name == f.meta.name && back.meta.namespace == f.meta.namespace
      && back.spec.name == f.meta.name
      && back.spec.image == f.spec.image && back.spec.handler == f.spec.handler
      && back.spec.annotations == f.spec.annotations && back.spec.constraints == f.spec.constraints
      && back.spec.limits == f.spec.limits && back.spec.requests == f.spec.requests
      && back.spec.readOnlyRootFilesystem == f.spec.readOnlyRootFilesystem
      && back.spec.environment == Some(if f.spec.environment.Some? then f.spec.environment.value else map[])
      && back.spec.labels == Some(f.meta.labels) && back.spec.secrets == []
  {
    ResourceRoundTrip(f);
  }
}
