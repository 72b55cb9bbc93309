/** The FunctionIngress custom resource (API group openfaas.com, version v1). */
module IngressTypes {
  import opened Wrappers
  import opened Meta

  /** A reference to a certificate issuer by name and kind. */
  datatype ObjectReference = ObjectReference(name: string, kind: string)

  /** TLS options: whether cert-manager should issue a certificate, and from which issuer. */
  datatype FunctionIngressTLS = FunctionIngressTLS(enabled: bool, issuerRef: ObjectReference)

  /** The desired route: host, target function, optional path, ingress class, TLS and bypass mode. */
  datatype FunctionIngressSpec = FunctionIngressSpec(
    domain: string,
    functionName: string,
    path: string,
    ingressType: string,
    tls: Option<FunctionIngressTLS>,
    bypassGateway: bool)

  datatype FunctionIngress = FunctionIngress(meta: ObjectMeta, spec: FunctionIngressSpec)

  /** The spec every field of which holds Go's zero value. */
  const ZeroSpec := FunctionIngressSpec("", "", "", "", None, false)

  /** The object `json.Unmarshal` starts from: all fields zero. */
  const ZeroFunctionIngress := FunctionIngress(EmptyMeta, ZeroSpec)

  /** TLS synthesis is switched on only by a present TLS block with `enabled` set. */
  predicate UseTLS(spec: FunctionIngressSpec)
  {
    spec.tls.Some? && spec.tls.value.enabled
  }

  /** The three cases of UseTLS, and that nothing but the TLS block's `enabled` flag matters. */
  lemma UseTLSCases(spec: FunctionIngressSpec, other: FunctionIngressSpec)
    ensures spec.tls.None? ==> !UseTLS(spec)
    ensures spec.tls.Some? && !spec.tls.value.enabled ==> !UseTLS(spec)
    ensures spec.tls.Some? && spec.tls.value.enabled ==> UseTLS(spec)
    ensures (other.tls.Some? <==> spec.tls.Some?)
         && (spec.tls.Some? ==> other.tls.value.enabled == spec.tls.value.enabled)
        ==> UseTLS(other) == UseTLS(spec)
  {
  }
}
