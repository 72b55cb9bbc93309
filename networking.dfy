/**
 * The derived Ingress object, in the shape shared by the three networking
 * API versions the controllers write (extensions/v1beta1,
 * networking.k8s.io/v1beta1 and networking.k8s.io/v1).
 */
module Networking {
  import opened Wrappers
  import opened Meta

  /** Only networking.k8s.io/v1 carries a path type; the v1beta1 shapes leave it unset. */
  datatype PathType = ImplementationSpecific

  /** The service and numbered port a path routes to. */
  datatype IngressBackend = IngressBackend(serviceName: string, servicePort: int)

  datatype HTTPIngressPath = HTTPIngressPath(path: string, pathType: Option<PathType>, backend: IngressBackend)

  datatype IngressRule = IngressRule(host: string, paths: seq<HTTPIngressPath>)

  /** A TLS entry: the secret holding the certificate and the hosts it covers. */
  datatype IngressTLS = IngressTLS(secretName: string, hosts: seq<string>)

  datatype IngressSpec = IngressSpec(rules: seq<IngressRule>, tls: seq<IngressTLS>)

  datatype Ingress = Ingress(meta: ObjectMeta, spec: IngressSpec)
}
