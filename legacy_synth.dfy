/**
 * Desired-state synthesis of the older controller (pkg/controller/controller.go):
 * ingress class, rules, TLS block, annotations and owner reference of the
 * Ingress derived from a FunctionIngress. The newer controllers reuse this
 * module's class, annotation, owner-reference and update-test helpers and its
 * workload port.
 */
module LegacySynth {
  import opened Wrappers
  import opened Meta
  import opened IngressTypes
  import opened Networking
  import opened Snapshot

  const FaasIngressKind := "FunctionIngress"

  /** The port of the gateway and of function workloads. */
  const OpenfaasWorkloadPort := 8080

  const IngressClassKey := "kubernetes.io/ingress.class"
  const SpecKey := "com.openfaas.spec"
  const NginxRewriteKey := "nginx.ingress.kubernetes.io/rewrite-target"
  const SkipperFilterKey := "zalando.org/skipper-filter"
  const TraefikRewriteKey := "traefik.ingress.kubernetes.io/rewrite-target"
  const TraefikRuleTypeKey := "traefik.ingress.kubernetes.io/rule-type"
  const IssuerKey := "certmanager.k8s.io/issuer"
  const ChallengeTypeKey := "certmanager.k8s.io/acme-challenge-type"

  /** The ingress class: an empty type means nginx, any other value is kept. */
  function GetClass(ingressType: string): (cls: string)
    ensures cls != ""
    ensures cls == "nginx" <==> ingressType == "" || ingressType == "nginx"
    ensures ingressType != "" ==> cls == ingressType
  {
    if ingressType == "" || ingressType == "nginx" then "nginx" else ingressType
  }

  /** Choosing the class of a class changes nothing. */
  lemma GetClassIdempotent(ingressType: string)
    ensures GetClass(GetClass(ingressType)) == GetClass(ingressType)
  {
  }

  /**
   * One rule for the domain with one path to the gateway on 8080. Traefik
   * gets a prefix path; every other class gets the regex capture.
   */
  function MakeRules(fni: FunctionIngress): (rules: seq<IngressRule>)
    ensures |rules| == 1 && rules[0].host == fni.spec.domain && |rules[0].paths| == 1
    ensures rules[0].paths[0].backend == IngressBackend("gateway", 8080)
    ensures rules[0].paths[0].pathType.None?
    ensures rules[0].paths[0].path == (if GetClass(fni.spec.ingressType) == "traefik" then "/" else "/(.*)")
  {
    var path := if GetClass(fni.spec.ingressType) == "traefik" then "/" else "/(.*)";
    [IngressRule(fni.spec.domain, [HTTPIngressPath(path, None, IngressBackend("gateway", 8080))])]
  }

  /** The older rules ignore the explicit path and the bypass flag. */
  lemma {:induction false} MakeRulesIgnoresPathAndBypass(a: FunctionIngress, b: FunctionIngress)
    requires a.spec.domain == b.spec.domain && a.spec.ingressType == b.spec.ingressType
    ensures MakeRules(a) == MakeRules(b)
  {
    var ra, rb := MakeRules(a), MakeRules(b);
    assert ra[0] == rb[0];
  }

  /** No TLS entry unless TLS is on; then one entry, the secret named after the object. */
  function MakeTLS(fni: FunctionIngress): (tls: seq<IngressTLS>)
    ensures !UseTLS(fni.spec) <==> tls == []
    ensures UseTLS(fni.spec) ==> tls == [IngressTLS(fni.meta.name + "-cert", [fni.spec.domain])]
  {
    if !UseTLS(fni.spec) then [] else [IngressTLS(fni.meta.name + "-cert", [fni.spec.domain])]
  }

  /** The rewrite annotations of each ingress class, taken together. */
  function RewriteAnnotations(cls: string, functionName: string): map<string, string>
  {
    if cls == "nginx" then map[NginxRewriteKey := "/function/" + functionName + "/$1"]
    else if cls == "skipper" then map[SkipperFilterKey := "setPath(\"/function/" + functionName + "\")"]
    else if cls == "traefik" then
      map[TraefikRewriteKey := "/function/" + functionName + "/$1", TraefikRuleTypeKey := "PathPrefix"]
    else map[]
  }

  /** The cert-manager annotations, present only with TLS on. */
  function TLSAnnotations(spec: FunctionIngressSpec): map<string, string>
  {
    if UseTLS(spec) then map[IssuerKey := spec.tls.value.issuerRef.name, ChallengeTypeKey := "http01"] else map[]
  }

  /** The computed annotations as a union of the class, snapshot, rewrite and TLS parts. */
  function Annotations(codec: Codec, fni: FunctionIngress): map<string, string>
  {
    var cls := GetClass(fni.spec.ingressType);
    map[IngressClassKey := cls, SpecKey := codec.encode(fni)]
      + RewriteAnnotations(cls, fni.spec.functionName)
      + TLSAnnotations(fni.spec)
  }

  /** The annotation keys each class produces. */
  function RewriteKeys(cls: string): set<string>
  {
    if cls == "nginx" then {NginxRewriteKey}
    else if cls == "skipper" then {SkipperFilterKey}
    else if cls == "traefik" then {TraefikRewriteKey, TraefikRuleTypeKey}
    else {}
  }

  /**
   * makeAnnotations: a map filled by successive assignments, first the class
   * and the snapshot, then the class's rewrite keys, then the TLS keys.
   */
  method MakeAnnotations(codec: Codec, fni: FunctionIngress) returns (annotations: map<string, string>)
    ensures annotations == Annotations(codec, fni)
  {
    var cls := GetClass(fni.spec.ingressType);
    var specJSON := codec.encode(fni);
    annotations := map[IngressClassKey := cls, SpecKey := specJSON];
    ghost var base := annotations;

    if cls == "nginx" {
      annotations := annotations[NginxRewriteKey := "/function/" + fni.spec.functionName + "/$1"];
    } else if cls == "skipper" {
      annotations := annotations[SkipperFilterKey := "setPath(\"/function/" + fni.spec.functionName + "\")"];
    } else if cls == "traefik" {
      annotations := annotations[TraefikRewriteKey := "/function/" + fni.spec.functionName + "/$1"];
      annotations := annotations[TraefikRuleTypeKey := "PathPrefix"];
    }
    assert annotations == base + RewriteAnnotations(cls, fni.spec.functionName);
    ghost var classed := annotations;

    if UseTLS(fni.spec) {
      annotations := annotations[IssuerKey := fni.spec.tls.value.issuerRef.name];
      annotations := annotations[ChallengeTypeKey := "http01"];
    }
    assert annotations == classed + TLSAnnotations(fni.spec);
  }

  /**
   * What the computed annotations hold: the class and the snapshot always,
   * the rewrite keys of the class only, and the issuer keys exactly when TLS
   * is on.
   */
  lemma AnnotationsContent(codec: Codec, fni: FunctionIngress)
    ensures var a := Annotations(codec, fni);
      var cls := GetClass(fni.spec.ingressType);
      && a[IngressClassKey] == cls
      && a[SpecKey] == codec.encode(fni)
      && (cls == "nginx" ==> a[NginxRewriteKey] == "/function/" + fni.spec.functionName + "/$1")
      && (cls == "skipper" ==> a[SkipperFilterKey] == "setPath(\"/function/" + fni.spec.functionName + "\")")
      && (cls == "traefik" ==> a[TraefikRewriteKey] == "/function/" + fni.spec.functionName + "/$1"
                                 && a[TraefikRuleTypeKey] == "PathPrefix")
      && (cls !in {"nginx", "skipper", "traefik"} ==>
            NginxRewriteKey !in a && SkipperFilterKey !in a && TraefikRewriteKey !in a && TraefikRuleTypeKey !in a)
      && (IssuerKey in a <==> UseTLS(fni.spec))
      && (ChallengeTypeKey in a <==> UseTLS(fni.spec))
      && (UseTLS(fni.spec) ==> a[IssuerKey] == fni.spec.tls.value.issuerRef.name && a[ChallengeTypeKey] == "http01")
  {
  }

  /** The computed annotations carry no key beyond the class, the snapshot, the class's rewrite keys and the TLS keys. */
  lemma {:induction false} AnnotationKeys(codec: Codec, fni: FunctionIngress)
    ensures Annotations(codec, fni).Keys
         == {IngressClassKey, SpecKey} + RewriteKeys(GetClass(fni.spec.ingressType))
            + (if UseTLS(fni.spec) then {IssuerKey, ChallengeTypeKey} else {})
  {
    var cls := GetClass(fni.spec.ingressType);
    assert RewriteAnnotations(cls, fni.spec.functionName).Keys == RewriteKeys(cls);
    assert TLSAnnotations(fni.spec).Keys == (if UseTLS(fni.spec) then {IssuerKey, ChallengeTypeKey} else {});
  }

  /** A single owner reference, marked as the controller, pointing at the FunctionIngress. */
  function MakeOwnerRef(fni: FunctionIngress): (refs: seq<OwnerReference>)
    ensures |refs| == 1
    ensures GetControllerOf(EmptyMeta.(ownerReferences := refs))
         == Some(OwnerReference(FaasIngressKind, fni.meta.name, fni.meta.uid, true))
  {
    [OwnerReference(FaasIngressKind, fni.meta.name, fni.meta.uid, true)]
  }

  /** An Ingress needs rewriting exactly when the snapshot's spec differs from the current spec. */
  predicate IngressNeedsUpdate(previous: FunctionIngress, fni: FunctionIngress)
    ensures IngressNeedsUpdate(previous, fni) <==> previous.(meta := fni.meta) != fni
  {
    previous.spec != fni.spec
  }
}
