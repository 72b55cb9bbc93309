/**
 * Rule and TLS synthesis of the newer controllers, identical in
 * pkg/controller/v1/controller.go and pkg/controller/v1beta1/controller.go
 * except that networking.k8s.io/v1 also sets a path type: an explicit path,
 * then bypass mode, then the capture default; a prefix-only path for
 * traefik; the function's own service in bypass mode.
 */
module RouteSynth {
  import opened Wrappers
  import opened IngressTypes
  import opened Networking
  import LegacySynth

  /** The cutset handed to strings.TrimRight: a set of characters, not a suffix. */
  const RegexCutset: set<char> := {'/', '(', '.', '*', ')'}

  /**
   * strings.TrimRight: drops the longest trailing run of characters that
   * belong to the cutset.
   */
  function TrimRight(s: string, cutset: set<char>): (r: string)
    ensures |r| <= |s| && r == s[..|r|]
    ensures r == [] || r[|r| - 1] !in cutset
    ensures forall i :: |r| <= i < |s| ==> s[i] in cutset
    decreases |s|
  {
    if |s| > 0 && s[|s| - 1] in cutset then TrimRight(s[..|s| - 1], cutset) else s
  }

  /** The three properties of TrimRight's contract single out its result. */
  lemma {:induction false} TrimRightUnique(s: string, cutset: set<char>, t: string)
    requires |t| <= |s| && t == s[..|t|]
    requires t == [] || t[|t| - 1] !in cutset
    requires forall i :: |t| <= i < |s| ==> s[i] in cutset
    ensures TrimRight(s, cutset) == t
  {
  }

  /** Trimming a trimmed string changes nothing. */
  lemma {:induction false} TrimRightIdempotent(s: string, cutset: set<char>)
    ensures TrimRight(TrimRight(s, cutset), cutset) == TrimRight(s, cutset)
  {
    var r := TrimRight(s, cutset);
    TrimRightUnique(r, cutset, r);
  }

  /** Everything is trimmed away exactly when every character is in the cutset. */
  lemma {:induction false} TrimRightEmptyIff(s: string, cutset: set<char>)
    ensures TrimRight(s, cutset) == [] <==> forall i :: 0 <= i < |s| ==> s[i] in cutset
  {
    if forall i :: 0 <= i < |s| ==> s[i] in cutset {
      TrimRightUnique(s, cutset, []);
    }
  }

  /** The traefik adjustment: trim the regex characters, and use "/" if nothing is left. */
  function TraefikTrim(path: string): (t: string)
    ensures t == "/" || (0 < |t| <= |path| && t == path[..|t|] && t[|t| - 1] !in RegexCutset)
    ensures t != "/" ==> forall i :: |t| <= i < |path| ==> path[i] in RegexCutset
    ensures t == "/" <==> forall i :: 0 <= i < |path| ==> path[i] in RegexCutset
  {
    TrimRightEmptyIff(path, RegexCutset);
    var trimmed := TrimRight(path, RegexCutset);
    if |trimmed| == 0 then "/" else trimmed
  }

  /** The path before any class-specific adjustment: explicit path, else bypass root, else capture. */
  function ChosenPath(spec: FunctionIngressSpec): (p: string)
    ensures |p| > 0
    ensures |spec.path| > 0 ==> p == spec.path
    ensures |spec.path| == 0 && spec.bypassGateway ==> p == "/"
    ensures |spec.path| == 0 && !spec.bypassGateway ==> p == "/(.*)"
  {
    var path := if spec.bypassGateway then "/" else "/(.*)";
    if |spec.path| > 0 then spec.path else path
  }

  /** The path of the single rule. */
  function ResolvePath(spec: FunctionIngressSpec): (p: string)
    ensures |p| > 0
    ensures LegacySynth.GetClass(spec.ingressType) != "traefik" ==> p == ChosenPath(spec)
    ensures LegacySynth.GetClass(spec.ingressType) == "traefik" ==>
      p == "/" || (|p| <= |ChosenPath(spec)| && p == ChosenPath(spec)[..|p|] && p[|p| - 1] !in RegexCutset)
    ensures LegacySynth.GetClass(spec.ingressType) == "traefik" && p != "/" ==>
      forall i :: |p| <= i < |ChosenPath(spec)| ==> ChosenPath(spec)[i] in RegexCutset
  {
    var path := ChosenPath(spec);
    if LegacySynth.GetClass(spec.ingressType) == "traefik" then TraefikTrim(path) else path
  }

  /** The backend service: the gateway, or the function itself in bypass mode. */
  function BackendService(spec: FunctionIngressSpec): string
  {
    var serviceHost := "gateway";
    if spec.bypassGateway then spec.functionName else serviceHost
  }

  /** makeRules of both newer controllers; `pathType` is what the API version sets. */
  function MakeRules(fni: FunctionIngress, pathType: Option<PathType>): (rules: seq<IngressRule>)
    ensures |rules| == 1 && rules[0].host == fni.spec.domain && |rules[0].paths| == 1
    ensures rules[0].paths[0].path == ResolvePath(fni.spec)
    ensures rules[0].paths[0].pathType == pathType
    ensures rules[0].paths[0].backend.serviceName == (if fni.spec.bypassGateway then fni.spec.functionName else "gateway")
    ensures rules[0].paths[0].backend.servicePort == LegacySynth.OpenfaasWorkloadPort
  {
    [IngressRule(fni.spec.domain,
       [HTTPIngressPath(ResolvePath(fni.spec), pathType,
          IngressBackend(BackendService(fni.spec), LegacySynth.OpenfaasWorkloadPort))])]
  }

  /** makeTLS of both newer controllers: the secret is named after the domain. */
  function MakeTLS(fni: FunctionIngress): (tls: seq<IngressTLS>)
    ensures !UseTLS(fni.spec) <==> tls == []
    ensures UseTLS(fni.spec) ==> tls == [IngressTLS(fni.spec.domain + "-cert", [fni.spec.domain])]
  {
    if !UseTLS(fni.spec) then [] else [IngressTLS(fni.spec.domain + "-cert", [fni.spec.domain])]
  }

  /**
   * Path precedence for classes other than traefik: a non-empty explicit
   * path wins, then bypass gives "/", else the capture pattern.
   */
  lemma PathPrecedence(spec: FunctionIngressSpec)
    requires LegacySynth.GetClass(spec.ingressType) != "traefik"
    ensures |spec.path| > 0 ==> ResolvePath(spec) == spec.path
    ensures |spec.path| == 0 && spec.bypassGateway ==> ResolvePath(spec) == "/"
    ensures |spec.path| == 0 && !spec.bypassGateway ==> ResolvePath(spec) == "/(.*)"
  {
  }

  /**
   * Under traefik the path is "/" or a non-empty prefix of the chosen path
   * not ending in a regex character, and it is "/" exactly when the chosen
   * path consists of regex characters only.
   */
  lemma {:induction false} TraefikPath(spec: FunctionIngressSpec)
    requires LegacySynth.GetClass(spec.ingressType) == "traefik"
    ensures var p, chosen := ResolvePath(spec), ChosenPath(spec);
      && (p == "/" || (0 < |p| <= |chosen| && p == chosen[..|p|] && p[|p| - 1] !in RegexCutset))
      && (p == "/" <==> forall i :: 0 <= i < |chosen| ==> chosen[i] in RegexCutset)
      && (p != "/" ==> forall i :: |p| <= i < |chosen| ==> chosen[i] in RegexCutset)
      && (p != "/" ==> p == TrimRight(chosen, RegexCutset))
  {
    var chosen := ChosenPath(spec);
    TrimRightEmptyIff(chosen, RegexCutset);
  }

  /** Applying the traefik trim twice equals applying it once. */
  lemma {:induction false} TraefikTrimIdempotent(path: string)
    ensures TraefikTrim(TraefikTrim(path)) == TraefikTrim(path)
  {
    var trimmed := TrimRight(path, RegexCutset);
    if |trimmed| == 0 {
      assert TrimRight("/", RegexCutset) == TrimRight("", RegexCutset);
    } else {
      TrimRightIdempotent(path, RegexCutset);
    }
  }

  /** Under traefik, a FunctionIngress without an explicit path routes "/", bypass mode or not. */
  lemma DefaultPathUnderTraefik(spec: FunctionIngressSpec)
    requires LegacySynth.GetClass(spec.ingressType) == "traefik" && |spec.path| == 0
    ensures ResolvePath(spec) == "/"
  {
    TraefikPath(spec);
  }

  // The cases of pkg/controller/v1beta1/controller_test.go, stated over the v1beta1 rule shape.

  const NoPath := FunctionIngressSpec("", "", "", "nginx", None, false)

  /** nginx with no path and no bypass: capture pattern, gateway, workload port. */
  lemma NginxRootPathHasRegex(fni: FunctionIngress)
    requires fni.spec == NoPath
    ensures var path := MakeRules(fni, None)[0].paths[0];
      path.path == "/(.*)" && path.backend == IngressBackend("gateway", LegacySynth.OpenfaasWorkloadPort)
  {
  }

  /** Bypass mode for "nodeinfo": root path, the function's own service. */
  lemma NginxBypassIsRoot(fni: FunctionIngress)
    requires fni.spec == NoPath.(bypassGateway := true, functionName := "nodeinfo")
    ensures var path := MakeRules(fni, None)[0].paths[0];
      path.path == "/" && path.backend.serviceName == "nodeinfo"
  {
  }

  /** An explicit path under nginx is emitted verbatim. */
  lemma NginxPathOverride(fni: FunctionIngress)
    requires fni.spec == NoPath.(path := "/v1/profiles/view/(.*)")
    ensures MakeRules(fni, None)[0].paths[0].path == "/v1/profiles/view/(.*)"
  {
  }

  /** traefik without a path gives "/"; with the nested capture path, the bare prefix. */
  lemma {:induction false} TraefikTrimsRegex(fni: FunctionIngress, nested: FunctionIngress)
    requires fni.spec == NoPath.(ingressType := "traefik")
    requires nested.spec == NoPath.(ingressType := "traefik", path := "/v1/profiles/view/(.*)")
    ensures MakeRules(fni, None)[0].paths[0].path == "/"
    ensures MakeRules(nested, None)[0].paths[0].path == "/v1/profiles/view"
  {
    DefaultPathUnderTraefik(fni.spec);
    var s := "/v1/profiles/view/(.*)";
    var t := "/v1/profiles/view";
    assert s[..|t|] == t;
    TrimRightUnique(s, RegexCutset, t);
  }

  /** TLS off gives no entry; on with foo.example.com gives one entry for that host. */
  lemma TLSCases(off: FunctionIngress, on: FunctionIngress)
    requires off.spec == NoPath.(ingressType := "", tls := Some(FunctionIngressTLS(false, ObjectReference("", ""))))
    requires on.spec.domain == "foo.example.com"
    requires on.spec.tls == Some(FunctionIngressTLS(true, ObjectReference("test-issuer", "ClusterIssuer")))
    ensures MakeTLS(off) == []
    ensures MakeTLS(on) == [IngressTLS("foo.example.com-cert", ["foo.example.com"])]
  {
    assert "foo.example.com" + "-cert" == "foo.example.com-cert";
  }
}
