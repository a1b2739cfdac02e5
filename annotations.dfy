/**
 * The Voyager Ingress resource (voyager.appscode.com/v1beta1) and the typed
 * options its annotations resolve to (apis/voyager/v1beta1/annotations.go).
 *
 * Every accessor reads one annotation through a parser of kutil's `meta`
 * package: an absent key gives the type's zero value and an error, a present
 * key is parsed. How a present value is parsed as a bool, an int or a JSON map
 * is not visible here and is a parameter (`Parsers`); a failed parse also
 * gives the zero value and an error. Strings need no parsing, so GetString is
 * written out.
 */
module VoyagerApi {
  import opened Wrappers
  import Strs
  import Strconv

  const EngressKey := "ingress.appscode.com"
  /** Annotations whose key, trimmed, starts with this prefix belong to Voyager itself. */
  const OwnPrefix := EngressKey + "/"

  /** The API group of Voyager's Ingress (voyager.GroupName). */
  const GroupName := "voyager.appscode.com"
  const APISchemaEngress := GroupName + "/v1beta1"
  const APISchemaIngress := "extension/v1beta1"
  const VoyagerPrefix := "voyager-"

  const APISchemaKey := EngressKey + "/api-schema"
  const StatsOnKey := EngressKey + "/stats"
  const StatsPortKey := EngressKey + "/stats-port"
  const DefaultStatsPort := 56789
  const LBTypeKey := EngressKey + "/type"
  const LBTypeHostPort := "HostPort"
  const LBTypeNodePort := "NodePort"
  const LBTypeLoadBalancer := "LoadBalancer"
  const LBTypeInternal := "Internal"
  const NodeSelectorKey := EngressKey + "/node-selector"
  const DaemonNodeSelectorKey := EngressKey + "/daemon.nodeSelector"
  const ReplicasKey := EngressKey + "/replicas"
  const ServiceAnnotationsKey := EngressKey + "/annotations-service"
  const PodAnnotationsKey := EngressKey + "/annotations-pod"
  const KeepSourceIPKey := EngressKey + "/keep-source-ip"
  const OriginAPISchema := EngressKey + "/origin-api-schema"
  const OriginName := EngressKey + "/origin-name"
  const DefaultsTimeOutKey := EngressKey + "/default-timeout"
  const DefaultsOptionKey := EngressKey + "/default-option"
  const StickySessionKey := EngressKey + "/sticky-session"
  const IngressAffinityKey := EngressKey + "/affinity"
  const SessionCookieNameKey := EngressKey + "/session-cookie-name"
  const AuthTypeKey := EngressKey + "/auth-type"
  const AuthSecretKey := EngressKey + "/auth-secret"
  const AuthTLSVerifyClientKey := EngressKey + "/auth-tls-verify-client"
  const CORSEnabledKey := EngressKey + "/enable-cors"
  const CORSAllowedMethodsKey := EngressKey + "/cors-allow-methods"
  const CORSAllowedHeadersKey := EngressKey + "/cors-allow-headers"
  const CORSAllowedOriginKey := EngressKey + "/cors-allow-origin"
  const CORSAllowCredentialsKey := EngressKey + "/cors-allow-credentials"
  const SSLPassthroughKey := EngressKey + "/ssl-passthrough"
  const EnableHSTSKey := EngressKey + "/hsts"
  const HSTSMaxAgeKey := EngressKey + "/hsts-max-age"
  const HSTSPreloadKey := EngressKey + "/hsts-preload"
  const HSTSIncludeSubDomainsKey := EngressKey + "/hsts-include-subdomains"
  const ForceServicePortKey := EngressKey + "/force-service-port"
  const SSLRedirectKey := EngressKey + "/ssl-redirect"
  const ForceSSLRedirectKey := EngressKey + "/force-ssl-redirect"

  const CORSDefaultAllowedMethods := "GET,PUT,POST,DELETE,PATCH,OPTIONS"
  const CORSDefaultAllowedHeaders := "DNT,X-CustomHeader,Keep-Alive,User-Agent,X-Requested-With,If-Modified-Since,Cache-Control,Content-Type,Authorization"
  const DefaultCookieName := "SERVERID"
  const DefaultHSTSMaxAge := 15768000
  const ServiceBetaPrefix := "service.beta.kubernetes.io/"
  const AWSProxyProtocolKey := ServiceBetaPrefix + "aws-load-balancer-proxy-protocol"

  /** The defaults section timeouts that are always set. */
  const TimeoutDefaults: map<string, string> :=
    map["connect" := "50s", "client" := "50s", "client-fin" := "50s", "server" := "50s", "tunnel" := "50s"]

  type Annotations = map<string, string>

  /** One `spec.tls` entry: the referenced secret's name and kind. */
  datatype TLSRef = TLSRef(secretName: string, kind: string)

  /** A Voyager Ingress, down to the parts the core reads. */
  datatype Ingress = Ingress(
    name: string,
    namespace: string,
    annotations: Annotations,
    tls: seq<TLSRef>,
    deleting: bool)   // DeletionTimestamp != nil

  /** An Ingress of the Kubernetes extensions/v1beta1 API, which Voyager converts into its own. */
  datatype LegacyIngress = LegacyIngress(name: string, namespace: string, annotations: Annotations)

  /** How the kutil parsers read a present value; None is a parse error. */
  datatype Parsers = Parsers(
    parseBool: string -> Option<bool>,
    parseInt: string -> Option<int>,
    parseMap: string -> Option<map<string, string>>,
    durationSeconds: string -> Option<int>)   // time.ParseDuration, then whole seconds

  /**
   * The Ingress methods this model does not see, fixed for one operator:
   * Migrate, ShouldHandleIngress for the operator's ingress class, IsValid for
   * its cloud provider (the error, if any), HasChanged, and
   * NewEngressFromIngress.
   */
  datatype IngressRules = IngressRules(
    migrate: Ingress -> Ingress,
    shouldHandle: Ingress -> bool,
    validate: Ingress -> Option<string>,
    hasChanged: (Ingress, Ingress) -> bool,
    fromIngress: LegacyIngress -> Result<Ingress>)

  /** Go's `m[key]` on a string map: the value, or `""` when the key is absent. */
  function Lookup(m: map<string, string>, key: string): (r: string)
    ensures key in m ==> r == m[key]
    ensures key !in m ==> r == ""
  {
    if key in m then m[key] else ""
  }

  // ----- the kutil parsers -----

  function GetString(a: Annotations, key: string): (r: Option<string>)
    ensures r.Some? <==> key in a
    ensures r.Some? ==> r.value == a[key]
  {
    if key in a then Some(a[key]) else None
  }

  function GetBool(p: Parsers, a: Annotations, key: string): (r: Option<bool>)
    ensures key !in a ==> r.None?
    ensures key in a ==> r == p.parseBool(a[key])
  {
    if key in a then p.parseBool(a[key]) else None
  }

  function GetInt(p: Parsers, a: Annotations, key: string): (r: Option<int>)
    ensures key !in a ==> r.None?
    ensures key in a ==> r == p.parseInt(a[key])
  {
    if key in a then p.parseInt(a[key]) else None
  }

  function GetMap(p: Parsers, a: Annotations, key: string): (r: Option<map<string, string>>)
    ensures key !in a ==> r.None?
    ensures key in a ==> r == p.parseMap(a[key])
  {
    if key in a then p.parseMap(a[key]) else None
  }

  // ----- accessors -----

  predicate IsProxyProtocolVersion(version: string)
  {
    version == "v1" || version == "v2" || version == "v2-ssl" || version == "v2-ssl-cn"
  }

  /** The HAProxy `send-proxy` keyword for a PROXY protocol version. */
  function ProxyProtocolCommand(version: string): (r: string)
    ensures r != "" <==> IsProxyProtocolVersion(version)
    ensures version == "v1" ==> r == "send-proxy"
    ensures IsProxyProtocolVersion(version) && version != "v1" ==> r == "send-proxy-" + version
  {
    if version == "v1" then "send-proxy"
    else if version == "v2" || version == "v2-ssl" || version == "v2-ssl-cn" then "send-proxy-" + version
    else ""
  }

  /** Different versions give different commands: the keyword names its version. */
  lemma ProxyProtocolCommandInjective(v1: string, v2: string)
    requires IsProxyProtocolVersion(v1) && IsProxyProtocolVersion(v2)
    requires ProxyProtocolCommand(v1) == ProxyProtocolCommand(v2)
    ensures v1 == v2
  {
    if v1 != "v1" && v2 != "v1" {
      assert ("send-proxy-" + v1)[11..] == v1;
      assert ("send-proxy-" + v2)[11..] == v2;
    }
  }

  function OffshootName(ing: Ingress): (r: string)
    ensures Strs.HasPrefix(r, VoyagerPrefix) && r[|VoyagerPrefix|..] == ing.name
  {
    VoyagerPrefix + ing.name
  }

  /** Different ingresses get different offshoot names. */
  lemma OffshootNameInjective(a: Ingress, b: Ingress)
    requires OffshootName(a) == OffshootName(b)
    ensures a.name == b.name
  {
  }

  /** The schema the ingress declares, or Voyager's own when it names none. */
  function APISchema(ing: Ingress): (r: string)
    ensures r != ""
    ensures APISchemaKey in ing.annotations && ing.annotations[APISchemaKey] != "" ==> r == ing.annotations[APISchemaKey]
    ensures APISchemaKey !in ing.annotations || ing.annotations[APISchemaKey] == "" ==> r == APISchemaEngress
  {
    var v := Or(GetString(ing.annotations, APISchemaKey), "");
    if v != "" then v else APISchemaEngress
  }

  /** The labels of every offshoot: origin, origin-name, and the schema's API group when it has one. */
  function OffshootLabels(ing: Ingress): (r: map<string, string>)
    ensures "origin" in r && r["origin"] == "voyager"
    ensures "origin-name" in r && r["origin-name"] == ing.name
    ensures "origin-api-group" in r <==> '/' in APISchema(ing)
    ensures "origin-api-group" in r ==>
      '/' !in r["origin-api-group"] && Strs.HasPrefix(APISchema(ing), r["origin-api-group"] + "/")
    ensures r.Keys <= {"origin", "origin-name", "origin-api-group"}
  {
    var lbl := map["origin" := "voyager", "origin-name" := ing.name];
    var gv := Strs.SplitN2(APISchema(ing), '/');
    if |gv| == 2 then lbl["origin-api-group" := gv[0]] else lbl
  }

  /** Sticky sessions: an affinity is named, or the deprecated sticky-session flag is set. */
  function Sticky(p: Parsers, ing: Ingress): (r: bool)
    ensures r <==> Or(GetString(ing.annotations, IngressAffinityKey), "") != "" ||
                   GetBool(p, ing.annotations, StickySessionKey) == Some(true)
  {
    if Or(GetString(ing.annotations, IngressAffinityKey), "") != "" then true
    else Or(GetBool(p, ing.annotations, StickySessionKey), false)
  }

  function StickySessionCookieName(ing: Ingress): (r: string)
    ensures r != ""
    ensures SessionCookieNameKey in ing.annotations && ing.annotations[SessionCookieNameKey] != "" ==> r == ing.annotations[SessionCookieNameKey]
    ensures SessionCookieNameKey !in ing.annotations || ing.annotations[SessionCookieNameKey] == "" ==> r == DefaultCookieName
  {
    var v := Or(GetString(ing.annotations, SessionCookieNameKey), "");
    if v != "" then v else DefaultCookieName
  }

  function EnableCORS(p: Parsers, ing: Ingress): (r: bool)
    ensures r <==> GetBool(p, ing.annotations, CORSEnabledKey) == Some(true)
  {
    Or(GetBool(p, ing.annotations, CORSEnabledKey), false)
  }

  /** A present annotation wins, even when empty; otherwise the default. */
  function StringOr(ing: Ingress, key: string, default: string): (r: string)
    ensures key in ing.annotations ==> r == ing.annotations[key]
    ensures key !in ing.annotations ==> r == default
  {
    match GetString(ing.annotations, key)
    case Some(v) => v
    case None => default
  }

  function AllowedCORSOrigin(ing: Ingress): (r: string)
    ensures CORSAllowedOriginKey in ing.annotations ==> r == ing.annotations[CORSAllowedOriginKey]
    ensures CORSAllowedOriginKey !in ing.annotations ==> r == "*"
  {
    StringOr(ing, CORSAllowedOriginKey, "*")
  }

  function AllowedCORSMethods(ing: Ingress): (r: string)
    ensures CORSAllowedMethodsKey in ing.annotations ==> r == ing.annotations[CORSAllowedMethodsKey]
    ensures CORSAllowedMethodsKey !in ing.annotations ==> r == CORSDefaultAllowedMethods
  {
    StringOr(ing, CORSAllowedMethodsKey, CORSDefaultAllowedMethods)
  }

  function AllowedCORSHeaders(ing: Ingress): (r: string)
    ensures CORSAllowedHeadersKey in ing.annotations ==> r == ing.annotations[CORSAllowedHeadersKey]
    ensures CORSAllowedHeadersKey !in ing.annotations ==> r == CORSDefaultAllowedHeaders
  {
    StringOr(ing, CORSAllowedHeadersKey, CORSDefaultAllowedHeaders)
  }

  /** A flag that is on unless the annotation parses as false. */
  function BoolDefaultTrue(p: Parsers, ing: Ingress, key: string): (r: bool)
    ensures !r <==> GetBool(p, ing.annotations, key) == Some(false)
  {
    Or(GetBool(p, ing.annotations, key), true)
  }

  /** AllowCORSCred as the code reads it: from the enable-cors key. */
  function AllowCORSCredAsWritten(p: Parsers, ing: Ingress): (r: bool)
    ensures !r <==> GetBool(p, ing.annotations, CORSEnabledKey) == Some(false)
  {
    BoolDefaultTrue(p, ing, CORSEnabledKey)
  }

  /** AllowCORSCred read from cors-allow-credentials, the key declared for it; true by default. */
  function AllowCORSCred(p: Parsers, ing: Ingress): (r: bool)
    ensures !r <==> GetBool(p, ing.annotations, CORSAllowCredentialsKey) == Some(false)
  {
    BoolDefaultTrue(p, ing, CORSAllowCredentialsKey)
  }

  /** With CORS on and credentials switched off, the code as written still allows credentials. */
  lemma AllowCORSCredIgnoresItsKey(p: Parsers, ing: Ingress)
    requires p.parseBool("true") == Some(true) && p.parseBool("false") == Some(false)
    requires ing.annotations == map[CORSEnabledKey := "true", CORSAllowCredentialsKey := "false"]
    ensures AllowCORSCredAsWritten(p, ing)
    ensures !AllowCORSCred(p, ing)
  {
  }

  function LBType(ing: Ingress): (r: string)
    ensures r != ""
    ensures LBTypeKey !in ing.annotations || ing.annotations[LBTypeKey] == "" ==> r == LBTypeLoadBalancer
    ensures LBTypeKey in ing.annotations && ing.annotations[LBTypeKey] != "" ==> r == ing.annotations[LBTypeKey]
  {
    var v := Or(GetString(ing.annotations, LBTypeKey), "");
    if v != "" then v else LBTypeLoadBalancer
  }

  /** The service port is forced except on a NodePort ingress, where the annotation decides. */
  function ForceServicePort(p: Parsers, ing: Ingress): (r: bool)
    ensures LBType(ing) != LBTypeNodePort ==> r
    ensures LBType(ing) == LBTypeNodePort ==> (r <==> GetBool(p, ing.annotations, ForceServicePortKey) == Some(true))
  {
    if LBType(ing) == LBTypeNodePort then Or(GetBool(p, ing.annotations, ForceServicePortKey), false) else true
  }

  function EnableHSTS(p: Parsers, ing: Ingress): (r: bool)
    ensures !r <==> GetBool(p, ing.annotations, EnableHSTSKey) == Some(false)
  {
    BoolDefaultTrue(p, ing, EnableHSTSKey)
  }

  /** HSTS max-age in seconds: a decimal number, else a duration, else six months. */
  function HSTSMaxAge(p: Parsers, ing: Ingress): (r: int)
    ensures var v := Or(GetString(ing.annotations, HSTSMaxAgeKey), "");
      (Strconv.Atoi(v).Some? ==> r == Strconv.Atoi(v).value) &&
      (Strconv.Atoi(v).None? && p.durationSeconds(v).Some? ==> r == p.durationSeconds(v).value) &&
      (Strconv.Atoi(v).None? && p.durationSeconds(v).None? ==> r == DefaultHSTSMaxAge)
  {
    var v := Or(GetString(ing.annotations, HSTSMaxAgeKey), "");
    match Strconv.Atoi(v)
    case Some(n) => n
    case None =>
      match p.durationSeconds(v)
      case Some(d) => d
      case None => DefaultHSTSMaxAge
  }

  /** Absent, the max-age is six months (time.ParseDuration rejects the empty string). */
  lemma HSTSMaxAgeDefault(p: Parsers, ing: Ingress)
    requires p.durationSeconds("") == None
    requires HSTSMaxAgeKey !in ing.annotations
    ensures HSTSMaxAge(p, ing) == 15768000
  {
  }

  /** A decimal max-age is taken as it is. */
  lemma HSTSMaxAgeDecimal(p: Parsers, ing: Ingress, n: nat)
    requires n <= Strconv.MaxInt64
    requires HSTSMaxAgeKey in ing.annotations && ing.annotations[HSTSMaxAgeKey] == Strconv.FormatNat(n)
    ensures HSTSMaxAge(p, ing) == n
  {
    Strconv.AtoiFormatNat(n);
  }

  /** A flag that is off unless the annotation parses as true. */
  function BoolDefaultFalse(p: Parsers, ing: Ingress, key: string): (r: bool)
    ensures r <==> GetBool(p, ing.annotations, key) == Some(true)
  {
    Or(GetBool(p, ing.annotations, key), false)
  }

  function HSTSPreload(p: Parsers, ing: Ingress): (r: bool)
    ensures r <==> GetBool(p, ing.annotations, HSTSPreloadKey) == Some(true)
  {
    BoolDefaultFalse(p, ing, HSTSPreloadKey)
  }

  function HSTSIncludeSubDomains(p: Parsers, ing: Ingress): (r: bool)
    ensures r <==> GetBool(p, ing.annotations, HSTSIncludeSubDomainsKey) == Some(true)
  {
    BoolDefaultFalse(p, ing, HSTSIncludeSubDomainsKey)
  }

  function SSLRedirect(p: Parsers, ing: Ingress): (r: bool)
    ensures !r <==> GetBool(p, ing.annotations, SSLRedirectKey) == Some(false)
  {
    BoolDefaultTrue(p, ing, SSLRedirectKey)
  }

  function ForceSSLRedirect(p: Parsers, ing: Ingress): (r: bool)
    ensures r <==> GetBool(p, ing.annotations, ForceSSLRedirectKey) == Some(true)
  {
    BoolDefaultFalse(p, ing, ForceSSLRedirectKey)
  }

  function SSLPassthrough(p: Parsers, ing: Ingress): (r: bool)
    ensures r <==> GetBool(p, ing.annotations, SSLPassthroughKey) == Some(true)
  {
    BoolDefaultFalse(p, ing, SSLPassthroughKey)
  }

  function Stats(p: Parsers, ing: Ingress): (r: bool)
    ensures r <==> GetBool(p, ing.annotations, StatsOnKey) == Some(true)
  {
    BoolDefaultFalse(p, ing, StatsOnKey)
  }

  /** The stats port: a positive annotation, else 56789. */
  function StatsPort(p: Parsers, ing: Ingress): (r: int)
    ensures r > 0
    ensures var v := GetInt(p, ing.annotations, StatsPortKey);
      (v.Some? && v.value > 0 ==> r == v.value) && (v.None? || v.value <= 0 ==> r == DefaultStatsPort)
  {
    var v := Or(GetInt(p, ing.annotations, StatsPortKey), 0);
    if v > 0 then v else DefaultStatsPort
  }

  /** The stats service is always named after the ingress; its annotation is not read. */
  function StatsServiceName(ing: Ingress): (r: string)
    ensures r == OffshootName(ing) + "-stats"
  {
    VoyagerPrefix + ing.name + "-stats"
  }

  /** The stats service name depends on the ingress name only. */
  lemma StatsServiceNameIgnoresAnnotations(a: Ingress, b: Ingress)
    requires a.name == b.name
    ensures StatsServiceName(a) == StatsServiceName(b)
  {
  }

  /** Replicas: a positive annotation cut to int32, else 1. */
  function Replicas(p: Parsers, ing: Ingress): (r: int)
    ensures -0x8000_0000 <= r < 0x8000_0000
    ensures var v := GetInt(p, ing.annotations, ReplicasKey);
      (v.None? || v.value <= 0 ==> r == 1) &&
      (v.Some? && v.value > 0 ==> r == Strconv.Int32(v.value)) &&
      (v.Some? && 0 < v.value < 0x8000_0000 ==> r == v.value) &&
      (v.Some? && 0x8000_0000 <= v.value < 0x1_0000_0000 ==> r == v.value - 0x1_0000_0000 < 0)
  {
    var v := Or(GetInt(p, ing.annotations, ReplicasKey), 0);
    if v > 0 then Strconv.Int32(v) else 1
  }

  /** The int32 conversion keeps only the low 32 bits: 2^32 replicas become 0. */
  lemma ReplicasWraps(p: Parsers, ing: Ingress)
    requires GetInt(p, ing.annotations, ReplicasKey) == Some(0x1_0000_0000)
    ensures Replicas(p, ing) == 0
  {
  }

  /** The node selector: the JSON map when it has entries, else the deprecated `k=v,k=v` form. */
  function NodeSelector(p: Parsers, ing: Ingress): (r: map<string, string>)
    ensures var m := Or(GetMap(p, ing.annotations, NodeSelectorKey), map[]);
      (|m| > 0 ==> r == m) &&
      (|m| == 0 ==> r == SelectorFrom(Strs.Split(Or(GetString(ing.annotations, DaemonNodeSelectorKey), ""), ',')))
  {
    var m := Or(GetMap(p, ing.annotations, NodeSelectorKey), map[]);
    if |m| > 0 then m
    else SelectorFrom(Strs.Split(Or(GetString(ing.annotations, DaemonNodeSelectorKey), ""), ','))
  }

  function KeepSourceIP(p: Parsers, ing: Ingress): (r: bool)
    ensures r <==> GetBool(p, ing.annotations, KeepSourceIPKey) == Some(true)
  {
    BoolDefaultFalse(p, ing, KeepSourceIPKey)
  }

  /** Basic auth is on when the auth type is exactly "basic" and a secret is named. */
  function BasicAuthEnabled(ing: Ingress): (r: bool)
    ensures r <==> AuthTypeKey in ing.annotations && ing.annotations[AuthTypeKey] == "basic" &&
                   AuthSecretKey in ing.annotations && ing.annotations[AuthSecretKey] != ""
  {
    Or(GetString(ing.annotations, AuthTypeKey), "") == "basic" && Or(GetString(ing.annotations, AuthSecretKey), "") != ""
  }

  /** Client certificate verification: "optional" or "required". */
  datatype TLSAuthVerifyOption = VerifyOptional | VerifyRequired

  function AuthTLSVerifyClient(ing: Ingress): (r: TLSAuthVerifyOption)
    ensures r == VerifyOptional <==> AuthTLSVerifyClientKey in ing.annotations && ing.annotations[AuthTLSVerifyClientKey] == "optional"
  {
    if Or(GetString(ing.annotations, AuthTLSVerifyClientKey), "") == "optional" then VerifyOptional else VerifyRequired
  }

  // ----- annotation maps handed on to the offshoots -----

  /** A key Voyager keeps for itself: trimmed, it starts with `ingress.appscode.com/`. */
  predicate IsOwnKey(k: string)
  {
    Strs.HasPrefix(Strs.TrimSpace(k), OwnPrefix)
  }

  /** The entries of `m` under keys that are not Voyager's own. */
  function WithoutOwnKeys(m: map<string, string>): (r: map<string, string>)
    ensures forall k :: k in r <==> k in m && !IsOwnKey(k)
    ensures forall k :: k in r ==> r[k] == m[k]
  {
    map k | k in m && !IsOwnKey(k) :: m[k]
  }

  /** Filtering is idempotent, and a map without Voyager keys passes unchanged. */
  lemma WithoutOwnKeysIdempotent(m: map<string, string>)
    ensures WithoutOwnKeys(WithoutOwnKeys(m)) == WithoutOwnKeys(m)
    ensures (forall k :: k in m ==> !IsOwnKey(k)) ==> WithoutOwnKeys(m) == m
  {
  }

  /** The kept entries among the keys `done`. */
  function KeptAmong(ans: map<string, string>, done: set<string>): map<string, string>
  {
    map k | k in ans.Keys * done && !IsOwnKey(k) :: ans[k]
  }

  lemma KeptAmongStep(ans: map<string, string>, done: set<string>, k: string)
    requires k in ans && k !in done
    ensures KeptAmong(ans, done + {k}) ==
      if IsOwnKey(k) then KeptAmong(ans, done) else KeptAmong(ans, done)[k := ans[k]]
  {
  }

  /** The filtering loop shared by ServiceAnnotations and PodsAnnotations. */
  method FilterOwnKeys(ans: map<string, string>) returns (r: map<string, string>)
    ensures r == WithoutOwnKeys(ans)
  {
    r := map[];
    var todo := ans.Keys;
    while todo != {}
      invariant todo <= ans.Keys
      invariant r == KeptAmong(ans, ans.Keys - todo)
      decreases todo
    {
      var k :| k in todo;
      KeptAmongStep(ans, ans.Keys - todo, k);
      if !Strs.HasPrefix(Strs.TrimSpace(k), OwnPrefix) {
        r := r[k := ans[k]];
      }
      assert ans.Keys - (todo - {k}) == (ans.Keys - todo) + {k};
      todo := todo - {k};
    }
    assert ans.Keys * (ans.Keys - {}) == ans.Keys;
  }

  /** The service annotations ServiceAnnotations promises, with the AWS PROXY marker where it applies. */
  function ServiceAnnotationsOf(p: Parsers, ing: Ingress, provider: string): (r: (map<string, string>, bool))
  {
    match GetMap(p, ing.annotations, ServiceAnnotationsKey)
    case None => (map[], false)
    case Some(ans) =>
      var filtered := WithoutOwnKeys(ans);
      if LBType(ing) == LBTypeLoadBalancer && KeepSourceIP(p, ing) && provider == "aws"
      then (filtered[AWSProxyProtocolKey := "*"], true)
      else (filtered, true)
  }

  /** The annotations for the HAProxy service: the decoded map without Voyager keys, plus the AWS marker. */
  method ServiceAnnotations(p: Parsers, ing: Ingress, provider: string) returns (m: map<string, string>, ok: bool)
    ensures (m, ok) == ServiceAnnotationsOf(p, ing, provider)
  {
    var ans := GetMap(p, ing.annotations, ServiceAnnotationsKey);
    if ans.Some? {
      var filteredMap := FilterOwnKeys(ans.value);
      if LBType(ing) == LBTypeLoadBalancer && KeepSourceIP(p, ing) {
        if provider == "aws" {
          filteredMap := filteredMap[AWSProxyProtocolKey := "*"];
        }
      }
      return filteredMap, true;
    }
    return map[], false;
  }

  /**
   * What ServiceAnnotations promises: a decoded entry is kept exactly when its key is
   * not Voyager's own, and the only key added is the AWS marker, under its three conditions.
   */
  lemma ServiceAnnotationsKeys(p: Parsers, ing: Ingress, provider: string, k: string)
    requires ServiceAnnotationsOf(p, ing, provider).1
    ensures var ans := GetMap(p, ing.annotations, ServiceAnnotationsKey).value;
      var m := ServiceAnnotationsOf(p, ing, provider).0;
      var marked := LBType(ing) == LBTypeLoadBalancer && KeepSourceIP(p, ing) && provider == "aws";
      (k != AWSProxyProtocolKey ==> (k in m <==> k in ans && !IsOwnKey(k))) &&
      (k != AWSProxyProtocolKey && k in m ==> m[k] == ans[k]) &&
      (marked ==> AWSProxyProtocolKey in m && m[AWSProxyProtocolKey] == "*") &&
      (!marked ==> (AWSProxyProtocolKey in m <==> AWSProxyProtocolKey in ans))
  {
    AWSKeyNotOwn();
    var ans := GetMap(p, ing.annotations, ServiceAnnotationsKey).value;
    var filtered := WithoutOwnKeys(ans);
    if LBType(ing) == LBTypeLoadBalancer && KeepSourceIP(p, ing) && provider == "aws" {
      assert ServiceAnnotationsOf(p, ing, provider).0 == filtered[AWSProxyProtocolKey := "*"];
    } else {
      assert ServiceAnnotationsOf(p, ing, provider).0 == filtered;
    }
  }

  /** The AWS marker is not one of Voyager's own keys. */
  lemma AWSKeyNotOwn()
    ensures !IsOwnKey(AWSProxyProtocolKey)
  {
    assert ServiceBetaPrefix[0] == 's';
    NotOwnKey(AWSProxyProtocolKey);
  }

  /** A key that starts with neither white space nor `i` is not Voyager's. */
  lemma NotOwnKey(k: string)
    requires |k| > 0 && !Strs.IsSpace(k[0]) && k[0] != 'i'
    ensures !IsOwnKey(k)
  {
    assert Strs.TrimLeftSpace(k) == k;
    var t := Strs.TrimSpace(k);
    assert k[..|t|] == t;
    assert OwnPrefix[0] == 'i';
    if |OwnPrefix| <= |t| {
      assert t[..|OwnPrefix|][0] == k[0];
    }
  }

  method PodsAnnotations(p: Parsers, ing: Ingress) returns (m: map<string, string>, ok: bool)
    ensures ok <==> GetMap(p, ing.annotations, PodAnnotationsKey).Some?
    ensures ok ==> m == WithoutOwnKeys(GetMap(p, ing.annotations, PodAnnotationsKey).value)
    ensures !ok ==> m == map[]
  {
    var ans := GetMap(p, ing.annotations, PodAnnotationsKey);
    if ans.Some? {
      m := FilterOwnKeys(ans.value);
      return m, true;
    }
    return map[], false;
  }

  // ----- defaults section -----

  /** `ans` with every default it lacks filled in; its own entries are kept. */
  function WithDefaults(ans: map<string, string>, defaults: map<string, string>): (r: map<string, string>)
  {
    map k | k in ans.Keys + defaults.Keys :: if k in ans then ans[k] else defaults[k]
  }

  /** The defaults among the keys `done`. */
  function DefaultsAmong(defaults: map<string, string>, done: set<string>): map<string, string>
  {
    map k | k in defaults.Keys * done :: defaults[k]
  }

  lemma WithDefaultsStep(given: map<string, string>, defaults: map<string, string>, done: set<string>, k: string)
    requires k in defaults && k !in done
    ensures var before := WithDefaults(given, DefaultsAmong(defaults, done));
      WithDefaults(given, DefaultsAmong(defaults, done + {k})) ==
        if k in before then before else before[k := defaults[k]]
  {
  }

  /** Timeouts: the default-timeout map with the five standard timeouts added where missing. */
  method Timeouts(p: Parsers, ing: Ingress) returns (ans: map<string, string>)
    ensures ans == WithDefaults(Or(GetMap(p, ing.annotations, DefaultsTimeOutKey), map[]), TimeoutDefaults)
  {
    var given := Or(GetMap(p, ing.annotations, DefaultsTimeOutKey), map[]);
    ans := given;
    var todo := TimeoutDefaults.Keys;
    while todo != {}
      invariant todo <= TimeoutDefaults.Keys
      invariant ans == WithDefaults(given, DefaultsAmong(TimeoutDefaults, TimeoutDefaults.Keys - todo))
      decreases todo
    {
      var k :| k in todo;
      WithDefaultsStep(given, TimeoutDefaults, TimeoutDefaults.Keys - todo, k);
      if k !in ans {
        ans := ans[k := TimeoutDefaults[k]];
      }
      assert TimeoutDefaults.Keys - (todo - {k}) == (TimeoutDefaults.Keys - todo) + {k};
      todo := todo - {k};
    }
    assert DefaultsAmong(TimeoutDefaults, TimeoutDefaults.Keys - {}) == TimeoutDefaults;
  }

  /** Every standard timeout is set, to "50s" unless given; given entries, extra keys included, are kept. */
  lemma TimeoutsComplete(given: map<string, string>)
    ensures var r := WithDefaults(given, TimeoutDefaults);
      (forall k :: k in TimeoutDefaults ==> k in r) &&
      (forall k :: k in given ==> k in r && r[k] == given[k]) &&
      (forall k :: k in r && k !in given ==> k in TimeoutDefaults && r[k] == "50s") &&
      r.Keys == given.Keys + {"connect", "client", "client-fin", "server", "tunnel"}
  {
    assert TimeoutDefaults.Keys == {"connect", "client", "client-fin", "server", "tunnel"};
  }

  /** The entries of `ans` whose values parse as booleans. */
  function BoolEntries(p: Parsers, ans: map<string, string>): (r: map<string, bool>)
    ensures forall k :: k in r <==> k in ans && p.parseBool(ans[k]).Some?
    ensures forall k :: k in r ==> r[k] == p.parseBool(ans[k]).value
  {
    map k | k in ans && p.parseBool(ans[k]).Some? :: p.parseBool(ans[k]).value
  }

  const DefaultOptions: map<string, bool> := map["http-server-close" := true, "dontlognull" := true]

  /** HAProxyOptions: the options that parse as booleans, or the two standard ones when none does. */
  method HAProxyOptions(p: Parsers, ing: Ingress) returns (ret: map<string, bool>)
    ensures var parsed := BoolEntries(p, Or(GetMap(p, ing.annotations, DefaultsOptionKey), map[]));
      ret == if |parsed| == 0 then DefaultOptions else parsed
  {
    var ans := Or(GetMap(p, ing.annotations, DefaultsOptionKey), map[]);
    ret := map[];
    var todo := ans.Keys;
    while todo != {}
      invariant todo <= ans.Keys
      invariant ret == map k | k in ans.Keys - todo && p.parseBool(ans[k]).Some? :: p.parseBool(ans[k]).value
      decreases todo
    {
      var k :| k in todo;
      var val := p.parseBool(ans[k]);
      if val.Some? {
        ret := ret[k := val.value];
      }
      todo := todo - {k};
    }
    assert ret == BoolEntries(p, ans);
    if |ret| == 0 {
      ret := ret["http-server-close" := true];
      ret := ret["dontlognull" := true];
    }
  }

  /** The options are never empty: given options replace the standard two entirely. */
  lemma HAProxyOptionsNeverEmpty(p: Parsers, ans: map<string, string>)
    ensures var parsed := BoolEntries(p, ans);
      var r := if |parsed| == 0 then DefaultOptions else parsed;
      |r| > 0 && (|parsed| > 0 ==> forall k :: k in r ==> k in ans)
  {
    assert "dontlognull" in DefaultOptions;
  }

  // ----- the deprecated `k1=v1,k2=v2` node selector -----

  /** One comma piece, trimmed: a key and a value when it reads `key=value` with both sides non-empty. */
  function SelectorEntry(piece: string): (r: Option<(string, string)>)
    ensures r.Some? ==> r.value.0 != "" && '=' !in r.value.0 && r.value.1 != ""
  {
    var lbl := Strs.TrimSpace(piece);
    if |lbl| > 0 && '=' in lbl then
      var data := Strs.SplitN2(lbl, '=');
      if |data| >= 2 && |data[0]| > 0 && |data[1]| > 0 then Some((data[0], data[1])) else None
    else None
  }

  /** A piece that reads as a pair is that pair, around its first `=`, once trimmed. */
  lemma SelectorEntryIsPair(piece: string)
    requires SelectorEntry(piece).Some?
    ensures var kv := SelectorEntry(piece).value; Strs.TrimSpace(piece) == kv.0 + "=" + kv.1
  {
    var lbl := Strs.TrimSpace(piece);
    var i := Strs.IndexOf(lbl, '=');
    assert i >= 0;
    assert Strs.SplitN2(lbl, '=') == [lbl[..i], lbl[i + 1..]];
    assert lbl == lbl[..i] + [lbl[i]] + lbl[i + 1..];
  }

  /** A `key=value` piece with no outer white space and no `=` in the key reads back as that pair. */
  lemma SelectorEntryOfPair(k: string, v: string)
    requires k != "" && '=' !in k && v != ""
    requires !Strs.IsSpace(k[0]) && !Strs.IsSpace(v[|v| - 1])
    ensures SelectorEntry(k + "=" + v) == Some((k, v))
  {
    var lbl := k + "=" + v;
    Strs.TrimSpaceUnchanged(lbl);
    assert lbl[..|k|] == k && lbl[|k|] == '=';
    assert lbl[|k| + 1..] == v;
    var i := Strs.IndexOf(lbl, '=');
    assert i == |k| by {
      assert '=' !in lbl[..i];
      assert lbl[..|k|] == k;
    }
  }

  /** One piece's entry put into the map, replacing an earlier value for its key. */
  function SelectorPut(m: map<string, string>, e: Option<(string, string)>): map<string, string>
  {
    if e.Some? then m[e.value.0 := e.value.1] else m
  }

  /** The map the pieces give, taken in order, so that a later duplicate key wins. */
  function SelectorFrom(pieces: seq<string>): (r: map<string, string>)
    ensures forall k :: k in r ==> k != "" && '=' !in k && r[k] != ""
    decreases |pieces|
  {
    if |pieces| == 0 then map[]
    else
      SelectorPut(SelectorFrom(pieces[..|pieces| - 1]), SelectorEntry(pieces[|pieces| - 1]))
  }

  /** A later valid piece overwrites an earlier entry for its key; an invalid piece is dropped. */
  lemma SelectorLaterWins(pieces: seq<string>, piece: string)
    ensures var before := SelectorFrom(pieces);
      var after := SelectorFrom(pieces + [piece]);
      after == SelectorPut(before, SelectorEntry(piece))
  {
    assert (pieces + [piece])[..|pieces|] == pieces;
    assert (pieces + [piece])[|pieces|] == piece;
  }

  /** Every value in the result comes from some piece that reads as that pair. */
  lemma {:induction false} SelectorFromPieces(pieces: seq<string>, k: string)
    requires k in SelectorFrom(pieces)
    ensures exists i :: 0 <= i < |pieces| && SelectorEntry(pieces[i]) == Some((k, SelectorFrom(pieces)[k]))
    decreases |pieces|
  {
    var n := |pieces| - 1;
    var front := pieces[..n];
    var e := SelectorEntry(pieces[n]);
    if e.Some? && e.value.0 == k {
      assert SelectorEntry(pieces[n]) == Some((k, SelectorFrom(pieces)[k]));
    } else {
      SelectorFromPieces(front, k);
      var i :| 0 <= i < |front| && SelectorEntry(front[i]) == Some((k, SelectorFrom(front)[k]));
      assert pieces[i] == front[i];
    }
  }

  /** Taking one more piece, in the form the loop below uses. */
  lemma SelectorStep(pieces: seq<string>, i: int)
    requires 0 <= i < |pieces|
    ensures SelectorFrom(pieces[..i + 1]) == SelectorPut(SelectorFrom(pieces[..i]), SelectorEntry(pieces[i]))
  {
    assert pieces[..i + 1][..i] == pieces[..i];
  }

  /** ParseDaemonNodeSelector: the pairs of the comma-separated pieces, trimmed, later ones winning. */
  method ParseDaemonNodeSelector(labels: string) returns (selectorMap: map<string, string>)
    ensures selectorMap == SelectorFrom(Strs.Split(labels, ','))
  {
    var pieces := Strs.Split(labels, ',');
    selectorMap := map[];
    var i := 0;
    while i < |pieces|
      invariant 0 <= i <= |pieces|
      invariant selectorMap == SelectorFrom(pieces[..i])
    {
      SelectorStep(pieces, i);
      var lbl := Strs.TrimSpace(pieces[i]);
      if |lbl| > 0 && '=' in lbl {
        var data := Strs.SplitN2(lbl, '=');
        if |data| >= 2 {
          if |data[0]| > 0 && |data[1]| > 0 {
            assert SelectorEntry(pieces[i]) == Some((data[0], data[1]));
            selectorMap := selectorMap[data[0] := data[1]];
          } else {
            assert SelectorEntry(pieces[i]).None?;
          }
        }
      } else {
        assert SelectorEntry(pieces[i]).None?;
      }
      i := i + 1;
    }
    assert pieces[..|pieces|] == pieces;
  }
}
