/**
 * The older annotation accessors of the ingress controller
 * (pkg/controller/ingress/types.go). Unlike the Voyager API accessors they
 * read the raw map: flags are "present or not", numbers go through
 * strconv.Atoi, and the service and pod annotation maps are JSON decoded
 * after trimming.
 */
module LegacyAnnotations {
  import opened Wrappers
  import Strs
  import Strconv
  import VoyagerApi

  type Annotation = map<string, string>

  const StickySessionKey := VoyagerApi.EngressKey + "/sticky-session"
  const StatsOnKey := VoyagerApi.EngressKey + "/stats"
  const StatsPortKey := VoyagerApi.EngressKey + "/stats-port"
  const StatsServiceNameKey := VoyagerApi.EngressKey + "/stats-service-name"
  const DefaultStatsPort := 1936
  const LBTypeKey := VoyagerApi.EngressKey + "/type"
  const LBTypeLoadBalancer := "LoadBalancer"
  const NodeSelectorKey := VoyagerApi.EngressKey + "/node-selector"
  const DaemonNodeSelectorKey := VoyagerApi.EngressKey + "/daemon.nodeSelector"
  const ReplicasKey := VoyagerApi.EngressKey + "/replicas"
  const IPKey := VoyagerApi.EngressKey + "/ip"
  const PersistKey := VoyagerApi.EngressKey + "/persist"
  const ServiceAnnotationsKey := VoyagerApi.EngressKey + "/annotations-service"
  const PodAnnotationsKey := VoyagerApi.EngressKey + "/annotations-pod"
  const KeepSourceIPKey := VoyagerApi.EngressKey + "/keep-source-ip"
  const ExternalTrafficKey := VoyagerApi.ServiceBetaPrefix + "external-traffic"

  /** Sticky sessions are on when the key is present, whatever its value. */
  function StickySession(a: Annotation): (r: bool)
    ensures r <==> StickySessionKey in a
  {
    StickySessionKey in a
  }

  /** Stats are on when the key is present, whatever its value. */
  function Stats(a: Annotation): (r: bool)
    ensures r <==> StatsOnKey in a
  {
    StatsOnKey in a
  }

  /** The stats port: the annotation read as an integer, with no range check, else 1936. */
  function StatsPort(a: Annotation): (r: int)
    ensures StatsPortKey !in a ==> r == DefaultStatsPort
    ensures StatsPortKey in a && Strconv.Atoi(a[StatsPortKey]).None? ==> r == DefaultStatsPort
    ensures StatsPortKey in a && Strconv.Atoi(a[StatsPortKey]).Some? ==> r == Strconv.Atoi(a[StatsPortKey]).value
  {
    if StatsPortKey !in a then DefaultStatsPort
    else match Strconv.Atoi(a[StatsPortKey])
      case Some(port) => port
      case None => DefaultStatsPort
  }

  /** A port of 0 is returned as it is: nothing checks that the port is positive. */
  lemma StatsPortZero(a: Annotation)
    requires StatsPortKey in a && a[StatsPortKey] == "0"
    ensures StatsPort(a) == 0
  {
    Strconv.AtoiFormatNat(0);
    assert Strconv.FormatNat(0) == "0";
  }

  /** The stats service: the annotation when present (even empty), else `<ingress>-stats`. */
  function StatsServiceName(a: Annotation, ingName: string): (r: string)
    ensures StatsServiceNameKey in a ==> r == a[StatsServiceNameKey]
    ensures StatsServiceNameKey !in a ==> r == ingName + "-stats"
  {
    if StatsServiceNameKey in a then a[StatsServiceNameKey] else ingName + "-stats"
  }

  /** The LB type: the annotation when present (even empty), else LoadBalancer. */
  function LBType(a: Annotation): (r: string)
    ensures LBTypeKey in a ==> r == a[LBTypeKey]
    ensures LBTypeKey !in a ==> r == LBTypeLoadBalancer
  {
    if LBTypeKey in a then a[LBTypeKey] else LBTypeLoadBalancer
  }

  /** Replicas: the annotation read as an integer and cut to int32, else 1. */
  function Replicas(a: Annotation): (r: int)
    ensures -0x8000_0000 <= r < 0x8000_0000
    ensures ReplicasKey !in a || Strconv.Atoi(a[ReplicasKey]).None? ==> r == 1
    ensures ReplicasKey in a && Strconv.Atoi(a[ReplicasKey]).Some? ==> r == Strconv.Int32(Strconv.Atoi(a[ReplicasKey]).value)
  {
    if ReplicasKey in a then
      match Strconv.Atoi(a[ReplicasKey])
      case Some(n) => Strconv.Int32(n)
      case None => 1
    else 1
  }

  /** A small replica count is taken as written, zero included. */
  lemma ReplicasSmall(a: Annotation, n: nat)
    requires n < 0x8000_0000
    requires ReplicasKey in a && a[ReplicasKey] == Strconv.FormatNat(n)
    ensures Replicas(a) == n
  {
    Strconv.AtoiFormatNat(n);
    Strconv.Int32InRange(n);
  }

  /**
   * The node selector, read by ParseNodeSelector (a parameter): the node-selector
   * key whenever present, even with an empty value, else the daemon key or "".
   */
  function NodeSelector(a: Annotation, parseNodeSelector: string -> map<string, string>): (r: map<string, string>)
    ensures NodeSelectorKey in a ==> r == parseNodeSelector(a[NodeSelectorKey])
    ensures NodeSelectorKey !in a ==> r == parseNodeSelector(VoyagerApi.Lookup(a, DaemonNodeSelectorKey))
  {
    if NodeSelectorKey in a then parseNodeSelector(a[NodeSelectorKey])
    else parseNodeSelector(VoyagerApi.Lookup(a, DaemonNodeSelectorKey))
  }

  /** The persisted address: the `ip` key first, then `persist`, else "". */
  function Persist(a: Annotation): (r: string)
    ensures IPKey in a ==> r == a[IPKey]
    ensures IPKey !in a && PersistKey in a ==> r == a[PersistKey]
    ensures IPKey !in a && PersistKey !in a ==> r == ""
  {
    if IPKey in a then a[IPKey] else VoyagerApi.Lookup(a, PersistKey)
  }

  /** keep-source-ip is compared with "true" without regard to case. */
  function KeepSourceIP(a: Annotation): (r: bool)
    ensures r <==> Strs.ToLower(VoyagerApi.Lookup(a, KeepSourceIPKey)) == "true"
  {
    Strs.ToLower(VoyagerApi.Lookup(a, KeepSourceIPKey)) == "true"
  }

  /** "TRUE" and "True" count as true; an absent key does not. */
  lemma KeepSourceIPIgnoresCase(a: Annotation)
    ensures KeepSourceIPKey in a && a[KeepSourceIPKey] == "TRUE" ==> KeepSourceIP(a)
    ensures KeepSourceIPKey in a && a[KeepSourceIPKey] == "True" ==> KeepSourceIP(a)
    ensures KeepSourceIPKey !in a ==> !KeepSourceIP(a)
  {
    if KeepSourceIPKey in a && a[KeepSourceIPKey] == "TRUE" {
      assert Strs.ToLower("TRUE") == "true";
    }
    if KeepSourceIPKey in a && a[KeepSourceIPKey] == "True" {
      assert Strs.ToLower("True") == "true";
    }
  }

  /** getTargetAnnotations' three outcomes: absent, undecodable, or decoded and filtered. */
  function TargetAnnotationsOf(a: Annotation, key: string, decode: string -> Option<map<string, string>>): (r: (map<string, string>, bool))
  {
    if key !in a then (map[], true)
    else match decode(Strs.TrimSpace(a[key]))
      case None => (map[], false)
      case Some(ans) => (VoyagerApi.WithoutOwnKeys(ans), true)
  }

  /**
   * getTargetAnnotations: the JSON map held by `key` (its value trimmed first),
   * without the keys Voyager keeps; `decode` stands for json.Unmarshal.
   */
  method GetTargetAnnotations(a: Annotation, key: string, decode: string -> Option<map<string, string>>)
    returns (m: map<string, string>, ok: bool)
    ensures (m, ok) == TargetAnnotationsOf(a, key, decode)
  {
    if key in a {
      var v := Strs.TrimSpace(a[key]);
      var ans := decode(v);
      if ans.None? {
        return map[], false;
      }
      m := VoyagerApi.FilterOwnKeys(ans.value);
      return m, true;
    }
    return map[], true;
  }

  /** Only an undecodable value fails; a decoded entry survives iff its key is not Voyager's. */
  lemma TargetAnnotationsOutcomes(a: Annotation, key: string, decode: string -> Option<map<string, string>>, k: string)
    ensures var (m, ok) := TargetAnnotationsOf(a, key, decode);
      (!ok <==> key in a && decode(Strs.TrimSpace(a[key])).None?) &&
      (key !in a || !ok ==> m == map[]) &&
      (key in a && ok ==> var ans := decode(Strs.TrimSpace(a[key])).value;
         (k in m <==> k in ans && !VoyagerApi.IsOwnKey(k)) && (k in m ==> m[k] == ans[k]))
  {
  }

  /** The provider marker ServiceAnnotations adds, if any. */
  function ProviderMarker(provider: string): (r: Option<(string, string)>)
    ensures provider == "aws" ==> r == Some((VoyagerApi.AWSProxyProtocolKey, "*"))
    ensures provider in {"gce", "gke", "azure"} ==> r == Some((ExternalTrafficKey, "OnlyLocal"))
    ensures r.None? <==> provider !in {"aws", "gce", "gke", "azure"}
  {
    if provider == "aws" then Some((VoyagerApi.AWSProxyProtocolKey, "*"))
    else if provider == "gce" || provider == "gke" || provider == "azure" then Some((ExternalTrafficKey, "OnlyLocal"))
    else None
  }

  function ServiceAnnotationsOf(a: Annotation, provider: string, lbType: string, decode: string -> Option<map<string, string>>): (r: (map<string, string>, bool))
  {
    var (m, ok) := TargetAnnotationsOf(a, ServiceAnnotationsKey, decode);
    if ok && lbType == LBTypeLoadBalancer && KeepSourceIP(a) then
      match ProviderMarker(provider)
      case Some(kv) => (m[kv.0 := kv.1], ok)
      case None => (m, ok)
    else (m, ok)
  }

  /** The service annotations, with the provider's source-IP marker for a LoadBalancer that keeps the source IP. */
  method ServiceAnnotations(a: Annotation, provider: string, lbType: string, decode: string -> Option<map<string, string>>)
    returns (m: map<string, string>, ok: bool)
    ensures (m, ok) == ServiceAnnotationsOf(a, provider, lbType, decode)
  {
    m, ok := GetTargetAnnotations(a, ServiceAnnotationsKey, decode);
    if ok && lbType == LBTypeLoadBalancer && KeepSourceIP(a) {
      if provider == "aws" {
        m := m[VoyagerApi.AWSProxyProtocolKey := "*"];
      } else if provider == "gce" || provider == "gke" || provider == "azure" {
        m := m[ExternalTrafficKey := "OnlyLocal"];
      }
    }
  }

  /** The marker comes only with a successful lookup, a LoadBalancer, keep-source-ip and a known provider. */
  lemma ServiceAnnotationsMarker(a: Annotation, provider: string, lbType: string, decode: string -> Option<map<string, string>>)
    ensures var (m, ok) := ServiceAnnotationsOf(a, provider, lbType, decode);
      var base := TargetAnnotationsOf(a, ServiceAnnotationsKey, decode).0;
      var marked := ok && lbType == LBTypeLoadBalancer && KeepSourceIP(a) && ProviderMarker(provider).Some?;
      ok == TargetAnnotationsOf(a, ServiceAnnotationsKey, decode).1 &&
      (!marked ==> m == base) &&
      (marked ==> m == base[ProviderMarker(provider).value.0 := ProviderMarker(provider).value.1])
  {
  }

  /** The lookup succeeds with nothing to decode when the key is absent, so the marker can stand alone. */
  lemma ServiceAnnotationsMarkerOnly(a: Annotation, decode: string -> Option<map<string, string>>)
    requires ServiceAnnotationsKey !in a && KeepSourceIP(a)
    ensures ServiceAnnotationsOf(a, "gke", LBTypeLoadBalancer, decode) == (map[ExternalTrafficKey := "OnlyLocal"], true)
  {
  }

  method PodsAnnotations(a: Annotation, decode: string -> Option<map<string, string>>)
    returns (m: map<string, string>, ok: bool)
    ensures (m, ok) == TargetAnnotationsOf(a, PodAnnotationsKey, decode)
  {
    m, ok := GetTargetAnnotations(a, PodAnnotationsKey, decode);
  }

  /** The providers whose clouds offer LoadBalancer services. */
  function SupportsLoadBalancerType(providerName: string): (r: bool)
    ensures r <==> providerName in {"aws", "gce", "gke", "azure", "minikube"}
  {
    providerName == "aws" || providerName == "gce" || providerName == "gke" ||
    providerName == "azure" || providerName == "minikube"
  }
}
