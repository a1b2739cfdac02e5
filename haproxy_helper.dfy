/**
 * The HAProxy template data of the operator and the two things done to it
 * before a configuration is rendered: canonicalisation (a wildcard rewrite,
 * a stable-as-possible ordering of services, hosts and paths, and the
 * promotion of the ACME challenge path to the front of the catch-all host on
 * port 80) and validation (frontend and backend names are unique).
 */
module HAProxyHelper {
  import opened Wrappers
  import opened Seqs
  import Strs
  import opened Sorting

  /** A backend; its fields other than the name are not inspected here. */
  datatype Backend = Backend(name: string, body: seq<string>)

  datatype HTTPPath = HTTPPath(path: string, backend: Option<Backend>)

  datatype HTTPHost = HTTPHost(host: string, paths: seq<HTTPPath>)

  datatype BasicAuth = BasicAuth(realm: string, userLists: seq<string>)

  datatype HTTPService = HTTPService(frontendName: string, port: int, basicAuth: Option<BasicAuth>, hosts: seq<HTTPHost>)

  datatype TCPService = TCPService(frontendName: string, port: string, backend: Option<Backend>)

  datatype DNSResolver = DNSResolver(name: string, nameservers: seq<string>)

  datatype UserList = UserList(name: string, users: seq<string>)

  /** The fields of the template data that canonicalisation and validation touch. */
  datatype Template = Template(
    defaultBackend: Option<Backend>,
    httpServices: seq<HTTPService>,
    tcpServices: seq<TCPService>,
    dnsResolvers: seq<DNSResolver>,
    userLists: seq<UserList>)

  /**
   * The collaborators whose code is not part of this model: the
   * `canonicalize()` methods of backends, basic-auth settings and user lists,
   * the `sortKey()` methods of HTTP and TCP services, and the URL prefix under
   * which the ACME HTTP-01 challenge is served.
   */
  datatype Env = Env(
    canonBackend: Backend -> Backend,
    canonBasicAuth: BasicAuth -> BasicAuth,
    canonUserList: UserList -> UserList,
    httpSortKey: HTTPService -> string,
    tcpSortKey: TCPService -> string,
    acmePrefix: string)

  // ----- wildcard host conversion -----

  /** A host written as `*` becomes the catch-all host `""`; nothing else changes. */
  function ConvertHost(h: HTTPHost): (r: HTTPHost)
    ensures r.paths == h.paths
    ensures r.host != "*"
    ensures r.host == h.host <==> h.host != "*"
    ensures r.host != h.host ==> r.host == ""
  {
    if h.host == "*" then h.(host := "") else h
  }

  function ConvertService(s: HTTPService): (r: HTTPService)
    ensures r.frontendName == s.frontendName && r.port == s.port && r.basicAuth == s.basicAuth
    ensures |r.hosts| == |s.hosts|
    ensures forall j :: 0 <= j < |s.hosts| ==> r.hosts[j] == ConvertHost(s.hosts[j])
  {
    s.(hosts := MapSeq(ConvertHost, s.hosts))
  }

  /** Converting twice is converting once. */
  lemma ConvertServiceIdempotent(s: HTTPService)
    ensures ConvertService(ConvertService(s)) == ConvertService(s)
  {
    assert ConvertService(ConvertService(s)).hosts == ConvertService(s).hosts;
  }

  /** After conversion no host of the service is written `*`. */
  lemma ConvertServiceNoStar(s: HTTPService)
    ensures forall h :: h in ConvertService(s).hosts ==> h.host != "*"
  {
  }

  // ----- host and path order -----

  /** The name a host sorts by: lower-cased, with one leading `*.` removed. */
  function HostName(host: string): string
  {
    if host == "" then "" else Strs.ToLower(Strs.TrimPrefix(host, "*."))
  }

  /** 0 for the catch-all host, 1 for a wildcard host, 2 for an exact host. */
  function HostRank(host: string): (r: int)
    ensures 0 <= r <= 2
  {
    if host == "" then 0 else if Strs.HasPrefix(host, "*") then 1 else 2
  }

  /** The `host == ""` guard of HostName changes nothing. */
  lemma HostNameTotal(host: string)
    ensures HostName(host) == Strs.ToLower(Strs.TrimPrefix(host, "*."))
  {
  }

  /** A wildcard host and the exact host of the same (lower-case, unstarred) domain share a sort name. */
  lemma HostNameWildcard(domain: string)
    requires !Strs.HasPrefix(domain, "*.")
    ensures HostName("*." + domain) == HostName(domain)
    ensures HostRank("*." + domain) == 1
    ensures domain != "" && domain[0] != '*' ==> HostRank(domain) == 2
  {
    assert ("*." + domain)[..2] == "*.";
    assert ("*." + domain)[2..] == domain;
    assert ("*." + domain)[..1] == "*";
  }

  /** A rank is decided by the first character of the host. */
  lemma HostRankCases(host: string)
    ensures HostRank(host) == 0 <==> host == ""
    ensures HostRank(host) == 1 <==> host != "" && host[0] == '*'
    ensures HostRank(host) == 2 <==> host != "" && host[0] != '*'
  {
    if host != "" {
      assert Strs.HasPrefix(host, "*") <==> host[..1] == [host[0]] == "*";
    }
  }

  /** The host comparator of the sort: higher rank first, then the greater name first. */
  predicate HostLess(a: HTTPHost, b: HTTPHost)
  {
    var ra, rb := HostRank(a.host), HostRank(b.host);
    if ra == rb then Strs.StrLess(HostName(b.host), HostName(a.host)) else ra > rb
  }

  function HostKey(h: HTTPHost): Key
  {
    Key(HostRank(h.host), HostName(h.host))
  }

  lemma HostLessByKey()
    ensures ComparesByKey(HostLess, HostKey, KeyGreater)
  {
  }

  /** The lower-cased path with every leading and trailing `/` removed. */
  function PathText(p: HTTPPath): string
  {
    Strs.ToLower(Strs.TrimChar(p.path, '/'))
  }

  /** The number of `/`-separated segments of PathText; `/` and `` have one. */
  function PathDepth(p: HTTPPath): nat
  {
    |Strs.Split(PathText(p), '/')|
  }

  lemma PathDepthCount(p: HTTPPath)
    ensures PathDepth(p) == Strs.Count(PathText(p), '/') + 1
    ensures PathDepth(p) >= 1
  {
    Strs.SplitCount(PathText(p), '/');
  }

  /** The root path `/` has one segment, like the empty path. */
  lemma PathDepthRoot()
    ensures PathDepth(HTTPPath("/", None)) == 1
    ensures PathDepth(HTTPPath("", None)) == 1
  {
    assert Strs.TrimLeftChar("/", '/') == "";
  }

  /** The path comparator of the sort: more segments first, then the greater text first. */
  predicate PathLess(a: HTTPPath, b: HTTPPath)
  {
    var da, db := PathDepth(a), PathDepth(b);
    if da == db then Strs.StrLess(PathText(b), PathText(a)) else da > db
  }

  function PathKey(p: HTTPPath): Key
  {
    Key(PathDepth(p), PathText(p))
  }

  lemma PathLessByKey()
    ensures ComparesByKey(PathLess, PathKey, KeyGreater)
  {
  }

  lemma HostLessWeakOrder()
    ensures StrictWeakOrder(HostLess)
  {
    HostLessByKey();
    KeyGreaterTotalOrder();
    KeyedWeakOrder(HostLess, HostKey, KeyGreater);
  }

  lemma PathLessWeakOrder()
    ensures StrictWeakOrder(PathLess)
  {
    PathLessByKey();
    KeyGreaterTotalOrder();
    KeyedWeakOrder(PathLess, PathKey, KeyGreater);
  }

  /**
   * Hosts in sorted order: exact hosts, then wildcard hosts, then the
   * catch-all host, and within one rank by descending name.
   */
  lemma {:induction false} HostsSortedByRank(hosts: seq<HTTPHost>)
    requires SortedBy(hosts, HostLess)
    ensures forall i, j :: 0 <= i < j < |hosts| ==>
      HostRank(hosts[i].host) >= HostRank(hosts[j].host) &&
      (HostRank(hosts[i].host) == HostRank(hosts[j].host) ==> !Strs.StrLess(HostName(hosts[i].host), HostName(hosts[j].host)))
  {
    forall i, j | 0 <= i < j < |hosts|
      ensures HostRank(hosts[i].host) >= HostRank(hosts[j].host)
      ensures HostRank(hosts[i].host) == HostRank(hosts[j].host) ==> !Strs.StrLess(HostName(hosts[i].host), HostName(hosts[j].host))
    {
      assert !HostLess(hosts[j], hosts[i]);
    }
  }

  /** Paths in sorted order: deeper paths first, and within one depth by descending text. */
  lemma {:induction false} PathsSortedByDepth(paths: seq<HTTPPath>)
    requires SortedBy(paths, PathLess)
    ensures forall i, j :: 0 <= i < j < |paths| ==>
      PathDepth(paths[i]) >= PathDepth(paths[j]) &&
      (PathDepth(paths[i]) == PathDepth(paths[j]) ==> !Strs.StrLess(PathText(paths[i]), PathText(paths[j])))
  {
    forall i, j | 0 <= i < j < |paths|
      ensures PathDepth(paths[i]) >= PathDepth(paths[j])
      ensures PathDepth(paths[i]) == PathDepth(paths[j]) ==> !Strs.StrLess(PathText(paths[i]), PathText(paths[j]))
    {
      assert !PathLess(paths[j], paths[i]);
    }
  }

  /** Comparators of the service, resolver and user-list sorts: ascending by key or name. */
  function HTTPLess(env: Env): (HTTPService, HTTPService) -> bool
  {
    (a: HTTPService, b: HTTPService) => Strs.StrLess(env.httpSortKey(a), env.httpSortKey(b))
  }

  function TCPLess(env: Env): (TCPService, TCPService) -> bool
  {
    (a: TCPService, b: TCPService) => Strs.StrLess(env.tcpSortKey(a), env.tcpSortKey(b))
  }

  predicate DNSLess(a: DNSResolver, b: DNSResolver)
  {
    Strs.StrLess(a.name, b.name)
  }

  predicate UserListLess(a: UserList, b: UserList)
  {
    Strs.StrLess(a.name, b.name)
  }

  function DNSName(d: DNSResolver): string { d.name }

  function UserListName(u: UserList): string { u.name }

  lemma ListOrdersWeak(env: Env)
    ensures StrictWeakOrder(HTTPLess(env)) && StrictWeakOrder(TCPLess(env))
    ensures StrictWeakOrder(DNSLess) && StrictWeakOrder(UserListLess)
  {
    StrLessTotalOrder();
    assert ComparesByKey(HTTPLess(env), env.httpSortKey, Strs.StrLess);
    KeyedWeakOrder(HTTPLess(env), env.httpSortKey, Strs.StrLess);
    assert ComparesByKey(TCPLess(env), env.tcpSortKey, Strs.StrLess);
    KeyedWeakOrder(TCPLess(env), env.tcpSortKey, Strs.StrLess);
    assert ComparesByKey(DNSLess, DNSName, Strs.StrLess);
    KeyedWeakOrder(DNSLess, DNSName, Strs.StrLess);
    assert ComparesByKey(UserListLess, UserListName, Strs.StrLess);
    KeyedWeakOrder(UserListLess, UserListName, Strs.StrLess);
  }

  // ----- what sorting promises -----

  /** A path with its backend canonicalised (the backend is skipped when absent). */
  function CanonPath(env: Env, p: HTTPPath): HTTPPath
  {
    p.(backend := MapOption(env.canonBackend, p.backend))
  }

  function CanonPathWith(env: Env): HTTPPath -> HTTPPath
  {
    (p: HTTPPath) => CanonPath(env, p)
  }

  /** A host up to the order of its paths. */
  datatype HostShape = HostShape(host: string, paths: multiset<HTTPPath>)

  function Shape(h: HTTPHost): HostShape
  {
    HostShape(h.host, multiset(h.paths))
  }

  /** The shape a host has once its path backends are canonicalised. */
  function CanonShapeWith(env: Env): HTTPHost -> HostShape
  {
    (h: HTTPHost) => HostShape(h.host, multiset(MapSeq(CanonPathWith(env), h.paths)))
  }

  /** A service up to the order of its hosts and of their paths. */
  datatype ServiceShape = ServiceShape(frontendName: string, port: int, basicAuth: Option<BasicAuth>, hosts: multiset<HostShape>)

  function SvcShape(s: HTTPService): ServiceShape
  {
    ServiceShape(s.frontendName, s.port, s.basicAuth, multiset(MapSeq(Shape, s.hosts)))
  }

  /** The shape a service has once its basic auth and path backends are canonicalised. */
  function CanonSvcShapeWith(env: Env): HTTPService -> ServiceShape
  {
    (s: HTTPService) => ServiceShape(s.frontendName, s.port, MapOption(env.canonBasicAuth, s.basicAuth),
                                     multiset(MapSeq(CanonShapeWith(env), s.hosts)))
  }

  /** Hosts are in host order and every host's paths in path order. */
  predicate ServiceInOrder(s: HTTPService)
  {
    SortedBy(s.hosts, HostLess) && forall h :: h in s.hosts ==> SortedBy(h.paths, PathLess)
  }

  /**
   * `after` is a possible outcome of sorting `before`: every list holds the
   * (canonicalised) elements it held before, now in the order of its
   * comparator; elements the comparator cannot tell apart may be in any order.
   */
  ghost predicate SortedFrom(before: Template, after: Template, env: Env)
  {
    after.defaultBackend == MapOption(env.canonBackend, before.defaultBackend) &&
    multiset(MapSeq(SvcShape, after.httpServices)) == multiset(MapSeq(CanonSvcShapeWith(env), before.httpServices)) &&
    (forall s :: s in after.httpServices ==> ServiceInOrder(s)) &&
    SortedBy(after.httpServices, HTTPLess(env)) &&
    multiset(after.tcpServices) == multiset(before.tcpServices) &&
    SortedBy(after.tcpServices, TCPLess(env)) &&
    multiset(after.dnsResolvers) == multiset(before.dnsResolvers) &&
    SortedBy(after.dnsResolvers, DNSLess) &&
    multiset(after.userLists) == multiset(MapSeq(env.canonUserList, before.userLists)) &&
    SortedBy(after.userLists, UserListLess)
  }

  // ----- ACME path promotion -----

  /** Index of the first path that is exactly `prefix`, or -1. */
  function AcmePathIndex(paths: seq<HTTPPath>, prefix: string): (k: int)
    ensures -1 <= k < |paths|
    ensures k >= 0 ==> paths[k].path == prefix && forall i :: 0 <= i < k ==> paths[i].path != prefix
    ensures k < 0 ==> forall i :: 0 <= i < |paths| ==> paths[i].path != prefix
    decreases |paths|
  {
    if |paths| == 0 then -1
    else if paths[0].path == prefix then 0
    else
      var k := AcmePathIndex(paths[1..], prefix);
      if k < 0 then -1 else k + 1
  }

  /** A catch-all host holding an ACME challenge path. */
  predicate HoldsAcme(h: HTTPHost, prefix: string)
  {
    h.host == "" && AcmePathIndex(h.paths, prefix) >= 0
  }

  /** Index of the first catch-all host holding an ACME path, or -1. */
  function AcmeHostIndex(hosts: seq<HTTPHost>, prefix: string): (j: int)
    ensures -1 <= j < |hosts|
    ensures j >= 0 ==> HoldsAcme(hosts[j], prefix) && forall i :: 0 <= i < j ==> !HoldsAcme(hosts[i], prefix)
    ensures j < 0 ==> forall i :: 0 <= i < |hosts| ==> !HoldsAcme(hosts[i], prefix)
    decreases |hosts|
  {
    if |hosts| == 0 then -1
    else if HoldsAcme(hosts[0], prefix) then 0
    else
      var j := AcmeHostIndex(hosts[1..], prefix);
      if j < 0 then -1 else j + 1
  }

  /** Whether promotion does anything to `s`. */
  predicate Promotes(s: HTTPService, prefix: string)
  {
    s.port == 80 && AcmeHostIndex(s.hosts, prefix) >= 0
  }

  /**
   * The ACME path moved to a host of its own at the front: on port 80, the
   * first ACME path of the first catch-all host holding one is removed from
   * that host (which is dropped once empty) and `{"", [path]}` is prepended.
   */
  function PromoteAcme(s: HTTPService, prefix: string): (r: HTTPService)
    ensures r.frontendName == s.frontendName && r.port == s.port && r.basicAuth == s.basicAuth
  {
    if !Promotes(s, prefix) then s
    else
      var j := AcmeHostIndex(s.hosts, prefix);
      var h := s.hosts[j];
      var k := AcmePathIndex(h.paths, prefix);
      var rest := h.paths[..k] + h.paths[k + 1..];
      var others := if |rest| == 0 then s.hosts[..j] + s.hosts[j + 1..] else s.hosts[j := h.(paths := rest)];
      s.(hosts := [HTTPHost("", [h.paths[k]])] + others)
  }

  function PromoteWith(prefix: string): HTTPService -> HTTPService
  {
    (s: HTTPService) => PromoteAcme(s, prefix)
  }

  /** Services off port 80, and services without a catch-all ACME path, are left alone. */
  lemma PromoteAcmeUntouched(s: HTTPService, prefix: string)
    requires s.port != 80 || forall h :: h in s.hosts ==> h.host != "" || forall p :: p in h.paths ==> p.path != prefix
    ensures PromoteAcme(s, prefix) == s
  {
    if s.port == 80 {
      forall i | 0 <= i < |s.hosts|
        ensures !HoldsAcme(s.hosts[i], prefix)
      {
        var h := s.hosts[i];
        assert h in s.hosts;
        if h.host == "" {
          forall q | 0 <= q < |h.paths|
            ensures h.paths[q].path != prefix
          {
            assert h.paths[q] in h.paths;
          }
        }
      }
    }
  }

  /** After promotion the first host is the catch-all host holding exactly the first ACME path. */
  lemma PromoteAcmeFront(s: HTTPService, prefix: string)
    requires Promotes(s, prefix)
    ensures var r := PromoteAcme(s, prefix);
      var h := s.hosts[AcmeHostIndex(s.hosts, prefix)];
      |r.hosts| > 0 && r.hosts[0] == HTTPHost("", [h.paths[AcmePathIndex(h.paths, prefix)]]) &&
      r.hosts[0].paths[0].path == prefix
  {
  }

  /** The source host disappears exactly when the ACME path was its only path. */
  lemma PromoteAcmeHostCount(s: HTTPService, prefix: string)
    requires Promotes(s, prefix)
    ensures var h := s.hosts[AcmeHostIndex(s.hosts, prefix)];
      |PromoteAcme(s, prefix).hosts| == if |h.paths| == 1 then |s.hosts| else |s.hosts| + 1
  {
  }

  /**
   * Where another host ends up: one place later behind the new front host,
   * except that hosts after a dropped source host keep their index.
   */
  function PromotedIndex(s: HTTPService, prefix: string, i: int): int
  {
    if !Promotes(s, prefix) then i
    else
      var j := AcmeHostIndex(s.hosts, prefix);
      if |s.hosts[j].paths| == 1 && i > j then i else i + 1
  }

  /** Every host other than the source host is still there, unchanged, at PromotedIndex. */
  lemma PromoteAcmeKeepsOtherHosts(s: HTTPService, prefix: string, i: int)
    requires 0 <= i < |s.hosts| && (!Promotes(s, prefix) || i != AcmeHostIndex(s.hosts, prefix))
    ensures s.hosts[i] in PromoteAcme(s, prefix).hosts
    ensures 0 <= PromotedIndex(s, prefix, i) < |PromoteAcme(s, prefix).hosts|
    ensures PromoteAcme(s, prefix).hosts[PromotedIndex(s, prefix, i)] == s.hosts[i]
  {
    if Promotes(s, prefix) {
      var j := AcmeHostIndex(s.hosts, prefix);
      var r := PromoteAcme(s, prefix);
      var h := s.hosts[j];
      var k := AcmePathIndex(h.paths, prefix);
      var rest := h.paths[..k] + h.paths[k + 1..];
      if |rest| == 0 {
        var others := s.hosts[..j] + s.hosts[j + 1..];
        if i < j {
          assert others[i] == s.hosts[i];
        } else {
          assert others[i - 1] == s.hosts[i];
        }
        assert r.hosts == [HTTPHost("", [h.paths[k]])] + others;
      } else {
        assert r.hosts[i + 1] == s.hosts[i];
      }
    }
  }

  /** So the other hosts keep their relative order. */
  lemma PromoteAcmeKeepsHostOrder(s: HTTPService, prefix: string, i1: int, i2: int)
    requires 0 <= i1 < i2 < |s.hosts|
    requires !Promotes(s, prefix) || (i1 != AcmeHostIndex(s.hosts, prefix) && i2 != AcmeHostIndex(s.hosts, prefix))
    ensures PromotedIndex(s, prefix, i1) < PromotedIndex(s, prefix, i2)
    ensures var r := PromoteAcme(s, prefix).hosts;
      PromotedIndex(s, prefix, i2) < |r| &&
      r[PromotedIndex(s, prefix, i1)] == s.hosts[i1] && r[PromotedIndex(s, prefix, i2)] == s.hosts[i2]
  {
    PromoteAcmeKeepsOtherHosts(s, prefix, i1);
    PromoteAcmeKeepsOtherHosts(s, prefix, i2);
  }

  function HostPaths(h: HTTPHost): seq<HTTPPath>
  {
    h.paths
  }

  /** All paths of all hosts, host by host. */
  function AllPaths(hosts: seq<HTTPHost>): seq<HTTPPath>
  {
    Concat(HostPaths, hosts)
  }

  lemma AllPathsSplit(hosts: seq<HTTPHost>, j: int)
    requires 0 <= j < |hosts|
    ensures AllPaths(hosts) == AllPaths(hosts[..j]) + hosts[j].paths + AllPaths(hosts[j + 1..])
  {
    assert hosts == hosts[..j] + [hosts[j]] + hosts[j + 1..];
    ConcatAppend(HostPaths, hosts[..j] + [hosts[j]], hosts[j + 1..]);
    ConcatAppend(HostPaths, hosts[..j], [hosts[j]]);
    ConcatSingle(HostPaths, hosts[j]);
  }

  /** Replacing host j's paths by `rest` (dropping the host when `rest` is empty) replaces them in the flattened paths. */
  lemma ReplacedHostPaths(hosts: seq<HTTPHost>, j: int, rest: seq<HTTPPath>)
    requires 0 <= j < |hosts|
    ensures var others := if |rest| == 0 then hosts[..j] + hosts[j + 1..] else hosts[j := hosts[j].(paths := rest)];
      AllPaths(others) == AllPaths(hosts[..j]) + rest + AllPaths(hosts[j + 1..])
  {
    if |rest| == 0 {
      ConcatAppend(HostPaths, hosts[..j], hosts[j + 1..]);
    } else {
      var others := hosts[j := hosts[j].(paths := rest)];
      assert others[..j] == hosts[..j] && others[j + 1..] == hosts[j + 1..];
      AllPathsSplit(others, j);
    }
  }

  /** A host put in front contributes its paths first. */
  lemma FrontHostPaths(front: HTTPHost, others: seq<HTTPHost>)
    ensures AllPaths([front] + others) == front.paths + AllPaths(others)
  {
    ConcatAppend(HostPaths, [front], others);
    ConcatSingle(HostPaths, front);
  }

  /** Moving one element of the middle part to the front keeps the multiset. */
  lemma MultisetMoveFront<T>(before: seq<T>, left: seq<T>, p: T, right: seq<T>, after: seq<T>)
    ensures multiset([p] + (before + (left + right) + after)) == multiset(before + (left + [p] + right) + after)
  {
  }

  /** Moving path k of host j to a new host in front keeps the multiset of all paths. */
  lemma MovedPathKept(hosts: seq<HTTPHost>, j: int, k: int)
    requires 0 <= j < |hosts| && 0 <= k < |hosts[j].paths|
    ensures var h := hosts[j];
      var rest := h.paths[..k] + h.paths[k + 1..];
      var others := if |rest| == 0 then hosts[..j] + hosts[j + 1..] else hosts[j := h.(paths := rest)];
      multiset(AllPaths([HTTPHost("", [h.paths[k]])] + others)) == multiset(AllPaths(hosts))
  {
    var h := hosts[j];
    var p := h.paths[k];
    var rest := h.paths[..k] + h.paths[k + 1..];
    var others := if |rest| == 0 then hosts[..j] + hosts[j + 1..] else hosts[j := h.(paths := rest)];
    AllPathsSplit(hosts, j);
    ReplacedHostPaths(hosts, j, rest);
    FrontHostPaths(HTTPHost("", [p]), others);
    assert h.paths == h.paths[..k] + [p] + h.paths[k + 1..];
    MultisetMoveFront(AllPaths(hosts[..j]), h.paths[..k], p, h.paths[k + 1..], AllPaths(hosts[j + 1..]));
  }

  /** Promotion moves one path; the multiset of all paths is unchanged. */
  lemma PromoteAcmePaths(s: HTTPService, prefix: string)
    ensures multiset(AllPaths(PromoteAcme(s, prefix).hosts)) == multiset(AllPaths(s.hosts))
  {
    if Promotes(s, prefix) {
      var j := AcmeHostIndex(s.hosts, prefix);
      MovedPathKept(s.hosts, j, AcmePathIndex(s.hosts[j].paths, prefix));
    }
  }

  /** Promoting twice is promoting once: the ACME host already in front is found and put back. */
  lemma PromoteAcmeIdempotent(s: HTTPService, prefix: string)
    ensures PromoteAcme(PromoteAcme(s, prefix), prefix) == PromoteAcme(s, prefix)
  {
    if Promotes(s, prefix) {
      var r := PromoteAcme(s, prefix);
      PromoteAcmeFront(s, prefix);
      assert HoldsAcme(r.hosts[0], prefix);
      assert AcmeHostIndex(r.hosts, prefix) == 0;
      assert r.hosts[..0] + r.hosts[1..] == r.hosts[1..];
      assert [r.hosts[0]] + r.hosts[1..] == r.hosts;
    }
  }

  // ----- what validation checks -----

  datatype NameKind = FrontendKind | BackendKind

  /** One use of a frontend or backend name, in the order validation meets them. */
  datatype NameUse = NameUse(kind: NameKind, name: string)

  function PathBackendNames(p: HTTPPath): seq<string>
  {
    if p.backend.Some? then [p.backend.value.name] else []
  }

  function HostBackendNames(h: HTTPHost): seq<string>
  {
    Concat(PathBackendNames, h.paths)
  }

  function ServiceBackendNames(s: HTTPService): seq<string>
  {
    Concat(HostBackendNames, s.hosts)
  }

  function TCPBackendNames(s: TCPService): seq<string>
  {
    if s.backend.Some? then [s.backend.value.name] else []
  }

  function DefaultBackendNames(t: Template): seq<string>
  {
    if t.defaultBackend.Some? then [t.defaultBackend.value.name] else []
  }

  function HTTPFrontendNames(s: HTTPService): seq<string>
  {
    [s.frontendName]
  }

  function TCPFrontendNames(s: TCPService): seq<string>
  {
    [s.frontendName]
  }

  /** Every frontend name: HTTP services, then TCP services. */
  function FrontendNames(t: Template): seq<string>
  {
    Concat(HTTPFrontendNames, t.httpServices) + Concat(TCPFrontendNames, t.tcpServices)
  }

  /** Every backend name: the default backend, the path backends, the TCP backends. */
  function BackendNames(t: Template): seq<string>
  {
    DefaultBackendNames(t) + Concat(ServiceBackendNames, t.httpServices) + Concat(TCPBackendNames, t.tcpServices)
  }

  function AsBackendUse(n: string): seq<NameUse>
  {
    [NameUse(BackendKind, n)]
  }

  function BackendUses(names: seq<string>): seq<NameUse>
  {
    Concat(AsBackendUse, names)
  }

  function HTTPServiceScan(s: HTTPService): seq<NameUse>
  {
    [NameUse(FrontendKind, s.frontendName)] + BackendUses(ServiceBackendNames(s))
  }

  function TCPServiceScan(s: TCPService): seq<NameUse>
  {
    [NameUse(FrontendKind, s.frontendName)] + BackendUses(TCPBackendNames(s))
  }

  /** The names in the order validation meets them. */
  function ScanOrder(t: Template): seq<NameUse>
  {
    BackendUses(DefaultBackendNames(t)) + Concat(HTTPServiceScan, t.httpServices) + Concat(TCPServiceScan, t.tcpServices)
  }

  /** Position `k` is where a name is met for the second time, for the first time. */
  ghost predicate FirstRepeatAt(s: seq<NameUse>, k: int)
  {
    0 <= k < |s| && Distinct(s[..k]) && s[k] in s[..k]
  }

  /** The error validation reports for a reused name. */
  function ReuseMessage(u: NameUse): string
  {
    match u.kind
    case FrontendKind => "haproxy frontend name " + u.name + " is reused"
    case BackendKind => "haproxy backend name " + u.name + " is reused"
  }

  /** Once a name has been met twice, every longer prefix repeats a name. */
  lemma RepeatPersists(s: seq<NameUse>, k: int, m: int)
    requires 0 <= k < m <= |s| && s[k] in s[..k]
    ensures !Distinct(s[..m])
  {
    var i :| 0 <= i < k && s[..k][i] == s[k];
    assert s[..m][i] == s[..m][k];
  }

  /** There is at most one first repeat. */
  lemma FirstRepeatUnique(s: seq<NameUse>, k1: int, k2: int)
    requires FirstRepeatAt(s, k1) && FirstRepeatAt(s, k2)
    ensures k1 == k2
  {
    if k1 < k2 {
      RepeatPersists(s, k1, k2);
    } else if k2 < k1 {
      RepeatPersists(s, k2, k1);
    }
  }

  lemma FirstRepeatNotDistinct(s: seq<NameUse>, k: int)
    requires FirstRepeatAt(s, k)
    ensures !Distinct(s)
  {
    var i :| 0 <= i < k && s[..k][i] == s[k];
    assert s[i] == s[k];
  }

  function FrontOf(u: NameUse): seq<string>
  {
    if u.kind == FrontendKind then [u.name] else []
  }

  function BackOf(u: NameUse): seq<string>
  {
    if u.kind == BackendKind then [u.name] else []
  }

  lemma {:induction false} UseInNames(s: seq<NameUse>, u: NameUse)
    ensures u in s <==> u.name in Concat(if u.kind == FrontendKind then FrontOf else BackOf, s)
    decreases |s|
  {
    var f := if u.kind == FrontendKind then FrontOf else BackOf;
    if |s| > 0 {
      var init := s[..|s| - 1];
      UseInNames(init, u);
      assert s == init + [s[|s| - 1]];
    }
  }

  /** All uses are distinct exactly when the frontend names and the backend names each are. */
  lemma {:induction false} DistinctUses(s: seq<NameUse>)
    ensures Distinct(s) <==> Distinct(Concat(FrontOf, s)) && Distinct(Concat(BackOf, s))
    decreases |s|
  {
    if |s| > 0 {
      var init, u := s[..|s| - 1], s[|s| - 1];
      assert s == init + [u];
      DistinctUses(init);
      DistinctSnoc(init, u);
      UseInNames(init, u);
      if u.kind == FrontendKind {
        DistinctSnoc(Concat(FrontOf, init), u.name);
        assert Concat(BackOf, s) == Concat(BackOf, init);
      } else {
        DistinctSnoc(Concat(BackOf, init), u.name);
        assert Concat(FrontOf, s) == Concat(FrontOf, init);
      }
    }
  }

  function NoNames(x: string): seq<string> { [] }

  function OneName(x: string): seq<string> { [x] }

  lemma {:induction false} ConcatNoNames(xs: seq<string>)
    ensures Concat(NoNames, xs) == []
    decreases |xs|
  {
    if |xs| > 0 { ConcatNoNames(xs[..|xs| - 1]); }
  }

  lemma {:induction false} ConcatOneName(xs: seq<string>)
    ensures Concat(OneName, xs) == xs
    decreases |xs|
  {
    if |xs| > 0 {
      var init := xs[..|xs| - 1];
      ConcatOneName(init);
      assert Concat(OneName, xs) == init + [xs[|xs| - 1]];
      assert init + [xs[|xs| - 1]] == xs;
    }
  }

  lemma BackendUsesNames(names: seq<string>)
    ensures Concat(FrontOf, BackendUses(names)) == []
    ensures Concat(BackOf, BackendUses(names)) == names
  {
    forall x ensures Concat(FrontOf, AsBackendUse(x)) == NoNames(x) {
      ConcatSingle(FrontOf, NameUse(BackendKind, x));
    }
    forall x ensures Concat(BackOf, AsBackendUse(x)) == OneName(x) {
      ConcatSingle(BackOf, NameUse(BackendKind, x));
    }
    ConcatConcat(FrontOf, AsBackendUse, NoNames, names);
    ConcatConcat(BackOf, AsBackendUse, OneName, names);
    ConcatNoNames(names);
    ConcatOneName(names);
  }

  lemma ScanSplit(u: NameUse, names: seq<string>)
    requires u.kind == FrontendKind
    ensures Concat(FrontOf, [u] + BackendUses(names)) == [u.name]
    ensures Concat(BackOf, [u] + BackendUses(names)) == names
  {
    BackendUsesNames(names);
    ConcatAppend(FrontOf, [u], BackendUses(names));
    ConcatAppend(BackOf, [u], BackendUses(names));
    ConcatSingle(FrontOf, u);
    ConcatSingle(BackOf, u);
  }

  lemma HTTPScanNames(svcs: seq<HTTPService>)
    ensures Concat(FrontOf, Concat(HTTPServiceScan, svcs)) == Concat(HTTPFrontendNames, svcs)
    ensures Concat(BackOf, Concat(HTTPServiceScan, svcs)) == Concat(ServiceBackendNames, svcs)
  {
    forall s: HTTPService
      ensures Concat(FrontOf, HTTPServiceScan(s)) == HTTPFrontendNames(s)
      ensures Concat(BackOf, HTTPServiceScan(s)) == ServiceBackendNames(s)
    {
      ScanSplit(NameUse(FrontendKind, s.frontendName), ServiceBackendNames(s));
    }
    ConcatConcat(FrontOf, HTTPServiceScan, HTTPFrontendNames, svcs);
    ConcatConcat(BackOf, HTTPServiceScan, ServiceBackendNames, svcs);
  }

  lemma TCPScanNames(svcs: seq<TCPService>)
    ensures Concat(FrontOf, Concat(TCPServiceScan, svcs)) == Concat(TCPFrontendNames, svcs)
    ensures Concat(BackOf, Concat(TCPServiceScan, svcs)) == Concat(TCPBackendNames, svcs)
  {
    forall s: TCPService
      ensures Concat(FrontOf, TCPServiceScan(s)) == TCPFrontendNames(s)
      ensures Concat(BackOf, TCPServiceScan(s)) == TCPBackendNames(s)
    {
      ScanSplit(NameUse(FrontendKind, s.frontendName), TCPBackendNames(s));
    }
    ConcatConcat(FrontOf, TCPServiceScan, TCPFrontendNames, svcs);
    ConcatConcat(BackOf, TCPServiceScan, TCPBackendNames, svcs);
  }

  lemma ScanOrderFront(t: Template)
    ensures Concat(FrontOf, ScanOrder(t)) == FrontendNames(t)
  {
    var d, h, c := BackendUses(DefaultBackendNames(t)), Concat(HTTPServiceScan, t.httpServices), Concat(TCPServiceScan, t.tcpServices);
    var fh, fc := Concat(FrontOf, h), Concat(FrontOf, c);
    assert Concat(FrontOf, ScanOrder(t)) == Concat(FrontOf, d) + fh + fc by {
      ConcatAppend(FrontOf, d + h, c);
      ConcatAppend(FrontOf, d, h);
    }
    assert Concat(FrontOf, d) == [] by {
      BackendUsesNames(DefaultBackendNames(t));
    }
    assert fh == Concat(HTTPFrontendNames, t.httpServices) by {
      HTTPScanNames(t.httpServices);
    }
    assert fc == Concat(TCPFrontendNames, t.tcpServices) by {
      TCPScanNames(t.tcpServices);
    }
    assert [] + fh + fc == fh + fc;
  }

  lemma ScanOrderBack(t: Template)
    ensures Concat(BackOf, ScanOrder(t)) == BackendNames(t)
  {
    var d, h, c := BackendUses(DefaultBackendNames(t)), Concat(HTTPServiceScan, t.httpServices), Concat(TCPServiceScan, t.tcpServices);
    assert Concat(BackOf, ScanOrder(t)) == Concat(BackOf, d) + Concat(BackOf, h) + Concat(BackOf, c) by {
      ConcatAppend(BackOf, d + h, c);
      ConcatAppend(BackOf, d, h);
    }
    assert Concat(BackOf, d) == DefaultBackendNames(t) by {
      BackendUsesNames(DefaultBackendNames(t));
    }
    assert Concat(BackOf, h) == Concat(ServiceBackendNames, t.httpServices) by {
      HTTPScanNames(t.httpServices);
    }
    assert Concat(BackOf, c) == Concat(TCPBackendNames, t.tcpServices) by {
      TCPScanNames(t.tcpServices);
    }
  }

  /** The scan meets exactly the frontend names and the backend names, each in their own order. */
  lemma ScanOrderNames(t: Template)
    ensures Concat(FrontOf, ScanOrder(t)) == FrontendNames(t)
    ensures Concat(BackOf, ScanOrder(t)) == BackendNames(t)
  {
    ScanOrderFront(t);
    ScanOrderBack(t);
  }

  /**
   * No name is met twice exactly when all frontend names are pairwise
   * distinct and all backend names (default, path and TCP backends, in one
   * name space) are pairwise distinct.
   */
  lemma ScanDistinctIff(t: Template)
    ensures Distinct(ScanOrder(t)) <==> Distinct(FrontendNames(t)) && Distinct(BackendNames(t))
  {
    DistinctUses(ScanOrder(t));
    ScanOrderNames(t);
  }

  // ----- progress of the validation scan -----

  ghost function HTTPPrefix(t: Template, i: int): seq<NameUse>
    requires 0 <= i <= |t.httpServices|
  {
    BackendUses(DefaultBackendNames(t)) + Concat(HTTPServiceScan, t.httpServices[..i])
  }

  /** The scan inside HTTP service `i`, before path `k` of host `j`. */
  ghost function InPaths(t: Template, i: int, j: int, k: int): seq<NameUse>
    requires 0 <= i < |t.httpServices|
    requires 0 <= j < |t.httpServices[i].hosts| && 0 <= k <= |t.httpServices[i].hosts[j].paths|
  {
    var svc := t.httpServices[i];
    HTTPPrefix(t, i) + [NameUse(FrontendKind, svc.frontendName)] +
      BackendUses(Concat(HostBackendNames, svc.hosts[..j]) + Concat(PathBackendNames, svc.hosts[j].paths[..k]))
  }

  /** The scan inside HTTP service `i`, before host `j`. */
  ghost function InHosts(t: Template, i: int, j: int): seq<NameUse>
    requires 0 <= i < |t.httpServices| && 0 <= j <= |t.httpServices[i].hosts|
  {
    var svc := t.httpServices[i];
    HTTPPrefix(t, i) + [NameUse(FrontendKind, svc.frontendName)] + BackendUses(Concat(HostBackendNames, svc.hosts[..j]))
  }

  ghost function TCPPrefix(t: Template, i: int): seq<NameUse>
    requires 0 <= i <= |t.tcpServices|
  {
    BackendUses(DefaultBackendNames(t)) + Concat(HTTPServiceScan, t.httpServices) + Concat(TCPServiceScan, t.tcpServices[..i])
  }

  lemma ConcatOfPrefix<T, U>(f: T -> seq<U>, a: seq<T>, b: seq<T>)
    requires a <= b
    ensures Concat(f, a) <= Concat(f, b)
  {
    assert b[..|a|] == a;
    ConcatPrefix(f, b, |a|);
  }

  /** The scan up to the end of HTTP service `i` is a prefix of the whole scan. */
  lemma HTTPPrefixInScan(t: Template, i: int)
    requires 0 <= i <= |t.httpServices|
    ensures HTTPPrefix(t, i) <= ScanOrder(t)
  {
    var d := BackendUses(DefaultBackendNames(t));
    ConcatPrefix(HTTPServiceScan, t.httpServices, i);
    PrefixAppend(d, Concat(HTTPServiceScan, t.httpServices[..i]), Concat(HTTPServiceScan, t.httpServices));
    PrefixExtend(HTTPPrefix(t, i), d + Concat(HTTPServiceScan, t.httpServices), Concat(TCPServiceScan, t.tcpServices));
  }

  /** After the last host of service `i`, the scan has covered service `i` whole. */
  lemma InHostsEnd(t: Template, i: int)
    requires 0 <= i < |t.httpServices|
    ensures InHosts(t, i, |t.httpServices[i].hosts|) == HTTPPrefix(t, i + 1)
  {
    var svc := t.httpServices[i];
    assert svc.hosts[..|svc.hosts|] == svc.hosts;
    ConcatSnoc(HTTPServiceScan, t.httpServices, i);
  }

  lemma InHostsPrefix(t: Template, i: int, j: int)
    requires 0 <= i < |t.httpServices| && 0 <= j <= |t.httpServices[i].hosts|
    ensures InHosts(t, i, j) <= ScanOrder(t)
    ensures InHosts(t, i, |t.httpServices[i].hosts|) == HTTPPrefix(t, i + 1)
  {
    var svc := t.httpServices[i];
    var base := HTTPPrefix(t, i) + [NameUse(FrontendKind, svc.frontendName)];
    ConcatPrefix(HostBackendNames, svc.hosts, j);
    ConcatOfPrefix(AsBackendUse, Concat(HostBackendNames, svc.hosts[..j]), ServiceBackendNames(svc));
    PrefixAppend(base, BackendUses(Concat(HostBackendNames, svc.hosts[..j])), BackendUses(ServiceBackendNames(svc)));
    InHostsEnd(t, i);
    assert base + BackendUses(ServiceBackendNames(svc)) == HTTPPrefix(t, i + 1) by {
      assert svc.hosts[..|svc.hosts|] == svc.hosts;
    }
    HTTPPrefixInScan(t, i + 1);
    PrefixTrans(InHosts(t, i, j), HTTPPrefix(t, i + 1), ScanOrder(t));
  }

  lemma InPathsPrefix(t: Template, i: int, j: int, k: int)
    requires 0 <= i < |t.httpServices|
    requires 0 <= j < |t.httpServices[i].hosts| && 0 <= k <= |t.httpServices[i].hosts[j].paths|
    ensures InPaths(t, i, j, k) <= ScanOrder(t)
    ensures k == 0 ==> InPaths(t, i, j, k) == InHosts(t, i, j)
    ensures k == |t.httpServices[i].hosts[j].paths| ==> InPaths(t, i, j, k) == InHosts(t, i, j + 1)
  {
    var svc := t.httpServices[i];
    var host := svc.hosts[j];
    var base := HTTPPrefix(t, i) + [NameUse(FrontendKind, svc.frontendName)];
    var done := Concat(HostBackendNames, svc.hosts[..j]);
    ConcatPrefix(PathBackendNames, host.paths, k);
    PrefixAppend(done, Concat(PathBackendNames, host.paths[..k]), HostBackendNames(host));
    ConcatSnoc(HostBackendNames, svc.hosts, j);
    ConcatOfPrefix(AsBackendUse, done + Concat(PathBackendNames, host.paths[..k]), Concat(HostBackendNames, svc.hosts[..j + 1]));
    PrefixAppend(base, BackendUses(done + Concat(PathBackendNames, host.paths[..k])), BackendUses(Concat(HostBackendNames, svc.hosts[..j + 1])));
    InHostsPrefix(t, i, j + 1);
    PrefixTrans(InPaths(t, i, j, k), InHosts(t, i, j + 1), ScanOrder(t));
    assert host.paths[..0] == [];
    assert done + [] == done;
    assert host.paths[..|host.paths|] == host.paths;
  }

  lemma InPathsStep(t: Template, i: int, j: int, k: int)
    requires 0 <= i < |t.httpServices|
    requires 0 <= j < |t.httpServices[i].hosts| && 0 <= k < |t.httpServices[i].hosts[j].paths|
    ensures var p := t.httpServices[i].hosts[j].paths[k];
      InPaths(t, i, j, k + 1) == InPaths(t, i, j, k) + (if p.backend.Some? then [NameUse(BackendKind, p.backend.value.name)] else [])
  {
    var svc := t.httpServices[i];
    var p := svc.hosts[j].paths[k];
    var done := Concat(HostBackendNames, svc.hosts[..j]);
    var before := Concat(PathBackendNames, svc.hosts[j].paths[..k]);
    ConcatSnoc(PathBackendNames, svc.hosts[j].paths, k);
    assert done + (before + PathBackendNames(p)) == (done + before) + PathBackendNames(p);
    ConcatAppend(AsBackendUse, done + before, PathBackendNames(p));
    if p.backend.Some? {
      ConcatSingle(AsBackendUse, p.backend.value.name);
    }
  }

  lemma InHostsStart(t: Template, i: int)
    requires 0 <= i < |t.httpServices|
    ensures InHosts(t, i, 0) == HTTPPrefix(t, i) + [NameUse(FrontendKind, t.httpServices[i].frontendName)]
  {
    assert t.httpServices[i].hosts[..0] == [];
  }

  lemma TCPPrefixFacts(t: Template, i: int)
    requires 0 <= i <= |t.tcpServices|
    ensures i == 0 ==> TCPPrefix(t, 0) == HTTPPrefix(t, |t.httpServices|)
    ensures i == |t.tcpServices| ==> TCPPrefix(t, i) == ScanOrder(t)
    ensures i < |t.tcpServices| ==>
      TCPPrefix(t, i + 1) == TCPPrefix(t, i) + TCPServiceScan(t.tcpServices[i]) && TCPPrefix(t, i + 1) <= ScanOrder(t)
  {
    assert t.tcpServices[..0] == [];
    assert t.httpServices[..|t.httpServices|] == t.httpServices;
    assert t.tcpServices[..|t.tcpServices|] == t.tcpServices;
    if i < |t.tcpServices| {
      ConcatSnoc(TCPServiceScan, t.tcpServices, i);
      ConcatPrefix(TCPServiceScan, t.tcpServices, i + 1);
      PrefixAppend(BackendUses(DefaultBackendNames(t)) + Concat(HTTPServiceScan, t.httpServices),
                   Concat(TCPServiceScan, t.tcpServices[..i + 1]), Concat(TCPServiceScan, t.tcpServices));
    }
  }

  lemma TCPServiceUses(s: TCPService)
    ensures TCPServiceScan(s) == [NameUse(FrontendKind, s.frontendName)] +
      (if s.backend.Some? then [NameUse(BackendKind, s.backend.value.name)] else [])
  {
    if s.backend.Some? {
      ConcatSingle(AsBackendUse, s.backend.value.name);
    }
  }

  /** What the scan of TCP service `c` appends, and that it stays within the whole scan. */
  lemma TCPStep(t: Template, c: int)
    requires 0 <= c < |t.tcpServices|
    ensures var svc := t.tcpServices[c]; var fu := NameUse(FrontendKind, svc.frontendName);
      TCPPrefix(t, c) + [fu] <= ScanOrder(t) && TCPPrefix(t, c + 1) <= ScanOrder(t) &&
      (svc.backend.None? ==> TCPPrefix(t, c + 1) == TCPPrefix(t, c) + [fu]) &&
      (svc.backend.Some? ==> TCPPrefix(t, c + 1) == TCPPrefix(t, c) + [fu] + [NameUse(BackendKind, svc.backend.value.name)])
  {
    var svc := t.tcpServices[c];
    var fu := NameUse(FrontendKind, svc.frontendName);
    TCPPrefixFacts(t, c);
    TCPServiceUses(svc);
    PrefixTrans(TCPPrefix(t, c) + [fu], TCPPrefix(t, c + 1), ScanOrder(t));
  }

  /** `seen` is the set of names of kind `kind` among the uses met so far. */
  ghost predicate Tracks(met: seq<NameUse>, kind: NameKind, seen: set<string>)
  {
    forall n :: n in seen <==> NameUse(kind, n) in met
  }

  /** Meeting an already-seen use, right after a repeat-free prefix of the scan, is its first repeat. */
  lemma RepeatFound(s: seq<NameUse>, met: seq<NameUse>, u: NameUse)
    requires met + [u] <= s && Distinct(met) && u in met
    ensures FirstRepeatAt(s, |met|) && s[|met|] == u
  {
    assert s[..|met| + 1] == met + [u];
    assert s[..|met|] == met;
  }

  /** Meeting an unseen use keeps the met uses distinct and the seen sets up to date. */
  lemma MeetFresh(met: seq<NameUse>, u: NameUse, fs: set<string>, bs: set<string>)
    requires Distinct(met) && u !in met
    requires Tracks(met, FrontendKind, fs) && Tracks(met, BackendKind, bs)
    ensures Distinct(met + [u])
    ensures u.kind == FrontendKind ==> Tracks(met + [u], FrontendKind, fs + {u.name}) && Tracks(met + [u], BackendKind, bs)
    ensures u.kind == BackendKind ==> Tracks(met + [u], FrontendKind, fs) && Tracks(met + [u], BackendKind, bs + {u.name})
  {
    DistinctSnoc(met, u);
  }

  // ----- canonicalisation as a whole -----

  function Converted(t: Template): Template
  {
    t.(httpServices := MapSeq(ConvertService, t.httpServices))
  }

  function Promoted(t: Template, prefix: string): Template
  {
    t.(httpServices := MapSeq(PromoteWith(prefix), t.httpServices))
  }

  /** `after` is a possible outcome of converting wildcards, then sorting, then promoting ACME paths. */
  ghost predicate CanonicalFrom(before: Template, after: Template, env: Env)
  {
    exists sorted :: SortedFrom(Converted(before), sorted, env) && after == Promoted(sorted, env.acmePrefix)
  }

  /** Sorts the hosts of one HTTP service, and the paths of each host, canonicalising as it goes. */
  method SortService(svc: HTTPService, env: Env) returns (r: HTTPService)
    ensures SvcShape(r) == CanonSvcShapeWith(env)(svc)
    ensures ServiceInOrder(r)
  {
    var basicAuth := svc.basicAuth;
    if basicAuth.Some? {
      basicAuth := Some(env.canonBasicAuth(basicAuth.value));
    }
    HostLessWeakOrder();
    PathLessWeakOrder();
    var sorted := SortedCopy(svc.hosts, HostLess);
    var hosts := sorted;
    var y := 0;
    while y < |hosts|
      invariant 0 <= y <= |hosts| == |sorted|
      invariant forall z :: 0 <= z < y ==> hosts[z].host == sorted[z].host
      invariant forall z :: 0 <= z < y ==> Shape(hosts[z]) == CanonShapeWith(env)(sorted[z])
      invariant forall z :: 0 <= z < y ==> SortedBy(hosts[z].paths, PathLess)
      invariant forall z :: y <= z < |hosts| ==> hosts[z] == sorted[z]
    {
      var host := hosts[y];
      var paths := host.paths;
      var z := 0;
      while z < |paths|
        invariant 0 <= z <= |paths| == |host.paths|
        invariant forall q :: 0 <= q < z ==> paths[q] == CanonPath(env, host.paths[q])
        invariant forall q :: z <= q < |paths| ==> paths[q] == host.paths[q]
      {
        if paths[z].backend.Some? {
          paths := paths[z := paths[z].(backend := Some(env.canonBackend(paths[z].backend.value)))];
        }
        z := z + 1;
      }
      assert paths == MapSeq(CanonPathWith(env), host.paths);
      paths := SortedCopy(paths, PathLess);
      hosts := hosts[y := host.(paths := paths)];
      y := y + 1;
    }
    forall a, b | 0 <= a < b < |hosts|
      ensures !HostLess(hosts[b], hosts[a])
    {
      assert !HostLess(sorted[b], sorted[a]);
    }
    assert MapSeq(Shape, hosts) == MapSeq(CanonShapeWith(env), sorted);
    MapPerm(CanonShapeWith(env), sorted, svc.hosts);
    r := svc.(basicAuth := basicAuth, hosts := hosts);
  }

  /** Moves the ACME path of one HTTP service to the front, as PromoteAcme describes. */
  method PromoteAcmeIn(svc: HTTPService, prefix: string) returns (r: HTTPService)
    ensures r == PromoteAcme(svc, prefix)
  {
    if svc.port != 80 {
      return svc;
    }
    var hosts := svc.hosts;
    var j := 0;
    while j < |hosts|
      invariant 0 <= j <= |hosts| && hosts == svc.hosts
      invariant forall y :: 0 <= y < j ==> !HoldsAcme(hosts[y], prefix)
    {
      var host := hosts[j];
      if host.host != "" {
        j := j + 1;
        continue;
      }
      var acme: Option<HTTPPath> := None;
      var paths := host.paths;
      var k := 0;
      while k < |paths|
        invariant 0 <= k <= |paths| && paths == host.paths
        invariant forall z :: 0 <= z < k ==> paths[z].path != prefix
      {
        if paths[k].path == prefix {
          acme := Some(paths[k]);
          break;
        }
        k := k + 1;
      }
      if acme.Some? {
        assert AcmeHostIndex(svc.hosts, prefix) == j && AcmePathIndex(host.paths, prefix) == k;
        paths := paths[..k] + paths[k + 1..];
        if |paths| == 0 {
          hosts := hosts[..j] + hosts[j + 1..];
        } else {
          hosts := hosts[j := host.(paths := paths)];
        }
        hosts := [HTTPHost("", [acme.value])] + hosts;
        return svc.(hosts := hosts);
      }
      j := j + 1;
    }
    return svc;
  }

  /** The part of the validation scan that covers HTTP service `i`. */
  method CheckHTTPService(ghost t: Template, i: int, svc: HTTPService, fs: set<string>, bs: set<string>, ghost met: seq<NameUse>)
    returns (err: Option<string>, fs': set<string>, bs': set<string>, ghost met': seq<NameUse>)
    requires 0 <= i < |t.httpServices| && svc == t.httpServices[i]
    requires met == HTTPPrefix(t, i) && Distinct(met)
    requires Tracks(met, FrontendKind, fs) && Tracks(met, BackendKind, bs)
    ensures err.None? ==> met' == HTTPPrefix(t, i + 1) && Distinct(met')
    ensures err.None? ==> Tracks(met', FrontendKind, fs') && Tracks(met', BackendKind, bs')
    ensures err.Some? ==> FirstRepeatAt(ScanOrder(t), |met'|) && err.value == ReuseMessage(ScanOrder(t)[|met'|])
  {
    var fu := NameUse(FrontendKind, svc.frontendName);
    InHostsStart(t, i);
    InHostsPrefix(t, i, 0);
    fs', bs', met' := fs, bs, met;
    if svc.frontendName in fs {
      RepeatFound(ScanOrder(t), met, fu);
      return Some("haproxy frontend name " + svc.frontendName + " is reused"), fs', bs', met';
    }
    MeetFresh(met, fu, fs, bs);
    fs' := fs + {svc.frontendName};
    met' := met + [fu];
    var j := 0;
    while j < |svc.hosts|
      invariant 0 <= j <= |svc.hosts|
      invariant met' == InHosts(t, i, j) && Distinct(met')
      invariant Tracks(met', FrontendKind, fs') && Tracks(met', BackendKind, bs')
    {
      err, bs', met' := CheckHost(t, i, j, svc.hosts[j], fs', bs', met');
      if err.Some? {
        return;
      }
      j := j + 1;
    }
    InHostsPrefix(t, i, |svc.hosts|);
    err := None;
  }

  /** The part of the validation scan that covers host `j` of HTTP service `i`. */
  method CheckHost(ghost t: Template, i: int, j: int, host: HTTPHost, ghost fs: set<string>, bs: set<string>, ghost met: seq<NameUse>)
    returns (err: Option<string>, bs': set<string>, ghost met': seq<NameUse>)
    requires 0 <= i < |t.httpServices| && 0 <= j < |t.httpServices[i].hosts| && host == t.httpServices[i].hosts[j]
    requires met == InHosts(t, i, j) && Distinct(met)
    requires Tracks(met, FrontendKind, fs) && Tracks(met, BackendKind, bs)
    ensures err.None? ==> met' == InHosts(t, i, j + 1) && Distinct(met')
    ensures err.None? ==> Tracks(met', FrontendKind, fs) && Tracks(met', BackendKind, bs')
    ensures err.Some? ==> FirstRepeatAt(ScanOrder(t), |met'|) && err.value == ReuseMessage(ScanOrder(t)[|met'|])
  {
    InPathsPrefix(t, i, j, 0);
    bs', met' := bs, met;
    var k := 0;
    while k < |host.paths|
      invariant 0 <= k <= |host.paths|
      invariant met' == InPaths(t, i, j, k) && Distinct(met')
      invariant Tracks(met', FrontendKind, fs) && Tracks(met', BackendKind, bs')
    {
      var path := host.paths[k];
      InPathsStep(t, i, j, k);
      InPathsPrefix(t, i, j, k + 1);
      if path.backend.Some? {
        var bu := NameUse(BackendKind, path.backend.value.name);
        if path.backend.value.name in bs' {
          RepeatFound(ScanOrder(t), met', bu);
          return Some("haproxy backend name " + path.backend.value.name + " is reused"), bs', met';
        }
        MeetFresh(met', bu, fs, bs');
        bs' := bs' + {path.backend.value.name};
        met' := met' + [bu];
      }
      k := k + 1;
    }
    InPathsPrefix(t, i, j, |host.paths|);
    err := None;
  }

  /** The part of the validation scan that covers TCP service `c`. */
  method CheckTCPService(ghost t: Template, c: int, svc: TCPService, fs: set<string>, bs: set<string>, ghost met: seq<NameUse>)
    returns (err: Option<string>, fs': set<string>, bs': set<string>, ghost met': seq<NameUse>)
    requires 0 <= c < |t.tcpServices| && svc == t.tcpServices[c]
    requires met == TCPPrefix(t, c) && Distinct(met)
    requires Tracks(met, FrontendKind, fs) && Tracks(met, BackendKind, bs)
    ensures err.None? ==> met' == TCPPrefix(t, c + 1) && Distinct(met')
    ensures err.None? ==> Tracks(met', FrontendKind, fs') && Tracks(met', BackendKind, bs')
    ensures err.Some? ==> FirstRepeatAt(ScanOrder(t), |met'|) && err.value == ReuseMessage(ScanOrder(t)[|met'|])
  {
    var fu := NameUse(FrontendKind, svc.frontendName);
    TCPStep(t, c);
    fs', bs', met' := fs, bs, met;
    if svc.frontendName in fs {
      RepeatFound(ScanOrder(t), met, fu);
      return Some("haproxy frontend name " + svc.frontendName + " is reused"), fs', bs', met';
    }
    MeetFresh(met, fu, fs, bs);
    fs' := fs + {svc.frontendName};
    met' := met + [fu];
    if svc.backend.Some? {
      var bu := NameUse(BackendKind, svc.backend.value.name);
      if svc.backend.value.name in bs {
        RepeatFound(ScanOrder(t), met', bu);
        return Some("haproxy backend name " + svc.backend.value.name + " is reused"), fs', bs', met';
      }
      MeetFresh(met', bu, fs', bs);
      bs' := bs + {svc.backend.value.name};
      met' := met' + [bu];
    }
    err := None;
  }

  /** The validation scan of template data `t`: the first reused name, if any. */
  method Validate(t: Template) returns (r: Option<string>)
    ensures r.None? <==> Distinct(ScanOrder(t))
    ensures r.Some? ==> exists k :: FirstRepeatAt(ScanOrder(t), k) && r.value == ReuseMessage(ScanOrder(t)[k])
  {
    var frontends: set<string> := {};
    var backends: set<string> := {};
    ghost var met: seq<NameUse> := [];
    assert t.httpServices[..0] == [];
    if t.defaultBackend.Some? {
      backends := {t.defaultBackend.value.name};
      met := [NameUse(BackendKind, t.defaultBackend.value.name)];
      ConcatSingle(AsBackendUse, t.defaultBackend.value.name);
    }
    assert met == HTTPPrefix(t, 0);
    var i := 0;
    while i < |t.httpServices|
      invariant 0 <= i <= |t.httpServices|
      invariant met == HTTPPrefix(t, i) && Distinct(met)
      invariant Tracks(met, FrontendKind, frontends) && Tracks(met, BackendKind, backends)
    {
      var err;
      err, frontends, backends, met := CheckHTTPService(t, i, t.httpServices[i], frontends, backends, met);
      if err.Some? {
        FirstRepeatNotDistinct(ScanOrder(t), |met|);
        return err;
      }
      i := i + 1;
    }
    TCPPrefixFacts(t, 0);
    var c := 0;
    while c < |t.tcpServices|
      invariant 0 <= c <= |t.tcpServices|
      invariant met == TCPPrefix(t, c) && Distinct(met)
      invariant Tracks(met, FrontendKind, frontends) && Tracks(met, BackendKind, backends)
    {
      var err;
      err, frontends, backends, met := CheckTCPService(t, c, t.tcpServices[c], frontends, backends, met);
      if err.Some? {
        FirstRepeatNotDistinct(ScanOrder(t), |met|);
        return err;
      }
      c := c + 1;
    }
    TCPPrefixFacts(t, |t.tcpServices|);
    return None;
  }

  /** Sorts the hosts and paths of every HTTP service, then the services by their sort key. */
  method SortHTTPServices(svcs: seq<HTTPService>, env: Env) returns (r: seq<HTTPService>)
    ensures multiset(MapSeq(SvcShape, r)) == multiset(MapSeq(CanonSvcShapeWith(env), svcs))
    ensures forall s :: s in r ==> ServiceInOrder(s)
    ensures SortedBy(r, HTTPLess(env))
  {
    var out := svcs;
    var x := 0;
    while x < |out|
      invariant 0 <= x <= |out| == |svcs|
      invariant forall q :: 0 <= q < x ==> SvcShape(out[q]) == CanonSvcShapeWith(env)(svcs[q])
      invariant forall q :: 0 <= q < x ==> ServiceInOrder(out[q])
      invariant forall q :: x <= q < |out| ==> out[q] == svcs[q]
    {
      var svc := SortService(out[x], env);
      out := out[x := svc];
      x := x + 1;
    }
    assert MapSeq(SvcShape, out) == MapSeq(CanonSvcShapeWith(env), svcs);
    ListOrdersWeak(env);
    r := SortedCopy(out, HTTPLess(env));
    MapPerm(SvcShape, r, out);
    forall s | s in r
      ensures ServiceInOrder(s)
    {
      assert s in multiset(out);
    }
  }

  /** Canonicalises every user list, keeping their order. */
  method CanonUserLists(uls: seq<UserList>, env: Env) returns (r: seq<UserList>)
    ensures r == MapSeq(env.canonUserList, uls)
  {
    r := uls;
    var i := 0;
    while i < |r|
      invariant 0 <= i <= |r| == |uls|
      invariant forall q :: 0 <= q < i ==> r[q] == env.canonUserList(uls[q])
      invariant forall q :: i <= q < |r| ==> r[q] == uls[q]
    {
      r := r[i := env.canonUserList(r[i])];
      i := i + 1;
    }
  }

  /** The template data being rendered into an HAProxy configuration. */
  class TemplateData {
    var defaultBackend: Option<Backend>
    var httpServices: seq<HTTPService>
    var tcpServices: seq<TCPService>
    var dnsResolvers: seq<DNSResolver>
    var userLists: seq<UserList>

    constructor (t: Template)
      ensures Snapshot() == t
    {
      defaultBackend := t.defaultBackend;
      httpServices := t.httpServices;
      tcpServices := t.tcpServices;
      dnsResolvers := t.dnsResolvers;
      userLists := t.userLists;
    }

    function Snapshot(): Template
      reads this
    {
      Template(defaultBackend, httpServices, tcpServices, dnsResolvers, userLists)
    }

    /** Rewrites every host written `*` to the catch-all host `""`. */
    method ConvertWildcardHostToEmpty()
      modifies this
      ensures Snapshot() == Converted(old(Snapshot()))
    {
      ghost var before := Snapshot();
      var i := 0;
      while i < |httpServices|
        invariant 0 <= i <= |httpServices| == |before.httpServices|
        invariant forall x :: 0 <= x < i ==> httpServices[x] == ConvertService(before.httpServices[x])
        invariant forall x :: i <= x < |httpServices| ==> httpServices[x] == before.httpServices[x]
        invariant Snapshot() == before.(httpServices := httpServices)
      {
        var svc := httpServices[i];
        var hosts := svc.hosts;
        var j := 0;
        while j < |hosts|
          invariant 0 <= j <= |hosts| == |svc.hosts|
          invariant forall y :: 0 <= y < j ==> hosts[y] == ConvertHost(svc.hosts[y])
          invariant forall y :: j <= y < |hosts| ==> hosts[y] == svc.hosts[y]
        {
          var host := hosts[j];
          if host.host == "*" {
            host := host.(host := "");
          }
          hosts := hosts[j := host];
          j := j + 1;
        }
        httpServices := httpServices[i := svc.(hosts := hosts)];
        i := i + 1;
      }
    }

    /** Canonicalises and sorts every list of the template data. */
    method Sort(env: Env)
      modifies this
      ensures SortedFrom(old(Snapshot()), Snapshot(), env)
    {
      if defaultBackend.Some? {
        defaultBackend := Some(env.canonBackend(defaultBackend.value));
      }
      httpServices := SortHTTPServices(httpServices, env);
      ListOrdersWeak(env);
      tcpServices := SortedCopy(tcpServices, TCPLess(env));
      dnsResolvers := SortedCopy(dnsResolvers, DNSLess);
      userLists := CanonUserLists(userLists, env);
      userLists := SortedCopy(userLists, UserListLess);
    }

    /** Puts the ACME challenge path of every port-80 service in a catch-all host of its own, in front. */
    method MoveAcmePathToTop(prefix: string)
      modifies this
      ensures Snapshot() == Promoted(old(Snapshot()), prefix)
    {
      ghost var before := Snapshot();
      var i := 0;
      while i < |httpServices|
        invariant 0 <= i <= |httpServices| == |before.httpServices|
        invariant forall x :: 0 <= x < i ==> httpServices[x] == PromoteAcme(before.httpServices[x], prefix)
        invariant forall x :: i <= x < |httpServices| ==> httpServices[x] == before.httpServices[x]
        invariant Snapshot() == before.(httpServices := httpServices)
      {
        var svc := PromoteAcmeIn(httpServices[i], prefix);
        httpServices := httpServices[i := svc];
        i := i + 1;
      }
    }

    /** Wildcard conversion, then sorting, then ACME promotion. */
    method Canonicalize(env: Env)
      modifies this
      ensures CanonicalFrom(old(Snapshot()), Snapshot(), env)
    {
      ghost var before := Snapshot();
      ConvertWildcardHostToEmpty();
      Sort(env);
      ghost var sorted := Snapshot();
      MoveAcmePathToTop(env.acmePrefix);
      assert SortedFrom(Converted(before), sorted, env) && Snapshot() == Promoted(sorted, env.acmePrefix);
    }

    /**
     * Checks that no frontend name and no backend name is used twice;
     * reports the first reuse met, frontends and backends in the scan order.
     */
    method IsValid() returns (r: Option<string>)
      ensures r.None? <==> Distinct(ScanOrder(Snapshot()))
      ensures r.Some? ==> exists k :: FirstRepeatAt(ScanOrder(Snapshot()), k) && r.value == ReuseMessage(ScanOrder(Snapshot())[k])
    {
      r := Validate(Snapshot());
    }
  }
}

