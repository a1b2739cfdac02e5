/**
 * The TLS mounter's secret watcher (pkg/tlsmounter/secret.go): which secrets
 * matter to the one ingress the mounter serves, which events enqueue them, and
 * what syncing a key does short of writing certificate files.
 */
module SecretWatcher {
  import opened Wrappers
  import Kube
  import WorkQueue
  import VoyagerApi
  import Handlers

  datatype Secret = Secret(name: string, namespace: string)

  /**
   * The mounter's surroundings: the namespace of its ingress, what getIngress
   * returns now, the secret store, what mountSecret returns, and the retry limit.
   */
  datatype Env = Env(
    ingressNamespace: string,
    ingress: Result<VoyagerApi.Ingress>,
    indexer: Kube.Indexer<Secret>,
    mountError: Secret -> Option<string>,
    maxNumRequeues: nat)

  /** A TLS entry names the secret: same name, and kind "Secret" or left empty. */
  predicate RefersTo(t: VoyagerApi.TLSRef, secretName: string)
  {
    t.secretName == secretName && (t.kind == "Secret" || t.kind == "")
  }

  /** When the secret is in use: in the ingress's namespace, the ingress is readable, and a TLS entry names it. */
  ghost predicate SecretUsed(env: Env, s: Secret)
  {
    s.namespace == env.ingressNamespace && env.ingress.Ok? &&
    exists i :: 0 <= i < |env.ingress.value.tls| && RefersTo(env.ingress.value.tls[i], s.name)
  }

  /** isSecretUsedInIngress: a search over the ingress's TLS entries. */
  method IsSecretUsedInIngress(env: Env, s: Secret) returns (used: bool)
    ensures used <==> SecretUsed(env, s)
  {
    if s.namespace != env.ingressNamespace {
      return false;
    }
    if env.ingress.Err? {
      return false;
    }
    var tls := env.ingress.value.tls;
    var i := 0;
    while i < |tls|
      invariant 0 <= i <= |tls|
      invariant forall j :: 0 <= j < i ==> !RefersTo(tls[j], s.name)
    {
      if s.name == tls[i].secretName && (tls[i].kind == "Secret" || tls[i].kind == "") {
        return true;
      }
      i := i + 1;
    }
    return false;
  }

  function KeyOf(s: Secret): (k: string)
    ensures k == Kube.MetaNamespaceKey(s.namespace, s.name)
  {
    Kube.MetaNamespaceKey(s.namespace, s.name)
  }

  /** AddFunc (and UpdateFunc on the new object): enqueue a secret the ingress uses. */
  method OnAddOrUpdate(q: WorkQueue.RateLimitingQueue, env: Env, s: Secret)
    modifies q
    ensures q.State() == if SecretUsed(env, s) then WorkQueue.Added(old(q.State()), KeyOf(s)) else old(q.State())
  {
    var used := IsSecretUsedInIngress(env, s);
    if used {
      q.Add(KeyOf(s));
    }
  }

  /** DeleteFunc: every deletion enqueues its key. */
  function OnDelete(d: Kube.Deleted<Secret>): (r: Handlers.Reaction)
    ensures r == Handlers.Reaction(Some(Kube.DeletionKey(d, KeyOf)), [])
  {
    Handlers.Reaction(Some(Kube.DeletionKey(d, KeyOf)), [])
  }

  /** syncSecret: a store error is returned; a missing key is fine; a present secret is mounted. */
  function SyncSecret(env: Env, key: string): (err: Option<string>)
    ensures env.indexer.failure.None? && key !in env.indexer.items ==> err.None?
    ensures env.indexer.failure.Some? ==> err == env.indexer.failure
    ensures env.indexer.failure.None? && key in env.indexer.items ==> err == env.mountError(env.indexer.items[key])
  {
    match Kube.GetByKey(env.indexer, key)
    case FetchError(msg) => Some(msg)
    case Missing => None
    case Found(secret) => env.mountError(secret)
  }

  /** A key whose secret is gone is synced without error, so the round forgets it. */
  lemma {:induction false} MissingSecretForgotten(s: WorkQueue.QState, env: Env)
    requires |s.queue| > 0
    requires env.indexer.failure.None? && s.queue[0] !in env.indexer.items
    ensures WorkQueue.RequeuesOf(WorkQueue.Processed(s, SyncSecret(env, s.queue[0]).Some?, env.maxNumRequeues), s.queue[0]) == 0
    ensures WorkQueue.Processed(s, SyncSecret(env, s.queue[0]).Some?, env.maxNumRequeues) == WorkQueue.Processed(s, false, env.maxNumRequeues)
  {
    assert SyncSecret(env, s.queue[0]).None?;
  }

  method ProcessNextSecret(q: WorkQueue.RateLimitingQueue, env: Env) returns (more: bool)
    requires |q.queue| > 0 || q.shuttingDown
    modifies q
    ensures !more <==> |old(q.queue)| == 0
    ensures !more ==> q.State() == old(q.State())
    ensures more ==> q.State() == WorkQueue.Processed(old(q.State()), SyncSecret(env, old(q.queue)[0]).Some?, env.maxNumRequeues)
  {
    var key;
    more, key := Handlers.ProcessNext(q, (k: string) => SyncSecret(env, k).Some?, env.maxNumRequeues);
  }

  method RunSecretWatcher(q: WorkQueue.RateLimitingQueue, env: Env)
    requires q.shuttingDown
    modifies q
    ensures q.queue == [] && q.shuttingDown
  {
    Handlers.RunWatcher(q, (k: string) => SyncSecret(env, k).Some?, env.maxNumRequeues);
  }

  /** What getSecret answers. */
  datatype SecretLookup = SecretFound(secret: Secret) | NotFound(name: string) | StoreFailed(msg: string)

  /** The key getSecret looks up: always `namespace/name`, even for an empty namespace. */
  function SecretKey(namespace: string, name: string): (k: string)
    ensures |k| == |namespace| + 1 + |name| && k[|namespace|] == '/'
    ensures k[..|namespace|] == namespace && k[|namespace| + 1..] == name
  {
    namespace + "/" + name
  }

  /** getSecret: the secret of that name in the ingress's namespace, or NotFound. */
  function GetSecret(env: Env, name: string): (r: SecretLookup)
    ensures r.NotFound? <==> env.indexer.failure.None? && SecretKey(env.ingressNamespace, name) !in env.indexer.items
    ensures r.NotFound? ==> r.name == name
    ensures r.SecretFound? <==> env.indexer.failure.None? && SecretKey(env.ingressNamespace, name) in env.indexer.items
    ensures r.SecretFound? ==> r.secret == env.indexer.items[SecretKey(env.ingressNamespace, name)]
  {
    match Kube.GetByKey(env.indexer, SecretKey(env.ingressNamespace, name))
    case FetchError(msg) => StoreFailed(msg)
    case Missing => NotFound(name)
    case Found(s) => SecretFound(s)
  }

  /** In a namespace, getSecret's key is the informer's key for the secret, so it finds what the store holds. */
  lemma GetSecretFindsStored(env: Env, s: Secret)
    requires env.ingressNamespace != "" && s.namespace == env.ingressNamespace
    requires env.indexer.failure.None? && KeyOf(s) in env.indexer.items
    ensures GetSecret(env, s.name) == SecretFound(env.indexer.items[KeyOf(s)])
  {
  }
}
