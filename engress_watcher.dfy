/**
 * The watcher of Voyager's own Ingress objects (pkg/operator/ingress_crds.go):
 * which informer events enqueue a key, what a worker does with a key it takes,
 * and how a failure is retried.
 */
module EngressWatcher {
  import opened Wrappers
  import Kube
  import WorkQueue
  import VoyagerApi
  import opened Handlers

  /** The informer's store and the operator's view of ingresses. */
  datatype Env = Env(
    indexer: Kube.Indexer<VoyagerApi.Ingress>,
    rules: VoyagerApi.IngressRules,
    maxNumRequeues: nat)

  function KeyOf(ing: VoyagerApi.Ingress): (k: string)
    ensures k == Kube.MetaNamespaceKey(ing.namespace, ing.name)
  {
    Kube.MetaNamespaceKey(ing.namespace, ing.name)
  }

  /** AddFunc: skip another class's ingress; warn about an invalid one; enqueue the rest. */
  function OnAdd(rules: VoyagerApi.IngressRules, obj: VoyagerApi.Ingress): (r: Reaction)
    ensures var e := rules.migrate(obj);
      (!rules.shouldHandle(e) ==> r == NoReaction) &&
      (rules.shouldHandle(e) ==> r == EnqueueIfValid(rules, e, KeyOf(e)))
  {
    var e := rules.migrate(obj);
    if !rules.shouldHandle(e) then NoReaction
    else EnqueueIfValid(rules, e, KeyOf(e))
  }

  /** UpdateFunc: nothing unless HasChanged; then warn about an invalid new object or enqueue it. No class check. */
  function OnUpdate(rules: VoyagerApi.IngressRules, oldObj: VoyagerApi.Ingress, newObj: VoyagerApi.Ingress): (r: Reaction)
    ensures var o := rules.migrate(oldObj); var n := rules.migrate(newObj);
      (!rules.hasChanged(o, n) ==> r == NoReaction) &&
      (rules.hasChanged(o, n) ==> r == EnqueueIfValid(rules, n, KeyOf(n)))
  {
    var o := rules.migrate(oldObj);
    var n := rules.migrate(newObj);
    if !rules.hasChanged(o, n) then NoReaction
    else EnqueueIfValid(rules, n, KeyOf(n))
  }

  /**
   * DeleteFunc: only a notification that carries the Ingress itself is looked at
   * (a tombstone fails the type assertion); it is enqueued when its class is
   * handled, valid or not.
   */
  function OnDelete(rules: VoyagerApi.IngressRules, d: Kube.Deleted<VoyagerApi.Ingress>): (r: Reaction)
    ensures r.events == []
    ensures r.enqueue.Some? <==> d.Final? && rules.shouldHandle(rules.migrate(d.obj))
    ensures r.enqueue.Some? ==> r.enqueue.value == Kube.DeletionKey(d, (i: VoyagerApi.Ingress) => KeyOf(rules.migrate(i)))
  {
    match d
    case Tombstone(_, _) => NoReaction
    case Final(obj) =>
      var e := rules.migrate(obj);
      if !rules.shouldHandle(e) then NoReaction else Reaction(Some(KeyOf(e)), [])
  }

  /** The add handler enqueues exactly the handled, valid ingresses, and warns once about each handled invalid one. */
  lemma OnAddSpec(rules: VoyagerApi.IngressRules, obj: VoyagerApi.Ingress)
    ensures var e := rules.migrate(obj); var r := OnAdd(rules, obj);
      (r.enqueue.Some? <==> rules.shouldHandle(e) && rules.validate(e).None?) &&
      (r.enqueue.Some? ==> r.enqueue.value == KeyOf(e)) &&
      (|r.events| == (if rules.shouldHandle(e) && rules.validate(e).Some? then 1 else 0)) &&
      (r.enqueue.Some? ==> r.events == [])
  {
  }

  /** An unchanged update does nothing; a changed invalid one only warns. */
  lemma OnUpdateSpec(rules: VoyagerApi.IngressRules, oldObj: VoyagerApi.Ingress, newObj: VoyagerApi.Ingress)
    ensures var o := rules.migrate(oldObj); var n := rules.migrate(newObj); var r := OnUpdate(rules, oldObj, newObj);
      (r.enqueue.Some? <==> rules.hasChanged(o, n) && rules.validate(n).None?) &&
      (|r.events| == (if rules.hasChanged(o, n) && rules.validate(n).Some? then 1 else 0))
  {
  }

  /**
   * runEngressInjector: a store error is returned; a missing key deletes a stub
   * named by the key (a key that does not split is returned as the error); a
   * present key adds the migrated ingress. What Create and Delete do is not
   * returned, so they never cause a retry.
   */
  function Injector(env: Env, key: string): (s: Sync)
  {
    match Kube.GetByKey(env.indexer, key)
    case FetchError(msg) => Sync(NoAction, Some(msg))
    case Missing =>
      (match Kube.SplitMetaNamespaceKey(key)
       case Err(e) => Sync(NoAction, Some(e))
       case Ok((namespace, name)) => Sync(DeleteIngress(Stub(namespace, name)), None))
    case Found(obj) => Sync(AddIngress(env.rules.migrate(obj)), None)
  }

  /** The injector fails only on a store error or a missing key with more than one `/`. */
  lemma InjectorErrors(env: Env, key: string)
    ensures Injector(env, key).err.Some? <==>
      env.indexer.failure.Some? || (key !in env.indexer.items && Kube.SplitMetaNamespaceKey(key).Err?)
    ensures env.indexer.failure.None? && key in env.indexer.items ==>
      Injector(env, key) == Sync(AddIngress(env.rules.migrate(env.indexer.items[key])), None)
  {
  }

  /** A deleted ingress's stub carries the namespace and name its key was made from. */
  lemma {:induction false} InjectorDeletesStub(env: Env, namespace: string, name: string)
    requires '/' !in namespace && '/' !in name
    requires env.indexer.failure.None? && Kube.MetaNamespaceKey(namespace, name) !in env.indexer.items
    ensures Injector(env, Kube.MetaNamespaceKey(namespace, name)) == Sync(DeleteIngress(Stub(namespace, name)), None)
  {
    Kube.SplitMetaNamespaceKeyRoundTrip(namespace, name);
  }

  /** processNextEngress: one worker round over the key the queue hands out. */
  method ProcessNextEngress(q: WorkQueue.RateLimitingQueue, env: Env) returns (more: bool)
    requires |q.queue| > 0 || q.shuttingDown
    modifies q
    ensures !more <==> |old(q.queue)| == 0
    ensures !more ==> q.State() == old(q.State())
    ensures more ==> q.State() == WorkQueue.Processed(old(q.State()), Injector(env, old(q.queue)[0]).err.Some?, env.maxNumRequeues)
  {
    var key;
    more, key := ProcessNext(q, (k: string) => Injector(env, k).err.Some?, env.maxNumRequeues);
  }

  /** runEngressWatcher, once the queue is shut down. */
  method RunEngressWatcher(q: WorkQueue.RateLimitingQueue, env: Env)
    requires q.shuttingDown
    modifies q
    ensures q.queue == [] && q.shuttingDown
  {
    RunWatcher(q, (k: string) => Injector(env, k).err.Some?, env.maxNumRequeues);
  }
}
