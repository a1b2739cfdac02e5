/**
 * The watcher of Kubernetes extensions/v1beta1 Ingress objects
 * (pkg/operator/ingresses.go). Each object is converted into a Voyager Ingress
 * before anything is decided about it.
 */
module IngressWatcher {
  import opened Wrappers
  import Kube
  import WorkQueue
  import VoyagerApi
  import opened Handlers

  datatype Env = Env(
    indexer: Kube.Indexer<VoyagerApi.LegacyIngress>,
    rules: VoyagerApi.IngressRules,
    addError: VoyagerApi.Ingress -> Option<string>,   // what AddEngress returns
    maxNumRequeues: nat)

  function KeyOf(obj: VoyagerApi.LegacyIngress): (k: string)
    ensures k == Kube.MetaNamespaceKey(obj.namespace, obj.name)
  {
    Kube.MetaNamespaceKey(obj.namespace, obj.name)
  }

  /** AddFunc: a conversion failure is only logged; otherwise warn if invalid, else enqueue. No class check. */
  function OnAdd(rules: VoyagerApi.IngressRules, obj: VoyagerApi.LegacyIngress): (r: Reaction)
    ensures rules.fromIngress(obj).Err? ==> r == NoReaction
    ensures rules.fromIngress(obj).Ok? ==> r == EnqueueIfValid(rules, rules.fromIngress(obj).value, KeyOf(obj))
  {
    match rules.fromIngress(obj)
    case Err(_) => NoReaction
    case Ok(e) => EnqueueIfValid(rules, e, KeyOf(obj))
  }

  /** UpdateFunc: both objects must convert and differ; then warn about an invalid new one or enqueue it. */
  function OnUpdate(rules: VoyagerApi.IngressRules, oldObj: VoyagerApi.LegacyIngress, newObj: VoyagerApi.LegacyIngress): (r: Reaction)
    ensures rules.fromIngress(oldObj).Err? || rules.fromIngress(newObj).Err? ==> r == NoReaction
    ensures rules.fromIngress(oldObj).Ok? && rules.fromIngress(newObj).Ok? ==>
      var o := rules.fromIngress(oldObj).value; var n := rules.fromIngress(newObj).value;
      (!rules.hasChanged(o, n) ==> r == NoReaction) &&
      (rules.hasChanged(o, n) ==> r == EnqueueIfValid(rules, n, KeyOf(newObj)))
  {
    match rules.fromIngress(oldObj)
    case Err(_) => NoReaction
    case Ok(o) =>
      match rules.fromIngress(newObj)
      case Err(_) => NoReaction
      case Ok(n) =>
        if !rules.hasChanged(o, n) then NoReaction
        else EnqueueIfValid(rules, n, KeyOf(newObj))
  }

  /** DeleteFunc: every deletion, tombstone or not, enqueues its key. */
  function OnDelete(d: Kube.Deleted<VoyagerApi.LegacyIngress>): (r: Reaction)
    ensures r == Reaction(Some(Kube.DeletionKey(d, KeyOf)), [])
  {
    Reaction(Some(Kube.DeletionKey(d, KeyOf)), [])
  }

  /** The add handler enqueues a converted valid object, and warns only about invalidity, never about conversion. */
  lemma OnAddSpec(rules: VoyagerApi.IngressRules, obj: VoyagerApi.LegacyIngress)
    ensures var c := rules.fromIngress(obj); var r := OnAdd(rules, obj);
      (r.enqueue.Some? <==> c.Ok? && rules.validate(c.value).None?) &&
      (|r.events| == (if c.Ok? && rules.validate(c.value).Some? then 1 else 0))
  {
  }

  /**
   * runIngressInjector: a store error or an unsplittable missing key is returned;
   * a missing key deletes a stub; an object that does not convert is given up
   * (nil, so never retried); a handled one is added and Add's error returned; an
   * unhandled one is deleted.
   */
  function Injector(env: Env, key: string): (s: Sync)
  {
    match Kube.GetByKey(env.indexer, key)
    case FetchError(msg) => Sync(NoAction, Some(msg))
    case Missing =>
      (match Kube.SplitMetaNamespaceKey(key)
       case Err(e) => Sync(NoAction, Some(e))
       case Ok((namespace, name)) => Sync(DeleteIngress(Stub(namespace, name)), None))
    case Found(obj) =>
      match env.rules.fromIngress(obj)
      case Err(_) => Sync(NoAction, None)
      case Ok(e) =>
        if env.rules.shouldHandle(e) then Sync(AddIngress(e), env.addError(e))
        else Sync(DeleteIngress(e), None)
  }

  /** For a key in the store: conversion failures and other classes never fail; a handled one fails iff Add does. */
  lemma InjectorFound(env: Env, key: string)
    requires env.indexer.failure.None? && key in env.indexer.items
    ensures var c := env.rules.fromIngress(env.indexer.items[key]);
      var s := Injector(env, key);
      (c.Err? ==> s == Sync(NoAction, None)) &&
      (c.Ok? && env.rules.shouldHandle(c.value) ==> s == Sync(AddIngress(c.value), env.addError(c.value))) &&
      (c.Ok? && !env.rules.shouldHandle(c.value) ==> s == Sync(DeleteIngress(c.value), None))
  {
  }

  /** Hence a key whose object never converts is synced once and forgotten, however often it was requeued. */
  lemma {:induction false} UnconvertibleForgotten(s: WorkQueue.QState, env: Env)
    requires |s.queue| > 0
    requires env.indexer.failure.None? && s.queue[0] in env.indexer.items
    requires env.rules.fromIngress(env.indexer.items[s.queue[0]]).Err?
    ensures WorkQueue.RequeuesOf(WorkQueue.Processed(s, Injector(env, s.queue[0]).err.Some?, env.maxNumRequeues), s.queue[0]) == 0
  {
    InjectorFound(env, s.queue[0]);
  }

  method ProcessNextIngress(q: WorkQueue.RateLimitingQueue, env: Env) returns (more: bool)
    requires |q.queue| > 0 || q.shuttingDown
    modifies q
    ensures !more <==> |old(q.queue)| == 0
    ensures !more ==> q.State() == old(q.State())
    ensures more ==> q.State() == WorkQueue.Processed(old(q.State()), Injector(env, old(q.queue)[0]).err.Some?, env.maxNumRequeues)
  {
    var key;
    more, key := ProcessNext(q, (k: string) => Injector(env, k).err.Some?, env.maxNumRequeues);
  }

  method RunIngressWatcher(q: WorkQueue.RateLimitingQueue, env: Env)
    requires q.shuttingDown
    modifies q
    ensures q.queue == [] && q.shuttingDown
  {
    RunWatcher(q, (k: string) => Injector(env, k).err.Some?, env.maxNumRequeues);
  }
}
