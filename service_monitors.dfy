/**
 * The ServiceMonitor watcher (pkg/operator/servicemonitors.go): when a
 * ServiceMonitor the operator created is deleted, the ingress whose stats
 * service it watched is requeued so that its controller makes a new one.
 */
module ServiceMonitors {
  import opened Wrappers
  import Kube
  import WorkQueue
  import VoyagerApi

  datatype ServiceMonitor = ServiceMonitor(name: string, namespace: string)

  /** The store of ServiceMonitors, what listIngresses returns, and the ingress rules. */
  datatype Env = Env(
    monitors: Kube.Indexer<ServiceMonitor>,
    listed: Result<seq<VoyagerApi.Ingress>>,
    rules: VoyagerApi.IngressRules)

  /** The ingress restoreServiceMonitor looks for: live, handled, in `ns`, with stats service `name`. */
  predicate Owns(rules: VoyagerApi.IngressRules, ing: VoyagerApi.Ingress, name: string, ns: string)
  {
    !ing.deleting && rules.shouldHandle(ing) && ing.namespace == ns && VoyagerApi.StatsServiceName(ing) == name
  }

  /** The first owning ingress in list order, if any. */
  function FirstOwner(rules: VoyagerApi.IngressRules, items: seq<VoyagerApi.Ingress>, name: string, ns: string): (r: Option<nat>)
    ensures r.Some? ==> r.value < |items| && Owns(rules, items[r.value], name, ns)
    ensures r.Some? ==> forall j :: 0 <= j < r.value ==> !Owns(rules, items[j], name, ns)
    ensures r.None? ==> forall j :: 0 <= j < |items| ==> !Owns(rules, items[j], name, ns)
    decreases |items|
  {
    if |items| == 0 then None
    else if Owns(rules, items[0], name, ns) then Some(0)
    else match FirstOwner(rules, items[1..], name, ns)
      case Some(i) => Some(i + 1)
      case None => None
  }

  /** The whole queue state after restoreServiceMonitor: at most the first owner's key added. */
  function Restored(s: WorkQueue.QState, items: seq<VoyagerApi.Ingress>, rules: VoyagerApi.IngressRules, name: string, ns: string): WorkQueue.QState
  {
    match FirstOwner(rules, items, name, ns)
    case Some(i) => WorkQueue.Added(s, Kube.MetaNamespaceKey(items[i].namespace, items[i].name))
    case None => s
  }

  /**
   * restoreServiceMonitor: a list error is returned; otherwise the first owning
   * ingress is requeued on the ingress queue and the search stops.
   */
  method RestoreServiceMonitor(engQueue: WorkQueue.RateLimitingQueue, env: Env, name: string, ns: string) returns (err: Option<string>)
    modifies engQueue
    ensures env.listed.Err? ==> err == Some(env.listed.msg) && engQueue.State() == old(engQueue.State())
    ensures env.listed.Ok? ==> err.None? && engQueue.State() == Restored(old(engQueue.State()), env.listed.value, env.rules, name, ns)
  {
    if env.listed.Err? {
      return Some(env.listed.msg);
    }
    var items := env.listed.value;
    var i := 0;
    while i < |items|
      invariant 0 <= i <= |items|
      invariant forall j :: 0 <= j < i ==> !Owns(env.rules, items[j], name, ns)
      invariant engQueue.State() == old(engQueue.State())
    {
      var ing := items[i];
      if !ing.deleting && env.rules.shouldHandle(ing) && ing.namespace == ns && VoyagerApi.StatsServiceName(ing) == name {
        engQueue.Add(Kube.MetaNamespaceKey(ing.namespace, ing.name));
        break;
      }
      i := i + 1;
    }
    return None;
  }

  /** Only the ingress named by the stats service can own it: its name is the service's name without the affixes. */
  lemma OwnerNamedByService(rules: VoyagerApi.IngressRules, ing: VoyagerApi.Ingress, name: string, ns: string)
    requires Owns(rules, ing, name, ns)
    ensures |name| >= |VoyagerApi.VoyagerPrefix| + 6
    ensures ing.name == name[|VoyagerApi.VoyagerPrefix|..|name| - 6]
  {
    assert name == VoyagerApi.VoyagerPrefix + ing.name + "-stats";
  }

  /** So the requeued key is the same whichever owner comes first: all owners share namespace and name. */
  lemma {:induction false} RestoredKeyDetermined(rules: VoyagerApi.IngressRules, items: seq<VoyagerApi.Ingress>, name: string, ns: string, k: nat)
    requires k < |items| && Owns(rules, items[k], name, ns)
    ensures FirstOwner(rules, items, name, ns).Some?
    ensures var i := FirstOwner(rules, items, name, ns).value;
      Kube.MetaNamespaceKey(items[i].namespace, items[i].name) == Kube.MetaNamespaceKey(ns, items[k].name)
  {
    var i := FirstOwner(rules, items, name, ns).value;
    OwnerNamedByService(rules, items[i], name, ns);
    OwnerNamedByService(rules, items[k], name, ns);
  }

  /**
   * reconcileServiceMonitor: nothing while the ServiceMonitor exists; after it is
   * gone, restore with the namespace and name split from its key.
   */
  method ReconcileServiceMonitor(engQueue: WorkQueue.RateLimitingQueue, env: Env, key: string) returns (err: Option<string>)
    modifies engQueue
    ensures env.monitors.failure.Some? ==> err == env.monitors.failure && engQueue.State() == old(engQueue.State())
    ensures Kube.GetByKey(env.monitors, key).Found? ==> err.None? && engQueue.State() == old(engQueue.State())
    ensures Kube.GetByKey(env.monitors, key).Missing? ==>
      match Kube.SplitMetaNamespaceKey(key)
      case Err(e) => err == Some(e) && engQueue.State() == old(engQueue.State())
      case Ok((ns, name)) =>
        (env.listed.Err? ==> err == Some(env.listed.msg) && engQueue.State() == old(engQueue.State())) &&
        (env.listed.Ok? ==> err.None? && engQueue.State() == Restored(old(engQueue.State()), env.listed.value, env.rules, name, ns))
  {
    var fetched := Kube.GetByKey(env.monitors, key);
    if fetched.FetchError? {
      return Some(fetched.msg);
    }
    if fetched.Missing? {
      var split := Kube.SplitMetaNamespaceKey(key);
      if split.Err? {
        return Some(split.msg);
      }
      var (ns, name) := split.value;
      err := RestoreServiceMonitor(engQueue, env, name, ns);
      return err;
    }
    return None;
  }

  /** A restore adds at most one key to the ingress queue. */
  lemma RestoreAddsAtMostOne(s: WorkQueue.QState, items: seq<VoyagerApi.Ingress>, rules: VoyagerApi.IngressRules, name: string, ns: string)
    ensures var r := Restored(s, items, rules, name, ns);
      |s.queue| <= |r.queue| <= |s.queue| + 1 && s.queue <= r.queue
  {
  }
}
