/**
 * What the informer event handlers and sync functions of the watchers have in
 * common: a handler's reaction (the key it adds to the queue, if any, and the
 * warning events it records), the injector's verdict on a key, and one worker
 * round of the shared retry policy.
 */
module Handlers {
  import opened Wrappers
  import Kube
  import WorkQueue
  import VoyagerApi

  /** What one event handler call does: add a key, record warnings, both, or neither. */
  datatype Reaction = Reaction(enqueue: Option<string>, events: seq<Kube.Event>)

  const NoReaction := Reaction(None, [])

  /**
   * The reaction to an object the handler means to enqueue under `key`: one warning
   * and no key when IsValid rejects it, the key otherwise.
   */
  function EnqueueIfValid(rules: VoyagerApi.IngressRules, ing: VoyagerApi.Ingress, key: string): (r: Reaction)
    ensures r.enqueue.Some? <==> rules.validate(ing).None?
    ensures r.enqueue.Some? ==> r.enqueue.value == key && r.events == []
    ensures r.enqueue.None? ==> r.events == [Kube.InvalidEvent(ing.namespace, ing.name, rules.validate(ing).value)]
  {
    match rules.validate(ing)
    case Some(err) => Reaction(None, [Kube.InvalidEvent(ing.namespace, ing.name, err)])
    case None => Reaction(Some(key), [])
  }

  /** Carries out a reaction on the queue; the events are handed back for the recorder. */
  method React(q: WorkQueue.RateLimitingQueue, r: Reaction) returns (events: seq<Kube.Event>)
    modifies q
    ensures events == r.events
    ensures q.State() == if r.enqueue.Some? then WorkQueue.Added(old(q.State()), r.enqueue.value) else old(q.State())
  {
    WorkQueue.AddIfAny(q, r.enqueue);
    events := r.events;
  }

  /** What an injector does with the ingress of a key. */
  datatype Action = NoAction | AddIngress(ing: VoyagerApi.Ingress) | DeleteIngress(ing: VoyagerApi.Ingress)

  /** An injector's verdict: the action taken and the error it returns, which decides the retry. */
  datatype Sync = Sync(action: Action, err: Option<string>)

  /** The stand-in object the injectors delete when a key has left the store. */
  function Stub(namespace: string, name: string): (ing: VoyagerApi.Ingress)
    ensures ing.namespace == namespace && ing.name == name
    ensures ing.annotations == map[] && ing.tls == [] && !ing.deleting
  {
    VoyagerApi.Ingress(name, namespace, map[], [], false)
  }

  /**
   * One worker round (processNextEngress, processNextIngress, processNextSecret):
   * Get; on quit nothing else; otherwise sync the key, apply the retry policy, Done.
   * `failed` says whether the sync of the key returns an error.
   */
  method ProcessNext(q: WorkQueue.RateLimitingQueue, failed: string -> bool, max: nat) returns (more: bool, key: string)
    requires |q.queue| > 0 || q.shuttingDown
    modifies q
    ensures !more <==> |old(q.queue)| == 0
    ensures !more ==> q.State() == old(q.State())
    ensures more ==> key == old(q.queue)[0] &&
                     q.State() == WorkQueue.Processed(old(q.State()), failed(key), max)
  {
    var quit;
    key, quit := q.Get();
    if quit {
      return false, key;
    }
    var _ := WorkQueue.FinishSync(q, key, failed(key), max);
    q.Done(key);
    return true, key;
  }

  /** Once the queue shuts down, each round only takes a key off: nothing is added back. */
  lemma ShutDownRoundShrinks(s: WorkQueue.QState, failed: bool, max: nat)
    requires |s.queue| > 0 && s.shuttingDown
    ensures WorkQueue.Processed(s, failed, max).queue == s.queue[1..]
    ensures WorkQueue.Processed(s, failed, max).shuttingDown
  {
  }

  /**
   * runEngressWatcher, runIngressWatcher, runSecretWatcher: process keys until
   * Get reports quit. Get blocks on an empty live queue, so the loop ends only after
   * ShutDown; from then on it works off the keys still waiting and returns.
   */
  method RunWatcher(q: WorkQueue.RateLimitingQueue, failed: string -> bool, max: nat)
    requires q.shuttingDown
    modifies q
    ensures q.queue == [] && q.shuttingDown
  {
    var more := true;
    while more
      invariant q.shuttingDown
      invariant !more ==> q.queue == []
      decreases |q.queue| + (if more then 1 else 0)
    {
      ghost var before := q.State();
      var key;
      more, key := ProcessNext(q, failed, max);
      if more {
        ShutDownRoundShrinks(before, failed(before.queue[0]), max);
      }
    }
  }
}
