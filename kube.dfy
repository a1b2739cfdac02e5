/**
 * The client-go pieces the controllers lean on: the `namespace/name` keys of
 * the informer caches, a cache lookup, delete notifications that may carry a
 * tombstone, and the warning events the operator records.
 */
module Kube {
  import opened Wrappers
  import Strs

  /** cache.MetaNamespaceKeyFunc: `namespace/name`, or just `name` outside a namespace. */
  function MetaNamespaceKey(namespace: string, name: string): (r: string)
    ensures namespace == "" ==> r == name
    ensures namespace != "" ==> r == namespace + "/" + name
  {
    if |namespace| > 0 then namespace + "/" + name else name
  }

  /** cache.SplitMetaNamespaceKey: one piece is a name, two are namespace and name, more is an error. */
  function SplitMetaNamespaceKey(key: string): (r: Result<(string, string)>)
  {
    var parts := Strs.Split(key, '/');
    if |parts| == 1 then Ok(("", parts[0]))
    else if |parts| == 2 then Ok((parts[0], parts[1]))
    else Err("unexpected key format: \"" + key + "\"")
  }

  /** A key splits without error exactly when it holds at most one `/`. */
  lemma SplitKeyOk(key: string)
    ensures SplitMetaNamespaceKey(key).Ok? <==> Strs.Count(key, '/') <= 1
  {
    Strs.SplitCount(key, '/');
  }

  /** Splitting the key of an object whose namespace and name hold no `/` gives them back. */
  lemma SplitMetaNamespaceKeyRoundTrip(namespace: string, name: string)
    requires '/' !in namespace && '/' !in name
    ensures SplitMetaNamespaceKey(MetaNamespaceKey(namespace, name)) == Ok((namespace, name))
  {
    if namespace == "" {
      Strs.SplitJoin([name], '/');
    } else {
      Strs.SplitJoin([namespace, name], '/');
      assert Strs.Join([namespace, name], "/") == namespace + "/" + name;
    }
  }

  /** Conversely, a key that splits into a non-empty namespace is that namespace's key. */
  lemma MetaNamespaceKeyOfSplit(key: string, namespace: string, name: string)
    requires SplitMetaNamespaceKey(key) == Ok((namespace, name))
    ensures namespace != "" ==> MetaNamespaceKey(namespace, name) == key
    ensures namespace == "" && '/' !in key ==> MetaNamespaceKey(namespace, name) == key
  {
    var parts := Strs.Split(key, '/');
    Strs.JoinSplit(key, '/');
    if |parts| == 2 {
      assert Strs.Join(parts, "/") == parts[0] + "/" + parts[1];
    }
  }

  /** A key with an empty namespace part, such as "/x", does not come back from its pieces. */
  lemma EmptyNamespaceKeyNotRestored()
    ensures SplitMetaNamespaceKey("/x") == Ok(("", "x"))
    ensures MetaNamespaceKey("", "x") != "/x"
  {
    Strs.SplitJoin(["", "x"], '/');
    assert Strs.Join(["", "x"], "/") == "/x";
  }

  /** What a cache lookup by key returns: the object, its absence, or a store error. */
  datatype Fetch<T> = Found(obj: T) | Missing | FetchError(msg: string)

  /** An informer's indexer: its objects by key, or the error every lookup fails with. */
  datatype Indexer<T> = Indexer(items: map<string, T>, failure: Option<string>)

  /** Indexer.GetByKey */
  function GetByKey<T>(ix: Indexer<T>, key: string): (r: Fetch<T>)
    ensures r.Found? <==> ix.failure.None? && key in ix.items
    ensures r.Found? ==> r.obj == ix.items[key]
    ensures r.Missing? <==> ix.failure.None? && key !in ix.items
  {
    if ix.failure.Some? then FetchError(ix.failure.value)
    else if key in ix.items then Found(ix.items[key])
    else Missing
  }

  /**
   * What a delete handler is given: the last state of the object, or a
   * cache.DeletedFinalStateUnknown tombstone holding its key when the watch
   * missed the deletion.
   */
  datatype Deleted<T> = Final(obj: T) | Tombstone(key: string, stale: T)

  /** cache.DeletionHandlingMetaNamespaceKeyFunc: a tombstone's own key, otherwise the object's key. */
  function DeletionKey<T>(d: Deleted<T>, keyOf: T -> string): (r: string)
    ensures d.Tombstone? ==> r == d.key
    ensures d.Final? ==> r == keyOf(d.obj)
  {
    match d
    case Final(o) => keyOf(o)
    case Tombstone(k, _) => k
  }

  /** The only event reason the core records: an ingress failed validation. */
  datatype EventReason = IngressInvalid

  /** A warning event on an object, as recorder.Eventf writes it. */
  datatype Event = Warning(reason: EventReason, objNamespace: string, objName: string, message: string)

  /** The warning the operator records for an invalid ingress. */
  function InvalidEvent(namespace: string, name: string, err: string): (e: Event)
    ensures e.reason == IngressInvalid && e.objNamespace == namespace && e.objName == name
    ensures e.message == "Reason: " + err
  {
    Warning(IngressInvalid, namespace, name, "Reason: " + err)
  }
}
