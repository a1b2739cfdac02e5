/**
 * The operator's start-up check (pkg/operator/validator.go): every Kubernetes
 * Ingress and every Voyager Ingress in the watched namespace is checked, each
 * handled invalid one gets a warning event, and the whole check fails when any
 * is invalid.
 */
module Validator {
  import opened Wrappers
  import Strs
  import Kube
  import VoyagerApi

  /** The two listings the check reads, each of which can fail. */
  datatype Env = Env(
    legacy: Result<seq<VoyagerApi.LegacyIngress>>,
    crds: Result<seq<VoyagerApi.Ingress>>,
    rules: VoyagerApi.IngressRules)

  /** An ingress the check reports: handled by this operator and rejected by IsValid. */
  predicate Flagged(rules: VoyagerApi.IngressRules, e: VoyagerApi.Ingress)
  {
    rules.shouldHandle(e) && rules.validate(e).Some?
  }

  /** How a reported ingress is named in the error: `name@namespace`. */
  function Entry(e: VoyagerApi.Ingress): (s: string)
    ensures |s| == |e.name| + 1 + |e.namespace| && s[|e.name|] == '@'
    ensures s[..|e.name|] == e.name && s[|e.name| + 1..] == e.namespace
  {
    e.name + "@" + e.namespace
  }

  /** The entries of the flagged ingresses, in list order. */
  function Reports(rules: VoyagerApi.IngressRules, es: seq<VoyagerApi.Ingress>): seq<string>
    decreases |es|
  {
    if |es| == 0 then []
    else Reports(rules, es[..|es| - 1]) + (if Flagged(rules, es[|es| - 1]) then [Entry(es[|es| - 1])] else [])
  }

  /** The warning events recorded for the flagged ingresses, in list order. */
  function Warnings(rules: VoyagerApi.IngressRules, es: seq<VoyagerApi.Ingress>): seq<Kube.Event>
    decreases |es|
  {
    if |es| == 0 then []
    else
      var e := es[|es| - 1];
      Warnings(rules, es[..|es| - 1]) +
        (if Flagged(rules, e) then [Kube.InvalidEvent(e.namespace, e.name, rules.validate(e).value)] else [])
  }

  /**
   * The conversion of the Kubernetes Ingresses: the converted objects before the
   * first that fails, and that failure's error.
   */
  function ConvertLegacy(rules: VoyagerApi.IngressRules, items: seq<VoyagerApi.LegacyIngress>): (seq<VoyagerApi.Ingress>, Option<string>)
    decreases |items|
  {
    if |items| == 0 then ([], None)
    else
      var (es, failure) := ConvertLegacy(rules, items[..|items| - 1]);
      if failure.Some? then (es, failure)
      else match rules.fromIngress(items[|items| - 1])
        case Err(e) => (es, Some(e))
        case Ok(x) => (es + [x], None)
  }

  /** The Voyager Ingresses after Migrate. */
  function Migrated(rules: VoyagerApi.IngressRules, es: seq<VoyagerApi.Ingress>): (r: seq<VoyagerApi.Ingress>)
    ensures |r| == |es| && forall i :: 0 <= i < |es| ==> r[i] == rules.migrate(es[i])
  {
    seq(|es|, i requires 0 <= i < |es| => rules.migrate(es[i]))
  }

  const InvalidMessage := "one or more Ingress objects are invalid: "

  /** The error for a non-empty report list. */
  function Failure(reports: seq<string>): string
  {
    InvalidMessage + Strs.Join(reports, ", ")
  }

  /** What the check returns and which events it records, in that order. */
  function Validation(env: Env): (Option<string>, seq<Kube.Event>)
  {
    if env.legacy.Err? then (Some(env.legacy.msg), [])
    else
      var (converted, failure) := ConvertLegacy(env.rules, env.legacy.value);
      if failure.Some? then (failure, Warnings(env.rules, converted))
      else if env.crds.Err? then (Some(env.crds.msg), Warnings(env.rules, converted))
      else
        var all := converted + Migrated(env.rules, env.crds.value);
        var reports := Reports(env.rules, all);
        (if |reports| == 0 then None else Some(Failure(reports)), Warnings(env.rules, all))
  }

  /** ValidateIngress, with its two loops; a listing or conversion error ends the check at once. */
  method ValidateIngress(env: Env) returns (err: Option<string>, events: seq<Kube.Event>)
    ensures (err, events) == Validation(env)
  {
    events := [];
    var invalidIngresses: seq<string> := [];
    if env.legacy.Err? {
      return Some(env.legacy.msg), events;
    }
    var items := env.legacy.value;
    for i := 0 to |items|
      invariant ConvertLegacy(env.rules, items[..i]).1.None?
      invariant invalidIngresses == Reports(env.rules, ConvertLegacy(env.rules, items[..i]).0)
      invariant events == Warnings(env.rules, ConvertLegacy(env.rules, items[..i]).0)
    {
      ConvertLegacyStep(env.rules, items, i);
      var engress := env.rules.fromIngress(items[i]);
      if engress.Err? {
        ConvertLegacyStops(env.rules, items, i + 1);
        return Some(engress.msg), events;
      }
      ReportsSnoc(env.rules, ConvertLegacy(env.rules, items[..i]).0, engress.value);
      if env.rules.shouldHandle(engress.value) {
        var invalid := env.rules.validate(engress.value);
        if invalid.Some? {
          events := events + [Kube.InvalidEvent(engress.value.namespace, engress.value.name, invalid.value)];
          invalidIngresses := invalidIngresses + [engress.value.name + "@" + engress.value.namespace];
        }
      }
    }
    assert items[..|items|] == items;
    var converted := ConvertLegacy(env.rules, items).0;

    if env.crds.Err? {
      return Some(env.crds.msg), events;
    }
    var engresses := env.crds.value;
    assert converted + Migrated(env.rules, engresses[..0]) == converted;
    for j := 0 to |engresses|
      invariant invalidIngresses == Reports(env.rules, converted + Migrated(env.rules, engresses[..j]))
      invariant events == Warnings(env.rules, converted + Migrated(env.rules, engresses[..j]))
    {
      var ing := env.rules.migrate(engresses[j]);
      MigratedSnoc(env.rules, converted, engresses, j);
      ReportsSnoc(env.rules, converted + Migrated(env.rules, engresses[..j]), ing);
      if env.rules.shouldHandle(ing) {
        var invalid := env.rules.validate(ing);
        if invalid.Some? {
          events := events + [Kube.InvalidEvent(ing.namespace, ing.name, invalid.value)];
          invalidIngresses := invalidIngresses + [ing.name + "@" + ing.namespace];
        }
      }
    }
    assert engresses[..|engresses|] == engresses;

    if |invalidIngresses| > 0 {
      return Some(Failure(invalidIngresses)), events;
    }
    return None, events;
  }

  /** One more item: a failure is recorded, a success appended. */
  lemma ConvertLegacyStep(rules: VoyagerApi.IngressRules, items: seq<VoyagerApi.LegacyIngress>, i: nat)
    requires i < |items| && ConvertLegacy(rules, items[..i]).1.None?
    ensures var es := ConvertLegacy(rules, items[..i]).0;
      match rules.fromIngress(items[i])
      case Err(e) => ConvertLegacy(rules, items[..i + 1]) == (es, Some(e))
      case Ok(x) => ConvertLegacy(rules, items[..i + 1]) == (es + [x], None)
  {
    assert items[..i + 1][..i] == items[..i];
  }

  /** Appending one ingress to the list appends at most its report and its warning. */
  lemma ReportsSnoc(rules: VoyagerApi.IngressRules, es: seq<VoyagerApi.Ingress>, e: VoyagerApi.Ingress)
    ensures Reports(rules, es + [e]) == Reports(rules, es) + (if Flagged(rules, e) then [Entry(e)] else [])
    ensures Warnings(rules, es + [e]) ==
      Warnings(rules, es) + (if Flagged(rules, e) then [Kube.InvalidEvent(e.namespace, e.name, rules.validate(e).value)] else [])
  {
    assert (es + [e])[..|es|] == es;
  }

  lemma MigratedSnoc(rules: VoyagerApi.IngressRules, front: seq<VoyagerApi.Ingress>, es: seq<VoyagerApi.Ingress>, j: nat)
    requires j < |es|
    ensures front + Migrated(rules, es[..j + 1]) == front + Migrated(rules, es[..j]) + [rules.migrate(es[j])]
  {
  }

  /** Once a conversion has failed, later items change neither the converted prefix nor the error. */
  lemma {:induction false} ConvertLegacyStops(rules: VoyagerApi.IngressRules, items: seq<VoyagerApi.LegacyIngress>, k: nat)
    requires k <= |items| && ConvertLegacy(rules, items[..k]).1.Some?
    ensures ConvertLegacy(rules, items) == ConvertLegacy(rules, items[..k])
    decreases |items| - k
  {
    if k < |items| {
      assert items[..k + 1][..k] == items[..k];
      ConvertLegacyStops(rules, items, k + 1);
    } else {
      assert items[..k] == items;
    }
  }

  /** The report list is empty exactly when no ingress in the list is flagged. */
  lemma {:induction false} ReportsEmptyIff(rules: VoyagerApi.IngressRules, es: seq<VoyagerApi.Ingress>)
    ensures |Reports(rules, es)| == 0 <==> forall i :: 0 <= i < |es| ==> !Flagged(rules, es[i])
    decreases |es|
  {
    if |es| > 0 {
      ReportsEmptyIff(rules, es[..|es| - 1]);
      var init := es[..|es| - 1];
      assert forall i :: 0 <= i < |init| ==> init[i] == es[i];
    }
  }

  /** One warning event per reported ingress, naming the same object. */
  lemma {:induction false} WarningsMatchReports(rules: VoyagerApi.IngressRules, es: seq<VoyagerApi.Ingress>)
    ensures |Warnings(rules, es)| == |Reports(rules, es)|
    ensures forall i :: 0 <= i < |Reports(rules, es)| ==>
      Reports(rules, es)[i] == Warnings(rules, es)[i].objName + "@" + Warnings(rules, es)[i].objNamespace
    decreases |es|
  {
    if |es| > 0 {
      WarningsMatchReports(rules, es[..|es| - 1]);
    }
  }

  /** Reports of a concatenation: the first list's reports, then the second's. */
  lemma {:induction false} ReportsAppend(rules: VoyagerApi.IngressRules, a: seq<VoyagerApi.Ingress>, b: seq<VoyagerApi.Ingress>)
    ensures Reports(rules, a + b) == Reports(rules, a) + Reports(rules, b)
    decreases |b|
  {
    if |b| == 0 {
      assert a + b == a;
    } else {
      var b' := b[..|b| - 1];
      assert (a + b)[..|a + b| - 1] == a + b';
      ReportsAppend(rules, a, b');
    }
  }

  /**
   * The check passes exactly when both listings succeed, every Kubernetes Ingress
   * converts, and no handled ingress of either kind is invalid.
   */
  lemma {:induction false} ValidationPassesIff(env: Env)
    ensures Validation(env).0.None? <==>
      env.legacy.Ok? && ConvertLegacy(env.rules, env.legacy.value).1.None? && env.crds.Ok? &&
      (forall i :: 0 <= i < |ConvertLegacy(env.rules, env.legacy.value).0| ==> !Flagged(env.rules, ConvertLegacy(env.rules, env.legacy.value).0[i])) &&
      (forall i :: 0 <= i < |env.crds.value| ==> !Flagged(env.rules, env.rules.migrate(env.crds.value[i])))
  {
    if env.legacy.Ok? && ConvertLegacy(env.rules, env.legacy.value).1.None? && env.crds.Ok? {
      var converted := ConvertLegacy(env.rules, env.legacy.value).0;
      var ms := Migrated(env.rules, env.crds.value);
      ReportsAppend(env.rules, converted, ms);
      ReportsEmptyIff(env.rules, converted);
      ReportsEmptyIff(env.rules, ms);
    }
  }

  /** When the check fails on invalid ingresses, its message lists every flagged one and it recorded one event each. */
  lemma ValidationFailureListsAll(env: Env)
    requires env.legacy.Ok? && ConvertLegacy(env.rules, env.legacy.value).1.None? && env.crds.Ok?
    ensures var all := ConvertLegacy(env.rules, env.legacy.value).0 + Migrated(env.rules, env.crds.value);
      var reports := Reports(env.rules, all);
      |reports| > 0 ==> Validation(env).0 == Some(InvalidMessage + Strs.Join(reports, ", ")) &&
                        |Validation(env).1| == |reports|
  {
    var all := ConvertLegacy(env.rules, env.legacy.value).0 + Migrated(env.rules, env.crds.value);
    WarningsMatchReports(env.rules, all);
  }
}
