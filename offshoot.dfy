/**
 * The annotation helpers of the offshoot objects an ingress controller owns
 * (pkg/ingress/create.go): the two provenance annotations, the HAProxy
 * ConfigMap's content, and whether a metrics exporter sidecar is wanted.
 */
module Offshoot {
  import opened Wrappers
  import Strconv
  import VoyagerApi

  /** A Go `map[string]string`: a reference whose entries writers share. */
  class StringMap {
    var entries: map<string, string>

    constructor ()
      ensures entries == map[]
    {
      entries := map[];
    }

    /** `m[key]`: the entry, or "" when there is none. */
    function Get(key: string): (r: string)
      reads this
      ensures key in entries ==> r == entries[key]
      ensures key !in entries ==> r == ""
    {
      if key in entries then entries[key] else ""
    }

    method Put(key: string, value: string)
      modifies this
      ensures entries == old(entries)[key := value]
    {
      entries := entries[key := value];
    }
  }

  /**
   * ensureOriginAnnotations on map contents: each origin key is written only when
   * its current value ("" when missing) differs, and the flag says whether one was.
   */
  function OriginUpdate(m: map<string, string>, ing: VoyagerApi.Ingress): (r: (map<string, string>, bool))
  {
    var schema := VoyagerApi.APISchema(ing);
    var (m1, u1) := if VoyagerApi.Lookup(m, VoyagerApi.OriginAPISchema) != schema then (m[VoyagerApi.OriginAPISchema := schema], true) else (m, false);
    var (m2, u2) := if VoyagerApi.Lookup(m1, VoyagerApi.OriginName) != ing.name then (m1[VoyagerApi.OriginName := ing.name], true) else (m1, u1);
    (m2, u2)
  }

  /**
   * ensureOriginAnnotations. The comment in the source says it copies, but for a
   * non-nil map the result IS the argument, updated in place; nil gives a new map.
   */
  method EnsureOriginAnnotations(ing: VoyagerApi.Ingress, annotation: StringMap?) returns (ret: StringMap, needsUpdate: bool)
    modifies annotation
    ensures annotation != null ==> ret == annotation
    ensures annotation == null ==> fresh(ret)
    ensures (ret.entries, needsUpdate) == OriginUpdate(if annotation == null then map[] else old(annotation.entries), ing)
  {
    needsUpdate := false;
    if annotation == null {
      ret := new StringMap();
    } else {
      ret := annotation;
    }
    var schema := VoyagerApi.APISchema(ing);
    if ret.Get(VoyagerApi.OriginAPISchema) != schema {
      needsUpdate := true;
      ret.Put(VoyagerApi.OriginAPISchema, schema);
    }
    if ret.Get(VoyagerApi.OriginName) != ing.name {
      needsUpdate := true;
      ret.Put(VoyagerApi.OriginName, ing.name);
    }
  }

  /** Looked up afterwards (a missing key reading ""), the two keys give the schema and the name. */
  lemma OriginUpdateSets(m: map<string, string>, ing: VoyagerApi.Ingress)
    ensures var r := OriginUpdate(m, ing).0;
      VoyagerApi.Lookup(r, VoyagerApi.OriginAPISchema) == VoyagerApi.APISchema(ing) &&
      VoyagerApi.Lookup(r, VoyagerApi.OriginName) == ing.name
  {
    assert VoyagerApi.OriginAPISchema != VoyagerApi.OriginName by {
      OriginKeysDiffer();
    }
  }

  lemma OriginKeysDiffer()
    ensures VoyagerApi.OriginAPISchema != VoyagerApi.OriginName
  {
    var k := |VoyagerApi.EngressKey| + 1;
    assert VoyagerApi.OriginAPISchema[k + 7] == 'a';
    assert VoyagerApi.OriginName[k + 7] == 'n';
  }

  /** The flag is set exactly when one of the two keys read differently before. */
  lemma OriginUpdateFlag(m: map<string, string>, ing: VoyagerApi.Ingress)
    ensures OriginUpdate(m, ing).1 <==>
      VoyagerApi.Lookup(m, VoyagerApi.OriginAPISchema) != VoyagerApi.APISchema(ing) || VoyagerApi.Lookup(m, VoyagerApi.OriginName) != ing.name
  {
    OriginKeysDiffer();
  }

  /** No other key is touched, and a missing key is written only when the flag is set. */
  lemma OriginUpdateFrame(m: map<string, string>, ing: VoyagerApi.Ingress)
    ensures var (r, u) := OriginUpdate(m, ing);
      (forall k :: k != VoyagerApi.OriginAPISchema && k != VoyagerApi.OriginName ==> (k in r <==> k in m)) &&
      (forall k :: k in m && k != VoyagerApi.OriginAPISchema && k != VoyagerApi.OriginName ==> r[k] == m[k]) &&
      (!u ==> r == m)
  {
    OriginKeysDiffer();
  }

  /** A second call with the same ingress changes nothing and reports no update. */
  lemma {:induction false} OriginUpdateIdempotent(m: map<string, string>, ing: VoyagerApi.Ingress)
    ensures var r := OriginUpdate(m, ing).0;
      OriginUpdate(r, ing) == (r, false)
  {
    var r := OriginUpdate(m, ing).0;
    OriginUpdateSets(m, ing);
    OriginUpdateFlag(r, ing);
    OriginUpdateFrame(r, ing);
  }

  /** With an empty ingress name and no name key, the name key stays absent: "" already reads as the name. */
  lemma OriginNameMayStayAbsent(m: map<string, string>, ing: VoyagerApi.Ingress)
    requires ing.name == "" && VoyagerApi.OriginName !in m
    ensures VoyagerApi.OriginName !in OriginUpdate(m, ing).0
  {
    OriginKeysDiffer();
  }

  /** The exact annotations of the HAProxy ConfigMap. */
  function OriginAnnotations(ing: VoyagerApi.Ingress): (r: map<string, string>)
    ensures r.Keys == {VoyagerApi.OriginAPISchema, VoyagerApi.OriginName}
    ensures r[VoyagerApi.OriginAPISchema] == VoyagerApi.APISchema(ing) && r[VoyagerApi.OriginName] == ing.name
  {
    OriginKeysDiffer();
    map[VoyagerApi.OriginAPISchema := VoyagerApi.APISchema(ing), VoyagerApi.OriginName := ing.name]
  }

  const HAProxyCfgKey := "haproxy.cfg"

  /** The part of a core ConfigMap the mutator touches, beside its identity. */
  class ConfigMap {
    var name: string
    var namespace: string
    var annotations: map<string, string>
    var data: map<string, string>

    constructor (name: string, namespace: string)
      ensures this.name == name && this.namespace == namespace
      ensures annotations == map[] && data == map[]
    {
      this.name := name;
      this.namespace := namespace;
      annotations := map[];
      data := map[];
    }
  }

  /**
   * The mutator ensureConfigMap hands to CreateOrPatchConfigMap: whatever the
   * object held, its annotations become exactly the two origin keys and its data
   * exactly the rendered HAProxy configuration.
   */
  method MutateConfigMap(obj: ConfigMap, ing: VoyagerApi.Ingress, haproxyConfig: string) returns (r: ConfigMap)
    modifies obj
    ensures r == obj
    ensures obj.annotations == OriginAnnotations(ing)
    ensures obj.data == map[HAProxyCfgKey := haproxyConfig]
    ensures obj.name == old(obj.name) && obj.namespace == old(obj.namespace)
  {
    obj.annotations := OriginAnnotations(ing);
    obj.data := map[HAProxyCfgKey := haproxyConfig];
    return obj;
  }

  /** The exporter sidecar the ingress asks for: its name and metrics port. */
  datatype Container = Container(name: string, containerPort: int)

  /** What tools.Parse reads from the annotations: an error, or a monitoring spec with its Prometheus port if any. */
  datatype MonitorSpec = MonitorSpec(prometheusPort: Option<int>)

  /**
   * getExporterSidecar: nothing when stats are off; otherwise the parse error, or
   * a sidecar when Prometheus monitoring is asked for.
   */
  function ExporterSidecar(p: VoyagerApi.Parsers, ing: VoyagerApi.Ingress,
                           parseMonitor: map<string, string> -> Result<Option<MonitorSpec>>): (r: (Option<Container>, Option<string>))
    ensures !VoyagerApi.Stats(p, ing) ==> r == (None, None)
    ensures r.0.Some? ==> r.1.None? && VoyagerApi.Stats(p, ing) && r.0.value.name == "exporter"
    ensures r.1.Some? ==> r.0.None? && VoyagerApi.Stats(p, ing) && parseMonitor(ing.annotations).Err?
  {
    if !VoyagerApi.Stats(p, ing) then (None, None)
    else match parseMonitor(ing.annotations)
      case Err(e) => (None, Some(e))
      case Ok(spec) =>
        if spec.Some? && spec.value.prometheusPort.Some?
        then (Some(Container("exporter", Strconv.Int32(spec.value.prometheusPort.value))), None)
        else (None, None)
  }
}
