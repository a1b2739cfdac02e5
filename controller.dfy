/**
 * NewController (pkg/ingress/controller.go): the kind of controller an ingress
 * gets is chosen by its LB type alone.
 */
module IngressController {
  import opened Wrappers
  import VoyagerApi

  datatype Kind = HostPortKind | NodePortKind | LoadBalancerKind

  /** A controller for one ingress; the clients and listers it is also given are not modelled. */
  datatype Controller = Controller(kind: Kind, ingress: VoyagerApi.Ingress)

  /** The LB types that have a controller, with the kind each selects. */
  function KindOf(lbType: string): (r: Option<Kind>)
    ensures lbType == VoyagerApi.LBTypeHostPort ==> r == Some(HostPortKind)
    ensures lbType == VoyagerApi.LBTypeNodePort ==> r == Some(NodePortKind)
    ensures lbType == VoyagerApi.LBTypeLoadBalancer ==> r == Some(LoadBalancerKind)
    ensures r.None? <==> lbType !in {VoyagerApi.LBTypeHostPort, VoyagerApi.LBTypeNodePort, VoyagerApi.LBTypeLoadBalancer}
  {
    if lbType == VoyagerApi.LBTypeHostPort then Some(HostPortKind)
    else if lbType == VoyagerApi.LBTypeNodePort then Some(NodePortKind)
    else if lbType == VoyagerApi.LBTypeLoadBalancer then Some(LoadBalancerKind)
    else None
  }

  /** NewController: the controller for the ingress's LB type, or nil for any other type. */
  function NewController(ing: VoyagerApi.Ingress): (r: Option<Controller>)
    ensures r.Some? ==> r.value.ingress == ing && Some(r.value.kind) == KindOf(VoyagerApi.LBType(ing))
    ensures r.None? <==> KindOf(VoyagerApi.LBType(ing)).None?
  {
    match KindOf(VoyagerApi.LBType(ing))
    case Some(k) => Some(Controller(k, ing))
    case None => None
  }

  /** An Internal ingress gets no controller. */
  lemma InternalHasNoController(ing: VoyagerApi.Ingress)
    requires VoyagerApi.LBTypeKey in ing.annotations && ing.annotations[VoyagerApi.LBTypeKey] == VoyagerApi.LBTypeInternal
    ensures NewController(ing).None?
  {
  }

  /** An ingress that names no type gets the LoadBalancer controller. */
  lemma DefaultIsLoadBalancer(ing: VoyagerApi.Ingress)
    requires VoyagerApi.LBTypeKey !in ing.annotations
    ensures NewController(ing) == Some(Controller(LoadBalancerKind, ing))
  {
  }

  /** Different controller kinds come from different LB types. */
  lemma KindOfInjective(t1: string, t2: string)
    requires KindOf(t1).Some? && KindOf(t1) == KindOf(t2)
    ensures t1 == t2
  {
  }
}
