/**
 * Kubernetes objects as the namespace migration and the YAML export see
 * them: the object record, the `cleanObject` scrub, the Service scrub, the
 * resource-type names a request may carry, and the listing of one type in
 * the source namespace (with the `batch/v1beta1` fallback for CronJobs).
 *
 * An object keeps only the fields the code reads or writes; the rest of its
 * spec is one opaque text.
 */
module KubeObjects {
  import opened Wrappers
  import opened Strs

  /** The kinds the listings produce. */
  datatype Kind = Deployment | StatefulSet | Service | ConfigMap | Secret
                | PersistentVolumeClaim | PersistentVolume | CronJob | Job

  /** `metav1.ObjectMeta`, restricted to what is kept or cleared. */
  datatype ObjectMeta = ObjectMeta(
    name: string,
    namespace: string,
    labels: map<string, string>,
    annotations: map<string, string>,
    managedFields: seq<string>,
    selfLink: string,
    uid: string,
    resourceVersion: string,
    generation: int,
    creationTimestamp: Option<string>,
    deletionTimestamp: Option<string>,
    deletionGracePeriodSeconds: Option<int>)

  /** The Service spec fields the listing clears, and the rest of the spec. */
  datatype ServiceSpec = ServiceSpec(
    clusterIP: string,
    clusterIPs: seq<string>,
    externalIPs: seq<string>,
    externalName: string,
    externalTrafficPolicy: string,
    healthCheckNodePort: int,
    loadBalancerIP: string,
    loadBalancerSourceRanges: seq<string>,
    rest: string)

  datatype Spec = ServiceSpecOf(service: ServiceSpec) | Body(text: string)

  /** An object: `apiVersion`, `kind`, metadata, spec and status (`""` is the zero status). */
  datatype Obj = Obj(apiVersion: string, kind: Kind, meta: ObjectMeta, spec: Spec, status: string)

  // ------------------------------------------------------------ cleanObject

  /** The kinds whose `Status` field `cleanObject` resets; ConfigMap and Secret have none. */
  predicate HasStatus(k: Kind)
  {
    k != ConfigMap && k != Secret
  }

  /** `cleanObject`: clear the server-managed metadata, and the status of a kind that has one. */
  function Clean(o: Obj): Obj
  {
    var m := o.meta.(managedFields := [], selfLink := "", uid := "", resourceVersion := "",
                     generation := 0, creationTimestamp := None, deletionTimestamp := None,
                     deletionGracePeriodSeconds := None);
    o.(meta := m, status := if HasStatus(o.kind) then "" else o.status)
  }

  /** Whether an object carries none of the fields `cleanObject` clears. */
  predicate IsClean(o: Obj)
  {
    o.meta.managedFields == [] && o.meta.selfLink == "" && o.meta.uid == "" &&
    o.meta.resourceVersion == "" && o.meta.generation == 0 && o.meta.creationTimestamp.None? &&
    o.meta.deletionTimestamp.None? && o.meta.deletionGracePeriodSeconds.None? &&
    (HasStatus(o.kind) ==> o.status == "")
  }

  /**
   * What `cleanObject` does: the result is clean; name, namespace, labels,
   * annotations, version, kind and spec are kept, and so is the status of a
   * kind without one; an object that is already clean is left as it is, so
   * cleaning twice is cleaning once.
   */
  lemma CleanScrubs(o: Obj)
    ensures IsClean(Clean(o))
    ensures var c := Clean(o);
      c.apiVersion == o.apiVersion && c.kind == o.kind && c.spec == o.spec &&
      c.meta.name == o.meta.name && c.meta.namespace == o.meta.namespace &&
      c.meta.labels == o.meta.labels && c.meta.annotations == o.meta.annotations &&
      (!HasStatus(o.kind) ==> c.status == o.status)
    ensures IsClean(o) <==> Clean(o) == o
    ensures Clean(Clean(o)) == Clean(o)
  {
  }

  // ------------------------------------------------------------ Service scrub

  /** The Service spec with its cluster-assigned addresses and ports cleared; the rest of the spec is kept. */
  function ScrubServiceSpec(s: ServiceSpec): (r: ServiceSpec)
    ensures r.rest == s.rest
    ensures r.clusterIP == "" && r.clusterIPs == [] && r.externalIPs == [] && r.externalName == ""
    ensures r.externalTrafficPolicy == "" && r.healthCheckNodePort == 0
    ensures r.loadBalancerIP == "" && r.loadBalancerSourceRanges == []
  {
    ServiceSpec("", [], [], "", "", 0, "", [], s.rest)
  }

  /** What the listing of Services does to each item: managed fields and the spec fields above cleared. */
  function ScrubService(o: Obj): (r: Obj)
    ensures r.kind == o.kind && r.apiVersion == o.apiVersion && r.status == o.status
    ensures r.meta == o.meta.(managedFields := [])
    ensures o.spec.Body? ==> r.spec == o.spec
    ensures o.spec.ServiceSpecOf? ==> r.spec == ServiceSpecOf(ScrubServiceSpec(o.spec.service))
  {
    var spec := match o.spec
      case ServiceSpecOf(s) => ServiceSpecOf(ScrubServiceSpec(s))
      case Body(t) => Body(t);
    o.(meta := o.meta.(managedFields := []), spec := spec)
  }

  // ------------------------------------------------------------ resource types

  /** The nine resource types a request can name, after lower-casing and aliases. */
  datatype Resource = Deployments | StatefulSets | Services | ConfigMaps | Secrets
                    | Pvcs | Pvs | CronJobs | Jobs

  /** The types used when a request names none. */
  const DefaultTypes: seq<string> :=
    ["deployments", "statefulsets", "services", "configmaps", "secrets", "pvcs", "pvs", "cronjobs", "jobs"]

  /** The request's types, or the defaults when it names none. */
  function Requested(types: seq<string>): (r: seq<string>)
    ensures |types| > 0 ==> r == types
    ensures |types| == 0 ==> r == DefaultTypes
  {
    if |types| == 0 then DefaultTypes else types
  }

  /** The lower-cased spelling a type name is matched by. */
  function MatchKey(t: string): (r: Option<Resource>)
  {
    if t == "deployments" then Some(Deployments)
    else if t == "statefulsets" then Some(StatefulSets)
    else if t == "services" then Some(Services)
    else if t == "configmaps" then Some(ConfigMaps)
    else if t == "secrets" then Some(Secrets)
    else if t == "pvcs" || t == "persistentvolumeclaims" then Some(Pvcs)
    else if t == "pvs" || t == "persistentvolumes" then Some(Pvs)
    else if t == "cronjobs" then Some(CronJobs)
    else if t == "jobs" then Some(Jobs)
    else None
  }

  /** The `switch strings.ToLower(resourceType)`: which case a type name reaches, if any. */
  function ResourceOf(t: string): Option<Resource>
  {
    MatchKey(ToLower(t))
  }

  /** Lower-casing twice is lower-casing once. */
  lemma ToLowerIdempotent(s: string)
    ensures ToLower(ToLower(s)) == ToLower(s)
  {
    var l := ToLower(s);
    forall i | 0 <= i < |s| ensures ToLower(l)[i] == l[i] {
      assert LowerChar(LowerChar(s[i])) == LowerChar(s[i]);
    }
  }

  /** A text without upper-case letters is its own lower-case form. */
  lemma ToLowerOfLower(s: string)
    requires forall i :: 0 <= i < |s| ==> !('A' <= s[i] <= 'Z')
    ensures ToLower(s) == s
  {
  }

  /** Matching ignores letter case. */
  lemma ResourceCaseInsensitive(t: string)
    ensures ResourceOf(t) == ResourceOf(ToLower(t))
  {
    ToLowerIdempotent(t);
  }

  /**
   * The long names are aliases of `pvcs` and `pvs`, in any letter case; the
   * other seven types are matched by their lower-case plural alone.
   */
  lemma ResourceAliases(t: string)
    ensures MatchKey("persistentvolumeclaims") == MatchKey("pvcs") == Some(Pvcs)
    ensures MatchKey("persistentvolumes") == MatchKey("pvs") == Some(Pvs)
    ensures ResourceOf(t) == Some(Pvcs) <==> ToLower(t) == "pvcs" || ToLower(t) == "persistentvolumeclaims"
    ensures ResourceOf(t) == Some(Pvs) <==> ToLower(t) == "pvs" || ToLower(t) == "persistentvolumes"
    ensures ResourceOf(t) == Some(Deployments) <==> ToLower(t) == "deployments"
  {
  }

  /** The nine defaults, all lower case, reach the nine cases in order, so each case once. */
  lemma DefaultsCoverAll()
    ensures |DefaultTypes| == 9
    ensures MatchKey(DefaultTypes[0]) == Some(Deployments) && MatchKey(DefaultTypes[1]) == Some(StatefulSets)
    ensures MatchKey(DefaultTypes[2]) == Some(Services) && MatchKey(DefaultTypes[3]) == Some(ConfigMaps)
    ensures MatchKey(DefaultTypes[4]) == Some(Secrets) && MatchKey(DefaultTypes[5]) == Some(Pvcs)
    ensures MatchKey(DefaultTypes[6]) == Some(Pvs) && MatchKey(DefaultTypes[7]) == Some(CronJobs)
    ensures MatchKey(DefaultTypes[8]) == Some(Jobs)
  {
  }

  // ------------------------------------------------------------ listing

  /**
   * What listing the source namespace answers: per resource type, the items
   * or the client's error text; a type not in `lists` lists nothing. The
   * `batch/v1beta1` CronJob listing is asked only when the `batch/v1` one fails.
   */
  datatype Source = Source(lists: map<Resource, Result<seq<Obj>, string>>, cronJobsBeta: Result<seq<Obj>, string>)

  function Listed(src: Source, r: Resource): Result<seq<Obj>, string>
  {
    if r in src.lists then src.lists[r] else Ok([])
  }

  /** The kind, API version and plural label the listing of a type stamps on its items and its error. */
  function KindOf(r: Resource): Kind
  {
    match r
    case Deployments => Deployment
    case StatefulSets => StatefulSet
    case Services => Service
    case ConfigMaps => ConfigMap
    case Secrets => Secret
    case Pvcs => PersistentVolumeClaim
    case Pvs => PersistentVolume
    case CronJobs => CronJob
    case Jobs => Job
  }

  function ApiVersionOf(r: Resource): string
  {
    match r
    case Deployments => "apps/v1"
    case StatefulSets => "apps/v1"
    case CronJobs => "batch/v1"
    case Jobs => "batch/v1"
    case _ => "v1"
  }

  function Plural(r: Resource): string
  {
    match r
    case Deployments => "Deployments"
    case StatefulSets => "StatefulSets"
    case Services => "Services"
    case ConfigMaps => "ConfigMaps"
    case Secrets => "Secrets"
    case Pvcs => "PersistentVolumeClaims"
    case Pvs => "PersistentVolumes"
    case CronJobs => "CronJobs"
    case Jobs => "Jobs"
  }

  /** One listed item with `APIVersion` and `Kind` set, and a Service scrubbed. */
  function Prepared(r: Resource, apiVersion: string, o: Obj): Obj
  {
    var s := o.(apiVersion := apiVersion, kind := KindOf(r));
    if r == Services then ScrubService(s) else s
  }

  function PrepareAll(r: Resource, apiVersion: string, items: seq<Obj>): (objs: seq<Obj>)
    ensures |objs| == |items|
    ensures forall i :: 0 <= i < |items| ==> objs[i] == Prepared(r, apiVersion, items[i])
  {
    seq(|items|, i requires 0 <= i < |items| => Prepared(r, apiVersion, items[i]))
  }

  /** The outcome of listing one type: the prepared items, or the text recorded for the failure. */
  datatype Listing = Listing(objs: seq<Obj>, error: Option<string>)

  /** The listing of one matched type, with the CronJob fallback. */
  function ListResource(src: Source, r: Resource): Listing
  {
    if r == CronJobs then
      match Listed(src, CronJobs)
      case Ok(items) => Listing(PrepareAll(r, "batch/v1", items), None)
      case Err(e) =>
        match src.cronJobsBeta
        case Ok(items) => Listing(PrepareAll(r, "batch/v1beta1", items), None)
        case Err(betaErr) => Listing([], Some("获取CronJobs失败: " + (e + (", " + betaErr))))
    else
      match Listed(src, r)
      case Ok(items) => Listing(PrepareAll(r, ApiVersionOf(r), items), None)
      case Err(e) => Listing([], Some("获取" + (Plural(r) + ("失败: " + e))))
  }

  /** The listing a type name reaches; a name that matches no case lists nothing. */
  function ListType(src: Source, t: string): Listing
  {
    match ResourceOf(t)
    case None => Listing([], None)
    case Some(r) => ListResource(src, r)
  }

  /**
   * A listing either fails with nothing listed, or lists every item in order
   * with the type's kind; a type name that matches no case lists nothing and
   * does not fail; CronJobs fail only when both API versions fail, and items
   * of the fallback carry `batch/v1beta1`.
   */
  lemma ListingShape(src: Source, t: string)
    ensures var l := ListType(src, t);
      (l.error.Some? ==> l.objs == []) &&
      (ResourceOf(t).None? ==> l == Listing([], None)) &&
      (forall i :: 0 <= i < |l.objs| ==> l.objs[i].kind == KindOf(ResourceOf(t).value))
    ensures ResourceOf(t) == Some(CronJobs) ==>
      (ListType(src, t).error.Some? <==> Listed(src, CronJobs).Err? && src.cronJobsBeta.Err?)
    ensures ResourceOf(t) == Some(CronJobs) && Listed(src, CronJobs).Err? && src.cronJobsBeta.Ok? ==>
      ListType(src, t).objs == PrepareAll(CronJobs, "batch/v1beta1", src.cronJobsBeta.value)
    ensures ResourceOf(t).Some? && ResourceOf(t) != Some(CronJobs) ==>
      (ListType(src, t).error.Some? <==> Listed(src, ResourceOf(t).value).Err?) &&
      (Listed(src, ResourceOf(t).value).Ok? ==>
        |ListType(src, t).objs| == |Listed(src, ResourceOf(t).value).value|)
  {
  }

  /** A prepared item keeps its name and namespace. */
  lemma PreparedKeepsName(r: Resource, v: string, o: Obj)
    ensures Prepared(r, v, o).meta.name == o.meta.name
    ensures Prepared(r, v, o).kind == KindOf(r) && Prepared(r, v, o).apiVersion == v
  {
  }

  /** The names of a list of objects, in order. */
  function Names(objs: seq<Obj>): (r: seq<string>)
    ensures |r| == |objs|
    ensures forall i :: 0 <= i < |objs| ==> r[i] == objs[i].meta.name
  {
    seq(|objs|, i requires 0 <= i < |objs| => objs[i].meta.name)
  }
}
