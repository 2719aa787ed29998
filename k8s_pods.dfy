/**
 * The pod list of a namespace, in its two versions: the newer
 * `GetPodsInNamespace` pages through the pods with a limit and a continue
 * token; the older one lists them all. Both project each pod to a `PodInfo`.
 *
 * The cluster's answer to a pod list is the input `list`, keyed by the
 * namespace and the list options.
 */
module KubePods {
  import opened Wrappers
  import opened KubeCluster

  /**
   * A pod as the projection reads it: `restartCounts` holds the restart count
   * of each container status, in order; `created` is the creation time
   * already written as "2006-01-02 15:04:05".
   */
  datatype Pod = Pod(name: string, namespace: string, phase: string, nodeName: string,
                     restartCounts: seq<int>, created: string)

  /** One page of the pod list and the token of the next page (`""` on the last). */
  datatype PodPage = PodPage(items: seq<Pod>, continueToken: string)

  /** `metav1.ListOptions`: a zero `limit` and an empty `continueToken` mean "not set". */
  datatype ListOptions = ListOptions(limit: int, continueToken: string)

  /** `PodInfo`. */
  datatype PodInfo = PodInfo(name: string, namespace: string, status: string, nodeName: string,
                             cpu: string, memory: string, restartCount: int, age: string)

  /** The cluster's answer to listing the pods of a namespace with some options. */
  type PodLister = (string, ListOptions) -> Result<PodPage, string>

  /** Go's message for indexing an empty slice at 0. */
  const IndexOutOfRange := "runtime error: index out of range [0] with length 0"

  /**
   * The newer projection: the first container status's restart count, or 0
   * when the pod has none; CPU and memory are the placeholder "1".
   */
  function PodInfoOf(p: Pod): PodInfo
  {
    PodInfo(p.name, p.namespace, p.phase, p.nodeName, "1", "1",
            if |p.restartCounts| > 0 then p.restartCounts[0] else 0, p.created)
  }

  /**
   * What a pod's `PodInfo` holds: its name, namespace, phase, node and
   * creation time, placeholder CPU and memory, and a restart count that is
   * the first container's, or 0 for a pod without container statuses.
   */
  lemma PodInfoFields(p: Pod)
    ensures var info := PodInfoOf(p);
      info.name == p.name && info.namespace == p.namespace && info.status == p.phase &&
      info.nodeName == p.nodeName && info.age == p.created &&
      info.cpu == "1" && info.memory == "1" &&
      (|p.restartCounts| == 0 ==> info.restartCount == 0) &&
      (|p.restartCounts| > 0 ==> info.restartCount == p.restartCounts[0])
  {
  }

  // ------------------------------------------------------------ the newer list

  /** The options the newer list sends: a limit only when positive, a token only when non-empty. */
  method PodListOptions(limit: int, continueToken: string) returns (opts: ListOptions)
    ensures limit > 0 ==> opts.limit == limit
    ensures limit <= 0 ==> opts.limit == 0
    ensures opts.continueToken == continueToken
  {
    opts := ListOptions(0, "");
    if limit > 0 {
      opts := opts.(limit := limit);
    }
    if continueToken != "" {
      opts := opts.(continueToken := continueToken);
    }
  }

  /**
   * The newer `GetPodsInNamespace`: a failed lookup, client or list returns
   * no pods, no token and the error; otherwise one `PodInfo` per listed pod,
   * in order, and the page's continue token.
   */
  method GetPodsInNamespace(registry: map<string, Registration>, clusterId: string, namespace: string,
                            limit: int, continueToken: string, list: PodLister)
    returns (infos: seq<PodInfo>, next: string, err: Option<string>)
    ensures err.Some? ==> infos == [] && next == ""
    ensures clusterId !in registry ==> err == Some("record not found")
    ensures clusterId in registry && registry[clusterId].clientError.Some? ==> err == registry[clusterId].clientError
    ensures clusterId in registry && registry[clusterId].clientError.None? ==>
      var page := list(namespace, ListOptions(if limit > 0 then limit else 0, continueToken));
      (page.Err? ==> err == Some(page.error)) &&
      (page.Ok? ==>
        (err.None? && next == page.value.continueToken && |infos| == |page.value.items| &&
         forall i :: 0 <= i < |infos| ==> infos[i] == PodInfoOf(page.value.items[i])))
  {
    infos := [];
    var cluster := Lookup(registry, clusterId);
    if cluster.Err? {
      return [], "", Some(cluster.error);
    }
    if cluster.value.clientError.Some? {
      return [], "", cluster.value.clientError;
    }
    var opts := PodListOptions(limit, continueToken);
    var page := list(namespace, opts);
    if page.Err? {
      return [], "", Some(page.error);
    }
    var pods := page.value.items;
    var i := 0;
    while i < |pods|
      invariant 0 <= i <= |pods|
      invariant |infos| == i
      invariant forall k :: 0 <= k < i ==> infos[k] == PodInfoOf(pods[k])
    {
      var pod := pods[i];
      var restartCount := 0;
      if |pod.restartCounts| > 0 {
        restartCount := pod.restartCounts[0];
      }
      infos := infos + [PodInfo(pod.name, pod.namespace, pod.phase, pod.nodeName, "1", "1", restartCount, pod.created)];
      i := i + 1;
    }
    return infos, page.value.continueToken, None;
  }

  // ------------------------------------------------------------ the older list

  /** The outcome of the older list: its pods and error, or a panic. */
  datatype OldOutcome = Listed(infos: seq<PodInfo>, err: Option<string>) | Panicked(reason: string)

  /** The older projection as written: the first container status is read without a guard. */
  function OldPodInfoAsWritten(p: Pod): (r: Result<PodInfo, string>)
    ensures r.Err? <==> |p.restartCounts| == 0
    ensures r.Ok? ==> r.value == PodInfoOf(p)
  {
    if |p.restartCounts| == 0 then Err(IndexOutOfRange)
    else Ok(PodInfo(p.name, p.namespace, p.phase, p.nodeName, "1", "1", p.restartCounts[0], p.created))
  }

  /** A pod still pending, whose containers have not started, has no container statuses: the projection panics. */
  lemma PendingPodPanics()
    ensures OldPodInfoAsWritten(Pod("web-0", "default", "Pending", "", [], "2024-01-01 00:00:00")) == Err(IndexOutOfRange)
  {
  }

  /**
   * The older `GetPodsInNamespace` as written: a failed lookup, client or
   * list returns no pods and the error; no pods return an empty list;
   * otherwise the list panics as soon as one pod has no container status.
   */
  method OldGetPodsAsWritten(registry: map<string, Registration>, clusterId: string, namespace: string, list: PodLister)
    returns (r: OldOutcome)
    ensures r.Listed? && r.err.Some? ==> r.infos == []
    ensures clusterId in registry && registry[clusterId].clientError.None? && list(namespace, ListOptions(0, "")).Ok? ==>
      var pods := list(namespace, ListOptions(0, "")).value.items;
      (r.Panicked? <==> exists i :: 0 <= i < |pods| && |pods[i].restartCounts| == 0) &&
      (r.Listed? ==>
        (r.err.None? && |r.infos| == |pods| &&
         forall i :: 0 <= i < |pods| ==> r.infos[i] == PodInfoOf(pods[i])))
    ensures !(clusterId in registry && registry[clusterId].clientError.None? && list(namespace, ListOptions(0, "")).Ok?) ==>
      r.Listed? && r.err.Some?
  {
    var cluster := Lookup(registry, clusterId);
    if cluster.Err? {
      return Listed([], Some(cluster.error));
    }
    if cluster.value.clientError.Some? {
      return Listed([], cluster.value.clientError);
    }
    var page := list(namespace, ListOptions(0, ""));
    if page.Err? {
      return Listed([], Some(page.error));
    }
    var pods := page.value.items;
    if |pods| == 0 {
      return Listed([], None);
    }
    var infos: seq<PodInfo> := [];
    var i := 0;
    while i < |pods|
      invariant 0 <= i <= |pods|
      invariant |infos| == i
      invariant forall k :: 0 <= k < i ==> |pods[k].restartCounts| > 0 && infos[k] == PodInfoOf(pods[k])
    {
      var info := OldPodInfoAsWritten(pods[i]);
      if info.Err? {
        return Panicked(info.error);
      }
      infos := infos + [info.value];
      i := i + 1;
    }
    return Listed(infos, None);
  }

  /**
   * The older `GetPodsInNamespace` with the guard of the newer version: it
   * never panics and returns one `PodInfo` per pod, in order.
   */
  method OldGetPods(registry: map<string, Registration>, clusterId: string, namespace: string, list: PodLister)
    returns (infos: seq<PodInfo>, err: Option<string>)
    ensures err.Some? ==> infos == []
    ensures err.None? <==>
      clusterId in registry && registry[clusterId].clientError.None? && list(namespace, ListOptions(0, "")).Ok?
    ensures err.None? ==>
      var pods := list(namespace, ListOptions(0, "")).value.items;
      |infos| == |pods| && forall i :: 0 <= i < |pods| ==> infos[i] == PodInfoOf(pods[i])
  {
    var cluster := Lookup(registry, clusterId);
    if cluster.Err? {
      return [], Some(cluster.error);
    }
    if cluster.value.clientError.Some? {
      return [], cluster.value.clientError;
    }
    var page := list(namespace, ListOptions(0, ""));
    if page.Err? {
      return [], Some(page.error);
    }
    var pods := page.value.items;
    infos := [];
    var i := 0;
    while i < |pods|
      invariant 0 <= i <= |pods|
      invariant |infos| == i
      invariant forall k :: 0 <= k < i ==> infos[k] == PodInfoOf(pods[k])
    {
      infos := infos + [PodInfoOf(pods[i])];
      i := i + 1;
    }
    return infos, None;
  }

  /** Where the older projection does not panic, it agrees with the guarded one. */
  lemma OldAgreesWithGuarded(p: Pod)
    requires |p.restartCounts| > 0
    ensures OldPodInfoAsWritten(p) == Ok(PodInfoOf(p))
  {
  }
}
