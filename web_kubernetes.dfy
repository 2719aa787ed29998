/**
 * The Kubernetes page: choosing the cluster after loading the list (from
 * the API, or from the locally stored list when the API fails), changing
 * cluster, the per-tab resource slots a fetch fills, the tab labels, and
 * the search over a resource list.
 */
module KubernetesPage {
  import opened Wrappers
  import opened Strs
  import opened Lists
  import opened ClusterSelect
  import opened WebCommon

  /** A pod, deployment, service or config map as the page searches it (no status is `""`). */
  datatype Resource = Resource(name: string, namespace: string, status: string)

  /**
   * The `resources` state, one slot per tab. `None` is a slot holding
   * `undefined`, which the page lists as nothing.
   */
  datatype Resources = Resources(pods: Option<seq<Resource>>, deployments: Option<seq<Resource>>,
                                 services: Option<seq<Resource>>, configMaps: Option<seq<Resource>>)

  /** A resource reply: a plain array, or an object with a `data` array. */
  datatype Reply = ListReply(items: seq<Resource>) | DataReply(data: seq<Resource>)

  /**
   * The page state the model follows; `savedId` is the `selectedClusterId`
   * entry of local storage (`""` when there is none).
   */
  datatype PageState = PageState(clusters: seq<WebCluster>, selected: Option<WebCluster>, namespace: string,
                                 savedId: string, tab: string, resources: Resources)

  /** The state on first render. */
  function Initial(savedId: string): (st: PageState)
    ensures st.clusters == [] && st.selected.None? && st.namespace == "default" && st.tab == "pods"
    ensures st.resources.pods == Some([]) && st.resources.deployments == Some([])
    ensures st.resources.services == Some([]) && st.resources.configMaps == Some([])
  {
    PageState([], None, "default", savedId, "pods", Resources(Some([]), Some([]), Some([]), Some([])))
  }

  // ------------------------------------------------------------ clusters

  /** A `cluster` URL parameter is saved as the id to select; an empty one is ignored. */
  function UrlCluster(st: PageState, fromUrl: string): (r: PageState)
    ensures r.savedId == (if fromUrl != "" then fromUrl else st.savedId)
    ensures r.(savedId := st.savedId) == st
  {
    if fromUrl != "" then st.(savedId := fromUrl) else st
  }

  /**
   * `fetchClusters`: the API's list, or on failure the locally stored list
   * when there is one; the selection follows the saved-id-else-first rule.
   */
  function LoadClusters(st: PageState, answer: Result<seq<WebCluster>, string>,
                        stored: Option<seq<WebCluster>>): PageState
  {
    var list :=
      match answer
      case Ok(data) => Some(data)
      case Err(_) => stored;
    match list
    case None => st
    case Some(data) =>
      var choice := SelectCluster(data, st.savedId);
      st.(clusters := data, selected := if choice.Some? then choice else st.selected)
  }

  /**
   * The list shown is the API's, else the stored one, else the old one; a
   * non-empty list gets a selected cluster from it, the one with the saved
   * id when there is one; nothing but the list and selection changes.
   */
  lemma LoadClustersSpec(st: PageState, answer: Result<seq<WebCluster>, string>,
                         stored: Option<seq<WebCluster>>)
    ensures var r := LoadClusters(st, answer, stored);
      r.clusters == (if answer.Ok? then answer.value else if stored.Some? then stored.value else st.clusters) &&
      r.namespace == st.namespace && r.savedId == st.savedId && r.tab == st.tab && r.resources == st.resources
    ensures var r := LoadClusters(st, answer, stored);
      (answer.Ok? || stored.Some?) && |r.clusters| > 0 ==> r.selected.Some? && r.selected.value in r.clusters
    ensures var r := LoadClusters(st, answer, stored);
      (answer.Ok? || stored.Some?) && st.savedId != "" && (exists k :: 0 <= k < |r.clusters| && r.clusters[k].id == st.savedId) ==>
        r.selected.Some? && r.selected.value.id == st.savedId
    ensures var r := LoadClusters(st, answer, stored);
      |r.clusters| == 0 || (answer.Err? && stored.None?) ==> r.selected == st.selected
  {
    var r := LoadClusters(st, answer, stored);
    if answer.Ok? || stored.Some? {
      SelectClusterSpec(r.clusters, st.savedId);
    }
  }

  /** `handleClusterChange`: select the cluster with the id (none if absent), reset the namespace, save the id. */
  function ChangeCluster(st: PageState, id: string): PageState
  {
    st.(selected := Find(st.clusters, id), namespace := "default", savedId := id)
  }

  /**
   * The new selection is the first listed cluster with the id, or none; the
   * namespace is back to `"default"`; the id is saved, so reloading the same
   * list selects the same cluster again.
   */
  lemma ChangeClusterSpec(st: PageState, id: string)
    ensures var r := ChangeCluster(st, id);
      r.namespace == "default" && r.savedId == id && r.clusters == st.clusters &&
      r.tab == st.tab && r.resources == st.resources
    ensures var r := ChangeCluster(st, id);
      (r.selected.None? <==> forall k :: 0 <= k < |st.clusters| ==> st.clusters[k].id != id) &&
      (r.selected.Some? ==> r.selected.value.id == id && r.selected.value in st.clusters)
    ensures var r := ChangeCluster(st, id);
      id != "" && r.selected.Some? ==> LoadClusters(r, Ok(st.clusters), None).selected == r.selected
  {
    FindSpec(st.clusters, id);
    SelectClusterSpec(st.clusters, id);
  }

  // ------------------------------------------------------------ resources

  /** `getResourceTypeLabel`. */
  function TabLabel(tab: string): (text: string)
    ensures text == "资源" <==> tab != "pods" && tab != "deployments" && tab != "services" && tab != "configmaps"
    ensures tab == "pods" ==> text == "Pod"
    ensures tab == "deployments" ==> text == "Deployment"
    ensures tab == "services" ==> text == "Service"
    ensures tab == "configmaps" ==> text == "ConfigMap"
  {
    match tab
    case "pods" => "Pod"
    case "deployments" => "Deployment"
    case "services" => "Service"
    case "configmaps" => "ConfigMap"
    case _ => "资源"
  }

  /** The value a slot takes from a reply when the page reads the reply itself. */
  function Whole(reply: Reply): Option<seq<Resource>>
  {
    match reply
    case ListReply(items) => Some(items)
    case DataReply(_) => None
  }

  /** The value the pods slot takes: the reply's `data`, `undefined` for a plain array. */
  function DataOf(reply: Reply): Option<seq<Resource>>
  {
    match reply
    case ListReply(_) => None
    case DataReply(data) => Some(data)
  }

  /**
   * `fetchResources` once its request has answered: nothing without a
   * selected cluster and namespace or on an error; otherwise the slot of the
   * current tab gets the reply. Tabs other than pods read the reply itself,
   * which the page then lists, so a reply for them is a plain array.
   */
  function FetchResources(st: PageState, answer: Result<Reply, string>): PageState
    requires answer.Ok? && st.tab != "pods" ==> answer.value.ListReply?
  {
    if st.selected.None? || st.namespace == "" || answer.Err? then st
    else
      var reply := answer.value;
      match st.tab
      case "pods" => st.(resources := st.resources.(pods := DataOf(reply)))
      case "deployments" => st.(resources := st.resources.(deployments := Whole(reply)))
      case "services" => st.(resources := st.resources.(services := Whole(reply)))
      case "configmaps" => st.(resources := st.resources.(configMaps := Whole(reply)))
      case _ => st
  }

  /** The slot a tab reads; `None` for a tab without one. */
  function Slot(res: Resources, tab: string): Option<Option<seq<Resource>>>
  {
    match tab
    case "pods" => Some(res.pods)
    case "deployments" => Some(res.deployments)
    case "services" => Some(res.services)
    case "configmaps" => Some(res.configMaps)
    case _ => None
  }

  /**
   * A fetch changes at most the current tab's slot and nothing else; that
   * slot becomes the listed reply (the `data` array for pods).
   */
  lemma FetchResourcesSpec(st: PageState, answer: Result<Reply, string>, other: string)
    requires answer.Ok? && st.tab != "pods" ==> answer.value.ListReply?
    ensures var r := FetchResources(st, answer);
      r.(resources := st.resources) == st && (other != st.tab ==> Slot(r.resources, other) == Slot(st.resources, other))
    ensures st.selected.None? || st.namespace == "" || answer.Err? ==> FetchResources(st, answer) == st
    ensures var r := FetchResources(st, answer);
      st.selected.Some? && st.namespace != "" && answer.Ok? ==>
        (st.tab == "pods" ==> r.resources.pods == DataOf(answer.value)) &&
        (st.tab != "pods" && Slot(st.resources, st.tab).Some? ==>
           Slot(r.resources, st.tab) == Some(Some(answer.value.items)))
  {
  }

  /** A pods reply that is a plain array, as the mock API answers, leaves the pods tab listing nothing. */
  lemma ListReplyHidesPods(st: PageState, items: seq<Resource>, term: string)
    requires st.selected.Some? && st.namespace != "" && st.tab == "pods"
    ensures FilteredResources(FetchResources(st, Ok(ListReply(items))).resources.pods, term) == []
  {
  }

  // ------------------------------------------------------------ search

  /** The search test for a non-empty term: name, namespace or status, ignoring case. */
  predicate Matches(r: Resource, term: string)
  {
    IncludesIgnoringCase(r.name, term) ||
    (r.namespace != "" && IncludesIgnoringCase(r.namespace, term)) ||
    (r.status != "" && IncludesIgnoringCase(r.status, term))
  }

  /** `getFilteredResources`: an `undefined` slot lists nothing; an empty term keeps the list. */
  function FilteredResources(slot: Option<seq<Resource>>, term: string): seq<Resource>
  {
    var list := if slot.Some? then slot.value else [];
    if term == "" then list else Filter((r: Resource) => Matches(r, term), list)
  }

  /**
   * The listed resources are the slot's resources that match (all of them
   * for an empty term), each as often as in the slot and in its order.
   */
  lemma FilteredResourcesSpec(list: seq<Resource>, term: string)
    ensures term == "" ==> FilteredResources(Some(list), term) == list
    ensures FilteredResources(None, term) == []
    ensures SubList(FilteredResources(Some(list), term), list)
    ensures forall x :: x in FilteredResources(Some(list), term) <==> x in list && (term == "" || Matches(x, term))
    ensures forall x :: multiset(FilteredResources(Some(list), term))[x] ==
                        (if term == "" || Matches(x, term) then multiset(list)[x] else 0)
  {
    var shown := (r: Resource) => term == "" || Matches(r, term);
    if term == "" {
      FilterKeepsAll(shown, list);
    } else {
      FilterSame((r: Resource) => Matches(r, term), shown, list);
    }
    var f := FilteredResources(Some(list), term);
    assert f == Filter(shown, list);
    assert SubList(f, list) by { FilterSubList(shown, list); }
    assert forall x :: x in f <==> x in list && (term == "" || Matches(x, term)) by { FilterMembers(shown, list); }
    assert forall x :: multiset(f)[x] == (if term == "" || Matches(x, term) then multiset(list)[x] else 0) by {
      FilterCount(shown, list);
    }
  }
}
