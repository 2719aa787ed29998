/**
 * The cloud-server page: the provider and search filters over its instance,
 * volume and network lists, the status badge and provider icon, and the
 * status update an instance action makes.
 */
module CloudPage {
  import opened Strs
  import opened Lists
  import opened WebCommon

  /**
   * An instance, volume or network as the page filters it. Volumes and
   * networks have no addresses; they are `""` here.
   */
  datatype CloudItem = CloudItem(id: string, name: string, status: string, provider: string,
                                 publicIp: string, privateIp: string)

  /** The page's `cloudData` state. */
  datatype CloudData = CloudData(instances: seq<CloudItem>, volumes: seq<CloudItem>, networks: seq<CloudItem>)

  // ------------------------------------------------------------ filtering

  /** The provider filter: `"all"` keeps everything, any other value only that provider's items. */
  function ByProvider(data: seq<CloudItem>, provider: string): seq<CloudItem>
  {
    if provider == "all" then data else Filter((item: CloudItem) => item.provider == provider, data)
  }

  /**
   * The search test for a non-empty term: the name or status contains it
   * ignoring case, or an address contains it as written.
   */
  predicate Matches(item: CloudItem, term: string)
  {
    IncludesIgnoringCase(item.name, term) ||
    (item.publicIp != "" && Contains(item.publicIp, term)) ||
    (item.privateIp != "" && Contains(item.privateIp, term)) ||
    (item.status != "" && IncludesIgnoringCase(item.status, term))
  }

  /** `getFilteredData`: the provider filter, then the search unless the term is empty. */
  function FilteredData(data: seq<CloudItem>, provider: string, term: string): seq<CloudItem>
  {
    var byProvider := ByProvider(data, provider);
    if term == "" then byProvider else Filter((item: CloudItem) => Matches(item, term), byProvider)
  }

  /** Whether an item is listed: it passes the provider filter and, for a non-empty term, the search. */
  predicate Shown(item: CloudItem, provider: string, term: string)
  {
    (provider == "all" || item.provider == provider) && (term == "" || Matches(item, term))
  }

  /** The two filters in a row are one filter by `Shown`. */
  lemma FilteredDataIsFilter(data: seq<CloudItem>, provider: string, term: string)
    ensures FilteredData(data, provider, term) == Filter((item: CloudItem) => Shown(item, provider, term), data)
  {
    var shown := (item: CloudItem) => Shown(item, provider, term);
    var byProvider := (item: CloudItem) => item.provider == provider;
    var search := (item: CloudItem) => Matches(item, term);
    if provider == "all" && term == "" {
      FilterKeepsAll(shown, data);
    } else if provider == "all" {
      FilterSame(search, shown, data);
    } else if term == "" {
      FilterSame(byProvider, shown, data);
    } else {
      FilterTwice(byProvider, search, shown, data);
    }
  }

  /**
   * The listed items are exactly the shown ones, each as often as in the
   * data and in the data's order; with provider `"all"` and an empty search
   * the list is the data itself.
   */
  lemma FilteredDataSpec(data: seq<CloudItem>, provider: string, term: string)
    ensures SubList(FilteredData(data, provider, term), data)
    ensures forall x :: x in FilteredData(data, provider, term) <==> x in data && Shown(x, provider, term)
    ensures forall x :: multiset(FilteredData(data, provider, term))[x] ==
                        (if Shown(x, provider, term) then multiset(data)[x] else 0)
    ensures provider == "all" && term == "" ==> FilteredData(data, provider, term) == data
  {
    var shown := (item: CloudItem) => Shown(item, provider, term);
    FilteredDataIsFilter(data, provider, term);
    var f := FilteredData(data, provider, term);
    assert SubList(f, data) by { FilterSubList(shown, data); }
    assert forall x :: x in f <==> x in data && Shown(x, provider, term) by { FilterMembers(shown, data); }
    assert forall x :: multiset(f)[x] == (if Shown(x, provider, term) then multiset(data)[x] else 0) by {
      FilterCount(shown, data);
    }
  }

  // ------------------------------------------------------------ badges and icons

  /** `getStatusBadge`. */
  function StatusBadge(status: string): (b: Badge)
    ensures b == Success <==> status == "running" || status == "available" || status == "in-use"
    ensures b == Secondary <==> status == "stopped"
    ensures b == Destructive <==> status == "error" || status == "warning"
    ensures b != Warning
  {
    match status
    case "running" => Success
    case "available" => Success
    case "in-use" => Success
    case "stopped" => Secondary
    case "error" => Destructive
    case "warning" => Destructive
    case _ => Outline
  }

  /** `getProviderIcon`. */
  function ProviderIcon(provider: string): (icon: string)
    ensures icon == "cloud.svg" <==> provider != "AWS" && provider != "Azure" && provider != "GCP"
    ensures provider == "AWS" || provider == "Azure" || provider == "GCP" ==> ToLower(provider) + ".svg" == icon
  {
    match provider
    case "AWS" => "aws.svg"
    case "Azure" => "azure.svg"
    case "GCP" => "gcp.svg"
    case _ => "cloud.svg"
  }

  // ------------------------------------------------------------ instance actions

  /** The status an action leaves: 启动 starts, 停止 stops, anything else restarts. */
  function ActionStatus(action: string): (status: string)
    ensures status == "stopped" <==> action == "停止"
    ensures status == "running" <==> action != "停止"
  {
    if action == "启动" then "running" else if action == "停止" then "stopped" else "running"
  }

  /**
   * The update `handleInstanceAction` makes once its delay is over. It is
   * computed from `data`, the `cloudData` the handler captured at the click,
   * not from the state current when the delay ends.
   */
  function InstanceAction(data: CloudData, action: string, id: string): CloudData
  {
    data.(instances := MapWhere((item: CloudItem) => item.id == id,
                                (item: CloudItem) => item.(status := ActionStatus(action)),
                                data.instances))
  }

  /**
   * Only instances with the id change, and only in their status; volumes,
   * networks and the order of the instances stay; doing it again changes
   * nothing more.
   */
  lemma InstanceActionSpec(data: CloudData, action: string, id: string)
    ensures var after := InstanceAction(data, action, id);
      after.volumes == data.volumes && after.networks == data.networks &&
      |after.instances| == |data.instances| &&
      forall k :: 0 <= k < |data.instances| ==>
        if data.instances[k].id == id then after.instances[k] == data.instances[k].(status := ActionStatus(action))
        else after.instances[k] == data.instances[k]
    ensures InstanceAction(InstanceAction(data, action, id), action, id) == InstanceAction(data, action, id)
  {
    var hit := (item: CloudItem) => item.id == id;
    var f := (item: CloudItem) => item.(status := ActionStatus(action));
    var once := InstanceAction(data, action, id).instances;
    MapWhereSpec(hit, f, data.instances);
    MapWhereSpec(hit, f, once);
    assert MapWhere(hit, f, once) == once;
  }

  /**
   * Two actions clicked within the same two seconds, as the page runs them:
   * each delayed update is computed from the `cloudData` its handler
   * captured at the click, so the second write replaces the first.
   */
  function OverlappingActionsAsWritten(data: CloudData, a1: string, id1: string, a2: string, id2: string): CloudData
  {
    // The first update writes InstanceAction(data, a1, id1); the second overwrites it.
    InstanceAction(data, a2, id2)
  }

  /** The same two actions with each update applied to the current state (`setState(prev => …)`). */
  function OverlappingActions(data: CloudData, a1: string, id1: string, a2: string, id2: string): CloudData
  {
    InstanceAction(InstanceAction(data, a1, id1), a2, id2)
  }

  /** As written, the first action leaves no trace: its item keeps the status it had before the click. */
  lemma OverlappingActionsLoseFirst(data: CloudData, a1: string, id1: string, a2: string, id2: string, k: nat)
    requires id1 != id2 && k < |data.instances| && data.instances[k].id == id1
    ensures var r := OverlappingActionsAsWritten(data, a1, id1, a2, id2);
      k < |r.instances| && r.instances[k] == data.instances[k]
  {
    InstanceActionSpec(data, a2, id2);
  }

  /** Applied to the current state, both actions stand once both delays are over, and nothing else changes. */
  lemma OverlappingActionsKeepBoth(data: CloudData, a1: string, id1: string, a2: string, id2: string)
    requires id1 != id2
    ensures var r := OverlappingActions(data, a1, id1, a2, id2);
      r.volumes == data.volumes && r.networks == data.networks && |r.instances| == |data.instances| &&
      forall k :: 0 <= k < |data.instances| ==>
        r.instances[k] == (if data.instances[k].id == id1 then data.instances[k].(status := ActionStatus(a1))
                     else if data.instances[k].id == id2 then data.instances[k].(status := ActionStatus(a2))
                     else data.instances[k])
  {
    InstanceActionSpec(data, a1, id1);
    InstanceActionSpec(InstanceAction(data, a1, id1), a2, id2);
  }
}
