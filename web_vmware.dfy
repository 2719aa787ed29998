/**
 * The VMware page: the search filter over its host, virtual-machine and
 * datastore lists, the status badge, and the status update a VM action
 * makes.
 */
module VmwarePage {
  import opened Strs
  import opened Lists
  import opened WebCommon

  /** A host, VM or datastore as the page filters it; a datastore has no address (`""`). */
  datatype VmItem = VmItem(id: string, name: string, status: string, ip: string)

  /** The page's `vmwareData` state. */
  datatype VmwareData = VmwareData(hosts: seq<VmItem>, vms: seq<VmItem>, datastores: seq<VmItem>)

  /** The search test for a non-empty term: name or status ignoring case, or the address as written. */
  predicate Matches(item: VmItem, term: string)
  {
    IncludesIgnoringCase(item.name, term) ||
    (item.ip != "" && Contains(item.ip, term)) ||
    (item.status != "" && IncludesIgnoringCase(item.status, term))
  }

  /** `getFilteredData`: the whole list for an empty term, else the matching items. */
  function FilteredData(data: seq<VmItem>, term: string): seq<VmItem>
  {
    if term == "" then data else Filter((item: VmItem) => Matches(item, term), data)
  }

  /**
   * The listed items are the data's items that match (all of them for an
   * empty term), each as often as in the data and in the data's order.
   */
  lemma FilteredDataSpec(data: seq<VmItem>, term: string)
    ensures term == "" ==> FilteredData(data, term) == data
    ensures SubList(FilteredData(data, term), data)
    ensures forall x :: x in FilteredData(data, term) <==> x in data && (term == "" || Matches(x, term))
    ensures forall x :: multiset(FilteredData(data, term))[x] ==
                        (if term == "" || Matches(x, term) then multiset(data)[x] else 0)
  {
    var shown := (item: VmItem) => term == "" || Matches(item, term);
    if term == "" {
      FilterKeepsAll(shown, data);
    } else {
      FilterSame((item: VmItem) => Matches(item, term), shown, data);
    }
    var f := FilteredData(data, term);
    assert f == Filter(shown, data);
    assert SubList(f, data) by { FilterSubList(shown, data); }
    assert forall x :: x in f <==> x in data && (term == "" || Matches(x, term)) by { FilterMembers(shown, data); }
    assert forall x :: multiset(f)[x] == (if term == "" || Matches(x, term) then multiset(data)[x] else 0) by {
      FilterCount(shown, data);
    }
  }

  /** `getStatusBadge`. */
  function StatusBadge(status: string): (b: Badge)
    ensures b == Success <==> status == "running" || status == "online" || status == "normal"
    ensures b == Secondary <==> status == "stopped" || status == "offline"
    ensures b == Warning <==> status == "suspended" || status == "maintenance" || status == "warning"
    ensures b != Destructive
  {
    match status
    case "running" => Success
    case "online" => Success
    case "normal" => Success
    case "stopped" => Secondary
    case "offline" => Secondary
    case "suspended" => Warning
    case "maintenance" => Warning
    case "warning" => Warning
    case _ => Outline
  }

  /** The status an action leaves: 启动 starts, 关闭 shuts down, anything else restarts. */
  function ActionStatus(action: string): (status: string)
    ensures status == "stopped" <==> action == "关闭"
    ensures status == "running" <==> action != "关闭"
  {
    if action == "启动" then "running" else if action == "关闭" then "stopped" else "running"
  }

  /**
   * The update `handleVMAction` makes once its delay is over. It is computed
   * from `data`, the `vmwareData` the handler captured at the click, not from
   * the state current when the delay ends.
   */
  function VmAction(data: VmwareData, action: string, id: string): VmwareData
  {
    data.(vms := MapWhere((vm: VmItem) => vm.id == id, (vm: VmItem) => vm.(status := ActionStatus(action)), data.vms))
  }

  /**
   * Only VMs with the id change, and only in their status; hosts,
   * datastores and the order of the VMs stay; doing it again changes
   * nothing more.
   */
  lemma VmActionSpec(data: VmwareData, action: string, id: string)
    ensures var after := VmAction(data, action, id);
      after.hosts == data.hosts && after.datastores == data.datastores &&
      |after.vms| == |data.vms| &&
      forall k :: 0 <= k < |data.vms| ==>
        if data.vms[k].id == id then after.vms[k] == data.vms[k].(status := ActionStatus(action))
        else after.vms[k] == data.vms[k]
    ensures VmAction(VmAction(data, action, id), action, id) == VmAction(data, action, id)
  {
    var hit := (vm: VmItem) => vm.id == id;
    var f := (vm: VmItem) => vm.(status := ActionStatus(action));
    var once := VmAction(data, action, id).vms;
    MapWhereSpec(hit, f, data.vms);
    MapWhereSpec(hit, f, once);
    assert MapWhere(hit, f, once) == once;
  }

  /**
   * Two actions clicked within the same two seconds, as the page runs them:
   * each delayed update is computed from the `vmwareData` its handler
   * captured at the click, so the second write replaces the first.
   */
  function OverlappingActionsAsWritten(data: VmwareData, a1: string, id1: string, a2: string, id2: string): VmwareData
  {
    // The first update writes VmAction(data, a1, id1); the second overwrites it.
    VmAction(data, a2, id2)
  }

  /** The same two actions with each update applied to the current state (`setState(prev => …)`). */
  function OverlappingActions(data: VmwareData, a1: string, id1: string, a2: string, id2: string): VmwareData
  {
    VmAction(VmAction(data, a1, id1), a2, id2)
  }

  /** As written, the first action leaves no trace: its item keeps the status it had before the click. */
  lemma OverlappingActionsLoseFirst(data: VmwareData, a1: string, id1: string, a2: string, id2: string, k: nat)
    requires id1 != id2 && k < |data.vms| && data.vms[k].id == id1
    ensures var r := OverlappingActionsAsWritten(data, a1, id1, a2, id2);
      k < |r.vms| && r.vms[k] == data.vms[k]
  {
    VmActionSpec(data, a2, id2);
  }

  /** Applied to the current state, both actions stand once both delays are over, and nothing else changes. */
  lemma OverlappingActionsKeepBoth(data: VmwareData, a1: string, id1: string, a2: string, id2: string)
    requires id1 != id2
    ensures var r := OverlappingActions(data, a1, id1, a2, id2);
      r.hosts == data.hosts && r.datastores == data.datastores && |r.vms| == |data.vms| &&
      forall k :: 0 <= k < |data.vms| ==>
        r.vms[k] == (if data.vms[k].id == id1 then data.vms[k].(status := ActionStatus(a1))
                     else if data.vms[k].id == id2 then data.vms[k].(status := ActionStatus(a2))
                     else data.vms[k])
  {
    VmActionSpec(data, a1, id1);
    VmActionSpec(VmAction(data, a1, id1), a2, id2);
  }
}
