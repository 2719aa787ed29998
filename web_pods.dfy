/**
 * The Pods list of a cluster's namespace: the status badge, the 查看详情
 * toggle of the expanded pod, and the delete handler.
 */
module PodsList {
  import opened Wrappers
  import opened WebCommon

  /** The Pod `StatusBadge`. */
  function StatusBadge(status: string): (b: Badge)
    ensures b == Success <==> status == "Running" || status == "Available"
    ensures b == Warning <==> status == "Degraded" || status == "Pending"
    ensures b == Destructive <==> status == "CrashLoopBackOff" || status == "Failed"
    ensures b == Outline <==> status !in {"Running", "Available", "Degraded", "Pending", "CrashLoopBackOff", "Failed"}
  {
    if status == "Running" || status == "Available" then Success
    else if status == "Degraded" || status == "Pending" then Warning
    else if status == "CrashLoopBackOff" || status == "Failed" then Destructive
    else Outline
  }

  /**
   * 查看详情 on the pod `name`, with `expanded` the pod shown expanded
   * (`None` for `null`): the expanded pod folds, any other pod expands.
   */
  function ToggleExpanded(expanded: Option<string>, name: string): (r: Option<string>)
    ensures r.None? <==> expanded == Some(name)
    ensures r.Some? ==> r == Some(name)
  {
    if expanded == Some(name) then None else Some(name)
  }

  /**
   * Two clicks on the same pod restore the view when it started folded or
   * expanded on that pod; from another pod's detail they leave all folded.
   */
  lemma ToggleTwice(expanded: Option<string>, name: string)
    ensures expanded.None? || expanded == Some(name) ==> ToggleExpanded(ToggleExpanded(expanded, name), name) == expanded
    ensures expanded.Some? && expanded != Some(name) ==> ToggleExpanded(ToggleExpanded(expanded, name), name).None?
  {
  }

  /** `handleDeleteResource` of the Pods list. */
  function DeletePod(clusterId: string, namespace: string, name: string, answer: Result<(), string>): (r: DeleteOutcome)
    ensures r.call.None? <==> clusterId == "" || namespace == ""
    ensures r.call.Some? ==> r.call.value == DeleteCall(clusterId, namespace, "pods", name)
    ensures r.refreshed <==> r.call.Some? && answer.Ok?
  {
    DeleteResource(clusterId, namespace, "pods", name, answer)
  }
}
