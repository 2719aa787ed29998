/**
 * What the dashboard pages share: the badge variants their status
 * classifiers choose from, the case-insensitive search test, and the
 * delete handler of the Kubernetes resource lists.
 */
module WebCommon {
  import opened Wrappers
  import opened Strs

  /** The `variant` of a status `Badge`. */
  datatype Badge = Success | Secondary | Destructive | Warning | Outline

  /** `field.toLowerCase().includes(term.toLowerCase())`. */
  predicate IncludesIgnoringCase(field: string, term: string)
  {
    Contains(ToLower(field), ToLower(term))
  }

  /** A `kubernetesAPI.deleteResource(clusterId, namespace, kind, name)` call. */
  datatype DeleteCall = DeleteCall(clusterId: string, namespace: string, kind: string, name: string)

  /** What `handleDeleteResource` did: the call it made, if any, and whether it refreshed the list. */
  datatype DeleteOutcome = DeleteOutcome(call: Option<DeleteCall>, refreshed: bool)

  /**
   * `handleDeleteResource(name)` of a resource list showing `kind`. A
   * missing cluster or namespace (`""`) makes it return at once; otherwise
   * it asks the API, and `answer` is how the API replied.
   */
  function DeleteResource(clusterId: string, namespace: string, kind: string, name: string,
                          answer: Result<(), string>): (r: DeleteOutcome)
    ensures r.call.None? <==> clusterId == "" || namespace == ""
    ensures r.call.Some? ==> r.call.value == DeleteCall(clusterId, namespace, kind, name)
    ensures r.refreshed <==> r.call.Some? && answer.Ok?
  {
    if clusterId == "" || namespace == "" then DeleteOutcome(None, false)
    else DeleteOutcome(Some(DeleteCall(clusterId, namespace, kind, name)), answer.Ok?)
  }
}
