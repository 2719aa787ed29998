/**
 * The cluster records the dashboard pages keep, and the rule by which a
 * page picks its selected cluster after loading the list: the cluster whose
 * id was saved in local storage, else the first cluster.
 */
module ClusterSelect {
  import opened Wrappers

  /** A cluster as the dashboard lists it. */
  datatype WebCluster = WebCluster(id: string, name: string, description: string, status: string, version: string)

  /** Index of the first cluster with this id, or `|data|` when there is none. */
  function FindIndex(data: seq<WebCluster>, id: string): (r: nat)
    ensures r <= |data| && (r < |data| ==> data[r].id == id)
    ensures forall k :: 0 <= k < r ==> data[k].id != id
  {
    if |data| == 0 then 0
    else if data[0].id == id then 0
    else 1 + FindIndex(data[1..], id)
  }

  /** `data.find(c => c.id === id)`. */
  function Find(data: seq<WebCluster>, id: string): Option<WebCluster>
  {
    var i := FindIndex(data, id);
    if i < |data| then Some(data[i]) else None
  }

  /** `find` yields the first cluster with the id, and nothing exactly when no cluster has it. */
  lemma FindSpec(data: seq<WebCluster>, id: string)
    ensures Find(data, id).None? <==> forall k :: 0 <= k < |data| ==> data[k].id != id
    ensures Find(data, id).Some? ==>
      exists i :: 0 <= i < |data| && data[i] == Find(data, id).value && data[i].id == id &&
                  forall k :: 0 <= k < i ==> data[k].id != id
  {
  }

  /**
   * The selection after loading `data`, with `saved` the stored id (`""`
   * when none is stored). `None` means the selection is left as it was.
   */
  function SelectCluster(data: seq<WebCluster>, saved: string): Option<WebCluster>
  {
    if saved != "" && Find(data, saved).Some? then Find(data, saved)
    else if |data| > 0 then Some(data[0])
    else None
  }

  /**
   * A cluster is selected exactly when the list is non-empty, and it is one
   * of the list: the first with the saved id when there is one, else the
   * first cluster.
   */
  lemma SelectClusterSpec(data: seq<WebCluster>, saved: string)
    ensures SelectCluster(data, saved).Some? <==> |data| > 0
    ensures SelectCluster(data, saved).Some? ==> SelectCluster(data, saved).value in data
    ensures saved != "" && (exists k :: 0 <= k < |data| && data[k].id == saved) ==>
      SelectCluster(data, saved).Some? && SelectCluster(data, saved).value.id == saved &&
      SelectCluster(data, saved).value == data[FindIndex(data, saved)]
    ensures (saved == "" || forall k :: 0 <= k < |data| ==> data[k].id != saved) && |data| > 0 ==>
      SelectCluster(data, saved) == Some(data[0])
  {
    FindSpec(data, saved);
  }
}
