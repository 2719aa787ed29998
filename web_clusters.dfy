/**
 * The cluster-management page: loading, adding and deleting clusters,
 * testing a cluster's connection, and the status badge. Each handler
 * computes the page's next `clusters` / `testResults` values from the ones
 * it captured when it was called.
 */
module ClustersPage {
  import opened Wrappers
  import opened Lists
  import opened ClusterSelect
  import opened WebCommon

  /** The add-cluster form; `kubeconfig` is `None` until a file is read. */
  datatype NewCluster = NewCluster(name: string, description: string, kubeconfig: Option<string>)

  /** What the connection-test reply says: its own `status` when it has one, and its version. */
  datatype TestReply = TestReply(status: Option<string>, version: string)

  /** An entry of `testResults`. */
  datatype TestResult = Testing | Passed(status: string, version: string) | Failed(message: string)

  /** The page state; `stored` is the `k8s-clusters` entry of local storage. */
  datatype ClustersState = ClustersState(clusters: seq<WebCluster>, results: map<string, TestResult>,
                                         form: NewCluster, adding: bool, stored: Option<seq<WebCluster>>)

  const EmptyForm := NewCluster("", "", None)

  // ------------------------------------------------------------ loading and the form

  /** `fetchClusters`: the API's list, else the stored list, else the list stays. */
  function LoadClusters(st: ClustersState, answer: Result<seq<WebCluster>, string>): (r: ClustersState)
    ensures r.clusters == (if answer.Ok? then answer.value else if st.stored.Some? then st.stored.value else st.clusters)
    ensures r.(clusters := st.clusters) == st
  {
    match answer
    case Ok(data) => st.(clusters := data)
    case Err(_) => if st.stored.Some? then st.(clusters := st.stored.value) else st
  }

  /** `handleFileChange`: the file's text becomes the form's kubeconfig. */
  function LoadKubeconfig(st: ClustersState, content: string): (r: ClustersState)
    ensures r.form.kubeconfig == Some(content) && r.form.name == st.form.name
    ensures r.(form := st.form) == st
  {
    st.(form := st.form.(kubeconfig := Some(content)))
  }

  /**
   * `handleAddCluster` asks the API only with a name and a kubeconfig; an
   * empty name, no file, or a file whose text is empty are all refused,
   * since the empty text is as falsy as `null`.
   */
  predicate CanAdd(form: NewCluster)
  {
    form.name != "" && form.kubeconfig.Some? && form.kubeconfig.value != ""
  }

  /**
   * `handleAddCluster` once the API has answered (`answer` is not consulted
   * when the form is incomplete): the added cluster goes to the end of the
   * list and to local storage, and the form is reset and closed.
   */
  function AddCluster(st: ClustersState, answer: Result<WebCluster, string>): ClustersState
  {
    if !CanAdd(st.form) then st
    else match answer
      case Err(_) => st
      case Ok(added) =>
        st.(clusters := st.clusters + [added], form := EmptyForm, adding := false,
            stored := Some(st.clusters + [added]))
  }

  /**
   * An incomplete form, or a failed request, changes nothing; otherwise the
   * list gains exactly the added cluster at its end, local storage holds the
   * new list, and the form is empty again.
   */
  lemma AddClusterSpec(st: ClustersState, answer: Result<WebCluster, string>)
    ensures !CanAdd(st.form) || answer.Err? ==> AddCluster(st, answer) == st
    ensures var r := AddCluster(st, answer);
      CanAdd(st.form) && answer.Ok? ==>
        |r.clusters| == |st.clusters| + 1 && r.clusters[..|st.clusters|] == st.clusters &&
        r.clusters[|st.clusters|] == answer.value && r.stored == Some(r.clusters) &&
        r.form == EmptyForm && !r.adding && !CanAdd(r.form) && r.results == st.results
  {
    var r := AddCluster(st, answer);
    if CanAdd(st.form) && answer.Ok? {
      assert r.clusters[..|st.clusters|] == st.clusters;
    }
  }

  /**
   * A kubeconfig file with no text is refused like a missing one: after
   * loading it, adding changes nothing, whatever the API would answer.
   */
  lemma EmptyFileRefused(st: ClustersState, answer: Result<WebCluster, string>)
    ensures var s := LoadKubeconfig(st, ""); AddCluster(s, answer) == s
  {
  }

  // ------------------------------------------------------------ deleting

  /** `deleteCluster` once the API has answered: the clusters with the id go, in the list and in local storage. */
  function DeleteCluster(st: ClustersState, id: string, answer: Result<bool, string>): ClustersState
  {
    if answer.Err? then st
    else
      var rest := Filter((c: WebCluster) => c.id != id, st.clusters);
      st.(clusters := rest, stored := Some(rest))
  }

  /**
   * After a successful delete no cluster has the id, every other cluster is
   * kept as often as before and in its order, and local storage holds the
   * same list; a failed delete changes nothing.
   */
  lemma DeleteClusterSpec(st: ClustersState, id: string, answer: Result<bool, string>)
    ensures answer.Err? ==> DeleteCluster(st, id, answer) == st
    ensures var r := DeleteCluster(st, id, answer);
      answer.Ok? ==>
        SubList(r.clusters, st.clusters) && r.stored == Some(r.clusters) &&
        (forall k :: 0 <= k < |r.clusters| ==> r.clusters[k].id != id) &&
        (forall c :: multiset(r.clusters)[c] == if c.id == id then 0 else multiset(st.clusters)[c]) &&
        r.results == st.results && r.form == st.form
  {
    var keep := (c: WebCluster) => c.id != id;
    if answer.Ok? {
      var r := DeleteCluster(st, id, answer);
      FilterSubList(keep, st.clusters);
      FilterCount(keep, st.clusters);
      FilterMembers(keep, st.clusters);
      forall k | 0 <= k < |r.clusters| ensures r.clusters[k].id != id {
        assert r.clusters[k] in r.clusters;
      }
    }
  }

  // ------------------------------------------------------------ connection tests

  /** The cluster status a finished test leaves. */
  function OutcomeStatus(outcome: Result<TestReply, string>): string
  {
    if outcome.Ok? then "connected" else "error"
  }

  /** The `testResults` entry a finished test leaves: the reply over `status: "success"`, or the error message. */
  function OutcomeResult(outcome: Result<TestReply, string>): (r: TestResult)
    ensures outcome.Ok? ==>
              r.Passed? && r.version == outcome.value.version &&
              r.status == (if outcome.value.status.Some? then outcome.value.status.value else "success")
    ensures outcome.Err? ==> r == Failed(if outcome.error != "" then outcome.error else "连接测试失败")
  {
    match outcome
    case Ok(reply) => Passed(if reply.status.Some? then reply.status.value else "success", reply.version)
    case Err(e) => Failed(if e != "" then e else "连接测试失败")
  }

  /** The clusters with a new status for those with the id. */
  function WithStatus(clusters: seq<WebCluster>, id: string, status: string): seq<WebCluster>
  {
    MapWhere((c: WebCluster) => c.id == id, (c: WebCluster) => c.(status := status), clusters)
  }

  /** Only the clusters with the id change, and only in their status. */
  lemma WithStatusSpec(clusters: seq<WebCluster>, id: string, status: string)
    ensures var r := WithStatus(clusters, id, status);
      |r| == |clusters| &&
      forall k :: 0 <= k < |clusters| ==>
        if clusters[k].id == id then r[k] == clusters[k].(status := status) else r[k] == clusters[k]
  {
    MapWhereSpec((c: WebCluster) => c.id == id, (c: WebCluster) => c.(status := status), clusters);
  }

  /** The start of `testClusterConnection`: the cluster shows as testing. */
  function StartTest(st: ClustersState, id: string): ClustersState
  {
    st.(clusters := WithStatus(st.clusters, id, "testing"), results := st.results[id := Testing])
  }

  /**
   * The end of `testClusterConnection`, computed from the state `from`
   * that the handler captured when it was called.
   */
  function FinishTest(from: ClustersState, id: string, outcome: Result<TestReply, string>): ClustersState
  {
    from.(clusters := WithStatus(from.clusters, id, OutcomeStatus(outcome)),
          results := from.results[id := OutcomeResult(outcome)])
  }

  /** Setting a status twice leaves the second. */
  lemma WithStatusTwice(clusters: seq<WebCluster>, id: string, first: string, second: string)
    ensures WithStatus(WithStatus(clusters, id, first), id, second) == WithStatus(clusters, id, second)
  {
    var mid := WithStatus(clusters, id, first);
    WithStatusSpec(clusters, id, first);
    WithStatusSpec(mid, id, second);
    WithStatusSpec(clusters, id, second);
  }

  /** Starting a test marks only that cluster and its entry as testing. */
  lemma StartTestSpec(st: ClustersState, id: string)
    ensures var mid := StartTest(st, id);
      mid.results == st.results[id := Testing] && mid.form == st.form && mid.stored == st.stored &&
      mid.clusters == WithStatus(st.clusters, id, "testing")
  {
  }

  /**
   * A finished test: only the tested cluster's status and test entry
   * change, to connected and the reply, or to error and the message; what
   * the start marked is overwritten.
   */
  lemma FinishTestSpec(st: ClustersState, id: string, outcome: Result<TestReply, string>)
    ensures var done := FinishTest(st, id, outcome);
      |done.clusters| == |st.clusters| &&
      (forall k :: 0 <= k < |st.clusters| ==>
         done.clusters[k] == if st.clusters[k].id == id then st.clusters[k].(status := OutcomeStatus(outcome))
                             else st.clusters[k]) &&
      done.results[id] == OutcomeResult(outcome) &&
      (forall other :: other in st.results && other != id ==> other in done.results && done.results[other] == st.results[other])
    ensures FinishTest(StartTest(st, id), id, outcome) == FinishTest(st, id, outcome)
  {
    WithStatusSpec(st.clusters, id, OutcomeStatus(outcome));
    WithStatusTwice(st.clusters, id, "testing", OutcomeStatus(outcome));
    assert StartTest(st, id).results[id := OutcomeResult(outcome)] == st.results[id := OutcomeResult(outcome)];
  }

  /**
   * Two overlapping tests as the page runs them: `b` is started while `a`
   * runs, `a` finishes first, and each finish writes the state its handler
   * captured.
   */
  function OverlappingTestsAsWritten(st: ClustersState, a: string, oa: Result<TestReply, string>,
                                     b: string, ob: Result<TestReply, string>): ClustersState
  {
    // `a`'s handler captured `st` and `b`'s the state after `a` started;
    // `b` finishes last, so its write is what remains.
    FinishTest(StartTest(st, a), b, ob)
  }

  /**
   * The same two tests with every update applied to the current state
   * (`setClusters(prev => …)`).
   */
  function OverlappingTests(st: ClustersState, a: string, oa: Result<TestReply, string>,
                            b: string, ob: Result<TestReply, string>): ClustersState
  {
    var afterA := StartTest(st, a);
    var afterB := StartTest(afterA, b);
    var aDone := FinishTest(afterB, a, oa);
    FinishTest(aDone, b, ob)
  }

  /** As written, the first test's outcome is lost: its cluster is left testing and so is its entry. */
  lemma OverlappingTestsLoseFirst(st: ClustersState, a: string, oa: Result<TestReply, string>,
                                  b: string, ob: Result<TestReply, string>, k: nat)
    requires a != b && k < |st.clusters| && st.clusters[k].id == a
    ensures var r := OverlappingTestsAsWritten(st, a, oa, b, ob);
      k < |r.clusters| && r.clusters[k].status == "testing" && r.results[a] == Testing
  {
    WithStatusSpec(st.clusters, a, "testing");
    WithStatusSpec(WithStatus(st.clusters, a, "testing"), b, OutcomeStatus(ob));
  }

  /** The cluster list through the four updates of two overlapping tests. */
  lemma OverlappingStatuses(clusters: seq<WebCluster>, a: string, sa: string, b: string, sb: string)
    requires a != b
    ensures var r := WithStatus(WithStatus(WithStatus(WithStatus(clusters, a, "testing"), b, "testing"), a, sa), b, sb);
      |r| == |clusters| &&
      forall k :: 0 <= k < |clusters| ==>
        r[k] == (if clusters[k].id == a then clusters[k].(status := sa)
                 else if clusters[k].id == b then clusters[k].(status := sb)
                 else clusters[k])
  {
    var c1 := WithStatus(clusters, a, "testing");
    var c2 := WithStatus(c1, b, "testing");
    var c3 := WithStatus(c2, a, sa);
    WithStatusSpec(clusters, a, "testing");
    WithStatusSpec(c1, b, "testing");
    WithStatusSpec(c2, a, sa);
    WithStatusSpec(c3, b, sb);
  }

  /** Applied to the current state, both outcomes stand once both tests are over. */
  lemma OverlappingTestsKeepBoth(st: ClustersState, a: string, oa: Result<TestReply, string>,
                                 b: string, ob: Result<TestReply, string>)
    requires a != b
    ensures var r := OverlappingTests(st, a, oa, b, ob);
      |r.clusters| == |st.clusters| &&
      (forall k :: 0 <= k < |st.clusters| && st.clusters[k].id == a ==> r.clusters[k].status == OutcomeStatus(oa)) &&
      (forall k :: 0 <= k < |st.clusters| && st.clusters[k].id == b ==> r.clusters[k].status == OutcomeStatus(ob)) &&
      (forall k :: 0 <= k < |st.clusters| && st.clusters[k].id != a && st.clusters[k].id != b ==>
         r.clusters[k] == st.clusters[k]) &&
      r.results[a] == OutcomeResult(oa) && r.results[b] == OutcomeResult(ob)
  {
    OverlappingStatuses(st.clusters, a, OutcomeStatus(oa), b, OutcomeStatus(ob));
  }

  // ------------------------------------------------------------ badges

  /** `getStatusBadge`: the badge variant and its text. */
  function StatusBadge(status: string): (b: (Badge, string))
    ensures status == "connected" <==> b == (Success, "已连接")
    ensures status == "error" <==> b == (Destructive, "连接错误")
    ensures status == "testing" <==> b == (Outline, "测试中...")
    ensures status != "connected" && status != "error" && status != "testing" <==> b == (Secondary, "待连接")
  {
    match status
    case "connected" => (Success, "已连接")
    case "error" => (Destructive, "连接错误")
    case "testing" => (Outline, "测试中...")
    case _ => (Secondary, "待连接")
  }
}
