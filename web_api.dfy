/**
 * The dashboard's API client in mock mode: `fetchAPI` and the mock router
 * behind it, which answers cluster, namespace, resource and terminal
 * requests from built-in sample data and keeps added clusters in the
 * `k8s-clusters` entry of local storage.
 */
module Api {
  import opened Wrappers
  import opened Strs
  import opened Lists
  import opened ClusterSelect

  // ------------------------------------------------------------ sample data

  datatype Pod = Pod(name: string, namespace: string, status: string, age: string)
  datatype Deployment = Deployment(name: string, namespace: string, replicas: string, status: string,
                                   image: string, age: string)
  /** A service; `kind` is its `type`. */
  datatype Service = Service(name: string, namespace: string, kind: string, clusterIP: string,
                             externalIP: string, ports: string, age: string)
  datatype ConfigMap = ConfigMap(name: string, namespace: string, data: string, age: string)

  /** The built-in clusters (their `addedAt` times are left out). */
  const MockClusters: seq<WebCluster> := [
    WebCluster("cluster-1", "生产集群", "生产环境 Kubernetes 集群", "connected", "v1.25.4"),
    WebCluster("cluster-2", "测试集群", "测试环境 Kubernetes 集群", "connected", "v1.26.1"),
    WebCluster("cluster-3", "开发集群", "开发环境 Kubernetes 集群", "error", "v1.27.0")
  ]

  const MockNamespaces: seq<string> :=
    ["default", "kube-system", "kube-public", "production", "development", "monitoring"]

  /** The built-in pods (their node, CPU and memory columns are left out). */
  const MockPods: seq<Pod> := [
    Pod("nginx-deployment-6b474476c4-abcd1", "default", "Running", "3d"),
    Pod("nginx-deployment-6b474476c4-abcd2", "default", "Running", "3d"),
    Pod("mysql-0", "default", "Running", "5d"),
    Pod("prometheus-server-0", "monitoring", "Running", "1d"),
    Pod("grafana-deployment-5c88d67f-xyz12", "monitoring", "Running", "1d")
  ]

  const MockDeployments: seq<Deployment> := [
    Deployment("nginx-deployment", "default", "2/2", "Available", "nginx:1.19", "3d"),
    Deployment("frontend-deployment", "production", "3/3", "Available", "frontend:v1.2.3", "2d"),
    Deployment("backend-deployment", "production", "2/2", "Available", "backend:v1.0.5", "2d"),
    Deployment("prometheus-deployment", "monitoring", "1/1", "Available", "prometheus:v2.30.0", "1d"),
    Deployment("grafana-deployment", "monitoring", "1/1", "Available", "grafana:8.2.0", "1d")
  ]

  const MockServices: seq<Service> := [
    Service("nginx-service", "default", "ClusterIP", "10.0.0.1", "", "80/TCP", "3d"),
    Service("frontend-service", "production", "LoadBalancer", "10.0.0.2", "34.123.45.67", "80:30080/TCP", "2d"),
    Service("backend-service", "production", "ClusterIP", "10.0.0.3", "", "8080/TCP", "2d"),
    Service("prometheus-service", "monitoring", "ClusterIP", "10.0.0.4", "", "9090/TCP", "1d"),
    Service("grafana-service", "monitoring", "ClusterIP", "10.0.0.5", "", "3000/TCP", "1d")
  ]

  const MockConfigMaps: seq<ConfigMap> := [
    ConfigMap("nginx-config", "default", "2 items", "3d"),
    ConfigMap("app-config", "production", "5 items", "2d"),
    ConfigMap("prometheus-config", "monitoring", "3 items", "1d"),
    ConfigMap("grafana-config", "monitoring", "4 items", "1d")
  ]

  // ------------------------------------------------------------ requests and replies

  /** A request: its HTTP method and the fields of its JSON body that the mock reads. */
  datatype Request = Request(verb: string, name: string, description: string, command: string, namespace: string)

  /** What a mock request resolves to. */
  datatype Reply =
    | ClusterList(clusters: seq<WebCluster>)
      /** One cluster; `None` is `undefined`. */
    | ClusterFound(cluster: Option<WebCluster>)
      /** `{ success: true }`. */
    | Deleted
      /** `{ status: "success", version, nodes, pods, namespaces }`, the last two as counts. */
    | Connected(version: string, nodes: nat, podCount: nat, namespaceCount: nat)
      /** The timer callback threw, so the promise never settles. */
    | Pending
    | NamespaceList(names: seq<string>)
    | PodList(pods: seq<Pod>)
    | DeploymentList(deployments: seq<Deployment>)
    | ServiceList(services: seq<Service>)
    | ConfigMapList(configMaps: seq<ConfigMap>)
    | Output(output: string)
    | Message(message: string)

  // ------------------------------------------------------------ routing

  /** The endpoint families the mock tells apart. */
  datatype Route =
    | ClustersRoute
    | ClusterRoute(id: string)
    | TestRoute(id: string)
    | NamespacesRoute
    | ResourceRoute(kind: string, namespace: string)
    | TerminalRoute
    | NoRoute

  /** The `k`-th segment from the end (`1` is the last). */
  function FromEnd(segs: seq<string>, k: nat): string
    requires 0 < k <= |segs|
  {
    segs[|segs| - k]
  }

  // Each pattern is anchored only at its end and has a '/' before its first
  // word, so at least one segment comes before it; `[^/]+` is one non-empty
  // segment.

  /** `/\/clusters\/[^/]+$/`. */
  predicate ClusterPattern(segs: seq<string>)
  {
    |segs| > 2 && FromEnd(segs, 2) == "clusters" && FromEnd(segs, 1) != ""
  }

  /** `/\/clusters\/[^/]+\/test$/`. */
  predicate TestPattern(segs: seq<string>)
  {
    |segs| > 3 && FromEnd(segs, 3) == "clusters" && FromEnd(segs, 2) != "" && FromEnd(segs, 1) == "test"
  }

  /** `/\/kubernetes\/[^/]+\/<last>$/`, for the namespaces and terminal routes. */
  predicate ClusterScopedPattern(segs: seq<string>, last: string)
  {
    |segs| > 3 && FromEnd(segs, 3) == "kubernetes" && FromEnd(segs, 2) != "" && FromEnd(segs, 1) == last
  }

  /** `/\/kubernetes\/[^/]+\/namespaces\/[^/]+\/<kind>$/`. */
  predicate ResourcePattern(segs: seq<string>, kind: string)
  {
    |segs| > 5 && FromEnd(segs, 5) == "kubernetes" && FromEnd(segs, 4) != "" &&
    FromEnd(segs, 3) == "namespaces" && FromEnd(segs, 2) != "" && FromEnd(segs, 1) == kind
  }

  /**
   * The tests of `mockAPIResponse`, in their order, on the endpoint's
   * segments; the ids and namespaces are read at fixed positions from the
   * front, as `split("/")[2]` and `[4]` do.
   */
  function Dispatch(segs: seq<string>): Route
  {
    if ClusterPattern(segs) then ClusterRoute(FromEnd(segs, 1))
    else if TestPattern(segs) then TestRoute(segs[2])
    else if ClusterScopedPattern(segs, "namespaces") then NamespacesRoute
    else if ResourcePattern(segs, "pods") then ResourceRoute("pods", segs[4])
    else if ResourcePattern(segs, "deployments") then ResourceRoute("deployments", segs[4])
    else if ResourcePattern(segs, "services") then ResourceRoute("services", segs[4])
    else if ResourcePattern(segs, "configmaps") then ResourceRoute("configmaps", segs[4])
    else if ClusterScopedPattern(segs, "terminal") then TerminalRoute
    else NoRoute
  }

  /** The route of an endpoint: `"/clusters"` exactly, else the pattern tests. */
  function RouteOf(endpoint: string): Route
  {
    if endpoint == "/clusters" then ClustersRoute else Dispatch(Split(endpoint, '/'))
  }

  /** A path segment the client puts in a URL: non-empty and without '/'. */
  predicate Segment(s: string)
  {
    s != "" && '/' !in s
  }

  /** The endpoint the client writes as `/<segs[0]>/<segs[1]>/…`. */
  function Endpoint(segs: seq<string>): string
  {
    Join([""] + segs, "/")
  }

  /** An endpoint splits back into its segments, after the empty one before the leading '/'. */
  lemma SplitEndpoint(segs: seq<string>)
    requires forall i :: 0 <= i < |segs| ==> Segment(segs[i])
    ensures Split(Endpoint(segs), '/') == [""] + segs
  {
    var all := [""] + segs;
    forall i | 0 <= i < |all| ensures '/' !in all[i] {
      if i > 0 {
        assert all[i] == segs[i - 1];
      }
    }
    SplitJoinChar(all, '/');
  }

  /** Only the one-segment endpoint `/clusters` is the cluster list. */
  lemma NotClusterList(segs: seq<string>)
    requires forall i :: 0 <= i < |segs| ==> Segment(segs[i])
    requires |segs| != 1
    ensures RouteOf(Endpoint(segs)) == Dispatch([""] + segs)
  {
    SplitEndpoint(segs);
    SplitEndpoint(["clusters"]);
    assert Endpoint(["clusters"]) == "/clusters" by {
      var parts := [""] + ["clusters"];
      assert parts[1..] == ["clusters"];
      assert Join(parts, "/") == "" + "/" + "clusters";
    }
  }

  /** The client's cluster and test endpoints reach the cluster and test routes (an id `clusters` is caught earlier). */
  lemma ClusterPathsRoute(id: string)
    requires Segment(id) && id != "clusters"
    ensures RouteOf(Endpoint(["clusters", id])) == ClusterRoute(id)
    ensures RouteOf(Endpoint(["clusters", id, "test"])) == TestRoute(id)
  {
    NotClusterList(["clusters", id]);
    NotClusterList(["clusters", id, "test"]);
    assert [""] + ["clusters", id] == ["", "clusters", id];
    assert [""] + ["clusters", id, "test"] == ["", "clusters", id, "test"];
  }

  /**
   * The client's resource endpoint for a cluster and namespace reaches the
   * resource route with that namespace (a namespace `clusters` is caught
   * earlier, by the cluster pattern).
   */
  lemma ResourcePathRoute(cluster: string, namespace: string, kind: string)
    requires Segment(cluster) && Segment(namespace) && namespace != "clusters"
    requires kind == "pods" || kind == "deployments" || kind == "services" || kind == "configmaps"
    ensures RouteOf(Endpoint(["kubernetes", cluster, "namespaces", namespace, kind])) == ResourceRoute(kind, namespace)
  {
    var segs := ["kubernetes", cluster, "namespaces", namespace, kind];
    NotClusterList(segs);
    assert [""] + segs == ["", "kubernetes", cluster, "namespaces", namespace, kind];
  }

  // ------------------------------------------------------------ answers

  /** The stored clusters, `[]` when none are stored (`JSON.parse(… || "[]")`). */
  function StoredList(stored: Option<seq<WebCluster>>): seq<WebCluster>
  {
    if stored.Some? then stored.value else []
  }

  /** A cluster by id: the stored one, else the built-in one. */
  function Lookup(stored: Option<seq<WebCluster>>, id: string): Option<WebCluster>
  {
    var mine := Find(StoredList(stored), id);
    if mine.Some? then mine else Find(MockClusters, id)
  }

  /** The cluster a POST to `/clusters` creates; `now` stands for `Date.now()`. */
  function NewCluster(req: Request, now: string): WebCluster
  {
    WebCluster("cluster-" + now, req.name, req.description, "connected", "v1.25.0")
  }

  /** The namespace filter of the resource routes: `"all"` keeps everything. */
  function InNamespace<T>(items: seq<T>, namespace: string, namespaceOf: T -> string): seq<T>
  {
    if namespace == "all" then items else Filter((x: T) => namespaceOf(x) == namespace, items)
  }

  /**
   * The listed items are the items in the namespace (all for `"all"`), each
   * as often as before and in their order.
   */
  lemma InNamespaceSpec<T>(items: seq<T>, namespace: string, namespaceOf: T -> string)
    ensures namespace == "all" ==> InNamespace(items, namespace, namespaceOf) == items
    ensures SubList(InNamespace(items, namespace, namespaceOf), items)
    ensures forall x :: multiset(InNamespace(items, namespace, namespaceOf))[x] ==
                        (if namespace == "all" || namespaceOf(x) == namespace then multiset(items)[x] else 0)
  {
    var keep := (x: T) => namespace == "all" || namespaceOf(x) == namespace;
    if namespace == "all" {
      FilterKeepsAll(keep, items);
    } else {
      FilterSame((x: T) => namespaceOf(x) == namespace, keep, items);
    }
    FilterSubList(keep, items);
    FilterCount(keep, items);
  }

  function PodNamespace(p: Pod): string { p.namespace }
  function DeploymentNamespace(d: Deployment): string { d.namespace }
  function ServiceNamespace(s: Service): string { s.namespace }
  function ConfigMapNamespace(c: ConfigMap): string { c.namespace }

  /** The answer of a resource route. */
  function ResourceAnswer(kind: string, namespace: string): Reply
  {
    match kind
    case "pods" => PodList(InNamespace(MockPods, namespace, PodNamespace))
    case "deployments" => DeploymentList(InNamespace(MockDeployments, namespace, DeploymentNamespace))
    case "services" => ServiceList(InNamespace(MockServices, namespace, ServiceNamespace))
    case _ => ConfigMapList(InNamespace(MockConfigMaps, namespace, ConfigMapNamespace))
  }

  /** The answer of the test route: connected when the cluster is known and not in error, else never settled. */
  function TestAnswer(stored: Option<seq<WebCluster>>, id: string): (r: Reply)
    ensures r.Connected? <==> Lookup(stored, id).Some? && Lookup(stored, id).value.status != "error"
    ensures r.Pending? <==> !r.Connected?
    ensures r.Connected? ==>
              r.nodes == 3 && r.podCount == 24 && r.namespaceCount == 6 &&
              r.version == (if Lookup(stored, id).value.version != "" then Lookup(stored, id).value.version else "v1.25.0")
  {
    var c := Lookup(stored, id);
    if c.Some? && c.value.status != "error" then
      Connected(if c.value.version != "" then c.value.version else "v1.25.0", 3, 24, 6)
    else Pending
  }

  // ------------------------------------------------------------ the terminal

  const HelpText := "可用命令:\n  get [resource] - 获取资源列表\n  describe [resource] [name] - 查看资源详情\n  logs [pod] - 查看 Pod 日志\n  exec [pod] [command] - 在 Pod 中执行命令"
  const PodsHeader := "NAME                " + "                    " + "READY   " + "STATUS    " + "RESTARTS   " + "AGE"
  const DeploymentsHeader := "NAME                " + " " + "READY   " + "UP-TO-DATE   " + "AVAILABLE   " + "AGE"
  const ServicesHeader := "NAME                " + " " + "TYPE           " + "CLUSTER-IP    " + "EXTERNAL-IP    " + "PORT(S)          " + "AGE"

  function PodRow(p: Pod): string
  {
    p.name + "   1/1     " + p.status + "    0          " + p.age
  }

  function DeploymentRow(d: Deployment): string
  {
    var ready := Split(d.replicas, '/')[0];
    d.name + "   " + d.replicas + "    " + ready + "            " + ready + "           " + d.age
  }

  function ServiceRow(s: Service): string
  {
    s.name + "   " + s.kind + "    " + s.clusterIP + "    " +
    (if s.externalIP != "" then s.externalIP else "<none>") + "    " + s.ports + "    " + s.age
  }

  /** The rows, each ended by a newline. */
  function Lines(rows: seq<string>): string
  {
    if |rows| == 0 then "" else Lines(rows[..|rows| - 1]) + rows[|rows| - 1] + "\n"
  }

  /** A listing: the header line, then one line per row. */
  function Listing(header: string, rows: seq<string>): string
  {
    header + "\n" + Lines(rows)
  }

  /** The first row comes first. */
  lemma {:induction false} LinesFront(rows: seq<string>)
    requires |rows| > 0
    ensures Lines(rows) == rows[0] + "\n" + Lines(rows[1..])
  {
    if |rows| > 1 {
      var init := rows[..|rows| - 1];
      LinesFront(init);
      assert init[1..] == rows[1..][..|rows[1..]| - 1];
    } else {
      assert rows[1..] == [];
    }
  }

  /** The lines are the rows joined by newlines, with an empty piece after the last newline. */
  lemma {:induction false} JoinLines(rows: seq<string>)
    ensures Join(rows + [""], "\n") == Lines(rows)
  {
    if |rows| > 0 {
      JoinLines(rows[1..]);
      LinesFront(rows);
      assert (rows + [""])[1..] == rows[1..] + [""];
    } else {
      assert rows + [""] == [""];
    }
  }

  /**
   * A listing splits at its newlines into the header, one piece per row and
   * a final empty piece, when none of them holds a newline itself.
   */
  lemma ListingLines(header: string, rows: seq<string>)
    requires '\n' !in header && forall i :: 0 <= i < |rows| ==> '\n' !in rows[i]
    ensures Split(Listing(header, rows), '\n') == [header] + rows + [""]
  {
    var parts := [header] + rows + [""];
    JoinLines(rows);
    assert parts == [header] + (rows + [""]);
    assert parts[1..] == rows + [""];
    SplitJoinChar(parts, '\n');
  }

  /** `s.map(row)`. */
  function Rows<T>(row: T -> string, items: seq<T>): (r: seq<string>)
    ensures |r| == |items|
  {
    if |items| == 0 then [] else Rows(row, items[..|items| - 1]) + [row(items[|items| - 1])]
  }

  /** The terminal's answer to a command in a namespace, checked in order: help, the three listings, else an echo. */
  function TerminalText(command: string, namespace: string): string
  {
    if Contains(command, "help") then HelpText
    else if Contains(command, "get pods") then
      Listing(PodsHeader, Rows(PodRow, Filter((p: Pod) => p.namespace == namespace, MockPods)))
    else if Contains(command, "get deployments") then
      Listing(DeploymentsHeader, Rows(DeploymentRow, Filter((d: Deployment) => d.namespace == namespace, MockDeployments)))
    else if Contains(command, "get services") then
      Listing(ServicesHeader, Rows(ServiceRow, Filter((s: Service) => s.namespace == namespace, MockServices)))
    else "执行命令: " + command + " 在命名空间 " + namespace + "\n模拟输出: 命令执行成功"
  }

  /** `output += row + "\n"` for each item, after the header. */
  method BuildListing<T>(header: string, row: T -> string, items: seq<T>) returns (out: string)
    ensures out == Listing(header, Rows(row, items))
  {
    out := header + "\n";
    var i := 0;
    while i < |items|
      invariant 0 <= i <= |items|
      invariant out == Listing(header, Rows(row, items[..i]))
    {
      assert items[..i + 1][..i] == items[..i];
      var rows := Rows(row, items[..i + 1]);
      assert rows[..|rows| - 1] == Rows(row, items[..i]);
      out := out + row(items[i]) + "\n";
      i := i + 1;
    }
    assert items[..i] == items;
  }

  /** The terminal route's output, built line by line. */
  method TerminalOutput(command: string, namespace: string) returns (out: string)
    ensures out == TerminalText(command, namespace)
  {
    if Contains(command, "help") {
      out := HelpText;
    } else if Contains(command, "get pods") {
      out := BuildListing(PodsHeader, PodRow, Filter((p: Pod) => p.namespace == namespace, MockPods));
    } else if Contains(command, "get deployments") {
      out := BuildListing(DeploymentsHeader, DeploymentRow, Filter((d: Deployment) => d.namespace == namespace, MockDeployments));
    } else if Contains(command, "get services") {
      out := BuildListing(ServicesHeader, ServiceRow, Filter((s: Service) => s.namespace == namespace, MockServices));
    } else {
      out := "执行命令: " + command + " 在命名空间 " + namespace + "\n模拟输出: 命令执行成功";
    }
  }

  // ------------------------------------------------------------ the mock as a whole

  /** What the mock resolves a request to, given the stored clusters before it. */
  function MockReply(stored: Option<seq<WebCluster>>, endpoint: string, req: Request, now: string): Reply
  {
    match RouteOf(endpoint)
    case ClustersRoute =>
      if req.verb == "POST" then ClusterFound(Some(NewCluster(req, now)))
      else ClusterList(if stored.Some? then stored.value else MockClusters)
    case ClusterRoute(id) => if req.verb == "DELETE" then Deleted else ClusterFound(Lookup(stored, id))
    case TestRoute(id) => TestAnswer(stored, id)
    case NamespacesRoute => NamespaceList(MockNamespaces)
    case ResourceRoute(kind, namespace) => ResourceAnswer(kind, namespace)
    case TerminalRoute => Output(TerminalText(req.command, req.namespace))
    case NoRoute => Message("未找到匹配的模拟 API 端点")
  }

  /** The stored clusters after the request: a POST appends, a DELETE removes the id, the rest leave them. */
  function MockStored(stored: Option<seq<WebCluster>>, endpoint: string, req: Request, now: string): Option<seq<WebCluster>>
  {
    match RouteOf(endpoint)
    case ClustersRoute =>
      if req.verb == "POST" then Some(StoredList(stored) + [NewCluster(req, now)]) else stored
    case ClusterRoute(id) =>
      if req.verb == "DELETE" then Some(Filter((c: WebCluster) => c.id != id, StoredList(stored))) else stored
    case _ => stored
  }

  /**
   * A POST to `/clusters` answers the new cluster (connected, version
   * v1.25.0, its id from the clock) and appends it to the stored list; a
   * GET afterwards lists the stored clusters with it last.
   */
  lemma PostThenList(stored: Option<seq<WebCluster>>, req: Request, now: string, get: Request)
    requires req.verb == "POST" && get.verb != "POST"
    ensures var c := NewCluster(req, now);
      c.id == "cluster-" + now && c.name == req.name && c.description == req.description &&
      c.status == "connected" && c.version == "v1.25.0" &&
      MockReply(stored, "/clusters", req, now) == ClusterFound(Some(c)) &&
      MockStored(stored, "/clusters", req, now) == Some(StoredList(stored) + [c]) &&
      MockReply(MockStored(stored, "/clusters", req, now), "/clusters", get, now) == ClusterList(StoredList(stored) + [c])
  {
  }

  /** With nothing stored, listing answers the built-in clusters. */
  lemma ListWithoutStored(get: Request, now: string)
    requires get.verb != "POST"
    ensures MockReply(None, "/clusters", get, now) == ClusterList(MockClusters)
    ensures MockStored(None, "/clusters", get, now) == None
  {
  }

  /**
   * A DELETE of `/clusters/<id>` leaves no stored cluster with the id and
   * every other stored cluster as often as before, in order; a later GET
   * of the id still finds a built-in cluster with it.
   */
  lemma DeleteThenGet(stored: Option<seq<WebCluster>>, id: string, del: Request, get: Request, now: string)
    requires Segment(id) && id != "clusters"
    requires del.verb == "DELETE" && get.verb != "DELETE"
    ensures var after := MockStored(stored, Endpoint(["clusters", id]), del, now);
      MockReply(stored, Endpoint(["clusters", id]), del, now) == Deleted &&
      after.Some? && SubList(after.value, StoredList(stored)) &&
      (forall c :: multiset(after.value)[c] == if c.id == id then 0 else multiset(StoredList(stored))[c]) &&
      MockReply(after, Endpoint(["clusters", id]), get, now) == ClusterFound(Find(MockClusters, id))
  {
    ClusterPathsRoute(id);
    var keep := (c: WebCluster) => c.id != id;
    var rest := Filter(keep, StoredList(stored));
    FilterSubList(keep, StoredList(stored));
    FilterCount(keep, StoredList(stored));
    FilterMembers(keep, StoredList(stored));
    FindSpec(rest, id);
  }

  /** Testing a built-in cluster: the two connected ones answer their version, the one in error never settles. */
  lemma TestBuiltIn()
    ensures TestAnswer(None, "cluster-1") == Connected("v1.25.4", 3, 24, 6)
    ensures TestAnswer(None, "cluster-2") == Connected("v1.26.1", 3, 24, 6)
    ensures TestAnswer(None, "cluster-3") == Pending
    ensures TestAnswer(None, "cluster-9") == Pending
  {
    assert Find([], "cluster-1") == None;
    assert Find(MockClusters, "cluster-1") == Some(MockClusters[0]);
    assert Find(MockClusters, "cluster-2") == Some(MockClusters[1]);
    assert Find(MockClusters, "cluster-3") == Some(MockClusters[2]);
  }

  /**
   * The pods path answers the sample pods in the namespace, or all of them
   * for `"all"`, each as often as in the sample data and in order.
   */
  lemma PodsPathAnswer(cluster: string, namespace: string, req: Request, stored: Option<seq<WebCluster>>, now: string)
    requires Segment(cluster) && Segment(namespace) && namespace != "clusters"
    ensures var r := MockReply(stored, Endpoint(["kubernetes", cluster, "namespaces", namespace, "pods"]), req, now);
      r.PodList? && SubList(r.pods, MockPods) &&
      forall p :: multiset(r.pods)[p] == if namespace == "all" || p.namespace == namespace then multiset(MockPods)[p] else 0
  {
    ResourcePathReply(cluster, namespace, "pods", stored, req, now);
    var pods := InNamespace(MockPods, namespace, PodNamespace);
    assert MockReply(stored, Endpoint(["kubernetes", cluster, "namespaces", namespace, "pods"]), req, now) == PodList(pods);
    InNamespaceSpec(MockPods, namespace, PodNamespace);
    forall p: Pod ensures multiset(pods)[p] == if namespace == "all" || p.namespace == namespace then multiset(MockPods)[p] else 0 {
      assert PodNamespace(p) == p.namespace;
    }
  }

  /** A resource path is answered from the sample data of its kind, whatever the stored clusters. */
  lemma ResourcePathReply(cluster: string, namespace: string, kind: string, stored: Option<seq<WebCluster>>, req: Request, now: string)
    requires Segment(cluster) && Segment(namespace) && namespace != "clusters"
    requires kind == "pods" || kind == "deployments" || kind == "services" || kind == "configmaps"
    ensures MockReply(stored, Endpoint(["kubernetes", cluster, "namespaces", namespace, kind]), req, now) == ResourceAnswer(kind, namespace)
    ensures MockStored(stored, Endpoint(["kubernetes", cluster, "namespaces", namespace, kind]), req, now) == stored
  {
    ResourcePathRoute(cluster, namespace, kind);
  }

  /** An endpoint no pattern matches answers the not-found message and changes nothing. */
  lemma Unmatched(stored: Option<seq<WebCluster>>, req: Request, now: string)
    ensures MockReply(stored, Endpoint(["vmware", "hosts"]), req, now) == Message("未找到匹配的模拟 API 端点")
    ensures MockStored(stored, Endpoint(["vmware", "hosts"]), req, now) == stored
  {
    NotClusterList(["vmware", "hosts"]);
    assert [""] + ["vmware", "hosts"] == ["", "vmware", "hosts"];
  }

  /**
   * A `get pods` command is answered by the header and one line per pod of
   * the namespace, when the pods' fields hold no newline.
   */
  lemma TerminalPods(command: string, namespace: string)
    requires Contains(command, "get pods") && !Contains(command, "help")
    requires forall p :: p in MockPods ==> '\n' !in p.name + p.status + p.age
    ensures var pods := Filter((p: Pod) => p.namespace == namespace, MockPods);
      Split(TerminalText(command, namespace), '\n') == [PodsHeader] + Rows(PodRow, pods) + [""]
  {
    var keep := (p: Pod) => p.namespace == namespace;
    var pods := Filter(keep, MockPods);
    FilterMembers(keep, MockPods);
    PodsHeaderOneLine();
    forall i | 0 <= i < |pods| ensures '\n' !in Rows(PodRow, pods)[i] {
      RowsAt(PodRow, pods, i);
      assert pods[i] in MockPods;
      PodRowOneLine(pods[i]);
    }
    ListingLines(PodsHeader, Rows(PodRow, pods));
  }

  lemma PodsHeaderOneLine()
    ensures '\n' !in PodsHeader
  {
  }

  /** A pod's row holds a newline only when one of its fields does. */
  lemma PodRowOneLine(p: Pod)
    requires '\n' !in p.name + p.status + p.age
    ensures '\n' !in PodRow(p)
  {
    assert '\n' !in "   1/1     " && '\n' !in "    0          ";
  }

  /** The row of item `i`. */
  lemma {:induction false} RowsAt<T>(row: T -> string, items: seq<T>, i: nat)
    requires i < |items|
    ensures Rows(row, items)[i] == row(items[i])
  {
    if i < |items| - 1 {
      RowsAt(row, items[..|items| - 1], i);
    }
  }

  // ------------------------------------------------------------ the client

  /** The mock's state: the `k8s-clusters` entry of local storage. */
  class MockApi {
    var stored: Option<seq<WebCluster>>

    constructor(stored: Option<seq<WebCluster>>)
      ensures this.stored == stored
    {
      this.stored := stored;
    }

    /** `mockAPIResponse` once its delay is over. */
    method Respond(endpoint: string, req: Request, now: string) returns (reply: Reply)
      modifies this
      ensures reply == MockReply(old(stored), endpoint, req, now)
      ensures stored == MockStored(old(stored), endpoint, req, now)
    {
      match RouteOf(endpoint)
      case ClustersRoute =>
        if req.verb == "POST" {
          var cluster := NewCluster(req, now);
          var clusters := StoredList(stored);
          clusters := clusters + [cluster];
          stored := Some(clusters);
          reply := ClusterFound(Some(cluster));
        } else {
          reply := ClusterList(if stored.Some? then stored.value else MockClusters);
        }
      case ClusterRoute(id) =>
        var cluster := Lookup(stored, id);
        if req.verb == "DELETE" {
          stored := Some(Filter((c: WebCluster) => c.id != id, StoredList(stored)));
          reply := Deleted;
        } else {
          reply := ClusterFound(cluster);
        }
      case TestRoute(id) =>
        reply := TestAnswer(stored, id);
      case NamespacesRoute =>
        reply := NamespaceList(MockNamespaces);
      case ResourceRoute(kind, namespace) =>
        reply := ResourceAnswer(kind, namespace);
      case TerminalRoute =>
        var out := TerminalOutput(req.command, req.namespace);
        reply := Output(out);
      case NoRoute =>
        reply := Message("未找到匹配的模拟 API 端点");
    }

    /**
     * `fetchAPI`: with `useMock` (which the source sets) the mock answers;
     * otherwise the server's answer, and the mock again when the request
     * fails.
     */
    method Fetch(useMock: bool, endpoint: string, req: Request, now: string, server: Result<Reply, string>)
      returns (reply: Reply)
      modifies this
      ensures useMock || server.Err? ==>
                reply == MockReply(old(stored), endpoint, req, now) && stored == MockStored(old(stored), endpoint, req, now)
      ensures !useMock && server.Ok? ==> reply == server.value && stored == old(stored)
    {
      if useMock || server.Err? {
        reply := Respond(endpoint, req, now);
      } else {
        reply := server.value;
      }
    }
  }
}
