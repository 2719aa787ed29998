/**
 * `MigrateResources` of internal/kubernetes/migrate-resources.go: copy the
 * resources of some types from a namespace of one cluster into a namespace
 * of another, reporting one outcome per resource.
 *
 * The result maps each requested type name, as spelled in the request, to a
 * map from resource name to outcome; `_error` records a failed listing and
 * `_info` a type with nothing to copy. A failed resource does not stop the
 * others, and a failed type does not stop the other types.
 */
module KubeMigrate {
  import opened Wrappers
  import opened KubeObjects
  import opened KubeCluster
  import Strs

  /** `MigrateResult`. */
  datatype MigrateResult = MigrateResult(success: bool, message: string)

  /** The outcome of a resource applied without error. */
  const Migrated := MigrateResult(true, "迁移成功")

  /** The `_info` entry of a type that listed nothing. */
  const NothingFound := MigrateResult(true, "没有找到需要迁移的资源")

  /** Go's zero `MigrateResult`, what a missing map key reads as. */
  const Zero := MigrateResult(false, "")

  /** The outcome recorded for one apply. */
  function Outcome(err: Option<string>): MigrateResult
  {
    match err
    case None => Migrated
    case Some(e) => MigrateResult(false, e)
  }

  /** Reading a map key the Go way: a missing key gives the zero value. */
  function Get(entry: map<string, MigrateResult>, k: string): MigrateResult
  {
    if k in entry then entry[k] else Zero
  }

  // ------------------------------------------------------------ specification

  /** The destination's stored objects and one type's result map. */
  datatype Step = Step(objects: map<Key, Obj>, entry: map<string, MigrateResult>)

  /** Cleaning and applying the listed objects in order, recording each outcome under its name. */
  function ApplyAll(objects: map<Key, Obj>, faults: map<Call, string>, objs: seq<Obj>, ns: string): Step
    decreases |objs|
  {
    if |objs| == 0 then Step(objects, map[])
    else
      var prev := ApplyAll(objects, faults, objs[..|objs| - 1], ns);
      var o := objs[|objs| - 1];
      var a := ApplySpec(prev.objects, faults, Clean(o), ns);
      Step(a.objects, prev.entry[o.meta.name := Outcome(a.err)])
  }

  /** One type: a failed listing is recorded as `_error`; otherwise apply all, and mark an empty type with `_info`. */
  function MigrateType(objects: map<Key, Obj>, faults: map<Call, string>, src: Source, t: string, ns: string): Step
  {
    var l := ListType(src, t);
    if l.error.Some? then Step(objects, map["_error" := MigrateResult(false, l.error.value)])
    else
      var s := ApplyAll(objects, faults, l.objs, ns);
      if |l.objs| == 0 && Get(s.entry, "_error") == Zero then Step(s.objects, s.entry["_info" := NothingFound])
      else s
  }

  /** The destination's stored objects and the whole result. */
  datatype Run = Run(objects: map<Key, Obj>, results: map<string, map<string, MigrateResult>>)

  /** All types in request order, each seeing the destination as the earlier ones left it. */
  function MigrateAll(objects: map<Key, Obj>, faults: map<Call, string>, src: Source, types: seq<string>, ns: string): Run
    decreases |types|
  {
    if |types| == 0 then Run(objects, map[])
    else
      var prev := MigrateAll(objects, faults, src, types[..|types| - 1], ns);
      var t := types[|types| - 1];
      var s := MigrateType(prev.objects, faults, src, t, ns);
      Run(s.objects, prev.results[t := s.entry])
  }

  /** The error of the four setup steps, in the order they run, if one fails. */
  function SetupError(registry: map<string, Registration>, sourceId: string, destId: string): (r: Option<string>)
    ensures r.None? <==> (sourceId in registry && destId in registry &&
      registry[sourceId].clientError.None? && registry[destId].clientError.None?)
    ensures sourceId !in registry ==> r == Some("获取源集群信息失败: " + "record not found")
    ensures sourceId in registry && destId !in registry ==> r == Some("获取目标集群信息失败: " + "record not found")
    ensures sourceId in registry && destId in registry && registry[sourceId].clientError.Some? ==>
      r == Some("创建源集群客户端失败: " + registry[sourceId].clientError.value)
    ensures (sourceId in registry && destId in registry && registry[sourceId].clientError.None? &&
      registry[destId].clientError.Some?) ==>
      r == Some("创建目标集群客户端失败: " + registry[destId].clientError.value)
  {
    match Lookup(registry, sourceId)
    case Err(e) => Some("获取源集群信息失败: " + e)
    case Ok(source) =>
      match Lookup(registry, destId)
      case Err(e) => Some("获取目标集群信息失败: " + e)
      case Ok(dest) =>
        if source.clientError.Some? then Some("创建源集群客户端失败: " + source.clientError.value)
        else if dest.clientError.Some? then Some("创建目标集群客户端失败: " + dest.clientError.value)
        else None
  }

  /** Whether `ensureNamespaceExists` succeeds on a cluster with these namespaces and refusals. */
  predicate NamespaceReady(namespaces: set<string>, faults: map<Call, string>, ns: string)
  {
    GetNamespace(ns) !in faults && (ns in namespaces || CreateNamespace(ns) !in faults)
  }

  // ------------------------------------------------------------ what the result holds

  /** The names of the listed objects, as a set. */
  function NameSet(objs: seq<Obj>): set<string>
  {
    set i | 0 <= i < |objs| :: objs[i].meta.name
  }

  /** Each entry is either the success outcome or a failure whose text is not the success text. */
  predicate Outcomes(entry: map<string, MigrateResult>)
  {
    forall n :: n in entry ==> entry[n] == Migrated || (!entry[n].success && entry[n].message != "迁移成功")
  }

  /**
   * Applying a listing records one outcome per listed name, whatever
   * fails: the entry's keys are exactly the names, and each outcome is the
   * success outcome or a failure.
   */
  lemma {:induction false} ApplyAllEntries(objects: map<Key, Obj>, faults: map<Call, string>, objs: seq<Obj>, ns: string)
    ensures var s := ApplyAll(objects, faults, objs, ns);
      s.entry.Keys == NameSet(objs) && Outcomes(s.entry)
    decreases |objs|
  {
    if |objs| > 0 {
      var init := objs[..|objs| - 1];
      var o := objs[|objs| - 1];
      ApplyAllEntries(objects, faults, init, ns);
      var prev := ApplyAll(objects, faults, init, ns);
      ApplyErrorText(prev.objects, faults, Clean(o), ns);
      assert objs == init + [o];
      NameSetLast(objs);
    }
  }

  /** The names of a non-empty listing are those of its front and the last object's. */
  lemma NameSetLast(objs: seq<Obj>)
    requires |objs| > 0
    ensures NameSet(objs) == NameSet(objs[..|objs| - 1]) + {objs[|objs| - 1].meta.name}
  {
    var init := objs[..|objs| - 1];
    forall n | n in NameSet(objs) ensures n in NameSet(init) + {objs[|objs| - 1].meta.name} {
      var i :| 0 <= i < |objs| && objs[i].meta.name == n;
      if i < |init| { assert init[i] == objs[i]; }
    }
    forall n | n in NameSet(init) ensures n in NameSet(objs) {
      var i :| 0 <= i < |init| && init[i].meta.name == n;
      assert objs[i] == init[i];
    }
  }

  /** The keys the listed objects are applied under. */
  function Keys(objs: seq<Obj>, ns: string): set<Key>
  {
    set i | 0 <= i < |objs| :: KeyOf(Clean(objs[i]), ns)
  }

  /** Applying a listing changes no stored object other than those under the listed objects' keys. */
  lemma {:induction false} ApplyAllFrame(objects: map<Key, Obj>, faults: map<Call, string>, objs: seq<Obj>, ns: string)
    ensures var s := ApplyAll(objects, faults, objs, ns);
      forall k :: k !in Keys(objs, ns) ==>
        (k in s.objects <==> k in objects) && (k in objects ==> s.objects[k] == objects[k])
    decreases |objs|
  {
    if |objs| > 0 {
      var init := objs[..|objs| - 1];
      var o := objs[|objs| - 1];
      ApplyAllFrame(objects, faults, init, ns);
      var prev := ApplyAll(objects, faults, init, ns);
      ApplyFrame(prev.objects, faults, Clean(o), ns);
      forall k | k in Keys(init, ns) ensures k in Keys(objs, ns) {
        var i :| 0 <= i < |init| && KeyOf(Clean(init[i]), ns) == k;
        assert objs[i] == init[i];
      }
      assert KeyOf(Clean(objs[|objs| - 1]), ns) in Keys(objs, ns);
    }
  }

  /** The shape of one type's result map, given its listing. */
  predicate EntryShape(entry: map<string, MigrateResult>, l: Listing)
  {
    (l.error.Some? ==> entry == map["_error" := MigrateResult(false, l.error.value)]) &&
    (l.error.None? && l.objs == [] ==> entry == map["_info" := NothingFound]) &&
    (l.error.None? && l.objs != [] ==> entry.Keys == NameSet(l.objs) && Outcomes(entry))
  }

  /**
   * One type's result: `_error` alone when its listing fails, `_info` alone
   * when it lists nothing (a type name that matches no case included), and
   * otherwise exactly one outcome per listed name. `_info` is recorded
   * exactly when the listing succeeded with nothing in it.
   */
  lemma MigrateTypeShape(objects: map<Key, Obj>, faults: map<Call, string>, src: Source, t: string, ns: string)
    ensures var s := MigrateType(objects, faults, src, t, ns);
      EntryShape(s.entry, ListType(src, t))
    ensures ResourceOf(t).None? ==> MigrateType(objects, faults, src, t, ns).entry == map["_info" := NothingFound]
    ensures var l := ListType(src, t);
      l.error.None? && l.objs == [] <==> MigrateType(objects, faults, src, t, ns).entry == map["_info" := NothingFound]
  {
    var l := ListType(src, t);
    ListingShape(src, t);
    ApplyAllEntries(objects, faults, l.objs, ns);
    var s := MigrateType(objects, faults, src, t, ns);
    assert NothingFound != Migrated && NothingFound.success;
    if l.error.Some? {
      assert "_error" in s.entry && "_error" != "_info";
    }
    if l.error.None? && l.objs != [] {
      var o := l.objs[0];
      assert o.meta.name in NameSet(l.objs);
      if o.meta.name == "_info" {
        assert s.entry["_info"] != NothingFound;
      } else {
        assert o.meta.name !in map["_info" := NothingFound];
      }
    }
  }

  /**
   * The whole result: exactly the requested type names are keys, each
   * holding the result map of its own listing.
   */
  lemma {:induction false} MigrateAllShape(objects: map<Key, Obj>, faults: map<Call, string>, src: Source, types: seq<string>, ns: string)
    ensures var run := MigrateAll(objects, faults, src, types, ns);
      (forall t :: t in run.results <==> t in types) &&
      (forall t :: t in run.results ==> EntryShape(run.results[t], ListType(src, t)))
    decreases |types|
  {
    if |types| > 0 {
      var init := types[..|types| - 1];
      var t := types[|types| - 1];
      MigrateAllShape(objects, faults, src, init, ns);
      var prev := MigrateAll(objects, faults, src, init, ns);
      var s := MigrateType(prev.objects, faults, src, t, ns);
      MigrateTypeShape(prev.objects, faults, src, t, ns);
      var run := MigrateAll(objects, faults, src, types, ns);
      assert run.results == prev.results[t := s.entry];
      Strs.Members(types);
      forall u | u in run.results ensures EntryShape(run.results[u], ListType(src, u)) {
        if u != t {
          assert run.results[u] == prev.results[u];
        }
      }
    }
  }

  /** The keys of every object the requested types list. */
  function ListedKeys(src: Source, types: seq<string>, ns: string): set<Key>
    decreases |types|
  {
    if |types| == 0 then {}
    else ListedKeys(src, types[..|types| - 1], ns) + Keys(ListType(src, types[|types| - 1]).objs, ns)
  }

  /** The migration changes no stored object of the destination outside the keys of the listed objects. */
  lemma {:induction false} MigrateAllFrame(objects: map<Key, Obj>, faults: map<Call, string>, src: Source, types: seq<string>, ns: string)
    ensures var run := MigrateAll(objects, faults, src, types, ns);
      forall k :: k !in ListedKeys(src, types, ns) ==>
        (k in run.objects <==> k in objects) && (k in objects ==> run.objects[k] == objects[k])
    decreases |types|
  {
    if |types| > 0 {
      var init := types[..|types| - 1];
      var t := types[|types| - 1];
      MigrateAllFrame(objects, faults, src, init, ns);
      var prev := MigrateAll(objects, faults, src, init, ns);
      ApplyAllFrame(prev.objects, faults, ListType(src, t).objs, ns);
    }
  }

  // ------------------------------------------------------------ the operation

  /**
   * `MigrateResources`: look up both clusters and build their clients, fill
   * in the default types, make sure the destination namespace exists, then
   * list each type in the source namespace (`src`) and apply every listed
   * object, cleaned, to the destination cluster `dest`.
   *
   * A setup failure or a namespace failure returns an error and no result,
   * with nothing stored in the destination. Otherwise the destination
   * namespace exists, and the result and the destination's objects are those
   * of `MigrateAll` over the requested types.
   */
  method MigrateResources(registry: map<string, Registration>, sourceClusterId: string, destClusterId: string,
                          destNamespace: string, resourceTypes: seq<string>, src: Source, dest: Cluster)
    returns (r: Result<map<string, map<string, MigrateResult>>, string>)
    modifies dest
    ensures SetupError(registry, sourceClusterId, destClusterId).Some? ==>
      r == Err(SetupError(registry, sourceClusterId, destClusterId).value) &&
      dest.objects == old(dest.objects) && dest.namespaces == old(dest.namespaces)
    ensures r.Ok? <==>
      SetupError(registry, sourceClusterId, destClusterId).None? &&
      NamespaceReady(old(dest.namespaces), dest.faults, destNamespace)
    ensures r.Err? ==> dest.objects == old(dest.objects)
    ensures r.Ok? ==> destNamespace in dest.namespaces
    ensures r.Ok? ==>
      Run(dest.objects, r.value) == MigrateAll(old(dest.objects), dest.faults, src, Requested(resourceTypes), destNamespace)
  {
    var setupErr := Connect(registry, sourceClusterId, destClusterId);
    if setupErr.Some? {
      return Err(setupErr.value);
    }

    var types := resourceTypes;
    if |types| == 0 {
      types := DefaultTypes;
    }
    var results: map<string, map<string, MigrateResult>> := map[];
    var nsErr := dest.EnsureNamespace(destNamespace);
    if nsErr.Some? {
      return Err("确保目标命名空间存在失败: " + nsErr.value);
    }

    results := MigrateTypes(src, types, dest, destNamespace);
    return Ok(results);
  }

  /**
   * The body of the loop over types: list one type and apply what it lists.
   * The type's result map and the destination's new objects are those of
   * `MigrateType`; its namespaces do not change.
   */
  method MigrateOne(src: Source, resourceType: string, dest: Cluster, destNamespace: string)
    returns (entry: map<string, MigrateResult>)
    modifies dest
    ensures dest.namespaces == old(dest.namespaces)
    ensures Step(dest.objects, entry) == MigrateType(old(dest.objects), dest.faults, src, resourceType, destNamespace)
  {
    entry := map[];
    var listing := ListType(src, resourceType);
    if listing.error.Some? {
      entry := entry["_error" := MigrateResult(false, listing.error.value)];
      return;
    }
    var resources := listing.objs;
    var resourceNames := Names(resources);
    var j := 0;
    while j < |resources|
      invariant 0 <= j <= |resources|
      invariant dest.namespaces == old(dest.namespaces)
      invariant Step(dest.objects, entry) == ApplyAll(old(dest.objects), dest.faults, resources[..j], destNamespace)
    {
      var resourceName := resourceNames[j];
      var obj := Clean(resources[j]);
      var err := dest.Apply(obj, destNamespace);
      if err.Some? {
        entry := entry[resourceName := MigrateResult(false, err.value)];
      } else {
        entry := entry[resourceName := Migrated];
      }
      assert resources[..j + 1][..j] == resources[..j];
      j := j + 1;
    }
    assert resources[..j] == resources;
    if |resources| == 0 && Get(entry, "_error") == Zero {
      entry := entry["_info" := NothingFound];
    }
  }

  /** The four setup steps: look up both clusters, then build both clients; the first failure is returned. */
  method Connect(registry: map<string, Registration>, sourceClusterId: string, destClusterId: string)
    returns (err: Option<string>)
    ensures err == SetupError(registry, sourceClusterId, destClusterId)
  {
    var sourceCluster := Lookup(registry, sourceClusterId);
    if sourceCluster.Err? {
      return Some("获取源集群信息失败: " + sourceCluster.error);
    }
    var destCluster := Lookup(registry, destClusterId);
    if destCluster.Err? {
      return Some("获取目标集群信息失败: " + destCluster.error);
    }
    if sourceCluster.value.clientError.Some? {
      return Some("创建源集群客户端失败: " + sourceCluster.value.clientError.value);
    }
    if destCluster.value.clientError.Some? {
      return Some("创建目标集群客户端失败: " + destCluster.value.clientError.value);
    }
    return None;
  }

  /** The loop over the requested types, in order, each through `MigrateOne`. */
  method MigrateTypes(src: Source, types: seq<string>, dest: Cluster, destNamespace: string)
    returns (results: map<string, map<string, MigrateResult>>)
    modifies dest
    ensures dest.namespaces == old(dest.namespaces)
    ensures Run(dest.objects, results) == MigrateAll(old(dest.objects), dest.faults, src, types, destNamespace)
  {
    results := map[];
    var i := 0;
    while i < |types|
      invariant 0 <= i <= |types|
      invariant dest.namespaces == old(dest.namespaces)
      invariant Run(dest.objects, results) == MigrateAll(old(dest.objects), dest.faults, src, types[..i], destNamespace)
    {
      ghost var prefix := types[..i + 1];
      assert prefix[..i] == types[..i] && prefix[i] == types[i];
      var resourceType := types[i];
      var entry := MigrateOne(src, resourceType, dest, destNamespace);
      results := results[resourceType := entry];
      i := i + 1;
    }
    assert types[..i] == types;
  }
}
