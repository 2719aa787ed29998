/**
 * A Kubernetes cluster as the backend's client sees it, and the two
 * operations the namespace migration performs on the destination:
 * `ensureNamespaceExists` and `applyResourceToCluster`.
 *
 * The cluster is a map from (kind, namespace, name) to the stored object,
 * plus its set of namespaces. The API server's refusals are a fixed map from
 * a call to the error text it answers with; a `Get` of a key that is absent
 * and not refused answers NotFound.
 */
module KubeCluster {
  import opened Wrappers
  import opened KubeObjects

  /** Where an object is stored; a PersistentVolume is cluster-wide, so its namespace is `""`. */
  datatype Key = Key(kind: Kind, namespace: string, name: string)

  /** The key an object is applied under in namespace `ns`. */
  function KeyOf(o: Obj, ns: string): (k: Key)
    ensures k.kind == o.kind && k.name == o.meta.name
    ensures k.namespace == (if o.kind == PersistentVolume then "" else ns)
  {
    Key(o.kind, if o.kind == PersistentVolume then "" else ns, o.meta.name)
  }

  /** A client call the server may refuse. */
  datatype Call = Get(key: Key) | Create(key: Key) | Update(key: Key)
                | GetNamespace(ns: string) | CreateNamespace(ns: string)

  // ------------------------------------------------------------ cluster registry

  /**
   * A registered cluster: what `NewK8sClient` answers for its kubeconfig,
   * `None` when a client can be built.
   */
  datatype Registration = Registration(clientError: Option<string>)

  /** `GetClusterByClusterID` then `NewK8sClient`: the lookup fails for an unknown id with GORM's text. */
  function Lookup(registry: map<string, Registration>, id: string): (r: Result<Registration, string>)
    ensures r.Ok? <==> id in registry
    ensures r.Ok? ==> r.value == registry[id]
  {
    if id in registry then Ok(registry[id]) else Err("record not found")
  }

  // ------------------------------------------------------------ applyResourceToCluster

  /** How `applyResourceToCluster` treats the Go type an object decodes to. */
  datatype Rule =
    | Upsert(noun: string)        // created when absent, updated when present
    | CreateOnly(noun: string)    // created when absent, refused when present
    | Unsupported(goType: string)  // the `default` case

  /** The case of the type switch an object reaches: the decoded type follows `apiVersion` and `kind`. */
  function RuleFor(o: Obj): Rule
  {
    match o.kind
    case Deployment => Upsert("Deployment")
    case StatefulSet => Upsert("StatefulSet")
    case Service => Upsert("Service")
    case Secret => Upsert("Secret")
    case CronJob => if o.apiVersion == "batch/v1beta1" then Upsert("CronJob (v1beta1)") else Upsert("CronJob")
    case PersistentVolumeClaim => CreateOnly("PersistentVolumeClaim")
    case PersistentVolume => CreateOnly("PersistentVolume")
    case Job => CreateOnly("Job")
    case ConfigMap => Unsupported("*v1.ConfigMap")
  }

  /** The stored objects after an apply, and its error text if it failed. */
  datatype Applied = Applied(objects: map<Key, Obj>, err: Option<string>)

  /** What applying `o` into namespace `ns` does to `objects`, given the server's refusals. */
  function ApplySpec(objects: map<Key, Obj>, faults: map<Call, string>, o: Obj, ns: string): Applied
  {
    var k := KeyOf(o, ns);
    match RuleFor(o)
    case Unsupported(t) => Applied(objects, Some("不支持的资源类型: " + t))
    case Upsert(noun) =>
      if Get(k) in faults then Applied(objects, Some("获取" + (noun + ("失败: " + faults[Get(k)]))))
      else if k in objects then
        if Update(k) in faults then Applied(objects, Some("更新" + (noun + ("失败: " + faults[Update(k)]))))
        else Applied(objects[k := o], None)
      else if Create(k) in faults then Applied(objects, Some("创建" + (noun + ("失败: " + faults[Create(k)]))))
      else Applied(objects[k := o], None)
    case CreateOnly(noun) =>
      if Get(k) in faults then Applied(objects, Some("获取" + (noun + ("失败: " + faults[Get(k)]))))
      else if k in objects then Applied(objects, Some(noun + "已存在，无法更新，请先删除再创建"))
      else if Create(k) in faults then Applied(objects, Some("创建" + (noun + ("失败: " + faults[Create(k)]))))
      else Applied(objects[k := o], None)
  }

  /**
   * The type switch: Deployment, StatefulSet, Service, Secret and CronJob
   * (either version) are created or updated; PersistentVolumeClaim,
   * PersistentVolume and Job are only created; ConfigMap has no case.
   */
  lemma RuleClasses(o: Obj)
    ensures RuleFor(o).Upsert? <==> o.kind in {Deployment, StatefulSet, Service, Secret, CronJob}
    ensures RuleFor(o).CreateOnly? <==> o.kind in {PersistentVolumeClaim, PersistentVolume, Job}
    ensures RuleFor(o).Unsupported? <==> o.kind == ConfigMap
  {
  }

  /**
   * An apply touches only the object's own key: a failed apply changes
   * nothing, a successful one stores the object under its key.
   */
  lemma ApplyFrame(objects: map<Key, Obj>, faults: map<Call, string>, o: Obj, ns: string)
    ensures var a := ApplySpec(objects, faults, o, ns);
      (a.err.Some? ==> a.objects == objects) &&
      (a.err.None? ==> a.objects == objects[KeyOf(o, ns) := o])
  {
  }

  /**
   * When the server refuses none of the calls on the object's key (the
   * refusals stand for every reason a server may have, its own checks on
   * the object's body included): an
   * upserted kind always succeeds; a create-only kind succeeds exactly when
   * the key is absent, and otherwise fails with the "already exists" text;
   * a ConfigMap always fails as unsupported.
   */
  lemma ApplyWithoutFaults(objects: map<Key, Obj>, faults: map<Call, string>, o: Obj, ns: string)
    requires Get(KeyOf(o, ns)) !in faults && Create(KeyOf(o, ns)) !in faults && Update(KeyOf(o, ns)) !in faults
    ensures var a := ApplySpec(objects, faults, o, ns);
      (RuleFor(o).Upsert? ==> a.err.None?) &&
      (RuleFor(o).CreateOnly? ==> (a.err.None? <==> KeyOf(o, ns) !in objects)) &&
      (RuleFor(o).CreateOnly? && KeyOf(o, ns) in objects ==>
        a.err == Some(RuleFor(o).noun + "已存在，无法更新，请先删除再创建")) &&
      (o.kind == ConfigMap ==> a.err == Some("不支持的资源类型: " + "*v1.ConfigMap"))
  {
  }

  /** A refused `Get` fails every supported kind, whether or not the object exists. */
  lemma ApplyGetRefused(objects: map<Key, Obj>, faults: map<Call, string>, o: Obj, ns: string)
    requires Get(KeyOf(o, ns)) in faults && !RuleFor(o).Unsupported?
    ensures ApplySpec(objects, faults, o, ns).err ==
      Some("获取" + (RuleFor(o).noun + ("失败: " + faults[Get(KeyOf(o, ns))])))
  {
  }

  /** Every error text of an apply begins with a character that "迁移成功" does not begin with. */
  lemma ApplyErrorText(objects: map<Key, Obj>, faults: map<Call, string>, o: Obj, ns: string)
    ensures var a := ApplySpec(objects, faults, o, ns);
      a.err.Some? ==> |a.err.value| > 0 && a.err.value[0] != '迁'
  {
    var a := ApplySpec(objects, faults, o, ns);
    if a.err.Some? {
      match RuleFor(o)
      case Unsupported(t) =>
        assert a.err.value[0] == '不';
      case Upsert(noun) =>
        assert a.err.value[0] in {'获', '更', '创'};
      case CreateOnly(noun) =>
        assert noun[0] in {'P', 'J'};
        assert a.err.value[0] in {'获', 'P', 'J', '创'};
    }
  }

  // ------------------------------------------------------------ the cluster

  /** A live cluster: stored objects and namespaces change; the server's refusals are fixed. */
  class Cluster {
    var objects: map<Key, Obj>
    var namespaces: set<string>
    const faults: map<Call, string>

    constructor(objects: map<Key, Obj>, namespaces: set<string>, faults: map<Call, string>)
      ensures this.objects == objects && this.namespaces == namespaces && this.faults == faults
    {
      this.objects := objects;
      this.namespaces := namespaces;
      this.faults := faults;
    }

    /**
     * `ensureNamespaceExists`: an existing namespace is accepted; a refused
     * `Get` is reported; a missing one is created, and a refused create is
     * reported. Stored objects never change.
     */
    method EnsureNamespace(name: string) returns (err: Option<string>)
      modifies this
      ensures objects == old(objects)
      ensures GetNamespace(name) in faults ==>
        err == Some("检查命名空间是否存在时出错: " + faults[GetNamespace(name)]) && namespaces == old(namespaces)
      ensures GetNamespace(name) !in faults && name in old(namespaces) ==>
        err.None? && namespaces == old(namespaces)
      ensures GetNamespace(name) !in faults && name !in old(namespaces) && CreateNamespace(name) in faults ==>
        err == Some("创建命名空间失败: " + faults[CreateNamespace(name)]) && namespaces == old(namespaces)
      ensures GetNamespace(name) !in faults && name !in old(namespaces) && CreateNamespace(name) !in faults ==>
        err.None? && namespaces == old(namespaces) + {name}
      ensures err.None? ==> name in namespaces
    {
      if GetNamespace(name) !in faults && name in namespaces {
        return None;
      }
      if GetNamespace(name) in faults {
        return Some("检查命名空间是否存在时出错: " + faults[GetNamespace(name)]);
      }
      if CreateNamespace(name) in faults {
        return Some("创建命名空间失败: " + faults[CreateNamespace(name)]);
      }
      namespaces := namespaces + {name};
      return None;
    }

    /**
     * `applyResourceToCluster` for an object that has been through the YAML
     * round trip: `Get` the key, then create, update or refuse per the
     * object's rule. The new stored objects and the error are those of
     * `ApplySpec`; namespaces never change.
     */
    method Apply(o: Obj, ns: string) returns (err: Option<string>)
      modifies this
      ensures Applied(objects, err) == ApplySpec(old(objects), faults, o, ns)
      ensures namespaces == old(namespaces)
    {
      var k := KeyOf(o, ns);
      var rule := RuleFor(o);
      if rule.Unsupported? {
        return Some("不支持的资源类型: " + rule.goType);
      }
      var noun := rule.noun;
      if Get(k) in faults {
        return Some("获取" + (noun + ("失败: " + faults[Get(k)])));
      }
      if k !in objects {
        if Create(k) in faults {
          return Some("创建" + (noun + ("失败: " + faults[Create(k)])));
        }
        objects := objects[k := o];
        return None;
      }
      if rule.CreateOnly? {
        return Some(noun + "已存在，无法更新，请先删除再创建");
      }
      if Update(k) in faults {
        return Some("更新" + (noun + ("失败: " + faults[Update(k)])));
      }
      objects := objects[k := o];
      return None;
    }
  }
}
