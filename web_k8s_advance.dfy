/**
 * The advanced Kubernetes page and its tabs: exporting a namespace's YAML for
 * the selected resource types, extracting the image names from that YAML
 * (and, in the export tab, the `docker pull` / `docker save` commands for
 * them), the simulated packaging progress, and the guards and success test
 * of the resource migration tab.
 *
 * The export and migration calls are inputs: `Err(message)` for a call that
 * throws, `Ok(answer)` for its answer.
 */
module KubeAdvance {
  import opened Wrappers
  import opened Strs
  import opened ClusterSelect
  import KubeMigrate

  // ------------------------------------------------------------ resource types

  /** The resource-type checkboxes: each key, in order, with its flag. */
  datatype TypeFlag = TypeFlag(key: string, on: bool)

  /** `Object.values(flags).some(v => v)`. */
  predicate HasSelected(flags: seq<TypeFlag>)
  {
    exists i :: 0 <= i < |flags| && flags[i].on
  }

  /** `Object.keys(flags).filter(key => flags[key])`. */
  function SelectedTypes(flags: seq<TypeFlag>): seq<string>
  {
    if |flags| == 0 then []
    else SelectedTypes(flags[..|flags| - 1]) + (if flags[|flags| - 1].on then [flags[|flags| - 1].key] else [])
  }

  /**
   * The requested types are the keys whose flag is on, in the order of the
   * flags; there is one exactly when some flag is on.
   */
  lemma {:induction false} SelectedTypesSpec(flags: seq<TypeFlag>)
    ensures forall t :: t in SelectedTypes(flags) <==> exists i :: 0 <= i < |flags| && flags[i].key == t && flags[i].on
    ensures |SelectedTypes(flags)| > 0 <==> HasSelected(flags)
    ensures |SelectedTypes(flags)| <= |flags|
  {
    if |flags| > 0 {
      var init := flags[..|flags| - 1];
      SelectedTypesSpec(init);
      assert forall i :: 0 <= i < |init| ==> init[i] == flags[i];
      if HasSelected(flags) && !flags[|flags| - 1].on {
        var i :| 0 <= i < |flags| && flags[i].on;
        assert i < |init| && init[i].on;
      }
    }
  }

  // ------------------------------------------------------------ exporting YAML

  /** The export call: cluster id, namespace and the requested types. */
  datatype ExportCall = ExportCall(clusterId: string, namespace: string, types: seq<string>)

  /**
   * `exportAllYaml`'s guards: no call without a selected cluster and a
   * namespace, nor without a selected type; the error is the toast shown.
   */
  function ExportRequest(cluster: Option<WebCluster>, namespace: string, flags: seq<TypeFlag>): Result<ExportCall, string>
  {
    if cluster.None? || namespace == "" then Err("请先选择集群和命名空间")
    else if !HasSelected(flags) then Err("请至少选择一种资源类型")
    else Ok(ExportCall(cluster.value.id, namespace, SelectedTypes(flags)))
  }

  /** The document separator of the exported YAML. */
  const DocSeparator := "\n---\n"

  /** The placeholder shown when the answer has no data. */
  const NoResources := "# 没有资源"

  /**
   * `exportedYaml` after the call: it is cleared before the call, so a call
   * that throws leaves it empty; data, even an empty array, is joined with
   * the separator; an answer without data gives the placeholder.
   */
  function ExportedYaml(answer: Result<Option<seq<string>>, string>): string
  {
    match answer
    case Err(_) => ""
    case Ok(None) => NoResources
    case Ok(Some(docs)) => Join(docs, DocSeparator)
  }

  /**
   * The export as a whole: a refused request leaves the YAML as it was; an
   * accepted one requests the selected cluster's id, the namespace and
   * exactly the selected types, and the YAML becomes `ExportedYaml`.
   */
  function ExportAllYaml(cluster: Option<WebCluster>, namespace: string, flags: seq<TypeFlag>, yaml: string,
                         exportYaml: ExportCall -> Result<Option<seq<string>>, string>): string
  {
    match ExportRequest(cluster, namespace, flags)
    case Err(_) => yaml
    case Ok(call) => ExportedYaml(exportYaml(call))
  }

  /**
   * A request is made exactly when a cluster and a namespace are chosen and
   * some type is selected, and it names exactly the selected types; without
   * one the YAML is unchanged. One document is the YAML itself, an empty
   * array gives an empty YAML rather than the placeholder, and a failed
   * call leaves the YAML empty.
   */
  lemma ExportSpec(cluster: Option<WebCluster>, namespace: string, flags: seq<TypeFlag>, yaml: string,
                   exportYaml: ExportCall -> Result<Option<seq<string>>, string>)
    ensures ExportRequest(cluster, namespace, flags).Ok? <==> cluster.Some? && namespace != "" && HasSelected(flags)
    ensures ExportRequest(cluster, namespace, flags).Ok? ==>
      var call := ExportRequest(cluster, namespace, flags).value;
      call.clusterId == cluster.value.id && call.namespace == namespace &&
      (forall t :: t in call.types <==> exists i :: 0 <= i < |flags| && flags[i].key == t && flags[i].on) &&
      ExportAllYaml(cluster, namespace, flags, yaml, exportYaml) == ExportedYaml(exportYaml(call))
    ensures ExportRequest(cluster, namespace, flags).Err? ==> ExportAllYaml(cluster, namespace, flags, yaml, exportYaml) == yaml
    ensures forall doc :: ExportedYaml(Ok(Some([doc]))) == doc
    ensures ExportedYaml(Ok(Some([]))) == "" && ExportedYaml(Ok(None)) == NoResources
    ensures forall e :: ExportedYaml(Err(e)) == ""
  {
    SelectedTypesSpec(flags);
  }

  // ------------------------------------------------------------ image names (page)

  /** The YAML's lines. */
  function Lines(yaml: string): seq<string>
  {
    Split(yaml, '\n')
  }

  /** The page keeps a line whose trimmed form starts with "image: ". */
  predicate IsImageLine(line: string)
  {
    StartsWith(Trim(line), "image: ")
  }

  /** `line.trim().replace("image: ", "")`. */
  function ImageName(line: string): string
  {
    ReplaceFirst(Trim(line), "image: ", "")
  }

  /** The names of the image lines, in order. */
  function PageImageNames(lines: seq<string>): seq<string>
  {
    if |lines| == 0 then []
    else
      var last := lines[|lines| - 1];
      PageImageNames(lines[..|lines| - 1]) + (if IsImageLine(last) then [ImageName(last)] else [])
  }

  /** The page's `yamlFilterImageName`: nothing for an empty YAML, else the distinct image names. */
  function PageImages(yaml: string): Option<seq<string>>
  {
    if yaml == "" then None else Some(Dedup(PageImageNames(Lines(yaml))))
  }

  /** An image name is taken from some image line, and every image line's name is taken. */
  lemma {:induction false} PageImageNamesMembers(lines: seq<string>)
    ensures forall x :: x in PageImageNames(lines) <==>
      exists i :: 0 <= i < |lines| && IsImageLine(lines[i]) && ImageName(lines[i]) == x
  {
    if |lines| > 0 {
      var init := lines[..|lines| - 1];
      PageImageNamesMembers(init);
      assert forall i :: 0 <= i < |init| ==> init[i] == lines[i];
    }
  }

  /**
   * An empty YAML leaves the list as it was; otherwise the list has no
   * repeats, holds exactly the names of the image lines, and lists them in
   * the order in which they first occur.
   */
  lemma PageImagesSpec(yaml: string)
    ensures PageImages(yaml).None? <==> yaml == ""
    ensures PageImages(yaml).Some? ==>
      var images := PageImages(yaml).value;
      Distinct(images) &&
      (forall x :: x in images <==>
        exists i :: 0 <= i < |Lines(yaml)| && IsImageLine(Lines(yaml)[i]) && ImageName(Lines(yaml)[i]) == x) &&
      var names := PageImageNames(Lines(yaml));
      forall i, j :: 0 <= i < j < |images| ==> Position(names, images[i]) < Position(names, images[j])
  {
    if yaml != "" {
      var names := PageImageNames(Lines(yaml));
      DedupDistinct(names);
      DedupSameElements(names);
      DedupFirstOrder(names);
      PageImageNamesMembers(Lines(yaml));
    }
  }

  /** An indented `image: x` line is an image line and yields `x`. */
  lemma ImageLineName(ind: string, x: string)
    requires forall i :: 0 <= i < |ind| ==> IsSpace(ind[i])
    requires |x| > 0 && !IsSpace(x[|x| - 1])
    ensures IsImageLine(ind + "image: " + x) && ImageName(ind + "image: " + x) == x
  {
    assert ind + "image: " + x == ind + ("image: " + x);
    TrimPadded(ind, "image: " + x);
    ReplaceFirstAtStart("image: ", "", x);
  }

  // ------------------------------------------------------------ image commands (export tab)

  /** The tab also keeps a line whose trimmed form starts with "- image: ". */
  predicate IsTabImageLine(line: string)
  {
    StartsWith(Trim(line), "image: ") || StartsWith(Trim(line), "- image: ")
  }

  /** `line.replace("- image: ", "image: ")`, then trimmed and stripped of "image: ". */
  function TabImageName(line: string): string
  {
    ReplaceFirst(Trim(ReplaceFirst(line, "- image: ", "image: ")), "image: ", "")
  }

  /** The tab's image names of the image lines, in order. */
  function TabImageNames(lines: seq<string>): seq<string>
  {
    if |lines| == 0 then []
    else
      var last := lines[|lines| - 1];
      TabImageNames(lines[..|lines| - 1]) + (if IsTabImageLine(last) then [TabImageName(last)] else [])
  }

  /** The file an image is saved to: the name with every ':' and '/' turned into '_'. */
  function FileName(image: string): string
  {
    ReplaceChar(ReplaceChar(image, ':', '_'), '/', '_')
  }

  /** The command block for one image. */
  function Command(image: string): string
  {
    "docker pull " + image + "\n" + "docker save -o " + FileName(image) + ".tar " + image
  }

  /** One command block per image, in order. */
  function Commands(images: seq<string>): (r: seq<string>)
    ensures |r| == |images|
    ensures forall i :: 0 <= i < |images| ==> r[i] == Command(images[i])
  {
    if |images| == 0 then [] else Commands(images[..|images| - 1]) + [Command(images[|images| - 1])]
  }

  /** The tab's `yamlFilterImageName`: nothing for an empty YAML, else one command block per distinct image. */
  function TabCommands(yaml: string): Option<seq<string>>
  {
    if yaml == "" then None else Some(Commands(Dedup(TabImageNames(Lines(yaml)))))
  }

  /** The file name has no ':' or '/', is as long as the image, and keeps every other character. */
  lemma FileNameClean(image: string)
    ensures |FileName(image)| == |image|
    ensures ':' !in FileName(image) && '/' !in FileName(image)
    ensures forall i :: 0 <= i < |image| && image[i] != ':' && image[i] != '/' ==> FileName(image)[i] == image[i]
  {
    var f := FileName(image);
    forall i | 0 <= i < |f| ensures f[i] != ':' && f[i] != '/' {
    }
  }

  /** Different images have different commands: the command's length fixes the image's, and then its text. */
  lemma CommandInjective(a: string, b: string)
    requires Command(a) == Command(b)
    ensures a == b
  {
    FileNameClean(a);
    FileNameClean(b);
    var p := "docker pull ";
    assert |Command(a)| == 3 * |a| + 33;
    assert |Command(b)| == 3 * |b| + 33;
    assert Command(a)[|p|..|p| + |a|] == a;
    assert Command(b)[|p|..|p| + |b|] == b;
  }

  /** Different images give different command blocks. */
  lemma {:induction false} CommandsDistinct(images: seq<string>)
    requires Distinct(images)
    ensures Distinct(Commands(images))
  {
    var c := Commands(images);
    forall i, j | 0 <= i < j < |c| ensures c[i] != c[j] {
      if c[i] == c[j] {
        CommandInjective(images[i], images[j]);
      }
    }
  }

  /**
   * An empty YAML leaves the command list as it was; otherwise there is
   * exactly one command block per distinct image, in first-occurrence
   * order, and no two blocks are the same.
   */
  lemma TabCommandsSpec(yaml: string)
    ensures TabCommands(yaml).None? <==> yaml == ""
    ensures TabCommands(yaml).Some? ==>
      var images := Dedup(TabImageNames(Lines(yaml)));
      var cmds := TabCommands(yaml).value;
      |cmds| == |images| && Distinct(cmds) &&
      (forall i :: 0 <= i < |images| ==> cmds[i] == Command(images[i])) &&
      (forall x :: x in images <==> x in TabImageNames(Lines(yaml))) &&
      var names := TabImageNames(Lines(yaml));
      forall i, j :: 0 <= i < j < |images| ==> Position(names, images[i]) < Position(names, images[j])
  {
    if yaml != "" {
      var names := TabImageNames(Lines(yaml));
      DedupDistinct(names);
      DedupSameElements(names);
      DedupFirstOrder(names);
      CommandsDistinct(Dedup(names));
    }
  }

  /**
   * Both spellings yield the bare image: an indented `image: x` or
   * `- image: x` line is an image line of the tab and gives `x`, when `x`
   * does not itself spell "- image: ".
   */
  lemma TabImageLineName(ind: string, x: string)
    requires forall i :: 0 <= i < |ind| ==> IsSpace(ind[i])
    requires |x| > 0 && !IsSpace(x[|x| - 1])
    requires !Contains(x, "- image: ")
    ensures IsTabImageLine(ind + "image: " + x) && TabImageName(ind + "image: " + x) == x
    ensures IsTabImageLine(ind + "- image: " + x) && TabImageName(ind + "- image: " + x) == x
  {
    PlainTabLine(ind, x);
    DashedTabLine(ind, x);
  }

  /** An indented `image: x` line: nothing to rewrite, then "image: " is stripped. */
  lemma PlainTabLine(ind: string, x: string)
    requires forall i :: 0 <= i < |ind| ==> IsSpace(ind[i])
    requires |x| > 0 && !IsSpace(x[|x| - 1])
    requires !Contains(x, "- image: ")
    ensures IsTabImageLine(ind + "image: " + x) && TabImageName(ind + "image: " + x) == x
  {
    var head := ind + "image: ";
    forall k | 0 <= k < |head| ensures head[k] != '-' {
      assert head[k] == (if k < |ind| then ind[k] else "image: "[k - |ind|]);
    }
    NoOccurrence(head, x, "- image: ");
    ReplaceFirstAbsent(head + x, "- image: ", "image: ");
    ImageAfterIndent(ind, x);
  }

  /** An indented `- image: x` line is rewritten to `image: x` in place, then handled as one. */
  lemma DashedTabLine(ind: string, x: string)
    requires forall i :: 0 <= i < |ind| ==> IsSpace(ind[i])
    requires |x| > 0 && !IsSpace(x[|x| - 1])
    ensures IsTabImageLine(ind + "- image: " + x) && TabImageName(ind + "- image: " + x) == x
  {
    var d := "- image: ";
    assert ind + d + x == ind + (d + x);
    TrimPadded(ind, d + x);
    DashedRewrite(ind, x);
    ImageAfterIndent(ind, x);
  }

  /** The first "- image: " of an indented `- image: x` line is the one after the indent. */
  lemma DashedRewrite(ind: string, x: string)
    requires forall i :: 0 <= i < |ind| ==> IsSpace(ind[i])
    ensures ReplaceFirst(ind + "- image: " + x, "- image: ", "image: ") == ind + "image: " + x
  {
    var d := "- image: ";
    var dashed := ind + d + x;
    forall k | 0 <= k < |ind| ensures !Occurs(dashed, d, k) {
      assert dashed[k] == ind[k];
    }
    ReplaceFirstAt(ind, d, "image: ", x);
  }

  /** Trimming an indented `image: x` line leaves `image: x`, and stripping "image: " leaves x. */
  lemma ImageAfterIndent(ind: string, x: string)
    requires forall i :: 0 <= i < |ind| ==> IsSpace(ind[i])
    requires |x| > 0 && !IsSpace(x[|x| - 1])
    ensures Trim(ind + "image: " + x) == "image: " + x
    ensures ReplaceFirst("image: " + x, "image: ", "") == x
  {
    assert ind + "image: " + x == ind + ("image: " + x);
    TrimPadded(ind, "image: " + x);
    ReplaceFirstAtStart("image: ", "", x);
  }

  /** A pattern cannot start inside a head that lacks its first character, so it occurs only if it does in the rest. */
  lemma NoOccurrence(head: string, x: string, d: string)
    requires |d| > 0 && forall k :: 0 <= k < |head| ==> head[k] != d[0]
    requires !Contains(x, d)
    ensures forall k :: !Occurs(head + x, d, k)
  {
    var s := head + x;
    forall k ensures !Occurs(s, d, k) {
      if 0 <= k < |head| {
        assert s[k] == head[k];
      } else if |head| <= k && k + |d| <= |s| {
        assert !Occurs(x, d, k - |head|);
        assert s[k..k + |d|] == x[k - |head|..k - |head| + |d|];
      }
    }
  }

  // ------------------------------------------------------------ packaging

  /** The address the simulated packaging publishes. */
  const PackageUrl := "https://example.com/packages/images.tar.gz"

  /**
   * `packageAllImages`: refused without a cluster and namespace or without
   * images, publishing nothing; otherwise it publishes progress 0, then
   * 10, 20, ..., 100. `urls` lists what it writes to the package link, in
   * order: the link is cleared at the start, so an earlier package's
   * address is not offered while packaging runs, and set to the package
   * address at the end.
   */
  method PackageAllImages(cluster: Option<WebCluster>, namespace: string, images: seq<string>)
    returns (progress: seq<real>, urls: seq<string>)
    ensures cluster.None? || namespace == "" || |images| == 0 <==> progress == [] && urls == []
    ensures progress != [] ==>
      |progress| == 11 && progress[0] == 0.0 && progress[10] == 100.0 &&
      (forall i :: 0 <= i < 11 ==> progress[i] == 10.0 * i as real) &&
      (forall i, j :: 0 <= i < j < 11 ==> progress[i] < progress[j]) &&
      urls == ["", PackageUrl]
  {
    if cluster.None? || namespace == "" {
      return [], [];
    }
    if |images| == 0 {
      return [], [];
    }
    progress := [0.0];
    urls := [""];
    var totalSteps := 10;
    var i := 1;
    while i <= totalSteps
      invariant 1 <= i <= totalSteps + 1
      invariant |progress| == i
      invariant forall k :: 0 <= k < i ==> progress[k] == 10.0 * k as real
    {
      progress := progress + [i as real * (100.0 / totalSteps as real)];
      i := i + 1;
    }
    urls := urls + [PackageUrl];
  }

  // ------------------------------------------------------------ resource migration tab

  /** The migration call: source and destination cluster ids and namespaces, and the types. */
  datatype MigrateCall = MigrateCall(sourceId: string, destId: string, sourceNamespace: string,
                                     destNamespace: string, types: seq<string>)

  /** One type's results: resource name to outcome. */
  type TypeResults = map<string, KubeMigrate.MigrateResult>

  /**
   * `migrateResources`' guards, in order: both clusters and both namespaces
   * chosen, two different clusters, some type selected.
   */
  function MigrateRequest(source: Option<WebCluster>, dest: Option<WebCluster>, sourceNamespace: string,
                          destNamespace: string, flags: seq<TypeFlag>): Result<MigrateCall, string>
  {
    if source.None? || dest.None? || sourceNamespace == "" || destNamespace == "" then Err("请先选择源集群、目标集群和命名空间")
    else if source.value.id == dest.value.id then Err("源集群和目标集群不能相同")
    else if !HasSelected(flags) then Err("请至少选择一种资源类型")
    else Ok(MigrateCall(source.value.id, dest.value.id, sourceNamespace, destNamespace, SelectedTypes(flags)))
  }

  /** `response.data || {}`. */
  function ResultsOf(data: Option<map<string, TypeResults>>): map<string, TypeResults>
  {
    if data.Some? then data.value else map[]
  }

  /** Some outcome of some type succeeded. */
  predicate AnySuccess(results: map<string, TypeResults>)
  {
    exists t, k :: t in results && k in results[t] && results[t][k].success
  }

  /** The tab after a migration: the results shown (`None` when cleared) and whether success is reported. */
  datatype MigrateView = MigrateView(results: Option<map<string, TypeResults>>, success: bool)

  /**
   * The results are cleared before the call; a call that throws leaves them
   * cleared and reports failure; otherwise they are the answer's data, or
   * empty, and success is reported when some outcome succeeded.
   */
  function MigrateOutcome(answer: Result<Option<map<string, TypeResults>>, string>): MigrateView
  {
    match answer
    case Err(_) => MigrateView(None, false)
    case Ok(data) => MigrateView(Some(ResultsOf(data)), AnySuccess(ResultsOf(data)))
  }

  /**
   * No request is made unless both clusters and namespaces are chosen, the
   * clusters differ and a type is selected; a request names exactly the
   * selected types. Success is reported exactly when some outcome of some
   * type succeeded, so no data is a failure.
   */
  lemma MigrateSpec(source: Option<WebCluster>, dest: Option<WebCluster>, sourceNamespace: string,
                    destNamespace: string, flags: seq<TypeFlag>, answer: Result<Option<map<string, TypeResults>>, string>)
    ensures MigrateRequest(source, dest, sourceNamespace, destNamespace, flags).Ok? <==>
      source.Some? && dest.Some? && sourceNamespace != "" && destNamespace != "" &&
      source.value.id != dest.value.id && HasSelected(flags)
    ensures MigrateRequest(source, dest, sourceNamespace, destNamespace, flags).Ok? ==>
      var call := MigrateRequest(source, dest, sourceNamespace, destNamespace, flags).value;
      call.sourceId == source.value.id && call.destId == dest.value.id &&
      forall t :: t in call.types <==> exists i :: 0 <= i < |flags| && flags[i].key == t && flags[i].on
    ensures MigrateOutcome(answer).success <==>
      answer.Ok? && answer.value.Some? &&
      exists t, k :: t in answer.value.value && k in answer.value.value[t] && answer.value.value[t][k].success
  {
    SelectedTypesSpec(flags);
  }

  /**
   * A type that listed nothing carries only the `_info` entry, whose
   * outcome is a success: an answer made only of such types is reported
   * as a successful migration although nothing was copied.
   */
  lemma InfoOnlyIsSuccess(t: string)
    ensures MigrateOutcome(Ok(Some(map[t := map["_info" := KubeMigrate.NothingFound]]))).success
  {
    var results: map<string, TypeResults> := map[t := map["_info" := KubeMigrate.NothingFound]];
    assert t in results && "_info" in results[t] && results[t]["_info"].success;
  }
}
