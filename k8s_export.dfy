/**
 * The namespace YAML export: `ExportResources` lists the requested types in a
 * namespace, cleans every object and writes each one's YAML into a buffer
 * framed by `--delimiter--`; `ExportResourcesHandler` splits that text on
 * the delimiter for the browser.
 *
 * The listing of the namespace is the input `src`; the YAML marshaller is the
 * input `yaml`, which may refuse an object.
 */
module KubeExport {
  import opened Wrappers
  import opened Errs
  import opened MigrationModel
  import Strs
  import opened KubeObjects
  import opened KubeCluster

  /** The separator the export writes before every document. */
  const Delimiter := "--delimiter--"

  /** The ConfigMap every namespace holds, which the export never writes. */
  const RootCa := "kube-root-ca.crt"

  /** A marshaller: the YAML text of an object, or the reason it cannot be written. */
  type Marshal = Obj -> Result<string, string>

  /** `ok` prefixed to a successful result; a failure passes through. */
  function Prepend<T>(d: seq<T>, r: Result<seq<T>, string>): (p: Result<seq<T>, string>)
    ensures p.Ok? <==> r.Ok?
    ensures p.Ok? ==> p.value == d + r.value
    ensures p.Err? ==> p.error == r.error
  {
    match r
    case Ok(x) => Ok(d + x)
    case Err(e) => Err(e)
  }

  // ------------------------------------------------------------ listing

  /** The objects of a listing without the `kube-root-ca.crt` ConfigMap, in order. */
  function WithoutRootCa(objs: seq<Obj>): (r: seq<Obj>)
    ensures forall o :: o in r <==> o in objs && o.meta.name != RootCa
    ensures |r| <= |objs|
  {
    if |objs| == 0 then []
    else (if objs[0].meta.name == RootCa then [] else [objs[0]]) + WithoutRootCa(objs[1..])
  }

  /** One type's listing as the export sees it: for ConfigMaps, `kube-root-ca.crt` is skipped. */
  function ExportListing(src: Source, t: string): Listing
  {
    var l := ListType(src, t);
    if ResourceOf(t) == Some(ConfigMaps) then Listing(WithoutRootCa(l.objs), l.error) else l
  }

  /** The listing of each requested type, in request order. */
  function Listings(src: Source, types: seq<string>): (ls: seq<Listing>)
    ensures |ls| == |types|
    ensures forall k :: 0 <= k < |types| ==> ls[k] == ExportListing(src, types[k])
  {
    if |types| == 0 then [] else [ExportListing(src, types[0])] + Listings(src, types[1..])
  }

  /** The objects of the listings, listing by listing; the first failed listing ends it. */
  function Objects(ls: seq<Listing>): Result<seq<Obj>, string>
  {
    if |ls| == 0 then Ok([])
    else
      match ls[0].error
      case Some(e) => Err(e)
      case None => Prepend(ls[0].objs, Objects(ls[1..]))
  }

  // ------------------------------------------------------------ rendering

  /** The YAML of each object after `cleanObject`, in order; the first refusal ends it. */
  function Render(objs: seq<Obj>, yaml: Marshal): Result<seq<string>, string>
  {
    if |objs| == 0 then Ok([])
    else
      match yaml(Clean(objs[0]))
      case Err(e) => Err("转换资源为YAML失败: " + e)
      case Ok(y) => Prepend([y], Render(objs[1..], yaml))
  }

  /** The documents the export writes, listing by listing; a failed listing or a refused object ends it. */
  function Collect(ls: seq<Listing>, yaml: Marshal): Result<seq<string>, string>
  {
    if |ls| == 0 then Ok([])
    else
      match ls[0].error
      case Some(e) => Err(e)
      case None =>
        match Render(ls[0].objs, yaml)
        case Err(e) => Err(e)
        case Ok(d) => Prepend(d, Collect(ls[1..], yaml))
  }

  /** The buffer: `"--delimiter--\n" + yaml + "\n"` for each document, in order. */
  function Frame(docs: seq<string>): string
  {
    Framed(docs, "--delimiter--\n", "\n")
  }

  /** Each document between `head` and `tail`, in order. */
  function Framed(docs: seq<string>, head: string, tail: string): string
  {
    if |docs| == 0 then "" else head + docs[0] + tail + Framed(docs[1..], head, tail)
  }

  /** The parts the handler's split yields for one document. */
  function Wrap(docs: seq<string>): (r: seq<string>)
    ensures |r| == |docs|
    ensures forall k :: 0 <= k < |docs| ==> r[k] == "\n" + docs[k] + "\n"
  {
    if |docs| == 0 then [] else ["\n" + docs[0] + "\n"] + Wrap(docs[1..])
  }

  /** The result of `ExportResources`: `None` for an empty buffer. */
  function ExportSpec(registry: map<string, Registration>, id: string, resourceTypes: seq<string>,
                      src: Source, yaml: Marshal): Result<Option<string>, string>
  {
    match Lookup(registry, id)
    case Err(e) => Err(e)
    case Ok(c) =>
      match c.clientError
      case Some(e) => Err("获取Kubernetes客户端失败: " + e)
      case None =>
        match Collect(Listings(src, Requested(resourceTypes)), yaml)
        case Err(e) => Err(e)
        case Ok(docs) => if Frame(docs) == "" then Ok(None) else Ok(Some(Frame(docs)))
  }

  // ------------------------------------------------------------ the export

  /**
   * `ExportResources`: look up the cluster and build its client, fill in the
   * default types, then for each type list it and write every cleaned
   * object's YAML into the buffer; any failure returns only its error.
   */
  method ExportResources(registry: map<string, Registration>, id: string, resourceTypes: seq<string>,
                         src: Source, yaml: Marshal) returns (r: Result<Option<string>, string>)
    ensures r == ExportSpec(registry, id, resourceTypes, src, yaml)
  {
    var c := Lookup(registry, id);
    if c.Err? {
      return Err(c.error);
    }
    if c.value.clientError.Some? {
      return Err("获取Kubernetes客户端失败: " + c.value.clientError.value);
    }
    var types := resourceTypes;
    if |types| == 0 {
      types := DefaultTypes;
    }
    var written := WriteTypes(src, types, yaml);
    if written.Err? {
      return Err(written.error);
    }
    var buffer := written.value;
    if |buffer| == 0 {
      return Ok(None);
    }
    return Ok(Some(buffer));
  }

  /** The loop over the types: each one listed, then its objects written; the first failure ends it. */
  method WriteTypes(src: Source, types: seq<string>, yaml: Marshal) returns (r: Result<string, string>)
    ensures Collect(Listings(src, types), yaml).Err? ==> r == Err(Collect(Listings(src, types), yaml).error)
    ensures Collect(Listings(src, types), yaml).Ok? ==> r == Ok(Frame(Collect(Listings(src, types), yaml).value))
  {
    ghost var ls := Listings(src, types);
    var buffer := "";
    ghost var done: seq<string> := [];
    var i := 0;
    assert ls[0..] == ls;
    PrependNothing(Collect(ls, yaml));
    while i < |types|
      invariant 0 <= i <= |types|
      invariant buffer == Frame(done)
      invariant Collect(ls, yaml) == Prepend(done, Collect(ls[i..], yaml))
    {
      var l := ExportListing(src, types[i]);
      CollectAt(ls, i, yaml);
      if l.error.Some? {
        return Err(l.error.value);
      }
      var written := WriteDocs(buffer, l.objs, yaml);
      if written.Err? {
        return Err(written.error);
      }
      ghost var d := Render(l.objs, yaml).value;
      FrameAppend(done, d);
      PrependTwice(done, d, Collect(ls[i + 1..], yaml));
      buffer := written.value;
      done := done + d;
      i := i + 1;
    }
    assert ls[i..] == [];
    assert done + [] == done;
    return Ok(buffer);
  }

  /** The inner loop: each object of one listing is cleaned, marshalled and framed onto `buffer`. */
  method WriteDocs(buffer: string, resources: seq<Obj>, yaml: Marshal) returns (r: Result<string, string>)
    ensures Render(resources, yaml).Err? ==> r == Err(Render(resources, yaml).error)
    ensures Render(resources, yaml).Ok? ==> r == Ok(buffer + Frame(Render(resources, yaml).value))
  {
    var text := buffer;
    ghost var done: seq<string> := [];
    var j := 0;
    assert resources[0..] == resources;
    PrependNothing(Render(resources, yaml));
    while j < |resources|
      invariant 0 <= j <= |resources|
      invariant text == buffer + Frame(done)
      invariant Render(resources, yaml) == Prepend(done, Render(resources[j..], yaml))
    {
      assert resources[j..][1..] == resources[j + 1..];
      var y := yaml(Clean(resources[j]));
      if y.Err? {
        return Err("转换资源为YAML失败: " + y.error);
      }
      FrameOneMore(buffer, done, y.value);
      PrependTwice(done, [y.value], Render(resources[j + 1..], yaml));
      text := text + "--delimiter--\n" + y.value + "\n";
      done := done + [y.value];
      j := j + 1;
    }
    assert resources[j..] == [];
    assert done + [] == done;
    return Ok(text);
  }

  /** `Collect` from listing `i` on: its failure, or its documents before the rest. */
  lemma CollectAt(ls: seq<Listing>, i: nat, yaml: Marshal)
    requires i < |ls|
    ensures ls[i].error.Some? ==> Collect(ls[i..], yaml) == Err(ls[i].error.value)
    ensures ls[i].error.None? && Render(ls[i].objs, yaml).Err? ==>
      Collect(ls[i..], yaml) == Err(Render(ls[i].objs, yaml).error)
    ensures ls[i].error.None? && Render(ls[i].objs, yaml).Ok? ==>
      Collect(ls[i..], yaml) == Prepend(Render(ls[i].objs, yaml).value, Collect(ls[i + 1..], yaml))
  {
    assert ls[i..][0] == ls[i] && ls[i..][1..] == ls[i + 1..];
  }

  lemma PrependNothing<T>(r: Result<seq<T>, string>)
    ensures Prepend([], r) == r
  {
    if r.Ok? {
      assert [] + r.value == r.value;
    }
  }

  lemma PrependTwice<T>(a: seq<T>, b: seq<T>, r: Result<seq<T>, string>)
    ensures Prepend(a, Prepend(b, r)) == Prepend(a + b, r)
  {
    if r.Ok? {
      assert a + (b + r.value) == (a + b) + r.value;
    }
  }

  lemma {:induction false} FramedAppend(a: seq<string>, b: seq<string>, head: string, tail: string)
    ensures Framed(a + b, head, tail) == Framed(a, head, tail) + Framed(b, head, tail)
  {
    if |a| > 0 {
      assert (a + b)[1..] == a[1..] + b;
      FramedAppend(a[1..], b, head, tail);
    } else {
      assert a + b == b;
    }
  }

  /** Framing two runs of documents is framing each and concatenating. */
  lemma FrameAppend(a: seq<string>, b: seq<string>)
    ensures Frame(a + b) == Frame(a) + Frame(b)
  {
    FramedAppend(a, b, "--delimiter--\n", "\n");
  }

  lemma FramedOneMore(buffer: string, docs: seq<string>, y: string, head: string, tail: string)
    ensures buffer + Framed(docs + [y], head, tail) == buffer + Framed(docs, head, tail) + head + y + tail
  {
    FramedAppend(docs, [y], head, tail);
    assert Framed([y], head, tail) == head + y + tail + "";
  }

  /** Writing one more document onto a buffer appends its frame. */
  lemma FrameOneMore(buffer: string, docs: seq<string>, y: string)
    ensures buffer + Frame(docs + [y]) == buffer + Frame(docs) + "--delimiter--\n" + y + "\n"
  {
    FramedOneMore(buffer, docs, y, "--delimiter--\n", "\n");
  }

  // ------------------------------------------------------------ properties of the export

  /** The buffer is empty exactly when no document was written. */
  lemma FrameEmpty(docs: seq<string>)
    ensures Frame(docs) == "" <==> docs == []
  {
    FramedEmpty(docs, "--delimiter--\n", "\n");
  }

  lemma FramedEmpty(docs: seq<string>, head: string, tail: string)
    requires |head| > 0
    ensures Framed(docs, head, tail) == "" <==> docs == []
  {
    if docs != [] {
      assert |Framed(docs, head, tail)| >= |head|;
    }
  }

  /**
   * Rendering yields one document per object, in order: the YAML of the
   * object after `cleanObject`; it fails exactly when the marshaller
   * refuses some cleaned object.
   */
  lemma {:induction false} RenderShape(objs: seq<Obj>, yaml: Marshal)
    ensures Render(objs, yaml).Ok? <==> forall k :: 0 <= k < |objs| ==> yaml(Clean(objs[k])).Ok?
    ensures Render(objs, yaml).Ok? ==>
      |Render(objs, yaml).value| == |objs| &&
      forall k :: 0 <= k < |objs| ==> yaml(Clean(objs[k])) == Ok(Render(objs, yaml).value[k])
  {
    if |objs| > 0 {
      RenderShape(objs[1..], yaml);
      assert forall k :: 1 <= k < |objs| ==> objs[k] == objs[1..][k - 1];
    }
  }

  /** Rendering two runs of objects: the first run's documents, then the second's. */
  lemma {:induction false} RenderAppend(a: seq<Obj>, b: seq<Obj>, yaml: Marshal)
    ensures Render(a + b, yaml) == (match Render(a, yaml) case Err(e) => Err(e) case Ok(d) => Prepend(d, Render(b, yaml)))
  {
    if |a| > 0 {
      assert (a + b)[0] == a[0] && (a + b)[1..] == a[1..] + b;
      RenderAppend(a[1..], b, yaml);
      match yaml(Clean(a[0]))
      case Err(_) =>
      case Ok(y) =>
        if Render(a[1..], yaml).Ok? {
          PrependTwice([y], Render(a[1..], yaml).value, Render(b, yaml));
        }
    } else {
      assert a + b == b;
      PrependNothing(Render(b, yaml));
    }
  }

  /**
   * When every listing succeeds, the export's documents are the rendering
   * of all listed objects in type order then listing order; a failed
   * listing fails the export.
   */
  lemma {:induction false} CollectObjects(ls: seq<Listing>, yaml: Marshal)
    ensures Objects(ls).Err? ==> Collect(ls, yaml).Err?
    ensures Objects(ls).Ok? ==> Collect(ls, yaml) == Render(Objects(ls).value, yaml)
  {
    if |ls| > 0 && ls[0].error.None? {
      CollectObjects(ls[1..], yaml);
      if Objects(ls[1..]).Ok? {
        RenderAppend(ls[0].objs, Objects(ls[1..]).value, yaml);
      }
    }
  }

  /** If any requested type's listing fails, the export fails. */
  lemma {:induction false} ListingFailureAborts(ls: seq<Listing>, k: nat)
    requires k < |ls| && ls[k].error.Some?
    ensures Objects(ls).Err?
  {
    if k > 0 && ls[0].error.None? {
      ListingFailureAborts(ls[1..], k - 1);
    }
  }

  /** No object of the listing is the `kube-root-ca.crt` ConfigMap. */
  ghost predicate NoRootCaIn(objs: seq<Obj>)
  {
    forall o :: o in objs ==> !(o.kind == ConfigMap && o.meta.name == RootCa)
  }

  /** The objects of the listings come from the listings. */
  lemma {:induction false} ObjectsFromListings(ls: seq<Listing>)
    requires forall k :: 0 <= k < |ls| ==> NoRootCaIn(ls[k].objs)
    ensures Objects(ls).Ok? ==> NoRootCaIn(Objects(ls).value)
  {
    if |ls| > 0 && ls[0].error.None? {
      ObjectsFromListings(ls[1..]);
    }
  }

  /** A type's export listing never holds the `kube-root-ca.crt` ConfigMap; a type name that matches no case lists nothing. */
  lemma ExportListingShape(src: Source, t: string)
    ensures NoRootCaIn(ExportListing(src, t).objs)
    ensures ResourceOf(t).None? ==> ExportListing(src, t) == Listing([], None)
  {
    ListingShape(src, t);
    var l := ExportListing(src, t);
    if ResourceOf(t) != Some(ConfigMaps) {
      forall o | o in l.objs ensures o.kind != ConfigMap {
        var k :| 0 <= k < |l.objs| && l.objs[k] == o;
      }
    }
  }

  /** The `kube-root-ca.crt` ConfigMap is never exported. */
  lemma NoRootCa(src: Source, types: seq<string>)
    ensures Objects(Listings(src, types)).Ok? ==> NoRootCaIn(Objects(Listings(src, types)).value)
  {
    var ls := Listings(src, types);
    forall k | 0 <= k < |ls| ensures NoRootCaIn(ls[k].objs) {
      ExportListingShape(src, types[k]);
    }
    ObjectsFromListings(ls);
  }

  // ------------------------------------------------------------ the handler's split

  /** A framed document cannot hide the delimiter when the document itself does not contain it. */
  lemma WrapClean(doc: string)
    requires !Strs.Contains(doc, Delimiter)
    ensures Strs.Clean("\n" + doc + "\n", Delimiter)
  {
    assert Delimiter[0] == '-' && '\n' !in Delimiter;
    Strs.CleanFramed(doc, Delimiter, '\n');
  }

  /** The buffer is the wrapped documents joined by the delimiter, after an empty first part. */
  lemma {:induction false} FrameJoin(docs: seq<string>)
    requires |docs| > 0
    ensures Frame(docs) == Delimiter + Strs.Join(Wrap(docs), Delimiter)
  {
    assert "--delimiter--\n" == Delimiter + "\n";
    FramedJoin(docs, Delimiter, '\n');
    WrapWith(docs);
  }

  /** The parts `[c] + doc + [c]`, one per document. */
  function Wrapped(docs: seq<string>, c: char): (r: seq<string>)
    ensures |r| == |docs|
  {
    if |docs| == 0 then [] else [[c] + docs[0] + [c]] + Wrapped(docs[1..], c)
  }

  lemma {:induction false} WrapWith(docs: seq<string>)
    ensures Wrap(docs) == Wrapped(docs, '\n')
  {
    if |docs| > 0 {
      WrapWith(docs[1..]);
    }
  }

  lemma {:induction false} FramedJoin(docs: seq<string>, d: string, c: char)
    requires |docs| > 0
    ensures Framed(docs, d + [c], [c]) == d + Strs.Join(Wrapped(docs, c), d)
  {
    if |docs| > 1 {
      FramedJoin(docs[1..], d, c);
      assert Wrapped(docs, c)[1..] == Wrapped(docs[1..], c);
    }
  }

  /**
   * `strings.Split(string(data), "--delimiter--")` gives back the framing:
   * an empty first part, then `"\n" + yaml + "\n"` per document, one more
   * part than documents, provided no document contains the delimiter.
   */
  lemma SplitFrame(docs: seq<string>)
    requires forall k :: 0 <= k < |docs| ==> !Strs.Contains(docs[k], Delimiter)
    ensures Strs.SplitOn(Frame(docs), Delimiter) == [""] + Wrap(docs)
    ensures |Strs.SplitOn(Frame(docs), Delimiter)| == |docs| + 1
  {
    var parts := [""] + Wrap(docs);
    forall k | 0 <= k < |parts| ensures Strs.Clean(parts[k], Delimiter) {
      if k > 0 {
        WrapClean(docs[k - 1]);
      }
    }
    Strs.SplitJoin(parts, Delimiter);
    if |docs| > 0 {
      FrameJoin(docs);
      assert parts[1..] == Wrap(docs);
      assert Strs.Join(parts, Delimiter) == "" + Delimiter + Strs.Join(Wrap(docs), Delimiter);
    } else {
      assert Strs.Join(parts, Delimiter) == "";
    }
  }

  /** A document holding the delimiter breaks the split: one document comes back as three parts. */
  lemma DelimiterInsideDoc()
    ensures Strs.SplitOn(Frame([Delimiter]), Delimiter) == ["", "\n", "\n"]
  {
    var d, h := Delimiter, "--delimiter--\n";
    assert d[0] == '-' && h == d + "\n";
    Strs.SplitTwice(d, '\n');
    var one := [d];
    assert one[0] == d && one[1..] == [];
    assert Frame(one) == Framed(one, h, "\n") == h + d + "\n" + Framed([], h, "\n");
    assert h + d + "\n" + "" == d + ['\n'] + d + ['\n'];
  }

  /** The body of an export request. */
  datatype ExportRequest = ExportRequest(clusterId: string, namespace: string, resourceTypes: seq<string>)

  /** `ExportResourcesResponse`: `data` is `null` on failure. */
  datatype ExportReply = ExportReply(status: int, code: int, msg: string, data: Option<seq<string>>)

  /**
   * `ExportResourcesHandler`: a body that does not bind answers 200 with
   * code 1; a failed export answers 500 with code 1; otherwise the export
   * text (empty for no resources) is split on the delimiter.
   */
  function ExportHandler(body: Json<ExportRequest>, registry: map<string, Registration>,
                         namespaces: (string, string) -> Source, yaml: Marshal): ExportReply
  {
    match Decode(body)
    case Err(e) => ExportReply(200, 1, Message(e), None)
    case Ok(req) =>
      match ExportSpec(registry, req.clusterId, req.resourceTypes, namespaces(req.clusterId, req.namespace), yaml)
      case Err(e) => ExportReply(500, 1, e, None)
      case Ok(data) =>
        var text := match data case None => "" case Some(s) => s;
        ExportReply(200, 0, "success", Some(Strs.SplitOn(text, Delimiter)))
  }

  /**
   * The handler's replies: a bind error gives 200 and code 1, an export
   * error 500 and code 1, both without data; an empty export gives `[""]`;
   * otherwise `data` is `""` followed by each framed document.
   */
  lemma ExportHandlerReplies(body: Json<ExportRequest>, registry: map<string, Registration>,
                             namespaces: (string, string) -> Source, yaml: Marshal)
    ensures var reply := ExportHandler(body, registry, namespaces, yaml);
      (body.Malformed? ==> reply.status == 200 && reply.code == 1 && reply.data.None?) &&
      (body.Encoded? ==>
        var req := body.value;
        var src := namespaces(req.clusterId, req.namespace);
        var r := ExportSpec(registry, req.clusterId, req.resourceTypes, src, yaml);
        (r.Err? ==> reply == ExportReply(500, 1, r.error, None)) &&
        (r == Ok(None) ==> reply.status == 200 && reply.code == 0 && reply.data == Some([""])) &&
        (r.Ok? && r.value.Some? ==> reply.status == 200 && reply.code == 0))
    ensures body.Encoded? ==>
      var req := body.value;
      var c := Collect(Listings(namespaces(req.clusterId, req.namespace), Requested(req.resourceTypes)), yaml);
      req.clusterId in registry && registry[req.clusterId].clientError.None? && c.Ok? &&
      (forall k :: 0 <= k < |c.value| ==> !Strs.Contains(c.value[k], Delimiter)) ==>
        ExportHandler(body, registry, namespaces, yaml).data == Some([""] + Wrap(c.value))
  {
    if body.Encoded? {
      var req := body.value;
      var c := Collect(Listings(namespaces(req.clusterId, req.namespace), Requested(req.resourceTypes)), yaml);
      if c.Ok? && (forall k :: 0 <= k < |c.value| ==> !Strs.Contains(c.value[k], Delimiter)) {
        SplitFrame(c.value);
        FrameEmpty(c.value);
      }
    }
    assert Strs.SplitOn("", Delimiter) == [""];
  }
}
