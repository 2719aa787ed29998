/**
 * What the two data-migration HTTP layers share: the JSON reply of a gin
 * handler, the refusal of a body that does not decode, the request shapes
 * both accept, and the page arithmetic of `ListTasksHandler`.
 */
module ApiCommon {
  import opened Wrappers
  import opened Errs
  import opened MigrationModel
  import opened SqlServer

  const StatusOK := 200
  const StatusBadRequest := 400
  const StatusInternalServerError := 500

  /** `c.JSON(status, gin.H{"code": code, "msg": msg, "data": data})`; `data` is absent when the handler sets none. */
  datatype Reply<T> = Reply(status: int, code: int, msg: string, data: Option<T>)

  /** A refusal: `code` 1, the message, no data. */
  function Refusal<T>(status: int, msg: string): (r: Reply<T>)
    ensures r.code == 1 && r.data.None?
  {
    Reply(status, 1, msg, None)
  }

  /** The batch size a request without one gets. */
  const DefaultBatchSize := 1000

  /** The `data` of a created task: `task_id` and `status`. */
  datatype TaskCreated = TaskCreated(taskId: string, status: MigrationStatus)

  /** The body of `ListTablesHandler`: a configuration under `config` and a database name. */
  datatype ListTablesRequest = ListTablesRequest(config: DataSourceConfig, database: string)

  /** The reply to a body that does not decode. */
  function BadBody<T, B>(body: Json<B>): (r: Reply<T>)
    requires body.Malformed?
    ensures r.status == StatusBadRequest && r.code == 1
  {
    Refusal(StatusBadRequest, "Invalid request body: " + Message(Decode(body).error))
  }

  /** A configuration the factory accepts and whose `Connect` succeeds on `server`. */
  predicate Opens(cfg: DataSourceConfig, server: Server)
  {
    cfg.sourceType == MySqlType && Login(server, cfg.database).Ok?
  }

  // ---------------------------------------------------------------- pagination

  /** The `page` query parameter after its clamp: below 1 becomes 1. */
  function ClampPage(page: int): (p: int)
    ensures p >= 1
    ensures page >= 1 ==> p == page
    ensures page < 1 ==> p == 1
  {
    if page < 1 then 1 else page
  }

  /** The `page_size` query parameter after its clamp: outside 1..100 becomes 10. */
  function ClampPageSize(size: int): (s: int)
    ensures 1 <= s <= 100
    ensures 1 <= size <= 100 ==> s == size
    ensures !(1 <= size <= 100) ==> s == 10
  {
    if size < 1 || size > 100 then 10 else size
  }

  /** The first index of page `page` (counting from 1) of `total` items, `size` to a page, cut at `total`. */
  function PageStart(total: nat, page: int, size: int): (r: nat)
    requires page >= 1 && size >= 1
    ensures r <= total
  {
    if (page - 1) * size >= total then total else (page - 1) * size
  }

  /** One past the last index of that page, cut at `total`. */
  function PageEnd(total: nat, page: int, size: int): (r: nat)
    requires page >= 1 && size >= 1
    ensures PageStart(total, page, size) <= r <= total
  {
    if (page - 1) * size + size > total then total else (page - 1) * size + size
  }

  /** `total_page`: `total / size` rounded up. */
  function PageCount(total: nat, size: int): (n: nat)
    requires size >= 1
  {
    (total + size - 1) / size
  }

  /** The `data` of `ListTasksHandler`; `tasks` is absent (JSON `null`) for a page past the end. */
  datatype Page<T> = Page(tasks: Option<seq<T>>, total: int, page: int, pageSize: int, totalPage: int)

  /** The page the handler answers for the query parameters `page` and `page_size`. */
  function PageFor<T>(tasks: seq<T>, page: int, pageSize: int): Page<T>
  {
    var p, size, total := ClampPage(page), ClampPageSize(pageSize), |tasks|;
    var first := PageStart(total, p, size);
    var slice := if first < total then Some(tasks[first..PageEnd(total, p, size)]) else None;
    Page(slice, total, p, size, PageCount(total, size))
  }

  /**
   * The paging of `ListTasksHandler`: the parameters are clamped, then the
   * page is cut from the listed tasks at `(page-1)*pageSize` and at most
   * `pageSize` further, both cut at the end of the list.
   */
  method Paginate<T>(tasks: seq<T>, page: int, pageSize: int) returns (r: Page<T>)
    ensures r == PageFor(tasks, page, pageSize)
  {
    var p, size := page, pageSize;
    if p < 1 {
      p := 1;
    }
    if size < 1 || size > 100 {
      size := 10;
    }
    var total := |tasks|;
    var start := (p - 1) * size;
    var end := start + size;
    if start >= total {
      start := total;
    }
    if end > total {
      end := total;
    }
    assert p == ClampPage(page) && size == ClampPageSize(pageSize);
    assert start == PageStart(total, p, size) && end == PageEnd(total, p, size);
    var pageTasks: Option<seq<T>> := None;
    if start < total {
      pageTasks := Some(tasks[start..end]);
    }
    r := Page(pageTasks, total, p, size, (total + size - 1) / size);
  }

  /**
   * What a page holds: the clamped parameters, the number of pages, and
   * either no list (a page starting at or past the end) or between 1 and
   * `pageSize` tasks read in order from `(page-1)*pageSize`, a full page
   * unless it reaches the end.
   */
  lemma PageForContents<T>(tasks: seq<T>, page: int, pageSize: int)
    ensures var r := PageFor(tasks, page, pageSize);
      r.page == ClampPage(page) && r.pageSize == ClampPageSize(pageSize) &&
      r.total == |tasks| && r.totalPage == PageCount(|tasks|, r.pageSize) &&
      (r.tasks.None? <==> (r.page - 1) * r.pageSize >= |tasks|) &&
      (r.tasks.Some? ==>
        var first := (r.page - 1) * r.pageSize;
        1 <= |r.tasks.value| <= r.pageSize && first + |r.tasks.value| <= |tasks| &&
        (first + |r.tasks.value| < |tasks| ==> |r.tasks.value| == r.pageSize) &&
        forall k :: 0 <= k < |r.tasks.value| ==> r.tasks.value[k] == tasks[first + k])
  {
  }

  /** A page holds at most `size` items, and the page after it starts where it ends. */
  lemma PagesContiguous(total: nat, page: int, size: int)
    requires page >= 1 && size >= 1
    ensures PageStart(total, page, size) <= PageEnd(total, page, size) <= total
    ensures PageEnd(total, page, size) - PageStart(total, page, size) <= size
    ensures PageEnd(total, page, size) == PageStart(total, page + 1, size)
  {
    assert (page + 1 - 1) * size == (page - 1) * size + size;
  }

  /** Pages are disjoint: an earlier page ends no later than a later one starts. */
  lemma {:induction false} PagesDisjoint(total: nat, p: int, q: int, size: int)
    requires 1 <= p < q && size >= 1
    ensures PageEnd(total, p, size) <= PageStart(total, q, size)
    decreases q - p
  {
    PagesContiguous(total, p, size);
    if p + 1 < q {
      PagesDisjoint(total, p + 1, q, size);
      PagesContiguous(total, p + 1, size);
    }
  }

  /** Every item lies on exactly one page, and that page is at most `total_page`. */
  lemma PageOfItem(total: nat, k: nat, size: int)
    requires k < total && size >= 1
    ensures var p := k / size + 1;
      p <= PageCount(total, size) && PageStart(total, p, size) <= k < PageEnd(total, p, size)
  {
    var p := k / size + 1;
    assert (p - 1) * size == k / size * size;
    assert k / size * size <= k < k / size * size + size;
    assert total + size - 1 >= p * size;
    DivAtLeast(total + size - 1, size, p);
  }

  /** `total_page` is the number of pages that start before the end: the smallest `n` with `n * size >= total`. */
  lemma PageCountCeiling(total: nat, size: int)
    requires size >= 1
    ensures PageCount(total, size) * size >= total
    ensures PageCount(total, size) > 0 ==> (PageCount(total, size) - 1) * size < total
  {
    var n := PageCount(total, size);
    var m := total + size - 1;
    assert m == n * size + m % size && 0 <= m % size < size;
    assert n * size >= total;
  }

  /** `p * size <= m` gives `p <= m / size`. */
  lemma DivAtLeast(m: int, size: int, p: int)
    requires m >= 0 && size >= 1 && p >= 0 && p * size <= m
    ensures p <= m / size
  {
    var q := m / size;
    assert m == q * size + m % size && m % size < size;
    assert (q + 1) * size == q * size + size;
    if q < p {
      MulMono(q + 1, p, size);
      assert false;
    }
  }

  /** Multiplying by a natural number keeps the order. */
  lemma MulMono(a: int, b: int, c: nat)
    requires a <= b
    ensures a * c <= b * c
  {
    assert b * c - a * c == (b - a) * c;
  }

  // ------------------------------------------------- pagination in 64-bit ints

  /** The largest and the smallest value of Go's 64-bit `int`. */
  const MaxInt: int := 0x7fff_ffff_ffff_ffff
  const MinInt: int := -0x8000_0000_0000_0000

  /** 2^64, the modulus of Go's `int` arithmetic. */
  const IntModulus: int := 0x1_0000_0000_0000_0000

  /** The `int` Go stores for the exact result `x`: `x` taken modulo 2^64 into `MinInt..MaxInt`. */
  function Wrap(x: int): (r: int)
    ensures MinInt <= r <= MaxInt
    ensures (x - r) % IntModulus == 0
    ensures MinInt <= x <= MaxInt ==> r == x
  {
    var m := x % IntModulus;
    if m > MaxInt then m - IntModulus else m
  }

  /**
   * What `strconv.Atoi` yields for the decimal text of `n`: `n` itself when
   * it fits an `int`, otherwise the nearest end of the range (the range error
   * that comes with it is dropped by both handlers).
   */
  function AtoiSaturate(n: int): (r: int)
    ensures MinInt <= r <= MaxInt
    ensures MinInt <= n <= MaxInt ==> r == n
    ensures n > MaxInt ==> r == MaxInt
    ensures n < MinInt ==> r == MinInt
  {
    if n > MaxInt then MaxInt else if n < MinInt then MinInt else n
  }

  /**
   * The paging of `ListTasksHandler` as written, in Go's 64-bit `int`:
   * `(page-1)*pageSize` and `start+pageSize` wrap around, and slicing the
   * list at a negative start, or at an end before the start, panics, which
   * is `None` here.
   */
  function PageForAsWritten<T>(tasks: seq<T>, page: int, pageSize: int): (r: Option<Page<T>>)
    requires MinInt <= page <= MaxInt && MinInt <= pageSize <= MaxInt
  {
    var p, size, total := ClampPage(page), ClampPageSize(pageSize), |tasks|;
    var start0 := Wrap((p - 1) * size);
    var end0 := Wrap(start0 + size);
    var start := if start0 >= total then total else start0;
    var end := if end0 > total then total else end0;
    if start < total && !(0 <= start <= end) then None
    else Some(Page(if start < total then Some(tasks[start..end]) else None, total, p, size, PageCount(total, size)))
  }

  /**
   * While `page * pageSize` fits an `int` (after the clamps), the 64-bit
   * paging is the page `PageFor` describes: nothing wraps and nothing panics.
   */
  lemma PageForAsWrittenAgrees<T>(tasks: seq<T>, page: int, pageSize: int)
    requires MinInt <= page <= MaxInt && MinInt <= pageSize <= MaxInt
    requires ClampPage(page) * ClampPageSize(pageSize) <= MaxInt
    ensures PageForAsWritten(tasks, page, pageSize) == Some(PageFor(tasks, page, pageSize))
  {
    var p, size := ClampPage(page), ClampPageSize(pageSize);
    assert (p - 1) * size + size == p * size;
    MulMono(1, p, size);
  }

  /**
   * `?page=99999999999999999999`: `Atoi` saturates to `MaxInt`, the start
   * `(MaxInt-1)*10` wraps to -20, and slicing a non-empty list there panics.
   */
  lemma HugePagePanics<T>(tasks: seq<T>)
    requires |tasks| > 0
    ensures PageForAsWritten(tasks, AtoiSaturate(99999999999999999999), 10) == None
  {
    assert (MaxInt - 1) * 10 == 5 * IntModulus - 20;
    assert Wrap((MaxInt - 1) * 10) == -20;
  }

  /**
   * `?page=4611686018427387905&page_size=4`: `(page-1)*4` is 2^64, which wraps
   * to 0, so the reply repeats the first page where `PageFor` has no list.
   */
  lemma WrappedPageRepeats<T>(tasks: seq<T>)
    requires 4 <= |tasks| <= MaxInt
    ensures PageForAsWritten(tasks, 0x4000_0000_0000_0001, 4).Some?
    ensures PageForAsWritten(tasks, 0x4000_0000_0000_0001, 4).value.tasks == Some(tasks[..4]) == PageFor(tasks, 1, 4).tasks
    ensures PageFor(tasks, 0x4000_0000_0000_0001, 4).tasks.None?
  {
    assert (0x4000_0000_0000_0001 - 1) * 4 == IntModulus;
    assert Wrap(IntModulus) == 0;
  }
}
